/** The pitch layout of a lineup (`computePositions` in the match detail screen):
    a formation label such as `"4-3-3"` is parsed into outfield line sizes, and
    every starter gets a point on a 100 x 100 pitch — the goalkeeper first, then
    each line evenly spaced, then `(50,50)` padding or truncation. */
module Formation {
  import opened Seqs
  import opened Text

  /** A pitch coordinate in percent of the pitch width and height. */
  datatype Point = Point(x: int, y: int)

  const DefaultCounts: seq<int> := [4, 4, 2]
  const Goalkeeper: Point := Point(50, 85)
  const Fallback: Point := Point(50, 50)
  /** Vertical position of the first and of the last outfield line. */
  const YStart: int := 65
  const YEnd: int := 18
  /** Left edge and width of the horizontal band a line is spread over. */
  const Left: int := 15
  const Span: int := 70

  // ---- Math.round on exact rationals ----

  /** `Math.round(num / den)` for a non-negative rational: `floor(num/den + 1/2)`,
      so halves round up. */
  function RoundDiv(num: int, den: int): (r: int)
    requires num >= 0 && den > 0
    ensures 2 * den * r <= 2 * num + den < 2 * den * (r + 1)
  {
    var q := (2 * num + den) / (2 * den);
    assert 2 * num + den == q * (2 * den) + (2 * num + den) % (2 * den);
    assert 2 * den * (q + 1) == 2 * den * q + 2 * den;
    q
  }

  lemma MulLeftMono(c: int, a: int, b: int)
    requires c >= 0 && a <= b
    ensures c * a <= c * b
  {
    assert c * b - c * a == c * (b - a);
  }

  /** The rounding bounds determine the rounded value. */
  lemma RoundDivUnique(num: int, den: int, r: int)
    requires num >= 0 && den > 0
    requires 2 * den * r <= 2 * num + den < 2 * den * (r + 1)
    ensures RoundDiv(num, den) == r
  {
    var q := RoundDiv(num, den);
    if q < r {
      MulLeftMono(2 * den, q + 1, r);
    } else if q > r {
      MulLeftMono(2 * den, r + 1, q);
    }
  }

  /** Whole numbers round to themselves. */
  lemma RoundDivExact(q: int, den: int)
    requires q >= 0 && den > 0
    ensures q * den >= 0 && RoundDiv(q * den, den) == q
  {
    MulLeftMono(den, 0, q);
    assert 2 * den * (q + 1) == 2 * (q * den) + 2 * den;
    RoundDivUnique(q * den, den, q);
  }

  /** Adding one whole unit adds one to the rounded value. */
  lemma RoundDivShift(num: int, den: int)
    requires num >= 0 && den > 0
    ensures RoundDiv(num + den, den) == RoundDiv(num, den) + 1
  {
    var q := RoundDiv(num, den);
    assert 2 * den * (q + 1) == 2 * den * q + 2 * den;
    assert 2 * den * (q + 2) == 2 * den * (q + 1) + 2 * den;
    RoundDivUnique(num + den, den, q + 1);
  }

  /** Rounding is monotone in the numerator. */
  lemma RoundDivMono(a: int, b: int, den: int)
    requires 0 <= a <= b && den > 0
    ensures RoundDiv(a, den) <= RoundDiv(b, den)
  {
    var ra, rb := RoundDiv(a, den), RoundDiv(b, den);
    if ra > rb {
      MulLeftMono(2 * den, rb + 1, ra);
    }
  }

  /** A numerator at least one whole unit larger rounds strictly higher. */
  lemma RoundDivStrict(a: int, b: int, den: int)
    requires 0 <= a && a + den <= b && den > 0
    ensures RoundDiv(a, den) < RoundDiv(b, den)
  {
    RoundDivShift(a, den);
    RoundDivMono(a + den, b, den);
  }

  /** A numerator between `lo` and `hi` whole units rounds into `[lo, hi]`. */
  lemma RoundDivBetween(num: int, den: int, lo: nat, hi: nat)
    requires den > 0 && lo * den <= num <= hi * den
    ensures lo <= RoundDiv(num, den) <= hi
  {
    RoundDivExact(lo, den);
    RoundDivExact(hi, den);
    RoundDivMono(lo * den, num, den);
    RoundDivMono(num, hi * den, den);
  }

  // ---- Parsing the formation label ----

  /** `parseInt(token, 10)` of every token. */
  function ParseTokens(tokens: seq<string>): (parsed: seq<Option<int>>)
    ensures |parsed| == |tokens|
    ensures forall i :: 0 <= i < |tokens| ==> parsed[i] == ParseInt(tokens[i])
  {
    seq(|tokens|, i requires 0 <= i < |tokens| => ParseInt(tokens[i]))
  }

  /** Kept by the filter `n => !isNaN(n) && n > 0`. */
  predicate IsPositiveNumber(n: Option<int>)
  {
    n.Some? && n.value > 0
  }

  /** The numbers of a list of parsed numbers that are all present. */
  function Values(s: seq<Option<int>>): (r: seq<int>)
    requires forall i :: 0 <= i < |s| ==> s[i].Some?
    ensures |r| == |s| && forall i :: 0 <= i < |s| ==> s[i] == Some(r[i])
  {
    seq(|s|, i requires 0 <= i < |s| => s[i].value)
  }

  /** `label.split('-').map(s => parseInt(s, 10)).filter(n => !isNaN(n) && n > 0)`. */
  function PositiveCounts(formationLabel: string): (counts: seq<int>)
    ensures forall i :: 0 <= i < |counts| ==> counts[i] > 0
  {
    var kept := Filter(ParseTokens(Split(formationLabel, '-')), IsPositiveNumber);
    Values(kept)
  }

  /** The outfield line sizes of a formation label: the positive numbers among its
      `-`-separated tokens, or `[4, 4, 2]` when the label is absent, empty or has
      none. */
  function ParseFormation(formationLabel: Option<string>): (counts: seq<int>)
    ensures |counts| >= 1
    ensures forall i :: 0 <= i < |counts| ==> counts[i] > 0
  {
    if formationLabel.None? || formationLabel.value == "" then DefaultCounts
    else
      var parsed := PositiveCounts(formationLabel.value);
      if |parsed| > 0 then parsed else DefaultCounts
  }

  /** Line sizes as the lineup generator prints them: `counts.join('-')`. */
  function CountsLabel(counts: seq<nat>): string
  {
    Join(seq(|counts|, i requires 0 <= i < |counts| => IntToString(counts[i])), '-')
  }

  /** Printing positive line sizes with `-` between them and parsing the label
      again gives back the same line sizes. */
  lemma ParseFormationOfLabel(counts: seq<nat>)
    requires |counts| >= 1
    requires forall i :: 0 <= i < |counts| ==> counts[i] > 0
    ensures ParseFormation(Some(CountsLabel(counts))) == counts
  {
    var tokens := seq(|counts|, i requires 0 <= i < |counts| => IntToString(counts[i]));
    TokensOfLabel(counts, tokens);
    PrintedTokensSurvive(counts, tokens);
    CountsLabelNonEmpty(counts);
    ParseFormationOfTokens(CountsLabel(counts), tokens, counts);
  }

  /** Every printed positive line size survives the parse-and-filter step. */
  lemma PrintedTokensSurvive(counts: seq<nat>, tokens: seq<string>)
    requires forall i :: 0 <= i < |counts| ==> counts[i] > 0
    requires |tokens| == |counts|
    requires forall i :: 0 <= i < |tokens| ==> ParseInt(tokens[i]) == Some(counts[i] as int)
    ensures Values(Filter(ParseTokens(tokens), IsPositiveNumber)) == counts
  {
    var parsed := ParseTokens(tokens);
    FilterKeepsAll(parsed, IsPositiveNumber);
  }

  /** A printed formation of at least one line is not the empty string. */
  lemma CountsLabelNonEmpty(counts: seq<nat>)
    requires |counts| >= 1
    ensures CountsLabel(counts) != ""
  {
    var tokens := seq(|counts|, i requires 0 <= i < |counts| => IntToString(counts[i]));
    assert |tokens[0]| >= 1;
    if |tokens| == 1 {
      assert CountsLabel(counts) == tokens[0];
    } else {
      assert CountsLabel(counts) == tokens[0] + ['-'] + Join(tokens[1..], '-');
    }
  }

  /** A non-empty label whose surviving tokens are `counts` parses to `counts`. */
  lemma ParseFormationOfTokens(text: string, tokens: seq<string>, counts: seq<int>)
    requires text != "" && |counts| > 0
    requires Split(text, '-') == tokens
    requires Values(Filter(ParseTokens(tokens), IsPositiveNumber)) == counts
    ensures ParseFormation(Some(text)) == counts
  {
  }

  /** The `-`-separated tokens of a printed formation are the printed line sizes,
      and each reads back as its line size. */
  lemma TokensOfLabel(counts: seq<nat>, tokens: seq<string>)
    requires |counts| >= 1
    requires tokens == seq(|counts|, i requires 0 <= i < |counts| => IntToString(counts[i]))
    ensures Split(CountsLabel(counts), '-') == tokens
    ensures forall i :: 0 <= i < |tokens| ==> ParseInt(tokens[i]) == Some(counts[i] as int)
  {
    forall i | 0 <= i < |tokens|
      ensures '-' !in tokens[i] && ParseInt(tokens[i]) == Some(counts[i] as int)
    {
      var digits := NatToString(counts[i]);
      assert tokens[i] == digits;
      assert forall k :: 0 <= k < |digits| ==> IsDigit(digits[k]);
      ParseIntOfIntToString(counts[i]);
    }
    SplitJoin(tokens, '-');
  }

  // ---- Coordinates ----

  /** Every line size is positive, as parsing guarantees. */
  ghost predicate ValidCounts(counts: seq<int>)
  {
    forall i :: 0 <= i < |counts| ==> counts[i] > 0
  }

  /** The height of outfield line `line` of `lines`:
      `Math.round(65 - line * (65 - 18) / (lines - 1))`, or 65 for a single line. */
  function LineY(line: nat, lines: nat): (y: int)
    requires line < lines
    ensures YEnd <= y <= YStart
  {
    if lines > 1 then
      RoundDivBetween(YStart * (lines - 1) - (YStart - YEnd) * line, lines - 1, YEnd, YStart);
      RoundDiv(YStart * (lines - 1) - (YStart - YEnd) * line, lines - 1)
    else YStart
  }

  /** The horizontal position of player `i` of a line of `n`:
      `Math.round(15 + i * 70 / (n - 1))`, or 50 for a one-player line. */
  function LineX(i: nat, n: int): (x: int)
    requires i < n
    ensures Left <= x <= Left + Span
  {
    if n == 1 then 50
    else
      RoundDivBetween(Left * (n - 1) + Span * i, n - 1, Left, Left + Span);
      RoundDiv(Left * (n - 1) + Span * i, n - 1)
  }

  /** The points of one line of `n` players at height `y`. */
  function LinePoints(n: int, y: int): (pts: seq<Point>)
    requires n >= 1
    ensures |pts| == n
    ensures forall i :: 0 <= i < n ==> pts[i] == Point(LineX(i, n), y)
  {
    seq(n, i requires 0 <= i < n => Point(LineX(i, n), y))
  }

  /** The points of outfield lines `0 .. upto - 1`, line after line. */
  function Outfield(counts: seq<int>, upto: nat): (pts: seq<Point>)
    requires ValidCounts(counts) && upto <= |counts|
    ensures |pts| == Sum(counts[..upto])
    decreases upto
  {
    if upto == 0 then []
    else
      assert counts[..upto] == counts[..upto - 1] + [counts[upto - 1]];
      SumSnoc(counts[..upto - 1], counts[upto - 1]);
      Outfield(counts, upto - 1) + LinePoints(counts[upto - 1], LineY(upto - 1, |counts|))
  }

  /** The goalkeeper's anchor followed by every outfield line. */
  function Layout(counts: seq<int>): (pts: seq<Point>)
    requires ValidCounts(counts)
    ensures |pts| == 1 + Sum(counts)
  {
    assert counts[..|counts|] == counts;
    [Goalkeeper] + Outfield(counts, |counts|)
  }

  /** `points` padded with `(50,50)` or truncated (`slice(0, count)`) to exactly `count` entries. */
  function Fit(points: seq<Point>, count: nat): (r: seq<Point>)
    ensures |r| == count
    ensures forall i :: 0 <= i < count ==> r[i] == if i < |points| then points[i] else Fallback
  {
    if |points| >= count then points[..count]
    else points + seq(count - |points|, _ => Fallback)
  }

  /** `computePositions(formationLabel, startersCount)`: the formation label is
      parsed, then the points are laid out for its line sizes. Exactly
      `startersCount` points come back, the goalkeeper's anchor first. */
  method ComputePositions(formationLabel: Option<string>, startersCount: nat) returns (positions: seq<Point>)
    ensures positions == Fit(Layout(ParseFormation(formationLabel)), startersCount)
    ensures |positions| == startersCount
    ensures startersCount >= 1 ==> positions[0] == Goalkeeper
  {
    var counts := ParseFormation(formationLabel);
    positions := PlaceLines(counts, startersCount);
  }

  /** The coordinate loop of `computePositions`: push the goalkeeper, then every
      player of every line, then `(50,50)` until there are `startersCount`
      points, and keep the first `startersCount`. */
  method PlaceLines(counts: seq<int>, startersCount: nat) returns (positions: seq<Point>)
    requires ValidCounts(counts)
    ensures positions == Fit(Layout(counts), startersCount)
    ensures |positions| == startersCount
    ensures startersCount >= 1 ==> positions[0] == Goalkeeper
  {
    positions := [Goalkeeper];
    var lines := |counts|;
    for line := 0 to lines
      invariant positions == [Goalkeeper] + Outfield(counts, line)
    {
      positions := PushLine(positions, counts[line], LineY(line, lines));
      assert Outfield(counts, line + 1) == Outfield(counts, line) + LinePoints(counts[line], LineY(line, lines));
    }
    positions := PadAndCut(positions, startersCount);
  }

  /** The inner loop of `computePositions`: one player of a line of `n` at a
      time, at `(50, y)` for a one-player line. */
  method PushLine(points: seq<Point>, n: int, y: int) returns (positions: seq<Point>)
    requires n >= 1
    ensures positions == points + LinePoints(n, y)
  {
    positions := points;
    if n == 1 {
      positions := positions + [Point(50, y)];
      assert LinePoints(n, y) == [Point(50, y)];
    } else {
      for i := 0 to n
        invariant positions == points + LinePoints(n, y)[..i]
      {
        var x := RoundDiv(Left * (n - 1) + Span * i, n - 1);
        positions := positions + [Point(x, y)];
        assert LinePoints(n, y)[..i + 1] == LinePoints(n, y)[..i] + [Point(x, y)];
      }
      assert LinePoints(n, y)[..n] == LinePoints(n, y);
    }
  }

  /** The padding loop and the final `slice(0, count)` of `computePositions`. */
  method PadAndCut(points: seq<Point>, count: nat) returns (positions: seq<Point>)
    ensures positions == Fit(points, count)
  {
    positions := points;
    while |positions| < count
      invariant |positions| >= |points|
      invariant positions == points + seq(|positions| - |points|, _ => Fallback)
      decreases count - |positions|
    {
      positions := positions + [Fallback];
    }
    positions := positions[..count];
  }

  // ---- Properties of the layout ----

  /** Player `i` of outfield line `line` sits after every player of the earlier
      lines, at that line's height and at its own place within the line. */
  lemma {:induction false} OutfieldAt(counts: seq<int>, upto: nat, line: nat, i: nat)
    requires ValidCounts(counts) && upto <= |counts|
    requires line < upto && i < counts[line]
    ensures 0 <= Sum(counts[..line]) && Sum(counts[..line]) + i < |Outfield(counts, upto)|
    ensures Outfield(counts, upto)[Sum(counts[..line]) + i] == Point(LineX(i, counts[line]), LineY(line, |counts|))
    decreases upto
  {
    if line < upto - 1 {
      OutfieldAt(counts, upto - 1, line, i);
    } else {
      assert |Outfield(counts, line)| == Sum(counts[..line]);
    }
  }

  /** The same statement for the whole layout, after the goalkeeper. */
  lemma LayoutAt(counts: seq<int>, line: nat, i: nat)
    requires ValidCounts(counts) && line < |counts| && i < counts[line]
    ensures 0 <= Sum(counts[..line]) && 1 + Sum(counts[..line]) + i < |Layout(counts)|
    ensures Layout(counts)[1 + Sum(counts[..line]) + i] == Point(LineX(i, counts[line]), LineY(line, |counts|))
  {
    OutfieldAt(counts, |counts|, line, i);
  }

  /** Later lines are never lower on the pitch than earlier ones... */
  lemma LineYMonotone(a: nat, b: nat, lines: nat)
    requires a <= b < lines
    ensures LineY(b, lines) <= LineY(a, lines)
  {
    if lines > 1 {
      RoundDivMono(YStart * (lines - 1) - (YStart - YEnd) * b, YStart * (lines - 1) - (YStart - YEnd) * a, lines - 1);
    }
  }

  /** ...and strictly higher as long as the step between lines is at least one unit. */
  lemma LineYStrict(line: nat, lines: nat)
    requires line + 1 < lines <= 48
    ensures LineY(line + 1, lines) < LineY(line, lines)
  {
    RoundDivStrict(YStart * (lines - 1) - (YStart - YEnd) * (line + 1), YStart * (lines - 1) - (YStart - YEnd) * line, lines - 1);
  }

  /** The first and the last player of the first line sit at heights 65, the last line at 18. */
  lemma LineYEnds(lines: nat)
    requires lines >= 2
    ensures LineY(0, lines) == YStart && LineY(lines - 1, lines) == YEnd
  {
    RoundDivExact(YStart, lines - 1);
    RoundDivExact(YEnd, lines - 1);
  }

  /** A line of two or more players runs from 15 to 85. */
  lemma LineXEnds(n: int)
    requires n >= 2
    ensures LineX(0, n) == Left && LineX(n - 1, n) == Left + Span
  {
    RoundDivExact(Left, n - 1);
    RoundDivExact(Left + Span, n - 1);
  }

  /** Within a line, positions never decrease from left to right... */
  lemma LineXMonotone(i: nat, j: nat, n: int)
    requires i <= j < n
    ensures LineX(i, n) <= LineX(j, n)
  {
    if n > 1 {
      RoundDivMono(Left * (n - 1) + Span * i, Left * (n - 1) + Span * j, n - 1);
    }
  }

  /** ...and strictly increase while the spacing `70 / (n - 1)` is at least one unit. */
  lemma LineXStrict(i: nat, n: int)
    requires i + 1 < n <= Span + 1
    ensures LineX(i, n) < LineX(i + 1, n)
  {
    RoundDivStrict(Left * (n - 1) + Span * i, Left * (n - 1) + Span * (i + 1), n - 1);
  }

  /** Where a point may lie: the goalkeeper's anchor, the outfield band or the padding. */
  predicate OnPitch(p: Point)
  {
    Left <= p.x <= Left + Span && YEnd <= p.y <= Goalkeeper.y
  }

  lemma {:induction false} OutfieldOnPitch(counts: seq<int>, upto: nat)
    requires ValidCounts(counts) && upto <= |counts|
    ensures forall k :: 0 <= k < |Outfield(counts, upto)| ==> OnPitch(Outfield(counts, upto)[k])
    decreases upto
  {
    if upto > 0 {
      OutfieldOnPitch(counts, upto - 1);
    }
  }

  /** Every point `computePositions` can return lies inside `[15,85] x [18,85]`,
      hence on the `[0,100] x [0,100]` pitch. */
  lemma PositionsOnPitch(formationLabel: Option<string>, startersCount: nat)
    ensures forall k :: 0 <= k < startersCount ==>
      OnPitch(Fit(Layout(ParseFormation(formationLabel)), startersCount)[k])
  {
    FitOnPitch(ParseFormation(formationLabel), startersCount);
  }

  lemma FitOnPitch(counts: seq<int>, startersCount: nat)
    requires ValidCounts(counts)
    ensures forall k :: 0 <= k < startersCount ==> OnPitch(Fit(Layout(counts), startersCount)[k])
  {
    LayoutOnPitch(counts);
  }

  lemma LayoutOnPitch(counts: seq<int>)
    requires ValidCounts(counts)
    ensures forall k :: 0 <= k < |Layout(counts)| ==> OnPitch(Layout(counts)[k])
  {
    OutfieldOnPitch(counts, |counts|);
    var layout := Layout(counts);
    forall k | 0 <= k < |layout| ensures OnPitch(layout[k]) {
      if k > 0 {
        assert layout[k] == Outfield(counts, |counts|)[k - 1];
      }
    }
  }

  /** An absent or empty label falls back to `[4, 4, 2]`. */
  lemma ParseFormationDefaults()
    ensures ParseFormation(None) == [4, 4, 2]
    ensures ParseFormation(Some("")) == [4, 4, 2]
  {
  }

  /** A label such as `"x-y"`, whose tokens are no numbers, falls back to `[4, 4, 2]`. */
  lemma MalformedFormationDefaults(a: char, b: char)
    requires NonNumeric(a) && NonNumeric(b)
    ensures ParseFormation(Some([a, '-', b])) == [4, 4, 2]
  {
    DashPairTokens(a, b);
    NonNumericPair(a, b);
    FormationWithoutNumbers([a, '-', b], [[a], [b]]);
  }

  /** Two non-numeric one-character tokens leave no line sizes. */
  lemma NonNumericPair(a: char, b: char)
    requires NonNumeric(a) && NonNumeric(b)
    ensures Filter(ParseTokens([[a], [b]]), IsPositiveNumber) == []
  {
    var tokens := [[a], [b]];
    ParseIntOfNonNumeric(a);
    ParseIntOfNonNumeric(b);
    assert ParseInt(tokens[0]) == None && ParseInt(tokens[1]) == None;
    NoPositiveTokens(tokens);
  }

  /** A non-empty label none of whose tokens is a positive number gets the default lines. */
  lemma FormationWithoutNumbers(formationLabel: string, tokens: seq<string>)
    requires formationLabel != "" && Split(formationLabel, '-') == tokens
    requires Filter(ParseTokens(tokens), IsPositiveNumber) == []
    ensures ParseFormation(Some(formationLabel)) == DefaultCounts
  {
  }

  /** Neither white space, a sign nor a digit. */
  predicate NonNumeric(c: char)
  {
    !IsJsWhiteSpace(c) && c != '-' && c != '+' && !IsDigit(c)
  }

  /** A dash between two such characters splits them apart. */
  lemma DashPairTokens(a: char, b: char)
    requires NonNumeric(a) && NonNumeric(b)
    ensures Split([a, '-', b], '-') == [[a], [b]]
  {
    SplitTwo([a], [b], '-');
    assert [a] + ['-'] + [b] == [a, '-', b];
  }

  /** Tokens none of which reads as a number leave no line sizes. */
  lemma NoPositiveTokens(tokens: seq<string>)
    requires forall i :: 0 <= i < |tokens| ==> ParseInt(tokens[i]) == None
    ensures Filter(ParseTokens(tokens), IsPositiveNumber) == []
  {
    FilterRejectsAll(ParseTokens(tokens), IsPositiveNumber);
  }

  /** The well-formed label `"4-3-3"` gives its line sizes. */
  lemma ParseFormation433()
    ensures ParseFormation(Some("4-3-3")) == [4, 3, 3]
  {
    assert IntToString(4) == "4" && IntToString(3) == "3";
    var tokens := seq(3, i requires 0 <= i < 3 => IntToString([4, 3, 3][i]));
    assert tokens == ["4", "3", "3"];
    assert Join(["3"], '-') == "3";
    assert Join(["3", "3"], '-') == "3-3";
    assert CountsLabel([4, 3, 3]) == Join(tokens, '-') == "4-3-3";
    ParseFormationOfLabel([4, 3, 3]);
  }

  /** The well-formed label `"3-5-2"` gives its line sizes. */
  lemma ParseFormation352()
    ensures ParseFormation(Some("3-5-2")) == [3, 5, 2]
  {
    assert IntToString(3) == "3" && IntToString(5) == "5" && IntToString(2) == "2";
    var tokens := seq(3, i requires 0 <= i < 3 => IntToString([3, 5, 2][i]));
    assert tokens == ["3", "5", "2"];
    assert Join(["2"], '-') == "2";
    assert Join(["5", "2"], '-') == "5-2";
    assert CountsLabel([3, 5, 2]) == Join(tokens, '-') == "3-5-2";
    ParseFormationOfLabel([3, 5, 2]);
  }

  /** The default `[4, 4, 2]` layout: the goalkeeper, two lines of four and a line of two. */
  lemma DefaultLayout()
    ensures Layout(DefaultCounts) == [
      Point(50, 85),
      Point(15, 65), Point(38, 65), Point(62, 65), Point(85, 65),
      Point(15, 42), Point(38, 42), Point(62, 42), Point(85, 42),
      Point(15, 18), Point(85, 18)]
  {
    var c := DefaultCounts;
    DefaultHeights();
    LineOfFour(65);
    LineOfFour(42);
    LineOfTwo(18);
    assert Outfield(c, 1) == LinePoints(4, 65);
    assert Outfield(c, 2) == Outfield(c, 1) + LinePoints(4, 42);
    assert Outfield(c, 3) == Outfield(c, 2) + LinePoints(2, 18);
  }

  /** Three lines sit at heights 65, 42 (41.5 rounded up) and 18. */
  lemma DefaultHeights()
    ensures LineY(0, 3) == 65 && LineY(1, 3) == 42 && LineY(2, 3) == 18
  {
    RoundDivUnique(130, 2, 65);
    RoundDivUnique(83, 2, 42);
    RoundDivUnique(36, 2, 18);
  }

  /** A line of four players sits at 15, 38, 62 and 85 across the pitch. */
  lemma LineOfFour(y: int)
    ensures LinePoints(4, y) == [Point(15, y), Point(38, y), Point(62, y), Point(85, y)]
  {
    RoundDivUnique(45, 3, 15);
    RoundDivUnique(115, 3, 38);
    RoundDivUnique(185, 3, 62);
    RoundDivUnique(255, 3, 85);
  }

  /** A line of two players sits at 15 and 85 across the pitch. */
  lemma LineOfTwo(y: int)
    ensures LinePoints(2, y) == [Point(15, y), Point(85, y)]
  {
    RoundDivUnique(15, 1, 15);
    RoundDivUnique(85, 1, 85);
  }

  /** Eleven starters without a formation label get exactly the default layout. */
  lemma DefaultPositions()
    ensures Fit(Layout(ParseFormation(None)), 11) == Layout(DefaultCounts)
  {
    DefaultLayout();
    assert Layout(DefaultCounts)[..11] == Layout(DefaultCounts);
  }
}

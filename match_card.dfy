/** A match list card: the league and status pills, each team's logo or a badge
    with its initials, the team names and the score line. */
module MatchCard {
  import opened Seqs
  import opened Text
  import opened Domain

  /** `s[0]` joined as text: the first character, or nothing for an empty word. */
  function FirstLetter(word: string): (letter: string)
    ensures |letter| <= 1
    ensures letter == [] <==> word == []
    ensures letter != [] ==> letter[0] == word[0]
  {
    if word == [] then "" else [word[0]]
  }

  /** The first letters of the first two space-separated pieces, joined. */
  function LeadingLetters(name: string): (letters: string)
    ensures |letters| <= 2
    ensures name != [] && name[0] != ' ' ==> |letters| >= 1 && letters[0] == name[0]
  {
    var parts := Split(name, ' ');
    SplitFirstPiece(name, ' ');
    var first := FirstLetter(parts[0]);
    if |parts| >= 2 then
      var second := FirstLetter(parts[1]);
      ConcatOneOrTwo(first, second);
      Concat([first, second])
    else
      ConcatOneOrTwo(first, "");
      Concat([first])
  }

  /** `initials(name)`: the first letters of the first two space-separated
      pieces of the name, upper-cased; an empty piece (a doubled or a leading
      space) contributes nothing; an empty name gives the empty text. */
  function Initials(name: string): (initials: string)
    ensures |initials| <= 2
    ensures forall i :: 0 <= i < |initials| ==> !('a' <= initials[i] <= 'z')
    ensures name == [] ==> initials == []
    ensures name != [] && name[0] != ' ' ==> |initials| >= 1 && initials[0] == UpperChar(name[0])
  {
    if name == [] then "" else ToUpper(LeadingLetters(name))
  }

  /** A name made of space-separated pieces, any of which may be empty (from a
      leading, trailing or doubled space): its initials are the upper-cased
      first letters of its first two pieces, an empty piece contributing nothing. */
  lemma InitialsOfWords(words: seq<string>)
    requires |words| >= 1
    requires forall i :: 0 <= i < |words| ==> ' ' !in words[i]
    ensures Initials(Join(words, ' ')) ==
            ToUpper(FirstLetter(words[0]) + (if |words| >= 2 then FirstLetter(words[1]) else ""))
  {
    var name := Join(words, ' ');
    SplitJoin(words, ' ');
    var first := FirstLetter(words[0]);
    var second := if |words| >= 2 then FirstLetter(words[1]) else "";
    ConcatOneOrTwo(first, second);
    if name == [] {
      assert words == Split(name, ' ') == [""];
      assert first + second == "";
    } else {
      assert first + "" == first;
      assert LeadingLetters(name) == first + second;
    }
  }

  /** For words separated by single spaces, the initials are the upper-cased
      first letters of the first two words. */
  lemma InitialsOfNonEmptyWords(words: seq<string>)
    requires |words| >= 1
    requires forall i :: 0 <= i < |words| ==> words[i] != [] && ' ' !in words[i]
    ensures |words| == 1 ==> Initials(Join(words, ' ')) == [UpperChar(words[0][0])]
    ensures |words| >= 2 ==>
      Initials(Join(words, ' ')) == [UpperChar(words[0][0]), UpperChar(words[1][0])]
  {
    InitialsOfWords(words);
    if |words| >= 2 {
      UpperLetters(words[0], words[1]);
    } else {
      UpperLetters(words[0], "");
    }
  }

  /** The upper-cased first letters of two pieces, the second possibly empty. */
  lemma UpperLetters(a: string, b: string)
    requires a != []
    ensures b != [] ==> ToUpper(FirstLetter(a) + FirstLetter(b)) == [UpperChar(a[0]), UpperChar(b[0])]
    ensures b == [] ==> ToUpper(FirstLetter(a) + FirstLetter(b)) == [UpperChar(a[0])]
  {
    var letters := FirstLetter(a) + FirstLetter(b);
    assert letters == if b != [] then [a[0], b[0]] else [a[0]];
  }

  /** A leading space makes an empty first piece, which contributes nothing:
      `" ab"` has the initial `A`. */
  lemma InitialsSkipLeadingSpace(word: string)
    requires word != [] && ' ' !in word
    ensures Initials([' '] + word) == [UpperChar(word[0])]
  {
    var words := ["", word];
    assert Join(words, ' ') == [' '] + word by {
      assert words[1..] == [word];
    }
    InitialsOfWords(words);
    assert FirstLetter("") + FirstLetter(word) == [word[0]];
  }

  /** A doubled space makes an empty second piece, which contributes nothing:
      `"a  b"` has the initial `A`. */
  lemma InitialsSkipDoubledSpace(first: string, rest: string)
    requires first != [] && ' ' !in first && ' ' !in rest
    ensures Initials(first + "  " + rest) == [UpperChar(first[0])]
  {
    var words := [first, "", rest];
    assert Join(words, ' ') == first + "  " + rest by {
      assert words[1..] == ["", rest] && words[1..][1..] == [rest];
      assert Join(["", rest], ' ') == [' '] + rest;
    }
    InitialsOfWords(words);
    assert FirstLetter(first) + FirstLetter("") == [first[0]];
  }

  /** What stands for a team on the card: its logo, or a circle with its initials. */
  datatype Badge = Logo(uri: string) | InitialsBadge(text: string)

  /** A truthy logo (present and not empty) is shown; otherwise the initials of
      the displayed team name. */
  function TeamBadge(logo: Option<string>, shownName: string): (badge: Badge)
    ensures badge.Logo? <==> logo.Some? && logo.value != ""
    ensures badge.Logo? ==> badge.uri == logo.value
    ensures badge.InitialsBadge? ==> badge.text == Initials(shownName)
  {
    if logo.Some? && logo.value != "" then Logo(logo.value) else InitialsBadge(Initials(shownName))
  }

  /** `x || ''` on an optional string: the text, or the empty text. */
  function OrEmpty(s: Option<string>): (t: string)
    ensures s.Some? ==> t == s.value
    ensures s.None? ==> t == ""
  {
    if s.Some? then s.value else ""
  }

  /** The score line: each side's goals, or `-` while unknown, around a bullet. */
  function ScoreText(home: Option<int>, away: Option<int>): (score: string)
  {
    NumberOrDash(home) + "  •  " + NumberOrDash(away)
  }

  /** A printed number or dash holds only digits and minus signs. */
  lemma NumberOrDashChars(n: Option<int>)
    ensures forall i :: 0 <= i < |NumberOrDash(n)| ==> IsDigit(NumberOrDash(n)[i]) || NumberOrDash(n)[i] == '-'
  {
    if n.Some? && n.value < 0 {
      var digits := NatToString(-n.value);
      assert NumberOrDash(n) == "-" + digits;
    }
  }

  /** The score line reads back: split at the bullet, each side parses to its
      team's goals, or to `NaN` when they are unknown. */
  lemma ScoreTextReadsBack(home: Option<int>, away: Option<int>)
    ensures |Split(ScoreText(home, away), '•')| == 2
    ensures ParseInt(Split(ScoreText(home, away), '•')[0]) == home
    ensures ParseInt(Split(ScoreText(home, away), '•')[1]) == away
  {
    ScoreTextSplits(home, away);
    ParseIntOfNumberOrDashThen(home, "  ");
    ParseIntOfPaddedNumber(away);
  }

  /** The score line is the two sides, each padded by two spaces towards the bullet. */
  lemma ScoreTextSplits(home: Option<int>, away: Option<int>)
    ensures Split(ScoreText(home, away), '•') == [NumberOrDash(home) + "  ", "  " + NumberOrDash(away)]
  {
    NumberOrDashHasNoBullet(home);
    NumberOrDashHasNoBullet(away);
    SplitAroundBullet(NumberOrDash(home), NumberOrDash(away));
  }

  lemma NumberOrDashHasNoBullet(n: Option<int>)
    ensures '•' !in NumberOrDash(n)
  {
    NumberOrDashChars(n);
    var s := NumberOrDash(n);
    assert forall i :: 0 <= i < |s| ==> s[i] != '•';
  }

  lemma SplitAroundBullet(a: string, b: string)
    requires '•' !in a && '•' !in b
    ensures Split(a + "  •  " + b, '•') == [a + "  ", "  " + b]
  {
    var left := a + "  ";
    var right := "  " + b;
    assert '•' !in "  ";
    assert '•' !in left && '•' !in right;
    assert left + ['•'] + right == a + "  •  " + b;
    SplitTwo(left, right, '•');
  }

  /** Leading spaces do not change what `parseInt` reads. */
  lemma ParseIntOfPaddedNumber(n: Option<int>)
    ensures ParseInt("  " + NumberOrDash(n)) == n
  {
    ParseIntSkipsTwoSpaces(NumberOrDash(n));
  }

  lemma ParseIntSkipsTwoSpaces(s: string)
    ensures ParseInt("  " + s) == ParseInt(s)
  {
    var t := [' '] + s;
    ParseIntSkipsSpace(' ', s);
    ParseIntSkipsSpace(' ', t);
    assert "  " + s == [' '] + t;
  }

  /** Everything a match card shows. */
  datatype CardView = CardView(league: string, status: string, home: string, away: string,
                               homeBadge: Badge, awayBadge: Badge, score: string)

  /** `match.teams?.home` or `match.teams?.away`. */
  function Side(m: Match, home: bool): Option<Team>
  {
    if m.teams.None? then None else if home then m.teams.value.home else m.teams.value.away
  }

  /** `team?.name || ''`. */
  function TeamName(team: Option<Team>): string
  {
    if team.Some? then OrEmpty(team.value.name) else ""
  }

  /** `team?.logo`. */
  function TeamLogo(team: Option<Team>): Option<string>
  {
    if team.Some? then team.value.logo else None
  }

  /** `match.goals?.home ?? null` or `match.goals?.away ?? null`. */
  function GoalsOf(m: Match, home: bool): Option<int>
  {
    if m.goals.None? then None else if home then m.goals.value.home else m.goals.value.away
  }

  /** The card of a match: every missing text shown as empty, every missing
      goal count as `-`. */
  function Card(m: Match): (card: CardView)
  {
    var league := if m.league.Some? then OrEmpty(m.league.value.name) else "";
    var status := if m.fixture.status.Some? then OrEmpty(m.fixture.status.value.short) else "";
    var home := TeamName(Side(m, true));
    var away := TeamName(Side(m, false));
    CardView(league, status, home, away,
             TeamBadge(TeamLogo(Side(m, true)), home), TeamBadge(TeamLogo(Side(m, false)), away),
             ScoreText(GoalsOf(m, true), GoalsOf(m, false)))
  }

  /** A match without teams, league, status or goals still gets a card: empty
      texts, two empty initials badges and a dash for each side's goals. */
  lemma BareMatchCard(fixture: Fixture)
    requires fixture.status.None?
    ensures var card := Card(Match(fixture, None, None, None));
            && card.league == "" && card.status == "" && card.home == "" && card.away == ""
            && card.homeBadge == InitialsBadge("") && card.awayBadge == InitialsBadge("")
            && card.score == ScoreText(None, None)
  {
  }

  /** A match with known goals shows both counts in decimal, 0 included, which
      `||` would have hidden but `??` keeps. */
  lemma CardShowsGoals(m: Match, home: nat, away: nat)
    requires m.goals == Some(Goals(Some(home), Some(away)))
    ensures Card(m).score == NatToString(home) + "  •  " + NatToString(away)
  {
    assert NumberOrDash(Some(home)) == NatToString(home);
    assert NumberOrDash(Some(away)) == NatToString(away);
    assert Card(m).score == ScoreText(Some(home), Some(away));
  }

  /** A team without a logo gets a badge with the initials of its name. */
  lemma CardBadgeWithoutLogo(m: Match, home: Team)
    requires m.teams.Some? && m.teams.value.home == Some(home) && home.logo.None?
    requires home.name.Some? && |home.name.value| >= 1 && home.name.value[0] != ' '
    ensures Card(m).homeBadge.InitialsBadge?
    ensures Card(m).homeBadge.text == Initials(home.name.value)
    ensures Card(m).homeBadge.text != "" && Card(m).homeBadge.text[0] == UpperChar(home.name.value[0])
  {
  }
}

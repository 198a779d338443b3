/** The JavaScript string primitives the screens rely on: `split` and `join` on a
    one-character separator, `parseInt(s, 10)`, `String(n)` for an integer, and
    `toUpperCase` on ASCII letters. */
module Text {
  import opened Seqs

  /** `s.split(sep)` for a one-character separator: the maximal pieces between
      separators, including empty ones; never an empty list. */
  function Split(s: string, sep: char): (parts: seq<string>)
    ensures |parts| >= 1
    ensures forall i :: 0 <= i < |parts| ==> sep !in parts[i]
    decreases |s|
  {
    if s == [] then [""]
    else
      var rest := Split(s[1..], sep);
      if s[0] == sep then [""] + rest
      else [[s[0]] + rest[0]] + rest[1..]
  }

  /** `parts.join(sep)`: the pieces with one separator between neighbours. */
  function Join(parts: seq<string>, sep: char): string
    decreases |parts|
  {
    if parts == [] then ""
    else if |parts| == 1 then parts[0]
    else parts[0] + [sep] + Join(parts[1..], sep)
  }

  /** Two pieces without the separator, joined by it, split back into the two. */
  lemma SplitTwo(a: string, b: string, sep: char)
    requires sep !in a && sep !in b
    ensures Split(a + [sep] + b, sep) == [a, b]
  {
    assert Join([a, b], sep) == a + [sep] + b by {
      assert [a, b][1..] == [b];
    }
    SplitJoin([a, b], sep);
  }

  /** A string that does not start with the separator starts its first piece. */
  lemma SplitFirstPiece(s: string, sep: char)
    ensures s != [] && s[0] != sep ==> Split(s, sep)[0] != [] && Split(s, sep)[0][0] == s[0]
  {
  }

  /** Splitting and joining again gives back the original string. */
  lemma {:induction false} JoinSplit(s: string, sep: char)
    ensures Join(Split(s, sep), sep) == s
    decreases |s|
  {
    if s != [] {
      JoinSplit(s[1..], sep);
      var rest := Split(s[1..], sep);
      if s[0] == sep {
        assert Split(s, sep) == [""] + rest;
        assert ([""] + rest)[1..] == rest;
        assert s == [sep] + s[1..];
      } else if |rest| == 1 {
        assert Split(s, sep) == [[s[0]] + rest[0]];
        assert s == [s[0]] + s[1..];
      } else {
        assert Split(s, sep) == [[s[0]] + rest[0]] + rest[1..];
        assert Join(rest, sep) == rest[0] + [sep] + Join(rest[1..], sep);
        assert ([[s[0]] + rest[0]] + rest[1..])[1..] == rest[1..];
        assert s == [s[0]] + s[1..];
      }
    }
  }

  /** Joining pieces that do not contain the separator and splitting again gives
      back the pieces. */
  lemma {:induction false} SplitJoin(parts: seq<string>, sep: char)
    requires |parts| >= 1
    requires forall i :: 0 <= i < |parts| ==> sep !in parts[i]
    ensures Split(Join(parts, sep), sep) == parts
    decreases |parts|, |parts[0]|
  {
    if |parts| == 1 {
      SplitNoSeparator(parts[0], sep);
    } else if parts[0] == [] {
      SplitJoin(parts[1..], sep);
      assert Join(parts, sep) == [sep] + Join(parts[1..], sep);
      assert ([sep] + Join(parts[1..], sep))[1..] == Join(parts[1..], sep);
      assert parts == [""] + parts[1..];
    } else {
      var p := parts[0];
      var shorter := [p[1..]] + parts[1..];
      assert forall i :: 0 <= i < |shorter| ==> sep !in shorter[i] by {
        assert forall c :: c in p[1..] ==> c in p;
      }
      SplitJoin(shorter, sep);
      assert shorter[1..] == parts[1..];
      var j := Join(parts, sep);
      assert j == [p[0]] + Join(shorter, sep);
      assert j[1..] == Join(shorter, sep);
      assert p[0] != sep;
      assert [p[0]] + p[1..] == p;
    }
  }

  /** A string without the separator splits into itself alone. */
  lemma {:induction false} SplitNoSeparator(s: string, sep: char)
    requires sep !in s
    ensures Split(s, sep) == [s]
    decreases |s|
  {
    if s != [] {
      assert sep !in s[1..] by { assert forall c :: c in s[1..] ==> c in s; }
      SplitNoSeparator(s[1..], sep);
      assert [s[0]] + s[1..] == s;
    }
  }

  /** Joining a list of two or more pieces puts the last piece after the last separator. */
  lemma {:induction false} JoinSnoc(parts: seq<string>, sep: char)
    requires |parts| >= 2
    ensures Join(parts, sep) == Join(parts[..|parts| - 1], sep) + [sep] + parts[|parts| - 1]
    decreases |parts|
  {
    if |parts| > 2 {
      JoinSnoc(parts[1..], sep);
      assert parts[1..][..|parts| - 2] == parts[..|parts| - 1][1..];
    }
  }

  /** `s.split(sep).pop()`: the text after the last separator, or all of `s`. */
  function LastPiece(s: string, sep: char): (w: string)
    ensures sep !in w
    ensures |w| <= |s| && w == s[|s| - |w|..]
    ensures |w| == |s| || s[|s| - |w| - 1] == sep
  {
    var parts := Split(s, sep);
    JoinSplit(s, sep);
    if |parts| >= 2 then JoinSnoc(parts, sep); parts[|parts| - 1] else parts[0]
  }

  /** `parts.join('')`: the pieces one after another. */
  function Concat(parts: seq<string>): string
    decreases |parts|
  {
    if parts == [] then "" else parts[0] + Concat(parts[1..])
  }

  /** Joining one or two pieces with nothing between them. */
  lemma ConcatOneOrTwo(a: string, b: string)
    ensures Concat([a]) == a
    ensures Concat([a, b]) == a + b
  {
    assert [a][1..] == [];
    assert [a, b][1..] == [b] && [b][1..] == [];
  }

  // ---- String(n) ----

  predicate IsDigit(c: char) { '0' <= c <= '9' }

  function DigitChar(d: nat): (c: char)
    requires d < 10
    ensures IsDigit(c)
  {
    ('0' as int + d) as char
  }

  function DigitValue(c: char): (d: nat)
    requires IsDigit(c)
    ensures d < 10 && DigitChar(d) == c
  {
    (c as int - '0' as int)
  }

  /** The decimal digits of a natural number, most significant first, without
      leading zeros. */
  function NatToString(n: nat): (s: string)
    ensures |s| >= 1
    ensures forall i :: 0 <= i < |s| ==> IsDigit(s[i])
    decreases n
  {
    if n < 10 then [DigitChar(n)] else NatToString(n / 10) + [DigitChar(n % 10)]
  }

  /** `String(n)` for an integer: an optional minus sign and the decimal digits. */
  function IntToString(n: int): string
  {
    if n < 0 then "-" + NatToString(-n) else NatToString(n)
  }

  /** The number a string of decimal digits denotes. */
  function DigitsValue(s: string): nat
    requires forall i :: 0 <= i < |s| ==> IsDigit(s[i])
    decreases |s|
  {
    if s == [] then 0 else DigitsValue(s[..|s| - 1]) * 10 + DigitValue(s[|s| - 1])
  }

  lemma {:induction false} DigitsOfNatToString(n: nat)
    ensures DigitsValue(NatToString(n)) == n
    decreases n
  {
    if n >= 10 {
      DigitsOfNatToString(n / 10);
      var s := NatToString(n);
      assert s[..|s| - 1] == NatToString(n / 10);
      assert DigitValue(s[|s| - 1]) == n % 10;
    }
  }

  // ---- parseInt(s, 10) ----

  /** ECMAScript's StrWhiteSpaceChar: the white space and line terminators that
      `parseInt` skips before the number. */
  predicate IsJsWhiteSpace(c: char)
  {
    c == '\t' || c == '\n' || c == '\U{B}' || c == '\U{C}' || c == '\r' ||
    c == ' ' || c == '\U{A0}' || c == '\U{1680}' || ('\U{2000}' <= c <= '\U{200A}') ||
    c == '\U{2028}' || c == '\U{2029}' || c == '\U{202F}' || c == '\U{205F}' ||
    c == '\U{3000}' || c == '\U{FEFF}'
  }

  /** `s` without its leading white space. */
  function TrimStart(s: string): (t: string)
    ensures |t| <= |s|
    ensures t != [] ==> !IsJsWhiteSpace(t[0])
    decreases |s|
  {
    if s != [] && IsJsWhiteSpace(s[0]) then TrimStart(s[1..]) else s
  }

  /** What remains after skipping white space is a suffix of the text. */
  lemma {:induction false} TrimStartIsSuffix(s: string)
    ensures TrimStart(s) == s[|s| - |TrimStart(s)|..]
    decreases |s|
  {
    if s != [] && IsJsWhiteSpace(s[0]) {
      TrimStartIsSuffix(s[1..]);
    }
  }

  /** The longest prefix of `s` made of decimal digits. */
  function DigitPrefix(s: string): (d: string)
    ensures d <= s
    ensures forall i :: 0 <= i < |d| ==> IsDigit(d[i])
    ensures |d| < |s| ==> !IsDigit(s[|d|])
    decreases |s|
  {
    if s != [] && IsDigit(s[0]) then [s[0]] + DigitPrefix(s[1..]) else []
  }

  /** `t` without a leading `-` or `+`. */
  function AfterSign(t: string): (u: string)
    ensures |u| <= |t|
  {
    if t != [] && (t[0] == '-' || t[0] == '+') then t[1..] else t
  }

  /** `parseInt(s, 10)`: skip leading white space, then read a signed number. */
  function ParseInt(s: string): (r: Option<int>)
  {
    ParseSigned(TrimStart(s))
  }

  /** An optional sign, then the longest run of decimal digits; `None` stands
      for `NaN` (no digit). */
  function ParseSigned(t: string): (r: Option<int>)
  {
    var negative := t != [] && t[0] == '-';
    var d := DigitPrefix(AfterSign(t));
    var magnitude: int := if d == [] then 0 else DigitsValue(d);
    if d == [] then None
    else if negative then Some(-magnitude)
    else Some(magnitude)
  }

  /** A single character that is neither white space, a sign nor a digit reads as `NaN`. */
  lemma ParseIntOfNonNumeric(c: char)
    requires !IsJsWhiteSpace(c) && c != '-' && c != '+' && !IsDigit(c)
    ensures ParseInt([c]) == None
  {
    assert TrimStart([c]) == [c];
    assert AfterSign([c]) == [c];
    assert DigitPrefix([c]) == [];
  }

  /** A string made only of digits is its own digit prefix. */
  lemma {:induction false} DigitPrefixOfDigits(s: string)
    requires forall i :: 0 <= i < |s| ==> IsDigit(s[i])
    ensures DigitPrefix(s) == s
    decreases |s|
  {
    if s != [] {
      DigitPrefixOfDigits(s[1..]);
    }
  }

  /** A string that starts with a digit or a sign has no white space to skip. */
  lemma TrimStartNoSpace(s: string)
    requires s != [] && (IsDigit(s[0]) || s[0] == '-')
    ensures TrimStart(s) == s
  {
    assert !IsJsWhiteSpace(s[0]);
  }

  /** The digit prefix of digits followed by a non-digit is those digits. */
  lemma {:induction false} DigitPrefixOfDigitsThen(digits: string, rest: string)
    requires forall i :: 0 <= i < |digits| ==> IsDigit(digits[i])
    requires rest == [] || !IsDigit(rest[0])
    ensures DigitPrefix(digits + rest) == digits
    decreases |digits|
  {
    if digits != [] {
      DigitPrefixOfDigitsThen(digits[1..], rest);
      assert (digits + rest)[1..] == digits[1..] + rest;
    } else {
      assert digits + rest == rest;
    }
  }

  /** Leading white space does not change what `parseInt` reads. */
  lemma ParseIntSkipsSpace(c: char, s: string)
    requires IsJsWhiteSpace(c)
    ensures ParseInt([c] + s) == ParseInt(s)
  {
    assert ([c] + s)[1..] == s;
    assert TrimStart([c] + s) == TrimStart(s);
  }

  /** `parseInt` of a non-empty run of digits is the number they denote. */
  lemma ParseIntOfDigits(digits: string)
    requires digits != [] && forall i :: 0 <= i < |digits| ==> IsDigit(digits[i])
    ensures ParseInt(digits) == Some(DigitsValue(digits))
  {
    TrimStartNoSpace(digits);
    ParseSignedOfDigitsThen(digits, []);
    assert digits + [] == digits;
  }

  /** `parseInt` of a minus sign followed by a non-empty run of digits is the negated number. */
  lemma ParseIntOfNegativeDigits(minus: string)
    requires |minus| >= 2 && minus[0] == '-'
    requires forall i :: 1 <= i < |minus| ==> IsDigit(minus[i])
    ensures ParseInt(minus) == Some(-(DigitsValue(minus[1..]) as int))
  {
    TrimStartNoSpace(minus);
    var digits := AfterSign(minus);
    assert digits == minus[1..];
    DigitPrefixOfDigits(digits);
  }

  /** `parseInt(String(n), 10) === n`: reading back a printed integer gives the integer. */
  lemma ParseIntOfIntToString(n: int)
    ensures ParseInt(IntToString(n)) == Some(n)
  {
    var m: nat := if n < 0 then -n else n;
    DigitsOfNatToString(m);
    if n < 0 {
      var minus := IntToString(n);
      assert minus[1..] == NatToString(m);
      ParseIntOfNegativeDigits(minus);
    } else {
      ParseIntOfDigits(NatToString(m));
    }
  }

  /** Distinct integers print as distinct strings. */
  lemma IntToStringInjective(a: int, b: int)
    requires IntToString(a) == IntToString(b)
    ensures a == b
  {
    ParseIntOfIntToString(a);
    ParseIntOfIntToString(b);
  }

  /** `n ?? '-'` as text: the number, or a dash when it is missing. Reading the
      text back with `parseInt` gives the number, or `NaN` for the dash. */
  function NumberOrDash(n: Option<int>): (s: string)
    ensures ParseInt(s) == n
  {
    match n
    case Some(k) => ParseIntOfIntToString(k); IntToString(k)
    case None => ParseIntOfDash(); "-"
  }

  /** `parseInt` stops at the first character after the number: what follows
      a printed number or dash, when it does not start with a digit, is ignored. */
  lemma ParseIntOfNumberOrDashThen(n: Option<int>, rest: string)
    requires rest == [] || !IsDigit(rest[0])
    ensures ParseInt(NumberOrDash(n) + rest) == n
  {
    match n
    case None =>
      ParseIntOfDashThen(rest);
    case Some(k) =>
      if k < 0 {
        ParseIntOfNegativeNumberThen(k, rest);
      } else {
        ParseIntOfNaturalNumberThen(k, rest);
      }
  }

  lemma ParseIntOfNegativeNumberThen(k: int, rest: string)
    requires k < 0 && (rest == [] || !IsDigit(rest[0]))
    ensures ParseInt(NumberOrDash(Some(k)) + rest) == Some(k)
  {
    var m: nat := -k;
    assert NumberOrDash(Some(k)) == "-" + NatToString(m);
    ParseIntOfPrintedNegativeThen(m, rest, NumberOrDash(Some(k)));
  }

  lemma ParseIntOfPrintedNegativeThen(m: nat, rest: string, printed: string)
    requires m > 0 && (rest == [] || !IsDigit(rest[0]))
    requires printed == "-" + NatToString(m)
    ensures ParseInt(printed + rest) == Some(-(m as int))
  {
    ParseIntOfNegativeThen(m, rest);
  }

  lemma ParseIntOfNaturalNumberThen(k: int, rest: string)
    requires k >= 0 && (rest == [] || !IsDigit(rest[0]))
    ensures ParseInt(NumberOrDash(Some(k)) + rest) == Some(k)
  {
    var printed := NumberOrDash(Some(k));
    assert printed == NatToString(k);
    ParseIntOfNatThen(k, rest);
  }

  /** A dash and then no digit reads as `NaN`. */
  lemma ParseIntOfDashThen(rest: string)
    requires rest == [] || !IsDigit(rest[0])
    ensures ParseInt("-" + rest) == None
  {
    TrimStartNoSpace("-" + rest);
    ParseSignedOfSignThen(rest);
  }

  /** A printed natural number and then no digit reads as that number. */
  lemma ParseIntOfNatThen(m: nat, rest: string)
    requires rest == [] || !IsDigit(rest[0])
    ensures ParseInt(NatToString(m) + rest) == Some(m)
  {
    DigitsOfNatToString(m);
    ParseIntOfDigitsThen(NatToString(m), rest);
  }

  /** A run of digits and then no digit reads as the number they denote. */
  lemma ParseIntOfDigitsThen(digits: string, rest: string)
    requires digits != [] && forall i :: 0 <= i < |digits| ==> IsDigit(digits[i])
    requires rest == [] || !IsDigit(rest[0])
    ensures ParseInt(digits + rest) == Some(DigitsValue(digits))
  {
    assert (digits + rest)[0] == digits[0];
    TrimStartNoSpace(digits + rest);
    ParseSignedOfDigitsThen(digits, rest);
  }

  /** A printed negative number and then no digit reads as that number. */
  lemma ParseIntOfNegativeThen(m: nat, rest: string)
    requires m > 0 && (rest == [] || !IsDigit(rest[0]))
    ensures ParseInt("-" + NatToString(m) + rest) == Some(-(m as int))
  {
    DigitsOfNatToString(m);
    ParseIntOfMinusDigitsThen(NatToString(m), rest);
  }

  /** A minus sign, a run of digits and then no digit reads as the negated number. */
  lemma ParseIntOfMinusDigitsThen(digits: string, rest: string)
    requires digits != [] && forall i :: 0 <= i < |digits| ==> IsDigit(digits[i])
    requires rest == [] || !IsDigit(rest[0])
    ensures ParseInt("-" + digits + rest) == Some(-(DigitsValue(digits) as int))
  {
    var text := ['-'] + (digits + rest);
    assert "-" + digits + rest == text;
    assert text[0] == '-';
    TrimStartNoSpace(text);
    ParseSignedOfNegativeThen(digits, rest);
  }

  /** A minus sign not followed by a digit is no number. */
  lemma ParseSignedOfSignThen(rest: string)
    requires rest == [] || !IsDigit(rest[0])
    ensures ParseSigned("-" + rest) == None
  {
    assert AfterSign("-" + rest) == rest;
    DigitPrefixOfDigitsThen([], rest);
    assert [] + rest == rest;
  }

  /** Digits followed by a non-digit read as the digits' value. */
  lemma ParseSignedOfDigitsThen(digits: string, rest: string)
    requires digits != [] && forall i :: 0 <= i < |digits| ==> IsDigit(digits[i])
    requires rest == [] || !IsDigit(rest[0])
    ensures ParseSigned(digits + rest) == Some(DigitsValue(digits))
  {
    DigitPrefixOfDigitsThen(digits, rest);
    AfterNoSign(digits, rest);
    ParseSignedUnsigned(digits + rest, digits);
  }

  /** Text starting with a digit has no sign to drop. */
  lemma AfterNoSign(digits: string, rest: string)
    requires digits != [] && IsDigit(digits[0])
    ensures AfterSign(digits + rest) == digits + rest
  {
    assert (digits + rest)[0] == digits[0];
  }

  /** Text without a sign reads as the value of its digit prefix. */
  lemma ParseSignedUnsigned(u: string, digits: string)
    requires digits != [] && forall i :: 0 <= i < |digits| ==> IsDigit(digits[i])
    requires AfterSign(u) == u && DigitPrefix(u) == digits
    ensures ParseSigned(u) == Some(DigitsValue(digits))
  {
  }

  /** A minus sign and digits followed by a non-digit read as the negated value. */
  lemma ParseSignedOfNegativeThen(digits: string, rest: string)
    requires digits != [] && forall i :: 0 <= i < |digits| ==> IsDigit(digits[i])
    requires rest == [] || !IsDigit(rest[0])
    ensures ParseSigned(['-'] + (digits + rest)) == Some(-(DigitsValue(digits) as int))
  {
    DigitPrefixOfDigitsThen(digits, rest);
    AfterMinus(digits + rest);
    ParseSignedNegative(['-'] + (digits + rest), digits + rest, digits);
  }

  /** The sign is dropped from a minus sign and what follows it. */
  lemma AfterMinus(u: string)
    ensures (['-'] + u)[0] == '-' && AfterSign(['-'] + u) == u
  {
    assert (['-'] + u)[1..] == u;
  }

  /** Text with a minus sign reads as the negated value of the digits after it. */
  lemma ParseSignedNegative(t: string, u: string, digits: string)
    requires digits != [] && forall i :: 0 <= i < |digits| ==> IsDigit(digits[i])
    requires t != [] && t[0] == '-' && AfterSign(t) == u && DigitPrefix(u) == digits
    ensures ParseSigned(t) == Some(-(DigitsValue(digits) as int))
  {
  }

  /** A lone minus sign has no digits: `parseInt('-')` is `NaN`. */
  lemma ParseIntOfDash()
    ensures ParseInt("-") == None
  {
    TrimStartNoSpace("-");
    assert AfterSign("-") == "";
  }

  // ---- toUpperCase ----

  /** Upper-case of one character: ASCII `a`–`z` become `A`–`Z`. */
  function UpperChar(c: char): (u: char)
    ensures 'a' <= c <= 'z' ==> 'A' <= u <= 'Z' && u as int == c as int - 32
    ensures !('a' <= c <= 'z') ==> u == c
  {
    if 'a' <= c <= 'z' then (c as int - 32) as char else c
  }

  /** `s.toUpperCase()`, character by character. */
  function ToUpper(s: string): (u: string)
    ensures |u| == |s|
    ensures forall i :: 0 <= i < |s| ==> u[i] == UpperChar(s[i])
  {
    seq(|s|, i requires 0 <= i < |s| => UpperChar(s[i]))
  }
}

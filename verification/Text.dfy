/** The text operations the application leans on: trimming, splitting, joining,
    and reading a decimal integer. */
module Text {
  import opened Common

  predicate IsSpace(c: char) {
    c == ' ' || c == '\t' || c == '\n' || c == '\r'
  }

  function TrimLeft(s: string): (r: string)
    ensures |r| <= |s|
    ensures r == [] || !IsSpace(r[0])
    ensures s != [] && !IsSpace(s[0]) ==> r == s
    ensures s != [] && !IsSpace(s[|s| - 1]) ==> r != [] && r[|r| - 1] == s[|s| - 1]
  {
    if s == [] then []
    else if IsSpace(s[0]) then TrimLeft(s[1..])
    else s
  }

  function TrimRight(s: string): (r: string)
    ensures |r| <= |s| && r == s[..|r|]
    ensures r == [] || !IsSpace(r[|r| - 1])
    ensures s != [] && !IsSpace(s[|s| - 1]) ==> r == s
  {
    if s == [] then []
    else if IsSpace(s[|s| - 1]) then TrimRight(s[..|s| - 1])
    else s
  }

  /** Both ends free of white space: exactly the strings trimming leaves alone. */
  predicate Trimmed(s: string) {
    s == [] || (!IsSpace(s[0]) && !IsSpace(s[|s| - 1]))
  }

  function Trim(s: string): (r: string)
    ensures |r| <= |s|
    ensures Trimmed(r)
    ensures Trimmed(s) ==> r == s
  {
    TrimRight(TrimLeft(s))
  }

  /** Trimming takes white space away at either end, all of it, and nothing else. */
  lemma {:induction false} TrimKeepsTheRest(s: string) returns (before: string, after: string)
    ensures s == before + Trim(s) + after
    ensures forall c :: c in before + after ==> c in {' ', '\t', '\n', '\r'}
    ensures Trim(s) != "" ==>
              Trim(s)[0] !in {' ', '\t', '\n', '\r'} && Trim(s)[|Trim(s)| - 1] !in {' ', '\t', '\n', '\r'}
  {
    before := LeadingSpace(s);
    var rest := TrimLeft(s);
    after := TrailingSpace(rest);
    assert s == before + (Trim(s) + after);
  }

  lemma {:induction false} LeadingSpace(s: string) returns (space: string)
    ensures s == space + TrimLeft(s) && forall c :: c in space ==> IsSpace(c)
  {
    space := "";
    if s != [] && IsSpace(s[0]) {
      space := LeadingSpace(s[1..]);
      space := [s[0]] + space;
    }
  }

  lemma {:induction false} TrailingSpace(s: string) returns (space: string)
    ensures s == TrimRight(s) + space && forall c :: c in space ==> IsSpace(c)
  {
    space := "";
    if s != [] && IsSpace(s[|s| - 1]) {
      space := TrailingSpace(s[..|s| - 1]);
      space := space + [s[|s| - 1]];
    }
  }

  /** The ASCII part of upper-casing. */
  function Upper(s: string): (r: string)
    ensures |r| == |s|
    ensures forall i :: 0 <= i < |s| ==> r[i] == if 'a' <= s[i] <= 'z' then s[i] - 'a' + 'A' else s[i]
  {
    seq(|s|, i requires 0 <= i < |s| => if 'a' <= s[i] <= 'z' then s[i] - 'a' + 'A' else s[i])
  }

  lemma {:induction false} UpperKeepsTrimmed(s: string)
    requires Trimmed(s)
    ensures Trimmed(Upper(s))
  {
  }

  /** The ASCII part of lower-casing. */
  function Lower(s: string): (r: string)
    ensures |r| == |s|
    ensures forall i :: 0 <= i < |s| ==> r[i] == if 'A' <= s[i] <= 'Z' then s[i] - 'A' + 'a' else s[i]
  {
    seq(|s|, i requires 0 <= i < |s| => if 'A' <= s[i] <= 'Z' then s[i] - 'A' + 'a' else s[i])
  }

  predicate IsDigit(c: char) { '0' <= c <= '9' }

  function DigitValue(c: char): (d: nat)
    requires IsDigit(c)
    ensures d < 10
  {
    c as nat - '0' as nat
  }

  predicate AllDigits(s: string) {
    forall k :: 0 <= k < |s| ==> IsDigit(s[k])
  }

  /** The number a string of digits denotes, most significant digit first. */
  function DigitsValue(s: string): nat
    requires AllDigits(s)
  {
    if s == [] then 0
    else DigitsValue(s[..|s| - 1]) * 10 + DigitValue(s[|s| - 1])
  }

  function DigitChar(d: nat): (c: char)
    requires d < 10
    ensures IsDigit(c) && DigitValue(c) == d
  {
    '0' + d as char
  }

  lemma {:induction false} OneMoreDigit(s: string, d: nat)
    requires AllDigits(s) && d < 10
    ensures AllDigits(s + [DigitChar(d)]) && DigitsValue(s + [DigitChar(d)]) == DigitsValue(s) * 10 + d
  {
    assert (s + [DigitChar(d)])[..|s|] == s;
  }

  /** A number in decimal, without leading zeros. */
  function Decimal(n: nat): (s: string)
    ensures s != [] && AllDigits(s) && DigitsValue(s) == n
  {
    if n < 10 then [DigitChar(n)]
    else
      OneMoreDigit(Decimal(n / 10), n % 10);
      Decimal(n / 10) + [DigitChar(n % 10)]
  }

  /** A decimal integer with an optional sign, surrounded by optional space. */
  function ParseInt(s: string): Option<int> {
    var t := Trim(s);
    var negative := t != [] && t[0] == '-';
    var digits := if t != [] && (t[0] == '-' || t[0] == '+') then t[1..] else t;
    if digits != [] && AllDigits(digits)
    then
      var n: int := DigitsValue(digits);
      Some(if negative then -n else n)
    else None
  }

  /** Reading a printed number gives the number back, with or without a sign and with
      any space around it. */
  lemma {:induction false} ParsesWhatIsPrinted(n: nat, padded: string)
    ensures Trim(padded) == Decimal(n) ==> ParseInt(padded) == Some(n)
    ensures Trim(padded) == "-" + Decimal(n) ==> ParseInt(padded).Some? && ParseInt(padded).value + n == 0
  {
    assert IsDigit(Decimal(n)[0]);
    assert ("-" + Decimal(n))[1..] == Decimal(n);
  }

  predicate Spelled(t: string, sign: string, digits: string) {
    sign in {"", "-", "+"} && digits != "" && AllDigits(digits) && t == sign + digits
  }

  function Signed(sign: string, digits: string): int
    requires AllDigits(digits)
  {
    if sign == "-" then 0 - DigitsValue(digits) else DigitsValue(digits)
  }

  /** What reads as a number: an optional sign and at least one digit, with space around
      them; its value is that of the digits, most significant first. */
  lemma {:induction false} SpelledIsRead(s: string, sign: string, digits: string)
    requires Spelled(Trim(s), sign, digits)
    ensures ParseInt(s) == Some(Signed(sign, digits))
  {
    var t := Trim(s);
    assert IsDigit(digits[0]) && t[|sign|..] == digits;
    if sign == "" {
      assert t == digits && t[0] == digits[0];
    } else {
      assert t[0] == sign[0];
    }
  }

  /** And nothing else does. */
  lemma {:induction false} ReadIsSpelled(s: string) returns (sign: string, digits: string)
    requires ParseInt(s).Some?
    ensures Spelled(Trim(s), sign, digits)
  {
    var t := Trim(s);
    sign := if t != [] && (t[0] == '-' || t[0] == '+') then [t[0]] else "";
    digits := if t != [] && (t[0] == '-' || t[0] == '+') then t[1..] else t;
    assert t == sign + digits;
  }

  predicate EndsWith(s: string, suffix: string) {
    |suffix| <= |s| && s[|s| - |suffix|..] == suffix
  }

  lemma {:induction false} AppendedSuffix(s: string, suffix: string)
    ensures EndsWith(s + suffix, suffix)
  {
    assert (s + suffix)[|s|..] == suffix;
  }

  /** Appending the same suffix keeps different strings different. */
  lemma {:induction false} SuffixCancels(a: string, b: string, suffix: string)
    requires a + suffix == b + suffix
    ensures a == b
  {
    assert |a| == |b|;
    assert a == (a + suffix)[..|a|] == (b + suffix)[..|b|] == b;
  }

  /** Cuts a string at every separator; there is always at least one piece. */
  function Split(s: string, separator: char): (pieces: seq<string>)
    ensures |pieces| >= 1
    ensures forall p :: p in pieces ==> separator !in p
  {
    if s == [] then [""]
    else
      var rest := Split(s[1..], separator);
      if s[0] == separator then [""] + rest
      else [[s[0]] + rest[0]] + rest[1..]
  }

  function Join(pieces: seq<string>, separator: char): string {
    if pieces == [] then ""
    else if |pieces| == 1 then pieces[0]
    else pieces[0] + [separator] + Join(pieces[1..], separator)
  }

  lemma {:induction false} SplitWithout(p: string, separator: char)
    requires separator !in p
    ensures Split(p, separator) == [p]
  {
    if p != [] {
      SplitWithout(p[1..], separator);
      assert [p[0]] + p[1..] == p;
    }
  }

  lemma {:induction false} SplitFirst(p: string, rest: string, separator: char)
    requires separator !in p
    ensures Split(p + [separator] + rest, separator) == [p] + Split(rest, separator)
  {
    var s := p + [separator] + rest;
    if p == [] {
      assert s[1..] == rest;
    } else {
      assert s[1..] == p[1..] + [separator] + rest;
      SplitFirst(p[1..], rest, separator);
      assert [p[0]] + p[1..] == p;
    }
  }

  /** Splitting a joined list of separator-free pieces gives the list back. */
  lemma {:induction false} SplitJoin(pieces: seq<string>, separator: char)
    requires pieces != []
    requires forall p :: p in pieces ==> separator !in p
    ensures Split(Join(pieces, separator), separator) == pieces
  {
    if |pieces| == 1 {
      SplitWithout(pieces[0], separator);
    } else {
      SplitJoin(pieces[1..], separator);
      SplitFirst(pieces[0], Join(pieces[1..], separator), separator);
    }
  }

  lemma {:induction false} JoinAppend(pieces: seq<string>, last: string, separator: char)
    requires pieces != []
    ensures Join(pieces + [last], separator) == Join(pieces, separator) + [separator] + last
  {
    var all := pieces + [last];
    assert all[1..] == pieces[1..] + [last];
    if |pieces| == 1 {
    } else {
      JoinAppend(pieces[1..], last, separator);
    }
  }
}

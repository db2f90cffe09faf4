/** Decimal numerals, written and read as `str` and `int` do it. */
module Decimal {
  import opened Prelude
  import opened Text

  predicate IsDigit(c: char) {
    '0' <= c <= '9'
  }

  type digit = d: int | 0 <= d < 10

  function DigitChar(d: digit): char {
    ('0' as int + d) as char
  }

  /** `str(n)`. */
  function ToDecimal(n: nat): string {
    if n < 10 then [DigitChar(n)] else ToDecimal(n / 10) + [DigitChar(n % 10)]
  }

  /** A run of digits. */
  function FromDecimal(s: string): Option<nat> {
    if s == "" then None
    else if !IsDigit(s[|s| - 1]) then None
    else
      var last := s[|s| - 1] as int - '0' as int;
      if |s| == 1 then Some(last)
      else
        var front := FromDecimal(s[..|s| - 1]);
        if front.Some? then Some(front.value * 10 + last) else None
  }

  lemma {:induction false} DecimalRoundTrip(n: nat)
    ensures FromDecimal(ToDecimal(n)) == Some(n)
    ensures ToDecimal(n) != "" && forall i :: 0 <= i < |ToDecimal(n)| ==> IsDigit(ToDecimal(n)[i])
  {
    if n < 10 {
    } else {
      DecimalRoundTrip(n / 10);
      var s := ToDecimal(n);
      assert s[..|s| - 1] == ToDecimal(n / 10);
    }
  }

  function Without(s: string, c: char): string {
    if s == "" then "" else (if s[0] == c then "" else [s[0]]) + Without(s[1..], c)
  }

  /** Underscores may stand between digits, one at a time. */
  predicate Underscored(s: string) {
    && s != "" && s[0] != '_' && s[|s| - 1] != '_'
    && forall i :: 0 <= i < |s| - 1 ==> s[i] != '_' || s[i + 1] != '_'
  }

  function Digits(s: string): Option<nat> {
    if Underscored(s) then FromDecimal(Without(s, '_')) else None
  }

  /** `int(s)`: spaces around, a sign, digits; `None` is its ValueError. */
  function ToInt(s: string): Option<int> {
    var t := Strip(s);
    if t == "" then None
    else if t[0] == '-' || t[0] == '+' then
      var n := Digits(t[1..]);
      if n == None then None else Some((if t[0] == '-' then -1 else 1) * n.value)
    else
      var n := Digits(t);
      if n == None then None else Some(n.value)
  }

  lemma {:induction false} WithoutAbsent(s: string, c: char)
    requires forall i :: 0 <= i < |s| ==> s[i] != c
    ensures Without(s, c) == s
  {
    if s == "" {
    } else {
      WithoutAbsent(s[1..], c);
    }
  }

  lemma {:induction false} WithoutMembers(s: string, c: char, x: char)
    ensures x in Without(s, c) <==> x in s && x != c
  {
    if s == "" {
    } else {
      WithoutMembers(s[1..], c, x);
      assert s == [s[0]] + s[1..];
    }
  }

  /** What `str` writes, `int` reads. */
  lemma IntRoundTrip(n: nat)
    ensures ToInt(ToDecimal(n)) == Some(n)
  {
    DecimalRoundTrip(n);
    StripOfClean(ToDecimal(n));
    WithoutAbsent(ToDecimal(n), '_');
  }

  lemma DigitsReadBack(n: nat)
    ensures Digits(ToDecimal(n)) == Some(n)
  {
    DecimalRoundTrip(n);
    WithoutAbsent(ToDecimal(n), '_');
  }

  /** A sign is understood, and spaces around are passed over. */
  lemma SignedRoundTrip(n: nat, minus: bool, before: spaces, after: spaces)
    ensures ToInt(before + ([if minus then '-' else '+'] + ToDecimal(n)) + after) == Some((if minus then -1 else 1) * n)
  {
    var t := [if minus then '-' else '+'] + ToDecimal(n);
    DecimalRoundTrip(n);
    DigitsReadBack(n);
    assert t[|t| - 1] == ToDecimal(n)[|ToDecimal(n)| - 1] && t[1..] == ToDecimal(n);
    StripBetween(before, t, after);
  }

  lemma InsideStrip(a: spaces, t: string, b: spaces, i: nat)
    requires i < |a + t + b| && !IsSpace((a + t + b)[i])
    ensures |a| <= i < |a| + |t| && t[i - |a|] == (a + t + b)[i]
  {
  }

  /** Two underscores in a row spoil a numeral. */
  lemma DoubleUnderscore(s: string, i: nat)
    requires i + 1 < |s| && s[i] == '_' && s[i + 1] == '_'
    ensures ToInt(s) == None
  {
    var a, b := StripShape(s);
    var t := Strip(s);
    InsideStrip(a, t, b, i);
    InsideStrip(a, t, b, i + 1);
    NotUnderscored(t, i - |a|);
    if t[0] == '-' || t[0] == '+' {
      NotUnderscored(t[1..], i - |a| - 1);
    }
  }

  lemma NotUnderscored(t: string, k: nat)
    requires k + 1 < |t| && t[k] == '_' && t[k + 1] == '_'
    ensures !Underscored(t)
  {
  }

  lemma UnderscoredBetween(a: string, b: string)
    requires a != "" && b != "" && AllDigits(a) && AllDigits(b)
    ensures Underscored(a + ("_" + b)) && Underscored(a + b)
  {
    var x := a + ("_" + b);
    assert x[0] == a[0] && x[|x| - 1] == b[|b| - 1];
    forall i | 0 <= i < |x| - 1 ensures x[i] != '_' || x[i + 1] != '_' {
      if i < |a| {
        assert x[i] == a[i];
      } else {
        assert x[i + 1] == b[i - |a|];
      }
    }
    forall i | 0 <= i < |a + b| ensures (a + b)[i] != '_' {
    }
  }

  /** One underscore between digits counts for nothing. */
  lemma UnderscoreBetween(a: string, b: string)
    requires a != "" && b != "" && AllDigits(a) && AllDigits(b)
    ensures Digits(a + ("_" + b)) == Digits(a + b)
  {
    UnderscoredBetween(a, b);
    WithoutJoined(a, "_" + b, '_');
    WithoutJoined(a, b, '_');
    WithoutJoined("_", b, '_');
    assert Without("_", '_') == "" && "" + Without(b, '_') == Without(b, '_');
  }

  predicate AllDigits(s: string) {
    forall i :: 0 <= i < |s| ==> IsDigit(s[i])
  }

  lemma {:induction false} WithoutJoined(a: string, b: string, c: char)
    ensures Without(a + b, c) == Without(a, c) + Without(b, c)
  {
    if a == "" {
      assert a + b == b;
    } else {
      WithoutJoined(a[1..], b, c);
      WithoutFirst(a[0], a[1..] + b, c);
      WithoutFirst(a[0], a[1..], c);
      assert a + b == [a[0]] + (a[1..] + b) && a == [a[0]] + a[1..];
    }
  }

  lemma WithoutFirst(x: char, s: string, c: char)
    ensures Without([x] + s, c) == (if x == c then "" else [x]) + Without(s, c)
  {
    assert ([x] + s)[1..] == s;
  }
}

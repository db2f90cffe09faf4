/**
 Unpadded base64url as `_b64url_encode` and `_b64url_decode` use it
 (app/services/security.py): sections 4 and 5 of RFC 4648 with the padding of section
 3.2 removed on the way out and put back on the way in.
 */
module Base64Url {
  import opened Prelude

  type byte = x: int | 0 <= x < 256

  type sextet = x: int | 0 <= x < 64

  type nibble = x: int | 0 <= x < 16

  type crumb = x: int | 0 <= x < 4

  /** The alphabet of section 5 of RFC 4648. */
  function Digit(v: sextet): char {
    if v < 26 then ('A' as int + v) as char
    else if v < 52 then ('a' as int + v - 26) as char
    else if v < 62 then ('0' as int + v - 52) as char
    else if v == 62 then '-' else '_'
  }

  /** The table of section 5: capitals, small letters and digits in ASCII order, then - and _. */
  lemma Alphabet(v: sextet)
    ensures Digit(v) as int ==
            if v < 26 then 65 + v else if v < 52 then 97 + (v - 26) else if v < 62 then 48 + (v - 52)
            else if v == 62 then 45 else 95
  {
  }

  /** What the decoder reads a letter as; it takes those of section 4 as well. */
  function Value(c: char): Option<sextet> {
    if 'A' <= c <= 'Z' then Some(c as int - 'A' as int)
    else if 'a' <= c <= 'z' then Some(c as int - 'a' as int + 26)
    else if '0' <= c <= '9' then Some(c as int - '0' as int + 52)
    else if c == '-' || c == '+' then Some(62)
    else if c == '_' || c == '/' then Some(63)
    else None
  }

  /** Letters, digits, - and _ only. */
  predicate InAlphabet(s: string) {
    forall i :: 0 <= i < |s| ==> Value(s[i]).Some? && s[i] != '+' && s[i] != '/'
  }

  type letters = s: string | InAlphabet(s)

  predicate IsAscii(s: string) {
    forall i :: 0 <= i < |s| ==> s[i] as int < 128
  }

  /** One, two or three bytes as two, three or four letters. */
  function One(x: byte): string {
    [Digit(x / 4), Digit(x % 4 * 16)]
  }

  function Two(x: byte, y: byte): string {
    [Digit(x / 4), Digit(x % 4 * 16 + y / 16), Digit(y % 16 * 4)]
  }

  function Three(x: byte, y: byte, z: byte): string {
    [Digit(x / 4), Digit(x % 4 * 16 + y / 16), Digit(y % 16 * 4 + z / 64), Digit(z % 64)]
  }

  /** `base64.urlsafe_b64encode`, with padding. */
  function EncodePadded(data: seq<byte>): string {
    if data == [] then ""
    else if |data| == 1 then One(data[0]) + "=="
    else if |data| == 2 then Two(data[0], data[1]) + "="
    else Three(data[0], data[1], data[2]) + EncodePadded(data[3..])
  }

  /** `rstrip(b"=")`. */
  function StripPadding(s: string): string {
    if s != "" && s[|s| - 1] == '=' then StripPadding(s[..|s| - 1]) else s
  }

  function Encode(data: seq<byte>): string {
    StripPadding(EncodePadded(data))
  }

  /** `"=" * n`. */
  function Equals(n: nat): (r: string)
    ensures |r| == n
  {
    if n == 0 then "" else Equals(n - 1) + "="
  }

  /** `-n % 4`; the remainder is never negative. */
  function Missing(n: int): nat {
    (-n) % 4
  }

  /** `"=" * (-len(value) % 4)`. */
  function Padding(value: string): string {
    Equals(Missing(|value|))
  }

  /**
   `base64.urlsafe_b64decode`, which is not strict: it passes over characters outside the
   alphabet and over padding that comes too early, and stops at padding that completes a
   group of four.  `quad` letters of the group are read, `left` are the bits they leave
   over, `pads` the padding since the last of them; `None` is an incomplete group at the end.
   */
  function DecodeFrom(s: string, quad: int, left: int, pads: int): Option<seq<byte>>
    requires 0 <= quad < 4 && 0 <= left < Leftover(quad)
  {
    if s == "" then if quad == 0 then Some([]) else None
    else if s[0] == '=' then
      if quad >= 2 && quad + pads + 1 >= 4 then Some([])
      else DecodeFrom(s[1..], quad, left, if quad >= 2 then pads + 1 else pads)
    else if Value(s[0]) == None then DecodeFrom(s[1..], quad, left, pads)
    else
      var v := Value(s[0]).value;
      if quad == 0 then DecodeFrom(s[1..], 1, v, 0)
      else if quad == 1 then Before(left * 4 + v / 16, DecodeFrom(s[1..], 2, v % 16, 0))
      else if quad == 2 then Before(left * 16 + v / 4, DecodeFrom(s[1..], 3, v % 4, 0))
      else Before(left * 64 + v, DecodeFrom(s[1..], 0, 0, 0))
  }

  function Leftover(quad: int): int {
    if quad == 1 then 64 else if quad == 2 then 16 else if quad == 3 then 4 else 1
  }

  function Before(b: byte, rest: Option<seq<byte>>): Option<seq<byte>> {
    if rest == None then None else Some([b] + rest.value)
  }

  function DecodePadded(s: string): Option<seq<byte>> {
    if IsAscii(s) then DecodeFrom(s, 0, 0, 0) else None
  }

  function Decode(value: string): Option<seq<byte>> {
    DecodePadded(value + Padding(value))
  }

  // ---------------------------------------------------------------- proofs

  lemma DigitValue(v: sextet)
    ensures Value(Digit(v)) == Some(v) && Digit(v) !in {'=', '+', '/'}
  {
  }

  /** The encoded text without its padding, group by group. */
  function Bare(data: seq<byte>): string {
    if data == [] then ""
    else if |data| == 1 then One(data[0])
    else if |data| == 2 then Two(data[0], data[1])
    else Three(data[0], data[1], data[2]) + Bare(data[3..])
  }

  lemma {:induction false} BareIsAlphabet(data: seq<byte>)
    ensures InAlphabet(Bare(data))
  {
    if data == [] {
    } else if |data| == 1 {
      GroupIsAlphabet(data[0], 0, 0);
    } else if |data| == 2 {
      GroupIsAlphabet(data[0], data[1], 0);
    } else {
      BareIsAlphabet(data[3..]);
      GroupIsAlphabet(data[0], data[1], data[2]);
    }
  }

  lemma GroupIsAlphabet(x: byte, y: byte, z: byte)
    ensures InAlphabet(One(x)) && InAlphabet(Two(x, y)) && InAlphabet(Three(x, y, z))
  {
  }

  lemma {:induction false} BareSize(data: seq<byte>)
    ensures |Bare(data)| == (4 * |data| + 2) / 3
  {
    if |data| < 3 {
    } else {
      BareSize(data[3..]);
    }
  }

  lemma PaddingOfLonger(s: string, group: string)
    requires |group| == 4
    ensures Padding(group + s) == Padding(s)
  {
  }

  lemma PaddingOfLast(s: string)
    ensures |s| == 2 ==> Padding(s) == "=="
    ensures |s| == 3 ==> Padding(s) == "="
  {
    assert Equals(1) == Equals(0) + "=" == "=";
    assert Equals(2) == Equals(1) + "=" == "==";
  }

  lemma {:induction false} PaddedIsBareAndPadding(data: seq<byte>)
    ensures EncodePadded(data) == Bare(data) + Padding(Bare(data))
  {
    if |data| >= 3 {
      var group := Three(data[0], data[1], data[2]);
      PaddedIsBareAndPadding(data[3..]);
      PaddingOfLonger(Bare(data[3..]), group);
    } else {
      PaddingOfLast(Bare(data));
    }
  }

  lemma {:induction false} StripOfPadded(s: letters, n: nat)
    ensures StripPadding(s + Equals(n)) == s
  {
    var t := s + Equals(n);
    if n == 0 {
      assert t == s;
      if s != "" {
        assert Value(s[|s| - 1]).Some?;
      }
    } else {
      assert t[|t| - 1] == '=' && t[..|t| - 1] == s + Equals(n - 1);
      StripOfPadded(s, n - 1);
    }
  }

  lemma EncodeIsBare(data: seq<byte>)
    ensures Encode(data) == Bare(data)
  {
    PaddedIsBareAndPadding(data);
    BareIsAlphabet(data);
    StripOfPadded(Bare(data), Missing(|Bare(data)|));
  }

  /** One letter read. */
  lemma Letter(c: char, v: sextet, rest: string, quad: int, left: int)
    requires 0 <= quad < 4 && 0 <= left < Leftover(quad) && Value(c) == Some(v)
    ensures quad == 0 ==> DecodeFrom([c] + rest, 0, left, 0) == DecodeFrom(rest, 1, v, 0)
    ensures quad == 1 ==> DecodeFrom([c] + rest, 1, left, 0) == Before(left * 4 + v / 16, DecodeFrom(rest, 2, v % 16, 0))
    ensures quad == 2 ==> DecodeFrom([c] + rest, 2, left, 0) == Before(left * 16 + v / 4, DecodeFrom(rest, 3, v % 4, 0))
    ensures quad == 3 ==> DecodeFrom([c] + rest, 3, left, 0) == Before(left * 64 + v, DecodeFrom(rest, 0, 0, 0))
  {
    assert ([c] + rest)[1..] == rest;
  }

  /** The first letters of a group give the bytes they complete; the last one leaves bits over. */
  lemma TwoLetters(a: sextet, b: sextet, rest: string)
    ensures DecodeFrom([Digit(a), Digit(b)] + rest, 0, 0, 0) == Before(a * 4 + b / 16, DecodeFrom(rest, 2, b % 16, 0))
  {
    DigitValue(a);
    DigitValue(b);
    Letter(Digit(a), a, [Digit(b)] + rest, 0, 0);
    Letter(Digit(b), b, rest, 1, a);
    assert [Digit(a), Digit(b)] + rest == [Digit(a)] + ([Digit(b)] + rest);
  }

  lemma ThirdLetter(left: nibble, c: sextet, rest: string)
    ensures DecodeFrom([Digit(c)] + rest, 2, left, 0) == Before(left * 16 + c / 4, DecodeFrom(rest, 3, c % 4, 0))
  {
    DigitValue(c);
    Letter(Digit(c), c, rest, 2, left);
  }

  lemma FourthLetter(left: crumb, d: sextet, rest: string)
    ensures DecodeFrom([Digit(d)] + rest, 3, left, 0) == Before(left * 64 + d, DecodeFrom(rest, 0, 0, 0))
  {
    DigitValue(d);
    Letter(Digit(d), d, rest, 3, left);
  }

  /** Padding in its place ends the text. */
  lemma PaddingEnds(left: int)
    ensures 0 <= left < 16 ==> DecodeFrom("==", 2, left, 0) == Some([])
    ensures 0 <= left < 4 ==> DecodeFrom("=", 3, left, 0) == Some([])
  {
    assert "=="[1..] == "=";
  }

  /** A sextet made of the end of one byte and the beginning of the next. */
  lemma CutAt16(high: int, low: nibble)
    ensures (high * 16 + low) / 16 == high && (high * 16 + low) % 16 == low
  {
  }

  lemma CutAt4(high: int, low: crumb)
    ensures (high * 4 + low) / 4 == high && (high * 4 + low) % 4 == low
  {
  }

  lemma DecodeOne(x: byte)
    ensures DecodeFrom(One(x) + "==", 0, 0, 0) == Some([x])
  {
    var b := x % 4 * 16;
    CutAt16(x % 4, 0);
    assert b / 16 == x % 4 && b % 16 == 0;
    TwoLetters(x / 4, b, "==");
    PaddingEnds(0);
    assert One(x) + "==" == [Digit(x / 4), Digit(b)] + "==";
    assert [x] + [] == [x];
  }

  lemma DecodeTwo(x: byte, y: byte)
    ensures DecodeFrom(Two(x, y) + "=", 0, 0, 0) == Some([x, y])
  {
    CutAt16(x % 4, y / 16);
    CutAt4(y % 16, 0);
    var b, c := x % 4 * 16 + y / 16, y % 16 * 4;
    assert c / 4 == y % 16 && c % 4 == 0;
    TwoLetters(x / 4, b, [Digit(c)] + "=");
    ThirdLetter(b % 16, c, "=");
    PaddingEnds(0);
    assert Two(x, y) + "=" == [Digit(x / 4), Digit(b)] + ([Digit(c)] + "=");
    assert [x] + ([y] + []) == [x, y];
  }

  lemma BytesRejoined(x: byte, y: byte, z: byte)
    ensures var b, c, d := x % 4 * 16 + y / 16, y % 16 * 4 + z / 64, z % 64;
            x / 4 * 4 + b / 16 == x && b % 16 * 16 + c / 4 == y && c % 4 * 64 + d == z
  {
    CutAt16(x % 4, y / 16);
    CutAt4(y % 16, z / 64);
  }

  lemma DecodeThree(x: byte, y: byte, z: byte, rest: string)
    ensures DecodeFrom(Three(x, y, z) + rest, 0, 0, 0) == Before(x, Before(y, Before(z, DecodeFrom(rest, 0, 0, 0))))
  {
    var b, c, d := x % 4 * 16 + y / 16, y % 16 * 4 + z / 64, z % 64;
    BytesRejoined(x, y, z);
    TwoLetters(x / 4, b, [Digit(c)] + ([Digit(d)] + rest));
    ThirdLetter(b % 16, c, [Digit(d)] + rest);
    FourthLetter(c % 4, d, rest);
    assert Three(x, y, z) + rest == [Digit(x / 4), Digit(b)] + ([Digit(c)] + ([Digit(d)] + rest));
  }

  lemma {:induction false} DecodeOfPadded(data: seq<byte>)
    ensures DecodeFrom(EncodePadded(data), 0, 0, 0) == Some(data)
  {
    if data == [] {
    } else if |data| == 1 {
      DecodeOne(data[0]);
      assert data == [data[0]];
    } else if |data| == 2 {
      DecodeTwo(data[0], data[1]);
      assert data == [data[0], data[1]];
    } else {
      DecodeOfPadded(data[3..]);
      DecodeThree(data[0], data[1], data[2], EncodePadded(data[3..]));
      assert [data[0]] + ([data[1]] + ([data[2]] + data[3..])) == data;
    }
  }

  lemma LengthNotOne(n: nat)
    ensures (4 * n + 2) / 3 % 4 != 1
  {
    var q, r := n / 3, n % 3;
    assert 4 * n + 2 == 3 * (4 * q) + (4 * r + 2);
    assert (4 * n + 2) / 3 == 4 * q + (4 * r + 2) / 3;
  }

  /** Only the 64 letters, and never a length of 1 modulo 4. */
  lemma EncodedShape(data: seq<byte>)
    ensures InAlphabet(Encode(data)) && |Encode(data)| == (4 * |data| + 2) / 3 && |Encode(data)| % 4 != 1
  {
    EncodeIsBare(data);
    BareIsAlphabet(data);
    BareSize(data);
    LengthNotOne(|data|);
  }

  /** The padding that decoding puts back is exactly what encoding removed. */
  lemma PaddingRestored(data: seq<byte>)
    ensures Encode(data) + Padding(Encode(data)) == EncodePadded(data)
  {
    EncodeIsBare(data);
    PaddedIsBareAndPadding(data);
  }

  /** Round trip: every byte string comes back. */
  lemma RoundTrip(data: seq<byte>)
    ensures Decode(Encode(data)) == Some(data)
  {
    PaddingRestored(data);
    DecodeOfPadded(data);
    EncodedShape(data);
    LettersAreAscii(Encode(data));
    EqualsAreAscii(Missing(|Encode(data)|));
  }

  lemma LettersAreAscii(s: letters)
    ensures IsAscii(s)
  {
  }

  lemma {:induction false} EqualsAreAscii(n: nat)
    ensures IsAscii(Equals(n))
  {
    if n == 0 {
    } else {
      EqualsAreAscii(n - 1);
    }
  }

  // ---------------------------------------------------------------- what is refused

  function Letters(s: string): nat {
    if s == "" then 0 else (if Value(s[0]).Some? then 1 else 0) + Letters(s[1..])
  }

  function NextQuad(quad: int): int {
    if quad == 3 then 0 else quad + 1
  }

  /** How far into a group the letters of a text lead. */
  function QuadAfter(s: string, quad: int): int {
    if s == "" then quad else QuadAfter(s[1..], if Value(s[0]).Some? then NextQuad(quad) else quad)
  }

  /** The padding closes the group, or there is none to close. */
  predicate Closes(quad: int, tail: int) {
    quad == 0 || (quad >= 2 && quad + tail >= 4)
  }

  lemma {:induction false} QuadIsLetters(s: string, quad: crumb)
    ensures QuadAfter(s, quad) == (quad + Letters(s)) % 4
  {
    if s == "" {
    } else {
      if Value(s[0]).Some? {
        QuadIsLetters(s[1..], NextQuad(quad));
      } else {
        QuadIsLetters(s[1..], quad);
      }
    }
  }

  lemma {:induction false} DecodesIff(s: string, tail: nat, quad: int, left: int)
    requires 0 <= quad < 4 && 0 <= left < Leftover(quad) && '=' !in s
    ensures DecodeFrom(s + Equals(tail), quad, left, 0).Some? <==> Closes(QuadAfter(s, quad), tail)
  {
    if s == "" {
      assert s + Equals(tail) == Equals(tail);
      PaddingOnly(tail, quad, left, 0);
    } else {
      var c, rest := s[0], s[1..] + Equals(tail);
      assert s + Equals(tail) == [c] + rest;
      if Value(c) == None {
        DecodesIff(s[1..], tail, quad, left);
        assert ([c] + rest)[1..] == rest;
      } else {
        var v := Value(c).value;
        DecodesIff(s[1..], tail, NextQuad(quad),
                   if quad == 0 then v else if quad == 1 then v % 16 else if quad == 2 then v % 4 else 0);
        Letter(c, v, rest, quad, left);
      }
    }
  }

  lemma {:induction false} PaddingOnly(tail: nat, quad: int, left: int, pads: nat)
    requires 0 <= quad < 4 && 0 <= left < Leftover(quad) && (pads > 0 ==> quad >= 2 && quad + pads < 4)
    ensures DecodeFrom(Equals(tail), quad, left, pads).Some? <==> quad == 0 || (quad >= 2 && quad + pads + tail >= 4)
    decreases tail
  {
    if tail == 0 {
    } else {
      EqualsFromLeft(tail - 1);
      if !(quad >= 2 && quad + pads + 1 >= 4) {
        PaddingOnly(tail - 1, quad, left, if quad >= 2 then pads + 1 else pads);
      }
    }
  }

  lemma {:induction false} EqualsFromLeft(n: nat)
    ensures Equals(n + 1)[0] == '=' && Equals(n + 1)[1..] == Equals(n)
  {
    if n == 0 {
    } else {
      EqualsFromLeft(n - 1);
    }
  }

  lemma {:induction false} AllLetters(s: letters)
    ensures Letters(s) == |s| && '=' !in s
  {
    if s == "" {
    } else {
      AllLetters(s[1..]);
      assert s == [s[0]] + s[1..];
    }
  }

  /** An equals sign stands after the last letter. */
  predicate PaddedAtEnd(t: string) {
    t != "" &&
    (t[|t| - 1] == '=' || (Value(t[|t| - 1]) == None && PaddedAtEnd(t[..|t| - 1])))
  }

  /** The padding at place `m` completes a group: one after three letters of it, or the second after two. */
  predicate ClosesAt(t: string, m: nat)
    requires m < |t|
  {
    t[m] == '=' &&
    (Letters(t[..m]) % 4 == 3 || (Letters(t[..m]) % 4 == 2 && PaddedAtEnd(t[..m])))
  }

  ghost predicate ClosesFrom(t: string, k: nat) {
    exists m :: k <= m < |t| && ClosesAt(t, m)
  }

  lemma {:induction false} LettersSnoc(t: string, k: nat)
    requires k < |t|
    ensures Letters(t[..k + 1]) == Letters(t[..k]) + (if Value(t[k]).Some? then 1 else 0)
  {
    if k == 0 {
      assert t[..1][1..] == "" && t[..0] == "";
    } else {
      LettersSnoc(t[1..], k - 1);
      assert t[..k + 1][1..] == t[1..][..k] && t[..k][1..] == t[1..][..k - 1];
    }
  }

  /** The decoder at place `k` of a text. */
  lemma {:induction false} ReadsOn(t: string, k: nat, quad: int, left: int, pads: int)
    requires k <= |t| && 0 <= quad < 4 && 0 <= left < Leftover(quad) && quad == Letters(t[..k]) % 4
    requires pads == if quad == 2 && PaddedAtEnd(t[..k]) then 1 else 0
    ensures DecodeFrom(t[k..], quad, left, pads).Some? <==> Letters(t) % 4 == 0 || ClosesFrom(t, k)
    decreases |t| - k
  {
    if k == |t| {
      assert t[..k] == t;
    } else {
      var c := t[k];
      assert t[k..][0] == c && t[k..][1..] == t[k + 1..];
      assert t[..k + 1][..k] == t[..k] && t[..k + 1][k] == c;
      LettersSnoc(t, k);
      if c == '=' {
        if !ClosesAt(t, k) {
          ReadsOn(t, k + 1, quad, left, if quad >= 2 then pads + 1 else pads);
        }
      } else if Value(c) == None {
        ReadsOn(t, k + 1, quad, left, pads);
      } else {
        ReadsOnLetter(t, k, quad, left);
      }
      assert ClosesFrom(t, k) <==> ClosesAt(t, k) || ClosesFrom(t, k + 1);
    }
  }

  lemma ReadsOnLetter(t: string, k: nat, quad: int, left: int)
    requires k < |t| && 0 <= quad < 4 && 0 <= left < Leftover(quad) && quad == Letters(t[..k]) % 4
    requires Value(t[k]).Some? && t[k] != '='
    ensures DecodeFrom(t[k..], quad, left, 0).Some? <==> Letters(t) % 4 == 0 || ClosesFrom(t, k + 1)
    decreases |t| - k, 0
  {
    var v := Value(t[k]).value;
    LettersSnoc(t, k);
    assert [t[k]] + t[k + 1..] == t[k..];
    Letter(t[k], v, t[k + 1..], quad, left);
    assert t[..k + 1][k] == t[k];
    ReadsOn(t, k + 1, NextQuad(quad),
            if quad == 0 then v else if quad == 1 then v % 16 else if quad == 2 then v % 4 else 0, 0);
  }

  /**
   Which texts decode: those of ASCII characters whose letters make whole groups of four,
   or in which padding, their own or that computed from the whole length, completes a group.
   Characters that are neither letters nor padding are passed over.
   */
  lemma DecodesExactlyWhen(value: string)
    ensures var t := value + Padding(value);
            Decode(value).Some? <==> IsAscii(value) && (Letters(t) % 4 == 0 || ClosesFrom(t, 0))
  {
    var t := value + Padding(value);
    EqualsAreAscii(Missing(|value|));
    AsciiJoined(value, Padding(value));
    assert t[0..] == t;
    ReadsOn(t, 0, 0, 0, 0);
  }

  /** The same without padding of the text's own: the number of letters and the length decide. */
  lemma UnpaddedDecodesWhen(value: string)
    requires '=' !in value
    ensures Decode(value).Some? <==> IsAscii(value) && Closes(Letters(value) % 4, Missing(|value|))
  {
    PaddedDecodesWhen(value, Missing(|value|));
    QuadOfText(value);
  }

  lemma QuadOfText(value: string)
    ensures QuadAfter(value, 0) == Letters(value) % 4
  {
    QuadIsLetters(value, 0);
  }

  lemma PaddedDecodesWhen(value: string, tail: nat)
    requires '=' !in value
    ensures DecodePadded(value + Equals(tail)).Some? <==> IsAscii(value) && Closes(QuadAfter(value, 0), tail)
  {
    EqualsAreAscii(tail);
    AsciiJoined(value, Equals(tail));
    DecodesIff(value, tail, 0, 0);
  }

  lemma AsciiJoined(a: string, b: string)
    ensures IsAscii(a + b) <==> IsAscii(a) && IsAscii(b)
  {
    assert forall i :: 0 <= i < |a| ==> (a + b)[i] == a[i];
    assert forall i :: 0 <= i < |b| ==> (a + b)[|a| + i] == b[i];
  }

  /** Of the texts in the alphabet, exactly those whose length is 1 modulo 4 decode to nothing. */
  lemma BadLength(value: letters)
    ensures Decode(value) == None <==> |value| % 4 == 1
  {
    AllLetters(value);
    LettersAreAscii(value);
    UnpaddedDecodesWhen(value);
    var n := |value|;
    assert n % 4 + Missing(n) == if n % 4 == 0 then 0 else 4;
  }

  // ---------------------------------------------------------------- what comes back as it was

  /** The texts that encoding writes: the bits a last, incomplete group leaves over are zero. */
  predicate Canonical(v: string) {
    && InAlphabet(v) && |v| % 4 != 1
    && (|v| % 4 == 2 ==> Value(v[|v| - 1]).value % 16 == 0)
    && (|v| % 4 == 3 ==> Value(v[|v| - 1]).value % 4 == 0)
  }

  type canonical = v: string | Canonical(v)

  lemma DigitOfValue(c: char)
    ensures Value(c).Some? && c != '+' && c != '/' ==> Digit(Value(c).value) == c
  {
  }

  lemma FourFrom(a: sextet, b: sextet, c: sextet, d: sextet) returns (x: byte, y: byte, z: byte)
    ensures Three(x, y, z) == [Digit(a), Digit(b), Digit(c), Digit(d)]
  {
    x, y, z := a * 4 + b / 16, b % 16 * 16 + c / 4, c % 4 * 64 + d;
    CutAt4(a, b / 16);
    CutAt16(b % 16, c / 4);
    CutAt64(c % 4, d);
  }

  lemma CutAt64(high: int, low: sextet)
    ensures (high * 64 + low) / 64 == high && (high * 64 + low) % 64 == low
  {
  }

  lemma TwoFrom(a: sextet, b: sextet) returns (x: byte)
    requires b % 16 == 0
    ensures One(x) == [Digit(a), Digit(b)]
  {
    x := a * 4 + b / 16;
    CutAt4(a, b / 16);
  }

  lemma ThreeFrom(a: sextet, b: sextet, c: sextet) returns (x: byte, y: byte)
    requires c % 4 == 0
    ensures Two(x, y) == [Digit(a), Digit(b), Digit(c)]
  {
    x, y := a * 4 + b / 16, b % 16 * 16 + c / 4;
    CutAt4(a, b / 16);
    CutAt16(b % 16, c / 4);
  }

  lemma GroupFrom(v: string) returns (x: byte, y: byte, z: byte)
    requires |v| >= 4 && InAlphabet(v)
    ensures v[..4] == Three(x, y, z)
  {
    DigitOfValue(v[0]);
    DigitOfValue(v[1]);
    DigitOfValue(v[2]);
    DigitOfValue(v[3]);
    x, y, z := FourFrom(Value(v[0]).value, Value(v[1]).value, Value(v[2]).value, Value(v[3]).value);
  }

  lemma LastFrom(v: string) returns (data: seq<byte>)
    requires Canonical(v) && 2 <= |v| <= 3
    ensures Bare(data) == v
  {
    DigitOfValue(v[0]);
    DigitOfValue(v[1]);
    if |v| == 2 {
      var x := TwoFrom(Value(v[0]).value, Value(v[1]).value);
      data := [x];
    } else {
      DigitOfValue(v[2]);
      var x, y := ThreeFrom(Value(v[0]).value, Value(v[1]).value, Value(v[2]).value);
      data := [x, y];
    }
  }

  /** Every canonical text encodes something. */
  lemma {:induction false} CanonicalIsEncoded(v: canonical) returns (data: seq<byte>)
    ensures Bare(data) == v
  {
    if v == "" {
      data := [];
    } else if |v| < 4 {
      data := LastFrom(v);
    } else {
      var x, y, z := GroupFrom(v);
      var rest := CanonicalIsEncoded(v[4..]);
      data := [x, y, z] + rest;
      assert data[3..] == rest;
      assert v == v[..4] + v[4..];
    }
  }

  lemma {:induction false} BareIsCanonical(data: seq<byte>)
    ensures Canonical(Bare(data))
  {
    BareIsAlphabet(data);
    BareSize(data);
    if data == [] {
    } else if |data| == 1 {
      DigitValue(data[0] % 4 * 16);
      CutAt16(data[0] % 4, 0);
    } else if |data| == 2 {
      DigitValue(data[1] % 16 * 4);
      CutAt4(data[1] % 16, 0);
    } else {
      BareIsCanonical(data[3..]);
      CanonicalExtends(Three(data[0], data[1], data[2]), Bare(data[3..]));
    }
  }

  lemma CanonicalExtends(group: string, v: string)
    requires |group| == 4 && Canonical(v) && InAlphabet(group + v)
    ensures Canonical(group + v)
  {
    assert v != "" ==> (group + v)[|group + v| - 1] == v[|v| - 1];
  }

  /** The other round trip: a text comes back from decoding and encoding exactly when it is canonical. */
  lemma ComesBackIff(v: string)
    ensures Decode(v).Some? && Encode(Decode(v).value) == v <==> Canonical(v)
  {
    if Canonical(v) {
      var data := CanonicalIsEncoded(v);
      EncodeIsBare(data);
      RoundTrip(data);
    }
    if Decode(v).Some? {
      EncodeIsBare(Decode(v).value);
      BareIsCanonical(Decode(v).value);
    }
  }

  /** A text with a character that belongs to no alphabet is read as if it were not there. */
  lemma LenientExample()
    ensures Decode("QUJD!") == Some([65, 66, 67]) && !Canonical("QUJD!")
  {
    assert Missing(5) == 3;
    assert Equals(3) == Equals(2) + "=" && Equals(2) == Equals(1) + "=" && Equals(1) == Equals(0) + "=";
    assert "QUJD!" + Padding("QUJD!") == "QUJD!===";
    assert Three(65, 66, 67) == "QUJD";
    DecodeThree(65, 66, 67, "!===");
    assert "QUJD!===" == Three(65, 66, 67) + "!===";
    assert "!==="[1..] == "===" && "==="[1..] == "==" && "=="[1..] == "=" && "="[1..] == "";
    assert DecodeFrom("!===", 0, 0, 0) == Some([]);
    assert [65] + ([66] + ([67] + [])) == [65, 66, 67];
  }
}

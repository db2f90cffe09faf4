/** `str.split`, `str.strip` and `str.join` as the parsers use them. */
module Text {
  import opened Prelude

  /** The characters `str.isspace` accepts. */
  predicate IsSpace(c: char) {
    || '\t' <= c <= '\r'
    || '\U{1c}' <= c <= ' '
    || c in {'\U{85}', '\U{a0}', '\U{1680}', '\U{2028}', '\U{2029}', '\U{202f}', '\U{205f}', '\U{3000}'}
    || '\U{2000}' <= c <= '\U{200a}'
  }

  /** Of the ASCII characters, the five from tab to carriage return, the four separators and the space. */
  lemma AsciiSpaces(c: char)
    requires c as int < 128
    ensures IsSpace(c) <==> c as int in {9, 10, 11, 12, 13, 28, 29, 30, 31, 32}
  {
  }

  /** `s.split()`: the maximal runs of characters that are not spaces. */
  function Words(s: string): seq<string> {
    WordsFrom(s, "")
  }

  function WordsFrom(s: string, word: string): seq<string> {
    if s == "" then Finished(word)
    else if IsSpace(s[0]) then Finished(word) + WordsFrom(s[1..], "")
    else WordsFrom(s[1..], word + [s[0]])
  }

  function Finished(word: string): seq<string> {
    if word == "" then [] else [word]
  }

  /** `sep.join(parts)`. */
  function Join(parts: seq<string>, sep: string): string {
    if parts == [] then ""
    else if |parts| == 1 then parts[0]
    else parts[0] + sep + Join(parts[1..], sep)
  }

  function StripLeft(s: string): string {
    if s != "" && IsSpace(s[0]) then StripLeft(s[1..]) else s
  }

  function StripRight(s: string): string {
    if s != "" && IsSpace(s[|s| - 1]) then StripRight(s[..|s| - 1]) else s
  }

  /** `s.strip()`. */
  function Strip(s: string): string {
    StripRight(StripLeft(s))
  }

  predicate StartsWith(s: string, prefix: string) {
    |prefix| <= |s| && s[..|prefix|] == prefix
  }

  function WordsFn(): string -> seq<string> {
    (s: string) => Words(s)
  }

  /** All the words of several pieces of text. */
  function AllWords(parts: seq<string>): seq<string> {
    Flatten(Map(parts, WordsFn()))
  }

  /** `_normalize_text`: one space between words, none around. */
  function Normalize(s: string): string {
    Strip(Join(Words(s), " "))
  }

  lemma {:induction false} WordsSplit(a: string, b: string, word: string)
    ensures WordsFrom(a + " " + b, word) == WordsFrom(a, word) + Words(b)
  {
    if a == "" {
      assert (a + " " + b)[0] == ' ' && (a + " " + b)[1..] == b;
    } else {
      assert (a + " " + b)[0] == a[0] && (a + " " + b)[1..] == a[1..] + " " + b;
      if IsSpace(a[0]) {
        WordsSplit(a[1..], b, "");
      } else {
        WordsSplit(a[1..], b, word + [a[0]]);
      }
    }
  }

  lemma AllWordsAppend(parts: seq<string>, part: string)
    ensures AllWords(parts + [part]) == AllWords(parts) + Words(part)
  {
    assert Map(parts + [part], WordsFn()) == Map(parts, WordsFn()) + [Words(part)];
    FlattenAppend(Map(parts, WordsFn()), Words(part));
  }

  /** Joining with a space and splitting again loses and merges nothing. */
  lemma {:induction false} WordsOfJoin(parts: seq<string>)
    ensures Words(Join(parts, " ")) == AllWords(parts)
  {
    if parts == [] {
    } else if |parts| == 1 {
      AllWordsAppend([], parts[0]);
      assert parts == [] + [parts[0]];
    } else {
      WordsSplit(parts[0], Join(parts[1..], " "), "");
      WordsOfJoin(parts[1..]);
      assert Map(parts, WordsFn())[1..] == Map(parts[1..], WordsFn());
    }
  }

  lemma {:induction false} WordsEndSpace(s: string, space: char, word: string)
    requires IsSpace(space)
    ensures WordsFrom(s + [space], word) == WordsFrom(s, word)
  {
    if s == "" {
      assert ([space])[1..] == "";
    } else {
      assert (s + [space])[0] == s[0] && (s + [space])[1..] == s[1..] + [space];
      WordsEndSpace(s[1..], space, if IsSpace(s[0]) then "" else word + [s[0]]);
    }
  }

  lemma {:induction false} WordsOfStripLeft(s: string)
    ensures Words(StripLeft(s)) == Words(s)
  {
    if s == "" || !IsSpace(s[0]) {
    } else {
      WordsOfStripLeft(s[1..]);
    }
  }

  lemma {:induction false} WordsOfStripRight(s: string)
    ensures Words(StripRight(s)) == Words(s)
  {
    if s == "" || !IsSpace(s[|s| - 1]) {
    } else {
      WordsOfStripRight(s[..|s| - 1]);
      WordsEndSpace(s[..|s| - 1], s[|s| - 1], "");
      assert s[..|s| - 1] + [s[|s| - 1]] == s;
    }
  }

  lemma WordsOfStrip(s: string)
    ensures Words(Strip(s)) == Words(s)
  {
    WordsOfStripLeft(s);
    WordsOfStripRight(StripLeft(s));
  }

  ghost predicate IsWord(w: string) {
    w != "" && forall i :: 0 <= i < |w| ==> !IsSpace(w[i])
  }

  lemma {:induction false} WordOfWord(w: string, word: string)
    requires forall i :: 0 <= i < |w| ==> !IsSpace(w[i])
    ensures WordsFrom(w, word) == Finished(word + w)
  {
    if w == "" {
      assert word + w == word;
    } else {
      WordOfWord(w[1..], word + [w[0]]);
      assert word + [w[0]] + w[1..] == word + w;
    }
  }

  lemma {:induction false} WordsAreWords(s: string, word: string)
    requires word == "" || IsWord(word)
    ensures forall i :: 0 <= i < |WordsFrom(s, word)| ==> IsWord(WordsFrom(s, word)[i])
  {
    if s == "" {
    } else {
      WordsAreWords(s[1..], if IsSpace(s[0]) then "" else word + [s[0]]);
    }
  }

  lemma {:induction false} AllWordsOfWords(ws: seq<string>)
    requires forall i :: 0 <= i < |ws| ==> IsWord(ws[i])
    ensures AllWords(ws) == ws
  {
    if ws == [] {
    } else {
      assert IsWord(ws[0]);
      WordsOfWord(ws[0]);
      AllWordsOfWords(ws[1..]);
      AllWordsOfFirst(ws);
    }
  }

  lemma WordsOfWord(w: string)
    requires IsWord(w)
    ensures Words(w) == [w]
  {
    WordOfWord(w, "");
    assert "" + w == w;
  }

  lemma AllWordsOfFirst(ws: seq<string>)
    requires ws != []
    ensures AllWords(ws) == Words(ws[0]) + AllWords(ws[1..])
  {
    assert Map(ws, WordsFn())[1..] == Map(ws[1..], WordsFn());
  }

  /** Normalising keeps the words, is idempotent, and is empty exactly for blank text. */
  lemma NormalizeKeepsWords(s: string)
    ensures Words(Normalize(s)) == Words(s)
    ensures Normalize(Normalize(s)) == Normalize(s)
    ensures Normalize(s) == "" <==> Words(s) == []
  {
    WordsOfStrip(Join(Words(s), " "));
    WordsOfJoin(Words(s));
    WordsAreWords(s, "");
    AllWordsOfWords(Words(s));
  }

  /** Normalising the joined pieces keeps the words of all the pieces. */
  lemma NormalizeJoined(parts: seq<string>)
    ensures Words(Normalize(Join(parts, " "))) == AllWords(parts)
    ensures Normalize(Join(parts, " ")) == "" <==> AllWords(parts) == []
    ensures Normalize(Normalize(Join(parts, " "))) == Normalize(Join(parts, " "))
  {
    NormalizeKeepsWords(Join(parts, " "));
    WordsOfJoin(parts);
  }

  lemma StripOfClean(s: string)
    requires s != "" && !IsSpace(s[0]) && !IsSpace(s[|s| - 1])
    ensures Strip(s) == s
  {
  }

  predicate AllSpaces(s: string) {
    forall i :: 0 <= i < |s| ==> IsSpace(s[i])
  }

  lemma {:induction false} StripLeftShape(s: string) returns (a: string)
    ensures AllSpaces(a) && s == a + StripLeft(s)
    ensures StripLeft(s) != "" ==> !IsSpace(StripLeft(s)[0])
  {
    if s == "" || !IsSpace(s[0]) {
      a := "";
    } else {
      a := StripLeftShape(s[1..]);
      a := [s[0]] + a;
    }
  }

  lemma {:induction false} StripRightShape(s: string) returns (b: string)
    ensures AllSpaces(b) && s == StripRight(s) + b
    ensures StripRight(s) != "" ==> !IsSpace(StripRight(s)[|StripRight(s)| - 1])
  {
    if s == "" || !IsSpace(s[|s| - 1]) {
      b := "";
    } else {
      b := StripRightShape(s[..|s| - 1]);
      b := b + [s[|s| - 1]];
    }
  }

  /** `strip()` takes off spaces at both ends and nothing else, and leaves none there. */
  lemma StripShape(s: string) returns (a: string, b: string)
    ensures s == a + Strip(s) + b && AllSpaces(a) && AllSpaces(b)
    ensures Strip(s) != "" ==> !IsSpace(Strip(s)[0]) && !IsSpace(Strip(s)[|Strip(s)| - 1])
    ensures Strip(s) == "" <==> AllSpaces(s)
  {
    a := StripLeftShape(s);
    b := StripRightShape(StripLeft(s));
    if Strip(s) != "" {
      assert StripLeft(s)[0] == Strip(s)[0];
      assert s[|a|] == Strip(s)[0];
    }
  }

  type spaces = s: string | AllSpaces(s)

  lemma {:induction false} StripLeftOf(a: spaces, s: string)
    ensures StripLeft(a + s) == StripLeft(s)
  {
    if a == "" {
      assert a + s == s;
    } else {
      StripLeftOf(a[1..], s);
      assert (a + s)[1..] == a[1..] + s;
    }
  }

  lemma {:induction false} StripRightOf(s: string, b: spaces)
    ensures StripRight(s + b) == StripRight(s)
    decreases |b|
  {
    if b == "" {
      assert s + b == s;
    } else {
      StripRightOf(s, b[..|b| - 1]);
      assert (s + b)[..|s + b| - 1] == s + b[..|b| - 1];
    }
  }

  /** What has no spaces at its ends is what `strip()` leaves of it, whatever spaces stand around. */
  lemma StripBetween(a: spaces, core: string, b: spaces)
    requires core != "" && !IsSpace(core[0]) && !IsSpace(core[|core| - 1])
    ensures Strip(a + core + b) == core
  {
    assert a + core + b == a + (core + b);
    StripLeftOf(a, core + b);
    StripRightOf(core, b);
    StripOfClean(core);
  }

  // ---------------------------------------------------------------- subsequences

  /** `a` is what is left of `b` after dropping some elements. */
  predicate IsSubseq<T(==)>(a: seq<T>, b: seq<T>) {
    a == [] ||
    (b != [] &&
     ((a[|a| - 1] == b[|b| - 1] && IsSubseq(a[..|a| - 1], b[..|b| - 1])) || IsSubseq(a, b[..|b| - 1])))
  }

  lemma {:induction false} SubseqSelf<T>(a: seq<T>)
    ensures IsSubseq(a, a)
  {
    if a == [] {
    } else {
      SubseqSelf(a[..|a| - 1]);
    }
  }

  lemma SubseqSnoc<T>(a: seq<T>, b: seq<T>, x: T)
    requires IsSubseq(a, b)
    ensures IsSubseq(a, b + [x]) && IsSubseq(a + [x], b + [x])
  {
    assert (b + [x])[..|b|] == b;
    assert (a + [x])[..|a|] == a;
  }

  lemma {:induction false} SubseqAppend<T>(a: seq<T>, b: seq<T>, c: seq<T>)
    requires IsSubseq(a, b)
    ensures IsSubseq(a + c, b + c)
    decreases |c|
  {
    if c == [] {
      assert a + c == a && b + c == b;
    } else {
      var d, x := c[..|c| - 1], c[|c| - 1];
      SubseqAppend(a, b, d);
      SubseqSnoc(a + d, b + d, x);
      assert a + c == a + d + [x] && b + c == b + d + [x];
    }
  }

  lemma {:induction false} SubseqPrefix<T>(a: seq<T>, d: seq<T>, b: seq<T>)
    requires IsSubseq(a + d, b)
    ensures IsSubseq(a, b)
    decreases |b|
  {
    if d == [] {
      assert a + d == a;
    } else if a == [] {
    } else {
      var s := a + d;
      if s[|s| - 1] == b[|b| - 1] && IsSubseq(s[..|s| - 1], b[..|b| - 1]) {
        assert s[..|s| - 1] == a + d[..|d| - 1];
        SubseqPrefix(a, d[..|d| - 1], b[..|b| - 1]);
      } else {
        SubseqPrefix(a, d, b[..|b| - 1]);
      }
    }
  }

  lemma {:induction false} SubseqLength<T>(a: seq<T>, b: seq<T>)
    requires IsSubseq(a, b)
    ensures |a| <= |b| && (|a| == |b| ==> a == b)
    decreases |b|
  {
    if a == [] {
    } else {
      if a[|a| - 1] == b[|b| - 1] && IsSubseq(a[..|a| - 1], b[..|b| - 1]) {
        SubseqLength(a[..|a| - 1], b[..|b| - 1]);
        assert a == a[..|a| - 1] + [a[|a| - 1]] && b == b[..|b| - 1] + [b[|b| - 1]];
      } else {
        SubseqLength(a, b[..|b| - 1]);
      }
    }
  }
}

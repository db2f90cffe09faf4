/**
 The prompt context and the sources of an answer (app/services/chat.py,
 app/api/routes/chat.py): the character budget, and that citation [i] and source i are
 the same chunk.
 */
module Chat {
  import opened Prelude
  import opened Text
  import opened Decimal
  import opened JobRows
  import opened Retrieval

  const SEPARATOR := "\n---\n"
  const EXCERPT_CHARS := 600

  /** The least a block can have: its fixed text, one digit of label, six characters of score. */
  const FIXED_CHARS := 37

  /** To the nearest whole number, a half to the even one. */
  function Rounded(y: real): int {
    var down := y.Floor;
    var rest := y - down as real;
    if rest < 0.5 || (rest == 0.5 && down % 2 == 0) then down else down + 1
  }

  /** `f"{score:.4f}"`; a negative score keeps its sign even where it rounds to zero. */
  function Fixed4(x: real): string {
    var n := Rounded((if x < 0.0 then -x else x) * 10000.0);
    assert n >= 0;
    (if x < 0.0 then "-" else "") + ToDecimal(n / 10000) + "." + FourDigits(n % 10000)
  }

  function FourDigits(n: int): string
    requires 0 <= n < 10000
  {
    [DigitChar(n / 1000), DigitChar(n / 100 % 10), DigitChar(n / 10 % 10), DigitChar(n % 10)]
  }

  function Label(index: nat): string {
    "[" + ToDecimal(index) + "]"
  }

  function Content(result: SearchResult): string {
    result.chunk.chunk.content
  }

  function NameLine(result: SearchResult): string {
    "Arquivo: " + result.fileName + "\n"
  }

  function ScoreLine(result: SearchResult): string {
    "Score: " + Fixed4(result.score) + "\n"
  }

  function QuoteLines(result: SearchResult): string {
    "Trecho:\n" + Strip(Content(result)) + "\n"
  }

  function Body(result: SearchResult): string {
    " " + NameLine(result) + ScoreLine(result) + QuoteLines(result)
  }

  function Block(index: nat, result: SearchResult): string {
    Label(index) + Body(result)
  }

  /** The blocks of all results, labelled from 1. */
  function Blocks(results: seq<SearchResult>): (r: seq<string>)
    ensures |r| == |results|
  {
    if results == [] then []
    else
      var n := |results| - 1;
      Blocks(results[..n]) + [Block(n + 1, results[n])]
  }

  lemma {:induction false} BlockAt(results: seq<SearchResult>, i: nat)
    requires i < |results|
    ensures Blocks(results)[i] == Block(i + 1, results[i])
  {
    var n := |results| - 1;
    if i == n {
    } else {
      BlockAt(results[..n], i);
      assert results[..n][i] == results[i];
    }
  }

  /** The text of one block, as the loop formats it. */
  method FormatBlock(results: seq<SearchResult>, i: nat) returns (block: string)
    requires i < |results|
    ensures block == Blocks(results)[i]
  {
    BlockAt(results, i);
    block := Block(i + 1, results[i]);
  }

  function SizeFn(): string -> int {
    (s: string) => |s|
  }

  function TotalSize(blocks: seq<string>): int {
    Sum(blocks, SizeFn())
  }

  /** How many blocks the loop takes before the first that does not fit. */
  function Taken(blocks: seq<string>, budget: int): (m: nat)
    ensures m <= |blocks|
  {
    if blocks == [] || |blocks[0]| > budget then 0 else 1 + Taken(blocks[1..], budget - |blocks[0]|)
  }

  lemma SizeOfPrefix(blocks: seq<string>, k: nat)
    requires k < |blocks|
    ensures TotalSize(blocks[..k + 1]) == TotalSize(blocks[..k]) + |blocks[k]|
  {
    assert blocks[..k + 1] == blocks[..k] + [blocks[k]];
    SumAppend(blocks[..k], blocks[k], SizeFn());
  }

  /** It is the longest prefix within the budget: it fits, and any prefix that fits is no longer. */
  lemma {:induction false} TakenIsLongest(blocks: seq<string>, budget: int, k: nat)
    requires k <= |blocks|
    ensures budget >= 0 ==> TotalSize(blocks[..Taken(blocks, budget)]) <= budget
    ensures TotalSize(blocks[..k]) <= budget ==> k <= Taken(blocks, budget)
  {
    if blocks == [] || |blocks[0]| > budget {
      if k > 0 {
        SumNonNegative(blocks[..k][1..], SizeFn());
      }
    } else {
      var m := Taken(blocks[1..], budget - |blocks[0]|);
      TakenIsLongest(blocks[1..], budget - |blocks[0]|, if k == 0 then 0 else k - 1);
      assert blocks[..m + 1][1..] == blocks[1..][..m];
      if k > 0 {
        assert blocks[..k][1..] == blocks[1..][..k - 1];
      }
    }
  }

  lemma TakenStep(all: seq<string>, left: int, i: nat)
    requires i < |all|
    ensures Taken(all[i..], left) == if |all[i]| > left then 0 else 1 + Taken(all[i + 1..], left - |all[i]|)
  {
    assert all[i..][0] == all[i];
    assert all[i..][1..] == all[i + 1..];
  }

  /** `build_context`. */
  method BuildContext(results: seq<SearchResult>, budget: nat) returns (context: string)
    ensures var blocks := Blocks(results);
            context == Join(blocks[..Taken(blocks, budget)], SEPARATOR)
  {
    var blocks: seq<string> := [];
    var size := 0;
    ghost var all := Blocks(results);
    var i := 0;
    while i < |results|
      invariant 0 <= i <= |results| && blocks == all[..i] && size <= budget
      invariant Taken(all, budget) == i + Taken(all[i..], budget - size)
    {
      var block := FormatBlock(results, i);
      TakenStep(all, budget - size, i);
      if size + |block| > budget {
        break;
      }
      blocks := blocks + [block];
      size := size + |block|;
      i := i + 1;
    }
    context := Join(blocks, SEPARATOR);
  }

  // ---------------------------------------------------------------- the budget

  lemma {:induction false} JoinedSize(parts: seq<string>, sep: string)
    ensures |Join(parts, sep)| == TotalSize(parts) + (if parts == [] then 0 else |sep| * (|parts| - 1))
  {
    if parts == [] {
    } else if |parts| == 1 {
      SumAppend([], parts[0], SizeFn());
      assert parts == [] + [parts[0]];
    } else {
      JoinedSize(parts[1..], sep);
      assert |sep| * (|parts| - 1) == |sep| + |sep| * (|parts| - 2);
    }
  }

  lemma {:induction false} BlocksAreLong(blocks: seq<string>, least: int)
    requires forall i :: 0 <= i < |blocks| ==> |blocks[i]| >= least
    ensures TotalSize(blocks) >= least * |blocks|
  {
    if blocks == [] {
    } else {
      BlocksAreLong(blocks[1..], least);
      assert least * |blocks| == least + least * (|blocks| - 1);
    }
  }

  lemma BlockIsLong(index: nat, result: SearchResult)
    ensures |Block(index, result)| >= FIXED_CHARS
  {
    DecimalRoundTrip(index);
    ScoreIsLong(result.score);
  }

  lemma ScoreIsLong(x: real)
    ensures |Fixed4(x)| >= 6
  {
    DecimalRoundTrip(Rounded((if x < 0.0 then -x else x) * 10000.0) / 10000);
  }

  /**
   The budget counts the blocks and not what joins them: with m blocks the context is
   5(m-1) characters longer than their sum, and m is at most budget / 37.
   */
  lemma ContextSize(results: seq<SearchResult>, budget: nat)
    ensures var blocks := Blocks(results);
            var m := Taken(blocks, budget);
            var context := Join(blocks[..m], SEPARATOR);
            && FIXED_CHARS * m <= TotalSize(blocks[..m]) <= budget
            && (m > 0 ==> |context| == TotalSize(blocks[..m]) + 5 * (m - 1))
            && (context == "" <==> m == 0)
  {
    var blocks := Blocks(results);
    var m := Taken(blocks, budget);
    TakenIsLongest(blocks, budget, 0);
    JoinedSize(blocks[..m], SEPARATOR);
    forall i | 0 <= i < m ensures |blocks[..m][i]| >= FIXED_CHARS {
      BlockAt(results, i);
      BlockIsLong(i + 1, results[i]);
    }
    BlocksAreLong(blocks[..m], FIXED_CHARS);
  }

  lemma {:induction false} PrefixesGrow(blocks: seq<string>, k: nat, m: nat)
    requires k <= m <= |blocks|
    ensures TotalSize(blocks[..k]) <= TotalSize(blocks[..m])
    decreases m
  {
    if k == m {
    } else {
      PrefixesGrow(blocks, k, m - 1);
      SizeOfPrefix(blocks, m - 1);
    }
  }

  /**
   When the configured maximum is one: no prefix of the blocks fits by itself without its
   separators fitting too.
   */
  lemma ContextFitsIff(results: seq<SearchResult>, budget: nat)
    ensures var blocks := Blocks(results);
            |Join(blocks[..Taken(blocks, budget)], SEPARATOR)| <= budget <==>
            forall k :: 1 <= k <= |blocks| && TotalSize(blocks[..k]) <= budget ==>
                          TotalSize(blocks[..k]) + 5 * (k - 1) <= budget
  {
    var blocks := Blocks(results);
    var m := Taken(blocks, budget);
    ContextSize(results, budget);
    forall k | 1 <= k <= |blocks| && TotalSize(blocks[..k]) <= budget
      ensures k <= m && TotalSize(blocks[..k]) <= TotalSize(blocks[..m])
    {
      TakenIsLongest(blocks, budget, k);
      PrefixesGrow(blocks, k, m);
    }
  }

  /** So the configured maximum is not one: two or more blocks that fill it exactly overrun it. */
  lemma BudgetIsOverrun(results: seq<SearchResult>)
    requires |results| >= 2
    ensures var blocks := Blocks(results);
            var budget := TotalSize(blocks);
            |Join(blocks[..Taken(blocks, budget)], SEPARATOR)| == budget + 5 * (|results| - 1) > budget
  {
    var blocks := Blocks(results);
    assert blocks[..|blocks|] == blocks;
    SumNonNegative(blocks, SizeFn());
    TakenIsLongest(blocks, TotalSize(blocks), |blocks|);
    ContextSize(results, TotalSize(blocks));
  }

  // ---------------------------------------------------------------- citations

  /** A chunk is known by its document and its index there. */
  datatype Source = Source(index: nat, doc: DocId, chunkIndex: int, fileName: string, score: real, excerpt: string)

  function SourceOf(index: nat, item: SearchResult): Source {
    Source(index, item.chunk.doc, item.chunk.index, item.fileName, item.score,
           Content(item)[..Min(EXCERPT_CHARS, |Content(item)|)])
  }

  /** `build_source_payload`. */
  function SourcePayload(results: seq<SearchResult>): (r: seq<Source>)
    ensures |r| == |results|
    ensures forall i :: 0 <= i < |r| ==> r[i] == SourceOf(i + 1, results[i])
  {
    if results == [] then []
    else
      var n := |results| - 1;
      SourcePayload(results[..n]) + [SourceOf(n + 1, results[n])]
  }

  /** The digits a text begins with. */
  function LeadingDigits(s: string): string {
    if s == "" || !IsDigit(s[0]) then "" else [s[0]] + LeadingDigits(s[1..])
  }

  lemma {:induction false} LeadingDigitsOf(digits: string, rest: string)
    requires forall i :: 0 <= i < |digits| ==> IsDigit(digits[i])
    ensures LeadingDigits(digits + "]" + rest) == digits
  {
    if digits == "" {
    } else {
      LeadingDigitsOf(digits[1..], rest);
      assert (digits + "]" + rest)[1..] == digits[1..] + "]" + rest;
    }
  }

  lemma LabelIsRead(i: nat, rest: string)
    ensures FromDecimal(LeadingDigits((Label(i) + rest)[1..])) == Some(i)
  {
    DecimalRoundTrip(i);
    LeadingDigitsOf(ToDecimal(i), rest);
    assert (Label(i) + rest)[1..] == ToDecimal(i) + "]" + rest;
  }

  /** A text that begins with two labels begins with the same label twice. */
  lemma LabelsDoNotOverlap(i: nat, k: nat, rest: string)
    requires StartsWith(Label(k) + rest, Label(i))
    ensures i == k
  {
    var s := Label(k) + rest;
    LabelIsRead(k, rest);
    LabelIsRead(i, s[|Label(i)|..]);
    assert s == Label(i) + s[|Label(i)|..];
  }

  /** A label is its number in square brackets. */
  lemma LabelIsBracketed(i: nat)
    ensures var text := Label(i);
            && |text| >= 3 && text[0] == '[' && text[|text| - 1] == ']'
            && FromDecimal(text[1..|text| - 1]) == Some(i)
  {
    DecimalRoundTrip(i);
    assert Label(i)[1..|Label(i)| - 1] == ToDecimal(i);
  }

  /**
   Citations agree: block k of the prompt carries label [i] exactly when source k is numbered
   i, sources are numbered from 1, and source k is the chunk that block k was written from.
   */
  lemma CitationsAgree(results: seq<SearchResult>, budget: nat, k: nat, i: nat)
    requires k < Taken(Blocks(results), budget)
    ensures var source, result := SourcePayload(results)[k], results[k];
            && (StartsWith(Blocks(results)[k], Label(i)) <==> source.index == i)
            && source.index == k + 1 && source.doc == result.chunk.doc && source.chunkIndex == result.chunk.index
            && source.fileName == result.fileName && source.score == result.score
            && source.excerpt <= result.chunk.chunk.content
            && |source.excerpt| == Min(600, |result.chunk.chunk.content|)
    ensures Blocks(results)[k] == Label(k + 1) + Body(results[k])
  {
    BlockAt(results, k);
    if StartsWith(Blocks(results)[k], Label(i)) {
      LabelsDoNotOverlap(i, k + 1, Body(results[k]));
    }
  }

  // ---------------------------------------------------------------- what a block says

  ghost predicate Contains(s: string, part: string) {
    exists before, after :: s == before + part + after
  }

  lemma Inside(a: string, part: string, b: string)
    ensures Contains(a + part + b, part)
  {
  }

  /** A block names the file, gives the score and quotes the whole chunk but for the spaces around it. */
  lemma BlockQuotes(index: nat, result: SearchResult)
    ensures var block := Block(index, result);
            && Contains(block, "Arquivo: " + result.fileName + "\n")
            && Contains(block, "Score: " + Fixed4(result.score) + "\n")
            && Contains(block, "Trecho:\n" + Strip(result.chunk.chunk.content) + "\n")
  {
    InsideThree(Label(index) + " ", NameLine(result), ScoreLine(result), QuoteLines(result));
    Reassociated(Label(index), " ", NameLine(result), ScoreLine(result), QuoteLines(result));
  }

  lemma Reassociated(a: string, b: string, c: string, d: string, e: string)
    ensures a + (b + c + d + e) == a + b + c + d + e
  {
  }

  lemma InsideThree(a: string, b: string, c: string, d: string)
    ensures Contains(a + b + c + d, b) && Contains(a + b + c + d, c) && Contains(a + b + c + d, d)
  {
    assert a + b + c + d == a + b + (c + d) == (a + b) + c + d == (a + b + c) + d + "";
    Inside(a, b, c + d);
    Inside(a + b, c, d);
    Inside(a + b + c, d, "");
  }

  lemma RoundedIsNearest(y: real)
    requires y >= 0.0
    ensures Rounded(y) >= 0 && -0.5 <= Rounded(y) as real - y <= 0.5
    ensures Rounded(y) as real - y == 0.5 || y - Rounded(y) as real == 0.5 ==> Rounded(y) % 2 == 0
  {
  }

  /** The score reads back as the nearest multiple of 1/10000, the even one of two. */
  lemma ScoreReadsBack(x: real) returns (n: nat, whole: string, part: string)
    ensures var y := (if x < 0.0 then -x else x) * 10000.0;
            -0.5 <= n as real - y <= 0.5 && (n as real - y == 0.5 || y - n as real == 0.5 ==> n % 2 == 0)
    ensures Fixed4(x) == (if x < 0.0 then "-" else "") + whole + "." + part && |part| == 4
    ensures FromDecimal(whole) == Some(n / 10000) && FromDecimal(part) == Some(n % 10000)
  {
    var y := (if x < 0.0 then -x else x) * 10000.0;
    RoundedIsNearest(y);
    n := Rounded(y);
    whole, part := ToDecimal(n / 10000), FourDigits(n % 10000);
    DecimalRoundTrip(n / 10000);
    FourDigitsReadBack(n % 10000);
  }

  lemma FourDigitsReadBack(n: int)
    requires 0 <= n < 10000
    ensures FromDecimal(FourDigits(n)) == Some(n)
  {
    FourRead(n / 1000, n / 100 % 10, n / 10 % 10, n % 10);
    assert n / 100 == n / 1000 * 10 + n / 100 % 10;
    assert n / 10 == n / 100 * 10 + n / 10 % 10;
  }

  lemma FourRead(a: digit, b: digit, c: digit, d: digit)
    ensures FromDecimal([DigitChar(a), DigitChar(b), DigitChar(c), DigitChar(d)]) ==
            Some(((a * 10 + b) * 10 + c) * 10 + d)
  {
    var s1 := [] + [DigitChar(a)];
    var s2 := s1 + [DigitChar(b)];
    var s3 := s2 + [DigitChar(c)];
    OneMoreDigit([], a);
    assert FromDecimal(s1) == Some(a);
    OneMoreDigit(s1, b);
    assert FromDecimal(s2) == Some(a * 10 + b);
    OneMoreDigit(s2, c);
    assert FromDecimal(s3) == Some((a * 10 + b) * 10 + c);
    OneMoreDigit(s3, d);
    assert s3 + [DigitChar(d)] == [DigitChar(a), DigitChar(b), DigitChar(c), DigitChar(d)];
  }

  lemma OneMoreDigit(s: string, d: digit)
    requires (s == "" || FromDecimal(s).Some?)
    ensures FromDecimal(s + [DigitChar(d)]) == Some((if s == "" then 0 else FromDecimal(s).value) * 10 + d)
  {
    assert (s + [DigitChar(d)])[..|s|] == s;
  }
}

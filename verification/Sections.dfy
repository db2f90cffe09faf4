/**
 How `parse_html` and `parse_docx` (app/services/parsing.py) turn blocks and paragraphs
 into documents with section metadata.
 */
module Sections {
  import opened Prelude
  import opened Text
  import opened HtmlExtractor

  const NO_HTML_TEXT := "Arquivo HTML nao contem texto extraivel."
  const NO_DOCX_TEXT := "Arquivo DOCX nao contem texto extraivel."

  /** `position` is the metadata key `block` of a web page and `paragraph` of a DOCX file. */
  datatype Document = Document(
    content: string,
    position: int,
    title: Option<string>,
    headingLevel: Option<int>,
    section: Option<string>)

  // ---------------------------------------------------------------- web pages

  /** `heading_by_text`: a later heading with the same text wins. */
  function LevelByText(headings: seq<Heading>): map<string, int> {
    if headings == [] then map[]
    else
      var h := headings[|headings| - 1];
      LevelByText(headings[..|headings| - 1])[h.text := h.level]
  }

  function Lookup(levels: map<string, int>, text: string): Option<int> {
    if text in levels then Some(levels[text]) else None
  }

  /** The level of the last heading with this text. */
  lemma {:induction false} LevelIsLast(headings: seq<Heading>, text: string)
    ensures Lookup(LevelByText(headings), text).Some? <==> IsHeadingText(headings, text)
    ensures Lookup(LevelByText(headings), text).Some? ==>
              IsLast(headings, Heading(Lookup(LevelByText(headings), text).value, text))
  {
    if headings == [] {
    } else {
      var n := |headings| - 1;
      LevelIsLast(headings[..n], text);
      assert forall i :: 0 <= i < n ==> headings[..n][i] == headings[i];
      if headings[n].text == text {
        assert headings[n] == Heading(LevelByText(headings)[text], text);
      } else if IsHeadingText(headings[..n], text) {
        var h := Heading(LevelByText(headings)[text], text);
        var i :| 0 <= i < n && headings[..n][i] == h && forall k :: i < k < n ==> headings[..n][k].text != text;
        assert headings[i] == h;
        forall k | i < k < |headings| ensures headings[k].text != text {
          assert k < n ==> headings[..n][k] == headings[k];
        }
      }
    }
  }

  ghost predicate IsLast(headings: seq<Heading>, h: Heading) {
    exists i :: 0 <= i < |headings| && headings[i] == h && forall k :: i < k < |headings| ==> headings[k].text != h.text
  }

  ghost predicate IsHeadingText(headings: seq<Heading>, text: string) {
    exists i :: 0 <= i < |headings| && headings[i].text == text
  }

  /** `section` is the nearest text at or before index `i` that satisfies `heads`, if there is one. */
  ghost predicate NearestAtOrBefore(texts: seq<string>, heads: set<int>, i: int, section: Option<string>)
    requires 0 <= i < |texts|
  {
    match section
    case Some(text) =>
      exists k :: 0 <= k <= i && k in heads && texts[k] == text && forall m :: k < m <= i ==> m !in heads
    case None => forall m :: 0 <= m <= i ==> m !in heads
  }

  lemma NearestStep(texts: seq<string>, heads: set<int>, i: nat, before: Option<string>)
    requires i < |texts|
    requires if i == 0 then before == None else NearestAtOrBefore(texts, heads, i - 1, before)
    ensures NearestAtOrBefore(texts, heads, i, if i in heads then Some(texts[i]) else before)
  {
  }

  ghost function HeadingBlocks(blocks: seq<string>, headings: seq<Heading>): set<int> {
    set i | 0 <= i < |blocks| && IsHeadingText(headings, blocks[i])
  }

  /** Document `i` of a page: its block, its number, its heading level and its section. */
  ghost predicate Describes(document: Document, blocks: seq<string>, title: Option<string>, headings: seq<Heading>, i: nat)
    requires i < |blocks|
  {
    && document.content == blocks[i] && document.position == i + 1 && document.title == title
    && (document.headingLevel.Some? <==> IsHeadingText(headings, blocks[i]))
    && (document.headingLevel.Some? ==> IsLast(headings, Heading(document.headingLevel.value, blocks[i])))
    && NearestAtOrBefore(blocks, HeadingBlocks(blocks, headings), i, document.section)
  }

  /** The loop over the blocks. */
  method AssignSections(blocks: seq<string>, title: Option<string>, headings: seq<Heading>) returns (documents: seq<Document>)
    ensures |documents| == |blocks|
    ensures forall i :: 0 <= i < |blocks| ==> Describes(documents[i], blocks, title, headings, i)
  {
    documents := [];
    var section := None;
    var levels := LevelByText(headings);
    ghost var heads := HeadingBlocks(blocks, headings);
    for i := 0 to |blocks|
      invariant |documents| == i
      invariant if i == 0 then section == None else NearestAtOrBefore(blocks, heads, i - 1, section)
      invariant forall k :: 0 <= k < i ==> Describes(documents[k], blocks, title, headings, k)
    {
      LevelIsLast(headings, blocks[i]);
      NearestStep(blocks, heads, i, section);
      var level := Lookup(levels, blocks[i]);
      if level.Some? {
        section := Some(blocks[i]);
      }
      assert i in heads <==> level.Some?;
      var document := Document(blocks[i], i + 1, title, level, section);
      assert Describes(document, blocks, title, headings, i);
      documents := documents + [document];
    }
  }

  /**
   The documents of a page: one per block, numbered from 1, each in the section of the
   nearest block at or before it whose text is a heading of the page.
   */
  method ParseHtml(page: seq<ParserEvent>) returns (r: Result<seq<Document>, string>)
    ensures var e := Extracted(Map(page, Read));
            && (r.Err? <==> e.blocks == [])
            && (r.Err? ==> r.error == "Arquivo HTML nao contem texto extraivel.")
            && (r.Ok? ==>
                  && |r.value| == |e.blocks|
                  && forall i :: 0 <= i < |e.blocks| ==>
                       IsBlock(e.blocks[i]) && Describes(r.value[i], e.blocks, e.title, e.headings, i))
  {
    var parser := Extract(page);
    ghost var e := Extracted(Map(page, Read));
    BlocksWellFormed(Map(page, Read));
    assert parser.View() == e;
    var blocks := Filter(parser.blocks, IsFilled);
    FilterAll(parser.blocks, IsFilled);
    if blocks == [] {
      return Err(NO_HTML_TEXT);
    }
    var documents := AssignSections(blocks, parser.title, parser.headings);
    r := Ok(documents);
  }

  predicate IsFilled(block: string) {
    block != ""
  }

  // ---------------------------------------------------------------- DOCX

  datatype Paragraph = Paragraph(text: string, style: Option<string>)

  function StyleName(p: Paragraph): string {
    if p.style.Some? then p.style.value else ""
  }

  predicate IsHeadingParagraph(p: Paragraph) {
    StartsWith(Lower(StyleName(p)), "heading")
  }

  /** The paragraphs that are not blank, with their 1-based positions in the file. */
  function NonBlank(paragraphs: seq<Paragraph>): seq<(int, Paragraph)> {
    if paragraphs == [] then []
    else
      var n := |paragraphs| - 1;
      NonBlank(paragraphs[..n]) + (if Strip(paragraphs[n].text) != "" then [(n + 1, paragraphs[n])] else [])
  }

  /** Kept are the paragraphs with a character that is no space, in order, each with its place in the file. */
  ghost predicate AreKept(kept: seq<(int, Paragraph)>, paragraphs: seq<Paragraph>) {
    && (forall k :: 0 <= k < |kept| ==>
          && 1 <= kept[k].0 <= |paragraphs| && kept[k].1 == paragraphs[kept[k].0 - 1]
          && !AllSpaces(kept[k].1.text))
    && (forall k, l :: 0 <= k < l < |kept| ==> kept[k].0 < kept[l].0)
    && (forall i :: 0 <= i < |paragraphs| && !AllSpaces(paragraphs[i].text) ==> (i + 1, paragraphs[i]) in kept)
  }

  lemma OneMoreKept(kept: seq<(int, Paragraph)>, paragraphs: seq<Paragraph>, p: Paragraph)
    requires AreKept(kept, paragraphs)
    ensures AreKept(kept + (if AllSpaces(p.text) then [] else [(|paragraphs| + 1, p)]), paragraphs + [p])
  {
    var kept' := kept + (if AllSpaces(p.text) then [] else [(|paragraphs| + 1, p)]);
    forall i | 0 <= i < |paragraphs| + 1 && !AllSpaces((paragraphs + [p])[i].text)
      ensures (i + 1, (paragraphs + [p])[i]) in kept'
    {
      if i < |paragraphs| {
        assert (i + 1, paragraphs[i]) in kept;
      } else {
        assert kept'[|kept|] == (i + 1, p);
      }
    }
  }

  lemma {:induction false} KeptParagraphs(paragraphs: seq<Paragraph>)
    ensures AreKept(NonBlank(paragraphs), paragraphs)
  {
    if paragraphs == [] {
    } else {
      var n := |paragraphs| - 1;
      KeptParagraphs(paragraphs[..n]);
      OneMoreKept(NonBlank(paragraphs[..n]), paragraphs[..n], paragraphs[n]);
      var _, _ := StripShape(paragraphs[n].text);
      assert paragraphs[..n] + [paragraphs[n]] == paragraphs;
    }
  }

  /** A heading is a paragraph whose style name begins with "heading", in capitals or not. */
  lemma HeadingStyle(p: Paragraph)
    ensures IsHeadingParagraph(p) <==>
            && p.style.Some? && |p.style.value| >= 7
            && p.style.value[0] in {'h', 'H'} && p.style.value[1] in {'e', 'E'} && p.style.value[2] in {'a', 'A'}
            && p.style.value[3] in {'d', 'D'} && p.style.value[4] in {'i', 'I'} && p.style.value[5] in {'n', 'N'}
            && p.style.value[6] in {'g', 'G'}
  {
    var name := StyleName(p);
    LowerAt(name);
    if |name| >= 7 {
      var start := Lower(name)[..7];
      assert start == "heading" <==>
             start[0] == 'h' && start[1] == 'e' && start[2] == 'a' && start[3] == 'd' && start[4] == 'i'
             && start[5] == 'n' && start[6] == 'g';
    }
  }

  lemma {:induction false} LowerAt(s: string)
    ensures forall i :: 0 <= i < |s| ==>
              Lower(s)[i] == if 'A' <= s[i] <= 'Z' then (s[i] as int + 32) as char else s[i]
  {
    if s == "" {
    } else {
      LowerAt(s[1..]);
    }
  }

  function StrippedFn(): ((int, Paragraph)) -> string {
    (x: (int, Paragraph)) => Strip(x.1.text)
  }

  ghost function HeadingParagraphs(kept: seq<(int, Paragraph)>): set<int> {
    set i | 0 <= i < |kept| && IsHeadingParagraph(kept[i].1)
  }

  /** The same nearest-heading law over the paragraphs that are not blank. */
  method ParseDocx(paragraphs: seq<Paragraph>) returns (r: Result<seq<Document>, string>)
    ensures var kept := NonBlank(paragraphs);
            && (r.Err? <==> kept == [])
            && (r.Err? ==> r.error == "Arquivo DOCX nao contem texto extraivel.")
            && (r.Ok? ==>
                  && |r.value| == |kept|
                  && forall i :: 0 <= i < |kept| ==>
                       && r.value[i].content == Strip(kept[i].1.text) != ""
                       && r.value[i].position == kept[i].0
                       && NearestAtOrBefore(Map(kept, StrippedFn()), HeadingParagraphs(kept), i, r.value[i].section))
  {
    var documents: seq<Document> := [];
    var section := None;
    ghost var kept: seq<(int, Paragraph)> := [];
    for i := 0 to |paragraphs|
      invariant kept == NonBlank(paragraphs[..i])
      invariant SectionSoFar(kept, section) && Follow(documents, kept)
    {
      assert paragraphs[..i + 1][..i] == paragraphs[..i];
      var text := Strip(paragraphs[i].text);
      if text != "" {
        NearestOfNew(kept, (i + 1, paragraphs[i]), section);
        if IsHeadingParagraph(paragraphs[i]) {
          section := Some(text);
        }
        FollowsOn(documents, kept, (i + 1, paragraphs[i]), Document(text, i + 1, None, None, section));
        documents := documents + [Document(text, i + 1, None, None, section)];
        kept := kept + [(i + 1, paragraphs[i])];
      }
    }
    assert paragraphs[..|paragraphs|] == paragraphs;
    if documents == [] {
      return Err(NO_DOCX_TEXT);
    }
    r := Ok(documents);
  }

  ghost predicate NearestIn(kept: seq<(int, Paragraph)>, i: int, section: Option<string>)
    requires 0 <= i < |kept|
  {
    NearestAtOrBefore(Map(kept, StrippedFn()), HeadingParagraphs(kept), i, section)
  }

  ghost predicate SectionSoFar(kept: seq<(int, Paragraph)>, section: Option<string>) {
    if kept == [] then section == None else NearestIn(kept, |kept| - 1, section)
  }

  /** The documents made so far are the paragraphs kept so far, each in its section. */
  ghost predicate Follow(documents: seq<Document>, kept: seq<(int, Paragraph)>) {
    && |documents| == |kept|
    && forall k :: 0 <= k < |kept| ==>
         && documents[k].content == Strip(kept[k].1.text) != ""
         && documents[k].position == kept[k].0
         && NearestIn(kept, k, documents[k].section)
  }

  lemma FollowsOn(documents: seq<Document>, kept: seq<(int, Paragraph)>, x: (int, Paragraph), document: Document)
    requires Follow(documents, kept)
    requires document.content == Strip(x.1.text) != "" && document.position == x.0
    requires NearestIn(kept + [x], |kept|, document.section)
    ensures Follow(documents + [document], kept + [x])
  {
    forall k | 0 <= k < |kept| ensures NearestIn(kept + [x], k, documents[k].section) {
      NearestExtends(kept, x, k, documents[k].section);
    }
  }

  /** One more paragraph leaves the sections before it as they were. */
  lemma NearestExtends(kept: seq<(int, Paragraph)>, x: (int, Paragraph), i: nat, section: Option<string>)
    requires i < |kept| && NearestIn(kept, i, section)
    ensures NearestIn(kept + [x], i, section)
  {
    var longer := kept + [x];
    forall m | 0 <= m <= i
      ensures m in HeadingParagraphs(longer) <==> m in HeadingParagraphs(kept)
      ensures Map(longer, StrippedFn())[m] == Map(kept, StrippedFn())[m]
    {
      assert longer[m] == kept[m];
    }
  }

  /** And is in its own section if it is a heading, in the current one if not. */
  lemma NearestOfNew(kept: seq<(int, Paragraph)>, x: (int, Paragraph), section: Option<string>)
    requires SectionSoFar(kept, section)
    ensures NearestIn(kept + [x], |kept|, if IsHeadingParagraph(x.1) then Some(Strip(x.1.text)) else section)
  {
    if kept != [] {
      NearestExtends(kept, x, |kept| - 1, section);
    }
    NearestStep(Map(kept + [x], StrippedFn()), HeadingParagraphs(kept + [x]), |kept|, section);
  }
}

/**
 `_HTMLTextExtractor` (app/services/parsing.py): the text blocks, headings and title of
 an HTML page, from the events of the parser it extends.
 */
module HtmlExtractor {
  import opened Prelude
  import opened Text

  const BLOCK_TAGS := {
    "address", "article", "aside", "blockquote", "br", "dd", "div", "dl", "dt", "figcaption", "figure", "footer",
    "h1", "h2", "h3", "h4", "h5", "h6", "header", "hr", "li", "main", "nav", "ol", "p", "pre", "section", "table",
    "td", "th", "tr", "ul"}
  const IGNORED_TAGS := {"script", "style", "noscript"}
  const HEADING_TAGS := {"h1", "h2", "h3", "h4", "h5", "h6"}

  /** What the parser reports. */
  datatype ParserEvent = Start(tag: string) | End(tag: string) | Characters(text: string)

  /** What a tag means to the extractor; every heading tag is a block tag too. */
  datatype TagKind = IgnoredTag | TitleTag | HeadingTag(level: int) | BlockTag | OtherTag

  datatype Event = StartTag(kind: TagKind) | EndTag(kind: TagKind) | Data(text: string)

  datatype Heading = Heading(level: int, text: string)

  datatype Extractor = Extractor(
    blocks: seq<string>,
    title: Option<string>,
    headings: seq<Heading>,
    current: seq<string>,
    ignoredDepth: int,
    captureTitle: bool,
    titleParts: seq<string>,
    headingLevel: Option<int>,
    headingParts: seq<string>)

  function Fresh(): Extractor {
    Extractor([], None, [], [], 0, false, [], None, [])
  }

  function Lower(s: string): (r: string)
    ensures |r| == |s|
  {
    if s == "" then ""
    else [if 'A' <= s[0] <= 'Z' then (s[0] as int + 32) as char else s[0]] + Lower(s[1..])
  }

  function HeadingLevel(tag: string): int
    requires tag in HEADING_TAGS
  {
    tag[1] as int - '0' as int
  }

  function Classify(tag: string): TagKind {
    var normalized := Lower(tag);
    if normalized in IGNORED_TAGS then IgnoredTag
    else if normalized == "title" then TitleTag
    else if normalized in HEADING_TAGS then HeadingTag(HeadingLevel(normalized))
    else if normalized in BLOCK_TAGS then BlockTag
    else OtherTag
  }

  /** The tags whose text is ignored, in any case. */
  lemma IgnoresTag(tag: string)
    ensures Classify(tag) == IgnoredTag <==> Lower(tag) in {"script", "style", "noscript"}
  {
  }

  /** The tags that end a block, headings among them. */
  lemma EndsBlock(tag: string)
    requires Lower(tag) in {
      "address", "article", "aside", "blockquote", "br", "dd", "div", "dl", "dt", "figcaption", "figure", "footer",
      "h1", "h2", "h3", "h4", "h5", "h6", "header", "hr", "li", "main", "nav", "ol", "p", "pre", "section", "table",
      "td", "th", "tr", "ul"}
    requires Classify(tag) != IgnoredTag && Classify(tag) != TitleTag
    ensures Classify(tag) == BlockTag || Classify(tag).HeadingTag?
  {
  }

  /** A heading tag carries its digit. */
  lemma HeadingDigits()
    ensures Classify("h1") == HeadingTag(1) && Classify("H2") == HeadingTag(2) && Classify("h3") == HeadingTag(3)
    ensures Classify("H4") == HeadingTag(4) && Classify("h5") == HeadingTag(5) && Classify("H6") == HeadingTag(6)
  {
    LowerTwo('h', '1');
    LowerTwo('H', '2');
    LowerTwo('h', '3');
    LowerTwo('H', '4');
    LowerTwo('h', '5');
    LowerTwo('H', '6');
  }

  lemma LowerTwo(a: char, b: char)
    ensures (a == 'h' || a == 'H') && '0' <= b <= '9' ==> Lower([a, b]) == ['h', b]
  {
    assert [a, b][1..] == [b];
    assert '0' <= b <= '9' ==> Lower([b]) == [b];
  }

  function Read(ev: ParserEvent): Event {
    match ev
    case Start(tag) => StartTag(Classify(tag))
    case End(tag) => EndTag(Classify(tag))
    case Characters(text) => Data(text)
  }

  function Flushed(e: Extractor): Extractor {
    var text := Normalize(Join(e.current, " "));
    e.(blocks := if text != "" then e.blocks + [text] else e.blocks, current := [])
  }

  function Started(e: Extractor, kind: TagKind): Extractor {
    if kind == IgnoredTag then e.(ignoredDepth := e.ignoredDepth + 1)
    else if e.ignoredDepth != 0 then e
    else
      match kind
      case TitleTag => e.(captureTitle := true, titleParts := [])
      case HeadingTag(level) => Flushed(e).(headingLevel := Some(level), headingParts := [])
      case BlockTag => Flushed(e)
      case _ => e
  }

  function Ended(e: Extractor, kind: TagKind): Extractor {
    if kind == IgnoredTag then e.(ignoredDepth := if e.ignoredDepth > 1 then e.ignoredDepth - 1 else 0)
    else if e.ignoredDepth != 0 then e
    else
      match kind
      case TitleTag =>
        var title := Normalize(Join(e.titleParts, " "));
        e.(title := if title != "" then Some(title) else None, captureTitle := false, titleParts := [])
      case HeadingTag(_) => if e.headingLevel.Some? then HeadingEnded(e) else Flushed(e)
      case BlockTag => Flushed(e)
      case _ => e
  }

  function HeadingEnded(e: Extractor): Extractor
    requires e.headingLevel.Some?
  {
    var heading := Normalize(Join(e.headingParts, " "));
    var closed := e.(headingLevel := None, headingParts := [], current := []);
    if heading != "" then
      closed.(headings := e.headings + [Heading(e.headingLevel.value, heading)], blocks := e.blocks + [heading])
    else closed
  }

  function Received(e: Extractor, text: string): Extractor {
    if e.ignoredDepth != 0 then e
    else if e.captureTitle then e.(titleParts := e.titleParts + [text])
    else if e.headingLevel.Some? then e.(headingParts := e.headingParts + [text])
    else e.(current := e.current + [text])
  }

  function Handle(e: Extractor, ev: Event): Extractor {
    match ev
    case StartTag(kind) => Started(e, kind)
    case EndTag(kind) => Ended(e, kind)
    case Data(text) => Received(e, text)
  }

  function Feed(e: Extractor, events: seq<Event>): Extractor
    decreases |events|
  {
    if events == [] then e else Feed(Handle(e, events[0]), events[1..])
  }

  /** The extractor after the whole page and `close()`. */
  function Extracted(events: seq<Event>): Extractor {
    Flushed(Feed(Fresh(), events))
  }

  /** The parser object, field by field. */
  class HtmlTextExtractor {
    var blocks: seq<string>
    var title: Option<string>
    var headings: seq<Heading>
    var current: seq<string>
    var ignoredDepth: int
    var captureTitle: bool
    var titleParts: seq<string>
    var headingLevel: Option<int>
    var headingParts: seq<string>

    constructor ()
      ensures View() == Fresh()
    {
      blocks, title, headings, current := [], None, [], [];
      ignoredDepth, captureTitle, titleParts := 0, false, [];
      headingLevel, headingParts := None, [];
    }

    function View(): Extractor
      reads this
    {
      Extractor(blocks, title, headings, current, ignoredDepth, captureTitle, titleParts, headingLevel, headingParts)
    }

    method HandleStartTag(tag: string)
      modifies this
      ensures View() == Handle(old(View()), Read(Start(tag)))
    {
      var normalized := Lower(tag);
      if normalized in IGNORED_TAGS {
        ignoredDepth := ignoredDepth + 1;
        return;
      }
      if ignoredDepth != 0 {
        return;
      }
      if normalized == "title" {
        captureTitle := true;
        titleParts := [];
        return;
      }
      if normalized in HEADING_TAGS {
        FlushCurrent();
        headingLevel := Some(HeadingLevel(normalized));
        headingParts := [];
        return;
      }
      if normalized in BLOCK_TAGS {
        FlushCurrent();
      }
    }

    method HandleEndTag(tag: string)
      modifies this
      ensures View() == Handle(old(View()), Read(End(tag)))
    {
      var normalized := Lower(tag);
      if normalized in IGNORED_TAGS {
        ignoredDepth := if ignoredDepth > 1 then ignoredDepth - 1 else 0;
        return;
      }
      if ignoredDepth != 0 {
        return;
      }
      if normalized == "title" {
        var text := Normalize(Join(titleParts, " "));
        title := if text != "" then Some(text) else None;
        captureTitle := false;
        titleParts := [];
        return;
      }
      if normalized in HEADING_TAGS && headingLevel.Some? {
        var heading := Normalize(Join(headingParts, " "));
        if heading != "" {
          headings := headings + [Heading(headingLevel.value, heading)];
          blocks := blocks + [heading];
        }
        headingLevel := None;
        headingParts := [];
        current := [];
        return;
      }
      if normalized in BLOCK_TAGS {
        FlushCurrent();
      }
    }

    method HandleData(data: string)
      modifies this
      ensures View() == Handle(old(View()), Read(Characters(data)))
    {
      if ignoredDepth != 0 {
        return;
      }
      if captureTitle {
        titleParts := titleParts + [data];
        return;
      }
      if headingLevel.Some? {
        headingParts := headingParts + [data];
        return;
      }
      current := current + [data];
    }

    method FlushCurrent()
      modifies this`blocks, this`current
      ensures View() == Flushed(old(View()))
    {
      var text := Normalize(Join(current, " "));
      if text != "" {
        blocks := blocks + [text];
      }
      current := [];
    }

    method Receive(ev: ParserEvent)
      modifies this
      ensures View() == Handle(old(View()), Read(ev))
    {
      match ev {
        case Start(tag) => HandleStartTag(tag);
        case End(tag) => HandleEndTag(tag);
        case Characters(text) => HandleData(text);
      }
    }

    method Close()
      modifies this
      ensures View() == Flushed(old(View()))
    {
      FlushCurrent();
    }
  }

  lemma FeedStep(e: Extractor, events: seq<Event>, i: nat)
    requires i < |events|
    ensures Feed(e, events[i..]) == Feed(Handle(e, events[i]), events[i + 1..])
  {
    assert events[i..][1..] == events[i + 1..];
  }

  /** `parser.feed(html)` and `parser.close()`, the page given as the events it parses to. */
  method Extract(page: seq<ParserEvent>) returns (parser: HtmlTextExtractor)
    ensures fresh(parser) && parser.View() == Extracted(Map(page, Read))
  {
    parser := new HtmlTextExtractor();
    ghost var events := Map(page, Read);
    var i := 0;
    while i < |page|
      invariant 0 <= i <= |page|
      invariant Feed(parser.View(), events[i..]) == Feed(Fresh(), events)
    {
      FeedStep(parser.View(), events, i);
      parser.Receive(page[i]);
      i := i + 1;
    }
    parser.Close();
  }

  // ---------------------------------------------------------------- invariants

  function TextFn(): Heading -> string {
    (h: Heading) => h.text
  }

  ghost predicate IsBlock(block: string) {
    block != "" && Normalize(block) == block
  }

  ghost predicate Inv(e: Extractor) {
    && e.ignoredDepth >= 0
    && (e.headingLevel.Some? ==> e.current == [])
    && (e.headingLevel.None? ==> e.headingParts == [])
    && (!e.captureTitle ==> e.titleParts == [])
    && (forall i :: 0 <= i < |e.blocks| ==> IsBlock(e.blocks[i]))
    && IsSubseq(Map(e.headings, TextFn()), e.blocks)
    && (e.title.Some? ==> IsBlock(e.title.value))
  }

  /** The states a parser can be in. */
  type Parsed = e: Extractor | Inv(e) ghost witness Fresh()

  lemma FlushedKeepsInv(e: Parsed)
    ensures Inv(Flushed(e))
  {
    NormalizeJoined(e.current);
    SubseqSnoc(Map(e.headings, TextFn()), e.blocks, Normalize(Join(e.current, " ")));
  }

  lemma HeadingEndedKeepsInv(e: Parsed)
    requires e.headingLevel.Some?
    ensures Inv(HeadingEnded(e))
  {
    NormalizeJoined(e.headingParts);
    HeadingRecorded(e, Heading(e.headingLevel.value, Normalize(Join(e.headingParts, " "))));
  }

  lemma HeadingRecorded(e: Parsed, h: Heading)
    ensures IsSubseq(Map(e.headings + [h], TextFn()), e.blocks + [h.text])
  {
    SubseqSnoc(Map(e.headings, TextFn()), e.blocks, h.text);
    MapSnoc(e.headings, h, TextFn());
  }

  lemma StartedKeepsInv(e: Parsed, kind: TagKind)
    ensures Inv(Started(e, kind))
  {
    FlushedKeepsInv(e);
    NormalizeJoined(e.current);
  }

  lemma TitleEndedKeepsInv(e: Parsed)
    ensures Inv(Ended(e, TitleTag))
  {
    NormalizeJoined(e.titleParts);
  }

  lemma EndedKeepsInv(e: Parsed, kind: TagKind)
    ensures Inv(Ended(e, kind))
  {
    if kind == TitleTag {
      TitleEndedKeepsInv(e);
    } else if kind.HeadingTag? && e.headingLevel.Some? {
      HeadingEndedKeepsInv(e);
    } else {
      FlushedKeepsInv(e);
    }
  }

  lemma HandleKeepsInv(e: Parsed, ev: Event)
    ensures Inv(Handle(e, ev))
  {
    match ev
    case StartTag(kind) => StartedKeepsInv(e, kind);
    case EndTag(kind) => EndedKeepsInv(e, kind);
    case Data(_) =>
  }

  lemma {:induction false} InvAlways(e: Parsed, events: seq<Event>)
    ensures Inv(Feed(e, events))
    decreases |events|
  {
    if events == [] {
    } else {
      HandleKeepsInv(e, events[0]);
      InvAlways(Handle(e, events[0]), events[1..]);
    }
  }

  // ---------------------------------------------------------------- conservation of text

  /** Words that are in the blocks, or will be if nothing drops them. */
  function Kept(e: Extractor): seq<string> {
    AllWords(e.blocks) + Pending(e)
  }

  function Pending(e: Extractor): seq<string> {
    if e.headingLevel.Some? then AllWords(e.headingParts) else AllWords(e.current)
  }

  /** The words of an event that the page shows: text outside ignored tags and the title. */
  function Shown(e: Extractor, ev: Event): seq<string> {
    if ev.Data? && e.ignoredDepth == 0 && !e.captureTitle then Words(ev.text) else []
  }

  function AllShown(e: Extractor, events: seq<Event>): seq<string>
    decreases |events|
  {
    if events == [] then [] else Shown(e, events[0]) + AllShown(Handle(e, events[0]), events[1..])
  }

  /** A heading that opens while one with text is open: its text is dropped. */
  predicate Drops(e: Extractor, ev: Event) {
    && ev.StartTag? && ev.kind.HeadingTag?
    && e.ignoredDepth == 0 && e.headingLevel.Some? && AllWords(e.headingParts) != []
  }

  /** No heading with text is opened over, and none is left open at the end of the page. */
  predicate DropsNothing(e: Extractor, events: seq<Event>)
    decreases |events|
  {
    if events == [] then e.headingLevel.Some? ==> AllWords(e.headingParts) == []
    else !Drops(e, events[0]) && DropsNothing(Handle(e, events[0]), events[1..])
  }

  lemma FlushedKeeps(e: Parsed)
    ensures e.headingLevel.None? ==> AllWords(Flushed(e).blocks) == Kept(e)
    ensures e.headingLevel.Some? ==> Flushed(e) == e
    ensures Kept(Flushed(e)) == Kept(e)
  {
    NormalizeJoined(e.current);
    AllWordsAppend(e.blocks, Normalize(Join(e.current, " ")));
  }

  lemma EndedKeeps(e: Parsed, kind: TagKind)
    ensures Kept(Ended(e, kind)) == Kept(e)
  {
    FlushedKeeps(e);
    if e.headingLevel.Some? {
      NormalizeJoined(e.headingParts);
      AllWordsAppend(e.blocks, Normalize(Join(e.headingParts, " ")));
    }
  }

  lemma StartedKeeps(e: Parsed, kind: TagKind)
    ensures Drops(e, StartTag(kind)) ==> Kept(e) == Kept(Started(e, kind)) + AllWords(e.headingParts)
    ensures !Drops(e, StartTag(kind)) ==> Kept(Started(e, kind)) == Kept(e)
  {
    FlushedKeeps(e);
    if kind.HeadingTag? && e.ignoredDepth == 0 {
      HeadingOpenedKeeps(Flushed(e), kind.level);
    }
  }

  /** Opening a heading gives up what an open heading had collected, and nothing else. */
  lemma HeadingOpenedKeeps(e: Extractor, level: int)
    ensures Kept(e.(headingLevel := Some(level), headingParts := [])) == AllWords(e.blocks)
  {
  }

  lemma ReceivedKeeps(e: Parsed, text: string)
    ensures Kept(Received(e, text)) == Kept(e) + Shown(e, Data(text))
  {
    if e.ignoredDepth != 0 || e.captureTitle {
      assert Kept(e) + [] == Kept(e);
    } else if e.headingLevel.Some? {
      AllWordsAppend(e.headingParts, text);
      Regroup(AllWords(e.blocks), AllWords(e.headingParts), Words(text));
    } else {
      AllWordsAppend(e.current, text);
      Regroup(AllWords(e.blocks), AllWords(e.current), Words(text));
    }
  }

  /** One event adds the words it shows and drops words only by opening a heading over another. */
  lemma HandleKeeps(e: Parsed, ev: Event, shown: seq<string>)
    requires IsSubseq(Kept(e), shown)
    ensures IsSubseq(Kept(Handle(e, ev)), shown + Shown(e, ev))
    ensures |Kept(Handle(e, ev))| <= |Kept(e)| + |Shown(e, ev)|
    ensures Drops(e, ev) <==> |Kept(Handle(e, ev))| < |Kept(e)| + |Shown(e, ev)|
  {
    match ev
    case StartTag(kind) =>
      StartedKeeps(e, kind);
      if Drops(e, ev) {
        SubseqPrefix(Kept(Handle(e, ev)), AllWords(e.headingParts), shown);
      }
      assert shown + Shown(e, ev) == shown;
    case EndTag(kind) =>
      EndedKeeps(e, kind);
      assert shown + Shown(e, ev) == shown;
    case Data(text) =>
      ReceivedKeeps(e, text);
      SubseqAppend(Kept(e), shown, Shown(e, ev));
  }

  /** The words of the blocks after the rest of the page and `close()`. */
  function FinalWords(e: Extractor, events: seq<Event>): seq<string> {
    AllWords(Flushed(Feed(e, events)).blocks)
  }

  lemma CloseKeeps(e: Parsed, shown: seq<string>)
    requires IsSubseq(Kept(e), shown)
    ensures IsSubseq(FinalWords(e, []), shown)
    ensures |FinalWords(e, [])| <= |Kept(e)|
    ensures DropsNothing(e, []) <==> |FinalWords(e, [])| == |Kept(e)|
  {
    FlushedKeeps(e);
    if e.headingLevel.Some? {
      SubseqPrefix(AllWords(e.blocks), AllWords(e.headingParts), shown);
    }
  }

  /** What one event contributes to the quantities of the two lemmas below. */
  lemma Unroll(e: Extractor, events: seq<Event>, e': Extractor, rest: seq<Event>)
    requires events != [] && e' == Handle(e, events[0]) && rest == events[1..]
    ensures FinalWords(e, events) == FinalWords(e', rest)
    ensures AllShown(e, events) == Shown(e, events[0]) + AllShown(e', rest)
    ensures DropsNothing(e, events) <==> !Drops(e, events[0]) && DropsNothing(e', rest)
  {
  }

  lemma Regroup<T>(a: seq<T>, b: seq<T>, c: seq<T>)
    ensures a + b + c == a + (b + c)
  {
  }

  lemma {:induction false} FinalIsShown(e: Parsed, events: seq<Event>, shown: seq<string>, total: seq<string>)
    requires IsSubseq(Kept(e), shown) && total == shown + AllShown(e, events)
    ensures IsSubseq(FinalWords(e, events), total)
    decreases |events|
  {
    if events == [] {
      CloseKeeps(e, shown);
      assert total == shown;
    } else {
      var e', rest, seen := Handle(e, events[0]), events[1..], Shown(e, events[0]);
      Unroll(e, events, e', rest);
      Regroup(shown, seen, AllShown(e', rest));
      HandleKeeps(e, events[0], shown);
      HandleKeepsInv(e, events[0]);
      FinalIsShown(e', rest, shown + seen, total);
    }
  }

  lemma {:induction false} FinalLength(e: Parsed, events: seq<Event>)
    ensures |FinalWords(e, events)| <= |Kept(e)| + |AllShown(e, events)|
    ensures DropsNothing(e, events) <==> |FinalWords(e, events)| == |Kept(e)| + |AllShown(e, events)|
    decreases |events|
  {
    SubseqSelf(Kept(e));
    if events == [] {
      CloseKeeps(e, Kept(e));
    } else {
      var e', rest := Handle(e, events[0]), events[1..];
      Unroll(e, events, e', rest);
      HandleKeeps(e, events[0], Kept(e));
      HandleKeepsInv(e, events[0]);
      FinalLength(e', rest);
    }
  }

  /**
   Conservation: for every page, the words of the blocks are words the page shows, in
   order; and they are all of them exactly when no heading with text was opened over or
   left open.
   */
  lemma TextConserved(events: seq<Event>)
    ensures IsSubseq(AllWords(Extracted(events).blocks), AllShown(Fresh(), events))
    ensures AllWords(Extracted(events).blocks) == AllShown(Fresh(), events) <==> DropsNothing(Fresh(), events)
  {
    assert Map(Fresh().headings, TextFn()) == [];
    FinalIsShown(Fresh(), events, [], AllShown(Fresh(), events));
    FinalLength(Fresh(), events);
    assert Kept(Fresh()) == [];
    assert [] + AllShown(Fresh(), events) == AllShown(Fresh(), events);
    SubseqLength(AllWords(Extracted(events).blocks), AllShown(Fresh(), events));
  }

  /** The blocks of every page are non-empty and normalised, and its headings are among them in order. */
  lemma BlocksWellFormed(events: seq<Event>)
    ensures Inv(Extracted(events))
  {
    assert Map(Fresh().headings, TextFn()) == [];
    InvAlways(Fresh(), events);
    FlushedKeepsInv(Feed(Fresh(), events));
  }

  /** A page that loses text: it ends before its heading does. */
  lemma HeadingLeftOpen()
    ensures var events := [StartTag(HeadingTag(1)), Data("a")];
            AllWords(Extracted(events).blocks) != AllShown(Fresh(), events)
  {
    var events := [StartTag(HeadingTag(1)), Data("a")];
    var e1 := Handle(Fresh(), events[0]);
    var e2 := Handle(e1, events[1]);
    assert e2.headingParts == [] + ["a"];
    AllWordsAppend([], "a");
    WordOfWord("a", "");
    assert "" + "a" == "a";
    assert events[1..][1..] == [];
    assert !DropsNothing(e2, []);
    assert !DropsNothing(e1, events[1..]);
    TextConserved(events);
  }

  /** A page that loses text: a second heading opens before the first is closed. */
  lemma HeadingOpenedOver()
    ensures var events := [StartTag(HeadingTag(1)), Data("a"), StartTag(HeadingTag(2)), EndTag(HeadingTag(2))];
            AllWords(Extracted(events).blocks) != AllShown(Fresh(), events)
  {
    var events := [StartTag(HeadingTag(1)), Data("a"), StartTag(HeadingTag(2)), EndTag(HeadingTag(2))];
    var e1 := Handle(Fresh(), events[0]);
    var e2 := Handle(e1, events[1]);
    assert e2.headingParts == [] + ["a"];
    AllWordsAppend([], "a");
    WordOfWord("a", "");
    assert "" + "a" == "a";
    assert Drops(e2, events[2]);
    assert events[1..][1..] == events[2..];
    assert !DropsNothing(e2, events[2..]);
    assert !DropsNothing(e1, events[1..]);
    TextConserved(events);
  }
}

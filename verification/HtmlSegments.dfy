/**
 Where one block of a page ends and the next begins.  A page is read here as a sequence of
 segments, by its tags alone: nothing is joined, normalised or buffered.  The blocks of the
 extractor hold exactly the words of the segments, segment by segment, and its headings and
 title exactly those of the page.
 */
module HtmlSegments {
  import opened Prelude
  import opened Text
  import opened HtmlExtractor

  /**
   A page so far: how deep in ignored tags; the words since the title opened, if it is open;
   the level of the open heading; the words of the segment being read; the segments, the
   headings and the title that are complete.
   */
  datatype Reading = Reading(
    ignored: nat,
    titleOpen: Option<seq<string>>,
    headingOpen: Option<int>,
    segment: seq<string>,
    segments: seq<seq<string>>,
    headings: seq<(int, seq<string>)>,
    title: seq<string>)

  const UNREAD := Reading(0, None, None, [], [], [], [])

  /** The end of a segment; one without words does not count. */
  function Cut(r: Reading): Reading {
    if r.segment == [] then r else r.(segments := r.segments + [r.segment], segment := [])
  }

  /** A tag that ends the segment before it; inside a heading only headings do. */
  function AtBlock(r: Reading): Reading {
    if r.headingOpen.Some? then r else Cut(r)
  }

  function AtHeadingStart(r: Reading, level: int): Reading {
    AtBlock(r).(headingOpen := Some(level), segment := [])
  }

  function AtHeadingEnd(r: Reading): Reading {
    if r.headingOpen == None then Cut(r)
    else
      Cut(r).(headingOpen := None,
              headings := if r.segment == [] then r.headings else r.headings + [(r.headingOpen.value, r.segment)])
  }

  function AtTitleEnd(r: Reading): Reading {
    r.(titleOpen := None, title := if r.titleOpen.Some? then r.titleOpen.value else [])
  }

  function AtStart(r: Reading, kind: TagKind): Reading {
    match kind
    case TitleTag => r.(titleOpen := Some([]))
    case HeadingTag(level) => AtHeadingStart(r, level)
    case BlockTag => AtBlock(r)
    case _ => r
  }

  function AtEnd(r: Reading, kind: TagKind): Reading {
    match kind
    case TitleTag => AtTitleEnd(r)
    case HeadingTag(_) => AtHeadingEnd(r)
    case BlockTag => AtBlock(r)
    case _ => r
  }

  function AtText(r: Reading, text: string): Reading {
    if r.ignored > 0 then r
    else if r.titleOpen.Some? then r.(titleOpen := Some(r.titleOpen.value + Words(text)))
    else r.(segment := r.segment + Words(text))
  }

  function ReadOn(r: Reading, ev: Event): Reading {
    if ev.Data? then AtText(r, ev.text)
    else if ev.kind == IgnoredTag then
      r.(ignored := if ev.StartTag? then r.ignored + 1 else if r.ignored > 0 then r.ignored - 1 else 0)
    else if r.ignored > 0 then r
    else if ev.StartTag? then AtStart(r, ev.kind)
    else AtEnd(r, ev.kind)
  }

  function ReadAll(r: Reading, events: seq<Event>): Reading
    decreases |events|
  {
    if events == [] then r else ReadAll(ReadOn(r, events[0]), events[1..])
  }

  /** The whole page; what a heading still open has collected is not a segment. */
  function ReadPage(events: seq<Event>): Reading {
    AtBlock(ReadAll(UNREAD, events))
  }

  // ---------------------------------------------------------------- the extractor agrees

  function WordsOfHeading(): Heading -> (int, seq<string>) {
    (h: Heading) => (h.level, Words(h.text))
  }

  function TitleWords(title: Option<string>): seq<string> {
    if title == None then [] else Words(title.value)
  }

  /** What the extractor has read, seen as a reading. */
  ghost function ReadingOf(e: Parsed): Reading {
    Reading(e.ignoredDepth,
            if e.captureTitle then Some(AllWords(e.titleParts)) else None,
            e.headingLevel,
            AllWords(if e.headingLevel.Some? then e.headingParts else e.current),
            Map(e.blocks, WordsFn()),
            Map(e.headings, WordsOfHeading()),
            TitleWords(e.title))
  }

  lemma FlushAgrees(e: Parsed)
    ensures Inv(Flushed(e)) && ReadingOf(Flushed(e)) == AtBlock(ReadingOf(e))
  {
    FlushedKeepsInv(e);
    NormalizeJoined(e.current);
    MapSnoc(e.blocks, Normalize(Join(e.current, " ")), WordsFn());
  }

  lemma HeadingEndAgrees(e: Parsed)
    requires e.headingLevel.Some?
    ensures Inv(HeadingEnded(e)) && ReadingOf(HeadingEnded(e)) == AtHeadingEnd(ReadingOf(e))
  {
    HeadingEndedKeepsInv(e);
    var heading := Normalize(Join(e.headingParts, " "));
    NormalizeJoined(e.headingParts);
    MapSnoc(e.blocks, heading, WordsFn());
    MapSnoc(e.headings, Heading(e.headingLevel.value, heading), WordsOfHeading());
  }

  lemma DataAgrees(e: Parsed, text: string)
    ensures Inv(Received(e, text)) && ReadingOf(Received(e, text)) == AtText(ReadingOf(e), text)
  {
    AllWordsAppend(e.titleParts, text);
    AllWordsAppend(e.headingParts, text);
    AllWordsAppend(e.current, text);
  }

  lemma TitleEndAgrees(e: Parsed)
    requires e.ignoredDepth == 0
    ensures Inv(Ended(e, TitleTag)) && ReadingOf(Ended(e, TitleTag)) == AtTitleEnd(ReadingOf(e))
  {
    TitleEndedKeepsInv(e);
    NormalizeJoined(e.titleParts);
  }

  lemma StartAgrees(e: Parsed, kind: TagKind)
    ensures Inv(Started(e, kind)) && ReadingOf(Started(e, kind)) == ReadOn(ReadingOf(e), StartTag(kind))
  {
    StartedKeepsInv(e, kind);
    if kind.HeadingTag? || kind.BlockTag? {
      FlushAgrees(e);
    }
  }

  lemma EndAgrees(e: Parsed, kind: TagKind)
    ensures Inv(Ended(e, kind)) && ReadingOf(Ended(e, kind)) == ReadOn(ReadingOf(e), EndTag(kind))
  {
    EndedKeepsInv(e, kind);
    if e.ignoredDepth == 0 {
      match kind
      case TitleTag => TitleEndAgrees(e);
      case HeadingTag(_) =>
        if e.headingLevel.Some? {
          HeadingEndAgrees(e);
        } else {
          FlushAgrees(e);
        }
      case BlockTag => FlushAgrees(e);
      case _ =>
    }
  }

  lemma {:induction false} PageAgrees(e: Parsed, events: seq<Event>)
    ensures Inv(Feed(e, events)) && ReadingOf(Feed(e, events)) == ReadAll(ReadingOf(e), events)
    decreases |events|
  {
    if events == [] {
    } else {
      var ev := events[0];
      match ev {
        case StartTag(kind) => StartAgrees(e, kind);
        case EndTag(kind) => EndAgrees(e, kind);
        case Data(text) => DataAgrees(e, text);
      }
      PageAgrees(Handle(e, ev), events[1..]);
    }
  }

  /**
   For every page, losses included: block i holds the words of segment i and no others, the
   headings are recorded with their levels and words in order, and the title is the last one
   closed.
   */
  lemma BlocksAreSegments(events: seq<Event>)
    ensures var e, page := Extracted(events), ReadPage(events);
            && |e.blocks| == |page.segments|
            && (forall i :: 0 <= i < |e.blocks| ==> Words(e.blocks[i]) == page.segments[i] != [])
            && |e.headings| == |page.headings|
            && (forall i :: 0 <= i < |e.headings| ==>
                  e.headings[i].level == page.headings[i].0 && Words(e.headings[i].text) == page.headings[i].1)
            && TitleWords(e.title) == page.title
  {
    assert ReadingOf(Fresh()) == UNREAD;
    PageAgrees(Fresh(), events);
    FlushAgrees(Feed(Fresh(), events));
    BlocksWellFormed(events);
    var blocks := Extracted(events).blocks;
    forall i | 0 <= i < |blocks| ensures Words(blocks[i]) != [] {
      NormalizeKeepsWords(blocks[i]);
    }
  }
}

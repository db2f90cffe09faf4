/**
 Over-fetching, reranking and cutting to top-k (app/services/retrieval.py), on top of
 the similarity search of the store.
 */
module Retrieval {
  import opened Prelude
  import opened Ordering
  import opened Tenancy
  import opened TenantErasure

  type Hit = (ChunkRow, DocRow)

  datatype SearchResult = SearchResult(chunk: ChunkRow, fileName: string, score: real)

  /** What a query asks for: its distance to every chunk, and the metadata it accepts. */
  datatype Probe = Probe(distance: Hit -> real, accepts: string -> bool)

  // ---------------------------------------------------------------- search

  function EligibleFn(probe: Probe, threshold: Option<real>): Hit -> bool {
    (x: Hit) =>
      && x.0.chunk.embedding.Some?
      && (threshold.Some? ==> 1.0 - probe.distance(x) >= threshold.value)
      && probe.accepts(x.0.chunk.metadata)
  }

  function ResultFn(probe: Probe): Hit -> SearchResult {
    (x: Hit) => SearchResult(x.0, x.1.fileName, 1.0 - probe.distance(x))
  }

  /** `search_similar_chunks`. */
  function SearchSimilar(db: Db, t: string, probe: Probe, limit: nat, threshold: Option<real>): seq<SearchResult> {
    Map(Ask(db, t, Search(EligibleFn(probe, threshold), probe.distance, limit)).chunks, ResultFn(probe))
  }

  /** The reference: every eligible chunk of the tenant, best first, nothing cut off. */
  function AllRanked(db: Db, t: string, probe: Probe, threshold: Option<real>): seq<Hit> {
    SortBy(Filter(Joined(db.chunks, db.docs, t), EligibleFn(probe, threshold)), probe.distance)
  }

  /** The ranking is all the eligible rows and only those, each as often as it is there, nearest first. */
  lemma RankingIsWhole(db: Db, t: string, probe: Probe, threshold: Option<real>)
    ensures Sorted(AllRanked(db, t, probe, threshold), probe.distance)
    ensures multiset(AllRanked(db, t, probe, threshold)) ==
            multiset(Filter(Joined(db.chunks, db.docs, t), EligibleFn(probe, threshold)))
  {
    SortBySorted(Filter(Joined(db.chunks, db.docs, t), EligibleFn(probe, threshold)), probe.distance);
    SortByPermutes(Filter(Joined(db.chunks, db.docs, t), EligibleFn(probe, threshold)), probe.distance);
  }

  /** What a search result says of a row, and what the row must satisfy to be one. */
  ghost predicate Answers(x: Hit, probe: Probe, threshold: Option<real>, result: SearchResult) {
    && result.chunk == x.0 && result.fileName == x.1.fileName && result.score == 1.0 - probe.distance(x)
    && x.0.chunk.embedding.Some? && probe.accepts(x.0.chunk.metadata)
    && (threshold.Some? ==> result.score >= threshold.value)
  }

  /** The results are the nearest rows that qualify, nearest first, at most `limit` of them. */
  lemma SearchIsNearest(db: Db, t: string, probe: Probe, limit: nat, threshold: Option<real>, k: nat)
    requires k < |SearchSimilar(db, t, probe, limit, threshold)|
    ensures var results, all := SearchSimilar(db, t, probe, limit, threshold), AllRanked(db, t, probe, threshold);
            && |results| == Min(limit, |all|) && Answers(all[k], probe, threshold, results[k])
            && all[k].0.tenant == t && all[k].1.tenant == t && all[k].1.id == all[k].0.doc
            && (forall m :: k <= m < |all| ==> probe.distance(all[k]) <= probe.distance(all[m]))
  {
    RankingIsWhole(db, t, probe, threshold);
    RankedIsEligible(db, t, probe, threshold, k);
  }

  lemma {:induction false} JoinedHas(chunks: seq<ChunkRow>, docs: seq<DocRow>, t: string, c: ChunkRow)
    returns (x: Hit)
    requires c in chunks && c.tenant == t && Owned(docs, c.doc, t)
    ensures x in Joined(chunks, docs, t) && x.0 == c
  {
    FindDocFinds(docs, chunks[0].doc, t);
    if chunks[0] == c {
      x := (c, FindDoc(docs, c.doc, t).value);
      assert Joined(chunks, docs, t)[0] == x;
    } else {
      x := JoinedHas(chunks[1..], docs, t, c);
      assert Joined(chunks, docs, t) == Joined(chunks, docs, t)[..|Joined(chunks, docs, t)| - |Joined(chunks[1..], docs, t)|]
                                        + Joined(chunks[1..], docs, t);
    }
  }

  /** No row that qualifies is missing from the ranking. */
  lemma NothingMissing(db: Db, t: string, probe: Probe, threshold: Option<real>, c: ChunkRow)
    returns (x: Hit, k: nat)
    requires StoreInv(db) && c in db.chunks && c.tenant == t
    requires forall y: Hit :: y.0 == c ==>
               && c.chunk.embedding.Some? && probe.accepts(c.chunk.metadata)
               && (threshold.Some? ==> 1.0 - probe.distance(y) >= threshold.value)
    ensures k < |AllRanked(db, t, probe, threshold)| && AllRanked(db, t, probe, threshold)[k].0 == c
  {
    var rows := Joined(db.chunks, db.docs, t);
    x := JoinedHas(db.chunks, db.docs, t, c);
    FilterMembers(rows, EligibleFn(probe, threshold));
    RankingIsWhole(db, t, probe, threshold);
    var all := AllRanked(db, t, probe, threshold);
    assert x in multiset(Filter(rows, EligibleFn(probe, threshold)));
    assert x in multiset(all);
    k :| 0 <= k < |all| && all[k] == x;
  }

  /** Which threshold and how many candidates a query works with. */
  lemma QuerySettings(topK: nat, multiplier: int, requested: Option<real>, configured: Option<real>)
    ensures requested.Some? ==> EffectiveThreshold(requested, configured) == requested
    ensures requested == None ==> EffectiveThreshold(requested, configured) == configured
    ensures FetchLimit(topK, multiplier) == topK * (if multiplier >= 1 then multiplier else 1)
  {
    if topK > 0 && multiplier >= 1 {
      assert topK * multiplier == topK + topK * (multiplier - 1) >= topK;
    } else if topK > 0 {
      assert topK * multiplier == topK + topK * (multiplier - 1) <= topK;
    }
  }

  function FetchLimit(topK: nat, multiplier: int): nat {
    if topK * multiplier > topK then topK * multiplier else topK
  }

  function EffectiveThreshold(requested: Option<real>, configured: Option<real>): Option<real> {
    if requested.Some? then requested else configured
  }

  /** `retrieve` with `NoOpReranker`. */
  function RetrievePlain(db: Db, t: string, probe: Probe, topK: nat, multiplier: int, threshold: Option<real>): seq<SearchResult> {
    Window(Window(SearchSimilar(db, t, probe, FetchLimit(topK, multiplier), threshold), topK, 0), topK, 0)
  }

  /** Over-fetching is invisible: whatever the multiplier, the plain top-k of the full list comes out. */
  lemma OverFetchRefinesTopK(db: Db, t: string, probe: Probe, topK: nat, multiplier: int, threshold: Option<real>)
    ensures RetrievePlain(db, t, probe, topK, multiplier, threshold) ==
            Map(Window(AllRanked(db, t, probe, threshold), topK, 0), ResultFn(probe))
  {
    var all := AllRanked(db, t, probe, threshold);
    WindowOfMap(all, ResultFn(probe), FetchLimit(topK, multiplier), 0);
    WindowOfMap(all, ResultFn(probe), topK, 0);
  }

  // ---------------------------------------------------------------- thresholds

  /** A higher threshold, or one where there was none, keeps a prefix of the full ranking. */
  lemma RankingPrefix(db: Db, t: string, probe: Probe, low: Option<real>, high: real)
    requires low.Some? ==> low.value <= high
    ensures AllRanked(db, t, probe, Some(high)) <= AllRanked(db, t, probe, low)
  {
    var rows := Joined(db.chunks, db.docs, t);
    var p, q := EligibleFn(probe, low), EligibleFn(probe, Some(high));
    FilterRedundant(rows, p, q);
    FilterSort(Filter(rows, p), probe.distance, q);
    var all := AllRanked(db, t, probe, low);
    SortBySorted(Filter(rows, p), probe.distance);
    forall i, k | 0 <= i <= k < |all| && q(all[k]) ensures q(all[i]) {
      RankedIsEligible(db, t, probe, low, i);
    }
    FilterPrefix(all, q);
  }

  /** Every ranked row is a row of the tenant that passes every filter. */
  lemma RankedIsEligible(db: Db, t: string, probe: Probe, threshold: Option<real>, i: nat)
    requires i < |AllRanked(db, t, probe, threshold)|
    ensures var x := AllRanked(db, t, probe, threshold)[i];
            && EligibleFn(probe, threshold)(x) && x.0.tenant == t && x.1.tenant == t && x.1.id == x.0.doc
  {
    var rows := Joined(db.chunks, db.docs, t);
    var j := SortElement(Filter(rows, EligibleFn(probe, threshold)), probe.distance, i);
    var k := FilteredIndex(rows, EligibleFn(probe, threshold), j);
    JoinedIsOwned(db.chunks, db.docs, t, k);
  }

  lemma {:induction false} JoinedIsOwned(chunks: seq<ChunkRow>, docs: seq<DocRow>, t: string, i: nat)
    requires i < |Joined(chunks, docs, t)|
    ensures var x := Joined(chunks, docs, t)[i]; x.0.tenant == t && x.1.tenant == t && x.1.id == x.0.doc
  {
    var rest := Joined(chunks[1..], docs, t);
    FindDocFinds(docs, chunks[0].doc, t);
    if Joined(chunks, docs, t) == rest {
      JoinedIsOwned(chunks[1..], docs, t, i);
    } else if i == 0 {
    } else {
      JoinedIsOwned(chunks[1..], docs, t, i - 1);
    }
  }

  /** Filter and LIMIT commute on the ranking: raising the threshold yields a prefix of the lower answer. */
  lemma ThresholdYieldsPrefix(db: Db, t: string, probe: Probe, topK: nat, multiplier: int, low: Option<real>, high: real)
    requires low.Some? ==> low.value <= high
    ensures RetrievePlain(db, t, probe, topK, multiplier, Some(high)) <= RetrievePlain(db, t, probe, topK, multiplier, low)
  {
    OverFetchRefinesTopK(db, t, probe, topK, multiplier, low);
    OverFetchRefinesTopK(db, t, probe, topK, multiplier, Some(high));
    RankingPrefix(db, t, probe, low, high);
  }

  // ---------------------------------------------------------------- reranking

  /** A JSON value as the response may carry one; an absent key reads as null. */
  datatype Json = JNull | JBool(b: bool) | JInt(i: int) | JFloat(x: real) | JString(s: string) | JOther

  datatype Item = NotADict | Dict(index: Json, relevance: Json)

  datatype Response = HttpError | Payload(results: Option<seq<Item>>)

  const UNAVAILABLE_ERROR := "Cohere reranker unavailable."
  const NO_RESULTS_ERROR := "Cohere reranker response did not include results."

  /** `isinstance(index, int)` and in range; in Python a bool is an int. */
  function IndexOf(item: Item, n: nat): Option<nat> {
    if item == NotADict then None
    else
      match item.index
      case JInt(i) => if 0 <= i < n then Some(i) else None
      case JBool(b) => var i := if b then 1 else 0; if i < n then Some(i) else None
      case _ => None
  }

  function ScoreOf(item: Item, otherwise: real): real
    requires item.Dict?
  {
    match item.relevance
    case JInt(i) => i as real
    case JFloat(x) => x
    case JBool(b) => if b then 1.0 else 0.0
    case _ => otherwise
  }

  /** The items that name a candidate, in response order. */
  function ValidItems(items: seq<Item>, n: nat): (r: seq<Item>)
    ensures forall i :: 0 <= i < |r| ==> IndexOf(r[i], n).Some?
  {
    if items == [] then []
    else
      var last := items[|items| - 1];
      ValidItems(items[..|items| - 1], n) + if IndexOf(last, n).Some? then [last] else []
  }

  function IndexesOf(items: seq<Item>, n: nat): (r: seq<nat>)
    requires forall i :: 0 <= i < |items| ==> IndexOf(items[i], n).Some?
    ensures |r| == |items| && forall i :: 0 <= i < |r| ==> r[i] == IndexOf(items[i], n).value
  {
    if items == [] then [] else [IndexOf(items[0], n).value] + IndexesOf(items[1..], n)
  }

  /** The candidates the response named, in its order, repetitions included. */
  function Named(items: seq<Item>, n: nat): seq<nat> {
    IndexesOf(ValidItems(items, n), n)
  }

  /** The candidates below `n` it did not name, in their original order. */
  function Unnamed(n: nat, named: seq<nat>): seq<nat> {
    if n == 0 then [] else Unnamed(n - 1, named) + if n - 1 in named then [] else [n - 1]
  }

  /** Which candidate each place of the merged list comes from. */
  function MergeOrder(items: seq<Item>, n: nat, limit: nat): seq<nat> {
    var named := Named(items, n);
    Window(if |named| < limit then named + Unnamed(n, named) else named, limit, 0)
  }

  /** Element `k` of a merged list is its candidate, with at most the score replaced. */
  ghost predicate MergedAt(results: seq<SearchResult>, items: seq<Item>, order: seq<nat>, k: nat, out: SearchResult)
    requires k < |order|
  {
    && order[k] < |results|
    && out.chunk == results[order[k]].chunk && out.fileName == results[order[k]].fileName
    && out.score == (if k < |ValidItems(items, |results|)|
                     then ScoreOf(ValidItems(items, |results|)[k], results[order[k]].score)
                     else results[order[k]].score)
  }

  /** The item is a dict whose integer index, in range, is `i`; in Python a bool is an integer. */
  predicate Names(item: Item, i: int, n: nat) {
    && item.Dict? && 0 <= i < n
    && (item.index == JInt(i) || (item.index == JBool(true) && i == 1) || (item.index == JBool(false) && i == 0))
  }

  predicate Usable(item: Item, n: nat) {
    && item.Dict?
    && match item.index
       case JInt(i) => 0 <= i < n
       case JBool(b) => if b then n > 1 else n > 0
       case _ => false
  }

  /** How many items before item `q` name a candidate: the place item `q` gets. */
  function PlaceOf(items: seq<Item>, q: nat, n: nat): nat
    requires q <= |items|
  {
    if q == 0 then 0 else PlaceOf(items, q - 1, n) + if Usable(items[q - 1], n) then 1 else 0
  }

  /** `out` is the candidate the item names, with the item's score if that is a number. */
  ghost predicate Given(results: seq<SearchResult>, item: Item, out: SearchResult) {
    forall i {:trigger results[i]} :: Names(item, i, |results|) ==>
      && out.chunk == results[i].chunk && out.fileName == results[i].fileName
      && (item.relevance.JFloat? ==> out.score == item.relevance.x)
      && (item.relevance.JInt? ==> out.score == item.relevance.i as real)
      && (item.relevance.JBool? ==> out.score == if item.relevance.b then 1.0 else 0.0)
      && (item.relevance.JNull? || item.relevance.JString? || item.relevance.JOther? ==> out.score == results[i].score)
  }

  /** Every item that names a candidate has its place among the first of the answer, as far as the limit goes. */
  ghost predicate GivenInOrder(results: seq<SearchResult>, items: seq<Item>, limit: nat, out: seq<SearchResult>) {
    forall q :: 0 <= q < |items| && Usable(items[q], |results|) && PlaceOf(items, q, |results|) < limit ==>
      && PlaceOf(items, q, |results|) < |out|
      && Given(results, items[q], out[PlaceOf(items, q, |results|)])
  }

  lemma {:induction false} ValidAtPlace(items: seq<Item>, q: nat, n: nat)
    requires q <= |items|
    ensures |ValidItems(items[..q], n)| == PlaceOf(items, q, n)
  {
    if q == 0 {
      assert items[..0] == [];
    } else {
      ValidAtPlace(items, q - 1, n);
      assert items[..q][..q - 1] == items[..q - 1];
      UsableHasIndex(items[q - 1], n);
    }
  }

  lemma UsableHasIndex(item: Item, n: nat)
    ensures Usable(item, n) <==> IndexOf(item, n).Some?
    ensures forall i :: Names(item, i, n) <==> IndexOf(item, n).Some? && IndexOf(item, n).value == i
  {
  }

  /** Item `q` stands at its place in the lists made of the first `m` items. */
  ghost predicate Placed(items: seq<Item>, q: nat, m: nat, n: nat)
    requires q < |items| && m <= |items|
  {
    var p, valid, named := PlaceOf(items, q, n), ValidItems(items[..m], n), Named(items[..m], n);
    p < |named| && p < |valid| && valid[p] == items[q] && Names(items[q], named[p], n)
  }

  lemma PlacedFirst(items: seq<Item>, q: nat, n: nat)
    requires q < |items| && Usable(items[q], n)
    ensures Placed(items, q, q + 1, n)
  {
    ValidAtPlace(items, q, n);
    UsableHasIndex(items[q], n);
    NamedStep(items, q, n);
    NamedSnoc(items, q, n);
  }

  lemma PlacedNext(items: seq<Item>, q: nat, m: nat, n: nat)
    requires q < m < |items| && Placed(items, q, m, n)
    ensures Placed(items, q, m + 1, n)
  {
    NamedStep(items, m, n);
  }

  /** What stands at the place of an item stays there. */
  lemma {:induction false} PlaceIsKept(items: seq<Item>, q: nat, m: nat, n: nat)
    requires q < m <= |items| && Usable(items[q], n)
    ensures Placed(items, q, m, n)
    decreases m
  {
    if m == q + 1 {
      PlacedFirst(items, q, n);
    } else {
      PlaceIsKept(items, q, m - 1, n);
      PlacedNext(items, q, m - 1, n);
    }
  }

  lemma MergedIsGiven(results: seq<SearchResult>, items: seq<Item>, limit: nat, out: seq<SearchResult>)
    requires var order := MergeOrder(items, |results|, limit);
             |out| == |order| && forall k :: 0 <= k < |order| ==> MergedAt(results, items, order, k, out[k])
    ensures GivenInOrder(results, items, limit, out)
  {
    var n := |results|;
    assert items[..|items|] == items;
    forall q | 0 <= q < |items| && Usable(items[q], n) && PlaceOf(items, q, n) < limit
      ensures PlaceOf(items, q, n) < |out| && Given(results, items[q], out[PlaceOf(items, q, n)])
    {
      PlaceIsKept(items, q, |items|, n);
    }
  }

  /** The candidates that no item names. */
  ghost predicate Unmentioned(items: seq<Item>, i: int, n: nat) {
    forall q :: 0 <= q < |items| ==> !Names(items[q], i, n)
  }

  lemma {:induction false} NamedIffMentioned(items: seq<Item>, i: int, n: nat, m: nat)
    requires m <= |items|
    ensures i in Named(items[..m], n) <==> exists q :: 0 <= q < m && Names(items[q], i, n)
  {
    if m == 0 {
    } else {
      NamedIffMentioned(items, i, n, m - 1);
      UsableHasIndex(items[m - 1], n);
      NamedSnoc(items, m - 1, n);
    }
  }

  lemma NamedSnoc(items: seq<Item>, m: nat, n: nat)
    requires m < |items|
    ensures Named(items[..m + 1], n) ==
            Named(items[..m], n) + if IndexOf(items[m], n).Some? then [IndexOf(items[m], n).value] else []
  {
    NamedStep(items, m, n);
  }

  /** After those places come the candidates no item names, in their original order, as far as the limit goes. */
  lemma RestIsUnmentioned(items: seq<Item>, n: nat, limit: nat)
    ensures var order, u := MergeOrder(items, n, limit), PlaceOf(items, |items|, n);
            && (forall k :: u <= k < |order| ==> order[k] < n && Unmentioned(items, order[k], n))
            && (forall k, l :: u <= k < l < |order| ==> order[k] < order[l])
            && (|order| < limit ==>
                  forall i :: 0 <= i < n && Unmentioned(items, i, n) ==> exists k :: u <= k < |order| && order[k] == i)
  {
    var named := Named(items, n);
    assert items[..|items|] == items;
    ValidAtPlace(items, |items|, n);
    UnnamedInOrder(n, named);
    var order, u := MergeOrder(items, n, limit), |named|;
    forall k | u <= k < |order| ensures order[k] in Unnamed(n, named) && Unmentioned(items, order[k], n) {
      assert order[k] == Unnamed(n, named)[k - u];
      NamedIffMentioned(items, order[k], n, |items|);
    }
    if |order| < limit {
      forall i | 0 <= i < n && Unmentioned(items, i, n) ensures exists k :: u <= k < |order| && order[k] == i {
        NamedIffMentioned(items, i, n, |items|);
        var k :| 0 <= k < |Unnamed(n, named)| && Unnamed(n, named)[k] == i;
        assert order[u + k] == i;
      }
    }
  }

  /** `CohereReranker.rerank`. */
  method Rerank(results: seq<SearchResult>, response: Response, limit: nat) returns (r: Result<seq<SearchResult>, string>)
    ensures results == [] ==> r == Ok([])
    ensures results != [] && response == HttpError ==> r == Err("Cohere reranker unavailable.")
    ensures results != [] && response == Payload(None) ==> r == Err("Cohere reranker response did not include results.")
    ensures results != [] && response.Payload? && response.results.Some? ==>
              var order := MergeOrder(response.results.value, |results|, limit);
              && r.Ok? && |r.value| == |order|
              && (forall k :: 0 <= k < |order| ==> MergedAt(results, response.results.value, order, k, r.value[k]))
              && GivenInOrder(results, response.results.value, limit, r.value)
  {
    if results == [] {
      return Ok([]);
    }
    if response == HttpError {
      return Err(UNAVAILABLE_ERROR);
    }
    if response.results == None {
      return Err(NO_RESULTS_ERROR);
    }
    var items, n := response.results.value, |results|;
    var reranked, seen := Ranked(results, items);
    ghost var named := Named(items, n);
    if |reranked| < limit {
      var rest := Rest(results, seen, named);
      reranked := reranked + rest;
    }
    r := Ok(Window(reranked, limit, 0));
    MergedIsGiven(results, items, limit, r.value);
  }

  /** The loop over the response: the results it names, rescored, and which they are. */
  method Ranked(results: seq<SearchResult>, items: seq<Item>) returns (reranked: seq<SearchResult>, seen: set<nat>)
    ensures var named := Named(items, |results|);
            && |reranked| == |named|
            && (forall x :: x in seen <==> x in named)
            && forall k :: 0 <= k < |named| ==> MergedAt(results, items, named, k, reranked[k])
  {
    var n := |results|;
    reranked, seen := [], {};
    for i := 0 to |items|
      invariant |reranked| == |ValidItems(items[..i], n)|
      invariant forall x :: x in seen <==> x in Named(items[..i], n)
      invariant forall k :: 0 <= k < |reranked| ==>
                  MergedAt(results, items[..i], Named(items[..i], n), k, reranked[k])
    {
      NamedStep(items, i, n);
      var index := IndexOf(items[i], n);
      if index.Some? {
        seen := seen + {index.value};
        reranked := reranked + [results[index.value].(score := ScoreOf(items[i], results[index.value].score))];
      }
    }
    assert items[..|items|] == items;
  }

  lemma NamedStep(items: seq<Item>, i: nat, n: nat)
    requires i < |items|
    ensures var one := if IndexOf(items[i], n).Some? then [items[i]] else [];
            && ValidItems(items[..i + 1], n) == ValidItems(items[..i], n) + one
            && Named(items[..i + 1], n) == Named(items[..i], n) + IndexesOf(one, n)
  {
    assert items[..i + 1][..i] == items[..i];
  }

  /** The generator over the results whose index was not seen. */
  method Rest(results: seq<SearchResult>, seen: set<nat>, ghost named: seq<nat>) returns (rest: seq<SearchResult>)
    requires forall x :: x in seen <==> x in named
    ensures |rest| == |Unnamed(|results|, named)|
    ensures forall k :: 0 <= k < |rest| ==>
              Unnamed(|results|, named)[k] < |results| && rest[k] == results[Unnamed(|results|, named)[k]]
  {
    rest := [];
    for i := 0 to |results|
      invariant |rest| == |Unnamed(i, named)|
      invariant forall k :: 0 <= k < |rest| ==>
                  Unnamed(i, named)[k] < i && rest[k] == results[Unnamed(i, named)[k]]
    {
      if i !in seen {
        rest := rest + [results[i]];
      }
    }
  }

  // ---------------------------------------------------------------- what the merge keeps

  ghost predicate NoRepeats(s: seq<nat>) {
    forall i, k :: 0 <= i < k < |s| ==> s[i] != s[k]
  }

  ghost function NamedBelow(n: nat, named: seq<nat>): set<nat> {
    set x | 0 <= x < n && x in named
  }

  lemma {:induction false} UnnamedCount(n: nat, named: seq<nat>)
    ensures |Unnamed(n, named)| == n - |NamedBelow(n, named)|
  {
    if n == 0 {
      assert NamedBelow(n, named) == {};
    } else {
      UnnamedCount(n - 1, named);
      if n - 1 in named {
        assert NamedBelow(n, named) == NamedBelow(n - 1, named) + {n - 1};
      } else {
        assert NamedBelow(n, named) == NamedBelow(n - 1, named);
      }
    }
  }

  /** The candidates not named, each once, in their original order. */
  lemma {:induction false} UnnamedInOrder(n: nat, named: seq<nat>)
    ensures forall x :: x in Unnamed(n, named) <==> 0 <= x < n && x !in named
    ensures forall i, k :: 0 <= i < k < |Unnamed(n, named)| ==> Unnamed(n, named)[i] < Unnamed(n, named)[k]
  {
    if n == 0 {
    } else {
      UnnamedInOrder(n - 1, named);
      var before := Unnamed(n - 1, named);
      forall i | 0 <= i < |before| ensures before[i] < n - 1 {
        assert before[i] in before;
      }
    }
  }

  ghost function Elements(s: seq<nat>): set<nat> {
    set x | x in s
  }

  lemma {:induction false} ElementsCount(s: seq<nat>)
    ensures |Elements(s)| <= |s| && (NoRepeats(s) ==> |Elements(s)| == |s|)
  {
    if s == [] {
      assert Elements(s) == {};
    } else {
      var n := |s| - 1;
      ElementsCount(s[..n]);
      assert s == s[..n] + [s[n]];
      assert Elements(s) == Elements(s[..n]) + {s[n]};
      if NoRepeats(s) {
        assert s[n] !in s[..n];
      }
    }
  }

  lemma NamedIsBelow(items: seq<Item>, n: nat)
    ensures NamedBelow(n, Named(items, n)) == Elements(Named(items, n))
  {
  }

  /** For any response whatever, the merged list has between min(limit, n) and limit elements. */
  lemma MergeLength(items: seq<Item>, n: nat, limit: nat)
    ensures Min(limit, n) <= |MergeOrder(items, n, limit)| <= limit
    ensures forall k :: 0 <= k < |MergeOrder(items, n, limit)| ==> MergeOrder(items, n, limit)[k] < n
  {
    var named := Named(items, n);
    UnnamedCount(n, named);
    UnnamedInOrder(n, named);
    NamedIsBelow(items, n);
    ElementsCount(named);
    forall k | 0 <= k < |MergeOrder(items, n, limit)| ensures MergeOrder(items, n, limit)[k] < n {
      if k >= |named| {
        assert Unnamed(n, named)[k - |named|] in Unnamed(n, named);
      }
    }
  }

  /**
   A candidate appears twice in the merged list exactly when the response names it twice
   among its first `limit` valid items.
   */
  lemma MergeRepeatsIff(items: seq<Item>, n: nat, limit: nat)
    ensures NoRepeats(MergeOrder(items, n, limit)) <==> NoRepeats(Window(Named(items, n), limit, 0))
  {
    var named, order := Named(items, n), MergeOrder(items, n, limit);
    if NoRepeats(Window(named, limit, 0)) && |named| < limit {
      assert Window(named, limit, 0) == named;
      NamedThenUnnamed(n, named);
    }
    assert forall k :: 0 <= k < |Window(named, limit, 0)| ==> order[k] == Window(named, limit, 0)[k];
  }

  /** A response that names the first of two candidates twice: it comes twice, the other not at all. */
  lemma NamedTwice()
    ensures var items := [Dict(JInt(0), JFloat(0.9)), Dict(JInt(0), JFloat(0.8))];
            MergeOrder(items, 2, 2) == [0, 0]
  {
    var items := [Dict(JInt(0), JFloat(0.9)), Dict(JInt(0), JFloat(0.8))];
    assert items[..1] == [items[0]] && items[..1][..0] == [];
    assert ValidItems(items[..1], 2) == [items[0]];
    assert ValidItems(items, 2) == [items[0]] + [items[1]] == items;
    assert IndexesOf(items[1..], 2) == [0];
  }

  /** Those named and those not named share nobody. */
  lemma NamedThenUnnamed(n: nat, named: seq<nat>)
    requires NoRepeats(named)
    ensures NoRepeats(named + Unnamed(n, named))
  {
    UnnamedInOrder(n, named);
    AppendNoRepeats(named, Unnamed(n, named));
  }

  /**
   A response that names nobody twice gives exactly min(limit, n) elements: the beginning
   of a list of all the candidates, those named first, in response order.
   */
  lemma MergeOfDistinct(items: seq<Item>, n: nat, limit: nat)
    requires NoRepeats(Named(items, n))
    ensures var named := Named(items, n);
            && |MergeOrder(items, n, limit)| == Min(limit, n)
            && MergeOrder(items, n, limit) <= named + Unnamed(n, named)
            && NoRepeats(named + Unnamed(n, named)) && |named + Unnamed(n, named)| == n
  {
    var named := Named(items, n);
    UnnamedCount(n, named);
    NamedThenUnnamed(n, named);
    NamedIsBelow(items, n);
    ElementsCount(named);
  }

  lemma AppendNoRepeats(s: seq<nat>, u: seq<nat>)
    requires NoRepeats(s) && NoRepeats(u) && forall x :: x in u ==> x !in s
    ensures NoRepeats(s + u)
  {
    forall i, k | 0 <= i < k < |s + u| ensures (s + u)[i] != (s + u)[k] {
      if i < |s| <= k {
        assert (s + u)[k] in u;
      }
    }
  }

  /** `retrieve`, with `NoOpReranker` when there is no response to merge. */
  method Retrieve(db: Db, t: string, probe: Probe, topK: nat, multiplier: int, requested: Option<real>,
                  configured: Option<real>, response: Option<Response>)
    returns (r: Result<seq<SearchResult>, string>)
    ensures var threshold := EffectiveThreshold(requested, configured);
            var results := SearchSimilar(db, t, probe, FetchLimit(topK, multiplier), threshold);
            && (response == None ==>
                  r == Ok(Map(Window(AllRanked(db, t, probe, threshold), topK, 0), ResultFn(probe))))
            && (response.Some? && results != [] && response.value.Payload? && response.value.results.Some? ==>
                  var order := MergeOrder(response.value.results.value, |results|, topK);
                  && r.Ok? && |r.value| == |order|
                  && (forall k :: 0 <= k < |order| ==>
                        MergedAt(results, response.value.results.value, order, k, r.value[k]))
                  && GivenInOrder(results, response.value.results.value, topK, r.value))
            && (response.Some? && results == [] ==> r == Ok([]))
            && (response == Some(HttpError) && results != [] ==> r == Err(UNAVAILABLE_ERROR))
            && (response == Some(Payload(None)) && results != [] ==> r == Err(NO_RESULTS_ERROR))
            && (r.Ok? ==> |r.value| <= topK)
  {
    var threshold := EffectiveThreshold(requested, configured);
    var results := SearchSimilar(db, t, probe, FetchLimit(topK, multiplier), threshold);
    if response == None {
      OverFetchRefinesTopK(db, t, probe, topK, multiplier, threshold);
      return Ok(Window(Window(results, topK, 0), topK, 0));
    }
    var reranked := Rerank(results, response.value, topK);
    if reranked.Err? {
      return reranked;
    }
    if results != [] {
      MergeLength(response.value.results.value, |results|, topK);
    }
    r := Ok(Window(reranked.value, topK, 0));
  }

  /** With a reranker, every answer is one of the best `fetch_limit` rows and passed every filter. */
  lemma RerankedAreCandidates(db: Db, t: string, probe: Probe, topK: nat, multiplier: int, threshold: Option<real>,
                              items: seq<Item>, k: nat)
    requires var n := |SearchSimilar(db, t, probe, FetchLimit(topK, multiplier), threshold)|;
             k < |MergeOrder(items, n, topK)|
    ensures var results := SearchSimilar(db, t, probe, FetchLimit(topK, multiplier), threshold);
            var all := AllRanked(db, t, probe, threshold);
            var i := MergeOrder(items, |results|, topK)[k];
            && i < FetchLimit(topK, multiplier) && i < |all| && i < |results| && results[i] == ResultFn(probe)(all[i])
            && EligibleFn(probe, threshold)(all[i]) && all[i].0.tenant == t && all[i].1.tenant == t
  {
    var results := SearchSimilar(db, t, probe, FetchLimit(topK, multiplier), threshold);
    MergeLength(items, |results|, topK);
    RankedIsEligible(db, t, probe, threshold, MergeOrder(items, |results|, topK)[k]);
  }
}

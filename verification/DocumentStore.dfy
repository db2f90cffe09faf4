/**
 `persist_ingestion` and `delete_document` as transactions that may raise at any
 statement, and the paged read-back of what was persisted
 (app/repositories/documents.py, app/api/routes/documents.py).
 */
module DocumentStore {
  import opened Prelude
  import opened Ordering
  import opened JobRows
  import opened Tenancy
  import opened TenantErasure

  const LENGTH_ERROR := "chunks and embeddings must have the same length"

  /**
   Where an exception strikes: at a statement, after some of the inserted rows, at the
   commit, or after a commit that took effect and was not acknowledged.
   */
  datatype Fault =
    | NoFault
    | AtDocument(error: string)
    | AtChunk(row: nat, error: string)
    | AtCommit(error: string)
    | AfterCommit(error: string)

  datatype TextChunk = TextChunk(content: string, metadata: string)

  function Embedded(chunks: seq<TextChunk>, embeddings: seq<Option<Vector>>): (r: seq<ChunkIn>)
    requires |chunks| == |embeddings|
    ensures |r| == |chunks|
    ensures forall i :: 0 <= i < |r| ==> r[i] == ChunkIn(chunks[i].content, chunks[i].metadata, embeddings[i])
  {
    if chunks == [] then []
    else [ChunkIn(chunks[0].content, chunks[0].metadata, embeddings[0])] + Embedded(chunks[1..], embeddings[1..])
  }

  /** What `create_chunks` makes of its arguments: nothing to insert, a ValueError, or rows. */
  function ToInsert(chunks: seq<TextChunk>, embeddings: seq<Option<Vector>>): Result<seq<ChunkIn>, string> {
    if chunks == [] then Ok([])
    else if |chunks| != |embeddings| then Err(LENGTH_ERROR)
    else Ok(Embedded(chunks, embeddings))
  }

  /** A session: what is committed, and what its open transaction sees. */
  class DocumentRepository {
    var committed: Db
    var working: Db

    constructor ()
      ensures committed == working == Db([], [], [], [])
    {
      committed, working := Db([], [], [], []), Db([], [], [], []);
    }

    method CreateSourceDocument(file: DocRow, fault: Fault) returns (r: Result<DocId, string>)
      modifies this`working
      ensures r.Ok? <==> !fault.AtDocument?
      ensures r.Ok? ==> r.value == file.id && working == old(working).(docs := old(working).docs + [file])
    {
      if fault.AtDocument? {
        return Err(fault.error);
      }
      working := working.(docs := working.docs + [file]);
      r := Ok(file.id);
    }

    method CreateChunks(doc: DocId, tenant: string, chunks: seq<TextChunk>, embeddings: seq<Option<Vector>>, fault: Fault)
      returns (r: Result<(), string>)
      modifies this`working
      ensures r.Ok? <==> ToInsert(chunks, embeddings).Ok? && !(fault.AtChunk? && fault.row < |chunks|)
      ensures ToInsert(chunks, embeddings).Err? <==> chunks != [] && |chunks| != |embeddings|
      ensures ToInsert(chunks, embeddings).Err? ==> r == Err("chunks and embeddings must have the same length")
      ensures r.Ok? ==>
                working == old(working).(chunks := old(working).chunks
                                                   + ChunkRows(doc, tenant, ToInsert(chunks, embeddings).value, 0))
    {
      if chunks == [] {
        return Ok(());
      }
      if |chunks| != |embeddings| {
        return Err(LENGTH_ERROR);
      }
      var rows := ChunkRows(doc, tenant, Embedded(chunks, embeddings), 0);
      ChunkRowsOfDoc(doc, tenant, Embedded(chunks, embeddings), 0);
      if fault.AtChunk? && fault.row < |rows| {
        working := working.(chunks := working.chunks + rows[..fault.row]);
        return Err(fault.error);
      }
      working := working.(chunks := working.chunks + rows);
      r := Ok(());
    }

    method Rollback()
      modifies this`working
      ensures working == committed
    {
      working := committed;
    }

    /**
     Atomicity: either the document and all of its chunks are committed, which is one
     `Persist` of the store, or nothing at all is, wherever the exception struck; an
     exception does not tell which, if the commit was not acknowledged.
     */
    method PersistIngestion(tenant: string, job: JobId, file: DocRow, chunks: seq<TextChunk>,
                            embeddings: seq<Option<Vector>>, fault: Fault)
      returns (r: Result<DocId, string>)
      requires working == committed && StoreInv(committed)
      requires Enabled(committed, Persist(tenant, job, file, []))
      modifies this
      ensures working == committed && StoreInv(committed)
      ensures r.Ok? ==>
                && r.value == file.id && ToInsert(chunks, embeddings).Ok?
                && committed == Apply(old(committed), Persist(tenant, job, file, ToInsert(chunks, embeddings).value))
      ensures r.Err? ==>
                committed ==
                if fault.AfterCommit? && ToInsert(chunks, embeddings).Ok?
                then Apply(old(committed), Persist(tenant, job, file, ToInsert(chunks, embeddings).value))
                else old(committed)
      ensures r.Ok? <==>
                ToInsert(chunks, embeddings).Ok? && (fault.NoFault? || (fault.AtChunk? && fault.row >= |chunks|))
    {
      var created := CreateSourceDocument(file, fault);
      if created.Err? {
        Rollback();
        return Err(created.error);
      }
      var inserted := CreateChunks(created.value, tenant, chunks, embeddings, fault);
      if inserted.Err? {
        Rollback();
        return Err(inserted.error);
      }
      if fault.AtCommit? {
        Rollback();
        return Err(fault.error);
      }
      var given := ToInsert(chunks, embeddings).value;
      PersistKeepsInv(committed, tenant, job, file, given);
      working := working.(stored := working.stored + [Stored(tenant, job, file.id, given)]);
      committed := working;
      r := if fault.AfterCommit? then Err(fault.error) else Ok(created.value);
    }

    method DeleteDocument(tenant: string, doc: DocId, fault: Fault) returns (r: Result<bool, string>)
      requires working == committed && StoreInv(committed)
      modifies this
      ensures working == committed && StoreInv(committed)
      ensures r.Ok? <==>
                && !fault.AtDocument?
                && !((fault.AtCommit? || fault.AfterCommit?) && Owned(old(committed).docs, doc, tenant))
      ensures r.Ok? ==> r.value == Owned(old(committed).docs, doc, tenant)
      ensures r.Ok? || fault.AfterCommit? ==> committed == Apply(old(committed), Delete(tenant, doc))
      ensures (r.Err? && !fault.AfterCommit?) || (r.Ok? && !r.value) ==> committed == old(committed)
    {
      if fault.AtDocument? {
        return Err(fault.error);
      }
      FindDocFinds(working.docs, doc, tenant);
      DeleteKeepsInv(working, tenant, doc);
      var found := FindDoc(working.docs, doc, tenant);
      working := Apply(working, Delete(tenant, doc));
      if found == None {
        Rollback();
        return Ok(false);
      }
      if fault.AtCommit? {
        Rollback();
        return Err(fault.error);
      }
      committed := working;
      r := if fault.AfterCommit? then Err(fault.error) else Ok(true);
    }
  }

  // ---------------------------------------------------------------- what delete removes

  /** Deleting an owned document removes exactly one row, that one, and its chunks, and unlinks its jobs; nothing else moves. */
  lemma DeleteIsExact(db: Db, tenant: string, doc: DocId)
    requires StoreInv(db) && Owned(db.docs, doc, tenant)
    ensures var db' := Apply(db, Delete(tenant, doc));
            && |db'.docs| == |db.docs| - 1
            && (forall d :: d in db'.docs <==> d in db.docs && d.id != doc)
            && (forall c :: c in db'.chunks <==> c in db.chunks && c.doc != doc)
            && (forall e: DocId :: e != doc ==> Filter(db'.chunks, InDocFn(e)) == Filter(db.chunks, InDocFn(e)))
            && |db'.jobs| == |db.jobs|
            && (forall i :: 0 <= i < |db.jobs| ==>
                  && db'.jobs[i].row.documentId != Some(doc)
                  && db'.jobs[i] == JobRec(db.jobs[i].id, db.jobs[i].row.(documentId := db'.jobs[i].row.documentId))
                  && (db.jobs[i].row.documentId != Some(doc) ==> db'.jobs[i] == db.jobs[i]))
    ensures (forall t, q :: t != tenant ==> Ask(Apply(db, Delete(tenant, doc)), t, q) == Ask(db, t, q))
  {
    FindDocFinds(db.docs, doc, tenant);
    FilterMembers(db.docs, NotDocFn(doc));
    FilterMembers(db.chunks, NotOfDocFn(doc));
    DeletedOnce(db.docs, doc);
    var d :| d in db.docs && d.id == doc && d.tenant == tenant;
    forall e: DocId | e != doc
      ensures Filter(Filter(db.chunks, NotOfDocFn(doc)), InDocFn(e)) == Filter(db.chunks, InDocFn(e))
    {
      FilterRedundant(db.chunks, NotOfDocFn(doc), InDocFn(e));
    }
    forall t, q | t != tenant ensures Ask(Apply(db, Delete(tenant, doc)), t, q) == Ask(db, t, q) {
      DeleteSparesOthers(db, tenant, doc, t, q);
    }
  }

  lemma DeleteSparesOthers(db: Db, tenant: string, doc: DocId, t: string, q: Query)
    requires StoreInv(db) && t != tenant
    ensures Ask(Apply(db, Delete(tenant, doc)), t, q) == Ask(db, t, q)
  {
    SliceDelete(db, tenant, doc, t);
    AskSlice(db, t, q);
    AskSlice(Apply(db, Delete(tenant, doc)), t, q);
  }

  /** Asking for somebody else's document changes nothing. */
  lemma DeleteOfOthersIsNothing(db: Db, tenant: string, doc: DocId)
    requires !Owned(db.docs, doc, tenant)
    ensures Apply(db, Delete(tenant, doc)) == db
  {
    FindDocFinds(db.docs, doc, tenant);
  }

  // ---------------------------------------------------------------- chunks as given

  function InDocFn(doc: DocId): ChunkRow -> bool {
    (c: ChunkRow) => c.doc == doc
  }

  /** Every document that still exists has exactly the chunks it was stored with, numbered from 0. */
  ghost predicate ChunksAsGiven(db: Db) {
    forall i :: 0 <= i < |db.stored| && Owned(db.docs, db.stored[i].doc, db.stored[i].tenant) ==>
      Filter(db.chunks, InDocFn(db.stored[i].doc)) ==
      ChunkRows(db.stored[i].doc, db.stored[i].tenant, db.stored[i].chunks, 0)
  }

  lemma PersistKeepsChunks(db: Db, tenant: string, job: JobId, file: DocRow, chunks: seq<ChunkIn>)
    requires StoreInv(db) && ChunksAsGiven(db) && Enabled(db, Persist(tenant, job, file, chunks))
    ensures ChunksAsGiven(Apply(db, Persist(tenant, job, file, chunks)))
  {
    var db' := Apply(db, Persist(tenant, job, file, chunks));
    var rows := ChunkRows(file.id, tenant, chunks, 0);
    ChunkRowsOfDoc(file.id, tenant, chunks, 0);
    forall i | 0 <= i < |db'.stored| && Owned(db'.docs, db'.stored[i].doc, db'.stored[i].tenant)
      ensures Filter(db'.chunks, InDocFn(db'.stored[i].doc)) ==
              ChunkRows(db'.stored[i].doc, db'.stored[i].tenant, db'.stored[i].chunks, 0)
    {
      var e := db'.stored[i];
      FilterAppend(db.chunks, rows, InDocFn(e.doc));
      if i < |db.stored| {
        assert e == db.stored[i];
        var d :| d in db'.docs && d.id == e.doc && d.tenant == e.tenant;
        assert d in db.docs;
        FilterNone(rows, InDocFn(e.doc));
      } else {
        NoChunksYet(db, file.id);
        FilterAll(rows, InDocFn(e.doc));
      }
    }
  }

  /** A document that was never stored has no chunks. */
  lemma NoChunksYet(db: Db, doc: DocId)
    requires StoreInv(db) && forall i :: 0 <= i < |db.stored| ==> db.stored[i].doc != doc
    ensures Filter(db.chunks, InDocFn(doc)) == []
  {
    forall i | 0 <= i < |db.chunks| ensures db.chunks[i].doc != doc {
      assert db.chunks[i] in db.chunks;
      var d :| d in db.docs && d.id == db.chunks[i].doc && d.tenant == db.chunks[i].tenant;
      assert StoredAs(db.stored, d.id, d.tenant);
    }
    FilterNone(db.chunks, InDocFn(doc));
  }

  lemma DeleteKeepsChunks(db: Db, tenant: string, doc: DocId)
    requires StoreInv(db) && ChunksAsGiven(db)
    ensures ChunksAsGiven(Apply(db, Delete(tenant, doc)))
  {
    var db' := Apply(db, Delete(tenant, doc));
    if FindDoc(db.docs, doc, tenant).Some? {
      FilterMembers(db.docs, NotDocFn(doc));
      forall i | 0 <= i < |db'.stored| && Owned(db'.docs, db'.stored[i].doc, db'.stored[i].tenant)
        ensures Filter(db'.chunks, InDocFn(db'.stored[i].doc)) == Filter(db.chunks, InDocFn(db'.stored[i].doc))
        ensures Owned(db.docs, db'.stored[i].doc, db'.stored[i].tenant)
      {
        FilterRedundant(db.chunks, NotOfDocFn(doc), InDocFn(db'.stored[i].doc));
      }
    }
  }

  lemma {:induction false} ChunksAlwaysAsGiven(db: Db, ops: seq<Op>)
    requires StoreInv(db) && ChunksAsGiven(db) && IsRun(db, ops)
    ensures StoreInv(Exec(db, ops)) && ChunksAsGiven(Exec(db, ops))
    decreases |ops|
  {
    if ops == [] {
    } else {
      match ops[0] {
        case Persist(tenant, job, file, chunks) => PersistKeepsChunks(db, tenant, job, file, chunks);
        case Delete(tenant, doc) => DeleteKeepsChunks(db, tenant, doc);
        case _ =>
      }
      InvKept(db, ops[0]);
      ChunksAlwaysAsGiven(Apply(db, ops[0]), ops[1..]);
    }
  }

  // ---------------------------------------------------------------- paged read-back

  /** `list_document_chunks`: page `page` of size `size`, by the route's arithmetic. */
  function Page(db: Db, t: string, doc: DocId, page: nat, size: nat): seq<(ChunkRow, DocRow)>
    requires page >= 1
  {
    Ask(db, t, ListChunks(doc, size, (page - 1) * size)).chunks
  }

  function Total(db: Db, t: string, doc: DocId): int {
    Ask(db, t, CountChunks(doc)).n
  }

  function GivenFn(): ((ChunkRow, DocRow)) -> ChunkIn {
    (x: (ChunkRow, DocRow)) => x.0.chunk
  }

  function PageFn(db: Db, t: string, doc: DocId, size: nat): nat -> seq<ChunkIn> {
    (k: nat) => if k == 0 then [] else Map(Page(db, t, doc, k, size), GivenFn())
  }

  /** Pages 1 to `pages`, appended. */
  function Append<T>(page: nat -> seq<T>, pages: nat): seq<T> {
    if pages == 0 then [] else Append(page, pages - 1) + page(pages)
  }

  /** What a client gets by asking for pages 1 to `pages` and appending them. */
  function ReadPages(db: Db, t: string, doc: DocId, pages: nat, size: nat): seq<ChunkIn> {
    Append(PageFn(db, t, doc, size), pages)
  }

  function WithFn(d: DocRow): ChunkRow -> (ChunkRow, DocRow) {
    (c: ChunkRow) => (c, d)
  }

  lemma {:induction false} JoinedOfDoc(chunks: seq<ChunkRow>, docs: seq<DocRow>, t: string, d: DocRow)
    requires FindDoc(docs, d.id, t) == Some(d)
    requires forall i :: 0 <= i < |chunks| && chunks[i].doc == d.id ==> chunks[i].tenant == t
    ensures Filter(Joined(chunks, docs, t), OfDocFn(d.id)) == Map(Filter(chunks, InDocFn(d.id)), WithFn(d))
  {
    if chunks == [] {
    } else {
      JoinedOfDoc(chunks[1..], docs, t, d);
      var rest := Joined(chunks[1..], docs, t);
      if Joined(chunks, docs, t) != rest {
        assert Joined(chunks, docs, t)[1..] == rest;
      }
      if chunks[0].doc == d.id {
        assert Filter(chunks, InDocFn(d.id))[1..] == Filter(chunks[1..], InDocFn(d.id));
      }
    }
  }

  lemma {:induction false} ChunkRowsAt(doc: DocId, tenant: string, chunks: seq<ChunkIn>, from: nat, i: nat)
    requires i < |chunks|
    ensures |ChunkRows(doc, tenant, chunks, from)| == |chunks|
    ensures ChunkRows(doc, tenant, chunks, from)[i] == ChunkRow(doc, tenant, from + i, chunks[i])
  {
    ChunkRowsOfDoc(doc, tenant, chunks, from);
    if i == 0 {
    } else {
      ChunkRowsAt(doc, tenant, chunks[1..], from + 1, i - 1);
    }
  }

  /** The whole listing of a document, before LIMIT and OFFSET. */
  function Listing(db: Db, t: string, doc: DocId): seq<(ChunkRow, DocRow)> {
    SortBy(Filter(Joined(db.chunks, db.docs, t), OfDocFn(doc)), IndexFn())
  }

  /** The rows of a stored document, joined to it, are in order, and give back what was stored. */
  lemma StoredRowsInOrder(e: Stored, d: DocRow)
    ensures var rows := Map(ChunkRows(e.doc, e.tenant, e.chunks, 0), WithFn(d));
            SortBy(rows, IndexFn()) == rows && Map(rows, GivenFn()) == e.chunks
  {
    var rows := Map(ChunkRows(e.doc, e.tenant, e.chunks, 0), WithFn(d));
    ChunkRowsOfDoc(e.doc, e.tenant, e.chunks, 0);
    forall k | 0 <= k < |rows| ensures rows[k] == (ChunkRow(e.doc, e.tenant, k, e.chunks[k]), d) {
      ChunkRowsAt(e.doc, e.tenant, e.chunks, 0, k);
    }
    SortOfSorted(rows, IndexFn());
  }

  /** What the join finds of a document that was stored and still exists. */
  lemma JoinedAsStored(db: Db, i: nat) returns (d: DocRow)
    requires StoreInv(db) && ChunksAsGiven(db) && i < |db.stored|
    requires Owned(db.docs, db.stored[i].doc, db.stored[i].tenant)
    ensures var e := db.stored[i];
            Filter(Joined(db.chunks, db.docs, e.tenant), OfDocFn(e.doc)) ==
            Map(ChunkRows(e.doc, e.tenant, e.chunks, 0), WithFn(d))
  {
    var e := db.stored[i];
    FindDocFinds(db.docs, e.doc, e.tenant);
    d := FindDoc(db.docs, e.doc, e.tenant).value;
    forall k | 0 <= k < |db.chunks| && db.chunks[k].doc == e.doc ensures db.chunks[k].tenant == e.tenant {
      assert db.chunks[k] in db.chunks;
      OneTenant(db, e.doc, e.tenant, db.chunks[k].tenant);
    }
    JoinedOfDoc(db.chunks, db.docs, e.tenant, d);
  }

  /** The owner's listing is what was stored: in order, complete, and nothing else. */
  lemma ListingAsGiven(db: Db, i: nat)
    requires StoreInv(db) && ChunksAsGiven(db) && i < |db.stored|
    requires Owned(db.docs, db.stored[i].doc, db.stored[i].tenant)
    ensures var e := db.stored[i];
            && Map(Listing(db, e.tenant, e.doc), GivenFn()) == e.chunks
            && Total(db, e.tenant, e.doc) == |e.chunks|
  {
    var d := JoinedAsStored(db, i);
    StoredRowsInOrder(db.stored[i], d);
  }

  // ---------------------------------------------------------------- the other reads

  lemma {:induction false} CountsOfDocument(chunks: seq<ChunkRow>, doc: DocId, t: string)
    requires forall k :: 0 <= k < |chunks| && chunks[k].doc == doc ==> chunks[k].tenant == t
    ensures Sum(chunks, CountFn(doc, t)) == |Filter(chunks, InDocFn(doc))|
  {
    if chunks == [] {
    } else {
      CountsOfDocument(chunks[1..], doc, t);
    }
  }

  lemma {:induction false} OneWithId(docs: seq<DocRow>, chunks: seq<ChunkRow>, t: string, d: DocRow)
    requires DocsOnce(docs) && d in docs && d.tenant == t
    ensures Filter(WithCounts(docs, chunks, t), HasIdFn(d.id)) ==
            [(d, Sum(chunks, CountFn(d.id, t)))]
  {
    var rest := WithCounts(docs[1..], chunks, t);
    if docs[0].tenant == t {
      assert WithCounts(docs, chunks, t)[1..] == rest;
    } else {
      assert WithCounts(docs, chunks, t) == rest;
    }
    if docs[0] == d {
      NoneWithId(docs[1..], chunks, t, d.id);
      assert WithCounts(docs, chunks, t)[0] == (d, Sum(chunks, CountFn(d.id, t)));
    } else {
      assert d in docs[1..];
      var k :| 0 <= k < |docs[1..]| && docs[1..][k] == d;
      assert docs[k + 1] == d && docs[0].id != d.id;
      OneWithId(docs[1..], chunks, t, d);
    }
  }

  lemma {:induction false} NoneWithId(docs: seq<DocRow>, chunks: seq<ChunkRow>, t: string, id: DocId)
    requires forall k :: 0 <= k < |docs| ==> docs[k].id != id
    ensures Filter(WithCounts(docs, chunks, t), HasIdFn(id)) == []
  {
    if docs == [] {
    } else {
      NoneWithId(docs[1..], chunks, t, id);
      if docs[0].tenant == t {
        assert WithCounts(docs, chunks, t)[1..] == WithCounts(docs[1..], chunks, t);
      } else {
        assert WithCounts(docs, chunks, t) == WithCounts(docs[1..], chunks, t);
      }
    }
  }

  /** The owner of a stored document gets that one row, with the number of chunks it was stored with. */
  lemma GetDocumentFinds(db: Db, i: nat) returns (d: DocRow)
    requires StoreInv(db) && ChunksAsGiven(db) && i < |db.stored|
    requires Owned(db.docs, db.stored[i].doc, db.stored[i].tenant)
    ensures var e := db.stored[i];
            && d in db.docs && d.id == e.doc && d.tenant == e.tenant
            && Ask(db, e.tenant, GetDocument(e.doc)) == Documents([(d, |e.chunks|)])
  {
    var e := db.stored[i];
    d :| d in db.docs && d.id == e.doc && d.tenant == e.tenant;
    OneWithId(db.docs, db.chunks, e.tenant, d);
    forall k | 0 <= k < |db.chunks| && db.chunks[k].doc == e.doc ensures db.chunks[k].tenant == e.tenant {
      assert db.chunks[k] in db.chunks;
      OneTenant(db, e.doc, e.tenant, db.chunks[k].tenant);
    }
    CountsOfDocument(db.chunks, e.doc, e.tenant);
    ChunkRowsOfDoc(e.doc, e.tenant, e.chunks, 0);
  }

  lemma {:induction false} OneJobWithId(jobs: seq<JobRec>, t: string, i: nat)
    requires JobsOnce(jobs) && i < |jobs|
    ensures Filter(Filter(jobs, JobOf(t)), (r: JobRec) => r.id == jobs[i].id) ==
            if jobs[i].row.tenant == t then [jobs[i]] else []
  {
    var p := (r: JobRec) => r.id == jobs[i].id;
    if JobOf(t)(jobs[0]) {
      assert Filter(jobs, JobOf(t))[1..] == Filter(jobs[1..], JobOf(t));
    }
    if i == 0 {
      forall k | 0 <= k < |Filter(jobs[1..], JobOf(t))| ensures !p(Filter(jobs[1..], JobOf(t))[k]) {
        var l := FilteredIndex(jobs[1..], JobOf(t), k);
        assert jobs[1..][l] == jobs[l + 1];
      }
      FilterNone(Filter(jobs[1..], JobOf(t)), p);
    } else {
      OneJobWithId(jobs[1..], t, i - 1);
    }
  }

  /** A job is read by its tenant, alone and whole, and by nobody else. */
  lemma GetJobFinds(db: Db, t: string, i: nat)
    requires StoreInv(db) && i < |db.jobs|
    ensures Ask(db, t, GetJob(db.jobs[i].id)) == Jobs(if db.jobs[i].row.tenant == t then [db.jobs[i]] else [])
  {
    OneJobWithId(db.jobs, t, i);
  }

  lemma {:induction false} CountedDocuments(docs: seq<DocRow>, chunks: seq<ChunkRow>, t: string, x: (DocRow, int))
    ensures x in WithCounts(docs, chunks, t) <==>
            x.0 in docs && x.0.tenant == t && x.1 == Sum(chunks, CountFn(x.0.id, t))
  {
    if docs == [] {
    } else {
      CountedDocuments(docs[1..], chunks, t, x);
      assert docs == [docs[0]] + docs[1..];
    }
  }

  /** The list of documents: the tenant's that are wanted, each with its count, newest first. */
  lemma DocumentsListed(db: Db, t: string, wanted: DocRow -> bool)
    ensures var rows := Ask(db, t, ListDocuments(wanted)).rows;
            && (forall x :: x in rows <==>
                  x.0 in db.docs && x.0.tenant == t && wanted(x.0) && x.1 == Sum(db.chunks, CountFn(x.0.id, t)))
            && (forall i, k :: 0 <= i <= k < |rows| ==> rows[i].0.createdAt >= rows[k].0.createdAt)
  {
    var all := WithCounts(db.docs, db.chunks, t);
    var p, key := (x: (DocRow, int)) => wanted(x.0), (x: (DocRow, int)) => -(x.0.createdAt as real);
    FilterMembers(all, p);
    SortBySorted(Filter(all, p), key);
    SortMembers(Filter(all, p), key);
    var rows := SortBy(Filter(all, p), key);
    assert rows == Ask(db, t, ListDocuments(wanted)).rows;
    forall i, k | 0 <= i <= k < |rows| ensures rows[i].0.createdAt >= rows[k].0.createdAt {
      assert key(rows[i]) <= key(rows[k]);
    }
    forall x ensures x in rows <==>
        x.0 in db.docs && x.0.tenant == t && wanted(x.0) && x.1 == Sum(db.chunks, CountFn(x.0.id, t))
    {
      CountedDocuments(db.docs, db.chunks, t, x);
    }
  }

  /** The list of jobs, without LIMIT: the tenant's that are wanted, newest first. */
  lemma JobsListed(db: Db, t: string, wanted: Job -> bool)
    ensures var all := Ask(db, t, ListJobs(wanted, |db.jobs|, 0)).jobs;
            && (forall r :: r in all <==> r in db.jobs && r.row.tenant == t && wanted(r.row))
            && (forall i, k :: 0 <= i <= k < |all| ==> all[i].row.createdAt >= all[k].row.createdAt)
            && (forall limit: nat, offset: nat ::
                  Ask(db, t, ListJobs(wanted, limit, offset)).jobs ==
                  all[Min(offset, |all|)..Min(offset + limit, |all|)])
  {
    var mine, p := Filter(db.jobs, JobOf(t)), (r: JobRec) => wanted(r.row);
    var key := (r: JobRec) => -(r.row.createdAt as real);
    var rows := SortBy(Filter(mine, p), key);
    FilterMembers(db.jobs, JobOf(t));
    FilterMembers(mine, p);
    SortBySorted(Filter(mine, p), key);
    SortMembers(Filter(mine, p), key);
    assert Ask(db, t, ListJobs(wanted, |db.jobs|, 0)).jobs == rows;
    forall i, k | 0 <= i <= k < |rows| ensures rows[i].row.createdAt >= rows[k].row.createdAt {
      assert key(rows[i]) <= key(rows[k]);
    }
  }

  function WindowFn<T>(all: seq<T>, size: nat): nat -> seq<T> {
    (k: nat) => if k == 0 then [] else Window(all, size, (k - 1) * size)
  }

  /** Consecutive windows join up to a prefix. */
  lemma {:induction false} PagesJoin<T>(all: seq<T>, pages: nat, size: nat)
    ensures Append(WindowFn(all, size), pages) == Window(all, pages * size, 0)
  {
    if pages == 0 {
    } else {
      PagesJoin(all, pages - 1, size);
      NextWindow(all, pages, size);
    }
  }

  lemma NextWindow<T>(all: seq<T>, page: nat, size: nat)
    requires page > 0
    ensures Window(all, (page - 1) * size, 0) + WindowFn(all, size)(page) == Window(all, page * size, 0)
  {
    assert page * size == (page - 1) * size + size;
    WindowsMeet(all, size, (page - 1) * size);
  }

  lemma {:induction false} AppendSame<T>(f: nat -> seq<T>, g: nat -> seq<T>, pages: nat)
    requires forall k: nat :: f(k) == g(k)
    ensures Append(f, pages) == Append(g, pages)
  {
    if pages == 0 {
    } else {
      AppendSame(f, g, pages - 1);
    }
  }

  /** How many pages of a size cover a list: ceil(n / size). */
  function CeilPages(n: nat, size: nat): nat
    requires size >= 1
  {
    (n + size - 1) / size
  }

  lemma EnoughPages(n: nat, size: nat, pages: nat)
    requires size >= 1 && pages >= CeilPages(n, size)
    ensures pages * size >= n
  {
    var q := CeilPages(n, size);
    assert n + size - 1 == q * size + (n + size - 1) % size;
    assert pages * size == q * size + (pages - q) * size;
  }

  lemma PagesCover<T>(all: seq<T>, pages: nat, size: nat)
    requires size >= 1 && pages >= CeilPages(|all|, size)
    ensures Append(WindowFn(all, size), pages) == all
  {
    PagesJoin(all, pages, size);
    EnoughPages(|all|, size, pages);
  }

  lemma PageIsWindow(db: Db, t: string, doc: DocId, size: nat, k: nat)
    ensures PageFn(db, t, doc, size)(k) == WindowFn(Map(Listing(db, t, doc), GivenFn()), size)(k)
  {
    if k > 0 {
      WindowOfMap(Listing(db, t, doc), GivenFn(), size, (k - 1) * size);
    }
  }

  lemma ReadIsPaged(db: Db, t: string, doc: DocId, pages: nat, size: nat)
    ensures ReadPages(db, t, doc, pages, size) ==
            Append(WindowFn(Map(Listing(db, t, doc), GivenFn()), size), pages)
  {
    forall k: nat ensures PageFn(db, t, doc, size)(k) == WindowFn(Map(Listing(db, t, doc), GivenFn()), size)(k) {
      PageIsWindow(db, t, doc, size, k);
    }
    AppendSame(PageFn(db, t, doc, size), WindowFn(Map(Listing(db, t, doc), GivenFn()), size), pages);
  }

  lemma ReadBack(db: Db, i: nat, size: nat, pages: nat)
    requires StoreInv(db) && ChunksAsGiven(db) && i < |db.stored|
    requires Owned(db.docs, db.stored[i].doc, db.stored[i].tenant)
    requires size >= 1 && pages >= CeilPages(|db.stored[i].chunks|, size)
    ensures Total(db, db.stored[i].tenant, db.stored[i].doc) == |db.stored[i].chunks|
    ensures ReadPages(db, db.stored[i].tenant, db.stored[i].doc, pages, size) == db.stored[i].chunks
  {
    ListingAsGiven(db, i);
    ReadIsPaged(db, db.stored[i].tenant, db.stored[i].doc, pages, size);
    PagesCover(db.stored[i].chunks, pages, size);
  }

  /**
   Round trip: in every reachable store and for every page size, the owner who reads
   pages 1 to ceil(total / size), or any number of pages beyond, gets exactly the chunks
   given to `persist_ingestion`, in order.
   */
  lemma PagedReadBack(ops: seq<Op>, i: nat, size: nat, pages: nat)
    requires IsRun(Db([], [], [], []), ops)
    requires var db := Exec(Db([], [], [], []), ops);
             && i < |db.stored| && Owned(db.docs, db.stored[i].doc, db.stored[i].tenant)
             && size >= 1 && pages >= CeilPages(|db.stored[i].chunks|, size)
    ensures var db := Exec(Db([], [], [], []), ops);
            var e := db.stored[i];
            && Total(db, e.tenant, e.doc) == |e.chunks|
            && ReadPages(db, e.tenant, e.doc, pages, size) == e.chunks
  {
    ChunksAlwaysAsGiven(Db([], [], [], []), ops);
    ReadBack(Exec(Db([], [], [], []), ops), i, size, pages);
  }
}

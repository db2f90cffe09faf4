/**
 Tenant isolation over whole runs: slicing the tables to one tenant commutes with every
 operation, and every tenant-scoped read is a function of the slice.
 */
module TenantErasure {
  import opened Prelude
  import opened Ordering
  import opened JobRows
  import opened Tenancy

  // ---------------------------------------------------------------- one tenant's rows

  function DocOf(t: string): DocRow -> bool { (d: DocRow) => d.tenant == t }

  function ChunkOf(t: string): ChunkRow -> bool { (c: ChunkRow) => c.tenant == t }

  function JobOf(t: string): JobRec -> bool { (r: JobRec) => r.row.tenant == t }

  function StoredOf(t: string): Stored -> bool { (e: Stored) => e.tenant == t }

  /** The rows of tenant `t`, in the order of the tables. */
  function Slice(db: Db, t: string): Db {
    Db(Filter(db.docs, DocOf(t)), Filter(db.chunks, ChunkOf(t)), Filter(db.jobs, JobOf(t)), Filter(db.stored, StoredOf(t)))
  }

  /** The operations of tenant `t`; the reaper acts for everybody. */
  predicate Concerns(op: Op, t: string) {
    match op
    case CreateJob(_, u, _) => u.tenant == t
    case Reap(_, _) => true
    case _ => op.tenant == t
  }

  function Erase(ops: seq<Op>, t: string): seq<Op> {
    if ops == [] then []
    else if Concerns(ops[0], t) then [ops[0]] + Erase(ops[1..], t)
    else Erase(ops[1..], t)
  }

  lemma {:induction false} FindDocInSlice(docs: seq<DocRow>, id: DocId, t: string)
    ensures FindDoc(Filter(docs, DocOf(t)), id, t) == FindDoc(docs, id, t)
  {
    if docs == [] {
    } else {
      FindDocInSlice(docs[1..], id, t);
      if DocOf(t)(docs[0]) {
        assert Filter(docs, DocOf(t))[1..] == Filter(docs[1..], DocOf(t));
      }
    }
  }

  // ---------------------------------------------------------------- slicing commutes with every operation

  lemma HasJobInSlice(jobs: seq<JobRec>, id: JobId, t: string)
    requires HasJob(jobs, id, t)
    ensures HasJob(Filter(jobs, JobOf(t)), id, t)
  {
    var i :| 0 <= i < |jobs| && jobs[i].id == id && jobs[i].row.tenant == t;
    FilterMembers(jobs, JobOf(t));
    assert jobs[i] in Filter(jobs, JobOf(t));
    var k :| 0 <= k < |Filter(jobs, JobOf(t))| && Filter(jobs, JobOf(t))[k] == jobs[i];
  }

  lemma EnabledInSlice(db: Db, op: Op, t: string)
    requires StoreInv(db) && Enabled(db, op) && Concerns(op, t)
    ensures Enabled(Slice(db, t), op)
  {
    match op
    case CreateJob(id, _, _) =>
      forall i | 0 <= i < |Slice(db, t).jobs| ensures Slice(db, t).jobs[i].id != id {
        var k := FilteredIndex(db.jobs, JobOf(t), i);
      }
    case WorkerWrite(_, id, _) => HasJobInSlice(db.jobs, id, t);
    case Persist(_, job, file, _) =>
      HasJobInSlice(db.jobs, job, t);
      forall i | 0 <= i < |Slice(db, t).stored| ensures Slice(db, t).stored[i].doc != file.id {
        var k := FilteredIndex(db.stored, StoredOf(t), i);
      }
    case Complete(_, job, doc, _) =>
      var i :| 0 <= i < |db.stored| && db.stored[i].tenant == t && db.stored[i].job == job && db.stored[i].doc == doc;
      FilterMembers(db.stored, StoredOf(t));
      assert db.stored[i] in Slice(db, t).stored;
      var k :| 0 <= k < |Slice(db, t).stored| && Slice(db, t).stored[k] == db.stored[i];
    case _ =>
  }

  lemma SlicePersist(db: Db, tenant: string, job: JobId, file: DocRow, chunks: seq<ChunkIn>, t: string)
    requires Enabled(db, Persist(tenant, job, file, chunks))
    ensures var op := Persist(tenant, job, file, chunks);
            Slice(Apply(db, op), t) == if tenant == t then Apply(Slice(db, t), op) else Slice(db, t)
  {
    var rows, entry := ChunkRows(file.id, tenant, chunks, 0), Stored(tenant, job, file.id, chunks);
    ChunkRowsOfDoc(file.id, tenant, chunks, 0);
    FilterAppend(db.docs, [file], DocOf(t));
    FilterAppend(db.chunks, rows, ChunkOf(t));
    FilterAppend(db.stored, [entry], StoredOf(t));
    if tenant == t {
      FilterAll([file], DocOf(t));
      FilterAll(rows, ChunkOf(t));
      FilterAll([entry], StoredOf(t));
    } else {
      FilterNone([file], DocOf(t));
      FilterNone(rows, ChunkOf(t));
      FilterNone([entry], StoredOf(t));
    }
  }

  lemma SliceComplete(db: Db, tenant: string, job: JobId, doc: DocId, now: int, t: string)
    requires StoreInv(db) && Enabled(db, Complete(tenant, job, doc, now))
    ensures var op := Complete(tenant, job, doc, now);
            Slice(Apply(db, op), t) == if tenant == t then Apply(Slice(db, t), op) else Slice(db, t)
  {
    var f := WriteFn(job, CompleteJob(doc, now));
    forall i | 0 <= i < |db.jobs| && db.jobs[i].id == job ensures db.jobs[i].row.tenant == tenant {
      StoredForJob(db, tenant, job, doc, i);
    }
    if tenant == t {
      FilterMapped(db.jobs, f, JobOf(t));
      ExistsInSlice(db, tenant, job, doc);
    } else {
      FilterUntouched(db.jobs, f, JobOf(t));
    }
  }

  lemma ExistsInSlice(db: Db, t: string, job: JobId, doc: DocId)
    requires StoreInv(db) && Enabled(db, Complete(t, job, doc, 0))
    ensures DocExists(Slice(db, t).docs, doc) <==> DocExists(db.docs, doc)
  {
    FilterMembers(db.docs, DocOf(t));
    if DocExists(db.docs, doc) {
      var i :| 0 <= i < |db.docs| && db.docs[i].id == doc;
      StoredTenant(db, t, job, doc, db.docs[i]);
      assert db.docs[i] in Slice(db, t).docs;
    }
    if DocExists(Slice(db, t).docs, doc) {
      var i :| 0 <= i < |Slice(db, t).docs| && Slice(db, t).docs[i].id == doc;
      var k := FilteredIndex(db.docs, DocOf(t), i);
    }
  }

  lemma SliceDelete(db: Db, tenant: string, doc: DocId, t: string)
    requires StoreInv(db)
    ensures Slice(Apply(db, Delete(tenant, doc)), t) ==
            if tenant == t then Apply(Slice(db, t), Delete(tenant, doc)) else Slice(db, t)
  {
    FindDocFinds(db.docs, doc, tenant);
    if tenant == t {
      FindDocInSlice(db.docs, doc, t);
      FilterSwap(db.docs, NotDocFn(doc), DocOf(t));
      FilterSwap(db.chunks, NotOfDocFn(doc), ChunkOf(t));
      FilterMapped(db.jobs, UnlinkFn(doc), JobOf(t));
    } else if FindDoc(db.docs, doc, tenant).Some? {
      OthersDoNotUse(db, doc, tenant, t);
      FilterRedundant(db.docs, NotDocFn(doc), DocOf(t));
      FilterRedundant(db.chunks, NotOfDocFn(doc), ChunkOf(t));
      FilterUntouched(db.jobs, UnlinkFn(doc), JobOf(t));
    }
  }

  /** No row of another tenant refers to a tenant's document. */
  lemma OthersDoNotUse(db: Db, doc: DocId, tenant: string, t: string)
    requires StoreInv(db) && Owned(db.docs, doc, tenant) && t != tenant
    ensures forall i :: 0 <= i < |db.docs| && db.docs[i].tenant == t ==> db.docs[i].id != doc
    ensures forall i :: 0 <= i < |db.chunks| && db.chunks[i].tenant == t ==> db.chunks[i].doc != doc
    ensures forall i :: 0 <= i < |db.jobs| && db.jobs[i].row.tenant == t ==> db.jobs[i].row.documentId != Some(doc)
  {
    if Owned(db.docs, doc, t) {
      OneTenant(db, doc, t, tenant);
    }
    forall i | 0 <= i < |db.docs| && db.docs[i].tenant == t ensures db.docs[i].id != doc {
      assert db.docs[i] in db.docs;
    }
    forall i | 0 <= i < |db.chunks| && db.chunks[i].tenant == t ensures db.chunks[i].doc != doc {
      assert db.chunks[i] in db.chunks;
    }
  }

  /** A statement against one job, on the slice of its tenant or beside the slice of another. */
  lemma SliceWrite(db: Db, id: JobId, w: RowWrite, tenant: string, t: string)
    requires forall i :: 0 <= i < |db.jobs| && db.jobs[i].id == id && db.jobs[i].row.tenant != tenant ==>
               After(db.jobs[i].row, w) == db.jobs[i].row
    ensures Slice(db.(jobs := Map(db.jobs, WriteFn(id, w))), t) ==
            if tenant == t then Slice(db, t).(jobs := Map(Slice(db, t).jobs, WriteFn(id, w))) else Slice(db, t)
  {
    if tenant == t {
      FilterMapped(db.jobs, WriteFn(id, w), JobOf(t));
    } else {
      FilterUntouched(db.jobs, WriteFn(id, w), JobOf(t));
    }
  }

  lemma TenantOfJob(db: Db, id: JobId, tenant: string, i: nat)
    requires StoreInv(db) && HasJob(db.jobs, id, tenant) && i < |db.jobs| && db.jobs[i].id == id
    ensures db.jobs[i].row.tenant == tenant
  {
  }

  lemma SliceWrites(db: Db, op: Op, t: string)
    requires StoreInv(db) && Enabled(db, op)
    requires op.WorkerWrite? || op.Retry? || op.Cancel? || op.Reap?
    ensures Slice(Apply(db, op), t) == if Concerns(op, t) then Apply(Slice(db, t), op) else Slice(db, t)
  {
    match op
    case WorkerWrite(tenant, id, w) =>
      forall i | 0 <= i < |db.jobs| && db.jobs[i].id == id ensures db.jobs[i].row.tenant == tenant {
        TenantOfJob(db, id, tenant, i);
      }
      SliceWrite(db, id, w, tenant, t);
    case Retry(tenant, id, now) => SliceWrite(db, id, RetryFailedJob(tenant, now), tenant, t);
    case Cancel(tenant, id, now) => SliceWrite(db, id, CancelPendingJob(tenant, CANCEL_REASON, now), tenant, t);
    case Reap(staleAfter, now) => FilterMapped(db.jobs, ReapFn(staleAfter, now), JobOf(t));
  }

  /** One operation, seen by tenant `t`: its own happen to its slice, others' do not happen. */
  lemma SliceStep(db: Db, op: Op, t: string)
    requires StoreInv(db) && Enabled(db, op)
    ensures Slice(Apply(db, op), t) == if Concerns(op, t) then Apply(Slice(db, t), op) else Slice(db, t)
  {
    match op
    case CreateJob(id, u, at) =>
      FilterAppend(db.jobs, [JobRec(id, NewRow(u, at))], JobOf(t));
      if u.tenant == t {
        FilterAll([JobRec(id, NewRow(u, at))], JobOf(t));
      } else {
        FilterNone([JobRec(id, NewRow(u, at))], JobOf(t));
      }
    case Persist(tenant, job, file, chunks) => SlicePersist(db, tenant, job, file, chunks, t);
    case Complete(tenant, job, doc, now) => SliceComplete(db, tenant, job, doc, now, t);
    case Delete(tenant, doc) => SliceDelete(db, tenant, doc, t);
    case _ => SliceWrites(db, op, t);
  }

  /** Tenant erasure, for any interleaved run: `t`'s rows are those of the run without the others. */
  lemma {:induction false} SliceOfRun(db: Db, ops: seq<Op>, t: string)
    requires StoreInv(db) && IsRun(db, ops)
    ensures IsRun(Slice(db, t), Erase(ops, t))
    ensures Slice(Exec(db, ops), t) == Exec(Slice(db, t), Erase(ops, t))
    decreases |ops|
  {
    if ops == [] {
    } else {
      var op := ops[0];
      SliceStep(db, op, t);
      InvKept(db, op);
      SliceOfRun(Apply(db, op), ops[1..], t);
      if Concerns(op, t) {
        EnabledInSlice(db, op, t);
        assert Erase(ops, t)[1..] == Erase(ops[1..], t);
      }
    }
  }

  // ---------------------------------------------------------------- reads

  /** Chunks joined to their documents, both restricted to the tenant. */
  function Joined(chunks: seq<ChunkRow>, docs: seq<DocRow>, t: string): seq<(ChunkRow, DocRow)> {
    if chunks == [] then []
    else
      var doc := FindDoc(docs, chunks[0].doc, t);
      (if chunks[0].tenant == t && doc.Some? then [(chunks[0], doc.value)] else []) + Joined(chunks[1..], docs, t)
  }

  function CountFn(doc: DocId, t: string): ChunkRow -> int {
    (c: ChunkRow) => if c.doc == doc && c.tenant == t then 1 else 0
  }

  /** The documents of the tenant, each with the number of its chunks (the LEFT JOIN). */
  function WithCounts(docs: seq<DocRow>, chunks: seq<ChunkRow>, t: string): seq<(DocRow, int)> {
    if docs == [] then []
    else
      (if docs[0].tenant == t then [(docs[0], Sum(chunks, CountFn(docs[0].id, t)))] else [])
      + WithCounts(docs[1..], chunks, t)
  }

  datatype Query =
    | ListDocuments(wantedDoc: DocRow -> bool)
    | GetDocument(doc: DocId)
    | CountChunks(doc: DocId)
    | ListChunks(doc: DocId, limit: nat, offset: nat)
    | Search(wantedChunk: ((ChunkRow, DocRow)) -> bool, distance: ((ChunkRow, DocRow)) -> real, limit: nat)
    | ListJobs(wantedJob: Job -> bool, limit: nat, offset: nat)
    | GetJob(job: JobId)

  datatype Answer =
    | Documents(rows: seq<(DocRow, int)>)
    | Chunks(chunks: seq<(ChunkRow, DocRow)>)
    | Number(n: int)
    | Jobs(jobs: seq<JobRec>)

  function HasIdFn(doc: DocId): ((DocRow, int)) -> bool {
    (x: (DocRow, int)) => x.0.id == doc
  }

  function OfDocFn(doc: DocId): ((ChunkRow, DocRow)) -> bool {
    (x: (ChunkRow, DocRow)) => x.0.doc == doc
  }

  function IndexFn(): ((ChunkRow, DocRow)) -> real {
    (x: (ChunkRow, DocRow)) => x.0.index as real
  }

  function Ask(db: Db, t: string, q: Query): Answer {
    match q
    case ListDocuments(wanted) =>
      Documents(SortBy(Filter(WithCounts(db.docs, db.chunks, t), (x: (DocRow, int)) => wanted(x.0)),
                       (x: (DocRow, int)) => -(x.0.createdAt as real)))
    case GetDocument(doc) => Documents(Filter(WithCounts(db.docs, db.chunks, t), HasIdFn(doc)))
    case CountChunks(doc) => Number(|Filter(Joined(db.chunks, db.docs, t), OfDocFn(doc))|)
    case ListChunks(doc, limit, offset) =>
      Chunks(Window(SortBy(Filter(Joined(db.chunks, db.docs, t), OfDocFn(doc)), IndexFn()), limit, offset))
    case Search(wanted, distance, limit) =>
      Chunks(Window(SortBy(Filter(Joined(db.chunks, db.docs, t), wanted), distance), limit, 0))
    case ListJobs(wanted, limit, offset) =>
      Jobs(Window(SortBy(Filter(Filter(db.jobs, JobOf(t)), (r: JobRec) => wanted(r.row)),
                         (r: JobRec) => -(r.row.createdAt as real)), limit, offset))
    case GetJob(job) => Jobs(Filter(Filter(db.jobs, JobOf(t)), (r: JobRec) => r.id == job))
  }

  lemma {:induction false} JoinedInSlice(chunks: seq<ChunkRow>, docs: seq<DocRow>, t: string)
    ensures Joined(Filter(chunks, ChunkOf(t)), Filter(docs, DocOf(t)), t) == Joined(chunks, docs, t)
  {
    if chunks == [] {
    } else {
      JoinedInSlice(chunks[1..], docs, t);
      FindDocInSlice(docs, chunks[0].doc, t);
      if ChunkOf(t)(chunks[0]) {
        assert Filter(chunks, ChunkOf(t))[1..] == Filter(chunks[1..], ChunkOf(t));
      }
    }
  }

  lemma {:induction false} CountInSlice(chunks: seq<ChunkRow>, doc: DocId, t: string)
    ensures Sum(Filter(chunks, ChunkOf(t)), CountFn(doc, t)) == Sum(chunks, CountFn(doc, t))
  {
    if chunks == [] {
    } else {
      CountInSlice(chunks[1..], doc, t);
      if ChunkOf(t)(chunks[0]) {
        assert Filter(chunks, ChunkOf(t))[1..] == Filter(chunks[1..], ChunkOf(t));
      }
    }
  }

  lemma {:induction false} CountsInSlice(docs: seq<DocRow>, chunks: seq<ChunkRow>, t: string)
    ensures WithCounts(Filter(docs, DocOf(t)), Filter(chunks, ChunkOf(t)), t) == WithCounts(docs, chunks, t)
  {
    if docs == [] {
    } else {
      CountsInSlice(docs[1..], chunks, t);
      CountInSlice(chunks, docs[0].id, t);
      if DocOf(t)(docs[0]) {
        assert Filter(docs, DocOf(t))[1..] == Filter(docs[1..], DocOf(t));
      }
    }
  }

  /** Every read of tenant `t` is a function of `t`'s rows. */
  lemma AskSlice(db: Db, t: string, q: Query)
    ensures Ask(Slice(db, t), t, q) == Ask(db, t, q)
  {
    JoinedInSlice(db.chunks, db.docs, t);
    CountsInSlice(db.docs, db.chunks, t);
    FilterRedundant(db.jobs, JobOf(t), JobOf(t));
  }

  /**
   Isolation: whatever all tenants do, in any order, every answer to tenant `t` is the one
   it would get if only `t`'s own operations had happened.
   */
  lemma TenantErasure(ops: seq<Op>, t: string, q: Query)
    requires IsRun(Db([], [], [], []), ops)
    ensures IsRun(Db([], [], [], []), Erase(ops, t))
    ensures Ask(Exec(Db([], [], [], []), ops), t, q) == Ask(Exec(Db([], [], [], []), Erase(ops, t)), t, q)
  {
    var empty := Db([], [], [], []);
    SliceOfRun(empty, ops, t);
    AskSlice(Exec(empty, ops), t, q);
    InvAlways(empty, ops);
    assert Slice(empty, t) == empty;
  }

  lemma OwnChunkIsJoined(db: Db, c: ChunkRow, t: string)
    requires StoreInv(db) && c in db.chunks
    ensures c.tenant == t ==> FindDoc(db.docs, c.doc, t).Some?
  {
    FindDocFinds(db.docs, c.doc, t);
  }

  /** The second tenant filter of the joins removes nothing: a chunk of `t` has a document of `t`. */
  lemma {:induction false} DoubleFilterIsRedundant(db: Db, chunks: seq<ChunkRow>, t: string)
    requires StoreInv(db) && forall c :: c in chunks ==> c in db.chunks
    ensures |Joined(chunks, db.docs, t)| == |Filter(chunks, ChunkOf(t))|
    ensures forall i :: 0 <= i < |Joined(chunks, db.docs, t)| ==>
              Joined(chunks, db.docs, t)[i].0 == Filter(chunks, ChunkOf(t))[i]
  {
    if chunks == [] {
    } else {
      OwnChunkIsJoined(db, chunks[0], t);
      DoubleFilterIsRedundant(db, chunks[1..], t);
    }
  }
}

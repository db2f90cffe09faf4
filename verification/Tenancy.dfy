/**
 The tables behind documents, chunks and upload jobs, every committed operation on them
 (app/repositories/documents.py, app/repositories/ingestion_jobs.py), and the invariant
 that ties chunks, documents and jobs to one tenant.
 */
module Tenancy {
  import opened Prelude
  import opened JobRows

  type Vector = seq<real>

  datatype DocRow = DocRow(id: DocId, tenant: string, fileName: string, contentType: string, fileSize: int,
                           storagePath: string, createdAt: int)

  datatype ChunkIn = ChunkIn(content: string, metadata: string, embedding: Option<Vector>)

  datatype ChunkRow = ChunkRow(doc: DocId, tenant: string, index: int, chunk: ChunkIn)

  datatype JobRec = JobRec(id: JobId, row: Job)

  /** History: the document an attempt of `job` stored, and what it was given to store. */
  datatype Stored = Stored(tenant: string, job: JobId, doc: DocId, chunks: seq<ChunkIn>)

  datatype Db = Db(docs: seq<DocRow>, chunks: seq<ChunkRow>, jobs: seq<JobRec>, stored: seq<Stored>)

  /** Ids are UUIDs: chosen outside, and never drawn twice. */
  datatype Op =
    | CreateJob(id: JobId, upload: Upload, at: int)
    | WorkerWrite(tenant: string, id: JobId, write: RowWrite)
    | Persist(tenant: string, job: JobId, file: DocRow, chunks: seq<ChunkIn>)
    | Complete(tenant: string, job: JobId, doc: DocId, now: int)
    | Retry(tenant: string, id: JobId, now: int)
    | Cancel(tenant: string, id: JobId, now: int)
    | Delete(tenant: string, doc: DocId)
    | Reap(staleAfter: int, now: int)

  // ---------------------------------------------------------------- operations

  function FindDoc(docs: seq<DocRow>, id: DocId, tenant: string): Option<DocRow> {
    if docs == [] then None
    else if docs[0].id == id && docs[0].tenant == tenant then Some(docs[0])
    else FindDoc(docs[1..], id, tenant)
  }

  predicate DocExists(docs: seq<DocRow>, id: DocId) {
    exists i :: 0 <= i < |docs| && docs[i].id == id
  }

  function WriteFn(id: JobId, w: RowWrite): JobRec -> JobRec {
    (r: JobRec) => if r.id == id then r.(row := After(r.row, w)) else r
  }

  function ReapFn(staleAfter: int, now: int): JobRec -> JobRec {
    (r: JobRec) => r.(row := After(r.row, FailStaleJob(staleAfter, now)))
  }

  function UnlinkFn(doc: DocId): JobRec -> JobRec {
    (r: JobRec) => r.(row := Unlinked(r.row, doc))
  }

  function NotDocFn(doc: DocId): DocRow -> bool {
    (d: DocRow) => d.id != doc
  }

  function NotOfDocFn(doc: DocId): ChunkRow -> bool {
    (c: ChunkRow) => c.doc != doc
  }

  /** The rows `create_chunks` inserts: one per chunk, numbered from `from`. */
  function ChunkRows(doc: DocId, tenant: string, chunks: seq<ChunkIn>, from: nat): seq<ChunkRow> {
    if chunks == [] then []
    else [ChunkRow(doc, tenant, from, chunks[0])] + ChunkRows(doc, tenant, chunks[1..], from + 1)
  }

  ghost predicate HasJob(jobs: seq<JobRec>, id: JobId, tenant: string) {
    exists i :: 0 <= i < |jobs| && jobs[i].id == id && jobs[i].row.tenant == tenant
  }

  ghost predicate Enabled(db: Db, op: Op) {
    match op
    case CreateJob(id, u, _) => u.maxAttempts > 0 && forall i :: 0 <= i < |db.jobs| ==> db.jobs[i].id != id
    // The worker uses the tenant of the row it started (upload_jobs.py:40-48).
    case WorkerWrite(tenant, id, w) =>
      HasJob(db.jobs, id, tenant) && (w.StartAttempt? || w.MarkRetryPending? || w.FailJob?)
    case Persist(tenant, job, file, _) =>
      && HasJob(db.jobs, job, tenant) && file.tenant == tenant
      && forall i :: 0 <= i < |db.stored| ==> db.stored[i].doc != file.id
    case Complete(tenant, job, doc, _) =>
      exists i :: 0 <= i < |db.stored| && db.stored[i].tenant == tenant && db.stored[i].job == job && db.stored[i].doc == doc
    case _ => true
  }

  function Apply(db: Db, op: Op): Db {
    match op
    case CreateJob(id, u, at) => db.(jobs := db.jobs + [JobRec(id, NewRow(u, at))])
    case WorkerWrite(_, id, w) => db.(jobs := Map(db.jobs, WriteFn(id, w)))
    case Persist(tenant, job, file, chunks) =>
      db.(docs := db.docs + [file],
          chunks := db.chunks + ChunkRows(file.id, tenant, chunks, 0),
          stored := db.stored + [Stored(tenant, job, file.id, chunks)])
    // The foreign key makes the statement raise when the document is gone.
    case Complete(_, job, doc, now) =>
      if DocExists(db.docs, doc) then db.(jobs := Map(db.jobs, WriteFn(job, CompleteJob(doc, now)))) else db
    case Retry(tenant, id, now) => db.(jobs := Map(db.jobs, WriteFn(id, RetryFailedJob(tenant, now))))
    case Cancel(tenant, id, now) =>
      db.(jobs := Map(db.jobs, WriteFn(id, CancelPendingJob(tenant, CANCEL_REASON, now))))
    // ON DELETE CASCADE for the chunks, ON DELETE SET NULL for the jobs.
    case Delete(tenant, doc) =>
      if FindDoc(db.docs, doc, tenant).Some? then
        db.(docs := Filter(db.docs, NotDocFn(doc)),
            chunks := Filter(db.chunks, NotOfDocFn(doc)),
            jobs := Map(db.jobs, UnlinkFn(doc)))
      else db
    case Reap(staleAfter, now) => db.(jobs := Map(db.jobs, ReapFn(staleAfter, now)))
  }

  // ---------------------------------------------------------------- store invariant

  /** Some document row has this id and tenant. */
  ghost predicate Owned(docs: seq<DocRow>, doc: DocId, tenant: string) {
    exists d :: d in docs && d.id == doc && d.tenant == tenant
  }

  ghost predicate StoredAs(stored: seq<Stored>, doc: DocId, tenant: string) {
    exists i :: 0 <= i < |stored| && stored[i].doc == doc && stored[i].tenant == tenant
  }

  ghost predicate StoredOnce(stored: seq<Stored>) {
    forall i, k :: 0 <= i < k < |stored| ==> stored[i].doc != stored[k].doc
  }

  /** The primary key of `source_documents`. */
  ghost predicate DocsOnce(docs: seq<DocRow>) {
    forall i, k :: 0 <= i < k < |docs| ==> docs[i].id != docs[k].id
  }

  ghost predicate JobsOnce(jobs: seq<JobRec>) {
    forall i, k :: 0 <= i < k < |jobs| ==> jobs[i].id != jobs[k].id
  }

  /**
   Chunks carry the tenant of their document, a job points only to a document of its own
   tenant, and every document was stored once, for one tenant.
   */
  ghost predicate StoreInv(db: Db) {
    && (forall d :: d in db.docs ==> StoredAs(db.stored, d.id, d.tenant))
    && DocsOnce(db.docs) && StoredOnce(db.stored)
    && (forall i :: 0 <= i < |db.stored| ==> HasJob(db.jobs, db.stored[i].job, db.stored[i].tenant))
    && JobsOnce(db.jobs)
    && (forall c :: c in db.chunks ==> Owned(db.docs, c.doc, c.tenant))
    && (forall i :: 0 <= i < |db.jobs| && db.jobs[i].row.documentId.Some? ==>
          Owned(db.docs, db.jobs[i].row.documentId.value, db.jobs[i].row.tenant))
  }

  /** A document id has one tenant. */
  lemma OneTenant(db: Db, doc: DocId, t: string, u: string)
    requires StoreInv(db) && Owned(db.docs, doc, t) && Owned(db.docs, doc, u)
    ensures t == u
  {
    var d :| d in db.docs && d.id == doc && d.tenant == t;
    var e :| e in db.docs && e.id == doc && e.tenant == u;
    assert StoredAs(db.stored, d.id, d.tenant);
    assert StoredAs(db.stored, e.id, e.tenant);
  }

  lemma {:induction false} FindDocFinds(docs: seq<DocRow>, id: DocId, tenant: string)
    ensures FindDoc(docs, id, tenant).Some? <==> Owned(docs, id, tenant)
    ensures FindDoc(docs, id, tenant).Some? ==>
              var d := FindDoc(docs, id, tenant).value; d in docs && d.id == id && d.tenant == tenant
  {
    if docs == [] {
    } else {
      FindDocFinds(docs[1..], id, tenant);
      assert docs == [docs[0]] + docs[1..];
    }
  }

  /** Rows other than their own status never change hands. */
  lemma HasJobMapped(jobs: seq<JobRec>, f: JobRec -> JobRec, id: JobId, tenant: string)
    requires HasJob(jobs, id, tenant)
    requires forall i :: 0 <= i < |jobs| ==> f(jobs[i]).id == jobs[i].id && f(jobs[i]).row.tenant == jobs[i].row.tenant
    ensures HasJob(Map(jobs, f), id, tenant)
  {
    var i :| 0 <= i < |jobs| && jobs[i].id == id && jobs[i].row.tenant == tenant;
    assert Map(jobs, f)[i] == f(jobs[i]);
  }

  /** A statement on job rows that links no job to a document keeps the invariant. */
  lemma RowsMapped(db: Db, f: JobRec -> JobRec)
    requires StoreInv(db)
    requires forall i :: 0 <= i < |db.jobs| ==>
               && f(db.jobs[i]).id == db.jobs[i].id && f(db.jobs[i]).row.tenant == db.jobs[i].row.tenant
               && (f(db.jobs[i]).row.documentId == db.jobs[i].row.documentId
                   || f(db.jobs[i]).row.documentId == None
                   || Owned(db.docs, f(db.jobs[i]).row.documentId.value, db.jobs[i].row.tenant))
    ensures StoreInv(db.(jobs := Map(db.jobs, f)))
  {
    var jobs := Map(db.jobs, f);
    forall i | 0 <= i < |db.stored| ensures HasJob(jobs, db.stored[i].job, db.stored[i].tenant) {
      HasJobMapped(db.jobs, f, db.stored[i].job, db.stored[i].tenant);
    }
    forall i | 0 <= i < |jobs| && jobs[i].row.documentId.Some?
      ensures Owned(db.docs, jobs[i].row.documentId.value, jobs[i].row.tenant)
    {
      assert jobs[i] == f(db.jobs[i]);
    }
  }

  lemma {:induction false} ChunkRowsOfDoc(doc: DocId, tenant: string, chunks: seq<ChunkIn>, from: nat)
    ensures |ChunkRows(doc, tenant, chunks, from)| == |chunks|
    ensures forall c :: c in ChunkRows(doc, tenant, chunks, from) ==> c.doc == doc && c.tenant == tenant
  {
    if chunks == [] {
    } else {
      ChunkRowsOfDoc(doc, tenant, chunks[1..], from + 1);
    }
  }

  /** Deleting by primary key removes exactly one row, if it is there, and leaves the others apart. */
  lemma {:induction false} DeletedOnce(docs: seq<DocRow>, doc: DocId)
    requires DocsOnce(docs)
    ensures DocsOnce(Filter(docs, NotDocFn(doc)))
    ensures |Filter(docs, NotDocFn(doc))| == |docs| - (if DocExists(docs, doc) then 1 else 0)
  {
    if docs == [] {
    } else {
      var rest := Filter(docs[1..], NotDocFn(doc));
      DeletedOnce(docs[1..], doc);
      FilterMembers(docs[1..], NotDocFn(doc));
      assert DocExists(docs, doc) <==> docs[0].id == doc || DocExists(docs[1..], doc) by {
        ExistsLater(docs, doc);
      }
      forall k | 0 <= k < |rest| ensures rest[k].id != docs[0].id {
        assert rest[k] in rest;
      }
    }
  }

  lemma ExistsLater(docs: seq<DocRow>, doc: DocId)
    requires docs != []
    ensures DocExists(docs, doc) <==> docs[0].id == doc || DocExists(docs[1..], doc)
  {
    if DocExists(docs, doc) && docs[0].id != doc {
      var i :| 0 <= i < |docs| && docs[i].id == doc;
      assert docs[1..][i - 1].id == doc;
    }
    if docs[0].id != doc && DocExists(docs[1..], doc) {
      var i :| 0 <= i < |docs[1..]| && docs[1..][i].id == doc;
      assert docs[i + 1].id == doc;
    }
  }

  lemma CreateKeepsInv(db: Db, id: JobId, u: Upload, at: int)
    requires StoreInv(db) && Enabled(db, CreateJob(id, u, at))
    ensures StoreInv(Apply(db, CreateJob(id, u, at)))
  {
    var jobs := Apply(db, CreateJob(id, u, at)).jobs;
    forall i | 0 <= i < |db.stored| ensures HasJob(jobs, db.stored[i].job, db.stored[i].tenant) {
      var k :| 0 <= k < |db.jobs| && db.jobs[k].id == db.stored[i].job && db.jobs[k].row.tenant == db.stored[i].tenant;
      assert jobs[k] == db.jobs[k];
    }
  }

  lemma NewDocument(db: Db, file: DocRow)
    requires StoreInv(db) && forall i :: 0 <= i < |db.stored| ==> db.stored[i].doc != file.id
    ensures DocsOnce(db.docs + [file])
  {
    forall i | 0 <= i < |db.docs| ensures db.docs[i].id != file.id {
      assert db.docs[i] in db.docs;
      assert StoredAs(db.stored, db.docs[i].id, db.docs[i].tenant);
    }
  }

  lemma PersistKeepsInv(db: Db, tenant: string, job: JobId, file: DocRow, chunks: seq<ChunkIn>)
    requires StoreInv(db) && Enabled(db, Persist(tenant, job, file, chunks))
    ensures StoreInv(Apply(db, Persist(tenant, job, file, chunks)))
  {
    var db' := Apply(db, Persist(tenant, job, file, chunks));
    ChunkRowsOfDoc(file.id, tenant, chunks, 0);
    assert file in db'.docs;
    NewDocument(db, file);
    forall d | d in db'.docs ensures StoredAs(db'.stored, d.id, d.tenant) {
      if d in db.docs {
        var i :| 0 <= i < |db.stored| && db.stored[i].doc == d.id && db.stored[i].tenant == d.tenant;
        assert db'.stored[i] == db.stored[i];
      } else {
        assert db'.stored[|db.stored|].doc == d.id;
      }
    }
    forall doc, t | Owned(db.docs, doc, t) ensures Owned(db'.docs, doc, t) {
      var d :| d in db.docs && d.id == doc && d.tenant == t;
      assert d in db'.docs;
    }
    forall i | 0 <= i < |db'.stored| ensures HasJob(db'.jobs, db'.stored[i].job, db'.stored[i].tenant) {
      if i < |db.stored| {
        assert db'.stored[i] == db.stored[i];
      }
    }
  }

  lemma CompleteKeepsInv(db: Db, tenant: string, job: JobId, doc: DocId, now: int)
    requires StoreInv(db) && Enabled(db, Complete(tenant, job, doc, now))
    ensures StoreInv(Apply(db, Complete(tenant, job, doc, now)))
  {
    if DocExists(db.docs, doc) {
      var k :| 0 <= k < |db.docs| && db.docs[k].id == doc;
      StoredTenant(db, tenant, job, doc, db.docs[k]);
      forall i | 0 <= i < |db.jobs| && db.jobs[i].id == job
        ensures db.jobs[i].row.tenant == tenant && Owned(db.docs, doc, tenant)
      {
        StoredForJob(db, tenant, job, doc, i);
        assert db.docs[k] in db.docs;
      }
      RowsMapped(db, WriteFn(job, CompleteJob(doc, now)));
    }
  }

  /** What an attempt stored still has the attempt's tenant, if it still exists. */
  lemma StoredTenant(db: Db, tenant: string, job: JobId, doc: DocId, d: DocRow)
    requires StoreInv(db) && Enabled(db, Complete(tenant, job, doc, 0)) && d in db.docs && d.id == doc
    ensures d.tenant == tenant
  {
    assert StoredAs(db.stored, d.id, d.tenant);
  }

  lemma StoredForJob(db: Db, tenant: string, job: JobId, doc: DocId, i: nat)
    requires StoreInv(db) && Enabled(db, Complete(tenant, job, doc, 0)) && i < |db.jobs| && db.jobs[i].id == job
    ensures db.jobs[i].row.tenant == tenant
  {
    assert HasJob(db.jobs, job, tenant);
  }

  lemma DeleteKeepsInv(db: Db, tenant: string, doc: DocId)
    requires StoreInv(db)
    ensures StoreInv(Apply(db, Delete(tenant, doc)))
  {
    if FindDoc(db.docs, doc, tenant).Some? {
      RowsMapped(db, UnlinkFn(doc));
      var db' := Apply(db, Delete(tenant, doc));
      FilterMembers(db.docs, NotDocFn(doc));
      FilterMembers(db.chunks, NotOfDocFn(doc));
      DeletedOnce(db.docs, doc);
      forall d, t | Owned(db.docs, d, t) && d != doc ensures Owned(db'.docs, d, t) {
        var row :| row in db.docs && row.id == d && row.tenant == t;
        assert row in db'.docs;
      }
      forall i | 0 <= i < |db'.jobs| && db'.jobs[i].row.documentId.Some?
        ensures Owned(db'.docs, db'.jobs[i].row.documentId.value, db'.jobs[i].row.tenant)
      {
        assert db'.jobs[i] == UnlinkFn(doc)(db.jobs[i]);
      }
    }
  }

  lemma InvKept(db: Db, op: Op)
    requires StoreInv(db) && Enabled(db, op)
    ensures StoreInv(Apply(db, op))
  {
    match op
    case CreateJob(id, u, at) => CreateKeepsInv(db, id, u, at);
    case WorkerWrite(_, id, w) => RowsMapped(db, WriteFn(id, w));
    case Persist(tenant, job, file, chunks) => PersistKeepsInv(db, tenant, job, file, chunks);
    case Complete(tenant, job, doc, now) => CompleteKeepsInv(db, tenant, job, doc, now);
    case Retry(tenant, id, now) => RowsMapped(db, WriteFn(id, RetryFailedJob(tenant, now)));
    case Cancel(tenant, id, now) => RowsMapped(db, WriteFn(id, CancelPendingJob(tenant, CANCEL_REASON, now)));
    case Delete(tenant, doc) => DeleteKeepsInv(db, tenant, doc);
    case Reap(staleAfter, now) => RowsMapped(db, ReapFn(staleAfter, now));
  }

  // ---------------------------------------------------------------- runs

  ghost predicate IsRun(db: Db, ops: seq<Op>)
    decreases |ops|
  {
    ops == [] || (Enabled(db, ops[0]) && IsRun(Apply(db, ops[0]), ops[1..]))
  }

  function Exec(db: Db, ops: seq<Op>): Db
    decreases |ops|
  {
    if ops == [] then db else Exec(Apply(db, ops[0]), ops[1..])
  }

  lemma {:induction false} InvAlways(db: Db, ops: seq<Op>)
    requires StoreInv(db) && IsRun(db, ops)
    ensures StoreInv(Exec(db, ops))
    decreases |ops|
  {
    if ops == [] {
    } else {
      InvKept(db, ops[0]);
      InvAlways(Apply(db, ops[0]), ops[1..]);
    }
  }
}

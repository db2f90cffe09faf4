/** The operations of the store do to job rows what the protocol says happens to jobs. */
module StoreHistory {
  import opened Prelude
  import opened JobRows
  import opened ProtocolHistory
  import Tenancy

  /** What an operation means for one job record. */
  function OpEvent(db: Tenancy.Db, op: Tenancy.Op, r: Tenancy.JobRec): Option<Moment> {
    match op
    case Reap(staleAfter, now) =>
      if r.row.status == Processing && r.row.startedAt.Some? && r.row.startedAt.value < now - staleAfter
      then Some(Moment(FailsWith(STALE_ERROR), now)) else None
    case Retry(tenant, id, now) =>
      if r.id == id && r.row.tenant == tenant && r.row.status == Failed then Some(Moment(RetriedByUser, now)) else None
    case Cancel(tenant, id, now) =>
      if r.id == id && r.row.tenant == tenant && r.row.status == Pending then Some(Moment(CanceledByUser, now)) else None
    case Complete(_, job, doc, now) =>
      if r.id == job && Tenancy.DocExists(db.docs, doc) then Some(Moment(Completes(doc), now)) else None
    case Delete(tenant, doc) =>
      if r.row.documentId == Some(doc) && Tenancy.FindDoc(db.docs, doc, tenant).Some?
      then Some(Moment(DocumentDeleted, 0)) else None
    case WorkerWrite(_, id, w) =>
      if r.id != id then None
      else if w.StartAttempt? && (r.row.status == Pending || r.row.status == Failed) && r.row.attempts < r.row.maxAttempts
      then Some(Moment(Begins, w.now))
      else if w.MarkRetryPending? then Some(Moment(Postponed(w.error), w.now))
      else if w.FailJob? then Some(Moment(FailsWith(w.error), w.now))
      else None
    case _ => None
  }

  function Lived(r: Tenancy.JobRec, m: Option<Moment>): Tenancy.JobRec {
    Tenancy.JobRec(r.id, if m == None then r.row else Changed(r.row, m.value))
  }

  /** Every operation leaves every job record where it is and changes it by its event alone; a new job comes last. */
  lemma OpIsEvent(db: Tenancy.Db, op: Tenancy.Op, i: nat)
    requires Tenancy.Enabled(db, op) && i < |db.jobs| && Shape(db.jobs[i].row)
    ensures |Tenancy.Apply(db, op).jobs| == |db.jobs| + (if op.CreateJob? then 1 else 0)
    ensures Tenancy.Apply(db, op).jobs[i] == Lived(db.jobs[i], OpEvent(db, op, db.jobs[i]))
  {
    if op.WorkerWrite? {
      WriteIsEvent(db, op, i);
    }
  }

  lemma WriteIsEvent(db: Tenancy.Db, op: Tenancy.Op, i: nat)
    requires Tenancy.Enabled(db, op) && op.WorkerWrite? && i < |db.jobs| && Shape(db.jobs[i].row)
    ensures Tenancy.Apply(db, op).jobs[i] == Lived(db.jobs[i], OpEvent(db, op, db.jobs[i]))
  {
    assert Tenancy.Apply(db, op).jobs[i] == Tenancy.WriteFn(op.id, op.write)(db.jobs[i]);
  }

  /** A new job is its upload with no life yet. */
  lemma NewJobIsUnborn(db: Tenancy.Db, id: JobId, upload: Upload, at: int)
    ensures Tenancy.Apply(db, Tenancy.CreateJob(id, upload, at)).jobs ==
            db.jobs + [Tenancy.JobRec(id, RowOf(Biography(upload, at, [])))]
  {
  }
}

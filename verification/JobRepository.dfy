/**
 `IngestionJobRepository` (app/repositories/ingestion_jobs.py) over the tables it
 writes.  Every method is one statement and its commit; the row it leaves is the one
 `JobRows` gives for that statement.
 */
module JobRepository {
  import opened Prelude
  import opened JobRows
  import opened JobProtocol

  /** The tables, and the time at which a transaction that begins now runs. */
  class Database {
    var jobs: seq<Job>
    var docs: seq<Doc>
    var clock: int

    constructor ()
      ensures jobs == [] && docs == [] && clock == 0
    {
      jobs, docs, clock := [], [], 0;
    }

    ghost predicate Valid()
      reads this
    {
      forall j :: 0 <= j < |jobs| ==> Shape(jobs[j]) && StampedBy(jobs[j], clock)
    }
  }

  /** The rows after a statement against row `id`; an id that is not there matches nothing. */
  function RowsAfter(jobs: seq<Job>, id: JobId, w: RowWrite): seq<Job> {
    if id < |jobs| then jobs[id := After(jobs[id], w)] else jobs
  }

  function Returned(jobs: seq<Job>, id: JobId, w: RowWrite): Option<Job> {
    if id < |jobs| then Written(jobs[id], w) else None
  }

  class IngestionJobRepository {
    const db: Database

    constructor (db: Database)
      ensures this.db == db
    {
      this.db := db;
    }

    method CreateJob(u: Upload) returns (id: JobId, job: Job)
      requires u.maxAttempts > 0
      modifies db`jobs
      ensures id == |old(db.jobs)| && job == NewRow(u, db.clock)
      ensures job.tenant == u.tenant && job.fileName == u.fileName && job.contentType == u.contentType
      ensures job.fileSize == u.fileSize && job.rawPath == u.rawPath && job.maxAttempts == u.maxAttempts
      ensures job.status == Pending && job.attempts == 0 && job.createdAt == job.updatedAt == db.clock
      ensures db.jobs == old(db.jobs) + [job]
      ensures old(db.Valid()) ==> db.Valid()
    {
      id, job := |db.jobs|, NewRow(u, db.clock);
      db.jobs := db.jobs + [job];
    }

    method GetJob(tenant: string, id: JobId) returns (job: Option<Job>)
      ensures job.Some? <==> id < |db.jobs| && db.jobs[id].tenant == tenant
      ensures job.Some? ==> job.value == db.jobs[id]
    {
      job := if id < |db.jobs| && db.jobs[id].tenant == tenant then Some(db.jobs[id]) else None;
    }

    /** UPDATE ... RETURNING, then commit, or rollback when no row matched. */
    method Execute(id: JobId, w: RowWrite) returns (job: Option<Job>)
      requires w.now <= db.clock
      modifies db`jobs
      ensures db.jobs == RowsAfter(old(db.jobs), id, w) && job == Returned(old(db.jobs), id, w)
      ensures old(db.Valid()) ==> db.Valid()
    {
      if id < |db.jobs| && Matches(db.jobs[id], w) {
        var row := Assigned(db.jobs[id], w);
        db.jobs := db.jobs[id := row];
        job := Some(row);
      } else {
        job := None;
      }
    }

    method StartAttempt(id: JobId) returns (job: Option<Job>)
      modifies db`jobs
      ensures db.jobs == RowsAfter(old(db.jobs), id, RowWrite.StartAttempt(db.clock))
      ensures job == Returned(old(db.jobs), id, RowWrite.StartAttempt(db.clock))
      ensures old(db.Valid()) ==> db.Valid()
    {
      job := Execute(id, RowWrite.StartAttempt(db.clock));
    }

    /** The foreign key on `document_id` makes the statement raise for a document that is gone. */
    method CompleteJob(id: JobId, doc: DocId) returns (r: Result<Option<Job>, string>)
      modifies db`jobs
      ensures r.Ok? <==> doc < |db.docs| && db.docs[doc].live
      ensures r.Ok? ==>
                && db.jobs == RowsAfter(old(db.jobs), id, RowWrite.CompleteJob(doc, db.clock))
                && r.value == Returned(old(db.jobs), id, RowWrite.CompleteJob(doc, db.clock))
      ensures r.Err? ==> r.error == FOREIGN_KEY_ERROR && db.jobs == old(db.jobs)
      ensures old(db.Valid()) ==> db.Valid()
    {
      if doc < |db.docs| && db.docs[doc].live {
        var job := Execute(id, RowWrite.CompleteJob(doc, db.clock));
        r := Ok(job);
      } else {
        r := Err(FOREIGN_KEY_ERROR);
      }
    }

    method MarkRetryPending(id: JobId, error: string) returns (job: Option<Job>)
      modifies db`jobs
      ensures db.jobs == RowsAfter(old(db.jobs), id, RowWrite.MarkRetryPending(error, db.clock))
      ensures job == Returned(old(db.jobs), id, RowWrite.MarkRetryPending(error, db.clock))
      ensures old(db.Valid()) ==> db.Valid()
    {
      job := Execute(id, RowWrite.MarkRetryPending(error, db.clock));
    }

    method FailJob(id: JobId, error: string) returns (job: Option<Job>)
      modifies db`jobs
      ensures db.jobs == RowsAfter(old(db.jobs), id, RowWrite.FailJob(error, db.clock))
      ensures job == Returned(old(db.jobs), id, RowWrite.FailJob(error, db.clock))
      ensures old(db.Valid()) ==> db.Valid()
    {
      job := Execute(id, RowWrite.FailJob(error, db.clock));
    }

    /** `at` is when the request read the row: its transaction is still the same one. */
    method RetryFailedJob(tenant: string, id: JobId, at: int) returns (job: Option<Job>)
      requires at <= db.clock
      modifies db`jobs
      ensures db.jobs == RowsAfter(old(db.jobs), id, RowWrite.RetryFailedJob(tenant, at))
      ensures job == Returned(old(db.jobs), id, RowWrite.RetryFailedJob(tenant, at))
      ensures old(db.Valid()) ==> db.Valid()
    {
      job := Execute(id, RowWrite.RetryFailedJob(tenant, at));
    }

    method CancelPendingJob(tenant: string, id: JobId, at: int) returns (job: Option<Job>)
      requires at <= db.clock
      modifies db`jobs
      ensures db.jobs == RowsAfter(old(db.jobs), id, RowWrite.CancelPendingJob(tenant, CANCEL_REASON, at))
      ensures job == Returned(old(db.jobs), id, RowWrite.CancelPendingJob(tenant, CANCEL_REASON, at))
      ensures old(db.Valid()) ==> db.Valid()
    {
      job := Execute(id, RowWrite.CancelPendingJob(tenant, CANCEL_REASON, at));
    }

    method FailStaleProcessingJobs(staleAfter: int) returns (count: int)
      modifies db`jobs
      ensures db.jobs == Map(old(db.jobs), ReapFn(staleAfter, db.clock))
      ensures count == Sum(old(db.jobs), StaleFn(staleAfter, db.clock))
      ensures old(db.Valid()) ==> db.Valid()
    {
      count := Sum(db.jobs, StaleFn(staleAfter, db.clock));
      db.jobs := Map(db.jobs, ReapFn(staleAfter, db.clock));
    }
  }
}

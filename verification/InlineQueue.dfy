/**
 Inline mode: `InlineIngestionQueue.enqueue` runs the job at once, and a failed attempt
 enqueues it again from inside the error handler
 (app/services/ingestion_queue.py, app/services/upload_jobs.py).
 */
module InlineQueue {
  import opened Prelude
  import opened JobRows
  import opened JobProtocol
  import opened JobRepository

  /** How downloading, parsing, embedding and storing turn out in attempt `k`. */
  type Oracle = int -> Result<(), string>

  function AttemptResult(hasFile: bool, oracle: Oracle, k: int): Result<(), string> {
    if hasFile then oracle(k) else Err(NO_RAW_FILE_ERROR)
  }

  /** Attempt `k` is the first after `from` that succeeds. */
  ghost predicate FirstSuccess(hasFile: bool, oracle: Oracle, from: int, k: int) {
    from < k && AttemptResult(hasFile, oracle, k).Ok? && AllFail(hasFile, oracle, from, k - 1)
  }

  ghost predicate AllFail(hasFile: bool, oracle: Oracle, from: int, to: int) {
    forall i :: from < i <= to ==> AttemptResult(hasFile, oracle, i).Err?
  }

  /** Everything but job `j` is as it was. */
  ghost predicate OthersUntouched(before: seq<Job>, after: seq<Job>, j: JobId) {
    |after| == |before| && forall i :: 0 <= i < |before| && i != j ==> after[i] == before[i]
  }

  /** The outcome of running row `before` from its present attempt on. */
  ghost predicate Settled(before: Job, docsBefore: seq<Doc>, j: JobId, oracle: Oracle, after: Job, docsAfter: seq<Doc>) {
    && after.maxAttempts == before.maxAttempts && after.attempts <= after.maxAttempts
    && (after.status == Completed || after.status == Failed)
    && (after.status == Completed ==>
          && FirstSuccess(HasRawFile(before), oracle, before.attempts, after.attempts)
          && docsAfter == docsBefore + [Doc(j, true)]
          && after.documentId == Some(|docsBefore|))
    && (after.status == Failed ==>
          && AllFail(HasRawFile(before), oracle, before.attempts, before.maxAttempts)
          && after.attempts == before.maxAttempts
          && docsAfter == docsBefore
          && AttemptResult(HasRawFile(before), oracle, before.maxAttempts).Err?
          && after.lastError == after.errorMessage == Some(AttemptResult(HasRawFile(before), oracle, before.maxAttempts).error))
  }

  /** What settles the row from its next attempt on settles it from the attempt that failed. */
  lemma SettledFromFailed(row: Job, error: string, retried: Job, docs: seq<Doc>, j: JobId, oracle: Oracle, after: Job,
                          docsAfter: seq<Doc>)
    requires AttemptResult(HasRawFile(row), oracle, row.attempts) == Err(error)
    requires retried.rawPath == row.rawPath && retried.attempts == row.attempts && retried.maxAttempts == row.maxAttempts
    requires Settled(retried, docs, j, oracle, after, docsAfter)
    ensures Settled(row.(attempts := row.attempts - 1), docs, j, oracle, after, docsAfter)
  {
  }

  class InlineIngestionQueue {
    const db: Database
    const jobs: IngestionJobRepository
    const oracle: Oracle
    const retryDelay: nat

    constructor (db: Database, oracle: Oracle, retryDelay: nat)
      ensures this.db == db && this.jobs.db == db && this.oracle == oracle && this.retryDelay == retryDelay
      ensures fresh(jobs)
    {
      this.db, this.oracle, this.retryDelay := db, oracle, retryDelay;
      this.jobs := new IngestionJobRepository(db);
    }

    /** Attempts that job `j` can still make: what the recursion decreases. */
    ghost function Left(j: JobId): nat
      reads db
    {
      if j < |db.jobs| && db.jobs[j].attempts < db.jobs[j].maxAttempts
      then db.jobs[j].maxAttempts - db.jobs[j].attempts else 0
    }

    method Enqueue(j: JobId)
      requires jobs.db == db && db.Valid()
      modifies db
      ensures db.Valid() && old(db.clock) <= db.clock && OthersUntouched(old(db.jobs), db.jobs, j)
      ensures j < |old(db.jobs)| && Matches(old(db.jobs[j]), StartAttempt(0)) ==>
                Settled(old(db.jobs[j]), old(db.docs), j, oracle, db.jobs[j], db.docs)
      ensures !(j < |old(db.jobs)| && Matches(old(db.jobs[j]), StartAttempt(0))) ==>
                db.jobs == old(db.jobs) && db.docs == old(db.docs)
      decreases Left(j), 2
    {
      ProcessQueuedUploadJob(j);
    }

    method ProcessQueuedUploadJob(j: JobId)
      requires jobs.db == db && db.Valid()
      modifies db
      ensures db.Valid() && old(db.clock) <= db.clock && OthersUntouched(old(db.jobs), db.jobs, j)
      ensures j < |old(db.jobs)| && Matches(old(db.jobs[j]), StartAttempt(0)) ==>
                Settled(old(db.jobs[j]), old(db.docs), j, oracle, db.jobs[j], db.docs)
      ensures !(j < |old(db.jobs)| && Matches(old(db.jobs[j]), StartAttempt(0))) ==>
                db.jobs == old(db.jobs) && db.docs == old(db.docs)
      decreases Left(j), 1
    {
      var job := jobs.StartAttempt(j);
      if job == None {
        return;
      }
      var result := AttemptResult(HasRawFile(job.value), oracle, job.value.attempts);
      if result.Ok? {
        var doc := PersistIngestion(j);
        var _ := jobs.CompleteJob(j, doc);
      } else {
        HandleUploadJobError(j, job.value.attempts, job.value.maxAttempts, result.error);
      }
    }

    /** `persist_ingestion`, as far as this mode needs it: one new document. */
    method PersistIngestion(j: JobId) returns (doc: DocId)
      modifies db`docs
      ensures doc == |old(db.docs)| && db.docs == old(db.docs) + [Doc(j, true)]
    {
      doc := |db.docs|;
      db.docs := db.docs + [Doc(j, true)];
    }

    method HandleUploadJobError(j: JobId, attempts: int, maxAttempts: int, error: string)
      requires jobs.db == db && db.Valid()
      requires j < |db.jobs| && db.jobs[j].status == Processing
      requires attempts == db.jobs[j].attempts && maxAttempts == db.jobs[j].maxAttempts
      requires AttemptResult(HasRawFile(db.jobs[j]), oracle, attempts) == Err(error)
      modifies db
      ensures db.Valid() && old(db.clock) <= db.clock && OthersUntouched(old(db.jobs), db.jobs, j)
      ensures Settled(old(db.jobs[j]).(attempts := attempts - 1), old(db.docs), j, oracle, db.jobs[j], db.docs)
      decreases Left(j), 3
    {
      if attempts >= maxAttempts {
        var _ := jobs.FailJob(j, error);
        return;
      }
      var retried := jobs.MarkRetryPending(j, error);
      if retried == None {
        return;
      }
      if retryDelay != 0 {
        db.clock := db.clock + retryDelay;
      }
      Enqueue(j);
      SettledFromFailed(old(db.jobs[j]), error, retried.value, old(db.docs), j, oracle, db.jobs[j], db.docs);
    }

    /**
     `upload_document` in inline mode: the request ends with the job settled.  The first
     attempt that succeeds completes it and stores one document; if none of the allowed
     attempts does, it is failed with the error of the last one and nothing is stored.
     */
    method Upload(u: Upload) returns (j: JobId)
      requires jobs.db == db && db.Valid() && u.maxAttempts > 0
      modifies db
      ensures db.Valid() && j == |old(db.jobs)| && |db.jobs| == j + 1 && db.jobs[..j] == old(db.jobs)
      ensures var hasFile, row := HasRawFile(NewRow(u, 0)), db.jobs[j];
              && (forall k :: 0 < k <= u.maxAttempts && FirstSuccess(hasFile, oracle, 0, k) ==>
                    && row.status == Completed && row.attempts == k
                    && db.docs == old(db.docs) + [Doc(j, true)] && row.documentId == Some(|old(db.docs)|))
              && (AllFail(hasFile, oracle, 0, u.maxAttempts) ==>
                    && row.status == Failed && row.attempts == u.maxAttempts && db.docs == old(db.docs)
                    && row.lastError == Some(AttemptResult(hasFile, oracle, u.maxAttempts).error))
    {
      var job;
      j, job := jobs.CreateJob(u);
      assert HasRawFile(job) == HasRawFile(NewRow(u, 0));
      Enqueue(j);
    }
  }
}

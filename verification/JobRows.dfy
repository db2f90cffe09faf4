/**
 The `ingestion_jobs` row and the SQL statements that write it
 (app/repositories/ingestion_jobs.py).  A `RowWrite` is one UPDATE with its
 arguments; `Written` is the row it leaves, or `None` when its WHERE clause does
 not match.  The `now` of a write is CURRENT_TIMESTAMP: the start of the
 transaction the statement runs in.
 */
module JobRows {
  import opened Prelude

  type JobId = nat
  type DocId = nat

  const STALE_ERROR := "Job de ingestao expirou durante processamento."
  const CANCEL_REASON := "Upload cancelado pelo usuario."

  datatype Status = Pending | Processing | Completed | Failed | Canceled

  datatype Job = Job(
    tenant: string,
    fileName: string,
    contentType: string,
    fileSize: int,
    rawPath: Option<string>,
    status: Status,
    errorMessage: Option<string>,
    attempts: int,
    maxAttempts: int,
    lastError: Option<string>,
    documentId: Option<DocId>,
    createdAt: int,
    updatedAt: int,
    startedAt: Option<int>,
    finishedAt: Option<int>)

  /** What `create_job` is given; the settings loader only accepts maxAttempts > 0. */
  datatype Upload = Upload(tenant: string, fileName: string, contentType: string, fileSize: int,
                           rawPath: Option<string>, maxAttempts: int)

  datatype RowWrite =
    | StartAttempt(now: int)
    | CompleteJob(doc: DocId, now: int)
    | MarkRetryPending(error: string, now: int)
    | FailJob(error: string, now: int)
    | RetryFailedJob(tenant: string, now: int)
    | CancelPendingJob(tenant: string, reason: string, now: int)
    | FailStaleJob(staleAfter: int, now: int)

  function NewRow(u: Upload, now: int): Job {
    Job(u.tenant, u.fileName, u.contentType, u.fileSize, u.rawPath, Pending, None, 0, u.maxAttempts,
        None, None, now, now, None, None)
  }

  /** The WHERE clause of each statement, the id aside. */
  predicate Matches(row: Job, w: RowWrite) {
    match w
    case StartAttempt(_) => row.status in {Pending, Failed} && row.attempts < row.maxAttempts
    case CompleteJob(_, _) => true
    case MarkRetryPending(_, _) => true
    case FailJob(_, _) => true
    case RetryFailedJob(tenant, _) => row.tenant == tenant && row.status == Failed
    case CancelPendingJob(tenant, _, _) => row.tenant == tenant && row.status == Pending
    case FailStaleJob(staleAfter, now) =>
      row.status == Processing && row.startedAt.Some? && row.startedAt.value < now - staleAfter
  }

  /** The SET clause of each statement. */
  function Assigned(row: Job, w: RowWrite): Job {
    match w
    case StartAttempt(now) =>
      row.(status := Processing, attempts := row.attempts + 1, errorMessage := None,
           startedAt := Some(now), finishedAt := None, updatedAt := now)
    case CompleteJob(doc, now) =>
      row.(status := Completed, documentId := Some(doc), errorMessage := None, lastError := None,
           finishedAt := Some(now), updatedAt := now)
    case MarkRetryPending(error, now) =>
      row.(status := Pending, errorMessage := None, lastError := Some(error),
           finishedAt := Some(now), updatedAt := now)
    case FailJob(error, now) =>
      row.(status := Failed, errorMessage := Some(error), lastError := Some(error),
           finishedAt := Some(now), updatedAt := now)
    case RetryFailedJob(_, now) =>
      row.(status := Pending, attempts := 0, errorMessage := None,
           lastError := if row.lastError.Some? then row.lastError else row.errorMessage,
           startedAt := None, finishedAt := None, updatedAt := now)
    case CancelPendingJob(_, reason, now) =>
      row.(status := Canceled, errorMessage := Some(reason), lastError := None,
           finishedAt := Some(now), updatedAt := now)
    case FailStaleJob(_, now) =>
      row.(status := Failed, errorMessage := Some(STALE_ERROR), lastError := Some(STALE_ERROR),
           finishedAt := Some(now), updatedAt := now)
  }

  function Written(row: Job, w: RowWrite): Option<Job> {
    if Matches(row, w) then Some(Assigned(row, w)) else None
  }

  /** The row after the statement, matched or not. */
  function After(row: Job, w: RowWrite): Job {
    if Matches(row, w) then Assigned(row, w) else row
  }

  /** Counts the rows that `fail_stale_processing_jobs` returns. */
  function StaleFn(staleAfter: int, now: int): Job -> int {
    (row: Job) => if Matches(row, FailStaleJob(staleAfter, now)) then 1 else 0
  }

  /** ON DELETE SET NULL on the job's pointer to a deleted document. */
  function Unlinked(row: Job, doc: DocId): Job {
    if row.documentId == Some(doc) then row.(documentId := None) else row
  }

  /** What every reader may rely on, whatever order the statements ran in. */
  ghost predicate Shape(row: Job) {
    && 0 <= row.attempts <= row.maxAttempts
    && 0 < row.maxAttempts
    && (row.status == Pending ==> row.errorMessage == None)
    && (row.status == Processing ==>
          row.attempts >= 1 && row.startedAt.Some? && row.finishedAt == None && row.errorMessage == None)
    && (row.status == Completed ==> row.errorMessage == None && row.lastError == None)
    && (row.status == Failed ==> row.errorMessage.Some? && row.lastError == row.errorMessage)
    && (row.status == Canceled ==> row.errorMessage.Some? && row.lastError == None)
    && (row.status in {Completed, Failed, Canceled} ==> row.finishedAt.Some?)
    && (row.finishedAt.Some? ==> row.finishedAt.value == row.updatedAt)
  }

  /** No stamp of the row lies in the future. */
  ghost predicate StampedBy(row: Job, clock: int) {
    row.updatedAt <= clock && (row.startedAt.Some? ==> row.startedAt.value <= clock)
  }

  ghost predicate TimesOrdered(row: Job) {
    row.startedAt.Some? && row.finishedAt.Some? ==> row.startedAt.value <= row.finishedAt.value
  }

  lemma NewRowShape(u: Upload, now: int)
    requires u.maxAttempts > 0
    ensures Shape(NewRow(u, now)) && StampedBy(NewRow(u, now), now) && TimesOrdered(NewRow(u, now))
  {
  }

  /** Every statement, guarded or not, keeps the shape of every row, matched or not. */
  lemma ShapeKept(row: Job, w: RowWrite, clock: int)
    requires Shape(row) && StampedBy(row, clock) && w.now <= clock
    ensures Shape(After(row, w)) && StampedBy(After(row, w), clock)
  {
  }

  /** A manual retry never loses the error: its COALESCE always takes `last_error`. */
  lemma RetryKeepsLastError(row: Job, tenant: string, now: int)
    requires Shape(row) && Matches(row, RetryFailedJob(tenant, now))
    ensures row.errorMessage.Some?
    ensures Assigned(row, RetryFailedJob(tenant, now)).lastError == row.errorMessage
  {
  }

  /** A statement that stamps `finished_at` and leaves `started_at` as it was. */
  predicate Finishes(w: RowWrite) {
    !w.StartAttempt? && !w.RetryFailedJob?
  }

  /**
   Started-before-finished survives a statement exactly when the statement does not
   close an attempt with a transaction older than that attempt.
   */
  lemma TimesOrderedIff(row: Job, w: RowWrite)
    requires Matches(row, w)
    ensures TimesOrdered(Assigned(row, w)) <==>
            (Finishes(w) && row.startedAt.Some? ==> row.startedAt.value <= w.now)
  {
  }
}

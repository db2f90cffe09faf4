# RagResover: a verified model of the ingestion, storage and retrieval core

RagResover takes uploaded files through a queue, turns them into text chunks, stores the
chunks per tenant and answers questions from them.  This project models the parts of it
whose correctness depends on more than one function, and proves what they promise.

## What is modelled

**The upload job protocol.**  Upload, retry and cancel calls, any number of worker loops,
a stale-job reaper and a Redis list share the rows of `ingestion_jobs`.  `JobRows` has the
row and the seven SQL statements that write it.  `JobProtocol` is the state machine: one
action is one committed statement, one push or pop, or one failure (an exception in an
attempt, a push that raises with or without having pushed, a commit whose answer is lost,
a crash anywhere).  `JobRepository`, `InlineQueue`, `IngestionWorker` and
`IngestionRoutes` are the code in its own shape, classes and loops over mutable tables.
Between any two statements of a worker or a route the model puts a call of
`Deployment.Interfere` (or `IngestionRoutes.Others`): its contract is all that a caller may
rely on, and allows any continuation of the run by everybody else.  A ghost `Monitor`
records the actions taken, so every theorem about runs is a theorem about this code.  The
contracts of the worker loop and of the calls say which actions of its own each takes; an
empty list, a missing file or a document that is gone are conditions of the actions, so
the record also shows that it could not have taken another.

Three of the statements, `complete_job`, `mark_retry_pending` and `fail_job`, have no guard
but the id.  They are right only because a job never has more than one *token*: a queue
entry, an actor about to queue or start it, or a worker on it.  Some results hold of every
run whatever fails (`RowShapeAlways`, `RowIsItsLife`, `AttemptBudget`, `WorkBounded`,
`StuckWorkIsReaped`, `JobsPointHome`); the rest need named assumptions:

| | assumption |
|---|---|
| (T) | the reaper fails no job that a live worker is working on |
| (E) | a call that raised had no effect: no push, and no commit of `persist_ingestion` or `complete_job` |
| (C) | no actor is lost half way, by a crash or by an exception out of the error handler |
| (P) | nothing goes wrong, and the document is not deleted, between storing it and completing the job |
| (S) | no cancel closes a row in a transaction older than the row's last attempt |
| (W) | one worker loop at a time |

(T) is not assumed of the repository's own deployment: with (W) it is proved, for every
stale timeout, and with (C) as well the reaper never finds anything.  Each of (T), (E),
(C), (P) and (S) is shown to be needed by a run that respects the others
(`ProtocolWitnesses`).  Conservation and the bound on work meet in `ProtocolSettlement`:
nothing gets stuck, every state can be run to its end, and at the end every job is
completed, failed or canceled.

An exception in the transaction of `complete_job`, such as the foreign key of a document
deleted meanwhile, aborts that transaction; the first statement of the error handler, on
the same session, then raises as well and ends the worker.  The worker code therefore
keeps (C) only together with (P); an exception before the transaction, for want of a
connection, is handled and retried.

**The document store.**  `Tenancy` has the tables with their cascade and set-null rules,
every committed operation and the store invariant; `TenantErasure` proves tenant isolation
over whole interleaved runs; `DocumentStore` has the transactions with an exception
possible at every statement, the paged read-back and what every other read returns.

**Text and sections.**  `HtmlExtractor` is the parser object, field by field, with the law
of which words reach the blocks; `HtmlSegments` says where one block ends and the next
begins; `Sections` assigns sections to blocks and paragraphs.

**Retrieval and prompts.**  `Retrieval` has search, over-fetching, reranking and the
cut to top-k; `Chat` the context budget and the citation numbers.

**Codecs.**  `Base64Url` (RFC 4648, sections 3.2, 4 and 5), and on top of it `Credentials`:
password records, API keys and access tokens in JWS compact form (RFC 7515, section 7.1).
`UploadReader` is the bounded read of an upload.

## Where the code does less than it seems to promise

- `started_at <= finished_at` can fail.  CURRENT_TIMESTAMP is the start of the transaction,
  and cancel reads the row first, so its transaction may be older than the attempt whose
  row it closes.  `TimesKeptIff` is the exact condition of a step, `TimesOrderedThroughoutIff`
  that of a whole run, and `SIsNeeded` such a run.
- A job can be indexed twice (a reaped worker that is still alive, `TIsNeeded`; a failure
  after the document was committed, `PIsNeeded`), lost (a call that dies before its push,
  `CIsNeeded`), or queued although failed (`EIsNeeded`).  The exact conditions name the
  steps that do it, with no assumption made: a job gets a second or a false token only from
  a reaped worker, an upload or retry push that took effect and raised, or an unacknowledged
  completion (`OwnedIff`); it loses its token only to a crash or to a worker's push that
  raised and did not take effect (`HeldIff`); a document is left behind only by an
  unacknowledged persist, a failed completion or a crash in between (`IndexedOnceIff`).
  `ConservedThroughoutIff` says the same of whole runs.
- An upload call that could not queue its job fails the row whatever happened to it in the
  meantime, so a canceled job may become failed (`CancelIsOverwritten`, all assumptions
  granted).  `CanceledLeavesIff` says that no other step takes a job out of canceled.
- A heading that opens before the previous one is closed, or is left open at the end, drops
  the text collected so far (`HeadingOpenedOver`, `HeadingLeftOpen`).  `TextConserved` says
  exactly when nothing is lost.
- The context is not bounded by CHAT_MAX_CONTEXT_CHARS: separators are not counted
  (`BudgetIsOverrun`).  `ContextFitsIff` says of which blocks and budgets it is.
- A reranker response that names a candidate twice gives an answer with a repeated chunk
  (`NamedTwice`); `MergeRepeatsIff` is the exact condition.
- `api_key_prefix` refuses a key whose random prefix was all dashes and underscores
  (`UnusableKey`; `ApiKeyRoundTrip` is exact).
- `verify_password` raises, instead of answering, on a stored record whose count PBKDF2 does
  not take (`ZeroCountRaises`; `CountDecides` is exact).  `hash_password` writes no such record.
- Decoding base64url is lenient: characters outside the alphabet are passed over
  (`LenientExample`; `DecodesExactlyWhen` is exact), so different texts decode alike.
  `ComesBackIff` says which text is the one that encoding writes.

## Model

| member | source | states |
|---|---|---|
| JobRows.NewRowShape | app/repositories/ingestion_jobs.py:58-118 | a created job has the row shape that everything else keeps, attempts 0 of a positive maximum |
| JobRows.ShapeKept | app/repositories/ingestion_jobs.py:307-608 | each of the seven statements keeps the row shape of every row, matched or not: which of the errors, times and counts are set in which status |
| JobRows.RetryKeepsLastError | app/repositories/ingestion_jobs.py:486-506 | the COALESCE of a manual retry always keeps the error the job failed with |
| JobRows.TimesOrderedIff | app/repositories/ingestion_jobs.py:535-555 | a statement leaves started before finished exactly when it does not close an attempt from an older transaction |
| JobRepository.IngestionJobRepository.CreateJob | app/repositories/ingestion_jobs.py:58-118 | appends one pending row with the fields of the upload and returns it |
| JobRepository.IngestionJobRepository.GetJob | app/repositories/ingestion_jobs.py:190-224 | finds a row exactly when id and tenant match |
| JobRepository.IngestionJobRepository.StartAttempt | app/repositories/ingestion_jobs.py:307-348 | the whole new table and the returned row: matched only when startable, nothing else written |
| JobRepository.IngestionJobRepository.CompleteJob | app/repositories/ingestion_jobs.py:350-394 | raises and changes nothing when the document is gone; otherwise completes the row whatever its status |
| JobRepository.IngestionJobRepository.MarkRetryPending | app/repositories/ingestion_jobs.py:396-439 | the whole new table and the returned row |
| JobRepository.IngestionJobRepository.FailJob | app/repositories/ingestion_jobs.py:441-484 | the whole new table and the returned row |
| JobRepository.IngestionJobRepository.RetryFailedJob | app/repositories/ingestion_jobs.py:486-533 | the whole new table and the returned row: only a failed row of the tenant |
| JobRepository.IngestionJobRepository.CancelPendingJob | app/repositories/ingestion_jobs.py:535-581 | the whole new table and the returned row: only a pending row of the tenant |
| JobRepository.IngestionJobRepository.FailStaleProcessingJobs | app/repositories/ingestion_jobs.py:583-608 | fails exactly the stale rows and counts them |
| JobProtocol.RowEffect | app/repositories/ingestion_jobs.py:307-608 | over all actions of all actors, a row changes only by the statement run against it or by losing its document |
| ProtocolBudget.RowShapeAlways | app/repositories/ingestion_jobs.py:58-608 | every row has its shape in every reachable state, with crashes, races and reaped live jobs |
| ProtocolBudget.TimesKeptIff | app/repositories/ingestion_jobs.py:535-555 | one step of anybody keeps started before finished in all rows exactly when it is not a matching cancel from before the row's attempt |
| ProtocolBudget.TimesOrderedThroughoutIff | app/repositories/ingestion_jobs.py:307-608 | started before finished in all states of a run exactly when every step of it satisfies (S) |
| ProtocolBudget.RowTimesAlways | app/repositories/ingestion_jobs.py:307-608 | with (S), started before finished in every reachable state |
| ProtocolBudget.BudgetKept | app/repositories/ingestion_jobs.py:307-348 | one step of anybody keeps starts <= max_attempts * retries + attempts, and documents + running attempts <= starts |
| ProtocolBudget.AttemptBudget | app/repositories/ingestion_jobs.py:307-348 | that budget in every reachable state, no assumption made |
| ProtocolBudget.EnergyStep | app/services/upload_jobs.py:65-86 | every working step of a worker or a route uses up energy that only an upload, an accepted retry or junk in the list brings in |
| ProtocolBudget.WorkBounded | app/services/upload_jobs.py:18-86 | finitely many uploads, retries and junk payloads give finitely many working steps: at most 6 * max_attempts + 4 for each upload or retry, 2 for each payload |
| ProtocolTokens.WritersOwn | app/services/upload_jobs.py:65-86 | a worker that issues an unguarded write is the only token of a processing row whose attempts are its snapshot |
| ProtocolTokens.OwnedIff | app/services/upload_jobs.py:18-86 | no assumption made: a step of anybody keeps the one-token discipline of a job exactly unless it reaps its live worker, is a route's push of it that took effect and raised, or its unacknowledged completion |
| ProtocolTokens.HeldIff | app/services/upload_jobs.py:78-86 | and leaves a pending or processing job its token exactly unless its holder crashes or its worker's push raises without effect |
| ProtocolTokens.IndexedOnceIff | app/services/upload_jobs.py:40-53 | and keeps the count of its documents right exactly unless persist is unacknowledged, completing fails, or the worker crashes in between |
| ProtocolTokens.AtMostOneDocument | app/services/upload_jobs.py:40-53 | under both invariants a job has at most one document ever stored, and exactly one when completed |
| ProtocolTokens.ConservedThroughoutIff | app/services/upload_jobs.py:18-86 | the invariants hold in all states of a run exactly when no step of it is one of those |
| ProtocolTokens.AssumptionsSuffice | app/services/upload_jobs.py:18-86 | under (T) and (E), then (C), then (P), no step of a run is one of those |
| ProtocolTokens.OwnedKept | app/services/ingestion_queue.py:44-57 | in terms of the assumptions: (T) and (E) rule out the steps of `OwnedIff`, so the discipline is kept |
| ProtocolTokens.HeldKept | app/services/upload_jobs.py:78-86 | in terms of the assumptions: (C) rules out the steps of `HeldIff`, so no pending or processing job loses its token |
| ProtocolTokens.IndexedOnceKept | app/repositories/documents.py:377-415 | in terms of the assumptions: (P) with (C) rules out the steps of `IndexedOnceIff`, so the count of documents stays right |
| ProtocolTokens.TokensConserved | app/services/upload_jobs.py:18-86 | the three invariants over every run, for any number of workers, under (T), (E), then (C), then (P) |
| ProtocolTokens.TokensFromStart | app/services/upload_jobs.py:18-86 | from the empty deployment: 0 tokens when failed or completed, 1 when pending or processing, indexed exactly once when completed |
| ProtocolRefinement.GuardAlwaysHolds | app/services/upload_jobs.py:49-62 | whenever an unguarded statement is issued, the check it does not make would have passed; a start never finds a failed row |
| ProtocolRefinement.UnbrokenRefinesGuarded | app/repositories/ingestion_jobs.py:350-484 | every run without a step of `OwnedIff`, assumptions or not, does exactly what the program with compare-and-set statements does |
| ProtocolRefinement.UnguardedRefinesGuarded | app/repositories/ingestion_jobs.py:350-484 | under (T) and (E), every run does exactly what the program with compare-and-set statements does |
| ProtocolRefinement.StatusMovesAlongEdges | app/repositories/ingestion_jobs.py:307-608 | a status moves along the documented edges, except exactly when a route fails a job it could not queue; completed is never left |
| ProtocolRefinement.CanceledLeavesIff | app/api/routes/ingestion.py:140-151 | a canceled job leaves that status exactly when the route that could not queue it fails it |
| ProtocolRefinement.CompletedForever | app/repositories/ingestion_jobs.py:350-394 | a completed job stays completed for the rest of every run |
| ProtocolRefinement.NobodyBusyAtReap | app/workers/ingestion_worker.py:42-54 | when the only worker loop reaps, no actor is working on any job |
| ProtocolRefinement.OneWorkerDischargesT | app/workers/ingestion_worker.py:42-54 | with one worker loop at a time, (T) holds of every run, whatever the timeout |
| ProtocolRefinement.ProcessingIsWorkedKept | app/services/upload_jobs.py:18-62 | without crashes every processing row has a worker on it, for any number of workers |
| ProtocolRefinement.OneWorkerReapsNothing | app/workers/ingestion_worker.py:42-54 | one worker that does not crash never reaps a job in a whole run |
| ProtocolHistory.RowIsItsLife | app/repositories/ingestion_jobs.py:58-608 | every field of every row in every reachable state, from the events of the job's life alone: started_at is when it last began, attempts how often since the last manual retry, last_error what went wrong last, and the upload's own fields never change |
| ProtocolHistory.StuckWorkIsReaped | docs/ARCHITECTURE.md:183 | in every reachable state one reap fails exactly the jobs that are processing and last began longer ago than the timeout, none escaping, and leaves every other row as it was |
| ProtocolPointers.DocsEffect | app/repositories/documents.py:254-280 | documents are only added, and one ends exactly when its own tenant deletes it |
| ProtocolPointers.JobsPointHome | migrations/versions/20260601_0003_add_ingestion_jobs.py:29 | in every reachable state, no assumption made, a job's document exists, is live and was stored for that job |
| ProtocolSettlement.IdleRunIsSettled | app/services/upload_jobs.py:65-86 | under (T), (E) and (C), once nothing is queued or in hand every job is completed, failed or canceled |
| ProtocolSettlement.NeverStuck | app/workers/ingestion_worker.py:42-54 | while a worker is in its loop and a job is queued or in hand, some allowed step works, or the worker reaps and can pop at once |
| ProtocolSettlement.RunsDry | app/services/upload_jobs.py:18-86 | such steps come to an end: a run of them leads to a state with nothing queued or in hand |
| ProtocolSettlement.EveryJobCanSettle | app/services/upload_jobs.py:18-86 | from wherever a run under (T), (E) and (C) has got to, an allowed continuation settles every job |
| ProtocolWitnesses.TIsNeeded | app/repositories/ingestion_jobs.py:583-608 | without (T) a slow worker is reaped, the job retried, and the file indexed twice |
| ProtocolWitnesses.EIsNeeded | app/api/routes/ingestion.py:140-151 | without (E) a push that raised leaves a failed job in the queue |
| ProtocolWitnesses.CIsNeeded | app/api/routes/ingestion.py:132-141 | without (C) a call that dies before its push leaves a pending job nobody will start |
| ProtocolWitnesses.PIsNeeded | app/services/upload_jobs.py:40-62 | without (P) a complete_job that gets no connection, after the document was committed, has the file indexed again |
| ProtocolWitnesses.CancelIsOverwritten | app/api/routes/ingestion.py:140-151 | all assumptions granted, a reachable canceled job is failed by the upload call that could not queue it |
| ProtocolWitnesses.SIsNeeded | app/repositories/ingestion_jobs.py:535-555 | without (S) a job is canceled before it was started |
| Deployment.RedisIngestionQueue.Enqueue | app/services/ingestion_queue.py:44-45 | pushes at the end of the list, or raises, before or after the push took effect |
| Deployment.RedisIngestionQueue.Dequeue | app/services/ingestion_queue.py:47-57 | pops the head, and answers it exactly if it is a job id |
| InlineQueue.InlineIngestionQueue.Enqueue | app/services/ingestion_queue.py:23-27 | the mutual recursion terminates and settles the job, or does nothing if it cannot be started |
| InlineQueue.InlineIngestionQueue.ProcessQueuedUploadJob | app/services/upload_jobs.py:18-62 | from any startable row: completed by the first attempt that succeeds, with one document, or failed at max_attempts with the last error and none |
| InlineQueue.InlineIngestionQueue.HandleUploadJobError | app/services/upload_jobs.py:65-86 | the same from inside a failed attempt, whose error is the one recorded if it was the last |
| InlineQueue.InlineIngestionQueue.Upload | app/api/routes/ingestion.py:131-151 | an inline upload ends with its job settled, for every oracle of attempt outcomes |
| IngestionWorker.NothingToReap | app/workers/ingestion_worker.py:42-46 | wherever a run with (W) and (C) has got to, the reaper would return 0 |
| IngestionWorker.OneWorkerConserves | app/workers/ingestion_worker.py:42-54 | in the one-worker deployment every job is conserved, (T) not assumed |
| IngestionWorker.ReapingIsSafe | app/workers/ingestion_worker.py:42-46 | wherever a run with (W) has got to, reaping spares every live worker |
| IngestionWorker.RunWorker | app/workers/ingestion_worker.py:42-54 | the worker's own actions in every round, whatever others do in between: reap, poll, and for a startable job the whole attempt; all rounds are run unless an exception escapes, never under (C) with (P); how many rows it reaps, none under (W) and (C) |
| IngestionWorker.OneRound | app/workers/ingestion_worker.py:43-54 | one round: exactly one reap and one poll, and what follows from what was polled |
| IngestionWorker.PollAndProcess | app/workers/ingestion_worker.py:48-54 | goes round again exactly for an empty list or a head that is no job id, and otherwise processes the head |
| IngestionWorker.MarkStaleJobsFailed | app/workers/ingestion_worker.py:14-18 | is exactly the reap action of the protocol, and returns how many rows it failed |
| IngestionWorker.Poll | app/workers/ingestion_worker.py:48-52 | holds the popped job, or goes round again |
| IngestionWorker.ProcessQueuedUploadJob | app/services/upload_jobs.py:18-62 | not startable: nothing but the start that fails; startable: which actions the attempt and its handling take, for every outcome in store, and which exception escapes; no raw path fails the attempt |
| IngestionWorker.BeginAttempt | app/services/upload_jobs.py:21-24 | runs exactly if the row was startable, with the attempts, maximum and file of the row as started |
| IngestionWorker.Attempt | app/services/upload_jobs.py:26-54 | its own actions for every outcome in store; on success the row is completed; otherwise the error of the step that failed, commits that were not acknowledged included |
| IngestionWorker.Complete | app/services/upload_jobs.py:49-53 | the row is completed with the document exactly when the statement runs and the document is still there, even if the commit is not acknowledged, otherwise it is as it was; which error comes out and whether the transaction is aborted |
| IngestionWorker.HandleUploadJobError | app/services/upload_jobs.py:65-86 | last attempt: the row is failed with the error; before: marked for retry, then pushed; aborted transaction: nothing written and the worker gone |
| IngestionWorker.FailLastAttempt | app/services/upload_jobs.py:74-76 | the row is failed with the error, and the worker free |
| IngestionWorker.MarkForRetry | app/services/upload_jobs.py:78 | the row is pending with the error kept as the last, and the worker about to push |
| IngestionWorker.Requeue | app/services/upload_jobs.py:85-86 | the job is pushed at the end of the list, or the exception escapes and ends the worker |
| IngestionRoutes.UploadDocument | app/api/routes/ingestion.py:131-151 | creates the row, then pushes it, and answers 202; or, if the push raised, fails it with the queue error and answers 503 |
| IngestionRoutes.QueueOrFail | app/api/routes/ingestion.py:140-151 | after a push that raised the row is failed, with the queue error, whatever others did meanwhile |
| IngestionRoutes.RetryRow | app/api/routes/ingestion.py:239-244 | the row is reset exactly when it still is a failed row of the tenant |
| IngestionRoutes.RetryUploadJob | app/api/routes/ingestion.py:225-257 | 404 exactly for a job that is not the tenant's; nothing done unless it was failed when read; then the update runs in that transaction, 409 exactly if it is no longer failed, else it is pushed, or failed again with 503 |
| IngestionRoutes.CancelUploadJob | app/api/routes/ingestion.py:270-293 | 404 exactly for a job that is not the tenant's; 200 exactly if it was pending when read and when the update ran, and then it is canceled with the reason |
| Tenancy.InvKept | migrations/versions/20260601_0003_add_ingestion_jobs.py:29 | every operation keeps: document ids are distinct, a chunk has its document's tenant, a job points only to an existing document of its tenant |
| Tenancy.CompleteKeepsInv | app/repositories/ingestion_jobs.py:350-394 | completing without a tenant in the WHERE still links only within the tenant |
| Tenancy.OneTenant | app/repositories/documents.py:282-327 | a document id belongs to one tenant |
| StoreHistory.OpIsEvent | app/repositories/ingestion_jobs.py:307-608 | every operation of the store leaves every job record in its place and changes it by the one event of its life that the operation is, if any |
| StoreHistory.NewJobIsUnborn | app/repositories/ingestion_jobs.py:58-118 | creating a job adds the row of its upload, with no life yet |
| TenantErasure.SliceStep | app/repositories/documents.py:254-280 | seen through one tenant's rows, its own operations happen and others' do not |
| TenantErasure.SliceOfRun | app/repositories/documents.py:377-415 | the same for whole interleaved runs |
| TenantErasure.AskSlice | app/repositories/documents.py:99-252 | list, get, count, chunks, search and job reads depend only on the tenant's rows |
| TenantErasure.TenantErasure | app/repositories/documents.py:99-252 | every answer to a tenant after any run equals the answer after the run with all others' operations erased |
| TenantErasure.DoubleFilterIsRedundant | app/repositories/documents.py:204-209 | the second tenant filter of the joins removes no row |
| DocumentStore.DocumentRepository.CreateChunks | app/repositories/documents.py:329-375 | the rows 0..n-1 in order, nothing for no chunks, an error for unequal lengths |
| DocumentStore.DocumentRepository.PersistIngestion | app/repositories/documents.py:377-415 | with an exception possible at every statement and row and after the commit: the document with all its chunks is committed, or nothing; when it raises and when it does not |
| DocumentStore.DocumentRepository.DeleteDocument | app/repositories/documents.py:254-280 | commits exactly the cascade of an owned document, and nothing otherwise; an exception after the commit included |
| DocumentStore.DeleteIsExact | migrations/versions/20260601_0001_initial_schema.py:72-73 | removes exactly that one row and exactly its chunks, nulls exactly the job pointers to it, and changes no answer to any other tenant |
| DocumentStore.DeleteOfOthersIsNothing | app/api/routes/documents.py:134-142 | deleting another tenant's document changes nothing |
| DocumentStore.ChunksAlwaysAsGiven | migrations/versions/20260601_0001_initial_schema.py:79 | after any run, every document that still exists has exactly the chunks it was stored with, numbered from 0 |
| DocumentStore.ListingAsGiven | app/repositories/documents.py:194-252 | the owner's whole listing is what was stored, in order, and the total is its length |
| DocumentStore.GetDocumentFinds | app/repositories/documents.py:154-192 | the owner of a stored document gets exactly that row, with the number of chunks it was stored with |
| DocumentStore.GetJobFinds | app/repositories/ingestion_jobs.py:190-224 | a job is read by its tenant, alone and whole, and by nobody else |
| DocumentStore.DocumentsListed | app/repositories/documents.py:99-152 | exactly the tenant's documents that are wanted, each with its chunk count, newest first |
| DocumentStore.JobsListed | app/repositories/ingestion_jobs.py:120-188 | exactly the tenant's jobs that are wanted, newest first, cut by limit and offset |
| DocumentStore.PagesJoin | app/api/routes/documents.py:107-117 | consecutive pages join up to a prefix, with no gap or overlap |
| DocumentStore.PagedReadBack | app/api/routes/documents.py:87-124 | for every run and page size, pages 1 to ceil(total / size) or more give back the chunks handed to persist_ingestion |
| Text.NormalizeKeepsWords | app/services/parsing.py:188-190 | normalising keeps the words, is idempotent, and is empty exactly for blank text |
| Text.StripShape | app/services/parsing.py:264 | strip takes off spaces at both ends and nothing else, leaves none there, and is empty exactly for blank text |
| Text.NormalizeJoined | app/services/parsing.py:182-186 | joining pieces with spaces and normalising keeps the words of all of them |
| HtmlExtractor.HtmlTextExtractor.HandleStartTag | app/services/parsing.py:123-140 | the new state of all nine fields is the transition for the tag's kind |
| HtmlExtractor.HtmlTextExtractor.HandleEndTag | app/services/parsing.py:142-165 | the same for an end tag |
| HtmlExtractor.HtmlTextExtractor.HandleData | app/services/parsing.py:167-176 | text goes to exactly one of title, open heading and current block, or nowhere |
| HtmlExtractor.HtmlTextExtractor.FlushCurrent | app/services/parsing.py:182-186 | a non-blank current block is appended normalised |
| HtmlExtractor.Extract | app/services/parsing.py:193-198 | feeding a page and closing gives the specified final state |
| HtmlExtractor.HandleKeepsInv | app/services/parsing.py:123-176 | every event keeps: heading open means current empty, closed means no heading text, depth never negative, blocks normalised, headings among the blocks in order |
| HtmlExtractor.BlocksWellFormed | app/services/parsing.py:193-202 | those invariants of the result of every page |
| HtmlExtractor.HandleKeeps | app/services/parsing.py:123-176 | one event adds exactly the words it shows, and drops words exactly when a heading opens over one with text |
| HtmlExtractor.TextConserved | app/services/parsing.py:111-190 | the words of the blocks are words the page shows, in order, and all of them exactly when no heading text was dropped |
| HtmlSegments.BlocksAreSegments | app/services/parsing.py:123-186 | for every page, losses included, block i holds exactly the words between two block boundaries; headings are recorded with level and words, in order; the title is the last one closed |
| HtmlExtractor.HeadingDigits | app/services/parsing.py:134-138 | h1 to h6, in any case, carry their digit as level |
| HtmlExtractor.IgnoresTag | app/services/parsing.py:108 | exactly script, style and noscript, in any case, are ignored |
| HtmlExtractor.EndsBlock | app/services/parsing.py:74-107 | each tag of the list ends a block, in any case |
| HtmlExtractor.HeadingOpenedOver | app/services/parsing.py:134-138 | a page that loses text: a heading opens inside another |
| HtmlExtractor.HeadingLeftOpen | app/services/parsing.py:178-186 | a page that loses text: it ends inside a heading |
| Sections.LevelIsLast | app/services/parsing.py:208 | the level looked up is that of the last heading with the text |
| Sections.AssignSections | app/services/parsing.py:206-220 | numbered 1..n, each block in the section of the nearest block at or before it whose text is a heading |
| Sections.ParseHtml | app/services/parsing.py:193-220 | one document for each non-empty normalised block of the page, or the error when there is none |
| Sections.ParseDocx | app/services/parsing.py:254-281 | one document for each non-blank paragraph, numbered by its place in the file, under the same nearest-heading law |
| Sections.KeptParagraphs | app/services/parsing.py:263-266 | exactly the paragraphs with a character that is no space are kept, in order, with their place in the file |
| Sections.HeadingStyle | app/services/parsing.py:268-270 | exactly the styles that begin with heading, in any case, make a heading |
| Retrieval.RankingIsWhole | app/repositories/documents.py:436-463 | the reference ranking is sorted by distance and holds every eligible row of the tenant exactly |
| Retrieval.RankedIsEligible | app/repositories/documents.py:449-460 | every ranked row is the tenant's and passes threshold and metadata filter |
| Retrieval.SearchIsNearest | app/repositories/documents.py:417-487 | result k is the k-th nearest row that qualifies: its score is 1 minus the distance, it has an embedding, meets threshold and metadata filter, and is the tenant's |
| Retrieval.NothingMissing | app/repositories/documents.py:447-460 | no row of the tenant that qualifies is missing from the ranking |
| Retrieval.QuerySettings | app/services/retrieval.py:188-194 | a requested threshold wins over the configured one; top_k times the multiplier are fetched, never fewer than top_k |
| Retrieval.OverFetchRefinesTopK | app/services/retrieval.py:188-209 | for every multiplier, retrieve without a reranker is the top-k of the full ranking |
| Retrieval.RankingPrefix | app/repositories/documents.py:453-461 | a higher threshold leaves a prefix of the ranking |
| Retrieval.ThresholdYieldsPrefix | app/services/retrieval.py:188-209 | a higher threshold leaves a prefix of the answer: filter and LIMIT commute |
| Retrieval.Ranked | app/services/retrieval.py:127-142 | the loop gives the candidates the response names, in response order, with at most the score replaced |
| Retrieval.Rerank | app/services/retrieval.py:96-151 | for any response, errors included: the p-th item that names a candidate puts the candidate of its index at place p, with the item's score if that is a number |
| Retrieval.RestIsUnmentioned | app/services/retrieval.py:144-151 | after those places come exactly the candidates that no item names, in their original order, as far as the limit goes |
| Retrieval.MergeLength | app/services/retrieval.py:144-151 | for any response the length is between min(limit, n) and limit, and every element is a candidate |
| Retrieval.MergeRepeatsIff | app/services/retrieval.py:129-151 | a chunk repeats exactly when the response names it twice among its first limit valid items |
| Retrieval.NamedTwice | app/services/retrieval.py:129-151 | a response whose merge repeats one candidate and leaves the other out |
| Retrieval.MergeOfDistinct | app/services/retrieval.py:129-151 | distinct indexes give exactly min(limit, n) elements, the beginning of a permutation: named first, then the rest in order |
| Retrieval.Retrieve | app/services/retrieval.py:178-224 | the whole call: the top-k of the full ranking, or the merge of the over-fetched candidates, or one of the two errors; never more than top_k |
| Retrieval.RerankedAreCandidates | app/services/retrieval.py:194-209 | every reranked answer is one of the best fetch_limit rows and passed every filter |
| Chat.BuildContext | app/services/chat.py:31-46 | joins the blocks taken by the budget |
| Chat.TakenIsLongest | app/services/chat.py:41-44 | those blocks are the longest prefix whose sizes sum to at most the budget |
| Chat.ContextSize | app/services/chat.py:35-46 | with m blocks the context is 5(m-1) longer than their sum, and m is at most budget / 37 |
| Chat.ContextFitsIff | app/services/chat.py:41-46 | the context stays within the budget exactly when every prefix of the blocks that fits still fits with its separators |
| Chat.BudgetIsOverrun | app/services/chat.py:41-46 | two or more blocks that fill the budget overrun it |
| Chat.CitationsAgree | app/api/routes/chat.py:18-30 | block k begins with [i] exactly when source k is numbered i; sources are numbered from 1, and source k has the document, chunk, file name, score and first 600 characters of the chunk of block k |
| Chat.LabelIsBracketed | app/services/chat.py:37 | a label is its number in square brackets |
| Chat.BlockQuotes | app/services/chat.py:36-40 | a block names the file, gives the score and quotes the whole stripped chunk |
| Chat.ScoreReadsBack | app/services/chat.py:38 | the score in a block reads back as the nearest multiple of 1/10000 |
| Base64Url.Alphabet | app/services/security.py:25-26 | the alphabet of section 5 of RFC 4648, in order |
| Base64Url.EncodedShape | app/services/security.py:25-26 | only letters of the alphabet, of length ceil(4n/3), which is never 1 modulo 4 |
| Base64Url.PaddingRestored | app/services/security.py:29-31 | the padding put back is exactly what was stripped |
| Base64Url.RoundTrip | app/services/security.py:25-31 | decoding an encoding gives back every byte string |
| Base64Url.DecodesExactlyWhen | app/services/security.py:29-31 | which texts decode at all: whole groups of letters, or padding that completes one |
| Base64Url.UnpaddedDecodesWhen | app/services/security.py:29-31 | for texts without padding of their own that is a matter of two numbers |
| Base64Url.ComesBackIff | app/services/security.py:25-31 | the inverse round trip: decoding and encoding gives a text back exactly when it is canonical |
| Base64Url.LenientExample | app/services/security.py:29-31 | a text with a foreign character that decodes all the same |
| Base64Url.BadLength | app/services/security.py:29-31 | a text in the alphabet is refused exactly when its length is 1 modulo 4 |
| Decimal.IntRoundTrip | app/services/security.py:46-58 | the written iteration count is read back |
| Decimal.SignedRoundTrip | app/services/security.py:58 | a sign is understood, and spaces around a count |
| Decimal.UnderscoreBetween | app/services/security.py:58 | one underscore between digits counts for nothing |
| Decimal.DoubleUnderscore | app/services/security.py:58 | two underscores in a row spoil a count |
| Credentials.PasswordRecord | app/services/security.py:34-70 | hashing raises exactly for counts PBKDF2 does not take; otherwise the record accepts exactly the passwords with the same digest, its own among them |
| Credentials.CountDecides | app/services/security.py:53-70 | a stored record with any text as its count: no match, an exception, or the comparison of digests, and when which |
| Credentials.ZeroCountRaises | app/services/security.py:64-69 | a stored count of 0 raises out of verify_password |
| Credentials.OtherSchemeRefused | app/services/security.py:55-57 | a record of another scheme matches no password |
| Credentials.ApiKeyRoundTrip | app/services/security.py:73-88 | the prefix is recovered exactly when it is not empty, and when that is |
| Credentials.PrefixIff | app/services/security.py:84-88 | exactly which texts have a given prefix, spaces around aside: the scheme, the prefix, and more |
| Credentials.PrefixIsTwelve | app/services/security.py:73-77 | the prefix is the first twelve random characters that are letters or digits |
| Credentials.UnusableKey | app/services/security.py:73-88 | random bytes of ones, such as nine of them, make a key whose prefix is refused |
| Credentials.TokenParts | app/services/security.py:114-131 | a token splits into the three parts it was joined from |
| Credentials.SignatureDecides | app/services/security.py:130-139 | a token in shape is judged by its signature first |
| Credentials.TokenRoundTrip | app/services/security.py:95-154 | for any claims: with its key a token is judged by its claims alone, with another it is refused unless the signatures coincide |
| Credentials.OtherAlgorithmRefused | app/services/security.py:141-143 | a signed token is refused for its algorithm exactly when its header does not say HS256 |
| Credentials.PayloadJudged | app/services/security.py:145-150 | the verdict on a payload from its expiry and subject, in order |
| Credentials.ExpiryRead | app/services/security.py:146 | which expiry each kind of claim stands for; a missing one is zero |
| Credentials.SubjectMissingIff | app/services/security.py:148 | exactly which subjects count as missing |
| Credentials.HeaderFields | app/services/security.py:107 | a token says it is a JWT signed with HS256 |
| Credentials.PayloadFields | app/services/security.py:108-113 | subject, time of issue and expiry, unless an extra claim overrides them |
| Credentials.TokenLifetime | app/services/security.py:95-154 | without overriding claims the payload comes back exactly until exp and for a non-empty subject, and is expired exactly after |
| UploadReader.ReadUploadBytes | app/api/routes/ingestion.py:45-67 | however the stream is cut: exactly the bytes if there are any and they fit the limit, too large exactly if they do not, and how much was read |

## Left out

- The frontend, identity, organizations, header, JWT and API-key context resolution, audit, metrics, tracing, health checks and settings loading: branches and plumbing without a law that spans them.
- The OpenAI, Ollama, Cohere, MinIO, Redis and Postgres clients: their results are parameters, oracles or the tables and the list of the model.
- The text splitter, pypdf, python-docx and the tokenizer inside HTMLParser are libraries: chunks, paragraphs and parser events are inputs. `parse_text`, `parse_pdf` and `build_messages` are one expression each.
- `update_status`: no production path calls it.
- Hashing, signing, randomness and JSON: abstract functions and arbitrary inputs; no cryptographic strength is claimed, and JSON is a pair that undoes itself on the two objects written.
- Floats are reals: NaN, rounding and overflow are not modelled; SQL rows with equal keys keep a fixed order.
- In the protocol a document is only the job it was stored for and whether it is still there; contents, tenants and chunks are in `Tenancy` and `DocumentStore`, where the order of the workers' statements is free.
- The filters of `list_jobs` and `list_documents` are arbitrary predicates on rows.
- UUIDs are numbers: indexes into the job and document tables in the protocol, fresh numbers in the store.
- A database error in a statement other than those of the failure actions ends its actor, which is the crash action. The worker loop's methods do not crash by themselves; others around them do.
- The `None` answers of `mark_retry_pending` and `complete_job` for a missing row do not occur, since rows are never removed; `queue=None` is never passed by the repository.
- HTTP details: status texts, the 500 answer for exceptions other than those modelled, and response payloads.
- Tag names and style names are lower-cased in ASCII only; `int()` reads ASCII digits only.
- A Cohere payload that is not JSON or not an object raises out of `rerank`; the model has HTTP errors and objects with or without a list.
- ProtocolBudget.RowTimesAlways: a statement that waits for a row lock carries the time its transaction began; only cancel and retry, which read the row first, have a time of their own here, the others run at the clock.
- IngestionWorker.RunWorker: an exception out of `start_attempt`, `mark_retry_pending` or `fail_job` other than in an aborted transaction ends the worker; that is the crash action, which the method does not take by itself.
- Deployment.RedisIngestionQueue.Dequeue: an exception of the connection ends the worker, which again is a crash.
- DocumentStore.DocumentRepository.PersistIngestion: one session from one commit to the next; interleaving of committed operations is in `Tenancy`.
- Deployment.Interfere: has an empty body; it stands for everybody else, and callers rely on its contract only.
- IngestionRoutes.CancelUploadJob: does not meet (S), which is a condition on timing that the call cannot enforce, so it is stated for runs where (S) is not assumed.

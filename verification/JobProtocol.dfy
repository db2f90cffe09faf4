/**
 The ingestion job protocol as a state machine: the job rows, the Redis list, the
 document store, and every worker loop and route call that acts on them.  One action
 is one committed SQL statement, one push or pop, or one failure.
 */
module JobProtocol {
  import opened Prelude
  import opened JobRows

  /** A stored document: the job it was indexed for, and whether it is still there. */
  datatype Doc = Doc(job: JobId, live: bool)

  /** An entry of the Redis list: a job id, or a text that does not parse as one. */
  datatype Payload = JobPayload(job: JobId) | Junk(raw: string)

  /** History of one job: attempts started, manual retries, documents ever stored for it. */
  datatype Tally = Tally(starts: int, retries: int, indexed: int)

  /**
   Where an actor is.  `Reaping` to `Delaying` are the worker loop; `Created` and
   `EnqueueFailed` are upload and retry calls; `Gone` is any actor that ended.
   */
  datatype Pc =
    | Reaping
    | Polling
    | Popped(job: JobId)
    | Running(job: JobId, attempts: int, maxAttempts: int, hasFile: bool)
    | Persisted(job: JobId, attempts: int, maxAttempts: int, doc: DocId)
    | Handling(job: JobId, attempts: int, maxAttempts: int, error: string)
    | Delaying(job: JobId)
    | Created(job: JobId)
    | EnqueueFailed(job: JobId, error: string)
    | Gone

  datatype State = State(
    jobs: seq<Job>,
    queue: seq<Payload>,
    actors: seq<Pc>,
    docs: seq<Doc>,
    tally: seq<Tally>,
    clock: int)

  type ActorId = nat

  datatype Action =
    // Requests.  `at` is when the request's transaction began, which for retry and
    // cancel is when they first read the row.
    | UploadCall(upload: Upload, at: int)
    | RetryCall(job: JobId, tenant: string, at: int)
    | CancelCall(job: JobId, tenant: string, at: int)
    | DeleteCall(doc: DocId, tenant: string)
    | FailUnqueued(actor: ActorId)
    // The worker loop.
    | Spawn
    | Stop(actor: ActorId)
    | Reap(actor: ActorId, staleAfter: int)
    | PopEmpty(actor: ActorId)
    | PopJunk(actor: ActorId)
    | Pop(actor: ActorId)
    | Start(actor: ActorId)
    | Persist(actor: ActorId)
    | Complete(actor: ActorId)
    | HandleError(actor: ActorId)
    | Enqueue(actor: ActorId)
    // Failures.  An exception in the transaction of `complete_job` aborts it, so the handler raises
    // too: that is `CompleteFails`, or `CompleteRefused` by the foreign key, and then `Crash`.
    | NoRawFile(actor: ActorId)
    | AttemptFails(actor: ActorId, error: string)
    | EnqueueRaises(actor: ActorId, pushed: bool, error: string)
    | PersistUnacknowledged(actor: ActorId, error: string)
    | CompleteFails(actor: ActorId, error: string)
    | CompleteRefused(actor: ActorId)
    | CompleteUnacknowledged(actor: ActorId, error: string)
    | Crash(actor: ActorId)
    | Tick(seconds: nat)
    | PushJunk(raw: string)

  function InitialState(): State {
    State([], [], [], [], [], 0)
  }

  const FOREIGN_KEY_ERROR := "insert or update violates foreign key constraint"
  const NO_RAW_FILE_ERROR := "Arquivo bruto do upload nao esta disponivel para o worker."

  /** The worker refuses a job without a stored raw file (upload_jobs.py:27-28). */
  predicate HasRawFile(row: Job) {
    row.rawPath.Some? && row.rawPath.value != ""
  }

  ghost predicate PcRefers(pc: Pc, jobs: nat, docs: seq<Doc>) {
    match pc
    case Reaping => true
    case Polling => true
    case Gone => true
    case Persisted(j, _, _, d) => j < jobs && d < |docs| && docs[d].job == j
    case _ => pc.job < jobs
  }

  /** Every id in the state names something. */
  ghost predicate Refers(s: State) {
    && |s.tally| == |s.jobs|
    && (forall i :: 0 <= i < |s.queue| && s.queue[i].JobPayload? ==> s.queue[i].job < |s.jobs|)
    && (forall i :: 0 <= i < |s.actors| ==> PcRefers(s.actors[i], |s.jobs|, s.docs))
    && (forall d :: 0 <= d < |s.docs| ==> s.docs[d].job < |s.jobs|)
  }

  predicate Enabled(s: State, a: Action) {
    match a
    case UploadCall(u, at) => u.maxAttempts > 0 && at <= s.clock
    case RetryCall(j, _, at) => j < |s.jobs| && at <= s.clock
    case CancelCall(j, _, at) => j < |s.jobs| && at <= s.clock
    case DeleteCall(d, _) => d < |s.docs|
    case FailUnqueued(w) => w < |s.actors| && s.actors[w].EnqueueFailed?
    case Spawn => true
    case Stop(w) => w < |s.actors| && s.actors[w].Reaping?
    case Reap(w, staleAfter) => w < |s.actors| && s.actors[w].Reaping? && staleAfter > 0
    case PopEmpty(w) => w < |s.actors| && s.actors[w].Polling? && s.queue == []
    case PopJunk(w) => w < |s.actors| && s.actors[w].Polling? && s.queue != [] && s.queue[0].Junk?
    case Pop(w) => w < |s.actors| && s.actors[w].Polling? && s.queue != [] && s.queue[0].JobPayload?
    case Start(w) => w < |s.actors| && s.actors[w].Popped?
    case Persist(w) => w < |s.actors| && s.actors[w].Running? && s.actors[w].hasFile
    case Complete(w) =>
      w < |s.actors| && s.actors[w].Persisted? && s.actors[w].doc < |s.docs| && s.docs[s.actors[w].doc].live
    case HandleError(w) => w < |s.actors| && s.actors[w].Handling?
    case Enqueue(w) => w < |s.actors| && (s.actors[w].Delaying? || s.actors[w].Created?)
    case NoRawFile(w) => w < |s.actors| && s.actors[w].Running? && !s.actors[w].hasFile
    case AttemptFails(w, _) => w < |s.actors| && s.actors[w].Running? && s.actors[w].hasFile
    case EnqueueRaises(w, _, _) => w < |s.actors| && (s.actors[w].Delaying? || s.actors[w].Created?)
    case PersistUnacknowledged(w, _) => w < |s.actors| && s.actors[w].Running? && s.actors[w].hasFile
    case CompleteFails(w, _) => w < |s.actors| && s.actors[w].Persisted?
    case CompleteRefused(w) =>
      w < |s.actors| && s.actors[w].Persisted? && !(s.actors[w].doc < |s.docs| && s.docs[s.actors[w].doc].live)
    case CompleteUnacknowledged(w, _) =>
      w < |s.actors| && s.actors[w].Persisted? && s.actors[w].doc < |s.docs| && s.docs[s.actors[w].doc].live
    case Crash(w) => w < |s.actors|
    case Tick(_) => true
    case PushJunk(_) => true
  }

  function Move(s: State, w: ActorId, pc: Pc): State
    requires w < |s.actors|
  {
    s.(actors := s.actors[w := pc])
  }

  function Write(s: State, j: JobId, w: RowWrite): State
    requires j < |s.jobs|
  {
    s.(jobs := s.jobs[j := After(s.jobs[j], w)])
  }

  function Push(s: State, j: JobId): State {
    s.(queue := s.queue + [JobPayload(j)])
  }

  function AddActor(s: State, pc: Pc): State {
    s.(actors := s.actors + [pc])
  }

  function CountStart(s: State, j: JobId): State
    requires j < |s.tally|
  {
    s.(tally := s.tally[j := s.tally[j].(starts := s.tally[j].starts + 1)])
  }

  function CountRetry(s: State, j: JobId): State
    requires j < |s.tally|
  {
    s.(tally := s.tally[j := s.tally[j].(retries := s.tally[j].retries + 1)])
  }

  /** `persist_ingestion` commits one new document for job `j`. */
  function StoreDocument(s: State, j: JobId): State
    requires j < |s.tally|
  {
    s.(docs := s.docs + [Doc(j, true)],
       tally := s.tally[j := s.tally[j].(indexed := s.tally[j].indexed + 1)])
  }

  function Started(s: State, w: ActorId): State
    requires Refers(s) && w < |s.actors| && s.actors[w].Popped?
  {
    var j := s.actors[w].job;
    var write := StartAttempt(s.clock);
    if Matches(s.jobs[j], write) then
      var row := Assigned(s.jobs[j], write);
      Move(CountStart(Write(s, j, write), j), w, Running(j, row.attempts, row.maxAttempts, HasRawFile(row)))
    else
      Move(s, w, Reaping)
  }

  /** `handle_upload_job_error`, up to the re-enqueue. */
  function Handled(s: State, w: ActorId): State
    requires Refers(s) && w < |s.actors| && s.actors[w].Handling?
  {
    var Handling(j, attempts, maxAttempts, error) := s.actors[w];
    if attempts >= maxAttempts then
      Move(Write(s, j, FailJob(error, s.clock)), w, Reaping)
    else
      Move(Write(s, j, MarkRetryPending(error, s.clock)), w, Delaying(j))
  }

  function Retried(s: State, j: JobId, write: RowWrite): State
    requires Refers(s) && j < |s.jobs|
  {
    if Matches(s.jobs[j], write) then
      AddActor(CountRetry(Write(s, j, write), j), Created(j))
    else s
  }

  function Deleted(s: State, d: DocId, tenant: string): State
    requires Refers(s) && d < |s.docs|
  {
    if s.docs[d].live && s.jobs[s.docs[d].job].tenant == tenant then
      s.(docs := s.docs[d := s.docs[d].(live := false)], jobs := Map(s.jobs, UnlinkFn(d)))
    else s
  }

  function UnlinkFn(d: DocId): Job -> Job {
    row => Unlinked(row, d)
  }

  function ReapFn(staleAfter: int, now: int): Job -> Job {
    row => After(row, FailStaleJob(staleAfter, now))
  }

  /** A worker that has pushed goes on with its loop; a route call that has pushed is over. */
  function AfterEnqueue(pc: Pc): Pc {
    if pc.Delaying? then Reaping else Gone
  }

  /** An exception out of `enqueue` reaches the route's handler, or ends the worker. */
  function AfterEnqueueRaised(pc: Pc, error: string): Pc {
    if pc.Created? then EnqueueFailed(pc.job, error) else Gone
  }

  function Apply(s: State, a: Action): State
    requires Refers(s) && Enabled(s, a)
  {
    match a
    case UploadCall(u, at) =>
      AddActor(s.(jobs := s.jobs + [NewRow(u, at)], tally := s.tally + [Tally(0, 0, 0)]), Created(|s.jobs|))
    case RetryCall(j, tenant, at) => Retried(s, j, RetryFailedJob(tenant, at))
    case CancelCall(j, tenant, at) => Write(s, j, CancelPendingJob(tenant, CANCEL_REASON, at))
    case DeleteCall(d, tenant) => Deleted(s, d, tenant)
    case FailUnqueued(w) =>
      Move(Write(s, s.actors[w].job, FailJob(s.actors[w].error, s.clock)), w, Gone)
    case Spawn => AddActor(s, Reaping)
    case Stop(w) => Move(s, w, Gone)
    case Reap(w, staleAfter) => Move(s.(jobs := Map(s.jobs, ReapFn(staleAfter, s.clock))), w, Polling)
    case PopEmpty(w) => Move(s, w, Reaping)
    case PopJunk(w) => Move(s.(queue := s.queue[1..]), w, Reaping)
    case Pop(w) => Move(s.(queue := s.queue[1..]), w, Popped(s.queue[0].job))
    case Start(w) => Started(s, w)
    case Persist(w) =>
      var Running(j, attempts, maxAttempts, _) := s.actors[w];
      Move(StoreDocument(s, j), w, Persisted(j, attempts, maxAttempts, |s.docs|))
    case Complete(w) =>
      Move(Write(s, s.actors[w].job, CompleteJob(s.actors[w].doc, s.clock)), w, Reaping)
    case HandleError(w) => Handled(s, w)
    case Enqueue(w) => Move(Push(s, s.actors[w].job), w, AfterEnqueue(s.actors[w]))
    case NoRawFile(w) =>
      var Running(j, attempts, maxAttempts, _) := s.actors[w];
      Move(s, w, Handling(j, attempts, maxAttempts, NO_RAW_FILE_ERROR))
    case AttemptFails(w, error) =>
      var Running(j, attempts, maxAttempts, _) := s.actors[w];
      Move(s, w, Handling(j, attempts, maxAttempts, error))
    case EnqueueRaises(w, pushed, error) =>
      Move(if pushed then Push(s, s.actors[w].job) else s, w, AfterEnqueueRaised(s.actors[w], error))
    case PersistUnacknowledged(w, error) =>
      var Running(j, attempts, maxAttempts, _) := s.actors[w];
      Move(StoreDocument(s, j), w, Handling(j, attempts, maxAttempts, error))
    case CompleteFails(w, error) =>
      var Persisted(j, attempts, maxAttempts, _) := s.actors[w];
      Move(s, w, Handling(j, attempts, maxAttempts, error))
    case CompleteRefused(w) =>
      var Persisted(j, attempts, maxAttempts, _) := s.actors[w];
      Move(s, w, Handling(j, attempts, maxAttempts, FOREIGN_KEY_ERROR))
    case CompleteUnacknowledged(w, error) =>
      var Persisted(j, attempts, maxAttempts, d) := s.actors[w];
      Move(Write(s, j, CompleteJob(d, s.clock)), w, Handling(j, attempts, maxAttempts, error))
    case Crash(w) => Move(s, w, Gone)
    case Tick(seconds) => s.(clock := s.clock + seconds)
    case PushJunk(raw) => s.(queue := s.queue + [Junk(raw)])
  }

  lemma RefersKept(s: State, a: Action)
    requires Refers(s) && Enabled(s, a)
    ensures Refers(Apply(s, a))
    ensures |Apply(s, a).jobs| == |s.jobs| + (if a.UploadCall? then 1 else 0)
  {
    RowsAndQueueRefer(s, a);
    ActorsRefer(s, a);
  }

  lemma RowsAndQueueRefer(s: State, a: Action)
    requires Refers(s) && Enabled(s, a)
    ensures var s' := Apply(s, a);
            && |s'.jobs| == |s.jobs| + (if a.UploadCall? then 1 else 0) && |s'.tally| == |s'.jobs|
            && (forall i :: 0 <= i < |s'.queue| && s'.queue[i].JobPayload? ==> s'.queue[i].job < |s'.jobs|)
            && (forall d :: 0 <= d < |s'.docs| ==> s'.docs[d].job < |s'.jobs|)
  {
  }

  lemma ActorsRefer(s: State, a: Action)
    requires Refers(s) && Enabled(s, a)
    ensures var s' := Apply(s, a);
            forall i :: 0 <= i < |s'.actors| ==> PcRefers(s'.actors[i], |s'.jobs|, s'.docs)
  {
  }

  function Next(s: State, a: Action): (s': State)
    requires Refers(s) && Enabled(s, a)
    ensures Refers(s')
  {
    RefersKept(s, a);
    Apply(s, a)
  }

  // ---------------------------------------------------------------- effects

  /** The statement that an action runs against row `j`, if any. */
  function WriteTo(s: State, a: Action, j: JobId): Option<RowWrite>
    requires Refers(s) && Enabled(s, a)
  {
    match a
    case RetryCall(k, tenant, at) => if j == k then Some(RetryFailedJob(tenant, at)) else None
    case CancelCall(k, tenant, at) =>
      if j == k then Some(CancelPendingJob(tenant, CANCEL_REASON, at)) else None
    case Reap(_, staleAfter) => Some(FailStaleJob(staleAfter, s.clock))
    case FailUnqueued(w) =>
      if j == s.actors[w].job then Some(FailJob(s.actors[w].error, s.clock)) else None
    case Start(w) => if j == s.actors[w].job then Some(StartAttempt(s.clock)) else None
    case Complete(w) =>
      if j == s.actors[w].job then Some(CompleteJob(s.actors[w].doc, s.clock)) else None
    case CompleteUnacknowledged(w, _) =>
      if j == s.actors[w].job then Some(CompleteJob(s.actors[w].doc, s.clock)) else None
    case HandleError(w) =>
      if j != s.actors[w].job then None
      else if s.actors[w].attempts >= s.actors[w].maxAttempts then Some(FailJob(s.actors[w].error, s.clock))
      else Some(MarkRetryPending(s.actors[w].error, s.clock))
    case _ => None
  }

  /** A row changes only by the statement run against it, or by losing its document. */
  lemma RowEffect(s: State, a: Action, j: JobId)
    requires Refers(s) && Enabled(s, a) && j < |s.jobs|
    ensures |s.jobs| <= |Next(s, a).jobs|
    ensures WriteTo(s, a, j).Some? ==> Next(s, a).jobs[j] == After(s.jobs[j], WriteTo(s, a, j).value)
    ensures WriteTo(s, a, j).None? ==>
              Next(s, a).jobs[j] == s.jobs[j] ||
              (a.DeleteCall? && Next(s, a).jobs[j] == Unlinked(s.jobs[j], a.doc))
    ensures WriteTo(s, a, j).Some? ==>
              var w := WriteTo(s, a, j).value;
              w.now <= s.clock && (w.now < s.clock ==> w.CancelPendingJob? || w.RetryFailedJob?)
    ensures s.clock <= Next(s, a).clock
  {
  }

  // ---------------------------------------------------------------- assumptions

  predicate Busy(pc: Pc) {
    pc.Running? || pc.Persisted? || pc.Handling?
  }

  /** (T) The reaper fails no job that a live worker is working on. */
  ghost predicate ReaperSparesLive(s: State, a: Action) {
    a.Reap? ==>
      forall i :: 0 <= i < |s.actors| && Busy(s.actors[i]) && s.actors[i].job < |s.jobs| ==>
        !Matches(s.jobs[s.actors[i].job], FailStaleJob(a.staleAfter, s.clock))
  }

  /** (E) A call that raises has had no effect. */
  ghost predicate RaisingIsNoEffect(s: State, a: Action) {
    (a.EnqueueRaises? ==> !a.pushed) && !a.PersistUnacknowledged? && !a.CompleteUnacknowledged?
  }

  /** (C) No actor is lost half way: no crash, and no exception out of the error handler. */
  ghost predicate NoCrash(s: State, a: Action) {
    && (a.Crash? ==> a.actor < |s.actors| && s.actors[a.actor].Gone?)
    && (a.EnqueueRaises? ==> a.actor < |s.actors| && s.actors[a.actor].Created?)
  }

  /** (P) Nothing goes wrong between storing the document and completing the job. */
  ghost predicate NoLateFailure(s: State, a: Action) {
    && !a.CompleteFails? && !a.CompleteRefused? && !a.CompleteUnacknowledged? && !a.PersistUnacknowledged?
    && (a.DeleteCall? ==> forall i :: 0 <= i < |s.actors| && s.actors[i].Persisted? ==> s.actors[i].doc != a.doc)
  }

  /** (S) No cancel closes a row in a transaction older than the row's last attempt. */
  ghost predicate FreshCancel(s: State, a: Action) {
    a.CancelCall? && a.job < |s.jobs| && s.jobs[a.job].startedAt.Some?
    && Matches(s.jobs[a.job], CancelPendingJob(a.tenant, CANCEL_REASON, a.at)) ==>
      s.jobs[a.job].startedAt.value <= a.at
  }

  /** (W) One worker loop at a time. */
  ghost predicate OneWorker(s: State, a: Action) {
    a.Spawn? ==> forall i :: 0 <= i < |s.actors| ==> !InWorkerLoop(s.actors[i])
  }

  predicate InWorkerLoop(pc: Pc) {
    !pc.Created? && !pc.EnqueueFailed? && !pc.Gone?
  }

  datatype Assumptions = Assumptions(t: bool, e: bool, c: bool, p: bool, s: bool, w: bool)

  const NOTHING := Assumptions(false, false, false, false, false, false)

  ghost predicate Allows(asm: Assumptions, s: State, a: Action) {
    && (asm.t ==> ReaperSparesLive(s, a))
    && (asm.e ==> RaisingIsNoEffect(s, a))
    && (asm.c ==> NoCrash(s, a))
    && (asm.p ==> NoLateFailure(s, a))
    && (asm.s ==> FreshCancel(s, a))
    && (asm.w ==> OneWorker(s, a))
  }

  /** `run` can be taken from `s`, every action under the assumptions. */
  ghost predicate IsRun(s: State, run: seq<Action>, asm: Assumptions)
    requires Refers(s)
    decreases |run|
  {
    run == [] ||
    (Enabled(s, run[0]) && Allows(asm, s, run[0]) && IsRun(Next(s, run[0]), run[1..], asm))
  }

  ghost function Exec(s: State, run: seq<Action>): (s': State)
    requires Refers(s) && IsRun(s, run, NOTHING)
    ensures Refers(s')
    decreases |run|
  {
    if run == [] then s else Exec(Next(s, run[0]), run[1..])
  }

  /** Assuming less allows more runs. */
  lemma {:induction false} Weaken(s: State, run: seq<Action>, asm: Assumptions)
    requires Refers(s) && IsRun(s, run, asm)
    ensures IsRun(s, run, NOTHING)
    decreases |run|
  {
    if run == [] {
    } else {
      Weaken(Next(s, run[0]), run[1..], asm);
    }
  }
}

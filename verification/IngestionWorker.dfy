/**
 The worker loop as it is written (app/workers/ingestion_worker.py,
 app/services/upload_jobs.py), on the shared tables and the shared list, with every
 other worker and request free to act between any two of its statements.  Its steps are
 actions of the protocol, so what is proved of every run is proved of this code.
 */
module IngestionWorker {
  import opened Prelude
  import opened JobRows
  import opened JobProtocol
  import opened ProtocolTokens
  import opened ProtocolRefinement
  import opened ProtocolPaths
  import opened ProtocolPointers
  import opened JobRepository
  import opened Deployment

  const ABORTED_ERROR := "current transaction is aborted"

  /**
   An exception between storing and completing: before the statement of `complete_job` has a
   connection, or in its transaction, which then refuses every further statement, even if
   its commit had taken effect.
   */
  datatype LateFault =
    | NoFault
    | NoConnection(error: string)
    | InStatement(error: string)
    | CommitUnacknowledged(error: string)

  /**
   How one attempt turns out; `StoresUnacknowledged` is a commit of `persist_ingestion` that
   took effect and raised.
   */
  datatype Outcome = Raises(error: string) | StoresUnacknowledged(error: string) | Stores(late: LateFault)

  /** What one round of the loop meets; `requeue` is how pushing a job for retry fails, if it does. */
  datatype Round = Round(staleAfter: int, outcome: Outcome, requeue: Option<PushFault>)

  /** What the assumptions leave possible: (P) nothing after storing, (C) no escape, (E) no effect of what raised. */
  ghost predicate Possible(asm: Assumptions, round: Round) {
    && round.staleAfter > 0
    && (asm.e || asm.p ==> !round.outcome.StoresUnacknowledged?)
    && (round.outcome.Stores? ==> PossibleLate(asm, round.outcome.late))
    && PossiblePush(asm, round.requeue)
  }

  ghost predicate PossibleLate(asm: Assumptions, late: LateFault) {
    && (asm.e ==> !late.CommitUnacknowledged?)
    && (asm.p ==> late.NoFault?)
    && (asm.c ==> late.NoFault? || late.NoConnection?)
  }

  ghost predicate PossiblePush(asm: Assumptions, requeue: Option<PushFault>) {
    requeue.Some? ==> !asm.c && (asm.e ==> !requeue.value.pushed)
  }

  /** (C) means no escape only if (P) keeps the document: without it `complete_job` aborts its transaction. */
  ghost predicate Consistent(asm: Assumptions) {
    (asm.t ==> asm.w) && (asm.c ==> asm.p)
  }

  ghost predicate Stands(s: State, me: ActorId, pc: Pc) {
    me < |s.actors| && s.actors[me] == pc
  }

  // ---------------------------------------------------------------- what paths guarantee

  lemma {:induction false} RunKeepsOneLoop(s: State, run: seq<Action>, asm: Assumptions)
    requires Refers(s) && Loops(s) <= 1 && asm.w && IsRun(s, run, asm) && IsRun(s, run, NOTHING)
    requires asm.c ==> ProcessingIsWorked(s)
    ensures Loops(Exec(s, run)) <= 1 && (asm.c ==> ProcessingIsWorked(Exec(s, run)))
    decreases |run|
  {
    if run == [] {
    } else {
      LoopsKept(s, run[0]);
      if asm.c {
        ProcessingIsWorkedKept(s, run[0]);
      }
      RunKeepsOneLoop(Next(s, run[0]), run[1..], asm);
    }
  }

  /** With (W) and (C), wherever a run has got to, the reaper would find nothing. */
  lemma NothingToReap(asm: Assumptions, p: Path, s: State, w: ActorId, staleAfter: int)
    requires At(asm, p, s) && asm.w && asm.c && Refers(s) && Enabled(s, Reap(w, staleAfter))
    ensures Sum(s.jobs, StaleFn(staleAfter, s.clock)) == 0
  {
    SoundIsRun(asm, p);
    RunKeepsOneLoop(InitialState(), p.actions, asm);
    NobodyProcessing(s, Reap(w, staleAfter));
    NoneStale(s.jobs, staleAfter, s.clock);
  }

  /**
   The deployment with one worker loop, in the terms of its tables: wherever the run that
   they record has got to, every job is conserved.  (T) is not assumed.
   */
  lemma OneWorkerConserves(asm: Assumptions, p: Path, s: State, j: JobId)
    requires At(asm, p, s) && asm.w && asm.e && Refers(s) && j < |s.jobs|
    ensures Conserved(s, j, asm)
  {
    SoundIsRun(asm, p);
    OneWorkerDischargesT(InitialState(), p.actions, asm);
    TokensFromStart(p.actions, asm.(t := true), j);
  }

  /** With (W), wherever a run has got to, the reaper spares every live worker: (T) comes for free. */
  lemma ReapingIsSafe(asm: Assumptions, p: Path, s: State, w: ActorId, staleAfter: int)
    requires At(asm, p, s) && asm.w && Refers(s) && Enabled(s, Reap(w, staleAfter))
    ensures ReaperSparesLive(s, Reap(w, staleAfter))
  {
    SoundIsRun(asm, p);
    RunKeepsOneLoop(InitialState(), p.actions, asm);
    forall i | 0 <= i < |s.actors| ensures !Busy(s.actors[i]) {
      NobodyBusyAtReap(s, Reap(w, staleAfter), i);
    }
  }

  lemma PathPersistedLive(asm: Assumptions, p: Path, s: State, w: ActorId)
    requires At(asm, p, s) && asm.p && Refers(s) && w < |s.actors| && s.actors[w].Persisted?
    ensures PcRefers(s.actors[w], |s.jobs|, s.docs) && s.docs[s.actors[w].doc].live
  {
    SoundIsRun(asm, p);
    RunKeepsPersistedLive(InitialState(), p.actions, asm);
  }

  lemma PersistedNames(asm: Assumptions, p: Path, s: State, w: ActorId)
    requires At(asm, p, s) && w < |s.actors| && s.actors[w].Persisted?
    ensures s.actors[w].job < |s.jobs| && s.actors[w].doc < |s.docs|
  {
    AtRefers(asm, p, s);
    assert PcRefers(s.actors[w], |s.jobs|, s.docs);
  }

  // ---------------------------------------------------------------- what a worker does

  /**
   What an attempt comes to besides what its round has in store.  Neither is the worker's
   choice: a missing file and a document that is gone are conditions of the actions.
   */
  datatype Tried = NoFile | AsInStore | DocumentGone

  /** What a poll comes to; `last` is whether the attempt was the last one allowed. */
  datatype Polled = NothingQueued | JunkQueued | NotStartable | Worked(tried: Tried, last: bool)

  predicate Fits(tried: Tried, outcome: Outcome) {
    tried.DocumentGone? ==> outcome.Stores? && (outcome.late.NoFault? || outcome.late.CommitUnacknowledged?)
  }

  function ErrorOf(tried: Tried, outcome: Outcome): Option<string> {
    match tried
    case NoFile => Some(NO_RAW_FILE_ERROR)
    case DocumentGone => Some(FOREIGN_KEY_ERROR)
    case AsInStore =>
      match outcome
      case Raises(e) => Some(e)
      case StoresUnacknowledged(e) => Some(e)
      case Stores(late) => if late.NoFault? then None else Some(late.error)
  }

  /** The attempt leaves its transaction aborted. */
  predicate Aborts(tried: Tried, outcome: Outcome) {
    tried.DocumentGone? ||
    (tried.AsInStore? && outcome.Stores? && (outcome.late.InStatement? || outcome.late.CommitUnacknowledged?))
  }

  /** The worker's own actions from the start of an attempt to its success, or to the error to be handled. */
  function AttemptActions(me: ActorId, tried: Tried, outcome: Outcome): seq<Action> {
    match tried
    case NoFile => [NoRawFile(me)]
    case DocumentGone => [Persist(me), CompleteRefused(me)]
    case AsInStore =>
      match outcome
      case Raises(e) => [AttemptFails(me, e)]
      case StoresUnacknowledged(e) => [PersistUnacknowledged(me, e)]
      case Stores(late) => [Persist(me), CompleteAction(me, late)]
  }

  function CompleteAction(me: ActorId, late: LateFault): Action {
    match late
    case NoFault => Action.Complete(me)
    case NoConnection(e) => CompleteFails(me, e)
    case InStatement(e) => CompleteFails(me, e)
    case CommitUnacknowledged(e) => CompleteUnacknowledged(me, e)
  }

  /** The error handler: in an aborted transaction, at the last attempt, or before it. */
  function HandlerActions(me: ActorId, last: bool, aborted: bool, requeue: Option<PushFault>): seq<Action> {
    if aborted then [Crash(me)]
    else if last then [HandleError(me)]
    else [HandleError(me), RequeueAction(me, requeue)]
  }

  function RequeueAction(me: ActorId, requeue: Option<PushFault>): Action {
    if requeue == None then Action.Enqueue(me) else EnqueueRaises(me, requeue.value.pushed, requeue.value.error)
  }

  /** The exception that escapes from it. */
  function HandlerEscape(last: bool, aborted: bool, requeue: Option<PushFault>): Option<string> {
    if aborted then Some(ABORTED_ERROR)
    else if last || requeue == None then None
    else Some(requeue.value.error)
  }

  function WorkActions(me: ActorId, tried: Tried, last: bool, round: Round): seq<Action> {
    AttemptActions(me, tried, round.outcome)
    + (if ErrorOf(tried, round.outcome) == None then []
       else HandlerActions(me, last, Aborts(tried, round.outcome), round.requeue))
  }

  function WorkEscape(tried: Tried, last: bool, round: Round): Option<string> {
    if ErrorOf(tried, round.outcome) == None then None
    else HandlerEscape(last, Aborts(tried, round.outcome), round.requeue)
  }

  function PollActions(me: ActorId, polled: Polled, round: Round): seq<Action> {
    match polled
    case NothingQueued => [PopEmpty(me)]
    case JunkQueued => [PopJunk(me)]
    case NotStartable => [Pop(me), Action.Start(me)]
    case Worked(tried, last) => [Pop(me), Action.Start(me)] + WorkActions(me, tried, last, round)
  }

  function PollEscape(polled: Polled, round: Round): Option<string> {
    if polled.Worked? then WorkEscape(polled.tried, polled.last, round) else None
  }

  predicate Plausible(polled: Polled, round: Round) {
    polled.Worked? ==> Fits(polled.tried, round.outcome)
  }

  /** All rounds: each reaps, then polls; only the last one's exception escapes. */
  function LoopActions(me: ActorId, rounds: seq<Round>, history: seq<Polled>): seq<Action>
    requires |history| <= |rounds|
  {
    if history == [] then []
    else
      var n := |history| - 1;
      LoopActions(me, rounds, history[..n])
      + RoundActions(me, history[n], rounds[n])
  }

  function RoundActions(me: ActorId, polled: Polled, round: Round): seq<Action> {
    [Reap(me, round.staleAfter)] + PollActions(me, polled, round)
  }

  /** What the rounds came to: none escapes but the last, and all were run if it does not. */
  ghost predicate Chronicle(rounds: seq<Round>, history: seq<Polled>, escaped: Option<string>) {
    && |history| <= |rounds| && (escaped == None ==> |history| == |rounds|) && Escaping(rounds, history, escaped)
  }

  ghost predicate Escaping(rounds: seq<Round>, history: seq<Polled>, escaped: Option<string>)
    requires |history| <= |rounds|
  {
    && (forall i :: 0 <= i < |history| ==> Plausible(history[i], rounds[i]))
    && (forall i :: 0 <= i < |history| - 1 ==> PollEscape(history[i], rounds[i]) == None)
    && escaped == if history == [] then None else PollEscape(history[|history| - 1], rounds[|history| - 1])
  }

  lemma OneRoundMore(rounds: seq<Round>, history: seq<Polled>, polled: Polled)
    requires |history| < |rounds| && Escaping(rounds, history, None) && Plausible(polled, rounds[|history|])
    ensures Escaping(rounds, history + [polled], PollEscape(polled, rounds[|history|]))
  {
    forall i | 0 <= i < |history| ensures PollEscape(history[i], rounds[i]) == None {
    }
  }

  lemma LoopMore(me: ActorId, rounds: seq<Round>, history: seq<Polled>, polled: Polled)
    requires |history| < |rounds|
    ensures LoopActions(me, rounds, history + [polled]) ==
            LoopActions(me, rounds, history) + RoundActions(me, polled, rounds[|history|])
  {
    assert (history + [polled])[..|history|] == history;
  }

  lemma Regrouped<T>(a: seq<T>, b: seq<T>, c: seq<T>)
    ensures a + b + c == a + (b + c)
  {
  }

  // ---------------------------------------------------------------- the code

  /**
   One worker, for as many rounds as it is given; an exception out of the error handler
   ends it.  `history` is what came of each round, and fixes what the worker did, whatever
   others did in between.  It may run beside any number of others; (T) may only be assumed
   of it when it is the only one, because it reaps.
   */
  method RunWorker(db: Database, queue: RedisIngestionQueue, mon: Monitor, ghost me: ActorId, rounds: seq<Round>)
    returns (reaped: int, escaped: Option<string>, ghost history: seq<Polled>)
    requires mon.Follows(db, queue) && Stands(mon.state, me, Reaping) && Consistent(mon.asm)
    requires forall i :: 0 <= i < |rounds| ==> Possible(mon.asm, rounds[i])
    modifies db, queue, mon
    ensures mon.Follows(db, queue) && Stands(mon.state, me, if escaped == None then Reaping else Gone)
    ensures Continues(old(mon.path), mon.path)
    ensures Chronicle(rounds, history, escaped)
    ensures mon.did(me) == old(mon.did)(me) + LoopActions(me, rounds, history)
    ensures reaped == mon.reaps(me) - old(mon.reaps)(me)
    ensures mon.asm.c ==> escaped == None
    ensures mon.asm.w && mon.asm.c ==> reaped == 0
  {
    var repo := new IngestionJobRepository(db);
    reaped, escaped, history := 0, None, [];
    var i := 0;
    while i < |rounds| && escaped == None
      invariant 0 <= i <= |rounds| && |history| == i
      invariant mon.Follows(db, queue) && Stands(mon.state, me, if escaped == None then Reaping else Gone)
      invariant Continues(old(mon.path), mon.path)
      invariant mon.did(me) == old(mon.did)(me) + LoopActions(me, rounds, history)
      invariant Escaping(rounds, history, escaped)
      invariant reaped == mon.reaps(me) - old(mon.reaps)(me)
      invariant mon.asm.c ==> escaped == None
      invariant mon.asm.w && mon.asm.c ==> reaped == 0
    {
      var failed;
      ghost var polled;
      failed, escaped, polled := OneRound(db, queue, mon, repo, me, rounds[i]);
      OneRoundMore(rounds, history, polled);
      LoopMore(me, rounds, history, polled);
      Regrouped(old(mon.did)(me), LoopActions(me, rounds, history), RoundActions(me, polled, rounds[i]));
      reaped, history, i := reaped + failed, history + [polled], i + 1;
    }
  }

  /** The body of the loop: reap, poll, process. */
  method OneRound(db: Database, queue: RedisIngestionQueue, mon: Monitor, repo: IngestionJobRepository,
                  ghost me: ActorId, round: Round)
    returns (failed: int, escaped: Option<string>, ghost polled: Polled)
    requires repo.db == db && mon.Follows(db, queue) && Stands(mon.state, me, Reaping)
    requires Possible(mon.asm, round) && Consistent(mon.asm)
    modifies db, queue, mon
    ensures mon.Follows(db, queue) && Stands(mon.state, me, if escaped == None then Reaping else Gone)
    ensures Continues(old(mon.path), mon.path)
    ensures mon.did(me) == old(mon.did)(me) + RoundActions(me, polled, round)
    ensures Plausible(polled, round) && escaped == PollEscape(polled, round)
    ensures failed == mon.reaps(me) - old(mon.reaps)(me)
    ensures mon.asm.c ==> escaped == None
    ensures mon.asm.w && mon.asm.c ==> failed == 0
  {
    Interfere(db, queue, mon, me);
    failed := MarkStaleJobsFailed(db, queue, mon, repo, me, round.staleAfter);
    Interfere(db, queue, mon, me);
    escaped, polled := PollAndProcess(db, queue, mon, repo, me, round);
    Regrouped(old(mon.did)(me), [Reap(me, round.staleAfter)], PollActions(me, polled, round));
  }

  method PollAndProcess(db: Database, queue: RedisIngestionQueue, mon: Monitor, repo: IngestionJobRepository,
                        ghost me: ActorId, round: Round)
    returns (escaped: Option<string>, ghost polled: Polled)
    requires repo.db == db && mon.Follows(db, queue) && Stands(mon.state, me, Polling)
    requires Possible(mon.asm, round) && Consistent(mon.asm)
    modifies db, queue, mon
    ensures mon.Follows(db, queue) && Stands(mon.state, me, if escaped == None then Reaping else Gone)
    ensures Continues(old(mon.path), mon.path)
    ensures mon.did(me) == old(mon.did)(me) + PollActions(me, polled, round)
    ensures Plausible(polled, round) && escaped == PollEscape(polled, round)
    ensures polled.NothingQueued? <==> old(queue.payloads) == []
    ensures polled.JunkQueued? <==> old(queue.payloads) != [] && old(queue.payloads)[0].Junk?
    ensures mon.reaps(me) == old(mon.reaps)(me)
    ensures mon.asm.c ==> escaped == None
  {
    escaped, polled := None, if queue.payloads == [] then NothingQueued else JunkQueued;
    var job := Poll(db, queue, mon, me);
    if job.Some? {
      Interfere(db, queue, mon, me);
      escaped, polled := ProcessQueuedUploadJob(db, queue, mon, repo, me, job.value, round);
      Regrouped(old(mon.did)(me), [Pop(me)], StartedActions(me, polled, round));
    }
  }

  /** What a worker does with a job it has popped. */
  function StartedActions(me: ActorId, polled: Polled, round: Round): seq<Action> {
    [Action.Start(me)] + if polled.Worked? then WorkActions(me, polled.tried, polled.last, round) else []
  }

  method MarkStaleJobsFailed(db: Database, queue: RedisIngestionQueue, mon: Monitor, repo: IngestionJobRepository,
                             ghost me: ActorId, staleAfter: int)
    returns (failed: int)
    requires repo.db == db && mon.Follows(db, queue) && Stands(mon.state, me, Reaping)
    requires staleAfter > 0 && (mon.asm.t ==> mon.asm.w)
    modifies db, mon
    ensures mon.Follows(db, queue) && Refers(old(mon.state)) && mon.state == Next(old(mon.state), Reap(me, staleAfter))
    ensures mon.path.actions == old(mon.path).actions + [Reap(me, staleAfter)]
    ensures mon.did(me) == old(mon.did)(me) + [Reap(me, staleAfter)] && Continues(old(mon.path), mon.path)
    ensures failed == Sum(old(db.jobs), StaleFn(staleAfter, old(db.clock)))
    ensures failed == mon.reaps(me) - old(mon.reaps)(me)
    ensures mon.asm.w && mon.asm.c ==> failed == 0
  {
    AtRefers(mon.asm, mon.path, mon.state);
    if mon.asm.w {
      ReapingIsSafe(mon.asm, mon.path, mon.state, me, staleAfter);
      if mon.asm.c {
        NothingToReap(mon.asm, mon.path, mon.state, me, staleAfter);
      }
    }
    failed := repo.FailStaleProcessingJobs(staleAfter);
    mon.Take(Reap(me, staleAfter));
  }

  method Poll(db: Database, queue: RedisIngestionQueue, mon: Monitor, ghost me: ActorId) returns (job: Option<JobId>)
    requires mon.Follows(db, queue) && Stands(mon.state, me, Polling)
    modifies queue, mon
    ensures mon.Follows(db, queue) && Stands(mon.state, me, if job.Some? then Popped(job.value) else Reaping)
    ensures job == if old(queue.payloads) != [] && old(queue.payloads)[0].JobPayload?
                   then Some(old(queue.payloads)[0].job) else None
    ensures var step := if job.Some? then Pop(me) else if old(queue.payloads) == [] then PopEmpty(me) else PopJunk(me);
            mon.path.actions == old(mon.path).actions + [step] && mon.did(me) == old(mon.did)(me) + [step]
    ensures mon.reaps(me) == old(mon.reaps)(me) && Continues(old(mon.path), mon.path)
  {
    ghost var empty := queue.payloads == [];
    job := queue.Dequeue();
    if job.Some? {
      mon.Take(Pop(me));
    } else {
      mon.Take(if empty then PopEmpty(me) else PopJunk(me));
    }
  }

  /** One popped job. */
  method ProcessQueuedUploadJob(db: Database, queue: RedisIngestionQueue, mon: Monitor, repo: IngestionJobRepository,
                                ghost me: ActorId, j: JobId, round: Round)
    returns (escaped: Option<string>, ghost polled: Polled)
    requires repo.db == db && mon.Follows(db, queue) && Stands(mon.state, me, Popped(j))
    requires Possible(mon.asm, round) && Consistent(mon.asm)
    modifies db, queue, mon
    ensures mon.Follows(db, queue) && Stands(mon.state, me, if escaped == None then Reaping else Gone)
    ensures mon.did(me) == old(mon.did)(me) + StartedActions(me, polled, round)
    ensures Plausible(polled, round) && escaped == PollEscape(polled, round)
    ensures if j < |old(db.jobs)| && Matches(old(db.jobs)[j], StartAttempt(old(db.clock)))
            then && polled.Worked? && polled.last == (old(db.jobs)[j].attempts + 1 >= old(db.jobs)[j].maxAttempts)
                 && (polled.tried.NoFile? <==> old(db.jobs)[j].rawPath == None || old(db.jobs)[j].rawPath == Some(""))
            else polled.NotStartable?
    ensures mon.reaps(me) == old(mon.reaps)(me)
    ensures mon.asm.c ==> escaped == None
    ensures Continues(old(mon.path), mon.path)
  {
    var job := BeginAttempt(db, queue, mon, repo, me, j);
    if job == None {
      escaped, polled := None, NotStartable;
      return;
    }
    Interfere(db, queue, mon, me);
    ghost var tried;
    escaped, tried := AttemptOrHandle(db, queue, mon, repo, me, j, job.value, round);
    polled := Worked(tried, job.value.attempts >= job.value.maxAttempts);
    Regrouped(old(mon.did)(me), [Action.Start(me)], WorkActions(me, tried, polled.last, round));
  }

  /** The `try` and its `except`. */
  method AttemptOrHandle(db: Database, queue: RedisIngestionQueue, mon: Monitor, repo: IngestionJobRepository,
                         ghost me: ActorId, j: JobId, job: Job, round: Round)
    returns (escaped: Option<string>, ghost tried: Tried)
    requires repo.db == db && mon.Follows(db, queue) && Possible(mon.asm, round) && Consistent(mon.asm)
    requires Stands(mon.state, me, Running(j, job.attempts, job.maxAttempts, HasRawFile(job)))
    modifies db, queue, mon
    ensures mon.Follows(db, queue) && Stands(mon.state, me, if escaped == None then Reaping else Gone)
    ensures Fits(tried, round.outcome) && (tried.NoFile? <==> !HasRawFile(job))
    ensures mon.did(me) == old(mon.did)(me) + WorkActions(me, tried, job.attempts >= job.maxAttempts, round)
    ensures escaped == WorkEscape(tried, job.attempts >= job.maxAttempts, round)
    ensures mon.reaps(me) == old(mon.reaps)(me)
    ensures mon.asm.c ==> escaped == None
    ensures Continues(old(mon.path), mon.path)
  {
    var error, aborted;
    error, aborted, tried := Attempt(db, queue, mon, repo, me, j, job, round);
    escaped := None;
    if error.Some? {
      Interfere(db, queue, mon, me);
      escaped := HandleUploadJobError(db, queue, mon, repo, me, j, job.attempts, job.maxAttempts, error.value,
                                      aborted, round.requeue);
      Regrouped(old(mon.did)(me), AttemptActions(me, tried, round.outcome),
                HandlerActions(me, job.attempts >= job.maxAttempts, aborted, round.requeue));
    }
  }

  method BeginAttempt(db: Database, queue: RedisIngestionQueue, mon: Monitor, repo: IngestionJobRepository,
                      ghost me: ActorId, j: JobId)
    returns (job: Option<Job>)
    requires repo.db == db && mon.Follows(db, queue) && Stands(mon.state, me, Popped(j))
    modifies db, mon
    ensures mon.Follows(db, queue)
    ensures mon.path.actions == old(mon.path).actions + [Action.Start(me)] && Continues(old(mon.path), mon.path)
    ensures mon.did(me) == old(mon.did)(me) + [Action.Start(me)]
    ensures mon.reaps(me) == old(mon.reaps)(me)
    ensures job.Some? <==> j < |old(db.jobs)| && Matches(old(db.jobs)[j], StartAttempt(db.clock))
    ensures job == None ==> Stands(mon.state, me, Reaping)
    ensures job.Some? ==>
              && Stands(mon.state, me, Running(j, job.value.attempts, job.value.maxAttempts, HasRawFile(job.value)))
              && job.value == Assigned(old(db.jobs)[j], StartAttempt(db.clock))
              && j < |db.jobs| && db.jobs[j] == job.value
  {
    job := repo.StartAttempt(j);
    mon.Take(Action.Start(me));
  }

  /** The body of the `try`: the exception it ends with, if any, and whether it left a transaction aborted. */
  method Attempt(db: Database, queue: RedisIngestionQueue, mon: Monitor, repo: IngestionJobRepository,
                 ghost me: ActorId, j: JobId, job: Job, round: Round)
    returns (error: Option<string>, aborted: bool, ghost tried: Tried)
    requires repo.db == db && mon.Follows(db, queue) && Possible(mon.asm, round) && Consistent(mon.asm)
    requires Stands(mon.state, me, Running(j, job.attempts, job.maxAttempts, HasRawFile(job)))
    modifies db, queue, mon
    ensures mon.Follows(db, queue)
    ensures Continues(old(mon.path), mon.path)
    ensures Fits(tried, round.outcome) && (tried.NoFile? <==> !HasRawFile(job))
    ensures mon.did(me) == old(mon.did)(me) + AttemptActions(me, tried, round.outcome)
    ensures error == ErrorOf(tried, round.outcome) && aborted == Aborts(tried, round.outcome)
    ensures mon.reaps(me) == old(mon.reaps)(me)
    ensures Stands(mon.state, me,
                   if error == None then Reaping else Handling(j, job.attempts, job.maxAttempts, error.value))
    ensures error == None ==> j < |db.jobs| && db.jobs[j].status == Completed && db.jobs[j].documentId.Some?
    ensures !HasRawFile(job) ==> error == Some("Arquivo bruto do upload nao esta disponivel para o worker.")
    ensures mon.asm.c ==> !aborted
  {
    if !HasRawFile(job) {
      error, aborted, tried := Some(NO_RAW_FILE_ERROR), false, NoFile;
      mon.Take(NoRawFile(me));
    } else if round.outcome.Raises? {
      error := Some(round.outcome.error);
      aborted, tried := false, AsInStore;
      mon.Take(AttemptFails(me, error.value));
    } else if round.outcome.StoresUnacknowledged? {
      error := Some(round.outcome.error);
      aborted, tried := false, AsInStore;
      db.docs := db.docs + [Doc(j, true)];
      mon.Take(PersistUnacknowledged(me, error.value));
    } else {
      error, aborted, tried := StoreAndComplete(db, queue, mon, repo, me, j, job, round);
    }
  }

  method StoreAndComplete(db: Database, queue: RedisIngestionQueue, mon: Monitor, repo: IngestionJobRepository,
                          ghost me: ActorId, j: JobId, job: Job, round: Round)
    returns (error: Option<string>, aborted: bool, ghost tried: Tried)
    requires repo.db == db && mon.Follows(db, queue) && Possible(mon.asm, round) && Consistent(mon.asm)
    requires Stands(mon.state, me, Running(j, job.attempts, job.maxAttempts, true)) && round.outcome.Stores?
    modifies db, queue, mon
    ensures mon.Follows(db, queue)
    ensures Continues(old(mon.path), mon.path)
    ensures Fits(tried, round.outcome) && !tried.NoFile?
    ensures mon.did(me) == old(mon.did)(me) + AttemptActions(me, tried, round.outcome)
    ensures error == ErrorOf(tried, round.outcome) && aborted == Aborts(tried, round.outcome)
    ensures mon.reaps(me) == old(mon.reaps)(me)
    ensures Stands(mon.state, me,
                   if error == None then Reaping else Handling(j, job.attempts, job.maxAttempts, error.value))
    ensures error == None ==> j < |db.jobs| && db.jobs[j].status == Completed && db.jobs[j].documentId.Some?
    ensures mon.asm.c ==> !aborted
  {
    var doc := StoreDocument(db, queue, mon, me, j);
    Interfere(db, queue, mon, me);
    if mon.asm.p {
      AtRefers(mon.asm, mon.path, mon.state);
      PathPersistedLive(mon.asm, mon.path, mon.state, me);
    }
    error, aborted, tried := Complete(db, queue, mon, repo, me, j, doc, round.outcome.late);
    Regrouped(old(mon.did)(me), [Persist(me)], [CompleteOrRefused(me, tried, round.outcome.late)]);
  }

  function CompleteOrRefused(me: ActorId, tried: Tried, late: LateFault): Action {
    if tried.DocumentGone? then CompleteRefused(me) else CompleteAction(me, late)
  }

  /** `persist_ingestion`, as far as the protocol sees it: one new document of the job. */
  method StoreDocument(db: Database, queue: RedisIngestionQueue, mon: Monitor, ghost me: ActorId, j: JobId)
    returns (doc: DocId)
    requires mon.Follows(db, queue) && me < |mon.state.actors| && mon.state.actors[me].Running?
    requires mon.state.actors[me].job == j && mon.state.actors[me].hasFile
    modifies db`docs, mon
    ensures mon.Follows(db, queue)
    ensures doc == |old(db.docs)| && db.docs == old(db.docs) + [Doc(j, true)]
    ensures var pc := old(mon.state.actors[me]);
            Stands(mon.state, me, Persisted(j, pc.attempts, pc.maxAttempts, doc))
    ensures mon.path.actions == old(mon.path).actions + [Persist(me)] && Continues(old(mon.path), mon.path)
    ensures mon.did(me) == old(mon.did)(me) + [Persist(me)]
    ensures mon.reaps(me) == old(mon.reaps)(me)
  {
    doc := |db.docs|;
    db.docs := db.docs + [Doc(j, true)];
    mon.Take(Persist(me));
  }

  /** `complete_job`, which may raise in its transaction, for one because the document is gone. */
  method Complete(db: Database, queue: RedisIngestionQueue, mon: Monitor, repo: IngestionJobRepository,
                  ghost me: ActorId, j: JobId, doc: DocId, late: LateFault)
    returns (error: Option<string>, aborted: bool, ghost tried: Tried)
    requires repo.db == db && mon.Follows(db, queue) && me < |mon.state.actors|
    requires mon.state.actors[me].Persisted? && mon.state.actors[me].job == j && mon.state.actors[me].doc == doc
    requires PossibleLate(mon.asm, late) && Consistent(mon.asm)
    requires mon.asm.p ==> doc < |db.docs| && db.docs[doc].live
    modifies db, mon
    ensures mon.Follows(db, queue)
    ensures Continues(old(mon.path), mon.path)
    ensures Fits(tried, Stores(late)) && !tried.NoFile?
    ensures tried.DocumentGone? <==>
              (late.NoFault? || late.CommitUnacknowledged?) && !(doc < |old(db.docs)| && old(db.docs)[doc].live)
    ensures mon.did(me) == old(mon.did)(me) + [CompleteOrRefused(me, tried, late)]
    ensures mon.reaps(me) == old(mon.reaps)(me)
    ensures error == ErrorOf(tried, Stores(late)) && aborted == Aborts(tried, Stores(late))
    ensures var pc := old(mon.state.actors[me]);
            Stands(mon.state, me,
                   if error == None then Reaping else Handling(j, pc.attempts, pc.maxAttempts, error.value))
    ensures if tried.AsInStore? && (late.NoFault? || late.CommitUnacknowledged?)
            then j < |db.jobs| && db.jobs[j].status == Completed && db.jobs[j].documentId == Some(doc)
            else db.jobs == old(db.jobs)
    ensures mon.asm.c ==> !aborted
  {
    tried := AsInStore;
    if late.NoConnection? || late.InStatement? {
      error, aborted := Some(late.error), late.InStatement?;
      mon.Take(CompleteFails(me, late.error));
    } else {
      error, aborted, tried := CompleteInTransaction(db, queue, mon, repo, me, j, doc, late);
    }
  }

  method CompleteInTransaction(db: Database, queue: RedisIngestionQueue, mon: Monitor, repo: IngestionJobRepository,
                               ghost me: ActorId, j: JobId, doc: DocId, late: LateFault)
    returns (error: Option<string>, aborted: bool, ghost tried: Tried)
    requires repo.db == db && mon.Follows(db, queue) && me < |mon.state.actors|
    requires mon.state.actors[me].Persisted? && mon.state.actors[me].job == j && mon.state.actors[me].doc == doc
    requires (late.NoFault? || late.CommitUnacknowledged?) && PossibleLate(mon.asm, late) && Consistent(mon.asm)
    requires mon.asm.p ==> doc < |db.docs| && db.docs[doc].live
    modifies db, mon
    ensures mon.Follows(db, queue)
    ensures Continues(old(mon.path), mon.path)
    ensures tried == if doc < |old(db.docs)| && old(db.docs)[doc].live then AsInStore else DocumentGone
    ensures mon.did(me) == old(mon.did)(me) + [CompleteOrRefused(me, tried, late)]
    ensures mon.reaps(me) == old(mon.reaps)(me)
    ensures error == ErrorOf(tried, Stores(late)) && aborted == Aborts(tried, Stores(late))
    ensures var pc := old(mon.state.actors[me]);
            Stands(mon.state, me,
                   if error == None then Reaping else Handling(j, pc.attempts, pc.maxAttempts, error.value))
    ensures if tried.AsInStore?
            then j < |db.jobs| && db.jobs[j].status == Completed && db.jobs[j].documentId == Some(doc)
            else db.jobs == old(db.jobs)
  {
    PersistedNames(mon.asm, mon.path, mon.state, me);
    var completed := repo.CompleteJob(j, doc);
    if completed.Err? {
      error, aborted, tried := Some(completed.error), true, DocumentGone;
      Refused(db, queue, mon, me);
    } else {
      tried, aborted := AsInStore, late.CommitUnacknowledged?;
      error := if aborted then Some(late.error) else None;
      Written(db, queue, mon, me, CompleteAction(me, late));
    }
  }

  /** The statement has run against the row of the job; the action catches up. */
  ghost method Written(db: Database, queue: RedisIngestionQueue, mon: Monitor, me: ActorId, a: Action)
    requires At(mon.asm, mon.path, mon.state) && mon.Logged()
    requires me < |mon.state.actors| && mon.state.actors[me].Persisted? && Enabled(mon.state, a)
    requires a == Action.Complete(me) || (a.CompleteUnacknowledged? && a.actor == me && !mon.asm.e && !mon.asm.p)
    requires mon.state.docs == db.docs && mon.state.clock == db.clock && mon.state.queue == queue.payloads
    requires var pc := mon.state.actors[me];
             pc.job < |mon.state.jobs|
             && db.jobs == mon.state.jobs[pc.job := After(mon.state.jobs[pc.job], RowWrite.CompleteJob(pc.doc, db.clock))]
    modifies mon
    ensures mon.Follows(db, queue) && Continues(old(mon.path), mon.path)
    ensures mon.did(me) == old(mon.did)(me) + [a] && mon.reaps(me) == old(mon.reaps)(me)
    ensures var pc := old(mon.state.actors[me]);
            Stands(mon.state, me,
                   if a.Complete? then Reaping else Handling(pc.job, pc.attempts, pc.maxAttempts, a.error))
  {
    mon.Take(a);
  }

  ghost method Refused(db: Database, queue: RedisIngestionQueue, mon: Monitor, me: ActorId)
    requires mon.Follows(db, queue) && me < |mon.state.actors| && mon.state.actors[me].Persisted?
    requires !(mon.state.actors[me].doc < |db.docs| && db.docs[mon.state.actors[me].doc].live) && !mon.asm.p
    modifies mon
    ensures mon.Follows(db, queue) && Continues(old(mon.path), mon.path)
    ensures mon.did(me) == old(mon.did)(me) + [CompleteRefused(me)] && mon.reaps(me) == old(mon.reaps)(me)
    ensures var pc := old(mon.state.actors[me]);
            Stands(mon.state, me, Handling(pc.job, pc.attempts, pc.maxAttempts, FOREIGN_KEY_ERROR))
  {
    mon.Take(CompleteRefused(me));
  }

  /** In an aborted transaction its first statement raises, whichever of the two it is, and the worker ends. */
  method HandleUploadJobError(db: Database, queue: RedisIngestionQueue, mon: Monitor, repo: IngestionJobRepository,
                              ghost me: ActorId, j: JobId, attempts: int, maxAttempts: int, error: string,
                              aborted: bool, requeue: Option<PushFault>)
    returns (escaped: Option<string>)
    requires repo.db == db && mon.Follows(db, queue) && PossiblePush(mon.asm, requeue) && (mon.asm.c ==> !aborted)
    requires Stands(mon.state, me, Handling(j, attempts, maxAttempts, error))
    modifies db, queue, mon
    ensures mon.Follows(db, queue) && Stands(mon.state, me, if escaped == None then Reaping else Gone)
    ensures mon.did(me) == old(mon.did)(me) + HandlerActions(me, attempts >= maxAttempts, aborted, requeue)
    ensures mon.reaps(me) == old(mon.reaps)(me)
    ensures escaped == HandlerEscape(attempts >= maxAttempts, aborted, requeue)
    ensures mon.asm.c ==> escaped == None
    ensures aborted ==> db.jobs == old(db.jobs)
    ensures !aborted && attempts >= maxAttempts ==>
              && j < |db.jobs| && db.jobs[j].status == Failed
              && db.jobs[j].errorMessage == db.jobs[j].lastError == Some(error)
    ensures !aborted && attempts < maxAttempts && escaped == None ==>
              queue.payloads != [] && queue.payloads[|queue.payloads| - 1] == JobPayload(j)
    ensures Continues(old(mon.path), mon.path)
  {
    if aborted {
      escaped := Some(ABORTED_ERROR);
      mon.Take(Crash(me));
      return;
    }
    if attempts >= maxAttempts {
      escaped := None;
      FailLastAttempt(db, queue, mon, repo, me, j, error);
    } else {
      escaped := RetryLater(db, queue, mon, repo, me, j, error, requeue);
    }
  }

  method RetryLater(db: Database, queue: RedisIngestionQueue, mon: Monitor, repo: IngestionJobRepository,
                    ghost me: ActorId, j: JobId, error: string, requeue: Option<PushFault>)
    returns (escaped: Option<string>)
    requires repo.db == db && mon.Follows(db, queue) && me < |mon.state.actors| && mon.state.actors[me].Handling?
    requires mon.state.actors[me].job == j && mon.state.actors[me].error == error && PossiblePush(mon.asm, requeue)
    requires mon.state.actors[me].attempts < mon.state.actors[me].maxAttempts
    modifies db, queue, mon
    ensures mon.Follows(db, queue) && Stands(mon.state, me, if escaped == None then Reaping else Gone)
    ensures mon.did(me) == old(mon.did)(me) + [HandleError(me), RequeueAction(me, requeue)]
    ensures mon.reaps(me) == old(mon.reaps)(me)
    ensures escaped == if requeue == None then None else Some(requeue.value.error)
    ensures escaped == None ==> queue.payloads != [] && queue.payloads[|queue.payloads| - 1] == JobPayload(j)
    ensures Continues(old(mon.path), mon.path)
  {
    var _ := MarkForRetry(db, queue, mon, repo, me, j, error);
    Interfere(db, queue, mon, me);
    escaped := Requeue(db, queue, mon, me, j, requeue);
  }

  method FailLastAttempt(db: Database, queue: RedisIngestionQueue, mon: Monitor, repo: IngestionJobRepository,
                         ghost me: ActorId, j: JobId, error: string)
    requires repo.db == db && mon.Follows(db, queue) && me < |mon.state.actors| && mon.state.actors[me].Handling?
    requires mon.state.actors[me].job == j && mon.state.actors[me].error == error
    requires mon.state.actors[me].attempts >= mon.state.actors[me].maxAttempts
    modifies db, mon
    ensures mon.Follows(db, queue) && Stands(mon.state, me, Reaping)
    ensures mon.path.actions == old(mon.path).actions + [HandleError(me)] && Continues(old(mon.path), mon.path)
    ensures mon.did(me) == old(mon.did)(me) + [HandleError(me)]
    ensures mon.reaps(me) == old(mon.reaps)(me)
    ensures j < |db.jobs| && db.jobs[j].status == Failed
    ensures db.jobs[j].errorMessage == db.jobs[j].lastError == Some(error)
  {
    AtRefers(mon.asm, mon.path, mon.state);
    assert PcRefers(mon.state.actors[me], |mon.state.jobs|, mon.state.docs);
    var _ := repo.FailJob(j, error);
    mon.Take(HandleError(me));
  }

  method MarkForRetry(db: Database, queue: RedisIngestionQueue, mon: Monitor, repo: IngestionJobRepository,
                      ghost me: ActorId, j: JobId, error: string)
    returns (retried: Option<Job>)
    requires repo.db == db && mon.Follows(db, queue) && me < |mon.state.actors| && mon.state.actors[me].Handling?
    requires mon.state.actors[me].job == j && mon.state.actors[me].error == error
    requires mon.state.actors[me].attempts < mon.state.actors[me].maxAttempts
    modifies db, mon
    ensures mon.Follows(db, queue) && Stands(mon.state, me, Delaying(j))
    ensures mon.path.actions == old(mon.path).actions + [HandleError(me)] && Continues(old(mon.path), mon.path)
    ensures mon.did(me) == old(mon.did)(me) + [HandleError(me)]
    ensures mon.reaps(me) == old(mon.reaps)(me)
    ensures retried.Some? && j < |db.jobs| && db.jobs[j] == retried.value
    ensures db.jobs[j].status == Pending && db.jobs[j].lastError == Some(error)
  {
    AtRefers(mon.asm, mon.path, mon.state);
    assert PcRefers(mon.state.actors[me], |mon.state.jobs|, mon.state.docs);
    retried := repo.MarkRetryPending(j, error);
    mon.Take(HandleError(me));
  }

  /** The push for the next attempt; an exception out of it is caught by nobody. */
  method Requeue(db: Database, queue: RedisIngestionQueue, mon: Monitor, ghost me: ActorId, j: JobId,
                 requeue: Option<PushFault>)
    returns (escaped: Option<string>)
    requires mon.Follows(db, queue) && Stands(mon.state, me, Delaying(j)) && PossiblePush(mon.asm, requeue)
    modifies queue, mon
    ensures mon.Follows(db, queue) && Stands(mon.state, me, if escaped == None then Reaping else Gone)
    ensures escaped == if requeue == None then None else Some(requeue.value.error)
    ensures escaped == None ==> queue.payloads == old(queue.payloads) + [JobPayload(j)]
    ensures mon.path.actions == old(mon.path).actions + [RequeueAction(me, requeue)] && Continues(old(mon.path), mon.path)
    ensures mon.did(me) == old(mon.did)(me) + [RequeueAction(me, requeue)]
    ensures mon.reaps(me) == old(mon.reaps)(me)
  {
    var pushed := queue.Enqueue(j, requeue);
    if pushed.Ok? {
      mon.Take(Action.Enqueue(me));
      escaped := None;
    } else {
      mon.Take(EnqueueRaises(me, requeue.value.pushed, pushed.error));
      escaped := Some(pushed.error);
    }
  }
}

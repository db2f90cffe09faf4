/**
 The protocol against a machine in which every statement checks the row it writes, and
 the deployment with a single worker loop, for which (T) need not be assumed.
 */
module ProtocolRefinement {
  import opened Prelude
  import opened JobRows
  import opened JobProtocol
  import opened ProtocolBudget
  import opened ProtocolTokens

  // ---------------------------------------------------------------- compare and set

  /**
   The check that `complete_job`, `mark_retry_pending` and `fail_job` do not make: that
   the row is still in the attempt the worker started, or, for the route that could not
   queue a job, that nobody started it.
   */
  predicate GuardHolds(s: State, a: Action)
    requires Refers(s) && Enabled(s, a)
  {
    match a
    case Complete(w) => InAttempt(s.jobs[s.actors[w].job], s.actors[w].attempts)
    case CompleteUnacknowledged(w, _) => InAttempt(s.jobs[s.actors[w].job], s.actors[w].attempts)
    case HandleError(w) => InAttempt(s.jobs[s.actors[w].job], s.actors[w].attempts)
    case FailUnqueued(w) => s.jobs[s.actors[w].job].status in {Pending, Canceled}
    case Start(w) => s.jobs[s.actors[w].job].status != Failed
    case _ => true
  }

  predicate InAttempt(row: Job, attempts: int) {
    row.status == Processing && row.attempts == attempts
  }

  /** The guarded program: a statement whose check fails writes nothing and the actor goes on. */
  function GuardedNext(s: State, a: Action): (s': State)
    requires Refers(s) && Enabled(s, a)
    ensures Refers(s')
  {
    if GuardHolds(s, a) then Next(s, a)
    else
      match a
      case FailUnqueued(w) => Move(s, w, Gone)
      case CompleteUnacknowledged(w, error) =>
        Move(s, w, Handling(s.actors[w].job, s.actors[w].attempts, s.actors[w].maxAttempts, error))
      case Start(w) => Move(s, w, Reaping)
      case Complete(w) => Move(s, w, Reaping)
      case HandleError(w) => Move(s, w, Reaping)
      case _ => s
  }

  ghost predicate IsGuardedRun(s: State, run: seq<Action>)
    requires Refers(s)
    decreases |run|
  {
    run == [] || (Enabled(s, run[0]) && IsGuardedRun(GuardedNext(s, run[0]), run[1..]))
  }

  ghost function GuardedExec(s: State, run: seq<Action>): State
    requires Refers(s) && IsGuardedRun(s, run)
    decreases |run|
  {
    if run == [] then s else GuardedExec(GuardedNext(s, run[0]), run[1..])
  }

  lemma GuardAlwaysHolds(s: State, a: Action)
    requires Refers(s) && Enabled(s, a) && AllOwned(s)
    ensures GuardHolds(s, a)
  {
    if Acting(a).Some? && (Waits(s.actors[a.actor]) || Busy(s.actors[a.actor])) {
      assert PcRefers(s.actors[a.actor], |s.jobs|, s.docs);
      var j := s.actors[a.actor].job;
      assert Owned(s, j);
      WritersOwn(s, a, j);
    }
  }

  /**
   Refinement: on every run that breaks no token, assumptions or not, the program without
   the checks does exactly what the program with the checks does.
   */
  lemma {:induction false} UnbrokenRefinesGuarded(s: State, run: seq<Action>)
    requires Refers(s) && RowsValid(s) && AllOwned(s) && IsRun(s, run, NOTHING) && NoOffence(s, run, false, false)
    ensures IsGuardedRun(s, run)
    ensures GuardedExec(s, run) == Exec(s, run)
    decreases |run|
  {
    if run == [] {
    } else {
      GuardAlwaysHolds(s, run[0]);
      InvariantsIff(s, run[0], false, false);
      RowsKept(s, run[0]);
      UnbrokenRefinesGuarded(Next(s, run[0]), run[1..]);
    }
  }

  /**
   So under (T) and (E) the program without the checks does, on every run and
   for any number of workers, exactly what the program with the checks does.
   */
  lemma UnguardedRefinesGuarded(s: State, run: seq<Action>, asm: Assumptions)
    requires Refers(s) && RowsValid(s) && AllOwned(s) && asm.t && asm.e && IsRun(s, run, asm)
    ensures IsRun(s, run, NOTHING) && IsGuardedRun(s, run)
    ensures GuardedExec(s, run) == Exec(s, run)
  {
    AssumptionsSuffice(s, run, asm, false, false);
    UnbrokenRefinesGuarded(s, run);
  }

  /** The documented life of a job. */
  predicate Edge(before: Status, after: Status) {
    || before == after
    || (before == Pending && after in {Processing, Canceled})
    || (before == Processing && after in {Completed, Failed, Pending})
    || (before == Failed && after == Pending)
  }

  /** Under (T) and (E) a status moves along the documented edges, except exactly when a route fails a job it could not queue. */
  lemma StatusMovesAlongEdges(s: State, a: Action, j: JobId)
    requires Refers(s) && Enabled(s, a) && j < |s.jobs| && AllOwned(s)
    requires ReaperSparesLive(s, a) && RaisingIsNoEffect(s, a)
    ensures j < |Next(s, a).jobs|
    ensures var before, after := s.jobs[j].status, Next(s, a).jobs[j].status;
            && (!Edge(before, after) <==> a.FailUnqueued? && s.actors[a.actor].job == j)
            && (!Edge(before, after) ==> before in {Pending, Canceled} && after == Failed)
            && (before == Completed ==> after == Completed)
  {
    assert Owned(s, j);
    StatusEffect(s, a, j);
    WritersOwn(s, a, j);
  }

  /** The only step that takes a job out of canceled. */
  lemma CanceledLeavesIff(s: State, a: Action, j: JobId)
    requires Refers(s) && Enabled(s, a) && j < |s.jobs| && AllOwned(s) && s.jobs[j].status == Canceled
    requires ReaperSparesLive(s, a) && RaisingIsNoEffect(s, a)
    ensures j < |Next(s, a).jobs|
    ensures Next(s, a).jobs[j].status != Canceled <==> a.FailUnqueued? && s.actors[a.actor].job == j
  {
    StatusMovesAlongEdges(s, a, j);
  }

  /** Completed is final: no later step of any actor takes a job out of it. */
  lemma {:induction false} CompletedForever(s: State, run: seq<Action>, asm: Assumptions, j: JobId)
    requires Refers(s) && RowsValid(s) && AllOwned(s) && asm.t && asm.e && IsRun(s, run, asm)
    requires j < |s.jobs| && s.jobs[j].status == Completed
    ensures IsRun(s, run, NOTHING)
    ensures j < |Exec(s, run).jobs| && Exec(s, run).jobs[j].status == Completed
    decreases |run|
  {
    Weaken(s, run, asm);
    if run == [] {
    } else {
      StatusMovesAlongEdges(s, run[0], j);
      AllOwnedKept(s, run[0]);
      CompletedForever(Next(s, run[0]), run[1..], asm, j);
    }
  }

  // ---------------------------------------------------------------- one worker loop

  function LoopFn(): Pc -> int {
    (pc: Pc) => if InWorkerLoop(pc) then 1 else 0
  }

  function Loops(s: State): int {
    Sum(s.actors, LoopFn())
  }

  lemma {:induction false} NoLoops(actors: seq<Pc>)
    requires forall i :: 0 <= i < |actors| ==> !InWorkerLoop(actors[i])
    ensures Sum(actors, LoopFn()) == 0
  {
    if actors == [] {
    } else {
      NoLoops(actors[1..]);
    }
  }

  lemma LoopsKept(s: State, a: Action)
    requires Refers(s) && Enabled(s, a) && Loops(s) <= 1 && OneWorker(s, a)
    ensures Loops(Next(s, a)) <= 1
  {
    ActorSums(s, a, LoopFn());
    if a.Spawn? {
      NoLoops(s.actors);
    }
  }

  lemma {:induction false} SumOfTwo(actors: seq<Pc>, i: nat, k: nat)
    requires i < k < |actors|
    ensures Sum(actors, LoopFn()) >= LoopFn()(actors[i]) + LoopFn()(actors[k])
  {
    if i == 0 {
      SumAtLeast(actors[1..], k - 1, LoopFn());
    } else {
      SumOfTwo(actors[1..], i - 1, k - 1);
    }
  }

  /** While the only worker reaps, it works on nothing, and there is no other. */
  lemma NobodyBusyAtReap(s: State, a: Action, i: ActorId)
    requires Enabled(s, a) && a.Reap? && Loops(s) <= 1 && i < |s.actors|
    ensures !Busy(s.actors[i])
  {
    if i < a.actor {
      SumOfTwo(s.actors, i, a.actor);
    } else if a.actor < i {
      SumOfTwo(s.actors, a.actor, i);
    }
  }

  /** With one worker loop at a time (T) holds of every run, whatever the stale timeout. */
  lemma {:induction false} OneWorkerDischargesT(s: State, run: seq<Action>, asm: Assumptions)
    requires Refers(s) && Loops(s) <= 1 && asm.w && IsRun(s, run, asm)
    ensures IsRun(s, run, asm.(t := true))
    decreases |run|
  {
    if run == [] {
    } else {
      var a := run[0];
      forall i | 0 <= i < |s.actors| && a.Reap? ensures !Busy(s.actors[i]) {
        NobodyBusyAtReap(s, a, i);
      }
      LoopsKept(s, a);
      OneWorkerDischargesT(Next(s, a), run[1..], asm);
    }
  }

  // ---------------------------------------------------------------- nothing to reap

  /** Every processing row has a worker on it. */
  ghost predicate ProcessingIsWorked(s: State) {
    forall j :: 0 <= j < |s.jobs| && s.jobs[j].status == Processing ==> Working(s, j) >= 1
  }

  /** Without crashes this holds of any number of workers, (T) and (E) or not. */
  lemma ProcessingIsWorkedKept(s: State, a: Action)
    requires Refers(s) && Enabled(s, a) && NoCrash(s, a) && ProcessingIsWorked(s)
    ensures ProcessingIsWorked(Next(s, a))
  {
    var s' := Next(s, a);
    RefersKept(s, a);
    forall j | 0 <= j < |s'.jobs| && s'.jobs[j].status == Processing ensures Working(s', j) >= 1 {
      if j < |s.jobs| {
        WorkingEffect(s, a, j);
        StatusEffect(s, a, j);
        if On(s, a, j) {
          Counted(s, a.actor, j);
        }
      }
    }
  }

  /** What `fail_stale_processing_jobs` returns, over a whole run. */
  ghost function TotalReaped(s: State, run: seq<Action>): int
    requires Refers(s) && IsRun(s, run, NOTHING)
    decreases |run|
  {
    if run == [] then 0
    else
      (if run[0].Reap? then Sum(s.jobs, StaleFn(run[0].staleAfter, s.clock)) else 0)
      + TotalReaped(Next(s, run[0]), run[1..])
  }

  lemma {:induction false} NoneStale(rows: seq<Job>, staleAfter: int, now: int)
    requires forall j :: 0 <= j < |rows| ==> rows[j].status != Processing
    ensures Sum(rows, StaleFn(staleAfter, now)) == 0
  {
    if rows == [] {
    } else {
      NoneStale(rows[1..], staleAfter, now);
    }
  }

  /** At the reap point of the only worker, no row is processing. */
  lemma NobodyProcessing(s: State, a: Action)
    requires Enabled(s, a) && a.Reap? && Loops(s) <= 1 && ProcessingIsWorked(s)
    ensures forall j :: 0 <= j < |s.jobs| ==> s.jobs[j].status != Processing
  {
    forall j | 0 <= j < |s.jobs| ensures s.jobs[j].status != Processing {
      if s.jobs[j].status == Processing {
        var i := SumPositive(s.actors, BusyFn(j));
        NobodyBusyAtReap(s, a, i);
      }
    }
  }

  /** The repository's deployment: one worker that does not crash never reaps a job. */
  lemma {:induction false} OneWorkerReapsNothing(s: State, run: seq<Action>, asm: Assumptions)
    requires Refers(s) && Loops(s) <= 1 && ProcessingIsWorked(s) && asm.w && asm.c && IsRun(s, run, asm)
    ensures IsRun(s, run, NOTHING) && TotalReaped(s, run) == 0
    decreases |run|
  {
    Weaken(s, run, asm);
    if run == [] {
    } else {
      var a := run[0];
      if a.Reap? {
        NobodyProcessing(s, a);
        NoneStale(s.jobs, a.staleAfter, s.clock);
      }
      LoopsKept(s, a);
      ProcessingIsWorkedKept(s, a);
      OneWorkerReapsNothing(Next(s, a), run[1..], asm);
    }
  }
}

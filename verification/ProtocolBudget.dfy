/**
 What holds of every run of the protocol, whatever crashes, raises or is reaped: the
 shape of the rows, the attempt budget, and a bound on all the work ever done.
 */
module ProtocolBudget {
  import opened Prelude
  import opened JobRows
  import opened JobProtocol

  // ---------------------------------------------------------------- row shape

  ghost predicate RowsValid(s: State) {
    forall j :: 0 <= j < |s.jobs| ==> Shape(s.jobs[j]) && StampedBy(s.jobs[j], s.clock)
  }

  ghost predicate RowsOrdered(s: State) {
    forall j :: 0 <= j < |s.jobs| ==> TimesOrdered(s.jobs[j])
  }

  lemma RowsKept(s: State, a: Action)
    requires Refers(s) && Enabled(s, a) && RowsValid(s)
    ensures RowsValid(Next(s, a))
    ensures RowsOrdered(s) && FreshCancel(s, a) ==> RowsOrdered(Next(s, a))
  {
    var s' := Next(s, a);
    forall j | 0 <= j < |s'.jobs|
      ensures Shape(s'.jobs[j]) && StampedBy(s'.jobs[j], s'.clock)
      ensures RowsOrdered(s) && FreshCancel(s, a) ==> TimesOrdered(s'.jobs[j])
    {
      if j < |s.jobs| {
        RowKept(s, a, j);
      } else {
        RefersKept(s, a);
        NewRowShape(a.upload, a.at);
      }
    }
  }

  lemma RowKept(s: State, a: Action, j: JobId)
    requires Refers(s) && Enabled(s, a) && j < |s.jobs| && Shape(s.jobs[j]) && StampedBy(s.jobs[j], s.clock)
    ensures |s.jobs| <= |Next(s, a).jobs|
    ensures Shape(Next(s, a).jobs[j]) && StampedBy(Next(s, a).jobs[j], Next(s, a).clock)
    ensures TimesOrdered(s.jobs[j]) && FreshCancel(s, a) ==> TimesOrdered(Next(s, a).jobs[j])
  {
    RowEffect(s, a, j);
    var w := WriteTo(s, a, j);
    if w.Some? {
      ShapeKept(s.jobs[j], w.value, s.clock);
      if Matches(s.jobs[j], w.value) {
        TimesOrderedIff(s.jobs[j], w.value);
        assert w.value.CancelPendingJob? ==> a == CancelCall(j, w.value.tenant, w.value.now);
      }
    }
  }

  /** In every reachable state every row has its shape; no assumption is needed. */
  lemma {:induction false} RowShapeAlways(s: State, run: seq<Action>)
    requires Refers(s) && RowsValid(s) && IsRun(s, run, NOTHING)
    ensures RowsValid(Exec(s, run))
    decreases |run|
  {
    if run == [] {
    } else {
      RowsKept(s, run[0]);
      RowShapeAlways(Next(s, run[0]), run[1..]);
    }
  }

  /** The exact step: times stay ordered unless a cancel closes a row that was started after it began. */
  lemma TimesKeptIff(s: State, a: Action)
    requires Refers(s) && Enabled(s, a) && RowsValid(s) && RowsOrdered(s)
    ensures RowsOrdered(Next(s, a)) <==> FreshCancel(s, a)
  {
    RowsKept(s, a);
    if !FreshCancel(s, a) {
      RowEffect(s, a, a.job);
      assert !TimesOrdered(Next(s, a).jobs[a.job]);
    }
  }

  ghost predicate OrderedThroughout(s: State, run: seq<Action>)
    requires Refers(s) && IsRun(s, run, NOTHING)
    decreases |run|
  {
    RowsOrdered(s) && (run == [] || OrderedThroughout(Next(s, run[0]), run[1..]))
  }

  /** And of whole runs: `started_at <= finished_at` in all their states exactly when (S) holds of all their steps. */
  lemma {:induction false} TimesOrderedThroughoutIff(s: State, run: seq<Action>)
    requires Refers(s) && RowsValid(s) && RowsOrdered(s) && IsRun(s, run, NOTHING)
    ensures OrderedThroughout(s, run) <==> IsRun(s, run, NOTHING.(s := true))
    decreases |run|
  {
    if run == [] {
    } else {
      TimesKeptIff(s, run[0]);
      RowsKept(s, run[0]);
      if FreshCancel(s, run[0]) {
        TimesOrderedThroughoutIff(Next(s, run[0]), run[1..]);
      }
    }
  }

  /** With fresh cancels, `started_at <= finished_at` wherever both are set. */
  lemma {:induction false} RowTimesAlways(s: State, run: seq<Action>, asm: Assumptions)
    requires Refers(s) && RowsValid(s) && RowsOrdered(s) && asm.s && IsRun(s, run, asm)
    ensures IsRun(s, run, NOTHING) && RowsOrdered(Exec(s, run))
    decreases |run|
  {
    Weaken(s, run, asm);
    if run == [] {
    } else {
      RowsKept(s, run[0]);
      RowTimesAlways(Next(s, run[0]), run[1..], asm);
    }
  }

  // ---------------------------------------------------------------- attempt budget

  function RunningFn(j: JobId): Pc -> int {
    (pc: Pc) => if pc.Running? && pc.job == j then 1 else 0
  }

  function RunningOn(s: State, j: JobId): int {
    Sum(s.actors, RunningFn(j))
  }

  /** Starts are paid for by the row's attempts and by manual retries; documents by starts. */
  ghost predicate Budget(s: State, j: JobId)
    requires Refers(s) && j < |s.jobs|
  {
    && 0 <= s.tally[j].retries && 0 <= s.tally[j].indexed
    && s.tally[j].starts <= s.jobs[j].maxAttempts * s.tally[j].retries + s.jobs[j].attempts
    && s.tally[j].indexed + RunningOn(s, j) <= s.tally[j].starts
  }

  ghost predicate Budgets(s: State)
    requires Refers(s)
  {
    forall j :: 0 <= j < |s.jobs| ==> Budget(s, j)
  }

  /** No actor refers to a job that does not exist yet. */
  lemma {:induction false} NobodyOn(actors: seq<Pc>, jobs: nat, docs: seq<Doc>, weight: Pc -> int)
    requires forall i :: 0 <= i < |actors| ==> PcRefers(actors[i], jobs, docs)
    requires forall pc: Pc :: PcRefers(pc, jobs, docs) ==> weight(pc) == 0
    ensures Sum(actors, weight) == 0
  {
    if actors == [] {
    } else {
      assert PcRefers(actors[0], jobs, docs);
      NobodyOn(actors[1..], jobs, docs, weight);
    }
  }

  /** How the number of actors with a property changes when one of them moves or joins. */
  lemma ActorSums(s: State, a: Action, weight: Pc -> int)
    requires Refers(s) && Enabled(s, a)
    ensures var s' := Apply(s, a);
            && |s.actors| <= |s'.actors| <= |s.actors| + 1
            && (|s'.actors| == |s.actors| + 1 ==>
                  Sum(s'.actors, weight) == Sum(s.actors, weight) + weight(s'.actors[|s.actors|]))
            && (|s'.actors| == |s.actors| && Acting(a).Some? ==>
                  && Acting(a).value < |s.actors|
                  && Sum(s'.actors, weight) ==
                     Sum(s.actors, weight) - weight(s.actors[Acting(a).value]) + weight(s'.actors[Acting(a).value]))
            && (|s'.actors| == |s.actors| && Acting(a).None? ==> s'.actors == s.actors)
  {
    var s' := Apply(s, a);
    if |s'.actors| == |s.actors| + 1 {
      SumAppend(s.actors, s'.actors[|s.actors|], weight);
      assert s'.actors == s.actors + [s'.actors[|s.actors|]];
    } else if Acting(a).Some? {
      var w := Acting(a).value;
      SumUpdate(s.actors, w, s'.actors[w], weight);
      assert s'.actors == s.actors[w := s'.actors[w]];
    }
  }

  lemma OneActorMoves(s: State, a: Action)
    requires Refers(s) && Enabled(s, a) && Acting(a).Some?
    ensures |Next(s, a).actors| == |s.actors|
    ensures Next(s, a).actors == s.actors[a.actor := Next(s, a).actors[a.actor]]
  {
  }

  /** The actor that takes the action, if it is not a request, a spawn or the clock. */
  function Acting(a: Action): Option<ActorId> {
    match a
    case UploadCall(_, _) => None
    case RetryCall(_, _, _) => None
    case CancelCall(_, _, _) => None
    case DeleteCall(_, _) => None
    case Spawn => None
    case Tick(_) => None
    case PushJunk(_) => None
    case _ => Some(a.actor)
  }

  predicate StartsOn(s: State, a: Action, j: JobId)
    requires Refers(s) && Enabled(s, a)
  {
    a.Start? && s.actors[a.actor].job == j && Matches(s.jobs[j], StartAttempt(s.clock))
  }

  predicate RetriesOn(s: State, a: Action, j: JobId)
    requires Refers(s) && Enabled(s, a)
  {
    a.RetryCall? && a.job == j && Matches(s.jobs[j], RetryFailedJob(a.tenant, a.at))
  }

  predicate StoresFor(s: State, a: Action, j: JobId)
    requires Refers(s) && Enabled(s, a)
  {
    (a.Persist? || a.PersistUnacknowledged?) && s.actors[a.actor].job == j
  }

  lemma TallyEffect(s: State, a: Action, j: JobId)
    requires Refers(s) && Enabled(s, a) && j < |s.jobs|
    ensures |s.tally| <= |Next(s, a).tally|
    ensures Next(s, a).tally[j] ==
            Tally(s.tally[j].starts + (if StartsOn(s, a, j) then 1 else 0),
                  s.tally[j].retries + (if RetriesOn(s, a, j) then 1 else 0),
                  s.tally[j].indexed + (if StoresFor(s, a, j) then 1 else 0))
  {
  }

  lemma RunningEffect(s: State, a: Action, j: JobId)
    requires Refers(s) && Enabled(s, a) && j < |s.jobs|
    ensures RunningOn(Next(s, a), j) <=
            RunningOn(s, j) + (if StartsOn(s, a, j) then 1 else 0) - (if StoresFor(s, a, j) then 1 else 0)
  {
    ActorSums(s, a, RunningFn(j));
    if Acting(a).None? {
      RequestsRunNothing(s, a, j);
    } else {
      OneActorMoves(s, a);
      RunningOfPc(s, a, j);
    }
  }

  lemma RequestsRunNothing(s: State, a: Action, j: JobId)
    requires Refers(s) && Enabled(s, a) && Acting(a).None? && j < |s.jobs|
    ensures !StartsOn(s, a, j) && !StoresFor(s, a, j)
    ensures var actors := Next(s, a).actors;
            |actors| > |s.actors| ==> RunningFn(j)(actors[|s.actors|]) == 0
  {
  }

  lemma RunningOfPc(s: State, a: Action, j: JobId)
    requires Refers(s) && Enabled(s, a) && Acting(a).Some? && j < |s.jobs|
    ensures a.actor < |Next(s, a).actors|
    ensures RunningFn(j)(Next(s, a).actors[a.actor]) <=
            RunningFn(j)(s.actors[a.actor])
            + (if StartsOn(s, a, j) then 1 else 0) - (if StoresFor(s, a, j) then 1 else 0)
  {
  }

  /** `attempts` moves by one for a start, to zero for a retry; `max_attempts` never moves. */
  lemma AttemptsEffect(s: State, a: Action, j: JobId)
    requires Refers(s) && Enabled(s, a) && j < |s.jobs|
    ensures |s.jobs| <= |Next(s, a).jobs|
    ensures Next(s, a).jobs[j].maxAttempts == s.jobs[j].maxAttempts
    ensures Next(s, a).jobs[j].attempts ==
            if StartsOn(s, a, j) then s.jobs[j].attempts + 1 else if RetriesOn(s, a, j) then 0 else s.jobs[j].attempts
  {
    RowEffect(s, a, j);
  }

  lemma OneMoreRetry(m: int, retries: int)
    ensures m * (retries + 1) == m * retries + m
  {
  }

  lemma BudgetKept(s: State, a: Action, j: JobId)
    requires Refers(s) && Enabled(s, a) && RowsValid(s) && j < |s.jobs| && Budget(s, j)
    ensures j < |Next(s, a).jobs| && Budget(Next(s, a), j)
  {
    TallyEffect(s, a, j);
    RunningEffect(s, a, j);
    AttemptsEffect(s, a, j);
    OneMoreRetry(s.jobs[j].maxAttempts, s.tally[j].retries);
    assert Shape(s.jobs[j]);
  }

  lemma BudgetOfNew(s: State, u: Upload, at: int)
    requires Refers(s) && Enabled(s, UploadCall(u, at))
    ensures Budget(Next(s, UploadCall(u, at)), |s.jobs|)
  {
    var j := |s.jobs|;
    ActorSums(s, UploadCall(u, at), RunningFn(j));
    NobodyOn(s.actors, j, s.docs, RunningFn(j));
  }

  lemma BudgetsKept(s: State, a: Action)
    requires Refers(s) && Enabled(s, a) && RowsValid(s) && Budgets(s)
    ensures Budgets(Next(s, a))
  {
    var s' := Next(s, a);
    RefersKept(s, a);
    forall j | 0 <= j < |s'.jobs| ensures Budget(s', j) {
      if j < |s.jobs| {
        BudgetKept(s, a, j);
      } else {
        BudgetOfNew(s, a.upload, a.at);
      }
    }
  }

  /**
   However many workers crash, race or are reaped: a job is never attempted more than
   `max_attempts` times per manual retry (and once more that many), and never has more
   documents stored for it than attempts started.
   */
  lemma {:induction false} AttemptBudget(s: State, run: seq<Action>)
    requires Refers(s) && RowsValid(s) && Budgets(s) && IsRun(s, run, NOTHING)
    ensures RowsValid(Exec(s, run)) && Budgets(Exec(s, run))
    decreases |run|
  {
    if run == [] {
    } else {
      RowsKept(s, run[0]);
      BudgetsKept(s, run[0]);
      AttemptBudget(Next(s, run[0]), run[1..]);
    }
  }

  // ---------------------------------------------------------------- all work is bounded

  function WeightFn(): Pc -> int {
    (pc: Pc) =>
      match pc
      case Running(_, _, _, _) => 6
      case Persisted(_, _, _, _) => 5
      case Handling(_, _, _, _) => 4
      case Created(_) => 4
      case Delaying(_) => 3
      case Popped(_) => 1
      case EnqueueFailed(_, _) => 1
      case _ => 0
  }

  function RemainingFn(): Job -> int {
    (row: Job) => row.maxAttempts - row.attempts
  }

  /** Work that the state can still do without a new upload, a manual retry or more junk. */
  function Energy(s: State): int {
    6 * Sum(s.jobs, RemainingFn()) + Load(s)
  }

  /** Every action of a worker or of a route after its first, except the two idle ones. */
  predicate Works(a: Action) {
    match a
    case UploadCall(_, _) => false
    case RetryCall(_, _, _) => false
    case CancelCall(_, _, _) => false
    case DeleteCall(_, _) => false
    case Spawn => false
    case Stop(_) => false
    case Reap(_, _) => false
    case PopEmpty(_) => false
    case Crash(_) => false
    case Tick(_) => false
    case PushJunk(_) => false
    case _ => true
  }

  /** The work an upload, an accepted manual retry or a piece of junk can cause. */
  function Credit(s: State, a: Action): int
    requires Refers(s) && Enabled(s, a)
  {
    match a
    case UploadCall(u, _) => 6 * u.maxAttempts + 4
    case RetryCall(j, tenant, at) =>
      if Matches(s.jobs[j], RetryFailedJob(tenant, at)) then 6 * s.jobs[j].maxAttempts + 4 else 0
    case PushJunk(_) => 2
    case _ => 0
  }

  lemma {:induction false} SumMapped<T>(s: seq<T>, f: T -> T, weight: T -> int)
    requires forall x :: weight(f(x)) == weight(x)
    ensures Sum(Map(s, f), weight) == Sum(s, weight)
  {
    if s == [] {
    } else {
      SumMapped(s[1..], f, weight);
      assert Map(s, f)[1..] == Map(s[1..], f);
    }
  }

  predicate Starts(s: State, a: Action)
    requires Refers(s) && Enabled(s, a)
  {
    a.Start? && StartsOn(s, a, s.actors[a.actor].job)
  }

  predicate Retries(s: State, a: Action)
    requires Refers(s) && Enabled(s, a)
  {
    a.RetryCall? && RetriesOn(s, a, a.job)
  }

  /** The attempts left over all rows change only by a start, a retry or an upload. */
  lemma RemainingStep(s: State, a: Action)
    requires Refers(s) && Enabled(s, a) && RowsValid(s)
    ensures Sum(Next(s, a).jobs, RemainingFn()) <=
            Sum(s.jobs, RemainingFn())
            + (if a.UploadCall? then a.upload.maxAttempts else 0)
            + (if Retries(s, a) then s.jobs[a.job].maxAttempts else 0)
            - (if Starts(s, a) then 1 else 0)
  {
    if a.UploadCall? || a.DeleteCall? || a.Reap? {
      RemainingOfMany(s, a);
    } else {
      OneRowTouched(s, a);
      if Touched(s, a).Some? {
        RemainingOfRow(s, a, Next(s, a).jobs, Touched(s, a).value);
      }
    }
  }

  lemma RemainingOfMany(s: State, a: Action)
    requires Refers(s) && Enabled(s, a) && (a.UploadCall? || a.DeleteCall? || a.Reap?)
    ensures Sum(Next(s, a).jobs, RemainingFn()) ==
            Sum(s.jobs, RemainingFn()) + (if a.UploadCall? then a.upload.maxAttempts else 0)
  {
    match a
    case UploadCall(u, at) =>
      SumAppend(s.jobs, NewRow(u, at), RemainingFn());
    case DeleteCall(d, tenant) =>
      SumMapped(s.jobs, UnlinkFn(d), RemainingFn());
    case Reap(w, staleAfter) =>
      SumMapped(s.jobs, ReapFn(staleAfter, s.clock), RemainingFn());
  }

  lemma RemainingOfRow(s: State, a: Action, after: seq<Job>, j: JobId)
    requires Refers(s) && Enabled(s, a) && RowsValid(s) && j < |s.jobs| && after == Next(s, a).jobs
    requires Touched(s, a) == Some(j) && |after| == |s.jobs| && after == s.jobs[j := after[j]]
    ensures Sum(after, RemainingFn()) <=
            Sum(s.jobs, RemainingFn())
            + (if Retries(s, a) then s.jobs[a.job].maxAttempts else 0)
            - (if Starts(s, a) then 1 else 0)
  {
    assert Shape(s.jobs[j]);
    AttemptsEffect(s, a, j);
    SumUpdate(s.jobs, j, after[j], RemainingFn());
  }

  /** The one row an action may write, if it is of that kind. */
  function Touched(s: State, a: Action): (j: Option<JobId>)
    requires Refers(s) && Enabled(s, a)
    ensures j.Some? ==> j.value < |s.jobs|
  {
    match a
    case RetryCall(j, _, _) => Some(j)
    case CancelCall(j, _, _) => Some(j)
    case FailUnqueued(w) => Some(s.actors[w].job)
    case Start(w) => Some(s.actors[w].job)
    case Complete(w) => Some(s.actors[w].job)
    case HandleError(w) => Some(s.actors[w].job)
    case CompleteUnacknowledged(w, _) => Some(s.actors[w].job)
    case _ => None
  }

  lemma OneRowTouched(s: State, a: Action)
    requires Refers(s) && Enabled(s, a) && !a.UploadCall? && !a.DeleteCall? && !a.Reap?
    ensures var s', j := Next(s, a), Touched(s, a);
            |s'.jobs| == |s.jobs| &&
            s'.jobs == if j.Some? then s.jobs[j.value := s'.jobs[j.value]] else s.jobs
  {
    var s' := Next(s, a);
    RefersKept(s, a);
    forall j | 0 <= j < |s.jobs| ensures Touched(s, a) == Some(j) || s'.jobs[j] == s.jobs[j] {
      RowEffect(s, a, j);
    }
  }

  /** What the queue and the actors still have to do, the attempts left aside. */
  function Load(s: State): int {
    2 * |s.queue| + Sum(s.actors, WeightFn())
  }

  lemma LoadStep(s: State, a: Action)
    requires Refers(s) && Enabled(s, a)
    ensures Load(Next(s, a)) + (if Works(a) then 1 else 0) <=
            Load(s) + (if a.UploadCall? || Retries(s, a) then 4 else 0) + (if a.PushJunk? then 2 else 0)
            + (if Starts(s, a) then 6 else 0)
  {
    ActorSums(s, a, WeightFn());
    if Acting(a).None? {
      LoadOfRequest(s, a);
    } else {
      LoadOfActor(s, a);
    }
  }

  lemma LoadOfRequest(s: State, a: Action)
    requires Refers(s) && Enabled(s, a) && Acting(a).None?
    ensures var s' := Next(s, a);
            && !Works(a) && !Starts(s, a) && |s'.queue| == |s.queue| + (if a.PushJunk? then 1 else 0)
            && (|s'.actors| > |s.actors| ==>
                  WeightFn()(s'.actors[|s.actors|]) <= if a.UploadCall? || Retries(s, a) then 4 else 0)
  {
  }

  lemma LoadOfActor(s: State, a: Action)
    requires Refers(s) && Enabled(s, a) && Acting(a).Some?
    ensures var s', w := Next(s, a), Acting(a).value;
            && |s'.actors| == |s.actors| && w < |s.actors|
            && 2 * |s'.queue| + WeightFn()(s'.actors[w]) + (if Works(a) then 1 else 0) <=
               2 * |s.queue| + WeightFn()(s.actors[w]) + (if Starts(s, a) then 6 else 0)
  {
  }

  lemma EnergyStep(s: State, a: Action)
    requires Refers(s) && Enabled(s, a) && RowsValid(s)
    ensures Energy(Next(s, a)) + (if Works(a) then 1 else 0) <= Energy(s) + Credit(s, a)
  {
    RemainingStep(s, a);
    LoadStep(s, a);
  }

  lemma EnergyNonNegative(s: State)
    requires RowsValid(s)
    ensures Energy(s) >= 0
  {
    forall row: Job <- s.jobs ensures RemainingFn()(row) >= 0 {
      var j :| 0 <= j < |s.jobs| && s.jobs[j] == row;
    }
    SumNonNegative(s.jobs, RemainingFn());
    SumNonNegative(s.actors, WeightFn());
  }

  ghost function WorkDone(run: seq<Action>): int {
    if run == [] then 0 else (if Works(run[0]) then 1 else 0) + WorkDone(run[1..])
  }

  ghost function TotalCredit(s: State, run: seq<Action>): int
    requires Refers(s) && IsRun(s, run, NOTHING)
    decreases |run|
  {
    if run == [] then 0 else Credit(s, run[0]) + TotalCredit(Next(s, run[0]), run[1..])
  }

  /**
   Termination: in every run, however long, the working steps are bounded by what the
   uploads and accepted retries in it pay for (6 * max_attempts + 4 each; junk pays 2 apiece).
   */
  lemma {:induction false} WorkBounded(s: State, run: seq<Action>)
    requires Refers(s) && RowsValid(s) && IsRun(s, run, NOTHING)
    ensures WorkDone(run) + Energy(Exec(s, run)) <= Energy(s) + TotalCredit(s, run)
    ensures WorkDone(run) <= Energy(s) + TotalCredit(s, run)
    decreases |run|
  {
    if run == [] {
      EnergyNonNegative(s);
    } else {
      RowsKept(s, run[0]);
      EnergyStep(s, run[0]);
      WorkBounded(Next(s, run[0]), run[1..]);
    }
  }
}

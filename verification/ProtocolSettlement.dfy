/**
 Settlement: conservation says where the token of an unsettled job is, and the energy bound
 that it cannot move for ever.  Together: work never gets stuck, it ends, and when it has
 ended every job is completed, failed or canceled.
 */
module ProtocolSettlement {
  import opened Prelude
  import opened JobRows
  import opened JobProtocol
  import opened ProtocolBudget
  import opened ProtocolTokens
  import opened ProtocolPointers

  /** Nothing is queued, and no actor has a job in hand. */
  ghost predicate Idle(s: State) {
    s.queue == [] && forall i :: 0 <= i < |s.actors| ==> !Waits(s.actors[i]) && !Busy(s.actors[i])
  }

  ghost predicate Settled(s: State) {
    forall j :: 0 <= j < |s.jobs| ==> s.jobs[j].status in {Completed, Failed, Canceled}
  }

  lemma IdleIsSettled(s: State)
    requires Idle(s) && AllHeld(s)
    ensures Settled(s)
  {
    forall j | 0 <= j < |s.jobs| ensures s.jobs[j].status in {Completed, Failed, Canceled} {
      assert Held(s, j);
      if Sum(s.actors, WaitingFn(j)) > 0 {
        var i := SumPositive(s.actors, WaitingFn(j));
      }
      if Working(s, j) > 0 {
        var i := SumPositive(s.actors, BusyFn(j));
      }
    }
  }

  /** What the actor with a job in hand can do next, if nothing goes wrong. */
  function NextStep(s: State, i: ActorId): Action
    requires Refers(s) && i < |s.actors| && (Waits(s.actors[i]) || Busy(s.actors[i]))
  {
    match s.actors[i]
    case Popped(_) => Action.Start(i)
    case Running(_, _, _, hasFile) => if hasFile then Persist(i) else NoRawFile(i)
    case Persisted(_, _, _, d) =>
      if d < |s.docs| && s.docs[d].live then Complete(i) else CompleteRefused(i)
    case Handling(_, _, _, _) => HandleError(i)
    case EnqueueFailed(_, _) => FailUnqueued(i)
    case _ => Action.Enqueue(i)
  }

  lemma NextStepIsAllowed(s: State, i: ActorId, asm: Assumptions)
    requires Refers(s) && i < |s.actors| && (Waits(s.actors[i]) || Busy(s.actors[i]))
    requires asm.p ==> PersistedLive(s)
    ensures Enabled(s, NextStep(s, i)) && Works(NextStep(s, i)) && Acting(NextStep(s, i)) == Some(i)
    ensures Allows(asm, s, NextStep(s, i))
  {
  }

  /** A worker stays in its loop. */
  lemma LoopGoesOn(s: State, i: ActorId, w: ActorId)
    requires Refers(s) && i < |s.actors| && (Waits(s.actors[i]) || Busy(s.actors[i]))
    requires Enabled(s, NextStep(s, i)) && w < |s.actors| && InWorkerLoop(s.actors[w])
    ensures w < |Next(s, NextStep(s, i)).actors| && InWorkerLoop(Next(s, NextStep(s, i)).actors[w])
  {
  }

  function PopHead(s: State, w: ActorId): Action {
    if s.queue != [] && s.queue[0].Junk? then PopJunk(w) else Pop(w)
  }

  /**
   Nothing is ever stuck: while a worker is in its loop and a job is queued or in hand, an
   allowed step works, or the worker reaps and can pop at once.
   */
  lemma NeverStuck(s: State, asm: Assumptions, w: ActorId) returns (a: Action)
    requires Refers(s) && !Idle(s) && (asm.p ==> PersistedLive(s))
    requires w < |s.actors| && InWorkerLoop(s.actors[w])
    ensures Enabled(s, a) && Allows(asm, s, a) && !a.UploadCall? && !a.RetryCall? && !a.PushJunk?
    ensures Works(a) || (a == Reap(w, 1) && s.actors[w].Reaping? && Enabled(Next(s, a), PopHead(s, w)))
    ensures w < |Next(s, a).actors| && InWorkerLoop(Next(s, a).actors[w])
  {
    if i :| 0 <= i < |s.actors| && (Waits(s.actors[i]) || Busy(s.actors[i])) {
      a := NextStep(s, i);
      NextStepIsAllowed(s, i, asm);
      LoopGoesOn(s, i, w);
    } else {
      a := if s.actors[w].Reaping? then Reap(w, 1) else PopHead(s, w);
    }
  }

  /** And it ends: from any state of the invariants a run of allowed steps leads to an idle one. */
  lemma {:induction false} RunsDry(s: State, asm: Assumptions, w: ActorId) returns (more: seq<Action>)
    requires Refers(s) && RowsValid(s) && (asm.p ==> PersistedLive(s))
    requires w < |s.actors| && InWorkerLoop(s.actors[w])
    ensures IsRun(s, more, asm) && IsRun(s, more, NOTHING) && Idle(Exec(s, more))
    decreases Energy(s), if w < |s.actors| && s.actors[w].Reaping? then 1 else 0
  {
    if Idle(s) {
      more := [];
    } else {
      var a := NeverStuck(s, asm, w);
      EnergyNonNegative(s);
      EnergyStep(s, a);
      RowsKept(s, a);
      if asm.p {
        PersistedLiveKept(s, a);
      }
      var rest := RunsDry(Next(s, a), asm, w);
      more := [a] + rest;
      assert more[1..] == rest;
    }
  }

  /**
   Every job can be settled: wherever a run under (T), (E) and (C) has got to, if a worker
   is in its loop then some continuation, under whatever further assumptions the run was
   under, ends with every job completed, failed or canceled.
   */
  lemma EveryJobCanSettle(run: seq<Action>, asm: Assumptions, w: ActorId) returns (more: seq<Action>)
    requires asm.t && asm.e && asm.c && IsRun(InitialState(), run, asm) && IsRun(InitialState(), run, NOTHING)
    requires var s := Exec(InitialState(), run); w < |s.actors| && InWorkerLoop(s.actors[w])
    ensures var s := Exec(InitialState(), run);
            && IsRun(s, more, asm) && IsRun(s, more, NOTHING)
            && Idle(Exec(s, more)) && Settled(Exec(s, more))
  {
    var s := Exec(InitialState(), run);
    RowShapeAlways(InitialState(), run);
    TokensConserved(InitialState(), run, asm);
    if asm.p {
      RunKeepsPersistedLive(InitialState(), run, asm);
    }
    more := RunsDry(s, asm, w);
    TokensConserved(s, more, asm);
    IdleIsSettled(Exec(s, more));
  }

  /** Whatever order things happened in: once nothing is queued or in hand, every job is settled. */
  lemma IdleRunIsSettled(run: seq<Action>, asm: Assumptions)
    requires asm.t && asm.e && asm.c && IsRun(InitialState(), run, asm) && IsRun(InitialState(), run, NOTHING)
    requires Idle(Exec(InitialState(), run))
    ensures Settled(Exec(InitialState(), run))
  {
    TokensConserved(InitialState(), run, asm);
    IdleIsSettled(Exec(InitialState(), run));
  }
}

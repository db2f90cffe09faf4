/**
 The ownership discipline that makes the unguarded statements safe.  A token for a job
 is one queue entry, one actor about to queue or start it, or one worker working on it.
 Under (T) and (E) there is never more than one, so a worker that writes a row with no
 WHERE but the id always finds the row it started.
 */
module ProtocolTokens {
  import opened Prelude
  import opened JobRows
  import opened JobProtocol
  import opened ProtocolBudget

  function QueuedFn(j: JobId): Payload -> int {
    (x: Payload) => if x == JobPayload(j) then 1 else 0
  }

  predicate Waits(pc: Pc) {
    pc.Popped? || pc.Delaying? || pc.Created? || pc.EnqueueFailed?
  }

  function WaitingFn(j: JobId): Pc -> int {
    (pc: Pc) => if Waits(pc) && pc.job == j then 1 else 0
  }

  function BusyFn(j: JobId): Pc -> int {
    (pc: Pc) => if Busy(pc) && pc.job == j then 1 else 0
  }

  function PersistedFn(j: JobId): Pc -> int {
    (pc: Pc) => if pc.Persisted? && pc.job == j then 1 else 0
  }

  /** Tokens that wait for a worker: in the queue, or with an actor that has not started. */
  function Waiting(s: State, j: JobId): int {
    Sum(s.queue, QueuedFn(j)) + Sum(s.actors, WaitingFn(j))
  }

  /** Workers between `start_attempt` and the end of their attempt. */
  function Working(s: State, j: JobId): int {
    Sum(s.actors, BusyFn(j))
  }

  function Tokens(s: State, j: JobId): int {
    Waiting(s, j) + Working(s, j)
  }

  /** A worker's snapshot of `attempts` and `max_attempts` is what the row holds. */
  ghost predicate SnapshotsMatch(s: State, j: JobId)
    requires j < |s.jobs|
  {
    forall i :: 0 <= i < |s.actors| && Busy(s.actors[i]) && s.actors[i].job == j ==>
      s.actors[i].attempts == s.jobs[j].attempts && s.actors[i].maxAttempts == s.jobs[j].maxAttempts
  }

  ghost predicate Owned(s: State, j: JobId)
    requires j < |s.jobs|
  {
    var row := s.jobs[j];
    && 0 <= Waiting(s, j) && 0 <= Working(s, j) && Tokens(s, j) <= 1
    && (Waiting(s, j) > 0 ==> row.status in {Pending, Canceled})
    && (Working(s, j) > 0 ==> row.status == Processing)
    && SnapshotsMatch(s, j)
    && (row.status == Pending ==> row.attempts < row.maxAttempts)
    && (row.documentId.Some? ==> row.status == Completed)
  }

  /** No pending job is lost, and no job is processing without a worker. */
  ghost predicate Held(s: State, j: JobId)
    requires j < |s.jobs|
  {
    && (s.jobs[j].status == Pending ==> Waiting(s, j) == 1)
    && (s.jobs[j].status == Processing ==> Working(s, j) == 1)
  }

  /** Documents ever stored: one for a completed job or a worker about to complete it. */
  ghost predicate IndexedOnce(s: State, j: JobId)
    requires Refers(s) && j < |s.jobs|
  {
    && Sum(s.actors, PersistedFn(j)) >= 0
    && s.tally[j].indexed == (if s.jobs[j].status == Completed then 1 else 0) + Sum(s.actors, PersistedFn(j))
  }

  // ---------------------------------------------------------------- how tokens move

  predicate On(s: State, a: Action, j: JobId) {
    Acting(a).Some? && Acting(a).value < |s.actors| &&
    var pc := s.actors[Acting(a).value];
    (Waits(pc) || Busy(pc)) && pc.job == j
  }

  function WorkingDelta(s: State, a: Action, j: JobId): int
    requires Refers(s) && Enabled(s, a)
  {
    if !On(s, a, j) then 0
    else
      match a
      case Start(_) => if StartsOn(s, a, j) then 1 else 0
      case Complete(_) => -1
      case HandleError(_) => -1
      case Crash(w) => if Busy(s.actors[w]) then -1 else 0
      case _ => 0
  }

  function WaitingDelta(s: State, a: Action, j: JobId): int
    requires Refers(s) && Enabled(s, a)
  {
    if a.RetryCall? then if RetriesOn(s, a, j) then 1 else 0
    else if a.UploadCall? then if j == |s.jobs| then 1 else 0
    else if !On(s, a, j) then 0
    else
      match a
      case Start(_) => -1
      case FailUnqueued(_) => -1
      case HandleError(w) => if s.actors[w].attempts >= s.actors[w].maxAttempts then 0 else 1
      case EnqueueRaises(w, pushed, _) =>
        (if pushed then 1 else 0) + (if s.actors[w].Delaying? then -1 else 0)
      case Crash(w) => if Waits(s.actors[w]) then -1 else 0
      case _ => 0
  }

  lemma WorkingEffect(s: State, a: Action, j: JobId)
    requires Refers(s) && Enabled(s, a)
    ensures Working(Next(s, a), j) == Working(s, j) + WorkingDelta(s, a, j)
  {
    ActorSums(s, a, BusyFn(j));
    if Acting(a).None? {
      RequestsWorkOnNothing(s, a, j);
    } else {
      OneActorMoves(s, a);
      WorkingOfPc(s, a, j);
    }
  }

  lemma RequestsWorkOnNothing(s: State, a: Action, j: JobId)
    requires Refers(s) && Enabled(s, a) && Acting(a).None?
    ensures WorkingDelta(s, a, j) == 0
    ensures var actors := Next(s, a).actors;
            |actors| > |s.actors| ==> BusyFn(j)(actors[|s.actors|]) == 0
  {
  }

  /** What the acting actor's own work does. */
  lemma WorkingOfPc(s: State, a: Action, j: JobId)
    requires Refers(s) && Enabled(s, a) && Acting(a).Some?
    ensures a.actor < |Next(s, a).actors|
    ensures BusyFn(j)(Next(s, a).actors[a.actor]) == BusyFn(j)(s.actors[a.actor]) + WorkingDelta(s, a, j)
  {
  }

  function QueueDelta(s: State, a: Action, j: JobId): int
    requires Refers(s) && Enabled(s, a)
  {
    (if (a.Enqueue? || (a.EnqueueRaises? && a.pushed)) && s.actors[a.actor].job == j then 1 else 0)
    - (if a.Pop? && s.queue[0] == JobPayload(j) then 1 else 0)
  }

  lemma QueueEffect(s: State, a: Action, j: JobId)
    requires Refers(s) && Enabled(s, a)
    ensures Sum(Next(s, a).queue, QueuedFn(j)) == Sum(s.queue, QueuedFn(j)) + QueueDelta(s, a, j)
  {
    if a.Enqueue? || (a.EnqueueRaises? && a.pushed) {
      SumAppend(s.queue, JobPayload(s.actors[a.actor].job), QueuedFn(j));
    } else if a.PushJunk? {
      SumAppend(s.queue, Junk(a.raw), QueuedFn(j));
    }
  }

  /** A token that leaves the queue is with an actor, and one that enters it came from one. */
  lemma WaitingActorsEffect(s: State, a: Action, j: JobId)
    requires Refers(s) && Enabled(s, a)
    ensures Sum(Next(s, a).actors, WaitingFn(j)) ==
            Sum(s.actors, WaitingFn(j)) + WaitingDelta(s, a, j) - QueueDelta(s, a, j)
  {
    if Acting(a).None? {
      WaitingOfRequest(s, a, j);
    } else {
      WaitingOfActor(s, a, j);
    }
  }

  lemma WaitingOfRequest(s: State, a: Action, j: JobId)
    requires Refers(s) && Enabled(s, a) && Acting(a).None?
    ensures Sum(Next(s, a).actors, WaitingFn(j)) == Sum(s.actors, WaitingFn(j)) + WaitingDelta(s, a, j)
  {
    ActorSums(s, a, WaitingFn(j));
  }

  lemma WaitingOfActor(s: State, a: Action, j: JobId)
    requires Refers(s) && Enabled(s, a) && Acting(a).Some?
    ensures Sum(Next(s, a).actors, WaitingFn(j)) ==
            Sum(s.actors, WaitingFn(j)) + WaitingDelta(s, a, j) - QueueDelta(s, a, j)
  {
    OneActorMoves(s, a);
    SumUpdate(s.actors, a.actor, Next(s, a).actors[a.actor], WaitingFn(j));
    WaitingOfPc(s, a, j);
  }

  /** What the acting actor's own token does. */
  lemma WaitingOfPc(s: State, a: Action, j: JobId)
    requires Refers(s) && Enabled(s, a) && Acting(a).Some?
    ensures a.actor < |Next(s, a).actors|
    ensures WaitingFn(j)(Next(s, a).actors[a.actor]) ==
            WaitingFn(j)(s.actors[a.actor]) + WaitingDelta(s, a, j) - QueueDelta(s, a, j)
  {
  }

  lemma WaitingEffect(s: State, a: Action, j: JobId)
    requires Refers(s) && Enabled(s, a)
    ensures Waiting(Next(s, a), j) == Waiting(s, j) + WaitingDelta(s, a, j)
  {
    QueueEffect(s, a, j);
    WaitingActorsEffect(s, a, j);
  }

  function PersistedDelta(s: State, a: Action, j: JobId): int
    requires Refers(s) && Enabled(s, a)
  {
    if !On(s, a, j) then 0
    else
      match a
      case Persist(_) => 1
      case Complete(_) => -1
      case CompleteFails(_, _) => -1
      case CompleteRefused(_) => -1
      case CompleteUnacknowledged(_, _) => -1
      case Crash(w) => if s.actors[w].Persisted? then -1 else 0
      case _ => 0
  }

  lemma PersistedEffect(s: State, a: Action, j: JobId)
    requires Refers(s) && Enabled(s, a)
    ensures Sum(Next(s, a).actors, PersistedFn(j)) == Sum(s.actors, PersistedFn(j)) + PersistedDelta(s, a, j)
  {
    ActorSums(s, a, PersistedFn(j));
    if Acting(a).None? {
      RequestsPersistNothing(s, a, j);
    } else {
      OneActorMoves(s, a);
      PersistedOfPc(s, a, j);
    }
  }

  lemma RequestsPersistNothing(s: State, a: Action, j: JobId)
    requires Refers(s) && Enabled(s, a) && Acting(a).None?
    ensures PersistedDelta(s, a, j) == 0
    ensures var actors := Next(s, a).actors;
            |actors| > |s.actors| ==> PersistedFn(j)(actors[|s.actors|]) == 0
  {
  }

  lemma PersistedOfPc(s: State, a: Action, j: JobId)
    requires Refers(s) && Enabled(s, a) && Acting(a).Some?
    ensures a.actor < |Next(s, a).actors|
    ensures PersistedFn(j)(Next(s, a).actors[a.actor]) ==
            PersistedFn(j)(s.actors[a.actor]) + PersistedDelta(s, a, j)
  {
  }

  /** An actor with a token is counted. */
  lemma Counted(s: State, i: ActorId, j: JobId)
    requires i < |s.actors| && (Waits(s.actors[i]) || Busy(s.actors[i])) && s.actors[i].job == j
    ensures Waits(s.actors[i]) ==> Waiting(s, j) >= 1
    ensures Busy(s.actors[i]) ==> Working(s, j) >= 1
    ensures Waiting(s, j) >= 0 && Working(s, j) >= 0
  {
    SumAtLeast(s.actors, i, WaitingFn(j));
    SumAtLeast(s.actors, i, BusyFn(j));
    SumNonNegative(s.queue, QueuedFn(j));
  }

  // ---------------------------------------------------------------- one step

  lemma SnapshotsKept(s: State, a: Action, j: JobId)
    requires Refers(s) && Enabled(s, a) && j < |s.jobs| && Owned(s, j)
    ensures j < |Next(s, a).jobs| && SnapshotsMatch(Next(s, a), j)
  {
    var s' := Next(s, a);
    AttemptsEffect(s, a, j);
    forall i | 0 <= i < |s'.actors| && Busy(s'.actors[i]) && s'.actors[i].job == j
      ensures s'.actors[i].attempts == s'.jobs[j].attempts && s'.actors[i].maxAttempts == s'.jobs[j].maxAttempts
    {
      BusyBefore(s, a, i);
      if i < |s.actors| && Busy(s.actors[i]) {
        Counted(s, i, j);
        if a.Start? && s.actors[a.actor].job == j {
          Counted(s, a.actor, j);
        }
      }
    }
  }

  /** A worker is busy because it was, with the same snapshot, or because it just started. */
  lemma BusyBefore(s: State, a: Action, i: ActorId)
    requires Refers(s) && Enabled(s, a) && i < |Next(s, a).actors| && Busy(Next(s, a).actors[i])
    ensures var pc' := Next(s, a).actors[i];
            i < |s.actors| &&
            ((Busy(s.actors[i]) && s.actors[i].job == pc'.job
              && s.actors[i].attempts == pc'.attempts && s.actors[i].maxAttempts == pc'.maxAttempts)
             || (a == Start(i) && s.actors[i].Popped? && s.actors[i].job == pc'.job && Starts(s, a)
                 && pc'.attempts == s.jobs[pc'.job].attempts + 1 && pc'.maxAttempts == s.jobs[pc'.job].maxAttempts))
  {
  }

  /** Who may run a statement against a row, and in which status it then is. */
  lemma WritersOwn(s: State, a: Action, j: JobId)
    requires Refers(s) && Enabled(s, a) && j < |s.jobs| && Owned(s, j)
    ensures On(s, a, j) && Waits(s.actors[a.actor]) ==>
              Waiting(s, j) == 1 && Working(s, j) == 0 && s.jobs[j].status in {Pending, Canceled}
    ensures On(s, a, j) && Busy(s.actors[a.actor]) ==>
              && Working(s, j) == 1 && Waiting(s, j) == 0 && s.jobs[j].status == Processing
              && s.actors[a.actor].attempts == s.jobs[j].attempts
              && s.actors[a.actor].maxAttempts == s.jobs[j].maxAttempts
  {
    if On(s, a, j) {
      Counted(s, a.actor, j);
    }
  }

  /** What a statement does to the status, given who may run it. */
  lemma StatusEffect(s: State, a: Action, j: JobId)
    requires Refers(s) && Enabled(s, a) && j < |s.jobs|
    ensures j < |Next(s, a).jobs|
    ensures StatusMoves(s, a, j, Next(s, a).jobs[j])
  {
    if On(s, a, j) {
      StatusByActor(s, a, j);
    } else {
      StatusByOthers(s, a, j);
    }
  }

  predicate StatusMoves(s: State, a: Action, j: JobId, row': Job)
    requires Refers(s) && Enabled(s, a) && j < |s.jobs|
  {
    var row := s.jobs[j];
    if StartsOn(s, a, j) then row'.status == Processing
    else if RetriesOn(s, a, j) then row'.status == Pending && row'.attempts == 0
    else if (a.Complete? || a.CompleteUnacknowledged?) && On(s, a, j) then row'.status == Completed
    else if a.FailUnqueued? && On(s, a, j) then row'.status == Failed
    else if a.HandleError? && On(s, a, j) then
      row'.status == if s.actors[a.actor].attempts >= s.actors[a.actor].maxAttempts then Failed else Pending
    else
      row'.status == row.status
      || (a.CancelCall? && row.status == Pending && row'.status == Canceled)
      || (a.Reap? && Matches(row, FailStaleJob(a.staleAfter, s.clock)) && row'.status == Failed)
  }

  lemma StatusByActor(s: State, a: Action, j: JobId)
    requires Refers(s) && Enabled(s, a) && j < |s.jobs| && On(s, a, j)
    ensures j < |Next(s, a).jobs| && StatusMoves(s, a, j, Next(s, a).jobs[j])
  {
    RowEffect(s, a, j);
  }

  lemma StatusByOthers(s: State, a: Action, j: JobId)
    requires Refers(s) && Enabled(s, a) && j < |s.jobs| && !On(s, a, j)
    ensures j < |Next(s, a).jobs| && StatusMoves(s, a, j, Next(s, a).jobs[j])
  {
    RowEffect(s, a, j);
  }

  /** A job gets its document from the worker that completes it, and loses it with the document. */
  lemma DocumentEffect(s: State, a: Action, j: JobId)
    requires Refers(s) && Enabled(s, a) && j < |s.jobs|
    ensures j < |Next(s, a).jobs|
    ensures Next(s, a).jobs[j].documentId ==
            if (a.Complete? || a.CompleteUnacknowledged?) && On(s, a, j) then Some(s.actors[a.actor].doc)
            else if a.DeleteCall? && Deletes(s, a.doc, a.tenant) && s.jobs[j].documentId == Some(a.doc) then None
            else s.jobs[j].documentId
  {
    RowEffect(s, a, j);
  }

  predicate Deletes(s: State, d: DocId, tenant: string)
    requires Refers(s) && d < |s.docs|
  {
    s.docs[d].live && s.jobs[s.docs[d].job].tenant == tenant
  }

  /** Under (T) the reaper fails only rows that nobody works on. */
  lemma ReapsUnowned(s: State, a: Action, j: JobId)
    requires Refers(s) && Enabled(s, a) && j < |s.jobs| && a.Reap? && ReaperSparesLive(s, a)
    requires Matches(s.jobs[j], FailStaleJob(a.staleAfter, s.clock))
    ensures Working(s, j) <= 0
  {
    if Working(s, j) > 0 {
      var i := SumPositive(s.actors, BusyFn(j));
    }
  }

  /** The steps that leave a job with two tokens, or with one that its status belies. */
  predicate BreaksToken(s: State, a: Action, j: JobId)
    requires Refers(s) && Enabled(s, a) && j < |s.jobs|
  {
    || (a.Reap? && Working(s, j) > 0 && Matches(s.jobs[j], FailStaleJob(a.staleAfter, s.clock)))
    || (a.EnqueueRaises? && a.pushed && s.actors[a.actor].Created? && s.actors[a.actor].job == j)
    || (a.CompleteUnacknowledged? && s.actors[a.actor].job == j)
  }

  /** The steps that take the token of a pending or processing job away. */
  predicate LosesToken(s: State, a: Action, j: JobId)
    requires Refers(s) && Enabled(s, a) && j < |s.jobs|
  {
    || (a.Crash? && On(s, a, j) && s.jobs[j].status in {Pending, Processing})
    || (a.EnqueueRaises? && !a.pushed && On(s, a, j) && s.actors[a.actor].Delaying? && s.jobs[j].status == Pending)
  }

  /** The steps that leave a document of a job behind without completing it. */
  predicate LosesDocument(s: State, a: Action, j: JobId)
    requires Refers(s) && Enabled(s, a) && j < |s.jobs|
  {
    && (a.PersistUnacknowledged? || a.CompleteFails? || a.CompleteRefused? || (a.Crash? && s.actors[a.actor].Persisted?))
    && s.actors[a.actor].job == j
  }

  /** The discipline, exactly: a step keeps one token, which is what the status says it is, unless it is one of three. */
  lemma OwnedIff(s: State, a: Action, j: JobId)
    requires Refers(s) && Enabled(s, a) && RowsValid(s) && j < |s.jobs| && Owned(s, j)
    ensures j < |Next(s, a).jobs|
    ensures Owned(Next(s, a), j) <==> !BreaksToken(s, a, j)
  {
    if BreaksToken(s, a, j) {
      BrokenToken(s, a, j);
    } else {
      UnbrokenToken(s, a, j);
    }
  }

  lemma UnbrokenToken(s: State, a: Action, j: JobId)
    requires Refers(s) && Enabled(s, a) && RowsValid(s) && j < |s.jobs| && Owned(s, j) && !BreaksToken(s, a, j)
    ensures j < |Next(s, a).jobs| && Owned(Next(s, a), j)
  {
    assert Shape(s.jobs[j]);
    SnapshotsKept(s, a, j);
    UnbrokenCounts(s, a, j);
    StatusEffect(s, a, j);
    DocumentEffect(s, a, j);
    AttemptsEffect(s, a, j);
    WritersOwn(s, a, j);
  }

  lemma UnbrokenCounts(s: State, a: Action, j: JobId)
    requires Refers(s) && Enabled(s, a) && j < |s.jobs| && Owned(s, j) && !BreaksToken(s, a, j)
    ensures var s' := Next(s, a);
            && j < |s'.jobs| && 0 <= Waiting(s', j) && 0 <= Working(s', j) && Tokens(s', j) <= 1
            && (Waiting(s', j) > 0 ==> s'.jobs[j].status in {Pending, Canceled})
            && (Working(s', j) > 0 ==> s'.jobs[j].status == Processing)
  {
    WorkingEffect(s, a, j);
    WaitingEffect(s, a, j);
    StatusEffect(s, a, j);
    WritersOwn(s, a, j);
  }

  lemma BrokenToken(s: State, a: Action, j: JobId)
    requires Refers(s) && Enabled(s, a) && j < |s.jobs| && Owned(s, j) && BreaksToken(s, a, j)
    ensures j < |Next(s, a).jobs| && !Owned(Next(s, a), j)
  {
    WorkingEffect(s, a, j);
    WaitingEffect(s, a, j);
    StatusEffect(s, a, j);
    WritersOwn(s, a, j);
  }

  /** And of those that keep it, exactly two kinds lose it. */
  lemma HeldIff(s: State, a: Action, j: JobId)
    requires Refers(s) && Enabled(s, a) && j < |s.jobs| && Owned(s, j) && Held(s, j) && !BreaksToken(s, a, j)
    ensures j < |Next(s, a).jobs|
    ensures Held(Next(s, a), j) <==> !LosesToken(s, a, j)
  {
    WorkingEffect(s, a, j);
    WaitingEffect(s, a, j);
    StatusEffect(s, a, j);
    WritersOwn(s, a, j);
  }

  /** The count of documents stays right, exactly unless a document is left behind. */
  lemma IndexedOnceIff(s: State, a: Action, j: JobId)
    requires Refers(s) && Enabled(s, a) && j < |s.jobs| && Owned(s, j) && IndexedOnce(s, j) && !BreaksToken(s, a, j)
    ensures j < |Next(s, a).jobs|
    ensures IndexedOnce(Next(s, a), j) <==> !LosesDocument(s, a, j)
  {
    if On(s, a, j) {
      IndexedByActor(s, a, j);
    } else {
      IndexedByOthers(s, a, j);
    }
  }

  lemma IndexedByActor(s: State, a: Action, j: JobId)
    requires Refers(s) && Enabled(s, a) && j < |s.jobs| && Owned(s, j) && IndexedOnce(s, j) && !BreaksToken(s, a, j)
    requires On(s, a, j)
    ensures j < |Next(s, a).jobs|
    ensures IndexedOnce(Next(s, a), j) <==> !LosesDocument(s, a, j)
  {
    TallyEffect(s, a, j);
    PersistedEffect(s, a, j);
    StatusByActor(s, a, j);
    WritersOwn(s, a, j);
    SumNonNegative(Next(s, a).actors, PersistedFn(j));
  }

  lemma IndexedByOthers(s: State, a: Action, j: JobId)
    requires Refers(s) && Enabled(s, a) && j < |s.jobs| && IndexedOnce(s, j) && !On(s, a, j)
    ensures j < |Next(s, a).jobs|
    ensures IndexedOnce(Next(s, a), j) && !LosesDocument(s, a, j)
  {
    TallyEffect(s, a, j);
    PersistedEffect(s, a, j);
    StatusByOthers(s, a, j);
  }

  /** In terms of the assumptions: (T) and (E) rule the first kind out. */
  lemma OwnedKept(s: State, a: Action, j: JobId)
    requires Refers(s) && Enabled(s, a) && RowsValid(s) && j < |s.jobs| && Owned(s, j)
    requires ReaperSparesLive(s, a) && RaisingIsNoEffect(s, a)
    ensures !BreaksToken(s, a, j) && j < |Next(s, a).jobs| && Owned(Next(s, a), j)
  {
    if a.Reap? && Matches(s.jobs[j], FailStaleJob(a.staleAfter, s.clock)) {
      ReapsUnowned(s, a, j);
    }
    OwnedIff(s, a, j);
  }

  /** (C) the second. */
  lemma HeldKept(s: State, a: Action, j: JobId)
    requires Refers(s) && Enabled(s, a) && RowsValid(s) && j < |s.jobs| && Owned(s, j) && Held(s, j)
    requires ReaperSparesLive(s, a) && RaisingIsNoEffect(s, a) && NoCrash(s, a)
    ensures j < |Next(s, a).jobs| && Held(Next(s, a), j)
  {
    OwnedKept(s, a, j);
    HeldIff(s, a, j);
  }

  lemma OwnedNew(s: State, a: Action)
    requires Refers(s) && Enabled(s, a) && a.UploadCall?
    ensures var s', j := Next(s, a), |s.jobs|;
            j < |s'.jobs| && Owned(s', j) && Held(s', j) && IndexedOnce(s', j)
  {
    var s', j := Next(s, a), |s.jobs|;
    RefersKept(s, a);
    WorkingEffect(s, a, j);
    WaitingEffect(s, a, j);
    ActorSums(s, a, PersistedFn(j));
    NobodyOn(s.actors, j, s.docs, BusyFn(j));
    NobodyOn(s.actors, j, s.docs, WaitingFn(j));
    NobodyOn(s.actors, j, s.docs, PersistedFn(j));
    NoneQueued(s.queue, j);
    forall i | 0 <= i < |s'.actors| ensures !(Busy(s'.actors[i]) && s'.actors[i].job == j) {
      if i < |s.actors| {
        assert PcRefers(s.actors[i], j, s.docs);
      }
    }
  }

  lemma {:induction false} NoneQueued(queue: seq<Payload>, j: JobId)
    requires forall i :: 0 <= i < |queue| && queue[i].JobPayload? ==> queue[i].job < j
    ensures Sum(queue, QueuedFn(j)) == 0
  {
    if queue == [] {
    } else {
      NoneQueued(queue[1..], j);
    }
  }

  /** (P) the third. */
  lemma IndexedOnceKept(s: State, a: Action, j: JobId)
    requires Refers(s) && Enabled(s, a) && RowsValid(s) && j < |s.jobs| && Owned(s, j) && IndexedOnce(s, j)
    requires ReaperSparesLive(s, a) && RaisingIsNoEffect(s, a) && NoCrash(s, a) && NoLateFailure(s, a)
    ensures j < |Next(s, a).jobs| && IndexedOnce(Next(s, a), j)
  {
    OwnedKept(s, a, j);
    IndexedOnceIff(s, a, j);
  }

  // ---------------------------------------------------------------- every run

  ghost predicate AllOwned(s: State) {
    forall j :: 0 <= j < |s.jobs| ==> Owned(s, j)
  }

  ghost predicate AllHeld(s: State) {
    forall j :: 0 <= j < |s.jobs| ==> Held(s, j)
  }

  ghost predicate AllIndexedOnce(s: State)
    requires Refers(s)
  {
    forall j :: 0 <= j < |s.jobs| ==> IndexedOnce(s, j)
  }

  lemma AllOwnedKept(s: State, a: Action)
    requires Refers(s) && Enabled(s, a) && RowsValid(s) && AllOwned(s)
    requires ReaperSparesLive(s, a) && RaisingIsNoEffect(s, a)
    ensures RowsValid(Next(s, a)) && AllOwned(Next(s, a))
    ensures NoCrash(s, a) && AllHeld(s) ==> AllHeld(Next(s, a))
    ensures NoCrash(s, a) && NoLateFailure(s, a) && AllIndexedOnce(s) ==> AllIndexedOnce(Next(s, a))
  {
    var s' := Next(s, a);
    RowsKept(s, a);
    RefersKept(s, a);
    forall j | 0 <= j < |s'.jobs|
      ensures Owned(s', j)
      ensures NoCrash(s, a) && AllHeld(s) ==> Held(s', j)
      ensures NoCrash(s, a) && NoLateFailure(s, a) && AllIndexedOnce(s) ==> IndexedOnce(s', j)
    {
      if j < |s.jobs| {
        OwnedKept(s, a, j);
        if NoCrash(s, a) && AllHeld(s) {
          HeldKept(s, a, j);
        }
        if NoCrash(s, a) && NoLateFailure(s, a) && AllIndexedOnce(s) {
          IndexedOnceKept(s, a, j);
        }
      } else {
        OwnedNew(s, a);
      }
    }
  }

  // ---------------------------------------------------------------- every run, exactly

  /** The invariants asked for: tokens always, `held` and `indexed` as wanted. */
  ghost predicate Invariants(s: State, held: bool, indexed: bool)
    requires Refers(s)
  {
    AllOwned(s) && (held ==> AllHeld(s)) && (indexed ==> AllIndexedOnce(s))
  }

  /** The step does to some job what one of them forbids. */
  ghost predicate Offends(s: State, a: Action, held: bool, indexed: bool)
    requires Refers(s) && Enabled(s, a)
  {
    exists j :: 0 <= j < |s.jobs| && OffendsJob(s, a, j, held, indexed)
  }

  ghost predicate OffendsJob(s: State, a: Action, j: JobId, held: bool, indexed: bool)
    requires Refers(s) && Enabled(s, a) && j < |s.jobs|
  {
    BreaksToken(s, a, j) || (held && LosesToken(s, a, j)) || (indexed && LosesDocument(s, a, j))
  }

  lemma InvariantsIff(s: State, a: Action, held: bool, indexed: bool)
    requires Refers(s) && Enabled(s, a) && RowsValid(s) && Invariants(s, held, indexed)
    ensures Invariants(Next(s, a), held, indexed) <==> !Offends(s, a, held, indexed)
  {
    RefersKept(s, a);
    if Offends(s, a, held, indexed) {
      var j :| 0 <= j < |s.jobs| && OffendsJob(s, a, j, held, indexed);
      OwnedIff(s, a, j);
      if !BreaksToken(s, a, j) {
        OffendedJob(s, a, j, held, indexed);
      }
    } else {
      InvariantsKept(s, a, held, indexed);
    }
  }

  lemma OffendedJob(s: State, a: Action, j: JobId, held: bool, indexed: bool)
    requires Refers(s) && Enabled(s, a) && RowsValid(s) && Invariants(s, held, indexed)
    requires j < |s.jobs| && !BreaksToken(s, a, j) && OffendsJob(s, a, j, held, indexed)
    ensures !Invariants(Next(s, a), held, indexed)
  {
    assert Owned(s, j);
    RefersKept(s, a);
    if held && LosesToken(s, a, j) {
      HeldIff(s, a, j);
    } else {
      IndexedOnceIff(s, a, j);
    }
  }

  lemma InvariantsKept(s: State, a: Action, held: bool, indexed: bool)
    requires Refers(s) && Enabled(s, a) && RowsValid(s) && Invariants(s, held, indexed)
    requires !Offends(s, a, held, indexed)
    ensures Invariants(Next(s, a), held, indexed)
  {
    var s' := Next(s, a);
    RefersKept(s, a);
    forall j | 0 <= j < |s'.jobs|
      ensures Owned(s', j) && (held ==> Held(s', j)) && (indexed ==> IndexedOnce(s', j))
    {
      if j < |s.jobs| {
        assert Owned(s, j) && !OffendsJob(s, a, j, held, indexed);
        OwnedIff(s, a, j);
        if held {
          HeldIff(s, a, j);
        }
        if indexed {
          IndexedOnceIff(s, a, j);
        }
      } else {
        OwnedNew(s, a);
      }
    }
  }

  ghost predicate InvariantThroughout(s: State, run: seq<Action>, held: bool, indexed: bool)
    requires Refers(s) && IsRun(s, run, NOTHING)
    decreases |run|
  {
    Invariants(s, held, indexed) && (run == [] || InvariantThroughout(Next(s, run[0]), run[1..], held, indexed))
  }

  ghost predicate NoOffence(s: State, run: seq<Action>, held: bool, indexed: bool)
    requires Refers(s) && IsRun(s, run, NOTHING)
    decreases |run|
  {
    run == [] || (!Offends(s, run[0], held, indexed) && NoOffence(Next(s, run[0]), run[1..], held, indexed))
  }

  /**
   Exactly which runs conserve tokens, whatever is assumed or not: the invariants hold in
   all states of a run if and only if no step of it is one of those that break them.
   */
  lemma {:induction false} ConservedThroughoutIff(s: State, run: seq<Action>, held: bool, indexed: bool)
    requires Refers(s) && RowsValid(s) && Invariants(s, held, indexed) && IsRun(s, run, NOTHING)
    ensures InvariantThroughout(s, run, held, indexed) <==> NoOffence(s, run, held, indexed)
    decreases |run|
  {
    if run == [] {
    } else {
      InvariantsIff(s, run[0], held, indexed);
      RowsKept(s, run[0]);
      if !Offends(s, run[0], held, indexed) {
        ConservedThroughoutIff(Next(s, run[0]), run[1..], held, indexed);
      }
    }
  }

  // ---------------------------------------------------------------- every run, under the assumptions

  /** The assumptions suffice: (T) and (E) for tokens, (C) for those held, (P) too for documents. */
  lemma {:induction false} AssumptionsSuffice(s: State, run: seq<Action>, asm: Assumptions, held: bool, indexed: bool)
    requires Refers(s) && RowsValid(s) && Invariants(s, held, indexed) && asm.t && asm.e && IsRun(s, run, asm)
    requires (held ==> asm.c) && (indexed ==> asm.c && asm.p)
    ensures IsRun(s, run, NOTHING) && NoOffence(s, run, held, indexed)
    decreases |run|
  {
    Weaken(s, run, asm);
    if run == [] {
    } else {
      AllOwnedKept(s, run[0]);
      InvariantsIff(s, run[0], held, indexed);
      AssumptionsSuffice(Next(s, run[0]), run[1..], asm, held, indexed);
    }
  }

  /**
   Token conservation, for any number of workers.  Under (T) and (E) a job never has two
   tokens and a working token means a processing row; with (C) no pending job is ever
   lost; with (P) too, each job is indexed exactly once.
   */
  lemma {:induction false} TokensConserved(s: State, run: seq<Action>, asm: Assumptions)
    requires Refers(s) && RowsValid(s) && AllOwned(s) && asm.t && asm.e && IsRun(s, run, asm)
    ensures IsRun(s, run, NOTHING) && AllOwned(Exec(s, run))
    ensures asm.c && AllHeld(s) ==> AllHeld(Exec(s, run))
    ensures asm.c && asm.p && AllIndexedOnce(s) ==> AllIndexedOnce(Exec(s, run))
    decreases |run|
  {
    Weaken(s, run, asm);
    if run == [] {
    } else {
      AllOwnedKept(s, run[0]);
      TokensConserved(Next(s, run[0]), run[1..], asm);
    }
  }

  /** While both hold, a job has at most one document, and exactly one when completed. */
  lemma AtMostOneDocument(s: State, j: JobId)
    requires Refers(s) && j < |s.jobs| && Owned(s, j) && IndexedOnce(s, j)
    ensures 0 <= s.tally[j].indexed <= 1
    ensures s.jobs[j].status == Completed ==> s.tally[j].indexed == 1
  {
    PersistedAreBusy(s.actors, j);
  }

  /** What the assumptions `asm` guarantee of job `j`. */
  ghost predicate Conserved(s: State, j: JobId, asm: Assumptions)
    requires Refers(s) && j < |s.jobs|
  {
    && 0 <= Tokens(s, j) <= 1
    && (s.jobs[j].status in {Completed, Failed} ==> Tokens(s, j) == 0)
    && (s.jobs[j].documentId.Some? ==> s.jobs[j].status == Completed)
    && (asm.c && s.jobs[j].status == Pending ==> Tokens(s, j) == 1 && Working(s, j) == 0)
    && (asm.c && s.jobs[j].status == Processing ==> Tokens(s, j) == 1 && Working(s, j) == 1)
    && (asm.c && asm.p && s.jobs[j].status == Completed ==> s.tally[j].indexed == 1)
    && (asm.c && asm.p && s.jobs[j].status !in {Completed, Processing} ==> s.tally[j].indexed == 0)
  }

  /** The same from the empty deployment, spelled out for one job. */
  lemma TokensFromStart(run: seq<Action>, asm: Assumptions, j: JobId)
    requires asm.t && asm.e && IsRun(InitialState(), run, asm)
    ensures IsRun(InitialState(), run, NOTHING)
    ensures var s := Exec(InitialState(), run);
            j < |s.jobs| ==> Conserved(s, j, asm)
  {
    TokensConserved(InitialState(), run, asm);
    var s := Exec(InitialState(), run);
    if j < |s.jobs| {
      assert Owned(s, j);
      assert asm.c ==> Held(s, j);
      assert asm.c && asm.p ==> IndexedOnce(s, j);
      PersistedAreBusy(s.actors, j);
    }
  }

  lemma {:induction false} PersistedAreBusy(actors: seq<Pc>, j: JobId)
    ensures 0 <= Sum(actors, PersistedFn(j)) <= Sum(actors, BusyFn(j))
  {
    if actors == [] {
    } else {
      PersistedAreBusy(actors[1..], j);
    }
  }
}

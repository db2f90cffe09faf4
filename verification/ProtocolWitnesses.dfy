/**
 Each named assumption is needed: for every one of them a concrete run that respects all
 the others and breaks what the assumption protects.
 */
module ProtocolWitnesses {
  import opened Prelude
  import opened JobRows
  import opened JobProtocol
  import opened ProtocolPaths
  import opened ProtocolTokens

  // All the assumptions, and all but one; without (T) there is more than one worker, too.
  const ALL_BUT_T := Assumptions(false, true, true, true, true, false)
  const ALL_BUT_E := Assumptions(true, false, true, true, true, true)
  const ALL_BUT_C := Assumptions(true, true, false, true, true, true)
  const ALL_BUT_P := Assumptions(true, true, true, false, true, true)
  const ALL_BUT_S := Assumptions(true, true, true, true, false, true)
  const ALL := Assumptions(true, true, true, true, true, true)

  function File(maxAttempts: int): Upload {
    Upload("tenant-a", "note.txt", "text/plain", 6, Some("s3://documents/note.txt"), maxAttempts)
  }

  /** One job is queued. */
  lemma QueuedPath(asm: Assumptions) returns (p: Path, s: State)
    ensures At(asm, p, s) && Refers(s)
    ensures s == State([NewRow(File(3), 0)], [JobPayload(0)], [Gone], [], [Tally(0, 0, 0)], 0)
  {
    p, s := Begin(asm);
    p, s := Step(asm, p, s, UploadCall(File(3), 0));
    p, s := Step(asm, p, s, Enqueue(0));
  }

  /** One worker (actor 1) polls. */
  lemma PollingPath(asm: Assumptions) returns (p: Path, s: State)
    ensures At(asm, p, s) && Refers(s)
    ensures s == State([NewRow(File(3), 0)], [JobPayload(0)], [Gone, Polling], [], [Tally(0, 0, 0)], 0)
  {
    p, s := QueuedPath(asm);
    p, s := Step(asm, p, s, Spawn);
    assert s.actors == [Gone, Reaping];
    p, s := Step(asm, p, s, Reap(1, 900));
  }

  lemma PoppedPath(asm: Assumptions, start: nat) returns (p: Path, s: State)
    ensures At(asm, p, s) && Refers(s)
    ensures s == State([NewRow(File(3), 0)], [], [Gone, Popped(0)], [], [Tally(0, 0, 0)], start)
  {
    p, s := PollingPath(asm);
    p, s := Step(asm, p, s, Pop(1));
    p, s := Step(asm, p, s, Tick(start));
  }

  /** One worker (actor 1) has started job 0 at time `start`. */
  lemma StartedPath(asm: Assumptions, start: nat) returns (p: Path, s: State)
    ensures At(asm, p, s) && Refers(s) && s.clock == start
    ensures s.queue == [] && s.actors == [Gone, Running(0, 1, 3, true)] && s.docs == []
    ensures s.jobs == [Assigned(NewRow(File(3), 0), StartAttempt(start))] && s.tally == [Tally(1, 0, 0)]
  {
    p, s := PoppedPath(asm, start);
    p, s := Step(asm, p, s, Start(1));
  }

  /** A second worker (actor 2) joins after 1000 seconds of that. */
  lemma SecondWorkerPath() returns (p: Path, s: State)
    ensures At(ALL_BUT_T, p, s) && Refers(s) && s.clock == 1000
    ensures s.queue == [] && s.actors == [Gone, Running(0, 1, 3, true), Reaping] && s.docs == []
    ensures s.jobs == [Assigned(NewRow(File(3), 0), StartAttempt(0))] && s.tally == [Tally(1, 0, 0)]
  {
    p, s := StartedPath(ALL_BUT_T, 0);
    p, s := Step(ALL_BUT_T, p, s, Tick(1000));
    p, s := Step(ALL_BUT_T, p, s, Spawn);
  }

  /** The second worker reaps the job of the first. */
  lemma ReapedPath() returns (p: Path, s: State)
    ensures At(ALL_BUT_T, p, s) && Refers(s) && s.clock == 1000
    ensures s.queue == [] && s.actors == [Gone, Running(0, 1, 3, true), Polling] && s.docs == []
    ensures |s.jobs| == |s.tally| == 1 && s.jobs[0].status == Failed && s.jobs[0].tenant == "tenant-a"
    ensures s.jobs[0].maxAttempts == 3 && HasRawFile(s.jobs[0]) && s.tally[0].indexed == 0
  {
    p, s := SecondWorkerPath();
    p, s := Step(ALL_BUT_T, p, s, Reap(2, 900));
  }

  lemma ReapedWhileRunning() returns (p: Path, s: State)
    ensures At(ALL_BUT_T, p, s) && Refers(s)
    ensures s.queue == [JobPayload(0)] && s.actors == [Gone, Running(0, 1, 3, true), Polling, Gone] && s.docs == []
    ensures |s.jobs| == |s.tally| == 1 && s.jobs[0].status == Pending && s.jobs[0].attempts == 0
    ensures s.jobs[0].maxAttempts == 3 && HasRawFile(s.jobs[0]) && s.tally[0].indexed == 0
  {
    p, s := ReapedPath();
    p, s := Step(ALL_BUT_T, p, s, RetryCall(0, "tenant-a", 1000));
    p, s := Step(ALL_BUT_T, p, s, Enqueue(3));
  }

  lemma BothRunningPath() returns (p: Path, s: State)
    ensures At(ALL_BUT_T, p, s) && Refers(s) && |s.tally| == 1 && s.tally[0].indexed == 0 && s.docs == []
    ensures s.actors == [Gone, Running(0, 1, 3, true), Running(0, 1, 3, true), Gone]
  {
    p, s := ReapedWhileRunning();
    p, s := Step(ALL_BUT_T, p, s, Pop(2));
    p, s := Step(ALL_BUT_T, p, s, Start(2));
  }

  lemma IndexedTwicePath() returns (p: Path, s: State)
    ensures At(ALL_BUT_T, p, s) && Refers(s) && |s.tally| == 1 && s.tally[0].indexed == 2
  {
    p, s := BothRunningPath();
    p, s := Step(ALL_BUT_T, p, s, Persist(1));
    p, s := Step(ALL_BUT_T, p, s, Persist(2));
  }

  /** Without (T): a slow worker is reaped, the user retries, and the file is indexed twice. */
  lemma TIsNeeded()
    ensures exists s :: Reaches(ALL_BUT_T, s)
                        && |s.tally| == 1 && s.tally[0].indexed == 2
  {
    var p, s := IndexedTwicePath();
    SoundIsRun(ALL_BUT_T, p);
  }

  lemma TokensLeft(s: State)
    requires s.actors == [Gone] && (s.queue == [] || s.queue == [JobPayload(0)])
    ensures Tokens(s, 0) == |s.queue|
  {
    assert s.actors[1..] == [];
    assert Sum(s.actors, WaitingFn(0)) == WaitingFn(0)(Gone) + Sum(s.actors[1..], WaitingFn(0)) == 0;
    assert Sum(s.actors, BusyFn(0)) == BusyFn(0)(Gone) + Sum(s.actors[1..], BusyFn(0)) == 0;
    if s.queue == [JobPayload(0)] {
      assert s.queue[1..] == [];
      assert Sum(s.queue, QueuedFn(0)) == QueuedFn(0)(JobPayload(0)) + Sum(s.queue[1..], QueuedFn(0)) == 1;
    }
  }

  /** An upload call whose push raised, with or without having pushed. */
  lemma PushRaisedPath(asm: Assumptions, pushed: bool) returns (p: Path, s: State)
    requires asm.e ==> !pushed
    ensures At(asm, p, s) && Refers(s) && s.clock == 0
    ensures s.queue == (if pushed then [JobPayload(0)] else []) && s.actors == [EnqueueFailed(0, "timeout")]
    ensures s.jobs == [NewRow(File(3), 0)] && s.docs == [] && |s.tally| == 1
  {
    p, s := Begin(asm);
    p, s := Step(asm, p, s, UploadCall(File(3), 0));
    p, s := Step(asm, p, s, EnqueueRaises(0, pushed, "timeout"));
  }

  lemma FailedButQueuedPath() returns (p: Path, s: State)
    ensures At(ALL_BUT_E, p, s) && |s.jobs| == 1 && s.jobs[0].status == Failed && s.actors == [Gone] && s.queue == [JobPayload(0)]
  {
    p, s := PushRaisedPath(ALL_BUT_E, true);
    p, s := Step(ALL_BUT_E, p, s, FailUnqueued(0));
  }

  /** Without (E): a push that raised leaves a failed job in the queue. */
  lemma EIsNeeded()
    ensures exists s :: Reaches(ALL_BUT_E, s)
                        && |s.jobs| == 1 && s.jobs[0].status == Failed && Tokens(s, 0) == 1
  {
    var p, s := FailedButQueuedPath();
    TokensLeft(s);
    SoundIsRun(ALL_BUT_E, p);
  }

  lemma LostJobPath() returns (p: Path, s: State)
    ensures At(ALL_BUT_C, p, s) && |s.jobs| == 1 && s.jobs[0].status == Pending && s.actors == [Gone] && s.queue == []
  {
    p, s := Begin(ALL_BUT_C);
    p, s := Step(ALL_BUT_C, p, s, UploadCall(File(3), 0));
    p, s := Step(ALL_BUT_C, p, s, Crash(0));
  }

  /** Without (C): a call that dies before its push leaves a pending job that nobody will start. */
  lemma CIsNeeded()
    ensures exists s :: Reaches(ALL_BUT_C, s)
                        && |s.jobs| == 1 && s.jobs[0].status == Pending && Tokens(s, 0) == 0
  {
    var p, s := LostJobPath();
    TokensLeft(s);
    SoundIsRun(ALL_BUT_C, p);
  }

  lemma RetriedAfterStoring() returns (p: Path, s: State)
    ensures At(ALL_BUT_P, p, s) && Refers(s)
    ensures s.queue == [JobPayload(0)] && s.actors == [Gone, Reaping] && |s.docs| == 1
    ensures |s.jobs| == |s.tally| == 1 && s.jobs[0].status == Pending && s.jobs[0].attempts == 1
    ensures s.jobs[0].maxAttempts == 3 && HasRawFile(s.jobs[0]) && s.tally[0].indexed == 1
  {
    p, s := StartedPath(ALL_BUT_P, 0);
    p, s := Step(ALL_BUT_P, p, s, Persist(1));
    p, s := Step(ALL_BUT_P, p, s, CompleteFails(1, "no connection available"));
    p, s := Step(ALL_BUT_P, p, s, HandleError(1));
    assert s.actors == [Gone, Delaying(0)] && s.jobs[0].status == Pending;
    p, s := Step(ALL_BUT_P, p, s, Enqueue(1));
  }

  lemma PoppedAgainPath() returns (p: Path, s: State)
    ensures At(ALL_BUT_P, p, s) && Refers(s) && s.queue == [] && s.actors == [Gone, Popped(0)] && |s.docs| == 1
    ensures |s.jobs| == |s.tally| == 1 && s.jobs[0].status == Pending && s.jobs[0].attempts == 1
    ensures s.jobs[0].maxAttempts == 3 && HasRawFile(s.jobs[0]) && s.tally[0].indexed == 1
  {
    p, s := RetriedAfterStoring();
    p, s := Step(ALL_BUT_P, p, s, Reap(1, 900));
    p, s := Step(ALL_BUT_P, p, s, Pop(1));
  }

  lemma SecondAttemptPath() returns (p: Path, s: State)
    ensures At(ALL_BUT_P, p, s) && Refers(s) && |s.jobs| == |s.tally| == 1 && |s.docs| == 1
    ensures s.actors == [Gone, Running(0, 2, 3, true)] && HasRawFile(s.jobs[0]) && s.tally[0].indexed == 1
  {
    p, s := PoppedAgainPath();
    p, s := Step(ALL_BUT_P, p, s, Start(1));
  }

  lemma IndexedAgainPath() returns (p: Path, s: State)
    ensures At(ALL_BUT_P, p, s) && |s.jobs| == |s.tally| == 1
    ensures s.jobs[0].status == Completed && s.tally[0].indexed == 2
  {
    p, s := SecondAttemptPath();
    p, s := Step(ALL_BUT_P, p, s, Persist(1));
    p, s := Step(ALL_BUT_P, p, s, Complete(1));
  }

  /** Without (P): a failure after the document was stored stores it again on the retry. */
  lemma PIsNeeded()
    ensures exists s :: Reaches(ALL_BUT_P, s)
                        && |s.jobs| == |s.tally| == 1 && s.jobs[0].status == Completed && s.tally[0].indexed == 2
  {
    var p, s := IndexedAgainPath();
    SoundIsRun(ALL_BUT_P, p);
  }

  lemma CanceledUnqueuedPath() returns (p: Path, s: State)
    ensures At(ALL, p, s) && Refers(s)
    ensures |s.jobs| == 1 && s.jobs[0].status == Canceled && s.actors == [EnqueueFailed(0, "timeout")]
  {
    p, s := PushRaisedPath(ALL, false);
    p, s := Step(ALL, p, s, CancelCall(0, "tenant-a", 0));
  }

  /** Canceled is not final, all assumptions granted: the upload call that could not queue the job fails it. */
  lemma CancelIsOverwritten()
    ensures exists s, a ::
              && Reaches(ALL, s)
              && Refers(s) && Enabled(s, a) && Allows(ALL, s, a)
              && |s.jobs| == |Next(s, a).jobs| == 1
              && s.jobs[0].status == Canceled && Next(s, a).jobs[0].status == Failed
  {
    var p, s := CanceledUnqueuedPath();
    SoundIsRun(ALL, p);
    assert Next(s, FailUnqueued(0)).jobs[0].status == Failed;
  }

  lemma FirstAttemptFailedPath() returns (p: Path, s: State)
    ensures At(ALL_BUT_S, p, s) && Refers(s) && s.clock == 5 && |s.jobs| == 1 && s.jobs[0].status == Pending
    ensures s.jobs[0].tenant == "tenant-a" && s.jobs[0].startedAt == Some(5)
  {
    p, s := StartedPath(ALL_BUT_S, 5);
    p, s := Step(ALL_BUT_S, p, s, AttemptFails(1, "storage unavailable"));
    p, s := Step(ALL_BUT_S, p, s, HandleError(1));
  }

  lemma StaleCancelPath() returns (p: Path, s: State)
    ensures At(ALL_BUT_S, p, s) && |s.jobs| == 1 && s.jobs[0].status == Canceled && !TimesOrdered(s.jobs[0])
  {
    p, s := FirstAttemptFailedPath();
    p, s := Step(ALL_BUT_S, p, s, CancelCall(0, "tenant-a", 3));
  }

  /** Without (S): a cancel that read the row before the attempt closes it before it started. */
  lemma SIsNeeded()
    ensures exists s :: Reaches(ALL_BUT_S, s)
                        && |s.jobs| == 1 && s.jobs[0].status == Canceled && !TimesOrdered(s.jobs[0])
  {
    var p, s := StaleCancelPath();
    SoundIsRun(ALL_BUT_S, p);
  }
}

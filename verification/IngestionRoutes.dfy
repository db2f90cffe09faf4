/**
 The upload, retry and cancel calls (app/api/routes/ingestion.py) as actors of the
 protocol, with every worker and every other call free to act between their statements.
 */
module IngestionRoutes {
  import opened Prelude
  import opened JobRows
  import opened JobProtocol
  import opened ProtocolPaths
  import opened JobRepository
  import opened Deployment

  /** 202 or 200, 404, 409 and 503. */
  datatype Reply = Done(job: JobId) | NotFound | Conflict | QueueUnavailable

  function QueueError(error: string): string {
    "Fila de ingestao indisponivel: " + error
  }

  /** (E) rules out a push that took effect and raised. */
  ghost predicate Possible(asm: Assumptions, fault: Option<PushFault>) {
    asm.e && fault.Some? ==> !fault.value.pushed
  }

  /** What a call does once its job is pending: push, or fail the job it could not push. */
  function QueueActions(me: ActorId, fault: Option<PushFault>): seq<Action> {
    if fault == None then [Action.Enqueue(me)]
    else [EnqueueRaises(me, fault.value.pushed, QueueError(fault.value.error)), FailUnqueued(me)]
  }

  /** Action `n` of the path is `a`, taken in the state `At(n)` before it. */
  ghost predicate RanAt(p: Path, n: nat, a: Action) {
    n < |p.actions| && |p.states| == |p.actions| + 1 && p.actions[n] == a
  }

  /** What a path has recorded stays recorded. */
  lemma RanStill(p: Path, q: Path, n: nat, a: Action)
    requires RanAt(p, n, a) && Continues(p, q) && |q.states| == |q.actions| + 1
    ensures RanAt(q, n, a) && q.states[n] == p.states[n] && q.actions[..n + 1] == p.actions[..n + 1]
  {
  }

  /** The statement of a retry or cancel found the row in this status, and of this tenant. */
  ghost predicate FoundAs(s: State, id: JobId, tenant: string, status: Status) {
    id < |s.jobs| && s.jobs[id].tenant == tenant && s.jobs[id].status == status
  }

  /** The `try` of upload and retry: enqueue, or fail the job and answer 503. */
  method QueueOrFail(db: Database, queue: RedisIngestionQueue, mon: Monitor, repo: IngestionJobRepository,
                     ghost me: ActorId, j: JobId, fault: Option<PushFault>)
    returns (reply: Reply)
    requires repo.db == db && mon.Follows(db, queue) && me < |mon.state.actors| && mon.state.actors[me] == Created(j)
    requires Possible(mon.asm, fault)
    modifies db, queue, mon
    ensures mon.Follows(db, queue) && Continues(old(mon.path), mon.path)
    ensures me < |mon.state.actors| && mon.state.actors[me] == Gone
    ensures mon.did(me) == old(mon.did)(me) + QueueActions(me, fault)
    ensures reply == if fault == None then Done(j) else QueueUnavailable
    ensures fault.Some? ==>
              && j < |db.jobs| && db.jobs[j].status == Failed
              && db.jobs[j].errorMessage == db.jobs[j].lastError == Some("Fila de ingestao indisponivel: " + fault.value.error)
  {
    var pushed := Push(db, queue, mon, me, j, fault);
    if pushed.Ok? {
      return Done(j);
    }
    Interfere(db, queue, mon, me);
    FailUnqueuedJob(db, queue, mon, repo, me, j, QueueError(pushed.error));
    reply := QueueUnavailable;
  }

  method Push(db: Database, queue: RedisIngestionQueue, mon: Monitor, ghost me: ActorId, j: JobId,
              fault: Option<PushFault>)
    returns (pushed: Result<(), string>)
    requires mon.Follows(db, queue) && me < |mon.state.actors| && mon.state.actors[me] == Created(j)
    requires Possible(mon.asm, fault)
    modifies queue, mon
    ensures mon.Follows(db, queue) && Continues(old(mon.path), mon.path)
    ensures pushed == if fault == None then Ok(()) else Err(fault.value.error)
    ensures mon.did(me) == old(mon.did)(me) + [QueueActions(me, fault)[0]]
    ensures me < |mon.state.actors|
    ensures mon.state.actors[me] == if pushed.Ok? then Gone else EnqueueFailed(j, QueueError(pushed.error))
  {
    pushed := queue.Enqueue(j, fault);
    if pushed.Ok? {
      mon.Take(Action.Enqueue(me));
    } else {
      mon.Take(EnqueueRaises(me, fault.value.pushed, QueueError(pushed.error)));
    }
  }

  method FailUnqueuedJob(db: Database, queue: RedisIngestionQueue, mon: Monitor, repo: IngestionJobRepository,
                         ghost me: ActorId, j: JobId, error: string)
    requires repo.db == db && mon.Follows(db, queue)
    requires me < |mon.state.actors| && mon.state.actors[me] == EnqueueFailed(j, error)
    modifies db, mon
    ensures mon.Follows(db, queue) && Continues(old(mon.path), mon.path)
    ensures me < |mon.state.actors| && mon.state.actors[me] == Gone
    ensures mon.did(me) == old(mon.did)(me) + [FailUnqueued(me)]
    ensures j < |db.jobs| && db.jobs[j].status == Failed
    ensures db.jobs[j].errorMessage == db.jobs[j].lastError == Some(error)
  {
    AtRefers(mon.asm, mon.path, mon.state);
    assert PcRefers(mon.state.actors[me], |mon.state.jobs|, mon.state.docs);
    var _ := repo.FailJob(j, error);
    mon.Take(FailUnqueued(me));
  }

  /** Upload: the row is created first, then pushed; `me` is the call. */
  method UploadDocument(db: Database, queue: RedisIngestionQueue, mon: Monitor, u: Upload, fault: Option<PushFault>)
    returns (reply: Reply, ghost me: ActorId)
    requires mon.Follows(db, queue) && u.maxAttempts > 0 && Possible(mon.asm, fault)
    modifies db, queue, mon
    ensures mon.Follows(db, queue) && Continues(old(mon.path), mon.path)
    ensures me == |old(mon.state.actors)| && RanAt(mon.path, |old(mon.path.actions)|, UploadCall(u, old(db.clock)))
    ensures mon.did(me) == old(mon.did)(me) + QueueActions(me, fault)
    ensures reply == if fault == None then Done(|old(db.jobs)|) else QueueUnavailable
    ensures reply == QueueUnavailable ==>
              && |old(db.jobs)| < |db.jobs| && db.jobs[|old(db.jobs)|].status == Failed
              && db.jobs[|old(db.jobs)|].lastError == Some("Fila de ingestao indisponivel: " + fault.value.error)
  {
    var repo := new IngestionJobRepository(db);
    me := |mon.state.actors|;
    var j := CreateRow(db, queue, mon, repo, u);
    ghost var created, n := mon.path, |mon.path.actions| - 1;
    Interfere(db, queue, mon, me);
    reply := QueueOrFail(db, queue, mon, repo, me, j, fault);
    RanStill(created, mon.path, n, UploadCall(u, old(db.clock)));
  }

  method CreateRow(db: Database, queue: RedisIngestionQueue, mon: Monitor, repo: IngestionJobRepository, u: Upload)
    returns (j: JobId)
    requires repo.db == db && mon.Follows(db, queue) && u.maxAttempts > 0
    modifies db, mon
    ensures mon.Follows(db, queue) && Continues(old(mon.path), mon.path)
    ensures j == |old(db.jobs)| && |db.jobs| == j + 1
    ensures |mon.path.actions| == |old(mon.path.actions)| + 1
    ensures RanAt(mon.path, |old(mon.path.actions)|, UploadCall(u, old(db.clock)))
    ensures |mon.state.actors| == |old(mon.state.actors)| + 1 && mon.did == old(mon.did)
    ensures mon.state.actors[|old(mon.state.actors)|] == Created(j)
  {
    var job;
    j, job := repo.CreateJob(u);
    mon.Take(UploadCall(u, db.clock));
  }

  /** `retry_failed_job` in the transaction that read the row at `at`. */
  method RetryRow(db: Database, queue: RedisIngestionQueue, mon: Monitor, repo: IngestionJobRepository,
                  tenant: string, id: JobId, at: int)
    returns (retried: Option<Job>)
    requires repo.db == db && mon.Follows(db, queue) && id < |db.jobs| && at <= db.clock
    modifies db, mon
    ensures mon.Follows(db, queue) && Continues(old(mon.path), mon.path)
    ensures mon.path.actions == old(mon.path.actions) + [RetryCall(id, tenant, at)]
    ensures RanAt(mon.path, |old(mon.path.actions)|, RetryCall(id, tenant, at))
    ensures mon.path.states[|old(mon.path.actions)|] == old(mon.state)
    ensures retried.Some? <==> FoundAs(old(mon.state), id, tenant, Failed)
    ensures retried.Some? ==>
              && |mon.state.actors| == |old(mon.state.actors)| + 1
              && mon.state.actors[|old(mon.state.actors)|] == Created(id)
    ensures retried == None ==> db.jobs == old(db.jobs)
  {
    retried := repo.RetryFailedJob(tenant, id, at);
    mon.Take(RetryCall(id, tenant, at));
  }

  /**
   Retry.  The row is read first; other calls may come between the read and the update,
   which therefore checks again.  A job of another tenant is not found.  `n` is when the
   update ran: the call succeeds exactly if the row was failed when read and still then.
   */
  method RetryUploadJob(db: Database, queue: RedisIngestionQueue, mon: Monitor, tenant: string, id: JobId,
                        fault: Option<PushFault>)
    returns (reply: Reply, ghost n: nat)
    requires mon.Follows(db, queue) && Possible(mon.asm, fault)
    modifies db, queue, mon
    ensures mon.Follows(db, queue) && Continues(old(mon.path), mon.path)
    ensures reply == NotFound <==> !(id < |old(db.jobs)| && old(db.jobs)[id].tenant == tenant)
    ensures !FoundAs(old(mon.state), id, tenant, Failed) ==>
              (reply == NotFound || reply == Conflict) && mon.path == old(mon.path)
    ensures FoundAs(old(mon.state), id, tenant, Failed) ==>
              && n >= |old(mon.path.actions)| && RanAt(mon.path, n, RetryCall(id, tenant, old(db.clock)))
              && if FoundAs(mon.path.states[n], id, tenant, Failed)
                 then reply == if fault == None then Done(id) else QueueUnavailable
                 else reply == Conflict
    ensures FoundAs(old(mon.state), id, tenant, Failed) && reply != Conflict ==>
              var me := |mon.path.states[n].actors|;
              mon.did(me) == ActionsOf(mon.path.actions[..n + 1], me) + QueueActions(me, fault)
    ensures reply == NotFound ==> db.jobs == old(db.jobs) && queue.payloads == old(queue.payloads)
    ensures reply == QueueUnavailable ==>
              fault.Some? && id < |db.jobs| && db.jobs[id].status == Failed
              && db.jobs[id].lastError == Some("Fila de ingestao indisponivel: " + fault.value.error)
  {
    n := 0;
    var repo := new IngestionJobRepository(db);
    var job := repo.GetJob(tenant, id);
    if job == None {
      return NotFound, n;
    }
    if job.value.status != Failed {
      return Conflict, n;
    }
    reply, n := RetryOnceRead(db, queue, mon, repo, tenant, id, fault);
  }

  /** After the read, others may come first. */
  method RetryOnceRead(db: Database, queue: RedisIngestionQueue, mon: Monitor, repo: IngestionJobRepository,
                       tenant: string, id: JobId, fault: Option<PushFault>)
    returns (reply: Reply, ghost n: nat)
    requires repo.db == db && mon.Follows(db, queue) && id < |db.jobs| && Possible(mon.asm, fault)
    modifies db, queue, mon
    ensures mon.Follows(db, queue) && Continues(old(mon.path), mon.path)
    ensures n >= |old(mon.path.actions)| && RanAt(mon.path, n, RetryCall(id, tenant, old(db.clock)))
    ensures if FoundAs(mon.path.states[n], id, tenant, Failed)
            then reply == if fault == None then Done(id) else QueueUnavailable
            else reply == Conflict
    ensures reply != Conflict ==>
              var me := |mon.path.states[n].actors|;
              mon.did(me) == ActionsOf(mon.path.actions[..n + 1], me) + QueueActions(me, fault)
    ensures reply == QueueUnavailable ==>
              id < |db.jobs| && db.jobs[id].status == Failed
              && db.jobs[id].lastError == Some("Fila de ingestao indisponivel: " + fault.value.error)
  {
    var at := db.clock;
    Others(db, queue, mon, id);
    n := |mon.path.actions|;
    reply := RetryAndQueue(db, queue, mon, repo, tenant, id, at, fault);
  }

  /** From the update on. */
  method RetryAndQueue(db: Database, queue: RedisIngestionQueue, mon: Monitor, repo: IngestionJobRepository,
                       tenant: string, id: JobId, at: int, fault: Option<PushFault>)
    returns (reply: Reply)
    requires repo.db == db && mon.Follows(db, queue) && id < |db.jobs| && at <= db.clock && Possible(mon.asm, fault)
    modifies db, queue, mon
    ensures mon.Follows(db, queue) && Continues(old(mon.path), mon.path)
    ensures var n := |old(mon.path.actions)|;
            && RanAt(mon.path, n, RetryCall(id, tenant, at)) && mon.path.states[n] == old(mon.state)
            && (reply != Conflict ==>
                  var me := |old(mon.state.actors)|;
                  mon.did(me) == ActionsOf(mon.path.actions[..n + 1], me) + QueueActions(me, fault))
    ensures reply == Conflict <==> !FoundAs(old(mon.state), id, tenant, Failed)
    ensures reply != Conflict ==> reply == if fault == None then Done(id) else QueueUnavailable
    ensures reply == QueueUnavailable ==>
              id < |db.jobs| && db.jobs[id].status == Failed
              && db.jobs[id].lastError == Some("Fila de ingestao indisponivel: " + fault.value.error)
  {
    ghost var me, n := |mon.state.actors|, |mon.path.actions|;
    var retried := RetryRow(db, queue, mon, repo, tenant, id, at);
    ghost var ran := mon.path;
    assert ran.actions[..n + 1] == ran.actions;
    if retried == None {
      return Conflict;
    }
    assert mon.did(me) == ActionsOf(ran.actions, me);
    Interfere(db, queue, mon, me);
    reply := QueueOrFail(db, queue, mon, repo, me, id, fault);
    RanStill(ran, mon.path, n, RetryCall(id, tenant, at));
  }

  /** Cancel: 200 exactly if the row was pending when read and when the statement ran, and then it is canceled. */
  method CancelUploadJob(db: Database, queue: RedisIngestionQueue, mon: Monitor, tenant: string, id: JobId)
    returns (reply: Reply, ghost n: nat)
    requires mon.Follows(db, queue) && !mon.asm.s
    modifies db, queue, mon
    ensures mon.Follows(db, queue) && Continues(old(mon.path), mon.path)
    ensures reply == NotFound <==> !(id < |old(db.jobs)| && old(db.jobs)[id].tenant == tenant)
    ensures !FoundAs(old(mon.state), id, tenant, Pending) ==>
              (reply == NotFound || reply == Conflict) && mon.path == old(mon.path)
    ensures FoundAs(old(mon.state), id, tenant, Pending) ==>
              && n >= |old(mon.path.actions)| && RanAt(mon.path, n, CancelCall(id, tenant, old(db.clock)))
              && n == |mon.path.actions| - 1
              && reply == if FoundAs(mon.path.states[n], id, tenant, Pending) then Done(id) else Conflict
    ensures reply.Done? ==>
              && old(db.jobs)[id].status == Pending && id < |db.jobs| && db.jobs[id].status == Canceled
              && db.jobs[id].errorMessage == Some("Upload cancelado pelo usuario.") && db.jobs[id].lastError == None
    ensures reply != QueueUnavailable
  {
    n := 0;
    var repo := new IngestionJobRepository(db);
    var job := repo.GetJob(tenant, id);
    if job == None {
      return NotFound, n;
    }
    if job.value.status != Pending {
      return Conflict, n;
    }
    var at := db.clock;
    Others(db, queue, mon, id);
    n := |mon.path.actions|;
    var canceled := CancelRow(db, queue, mon, repo, tenant, id, at);
    reply := if canceled == None then Conflict else Done(id);
  }

  method CancelRow(db: Database, queue: RedisIngestionQueue, mon: Monitor, repo: IngestionJobRepository,
                   tenant: string, id: JobId, at: int)
    returns (canceled: Option<Job>)
    requires repo.db == db && mon.Follows(db, queue) && id < |db.jobs| && at <= db.clock && !mon.asm.s
    modifies db, mon
    ensures mon.Follows(db, queue) && Continues(old(mon.path), mon.path)
    ensures mon.path.actions == old(mon.path.actions) + [CancelCall(id, tenant, at)]
    ensures mon.path.states[|old(mon.path.actions)|] == old(mon.state)
    ensures canceled.Some? <==> FoundAs(old(mon.state), id, tenant, Pending)
    ensures canceled.Some? ==>
              && id < |db.jobs| && db.jobs[id].status == Canceled
              && db.jobs[id].errorMessage == Some("Upload cancelado pelo usuario.") && db.jobs[id].lastError == None
  {
    canceled := repo.CancelPendingJob(tenant, id, at);
    mon.Take(CancelCall(id, tenant, at));
  }

  /** Everybody else, while this call is not an actor yet: rows are never removed and the clock never goes back. */
  method Others(db: Database, queue: RedisIngestionQueue, mon: Monitor, ghost id: JobId)
    requires mon.Follows(db, queue) && id < |db.jobs|
    modifies db, queue, mon
    ensures mon.Follows(db, queue) && Continues(old(mon.path), mon.path)
    ensures id < |db.jobs| && old(db.clock) <= db.clock && db.jobs[id].tenant == old(db.jobs[id]).tenant
  {
  }
}

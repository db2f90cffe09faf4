/**
 The shared list, the record of the run that the tables and the list stand for, and what
 everybody else may do between two statements.
 */
module Deployment {
  import opened Prelude
  import opened JobRows
  import opened JobProtocol
  import opened ProtocolBudget
  import opened ProtocolPaths
  import opened JobRepository

  datatype PushFault = PushFault(pushed: bool, error: string)

  class RedisIngestionQueue {
    var payloads: seq<Payload>

    constructor ()
      ensures payloads == []
    {
      payloads := [];
    }

    /** RPUSH through a connection that may fail, before or after the push took effect. */
    method Enqueue(j: JobId, fault: Option<PushFault>) returns (r: Result<(), string>)
      modifies this
      ensures payloads == old(payloads) + (if fault == None || fault.value.pushed then [JobPayload(j)] else [])
      ensures r == if fault == None then Ok(()) else Err(fault.value.error)
    {
      if fault == None || fault.value.pushed {
        payloads := payloads + [JobPayload(j)];
      }
      r := if fault == None then Ok(()) else Err(fault.value.error);
    }

    /** BLPOP: nothing at the end of the timeout, and nothing for a payload that is no job id. */
    method Dequeue() returns (j: Option<JobId>)
      modifies this
      ensures payloads == if old(payloads) == [] then [] else old(payloads)[1..]
      ensures j == if old(payloads) != [] && old(payloads)[0].JobPayload? then Some(old(payloads)[0].job) else None
    {
      if payloads == [] {
        j := None;
      } else {
        j := if payloads[0].JobPayload? then Some(payloads[0].job) else None;
        payloads := payloads[1..];
      }
    }
  }

  /** The actions of actor `w` in a run, in order. */
  ghost function ActionsOf(run: seq<Action>, w: ActorId): seq<Action> {
    if run == [] then []
    else
      var n := |run| - 1;
      ActionsOf(run[..n], w) + (if Acting(run[n]) == Some(w) then [run[n]] else [])
  }

  /** How many rows the reaps of actor `w` failed, among the first `n` actions of a path. */
  ghost function ReapedBy(p: Path, n: nat, w: ActorId): int
    requires n <= |p.actions| && |p.states| == |p.actions| + 1
  {
    if n == 0 then 0
    else
      ReapedBy(p, n - 1, w)
      + (if p.actions[n - 1].Reap? && p.actions[n - 1].actor == w
         then Sum(p.states[n - 1].jobs, StaleFn(p.actions[n - 1].staleAfter, p.states[n - 1].clock)) else 0)
  }

  lemma {:induction false} ReapedByPrefix(p: Path, q: Path, n: nat, w: ActorId)
    requires n <= |p.actions| && |p.states| == |p.actions| + 1 && |q.states| == |q.actions| + 1 && Continues(p, q)
    ensures ReapedBy(q, n, w) == ReapedBy(p, n, w)
  {
    if n == 0 {
    } else {
      ReapedByPrefix(p, q, n - 1, w);
    }
  }

  /**
   The protocol state that the tables and the list stand for, and how it came about; `did`
   and `reaps` are the path again, actor by actor.
   */
  class Monitor {
    ghost const asm: Assumptions
    ghost var state: State
    ghost var path: Path
    ghost var did: ActorId -> seq<Action>
    ghost var reaps: ActorId -> int

    constructor (ghost asm: Assumptions)
      ensures this.asm == asm && At(asm, path, state) && state == InitialState() && Logged()
    {
      this.asm := asm;
      this.state := InitialState();
      this.path := Path([InitialState()], []);
      this.did := (w: ActorId) => [];
      this.reaps := (w: ActorId) => 0;
    }

    ghost predicate Logged()
      reads this
    {
      && |path.states| == |path.actions| + 1
      && (forall w {:trigger ActionsOf(path.actions, w)} :: did(w) == ActionsOf(path.actions, w))
      && (forall w {:trigger ReapedBy(path, |path.actions|, w)} :: reaps(w) == ReapedBy(path, |path.actions|, w))
    }

    ghost predicate Follows(db: Database, queue: RedisIngestionQueue)
      reads this, db, queue
    {
      && At(asm, path, state) && Logged()
      && state.jobs == db.jobs && state.docs == db.docs && state.clock == db.clock
      && state.queue == queue.payloads
    }

    ghost method Take(a: Action)
      requires At(asm, path, state) && Logged() && Enabled(state, a) && Allows(asm, state, a)
      modifies this
      ensures At(asm, path, state) && Logged() && Refers(old(state)) && state == Next(old(state), a)
      ensures path == Path(old(path).states + [state], old(path).actions + [a]) && Continues(old(path), path)
      ensures Acting(a).None? ==> did == old(did)
      ensures Acting(a).Some? ==>
                && did(Acting(a).value) == old(did)(Acting(a).value) + [a]
                && reaps(Acting(a).value) == old(reaps)(Acting(a).value) + ReapedNow(old(state), a, Acting(a).value)
    {
      AtRefers(asm, path, state);
      ghost var before, s, done, reaped := path, state, did, reaps;
      path, state := Step(asm, path, state, a);
      if Acting(a).Some? {
        did := (w: ActorId) => done(w) + if Acting(a) == Some(w) then [a] else [];
      }
      reaps := (w: ActorId) => reaped(w) + ReapedNow(s, a, w);
      forall w ensures did(w) == ActionsOf(path.actions, w) && reaps(w) == ReapedBy(path, |path.actions|, w) {
        LogExtends(before, path, s, a, w);
      }
    }
  }

  lemma LogExtends(p: Path, q: Path, s: State, a: Action, w: ActorId)
    requires |p.states| == |p.actions| + 1 && |q.states| == |q.actions| + 1 && Continues(p, q)
    requires q.actions == p.actions + [a] && p.states[|p.actions|] == s
    ensures ActionsOf(q.actions, w) == ActionsOf(p.actions, w) + (if Acting(a) == Some(w) then [a] else [])
    ensures ReapedBy(q, |q.actions|, w) == ReapedBy(p, |p.actions|, w) + ReapedNow(s, a, w)
  {
    assert q.actions[..|p.actions|] == p.actions;
    ReapedByPrefix(p, q, |p.actions|, w);
    assert q.states[|p.actions|] == s;
  }

  /** How many rows one action of actor `w` fails as a reap. */
  ghost function ReapedNow(s: State, a: Action, w: ActorId): int {
    if a.Reap? && a.actor == w then Sum(s.jobs, StaleFn(a.staleAfter, s.clock)) else 0
  }

  /**
   Anything the rest of the deployment may do between two statements of actor `me`: any
   continuation of the run that leaves `me` where it is.
   */
  method Interfere(db: Database, queue: RedisIngestionQueue, mon: Monitor, ghost me: ActorId)
    requires mon.Follows(db, queue) && me < |mon.state.actors|
    modifies db, queue, mon
    ensures mon.Follows(db, queue) && me < |mon.state.actors|
    ensures mon.state.actors[me] == old(mon.state.actors[me]) && mon.did(me) == old(mon.did)(me)
    ensures mon.reaps(me) == old(mon.reaps)(me) && Continues(old(mon.path), mon.path)
  {
  }
}

/** A job and its document: in every reachable state, whatever fails, a job points to its own live document. */
module ProtocolPointers {
  import opened JobRows
  import opened JobProtocol
  import opened ProtocolTokens

  ghost predicate PointsHome(s: State, j: JobId)
    requires j < |s.jobs|
  {
    s.jobs[j].documentId.Some? ==>
      var d := s.jobs[j].documentId.value;
      d < |s.docs| && s.docs[d].live && s.docs[d].job == j
  }

  ghost predicate AllPointHome(s: State) {
    forall j :: 0 <= j < |s.jobs| ==> PointsHome(s, j)
  }

  /** Documents are only added, and only a delete of the owner's tenant ends one. */
  lemma DocsEffect(s: State, a: Action, d: DocId)
    requires Refers(s) && Enabled(s, a) && d < |s.docs|
    ensures d < |Next(s, a).docs| && Next(s, a).docs[d].job == s.docs[d].job
    ensures Next(s, a).docs[d].live == (s.docs[d].live && !(a.DeleteCall? && a.doc == d && Deletes(s, d, a.tenant)))
  {
  }

  lemma PointsHomeKept(s: State, a: Action, j: JobId)
    requires Refers(s) && Enabled(s, a) && j < |s.jobs| && PointsHome(s, j)
    ensures j < |Next(s, a).jobs| && PointsHome(Next(s, a), j)
  {
    DocumentEffect(s, a, j);
    if (a.Complete? || a.CompleteUnacknowledged?) && On(s, a, j) {
      assert PcRefers(s.actors[a.actor], |s.jobs|, s.docs);
      DocsEffect(s, a, s.actors[a.actor].doc);
    } else if s.jobs[j].documentId.Some? {
      DocsEffect(s, a, s.jobs[j].documentId.value);
    }
  }

  lemma AllPointHomeKept(s: State, a: Action)
    requires Refers(s) && Enabled(s, a) && AllPointHome(s)
    ensures AllPointHome(Next(s, a))
  {
    RefersKept(s, a);
    forall j | 0 <= j < |Next(s, a).jobs| ensures PointsHome(Next(s, a), j) {
      if j < |s.jobs| {
        PointsHomeKept(s, a, j);
      }
    }
  }

  /** No assumption is needed: not even a job completed twice points to a deleted or a foreign document. */
  lemma {:induction false} JobsPointHome(s: State, run: seq<Action>)
    requires Refers(s) && AllPointHome(s) && IsRun(s, run, NOTHING)
    ensures AllPointHome(Exec(s, run))
    decreases |run|
  {
    if run == [] {
    } else {
      AllPointHomeKept(s, run[0]);
      JobsPointHome(Next(s, run[0]), run[1..]);
    }
  }

  // ---------------------------------------------------------------- between storing and completing

  /** Under (P) a document whose job is not completed yet is not deleted. */
  ghost predicate PersistedLive(s: State)
    requires Refers(s)
  {
    forall i :: 0 <= i < |s.actors| && s.actors[i].Persisted? ==>
      PcRefers(s.actors[i], |s.jobs|, s.docs) && s.docs[s.actors[i].doc].live
  }

  lemma PersistedLiveKept(s: State, a: Action)
    requires Refers(s) && Enabled(s, a) && NoLateFailure(s, a) && PersistedLive(s)
    ensures PersistedLive(Next(s, a))
  {
    var s' := Next(s, a);
    forall i | 0 <= i < |s'.actors| && s'.actors[i].Persisted?
      ensures PcRefers(s'.actors[i], |s'.jobs|, s'.docs) && s'.docs[s'.actors[i].doc].live
    {
      assert i < |s.actors| && (s'.actors[i] == s.actors[i] || a == Persist(i));
    }
  }

  lemma {:induction false} RunKeepsPersistedLive(s: State, run: seq<Action>, asm: Assumptions)
    requires Refers(s) && PersistedLive(s) && asm.p && IsRun(s, run, asm) && IsRun(s, run, NOTHING)
    ensures PersistedLive(Exec(s, run))
    decreases |run|
  {
    if run == [] {
    } else {
      PersistedLiveKept(s, run[0]);
      RunKeepsPersistedLive(Next(s, run[0]), run[1..], asm);
    }
  }
}

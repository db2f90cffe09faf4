/** Runs written out state by state, for building them one action at a time. */
module ProtocolPaths {
  import opened JobProtocol

  /** `s` is reachable from the empty deployment under the assumptions. */
  ghost predicate Reaches(asm: Assumptions, s: State) {
    exists run :: Leads(asm, run, s)
  }

  ghost predicate Leads(asm: Assumptions, run: seq<Action>, s: State) {
    && IsRun(InitialState(), run, asm)
    && IsRun(InitialState(), run, NOTHING)
    && Exec(InitialState(), run) == s
  }

  lemma {:induction false} RunExtends(s: State, run: seq<Action>, a: Action, asm: Assumptions)
    requires Refers(s) && IsRun(s, run, asm) && IsRun(s, run, NOTHING)
    requires Enabled(Exec(s, run), a) && Allows(asm, Exec(s, run), a)
    ensures IsRun(s, run + [a], asm) && IsRun(s, run + [a], NOTHING)
    ensures Exec(s, run + [a]) == Next(Exec(s, run), a)
    decreases |run|
  {
    if run == [] {
      assert run + [a] == [a];
      assert [a][1..] == [];
    } else {
      RunExtends(Next(s, run[0]), run[1..], a, asm);
      assert (run + [a])[1..] == run[1..] + [a];
    }
  }

  /** A run written out as the states it goes through. */
  datatype Path = Path(states: seq<State>, actions: seq<Action>)

  ghost predicate Follows(asm: Assumptions, s: State, a: Action, s': State) {
    Refers(s) && Enabled(s, a) && Allows(asm, s, a) && s' == Next(s, a)
  }

  ghost predicate Sound(asm: Assumptions, p: Path) {
    && |p.states| == |p.actions| + 1
    && p.states[0] == InitialState()
    && forall i :: 0 <= i < |p.actions| ==> FollowsAt(asm, p, i)
  }

  ghost predicate FollowsAt(asm: Assumptions, p: Path, i: nat)
    requires |p.states| == |p.actions| + 1 && i < |p.actions|
  {
    Follows(asm, p.states[i], p.actions[i], p.states[i + 1])
  }

  /** `s` is where the path `p` has got to. */
  ghost predicate At(asm: Assumptions, p: Path, s: State) {
    Sound(asm, p) && p.states[|p.actions|] == s
  }

  /** `q` goes on from where `p` has got to. */
  ghost predicate Continues(p: Path, q: Path) {
    p.states <= q.states && p.actions <= q.actions
  }

  lemma Begin(asm: Assumptions) returns (p: Path, s: State)
    ensures At(asm, p, s) && s == InitialState()
  {
    s := InitialState();
    p := Path([s], []);
  }

  lemma Step(asm: Assumptions, p: Path, s: State, a: Action) returns (p': Path, s': State)
    requires At(asm, p, s) && Refers(s) && Enabled(s, a) && Allows(asm, s, a)
    ensures At(asm, p', s') && s' == Next(s, a)
    ensures p' == Path(p.states + [s'], p.actions + [a])
  {
    s' := Next(s, a);
    p' := Path(p.states + [s'], p.actions + [a]);
    forall i | 0 <= i < |p'.actions| ensures FollowsAt(asm, p', i) {
      assert i < |p.actions| ==> FollowsAt(asm, p, i);
    }
  }

  /** Wherever a path has got to, every id names something. */
  lemma AtRefers(asm: Assumptions, p: Path, s: State)
    requires At(asm, p, s)
    ensures Refers(s)
  {
    if p.actions != [] {
      assert FollowsAt(asm, p, |p.actions| - 1);
    }
  }

  /** A path without its last step. */
  lemma SoundPrefix(asm: Assumptions, p: Path) returns (q: Path, s: State, a: Action)
    requires Sound(asm, p) && |p.actions| > 0
    ensures At(asm, q, s) && Follows(asm, s, a, p.states[|p.actions|])
    ensures p.actions == q.actions + [a]
  {
    var n := |p.actions|;
    q, s, a := Path(p.states[..n], p.actions[..n - 1]), p.states[n - 1], p.actions[n - 1];
    forall i | 0 <= i < n - 1 ensures FollowsAt(asm, q, i) {
      assert FollowsAt(asm, p, i);
    }
    assert p.actions == q.actions + [a];
    assert FollowsAt(asm, p, n - 1);
  }

  lemma {:induction false} SoundIsRun(asm: Assumptions, p: Path)
    requires Sound(asm, p)
    ensures Leads(asm, p.actions, p.states[|p.actions|])
    decreases |p.actions|
  {
    if p.actions == [] {
    } else {
      var q, s, a := SoundPrefix(asm, p);
      SoundIsRun(asm, q);
      RunExtends(InitialState(), q.actions, a, asm);
    }
  }
}

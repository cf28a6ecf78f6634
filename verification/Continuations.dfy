/** Runs from any state, and the states that are reached from the start. */
module Continuations {
  import opened Interleaving
  import opened Invariant
  import opened Coordinator

  ghost predicate IsPath<S, A>(step: (S, A, S) -> bool, run: seq<S>, actions: seq<A>) {
    |run| == |actions| + 1 && forall i, j :: 0 <= i < |actions| && j == i + 1 ==> step(run[i], actions[i], run[j])
  }

  lemma PathExtends<S, A>(step: (S, A, S) -> bool, run: seq<S>, actions: seq<A>, a: A, s: S)
    requires IsPath(step, run, actions) && step(run[|actions|], a, s)
    ensures IsPath(step, run + [s], actions + [a])
  {
  }

  predicate Steps(w: World, a: Action, v: World) { Enabled(w, a) && v == Next(w, a) }

  ghost predicate Continues(w: World, run: seq<World>, actions: seq<Action>) {
    IsPath(Steps, run, actions) && run[0] == w
  }

  /** `actions` lead from `w` to `v`. */
  ghost predicate Leads(w: World, actions: seq<Action>, v: World) {
    exists run :: Continues(w, run, actions) && run[|actions|] == v
  }

  lemma LeadsNowhere(w: World)
    ensures Leads(w, [], w)
  {
    assert Continues(w, [w], []);
  }

  lemma LeadsTo(w: World, actions: seq<Action>, v: World, a: Action, u: World)
    requires Leads(w, actions, v) && Steps(v, a, u)
    ensures Leads(w, actions + [a], u)
  {
    var run :| Continues(w, run, actions) && run[|actions|] == v;
    PathExtends(Steps, run, actions, a, u);
    assert Continues(w, run + [u], actions + [a]);
  }

  lemma StepKeeps(w: World, a: Action, v: World)
    requires Inv(w) && Steps(w, a, v)
    ensures Inv(v)
  {
    ActionKeeps(w, a);
  }

  lemma {:induction false} ContinuationKeeps(w: World, run: seq<World>, actions: seq<Action>, i: nat)
    requires Inv(w) && Continues(w, run, actions) && i < |run|
    ensures Inv(run[i])
    decreases i
  {
    if i > 0 {
      ContinuationKeeps(w, run, actions, i - 1);
      StepKeeps(run[i - 1], actions[i - 1], run[i]);
    }
  }

  ghost predicate Reachable(w: World) {
    exists actions :: Leads(START, actions, w)
  }

  lemma ReachesOn(w: World, a: Action)
    requires Reachable(w) && Enabled(w, a)
    ensures Reachable(Next(w, a))
  {
    var actions :| Leads(START, actions, w);
    LeadsTo(START, actions, w, a, Next(w, a));
  }

  lemma ReachableKeeps(w: World)
    requires Reachable(w)
    ensures Inv(w)
  {
    var actions :| Leads(START, actions, w);
    var run :| Continues(START, run, actions) && run[|actions|] == w;
    forall i | 0 <= i < |actions| ensures Enabled(run[i], actions[i]) && run[i + 1] == Next(run[i], actions[i]) {
      assert Steps(run[i], actions[i], run[i + 1]);
    }
    RunKeeps(run, actions, |actions|);
  }

  /** Every state of a run is reached. */
  lemma RunIsReachable(run: seq<World>, actions: seq<Action>, i: nat)
    requires IsRun(run, actions) && i < |run|
    ensures Reachable(run[i])
  {
    var path, before := run[..i + 1], actions[..i];
    forall k | 0 <= k < i ensures Steps(path[k], before[k], path[k + 1]) {
    }
    assert Continues(START, path, before) && path[|before|] == run[i];
    assert Leads(START, before, run[i]);
  }
}

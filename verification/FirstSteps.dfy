/** The first actions of a run: a navigation session begins, and its worker forks the stack. */
module FirstSteps {
  import opened Fsm
  import opened Executor
  import opened Options
  import opened Interleaving
  import opened Continuations

  lemma NavigationBegins() returns (w: World)
    ensures Reachable(w) && w.lock == Some(NavigationPrepare)
    ensures w.exec.fsm.mode == StartingNavigation && w.exec.active == Some(StartNavigation)
    ensures w.exec.tries == Attempts(NO_TRIES, NO_TRIES, NO_TRIES, NO_TRIES, 0, 0)
  {
    LeadsNowhere(START);
    ReachesOn(START, ByGateway(NavigationOpen));
    w := NavigationOpened(START);
  }

  lemma NavigationStarts(w: World) returns (v: World)
    requires Reachable(w) && w.lock == Some(NavigationPrepare)
    requires w.exec.fsm.mode == StartingNavigation && w.exec.active == Some(StartNavigation)
    ensures Reachable(v) && Free(v) && v.exec == w.exec && StartupCheck(w.exec.fsm.generation) in v.workers
  {
    ReachesOn(w, ByGateway(NavigationHandled(Launched)));
    v := NavigationPrepared(w, Launched);
  }

  lemma StartupForks(w: World) returns (v: World)
    requires Reachable(w) && Free(w) && w.exec.fsm.mode == StartingNavigation && w.exec.active == Some(StartNavigation)
    requires StartupWait(w.exec.fsm.generation) in w.workers
    ensures Reachable(v) && Free(v) && v.exec.fsm == w.exec.fsm && v.exec.active == w.exec.active
    ensures v.exec.tries.env.pending && v.exec.tries.clear == w.exec.tries.clear
  {
    var g := w.exec.fsm.generation;
    ReachesOn(w, ByWorker(StartupLocks(g, Forked)));
    v := StartupDone(w, g, Forked);
  }
}

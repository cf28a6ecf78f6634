/** Timers, start-up workers, service workers and the mapping threads keep the
    joint invariant. */
module KeepWorkers {
  import opened Fsm
  import opened Executor
  import opened Options
  import opened Interleaving
  import opened Invariant
  import opened KeepCommands

  // ---- timeouts ---------------------------------------------------------------------

  lemma TimerRemoved(w: World, t: Timer)
    requires Inv(w) && !(Pending(w.exec.tries, t.kind) && t.attempt == Attempt(w.exec.tries, t.kind))
    ensures Inv(w.(timers := w.timers - multiset{t}))
  {
  }

  /** A timeout of an attempt that is over changes nothing. */
  lemma StaleTimeout(e: Exec, k: Kind, n: nat)
    requires ReadyInv(e.fsm, e.tries, e.queue.transitionActive)
    requires !(Pending(e.tries, k) && n == Attempt(e.tries, k))
    ensures Complete(e, k, n, false) == Quiet(e)
  {
  }

  lemma Completed(e: Exec, k: Kind, n: nat)
    requires ReadyInv(e.fsm, e.tries, e.queue.transitionActive)
    ensures var s := Complete(e, k, n, false);
      !(Pending(s.exec.tries, k) && n == Attempt(s.exec.tries, k)) && s.effect.timer == None
  {
  }

  lemma AttemptTimesOut(w: World, k: Kind)
    requires Inv(w) && Free(w) && Pending(w.exec.tries, k)
    ensures Inv(Commit(w, Complete(w.exec, k, Attempt(w.exec.tries, k), false)))
  {
    if k == TaskKind {
      TaskAcked(w, 0, false);
    } else {
      AttemptAcked(w, k, false);
    }
  }

  lemma KeepTimer(w: World, k: Kind, n: nat)
    requires Inv(w) && Free(w)
    ensures Inv(TimerFired(w, k, n))
  {
    if Pending(w.exec.tries, k) && n == Attempt(w.exec.tries, k) {
      AttemptTimesOut(w, k);
    } else {
      StaleTimeout(w.exec, k, n);
      NothingDone(w);
    }
    Completed(w.exec, k, n);
    TimerRemoved(Commit(w, Complete(w.exec, k, n, false)), Timer(k, n));
  }

  // ---- start-up workers ------------------------------------------------------------------

  lemma StartupCheckCore(w: World, g: nat)
    requires CoreInv(w) && StartupCheck(g) in w.workers
    ensures CoreInv(StartupChecked(w, g))
  {
    var now := w.exec.fsm.generation;
    var v := StartupChecked(w, g);
    if NavigationCurrent(w.exec.fsm, g) {
      assert Startups(v.workers, now) == Startups(w.workers, now);
    } else {
      assert g != now;
    }
    assert forall c, n :: v.workers[Service(c, now, n)] == w.workers[Service(c, now, n)];
  }

  lemma KeepStartupCheck(w: World, g: nat)
    requires Inv(w) && StartupCheck(g) in w.workers
    ensures Inv(StartupChecked(w, g))
  {
    StartupCheckCore(w, g);
  }

  lemma KeepSleeper(w: World, g: nat)
    requires Inv(w) && StartupSleep(g) in w.workers
    ensures Inv(Ended(w, StartupSleep(g)))
  {
  }

  lemma StartupStale(w: World, g: nat)
    requires Inv(w) && Free(w) && StartupWait(g) in w.workers && !NavigationCurrent(w.exec.fsm, g)
    ensures Inv(Commit(Ended(w, StartupWait(g)), Quiet(w.exec)))
  {
    var v := Commit(Ended(w, StartupWait(g)), Quiet(w.exec));
    StartupStaleCore(w, g);
    SessionsFramed(w, v);
    RecordsFramed(w, v);
  }

  lemma StartupStaleCore(w: World, g: nat)
    requires CoreInv(w) && Free(w) && StartupWait(g) in w.workers && !NavigationCurrent(w.exec.fsm, g)
    ensures CoreInv(Commit(Ended(w, StartupWait(g)), Quiet(w.exec)))
  {
    var now := w.exec.fsm.generation;
    var v := Commit(Ended(w, StartupWait(g)), Quiet(w.exec));
    assert forall c, n :: v.workers[Service(c, now, n)] == w.workers[Service(c, now, n)];
  }

  lemma AbortState(w: World, g: nat)
    requires CoreInv(w) && Free(w) && StartupWait(g) in w.workers && NavigationCurrent(w.exec.fsm, g)
    ensures StateInv(Commit(Ended(w, StartupWait(g)), Quiet(Abort(w.exec))))
  {
  }

  lemma AbortThreads(w: World, g: nat)
    requires CoreInv(w) && Free(w) && StartupWait(g) in w.workers && NavigationCurrent(w.exec.fsm, g)
    ensures ThreadInv(Commit(Ended(w, StartupWait(g)), Quiet(Abort(w.exec))))
  {
  }

  lemma StartupAborts(w: World, g: nat)
    requires Inv(w) && Free(w) && StartupWait(g) in w.workers && NavigationCurrent(w.exec.fsm, g)
    ensures Inv(Commit(Ended(w, StartupWait(g)), Quiet(Abort(w.exec))))
  {
    var v := Commit(Ended(w, StartupWait(g)), Quiet(Abort(w.exec)));
    AbortState(w, g);
    AbortThreads(w, g);
    SessionsFramed(w, v);
    RecordsFramed(w, v);
  }

  function StartupForks(w: World, g: nat): World {
    Commit(Ended(w, StartupWait(g)), StartupSection(w.exec, g, Forked))
  }

  lemma ForkCore(w: World, g: nat)
    requires CoreInv(w) && Free(w) && StartupWait(g) in w.workers && NavigationCurrent(w.exec.fsm, g)
    ensures CoreInv(StartupForks(w, g))
  {
  }

  lemma ForkBorn(w: World, g: nat)
    requires SessionsInv(w) && StartupWait(g) in w.workers
    ensures BornInv(w.workers - multiset{StartupWait(g)} + multiset{StartupSleep(g)}, w.history.sessions)
  {
  }

  lemma ForkSessions(w: World, g: nat)
    requires SessionsInv(w) && StartupWait(g) in w.workers && NavigationCurrent(w.exec.fsm, g)
    ensures SessionsInv(StartupForks(w, g))
  {
    ForkBorn(w, g);
    var v := StartupForks(w, g);
    assert v.workers == w.workers - multiset{StartupWait(g)} + multiset{StartupSleep(g)};
    assert v.history.acts == w.history.acts + [(g, |w.history.sessions|)];
  }

  lemma ForkRecords(w: World, g: nat)
    requires RecordInv(w) && NavigationCurrent(w.exec.fsm, g)
    ensures RecordInv(StartupForks(w, g))
  {
  }

  lemma ForkKeeps(w: World, g: nat)
    requires Inv(w) && Free(w) && StartupWait(g) in w.workers && NavigationCurrent(w.exec.fsm, g)
    ensures Inv(StartupForks(w, g))
  {
    ForkCore(w, g);
    ForkSessions(w, g);
    ForkRecords(w, g);
  }

  lemma KeepStartup(w: World, g: nat, o: StartupOutcome)
    requires Inv(w) && Free(w) && StartupWait(g) in w.workers
    ensures Inv(StartupDone(w, g, o))
  {
    if !NavigationCurrent(w.exec.fsm, g) {
      StartupStale(w, g);
    } else if o.Forked? {
      ForkKeeps(w, g);
    } else {
      StartupAborts(w, g);
    }
  }

  // ---- service workers ---------------------------------------------------------------------

  lemma ServiceLockState(w: World, c: Command, g: nat, n: nat)
    requires StateInv(w) && BornInv(w.workers, w.history.sessions) && Free(w) && Service(c, g, n) in w.workers
    ensures StateInv(ServiceLocked(w, c, g, n))
  {
  }

  /** A worker that takes the lock in its own session is counted as before. */
  lemma ServiceLockCounts(w: World, c: Command, g: nat, n: nat, d: Command)
    requires Free(w) && Service(c, g, n) in w.workers && NavigationCurrent(w.exec.fsm, g)
    ensures var v := ServiceLocked(w, c, g, n); Services(v.workers, v.lock, d, g) == Services(w.workers, w.lock, d, g)
  {
  }

  lemma ServiceLockCurrent(w: World, c: Command, g: nat, n: nat)
    requires ThreadInv(w) && Free(w) && Service(c, g, n) in w.workers && NavigationCurrent(w.exec.fsm, g)
    ensures ThreadInv(ServiceLocked(w, c, g, n))
  {
    ServiceLockCounts(w, c, g, n, StartTask);
    ServiceLockCounts(w, c, g, n, CancelTask);
    ServiceLockCounts(w, c, g, n, PauseOrResume);
  }

  lemma ServiceLockStale(w: World, c: Command, g: nat, n: nat)
    requires CoreInv(w) && Free(w) && Service(c, g, n) in w.workers && !NavigationCurrent(w.exec.fsm, g)
    ensures ThreadInv(ServiceLocked(w, c, g, n))
  {
    var now := w.exec.fsm.generation;
    var v := ServiceLocked(w, c, g, n);
    if g == now && n == 0 {
      assert c != StartTask && c != CancelTask && c != PauseOrResume;
    }
    assert Startups(v.workers, now) == Startups(w.workers, now);
    assert v.workers[Service(StartTask, now, 0)] == w.workers[Service(StartTask, now, 0)];
    assert v.workers[Service(CancelTask, now, 0)] == w.workers[Service(CancelTask, now, 0)];
    assert v.workers[Service(PauseOrResume, now, 0)] == w.workers[Service(PauseOrResume, now, 0)];
  }

  lemma ServiceLockThreads(w: World, c: Command, g: nat, n: nat)
    requires CoreInv(w) && Free(w) && Service(c, g, n) in w.workers
    ensures ThreadInv(ServiceLocked(w, c, g, n))
  {
    if NavigationCurrent(w.exec.fsm, g) {
      ServiceLockCurrent(w, c, g, n);
    } else {
      ServiceLockStale(w, c, g, n);
    }
  }

  lemma KeepServiceLock(w: World, c: Command, g: nat, n: nat)
    requires Inv(w) && Free(w) && Service(c, g, n) in w.workers
    ensures Inv(ServiceLocked(w, c, g, n))
  {
    ServiceLockState(w, c, g, n);
    ServiceLockThreads(w, c, g, n);
    SessionsFramed(w, ServiceLocked(w, c, g, n));
    RecordsFramed(w, ServiceLocked(w, c, g, n));
  }

  lemma ToggleStays(e: Exec, g: nat, ok: bool)
    requires NavigationCurrent(e.fsm, g)
    ensures var s := ServiceReturned(e, PauseOrResume, g, ok);
      NavigationCurrent(s.exec.fsm, g) && s.effect.acted == Some(g) &&
      (s.effect.worker == None || s.effect.worker == Some(Service(PauseOrResume, g, 0)))
  {
  }

  lemma ServiceStays(e: Exec, c: Command, g: nat, ok: bool)
    requires NavigationCurrent(e.fsm, g) && IsService(c)
    ensures var s := ServiceReturned(e, c, g, ok);
      NavigationCurrent(s.exec.fsm, g) && s.effect.acted == Some(g) &&
      (s.effect.worker == None || s.effect.worker == Some(Service(PauseOrResume, g, 0)))
  {
    if c == PauseOrResume {
      ToggleStays(e, g, ok);
    }
  }

  /** A returning service call stays in its session and says so. */
  lemma ServiceSessions(w: World, c: Command, g: nat, ok: bool)
    requires SessionsInv(w) && NavigationCurrent(w.exec.fsm, g) && IsService(c)
    ensures SessionsInv(ServiceDone(w, c, g, ok))
  {
    ServiceStays(w.exec, c, g, ok);
    var v := ServiceDone(w, c, g, ok);
    assert v.history.acts == w.history.acts + [(g, |w.history.sessions|)];
    assert v.history.sessions == w.history.sessions;
    assert forall x :: x in v.workers ==> x in w.workers || x == Service(PauseOrResume, g, 0);
  }

  predicate Unacknowledged(e: Exec, s: Section) {
    s.exec.tries == e.tries && s.exec.followSlot == e.followSlot && s.effect.ack == None
  }

  lemma UnacknowledgedRecords(w: World, s: Section)
    requires RecordInv(w) && Unacknowledged(w.exec, s)
    ensures RecordInv(Commit(w, s))
  {
  }

  lemma ServiceAcksNothing(e: Exec, c: Command, g: nat, ok: bool)
    ensures Unacknowledged(e, ServiceReturned(e, c, g, ok))
  {
  }

  lemma ServiceRecords(w: World, c: Command, g: nat, ok: bool)
    requires RecordInv(w)
    ensures RecordInv(ServiceDone(w, c, g, ok))
  {
    ServiceAcksNothing(w.exec, c, g, ok);
    UnacknowledgedRecords(w, ServiceReturned(w.exec, c, g, ok));
  }

  /** The completed request is answered next, and the queue moves on. */
  lemma TransitionQueue(e: Exec, ok: bool, arrived: seq<TaskRequest>, answered: seq<TaskRequest>)
    requires QueueInv(e.queue, arrived, answered) && e.queue.transitionActive && IsNavigation(e.fsm.mode)
    ensures var s := CompleteTransition(e, ok);
      QueueInv(s.exec.queue, arrived, answered + s.effect.answers) && s.effect.answers != []
  {
    var s := CompleteTransition(e, ok);
    var next := Advance(e.queue.(paused := s.exec.queue.paused, transitionActive := false, current := NO_REQUEST));
    assert arrived == answered + ([e.queue.current] + next.answers) + InFlight(next.queue) + next.queue.requests;
  }

  /** What a finished toggle may change: the task state, and the queue. */
  predicate TogglesOnly(e: Exec, s: Section) {
    && s.exec == e.(fsm := s.exec.fsm, queue := s.exec.queue)
    && Ready(s.exec.fsm)
    && s.exec.fsm.generation == e.fsm.generation
    && (s.exec.fsm.locReady ==> s.exec.fsm.envReady)
    && s.effect.worker == ToggleService(e, s.exec.queue)
    && s.effect.timer == None && s.effect.enqueued == None
  }

  lemma TransitionToggles(e: Exec, g: nat, ok: bool)
    requires NavigationCurrent(e.fsm, g) && Ready(e.fsm) && e.queue.transitionActive
    ensures TogglesOnly(e, ServiceReturned(e, PauseOrResume, g, ok))
  {
  }

  lemma ToggleState(w: World, s: Section, g: nat)
    requires StateInv(w) && w.lock == Some(ServiceCall(PauseOrResume, g, 0)) && TogglesOnly(w.exec, s)
    ensures StateInv(Commit(w, s))
  {
    var e := s.exec;
    assert LockInv(e.fsm, None, e.draining);
    assert ReadyInv(e.fsm, e.tries, e.queue.transitionActive);
    assert GateInv(e.fsm.mode, e.active, e.tries, None);
  }

  lemma ToggleThreads(w: World, s: Section, g: nat)
    requires ThreadInv(w) && w.lock == Some(ServiceCall(PauseOrResume, g, 0)) && g == w.exec.fsm.generation
    requires TogglesOnly(w.exec, s) && w.exec.queue.transitionActive
    requires QueueInv(s.exec.queue, w.history.arrived, w.history.answered + s.effect.answers)
    ensures ThreadInv(Commit(w, s))
  {
  }

  lemma ToggleCore(w: World, g: nat, ok: bool)
    requires CoreInv(w) && w.lock == Some(ServiceCall(PauseOrResume, g, 0))
    ensures CoreInv(ServiceDone(w, PauseOrResume, g, ok))
  {
    TransitionQueue(w.exec, ok, w.history.arrived, w.history.answered);
    TransitionToggles(w.exec, g, ok);
    var s := ServiceReturned(w.exec, PauseOrResume, g, ok);
    ToggleState(w, s, g);
    ToggleThreads(w, s, g);
  }

  lemma KeepToggle(w: World, g: nat, ok: bool)
    requires Inv(w) && w.lock == Some(ServiceCall(PauseOrResume, g, 0))
    ensures Inv(ServiceDone(w, PauseOrResume, g, ok))
  {
    ToggleCore(w, g, ok);
    ServiceSessions(w, PauseOrResume, g, ok);
    ServiceRecords(w, PauseOrResume, g, ok);
  }

  /** What the end of a service call other than the toggle may change. */
  predicate EndsService(e: Exec, x: Exec, c: Command) {
    && x == e.(fsm := x.fsm, active := x.active, queue := x.queue)
    && x.active == (if e.active == Some(c) then None else e.active)
    && x.queue == e.queue.(paused := x.queue.paused)
    && x.fsm == e.fsm.(mode := x.fsm.mode, task := x.fsm.task)
    && IsNavigation(x.fsm.mode) && (x.fsm.mode == StartingNavigation ==> e.fsm.mode == StartingNavigation)
  }

  lemma EndingService(e: Exec, c: Command, ok: bool)
    requires IsNavigation(e.fsm.mode) && IsService(c) && c != PauseOrResume
    requires Managed(c) || e.active != Some(c)
    ensures EndsService(e, ServiceEnded(e, c, ok), c)
  {
  }

  function ServiceCommitted(w: World, x: Exec, g: nat): World {
    Commit(w, Section(x, NOTHING.(acted := Some(g))))
  }

  lemma EndedServiceState(w: World, x: Exec, c: Command, g: nat, n: nat)
    requires StateInv(w) && w.lock == Some(ServiceCall(c, g, n)) && EndsService(w.exec, x, c)
    ensures StateInv(ServiceCommitted(w, x, g))
  {
  }

  lemma EndedServiceThreads(w: World, x: Exec, c: Command, g: nat, n: nat)
    requires ThreadInv(w) && w.lock == Some(ServiceCall(c, g, n)) && EndsService(w.exec, x, c)
    requires IsService(c) && c != PauseOrResume && g == w.exec.fsm.generation
    requires c != ClearWaypoints ==> n == 0
    ensures ThreadInv(ServiceCommitted(w, x, g))
  {
  }

  lemma KeepEnded(w: World, c: Command, g: nat, n: nat, ok: bool)
    requires Inv(w) && w.lock == Some(ServiceCall(c, g, n)) && c != PauseOrResume
    ensures Inv(ServiceDone(w, c, g, ok))
  {
    var x := ServiceEnded(w.exec, c, ok);
    EndingService(w.exec, c, ok);
    EndedServiceState(w, x, c, g, n);
    EndedServiceThreads(w, x, c, g, n);
    ServiceSessions(w, c, g, ok);
    ServiceRecords(w, c, g, ok);
  }

  lemma KeepServiceReturn(w: World, c: Command, g: nat, n: nat, ok: bool)
    requires Inv(w) && w.lock == Some(ServiceCall(c, g, n))
    ensures Inv(ServiceDone(w, c, g, ok))
  {
    if c == PauseOrResume {
      KeepToggle(w, g, ok);
    } else {
      KeepEnded(w, c, g, n, ok);
    }
  }
}

/** The one place for a queued follow, and what becomes of a follow command
    (`handle_follow_command` and `process_pending_follow_request` in
    src/CommandExecutor.cc). */
module FollowSlot {
  import opened Fsm
  import opened Executor
  import opened Options
  import opened Interleaving
  import opened Invariant
  import opened Coordinator

  /** A follow that arrives is answered at once, put into the slot as it is while
      something stops, or waits for the lock. */
  lemma FollowArrivesExactly(w: World, b: bool)
    ensures var v, mode := Arriving(w, b), w.exec.fsm.mode;
      if mode == StartingFollow || mode == Following || mode == Mapping || mode == Failed then v == w
      else v == w.(callers := w.callers + multiset{if mode == Stopping then FollowToQueue(b) else FollowWait(b)})
    ensures FollowQueued(w, b).exec == w.exec.(followSlot := Some(FollowRequest(|w.history.fates|, b)))
  {
  }

  // ---- what is in the slot ------------------------------------------------------------------

  /** A follow that queues fills the slot with its own backend; a `stop_follow`, an
      emergency stop and the drain empty it. */
  function SlotAfter(w: World, a: Action): Option<FollowRequest> {
    match a
    case ByCaller(FollowQueues(b)) => Some(FollowRequest(|w.history.fates|, b))
    case ByCaller(StopFollowArrives(_)) => None
    case ByDrain(DrainTakes) => None
    case _ => w.exec.followSlot
  }

  lemma CompletionKeepsSlot(e: Exec, k: Kind, n: nat, ok: bool)
    ensures Complete(e, k, n, ok).exec.followSlot == e.followSlot && ConfirmPoint(e).exec.followSlot == e.followSlot
  {
  }

  lemma ServiceKeepsSlot(e: Exec, c: Command, g: nat, ok: bool)
    ensures ServiceReturned(e, c, g, ok).exec.followSlot == e.followSlot
  {
    assert CompleteTransition(e, ok).exec.followSlot == e.followSlot;
    assert ServiceEnded(e, c, ok).followSlot == e.followSlot;
  }

  lemma StartupKeepsSlot(e: Exec, g: nat, o: StartupOutcome, p: StartOutcome)
    ensures StartupSection(e, g, o).exec.followSlot == e.followSlot && StartHandled(e, p).exec.followSlot == e.followSlot
  {
  }

  lemma LineKeepsSlot(e: Exec, line: Line)
    ensures LogLine(e, line).exec.followSlot == e.followSlot
  {
    match line
    case EnvReadyLine => CompletionKeepsSlot(e, EnvKind, e.tries.env.attempt, true);
    case PoseLine => CompletionKeepsSlot(e, PoseKind, e.tries.pose.attempt, true);
    case ClearedLine => CompletionKeepsSlot(e, ClearKind, e.tries.clear.attempt, true);
    case WaypointLine => CompletionKeepsSlot(e, TaskKind, 0, true);
    case _ =>
  }

  lemma RequestKeepsSlot(e: Exec, r: Request)
    ensures Dispatch(e, r).exec.followSlot == e.followSlot
  {
  }

  lemma WorkerKeepsSlot(w: World, a: WorkerAction)
    ensures WorkerStep(w, a).exec.followSlot == w.exec.followSlot
  {
    match a
    case StartupLocks(g, o) => StartupKeepsSlot(w.exec, g, o, Launched);
    case TimerFires(k, n) => CompletionKeepsSlot(w.exec, k, n, false);
    case ServiceReturns(c, g, n, ok) => ServiceKeepsSlot(w.exec, c, g, ok);
    case _ =>
  }

  lemma UploadKeepsSlot(w: World, a: UploadAction)
    ensures UploadStep(w, a).exec.followSlot == w.exec.followSlot
  {
  }

  lemma GatewayKeepsSlot(w: World, a: GatewayAction)
    ensures GatewayStep(w, a).exec.followSlot == w.exec.followSlot
  {
    match a
    case CommandArrives(r) => RequestKeepsSlot(w.exec, r);
    case NavigationHandled(o) => StartupKeepsSlot(w.exec, 0, Forked, o);
    case Log(line) => LineKeepsSlot(w.exec, line);
    case _ =>
  }

  lemma OperatorKeepsSlot(w: World, a: OperatorAction)
    ensures OperatorStep(w, a).exec.followSlot == w.exec.followSlot
  {
  }

  lemma CallerSlot(w: World, a: CallerAction)
    ensures CallerStep(w, a).exec.followSlot == SlotAfter(w, ByCaller(a))
  {
  }

  lemma HolderSlot(w: World, a: FollowAction)
    requires StateInv(w) && FollowEnabled(w, a)
    ensures FollowStep(w, a).exec.followSlot == w.exec.followSlot
  {
  }

  lemma DrainSlot(w: World, a: DrainAction)
    requires StateInv(w) && DrainEnabled(w, a)
    ensures DrainStep(w, a).exec.followSlot == SlotAfter(w, ByDrain(a))
  {
  }

  lemma ActionSlot(w: World, a: Action)
    requires StateInv(w) && Enabled(w, a)
    ensures Next(w, a).exec.followSlot == SlotAfter(w, a)
  {
    match a
    case ByWorker(x) => WorkerKeepsSlot(w, x);
    case ByUpload(x) => UploadKeepsSlot(w, x);
    case ByCaller(x) => CallerSlot(w, x);
    case ByFollow(x) => HolderSlot(w, x);
    case ByDrain(x) => DrainSlot(w, x);
    case ByGateway(x) => GatewayKeepsSlot(w, x);
    case ByOperator(x) => OperatorKeepsSlot(w, x);
  }

  /** Nothing else fills, replaces or empties the slot. */
  lemma SlotChangesExactlyWhen(run: seq<World>, actions: seq<Action>, i: nat)
    requires IsRun(run, actions) && i < |actions|
    ensures run[i + 1].exec.followSlot == SlotAfter(run[i], actions[i])
  {
    RunKeeps(run, actions, i);
    ActionSlot(run[i], actions[i]);
  }

  // ---- how a follow ends when nobody comes in between --------------------------------------

  /** Whether devices let a follow with this backend run. */
  predicate Works(backend: bool, o: FollowOutcome) { o.cleaned && (backend ==> o.started) }

  /** Idle or navigating, and not unhealthy: a follow may begin. */
  predicate MayFollow(e: Exec) {
    (e.fsm.mode == Idle || IsNavigation(e.fsm.mode)) && e.fsm.health != UnHealthy
  }

  /** The robot follows with this backend, or says why not. */
  predicate Follows(s: State, backend: bool, o: FollowOutcome) {
    if Works(backend, o) then s.mode == Following && s.placeholder == !backend && s.fault == NoReason
    else s.mode == Failed && s.fault == if o.cleaned then FollowBackendFailed else CleanupFailed
  }

  lemma BegunFollows(e: Exec, r: FollowRequest, o: FollowOutcome)
    requires MayFollow(e)
    ensures var x := FollowRun(DecideFollow(e, r), r, o);
      Follows(x.fsm, r.backend, o) && x.followSlot == e.followSlot && x.draining == e.draining
  {
  }

  lemma EmptyDrains(e: Exec, o: FollowOutcome)
    requires e.followSlot == None && e.fsm.mode != Stopping
    ensures Drained(e, o) == e
  {
    if !e.draining {
      assert DrainLoop(e.(draining := true), o) == e.(draining := true);
    }
  }

  lemma TakenFollows(e: Exec, r: FollowRequest, o: FollowOutcome)
    requires e.draining && MayFollow(e) && e.followSlot == Some(r)
    ensures var x := DrainLoop(e, o); Follows(x.fsm, r.backend, o) && x.followSlot == None
  {
    var taken := ClearFollow(e);
    BegunFollows(taken, r, o);
    var ran := FollowRun(DecideFollow(taken, r), r, o);
    assert FollowHandled(taken, r, o) == Drained(ran, o) == ran;
    assert DrainLoop(ran, o) == ran;
  }

  /** A drain that finds the robot free runs the queued follow. */
  lemma QueuedFollows(e: Exec, r: FollowRequest, o: FollowOutcome)
    requires !e.draining && MayFollow(e) && e.followSlot == Some(r)
    ensures var x := Drained(e, o); Follows(x.fsm, r.backend, o) && x.followSlot == None
  {
    TakenFollows(e.(draining := true), r, o);
  }

  /** A `start_follow` that finds the robot free runs. */
  lemma StartedFollows(e: Exec, r: FollowRequest, o: FollowOutcome)
    requires !e.draining && MayFollow(e) && e.followSlot == None
    ensures Follows(FollowHandled(e, r, o).fsm, r.backend, o)
  {
    BegunFollows(e, r, o);
    EmptyDrains(FollowRun(DecideFollow(e, r), r, o), o);
  }

  /** A stop ends idle when nothing is queued, and runs the queued follow otherwise; when
      its cleanup fails it ends in Failed and the queued follow is dropped. */
  lemma StopEnds(e: Exec, cleaned: bool, o: FollowOutcome)
    requires !e.draining && StopAllowed(e.fsm) && e.fsm.health != UnHealthy
    ensures var x := Drained(StopFinished(BeginStopSection(e), cleaned), o);
      if !cleaned then x.fsm.mode == Failed && x.fsm.fault == CleanupFailed && x.followSlot == None
      else if e.followSlot == None then x.fsm.mode == Idle && x.followSlot == None
      else Follows(x.fsm, e.followSlot.value.backend, o) && x.followSlot == None
  {
    var s := StopFinished(BeginStopSection(e), cleaned);
    assert s.followSlot == e.followSlot && !s.draining;
    if e.followSlot == None {
      EmptyDrains(s, o);
    } else if cleaned {
      QueuedFollows(s, e.followSlot.value, o);
    } else {
      FailedDrops(s, e.followSlot.value, o);
    }
  }

  lemma FailedDrops(e: Exec, r: FollowRequest, o: FollowOutcome)
    requires !e.draining && e.fsm.mode == Failed && e.followSlot == Some(r)
    ensures Drained(e, o) == ClearFollow(e)
  {
    var taken := ClearFollow(e.(draining := true));
    assert FollowHandled(taken, r, o) == taken;
    assert DrainLoop(taken, o) == taken;
  }
}

/** The promises of the coordinator, for every run of all its threads. */
module Guarantees {
  import opened Fsm
  import opened Executor
  import opened Options
  import opened Interleaving
  import opened Invariant
  import opened Coordinator
  import opened Continuations
  import opened Stranding

  // ---- follow requests -----------------------------------------------------------------

  /** No queued follow is lost: somebody is between queuing and draining, or
      holds the lock with a drain still ahead. */
  lemma QueuedFollowIsNeverLost(run: seq<World>, actions: seq<Action>, i: nat)
    requires IsRun(run, actions) && i < |run| && run[i].exec.followSlot.Some?
    ensures FollowDrainWait in run[i].callers || DrainAhead(run[i].lock)
  {
    RunKeeps(run, actions, i);
  }

  predicate Queues(a: Action) { a.ByCaller? && a.callerAction.FollowQueues? }

  predicate Cancels(a: Action) { a.ByCaller? && a.callerAction.StopFollowArrives? }

  /** One action decides at most the request in the slot, and says how. */
  ghost predicate Settles(w: World, a: Action, w': World) {
    && |w.history.fates| <= |w'.history.fates| <= |w.history.fates| + 1
    && (|w'.history.fates| > |w.history.fates| ==> Queues(a))
    && forall id :: 0 <= id < |w.history.fates| && w'.history.fates[id] != w.history.fates[id] ==>
         && w.history.fates[id] == InSlot
         && (match w'.history.fates[id]
             case Ran =>
               a == ByDrain(DrainTakes) && w.exec.followSlot.Some? &&
               w'.lock == Some(DrainCheck(w.exec.followSlot.value.backend))
             case Overwritten => Queues(a)
             case Cleared => Cancels(a)
             case InSlot => false)
  }

  lemma WorkersSettleNothing(w: World, a: WorkerAction)
    ensures WorkerStep(w, a).history.fates == w.history.fates
  {
  }

  lemma UploadSettlesNothing(w: World, a: UploadAction)
    ensures UploadStep(w, a).history.fates == w.history.fates
  {
  }

  lemma GatewaySettlesNothing(w: World, a: GatewayAction)
    ensures GatewayStep(w, a).history.fates == w.history.fates
  {
  }

  lemma OperatorSettlesNothing(w: World, a: OperatorAction)
    ensures OperatorStep(w, a).history.fates == w.history.fates
  {
  }

  lemma CallerSettles(w: World, a: CallerAction)
    requires FateInv(w.exec.followSlot, w.history.fates)
    ensures Settles(w, ByCaller(a), CallerStep(w, a))
  {
  }

  lemma HolderSettles(w: World, a: FollowAction)
    requires LockInv(w.exec.fsm, w.lock, w.exec.draining) && FollowEnabled(w, a)
    ensures FollowStep(w, a).history.fates == w.history.fates
  {
  }

  lemma DrainSettles(w: World, a: DrainAction)
    requires LockInv(w.exec.fsm, w.lock, w.exec.draining) && FateInv(w.exec.followSlot, w.history.fates)
    requires DrainEnabled(w, a)
    ensures Settles(w, ByDrain(a), DrainStep(w, a))
  {
  }

  lemma ActionSettles(w: World, a: Action)
    requires CoreInv(w) && FateInv(w.exec.followSlot, w.history.fates) && Enabled(w, a)
    ensures Settles(w, a, Next(w, a))
  {
    match a
    case ByWorker(x) => WorkersSettleNothing(w, x);
    case ByUpload(x) => UploadSettlesNothing(w, x);
    case ByCaller(x) => CallerSettles(w, x);
    case ByFollow(x) => HolderSettles(w, x);
    case ByDrain(x) => DrainSettles(w, x);
    case ByGateway(x) => GatewaySettlesNothing(w, x);
    case ByOperator(x) => OperatorSettlesNothing(w, x);
  }

  lemma RunSettles(run: seq<World>, actions: seq<Action>, i: nat)
    requires IsRun(run, actions) && i < |actions|
    ensures Settles(run[i], actions[i], run[i + 1])
  {
    RunKeeps(run, actions, i);
    ActionSettles(run[i], actions[i]);
  }

  predicate Decided(w: World, id: nat, fate: Fate) {
    id < |w.history.fates| && w.history.fates[id] == fate && fate != InSlot
  }

  lemma SettlingKeepsDecided(w: World, a: Action, w': World, id: nat, fate: Fate)
    requires Settles(w, a, w') && Decided(w, id, fate)
    ensures Decided(w', id, fate)
  {
  }

  predicate KeepsDecided(w: World, w': World, id: nat, fate: Fate) {
    Decided(w, id, fate) ==> Decided(w', id, fate)
  }

  lemma StepKeepsDecided(run: seq<World>, actions: seq<Action>, i: nat, id: nat, fate: Fate)
    requires IsRun(run, actions) && i < |actions|
    ensures KeepsDecided(run[i], run[i + 1], id, fate)
  {
    if Decided(run[i], id, fate) {
      RunSettles(run, actions, i);
      SettlingKeepsDecided(run[i], actions[i], run[i + 1], id, fate);
    }
  }

  lemma {:induction false} DecidedUntil(run: seq<World>, i: nat, j: nat, id: nat, fate: Fate)
    requires i <= j < |run| && Decided(run[i], id, fate)
    requires forall k :: i <= k < j ==> KeepsDecided(run[k], run[k + 1], id, fate)
    ensures Decided(run[j], id, fate)
    decreases j - i
  {
    if i < j {
      DecidedUntil(run, i, j - 1, id, fate);
      assert KeepsDecided(run[j - 1], run[j - 1 + 1], id, fate);
    }
  }

  /** Run, overwritten or cleared: a decided request stays decided that way. */
  lemma FateIsFinal(run: seq<World>, actions: seq<Action>, i: nat, j: nat, id: nat, fate: Fate)
    requires IsRun(run, actions) && i <= j < |run| && Decided(run[i], id, fate)
    ensures Decided(run[j], id, fate)
  {
    forall k | i <= k < j ensures KeepsDecided(run[k], run[k + 1], id, fate) {
      StepKeepsDecided(run, actions, k, id, fate);
    }
    DecidedUntil(run, i, j, id, fate);
  }

  /** When no follow command is under way, every request ever queued is decided. */
  lemma QuietMeansDecided(run: seq<World>, actions: seq<Action>, i: nat, id: nat)
    requires IsRun(run, actions) && i < |run| && id < |run[i].history.fates|
    requires Free(run[i]) && FollowDrainWait !in run[i].callers
    ensures run[i].history.fates[id] != InSlot
  {
    RunKeeps(run, actions, i);
  }

  // ---- the holder of the lock finishes ---------------------------------------------------

  /** How many actions the holder of the lock still has before it lets go. */
  function Rank(lock: Option<Held>): nat {
    match lock
    case None => 0
    case Some(p) =>
      match p
      case DrainHead => 1
      case FollowBackend(nested, _) => if nested then 2 else 3
      case FollowCleanup(nested, _) => if nested then 3 else 4
      case FollowBegin(nested, _) => if nested then 4 else 5
      case DrainCheck(_) => 5
      case DrainEnter => 2
      case StopCleanup => 3
      case _ => 1
  }

  function Remaining(w: World): nat {
    if w.lock == None then 0 else Rank(w.lock) + if w.exec.followSlot.Some? then 5 else 0
  }

  predicate ByHolder(a: Action) {
    match a
    case ByWorker(x) => x.ServiceReturns?
    case ByUpload(_) => false
    case ByCaller(_) => false
    case ByFollow(_) => true
    case ByDrain(_) => true
    case ByGateway(x) => x.NavigationHandled?
    case ByOperator(x) => x.MappingForked? || x.PostProcessingDone? || x.MotionDone? || x.ParameterDone?
  }

  /** An action of the holder brings it closer to the release; no action of
      another thread does the opposite, except queuing a follow. */
  predicate Advances(w: World, a: Action, w': World) {
    if ByHolder(a) then Remaining(w') < Remaining(w)
    else w'.lock == w.lock && (Remaining(w') <= Remaining(w) || Queues(a))
  }

  lemma CommandAdvances(w: World, a: Action)
    requires Enabled(w, a) && ByHolder(a) && !a.ByFollow? && !a.ByDrain?
    ensures Next(w, a).lock == None && w.lock.Some?
  {
  }

  lemma FollowAdvances(w: World, a: FollowAction)
    requires LockInv(w.exec.fsm, w.lock, w.exec.draining) && FollowEnabled(w, a)
    ensures Remaining(FollowStep(w, a)) < Remaining(w)
  {
  }

  lemma DrainAdvances(w: World, a: DrainAction)
    requires LockInv(w.exec.fsm, w.lock, w.exec.draining) && DrainEnabled(w, a)
    ensures Remaining(DrainStep(w, a)) < Remaining(w)
  {
  }

  lemma HolderAdvances(w: World, a: Action)
    requires LockInv(w.exec.fsm, w.lock, w.exec.draining) && Enabled(w, a) && ByHolder(a)
    ensures Remaining(Next(w, a)) < Remaining(w)
  {
    match a
    case ByFollow(x) => FollowAdvances(w, x);
    case ByDrain(x) => DrainAdvances(w, x);
    case _ => CommandAdvances(w, a);
  }

  lemma OthersWait(w: World, a: Action)
    requires LockInv(w.exec.fsm, w.lock, w.exec.draining) && Enabled(w, a) && w.lock.Some? && !ByHolder(a)
    ensures Advances(w, a, Next(w, a))
  {
  }

  lemma RunAdvances(run: seq<World>, actions: seq<Action>, i: nat)
    requires IsRun(run, actions) && i < |actions| && run[i].lock.Some?
    ensures Advances(run[i], actions[i], run[i + 1])
  {
    RunKeeps(run, actions, i);
    if ByHolder(actions[i]) {
      HolderAdvances(run[i], actions[i]);
    } else {
      OthersWait(run[i], actions[i]);
    }
  }

  function HolderActions(actions: seq<Action>, i: nat, j: nat): nat
    requires i <= j <= |actions|
    decreases j - i
  {
    if i == j then 0 else HolderActions(actions, i, j - 1) + One(ByHolder(actions[j - 1]))
  }

  ghost predicate HeldWithoutQueuing(run: seq<World>, actions: seq<Action>, i: nat, j: nat)
    requires |run| == |actions| + 1 && i <= j <= |actions|
  {
    forall k :: i <= k < j ==> run[k].lock.Some? && !Queues(actions[k])
  }

  lemma RemainingIsBounded(w: World)
    ensures Remaining(w) <= 10
  {
  }

  lemma {:induction false} AdvancesAddUp(run: seq<World>, actions: seq<Action>, i: nat, j: nat)
    requires |run| == |actions| + 1 && i <= j <= |actions| && HeldWithoutQueuing(run, actions, i, j)
    requires forall k :: i <= k < j ==> Advances(run[k], actions[k], run[k + 1])
    ensures HolderActions(actions, i, j) + Remaining(run[j]) <= Remaining(run[i])
    decreases j - i
  {
    if i < j {
      AdvancesAddUp(run, actions, i, j - 1);
    }
  }

  /** The holder always has an action of its own. */
  lemma HolderCanAct(w: World)
    requires w.lock.Some?
    ensures exists a :: ByHolder(a) && Enabled(w, a)
  {
    var a := match w.lock.value
      case StopCleanup => ByDrain(StopCleaned(true))
      case FollowBegin(nested, b) => ByFollow(FollowDecides(nested, b))
      case FollowCleanup(nested, b) => ByFollow(FollowCleanedUp(nested, b, true))
      case FollowBackend(nested, b) => ByFollow(FollowStarts(nested, b, true))
      case DrainEnter => ByDrain(DrainEnters)
      case DrainHead => ByDrain(DrainTakes)
      case DrainCheck(b) => ByDrain(DrainChecks(b))
      case NavigationPrepare => ByGateway(NavigationHandled(Launched))
      case ServiceCall(c, g, n) => ByWorker(ServiceReturns(c, g, n, true))
      case MappingStart => ByOperator(MappingForked(0))
      case PostProcessing => ByOperator(PostProcessingDone(true))
      case WebMotion => ByOperator(MotionDone)
      case ParameterWrite => ByOperator(ParameterDone);
    assert ByHolder(a) && Enabled(w, a);
  }

  /** The drain terminates: as long as no other thread queues a follow, the
      holder of the lock makes at most ten actions before it is free, and until
      then it has one to make. */
  lemma DrainTerminates(run: seq<World>, actions: seq<Action>, i: nat, j: nat)
    requires IsRun(run, actions) && i <= j <= |actions| && HeldWithoutQueuing(run, actions, i, j)
    ensures HolderActions(actions, i, j) + Remaining(run[j]) <= Remaining(run[i]) <= 10
    ensures run[j].lock.Some? ==> exists a :: ByHolder(a) && Enabled(run[j], a)
  {
    forall k | i <= k < j ensures Advances(run[k], actions[k], run[k + 1]) {
      RunAdvances(run, actions, k);
    }
    AdvancesAddUp(run, actions, i, j);
    RemainingIsBounded(run[i]);
    if run[j].lock.Some? {
      HolderCanAct(run[j]);
    }
  }

  // ---- the busy gate ------------------------------------------------------------------------

  /** Whenever the lock is free, a navigation command that holds the gate has an
      open attempt or a live worker of the current session. */
  lemma GateNeverSticks(run: seq<World>, actions: seq<Action>, i: nat)
    requires IsRun(run, actions) && i < |run| && Free(run[i])
    ensures var e := run[i].exec;
      match e.active
      case None => true
      case Some(c) =>
        match c
        case InitialPose => e.tries.pose.pending && Timer(PoseKind, e.tries.pose.attempt) in run[i].timers
        case NavigationTask => e.tries.task.pending && Timer(TaskKind, e.tries.task.attempt) in run[i].timers
        case ClearWaypoints => e.tries.clear.pending && Timer(ClearKind, e.tries.clear.attempt) in run[i].timers
        case StartNavigation =>
          || (e.tries.env.pending && Timer(EnvKind, e.tries.env.attempt) in run[i].timers)
          || StartupCheck(e.fsm.generation) in run[i].workers
          || StartupWait(e.fsm.generation) in run[i].workers
        case StartTask => Service(StartTask, e.fsm.generation, 0) in run[i].workers
        case CancelTask => Service(CancelTask, e.fsm.generation, 0) in run[i].workers
        case StopAndUploadMap => Working(run[i].upload) || Stranded(run[i])
        case _ => false
  {
    RunKeeps(run, actions, i);
    RunIsReachable(run, actions, i);
    UploadInGateWorks(run[i]);
  }

  function Gated(k: Kind): Command {
    match k
    case EnvKind => StartNavigation
    case PoseKind => InitialPose
    case TaskKind => NavigationTask
    case ClearKind => ClearWaypoints
  }

  predicate TimeoutFrees(w: World, k: Kind) {
    TimerFired(w, k, Attempt(w.exec.tries, k)).exec.active == None
  }

  lemma TimeoutFreesGate(w: World, k: Kind)
    requires CoreInv(w) && Free(w) && Pending(w.exec.tries, k) && w.exec.active == Some(Gated(k))
    ensures TimeoutFrees(w, k)
  {
  }

  /** What a start-up worker leaves: the gate free, or the environment attempt and its timer. */
  predicate StartupFreesOrOpens(w: World, o: StartupOutcome) {
    var v := StartupDone(w, w.exec.fsm.generation, o);
    v.exec.active == None || (v.exec.tries.env.pending && Timer(EnvKind, v.exec.tries.env.attempt) in v.timers)
  }

  /** A start-up worker goes on to wait for the lock, and then to one of these ends. */
  predicate StartupHandsOn(w: World) {
    && StartupWait(w.exec.fsm.generation) in StartupChecked(w, w.exec.fsm.generation).workers
    && forall o :: StartupFreesOrOpens(w, o)
  }

  lemma StartupEnds(w: World, o: StartupOutcome)
    requires IsNavigation(w.exec.fsm.mode) && w.exec.active == Some(StartNavigation)
    ensures StartupFreesOrOpens(w, o)
  {
    if o.Forked? {
      var s := StartupSection(w.exec, w.exec.fsm.generation, o);
      assert s.exec == Open(w.exec, EnvKind) && s.effect.timer == Some(Timer(EnvKind, s.exec.tries.env.attempt));
    } else {
      assert StartupSection(w.exec, w.exec.fsm.generation, o).exec == Abort(w.exec);
    }
  }

  lemma StartupGoesOn(w: World)
    requires CoreInv(w) && w.exec.active == Some(StartNavigation)
    ensures StartupHandsOn(w)
  {
    forall o ensures StartupFreesOrOpens(w, o) {
      StartupEnds(w, o);
    }
  }

  /** A service worker takes the lock for its call, and its return frees the gate. */
  predicate ServiceFrees(w: World, c: Command) {
    var g := w.exec.fsm.generation;
    var v := ServiceLocked(w, c, g, 0);
    v.lock == Some(ServiceCall(c, g, 0)) && forall ok :: ServiceDone(v, c, g, ok).exec.active == None
  }

  lemma ReturnFrees(e: Exec, c: Command, g: nat, ok: bool)
    requires NavigationCurrent(e.fsm, g) && e.active == Some(c) && (c == StartTask || c == CancelTask)
    ensures ServiceReturned(e, c, g, ok).exec.active == None
  {
    assert ServiceEnded(e, c, ok).active == None;
  }

  lemma CallKeepsGate(w: World, c: Command)
    requires CoreInv(w) && Free(w) && (c == StartTask || c == CancelTask) && w.exec.active == Some(c)
    ensures var g := w.exec.fsm.generation;
      var v := ServiceLocked(w, c, g, 0);
      v.lock == Some(ServiceCall(c, g, 0)) && v.exec == w.exec && NavigationCurrent(w.exec.fsm, g)
  {
  }

  lemma ServiceFreesGate(w: World, c: Command)
    requires CoreInv(w) && Free(w) && (c == StartTask || c == CancelTask) && w.exec.active == Some(c)
    ensures ServiceFrees(w, c)
  {
    var g := w.exec.fsm.generation;
    var v := ServiceLocked(w, c, g, 0);
    CallKeepsGate(w, c);
    forall ok ensures ServiceDone(v, c, g, ok).exec.active == None {
      ReturnFrees(w.exec, c, g, ok);
    }
  }

  /** The timer or worker behind a held gate frees it when it acts, or hands over to
      the next one that does. */
  predicate WitnessFrees(w: World, c: Command) {
    match c
    case InitialPose => TimeoutFrees(w, PoseKind)
    case NavigationTask => TimeoutFrees(w, TaskKind)
    case ClearWaypoints => TimeoutFrees(w, ClearKind)
    case StartNavigation => if w.exec.tries.env.pending then TimeoutFrees(w, EnvKind) else StartupHandsOn(w)
    case StartTask => ServiceFrees(w, StartTask)
    case CancelTask => ServiceFrees(w, CancelTask)
    case _ => true
  }

  lemma HeldGateIsFreed(w: World)
    requires CoreInv(w) && Free(w) && w.exec.active.Some?
    ensures WitnessFrees(w, w.exec.active.value)
  {
    match w.exec.active.value
    case InitialPose => TimeoutFreesGate(w, PoseKind);
    case NavigationTask => TimeoutFreesGate(w, TaskKind);
    case ClearWaypoints => TimeoutFreesGate(w, ClearKind);
    case StartNavigation => if w.exec.tries.env.pending { TimeoutFreesGate(w, EnvKind); } else { StartupGoesOn(w); }
    case StartTask => ServiceFreesGate(w, StartTask);
    case CancelTask => ServiceFreesGate(w, CancelTask);
    case _ =>
  }

  lemma WitnessFreesGate(run: seq<World>, actions: seq<Action>, i: nat)
    requires IsRun(run, actions) && i < |run| && Free(run[i]) && run[i].exec.active.Some?
    ensures WitnessFrees(run[i], run[i].exec.active.value)
  {
    RunKeeps(run, actions, i);
    HeldGateIsFreed(run[i]);
  }

  // ---- sessions -------------------------------------------------------------------------------

  /** Every fork, recorded process, and task state set by a worker happens in the
      one session whose generation the worker carries. */
  lemma WorkersActInTheirOwnSession(run: seq<World>, actions: seq<Action>, i: nat, k: nat)
    requires IsRun(run, actions) && i < |run| && k < |run[i].history.acts|
    ensures var (g, n) := run[i].history.acts[k];
      && 0 < n <= |run[i].history.sessions|
      && forall m :: 0 <= m < |run[i].history.sessions| ==> (run[i].history.sessions[m] == g <==> m == n - 1)
  {
    RunKeeps(run, actions, i);
    var h := run[i].history;
    var (g, n) := h.acts[k];
    assert h.sessions[n - 1] == g;
  }

  // ---- localization ----------------------------------------------------------------------------

  /** Whenever the lock is free, a localized robot or a pending pose has its
      environment ready, and navigation is past start-up. */
  lemma LocalizationIsSafe(run: seq<World>, actions: seq<Action>, i: nat)
    requires IsRun(run, actions) && i < |run| && Free(run[i])
    requires run[i].exec.fsm.locReady || run[i].exec.tries.pose.pending
    ensures Ready(run[i].exec.fsm)
  {
    RunKeeps(run, actions, i);
  }

  /** So an admitted task or recharge start finds both. */
  lemma StartedTasksAreLocalized(run: seq<World>, actions: seq<Action>, i: nat, c: Command)
    requires IsRun(run, actions) && i < |actions| && actions[i] == ByGateway(CommandArrives(RequestService(c)))
    requires c == StartTask || c == StartRecharge
    requires run[i + 1].workers != run[i].workers
    ensures Ready(run[i].exec.fsm) && run[i].exec.fsm.locReady
  {
    RunKeeps(run, actions, i);
  }

  // ---- attempts ----------------------------------------------------------------------------------

  /** Each environment, pose, task and clear attempt is acknowledged at most once. */
  lemma OneAckPerAttempt(run: seq<World>, actions: seq<Action>, i: nat, p: nat, q: nat)
    requires IsRun(run, actions) && i < |run| && p < q < |run[i].history.acks|
    ensures !SameAttempt(run[i].history.acks[p], run[i].history.acks[q])
  {
    RunKeeps(run, actions, i);
  }

  /** A task acknowledgement counts its own points: all of them on success, fewer on failure. */
  lemma TaskAcksCountPoints(run: seq<World>, actions: seq<Action>, i: nat, p: nat)
    requires IsRun(run, actions) && i < |run| && p < |run[i].history.acks|
    requires run[i].history.acks[p].kind == TaskKind
    ensures var a := run[i].history.acks[p];
      && a.attempt in run[i].history.points && a.expected == run[i].history.points[a.attempt]
      && if a.success then a.confirmed == a.expected else a.confirmed < a.expected
  {
    RunKeeps(run, actions, i);
  }

  /** A pending task always waits for more points than have been confirmed. */
  lemma PendingTaskLacksPoints(run: seq<World>, actions: seq<Action>, i: nat)
    requires IsRun(run, actions) && i < |run| && run[i].exec.tries.task.pending
    ensures run[i].exec.tries.confirmed < run[i].exec.tries.expected
    ensures run[i].exec.tries.task.attempt in run[i].history.points
    ensures run[i].exec.tries.expected == run[i].history.points[run[i].exec.tries.task.attempt]
  {
    RunKeeps(run, actions, i);
  }

  /** A timeout that is no longer the current open attempt only ends its thread. */
  lemma StaleTimeoutsDoNothing(run: seq<World>, actions: seq<Action>, i: nat, k: Kind, n: nat)
    requires IsRun(run, actions) && i < |actions| && actions[i] == ByWorker(TimerFires(k, n))
    requires !(Pending(run[i].exec.tries, k) && n == Attempt(run[i].exec.tries, k))
    ensures run[i + 1] == run[i].(timers := run[i].timers - multiset{Timer(k, n)})
  {
  }

  // ---- pause and resume ----------------------------------------------------------------------------

  /** Requests since the last invalidation are answered in the order of arrival,
      each once; at most one toggle is in flight, and only then does anything wait. */
  lemma AnswersFollowArrivals(run: seq<World>, actions: seq<Action>, i: nat)
    requires IsRun(run, actions) && i < |run|
    ensures var q := run[i].exec.queue;
      && run[i].history.arrived == run[i].history.answered + InFlight(q) + q.requests
      && q.workerRunning == q.transitionActive
      && (q.requests != [] ==> q.transitionActive)
      && Services(run[i].workers, run[i].lock, PauseOrResume, run[i].exec.fsm.generation) == One(q.transitionActive)
  {
    RunKeeps(run, actions, i);
  }

  // ---- lock discipline --------------------------------------------------------------------------------

  lemma LockDiscipline(run: seq<World>, actions: seq<Action>, i: nat)
    requires IsRun(run, actions) && i < |run|
    ensures Free(run[i]) ==> run[i].exec.fsm.mode != Stopping && run[i].exec.fsm.mode != StartingFollow
    ensures run[i].lock == Some(WebMotion) || run[i].lock == Some(ParameterWrite) ==> run[i].exec.fsm.mode == Idle
    ensures run[i].lock.Some? && run[i].lock.value.FollowBegin? ==> FollowDecisionFor(run[i].exec.fsm) != Queued
  {
    RunKeeps(run, actions, i);
  }

  // ---- mapping -----------------------------------------------------------------------------------------

  /** Mapping never dangles, and every upload worker reports exactly once. */
  lemma MappingNeverDangles(run: seq<World>, actions: seq<Action>, i: nat)
    requires IsRun(run, actions) && i < |run|
    ensures Free(run[i]) && run[i].exec.fsm.mode == Mapping ==>
      run[i].exec.mappingPid > 0 || Collecting(run[i].upload)
    ensures run[i].history.reports <= run[i].history.uploads <= run[i].history.reports + 1
    ensures run[i].upload == None ==> run[i].history.reports == run[i].history.uploads
  {
    RunKeeps(run, actions, i);
  }

  lemma ReportEndsCollecting(w: World, found: bool, ok: bool)
    requires CoreInv(w) && UploadEnabled(w, UploadReports(found, ok))
    ensures w.exec.fsm.mode == Mapping
    ensures Reporting(w, ok).exec.fsm.mode == if ok then MappingProcessing else Failed
  {
  }

  lemma PostProcessingEnds(w: World, ok: bool)
    requires CoreInv(w) && w.lock == Some(PostProcessing)
    ensures w.exec.fsm.mode == MappingProcessing
    ensures PostProcessingEnded(w, ok).exec.fsm.mode == if ok then Idle else Failed
  {
  }

  /** The worker's report always leaves collecting ... */
  lemma ReportLeavesMapping(run: seq<World>, actions: seq<Action>, i: nat, found: bool, ok: bool)
    requires IsRun(run, actions) && i < |actions| && actions[i] == ByUpload(UploadReports(found, ok))
    ensures run[i].exec.fsm.mode == Mapping
    ensures run[i + 1].exec.fsm.mode == if ok then MappingProcessing else Failed
  {
    RunKeeps(run, actions, i);
    ReportEndsCollecting(run[i], found, ok);
  }

  /** ... and the post-processing handler always leaves processing. */
  lemma PostProcessingLeaves(run: seq<World>, actions: seq<Action>, i: nat, ok: bool)
    requires IsRun(run, actions) && i < |actions| && actions[i] == ByOperator(PostProcessingDone(ok))
    ensures run[i].exec.fsm.mode == MappingProcessing
    ensures run[i + 1].exec.fsm.mode == if ok then Idle else Failed
  {
    RunKeeps(run, actions, i);
    PostProcessingEnds(run[i], ok);
  }
}

/** The behaviour of the whole coordinator as a statechart: every action of every
    thread is at most one signal, and a signal alone decides the mode, the task
    status and the fault reason that follow it. */
module Statechart {
  import opened Fsm
  import opened Executor
  import opened Options
  import opened Interleaving
  import opened Invariant
  import opened Coordinator
  import opened Registers

  /** What the threads report about the robot. */
  datatype Signal =
    | SessionBegins
    | EnvironmentReady
    | StartupBroken(reason: Reason)
    | StartupGivenUp
    | TaskNow(status: Task)
    | StopBegins
    | FollowTakesOver
    | StoppedForIdle
    | StoppedForFollow
    | CleanupBroken
    | FollowRuns(placeholder: bool)
    | BackendBroken
    | FollowEnds
    | FollowEmergency
    | MappingBegins
    | MappingNotStarted
    | CollectingDone
    | CollectingBroken
    | ProcessingDone
    | ProcessingBroken(reason: Reason)

  // ---- where a signal leads ----------------------------------------------------------

  /** The faults, and what is said about them. */
  function FaultOf(x: Signal): Option<Reason> {
    match x
    case StartupBroken(reason) => Some(reason)
    case CleanupBroken => Some(CleanupFailed)
    case BackendBroken => Some(FollowBackendFailed)
    case FollowEmergency => Some(FollowEmergencyStop)
    case CollectingBroken => Some(StopUploadFailed)
    case ProcessingBroken(reason) => Some(reason)
    case _ => None
  }

  function ModeAfter(x: Signal): Mode {
    match x
    case SessionBegins => StartingNavigation
    case EnvironmentReady => NavigationReady
    case StartupGivenUp => Idle
    case TaskNow(status) => if status == TaskRunning || status == TaskPaused then Navigating else NavigationReady
    case StopBegins => Stopping
    case FollowTakesOver => Stopping
    case StoppedForIdle => Idle
    case StoppedForFollow => StartingFollow
    case FollowRuns(_) => Following
    case FollowEnds => Idle
    case MappingBegins => Mapping
    case MappingNotStarted => Idle
    case CollectingDone => MappingProcessing
    case ProcessingDone => Idle
    case _ => Failed
  }

  function TaskAfter(x: Signal): Option<Task> {
    match x
    case SessionBegins => Some(NoTask)
    case StartupGivenUp => Some(NoTask)
    case TaskNow(status) => Some(status)
    case StopBegins => Some(TaskStopping)
    case FollowTakesOver => Some(TaskStopping)
    case StoppedForIdle => Some(TaskCancelled)
    case StoppedForFollow => Some(TaskCancelled)
    case FollowRuns(_) => Some(TaskRunning)
    case FollowEnds => Some(TaskCancelled)
    case EnvironmentReady => None
    case StartupBroken(_) => None
    case MappingBegins => None
    case MappingNotStarted => None
    case CollectingDone => None
    case ProcessingDone => None
    case _ => Some(TaskFailed)
  }

  /** A fault is remembered until navigation begins or succeeds, or something is stopped. */
  function FaultAfter(x: Signal): Option<Reason> {
    if FaultOf(x).Some? then FaultOf(x)
    else
      match x
      case SessionBegins => Some(NoReason)
      case EnvironmentReady => Some(NoReason)
      case StartupGivenUp => Some(NoReason)
      case StoppedForIdle => Some(NoReason)
      case StoppedForFollow => Some(NoReason)
      case FollowEnds => Some(NoReason)
      case _ => None
  }

  function PlaceholderAfter(x: Signal): Option<bool> {
    match x
    case FollowRuns(placeholder) => Some(placeholder)
    case FollowEnds => Some(false)
    case FollowEmergency => Some(false)
    case _ => None
  }

  /** Signals that invalidate all earlier workers. */
  predicate Renews(x: Signal) {
    match x
    case SessionBegins => true
    case StopBegins => true
    case FollowTakesOver => true
    case FollowEnds => true
    case FollowEmergency => true
    case MappingBegins => true
    case CollectingBroken => true
    case ProcessingBroken(_) => true
    case _ => false
  }

  // ---- which action is which signal -----------------------------------------------------

  function When(b: bool, x: Signal): Option<Signal> { if b then Some(x) else None }

  predicate StartingUp(w: World) { w.exec.fsm.mode == StartingNavigation }

  predicate Navigates(w: World) {
    var mode := w.exec.fsm.mode;
    mode == StartingNavigation || mode == NavigationReady || mode == Navigating
  }

  /** Idle, nobody in the gate, and not known to be unhealthy. */
  predicate MayBegin(w: World) {
    w.exec.fsm.mode == Idle && w.exec.active == None && w.exec.fsm.health != UnHealthy
  }

  function ServiceSignal(w: World, c: Command, ok: bool): Option<Signal> {
    if !ok then None
    else match c
      case StartTask => Some(TaskNow(TaskRunning))
      case StartRecharge => Some(TaskNow(TaskRunning))
      case CancelTask => Some(TaskNow(TaskCancelled))
      case StopRecharge => Some(TaskNow(TaskCancelled))
      case PauseOrResume => Some(TaskNow(if w.exec.queue.current.targetPaused then TaskPaused else TaskRunning))
      case _ => None
  }

  function WorkerSignal(w: World, a: WorkerAction): Option<Signal> {
    match a
    case StartupLocks(g, o) => When(!o.Forked? && StartingUp(w) && g == w.exec.fsm.generation, StartupGivenUp)
    case TimerFires(k, n) =>
      When(k == EnvKind && w.exec.tries.env == Tries(true, n) && StartingUp(w), StartupBroken(EnvironmentTimeout))
    case ServiceReturns(c, _, _, ok) => ServiceSignal(w, c, ok)
    case _ => None
  }

  function UploadSignal(w: World, a: UploadAction): Option<Signal> {
    match a
    case UploadReports(_, ok) => Some(if ok then CollectingDone else CollectingBroken)
    case ProcessingTimerFires(n) =>
      When(n == w.exec.processingAttempt && w.exec.fsm.mode == MappingProcessing,
           ProcessingBroken(UploadConfirmationTimeout))
    case _ => None
  }

  function CallerSignal(w: World, a: CallerAction): Option<Signal> {
    match a
    case StopFollowLocks(emergency, ok) =>
      When(w.exec.fsm.mode == Following && (emergency || ok), if emergency then FollowEmergency else FollowEnds)
    case _ => None
  }

  function FollowSignal(w: World, a: FollowAction): Option<Signal> {
    match a
    case FollowDecides(_, _) =>
      When((w.exec.fsm.mode == Idle || Navigates(w)) && w.exec.fsm.health != UnHealthy, FollowTakesOver)
    case FollowCleanedUp(_, _, ok) => Some(if ok then StoppedForFollow else CleanupBroken)
    case FollowStarts(_, backend, ok) => Some(if backend && !ok then BackendBroken else FollowRuns(!backend))
  }

  function DrainSignal(w: World, a: DrainAction): Option<Signal> {
    match a
    case StopCleaned(ok) => Some(if ok then StoppedForIdle else CleanupBroken)
    case _ => None
  }

  function LineSignal(w: World, line: Line): Option<Signal> {
    match line
    case PauseLine => When(Navigates(w), TaskNow(TaskPaused))
    case ResumeLine => When(Navigates(w), TaskNow(TaskRunning))
    case EnvReadyLine => When(w.exec.tries.env.pending && StartingUp(w), EnvironmentReady)
    case _ => None
  }

  function GatewaySignal(w: World, a: GatewayAction): Option<Signal> {
    match a
    case CommandArrives(_) => None
    case NavigationOpen => When(MayBegin(w), SessionBegins)
    case NavigationHandled(o) =>
      When(o != Launched, if o == AlreadyRunning then StartupBroken(StartupFailed) else StartupGivenUp)
    case StopOpen => When(w.exec.fsm.mode == Idle || w.exec.fsm.mode == Failed || Navigates(w), StopBegins)
    case Log(line) => LineSignal(w, line)
  }

  function OperatorSignal(w: World, a: OperatorAction): Option<Signal> {
    match a
    case MappingOpen => When(MayBegin(w), MappingBegins)
    case MappingForked(pid) => When(pid == 0, MappingNotStarted)
    case PostProcessingDone(ok) => Some(if ok then ProcessingDone else ProcessingBroken(PostProcessingFailed))
    case _ => None
  }

  function SignalOf(w: World, a: Action): Option<Signal> {
    match a
    case ByWorker(x) => WorkerSignal(w, x)
    case ByUpload(x) => UploadSignal(w, x)
    case ByCaller(x) => CallerSignal(w, x)
    case ByFollow(x) => FollowSignal(w, x)
    case ByDrain(x) => DrainSignal(w, x)
    case ByGateway(x) => GatewaySignal(w, x)
    case ByOperator(x) => OperatorSignal(w, x)
  }

  // ---- one action ---------------------------------------------------------------------------

  function Or<T>(told: Option<T>, before: T): T { if told.Some? then told.value else before }

  /** The state after a signal, except readiness. */
  function Moved(s: State, x: Signal): State {
    s.(mode := ModeAfter(x), task := Or(TaskAfter(x), s.task), fault := Or(FaultAfter(x), s.fault),
       placeholder := Or(PlaceholderAfter(x), s.placeholder),
       generation := if Renews(x) then s.generation + 1 else s.generation)
  }

  function Apart(s: State): State { s.(envReady := false, locReady := false) }

  /** What the signal says, and nothing else. */
  predicate Obeys(s: State, x: Option<Signal>, t: State) {
    Apart(t) == if x.Some? then Apart(Moved(s, x.value)) else Apart(s)
  }

  lemma StoppedObeys(s: State, follow: bool)
    ensures Obeys(s, Some(if follow then StoppedForFollow else StoppedForIdle), Stopped(s, true, NoReason, follow))
    ensures Obeys(s, Some(CleanupBroken), Stopped(s, false, CleanupFailed, follow))
    ensures Obeys(s, Some(BackendBroken), Stopped(s, false, FollowBackendFailed, follow))
  {
  }

  lemma BegunObeys(s: State)
    ensures NavigationAllowed(s) ==> Obeys(s, Some(SessionBegins), BeginNavigation(s))
    ensures NavigationAllowed(s) ==> Obeys(s, Some(MappingBegins), BeginMapping(s))
    ensures StopAllowed(s) ==> Obeys(s, Some(StopBegins), BeginStop(s))
    ensures FollowDecisionFor(s) == Start ==> Obeys(s, Some(FollowTakesOver), BeginFollow(s))
  {
  }

  lemma StartupObeys(s: State, reason: Reason)
    requires s.mode == StartingNavigation
    ensures Obeys(s, Some(EnvironmentReady), NavigationReadied(s, true, reason))
    ensures Obeys(s, Some(StartupBroken(reason)), NavigationReadied(s, false, reason))
    ensures Obeys(s, Some(StartupGivenUp), NavigationStartAborted(s))
  {
  }

  lemma TaskObeys(s: State, status: Task)
    requires IsNavigation(s.mode)
    ensures Obeys(s, Some(TaskNow(status)), TaskState(s, status))
  {
  }

  lemma FollowingObeys(s: State, placeholder: bool)
    ensures s.mode == StartingFollow ==> Obeys(s, Some(FollowRuns(placeholder)), FollowStarted(s, placeholder))
    ensures s.mode == Following ==> Obeys(s, Some(FollowEnds), FollowStopped(s, true, NoReason))
    ensures s.mode == Following ==> Obeys(s, Some(FollowEmergency), FollowStopped(s, false, FollowEmergencyStop))
  {
  }

  lemma MappingObeys(s: State, reason: Reason)
    requires IsMapping(s.mode)
    ensures s.mode == Mapping ==> Obeys(s, Some(MappingNotStarted), SetMapping(s, false))
    ensures s.mode == Mapping ==> Obeys(s, None, SetMapping(s, true))
    ensures s.mode == Mapping ==> Obeys(s, Some(CollectingDone), BeginProcessing(s))
    ensures Obeys(s, Some(ProcessingDone), SetMapping(s, false))
    ensures Obeys(s, Some(ProcessingBroken(reason)), MappingFailed(s, reason))
    ensures Obeys(s, Some(CollectingBroken), MappingFailed(s, StopUploadFailed))
  {
  }

  lemma Unmoved(s: State, t: State)
    requires Apart(s) == Apart(t)
    ensures Obeys(s, None, t)
  {
  }

  lemma StartupWorkerObeys(w: World, g: nat, o: StartupOutcome)
    ensures Obeys(w.exec.fsm, WorkerSignal(w, StartupLocks(g, o)), StartupDone(w, g, o).exec.fsm)
  {
    StartupMoves(w.exec, g, o);
    if w.exec.fsm.mode == StartingNavigation {
      StartupObeys(w.exec.fsm, NoReason);
    }
  }

  /** Giving up works only as long as start-up lasts. */
  lemma StartupMoves(e: Exec, g: nat, o: StartupOutcome)
    ensures StartupSection(e, g, o).exec.fsm ==
      if !o.Forked? && e.fsm.mode == StartingNavigation && g == e.fsm.generation
      then NavigationStartAborted(e.fsm) else e.fsm
  {
    assert Abort(e).fsm == NavigationStartAborted(e.fsm);
  }

  lemma OthersComplete(e: Exec, k: Kind, n: nat, ok: bool)
    requires k != EnvKind
    ensures Apart(Complete(e, k, n, ok).exec.fsm) == Apart(e.fsm)
  {
  }

  lemma EnvCompletes(e: Exec, n: nat, ok: bool)
    ensures CompleteEnv(e, n, ok).exec.fsm ==
      if e.tries.env == Tries(true, n) && e.fsm.mode == StartingNavigation
      then NavigationReadied(e.fsm, ok, EnvironmentTimeout) else e.fsm
  {
  }

  lemma TimeoutObeys(w: World, k: Kind, n: nat)
    ensures Obeys(w.exec.fsm, WorkerSignal(w, TimerFires(k, n)), TimerFired(w, k, n).exec.fsm)
  {
    assert TimerFired(w, k, n).exec == Complete(w.exec, k, n, false).exec;
    if k == EnvKind {
      EnvCompletes(w.exec, n, false);
      if w.exec.fsm.mode == StartingNavigation {
        StartupObeys(w.exec.fsm, EnvironmentTimeout);
      }
    } else {
      OthersComplete(w.exec, k, n, false);
    }
  }

  lemma ToggleIsActive(w: World, g: nat, n: nat)
    requires Inv(w) && w.lock == Some(ServiceCall(PauseOrResume, g, n))
    ensures w.exec.queue.transitionActive
  {
    assert Services(w.workers, w.lock, PauseOrResume, w.exec.fsm.generation) >= 1;
  }

  lemma ToggleMoves(e: Exec, ok: bool)
    requires IsNavigation(e.fsm.mode) && e.queue.transitionActive
    ensures CompleteTransition(e, ok).exec.fsm ==
      if ok then TaskState(e.fsm, if e.queue.current.targetPaused then TaskPaused else TaskRunning) else e.fsm
  {
  }

  lemma EndMoves(e: Exec, c: Command, ok: bool)
    requires IsNavigation(e.fsm.mode) && IsService(c) && c != PauseOrResume
    ensures ServiceEnded(e, c, ok).fsm ==
      if ok && (c == StartTask || c == StartRecharge) then TaskState(e.fsm, TaskRunning)
      else if ok && (c == CancelTask || c == StopRecharge) then TaskState(e.fsm, TaskCancelled)
      else e.fsm
  {
  }

  lemma ServiceObeys(w: World, c: Command, g: nat, ok: bool)
    requires NavigationCurrent(w.exec.fsm, g) && IsService(c) && (c == PauseOrResume ==> w.exec.queue.transitionActive)
    ensures Obeys(w.exec.fsm, ServiceSignal(w, c, ok), ServiceReturned(w.exec, c, g, ok).exec.fsm)
  {
    var f := ServiceReturned(w.exec, c, g, ok).exec.fsm;
    if c == PauseOrResume {
      ToggleMoves(w.exec, ok);
      TaskObeys(w.exec.fsm, if w.exec.queue.current.targetPaused then TaskPaused else TaskRunning);
    } else {
      EndMoves(w.exec, c, ok);
      assert f == ServiceEnded(w.exec, c, ok).fsm;
      TaskObeys(w.exec.fsm, TaskRunning);
      TaskObeys(w.exec.fsm, TaskCancelled);
    }
  }

  lemma WorkerObeys(w: World, a: WorkerAction)
    requires Inv(w) && WorkerEnabled(w, a)
    ensures Obeys(w.exec.fsm, WorkerSignal(w, a), WorkerStep(w, a).exec.fsm)
  {
    match a
    case StartupChecks(_) =>
    case StartupLocks(g, o) => StartupWorkerObeys(w, g, o);
    case StartupWakes(_) =>
    case TimerFires(k, n) => TimeoutObeys(w, k, n);
    case ServiceLocks(_, _, _) =>
    case ServiceReturns(c, g, n, ok) =>
      if c == PauseOrResume {
        ToggleIsActive(w, g, n);
      }
      ServiceObeys(w, c, g, ok);
  }

  lemma UploadObeys(w: World, a: UploadAction)
    requires StateInv(w) && UploadEnabled(w, a)
    ensures Obeys(w.exec.fsm, UploadSignal(w, a), UploadStep(w, a).exec.fsm)
  {
    if IsMapping(w.exec.fsm.mode) {
      MappingObeys(w.exec.fsm, UploadConfirmationTimeout);
    }
    match a
    case UploadReports(found, ok) => assert w.exec.fsm.mode == Mapping;
    case ProcessingTimerFires(n) =>
    case _ => assert UploadStep(w, a).exec.fsm == w.exec.fsm;
  }

  lemma CallerObeys(w: World, a: CallerAction)
    requires StateInv(w) && CallerEnabled(w, a)
    ensures Obeys(w.exec.fsm, CallerSignal(w, a), CallerStep(w, a).exec.fsm)
  {
    match a
    case StopFollowLocks(emergency, ok) => FollowingObeys(w.exec.fsm, true);
    case _ => assert CallerStep(w, a).exec.fsm == w.exec.fsm;
  }

  lemma DecisionObeys(w: World, nested: bool, b: bool)
    requires StateInv(w) && w.lock == Some(FollowBegin(nested, b))
    ensures Obeys(w.exec.fsm, FollowSignal(w, FollowDecides(nested, b)), Deciding(w, nested, b).exec.fsm)
  {
    if FollowDecisionFor(w.exec.fsm) == Start {
      BegunObeys(w.exec.fsm);
      assert Deciding(w, nested, b).exec.fsm == BeginFollow(w.exec.fsm);
    } else {
      assert Deciding(w, nested, b).exec.fsm == w.exec.fsm;
    }
  }

  lemma FollowObeys(w: World, a: FollowAction)
    requires StateInv(w) && FollowEnabled(w, a)
    ensures Obeys(w.exec.fsm, FollowSignal(w, a), FollowStep(w, a).exec.fsm)
  {
    match a
    case FollowDecides(nested, b) => DecisionObeys(w, nested, b);
    case FollowCleanedUp(nested, b, ok) =>
      StoppedObeys(w.exec.fsm, true);
    case FollowStarts(nested, b, ok) =>
      StoppedObeys(w.exec.fsm, false);
      FollowingObeys(w.exec.fsm, !b);
  }

  lemma DrainObeys(w: World, a: DrainAction)
    requires StateInv(w) && DrainEnabled(w, a)
    ensures Obeys(w.exec.fsm, DrainSignal(w, a), DrainStep(w, a).exec.fsm)
  {
    match a
    case StopCleaned(ok) => StoppedObeys(w.exec.fsm, false);
    case _ => assert DrainStep(w, a).exec.fsm == w.exec.fsm;
  }

  lemma RequestKeepsFsm(e: Exec, r: Request)
    requires WellFormed(r)
    ensures Dispatch(e, r).exec.fsm == e.fsm
  {
  }

  lemma PointKeepsFsm(e: Exec)
    ensures ConfirmPoint(e).exec.fsm == e.fsm
  {
  }

  lemma LineObeys(w: World, line: Line)
    ensures Obeys(w.exec.fsm, LineSignal(w, line), LogLine(w.exec, line).exec.fsm)
  {
    var e := w.exec;
    match line
    case PauseLine => if IsNavigation(e.fsm.mode) { TaskObeys(e.fsm, TaskPaused); }
    case ResumeLine => if IsNavigation(e.fsm.mode) { TaskObeys(e.fsm, TaskRunning); }
    case EnvReadyLine =>
      EnvCompletes(e, e.tries.env.attempt, true);
      if e.fsm.mode == StartingNavigation {
        StartupObeys(e.fsm, EnvironmentTimeout);
      }
    case WaypointLine => PointKeepsFsm(e);
    case ClearedLine => OthersComplete(e, ClearKind, e.tries.clear.attempt, true);
    case PoseLine => OthersComplete(e, PoseKind, e.tries.pose.attempt, true);
    case OtherLine =>
  }

  lemma NavigationObeys(w: World)
    requires StateInv(w) && Free(w)
    ensures Obeys(w.exec.fsm, GatewaySignal(w, NavigationOpen), NavigationOpened(w).exec.fsm)
  {
    BegunObeys(w.exec.fsm);
  }

  lemma PreparedObeys(w: World, o: StartOutcome)
    requires StateInv(w) && w.lock == Some(NavigationPrepare)
    ensures Obeys(w.exec.fsm, GatewaySignal(w, NavigationHandled(o)), NavigationPrepared(w, o).exec.fsm)
  {
    StartupObeys(w.exec.fsm, StartupFailed);
  }

  lemma GatewayObeys(w: World, a: GatewayAction)
    requires StateInv(w) && GatewayEnabled(w, a)
    ensures Obeys(w.exec.fsm, GatewaySignal(w, a), GatewayStep(w, a).exec.fsm)
  {
    match a
    case CommandArrives(r) => RequestKeepsFsm(w.exec, r);
    case NavigationOpen => NavigationObeys(w);
    case NavigationHandled(o) => PreparedObeys(w, o);
    case StopOpen => BegunObeys(w.exec.fsm);
    case Log(line) => LineObeys(w, line);
  }

  lemma MappingOpenObeys(w: World)
    requires Free(w)
    ensures Obeys(w.exec.fsm, OperatorSignal(w, MappingOpen), MappingOpened(w).exec.fsm)
  {
    BegunObeys(w.exec.fsm);
    assert OpenMapping(w.exec).fsm == if MayBegin(w) then BeginMapping(w.exec.fsm) else w.exec.fsm;
  }

  lemma MappingForkedObeys(w: World, pid: nat)
    requires StateInv(w) && w.lock == Some(MappingStart)
    ensures Obeys(w.exec.fsm, OperatorSignal(w, MappingForked(pid)), MappingStarted(w, pid).exec.fsm)
  {
    MappingObeys(w.exec.fsm, PostProcessingFailed);
    assert MappingLaunched(w.exec, pid).fsm == SetMapping(w.exec.fsm, pid > 0);
  }

  lemma PostProcessingObeys(w: World, ok: bool)
    requires StateInv(w) && w.lock == Some(PostProcessing)
    ensures Obeys(w.exec.fsm, OperatorSignal(w, PostProcessingDone(ok)), PostProcessingEnded(w, ok).exec.fsm)
  {
    MappingObeys(w.exec.fsm, PostProcessingFailed);
    assert PostProcessed(w.exec, ok).fsm ==
      if ok then SetMapping(w.exec.fsm, false) else MappingFailed(w.exec.fsm, PostProcessingFailed);
  }

  lemma OperatorObeys(w: World, a: OperatorAction)
    requires StateInv(w) && OperatorEnabled(w, a)
    ensures Obeys(w.exec.fsm, OperatorSignal(w, a), OperatorStep(w, a).exec.fsm)
  {
    match a
    case MappingOpen => MappingOpenObeys(w);
    case MappingForked(pid) => MappingForkedObeys(w, pid);
    case PostProcessingDone(ok) => PostProcessingObeys(w, ok);
    case _ => assert OperatorStep(w, a).exec.fsm == w.exec.fsm;
  }

  lemma ActionObeys(w: World, a: Action)
    requires Inv(w) && Enabled(w, a)
    ensures Obeys(w.exec.fsm, SignalOf(w, a), Next(w, a).exec.fsm)
  {
    match a
    case ByWorker(x) => WorkerObeys(w, x);
    case ByUpload(x) => UploadObeys(w, x);
    case ByCaller(x) => CallerObeys(w, x);
    case ByFollow(x) => FollowObeys(w, x);
    case ByDrain(x) => DrainObeys(w, x);
    case ByGateway(x) => GatewayObeys(w, x);
    case ByOperator(x) => OperatorObeys(w, x);
  }

  // ---- every run -----------------------------------------------------------------------------

  ghost function Signals(run: seq<World>, actions: seq<Action>): seq<Option<Signal>>
    requires |run| == |actions| + 1
  {
    seq(|actions|, i requires 0 <= i < |actions| => SignalOf(run[i], actions[i]))
  }

  lemma StepObeys(run: seq<World>, actions: seq<Action>, i: nat)
    requires IsRun(run, actions) && i < |actions|
    ensures Obeys(run[i].exec.fsm, SignalOf(run[i], actions[i]), run[i + 1].exec.fsm)
  {
    RunKeeps(run, actions, i);
    ActionObeys(run[i], actions[i]);
  }

  /** The mode is where the latest signal leads, and Idle before the first. */
  ghost predicate ModeFollows(s: State, told: seq<Option<Signal>>, i: nat)
    requires i <= |told|
  {
    && (NeverSet(told, i) ==> s.mode == Idle)
    && forall x :: SetLast(told, i, x) ==> s.mode == ModeAfter(x)
  }

  lemma ModeStep(s: State, t: State, told: seq<Option<Signal>>, i: nat)
    requires i < |told| && ModeFollows(s, told, i) && Obeys(s, told[i], t)
    ensures ModeFollows(t, told, i + 1)
  {
    forall x | SetLast(told, i + 1, x) ensures t.mode == ModeAfter(x) {
      LastStep(told, i + 1, x);
    }
  }

  lemma {:induction false} ModeIsLatest(run: seq<World>, actions: seq<Action>, i: nat)
    requires IsRun(run, actions) && i < |run|
    ensures ModeFollows(run[i].exec.fsm, Signals(run, actions), i)
    decreases i
  {
    if i > 0 {
      ModeIsLatest(run, actions, i - 1);
      StepObeys(run, actions, i - 1);
      ModeStep(run[i - 1].exec.fsm, run[i].exec.fsm, Signals(run, actions), i - 1);
    }
  }

  lemma {:induction false} SomeOrNever<T>(told: seq<Option<T>>, i: nat)
    requires i <= |told|
    ensures NeverSet(told, i) || exists x :: SetLast(told, i, x)
    decreases i
  {
    if i > 0 {
      SomeOrNever(told, i - 1);
      if told[i - 1].Some? {
        LastStep(told, i, told[i - 1].value);
      } else if !NeverSet(told, i - 1) {
        var x :| SetLast(told, i - 1, x);
        LastStep(told, i, x);
      }
    }
  }

  /** The robot is in Failed exactly when the latest signal is a fault. */
  lemma FailedExactlyWhen(run: seq<World>, actions: seq<Action>, i: nat)
    requires IsRun(run, actions) && i < |run|
    ensures run[i].exec.fsm.mode == Failed <==> exists x :: SetLast(Signals(run, actions), i, x) && FaultOf(x).Some?
  {
    ModeIsLatest(run, actions, i);
    SomeOrNever(Signals(run, actions), i);
  }

  /** What ends well, or never began. */
  predicate EndsWell(x: Signal) {
    x == StartupGivenUp || x == StoppedForIdle || x == FollowEnds || x == MappingNotStarted || x == ProcessingDone
  }

  lemma IdleExactlyWhen(run: seq<World>, actions: seq<Action>, i: nat)
    requires IsRun(run, actions) && i < |run|
    ensures run[i].exec.fsm.mode == Idle <==>
      NeverSet(Signals(run, actions), i) || exists x :: SetLast(Signals(run, actions), i, x) && EndsWell(x)
  {
    ModeIsLatest(run, actions, i);
    SomeOrNever(Signals(run, actions), i);
  }

  ghost function TasksTold(told: seq<Option<Signal>>): (r: seq<Option<Task>>)
    ensures |r| == |told|
  {
    seq(|told|, i requires 0 <= i < |told| => if told[i].Some? then TaskAfter(told[i].value) else None)
  }

  ghost function FaultsTold(told: seq<Option<Signal>>): (r: seq<Option<Reason>>)
    ensures |r| == |told|
  {
    seq(|told|, i requires 0 <= i < |told| => if told[i].Some? then FaultAfter(told[i].value) else None)
  }

  lemma ObeyingStep(s: State, told: seq<Option<Signal>>, k: nat, t: State)
    requires k < |told| && Obeys(s, told[k], t)
    ensures t.task == Or(TasksTold(told)[k], s.task) && t.fault == Or(FaultsTold(told)[k], s.fault)
  {
  }

  /** The task status is the latest that a signal told. */
  lemma {:induction false} TaskIsLatest(run: seq<World>, actions: seq<Action>, i: nat)
    requires IsRun(run, actions) && i < |run|
    ensures run[i].exec.fsm.task == Latest(TasksTold(Signals(run, actions)), i, NoTask)
    decreases i
  {
    if i > 0 {
      TaskIsLatest(run, actions, i - 1);
      StepObeys(run, actions, i - 1);
      ObeyingStep(run[i - 1].exec.fsm, Signals(run, actions), i - 1, run[i].exec.fsm);
    }
  }

  /** The fault reason is that of the latest fault, unless a later signal has taken it back. */
  lemma {:induction false} FaultIsLatest(run: seq<World>, actions: seq<Action>, i: nat)
    requires IsRun(run, actions) && i < |run|
    ensures run[i].exec.fsm.fault == Latest(FaultsTold(Signals(run, actions)), i, NoReason)
    decreases i
  {
    if i > 0 {
      FaultIsLatest(run, actions, i - 1);
      StepObeys(run, actions, i - 1);
      ObeyingStep(run[i - 1].exec.fsm, Signals(run, actions), i - 1, run[i].exec.fsm);
    }
  }

  function Renewals(told: seq<Option<Signal>>, i: nat): nat
    requires i <= |told|
    decreases i
  {
    if i == 0 then 0 else Renewals(told, i - 1) + One(told[i - 1].Some? && Renews(told[i - 1].value))
  }

  /** The generation counts the signals that invalidate earlier workers. */
  lemma {:induction false} GenerationCounts(run: seq<World>, actions: seq<Action>, i: nat)
    requires IsRun(run, actions) && i < |run|
    ensures run[i].exec.fsm.generation == Renewals(Signals(run, actions), i)
    decreases i
  {
    if i > 0 {
      GenerationCounts(run, actions, i - 1);
      StepObeys(run, actions, i - 1);
    }
  }

  /** A follow that has run ends with navigation allowed again, unless the robot is
      unhealthy, exactly when it was no emergency and its backend has stopped. */
  lemma EndedFollowAllowsNavigation(run: seq<World>, actions: seq<Action>, i: nat, emergency: bool, ok: bool)
    requires IsRun(run, actions) && i < |actions| && run[i].exec.fsm.mode == Following
    requires actions[i] == ByCaller(StopFollowLocks(emergency, ok))
    ensures NavigationAllowed(run[i + 1].exec.fsm) <==> !emergency && ok && run[i].exec.fsm.health != UnHealthy
    ensures run[i + 1].exec.fsm.mode == Failed <==> emergency
    ensures run[i + 1].exec.fsm.mode == Following <==> !emergency && !ok
  {
    StepObeys(run, actions, i);
  }
}

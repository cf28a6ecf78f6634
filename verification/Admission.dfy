/** Which commands have an effect, and which (`admit_behavior_command` and
    `try_begin_command` in src/CommandExecutor.cc), in terms of the mode, the gate and
    what has been acknowledged. */
module Admission {
  import opened Fsm
  import opened Executor
  import opened Options
  import opened Interleaving
  import opened Invariant
  import opened Coordinator
  import opened Registers
  import opened Statechart
  import opened Readiness

  // ---- commands of a navigation session ------------------------------------------------

  /** Commands that need an empty gate. */
  predicate NeedsGate(r: Request) {
    match r
    case RequestService(c) => c == StartTask || c == CancelTask
    case RequestPause(_) => false
    case RequestDockPose => false
    case _ => true
  }

  /** All but the commands that end a task. */
  predicate NeedsEnvironment(r: Request) {
    !(r.RequestService? && (r.service == CancelTask || r.service == StopRecharge))
  }

  predicate NeedsPose(r: Request) {
    r.RequestService? && (r.service == StartTask || r.service == StartRecharge)
  }

  predicate Eligible(w: World, r: Request) {
    && Navigates(w)
    && (NeedsGate(r) ==> w.exec.active == None)
    && (NeedsEnvironment(r) ==> w.exec.fsm.envReady)
    && (NeedsPose(r) ==> w.exec.fsm.locReady)
  }

  /** A new attempt with its timer, and its command in the gate. */
  predicate Opens(w: World, v: World, k: Kind, c: Command) {
    var n := Attempt(w.exec.tries, k) + 1;
    && TriesOf(v.exec.tries, k) == Tries(true, n)
    && (forall x :: x != k ==> TriesOf(v.exec.tries, x) == TriesOf(w.exec.tries, x))
    && (k != TaskKind ==>
          v.exec.tries.expected == w.exec.tries.expected && v.exec.tries.confirmed == w.exec.tries.confirmed)
    && v.timers == w.timers + multiset{Timer(k, n)} && v.exec.active == Some(c)
    && v.exec.queue == w.exec.queue && v.history.arrived == w.history.arrived
  }

  /** What an eligible command leaves behind. */
  predicate Acts(w: World, r: Request, v: World) {
    match r
    case RequestInitialPose => Opens(w, v, PoseKind, InitialPose) && v.workers == w.workers
    case RequestNavigationTask(points) =>
      if points == 0 then v == w
      else
        && Opens(w, v, TaskKind, NavigationTask) && v.workers == w.workers
        && v.exec.tries.expected == points && v.exec.tries.confirmed == 0
    case RequestService(c) =>
      v == w.(workers := w.workers + multiset{Service(c, w.exec.fsm.generation, 0)},
              exec := w.exec.(active := if NeedsGate(r) then Some(c) else w.exec.active))
    case RequestClearWaypoints =>
      && Opens(w, v, ClearKind, ClearWaypoints)
      && v.workers == w.workers + multiset{Service(ClearWaypoints, w.exec.fsm.generation, v.exec.tries.clear.attempt)}
    case RequestPause(p) =>
      && v.history.arrived == w.history.arrived + [TaskRequest(if p then PauseTask else ResumeTask, p)]
      && v.exec == w.exec.(queue := v.exec.queue)
    case _ => v == w
  }

  lemma AcceptedIsEligible(w: World, r: Request)
    requires WellFormed(r)
    ensures Accepted(w.exec, CommandOf(r)) <==> Eligible(w, r)
  {
  }

  lemma IneligibleDoesNothing(w: World, r: Request)
    requires WellFormed(r) && Free(w) && !Eligible(w, r)
    ensures CommandDone(w, r) == w
  {
    AcceptedIsEligible(w, r);
  }

  lemma PoseActs(w: World)
    requires Free(w) && Eligible(w, RequestInitialPose)
    ensures Acts(w, RequestInitialPose, CommandDone(w, RequestInitialPose))
  {
  }

  lemma TaskActs(w: World, points: nat)
    requires Free(w) && Eligible(w, RequestNavigationTask(points))
    ensures Acts(w, RequestNavigationTask(points), CommandDone(w, RequestNavigationTask(points)))
  {
  }

  lemma ServiceActs(w: World, c: Command)
    requires Free(w) && Eligible(w, RequestService(c)) && WellFormed(RequestService(c))
    ensures Acts(w, RequestService(c), CommandDone(w, RequestService(c)))
  {
  }

  lemma ClearActs(w: World)
    requires Free(w) && Eligible(w, RequestClearWaypoints)
    ensures Acts(w, RequestClearWaypoints, CommandDone(w, RequestClearWaypoints))
  {
  }

  lemma PauseActs(w: World, p: bool)
    requires Free(w) && Eligible(w, RequestPause(p))
    ensures Acts(w, RequestPause(p), CommandDone(w, RequestPause(p)))
  {
  }

  lemma OthersAct(w: World, r: Request)
    requires Free(w) && Eligible(w, r) && WellFormed(r) && (r.RequestDockPose? || r.RequestUnrouted?)
    ensures CommandDone(w, r) == w
  {
  }

  lemma EligibleActs(w: World, r: Request)
    requires Free(w) && WellFormed(r) && Eligible(w, r)
    ensures Acts(w, r, CommandDone(w, r))
  {
    match r
    case RequestInitialPose => PoseActs(w);
    case RequestNavigationTask(points) => TaskActs(w, points);
    case RequestService(c) => ServiceActs(w, c);
    case RequestClearWaypoints => ClearActs(w);
    case RequestPause(p) => PauseActs(w, p);
    case _ => OthersAct(w, r);
  }

  /** The session has an environment, or a localization, that was acknowledged. */
  ghost predicate HasEnvironment(run: seq<World>, i: nat)
    requires i < |run|
  {
    exists j: nat :: RaisedAt(EnvTold(run), Sessions(run), j, i)
  }

  ghost predicate HasPose(run: seq<World>, i: nat)
    requires i < |run|
  {
    exists j: nat :: RaisedAt(PoseTold(run), Sessions(run), j, i)
  }

  /** A command of a session has its effect exactly when the robot navigates, the gate is
      open if it needs one, and the acknowledgements it needs have been given; otherwise
      it changes nothing at all. */
  lemma CommandActsExactlyWhen(run: seq<World>, actions: seq<Action>, i: nat, r: Request)
    requires IsRun(run, actions) && i < |actions| && actions[i] == ByGateway(CommandArrives(r))
    ensures
      if Navigates(run[i]) && (NeedsGate(r) ==> run[i].exec.active == None) &&
         (NeedsEnvironment(r) ==> HasEnvironment(run, i)) && (NeedsPose(r) ==> HasPose(run, i))
      then Acts(run[i], r, run[i + 1])
      else run[i + 1] == run[i]
  {
    EligibleExactlyWhen(run, actions, i, r);
    StepActs(run, actions, i, r);
  }

  lemma EligibleExactlyWhen(run: seq<World>, actions: seq<Action>, i: nat, r: Request)
    requires IsRun(run, actions) && i < |run|
    ensures Eligible(run[i], r) <==>
      Navigates(run[i]) && (NeedsGate(r) ==> run[i].exec.active == None) &&
      (NeedsEnvironment(r) ==> HasEnvironment(run, i)) && (NeedsPose(r) ==> HasPose(run, i))
  {
    EnvironmentReadyExactlyWhen(run, actions, i);
    LocalizationReadyExactlyWhen(run, actions, i);
  }

  lemma StepActs(run: seq<World>, actions: seq<Action>, i: nat, r: Request)
    requires IsRun(run, actions) && i < |actions| && actions[i] == ByGateway(CommandArrives(r))
    ensures if Eligible(run[i], r) then Acts(run[i], r, run[i + 1]) else run[i + 1] == run[i]
  {
    if Eligible(run[i], r) {
      EligibleActs(run[i], r);
    } else {
      IneligibleDoesNothing(run[i], r);
    }
  }

  // ---- commands that take the lock -------------------------------------------------------------

  /** When a command of the operator begins, and what it then has. */
  predicate Begins(w: World, a: OperatorAction, v: World) {
    match a
    case MappingOpen =>
      if MayBegin(w) then v.lock == Some(MappingStart) && v.exec.active == Some(StartMapping) else v == w
    case PostProcessingOpen =>
      if w.exec.fsm.mode == MappingProcessing && w.exec.active == None
      then v == w.(lock := Some(PostProcessing), exec := w.exec.(active := Some(NavUploadSuccessful)))
      else v == w
    case StopUploadOpen =>
      if w.exec.fsm.mode == Mapping && w.exec.active == None then
        && v.exec == w.exec.(active := Some(StopAndUploadMap), uploadRunning := true) && v.lock == w.lock
        && v.upload == if w.exec.uploadRunning then w.upload else Some(UploadStart)
      else v == w
    case MotionOpen => v == if w.exec.fsm.mode == Idle then w.(lock := Some(WebMotion)) else w
    case ParameterOpen => v == if w.exec.fsm.mode == Idle then w.(lock := Some(ParameterWrite)) else w
    case _ => true
  }

  lemma OperatorBegins(w: World, a: OperatorAction)
    requires OperatorEnabled(w, a)
    ensures Begins(w, a, OperatorStep(w, a))
  {
  }

  /** Navigation begins exactly when the robot is idle and not unhealthy and the gate is open. */
  lemma NavigationBeginsExactlyWhen(w: World)
    requires Free(w)
    ensures var v := NavigationOpened(w);
      if MayBegin(w) then v.lock == Some(NavigationPrepare) && v.exec.active == Some(StartNavigation) else v == w
  {
  }

  // ---- who holds the gate ---------------------------------------------------------------------------

  /** The command that an acknowledgement ends. */
  function Acknowledges(k: Kind): Command {
    match k
    case EnvKind => StartNavigation
    case PoseKind => InitialPose
    case TaskKind => NavigationTask
    case ClearKind => ClearWaypoints
  }

  /** The command that takes the gate. */
  function Takes(w: World, a: Action): Option<Command> {
    match a
    case ByGateway(CommandArrives(r)) =>
      if !(Eligible(w, r) && NeedsGate(r)) || r.RequestUnrouted? || r == RequestNavigationTask(0) then None
      else Some(CommandOf(r))
    case ByGateway(NavigationOpen) => if MayBegin(w) then Some(StartNavigation) else None
    case ByOperator(MappingOpen) => if MayBegin(w) then Some(StartMapping) else None
    case ByOperator(PostProcessingOpen) =>
      if w.exec.fsm.mode == MappingProcessing && w.exec.active == None then Some(NavUploadSuccessful) else None
    case ByOperator(StopUploadOpen) =>
      if w.exec.fsm.mode == Mapping && w.exec.active == None then Some(StopAndUploadMap) else None
    case _ => None
  }

  /** The command that ends. */
  function Ends(w: World, a: Action, v: World): Option<Command> {
    match a
    case ByWorker(ServiceReturns(c, _, _, _)) => Some(c)
    case ByWorker(StartupLocks(g, o)) =>
      if !o.Forked? && g == w.exec.fsm.generation && Navigates(w) then Some(StartNavigation) else None
    case ByUpload(UploadFinishes) => Some(StopAndUploadMap)
    case ByGateway(NavigationHandled(o)) => if o != Launched then Some(StartNavigation) else None
    case ByOperator(MappingForked(_)) => Some(StartMapping)
    case ByOperator(PostProcessingDone(_)) => Some(NavUploadSuccessful)
    case _ => if Sent(w, v).Some? then Some(Acknowledges(Sent(w, v).value.kind)) else None
  }

  /** A stop that begins empties the gate; otherwise it is taken by a command that begins
      and given up by one that ends, if it is the one that holds it. */
  predicate GateStep(w: World, a: Action, v: World) {
    v.exec.active ==
      if w.exec.fsm.mode != Stopping && v.exec.fsm.mode == Stopping then None
      else if Takes(w, a).Some? then Takes(w, a)
      else if Ends(w, a, v).Some? && w.exec.active == Ends(w, a, v) then None
      else w.exec.active
  }

  /** Commands that never hold the gate when the lock is free or a service is called. */
  predicate Plain(active: Option<Command>) {
    active != Some(StopAddPoint) && active != Some(PauseOrResume) && active != Some(StartRecharge) &&
    active != Some(StopRecharge)
  }

  predicate Frees(e: Exec, s: Section, c: Option<Command>) {
    && s.exec.active == (if c.Some? && e.active == c then None else e.active)
    && (s.exec.fsm.mode == Stopping ==> e.fsm.mode == Stopping)
  }

  function AckedCommand(f: Effect): Option<Command> {
    if f.ack.Some? then Some(Acknowledges(f.ack.value.kind)) else None
  }

  lemma EnvFrees(e: Exec, n: nat, ok: bool)
    ensures var s := CompleteEnv(e, n, ok); Frees(e, s, AckedCommand(s.effect))
  {
  }

  lemma PoseFrees(e: Exec, n: nat, ok: bool)
    ensures var s := CompletePose(e, n, ok); Frees(e, s, AckedCommand(s.effect))
  {
  }

  lemma TaskFrees(e: Exec, n: nat, ok: bool)
    ensures var s := CompleteTask(e, n, ok); Frees(e, s, AckedCommand(s.effect))
  {
  }

  lemma ClearFrees(e: Exec, n: nat, ok: bool)
    requires Plain(e.active)
    ensures var s := CompleteClear(e, n, ok); Frees(e, s, AckedCommand(s.effect))
  {
  }

  lemma CompletionFrees(e: Exec, k: Kind, n: nat, ok: bool)
    requires Plain(e.active)
    ensures var s := Complete(e, k, n, ok); Frees(e, s, AckedCommand(s.effect))
  {
    match k
    case EnvKind => EnvFrees(e, n, ok);
    case PoseKind => PoseFrees(e, n, ok);
    case TaskKind => TaskFrees(e, n, ok);
    case ClearKind => ClearFrees(e, n, ok);
  }

  lemma PointFrees(e: Exec)
    ensures var s := ConfirmPoint(e); Frees(e, s, AckedCommand(s.effect))
  {
    var e' := e.(tries := e.tries.(confirmed := e.tries.confirmed + 1));
    TaskFrees(e', e'.tries.task.attempt, true);
  }

  lemma LineFrees(e: Exec, line: Line)
    requires Plain(e.active)
    ensures var s := LogLine(e, line); Frees(e, s, AckedCommand(s.effect))
  {
    match line
    case EnvReadyLine => EnvFrees(e, e.tries.env.attempt, true);
    case PoseLine => PoseFrees(e, e.tries.pose.attempt, true);
    case ClearedLine => ClearFrees(e, e.tries.clear.attempt, true);
    case WaypointLine => PointFrees(e);
    case _ =>
  }

  lemma ToggleFrees(e: Exec, ok: bool)
    ensures Frees(e, CompleteTransition(e, ok), None)
  {
  }

  lemma ServiceFrees(e: Exec, c: Command, g: nat, ok: bool)
    requires NavigationCurrent(e.fsm, g) && IsService(c) && Plain(e.active)
    ensures Frees(e, ServiceReturned(e, c, g, ok), Some(c))
  {
    if c == PauseOrResume {
      ToggleFrees(e, ok);
    }
  }

  lemma StartupFrees(e: Exec, g: nat, o: StartupOutcome)
    ensures Frees(e, StartupSection(e, g, o),
                  if !o.Forked? && NavigationCurrent(e.fsm, g) then Some(StartNavigation) else None)
  {
  }

  lemma PreparedFrees(e: Exec, o: StartOutcome)
    ensures Frees(e, StartHandled(e, o), if o != Launched then Some(StartNavigation) else None)
  {
  }

  /** What a committed section shows of its acknowledgement. */
  lemma CommitShows(w: World, before: World, s: Section)
    requires before.history == w.history
    ensures var v := Commit(before, s);
      (if Sent(w, v).Some? then Some(Acknowledges(Sent(w, v).value.kind)) else None) == AckedCommand(s.effect)
  {
  }

  /** A section that takes nothing. */
  lemma SectionGate(w: World, before: World, s: Section, a: Action)
    requires before.history == w.history && Takes(w, a) == None && Frees(w.exec, s, Ends(w, a, Commit(before, s)))
    ensures GateStep(w, a, Commit(before, s))
  {
  }

  lemma WorkerGate(w: World, a: WorkerAction)
    requires Inv(w) && WorkerEnabled(w, a)
    ensures GateStep(w, ByWorker(a), WorkerStep(w, a))
  {
    match a
    case StartupLocks(g, o) =>
      StartupFrees(w.exec, g, o);
      SectionGate(w, Ended(w, StartupWait(g)), StartupSection(w.exec, g, o), ByWorker(a));
    case TimerFires(k, n) => TimerGate(w, k, n);
    case ServiceReturns(c, g, n, ok) =>
      ServiceFrees(w.exec, c, g, ok);
      SectionGate(w, w, ServiceReturned(w.exec, c, g, ok), ByWorker(a));
    case _ => assert WorkerStep(w, a).exec == w.exec && WorkerStep(w, a).history == w.history;
  }

  lemma TimerGate(w: World, k: Kind, n: nat)
    requires Plain(w.exec.active)
    ensures GateStep(w, ByWorker(TimerFires(k, n)), TimerFired(w, k, n))
  {
    var before := w.(timers := w.timers - multiset{Timer(k, n)});
    CompletionFrees(w.exec, k, n, false);
    CommitShows(w, before, Complete(w.exec, k, n, false));
    SectionGate(w, before, Complete(w.exec, k, n, false), ByWorker(TimerFires(k, n)));
  }

  lemma CommandKeepsAcks(w: World, r: Request)
    requires WellFormed(r)
    ensures CommandDone(w, r).history.acks == w.history.acks && CommandDone(w, r).exec.fsm == w.exec.fsm
  {
    RequestSendsNothing(w.exec, r, Launched);
    RequestKeepsFsm(w.exec, r);
  }

  lemma RequestGate(w: World, r: Request)
    requires WellFormed(r) && Free(w)
    ensures GateStep(w, ByGateway(CommandArrives(r)), CommandDone(w, r))
  {
    var v := CommandDone(w, r);
    if Eligible(w, r) {
      EligibleActs(w, r);
      CommandKeepsAcks(w, r);
      ActsOnGate(w, r, v);
    } else {
      IneligibleDoesNothing(w, r);
      SameGate(w, ByGateway(CommandArrives(r)), v);
    }
  }

  /** Nothing is taken, ended or stopped. */
  lemma SameGate(w: World, a: Action, v: World)
    requires Takes(w, a) == None && Ends(w, a, v) == None && v.exec.active == w.exec.active
    requires v.exec.fsm.mode == Stopping ==> w.exec.fsm.mode == Stopping
    ensures GateStep(w, a, v)
  {
  }

  lemma ActsOnGate(w: World, r: Request, v: World)
    requires WellFormed(r) && Eligible(w, r) && Acts(w, r, v) && v.history.acks == w.history.acks
    requires v.exec.fsm.mode == w.exec.fsm.mode
    ensures GateStep(w, ByGateway(CommandArrives(r)), v)
  {
  }

  lemma LineGate(w: World, line: Line)
    requires Plain(w.exec.active)
    ensures GateStep(w, ByGateway(Log(line)), Logged(w, line))
  {
    LineFrees(w.exec, line);
    CommitShows(w, w, LogLine(w.exec, line));
    SectionGate(w, w, LogLine(w.exec, line), ByGateway(Log(line)));
  }

  lemma OpeningGate(w: World)
    requires Free(w) && StateInv(w)
    ensures GateStep(w, ByGateway(NavigationOpen), NavigationOpened(w))
    ensures GateStep(w, ByGateway(StopOpen), StopOpened(w))
  {
    NavigationBeginsExactlyWhen(w);
  }

  lemma GatewayGate(w: World, a: GatewayAction)
    requires Inv(w) && GatewayEnabled(w, a)
    ensures GateStep(w, ByGateway(a), GatewayStep(w, a))
  {
    match a
    case CommandArrives(r) => RequestGate(w, r);
    case NavigationOpen => OpeningGate(w);
    case NavigationHandled(o) =>
      PreparedFrees(w.exec, o);
      SectionGate(w, w, StartHandled(w.exec, o), ByGateway(a));
    case StopOpen => OpeningGate(w);
    case Log(line) => LineGate(w, line);
  }

  lemma UploadGate(w: World, a: UploadAction)
    ensures GateStep(w, ByUpload(a), UploadStep(w, a))
  {
    UploadSendsNothing(w, a);
    if a.UploadFinishes? {
      assert UploadStep(w, a).exec == Finish(w.exec, StopAndUploadMap);
    } else {
      UploadKeepsGate(w, a);
      SameGate(w, ByUpload(a), UploadStep(w, a));
    }
  }

  lemma UploadKeepsGate(w: World, a: UploadAction)
    requires !a.UploadFinishes?
    ensures var e, x := w.exec, UploadStep(w, a).exec;
      x.active == e.active && (x.fsm.mode == Stopping ==> e.fsm.mode == Stopping)
  {
    match a
    case UploadReports(_, ok) =>
    case ProcessingTimerFires(n) =>
    case UploadFinishes =>
    case _ => assert UploadStep(w, a).exec.fsm == w.exec.fsm;
  }

  lemma CallerGate(w: World, a: CallerAction)
    ensures GateStep(w, ByCaller(a), CallerStep(w, a))
  {
    CallerSendsNothing(w, a);
  }

  lemma FollowGate(w: World, a: FollowAction)
    requires StateInv(w) && FollowEnabled(w, a)
    ensures GateStep(w, ByFollow(a), FollowStep(w, a))
  {
    FollowSendsNothing(w, a);
    match a
    case FollowDecides(nested, b) => DecisionGate(w, nested, b);
    case _ => SameGate(w, ByFollow(a), FollowStep(w, a));
  }

  lemma DecisionGate(w: World, nested: bool, b: bool)
    requires StateInv(w) && w.lock == Some(FollowBegin(nested, b))
    ensures GateStep(w, ByFollow(FollowDecides(nested, b)), Deciding(w, nested, b))
  {
  }

  lemma DrainGate(w: World, a: DrainAction)
    ensures GateStep(w, ByDrain(a), DrainStep(w, a))
  {
    DrainSendsNothing(w, a);
  }

  lemma MappingGate(w: World)
    requires Free(w)
    ensures GateStep(w, ByOperator(MappingOpen), MappingOpened(w))
  {
    OperatorBegins(w, MappingOpen);
  }

  lemma MappingForkedGate(w: World, pid: nat)
    ensures GateStep(w, ByOperator(MappingForked(pid)), MappingStarted(w, pid))
  {
    MappingEnds(w.exec, pid);
  }

  lemma ProcessingGate(w: World)
    requires Free(w)
    ensures GateStep(w, ByOperator(PostProcessingOpen), PostProcessingOpened(w))
  {
    OperatorBegins(w, PostProcessingOpen);
  }

  lemma ProcessedGate(w: World, ok: bool)
    ensures GateStep(w, ByOperator(PostProcessingDone(ok)), PostProcessingEnded(w, ok))
  {
    ProcessingEnds(w.exec, ok);
  }

  lemma StopUploadGate(w: World)
    requires Free(w)
    ensures GateStep(w, ByOperator(StopUploadOpen), StopUploadOpened(w))
  {
    OperatorBegins(w, StopUploadOpen);
  }

  lemma IdleOnlyGate(w: World, a: OperatorAction, v: World)
    requires a.MotionOpen? || a.MotionDone? || a.ParameterOpen? || a.ParameterDone?
    requires v.exec == w.exec && v.history == w.history
    ensures GateStep(w, ByOperator(a), v)
  {
    SameGate(w, ByOperator(a), v);
  }

  lemma OperatorGate(w: World, a: OperatorAction)
    requires OperatorEnabled(w, a)
    ensures GateStep(w, ByOperator(a), OperatorStep(w, a))
  {
    match a
    case MappingOpen => MappingGate(w);
    case MappingForked(pid) => MappingForkedGate(w, pid);
    case PostProcessingOpen => ProcessingGate(w);
    case PostProcessingDone(ok) => ProcessedGate(w, ok);
    case StopUploadOpen => StopUploadGate(w);
    case _ => IdleOnlyGate(w, a, OperatorStep(w, a));
  }

  lemma MappingEnds(e: Exec, pid: nat)
    ensures var x := MappingLaunched(e, pid);
      && x.active == (if e.active == Some(StartMapping) then None else e.active)
      && (x.fsm.mode == Stopping ==> e.fsm.mode == Stopping)
  {
  }

  lemma ProcessingEnds(e: Exec, ok: bool)
    ensures var x := PostProcessed(e, ok);
      && x.active == (if e.active == Some(NavUploadSuccessful) then None else e.active)
      && (x.fsm.mode == Stopping ==> e.fsm.mode == Stopping)
  {
  }

  lemma ActionGate(w: World, a: Action)
    requires Inv(w) && Enabled(w, a)
    ensures GateStep(w, a, Next(w, a))
  {
    match a
    case ByWorker(x) => WorkerGate(w, x);
    case ByUpload(x) => UploadGate(w, x);
    case ByCaller(x) => CallerGate(w, x);
    case ByFollow(x) => FollowGate(w, x);
    case ByDrain(x) => DrainGate(w, x);
    case ByGateway(x) => GatewayGate(w, x);
    case ByOperator(x) => OperatorGate(w, x);
  }

  /** The gate changes exactly when a stop begins, a command takes it, or the command that
      holds it ends. */
  lemma GateChangesExactlyWhen(run: seq<World>, actions: seq<Action>, i: nat)
    requires IsRun(run, actions) && i < |actions|
    ensures GateStep(run[i], actions[i], run[i + 1])
  {
    RunKeeps(run, actions, i);
    ActionGate(run[i], actions[i]);
  }
}

/** When the environment and the localization count as ready, in terms of what has
    been acknowledged (`complete_initial_pose_result` and
    `complete_navigation_env_ready` in src/CommandExecutor.cc). */
module Readiness {
  import opened Fsm
  import opened Executor
  import opened Options
  import opened Interleaving
  import opened Invariant
  import opened Continuations
  import opened FirstSteps
  import opened Coordinator
  import opened Registers

  // ---- which acknowledgements are due ------------------------------------------------------

  datatype Due = Due(kind: Kind, attempt: nat, success: bool)

  predicate Live(w: World, k: Kind) {
    var mode := w.exec.fsm.mode;
    Pending(w.exec.tries, k) && (mode == StartingNavigation || mode == Mode.NavigationReady || mode == Navigating)
  }

  function When(b: bool, d: Due): Option<Due> { if b then Some(d) else None }

  /** A log line completes the open attempt that it speaks of, the last point of a task
      completes the task, and the timer of an open attempt fails it. */
  function DueAfter(w: World, a: Action): Option<Due> {
    match a
    case ByWorker(TimerFires(k, n)) => When(Live(w, k) && n == Attempt(w.exec.tries, k), Due(k, n, false))
    case ByGateway(Log(EnvReadyLine)) => When(Live(w, EnvKind), Due(EnvKind, w.exec.tries.env.attempt, true))
    case ByGateway(Log(PoseLine)) => When(Live(w, PoseKind), Due(PoseKind, w.exec.tries.pose.attempt, true))
    case ByGateway(Log(ClearedLine)) => When(Live(w, ClearKind), Due(ClearKind, w.exec.tries.clear.attempt, true))
    case ByGateway(Log(WaypointLine)) =>
      When(Live(w, TaskKind) && w.exec.tries.confirmed + 1 == w.exec.tries.expected,
           Due(TaskKind, w.exec.tries.task.attempt, true))
    case _ => None
  }

  /** The acknowledgement sent between `w` and `v`. */
  function Sent(w: World, v: World): Option<Due> {
    if |v.history.acks| == |w.history.acks| + 1 then
      var a := v.history.acks[|w.history.acks|];
      Some(Due(a.kind, a.attempt, a.success))
    else None
  }

  predicate SendsOnly(w: World, v: World, d: Option<Due>) {
    && Sent(w, v) == d
    && (d == None ==> v.history.acks == w.history.acks)
    && (d.Some? ==> w.history.acks <= v.history.acks)
  }

  function AckOf(f: Effect): Option<Due> {
    if f.ack.Some? then Some(Due(f.ack.value.kind, f.ack.value.attempt, f.ack.value.success)) else None
  }

  lemma CommitSends(w: World, s: Section)
    ensures SendsOnly(w, Commit(w, s), AckOf(s.effect))
  {
  }

  lemma CompletionSends(e: Exec, k: Kind, n: nat, ok: bool)
    ensures AckOf(Complete(e, k, n, ok).effect) ==
      if Pending(e.tries, k) && n == Attempt(e.tries, k) && IsNavigation(e.fsm.mode) then Some(Due(k, n, ok)) else None
  {
  }

  lemma PointSends(e: Exec)
    requires IsNavigation(e.fsm.mode) && e.tries.task.pending && e.tries.confirmed < e.tries.expected
    ensures AckOf(ConfirmPoint(e).effect) ==
      if e.tries.confirmed + 1 == e.tries.expected then Some(Due(TaskKind, e.tries.task.attempt, true)) else None
  {
  }

  lemma LineSends(w: World, line: Line)
    requires StateInv(w)
    ensures AckOf(LogLine(w.exec, line).effect) == DueAfter(w, ByGateway(Log(line)))
  {
    var e := w.exec;
    if IsNavigation(e.fsm.mode) {
      match line
      case EnvReadyLine => CompletionSends(e, EnvKind, e.tries.env.attempt, true);
      case PoseLine => CompletionSends(e, PoseKind, e.tries.pose.attempt, true);
      case ClearedLine => CompletionSends(e, ClearKind, e.tries.clear.attempt, true);
      case WaypointLine => if e.tries.task.pending { PointSends(e); }
      case _ =>
    }
  }

  lemma OthersSendNothing(e: Exec, c: Command, g: nat, ok: bool, o: StartupOutcome)
    ensures ServiceReturned(e, c, g, ok).effect.ack == None && StartupSection(e, g, o).effect.ack == None
  {
  }

  lemma RequestSendsNothing(e: Exec, r: Request, o: StartOutcome)
    ensures Dispatch(e, r).effect.ack == None && StartHandled(e, o).effect.ack == None
  {
  }

  lemma WorkerSends(w: World, a: WorkerAction)
    ensures SendsOnly(w, WorkerStep(w, a), DueAfter(w, ByWorker(a)))
  {
    match a
    case StartupLocks(g, o) =>
      OthersSendNothing(w.exec, StartTask, g, true, o);
      CommitSends(Ended(w, StartupWait(g)), StartupSection(w.exec, g, o));
    case TimerFires(k, n) =>
      CompletionSends(w.exec, k, n, false);
      CommitSends(w.(timers := w.timers - multiset{Timer(k, n)}), Complete(w.exec, k, n, false));
    case ServiceReturns(c, g, n, ok) =>
      OthersSendNothing(w.exec, c, g, ok, Forked);
      CommitSends(w, ServiceReturned(w.exec, c, g, ok));
    case _ => assert WorkerStep(w, a).history == w.history;
  }

  lemma GatewaySends(w: World, a: GatewayAction)
    requires StateInv(w) && GatewayEnabled(w, a)
    ensures SendsOnly(w, GatewayStep(w, a), DueAfter(w, ByGateway(a)))
  {
    match a
    case CommandArrives(r) =>
      RequestSendsNothing(w.exec, r, Launched);
      CommitSends(w, Dispatch(w.exec, r));
    case NavigationHandled(o) =>
      RequestSendsNothing(w.exec, RequestInitialPose, o);
      CommitSends(w, StartHandled(w.exec, o));
    case Log(line) =>
      LineSends(w, line);
      CommitSends(w, LogLine(w.exec, line));
    case _ =>
  }

  lemma UploadSendsNothing(w: World, a: UploadAction)
    ensures UploadStep(w, a).history.acks == w.history.acks
  {
  }

  lemma CallerSendsNothing(w: World, a: CallerAction)
    ensures CallerStep(w, a).history.acks == w.history.acks
  {
  }

  lemma FollowSendsNothing(w: World, a: FollowAction)
    ensures FollowStep(w, a).history.acks == w.history.acks
  {
  }

  lemma DrainSendsNothing(w: World, a: DrainAction)
    ensures DrainStep(w, a).history.acks == w.history.acks
  {
  }

  lemma OperatorSendsNothing(w: World, a: OperatorAction)
    ensures OperatorStep(w, a).history.acks == w.history.acks
  {
  }

  /** Acknowledgements are sent exactly when they are due, and say what is due. */
  lemma AcksAreDue(w: World, a: Action)
    requires Inv(w) && Enabled(w, a)
    ensures SendsOnly(w, Next(w, a), DueAfter(w, a))
  {
    match a
    case ByWorker(x) => WorkerSends(w, x);
    case ByGateway(x) => GatewaySends(w, x);
    case ByUpload(x) => UploadSendsNothing(w, x);
    case ByCaller(x) => CallerSendsNothing(w, x);
    case ByFollow(x) => FollowSendsNothing(w, x);
    case ByDrain(x) => DrainSendsNothing(w, x);
    case ByOperator(x) => OperatorSendsNothing(w, x);
  }

  // ---- readiness ---------------------------------------------------------------------------------

  /** A session and the stop that ends it; the cleanup then resets what was ready. */
  predicate InSession(mode: Mode) {
    mode == StartingNavigation || mode == Mode.NavigationReady || mode == Navigating || mode == Stopping
  }

  /** The outcome that was acknowledged for `k` between `w` and `v`. */
  function Acked(w: World, v: World, k: Kind): Option<bool> {
    if Sent(w, v).Some? && Sent(w, v).value.kind == k then Some(Sent(w, v).value.success) else None
  }

  /** The environment becomes ready by an acknowledgement that finds start-up still open. */
  predicate ReadyStep(w: World, v: World) {
    && v.exec.fsm.envReady ==
       (if Acked(w, v, EnvKind).Some? then Acked(w, v, EnvKind).value && w.exec.fsm.mode == StartingNavigation
        else w.exec.fsm.envReady && InSession(v.exec.fsm.mode))
    && v.exec.fsm.locReady ==
       (if Acked(w, v, PoseKind).Some? then Acked(w, v, PoseKind).value
        else w.exec.fsm.locReady && InSession(v.exec.fsm.mode))
  }

  /** Readiness does not precede the end of start-up. */
  predicate EarlyInv(e: Exec) { e.active == Some(StartNavigation) ==> !e.fsm.envReady }

  predicate QuietReady(e: Exec, x: Exec) {
    && x.fsm.envReady == (e.fsm.envReady && InSession(x.fsm.mode))
    && x.fsm.locReady == (e.fsm.locReady && InSession(x.fsm.mode))
    && (x.active == Some(StartNavigation) ==> e.active == x.active || !e.fsm.envReady)
  }

  predicate Steady(e: Exec) {
    && (e.fsm.envReady ==> Ready(e.fsm) || e.fsm.mode == Stopping)
    && (e.fsm.locReady ==> e.fsm.envReady)
  }

  lemma PoseIsReady(e: Exec, n: nat, ok: bool)
    requires Steady(e) && e.tries.pose == Tries(true, n) && IsNavigation(e.fsm.mode)
    ensures var x := CompletePose(e, n, ok).exec;
      x.fsm == e.fsm.(locReady := ok) && (x.active == e.active || x.active == None)
  {
  }

  lemma EnvIsReady(e: Exec, n: nat, ok: bool)
    requires Steady(e) && EarlyInv(e) && e.tries.env == Tries(true, n) && IsNavigation(e.fsm.mode)
    requires e.active == Some(StartNavigation)
    ensures var x := CompleteEnv(e, n, ok).exec;
      && x.fsm.envReady == (ok && e.fsm.mode == StartingNavigation) && !x.fsm.locReady && x.active == None
  {
  }

  lemma OthersQuiet(e: Exec, k: Kind, n: nat, ok: bool)
    requires Steady(e)
    requires k == TaskKind || k == ClearKind || TriesOf(e.tries, k) != Tries(true, n) || !IsNavigation(e.fsm.mode)
    ensures QuietReady(e, Complete(e, k, n, ok).exec)
  {
  }

  lemma PointQuiet(e: Exec)
    requires Steady(e)
    ensures QuietReady(e, ConfirmPoint(e).exec)
  {
  }

  lemma ToggleQuiet(e: Exec, ok: bool)
    requires Steady(e)
    ensures QuietReady(e, CompleteTransition(e, ok).exec)
  {
  }

  lemma EndQuiet(e: Exec, c: Command, ok: bool)
    requires Steady(e) && c != StartNavigation
    ensures QuietReady(e, ServiceEnded(e, c, ok))
  {
  }

  lemma ServiceQuiet(e: Exec, c: Command, g: nat, ok: bool)
    requires Steady(e) && IsService(c)
    ensures QuietReady(e, ServiceReturned(e, c, g, ok).exec)
  {
    ToggleQuiet(e, ok);
    EndQuiet(e, c, ok);
  }

  lemma StartupQuiet(e: Exec, g: nat, o: StartupOutcome)
    requires Steady(e)
    ensures QuietReady(e, StartupSection(e, g, o).exec)
  {
  }

  lemma RequestQuiet(e: Exec, r: Request)
    requires Steady(e) && WellFormed(r)
    ensures QuietReady(e, Dispatch(e, r).exec)
  {
  }

  lemma PreparedQuiet(e: Exec, o: StartOutcome)
    requires Steady(e)
    ensures QuietReady(e, StartHandled(e, o).exec)
  {
  }

  // ---- one action ------------------------------------------------------------------------------------

  predicate Readies(w: World, v: World) { ReadyStep(w, v) && EarlyInv(v.exec) }

  lemma QuietReadies(w: World, v: World)
    requires EarlyInv(w.exec) && QuietReady(w.exec, v.exec)
    requires Acked(w, v, EnvKind) == None && Acked(w, v, PoseKind) == None
    ensures Readies(w, v)
  {
  }

  lemma SilentReadies(w: World, v: World)
    requires EarlyInv(w.exec) && QuietReady(w.exec, v.exec) && v.history.acks == w.history.acks
    ensures Readies(w, v)
  {
    QuietReadies(w, v);
  }

  /** An attempt completes. */
  lemma CompletionReadies(w: World, v: World, k: Kind, n: nat, ok: bool)
    requires StateInv(w) && EarlyInv(w.exec) && v.exec == Complete(w.exec, k, n, ok).exec
    requires SendsOnly(w, v, When(Live(w, k) && n == Attempt(w.exec.tries, k), Due(k, n, ok)))
    ensures Readies(w, v)
  {
    var e := w.exec;
    if Live(w, k) && n == Attempt(e.tries, k) && k == PoseKind {
      PoseIsReady(e, n, ok);
    } else if Live(w, k) && n == Attempt(e.tries, k) && k == EnvKind {
      EnvIsReady(e, n, ok);
    } else {
      OthersQuiet(e, k, n, ok);
      QuietReadies(w, v);
    }
  }

  lemma WorkerReadies(w: World, a: WorkerAction)
    requires Inv(w) && EarlyInv(w.exec) && WorkerEnabled(w, a)
    ensures Readies(w, WorkerStep(w, a))
  {
    WorkerSends(w, a);
    match a
    case StartupLocks(g, o) =>
      StartupQuiet(w.exec, g, o);
      SilentReadies(w, WorkerStep(w, a));
    case TimerFires(k, n) => CompletionReadies(w, WorkerStep(w, a), k, n, false);
    case ServiceReturns(c, g, n, ok) =>
      ServiceQuiet(w.exec, c, g, ok);
      SilentReadies(w, WorkerStep(w, a));
    case _ =>
      assert WorkerStep(w, a).exec == w.exec;
      SilentReadies(w, WorkerStep(w, a));
  }

  lemma UploadReadies(w: World, a: UploadAction)
    requires StateInv(w) && EarlyInv(w.exec) && UploadEnabled(w, a)
    ensures Readies(w, UploadStep(w, a))
  {
    UploadQuiet(w, a);
    UploadSendsNothing(w, a);
    SilentReadies(w, UploadStep(w, a));
  }

  lemma UploadQuiet(w: World, a: UploadAction)
    requires StateInv(w) && UploadEnabled(w, a)
    ensures QuietReady(w.exec, UploadStep(w, a).exec)
  {
  }

  lemma CallerReadies(w: World, a: CallerAction)
    requires StateInv(w) && EarlyInv(w.exec) && CallerEnabled(w, a)
    ensures Readies(w, CallerStep(w, a))
  {
    CallerQuiet(w, a);
    CallerSendsNothing(w, a);
    SilentReadies(w, CallerStep(w, a));
  }

  lemma CallerQuiet(w: World, a: CallerAction)
    requires StateInv(w) && CallerEnabled(w, a)
    ensures QuietReady(w.exec, CallerStep(w, a).exec)
  {
  }

  lemma FollowReadies(w: World, a: FollowAction)
    requires StateInv(w) && EarlyInv(w.exec) && FollowEnabled(w, a)
    ensures Readies(w, FollowStep(w, a))
  {
    FollowSendsNothing(w, a);
    match a
    case FollowDecides(nested, b) => DecisionQuiet(w, nested, b);
    case FollowCleanedUp(nested, b, ok) => CleanupQuiet(w.exec, ok);
    case FollowStarts(nested, b, ok) => LaunchQuiet(w.exec, b, ok);
    SilentReadies(w, FollowStep(w, a));
  }

  lemma DecisionQuiet(w: World, nested: bool, b: bool)
    requires StateInv(w)
    ensures QuietReady(w.exec, Deciding(w, nested, b).exec)
  {
  }

  lemma CleanupQuiet(e: Exec, ok: bool)
    ensures QuietReady(e, FollowCleaned(e, ok))
  {
  }

  lemma LaunchQuiet(e: Exec, b: bool, ok: bool)
    requires Steady(e) && e.fsm.mode == StartingFollow
    ensures QuietReady(e, FollowLaunched(e, b, ok))
  {
  }

  lemma DrainReadies(w: World, a: DrainAction)
    requires StateInv(w) && EarlyInv(w.exec) && DrainEnabled(w, a)
    ensures Readies(w, DrainStep(w, a))
  {
    DrainQuiet(w, a);
    DrainSendsNothing(w, a);
    SilentReadies(w, DrainStep(w, a));
  }

  lemma DrainQuiet(w: World, a: DrainAction)
    requires StateInv(w) && DrainEnabled(w, a)
    ensures QuietReady(w.exec, DrainStep(w, a).exec)
  {
  }

  function LineOf(k: Kind): Line
    requires k != TaskKind
  {
    match k
    case EnvKind => EnvReadyLine
    case PoseKind => PoseLine
    case ClearKind => ClearedLine
  }

  lemma CompletingLine(e: Exec, k: Kind)
    requires k != TaskKind && IsNavigation(e.fsm.mode) && Pending(e.tries, k)
    ensures LogLine(e, LineOf(k)) == Complete(e, k, Attempt(e.tries, k), true)
  {
  }

  lemma IdleLine(e: Exec, k: Kind)
    requires k != TaskKind && !(IsNavigation(e.fsm.mode) && Pending(e.tries, k))
    ensures LogLine(e, LineOf(k)).exec == e
  {
  }

  lemma CompletingLineReadies(w: World, k: Kind)
    requires Inv(w) && EarlyInv(w.exec) && Free(w) && k != TaskKind
    requires SendsOnly(w, Logged(w, LineOf(k)), When(Live(w, k), Due(k, Attempt(w.exec.tries, k), true)))
    ensures Readies(w, Logged(w, LineOf(k)))
  {
    if Live(w, k) {
      CompletingLine(w.exec, k);
      CompletionReadies(w, Logged(w, LineOf(k)), k, Attempt(w.exec.tries, k), true);
    } else {
      IdleLine(w.exec, k);
      SilentReadies(w, Logged(w, LineOf(k)));
    }
  }

  lemma TaskLineQuiet(e: Exec, line: Line)
    requires Steady(e) && (line == PauseLine || line == ResumeLine || line == WaypointLine || line == OtherLine)
    ensures QuietReady(e, LogLine(e, line).exec)
  {
    PointQuiet(e);
  }

  lemma LineReadies(w: World, line: Line)
    requires Inv(w) && EarlyInv(w.exec) && Free(w)
    ensures Readies(w, Logged(w, line))
  {
    GatewaySends(w, Log(line));
    match line
    case EnvReadyLine => CompletingLineReadies(w, EnvKind);
    case PoseLine => CompletingLineReadies(w, PoseKind);
    case ClearedLine => CompletingLineReadies(w, ClearKind);
    case _ =>
      TaskLineQuiet(w.exec, line);
      QuietReadies(w, Logged(w, line));
  }

  lemma OpeningQuiet(w: World)
    requires StateInv(w) && Free(w)
    ensures QuietReady(w.exec, NavigationOpened(w).exec) && QuietReady(w.exec, StopOpened(w).exec)
  {
  }

  lemma GatewayReadies(w: World, a: GatewayAction)
    requires Inv(w) && EarlyInv(w.exec) && GatewayEnabled(w, a)
    ensures Readies(w, GatewayStep(w, a))
  {
    GatewaySends(w, a);
    match a
    case CommandArrives(r) =>
      RequestQuiet(w.exec, r);
      SilentReadies(w, CommandDone(w, r));
    case NavigationOpen =>
      OpeningQuiet(w);
      SilentReadies(w, NavigationOpened(w));
    case NavigationHandled(o) =>
      PreparedQuiet(w.exec, o);
      SilentReadies(w, NavigationPrepared(w, o));
    case StopOpen =>
      OpeningQuiet(w);
      SilentReadies(w, StopOpened(w));
    case Log(line) => LineReadies(w, line);
  }

  lemma OperatorReadies(w: World, a: OperatorAction)
    requires StateInv(w) && EarlyInv(w.exec) && OperatorEnabled(w, a)
    ensures Readies(w, OperatorStep(w, a))
  {
    OperatorSendsNothing(w, a);
    OperatorQuiet(w, a);
    SilentReadies(w, OperatorStep(w, a));
  }

  lemma OperatorQuiet(w: World, a: OperatorAction)
    requires StateInv(w) && OperatorEnabled(w, a)
    ensures QuietReady(w.exec, OperatorStep(w, a).exec)
  {
    match a
    case MappingOpen => MappingOpenQuiet(w.exec);
    case MappingForked(pid) => MappingStartQuiet(w.exec, pid);
    case PostProcessingDone(ok) => PostProcessingQuiet(w.exec, ok);
    case _ => assert OperatorStep(w, a).exec.fsm == w.exec.fsm;
  }

  lemma MappingOpenQuiet(e: Exec)
    requires Steady(e)
    ensures QuietReady(e, OpenMapping(e))
  {
  }

  lemma MappingStartQuiet(e: Exec, pid: nat)
    requires Steady(e) && e.fsm.mode == Mapping
    ensures QuietReady(e, MappingLaunched(e, pid))
  {
  }

  lemma PostProcessingQuiet(e: Exec, ok: bool)
    requires Steady(e) && e.fsm.mode == MappingProcessing
    ensures QuietReady(e, PostProcessed(e, ok))
  {
  }

  lemma ActionReadies(w: World, a: Action)
    requires Inv(w) && EarlyInv(w.exec) && Enabled(w, a)
    ensures Readies(w, Next(w, a))
  {
    match a
    case ByWorker(x) => WorkerReadies(w, x);
    case ByUpload(x) => UploadReadies(w, x);
    case ByCaller(x) => CallerReadies(w, x);
    case ByFollow(x) => FollowReadies(w, x);
    case ByDrain(x) => DrainReadies(w, x);
    case ByGateway(x) => GatewayReadies(w, x);
    case ByOperator(x) => OperatorReadies(w, x);
  }

  // ---- every run ----------------------------------------------------------------------------------------

  lemma {:induction false} RunReadies(run: seq<World>, actions: seq<Action>, i: nat)
    requires IsRun(run, actions) && i < |run|
    ensures EarlyInv(run[i].exec)
    decreases i
  {
    if i > 0 {
      RunReadies(run, actions, i - 1);
      StepReadies(run, actions, i - 1);
    }
  }

  lemma StepReadies(run: seq<World>, actions: seq<Action>, i: nat)
    requires IsRun(run, actions) && i < |actions| && EarlyInv(run[i].exec)
    ensures Readies(run[i], run[i + 1])
    ensures ReadyInSession(run[i + 1].exec.fsm)
  {
    RunKeeps(run, actions, i);
    RunKeeps(run, actions, i + 1);
    ActionReadies(run[i], actions[i]);
  }

  predicate ReadyInSession(s: State) { (s.envReady || s.locReady) ==> InSession(s.mode) }

  /** The environment acknowledgement of step `j`, if it finds start-up still open. */
  ghost function EnvTold(run: seq<World>): (r: seq<Option<bool>>)
    requires run != []
    ensures |r| == |run| - 1
  {
    seq(|run| - 1, j requires 0 <= j < |run| - 1 =>
      var done := Acked(run[j], run[j + 1], EnvKind);
      if done.Some? then Some(done.value && run[j].exec.fsm.mode == StartingNavigation) else None)
  }

  ghost function PoseTold(run: seq<World>): (r: seq<Option<bool>>)
    requires run != []
    ensures |r| == |run| - 1
  {
    seq(|run| - 1, j requires 0 <= j < |run| - 1 => Acked(run[j], run[j + 1], PoseKind))
  }

  ghost function Sessions(run: seq<World>): (r: seq<bool>)
    ensures |r| == |run|
  {
    seq(|run|, j requires 0 <= j < |run| => InSession(run[j].exec.fsm.mode))
  }

  ghost function EnvFlags(run: seq<World>): (r: seq<bool>)
    ensures |r| == |run|
  {
    seq(|run|, j requires 0 <= j < |run| => run[j].exec.fsm.envReady)
  }

  ghost function PoseFlags(run: seq<World>): (r: seq<bool>)
    ensures |r| == |run|
  {
    seq(|run|, j requires 0 <= j < |run| => run[j].exec.fsm.locReady)
  }

  predicate FollowsAt(w: World, v: World) { ReadyStep(w, v) && ReadyInSession(v.exec.fsm) }

  lemma EnvFlagsFollow(run: seq<World>)
    requires run != [] && run[0] == START
    requires forall k, n :: 0 <= k < |run| - 1 && n == k + 1 ==> FollowsAt(run[k], run[n])
    ensures IsFlag(EnvFlags(run), EnvTold(run), Sessions(run))
  {
    forall k | 0 <= k < |run| && EnvFlags(run)[k] ensures Sessions(run)[k] {
      assert k > 0 ==> FollowsAt(run[k - 1], run[k]);
    }
  }

  lemma PoseFlagsFollow(run: seq<World>)
    requires run != [] && run[0] == START
    requires forall k, n :: 0 <= k < |run| - 1 && n == k + 1 ==> FollowsAt(run[k], run[n])
    ensures IsFlag(PoseFlags(run), PoseTold(run), Sessions(run))
  {
    forall k | 0 <= k < |run| && PoseFlags(run)[k] ensures Sessions(run)[k] {
      assert k > 0 ==> FollowsAt(run[k - 1], run[k]);
    }
  }

  lemma FlagsFollow(run: seq<World>, actions: seq<Action>)
    requires IsRun(run, actions)
    ensures IsFlag(EnvFlags(run), EnvTold(run), Sessions(run))
    ensures IsFlag(PoseFlags(run), PoseTold(run), Sessions(run))
  {
    forall k, n | 0 <= k < |run| - 1 && n == k + 1 ensures FollowsAt(run[k], run[n]) {
      RunReadies(run, actions, k);
      StepReadies(run, actions, k);
    }
    EnvFlagsFollow(run);
    PoseFlagsFollow(run);
  }

  /** The localization counts as ready exactly when the latest pose acknowledgement is a
      success and its session has not been cleaned up since. */
  lemma LocalizationReadyExactlyWhen(run: seq<World>, actions: seq<Action>, i: nat)
    requires IsRun(run, actions) && i < |run|
    ensures run[i].exec.fsm.locReady <==> exists j: nat :: RaisedAt(PoseTold(run), Sessions(run), j, i)
  {
    FlagsFollow(run, actions);
    FlagIsRaised(PoseFlags(run), PoseTold(run), Sessions(run), i);
  }

  /** The environment counts as ready exactly when the latest environment acknowledgement
      is a success that found start-up still open, and its session has not been cleaned
      up since. */
  lemma EnvironmentReadyExactlyWhen(run: seq<World>, actions: seq<Action>, i: nat)
    requires IsRun(run, actions) && i < |run|
    ensures run[i].exec.fsm.envReady <==> exists j: nat :: RaisedAt(EnvTold(run), Sessions(run), j, i)
  {
    FlagsFollow(run, actions);
    FlagIsRaised(EnvFlags(run), EnvTold(run), Sessions(run), i);
  }

  /** In particular a timeout of the open pose attempt leaves the robot unlocalized. */
  lemma PoseTimeoutUnlocalizes(run: seq<World>, actions: seq<Action>, i: nat, n: nat)
    requires IsRun(run, actions) && i < |actions| && actions[i] == ByWorker(TimerFires(PoseKind, n))
    requires run[i].exec.tries.pose == Tries(true, n)
    ensures !run[i + 1].exec.fsm.locReady
  {
    RunKeeps(run, actions, i);
    RunReadies(run, actions, i);
    StepReadies(run, actions, i);
    AcksAreDue(run[i], actions[i]);
  }

  /** An environment that is acknowledged as successful is ready exactly when start-up
      was still open. */
  lemma AcknowledgedIsReadyExactlyWhen(run: seq<World>, actions: seq<Action>, i: nat)
    requires IsRun(run, actions) && i < |actions| && Acked(run[i], run[i + 1], EnvKind) == Some(true)
    ensures run[i + 1].exec.fsm.envReady <==> run[i].exec.fsm.mode == StartingNavigation
  {
    RunReadies(run, actions, i);
    StepReadies(run, actions, i);
  }

  lemma PausedStartup() returns (w: World)
    ensures Reachable(w) && Free(w) && w.exec.fsm.mode == Navigating && !w.exec.fsm.envReady
    ensures w.exec.tries.env.pending && w.exec.active == Some(StartNavigation)
  {
    var w0 := NavigationBegins();
    var w1 := NavigationStarts(w0);
    ReachesOn(w1, ByWorker(StartupChecks(w1.exec.fsm.generation)));
    var w2 := StartupForks(StartupChecked(w1, w1.exec.fsm.generation));
    ReachesOn(w2, ByGateway(Log(PauseLine)));
    w := Logged(w2, PauseLine);
    ReachableKeeps(w2);
  }

  /** A run from the start: a pause line arrives during start-up, and the environment is
      then acknowledged as ready without being so. Navigation lasts, the gate is free,
      and no pose, task or second start is accepted until a stop. */
  lemma AcknowledgedButNotReady() returns (w: World, v: World)
    ensures Reachable(w) && Steps(w, ByGateway(Log(EnvReadyLine)), v)
    ensures Acked(w, v, EnvKind) == Some(true) && !v.exec.fsm.envReady && v.exec.active == None
    ensures !Accepted(v.exec, InitialPose) && !Accepted(v.exec, NavigationTask) && !Accepted(v.exec, StartNavigation)
  {
    w := PausedStartup();
    v := Logged(w, EnvReadyLine);
    ReachableKeeps(w);
    GatewaySends(w, Log(EnvReadyLine));
    var e, n := w.exec, w.exec.tries.env.attempt;
    assert LogLine(e, EnvReadyLine) == CompleteEnv(e, n, true);
    assert CompleteEnv(e, n, true).exec.fsm == e.fsm;
  }
}

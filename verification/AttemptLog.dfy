/** The attempts of the four acknowledged operations: opened by their command, closed by
    their acknowledgement, and all dropped when a stop begins
    (`invalidate_navigation_requests` in src/CommandExecutor.cc). */
module AttemptLog {
  import opened Fsm
  import opened Executor
  import opened Options
  import opened Interleaving
  import opened Invariant
  import opened Coordinator
  import opened Statechart
  import opened Readiness
  import opened Admission

  predicate BeginsStop(w: World, v: World) {
    w.exec.fsm.mode != Stopping && v.exec.fsm.mode == Stopping
  }

  /** The operation that a command or a forked start-up opens. */
  function OpensBy(w: World, a: Action): Option<Kind> {
    match a
    case ByGateway(CommandArrives(r)) =>
      if !Eligible(w, r) then None
      else if r == RequestInitialPose then Some(PoseKind)
      else if r.RequestNavigationTask? && r.points > 0 then Some(TaskKind)
      else if r == RequestClearWaypoints then Some(ClearKind)
      else None
    case ByWorker(StartupLocks(g, o)) =>
      if o.Forked? && g == w.exec.fsm.generation && Navigates(w) then Some(EnvKind) else None
    case _ => None
  }

  function TriesAfter(w: World, a: Action, v: World, k: Kind): Tries {
    var n := Attempt(w.exec.tries, k);
    if BeginsStop(w, v) then Tries(false, n + 1)
    else if OpensBy(w, a) == Some(k) then Tries(true, n + 1)
    else if Sent(w, v).Some? && Sent(w, v).value.kind == k then Tries(false, n)
    else TriesOf(w.exec.tries, k)
  }

  predicate TriesStep(w: World, a: Action, v: World) {
    forall k :: TriesOf(v.exec.tries, k) == TriesAfter(w, a, v, k)
  }

  /** Points are expected as commanded, and counted by the lines that confirm them. */
  predicate PointsStep(w: World, a: Action, v: World) {
    var expected, confirmed := w.exec.tries.expected, w.exec.tries.confirmed;
    if OpensBy(w, a) == Some(TaskKind) then
      v.exec.tries.expected == a.gatewayAction.request.points && v.exec.tries.confirmed == 0
    else
      && v.exec.tries.expected == expected
      && v.exec.tries.confirmed == confirmed + One(a == ByGateway(Log(WaypointLine)) && Live(w, TaskKind))
  }

  predicate LogStep(w: World, a: Action, v: World) { TriesStep(w, a, v) && PointsStep(w, a, v) }

  /** The acknowledged attempt is closed, and nothing else changes. */
  predicate Closes(e: Exec, s: Section) {
    && (forall k :: TriesOf(s.exec.tries, k) ==
          if s.effect.ack.Some? && s.effect.ack.value.kind == k
          then Tries(false, Attempt(e.tries, k)) else TriesOf(e.tries, k))
    && s.exec.tries.expected == e.tries.expected
    && (s.exec.fsm.mode == Stopping ==> e.fsm.mode == Stopping)
  }

  lemma CompletionCloses(e: Exec, k: Kind, n: nat, ok: bool)
    requires k == EnvKind && e.tries.env.pending ==> IsNavigation(e.fsm.mode)
    ensures var s := Complete(e, k, n, ok); Closes(e, s) && s.exec.tries.confirmed == e.tries.confirmed
  {
    match k
    case EnvKind => EnvCloses(e, n, ok);
    case PoseKind => PoseCloses(e, n, ok);
    case TaskKind => TaskCloses(e, n, ok);
    case ClearKind => ClearCloses(e, n, ok);
  }

  lemma EnvCloses(e: Exec, n: nat, ok: bool)
    requires e.tries.env.pending ==> IsNavigation(e.fsm.mode)
    ensures var s := CompleteEnv(e, n, ok); Closes(e, s) && s.exec.tries.confirmed == e.tries.confirmed
  {
  }

  lemma PoseCloses(e: Exec, n: nat, ok: bool)
    ensures var s := CompletePose(e, n, ok); Closes(e, s) && s.exec.tries.confirmed == e.tries.confirmed
  {
  }

  lemma TaskCloses(e: Exec, n: nat, ok: bool)
    ensures var s := CompleteTask(e, n, ok); Closes(e, s) && s.exec.tries.confirmed == e.tries.confirmed
  {
  }

  lemma ClearCloses(e: Exec, n: nat, ok: bool)
    ensures var s := CompleteClear(e, n, ok); Closes(e, s) && s.exec.tries.confirmed == e.tries.confirmed
  {
  }

  lemma PointCloses(e: Exec)
    ensures var s := ConfirmPoint(e); Closes(e, s) && s.exec.tries.confirmed == e.tries.confirmed + 1
  {
  }

  lemma LineCloses(e: Exec, line: Line)
    requires e.tries.env.pending ==> IsNavigation(e.fsm.mode)
    ensures var s := LogLine(e, line);
      && Closes(e, s)
      && s.exec.tries.confirmed ==
         if line == WaypointLine && IsNavigation(e.fsm.mode) && e.tries.task.pending
         then e.tries.confirmed + 1 else e.tries.confirmed
  {
    match line
    case EnvReadyLine => CompletionCloses(e, EnvKind, e.tries.env.attempt, true);
    case PoseLine => CompletionCloses(e, PoseKind, e.tries.pose.attempt, true);
    case ClearedLine => CompletionCloses(e, ClearKind, e.tries.clear.attempt, true);
    case WaypointLine => PointCloses(e);
    case _ =>
  }

  lemma ServiceCloses(e: Exec, c: Command, g: nat, ok: bool)
    ensures var s := ServiceReturned(e, c, g, ok);
      s.exec.tries == e.tries && s.effect.ack == None && (s.exec.fsm.mode == Stopping ==> e.fsm.mode == Stopping)
  {
    ToggleCloses(e, ok);
    EndCloses(e, c, ok);
  }

  lemma ToggleCloses(e: Exec, ok: bool)
    ensures var s := CompleteTransition(e, ok);
      s.exec.tries == e.tries && s.effect.ack == None && (s.exec.fsm.mode == Stopping ==> e.fsm.mode == Stopping)
  {
  }

  lemma EndCloses(e: Exec, c: Command, ok: bool)
    ensures var x := ServiceEnded(e, c, ok); x.tries == e.tries && (x.fsm.mode == Stopping ==> e.fsm.mode == Stopping)
  {
  }

  /** A section that opens nothing. */
  lemma SectionLog(w: World, before: World, s: Section, a: Action)
    requires before.history == w.history && Closes(w.exec, s) && OpensBy(w, a) == None
    requires s.exec.tries.confirmed ==
      w.exec.tries.confirmed + One(a == ByGateway(Log(WaypointLine)) && Live(w, TaskKind))
    ensures LogStep(w, a, Commit(before, s))
  {
  }

  lemma SameLog(w: World, a: Action, v: World)
    requires v.exec.tries == w.exec.tries && v.history.acks == w.history.acks && OpensBy(w, a) == None
    requires !BeginsStop(w, v) && !(a.ByGateway? && a.gatewayAction.Log?)
    ensures LogStep(w, a, v)
  {
  }

  lemma DroppedLog(w: World, a: Action, v: World)
    requires v.exec.tries == Invalidate(w.exec).tries && v.history.acks == w.history.acks && BeginsStop(w, v)
    requires a.ByFollow? || a == ByGateway(StopOpen)
    ensures LogStep(w, a, v)
  {
  }

  lemma StartupLogs(w: World, g: nat, o: StartupOutcome)
    ensures LogStep(w, ByWorker(StartupLocks(g, o)), StartupDone(w, g, o))
  {
    StartupOpens(w.exec, g, o);
    var s := StartupSection(w.exec, g, o);
    if o.Forked? && NavigationCurrent(w.exec.fsm, g) {
      EnvironmentLog(w, Ended(w, StartupWait(g)), s, g);
    } else {
      SectionLog(w, Ended(w, StartupWait(g)), s, ByWorker(StartupLocks(g, o)));
    }
  }

  lemma StartupOpens(e: Exec, g: nat, o: StartupOutcome)
    ensures var s := StartupSection(e, g, o);
      && s.effect.ack == None && (s.exec.fsm.mode == Stopping ==> e.fsm.mode == Stopping)
      && s.exec.tries == if o.Forked? && NavigationCurrent(e.fsm, g)
                         then e.tries.(env := Tries(true, e.tries.env.attempt + 1)) else e.tries
  {
  }

  lemma EnvironmentLog(w: World, before: World, s: Section, g: nat)
    requires before.history == w.history && NavigationCurrent(w.exec.fsm, g) && s.effect.ack == None
    requires s.exec.tries == w.exec.tries.(env := Tries(true, w.exec.tries.env.attempt + 1))
    requires s.exec.fsm.mode != Stopping
    ensures LogStep(w, ByWorker(StartupLocks(g, Forked)), Commit(before, s))
  {
  }

  lemma WorkerLogs(w: World, a: WorkerAction)
    requires Inv(w) && WorkerEnabled(w, a)
    ensures LogStep(w, ByWorker(a), WorkerStep(w, a))
  {
    match a
    case StartupLocks(g, o) => StartupLogs(w, g, o);
    case TimerFires(k, n) =>
      CompletionCloses(w.exec, k, n, false);
      SectionLog(w, w.(timers := w.timers - multiset{Timer(k, n)}), Complete(w.exec, k, n, false), ByWorker(a));
    case ServiceReturns(c, g, n, ok) =>
      ServiceCloses(w.exec, c, g, ok);
      SectionLog(w, w, ServiceReturned(w.exec, c, g, ok), ByWorker(a));
    case _ => SameLog(w, ByWorker(a), WorkerStep(w, a));
  }

  lemma RequestLogs(w: World, r: Request)
    requires WellFormed(r) && Free(w)
    ensures LogStep(w, ByGateway(CommandArrives(r)), CommandDone(w, r))
  {
    CommandKeepsAcks(w, r);
    if Eligible(w, r) {
      EligibleActs(w, r);
      ActsOnLog(w, r, CommandDone(w, r));
    } else {
      IneligibleDoesNothing(w, r);
      SameLog(w, ByGateway(CommandArrives(r)), CommandDone(w, r));
    }
  }

  lemma ActsOnLog(w: World, r: Request, v: World)
    requires Eligible(w, r) && Acts(w, r, v) && v.history.acks == w.history.acks && v.exec.fsm == w.exec.fsm
    ensures LogStep(w, ByGateway(CommandArrives(r)), v)
  {
    var a := ByGateway(CommandArrives(r));
    match OpensBy(w, a)
    case Some(k) => OpenedLog(w, a, v, k, Acknowledges(k));
    case None =>
      assert v.exec.tries == w.exec.tries;
      SameLog(w, a, v);
  }

  lemma OpenedLog(w: World, a: Action, v: World, k: Kind, c: Command)
    requires Opens(w, v, k, c) && OpensBy(w, a) == Some(k) && v.history.acks == w.history.acks && !BeginsStop(w, v)
    requires k == TaskKind ==> a.ByGateway? && a.gatewayAction.CommandArrives?
    requires k == TaskKind ==> v.exec.tries.expected == a.gatewayAction.request.points && v.exec.tries.confirmed == 0
    ensures LogStep(w, a, v)
  {
  }

  lemma OpeningLogs(w: World)
    requires Free(w) && StateInv(w)
    ensures LogStep(w, ByGateway(NavigationOpen), NavigationOpened(w))
    ensures LogStep(w, ByGateway(StopOpen), StopOpened(w))
  {
    NavigationLogs(w);
    if StopAllowed(w.exec.fsm) {
      DroppedLog(w, ByGateway(StopOpen), StopOpened(w));
    } else {
      SameLog(w, ByGateway(StopOpen), w);
    }
  }

  lemma NavigationLogs(w: World)
    requires Free(w)
    ensures LogStep(w, ByGateway(NavigationOpen), NavigationOpened(w))
  {
    SameLog(w, ByGateway(NavigationOpen), NavigationOpened(w));
  }

  lemma PreparedLogs(w: World, o: StartOutcome)
    requires Inv(w) && w.lock == Some(NavigationPrepare)
    ensures LogStep(w, ByGateway(NavigationHandled(o)), NavigationPrepared(w, o))
  {
    assert StartHandled(w.exec, o).exec.tries == w.exec.tries && StartHandled(w.exec, o).effect.ack == None;
    SameLog(w, ByGateway(NavigationHandled(o)), NavigationPrepared(w, o));
  }

  lemma GatewayLogs(w: World, a: GatewayAction)
    requires Inv(w) && GatewayEnabled(w, a)
    ensures LogStep(w, ByGateway(a), GatewayStep(w, a))
  {
    match a
    case CommandArrives(r) => RequestLogs(w, r);
    case NavigationOpen => OpeningLogs(w);
    case NavigationHandled(o) => PreparedLogs(w, o);
    case StopOpen => OpeningLogs(w);
    case Log(line) =>
      LineCloses(w.exec, line);
      SectionLog(w, w, LogLine(w.exec, line), ByGateway(a));
  }

  lemma UploadLogs(w: World, a: UploadAction)
    ensures LogStep(w, ByUpload(a), UploadStep(w, a))
  {
    UploadSendsNothing(w, a);
    UploadKeepsTries(w, a);
    SameLog(w, ByUpload(a), UploadStep(w, a));
  }

  lemma UploadKeepsTries(w: World, a: UploadAction)
    ensures var e, x := w.exec, UploadStep(w, a).exec;
      x.tries == e.tries && (x.fsm.mode == Stopping ==> e.fsm.mode == Stopping)
  {
    match a
    case UploadReports(_, ok) =>
    case ProcessingTimerFires(n) =>
    case _ => assert UploadStep(w, a).exec.fsm == w.exec.fsm;
  }

  lemma CallerLogs(w: World, a: CallerAction)
    ensures LogStep(w, ByCaller(a), CallerStep(w, a))
  {
    CallerSendsNothing(w, a);
    SameLog(w, ByCaller(a), CallerStep(w, a));
  }

  lemma DecisionLogs(w: World, nested: bool, b: bool)
    requires StateInv(w) && w.lock == Some(FollowBegin(nested, b))
    ensures LogStep(w, ByFollow(FollowDecides(nested, b)), Deciding(w, nested, b))
  {
    if FollowDecisionFor(w.exec.fsm) == Start {
      DroppedLog(w, ByFollow(FollowDecides(nested, b)), Deciding(w, nested, b));
    } else {
      SameLog(w, ByFollow(FollowDecides(nested, b)), Deciding(w, nested, b));
    }
  }

  lemma FollowLogs(w: World, a: FollowAction)
    requires StateInv(w) && FollowEnabled(w, a)
    ensures LogStep(w, ByFollow(a), FollowStep(w, a))
  {
    match a
    case FollowDecides(nested, b) => DecisionLogs(w, nested, b);
    case _ => SameLog(w, ByFollow(a), FollowStep(w, a));
  }

  lemma DrainLogs(w: World, a: DrainAction)
    ensures LogStep(w, ByDrain(a), DrainStep(w, a))
  {
    DrainSendsNothing(w, a);
    SameLog(w, ByDrain(a), DrainStep(w, a));
  }

  lemma OperatorLogs(w: World, a: OperatorAction)
    ensures LogStep(w, ByOperator(a), OperatorStep(w, a))
  {
    OperatorSendsNothing(w, a);
    OperatorKeepsTries(w, a);
    SameLog(w, ByOperator(a), OperatorStep(w, a));
  }

  lemma OperatorKeepsTries(w: World, a: OperatorAction)
    ensures var e, x := w.exec, OperatorStep(w, a).exec;
      x.tries == e.tries && (x.fsm.mode == Stopping ==> e.fsm.mode == Stopping)
  {
    match a
    case MappingOpen => MappingKeepsTries(w.exec, 0);
    case MappingForked(pid) => MappingKeepsTries(w.exec, pid);
    case PostProcessingOpen => ProcessingKeepsTries(w.exec, true);
    case PostProcessingDone(ok) => ProcessingKeepsTries(w.exec, ok);
    case StopUploadOpen => ProcessingKeepsTries(w.exec, true);
    case _ =>
  }

  lemma MappingKeepsTries(e: Exec, pid: nat)
    ensures OpenMapping(e).tries == e.tries && (OpenMapping(e).fsm.mode == Stopping ==> e.fsm.mode == Stopping)
    ensures var x := MappingLaunched(e, pid); x.tries == e.tries && (x.fsm.mode == Stopping ==> e.fsm.mode == Stopping)
  {
  }

  lemma ProcessingKeepsTries(e: Exec, ok: bool)
    ensures OpenPostProcessing(e).tries == e.tries && OpenPostProcessing(e).fsm == e.fsm
    ensures OpenStopUpload(e).tries == e.tries && OpenStopUpload(e).fsm == e.fsm
    ensures var x := PostProcessed(e, ok); x.tries == e.tries && (x.fsm.mode == Stopping ==> e.fsm.mode == Stopping)
  {
  }

  lemma ActionLogs(w: World, a: Action)
    requires Inv(w) && Enabled(w, a)
    ensures LogStep(w, a, Next(w, a))
  {
    match a
    case ByWorker(x) => WorkerLogs(w, x);
    case ByUpload(x) => UploadLogs(w, x);
    case ByCaller(x) => CallerLogs(w, x);
    case ByFollow(x) => FollowLogs(w, x);
    case ByDrain(x) => DrainLogs(w, x);
    case ByGateway(x) => GatewayLogs(w, x);
    case ByOperator(x) => OperatorLogs(w, x);
  }

  /** An attempt is opened by its command, closed by its acknowledgement, and dropped
      under a new number when a stop begins; points are counted by the lines that
      confirm them. Nothing else changes an attempt. */
  lemma AttemptsChangeExactlyWhen(run: seq<World>, actions: seq<Action>, i: nat)
    requires IsRun(run, actions) && i < |actions|
    ensures TriesStep(run[i], actions[i], run[i + 1]) && PointsStep(run[i], actions[i], run[i + 1])
  {
    RunKeeps(run, actions, i);
    ActionLogs(run[i], actions[i]);
  }
}

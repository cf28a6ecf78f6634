/** What the executor believes about pausing (`task_paused_` in src/CommandExecutor.cc),
    in terms of toggles, log lines and stops. */
module PauseBelief {
  import opened Fsm
  import opened Executor
  import opened Options
  import opened Interleaving
  import opened Invariant
  import opened Coordinator
  import opened Registers
  import opened Statechart

  function If(b: bool, x: bool): Option<bool> { if b then Some(x) else None }

  predicate IsToggle(a: Action, ok: bool) {
    a.ByWorker? && a.workerAction.ServiceReturns? && a.workerAction.command == PauseOrResume && a.workerAction.ok == ok
  }

  /** What an action tells: a successful toggle its target, a line of the navigation
      stack what it reports, a started task that nothing is paused. */
  function Reported(w: World, a: Action): Option<bool> {
    match a
    case ByWorker(ServiceReturns(c, _, _, ok)) =>
      if ok && c == PauseOrResume then Some(w.exec.queue.current.targetPaused)
      else If(ok && c == StartTask && !w.exec.queue.transitionActive, false)
    case ByGateway(Log(PauseLine)) => If(Navigates(w), true)
    case ByGateway(Log(ResumeLine)) => If(Navigates(w), false)
    case _ => None
  }

  /** A stop that begins, also for a follow, resets the belief. */
  function Believed(w: World, a: Action, v: World): Option<bool> {
    if w.exec.fsm.mode != Stopping && v.exec.fsm.mode == Stopping then Some(false) else Reported(w, a)
  }

  predicate BeliefStep(w: World, a: Action, v: World) {
    v.exec.queue.paused == Or(Believed(w, a, v), w.exec.queue.paused)
  }

  /** The queue is left alone. */
  predicate Calm(e: Exec, x: Exec) {
    x.queue == e.queue && (x.fsm.mode == Stopping ==> e.fsm.mode == Stopping)
  }

  lemma CompletionCalm(e: Exec, k: Kind, n: nat, ok: bool)
    ensures Calm(e, Complete(e, k, n, ok).exec)
  {
  }

  lemma PointCalm(e: Exec)
    ensures Calm(e, ConfirmPoint(e).exec)
  {
  }

  lemma StartupCalm(e: Exec, g: nat, o: StartupOutcome)
    ensures Calm(e, StartupSection(e, g, o).exec)
  {
  }

  lemma PreparedCalm(e: Exec, o: StartOutcome)
    ensures Calm(e, StartHandled(e, o).exec)
  {
  }

  lemma ToggleBelieves(e: Exec, ok: bool)
    requires IsNavigation(e.fsm.mode) && e.queue.transitionActive
    ensures var x := CompleteTransition(e, ok).exec;
      x.queue.paused == (if ok then e.queue.current.targetPaused else e.queue.paused) && x.fsm.mode != Stopping
  {
  }

  lemma EndBelieves(e: Exec, c: Command, ok: bool)
    requires e.fsm.mode != Stopping && e.queue.workerRunning == e.queue.transitionActive
    ensures var x := ServiceEnded(e, c, ok);
      && x.queue == e.queue.(paused := Or(If(ok && c == StartTask && !e.queue.transitionActive, false), e.queue.paused))
      && x.fsm.mode != Stopping
  {
  }

  lemma RequestBelieves(e: Exec, r: Request)
    ensures Dispatch(e, r).exec.queue.paused == e.queue.paused
    ensures Dispatch(e, r).exec.fsm.mode == Stopping ==> e.fsm.mode == Stopping
  {
  }

  lemma LineBelieves(e: Exec, line: Line)
    ensures var x := LogLine(e, line).exec;
      && x.queue == (if !IsNavigation(e.fsm.mode) then e.queue
                     else if line == PauseLine then e.queue.(paused := true)
                     else if line == ResumeLine then e.queue.(paused := false) else e.queue)
      && (x.fsm.mode == Stopping ==> e.fsm.mode == Stopping)
  {
    match line
    case EnvReadyLine => CompletionCalm(e, EnvKind, e.tries.env.attempt, true);
    case PoseLine => CompletionCalm(e, PoseKind, e.tries.pose.attempt, true);
    case ClearedLine => CompletionCalm(e, ClearKind, e.tries.clear.attempt, true);
    case WaypointLine => PointCalm(e);
    case _ =>
  }

  lemma WorkerBelieves(w: World, a: WorkerAction)
    requires Inv(w) && WorkerEnabled(w, a)
    ensures BeliefStep(w, ByWorker(a), WorkerStep(w, a))
  {
    match a
    case StartupLocks(g, o) => StartupCalm(w.exec, g, o);
    case TimerFires(k, n) => CompletionCalm(w.exec, k, n, false);
    case ServiceReturns(c, g, n, ok) =>
      if c == PauseOrResume {
        ToggleIsActive(w, g, n);
        ToggleBelieves(w.exec, ok);
      } else {
        EndBelieves(w.exec, c, ok);
      }
    case _ => assert WorkerStep(w, a).exec == w.exec;
  }

  lemma UploadCalm(w: World, a: UploadAction)
    ensures Calm(w.exec, UploadStep(w, a).exec)
  {
  }

  lemma UploadBelieves(w: World, a: UploadAction)
    ensures BeliefStep(w, ByUpload(a), UploadStep(w, a))
  {
    UploadCalm(w, a);
  }

  lemma CallerBelieves(w: World, a: CallerAction)
    ensures BeliefStep(w, ByCaller(a), CallerStep(w, a))
  {
  }

  lemma FollowBelieves(w: World, a: FollowAction)
    requires StateInv(w) && FollowEnabled(w, a)
    ensures BeliefStep(w, ByFollow(a), FollowStep(w, a))
  {
    match a
    case FollowDecides(nested, b) => DecisionBelieves(w, nested, b);
    case FollowCleanedUp(nested, b, ok) => assert Calm(w.exec, FollowStep(w, a).exec);
    case FollowStarts(nested, b, ok) => assert Calm(w.exec, FollowStep(w, a).exec);
  }

  lemma DecisionBelieves(w: World, nested: bool, b: bool)
    requires StateInv(w)
    ensures BeliefStep(w, ByFollow(FollowDecides(nested, b)), Deciding(w, nested, b))
  {
  }

  lemma OpeningBelieves(w: World)
    requires StateInv(w) && Free(w)
    ensures BeliefStep(w, ByGateway(NavigationOpen), NavigationOpened(w))
    ensures BeliefStep(w, ByGateway(StopOpen), StopOpened(w))
  {
  }

  lemma DrainBelieves(w: World, a: DrainAction)
    ensures BeliefStep(w, ByDrain(a), DrainStep(w, a))
  {
  }

  lemma GatewayBelieves(w: World, a: GatewayAction)
    requires StateInv(w) && GatewayEnabled(w, a)
    ensures BeliefStep(w, ByGateway(a), GatewayStep(w, a))
  {
    match a
    case CommandArrives(r) => RequestBelieves(w.exec, r);
    case NavigationOpen => OpeningBelieves(w);
    case NavigationHandled(o) => PreparedCalm(w.exec, o);
    case StopOpen => OpeningBelieves(w);
    case Log(line) => LineBelieves(w.exec, line);
  }

  lemma OperatorBelieves(w: World, a: OperatorAction)
    ensures BeliefStep(w, ByOperator(a), OperatorStep(w, a))
  {
    OperatorCalm(w, a);
  }

  lemma OperatorCalm(w: World, a: OperatorAction)
    ensures Calm(w.exec, OperatorStep(w, a).exec)
  {
    match a
    case MappingOpen => MappingCalm(w.exec, 0);
    case MappingForked(pid) => MappingCalm(w.exec, pid);
    case PostProcessingOpen => ProcessingCalm(w.exec, true);
    case PostProcessingDone(ok) => ProcessingCalm(w.exec, ok);
    case StopUploadOpen => ProcessingCalm(w.exec, true);
    case _ =>
  }

  lemma MappingCalm(e: Exec, pid: nat)
    ensures Calm(e, OpenMapping(e)) && Calm(e, MappingLaunched(e, pid))
  {
  }

  lemma ProcessingCalm(e: Exec, ok: bool)
    ensures Calm(e, OpenPostProcessing(e)) && Calm(e, PostProcessed(e, ok)) && Calm(e, OpenStopUpload(e))
  {
  }

  lemma ActionBelieves(w: World, a: Action)
    requires Inv(w) && Enabled(w, a)
    ensures BeliefStep(w, a, Next(w, a))
  {
    match a
    case ByWorker(x) => WorkerBelieves(w, x);
    case ByUpload(x) => UploadBelieves(w, x);
    case ByCaller(x) => CallerBelieves(w, x);
    case ByFollow(x) => FollowBelieves(w, x);
    case ByDrain(x) => DrainBelieves(w, x);
    case ByGateway(x) => GatewayBelieves(w, x);
    case ByOperator(x) => OperatorBelieves(w, x);
  }

  // ---- what is answered and what is toggled ---------------------------------------------------

  predicate ReturnsToggle(a: Action) { IsToggle(a, true) || IsToggle(a, false) }

  /** Besides the request of a returning toggle, a request is answered only when its
      target is what is believed. */
  predicate AnswersStep(w: World, a: Action, v: World) {
    var was, now := w.history.answered, v.history.answered;
    if w.exec.fsm.mode != Stopping && v.exec.fsm.mode == Stopping then now == []
    else
      && was <= now
      && (ReturnsToggle(a) ==> |was| < |now| && now[|was|] == w.exec.queue.current)
      && forall k :: |was| + One(ReturnsToggle(a)) <= k < |now| ==> now[k].targetPaused == v.exec.queue.paused
  }

  /** A toggle goes out only for a target other than what is believed, and carries it until it returns. */
  predicate ToggleStep(w: World, a: Action, v: World) {
    var q, r := w.exec.queue, v.exec.queue;
    r.transitionActive ==>
      if q.transitionActive && !ReturnsToggle(a) then r.current == q.current
      else r.current.targetPaused != r.paused
  }

  predicate QueueStep(w: World, a: Action, v: World) { AnswersStep(w, a, v) && ToggleStep(w, a, v) }

  /** Nothing is answered, and the queue changes at most in what is believed. */
  predicate Unserved(w: World, v: World) {
    && v.history.answered == w.history.answered
    && v.exec.queue == w.exec.queue.(paused := v.exec.queue.paused)
    && (v.exec.fsm.mode == Stopping ==> w.exec.fsm.mode == Stopping)
  }

  lemma UnservedStep(w: World, a: Action, v: World)
    requires Unserved(w, v) && !ReturnsToggle(a)
    ensures QueueStep(w, a, v)
  {
  }

  lemma CommitAnswers(w: World, s: Section)
    ensures Commit(w, s).history.answered == w.history.answered + s.effect.answers
  {
  }

  /** A section that answers nothing ends. */
  lemma QuietCommit(w: World, before: World, s: Section, a: Action)
    requires before.history == w.history && before.exec == w.exec && !ReturnsToggle(a)
    requires s.effect.answers == [] && s.exec.queue == w.exec.queue.(paused := s.exec.queue.paused)
    requires s.exec.fsm.mode == Stopping ==> w.exec.fsm.mode == Stopping
    ensures QueueStep(w, a, Commit(before, s))
  {
    UnservedStep(w, a, Commit(before, s));
  }

  lemma CompletionAnswersNothing(e: Exec, k: Kind, n: nat, ok: bool)
    ensures Complete(e, k, n, ok).effect.answers == []
  {
  }

  lemma StartupAnswersNothing(e: Exec, g: nat, o: StartupOutcome, p: StartOutcome)
    ensures StartupSection(e, g, o).effect.answers == [] && StartHandled(e, p).effect.answers == []
  {
  }

  lemma LineAnswersNothing(e: Exec, line: Line)
    ensures LogLine(e, line).effect.answers == []
  {
    match line
    case EnvReadyLine => CompletionAnswersNothing(e, EnvKind, e.tries.env.attempt, true);
    case PoseLine => CompletionAnswersNothing(e, PoseKind, e.tries.pose.attempt, true);
    case ClearedLine => CompletionAnswersNothing(e, ClearKind, e.tries.clear.attempt, true);
    case WaypointLine => PointAnswersNothing(e);
    case _ =>
  }

  lemma PointAnswersNothing(e: Exec)
    ensures ConfirmPoint(e).effect.answers == []
  {
  }

  /** A returning toggle answers its own request first, and goes on with the waiting ones. */
  predicate Serves(q: TaskQueue, r: TaskQueue, answers: seq<TaskRequest>) {
    && answers != [] && answers[0] == q.current
    && (forall k :: 1 <= k < |answers| ==> answers[k].targetPaused == r.paused)
    && (r.transitionActive ==> r.current.targetPaused != r.paused)
  }

  lemma TransitionServes(e: Exec, ok: bool)
    requires IsNavigation(e.fsm.mode) && e.queue.transitionActive
    ensures var s := CompleteTransition(e, ok);
      Serves(e.queue, s.exec.queue, s.effect.answers) && s.exec.fsm.mode != Stopping
  {
    ToggleBelieves(e, ok);
    var p := if ok then e.queue.current.targetPaused else e.queue.paused;
    var next := Advance(e.queue.(paused := p, transitionActive := false, current := NO_REQUEST));
    var answers := CompleteTransition(e, ok).effect.answers;
    assert answers == [e.queue.current] + next.answers;
    assert forall k :: 1 <= k < |answers| ==> answers[k] == next.answers[k - 1];
  }

  lemma ServingCommit(w: World, s: Section, a: Action)
    requires ReturnsToggle(a) && Serves(w.exec.queue, s.exec.queue, s.effect.answers) && s.exec.fsm.mode != Stopping
    ensures QueueStep(w, a, Commit(w, s))
  {
    CommitAnswers(w, s);
  }

  lemma ToggleServes(w: World, g: nat, n: nat, ok: bool)
    requires Inv(w) && w.lock == Some(ServiceCall(PauseOrResume, g, n))
    ensures QueueStep(w, ByWorker(ServiceReturns(PauseOrResume, g, n, ok)), ServiceDone(w, PauseOrResume, g, ok))
  {
    ToggleIsActive(w, g, n);
    TransitionServes(w.exec, ok);
    ServingCommit(w, ServiceReturned(w.exec, PauseOrResume, g, ok), ByWorker(ServiceReturns(PauseOrResume, g, n, ok)));
  }

  lemma StartupServes(w: World, g: nat, o: StartupOutcome)
    ensures QueueStep(w, ByWorker(StartupLocks(g, o)), StartupDone(w, g, o))
  {
    StartupCalm(w.exec, g, o);
    StartupAnswersNothing(w.exec, g, o, Launched);
    QuietCommit(w, Ended(w, StartupWait(g)), StartupSection(w.exec, g, o), ByWorker(StartupLocks(g, o)));
  }

  lemma TimeoutServes(w: World, k: Kind, n: nat)
    ensures QueueStep(w, ByWorker(TimerFires(k, n)), TimerFired(w, k, n))
  {
    CompletionCalm(w.exec, k, n, false);
    CompletionAnswersNothing(w.exec, k, n, false);
    var before := w.(timers := w.timers - multiset{Timer(k, n)});
    QuietCommit(w, before, Complete(w.exec, k, n, false), ByWorker(TimerFires(k, n)));
  }

  lemma EndServes(w: World, c: Command, g: nat, n: nat, ok: bool)
    requires Inv(w) && w.lock == Some(ServiceCall(c, g, n)) && c != PauseOrResume
    ensures QueueStep(w, ByWorker(ServiceReturns(c, g, n, ok)), ServiceDone(w, c, g, ok))
  {
    EndAnswersNothing(w.exec, c, g, ok);
    QuietCommit(w, w, ServiceReturned(w.exec, c, g, ok), ByWorker(ServiceReturns(c, g, n, ok)));
  }

  lemma EndAnswersNothing(e: Exec, c: Command, g: nat, ok: bool)
    requires c != PauseOrResume && NavigationCurrent(e.fsm, g) && e.queue.workerRunning == e.queue.transitionActive
    ensures var s := ServiceReturned(e, c, g, ok);
      s.effect.answers == [] && s.exec.queue == e.queue.(paused := s.exec.queue.paused) && s.exec.fsm.mode != Stopping
  {
    EndBelieves(e, c, ok);
  }

  lemma WorkerServes(w: World, a: WorkerAction)
    requires Inv(w) && WorkerEnabled(w, a)
    ensures QueueStep(w, ByWorker(a), WorkerStep(w, a))
  {
    match a
    case StartupLocks(g, o) => StartupServes(w, g, o);
    case TimerFires(k, n) => TimeoutServes(w, k, n);
    case ServiceReturns(c, g, n, ok) =>
      if c == PauseOrResume {
        ToggleServes(w, g, n, ok);
      } else {
        EndServes(w, c, g, n, ok);
      }
    case _ => UnservedStep(w, ByWorker(a), WorkerStep(w, a));
  }

  lemma EnqueueServes(e: Exec, r: TaskRequest)
    requires e.queue.workerRunning == e.queue.transitionActive && (e.queue.requests != [] ==> e.queue.transitionActive)
    ensures var s := Enqueue(e, r);
      if e.queue.transitionActive
      then s.exec.queue == e.queue.(requests := e.queue.requests + [r]) && s.effect.answers == []
      else if r.targetPaused == e.queue.paused
      then s.exec.queue == e.queue && s.effect.answers == [r]
      else
        && s.exec.queue == e.queue.(current := r, transitionActive := true, workerRunning := true)
        && s.effect.answers == []
  {
    if !e.queue.transitionActive {
      var q := e.queue.(requests := e.queue.requests + [r], workerRunning := true);
      assert q.requests == [r] && q.requests[1..] == [] == e.queue.requests;
      var rest := q.(requests := []);
      assert Advance(rest) == Advanced(rest.(workerRunning := false), []);
      assert [r] + [] == [r];
    }
  }

  lemma OtherRequestsServeNothing(e: Exec, r: Request)
    requires !r.RequestPause?
    ensures Dispatch(e, r).effect.answers == [] && Dispatch(e, r).exec.queue == e.queue
  {
  }

  lemma PauseServes(w: World, r: Request)
    requires QueueInv(w.exec.queue, w.history.arrived, w.history.answered) && r.RequestPause?
    ensures QueueStep(w, ByGateway(CommandArrives(r)), Commit(w, Dispatch(w.exec, r)))
  {
    PauseDispatches(w.exec, r);
    if Accepted(w.exec, CommandOf(r)) {
      EnqueueCommits(w, TaskRequest(CommandOf(r), r.pause), ByGateway(CommandArrives(r)));
    } else {
      UnservedStep(w, ByGateway(CommandArrives(r)), Commit(w, Quiet(w.exec)));
    }
  }

  lemma PauseDispatches(e: Exec, r: Request)
    requires r.RequestPause?
    ensures Dispatch(e, r) ==
      if Accepted(e, CommandOf(r)) then Enqueue(e, TaskRequest(CommandOf(r), r.pause)) else Quiet(e)
  {
  }

  lemma EnqueueCommits(w: World, r: TaskRequest, a: Action)
    requires QueueInv(w.exec.queue, w.history.arrived, w.history.answered) && !ReturnsToggle(a)
    requires w.exec.fsm.mode != Stopping
    ensures QueueStep(w, a, Commit(w, Enqueue(w.exec, r)))
  {
    EnqueueServes(w.exec, r);
    CommitAnswers(w, Enqueue(w.exec, r));
  }

  lemma CommandServes(w: World, r: Request)
    requires QueueInv(w.exec.queue, w.history.arrived, w.history.answered)
    ensures QueueStep(w, ByGateway(CommandArrives(r)), CommandDone(w, r))
  {
    RequestBelieves(w.exec, r);
    if r.RequestPause? {
      PauseServes(w, r);
    } else {
      OtherRequestsServeNothing(w.exec, r);
      QuietCommit(w, w, Dispatch(w.exec, r), ByGateway(CommandArrives(r)));
    }
  }

  lemma OpeningServes(w: World)
    requires StateInv(w) && Free(w)
    ensures QueueStep(w, ByGateway(NavigationOpen), NavigationOpened(w))
    ensures QueueStep(w, ByGateway(StopOpen), StopOpened(w))
  {
  }

  lemma GatewayServes(w: World, a: GatewayAction)
    requires Inv(w) && GatewayEnabled(w, a)
    ensures QueueStep(w, ByGateway(a), GatewayStep(w, a))
  {
    match a
    case CommandArrives(r) => CommandServes(w, r);
    case NavigationOpen => OpeningServes(w);
    case NavigationHandled(o) =>
      PreparedCalm(w.exec, o);
      StartupAnswersNothing(w.exec, 0, Forked, o);
      QuietCommit(w, w, StartHandled(w.exec, o), ByGateway(a));
    case StopOpen => OpeningServes(w);
    case Log(line) =>
      LineBelieves(w.exec, line);
      LineAnswersNothing(w.exec, line);
      QuietCommit(w, w, LogLine(w.exec, line), ByGateway(a));
  }

  lemma FollowServes(w: World, a: FollowAction)
    requires StateInv(w) && FollowEnabled(w, a)
    ensures QueueStep(w, ByFollow(a), FollowStep(w, a))
  {
    match a
    case FollowDecides(nested, b) => DecisionServes(w, nested, b);
    case FollowCleanedUp(nested, b, ok) => UnservedStep(w, ByFollow(a), FollowStep(w, a));
    case FollowStarts(nested, b, ok) => UnservedStep(w, ByFollow(a), FollowStep(w, a));
  }

  lemma DecisionServes(w: World, nested: bool, b: bool)
    requires StateInv(w) && w.lock == Some(FollowBegin(nested, b))
    ensures QueueStep(w, ByFollow(FollowDecides(nested, b)), Deciding(w, nested, b))
  {
  }

  lemma UploadServes(w: World, a: UploadAction)
    ensures QueueStep(w, ByUpload(a), UploadStep(w, a))
  {
    UploadCalm(w, a);
    UnservedStep(w, ByUpload(a), UploadStep(w, a));
  }

  lemma CallerUnserved(w: World, a: CallerAction)
    ensures Unserved(w, CallerStep(w, a))
  {
  }

  lemma CallerServes(w: World, a: CallerAction)
    ensures QueueStep(w, ByCaller(a), CallerStep(w, a))
  {
    CallerUnserved(w, a);
    UnservedStep(w, ByCaller(a), CallerStep(w, a));
  }

  lemma DrainServes(w: World, a: DrainAction)
    ensures QueueStep(w, ByDrain(a), DrainStep(w, a))
  {
    UnservedStep(w, ByDrain(a), DrainStep(w, a));
  }

  lemma OperatorUnserved(w: World, a: OperatorAction)
    ensures Unserved(w, OperatorStep(w, a))
  {
    OperatorCalm(w, a);
    OperatorAnswersNothing(w, a);
  }

  lemma OperatorAnswersNothing(w: World, a: OperatorAction)
    ensures OperatorStep(w, a).history.answered == w.history.answered
  {
  }

  lemma OperatorServes(w: World, a: OperatorAction)
    ensures QueueStep(w, ByOperator(a), OperatorStep(w, a))
  {
    OperatorUnserved(w, a);
    UnservedStep(w, ByOperator(a), OperatorStep(w, a));
  }

  lemma ActionServes(w: World, a: Action)
    requires Inv(w) && Enabled(w, a)
    ensures QueueStep(w, a, Next(w, a))
  {
    match a
    case ByWorker(x) => WorkerServes(w, x);
    case ByUpload(x) => UploadServes(w, x);
    case ByCaller(x) => CallerServes(w, x);
    case ByFollow(x) => FollowServes(w, x);
    case ByDrain(x) => DrainServes(w, x);
    case ByGateway(x) => GatewayServes(w, x);
    case ByOperator(x) => OperatorServes(w, x);
  }

  // ---- every run ----------------------------------------------------------------------------------

  lemma StepBelieves(run: seq<World>, actions: seq<Action>, i: nat)
    requires IsRun(run, actions) && i < |actions|
    ensures BeliefStep(run[i], actions[i], run[i + 1])
    ensures QueueStep(run[i], actions[i], run[i + 1])
  {
    RunKeeps(run, actions, i);
    ActionBelieves(run[i], actions[i]);
    ActionServes(run[i], actions[i]);
  }

  ghost function Beliefs(run: seq<World>, actions: seq<Action>): (r: seq<Option<bool>>)
    requires |run| == |actions| + 1
    ensures |r| == |actions|
  {
    seq(|actions|, i requires 0 <= i < |actions| => Believed(run[i], actions[i], run[i + 1]))
  }

  /** What is believed is the target of the latest successful toggle, or what the latest
      line or started task told, or nothing since the latest stop. */
  lemma {:induction false} BeliefIsLatest(run: seq<World>, actions: seq<Action>, i: nat)
    requires IsRun(run, actions) && i < |run|
    ensures run[i].exec.queue.paused == Latest(Beliefs(run, actions), i, false)
    decreases i
  {
    if i > 0 {
      BeliefIsLatest(run, actions, i - 1);
      StepBelieves(run, actions, i - 1);
    }
  }

  /** So the task is believed paused exactly when a pause was told last. */
  lemma PausedExactlyWhen(run: seq<World>, actions: seq<Action>, i: nat)
    requires IsRun(run, actions) && i < |run|
    ensures run[i].exec.queue.paused <==> SetLast(Beliefs(run, actions), i, true)
  {
    BeliefIsLatest(run, actions, i);
    LatestMeans(Beliefs(run, actions), i, false, true);
  }

  lemma ToggleTells(w: World, a: Action, v: World)
    requires ReturnsToggle(a) && w.exec.fsm.mode != Stopping
    requires Obeys(w.exec.fsm, SignalOf(w, a), v.exec.fsm) && BeliefStep(w, a, v)
    ensures var target := w.exec.queue.current.targetPaused;
      if IsToggle(a, true)
      then v.exec.queue.paused == target && v.exec.fsm.task == if target then TaskPaused else TaskRunning
      else v.exec.queue.paused == w.exec.queue.paused && Apart(v.exec.fsm) == Apart(w.exec.fsm)
  {
  }

  /** A successful toggle makes its target believed, and the task paused exactly for a
      pause; a failed one leaves the belief, the task and the mode as they were. */
  lemma ToggleTellsItsTarget(run: seq<World>, actions: seq<Action>, i: nat)
    requires IsRun(run, actions) && i < |actions| && ReturnsToggle(actions[i])
    ensures var e, x, target := run[i].exec, run[i + 1].exec, run[i].exec.queue.current.targetPaused;
      if IsToggle(actions[i], true)
      then x.queue.paused == target && x.fsm.task == if target then TaskPaused else TaskRunning
      else x.queue.paused == e.queue.paused && x.fsm.task == e.fsm.task && x.fsm.mode == e.fsm.mode
  {
    RunKeeps(run, actions, i);
    StepBelieves(run, actions, i);
    StepObeys(run, actions, i);
    ToggleTells(run[i], actions[i], run[i + 1]);
  }

  /** A request that is answered without a toggle of its own asks for what is believed. */
  lemma AnsweredWithoutToggle(run: seq<World>, actions: seq<Action>, i: nat, k: nat)
    requires IsRun(run, actions) && i < |actions|
    requires |run[i].history.answered| <= k < |run[i + 1].history.answered|
    requires !(ReturnsToggle(actions[i]) && k == |run[i].history.answered|)
    ensures run[i + 1].history.answered[k].targetPaused == Latest(Beliefs(run, actions), i + 1, false)
  {
    StepBelieves(run, actions, i);
    BeliefIsLatest(run, actions, i + 1);
  }
}

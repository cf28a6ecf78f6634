/** The busy gate is released by name (`finish_command` in src/CommandExecutor.cc), so
    the service worker of one `clear_waypoints` may release the gate of another. */
module ClearByName {
  import opened Fsm
  import opened Executor
  import opened Options
  import opened Interleaving
  import opened Invariant
  import opened Continuations
  import opened FirstSteps
  import opened Sections

  /** The service worker of clearing `m` of the current session waits or calls. */
  predicate Clearing(w: World, m: nat) {
    || Service(ClearWaypoints, w.exec.fsm.generation, m) in w.workers
    || w.lock == Some(ServiceCall(ClearWaypoints, w.exec.fsm.generation, m))
  }

  /** The gate is held for clearing `n`. */
  predicate HeldBy(w: World, n: nat) {
    w.exec.active == Some(ClearWaypoints) && w.exec.tries.clear.attempt == n
  }

  // ---- what one action does to the clear workers ---------------------------------------

  /** Clearing `attempt + 1` takes the gate, with a worker of its own. */
  ghost predicate Opens(w: World, v: World) {
    var n := w.exec.tries.clear.attempt + 1;
    && w.exec.active == None && HeldBy(v, n) && Clearing(v, n)
    && forall m: nat :: Clearing(v, m) ==> Clearing(w, m) || m == n
  }

  /** Otherwise workers only go, and while the gate stays held they all stay. */
  ghost predicate Wanes(w: World, v: World) {
    && (forall m: nat :: Clearing(v, m) ==> Clearing(w, m))
    && w.exec.tries.clear.attempt <= v.exec.tries.clear.attempt
    && (v.exec.active == Some(ClearWaypoints) ==>
          && HeldBy(w, v.exec.tries.clear.attempt)
          && forall m: nat :: Clearing(w, m) ==> Clearing(v, m))
  }

  /** A new generation starts with no clear worker and no clearing. */
  ghost predicate Renews(w: World, v: World) {
    v.exec.active != Some(ClearWaypoints) && forall m: nat :: !Clearing(v, m)
  }

  ghost predicate ClearStep(w: World, v: World) {
    if v.exec.fsm.generation == w.exec.fsm.generation then Opens(w, v) || Wanes(w, v) else Renews(w, v)
  }

  predicate IsClearCall(lock: Option<Held>) {
    lock.Some? && lock.value.ServiceCall? && lock.value.command == ClearWaypoints
  }

  /** Nothing new about clearings. */
  lemma ClearFramed(w: World, v: World)
    requires v.exec.fsm.generation == w.exec.fsm.generation && v.exec.tries.clear.attempt == w.exec.tries.clear.attempt
    requires forall m: nat :: Service(ClearWaypoints, w.exec.fsm.generation, m) in v.workers <==>
                         Service(ClearWaypoints, w.exec.fsm.generation, m) in w.workers
    requires v.lock == w.lock || (!IsClearCall(v.lock) && !IsClearCall(w.lock))
    requires v.exec.active == Some(ClearWaypoints) ==> w.exec.active == Some(ClearWaypoints)
    ensures ClearStep(w, v)
  {
    forall m ensures Clearing(v, m) == Clearing(w, m) {
    }
  }

  lemma NoClearAhead(w: World, m: nat)
    requires SessionsInv(w)
    ensures Service(ClearWaypoints, w.exec.fsm.generation + 1, m) !in w.workers
  {
  }

  lemma ClearRenewed(w: World, v: World)
    requires SessionsInv(w) && v.workers == w.workers && v.exec.fsm.generation == w.exec.fsm.generation + 1
    requires !IsClearCall(v.lock) && v.exec.active != Some(ClearWaypoints)
    ensures ClearStep(w, v)
  {
    forall m ensures !Clearing(v, m) {
      NoClearAhead(w, m);
    }
  }

  lemma FramedOrRenewed(w: World, v: World)
    requires Inv(w) && v.workers == w.workers && !IsClearCall(w.lock) && !IsClearCall(v.lock)
    requires v.exec.active == Some(ClearWaypoints) ==> w.exec.active == Some(ClearWaypoints)
    requires if v.exec.fsm.generation == w.exec.fsm.generation
             then v.exec.tries.clear.attempt == w.exec.tries.clear.attempt
             else v.exec.fsm.generation == w.exec.fsm.generation + 1 && v.exec.active != Some(ClearWaypoints)
    ensures ClearStep(w, v)
  {
    if v.exec.fsm.generation == w.exec.fsm.generation {
      ClearFramed(w, v);
    } else {
      ClearRenewed(w, v);
    }
  }

  // ---- sections ------------------------------------------------------------------------------

  /** A section that neither opens a clearing nor launches its worker. */
  predicate OpensNoClear(e: Exec, s: Section) {
    && s.exec.fsm.generation == e.fsm.generation
    && s.exec.tries.clear.attempt == e.tries.clear.attempt
    && (s.exec.active == Some(ClearWaypoints) ==> e.active == Some(ClearWaypoints))
    && (s.effect.worker.Some? ==> !s.effect.worker.value.Service? || s.effect.worker.value.command != ClearWaypoints)
  }

  /** `u` is `w` without a timer or a worker that has just ended. */
  ghost predicate SameClears(w: World, u: World) {
    forall m: nat :: Service(ClearWaypoints, w.exec.fsm.generation, m) in u.workers <==>
                Service(ClearWaypoints, w.exec.fsm.generation, m) in w.workers
  }

  lemma SectionClears(w: World, u: World, s: Section)
    requires OpensNoClear(w.exec, s) && SameClears(w, u) && !IsClearCall(w.lock)
    ensures ClearStep(w, Commit(u, s))
  {
    ClearFramed(w, Commit(u, s));
  }

  lemma EndsOpenNoClear(e: Exec, s: Section)
    requires OnlyEnds(e, s)
    ensures OpensNoClear(e, s)
  {
  }

  lemma RequestOpensNothing(e: Exec, r: Request)
    requires WellFormed(r) && !r.RequestClearWaypoints?
    ensures OpensNoClear(e, Dispatch(e, r))
  {
  }

  // ---- every action ----------------------------------------------------------------------

  lemma StartupClears(w: World, g: nat, o: StartupOutcome)
    ensures ClearStep(w, StartupChecked(w, g)) && ClearStep(w, Ended(w, StartupSleep(g)))
    ensures Free(w) ==> ClearStep(w, StartupDone(w, g, o))
  {
    ClearFramed(w, StartupChecked(w, g));
    ClearFramed(w, Ended(w, StartupSleep(g)));
    if Free(w) {
      StartupOnlyEnds(w.exec, g, o);
      SectionClears(w, Ended(w, StartupWait(g)), StartupSection(w.exec, g, o));
    }
  }

  lemma ServiceLockClears(w: World, c: Command, g: nat, n: nat)
    requires Inv(w) && Free(w) && Service(c, g, n) in w.workers
    ensures ClearStep(w, ServiceLocked(w, c, g, n))
  {
  }

  lemma ClearReturns(w: World, g: nat, n: nat, ok: bool)
    requires w.lock == Some(ServiceCall(ClearWaypoints, g, n)) && NavigationCurrent(w.exec.fsm, g)
    ensures ServiceDone(w, ClearWaypoints, g, ok).exec == Finish(w.exec, ClearWaypoints)
    ensures ClearStep(w, ServiceDone(w, ClearWaypoints, g, ok))
  {
    var v := ServiceDone(w, ClearWaypoints, g, ok);
    assert v.exec == Finish(w.exec, ClearWaypoints) && v.workers == w.workers && v.lock == None;
    forall m | Clearing(v, m) ensures Clearing(w, m) {
    }
  }

  lemma WorkerClears(w: World, a: WorkerAction)
    requires Inv(w) && WorkerEnabled(w, a)
    ensures ClearStep(w, WorkerStep(w, a))
  {
    match a
    case StartupChecks(g) => StartupClears(w, g, Forked);
    case StartupLocks(g, o) => StartupClears(w, g, o);
    case StartupWakes(g) => StartupClears(w, g, Forked);
    case TimerFires(k, n) =>
      CompletionOnlyEnds(w.exec, k, n, false);
      SectionClears(w, w.(timers := w.timers - multiset{Timer(k, n)}), Complete(w.exec, k, n, false));
    case ServiceLocks(c, g, n) => ServiceLockClears(w, c, g, n);
    case ServiceReturns(c, g, n, ok) =>
      if c == ClearWaypoints {
        ClearReturns(w, g, n, ok);
      } else {
        ServiceOnlyEnds(w.exec, c, g, ok);
        SectionClears(w, w, ServiceReturned(w.exec, c, g, ok));
      }
  }

  lemma UploadClears(w: World, a: UploadAction)
    requires Inv(w) && UploadEnabled(w, a)
    ensures ClearStep(w, UploadStep(w, a))
  {
    MappingClears(w, UploadStep(w, a));
  }

  /** Nothing is being cleared, or nothing about it changes. */
  lemma MappingClears(w: World, v: World)
    requires Inv(w) && v.workers == w.workers
    requires v.lock == w.lock || (!IsClearCall(v.lock) && !IsClearCall(w.lock))
    requires v.exec.active == Some(ClearWaypoints) ==> w.exec.active == Some(ClearWaypoints)
    requires if v.exec.fsm.generation == w.exec.fsm.generation
             then v.exec.tries.clear.attempt == w.exec.tries.clear.attempt
             else v.exec.fsm.generation == w.exec.fsm.generation + 1 && !IsNavigation(w.exec.fsm.mode)
    ensures ClearStep(w, v)
  {
    if v.exec.fsm.generation == w.exec.fsm.generation {
      ClearFramed(w, v);
    } else {
      ClearRenewed(w, v);
    }
  }

  lemma CallerClears(w: World, a: CallerAction)
    requires Inv(w) && CallerEnabled(w, a)
    ensures ClearStep(w, CallerStep(w, a))
  {
    MappingClears(w, CallerStep(w, a));
  }

  lemma DecisionClears(w: World, nested: bool, b: bool)
    requires Inv(w) && w.lock == Some(FollowBegin(nested, b))
    ensures ClearStep(w, Deciding(w, nested, b))
  {
    FramedOrRenewed(w, Deciding(w, nested, b));
  }

  lemma StartedClears(w: World, nested: bool, b: bool, ok: bool)
    ensures w.lock == Some(FollowCleanup(nested, b)) ==> ClearStep(w, FollowCleanupDone(w, nested, b, ok))
    ensures w.lock == Some(FollowBackend(nested, b)) ==> ClearStep(w, FollowStartDone(w, nested, b, ok))
  {
    if w.lock == Some(FollowCleanup(nested, b)) {
      ClearFramed(w, FollowCleanupDone(w, nested, b, ok));
    } else if w.lock == Some(FollowBackend(nested, b)) {
      ClearFramed(w, FollowStartDone(w, nested, b, ok));
    }
  }

  lemma FollowClears(w: World, a: FollowAction)
    requires Inv(w) && FollowEnabled(w, a)
    ensures ClearStep(w, FollowStep(w, a))
  {
    match a
    case FollowDecides(nested, b) => DecisionClears(w, nested, b);
    case FollowCleanedUp(nested, b, ok) => StartedClears(w, nested, b, ok);
    case FollowStarts(nested, b, ok) => StartedClears(w, nested, b, ok);
  }

  lemma DrainClears(w: World, a: DrainAction)
    requires Inv(w) && DrainEnabled(w, a)
    ensures ClearStep(w, DrainStep(w, a))
  {
    FramedOrRenewed(w, DrainStep(w, a));
  }

  lemma ClearCommandClears(w: World)
    requires Free(w)
    ensures ClearStep(w, CommandDone(w, RequestClearWaypoints))
  {
    var v := CommandDone(w, RequestClearWaypoints);
    if Accepted(w.exec, ClearWaypoints) {
      assert Dispatch(w.exec, RequestClearWaypoints) == StartClear(Begin(w.exec, ClearWaypoints));
      var n := w.exec.tries.clear.attempt + 1;
      assert v.workers == w.workers + multiset{Service(ClearWaypoints, w.exec.fsm.generation, n)};
      assert HeldBy(v, n) && Clearing(v, n);
      assert Opens(w, v);
    } else {
      ClearFramed(w, v);
    }
  }

  lemma CommandClears(w: World, r: Request)
    requires Free(w) && WellFormed(r)
    ensures ClearStep(w, CommandDone(w, r))
  {
    if r.RequestClearWaypoints? {
      ClearCommandClears(w);
    } else {
      RequestOpensNothing(w.exec, r);
      SectionClears(w, w, Dispatch(w.exec, r));
      NotingKeepsClears(w, r, Commit(w, Dispatch(w.exec, r)));
    }
  }

  lemma NotingKeepsClears(w: World, r: Request, v: World)
    requires ClearStep(w, v)
    ensures ClearStep(w, Noting(w, r, v))
  {
    var u := Noting(w, r, v);
    forall m ensures Clearing(u, m) == Clearing(v, m) {
    }
  }

  lemma GatewayClears(w: World, a: GatewayAction)
    requires Inv(w) && GatewayEnabled(w, a)
    ensures ClearStep(w, GatewayStep(w, a))
  {
    match a
    case CommandArrives(r) => CommandClears(w, r);
    case NavigationOpen => FramedOrRenewed(w, NavigationOpened(w));
    case NavigationHandled(o) =>
      PreparationOnlyEnds(w.exec, o);
      SectionClears(w, w, StartHandled(w.exec, o));
    case StopOpen => FramedOrRenewed(w, StopOpened(w));
    case Log(line) =>
      LogOnlyEnds(w.exec, line);
      SectionClears(w, w, LogLine(w.exec, line));
  }

  lemma MappingOpenClears(w: World)
    requires Inv(w) && Free(w)
    ensures ClearStep(w, MappingOpened(w))
  {
    FramedOrRenewed(w, MappingOpened(w));
  }

  lemma OpeningClears(w: World)
    requires Free(w)
    ensures ClearStep(w, PostProcessingOpened(w)) && ClearStep(w, StopUploadOpened(w))
  {
    ClearFramed(w, PostProcessingOpened(w));
    ClearFramed(w, StopUploadOpened(w));
  }

  lemma EndingClears(w: World, pid: nat, ok: bool)
    requires Inv(w)
    ensures w.lock == Some(MappingStart) ==> ClearStep(w, MappingStarted(w, pid))
    ensures w.lock == Some(PostProcessing) ==> ClearStep(w, PostProcessingEnded(w, ok))
  {
    if w.lock == Some(MappingStart) {
      ClearFramed(w, MappingStarted(w, pid));
    }
    if w.lock == Some(PostProcessing) {
      FramedOrRenewed(w, PostProcessingEnded(w, ok));
    }
  }

  lemma IdleClears(w: World, p: Held)
    requires p == WebMotion || p == ParameterWrite
    ensures Free(w) ==> ClearStep(w, IdleOnly(w, p))
    ensures w.lock == Some(p) ==> ClearStep(w, Unlocked(w))
  {
    if Free(w) {
      ClearFramed(w, IdleOnly(w, p));
    } else if w.lock == Some(p) {
      ClearFramed(w, Unlocked(w));
    }
  }

  lemma OperatorClears(w: World, a: OperatorAction)
    requires Inv(w) && OperatorEnabled(w, a)
    ensures ClearStep(w, OperatorStep(w, a))
  {
    match a
    case MappingOpen => MappingOpenClears(w);
    case MappingForked(pid) => EndingClears(w, pid, true);
    case PostProcessingOpen => OpeningClears(w);
    case PostProcessingDone(ok) => EndingClears(w, 0, ok);
    case StopUploadOpen => OpeningClears(w);
    case MotionOpen => IdleClears(w, WebMotion);
    case MotionDone => IdleClears(w, WebMotion);
    case ParameterOpen => IdleClears(w, ParameterWrite);
    case ParameterDone => IdleClears(w, ParameterWrite);
  }

  lemma ActionClears(w: World, a: Action)
    requires Inv(w) && Enabled(w, a)
    ensures ClearStep(w, Next(w, a))
  {
    match a
    case ByWorker(x) => WorkerClears(w, x);
    case ByUpload(x) => UploadClears(w, x);
    case ByCaller(x) => CallerClears(w, x);
    case ByFollow(x) => FollowClears(w, x);
    case ByDrain(x) => DrainClears(w, x);
    case ByGateway(x) => GatewayClears(w, x);
    case ByOperator(x) => OperatorClears(w, x);
  }

  // ---- every run ----------------------------------------------------------------------------

  /** No clear worker is ahead of the attempts, and the open clearing's own is live. */
  ghost predicate ClearInv(w: World) {
    && (forall m: nat :: Clearing(w, m) ==> m <= w.exec.tries.clear.attempt)
    && (w.exec.active == Some(ClearWaypoints) ==> Clearing(w, w.exec.tries.clear.attempt))
  }

  lemma ClearStepKeeps(w: World, v: World)
    requires ClearInv(w) && ClearStep(w, v)
    ensures ClearInv(v)
  {
  }

  lemma {:induction false} ClearInvAlong(start: World, run: seq<World>, actions: seq<Action>, i: nat)
    requires Inv(start) && ClearInv(start) && Continues(start, run, actions) && i < |run|
    ensures ClearInv(run[i])
    decreases i
  {
    if i > 0 {
      ClearInvAlong(start, run, actions, i - 1);
      StepClears(run, actions, start, i - 1);
      ClearStepKeeps(run[i - 1], run[i]);
    }
  }

  lemma StepClears(run: seq<World>, actions: seq<Action>, start: World, i: nat)
    requires Inv(start) && Continues(start, run, actions) && i < |actions|
    ensures ClearStep(run[i], run[i + 1])
  {
    ContinuationKeeps(start, run, actions, i);
    assert Steps(run[i], actions[i], run[i + 1]);
    ActionClears(run[i], actions[i]);
  }

  /** While a `clear_waypoints` holds the gate, its own service worker is live, and
      every live clear worker is its own or an earlier one. */
  lemma OwnWorkerIsLive(w: World)
    requires Reachable(w)
    ensures forall m: nat :: Clearing(w, m) ==> m <= w.exec.tries.clear.attempt
    ensures w.exec.active == Some(ClearWaypoints) ==> Clearing(w, w.exec.tries.clear.attempt)
  {
    var actions :| Leads(START, actions, w);
    var run :| Continues(START, run, actions) && run[|actions|] == w;
    StartInv();
    ClearInvAlong(START, run, actions, |actions|);
  }

  // ---- exactly when ---------------------------------------------------------------------------

  /** The service worker of a clearing before `n` comes back. */
  predicate EarlierReturns(a: Action, n: nat) {
    a.ByWorker? && a.workerAction.ServiceReturns? && a.workerAction.command == ClearWaypoints &&
    a.workerAction.attempt < n
  }

  /** Action `i` of a continuation of `v` is such a return, and frees the gate that
      has been held for clearing `n` until then. */
  ghost predicate FreesAt(v: World, n: nat, run: seq<World>, actions: seq<Action>, i: nat) {
    && Continues(v, run, actions) && i < |actions|
    && (forall j :: 0 <= j <= i ==> HeldBy(run[j], n))
    && EarlierReturns(actions[i], n) && run[i + 1].exec.active == None
  }

  ghost predicate EarlierCanFree(v: World, n: nat) {
    exists run, actions, i: nat :: FreesAt(v, n, run, actions, i)
  }

  /** A clear worker of the session is left. */
  ghost predicate ClearWorkerLeft(w: World) {
    exists m: nat :: Clearing(w, m)
  }

  ghost predicate OnlyOwn(w: World, n: nat) {
    forall m: nat :: Clearing(w, m) ==> m == n
  }

  lemma HeldStaysOwn(w: World, v: World, n: nat)
    requires ClearStep(w, v) && HeldBy(w, n) && HeldBy(v, n) && OnlyOwn(w, n)
    ensures OnlyOwn(v, n)
  {
  }

  lemma {:induction false} OnlyOwnAlong(v: World, n: nat, run: seq<World>, actions: seq<Action>, i: nat)
    requires Inv(v) && Continues(v, run, actions) && i < |run| && OnlyOwn(v, n)
    requires forall j :: 0 <= j <= i ==> HeldBy(run[j], n)
    ensures OnlyOwn(run[i], n)
    decreases i
  {
    if i > 0 {
      OnlyOwnAlong(v, n, run, actions, i - 1);
      OnlyOwnNext(v, n, run, actions, i - 1);
    }
  }

  lemma OnlyOwnNext(v: World, n: nat, run: seq<World>, actions: seq<Action>, i: nat)
    requires Inv(v) && Continues(v, run, actions) && i + 1 < |run|
    requires OnlyOwn(run[i], n) && HeldBy(run[i], n) && HeldBy(run[i + 1], n)
    ensures OnlyOwn(run[i + 1], n)
  {
    StepClears(run, actions, v, i);
    HeldStaysOwn(run[i], run[i + 1], n);
  }

  /** With no other clear worker, no earlier one can come back. */
  lemma NoEarlierReturns(v: World, n: nat, run: seq<World>, actions: seq<Action>, i: nat)
    requires Inv(v) && OnlyOwn(v, n)
    ensures !FreesAt(v, n, run, actions, i)
  {
    if FreesAt(v, n, run, actions, i) {
      OnlyOwnAlong(v, n, run, actions, i);
      ContinuationKeeps(v, run, actions, i);
      ReturnIsClearing(run[i], actions[i], n, run[i + 1]);
    }
  }

  lemma ReturnIsClearing(w: World, a: Action, n: nat, v: World)
    requires Inv(w) && Steps(w, a, v) && EarlierReturns(a, n)
    ensures Clearing(w, a.workerAction.attempt)
  {
  }

  /** A live worker of the session takes the lock for its call ... */
  lemma WorkerLocks(v: World, n: nat, m: nat)
    requires Inv(v) && Free(v) && HeldBy(v, n) && Clearing(v, m)
    ensures var g := v.exec.fsm.generation;
      var v1 := ServiceLocked(v, ClearWaypoints, g, m);
      && Steps(v, ByWorker(ServiceLocks(ClearWaypoints, g, m)), v1)
      && HeldBy(v1, n) && v1.exec == v.exec && v1.lock == Some(ServiceCall(ClearWaypoints, g, m))
      && NavigationCurrent(v1.exec.fsm, g)
  {
  }

  /** ... and its return frees the gate, whoever holds it. */
  lemma WorkerReturns(v: World, n: nat, g: nat, m: nat)
    requires v.lock == Some(ServiceCall(ClearWaypoints, g, m)) && NavigationCurrent(v.exec.fsm, g) && HeldBy(v, n)
    ensures var v1 := ServiceDone(v, ClearWaypoints, g, true);
      && Steps(v, ByWorker(ServiceReturns(ClearWaypoints, g, m, true)), v1)
      && v1.exec == v.exec.(active := None) && v1.lock == None && v1.workers == v.workers
  {
    ClearReturns(v, g, m, true);
  }

  lemma TwoSteps(v: World, a: Action, v1: World, b: Action, v2: World)
    requires Steps(v, a, v1) && Steps(v1, b, v2)
    ensures Continues(v, [v, v1, v2], [a, b])
  {
  }

  /** An earlier worker takes the lock for its call and comes back. */
  lemma EarlierFrees(v: World, n: nat, m: nat)
    requires Inv(v) && Free(v) && HeldBy(v, n) && Clearing(v, m) && m < n
    ensures EarlierCanFree(v, n)
  {
    var g := v.exec.fsm.generation;
    var v1 := ServiceLocked(v, ClearWaypoints, g, m);
    var v2 := ServiceDone(v1, ClearWaypoints, g, true);
    WorkerLocks(v, n, m);
    WorkerReturns(v1, n, g, m);
    var a, b := ByWorker(ServiceLocks(ClearWaypoints, g, m)), ByWorker(ServiceReturns(ClearWaypoints, g, m, true));
    TwoSteps(v, a, v1, b, v2);
    FreesSecond(v, n, a, v1, b, v2);
  }

  lemma FreesSecond(v: World, n: nat, a: Action, v1: World, b: Action, v2: World)
    requires Continues(v, [v, v1, v2], [a, b]) && HeldBy(v, n) && HeldBy(v1, n)
    requires EarlierReturns(b, n) && v2.exec.active == None
    ensures EarlierCanFree(v, n)
  {
    assert FreesAt(v, n, [v, v1, v2], [a, b], 1);
  }

  lemma AcceptedKeeps(w: World)
    requires Inv(w) && Free(w)
    ensures Inv(CommandDone(w, RequestClearWaypoints)) && Free(CommandDone(w, RequestClearWaypoints))
  {
    StepKeeps(w, ByGateway(CommandArrives(RequestClearWaypoints)), CommandDone(w, RequestClearWaypoints));
  }

  lemma AcceptedOpens(w: World)
    requires Free(w) && Accepted(w.exec, ClearWaypoints)
    ensures var v := CommandDone(w, RequestClearWaypoints);
      && HeldBy(v, w.exec.tries.clear.attempt + 1)
      && forall m: nat :: Clearing(v, m) <==> Clearing(w, m) || m == w.exec.tries.clear.attempt + 1
  {
    var v := CommandDone(w, RequestClearWaypoints);
    var n := w.exec.tries.clear.attempt + 1;
    assert Dispatch(w.exec, RequestClearWaypoints) == StartClear(Begin(w.exec, ClearWaypoints));
    assert v.workers == w.workers + multiset{Service(ClearWaypoints, w.exec.fsm.generation, n)};
  }

  /** In every reachable state that accepts `clear_waypoints`: the return of an earlier
      worker can free the gate that the command takes if and only if some clear
      worker of the session is left when the command is accepted. */
  lemma EarlierFreesExactlyWhen(w: World)
    requires Reachable(w) && Free(w) && Accepted(w.exec, ClearWaypoints)
    ensures EarlierCanFree(CommandDone(w, RequestClearWaypoints), w.exec.tries.clear.attempt + 1) <==> ClearWorkerLeft(w)
  {
    ReachableKeeps(w);
    AcceptedOpens(w);
    AcceptedKeeps(w);
    var v, n := CommandDone(w, RequestClearWaypoints), w.exec.tries.clear.attempt + 1;
    if ClearWorkerLeft(w) {
      var m: nat :| Clearing(w, m);
      OwnWorkerIsLive(w);
      EarlierFrees(v, n, m);
    } else {
      forall run, actions, i: nat ensures !FreesAt(v, n, run, actions, i) {
        NoEarlierReturns(v, n, run, actions, i);
      }
    }
  }

  // ---- and it happens ----------------------------------------------------------------------------

  /** Navigation is ready and the gate open. */
  ghost predicate Rests(w: World) {
    Reachable(w) && Free(w) && Ready(w.exec.fsm) && w.exec.active == None && !w.exec.tries.clear.pending
  }

  lemma EnvironmentGetsReady(w: World) returns (v: World)
    requires Reachable(w) && Free(w) && w.exec.fsm.mode == StartingNavigation && w.exec.active == Some(StartNavigation)
    requires w.exec.tries.env.pending && !w.exec.tries.clear.pending
    ensures Rests(v) && v.exec.tries.clear == w.exec.tries.clear
  {
    ReachesOn(w, ByGateway(Log(EnvReadyLine)));
    v := Logged(w, EnvReadyLine);
    assert LogLine(w.exec, EnvReadyLine) == CompleteEnv(w.exec, w.exec.tries.env.attempt, true);
  }

  lemma NavigationGetsReady(w: World) returns (v: World)
    requires Reachable(w) && Free(w) && w.exec.fsm.mode == StartingNavigation && w.exec.active == Some(StartNavigation)
    requires StartupCheck(w.exec.fsm.generation) in w.workers && !w.exec.tries.clear.pending
    ensures Rests(v) && v.exec.tries.clear == w.exec.tries.clear
  {
    ReachesOn(w, ByWorker(StartupChecks(w.exec.fsm.generation)));
    v := StartupForks(StartupChecked(w, w.exec.fsm.generation));
    v := EnvironmentGetsReady(v);
  }

  lemma ClearStarts(w: World) returns (v: World)
    requires Rests(w)
    ensures Reachable(v) && Free(v) && v == CommandDone(w, RequestClearWaypoints)
    ensures HeldBy(v, w.exec.tries.clear.attempt + 1) && v.exec.tries.clear.pending && Ready(v.exec.fsm)
    ensures forall m: nat :: Clearing(v, m) <==> Clearing(w, m) || m == w.exec.tries.clear.attempt + 1
  {
    ReachesOn(w, ByGateway(CommandArrives(RequestClearWaypoints)));
    v := CommandDone(w, RequestClearWaypoints);
    AcceptedOpens(w);
    assert Dispatch(w.exec, RequestClearWaypoints) == StartClear(Begin(w.exec, ClearWaypoints));
  }

  lemma ClearCompletes(e: Exec)
    requires IsNavigation(e.fsm.mode) && e.tries.clear.pending && e.active == Some(ClearWaypoints)
    ensures var s := LogLine(e, ClearedLine);
      && s.exec.fsm == e.fsm && s.exec.active == None && s.exec.tries.clear == Closed(e.tries.clear)
      && s.effect.worker == None
  {
  }

  /** The log acknowledges the attempt before its service call has begun. */
  lemma ClearIsLogged(w: World) returns (v: World)
    requires Reachable(w) && Free(w) && w.exec.active == Some(ClearWaypoints) && w.exec.tries.clear.pending
    requires Ready(w.exec.fsm)
    ensures Rests(v) && v.exec.tries.clear == Closed(w.exec.tries.clear)
    ensures forall m: nat :: Clearing(v, m) <==> Clearing(w, m)
  {
    ReachesOn(w, ByGateway(Log(ClearedLine)));
    v := Logged(w, ClearedLine);
    ClearCompletes(w.exec);
  }

  /** The call of clearing `m`, and its return. */
  ghost predicate Calls(w: World, m: nat, w1: World, v: World) {
    var g := w.exec.fsm.generation;
    && Steps(w, ByWorker(ServiceLocks(ClearWaypoints, g, m)), w1)
    && Steps(w1, ByWorker(ServiceReturns(ClearWaypoints, g, m, true)), v)
  }

  lemma FirstClearReturns(w: World) returns (w1: World, v: World)
    requires Reachable(w) && Free(w) && HeldBy(w, 2) && w.exec.tries.clear.pending && Clearing(w, 1) && Clearing(w, 2)
    ensures Calls(w, 1, w1, v)
    ensures Reachable(v) && Free(v) && v.exec == w.exec.(active := None) && Clearing(v, 2)
  {
    ReachableKeeps(w);
    var g := w.exec.fsm.generation;
    WorkerLocks(w, 2, 1);
    ReachesOn(w, ByWorker(ServiceLocks(ClearWaypoints, g, 1)));
    w1 := ServiceLocked(w, ClearWaypoints, g, 1);
    WorkerReturns(w1, 2, g, 1);
    ReachesOn(w1, ByWorker(ServiceReturns(ClearWaypoints, g, 1, true)));
    v := ServiceDone(w1, ClearWaypoints, g, true);
  }

  /** A run from the start: the log acknowledges clearing 1 while its worker still
      waits, clearing 2 takes the gate, and the return of worker 1 frees it while
      attempt 2 is open and worker 2 is still to come. */
  lemma OneClearReleasesAnother() returns (w: World, during: World, v: World)
    ensures Reachable(w) && Free(w) && HeldBy(w, 2) && Clearing(w, 1) && Clearing(w, 2)
    ensures Calls(w, 1, during, v)
    ensures Reachable(v) && Free(v) && v.exec.active == None && v.exec.tries.clear == Tries(true, 2) && Clearing(v, 2)
  {
    var w0 := NavigationBegins();
    var w1 := NavigationStarts(w0);
    var w2 := NavigationGetsReady(w1);
    var w3 := ClearStarts(w2);
    var w4 := ClearIsLogged(w3);
    w := ClearStarts(w4);
    during, v := FirstClearReturns(w);
  }
}

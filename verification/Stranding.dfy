/** A gate that stays shut: a stop-and-upload that is accepted while the flag of the
    previous worker is still set (`handle_stop_and_uploadmap` in
    src/CommandExecutor.cc). Whether somebody still releases the gate is decided
    by where that worker is. */
module Stranding {
  import opened Fsm
  import opened Executor
  import opened Options
  import opened Interleaving
  import opened Invariant
  import opened Continuations
  import opened Sections

  // ---- nothing ends a stranded session -----------------------------------------------------

  /** Collecting with a live process, no worker with work left, and the gate held
      by a stop-and-upload that was turned away as "already running". */
  predicate Stranded(w: World) {
    && w.exec.fsm.mode == Mapping && w.exec.mappingPid > 0 && (w.upload == None || w.upload == Some(UploadRelease))
    && w.exec.active == Some(StopAndUploadMap)
    && LockInv(w.exec.fsm, w.lock, w.exec.draining) && w.lock != Some(MappingStart)
  }

  /** While the robot collects, navigation commands and log lines do nothing. */
  lemma NothingToNavigate(e: Exec, r: Request, line: Line)
    requires e.fsm.mode == Mapping && WellFormed(r)
    ensures Dispatch(e, r) == Quiet(e) && LogLine(e, line) == Quiet(e)
  {
  }

  lemma TimeoutsOnlyClose(e: Exec, k: Kind, n: nat)
    requires e.fsm.mode == Mapping
    ensures Complete(e, k, n, false).exec == e.(tries := Complete(e, k, n, false).exec.tries)
  {
  }

  lemma StrandedCommand(w: World, a: GatewayAction)
    requires Stranded(w) && GatewayEnabled(w, a)
    ensures Stranded(GatewayStep(w, a))
  {
    match a
    case CommandArrives(r) => NothingToNavigate(w.exec, r, OtherLine);
    case Log(line) => NothingToNavigate(w.exec, RequestDockPose, line);
    case _ =>
  }

  lemma StrandedOperator(w: World, a: OperatorAction)
    requires Stranded(w) && OperatorEnabled(w, a)
    ensures OperatorStep(w, a) == w
  {
  }

  lemma StrandedTimer(w: World, k: Kind, n: nat)
    requires Stranded(w)
    ensures Free(w) ==> Stranded(TimerFired(w, k, n))
  {
    TimeoutsOnlyClose(w.exec, k, n);
  }

  lemma StrandedWorker(w: World, a: WorkerAction)
    requires Stranded(w) && WorkerEnabled(w, a)
    ensures Stranded(WorkerStep(w, a))
  {
    match a
    case StartupLocks(g, o) => assert StartupSection(w.exec, g, o) == Quiet(w.exec);
    case TimerFires(k, n) => StrandedTimer(w, k, n);
    case _ =>
  }

  lemma StrandedUpload(w: World, a: UploadAction)
    requires Stranded(w) && UploadEnabled(w, a)
    ensures Stranded(UploadStep(w, a))
  {
  }

  lemma StopFollowIsIdle(e: Exec, emergency: bool, ok: bool)
    requires e.fsm.mode == Mapping
    ensures StopFollowSection(e, emergency, ok) == e
  {
  }

  lemma StrandedCaller(w: World, a: CallerAction)
    requires Stranded(w) && CallerEnabled(w, a)
    ensures Stranded(CallerStep(w, a))
  {
    if a.FollowArrives? {
      assert CallerStep(w, a) == w;
    } else if a.StopFollowLocks? {
      StopFollowIsIdle(w.exec, a.emergency, a.ok);
    }
  }

  lemma StrandedDecides(w: World, nested: bool, b: bool)
    requires Stranded(w) && w.lock == Some(FollowBegin(nested, b))
    ensures Deciding(w, nested, b) == w.(lock := Left(nested)) && Stranded(w.(lock := Left(nested)))
  {
  }

  lemma StrandedFollow(w: World, a: FollowAction)
    requires Stranded(w) && FollowEnabled(w, a)
    ensures Stranded(FollowStep(w, a))
  {
    if a.FollowDecides? {
      StrandedDecides(w, a.nested, a.backend);
    }
  }

  lemma StrandedDrain(w: World, a: DrainAction)
    requires Stranded(w) && DrainEnabled(w, a)
    ensures Stranded(DrainStep(w, a))
  {
  }

  /** Nothing the executor can do ends a stranded mapping session. */
  lemma StrandedForGood(w: World, a: Action)
    requires Stranded(w) && Enabled(w, a)
    ensures Stranded(Next(w, a))
  {
    match a
    case ByWorker(x) => StrandedWorker(w, x);
    case ByUpload(x) => StrandedUpload(w, x);
    case ByCaller(x) => StrandedCaller(w, x);
    case ByFollow(x) => StrandedFollow(w, x);
    case ByDrain(x) => StrandedDrain(w, x);
    case ByGateway(x) => StrandedCommand(w, x);
    case ByOperator(x) => StrandedOperator(w, x);
  }

  lemma {:induction false} StrandedThroughout(w: World, run: seq<World>, actions: seq<Action>, i: nat)
    requires Stranded(w) && Continues(w, run, actions) && i < |run|
    ensures Stranded(run[i])
    decreases i
  {
    if i > 0 {
      StrandedThroughout(w, run, actions, i - 1);
      assert Steps(run[i - 1], actions[i - 1], run[i]);
      StrandedForGood(run[i - 1], actions[i - 1]);
    }
  }

  // ---- exactly when ---------------------------------------------------------------------------

  predicate HoldsGate(w: World) { w.exec.active == Some(StopAndUploadMap) }

  /** The gate is held at every point of every continuation. */
  ghost predicate HeldForever(w: World) {
    forall run, actions, i: nat :: Continues(w, run, actions) && i < |run| ==> HoldsGate(run[i])
  }

  /** What the worker does next, when the upload fails. */
  function WorkersNext(u: Upload): UploadAction {
    match u
    case UploadStart => UploadReads
    case UploadKilling(pid) => UploadStops(pid)
    case UploadStopped(found) => UploadReports(found, false)
    case UploadArm => UploadArms
    case UploadFinish => UploadFinishes
    case UploadRelease => UploadReleases
  }

  function WorkLeft(u: Upload): nat {
    match u
    case UploadStart => 4
    case UploadKilling(_) => 3
    case UploadStopped(_) => 2
    case UploadArm => 2
    case UploadFinish => 1
    case UploadRelease => 0
  }

  lemma WorkerWorksOn(w: World)
    requires Free(w) && HoldsGate(w) && w.upload.Some? && w.upload != Some(UploadRelease)
    ensures var a := WorkersNext(w.upload.value);
      var v := UploadStep(w, a);
      && UploadEnabled(w, a) && Free(v)
      && if w.upload.value.UploadFinish? then v.exec.active == None
         else HoldsGate(v) && v.upload.Some? && WorkLeft(v.upload.value) < WorkLeft(w.upload.value) &&
              v.upload != Some(UploadRelease)
  {
  }

  ghost predicate UploadOnly(actions: seq<Action>) {
    forall k :: 0 <= k < |actions| ==> actions[k].ByUpload?
  }

  /** The worker is still to finish the command: the gate is held, the lock free. */
  predicate WillFinish(w: World) {
    Free(w) && HoldsGate(w) && w.upload.Some? && w.upload != Some(UploadRelease)
  }

  lemma WorkerLeadsOn(start: World, before: seq<Action>, w: World) returns (actions: seq<Action>, v: World)
    requires Leads(start, before, w) && UploadOnly(before) && WillFinish(w)
    ensures Leads(start, actions, v) && UploadOnly(actions)
    ensures v.exec.active == None || (WillFinish(v) && WorkLeft(v.upload.value) < WorkLeft(w.upload.value))
  {
    WorkerWorksOn(w);
    var a := WorkersNext(w.upload.value);
    v := UploadStep(w, a);
    LeadsTo(start, before, w, ByUpload(a), v);
    actions := before + [ByUpload(a)];
  }

  /** A worker that is still to finish frees the gate by its own actions alone. */
  lemma {:induction false} WorkerFreesTheGate(start: World, before: seq<Action>, w: World)
    returns (actions: seq<Action>, v: World)
    requires Leads(start, before, w) && UploadOnly(before) && WillFinish(w)
    ensures Leads(start, actions, v) && UploadOnly(actions) && v.exec.active == None
    decreases WorkLeft(w.upload.value)
  {
    actions, v := WorkerLeadsOn(start, before, w);
    if v.exec.active != None {
      actions, v := WorkerFreesTheGate(start, actions, v);
    }
  }

  lemma OpenedStrands(w: World)
    requires Inv(w) && Free(w) && Accepted(w.exec, StopAndUploadMap) && w.upload == Some(UploadRelease)
    ensures Stranded(StopUploadOpened(w))
  {
  }

  lemma OpenedHoldsGate(w: World)
    requires Inv(w) && Free(w) && Accepted(w.exec, StopAndUploadMap) && w.exec.uploadRunning
    ensures var v := StopUploadOpened(w); Free(v) && HoldsGate(v) && v.upload == w.upload && v.upload.Some?
  {
  }

  /** In every reachable state that accepts a stop-and-upload while the flag is still
      set: the gate is held for ever if and only if the previous worker has already
      finished its command and only has the flag left to clear. */
  lemma GateHeldForeverExactlyWhen(w: World)
    requires Reachable(w) && Free(w) && Accepted(w.exec, StopAndUploadMap) && w.exec.uploadRunning
    ensures HeldForever(StopUploadOpened(w)) <==> w.upload == Some(UploadRelease)
  {
    ReachableKeeps(w);
    OpenedHoldsGate(w);
    var v := StopUploadOpened(w);
    if w.upload == Some(UploadRelease) {
      OpenedStrands(w);
      forall run, actions, i: nat | Continues(v, run, actions) && i < |run| ensures HoldsGate(run[i]) {
        StrandedThroughout(v, run, actions, i);
      }
    } else {
      LeadsNowhere(v);
      var actions, u := WorkerFreesTheGate(v, [], v);
      var run :| Continues(v, run, actions) && run[|actions|] == u;
      assert !HoldsGate(run[|actions|]);
    }
  }

  // ---- whoever holds the gate ---------------------------------------------------------------------

  /** The worker still has the command to finish. */
  predicate Working(u: Option<Upload>) { u.Some? && u != Some(UploadRelease) }

  predicate UploadGate(w: World) { HoldsGate(w) ==> Working(w.upload) || Stranded(w) }

  /** Neither the worker moves nor a stop-and-upload takes the gate. */
  predicate UploadIsIdle(w: World, v: World) {
    v.upload == w.upload && (HoldsGate(v) ==> HoldsGate(w))
  }

  lemma WorkerIsIdle(w: World, a: WorkerAction)
    ensures UploadIsIdle(w, WorkerStep(w, a))
  {
    match a
    case StartupChecks(g) =>
    case StartupLocks(g, o) => StartupOnlyEnds(w.exec, g, o);
    case StartupWakes(g) =>
    case TimerFires(k, n) => CompletionOnlyEnds(w.exec, k, n, false);
    case ServiceLocks(c, g, n) =>
    case ServiceReturns(c, g, n, ok) => ServiceOnlyEnds(w.exec, c, g, ok);
  }

  lemma CallerIsIdle(w: World, a: CallerAction)
    ensures UploadIsIdle(w, CallerStep(w, a))
  {
  }

  lemma FollowIsIdle(w: World, a: FollowAction)
    ensures UploadIsIdle(w, FollowStep(w, a))
  {
  }

  lemma DrainIsIdle(w: World, a: DrainAction)
    ensures UploadIsIdle(w, DrainStep(w, a))
  {
  }

  lemma CommandIsIdle(w: World, r: Request)
    requires WellFormed(r)
    ensures UploadIsIdle(w, CommandDone(w, r))
  {
    RequestTakesNoUpload(w.exec, r);
  }

  lemma RequestTakesNoUpload(e: Exec, r: Request)
    requires WellFormed(r)
    ensures Dispatch(e, r).exec.active == Some(StopAndUploadMap) ==> e.active == Some(StopAndUploadMap)
  {
  }

  lemma GatewayIsIdle(w: World, a: GatewayAction)
    requires GatewayEnabled(w, a)
    ensures UploadIsIdle(w, GatewayStep(w, a))
  {
    match a
    case CommandArrives(r) => CommandIsIdle(w, r);
    case NavigationOpen =>
    case NavigationHandled(o) => PreparationOnlyEnds(w.exec, o);
    case StopOpen =>
    case Log(line) => LogOnlyEnds(w.exec, line);
  }

  lemma OperatorGate(w: World, a: OperatorAction)
    requires Inv(w) && OperatorEnabled(w, a) && UploadGate(w)
    ensures a.StopUploadOpen? ==> UploadGate(OperatorStep(w, a))
    ensures !a.StopUploadOpen? ==> UploadIsIdle(w, OperatorStep(w, a))
  {
    if a.StopUploadOpen? && Accepted(w.exec, StopAndUploadMap) && w.upload == Some(UploadRelease) {
      OpenedStrands(w);
    }
  }

  lemma UploadWorks(w: World, a: UploadAction)
    requires UploadEnabled(w, a) && Working(w.upload)
    ensures HoldsGate(UploadStep(w, a)) ==> Working(UploadStep(w, a).upload) && HoldsGate(w)
  {
  }

  lemma UploadTakesNothing(w: World, a: UploadAction)
    requires UploadEnabled(w, a) && !HoldsGate(w)
    ensures !HoldsGate(UploadStep(w, a))
  {
  }

  lemma UploadKeepsGate(w: World, a: UploadAction)
    requires Inv(w) && UploadEnabled(w, a) && UploadGate(w)
    ensures UploadGate(UploadStep(w, a))
  {
    if !HoldsGate(w) {
      UploadTakesNothing(w, a);
    } else if Working(w.upload) {
      UploadWorks(w, a);
    } else {
      StrandedUpload(w, a);
    }
  }

  lemma ActionKeepsGate(w: World, a: Action)
    requires Inv(w) && Enabled(w, a) && UploadGate(w)
    ensures UploadGate(Next(w, a))
  {
    if Stranded(w) {
      StrandedForGood(w, a);
    } else {
      match a
      case ByWorker(x) => WorkerIsIdle(w, x);
      case ByUpload(x) => UploadKeepsGate(w, x);
      case ByCaller(x) => CallerIsIdle(w, x);
      case ByFollow(x) => FollowIsIdle(w, x);
      case ByDrain(x) => DrainIsIdle(w, x);
      case ByGateway(x) => GatewayIsIdle(w, x);
      case ByOperator(x) => OperatorGate(w, x);
    }
  }

  lemma GateStep(start: World, run: seq<World>, actions: seq<Action>, i: nat)
    requires Inv(start) && Continues(start, run, actions) && i < |actions| && UploadGate(run[i])
    ensures UploadGate(run[i + 1])
  {
    ContinuationKeeps(start, run, actions, i);
    assert Steps(run[i], actions[i], run[i + 1]);
    ActionKeepsGate(run[i], actions[i]);
  }

  lemma {:induction false} UploadGateAlong(start: World, run: seq<World>, actions: seq<Action>, i: nat)
    requires Inv(start) && UploadGate(start) && Continues(start, run, actions) && i < |run|
    ensures UploadGate(run[i])
    decreases i
  {
    if i > 0 {
      UploadGateAlong(start, run, actions, i - 1);
      GateStep(start, run, actions, i - 1);
    }
  }

  /** A stop-and-upload in the gate has a worker that will finish it, or is stranded. */
  lemma UploadInGateWorks(w: World)
    requires Reachable(w)
    ensures UploadGate(w)
  {
    var actions :| Leads(START, actions, w);
    var run :| Continues(START, run, actions) && run[|actions|] == w;
    StartInv();
    UploadGateAlong(START, run, actions, |actions|);
  }

  /** In every reachable state in which a stop-and-upload holds the gate and the lock
      is free: it holds the gate for ever exactly when it is stranded. */
  lemma HeldForeverExactlyStranded(w: World)
    requires Reachable(w) && Free(w) && HoldsGate(w)
    ensures HeldForever(w) <==> Stranded(w)
  {
    if Stranded(w) {
      forall run, actions, i: nat | Continues(w, run, actions) && i < |run| ensures HoldsGate(run[i]) {
        StrandedThroughout(w, run, actions, i);
      }
    } else {
      UploadInGateWorks(w);
      LeadsNowhere(w);
      var actions, u := WorkerFreesTheGate(w, [], w);
      var run :| Continues(w, run, actions) && run[|actions|] == u;
      assert !HoldsGate(run[|actions|]);
    }
  }

  // ---- and it happens ----------------------------------------------------------------------------

  /** The lock is free and no follow is queued. */
  predicate AtRest(w: World) {
    Free(w) && w.exec.followSlot == None && !w.exec.draining && w.exec.fsm.health != UnHealthy
  }

  lemma CollectingStarts(w: World, pid: nat) returns (v: World)
    requires Reachable(w) && AtRest(w) && pid > 0
    requires w.exec.fsm.mode == Idle && w.exec.active == None && w.exec.mappingPid == 0
    ensures Reachable(v) && AtRest(v) && v.upload == w.upload && v.exec.uploadRunning == w.exec.uploadRunning
    ensures v.exec.fsm.mode == Mapping && v.exec.active == None && v.exec.mappingPid == pid
  {
    ReachesOn(w, ByOperator(MappingOpen));
    var w1 := MappingOpened(w);
    ReachesOn(w1, ByOperator(MappingForked(pid)));
    v := MappingStarted(w1, pid);
  }

  lemma UploadFails(w: World) returns (v: World)
    requires Reachable(w) && AtRest(w) && w.upload == None && !w.exec.uploadRunning
    requires w.exec.fsm.mode == Mapping && w.exec.active == None && w.exec.mappingPid > 0
    ensures Reachable(v) && AtRest(v) && v.upload == Some(UploadFinish) && v.exec.uploadRunning
    ensures v.exec.fsm.mode == Failed && v.exec.mappingPid == 0
  {
    ReachesOn(w, ByOperator(StopUploadOpen));
    var w1 := StopUploadOpened(w);
    ReachesOn(w1, ByUpload(UploadReads));
    var w2 := UploadLooked(w1);
    ReachesOn(w2, ByUpload(UploadStops(w.exec.mappingPid)));
    var w3 := UploadKilled(w2, w.exec.mappingPid);
    ReachesOn(w3, ByUpload(UploadReports(true, false)));
    v := Reporting(w3, false);
  }

  lemma FailureIsStopped(w: World) returns (v: World)
    requires Reachable(w) && AtRest(w) && w.exec.fsm.mode == Failed
    ensures Reachable(v) && AtRest(v) && v.upload == w.upload && v.exec.uploadRunning == w.exec.uploadRunning
    ensures v.exec.fsm.mode == Idle && v.exec.active == None && v.exec.mappingPid == w.exec.mappingPid
  {
    ReachesOn(w, ByGateway(StopOpen));
    var w1 := StopOpened(w);
    ReachesOn(w1, ByDrain(StopCleaned(true)));
    var w2 := StopDone(w1, true);
    ReachesOn(w2, ByDrain(DrainEnters));
    var w3 := Entering(w2);
    ReachesOn(w3, ByDrain(DrainTakes));
    v := Taking(w3);
  }

  lemma CommandFinishes(w: World) returns (v: World)
    requires Reachable(w) && AtRest(w) && w.upload == Some(UploadFinish) && w.exec.uploadRunning
    requires w.exec.fsm.mode == Mapping && w.exec.active == None && w.exec.mappingPid > 0
    ensures Reachable(v) && Free(v) && Accepted(v.exec, StopAndUploadMap) && v.upload == Some(UploadRelease)
    ensures v.exec.uploadRunning
  {
    ReachesOn(w, ByUpload(UploadFinishes));
    v := UploadFinished(w);
  }

  lemma SecondCommandStrands(w: World) returns (v: World)
    requires Reachable(w) && Free(w) && Accepted(w.exec, StopAndUploadMap) && w.upload == Some(UploadRelease)
    ensures Reachable(v) && Stranded(v) && v.upload == None
  {
    ReachableKeeps(w);
    OpenedStrands(w);
    ReachesOn(w, ByOperator(StopUploadOpen));
    var w1 := StopUploadOpened(w);
    ReachesOn(w1, ByUpload(UploadReleases));
    v := UploadReleased(w1);
  }

  /** A run from the start in which an upload fails, the robot is stopped and maps
      again, and the second stop-and-upload comes between the first worker's last
      command and its last store: both the accepting state and the stranded one
      are reached. */
  lemma SecondUploadStrands() returns (w: World, v: World)
    ensures Reachable(w) && Free(w) && Accepted(w.exec, StopAndUploadMap) && w.upload == Some(UploadRelease)
    ensures w.exec.uploadRunning
    ensures Reachable(v) && Stranded(v) && v.upload == None
  {
    LeadsNowhere(START);
    var w1 := CollectingStarts(START, 5);
    var w2 := UploadFails(w1);
    var w3 := FailureIsStopped(w2);
    var w4 := CollectingStarts(w3, 6);
    w := CommandFinishes(w4);
    v := SecondCommandStrands(w);
  }
}

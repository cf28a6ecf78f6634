/** The stop-and-upload worker always finds the process that it is to stop
    (src/mapping/maphandle.cc): it is launched only while one is recorded, and nobody
    else forgets it. */
module UploadWorker {
  import opened Fsm
  import opened Executor
  import opened Options
  import opened Interleaving
  import opened Invariant
  import opened Coordinator
  import opened Sections
  import opened ProcessingTimer

  predicate FindsInv(w: World) {
    && (w.upload == Some(UploadStart) ==> w.exec.mappingPid > 0)
    && (w.upload.Some? && w.upload.value.UploadStopped? ==> w.upload.value.found)
  }

  lemma UntouchedFinds(w: World, v: World)
    requires FindsInv(w) && Untouched(w, v)
    ensures FindsInv(v)
  {
  }

  lemma UploadFinds(w: World, a: UploadAction)
    requires StateInv(w) && FindsInv(w) && UploadEnabled(w, a)
    ensures FindsInv(UploadStep(w, a))
  {
  }

  /** A worker is launched only while none is left, and so while a process is recorded. */
  lemma LaunchFinds(w: World)
    requires StateInv(w) && FindsInv(w) && Free(w)
    ensures FindsInv(StopUploadOpened(w))
  {
    assert LaunchesUpload(w.exec) ==> w.upload == None && w.exec.mappingPid > 0;
  }

  lemma OperatorFinds(w: World, a: OperatorAction)
    requires StateInv(w) && FindsInv(w) && OperatorEnabled(w, a)
    ensures FindsInv(OperatorStep(w, a))
  {
    match a
    case MappingOpen => MappingTouchesNothing(w, 0);
    case MappingForked(pid) => MappingTouchesNothing(w, pid);
    case PostProcessingOpen => PostProcessingTouchesNothing(w, true);
    case PostProcessingDone(ok) => PostProcessingTouchesNothing(w, ok);
    case StopUploadOpen => LaunchFinds(w);
    case _ =>
  }

  lemma ActionFinds(w: World, a: Action)
    requires StateInv(w) && FindsInv(w) && Enabled(w, a)
    ensures FindsInv(Next(w, a))
  {
    match a
    case ByWorker(x) => WorkerTouchesNothing(w, x); UntouchedFinds(w, Next(w, a));
    case ByUpload(x) => UploadFinds(w, x);
    case ByCaller(x) => CallerTouchesNothing(w, x); UntouchedFinds(w, Next(w, a));
    case ByFollow(x) => FollowTouchesNothing(w, x); UntouchedFinds(w, Next(w, a));
    case ByDrain(x) => DrainTouchesNothing(w, x); UntouchedFinds(w, Next(w, a));
    case ByGateway(x) => GatewayTouchesNothing(w, x); UntouchedFinds(w, Next(w, a));
    case ByOperator(x) => OperatorFinds(w, x);
  }

  lemma StartFinds()
    ensures FindsInv(START)
  {
  }

  lemma {:induction false} RunFinds(run: seq<World>, actions: seq<Action>, i: nat)
    requires IsRun(run, actions) && i < |run|
    ensures FindsInv(run[i])
    decreases i
  {
    if i == 0 {
      StartFinds();
    } else {
      RunFinds(run, actions, i - 1);
      StepFinds(run, actions, i - 1);
    }
  }

  lemma StepFinds(run: seq<World>, actions: seq<Action>, i: nat)
    requires IsRun(run, actions) && i < |actions| && FindsInv(run[i])
    ensures FindsInv(run[i + 1])
  {
    RunKeeps(run, actions, i);
    ActionFinds(run[i], actions[i]);
  }

  /** Whoever reports has stopped a recorded process, so in no run does a worker report
      that none was running. */
  lemma ReporterHasStopped(run: seq<World>, actions: seq<Action>, i: nat, found: bool, ok: bool)
    requires IsRun(run, actions) && i < |actions| && actions[i] == ByUpload(UploadReports(found, ok))
    ensures found
  {
    RunFinds(run, actions, i);
  }

  /** A worker that starts goes on to stop the recorded process. */
  lemma StarterFinds(run: seq<World>, actions: seq<Action>, i: nat)
    requires IsRun(run, actions) && i < |actions| && actions[i] == ByUpload(UploadReads)
    ensures run[i].exec.mappingPid > 0 && run[i + 1].upload == Some(UploadKilling(run[i].exec.mappingPid))
  {
    RunFinds(run, actions, i);
  }
}

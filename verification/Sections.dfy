/** What the sections other than commands have in common: they take no gate, open no
    clearing, start no session and do not touch map processing. */
module Sections {
  import opened Fsm
  import opened Executor
  import opened Options

  /** Nothing about the mapping process and map processing, except that this may end. */
  predicate NoProcessing(e: Exec, x: Exec) {
    x.processingAttempt == e.processingAttempt && x.mappingPid == e.mappingPid &&
    (x.fsm.mode == MappingProcessing ==> e.fsm.mode == MappingProcessing)
  }

  predicate OnlyEnds(e: Exec, s: Section) {
    && NoProcessing(e, s.exec)
    && (s.exec.active == e.active || s.exec.active == None)
    && s.exec.fsm.generation == e.fsm.generation
    && s.exec.tries.clear.attempt == e.tries.clear.attempt
    && (s.effect.worker.Some? ==> !s.effect.worker.value.Service? || s.effect.worker.value.command != ClearWaypoints)
  }

  lemma RequestProcessesNothing(e: Exec, r: Request)
    ensures NoProcessing(e, Dispatch(e, r).exec)
  {
  }

  lemma StartupOnlyEnds(e: Exec, g: nat, o: StartupOutcome)
    ensures OnlyEnds(e, StartupSection(e, g, o))
  {
  }

  lemma PreparationOnlyEnds(e: Exec, o: StartOutcome)
    ensures OnlyEnds(e, StartHandled(e, o))
  {
  }

  lemma CompletionOnlyEnds(e: Exec, k: Kind, n: nat, ok: bool)
    ensures OnlyEnds(e, Complete(e, k, n, ok))
  {
  }

  lemma PointOnlyEnds(e: Exec)
    ensures OnlyEnds(e, ConfirmPoint(e))
  {
  }

  lemma LogOnlyEnds(e: Exec, line: Line)
    ensures OnlyEnds(e, LogLine(e, line))
  {
    match line
    case EnvReadyLine => CompletionOnlyEnds(e, EnvKind, e.tries.env.attempt, true);
    case WaypointLine => PointOnlyEnds(e);
    case ClearedLine => CompletionOnlyEnds(e, ClearKind, e.tries.clear.attempt, true);
    case PoseLine => CompletionOnlyEnds(e, PoseKind, e.tries.pose.attempt, true);
    case _ =>
  }

  lemma ToggleOnlyEnds(e: Exec, ok: bool)
    ensures OnlyEnds(e, CompleteTransition(e, ok))
  {
  }

  lemma EndOnlyEnds(e: Exec, c: Command, ok: bool)
    ensures var x := ServiceEnded(e, c, ok);
      && (x.active == e.active || x.active == None)
      && x.fsm.generation == e.fsm.generation && x.tries == e.tries && NoProcessing(e, x)
  {
  }

  lemma ServiceOnlyEnds(e: Exec, c: Command, g: nat, ok: bool)
    ensures OnlyEnds(e, ServiceReturned(e, c, g, ok))
  {
    if c == PauseOrResume {
      ToggleOnlyEnds(e, ok);
    } else {
      EndOnlyEnds(e, c, ok);
    }
  }
}

/** The mapping process and its stop-and-upload worker (src/mapping/maphandle.cc).
    Processes, scripts and the upload are outcomes handed in by the caller. */
module Mapping {
  datatype Reason = NoReason | NotRunning | NotReaped | NoScript | ScriptFailed | UploadFailed | Unreported

  datatype Report = Report(success: bool, reason: Reason)

  /** `gone(n)`: the n-th `waitpid` says that the process has ended; the first
      thirty follow SIGINT, the next ten SIGKILL. `storage` is empty when the
      upload failed or threw. */
  datatype Outcome = Outcome(gone: nat -> bool, script: bool, status: int, storage: string)

  const POLITE := 30
  const FORCED := 10

  ghost predicate Reaped(o: Outcome) {
    exists n: nat :: n < POLITE + FORCED && o.gone(n)
  }

  /** When the worker reports success. */
  ghost predicate Succeeds(pid: int, o: Outcome) {
    pid > 0 && Reaped(o) && o.script && o.status == 0 && o.storage != ""
  }

  ghost function ReportFor(pid: int, o: Outcome): Report {
    if pid <= 0 then Report(false, NotRunning)
    else if !Reaped(o) then Report(false, NotReaped)
    else if !o.script then Report(false, NoScript)
    else if o.status != 0 then Report(false, ScriptFailed)
    else if o.storage == "" then Report(false, UploadFailed)
    else Report(true, NoReason)
  }

  /** The reason names the first step that has failed, and there is none exactly for a success. */
  lemma ReasonNamesTheFirstFailure(pid: int, o: Outcome)
    ensures var r := ReportFor(pid, o);
      && (r.success <==> Succeeds(pid, o)) && (r.success <==> r.reason == NoReason)
      && (r.reason == NotRunning <==> pid <= 0)
      && (r.reason == NotReaped <==> pid > 0 && forall n: nat :: n < 40 ==> !o.gone(n))
      && (r.reason == NoScript <==> pid > 0 && Reaped(o) && !o.script)
      && (r.reason == ScriptFailed <==> pid > 0 && Reaped(o) && o.script && o.status != 0)
      && (r.reason == UploadFailed <==> pid > 0 && Reaped(o) && o.script && o.status == 0 && o.storage == "")
  {
  }

  class MappingHandle {
    var pid: int

    constructor ()
      ensures pid == -1
    {
      pid := -1;
    }

    /** `forked` is what `fork` returns to the parent. The answer is the code sent to the cloud. */
    method HandleStartMapping(script: bool, forked: int) returns (code: int)
      requires forked != 0
      modifies this
      ensures code == 0 <==> old(pid) <= 0 && script && forked > 0
      ensures code == -2 <==> old(pid) <= 0 && !script
      ensures code == 0 || code == -1 || code == -2
      ensures pid == if code == 0 then forked else old(pid)
    {
      if pid > 0 {
        return -1;
      }
      if !script {
        return -2;
      }
      if forked < 0 {
        return -1;
      }
      pid := forked;
      return 0;
    }

    /** Waits until the process is gone, at most thirty times politely and then ten times by force. */
    method AwaitExit(o: Outcome) returns (exited: bool, waits: nat, killed: bool)
      ensures exited <==> Reaped(o)
      ensures waits <= POLITE + FORCED
      ensures killed <==> forall n: nat :: n < POLITE ==> !o.gone(n)
    {
      exited, waits, killed := false, 0, false;
      var attempt: nat := 0;
      while attempt < POLITE
        invariant attempt <= POLITE && waits == attempt
        invariant forall n: nat :: n < attempt ==> !o.gone(n)
      {
        if o.gone(attempt) {
          exited := true;
          break;
        }
        waits := waits + 1;
        attempt := attempt + 1;
      }
      if !exited {
        killed := true;
        attempt := 0;
        while attempt < FORCED
          invariant attempt <= FORCED && waits == POLITE + attempt
          invariant forall n: nat :: n < POLITE + attempt ==> !o.gone(n)
        {
          if o.gone(POLITE + attempt) {
            exited := true;
            break;
          }
          waits := waits + 1;
          attempt := attempt + 1;
        }
      }
    }

    /** The worker: exactly one result on every path, the gate released once, and
        the process forgotten before anything is reported. */
    method StopAndUpload(o: Outcome) returns (results: seq<Report>, released: nat)
      modifies this
      ensures results == [ReportFor(old(pid), o)]
      ensures results[0].success <==> Succeeds(old(pid), o)
      ensures released == 1
      ensures pid <= 0 && (old(pid) <= 0 ==> pid == old(pid))
    {
      results, released := [], 0;
      var target := pid;
      if target > 0 {
        var exited, waits, killed := AwaitExit(o);
        if pid == target {
          pid := -1;
        }
        if !exited {
          results := ReportOnce(results, Report(false, NotReaped));
          return results, released + 1;
        }
        if !o.script {
          results := ReportOnce(results, Report(false, NoScript));
          return results, released + 1;
        }
        if o.status == 0 {
          if o.storage != "" {
            results := ReportOnce(results, Report(true, NoReason));
          } else {
            results := ReportOnce(results, Report(false, UploadFailed));
          }
        } else {
          results := ReportOnce(results, Report(false, ScriptFailed));
        }
      } else {
        results := ReportOnce(results, Report(false, NotRunning));
      }
      results := ReportOnce(results, Report(false, Unreported));
      released := released + 1;
    }

    /** The first result counts, later ones are dropped. */
    static method ReportOnce(results: seq<Report>, r: Report) returns (after: seq<Report>)
      ensures after == if results == [] then [r] else results
    {
      after := if results == [] then results + [r] else results;
    }
  }
}

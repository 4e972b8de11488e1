/** The fail-closed provider canary: a fixed schedule of one-shot episodes that stops at the
    first one that is not clean, and sealed reports of how far it came. Episodes, preflight and
    provider accounting are arbitrary; every durable state is kept, so a run killed at any
    moment is a prefix of its history. */
module ProviderCanary {
  import opened Wrappers
  import opened SealedReports

  datatype TaskId = TaskId(name: string)

  datatype RunResult = RunRaised(error: string) | Ran(attempt: Attempt)

  datatype Env = Env(
    details: Report, tasks: seq<TaskId>, required: nat, trainingTask: TaskId,
    episodeName: nat -> string, preflight: Option<string>, run: nat -> RunResult,
    accounting: seq<Attempt> -> Option<(nat, nat)>, hash: Hash)

  /** The output directory: whether it exists, the schedule positions whose episode was started,
      the attempt files, and the two reports. */
  datatype Disk = Disk(
    created: bool, executed: seq<nat>, files: seq<Attempt>, progress: Option<Report>, report: Option<Report>)

  const ABSENT := Disk(false, [], [], None, None)

  datatype Outcome = Refused | Reported(report: Report) | Raised

  /** Every durable state in order, and how the invocation ends if nothing kills it. */
  datatype Trace = Trace(history: seq<Disk>, outcome: Outcome)

  /* ---- judging an attempt ---- */

  datatype Kind = LacksResult | Invalid | GateFailed | Clean

  /** `_attempt_stop_kind`; `LacksResult` is its exception. */
  function StopKind(a: Attempt): Kind {
    if a.result.None? then LacksResult
    else
      var p := a.result.value;
      if !p.infrastructureValid || !p.securityValid then Invalid
      else if !(p.benchmarkVerifierPass && p.agentProtocolValid && p.trajectoryEligible
                && p.infrastructureValid && p.securityValid && p.sftAdmitted) then GateFailed
      else if !a.exact64kEligible || !a.decisionOnlyLossMask || !a.publicToolThoughtSupervised || a.truncationApplied
              || !a.trajectoryReceipt.ObjectReceipt? || !a.decisionReceipt.ObjectReceipt?
              || !a.tokenReceipt.ObjectReceipt?
      then GateFailed
      else Clean
  }

  /* ---- reports ---- */

  function Base(env: Env): Report {
    env.details + map[Status := Stage(CanaryRunning), Attempts := List([]), CollectionAllowed := Flag(false)]
  }

  function Running(env: Env, attempts: seq<Attempt>): Report {
    Seal(env.hash, Base(env)[Attempts := List(attempts)])
  }

  function Trajectories(attempts: seq<Attempt>): nat {
    if attempts == [] then 0
    else (if attempts[0].trajectoryReceipt.NoReceipt? then 0 else 1) + Trajectories(attempts[1..])
  }

  function Exact(attempts: seq<Attempt>): nat {
    if attempts == [] then 0 else (if attempts[0].tokenReceipt.NoReceipt? then 0 else 1) + Exact(attempts[1..])
  }

  /** What a final report says beyond the running one. */
  function Closing(
    attempts: seq<Attempt>, receipts: (nat, nat), status: CanaryStatus, passed: bool, calls: (nat, nat),
    reason: Option<Cause>)
    : Report
  {
    map[
      Status := Stage(status), Attempts := List(attempts), CanaryPassed := Flag(passed),
      TrajectoryCount := Count(receipts.0), ExactCount := Count(receipts.1),
      CollectionAllowed := Flag(passed), ProviderEpisodes := Count(calls.0), ProviderCalls := Count(calls.1),
      FailureReason := if reason.None? then Null else Because(reason.value)]
  }

  function Final(
    env: Env, attempts: seq<Attempt>, status: CanaryStatus, passed: bool, calls: (nat, nat), reason: Option<Cause>)
    : Report
  {
    var receipts := (Trajectories(attempts), Exact(attempts));
    Seal(env.hash, Base(env) + Closing(attempts, receipts, status, passed, calls, reason))
  }

  /* ---- the canary as a function ---- */

  function Last(history: seq<Disk>): Disk
    requires history != []
  {
    history[|history| - 1]
  }

  /** Writing the final report twice: progress first. */
  function Close(
    env: Env, h: seq<Disk>, attempts: seq<Attempt>, status: CanaryStatus, passed: bool, reason: Option<Cause>)
    : (t: Trace)
    requires h != []
    ensures h <= t.history
  {
    match env.accounting(attempts)
    case None => Trace(h, Raised)
    case Some(calls) =>
      var final := Final(env, attempts, status, passed, calls, reason);
      var d := Last(h).(progress := Some(final));
      Trace(h + [d] + [d.(report := Some(final))], Reported(final))
  }


  predicate AllClean(attempts: seq<Attempt>) {
    forall j :: 0 <= j < |attempts| ==> StopKind(attempts[j]).Clean?
  }

  function Finish(env: Env, h: seq<Disk>, attempts: seq<Attempt>): (t: Trace)
    requires h != []
    ensures h <= t.history
  {
    var passed := |attempts| == env.required && AllClean(attempts);
    Close(env, h, attempts, if passed then PassedCollectionAllowed else FailedClosed, passed,
          if passed then None else Some(GateFailedOverall))
  }

  function Loop(env: Env, h: seq<Disk>, attempts: seq<Attempt>, i: nat): (t: Trace)
    requires h != [] && i <= |env.tasks|
    ensures h <= t.history
    decreases |env.tasks| - i
  {
    if i == |env.tasks| then Finish(env, h, attempts)
    else
      var started := Last(h).(executed := Last(h).executed + [i]);
      var name := env.episodeName(i);
      match env.run(i)
      case RunRaised(error) =>
        Close(env, h + [started], attempts, StoppedInfrastructureOrSecurityInvalid, false,
              Some(EpisodeRaised(name, error)))
      case Ran(a) =>
        var all := attempts + [a];
        var filed := started.(files := started.files + [a]);
        var saved := filed.(progress := Some(Running(env, all)));
        var next := h + [started] + [filed] + [saved];
        match StopKind(a)
        case LacksResult => Trace(next, Raised)
        case Invalid =>
          Close(env, next, all, StoppedInfrastructureOrSecurityInvalid, false, Some(InvalidResultPlane(name)))
        case GateFailed => Close(env, next, all, FailedClosed, false, Some(GateFailedIn(name)))
        case Clean =>
          if i == 0 && env.tasks[0] != env.trainingTask then Trace(next, Raised)
          else Loop(env, next, all, i + 1)
  }

  /** One invocation on an output path. */
  function Invocation(env: Env, before: Disk): (t: Trace)
    ensures [before] <= t.history
  {
    if before.created then Trace([before], Refused)
    else
      var made := ABSENT.(created := true);
      var begun := made.(progress := Some(Seal(env.hash, Base(env))));
      var h := [before] + [made] + [begun];
      match env.preflight
      case Some(error) => Close(env, h, [], StoppedInfrastructureInvalid, false, Some(PreflightFailed(error)))
      case None => Loop(env, h, [], 0)
  }

  /* ---- the canary ---- */

  method CountReceipts(attempts: seq<Attempt>) returns (trajectories: nat, exact: nat)
    ensures trajectories == Trajectories(attempts) && exact == Exact(attempts)
  {
    trajectories, exact := 0, 0;
    for j := |attempts| downto 0
      invariant trajectories == Trajectories(attempts[j..]) && exact == Exact(attempts[j..])
    {
      assert attempts[j..][1..] == attempts[j + 1..];
      if !attempts[j].trajectoryReceipt.NoReceipt? { trajectories := trajectories + 1; }
      if !attempts[j].tokenReceipt.NoReceipt? { exact := exact + 1; }
    }
    assert attempts[0..] == attempts;
  }

  /** `_stop`, and the end of `collect`, which differ only in what they report. */
  method CloseNow(
    env: Env, h: seq<Disk>, attempts: seq<Attempt>, status: CanaryStatus, passed: bool, reason: Option<Cause>)
    returns (history: seq<Disk>, outcome: Outcome)
    requires h != []
    ensures Trace(history, outcome) == Close(env, h, attempts, status, passed, reason)
  {
    var trajectories, exact := CountReceipts(attempts);
    var calls := env.accounting(attempts);
    if calls.None? { return h, Raised; }
    var closing := Closing(attempts, (trajectories, exact), status, passed, calls.value, reason);
    var final := Seal(env.hash, Base(env) + closing);
    var disk := Last(h).(progress := Some(final));
    history := h + [disk];
    disk := disk.(report := Some(final));
    history := history + [disk];
    outcome := Reported(final);
  }

  /** `collect`, from the creation of its output directory on. */
  method Collect(env: Env, before: Disk) returns (history: seq<Disk>, outcome: Outcome)
    ensures Trace(history, outcome) == Invocation(env, before)
  {
    history := [before];
    if before.created { return history, Refused; }
    var disk := ABSENT.(created := true);
    history := history + [disk];
    disk := disk.(progress := Some(Seal(env.hash, Base(env))));
    history := history + [disk];
    if env.preflight.Some? {
      history, outcome :=
        CloseNow(env, history, [], StoppedInfrastructureInvalid, false, Some(PreflightFailed(env.preflight.value)));
      return;
    }
    var attempts: seq<Attempt> := [];
    for i := 0 to |env.tasks|
      invariant history != [] && Last(history) == disk
      invariant Loop(env, history, attempts, i) == Invocation(env, before)
    {
      var name, result := env.episodeName(i), env.run(i);
      disk := disk.(executed := disk.executed + [i]);
      history := history + [disk];
      if result.RunRaised? {
        history, outcome := CloseNow(env, history, attempts, StoppedInfrastructureOrSecurityInvalid, false,
                                     Some(EpisodeRaised(name, result.error)));
        return;
      }
      attempts := attempts + [result.attempt];
      disk := disk.(files := disk.files + [result.attempt]);
      history := history + [disk];
      disk := disk.(progress := Some(Running(env, attempts)));
      history := history + [disk];
      var kind := StopKind(result.attempt);
      if kind.LacksResult? { return history, Raised; }
      if kind.Invalid? {
        history, outcome := CloseNow(env, history, attempts, StoppedInfrastructureOrSecurityInvalid, false,
                                     Some(InvalidResultPlane(name)));
        return;
      }
      if kind.GateFailed? {
        history, outcome := CloseNow(env, history, attempts, FailedClosed, false, Some(GateFailedIn(name)));
        return;
      }
      if i == 0 && env.tasks[i] != env.trainingTask { return history, Raised; }
    }
    var passed := |attempts| == env.required && AllClean(attempts);
    history, outcome := CloseNow(env, history, attempts, if passed then PassedCollectionAllowed else FailedClosed,
                                 passed, if passed then None else Some(GateFailedOverall));
  }
}

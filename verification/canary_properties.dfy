/** What the canary leaves at every moment, on every exit, and over any number of invocations. */
module CanaryProperties {
  import opened Wrappers
  import opened SealedReports
  import opened ProviderCanary

  /** The attempts the first `n` episodes returned, where each of them did. */
  predicate Returned(env: Env, attempts: seq<Attempt>) {
    && |attempts| <= |env.tasks|
    && forall j :: 0 <= j < |attempts| ==> env.run(j) == Ran(attempts[j])
  }

  predicate AllButLastClean(attempts: seq<Attempt>) {
    forall j :: 0 <= j < |attempts| - 1 ==> StopKind(attempts[j]).Clean?
  }

  /** The first `n` schedule positions, each started once. */
  predicate InSchedule(env: Env, executed: seq<nat>) {
    |executed| <= |env.tasks| && forall j :: 0 <= j < |executed| ==> executed[j] == j
  }

  /** The whole required schedule ran clean. */
  predicate CleanRun(env: Env) {
    && env.preflight.None? && |env.tasks| == env.required
    && (forall j :: 0 <= j < |env.tasks| ==> env.run(j).Ran? && StopKind(env.run(j).attempt).Clean?)
    && (env.tasks != [] ==> env.tasks[0] == env.trainingTask)
  }

  predicate Allows(r: Report) { CollectionAllowed in r && r[CollectionAllowed] == Flag(true) }

  /** A report file is sealed, lists attempts that were filed, and allows collection only after
      a clean run of the whole schedule. */
  predicate Honest(env: Env, r: Report, files: seq<Attempt>) {
    && Validate(env.hash, r, ReportHash) == Some(r)
    && Attempts in r && r[Attempts].List? && r[Attempts].attempts <= files
    && |files| <= |r[Attempts].attempts| + 1
    && (Allows(r) ==> CleanRun(env) && |files| == |env.tasks|)
  }

  /** What every durable state satisfies once the directory exists. */
  predicate Sound(env: Env, d: Disk) {
    && d.created && InSchedule(env, d.executed) && Returned(env, d.files) && AllButLastClean(d.files)
    && |d.files| <= |d.executed| <= |d.files| + 1
    && (|d.executed| > |d.files| ==> AllClean(d.files))
    && (d.progress.Some? ==> Honest(env, d.progress.value, d.files))
    && (d.report.Some? ==> d.report == d.progress)
  }

  predicate AllSound(env: Env, history: seq<Disk>) {
    && history != [] && history[0] == ABSENT
    && forall k :: 0 < k < |history| ==> Sound(env, history[k])
  }

  /** The status a closing report owes to how many episodes were started and what they filed. */
  function StatusOf(env: Env, started: nat, files: seq<Attempt>): CanaryStatus {
    if env.preflight.Some? then StoppedInfrastructureInvalid
    else if started > |files| then StoppedInfrastructureOrSecurityInvalid
    else if files != [] && !StopKind(files[|files| - 1]).Clean? then
      if StopKind(files[|files| - 1]).GateFailed? then FailedClosed else StoppedInfrastructureOrSecurityInvalid
    else if |files| == env.required then PassedCollectionAllowed
    else FailedClosed
  }

  /** The report has the field. */
  predicate Has(r: Report, key: Key, value: Value) { key in r && r[key] == value }

  /** A closing report says what was run, and gives a reason whenever it denies. */
  predicate Tells(r: Report, files: seq<Attempt>, status: CanaryStatus) {
    && Has(r, Attempts, List(files)) && Has(r, Status, Stage(status)) && Has(r, CanaryPassed, Flag(Allows(r)))
    && (Has(r, FailureReason, Null) <==> Allows(r))
    && Has(r, TrajectoryCount, Count(Trajectories(files))) && Has(r, ExactCount, Count(Exact(files)))
  }

  /** A reported exit. */
  predicate Closed(env: Env, t: Trace) {
    |t.history| > 1 &&
    var d := Last(t.history);
    match t.outcome
    case Refused => false
    case Raised => d.report.None?
    case Reported(r) =>
      && d.progress == d.report == Some(r)
      && Tells(r, d.files, StatusOf(env, |d.executed|, d.files))
      && (Allows(r) <==> CleanRun(env))
  }

  /** How an invocation that was not refused behaves. */
  predicate Good(env: Env, t: Trace) { AllSound(env, t.history) && Closed(env, t) }

  /** What holds at every loop head. */
  predicate Head(env: Env, h: seq<Disk>, attempts: seq<Attempt>, i: nat) {
    && |h| > 1 && i == |attempts| <= |env.tasks|
    && AllSound(env, h) && env.preflight.None?
    && AllClean(attempts) && Returned(env, attempts) && (i > 0 ==> env.tasks[0] == env.trainingTask)
    && |Last(h).executed| == i && Last(h).files == attempts
    && Last(h).progress == Some(Running(env, attempts)) && Last(h).report.None?
  }

  /** Every field written over the base report is in the sealed one. */
  lemma SealedOver(env: Env, top: Report, key: Key)
    requires key in top && key != ReportHash
    ensures Has(Seal(env.hash, Base(env) + top), key, top[key])
    ensures Validate(env.hash, Seal(env.hash, Base(env) + top), ReportHash) == Some(Seal(env.hash, Base(env) + top))
  {
    SealValidates(env.hash, Base(env) + top);
  }

  lemma FinalHonest(
      env: Env, attempts: seq<Attempt>, status: CanaryStatus, passed: bool, calls: (nat, nat), reason: Option<Cause>)
    requires passed ==> CleanRun(env) && |attempts| == |env.tasks|
    ensures
      var r := Final(env, attempts, status, passed, calls, reason);
      (Allows(r) <==> passed) && Honest(env, r, attempts)
  {
    var top := Closing(attempts, (Trajectories(attempts), Exact(attempts)), status, passed, calls, reason);
    SealedOver(env, top, Attempts);
    SealedOver(env, top, CollectionAllowed);
  }

  /** A report that holds the closing fields. */
  predicate Holds(r: Report, top: Report) { forall key :: key in top ==> Has(r, key, top[key]) }

  lemma HoldsTells(
      r: Report, attempts: seq<Attempt>, status: CanaryStatus, passed: bool, calls: (nat, nat), reason: Option<Cause>)
    requires Holds(r, Closing(attempts, (Trajectories(attempts), Exact(attempts)), status, passed, calls, reason))
    requires (reason.None? <==> passed) && (Allows(r) <==> passed)
    ensures Tells(r, attempts, status)
  {
    var top := Closing(attempts, (Trajectories(attempts), Exact(attempts)), status, passed, calls, reason);
    assert Attempts in top && Status in top && CanaryPassed in top;
    assert FailureReason in top && TrajectoryCount in top && ExactCount in top;
  }

  lemma FinalTells(
      env: Env, attempts: seq<Attempt>, status: CanaryStatus, passed: bool, calls: (nat, nat), reason: Option<Cause>)
    requires reason.None? <==> passed
    requires Allows(Final(env, attempts, status, passed, calls, reason)) <==> passed
    ensures Tells(Final(env, attempts, status, passed, calls, reason), attempts, status)
  {
    var top := Closing(attempts, (Trajectories(attempts), Exact(attempts)), status, passed, calls, reason);
    var r := Final(env, attempts, status, passed, calls, reason);
    forall key | key in top ensures Has(r, key, top[key]) { SealedOver(env, top, key); }
    HoldsTells(r, attempts, status, passed, calls, reason);
  }

  lemma RunningHonest(env: Env, attempts: seq<Attempt>, files: seq<Attempt>)
    requires attempts <= files && |files| <= |attempts| + 1
    ensures Honest(env, Running(env, attempts), files) && !Allows(Running(env, attempts))
  {
    var value := Base(env)[Attempts := List(attempts)];
    assert value[CollectionAllowed] == Flag(false) && value[Attempts] == List(attempts);
    SealValidates(env.hash, value);
    assert Running(env, attempts) == Seal(env.hash, value);
  }

  lemma SoundWith(env: Env, h: seq<Disk>, r: Report)
    requires |h| > 1 && AllSound(env, h) && Last(h).report.None? && Honest(env, r, Last(h).files)
    ensures
      var d := Last(h).(progress := Some(r));
      AllSound(env, h + [d] + [d.(report := Some(r))])
  {
    assert Sound(env, Last(h));
  }

  /** The report that ends a sound history, denied unless the run was clean. */
  lemma FinalReport(
    env: Env, files: seq<Attempt>, started: nat, passed: bool, calls: (nat, nat), reason: Option<Cause>)
    requires (passed <==> CleanRun(env)) && (passed ==> |files| == |env.tasks|) && (reason.None? <==> passed)
    ensures
      var status := StatusOf(env, started, files);
      var r := Final(env, files, status, passed, calls, reason);
      Honest(env, r, files) && Tells(r, files, status) && (Allows(r) <==> CleanRun(env))
  {
    var status := StatusOf(env, started, files);
    FinalHonest(env, files, status, passed, calls, reason);
    FinalTells(env, files, status, passed, calls, reason);
  }

  lemma ReportedGood(env: Env, h: seq<Disk>, r: Report)
    requires |h| > 1 && AllSound(env, h) && Last(h).report.None?
    requires Honest(env, r, Last(h).files) && (Allows(r) <==> CleanRun(env))
    requires Tells(r, Last(h).files, StatusOf(env, |Last(h).executed|, Last(h).files))
    ensures
      var d := Last(h).(progress := Some(r));
      Good(env, Trace(h + [d] + [d.(report := Some(r))], Reported(r)))
  {
    SoundWith(env, h, r);
  }

  /** Closing after a sound history. */
  lemma CloseGood(
    env: Env, h: seq<Disk>, attempts: seq<Attempt>, status: CanaryStatus, passed: bool, reason: Option<Cause>)
    requires |h| > 1 && AllSound(env, h) && Last(h).files == attempts && Last(h).report.None?
    requires (passed <==> CleanRun(env)) && (passed ==> |attempts| == |env.tasks|) && (reason.None? <==> passed)
    requires status == StatusOf(env, |Last(h).executed|, attempts)
    ensures Good(env, Close(env, h, attempts, status, passed, reason))
  {
    if env.accounting(attempts).Some? {
      var calls := env.accounting(attempts).value;
      FinalReport(env, attempts, |Last(h).executed|, passed, calls, reason);
      ReportedGood(env, h, Final(env, attempts, status, passed, calls, reason));
    }
  }

  /** The states one episode adds. */
  lemma EpisodeSound(env: Env, h: seq<Disk>, attempts: seq<Attempt>, i: nat)
    requires Head(env, h, attempts, i) && i < |env.tasks|
    ensures
      var started := Last(h).(executed := Last(h).executed + [i]);
      && Sound(env, started)
      && (env.run(i).Ran? ==>
            var all := attempts + [env.run(i).attempt];
            var filed := started.(files := started.files + [env.run(i).attempt]);
            Returned(env, all) && Sound(env, filed) && Sound(env, filed.(progress := Some(Running(env, all)))))
  {
    assert Sound(env, Last(h));
    if env.run(i).Ran? {
      var all := attempts + [env.run(i).attempt];
      RunningHonest(env, attempts, all);
      RunningHonest(env, all, all);
    }
  }

  /** The three states an episode that returned appends. */
  function Filed(env: Env, h: seq<Disk>, attempts: seq<Attempt>, i: nat, a: Attempt): seq<Disk>
    requires h != []
  {
    var started := Last(h).(executed := Last(h).executed + [i]);
    var filed := started.(files := started.files + [a]);
    h + [started] + [filed] + [filed.(progress := Some(Running(env, attempts + [a])))]
  }

  lemma FiledSound(env: Env, h: seq<Disk>, attempts: seq<Attempt>, i: nat)
    requires Head(env, h, attempts, i) && i < |env.tasks| && env.run(i).Ran?
    ensures
      var a := env.run(i).attempt;
      var next := Filed(env, h, attempts, i, a);
      && AllSound(env, next) && Last(next).report.None? && Last(next).files == attempts + [a]
      && (StopKind(a).Clean? && (i > 0 || env.tasks[0] == env.trainingTask) ==> Head(env, next, attempts + [a], i + 1))
  {
    EpisodeSound(env, h, attempts, i);
  }

  /** One turn of the loop. */
  lemma LoopStep(env: Env, h: seq<Disk>, attempts: seq<Attempt>, i: nat)
    requires h != [] && i < |env.tasks|
    ensures
      var name, t := env.episodeName(i), Loop(env, h, attempts, i);
      match env.run(i)
      case RunRaised(error) =>
        t == Close(env, h + [Last(h).(executed := Last(h).executed + [i])], attempts,
                   StoppedInfrastructureOrSecurityInvalid, false, Some(EpisodeRaised(name, error)))
      case Ran(a) =>
        var all, next := attempts + [a], Filed(env, h, attempts, i, a);
        match StopKind(a)
        case LacksResult => t == Trace(next, Raised)
        case Invalid =>
          t == Close(env, next, all, StoppedInfrastructureOrSecurityInvalid, false, Some(InvalidResultPlane(name)))
        case GateFailed => t == Close(env, next, all, FailedClosed, false, Some(GateFailedIn(name)))
        case Clean =>
          t == if i == 0 && env.tasks[0] != env.trainingTask then Trace(next, Raised) else Loop(env, next, all, i + 1)
  {
  }

  lemma FinishGood(env: Env, h: seq<Disk>, attempts: seq<Attempt>)
    requires Head(env, h, attempts, |env.tasks|)
    ensures Good(env, Finish(env, h, attempts))
  {
    var passed := |attempts| == env.required && AllClean(attempts);
    CloseGood(env, h, attempts, if passed then PassedCollectionAllowed else FailedClosed, passed,
              if passed then None else Some(GateFailedOverall));
  }

  /** An episode that raised. */
  lemma RaisedGood(env: Env, h: seq<Disk>, attempts: seq<Attempt>, i: nat)
    requires Head(env, h, attempts, i) && i < |env.tasks| && env.run(i).RunRaised?
    ensures Good(env, Loop(env, h, attempts, i))
  {
    LoopStep(env, h, attempts, i);
    EpisodeSound(env, h, attempts, i);
    CloseGood(env, h + [Last(h).(executed := Last(h).executed + [i])], attempts, StoppedInfrastructureOrSecurityInvalid,
              false, Some(EpisodeRaised(env.episodeName(i), env.run(i).error)));
  }

  /** An attempt that is not clean. */
  lemma JudgedGood(env: Env, h: seq<Disk>, attempts: seq<Attempt>, i: nat)
    requires Head(env, h, attempts, i) && i < |env.tasks| && env.run(i).Ran? && !StopKind(env.run(i).attempt).Clean?
    ensures Good(env, Loop(env, h, attempts, i))
  {
    var a, name := env.run(i).attempt, env.episodeName(i);
    var all, next := attempts + [a], Filed(env, h, attempts, i, a);
    LoopStep(env, h, attempts, i);
    FiledSound(env, h, attempts, i);
    if StopKind(a).Invalid? {
      CloseGood(env, next, all, StoppedInfrastructureOrSecurityInvalid, false, Some(InvalidResultPlane(name)));
    } else if StopKind(a).GateFailed? {
      CloseGood(env, next, all, FailedClosed, false, Some(GateFailedIn(name)));
    }
  }

  /** A clean attempt: the loop goes on from a state like the one before, or the drift check
      of the first task raises. */
  lemma CleanGoesOn(env: Env, h: seq<Disk>, attempts: seq<Attempt>, i: nat)
    requires Head(env, h, attempts, i) && i < |env.tasks| && env.run(i).Ran? && StopKind(env.run(i).attempt).Clean?
    ensures
      var all, next := attempts + [env.run(i).attempt], Filed(env, h, attempts, i, env.run(i).attempt);
      if i == 0 && env.tasks[0] != env.trainingTask then Good(env, Loop(env, h, attempts, i))
      else Head(env, next, all, i + 1) && Loop(env, h, attempts, i) == Loop(env, next, all, i + 1)
  {
    LoopStep(env, h, attempts, i);
    FiledSound(env, h, attempts, i);
  }

  predicate GoesOn(env: Env, i: nat)
    requires i < |env.tasks|
  {
    env.run(i).Ran? && StopKind(env.run(i).attempt).Clean? && (i > 0 || env.tasks[0] == env.trainingTask)
  }

  /** What one turn does to an invariant and a claim about the end. */
  predicate Turn(
      env: Env, holds: (seq<Disk>, seq<Attempt>, nat) -> bool, good: Trace -> bool,
      h: seq<Disk>, attempts: seq<Attempt>, i: nat)
    requires h != [] && i <= |env.tasks|
  {
    if i < |env.tasks| && GoesOn(env, i) then
      holds(Filed(env, h, attempts, i, env.run(i).attempt), attempts + [env.run(i).attempt], i + 1)
    else good(Loop(env, h, attempts, i))
  }

  lemma LoopGoesOn(env: Env, h: seq<Disk>, attempts: seq<Attempt>, i: nat)
    requires h != [] && i < |env.tasks| && GoesOn(env, i)
    ensures Loop(env, h, attempts, i) ==
            Loop(env, Filed(env, h, attempts, i, env.run(i).attempt), attempts + [env.run(i).attempt], i + 1)
  {
    LoopStep(env, h, attempts, i);
  }

  /** The proof rule of the canary's loop. */
  lemma {:induction false} LoopRule(
      env: Env, holds: (seq<Disk>, seq<Attempt>, nat) -> bool, good: Trace -> bool,
      h: seq<Disk>, attempts: seq<Attempt>, i: nat)
    requires forall h, attempts, i: nat :: holds(h, attempts, i) && h != [] && i <= |env.tasks| ==>
               Turn(env, holds, good, h, attempts, i)
    requires holds(h, attempts, i) && h != [] && i <= |env.tasks|
    ensures good(Loop(env, h, attempts, i))
    decreases |env.tasks| - i
  {
    assert Turn(env, holds, good, h, attempts, i);
    if i < |env.tasks| && GoesOn(env, i) {
      LoopGoesOn(env, h, attempts, i);
      var a := env.run(i).attempt;
      LoopRule(env, holds, good, Filed(env, h, attempts, i, a), attempts + [a], i + 1);
    }
  }

  lemma TurnGood(env: Env, h: seq<Disk>, attempts: seq<Attempt>, i: nat)
    requires Head(env, h, attempts, i)
    ensures i < |env.tasks| && GoesOn(env, i) ==>
              Head(env, Filed(env, h, attempts, i, env.run(i).attempt), attempts + [env.run(i).attempt], i + 1)
    ensures !(i < |env.tasks| && GoesOn(env, i)) ==> Good(env, Loop(env, h, attempts, i))
  {
    if i == |env.tasks| {
      FinishGood(env, h, attempts);
    } else if env.run(i).RunRaised? {
      RaisedGood(env, h, attempts, i);
    } else if !StopKind(env.run(i).attempt).Clean? {
      JudgedGood(env, h, attempts, i);
    } else {
      CleanGoesOn(env, h, attempts, i);
    }
  }

  lemma LoopGood(env: Env, h: seq<Disk>, attempts: seq<Attempt>, i: nat)
    requires Head(env, h, attempts, i)
    ensures Good(env, Loop(env, h, attempts, i))
  {
    var holds := (h: seq<Disk>, attempts: seq<Attempt>, i: nat) => Head(env, h, attempts, i);
    var good := (t: Trace) => Good(env, t);
    forall h, attempts, i: nat | holds(h, attempts, i) && h != [] && i <= |env.tasks|
      ensures Turn(env, holds, good, h, attempts, i)
    {
      TurnGood(env, h, attempts, i);
    }
    LoopRule(env, holds, good, h, attempts, i);
  }

  /** Every durable state of a first invocation is sound, so this is what a kill at any moment
      leaves; and a reported exit leaves equal, sealed progress and report files that allow
      collection if and only if the whole required schedule ran clean. */
  lemma InvocationGood(env: Env)
    ensures Good(env, Invocation(env, ABSENT))
  {
    var made := ABSENT.(created := true);
    var begun := made.(progress := Some(Seal(env.hash, Base(env))));
    var h := [ABSENT] + [made] + [begun];
    assert Base(env) == Base(env)[Attempts := List([])];
    RunningHonest(env, [], []);
    if env.preflight.Some? {
      CloseGood(env, h, [], StoppedInfrastructureInvalid, false, Some(PreflightFailed(env.preflight.value)));
    } else {
      LoopGood(env, h, [], 0);
    }
  }

  /* ---- any number of invocations ---- */

  datatype Launch = Launch(env: Env, survivedSteps: nat)

  /** The disk an invocation leaves when it is killed after some durable steps. */
  function After(launch: Launch, before: Disk): Disk {
    var h := Invocation(launch.env, before).history;
    if launch.survivedSteps < |h| then h[launch.survivedSteps] else h[|h| - 1]
  }

  /** The disks before and after each of a list of invocations. */
  function Life(launches: seq<Launch>, d: Disk): seq<Disk> {
    if launches == [] then [d] else [d] + Life(launches[1..], After(launches[0], d))
  }

  /** Once the directory exists, nothing an invocation does changes it. */
  lemma {:induction false} CreatedStays(launches: seq<Launch>, d: Disk)
    requires d.created
    ensures
      var life := Life(launches, d);
      && |life| == |launches| + 1
      && (forall k :: 0 <= k <= |launches| ==> life[k] == d)
      && (forall k :: 0 <= k < |launches| ==> Invocation(launches[k].env, d).outcome.Refused?)
  {
    if launches != [] {
      assert After(launches[0], d) == d;
      CreatedStays(launches[1..], d);
    }
  }

  /** At most one invocation on a path ever gets as far as creating the directory: before it
      nothing is there, it leaves a sound state wherever it is killed, and every later one is
      refused and changes nothing. */
  lemma {:induction false} OneInvocationRuns(launches: seq<Launch>) returns (first: nat)
    ensures
      var life := Life(launches, ABSENT);
      && |life| == |launches| + 1 && first <= |launches|
      && (forall k :: 0 <= k <= first ==> life[k] == ABSENT)
      && (first < |launches| ==> Sound(launches[first].env, life[first + 1]))
      && (forall k :: first < k <= |launches| ==> life[k] == life[first + 1])
      && (forall k :: first < k < |launches| ==> Invocation(launches[k].env, life[k]).outcome.Refused?)
  {
    if launches == [] { return 0; }
    InvocationGood(launches[0].env);
    var next := After(launches[0], ABSENT);
    if next == ABSENT {
      var rest := OneInvocationRuns(launches[1..]);
      return rest + 1;
    }
    CreatedStays(launches[1..], next);
    return 0;
  }
}

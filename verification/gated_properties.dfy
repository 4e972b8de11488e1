/** What the gate-driven collection keeps at every loop head and on every exit. */
module GatedProperties {
  import opened Wrappers
  import opened GatedCollection

  /** The decision records counted by the attempts of one role. */
  function Counted(attempts: seq<Attempt>, role: Role): nat {
    if attempts == [] then 0
    else
      var last := attempts[|attempts| - 1];
      Counted(attempts[..|attempts| - 1], role) + (if last.role == role then last.decisionRecordCount else 0)
  }

  /** Records and dry runs of each role number what the attempts of that role claim. */
  predicate Conserved(s: State) {
    forall role :: |s.records.Of(role)| == |s.dryRuns.Of(role)| == Counted(s.attempts, role)
  }

  /** The executed episodes are a duplicate-free subsequence of the schedule. */
  predicate InOrder(env: Env, executed: seq<nat>, bound: nat) {
    && (forall j :: 0 <= j < |executed| ==> executed[j] < bound <= |env.schedule|)
    && (forall j, k :: 0 <= j < k < |executed| ==> executed[j] < executed[k])
  }

  /** At the moment the `j`-th executed episode was taken up, the gate asked for its role. */
  predicate AskedFor(env: Env, attempts: seq<Attempt>, executed: seq<nat>, j: nat)
    requires j < |executed| && executed[j] < |env.schedule|
  {
    |env.imports| + j <= |attempts| &&
    var g := env.gate(attempts[..|env.imports| + j]);
    g.Some? && !g.value.satisfied && g.value.possible && g.value.nextRole == Some(env.schedule[executed[j]].role)
  }

  /** The attempts after the imports are those of the executed episodes, in order. */
  predicate Matches(env: Env, attempts: seq<Attempt>, executed: seq<nat>) {
    && |attempts| == |env.imports| + |executed|
    && forall j :: 0 <= j < |executed| && executed[j] < |env.schedule| ==>
         && attempts[|env.imports| + j].role == env.schedule[executed[j]].role
         && attempts[|env.imports| + j].task == env.schedule[executed[j]].task
  }

  predicate AllSound(attempts: seq<Attempt>) {
    forall j :: 0 <= j < |attempts| ==> attempts[j].infrastructureValid && attempts[j].failureBoundary.None?
  }

  predicate Persisted(s: State) {
    s.disk.progress == Some(Running(s.attempts)) && s.disk.report.None?
  }

  predicate Driven(env: Env, attempts: seq<Attempt>, executed: seq<nat>, bound: nat) {
    && InOrder(env, executed, bound)
    && forall j :: 0 <= j < |executed| ==> AskedFor(env, attempts, executed, j)
  }

  /** What one turn does to an invariant and a claim about the end. */
  predicate Turns(env: Env, holds: (State, nat) -> bool, good: Ended -> bool, s: State, i: nat) {
    if i >= |env.schedule| then good(Conclude(env, s))
    else
      match Take(env, s, i)
      case Next(t) => holds(t, i + 1)
      case Break => good(Conclude(env, s))
      case End(d, outcome) => good(Ended(s.(disk := d), outcome))
  }

  /** The proof rule of the collection loop. */
  lemma {:induction false} LoopRule(env: Env, holds: (State, nat) -> bool, good: Ended -> bool, s: State, i: nat)
    requires forall s, i: nat :: holds(s, i) && i <= |env.schedule| ==> Turns(env, holds, good, s, i)
    requires holds(s, i) && i <= |env.schedule|
    ensures good(Loop(env, s, i))
    decreases |env.schedule| - i
  {
    assert Turns(env, holds, good, s, i);
    if i < |env.schedule| && Take(env, s, i).Next? {
      LoopRule(env, holds, good, Take(env, s, i).state, i + 1);
    }
  }

  /** What holds at every loop head. */
  predicate Head(env: Env, s: State, i: nat) {
    && i <= |env.schedule|
    && Persisted(s)
    && Conserved(s)
    && AllSound(s.attempts)
    && Driven(env, s.attempts, s.disk.executed, i)
    && Matches(env, s.attempts, s.disk.executed)
  }

  lemma CountedSnoc(attempts: seq<Attempt>, a: Attempt, role: Role)
    ensures Counted(attempts + [a], role) ==
            Counted(attempts, role) + if a.role == role then a.decisionRecordCount else 0
  {
    assert (attempts + [a])[..|attempts|] == attempts;
  }

  lemma AddConserves(s: State, m: Materialized)
    requires Conserved(s) && |m.records| == |m.dryRuns| == m.attempt.decisionRecordCount
    ensures Conserved(Add(s, m))
  {
    forall role
      ensures |Add(s, m).records.Of(role)| == |Add(s, m).dryRuns.Of(role)| == Counted(Add(s, m).attempts, role)
    {
      assert |s.records.Of(role)| == |s.dryRuns.Of(role)| == Counted(s.attempts, role);
      CountedSnoc(s.attempts, m.attempt, role);
    }
  }

  /** One more episode executed, asked for by the gate over the attempts so far. */
  lemma DrivenSnoc(env: Env, attempts: seq<Attempt>, more: seq<Attempt>, executed: seq<nat>, i: nat)
    requires Driven(env, attempts, executed, i) && i < |env.schedule| && |attempts| == |env.imports| + |executed|
    requires
      var g := env.gate(attempts);
      g.Some? && !g.value.satisfied && g.value.possible && g.value.nextRole == Some(env.schedule[i].role)
    ensures Driven(env, attempts + more, executed + [i], i + 1)
  {
    var all := executed + [i];
    forall j | 0 <= j < |all| ensures all[j] < |env.schedule| && AskedFor(env, attempts + more, all, j) {
      assert (attempts + more)[..|env.imports| + j] == attempts[..|env.imports| + j];
      if j < |executed| {
        assert AskedFor(env, attempts, executed, j);
      } else {
        assert attempts[..|attempts|] == attempts;
      }
    }
  }

  lemma TakeKeeps(env: Env, s: State, i: nat)
    requires Head(env, s, i) && i < |env.schedule|
    ensures Take(env, s, i).Next? ==> Head(env, Take(env, s, i).state, i + 1)
  {
    var turn := Take(env, s, i);
    if turn.Next? && turn.state != s {
      var e, run := env.schedule[i], env.run(i);
      var m := Materialize(env, e, run).value;
      AddConserves(s, m);
      DrivenSnoc(env, s.attempts, [m.attempt], s.disk.executed, i);
      assert turn.state.attempts == s.attempts + [m.attempt];
      assert turn.state.disk.executed == s.disk.executed + [i];
    }
  }

  /** The invalid attempt a failed episode leaves, last of all. */
  predicate EndsInvalid(attempts: seq<Attempt>, before: seq<Attempt>, reason: string) {
    && |attempts| == |before| + 1 && attempts[..|before|] == before
    && !attempts[|before|].infrastructureValid && attempts[|before|].failureBoundary == Some(reason)
  }

  predicate DeniedBy(d: Disk, attempts: seq<Attempt>, reason: string) {
    && d.progress == d.report == Some(Denied(attempts, reason))
    && d.gate.Some? && !d.gate.value.satisfied && !d.gate.value.possible && d.gate.value.nextRole.None?
    && d.gate.value.stopReason == Some(reason) && d.gate.value.attemptCount == |attempts|
  }

  predicate AllowsGpu(r: Option<Report>) { r.Some? && r.value.gpuSubmissionAllowed == Some(true) }

  /** No report, and nothing that allows GPU submission. */
  predicate NothingAllowed(d: Disk) { d.report.None? && !AllowsGpu(d.progress) }

  predicate GateHolds(env: Env, attempts: seq<Attempt>) {
    env.gate(attempts).Some? && env.gate(attempts).value.satisfied
  }

  /** What every exit leaves. */
  predicate Exit(env: Env, r: Ended) {
    var s, d := r.state, r.state.disk;
    && Conserved(s) && AllSound(s.attempts)
    && Driven(env, s.attempts, d.executed, |env.schedule|)
    && match r.outcome
       case Completed =>
         && GateHolds(env, s.attempts)
         && d.progress == d.report == Some(Allowed(s.attempts)) && Matches(env, s.attempts, d.executed)
       case StoppedClosed(reason) =>
         || DeniedBy(d, s.attempts, reason)
         || (&& d.report.Some? && EndsInvalid(d.report.value.attempts, s.attempts, reason)
             && DeniedBy(d, d.report.value.attempts, reason))
       case ImportRejected => false
       case ConclusionUnwritten => d.report.None? && (AllowsGpu(d.progress) ==> GateHolds(env, s.attempts))
       case _ => NothingAllowed(d)
  }

  /** How a stop ends: closed, with gate and reports denying, exactly when the gate answers and
      all three of its writes succeed; otherwise no report is left and nothing is allowed. */
  lemma StopMeaning(env: Env, d: Disk, attempts: seq<Attempt>, reason: string)
    requires NothingAllowed(d)
    ensures
      var stopped := Stop(env, d, attempts, reason);
      && stopped.0.executed == d.executed && stopped.0.recordFiles == d.recordFiles
      && if env.gate(attempts).Some? && env.stopWrites >= 3 then
           stopped.1 == StoppedClosed(reason) && DeniedBy(stopped.0, attempts, reason)
         else
           (stopped.1.StopLost? || stopped.1.StopUnwritten?) && NothingAllowed(stopped.0)
  {
  }

  /** The stage an attempted episode fails at, if it does. */
  function FailedStage(env: Env, s: State, i: nat): Option<Stage>
    requires i < |env.schedule|
  {
    var e, run := env.schedule[i], env.run(i);
    if run.RunRaised? || Materialize(env, e, run).None? then Some(EpisodeExecution)
    else if Materialize(env, e, run).value.records != [] && !run.recordsWritten then Some(RecordPersistence)
    else if !run.progressWritten then Some(ProgressPersistence)
    else if env.gate(s.attempts + [Materialize(env, e, run).value.attempt]).None? || !run.gateWritten
    then Some(GatePersistence)
    else None
  }

  /** The attempts a stop reports after a failure at a stage. */
  function WithInvalid(env: Env, s: State, i: nat, stage: Stage): seq<Attempt>
    requires i < |env.schedule|
  {
    s.attempts + [InvalidAttempt(env.schedule[i], env.reason(stage))]
  }

  /** A failed episode stops the campaign with its invalid attempt last, in a persisted report
      and gate that deny submission, exactly when the gate answers on those attempts and every
      write of the stop succeeds; and otherwise nothing is reported and nothing allowed. */
  lemma EpisodeFailure(env: Env, s: State, i: nat, stage: Stage)
    requires Head(env, s, i) && i < |env.schedule| && FailedStage(env, s, i) == Some(stage)
    ensures
      var turn, attempts := Attempted(env, s, i), WithInvalid(env, s, i, stage);
      && turn.End? && turn.disk.executed == s.disk.executed + [i]
      && EndsInvalid(attempts, s.attempts, env.reason(stage))
      && if env.gate(attempts).Some? && env.stopWrites >= 3 then
           turn.outcome == StoppedClosed(env.reason(stage)) && DeniedBy(turn.disk, attempts, env.reason(stage))
         else
           (turn.outcome.StopLost? || turn.outcome.StopUnwritten?) && NothingAllowed(turn.disk)
  {
    var e, run := env.schedule[i], env.run(i);
    var reason, attempts := env.reason(stage), WithInvalid(env, s, i, stage);
    assert attempts[..|s.attempts|] == s.attempts;
    var d := s.disk.(executed := s.disk.executed + [i]);
    var m := if run.Ran? then Materialize(env, e, run) else None;
    var filed :=
      if m.Some? && m.value.records != [] then d.(recordFiles := d.recordFiles[e.task := m.value.records]) else d;
    StopMeaning(env, d, attempts, reason);
    StopMeaning(env, filed, attempts, reason);
    if m.Some? {
      StopMeaning(env, filed.(progress := Some(Running(s.attempts + [m.value.attempt]))), attempts, reason);
    }
  }

  /** An attempted episode that fails at no stage goes on. */
  lemma EpisodeGoesOn(env: Env, s: State, i: nat)
    requires i < |env.schedule|
    ensures Attempted(env, s, i).Next? <==> FailedStage(env, s, i).None?
    ensures !Attempted(env, s, i).Break?
  {
  }

  lemma WidenDriven(env: Env, attempts: seq<Attempt>, executed: seq<nat>, i: nat)
    requires i <= |env.schedule|
    ensures Driven(env, attempts, executed, i) ==> Driven(env, attempts, executed, |env.schedule|)
  {
  }

  lemma EndExits(env: Env, s: State, i: nat)
    requires Head(env, s, i) && i < |env.schedule|
    requires Take(env, s, i).End?
    ensures Exit(env, Ended(s.(disk := Take(env, s, i).disk), Take(env, s, i).outcome))
  {
    var g := env.gate(s.attempts);
    WidenDriven(env, s.attempts, s.disk.executed, i);
    if g.Some? && !g.value.satisfied && !g.value.possible { StopMeaning(env, s.disk, s.attempts, g.value.reason); }
    if g.Some? && !g.value.satisfied && g.value.possible {
      EpisodeGoesOn(env, s, i);
      EpisodeFailure(env, s, i, FailedStage(env, s, i).value);
      DrivenSnoc(env, s.attempts, [], s.disk.executed, i);
      assert s.attempts + [] == s.attempts;
      WidenDriven(env, s.attempts, s.disk.executed + [i], i + 1);
    }
  }

  lemma ConcludeExits(env: Env, s: State, i: nat)
    requires Head(env, s, i)
    ensures Exit(env, Conclude(env, s))
  {
    WidenDriven(env, s.attempts, s.disk.executed, i);
    var g := env.gate(s.attempts);
    if g.Some? && env.finalGateWritten && !g.value.satisfied {
      StopMeaning(env, s.disk.(gate := Some(GateOf(g.value, s.attempts))), s.attempts, g.value.reason);
    }
  }

  lemma LoopExits(env: Env, s: State, i: nat)
    requires Head(env, s, i)
    ensures Exit(env, Loop(env, s, i))
  {
    var holds, good := (s: State, i: nat) => Head(env, s, i), (r: Ended) => Exit(env, r);
    forall s, i: nat | holds(s, i) && i <= |env.schedule| ensures Turns(env, holds, good, s, i) {
      if i == |env.schedule| || Take(env, s, i).Break? {
        ConcludeExits(env, s, i);
      } else if Take(env, s, i).End? {
        EndExits(env, s, i);
      } else {
        TakeKeeps(env, s, i);
      }
    }
    LoopRule(env, holds, good, s, i);
  }

  /** Imports alone: as many attempts as imports, conserved and sound. */
  predicate OnlyImports(s: State, k: nat) {
    && |s.attempts| == k && Conserved(s) && AllSound(s.attempts)
    && s.disk.report.None? && s.disk.executed == []
  }

  lemma {:induction false} ImportKeeps(env: Env, s: State, k: nat)
    requires k <= |env.imports| && OnlyImports(s, k)
    ensures Import(env, s, k).Some? ==> OnlyImports(Import(env, s, k).value, |env.imports|)
    decreases |env.imports| - k
  {
    if k < |env.imports| && Imported(env, env.imports[k].0, env.imports[k].1).Some? {
      var m := Imported(env, env.imports[k].0, env.imports[k].1).value;
      AddConserves(s, m);
      var t := Add(s, m);
      ImportKeeps(env, t.(disk := t.disk.(recordFiles := t.disk.recordFiles[env.imports[k].0 := m.records])), k + 1);
    }
  }

  /** The first loop head. */
  lemma OpeningHead(env: Env)
    requires Opening(env).Some?
    ensures Head(env, Opening(env).value, 0)
  {
    ImportKeeps(env, NOTHING, 0);
  }

  lemma UnpreparedExits(env: Env, s: State)
    requires Head(env, s, 0)
    ensures Exit(env, Unprepared(env, s))
  {
    StopMeaning(env, s.disk, s.attempts, "zero_call_preflight");
    WidenDriven(env, s.attempts, s.disk.executed, 0);
  }

  /** On every exit: records are conserved; the episodes executed are a duplicate-free
      subsequence of the schedule, each in the role the gate asked for at that moment; and
      what is persisted fits how the campaign ended. */
  lemma CollectionExits(env: Env)
    ensures Collected(env).outcome.ImportRejected? <==> Opening(env).None?
    ensures Opening(env).Some? ==> Exit(env, Collected(env))
  {
    if Opening(env).Some? {
      OpeningHead(env);
      if env.preflight {
        LoopExits(env, Opening(env).value, 0);
      } else {
        UnpreparedExits(env, Opening(env).value);
      }
    }
  }

  /** The persisted report allows GPU submission if and only if the collection completed, and
      then the gate holds on the attempts it reports; the progress file allows it besides only
      when the write of the report after it raised. */
  lemma AllowedIffCompleted(env: Env)
    ensures
      var r := Collected(env);
      && (AllowsGpu(r.state.disk.report) <==> r.outcome.Completed?)
      && (AllowsGpu(r.state.disk.report) ==>
            var attempts := r.state.disk.report.value.attempts;
            GateHolds(env, attempts) && AllSound(attempts))
      && (AllowsGpu(r.state.disk.progress) ==> r.outcome.Completed? || r.outcome.ConclusionUnwritten?)
  {
    CollectionExits(env);
  }

  /* ---- failures that go unreported ---- */

  /** One scheduled episode, which raises; the gate asks for it, and answers after it or not. */
  function OneFailure(answers: bool, stopWrites: nat): Env {
    var wanted := Some(Gate(false, true, Some(Training), "continue_training"));
    Env((attempts: seq<Attempt>) => if attempts == [] || answers then wanted else None,
        [], [Episode(Training, TaskId("only"))], i => RunRaised, r => DryRun("", false),
        true, true, stopWrites, true, 2, stage => "episode_execution")
  }

  /** The first episode's failure, from the opening state. */
  function FailedAtOnce(env: Env): Ended
    requires env.schedule != []
  {
    var s := NOTHING.(disk := NOTHING.disk.(progress := Some(Running([]))));
    var turn := Fail(env, s, s.disk.(executed := [0]), env.schedule[0], EpisodeExecution);
    if turn.End? then Ended(s.(disk := turn.disk), turn.outcome) else Ended(s, Completed)
  }

  lemma OneFailureRuns(answers: bool, stopWrites: nat)
    ensures Collected(OneFailure(answers, stopWrites)) == FailedAtOnce(OneFailure(answers, stopWrites))
  {
    var env := OneFailure(answers, stopWrites);
    var s := Opening(env).value;
    assert s == NOTHING.(disk := NOTHING.disk.(progress := Some(Running([]))));
    assert Take(env, s, 0) == Attempted(env, s, 0);
  }

  /** A failed episode goes unreported when the gate raises on its invalid attempt, and also when
      the gate answers but a write of the stop raises. */
  lemma FailureUnreported(stopWrites: nat)
    ensures
      var r := Collected(OneFailure(false, stopWrites));
      r.outcome.StopLost? && NothingAllowed(r.state.disk)
    ensures
      var r := Collected(OneFailure(true, stopWrites));
      stopWrites < 3 ==> r.outcome.StopUnwritten? && NothingAllowed(r.state.disk)
  {
    OneFailureRuns(false, stopWrites);
    OneFailureRuns(true, stopWrites);
    var s := NOTHING.(disk := NOTHING.disk.(progress := Some(Running([]))));
    var attempts := [InvalidAttempt(Episode(Training, TaskId("only")), "episode_execution")];
    assert s.attempts + attempts == attempts;
    StopMeaning(OneFailure(false, stopWrites), s.disk.(executed := [0]), attempts, "episode_execution");
    StopMeaning(OneFailure(true, stopWrites), s.disk.(executed := [0]), attempts, "episode_execution");
  }
}

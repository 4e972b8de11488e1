/** The collection driven by the real gate: the gate never raises on attempts the collector
    makes, so every collection ends completed, stopped closed, or refused at its inputs; and a
    completed one holds exactly the targets. */
module GateDrivenRuns {
  import opened Wrappers
  import opened GatedCollection
  import opened CollectionGate
  import opened GatedProperties

  /** The tasks of one role with an eligible attempt. */
  function Passed(attempts: seq<Attempt>, role: Role): set<TaskId> {
    set a | a in attempts && a.role == role && a.eligible :: a.task
  }

  function Max(a: nat, b: nat): nat { if a < b then b else a }

  /** How far validation has come at schedule position `i`. */
  function Validated(plan: Plan, i: nat): nat {
    if i <= |plan.trainingOrder| then 0 else i - |plan.trainingOrder|
  }

  /** Neither target is overshot, except by imports alone. */
  predicate Within(plan: Plan, t: Tally) {
    && |t.passedTraining| <= Max(plan.trainingTarget, |plan.imported|)
    && |t.passedValidation| <= plan.validationTarget
  }

  /** What the gate has counted at schedule position `i`, after `n` of the training tasks:
      training stopped early only because its target was reached. */
  predicate Course(plan: Plan, t: Tally, i: nat, n: nat) {
    && i <= |plan.trainingOrder| + |plan.validationOrder|
    && Followed(plan, t, n, Validated(plan, i))
    && ((i <= |plan.trainingOrder| && n == i) || |t.passedTraining| >= plan.trainingTarget)
    && Within(plan, t)
  }

  /** The attempts whose walk is on course. */
  predicate OnCourse(plan: Plan, attempts: seq<Attempt>, i: nat, n: nat) {
    && |attempts| >= |plan.imported| && WalkOf(plan, attempts).Walked?
    && Course(plan, WalkOf(plan, attempts).tally, i, n)
  }

  ghost predicate SomewhereOnCourse(plan: Plan, attempts: seq<Attempt>, i: nat) {
    exists n: nat :: OnCourse(plan, attempts, i, n)
  }

  lemma WalkSnoc(plan: Plan, attempts: seq<Attempt>, a: Attempt)
    ensures WalkOf(plan, attempts + [a]) == Step(plan, WalkOf(plan, attempts), |attempts|, a)
  {
    assert (attempts + [a])[..|attempts|] == attempts;
  }

  lemma PassedSnoc(attempts: seq<Attempt>, a: Attempt, role: Role)
    ensures Passed(attempts + [a], role) ==
            Passed(attempts, role) + if a.role == role && a.eligible then {a.task} else {}
  {
  }

  /** What a step of the walk does to the two passed sets. */
  predicate Credits(w: Walk, u: Walk, a: Attempt) {
    u.Walked? ==>
      && w.Walked?
      && u.tally.passedTraining ==
         (if a.role.Training? && a.eligible then w.tally.passedTraining + {a.task} else w.tally.passedTraining)
      && u.tally.passedValidation ==
         (if a.role.Validation? && a.eligible then w.tally.passedValidation + {a.task} else w.tally.passedValidation)
  }

  lemma StepCredits(plan: Plan, w: Walk, position: nat, a: Attempt)
    ensures Credits(w, Step(plan, w, position, a), a)
  {
    if Step(plan, w, position, a).Walked? {
      assert Step(plan, w, position, a).tally == Credit(Attend(w.tally, a), a);
    }
  }

  /** The walk's passed sets are the eligible tasks of the attempts walked. */
  predicate CountsPassed(w: Walk, attempts: seq<Attempt>) {
    w.Walked? ==>
      w.tally.passedTraining == Passed(attempts, Training) && w.tally.passedValidation == Passed(attempts, Validation)
  }

  lemma CreditsCount(w: Walk, u: Walk, attempts: seq<Attempt>, a: Attempt)
    requires CountsPassed(w, attempts) && Credits(w, u, a)
    ensures CountsPassed(u, attempts + [a])
  {
    PassedSnoc(attempts, a, Training);
    PassedSnoc(attempts, a, Validation);
  }

  /** The sets the gate counts are the eligible tasks of each role. */
  lemma {:induction false} WalkedPasses(plan: Plan, attempts: seq<Attempt>)
    ensures CountsPassed(WalkOf(plan, attempts), attempts)
  {
    if attempts != [] {
      var init, a := attempts[..|attempts| - 1], attempts[|attempts| - 1];
      assert attempts == init + [a];
      WalkedPasses(plan, init);
      StepCredits(plan, WalkOf(plan, init), |init|, a);
      CreditsCount(WalkOf(plan, init), WalkOf(plan, attempts), init, a);
    }
  }

  predicate Asked(plan: Plan, t: Tally, role: Role) {
    var g := Judgement(plan, t);
    !g.satisfied && g.possible && g.nextRole == Some(role)
  }

  lemma CreditWithin(plan: Plan, t: Tally, a: Attempt)
    requires Within(plan, t) && Asked(plan, t, a.role)
    ensures Within(plan, Credit(Attend(t, a), a))
    ensures |t.passedTraining| >= plan.trainingTarget ==>
              |Credit(Attend(t, a), a).passedTraining| >= plan.trainingTarget
  {
  }

  lemma ScheduledAt(plan: Plan, i: nat)
    requires i < |Scheduled(plan)|
    ensures
      var t := |plan.trainingOrder|;
      Scheduled(plan)[i] ==
      if i < t then Episode(Training, plan.trainingOrder[i]) else Episode(Validation, plan.validationOrder[i - t])
  {
  }

  /** An attempt the gate asked for: the gate finds it in order, clean or not. */
  lemma AskedIsOrderly(plan: Plan, t: Tally, position: nat, i: nat, n: nat, a: Attempt)
    requires DistinctPlan(plan)
    requires Course(plan, t, i, n) && i < |plan.trainingOrder| + |plan.validationOrder| && position >= |plan.imported|
    requires
      if i < |plan.trainingOrder| then a.role.Training? && a.task == plan.trainingOrder[i]
      else a.role.Validation? && a.task == plan.validationOrder[i - |plan.trainingOrder|]
    requires Asked(plan, t, a.role)
    ensures Orderly(plan, t, position, a)
    ensures Course(plan, Credit(Attend(t, a), a), i + 1, if a.role.Training? then n + 1 else n)
  {
    CreditWithin(plan, t, a);
    if a.role.Training? {
      NextTraining(plan, t, n, position, a);
    } else {
      NextValidation(plan, t, n, Validated(plan, i), position, a);
    }
  }

  /** All training tasks attempted and the target not reached: nothing is possible any more. */
  lemma TrainingExhausted(plan: Plan, t: Tally)
    requires Followed(plan, t, |plan.trainingOrder|, 0) && |t.passedTraining| < plan.trainingTarget
    ensures !Judgement(plan, t).possible
  {
    assert TaskSet(plan.trainingOrder) - t.attemptedTraining == {};
  }

  /** A position the gate passes over belongs to training, whose target is reached. */
  lemma SkippedIsTraining(plan: Plan, t: Tally, i: nat, n: nat)
    requires Course(plan, t, i, n) && i < |Scheduled(plan)|
    requires
      var g := Judgement(plan, t);
      !g.satisfied && g.possible && g.nextRole != Some(Scheduled(plan)[i].role)
    ensures Scheduled(plan)[i].role.Training? && Course(plan, t, i + 1, n)
  {
    if |t.passedTraining| < plan.trainingTarget && i == |plan.trainingOrder| {
      TrainingExhausted(plan, t);
    }
  }

  /** The gate answers on the attempts so far and one more that it asked for. */
  lemma AskedAnswers(plan: Plan, attempts: seq<Attempt>, i: nat, n: nat, a: Attempt)
    requires DistinctPlan(plan)
    requires OnCourse(plan, attempts, i, n) && i < |Scheduled(plan)|
    requires a.role == Scheduled(plan)[i].role && a.task == Scheduled(plan)[i].task
    requires Asked(plan, WalkOf(plan, attempts).tally, a.role)
    requires a.eligible ==> a.resolved && a.freshTrajectory
    ensures Evaluation(plan, attempts + [a]).Some?
    ensures !Unclean(a) ==> OnCourse(plan, attempts + [a], i + 1, if a.role.Training? then n + 1 else n)
  {
    ScheduledAt(plan, i);
    AskedIsOrderly(plan, WalkOf(plan, attempts).tally, |attempts|, i, n, a);
    WalkSnoc(plan, attempts, a);
  }

  predicate Stopped(outcome: Outcome) { outcome.StoppedClosed? || outcome.StopUnwritten? }

  /** Every ending but the two in which the gate raises. */
  predicate Settled(outcome: Outcome) {
    outcome.Completed? || Stopped(outcome) || outcome.DatasetFailed? || outcome.ConclusionUnwritten?
  }

  lemma FailStops(env: Env, s: State, d: Disk, e: Episode, stage: Stage)
    requires env.gate(s.attempts + [InvalidAttempt(e, env.reason(stage))]).Some?
    ensures Fail(env, s, d, e, stage).End? && Stopped(Fail(env, s, d, e, stage).outcome)
  {
  }

  lemma FailSettles(env: Env, plan: Plan, s: State, i: nat, n: nat, d: Disk, stage: Stage)
    requires Planned(env, plan) && OnCourse(plan, s.attempts, i, n) && i < |env.schedule|
    requires Asked(plan, WalkOf(plan, s.attempts).tally, env.schedule[i].role)
    ensures Fail(env, s, d, env.schedule[i], stage).End? && Stopped(Fail(env, s, d, env.schedule[i], stage).outcome)
  {
    var a := InvalidAttempt(env.schedule[i], env.reason(stage));
    AskedAnswers(plan, s.attempts, i, n, a);
    assert env.gate(s.attempts + [a]) == Evaluation(plan, s.attempts + [a]);
    FailStops(env, s, d, env.schedule[i], stage);
  }

  /** An attempted episode either fails at a stage or adds one materialised attempt. */
  lemma AttemptedShape(env: Env, s: State, i: nat) returns (failed: bool, d: Disk, stage: Stage)
    requires i < |env.schedule|
    ensures
      var e, run, turn := env.schedule[i], env.run(i), Attempted(env, s, i);
      if failed then turn == Fail(env, s, d, e, stage)
      else
        turn.Next? && run.Ran? && Materialize(env, e, run).Some? &&
        turn.state.attempts == s.attempts + [Materialize(env, e, run).value.attempt]
  {
    var e, run := env.schedule[i], env.run(i);
    d, stage := s.disk.(executed := s.disk.executed + [i]), EpisodeExecution;
    if run.RunRaised? || Materialize(env, e, run).None? { return true, d, stage; }
    var m := Materialize(env, e, run).value;
    if m.records != [] && !run.recordsWritten { return true, d, RecordPersistence; }
    if m.records != [] { d := d.(recordFiles := d.recordFiles[e.task := m.records]); }
    if !run.progressWritten { return true, d, ProgressPersistence; }
    d, stage := d.(progress := Some(Running(s.attempts + [m.attempt]))), GatePersistence;
    return env.gate(s.attempts + [m.attempt]).None? || !run.gateWritten, d, stage;
  }

  /** A materialised attempt is of its episode, clean, and eligible only with verifier proof. */
  lemma MaterializedFits(env: Env, e: Episode, run: Run)
    requires run.Ran? && Materialize(env, e, run).Some?
    ensures
      var a := Materialize(env, e, run).value.attempt;
      a.role == e.role && a.task == e.task && !Unclean(a) && (a.eligible ==> a.resolved && a.freshTrajectory)
  {
  }

  lemma AttemptedOnCourse(env: Env, plan: Plan, s: State, i: nat, n: nat)
    requires Planned(env, plan) && OnCourse(plan, s.attempts, i, n) && i < |env.schedule|
    requires Asked(plan, WalkOf(plan, s.attempts).tally, env.schedule[i].role)
    ensures
      var turn := Attempted(env, s, i);
      && (turn.Next? ==>
            OnCourse(plan, turn.state.attempts, i + 1, if env.schedule[i].role.Training? then n + 1 else n))
      && (turn.End? ==> Stopped(turn.outcome))
      && !turn.Break?
  {
    var failed, d, stage := AttemptedShape(env, s, i);
    if failed {
      FailSettles(env, plan, s, i, n, d, stage);
    } else {
      var a := Materialize(env, env.schedule[i], env.run(i)).value.attempt;
      MaterializedFits(env, env.schedule[i], env.run(i));
      AskedAnswers(plan, s.attempts, i, n, a);
    }
  }

  /** The gate answers on attempts that are on course. */
  lemma GateAnswers(env: Env, plan: Plan, attempts: seq<Attempt>, i: nat)
    requires Planned(env, plan) && SomewhereOnCourse(plan, attempts, i)
    ensures WalkOf(plan, attempts).Walked? && env.gate(attempts) == Some(Judgement(plan, WalkOf(plan, attempts).tally))
  {
    assert env.gate(attempts) == Evaluation(plan, attempts);
  }

  /** The four ways a turn goes once the gate has answered. */
  lemma TakeSplits(env: Env, s: State, i: nat)
    requires i < |env.schedule| && env.gate(s.attempts).Some?
    ensures
      var g, turn := env.gate(s.attempts).value, Take(env, s, i);
      if g.satisfied then turn.Break?
      else if !g.possible then turn.End? && Stopped(turn.outcome)
      else if g.nextRole != Some(env.schedule[i].role) then turn == Next(s)
      else turn == Attempted(env, s, i)
  {
  }

  /** A turn keeps on course, or ends by a stop. */
  ghost predicate TurnOnCourse(plan: Plan, turn: Turn, i: nat) {
    match turn
    case Next(t) => SomewhereOnCourse(plan, t.attempts, i)
    case Break => true
    case End(_, outcome) => Stopped(outcome)
  }

  lemma AskedOnCourse(env: Env, plan: Plan, s: State, i: nat, n: nat)
    requires Planned(env, plan) && OnCourse(plan, s.attempts, i, n) && i < |env.schedule|
    requires Asked(plan, WalkOf(plan, s.attempts).tally, env.schedule[i].role)
    ensures TurnOnCourse(plan, Attempted(env, s, i), i + 1)
  {
    AttemptedOnCourse(env, plan, s, i, n);
  }

  lemma SkippedOnCourse(plan: Plan, attempts: seq<Attempt>, i: nat, n: nat)
    requires OnCourse(plan, attempts, i, n) && i < |Scheduled(plan)|
    requires
      var g := Judgement(plan, WalkOf(plan, attempts).tally);
      !g.satisfied && g.possible && g.nextRole != Some(Scheduled(plan)[i].role)
    ensures SomewhereOnCourse(plan, attempts, i + 1)
  {
    SkippedIsTraining(plan, WalkOf(plan, attempts).tally, i, n);
    assert OnCourse(plan, attempts, i + 1, n);
  }

  /** One turn of the loop keeps on course, or ends by a stop. */
  lemma TakeOnCourse(env: Env, plan: Plan, s: State, i: nat)
    requires Planned(env, plan) && SomewhereOnCourse(plan, s.attempts, i) && i < |env.schedule|
    ensures TurnOnCourse(plan, Take(env, s, i), i + 1)
  {
    var n: nat :| OnCourse(plan, s.attempts, i, n);
    GateAnswers(env, plan, s.attempts, i);
    TakeSplits(env, s, i);
    var g := env.gate(s.attempts).value;
    if !g.satisfied && g.possible {
      if g.nextRole == Some(env.schedule[i].role) {
        AskedOnCourse(env, plan, s, i, n);
      } else {
        SkippedOnCourse(plan, s.attempts, i, n);
      }
    }
  }

  /** The final attempts of a collection that was not stopped. */
  predicate Reached(plan: Plan, attempts: seq<Attempt>) {
    WalkOf(plan, attempts).Walked? &&
    var t := WalkOf(plan, attempts).tally;
    Within(plan, t) && |t.passedTraining| >= plan.trainingTarget && |t.passedValidation| >= plan.validationTarget
  }

  predicate SettledRun(plan: Plan, r: Ended) {
    Settled(r.outcome) && (r.outcome.Completed? || r.outcome.DatasetFailed? ==> Reached(plan, r.state.attempts))
  }

  lemma ConcludeByGate(env: Env, s: State)
    requires env.gate(s.attempts).Some?
    ensures
      var g, r := env.gate(s.attempts).value, Conclude(env, s);
      && r.state.attempts == s.attempts && Settled(r.outcome)
      && (r.outcome.Completed? || r.outcome.DatasetFailed? ==> g.satisfied)
  {
  }

  lemma ConcludeSettles(env: Env, plan: Plan, s: State, i: nat)
    requires Planned(env, plan) && SomewhereOnCourse(plan, s.attempts, i)
    ensures SettledRun(plan, Conclude(env, s))
  {
    assert Evaluation(plan, s.attempts) == Some(Judgement(plan, WalkOf(plan, s.attempts).tally));
    ConcludeByGate(env, s);
  }

  /** What follows a turn, for an invariant and a claim about the end. */
  predicate After(turn: Turn, end: Ended, s: State, next: nat, holds: (State, nat) -> bool, good: Ended -> bool) {
    match turn
    case Next(t) => holds(t, next)
    case Break => good(end)
    case End(d, outcome) => good(Ended(s.(disk := d), outcome))
  }

  lemma AfterTurns(env: Env, holds: (State, nat) -> bool, good: Ended -> bool, s: State, i: nat)
    requires i < |env.schedule| && After(Take(env, s, i), Conclude(env, s), s, i + 1, holds, good)
    ensures Turns(env, holds, good, s, i)
  {
  }

  lemma FineAfter(
    plan: Plan, turn: Turn, end: Ended, s: State, next: nat, onCourse: (State, nat) -> bool, good: Ended -> bool)
    requires TurnOnCourse(plan, turn, next) && (turn.Break? ==> good(end))
    requires
      forall t: State {:trigger onCourse(t, next)} :: SomewhereOnCourse(plan, t.attempts, next) ==> onCourse(t, next)
    requires forall r: Ended {:trigger good(r)} :: SettledRun(plan, r) ==> good(r)
    ensures After(turn, end, s, next, onCourse, good)
  {
    if turn.End? { assert SettledRun(plan, Ended(s.(disk := turn.disk), turn.outcome)); }
  }

  lemma TurnSettles(env: Env, plan: Plan, s: State, i: nat, holds: (State, nat) -> bool, good: Ended -> bool)
    requires Planned(env, plan) && SomewhereOnCourse(plan, s.attempts, i) && i <= |env.schedule|
    requires forall t: State, j: nat {:trigger holds(t, j)} :: SomewhereOnCourse(plan, t.attempts, j) ==> holds(t, j)
    requires forall r: Ended {:trigger good(r)} :: SettledRun(plan, r) ==> good(r)
    ensures Turns(env, holds, good, s, i)
  {
    ConcludeSettles(env, plan, s, i);
    assert good(Conclude(env, s));
    if i < |env.schedule| {
      TakeOnCourse(env, plan, s, i);
      FineAfter(plan, Take(env, s, i), Conclude(env, s), s, i + 1, holds, good);
      AfterTurns(env, holds, good, s, i);
    }
  }

  lemma LoopSettles(env: Env, plan: Plan, s: State, i: nat)
    requires Planned(env, plan) && SomewhereOnCourse(plan, s.attempts, i) && i <= |env.schedule|
    ensures SettledRun(plan, Loop(env, s, i))
  {
    ghost var holds := (t: State, j: nat) => SomewhereOnCourse(plan, t.attempts, j);
    ghost var good := (r: Ended) => SettledRun(plan, r);
    forall t, j: nat | holds(t, j) && j <= |env.schedule| ensures Turns(env, holds, good, t, j) {
      TurnSettles(env, plan, t, j, holds, good);
    }
    LoopRule(env, holds, good, s, i);
  }

  /** The first `k` imports as the gate counts them. */
  predicate ImportedSoFar(plan: Plan, attempts: seq<Attempt>, k: nat) {
    && k <= |plan.imported| && |attempts| == k && WalkOf(plan, attempts).Walked?
    && var t := WalkOf(plan, attempts).tally;
    && t.seen == t.attemptedTraining && |t.seen| == k && Ahead(t, plan.imported, k)
    && Ahead(t, plan.trainingOrder, 0) && Ahead(t, plan.validationOrder, 0)
    && t.attemptedValidation == {} && t.passedValidation == {} && |t.passedTraining| <= k
  }

  /** One more task seen, none of those ahead. */
  lemma StaysAhead(t: Tally, u: Tally, tasks: seq<TaskId>, from: nat, to: nat, x: TaskId)
    requires Ahead(t, tasks, from) && u.seen == t.seen + {x} && from <= to
    requires forall k :: to <= k < |tasks| ==> tasks[k] != x
    ensures Ahead(u, tasks, to)
  {
  }

  lemma ImportedNext(plan: Plan, attempts: seq<Attempt>, k: nat, a: Attempt)
    requires DistinctPlan(plan)
    requires ImportedSoFar(plan, attempts, k) && k < |plan.imported|
    requires a.task == plan.imported[k] && a.role.Training? && !Unclean(a) && a.resolved && a.freshTrajectory
    ensures ImportedSoFar(plan, attempts + [a], k + 1)
  {
    var t := WalkOf(plan, attempts).tally;
    var u := Credit(Attend(t, a), a);
    assert a.task !in t.seen && Known(plan, a.task);
    assert Orderly(plan, t, k, a);
    StaysAhead(t, u, plan.imported, k, k + 1, a.task);
    StaysAhead(t, u, plan.trainingOrder, 0, 0, a.task);
    StaysAhead(t, u, plan.validationOrder, 0, 0, a.task);
    WalkSnoc(plan, attempts, a);
    assert WalkOf(plan, attempts + [a]) == Walked(Credit(Attend(WalkOf(plan, attempts).tally, a), a));
  }

  lemma {:induction false} ImportOnCourse(env: Env, plan: Plan, s: State, k: nat)
    requires Planned(env, plan) && ImportedSoFar(plan, s.attempts, k)
    ensures Import(env, s, k).Some? ==> OnCourse(plan, Import(env, s, k).value.attempts, 0, 0)
    decreases |env.imports| - k
  {
    if k == |env.imports| {
    } else if Imported(env, env.imports[k].0, env.imports[k].1).Some? {
      var m := Imported(env, env.imports[k].0, env.imports[k].1).value;
      ImportedNext(plan, s.attempts, k, m.attempt);
      var t := Add(s, m);
      var filed := t.disk.(recordFiles := t.disk.recordFiles[env.imports[k].0 := m.records]);
      ImportOnCourse(env, plan, t.(disk := filed), k + 1);
    }
  }

  predicate WritesBlamed(env: Env, outcome: Outcome) {
    && (outcome.StopUnwritten? ==> env.stopWrites < 3)
    && (outcome.ConclusionUnwritten? ==> !env.finalGateWritten || env.finalWrites < 2)
  }

  /** A write is blamed only when one of them raised. */
  lemma UnwrittenMeans(env: Env)
    ensures WritesBlamed(env, Collected(env).outcome)
  {
    if Opening(env).Some? && env.preflight {
      var holds, good := (s: State, i: nat) => true, (r: Ended) => WritesBlamed(env, r.outcome);
      forall s, i: nat | holds(s, i) && i <= |env.schedule| ensures Turns(env, holds, good, s, i) {
        if i < |env.schedule| { var failed, d, stage := AttemptedShape(env, s, i); }
      }
      LoopRule(env, holds, good, Opening(env).value, 0);
    }
  }

  lemma OpeningOnCourse(env: Env, plan: Plan)
    requires Planned(env, plan) && Opening(env).Some?
    ensures SomewhereOnCourse(plan, Opening(env).value.attempts, 0)
  {
    ImportOnCourse(env, plan, NOTHING, 0);
    assert OnCourse(plan, Opening(env).value.attempts, 0, 0);
  }

  lemma UnpreparedStops(env: Env, s: State)
    requires env.gate(s.attempts).Some?
    ensures Stopped(Unprepared(env, s).outcome)
  {
  }

  lemma UnpreparedSettles(env: Env, plan: Plan, s: State)
    requires Planned(env, plan) && SomewhereOnCourse(plan, s.attempts, 0)
    ensures SettledRun(plan, Unprepared(env, s))
  {
    GateAnswers(env, plan, s.attempts, 0);
    UnpreparedStops(env, s);
  }

  lemma CollectionSettles(env: Env, plan: Plan)
    requires Planned(env, plan) && Opening(env).Some?
    ensures SettledRun(plan, Collected(env))
  {
    var s := Opening(env).value;
    OpeningOnCourse(env, plan);
    assert Collected(env) == From(env, s);
    if env.preflight {
      LoopSettles(env, plan, s, 0);
    } else {
      UnpreparedSettles(env, plan, s);
    }
  }

  lemma ReachedCounts(plan: Plan, attempts: seq<Attempt>)
    requires Reached(plan, attempts)
    ensures plan.trainingTarget <= |Passed(attempts, Training)| <= Max(plan.trainingTarget, |plan.imported|)
    ensures |Passed(attempts, Validation)| == plan.validationTarget
  {
    WalkedPasses(plan, attempts);
  }

  /** With the real gate and the plan's own imports and schedule, whatever the episodes and the
      writes do: the gate never raises, so the collection completes, stops, rejects an import,
      fails writing its datasets, or is cut short by a write of its stop or its conclusion that
      raised. A completed one has reached both targets with distinct eligible tasks, and went
      past neither. */
  lemma RealGateNeverRaises(env: Env, plan: Plan)
    requires Planned(env, plan)
    ensures
      var r := Collected(env);
      && (Settled(r.outcome) || r.outcome.ImportRejected?)
      && (r.outcome.StopUnwritten? ==> env.stopWrites < 3)
      && (r.outcome.ConclusionUnwritten? ==> !env.finalGateWritten || env.finalWrites < 2)
      && (r.outcome.Completed? ==>
            && plan.trainingTarget <= |Passed(r.state.attempts, Training)| <= Max(plan.trainingTarget, |plan.imported|)
            && |Passed(r.state.attempts, Validation)| == plan.validationTarget)
  {
    UnwrittenMeans(env);
    if Opening(env).Some? {
      CollectionSettles(env, plan);
      if Collected(env).outcome.Completed? { ReachedCounts(plan, Collected(env).state.attempts); }
    }
  }
}

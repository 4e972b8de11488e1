/** The real gate: it recomputes, from all attempts, whether the targets are met, whether they
    can still be, and which role comes next; and it raises when the attempts are duplicated or
    out of order. Driven by it, the collector never makes it raise. */
module CollectionGate {
  import opened Wrappers
  import opened GatedCollection

  datatype Plan = Plan(
    imported: seq<TaskId>, trainingOrder: seq<TaskId>, validationOrder: seq<TaskId>,
    trainingTarget: nat, validationTarget: nat)

  function TaskSet(tasks: seq<TaskId>): set<TaskId> { set t | t in tasks }

  predicate Known(plan: Plan, task: TaskId) {
    task in plan.imported || task in plan.trainingOrder || task in plan.validationOrder
  }

  /** The sets the gate fills while it walks the attempts. */
  datatype Tally = Tally(
    seen: set<TaskId>, passedTraining: set<TaskId>, passedValidation: set<TaskId>,
    attemptedTraining: set<TaskId>, attemptedValidation: set<TaskId>)

  datatype Walk = Raises | Unsound(tally: Tally) | Walked(tally: Tally)

  /** The order the gate demands of the attempt at a position. */
  predicate Orderly(plan: Plan, t: Tally, position: nat, a: Attempt) {
    && Known(plan, a.task) && a.task !in t.seen
    && if position < |plan.imported| then a.task == plan.imported[position] && a.role.Training?
       else if a.role.Training? then
         var index := |t.attemptedTraining| - |plan.imported|;
         && t.attemptedValidation == {} && |t.passedTraining| < plan.trainingTarget
         && 0 <= index < |plan.trainingOrder| && a.task == plan.trainingOrder[index]
       else
         var index := |t.attemptedValidation|;
         && |t.passedTraining| >= plan.trainingTarget && |t.passedValidation| < plan.validationTarget
         && index < |plan.validationOrder| && a.task == plan.validationOrder[index]
  }

  predicate Unclean(a: Attempt) { !a.infrastructureValid || !a.securityScanPassed || a.truncationApplied }

  function Attend(t: Tally, a: Attempt): Tally {
    var u := t.(seen := t.seen + {a.task});
    if a.role.Training? then u.(attemptedTraining := t.attemptedTraining + {a.task})
    else u.(attemptedValidation := t.attemptedValidation + {a.task})
  }

  function Credit(t: Tally, a: Attempt): Tally {
    if !a.eligible then t
    else if a.role.Training? then t.(passedTraining := t.passedTraining + {a.task})
    else t.(passedValidation := t.passedValidation + {a.task})
  }

  function Step(plan: Plan, w: Walk, position: nat, a: Attempt): Walk {
    if !w.Walked? then w
    else if !Orderly(plan, w.tally, position, a) then Raises
    else if Unclean(a) then Unsound(Attend(w.tally, a))
    else if a.eligible && (!a.resolved || !a.freshTrajectory) then Raises
    else Walked(Credit(Attend(w.tally, a), a))
  }

  const EMPTY := Tally({}, {}, {}, {}, {})

  function WalkOf(plan: Plan, attempts: seq<Attempt>): Walk {
    if attempts == [] then Walked(EMPTY)
    else Step(plan, WalkOf(plan, attempts[..|attempts| - 1]), |attempts| - 1, attempts[|attempts| - 1])
  }

  function Judgement(plan: Plan, t: Tally): Gate {
    var trainingDone := |t.passedTraining| >= plan.trainingTarget;
    var validationDone := |t.passedValidation| >= plan.validationTarget;
    var trainingPossible :=
      |t.passedTraining| + |TaskSet(plan.trainingOrder) - t.attemptedTraining| >= plan.trainingTarget;
    var validationPossible :=
      |t.passedValidation| + |TaskSet(plan.validationOrder) - t.attemptedValidation| >= plan.validationTarget;
    if !trainingPossible then Gate(false, false, None, "training_capacity_exhausted")
    else if trainingDone && !validationPossible then Gate(false, false, None, "validation_capacity_exhausted")
    else if trainingDone && validationDone then Gate(true, true, None, "targets_satisfied")
    else Gate(false, true, Some(if trainingDone then Validation else Training),
              if trainingDone then "continue_validation" else "continue_training")
  }

  function Evaluation(plan: Plan, attempts: seq<Attempt>): Option<Gate> {
    match WalkOf(plan, attempts)
    case Raises => None
    case Unsound(_) => Some(Gate(false, false, None, "infrastructure_or_security_invalid"))
    case Walked(t) => Some(Judgement(plan, t))
  }

  lemma {:induction false} WalkStays(plan: Plan, attempts: seq<Attempt>, k: nat)
    requires k <= |attempts| && !WalkOf(plan, attempts[..k]).Walked?
    ensures WalkOf(plan, attempts) == WalkOf(plan, attempts[..k])
  {
    if k < |attempts| {
      var init := attempts[..|attempts| - 1];
      assert init[..k] == attempts[..k];
      WalkStays(plan, init, k);
    } else {
      assert attempts[..k] == attempts;
    }
  }

  lemma WalkNext(plan: Plan, attempts: seq<Attempt>, k: nat)
    requires k < |attempts|
    ensures WalkOf(plan, attempts[..k + 1]) == Step(plan, WalkOf(plan, attempts[..k]), k, attempts[k])
  {
    assert attempts[..k + 1][..k] == attempts[..k];
  }

  /** What a walk that ended before the last attempt answers. */
  lemma EndedEarly(plan: Plan, attempts: seq<Attempt>, k: nat)
    requires k <= |attempts| && !WalkOf(plan, attempts[..k]).Walked?
    ensures
      Evaluation(plan, attempts) ==
      if WalkOf(plan, attempts[..k]).Raises? then None
      else Some(Gate(false, false, None, "infrastructure_or_security_invalid"))
  {
    WalkStays(plan, attempts, k);
  }

  /** The loop body: one attempt checked, and counted into the sets. */
  method Count(plan: Plan, before: Tally, position: nat, item: Attempt) returns (w: Walk)
    ensures w == Step(plan, Walked(before), position, item)
  {
    if !Orderly(plan, before, position, item) { return Raises; }
    var t := Attend(before, item);
    if Unclean(item) { return Unsound(t); }
    if item.eligible {
      if !item.resolved || !item.freshTrajectory { return Raises; }
      t := Credit(t, item);
    }
    return Walked(t);
  }

  /** `evaluate_v17_collection_gate`. */
  method Evaluate(plan: Plan, attempts: seq<Attempt>) returns (r: Option<Gate>)
    ensures r == Evaluation(plan, attempts)
  {
    var t := EMPTY;
    for position := 0 to |attempts|
      invariant WalkOf(plan, attempts[..position]) == Walked(t)
    {
      WalkNext(plan, attempts, position);
      var w := Count(plan, t, position, attempts[position]);
      if !w.Walked? {
        EndedEarly(plan, attempts, position + 1);
        return if w.Raises? then None else Some(Gate(false, false, None, "infrastructure_or_security_invalid"));
      }
      t := w.tally;
    }
    assert attempts[..|attempts|] == attempts;
    return Some(Judgement(plan, t));
  }

  /* ---- the collector driven by this gate ---- */

  predicate DistinctTasks(tasks: seq<TaskId>) {
    forall i, j :: 0 <= i < j < |tasks| ==> tasks[i] != tasks[j]
  }

  predicate Apart(a: seq<TaskId>, b: seq<TaskId>) {
    forall i, j :: 0 <= i < |a| && 0 <= j < |b| ==> a[i] != b[j]
  }

  /** No task stands twice in the plan. */
  predicate DistinctPlan(plan: Plan) {
    && DistinctTasks(plan.imported) && DistinctTasks(plan.trainingOrder) && DistinctTasks(plan.validationOrder)
    && Apart(plan.imported, plan.trainingOrder) && Apart(plan.imported, plan.validationOrder)
    && Apart(plan.trainingOrder, plan.validationOrder)
  }

  function Scheduled(plan: Plan): seq<Episode> {
    seq(|plan.trainingOrder|, i requires 0 <= i < |plan.trainingOrder| => Episode(Training, plan.trainingOrder[i])) +
    seq(|plan.validationOrder|, i requires 0 <= i < |plan.validationOrder| =>
      Episode(Validation, plan.validationOrder[i]))
  }

  /** The collector's inputs belong to the plan: this gate, the plan's imports and schedule. */
  ghost predicate Planned(env: Env, plan: Plan) {
    && DistinctPlan(plan)
    && env.schedule == Scheduled(plan)
    && |env.imports| == |plan.imported|
    && (forall k :: 0 <= k < |env.imports| ==> env.imports[k].0 == plan.imported[k])
    && forall attempts {:trigger Evaluation(plan, attempts)} :: env.gate(attempts) == Evaluation(plan, attempts)
  }

  /** The tasks from a position on have not been attempted. */
  predicate Ahead(t: Tally, tasks: seq<TaskId>, from: nat) {
    forall k :: from <= k < |tasks| ==> tasks[k] !in t.seen
  }

  predicate Behind(t: Tally, tasks: seq<TaskId>, to: nat)
    requires to <= |tasks|
  {
    forall k :: 0 <= k < to ==> tasks[k] in t.attemptedTraining
  }

  /** How far the schedule has been followed: the first `n` training and `m` validation tasks. */
  predicate Followed(plan: Plan, t: Tally, n: nat, m: nat) {
    && n <= |plan.trainingOrder| && m <= |plan.validationOrder|
    && |t.attemptedTraining| == |plan.imported| + n && t.attemptedTraining <= t.seen
    && |t.attemptedValidation| == m && t.attemptedValidation <= t.seen
    && Ahead(t, plan.trainingOrder, n) && Ahead(t, plan.validationOrder, m)
    && Behind(t, plan.trainingOrder, n)
    && (m > 0 ==> |t.passedTraining| >= plan.trainingTarget)
  }

  /** The next scheduled training task is in order as long as the target is not reached. */
  lemma NextTraining(plan: Plan, t: Tally, n: nat, position: nat, a: Attempt)
    requires DistinctPlan(plan) && Followed(plan, t, n, 0) && n < |plan.trainingOrder| && position >= |plan.imported|
    requires a.role.Training? && a.task == plan.trainingOrder[n] && |t.passedTraining| < plan.trainingTarget
    ensures Orderly(plan, t, position, a)
    ensures Followed(plan, Credit(Attend(t, a), a), n + 1, 0)
  {
    assert a.task !in t.seen;
  }

  /** The next scheduled validation task is in order once training is done. */
  lemma NextValidation(plan: Plan, t: Tally, n: nat, m: nat, position: nat, a: Attempt)
    requires DistinctPlan(plan) && Followed(plan, t, n, m) && m < |plan.validationOrder| && position >= |plan.imported|
    requires a.role.Validation? && a.task == plan.validationOrder[m]
    requires |t.passedTraining| >= plan.trainingTarget && |t.passedValidation| < plan.validationTarget
    ensures Orderly(plan, t, position, a)
    ensures Followed(plan, Credit(Attend(t, a), a), n, m + 1)
  {
    assert a.task !in t.seen;
  }
}

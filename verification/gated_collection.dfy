/** The gate-driven collection: imported canary passes first, then the scheduled episodes the
    gate asks for, stopping fail-closed at the first failure. The gate, the episodes and every
    write are arbitrary. */
module GatedCollection {
  import opened Wrappers

  datatype Role = Training | Validation

  datatype TaskId = TaskId(name: string)

  datatype Episode = Episode(role: Role, task: TaskId)

  datatype Record = Record(hash: string, tokens: nat)

  datatype DryRun = DryRun(recordHash: string, overlength: bool)

  datatype Attempt = Attempt(
    role: Role, task: TaskId, imported: bool,
    infrastructureValid: bool, securityScanPassed: bool, truncationApplied: bool,
    resolved: bool, freshTrajectory: bool, eligible: bool,
    decisionRecordCount: nat, failureBoundary: Option<string>)

  datatype Gate = Gate(satisfied: bool, possible: bool, nextRole: Option<Role>, reason: string)

  /** A gate may raise instead of answering. */
  type GateFunction = seq<Attempt> -> Option<Gate>

  datatype Stage = EpisodeExecution | RecordPersistence | ProgressPersistence | GatePersistence

  /** What becomes of an episode: the run raises, or it returns whether the verifier resolved
      it; materialising its records may raise; and each later write may raise. */
  datatype Run =
    | RunRaised
    | Ran(
        resolved: bool, materialized: Option<seq<Record>>,
        recordsWritten: bool, progressWritten: bool, gateWritten: bool)

  datatype Env = Env(
    gate: GateFunction,
    imports: seq<(TaskId, seq<Record>)>,
    schedule: seq<Episode>,
    run: nat -> Run,
    dryRun: Record -> DryRun,
    preflight: bool,
    datasetsWritten: bool,
    stopWrites: nat,        // how many of a stop's three writes succeed
    finalGateWritten: bool,
    finalWrites: nat,       // how many of the two allowing writes succeed
    reason: Stage -> string)

  /* ---- files ---- */

  datatype ReportStatus = RunningStatus | StoppedStatus | CompletedStatus

  datatype Report = Report(
    status: ReportStatus, attempts: seq<Attempt>, stopReason: Option<string>,
    dataGateSatisfied: Option<bool>, gpuSubmissionAllowed: Option<bool>)

  datatype GateFile = GateFile(
    satisfied: bool, possible: bool, nextRole: Option<Role>, reason: string,
    capacityReason: Option<string>, stopReason: Option<string>, attemptCount: nat)

  /** The output root, the record files by task, and the schedule positions executed. */
  datatype Disk = Disk(
    progress: Option<Report>, report: Option<Report>, gate: Option<GateFile>,
    recordFiles: map<TaskId, seq<Record>>, executed: seq<nat>)

  datatype Outcome =
    | Completed
    | StoppedClosed(reason: string)
    | GateRaised           // an evaluation outside the handlers raised
    | StopLost             // the gate raised inside the stop itself
    | StopUnwritten        // a write of the stop raised
    | ImportRejected
    | DatasetFailed
    | ConclusionUnwritten  // a write after the loop raised

  function Running(attempts: seq<Attempt>): Report { Report(RunningStatus, attempts, None, None, None) }

  function Denied(attempts: seq<Attempt>, reason: string): Report {
    Report(StoppedStatus, attempts, Some(reason), Some(false), Some(false))
  }

  function Allowed(attempts: seq<Attempt>): Report {
    Report(CompletedStatus, attempts, None, Some(true), Some(true))
  }

  function GateOf(g: Gate, attempts: seq<Attempt>): GateFile {
    GateFile(g.satisfied, g.possible, g.nextRole, g.reason, None, None, |attempts|)
  }

  function ClosedGate(g: Gate, attempts: seq<Attempt>, reason: string): GateFile {
    GateFile(false, false, None, "campaign_stopped_fail_closed", Some(g.reason), Some(reason), |attempts|)
  }

  /** `_stop`: the gate file first, which evaluates the gate once more, then the two reports;
      any of the three writes may raise, and then the rest is not made. */
  function Stop(env: Env, d: Disk, attempts: seq<Attempt>, reason: string): (Disk, Outcome) {
    if env.gate(attempts).None? then (d, StopLost)
    else if env.stopWrites == 0 then (d, StopUnwritten)
    else
      var d1 := d.(gate := Some(ClosedGate(env.gate(attempts).value, attempts, reason)));
      if env.stopWrites == 1 then (d1, StopUnwritten)
      else
        var d2 := d1.(progress := Some(Denied(attempts, reason)));
        if env.stopWrites == 2 then (d2, StopUnwritten)
        else (d2.(report := Some(Denied(attempts, reason))), StoppedClosed(reason))
  }

  /* ---- attempts ---- */

  function InvalidAttempt(e: Episode, reason: string): Attempt {
    Attempt(e.role, e.task, false, false, false, false, false, false, false, 0, Some(reason))
  }

  function DryRuns(env: Env, records: seq<Record>): (r: seq<DryRun>)
    ensures |r| == |records|
  {
    seq(|records|, i requires 0 <= i < |records| => env.dryRun(records[i]))
  }

  predicate AnyOverlength(env: Env, records: seq<Record>) {
    exists i :: 0 <= i < |records| && env.dryRun(records[i]).overlength
  }

  datatype Materialized = Materialized(attempt: Attempt, records: seq<Record>, dryRuns: seq<DryRun>)

  /** `_materialize_fresh_attempt` after a run that returned. */
  function Materialize(env: Env, e: Episode, run: Run): Option<Materialized>
    requires run.Ran?
  {
    var attempt := Attempt(e.role, e.task, false, true, true, false, run.resolved, run.resolved, false, 0, None);
    if !run.resolved then Some(Materialized(attempt, [], []))
    else if run.materialized.None? || run.materialized.value == [] || AnyOverlength(env, run.materialized.value)
    then None
    else
      var records := run.materialized.value;
      Some(Materialized(attempt.(eligible := true, decisionRecordCount := |records|), records, DryRuns(env, records)))
  }

  /** `_import_canary_trajectory`. */
  function Imported(env: Env, task: TaskId, records: seq<Record>): Option<Materialized> {
    if records == [] || AnyOverlength(env, records) then None
    else
      Some(Materialized(
        Attempt(Training, task, true, true, true, false, true, true, true, |records|, None),
        records, DryRuns(env, records)))
  }

  /* ---- what the collector holds ---- */

  datatype ByRole<T> = ByRole(training: seq<T>, validation: seq<T>) {
    function Extend(role: Role, more: seq<T>): ByRole<T> {
      if role.Training? then this.(training := training + more) else this.(validation := validation + more)
    }

    function Of(role: Role): seq<T> { if role.Training? then training else validation }
  }

  datatype State = State(attempts: seq<Attempt>, records: ByRole<Record>, dryRuns: ByRole<DryRun>, disk: Disk)

  function Add(s: State, m: Materialized): State {
    s.(attempts := s.attempts + [m.attempt],
       records := s.records.Extend(m.attempt.role, m.records),
       dryRuns := s.dryRuns.Extend(m.attempt.role, m.dryRuns))
  }

  const NOTHING := State([], ByRole([], []), ByRole([], []), Disk(None, None, None, map[], []))

  /* ---- the loop as a function ---- */

  datatype Turn = Next(state: State) | Break | End(disk: Disk, outcome: Outcome)

  function Fail(env: Env, s: State, d: Disk, e: Episode, stage: Stage): Turn {
    var reason := env.reason(stage);
    var stopped := Stop(env, d, s.attempts + [InvalidAttempt(e, reason)], reason);
    End(stopped.0, stopped.1)
  }

  function Attempted(env: Env, s: State, i: nat): Turn
    requires i < |env.schedule|
  {
    var e, run := env.schedule[i], env.run(i);
    var d := s.disk.(executed := s.disk.executed + [i]);
    if run.RunRaised? then Fail(env, s, d, e, EpisodeExecution)
    else
      match Materialize(env, e, run)
      case None => Fail(env, s, d, e, EpisodeExecution)
      case Some(m) =>
        if m.records != [] && !run.recordsWritten then Fail(env, s, d, e, RecordPersistence)
        else
          var d1 := if m.records != [] then d.(recordFiles := d.recordFiles[e.task := m.records]) else d;
          if !run.progressWritten then Fail(env, s, d1, e, ProgressPersistence)
          else
            var prospective := s.attempts + [m.attempt];
            var d2 := d1.(progress := Some(Running(prospective)));
            if env.gate(prospective).None? || !run.gateWritten then Fail(env, s, d2, e, GatePersistence)
            else Next(Add(s.(disk := d2.(gate := Some(GateOf(env.gate(prospective).value, prospective)))), m))
  }

  function Take(env: Env, s: State, i: nat): Turn
    requires i < |env.schedule|
  {
    match env.gate(s.attempts)
    case None => End(s.disk, GateRaised)
    case Some(g) =>
      if g.satisfied then Break
      else if !g.possible then var stopped := Stop(env, s.disk, s.attempts, g.reason); End(stopped.0, stopped.1)
      else if g.nextRole != Some(env.schedule[i].role) then Next(s)
      else Attempted(env, s, i)
  }

  datatype Ended = Ended(state: State, outcome: Outcome)

  /** After the loop: the gate decides once more over the final attempts. */
  function Conclude(env: Env, s: State): Ended {
    match env.gate(s.attempts)
    case None => Ended(s, GateRaised)
    case Some(g) =>
      if !env.finalGateWritten then Ended(s, ConclusionUnwritten)
      else
        var d := s.disk.(gate := Some(GateOf(g, s.attempts)));
        if !g.satisfied then var stopped := Stop(env, d, s.attempts, g.reason); Ended(s.(disk := stopped.0), stopped.1)
        else if !env.datasetsWritten then Ended(s.(disk := d), DatasetFailed)
        else if env.finalWrites == 0 then Ended(s.(disk := d), ConclusionUnwritten)
        else
          var d1 := d.(progress := Some(Allowed(s.attempts)));
          if env.finalWrites == 1 then Ended(s.(disk := d1), ConclusionUnwritten)
          else Ended(s.(disk := d1.(report := Some(Allowed(s.attempts)))), Completed)
  }

  function Loop(env: Env, s: State, i: nat): Ended
    requires i <= |env.schedule|
    decreases |env.schedule| - i
  {
    if i == |env.schedule| then Conclude(env, s)
    else
      match Take(env, s, i)
      case Next(t) => Loop(env, t, i + 1)
      case Break => Conclude(env, s)
      case End(d, outcome) => Ended(s.(disk := d), outcome)
  }

  function Import(env: Env, s: State, k: nat): Option<State>
    requires k <= |env.imports|
    decreases |env.imports| - k
  {
    if k == |env.imports| then Some(s)
    else
      match Imported(env, env.imports[k].0, env.imports[k].1)
      case None => None
      case Some(m) =>
        var t := Add(s, m);
        Import(env, t.(disk := t.disk.(recordFiles := t.disk.recordFiles[env.imports[k].0 := m.records])), k + 1)
  }

  /** The collection at its first loop head, unless an import is rejected. */
  function Opening(env: Env): Option<State> {
    match Import(env, NOTHING, 0)
    case None => None
    case Some(s) => Some(s.(disk := s.disk.(progress := Some(Running(s.attempts)))))
  }

  /** The preflight failed: a stop before any episode. */
  function Unprepared(env: Env, s: State): Ended {
    var stopped := Stop(env, s.disk, s.attempts, "zero_call_preflight");
    Ended(s.(disk := stopped.0), stopped.1)
  }

  function From(env: Env, s: State): Ended { if env.preflight then Loop(env, s, 0) else Unprepared(env, s) }

  function Collected(env: Env): Ended {
    match Opening(env)
    case None => Ended(NOTHING, ImportRejected)
    case Some(s) => From(env, s)
  }

  /* ---- the collector ---- */

  /** `_stop` as it writes its three files. */
  method StopNow(env: Env, before: Disk, attempts: seq<Attempt>, reason: string) returns (disk: Disk, outcome: Outcome)
    ensures (disk, outcome) == Stop(env, before, attempts, reason)
  {
    disk := before;
    var gate := env.gate(attempts);
    if gate.None? { return disk, StopLost; }
    if env.stopWrites == 0 { return disk, StopUnwritten; }
    disk := disk.(gate := Some(GateFile(
      false, false, None, "campaign_stopped_fail_closed", Some(gate.value.reason), Some(reason), |attempts|)));
    if env.stopWrites == 1 { return disk, StopUnwritten; }
    var stopped := Report(StoppedStatus, attempts, Some(reason), Some(false), Some(false));
    disk := disk.(progress := Some(stopped));
    if env.stopWrites == 2 { return disk, StopUnwritten; }
    disk := disk.(report := Some(stopped));
    return disk, StoppedClosed(reason);
  }

  /** The guarded part of the loop body: the stage that failed, or the new attempt. */
  method RunEpisode(env: Env, attempts: seq<Attempt>, i: nat, before: Disk)
    returns (failed: Option<Stage>, m: Materialized, disk: Disk)
    requires i < |env.schedule|
    ensures forall s: State :: s.attempts == attempts && s.disk == before ==>
              Attempted(env, s, i) ==
              if failed.Some? then Fail(env, s, disk, env.schedule[i], failed.value) else Next(Add(s.(disk := disk), m))
    ensures failed.None? ==> m.attempt.role == env.schedule[i].role
  {
    var episode, run := env.schedule[i], env.run(i);
    m := Materialized(InvalidAttempt(episode, ""), [], []);
    disk := before.(executed := before.executed + [i]);
    if run.RunRaised? { return Some(EpisodeExecution), m, disk; }
    var materialized := Materialize(env, episode, run);
    if materialized.None? { return Some(EpisodeExecution), m, disk; }
    m := materialized.value;
    if m.records != [] {
      if !run.recordsWritten { return Some(RecordPersistence), m, disk; }
      disk := disk.(recordFiles := disk.recordFiles[episode.task := m.records]);
    }
    var prospective := attempts + [m.attempt];
    if !run.progressWritten { return Some(ProgressPersistence), m, disk; }
    disk := disk.(progress := Some(Running(prospective)));
    var gate := env.gate(prospective);
    if gate.None? || !run.gateWritten { return Some(GatePersistence), m, disk; }
    disk := disk.(gate := Some(GateOf(gate.value, prospective)));
    failed := None;
  }

  method ConcludeNow(env: Env, attempts: seq<Attempt>, before: Disk) returns (disk: Disk, outcome: Outcome)
    ensures forall s: State :: s.attempts == attempts && s.disk == before ==>
              Conclude(env, s) == Ended(s.(disk := disk), outcome)
  {
    disk := before;
    var gate := env.gate(attempts);
    if gate.None? { return disk, GateRaised; }
    if !env.finalGateWritten { return disk, ConclusionUnwritten; }
    disk := disk.(gate := Some(GateOf(gate.value, attempts)));
    if !gate.value.satisfied {
      disk, outcome := StopNow(env, disk, attempts, gate.value.reason);
      return;
    }
    if !env.datasetsWritten { return disk, DatasetFailed; }
    if env.finalWrites == 0 { return disk, ConclusionUnwritten; }
    var final := Report(CompletedStatus, attempts, None, Some(true), Some(true));
    disk := disk.(progress := Some(final));
    if env.finalWrites == 1 { return disk, ConclusionUnwritten; }
    disk := disk.(report := Some(final));
    return disk, Completed;
  }

  /** `collect`, from the imports on; `disk` holds the files it leaves. */
  method Collect(env: Env)
    returns (
      attempts: seq<Attempt>, recordsByRole: ByRole<Record>, dryRunsByRole: ByRole<DryRun>,
      disk: Disk, outcome: Outcome)
    ensures Collected(env).outcome.ImportRejected? ==> outcome.ImportRejected?
    ensures !Collected(env).outcome.ImportRejected? ==>
              Ended(State(attempts, recordsByRole, dryRunsByRole, disk), outcome) == Collected(env)
  {
    attempts, recordsByRole, dryRunsByRole, disk := [], ByRole([], []), ByRole([], []), NOTHING.disk;
    outcome := ImportRejected;
    var k := 0;
    while k < |env.imports|
      invariant k <= |env.imports|
      invariant Import(env, NOTHING, 0) == Import(env, State(attempts, recordsByRole, dryRunsByRole, disk), k)
    {
      var imported := Imported(env, env.imports[k].0, env.imports[k].1);
      if imported.None? { return; }
      attempts := attempts + [imported.value.attempt];
      recordsByRole := recordsByRole.Extend(Training, imported.value.records);
      dryRunsByRole := dryRunsByRole.Extend(Training, imported.value.dryRuns);
      disk := disk.(recordFiles := disk.recordFiles[env.imports[k].0 := imported.value.records]);
      k := k + 1;
    }
    disk := disk.(progress := Some(Running(attempts)));
    if !env.preflight {
      disk, outcome := StopNow(env, disk, attempts, "zero_call_preflight");
      return;
    }
    var i := 0;
    while i < |env.schedule|
      invariant i <= |env.schedule|
      invariant Collected(env) == Loop(env, State(attempts, recordsByRole, dryRunsByRole, disk), i)
    {
      var episode := env.schedule[i];
      var gate := env.gate(attempts);
      if gate.None? {
        outcome := GateRaised;
        return;
      }
      if gate.value.satisfied { break; }
      if !gate.value.possible {
        disk, outcome := StopNow(env, disk, attempts, gate.value.reason);
        return;
      }
      if gate.value.nextRole != Some(episode.role) {
        i := i + 1;
        continue;
      }
      var failed, m;
      failed, m, disk := RunEpisode(env, attempts, i, disk);
      if failed.Some? {
        var reason := env.reason(failed.value);
        disk, outcome := StopNow(env, disk, attempts + [InvalidAttempt(episode, reason)], reason);
        return;
      }
      attempts := attempts + [m.attempt];
      recordsByRole := recordsByRole.Extend(episode.role, m.records);
      dryRunsByRole := dryRunsByRole.Extend(episode.role, m.dryRuns);
      i := i + 1;
    }
    disk, outcome := ConcludeNow(env, attempts, disk);
  }
}

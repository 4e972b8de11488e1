/** The ledger of zero-call startup restarts: a task whose launch fails before any model call
    may be launched again, a bounded number of times over the whole life of a campaign. A run
    refuses a directory that exists, and an infrastructure-invalid attempt stops the campaign. */
module Restarts {
  import opened Wrappers
  import Decimal

  datatype TaskId = TaskId(name: string)

  /** The campaign's name for a task: tasks that end alike share it. */
  datatype AttemptId = AttemptId(name: string)

  datatype Body = Body(
    task: TaskId, launchId: string, launchCount: nat,
    externalModelCallCount: nat, workspaceChanged: bool, cleanupComplete: bool,
    scorecardHash: string, sampleConsumed: bool)

  datatype Record = Record(body: Body, recordHash: string)

  datatype LedgerBase = LedgerBase(formatId: string, profileId: string, restartLimit: nat, records: seq<Record>)

  datatype Ledger = Ledger(base: LedgerBase, ledgerHash: string)

  /** The attempt of a task, the hash of a record and of a ledger, the frozen restart limit, and
      the most records a ledger may hold to be loaded. */
  datatype Env = Env(
    attemptOf: TaskId -> AttemptId, hashBody: Body -> string, hashLedger: LedgerBase -> string,
    profileId: string, limit: nat, maxRecords: nat)

  const FORMAT_ID := "verigym_hwe_zero_call_startup_restarts_v1"

  /** The parts of a finished launch the collector looks at, and whether what follows the launch
      loop raises. */
  datatype Scorecard = Scorecard(
    externalModelCallCount: nat, infrastructureInvalid: bool, filesChanged: bool,
    securityReason: bool, cleanupComplete: bool, protocolRejection: bool, followUpRaises: bool, hash: string)

  datatype LaunchResult = RunRaised | Finished(scorecard: Scorecard)

  /** `_zero_call_startup_restart_eligible`. */
  predicate Eligible(s: Scorecard) {
    && s.externalModelCallCount == 0 && s.infrastructureInvalid && !s.filesChanged
    && !s.securityReason && s.cleanupComplete
  }

  /** The recorded attempt is infrastructure-invalid: `_model_action_rejection` excuses only a
      launch that called the model. */
  predicate Invalidates(s: Scorecard) {
    || s.followUpRaises
    || (s.infrastructureInvalid && !(s.externalModelCallCount >= 1 && s.protocolRejection))
  }

  function LaunchId(attempt: AttemptId, count: nat): string { attempt.name + "-launch-" + Decimal.Digits(count) }

  /** `_startup_restart_record`. */
  function RestartRecord(env: Env, task: TaskId, count: nat, s: Scorecard): Record {
    var body := Body(task, LaunchId(env.attemptOf(task), count), count, 0, false, true, s.hash, false);
    Record(body, env.hashBody(body))
  }

  /* ---- writing and loading ---- */

  function Write(env: Env, records: seq<Record>): Ledger {
    var base := LedgerBase(FORMAT_ID, env.profileId, env.limit, records);
    Ledger(base, env.hashLedger(base))
  }

  predicate Sealed(env: Env, r: Record) {
    env.hashBody(r.body) == r.recordHash && r.body.externalModelCallCount == 0 && !r.body.sampleConsumed
  }

  predicate AllSealed(env: Env, records: seq<Record>) {
    forall i :: 0 <= i < |records| ==> Sealed(env, records[i])
  }

  function Loaded(env: Env, file: Option<Ledger>): Option<seq<Record>> {
    if file.None? then Some([])
    else
      var base := file.value.base;
      if && base.formatId == FORMAT_ID && base.profileId == env.profileId && base.restartLimit == env.limit
         && env.hashLedger(base) == file.value.ledgerHash && |base.records| <= env.maxRecords
         && AllSealed(env, base.records)
      then Some(base.records) else None
  }

  /** `_load_startup_restarts`; an absent file holds no records. */
  method Load(env: Env, file: Option<Ledger>) returns (r: Option<seq<Record>>)
    ensures r == Loaded(env, file)
  {
    if file.None? { return Some([]); }
    var base := file.value.base;
    if base.formatId != FORMAT_ID || base.profileId != env.profileId || base.restartLimit != env.limit ||
       env.hashLedger(base) != file.value.ledgerHash || |base.records| > env.maxRecords {
      return None;
    }
    for i := 0 to |base.records|
      invariant forall j :: 0 <= j < i ==> Sealed(env, base.records[j])
    {
      var record := base.records[i];
      if env.hashBody(record.body) != record.recordHash { return None; }
      if record.body.externalModelCallCount != 0 || record.body.sampleConsumed { return None; }
    }
    return Some(base.records);
  }

  /* ---- launching ---- */

  /** A run directory, by the attempt and the launch count its name is made of. */
  datatype RunDir = RunDir(attempt: AttemptId, launchCount: nat)

  /** The ledger file, the run directories in the order they were made, the tasks whose attempts
      are saved, and whether the saved campaign is stopped as infrastructure-invalid. */
  datatype Disk = Disk(ledger: Option<Ledger>, runDirs: seq<RunDir>, attempted: set<TaskId>, stopped: bool)

  const EMPTY := Disk(None, [], {}, false)

  datatype Ending =
    | Settled      // the attempt is saved
    | Failed       // the attempt is saved as infrastructure-invalid and the process ends
    | OverLimit
    | Killed

  datatype Launched = Launched(disk: Disk, records: seq<Record>, ending: Ending)

  function CountOf(records: seq<Record>, task: TaskId): nat {
    if records == [] then 0
    else CountOf(records[..|records| - 1], task) + (if records[|records| - 1].body.task == task then 1 else 0)
  }

  /** Saving the attempt: the last durable operation of a task. */
  function Save(d: Disk, records: seq<Record>, task: TaskId, invalid: bool, ending: Ending, life: nat): Launched {
    if life == 0 then Launched(d, records, Killed)
    else Launched(d.(attempted := d.attempted + {task}, stopped := d.stopped || invalid), records, ending)
  }

  /** The launch loop from a launch count on; the process survives `life` further durable
      operations, of which the first of every launch makes its run directory. */
  function Loop(
    env: Env, task: TaskId, launch: nat -> LaunchResult, d: Disk, records: seq<Record>, count: nat, life: nat): Launched
    requires count <= env.limit + 1
    decreases env.limit + 1 - count
  {
    var dir := RunDir(env.attemptOf(task), count);
    if dir in d.runDirs then Save(d, records, task, true, Failed, life)
    else if life == 0 then Launched(d, records, Killed)
    else
      var made := d.(runDirs := d.runDirs + [dir]);
      match launch(count)
      case RunRaised => Save(made, records, task, true, Failed, life - 1)
      case Finished(s) =>
        if !Eligible(s) || count > env.limit then
          Save(made, records, task, Invalidates(s), if s.followUpRaises then Failed else Settled, life - 1)
        else if life == 1 then Launched(made, records, Killed)
        else
          var more := records + [RestartRecord(env, task, count, s)];
          Loop(env, task, launch, made.(ledger := Some(Write(env, more))), more, count + 1, life - 2)
  }

  function LaunchTask(
    env: Env, task: TaskId, launch: nat -> LaunchResult, d: Disk, records: seq<Record>, life: nat): Launched
  {
    var count := 1 + CountOf(records, task);
    if count > env.limit + 1 then Launched(d, records, OverLimit)
    else Loop(env, task, launch, d, records, count, life)
  }

  /* ---- a campaign over many processes ---- */

  /** A new process starts from the files, or the running one takes up a task. */
  datatype Event = Start | Take(task: TaskId, launch: nat -> LaunchResult, life: nat)

  /** What is on disk, and the list of the running process, if there is one. */
  datatype State = State(disk: Disk, memory: Option<seq<Record>>)

  /** No task is taken up without a process, twice, or in a stopped campaign. */
  predicate Idle(s: State, task: TaskId) {
    s.memory.None? || s.disk.stopped || task in s.disk.attempted
  }

  function Step(env: Env, s: State, e: Event): State {
    match e
    case Start => s.(memory := Loaded(env, s.disk.ledger))
    case Take(task, launch, life) =>
      if Idle(s, task) then s
      else
        var r := LaunchTask(env, task, launch, s.disk, s.memory.value, life);
        State(r.disk, if r.ending.Settled? then Some(r.records) else None)
  }

  function Life(env: Env, events: seq<Event>): State {
    if events == [] then State(EMPTY, None)
    else Step(env, Life(env, events[..|events| - 1]), events[|events| - 1])
  }

  method CountRestarts(records: seq<Record>, task: TaskId) returns (count: nat)
    ensures count == CountOf(records, task)
  {
    count := 0;
    for i := 0 to |records|
      invariant count == CountOf(records[..i], task)
    {
      assert records[..i + 1][..i] == records[..i];
      if records[i].body.task == task { count := count + 1; }
    }
    assert records[..|records|] == records;
  }

  class Collector {
    /** The running process's list, and the output directory. */
    var startupRestarts: Option<seq<Record>>
    var files: Disk

    function Here(): State reads this { State(files, startupRestarts) }

    constructor (env: Env)
      ensures Here() == Life(env, [])
    {
      startupRestarts, files := None, EMPTY;
    }

    /** A new process takes the list from the file, or does not start. */
    method Restart(env: Env)
      modifies this`startupRestarts
      ensures Here() == Step(env, old(Here()), Start)
    {
      startupRestarts := Load(env, files.ledger);
    }

    method SaveAttempt(task: TaskId, invalid: bool, how: Ending, left: nat) returns (ending: Ending)
      requires startupRestarts.Some?
      modifies this`files
      ensures Launched(files, startupRestarts.value, ending) ==
              Save(old(files), startupRestarts.value, task, invalid, how, left)
    {
      if left == 0 { return Killed; }
      files := files.(attempted := files.attempted + {task});
      if invalid { files := files.(stopped := true); }
      return how;
    }

    /** One launch: how the task ended, or the restart it recorded. */
    method LaunchOnce(env: Env, task: TaskId, launch: nat -> LaunchResult, launchCount: nat, life: nat)
      returns (ended: Option<Ending>, left: nat)
      requires startupRestarts.Some? && launchCount <= env.limit + 1
      modifies this
      ensures startupRestarts.Some?
      ensures
        var whole := Loop(env, task, launch, old(files), old(startupRestarts).value, launchCount, life);
        if ended.Some? then whole == Launched(files, startupRestarts.value, ended.value)
        else
          && launchCount <= env.limit
          && whole == Loop(env, task, launch, files, startupRestarts.value, launchCount + 1, left)
    {
      left := life;
      var dir := RunDir(env.attemptOf(task), launchCount);
      if dir in files.runDirs {
        var how := SaveAttempt(task, true, Failed, left);
        return Some(how), left;
      }
      if left == 0 { return Some(Killed), left; }
      files := files.(runDirs := files.runDirs + [dir]);
      left := left - 1;
      var result := launch(launchCount);
      if result.RunRaised? {
        var how := SaveAttempt(task, true, Failed, left);
        return Some(how), left;
      }
      var scorecard := result.scorecard;
      if !Eligible(scorecard) || launchCount > env.limit {
        var ending := if scorecard.followUpRaises then Failed else Settled;
        var how := SaveAttempt(task, Invalidates(scorecard), ending, left);
        return Some(how), left;
      }
      if left == 0 { return Some(Killed), left; }
      startupRestarts := Some(startupRestarts.value + [RestartRecord(env, task, launchCount, scorecard)]);
      files := files.(ledger := Some(Write(env, startupRestarts.value)));
      return None, left - 1;
    }

    /** The launches of one task, until one stands. */
    method LaunchAll(env: Env, task: TaskId, launch: nat -> LaunchResult, life: nat) returns (ending: Ending)
      requires startupRestarts.Some?
      modifies this
      ensures startupRestarts.Some?
      ensures Launched(files, startupRestarts.value, ending) ==
              LaunchTask(env, task, launch, old(files), old(startupRestarts).value, life)
    {
      var before := CountRestarts(startupRestarts.value, task);
      var launchCount := 1 + before;
      if launchCount > env.limit + 1 { return OverLimit; }
      ghost var whole := LaunchTask(env, task, launch, files, startupRestarts.value, life);
      var left := life;
      while true
        invariant startupRestarts.Some? && launchCount <= env.limit + 1
        invariant whole == Loop(env, task, launch, files, startupRestarts.value, launchCount, left)
        decreases env.limit + 1 - launchCount
      {
        var ended;
        ended, left := LaunchOnce(env, task, launch, launchCount, left);
        if ended.Some? { return ended.value; }
        launchCount := launchCount + 1;
      }
    }

    /** The loop body of `collect` for the next task. */
    method CollectTask(env: Env, task: TaskId, launch: nat -> LaunchResult, life: nat)
      modifies this
      ensures Here() == Step(env, old(Here()), Take(task, launch, life))
    {
      if startupRestarts.None? || files.stopped || task in files.attempted { return; }
      var ending := LaunchAll(env, task, launch, life);
      if !ending.Settled? { startupRestarts := None; }
    }
  }
}

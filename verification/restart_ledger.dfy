/** What the restart ledger keeps over any processes, kills and launches, and when every ledger
    a campaign can write loads back. */
module RestartLedger {
  import opened Wrappers
  import opened Restarts
  import Decimal

  /** The records in the ledger file. */
  function Written(d: Disk): seq<Record> {
    if d.ledger.None? then [] else d.ledger.value.base.records
  }

  function Dir(env: Env, r: Record): RunDir { RunDir(env.attemptOf(r.body.task), r.body.launchCount) }

  /** The records of one task, in ledger order. */
  function Of(records: seq<Record>, task: TaskId): seq<Record> {
    if records == [] then []
    else
      var last := records[|records| - 1];
      Of(records[..|records| - 1], task) + (if last.body.task == task then [last] else [])
  }

  lemma OfSnoc(records: seq<Record>, r: Record, task: TaskId)
    ensures Of(records + [r], task) == Of(records, task) + (if r.body.task == task then [r] else [])
    ensures CountOf(records + [r], task) == CountOf(records, task) + (if r.body.task == task then 1 else 0)
  {
    assert (records + [r])[..|records|] == records;
  }

  lemma {:induction false} OfCounts(records: seq<Record>, task: TaskId)
    ensures |Of(records, task)| == CountOf(records, task)
  {
    if records != [] { OfCounts(records[..|records| - 1], task); }
  }

  /** Each task's records are numbered 1, 2, ... up to at most the limit. */
  predicate Numbered(env: Env, records: seq<Record>, task: TaskId) {
    var mine := Of(records, task);
    |mine| <= env.limit && forall i :: 0 <= i < |mine| ==> mine[i].body.launchCount == i + 1
  }

  predicate NoDirTwice(dirs: seq<RunDir>) {
    forall i, j :: 0 <= i < j < |dirs| ==> dirs[i] != dirs[j]
  }

  /** Every record is sealed and of a run directory of its own, below the last permitted one. */
  predicate Backed(env: Env, d: Disk, records: seq<Record>) {
    && (forall i :: 0 <= i < |records| ==>
          Sealed(env, records[i]) && 1 <= records[i].body.launchCount <= env.limit && Dir(env, records[i]) in d.runDirs)
    && (forall i, j :: 0 <= i < j < |records| ==> Dir(env, records[i]) != Dir(env, records[j]))
  }

  /** No run directory is made twice, or for a launch beyond the limit and one. */
  predicate LaunchesOk(env: Env, d: Disk) {
    && NoDirTwice(d.runDirs)
    && forall i :: 0 <= i < |d.runDirs| ==> 1 <= d.runDirs[i].launchCount <= env.limit + 1
  }

  /** The file holds the list in memory. */
  predicate InStep(env: Env, d: Disk, records: seq<Record>) {
    && Written(d) == records
    && (d.ledger.Some? ==> d.ledger.value == Write(env, records))
  }

  ghost predicate DiskOk(env: Env, d: Disk, records: seq<Record>) {
    && InStep(env, d, records) && Backed(env, d, records) && LaunchesOk(env, d)
    && forall task :: Numbered(env, records, task)
  }

  ghost predicate StateOk(env: Env, s: State) {
    && DiskOk(env, s.disk, Written(s.disk))
    && (s.memory.Some? ==> s.memory.value == Written(s.disk))
  }

  /* ---- one task ---- */

  /** A launch's new run directory. */
  lemma MadeOk(env: Env, d: Disk, records: seq<Record>, dir: RunDir)
    requires DiskOk(env, d, records) && dir !in d.runDirs && 1 <= dir.launchCount <= env.limit + 1
    ensures DiskOk(env, d.(runDirs := d.runDirs + [dir]), records)
  {
    var made := d.runDirs + [dir];
    forall i, j | 0 <= i < j < |made| ensures made[i] != made[j] {
      if j == |d.runDirs| { assert made[i] in d.runDirs; }
    }
  }

  lemma BackedSnoc(env: Env, d: Disk, records: seq<Record>, r: Record)
    requires Backed(env, d, records) && Dir(env, r) !in d.runDirs
    requires Sealed(env, r) && 1 <= r.body.launchCount <= env.limit
    ensures Backed(env, d.(runDirs := d.runDirs + [Dir(env, r)], ledger := Some(Write(env, records + [r]))),
                   records + [r])
  {
    var all := records + [r];
    forall i, j | 0 <= i < j < |all| ensures Dir(env, all[i]) != Dir(env, all[j]) {
      assert Dir(env, records[i]) in d.runDirs;
    }
  }

  lemma NumberedSnoc(env: Env, records: seq<Record>, r: Record, task: TaskId)
    requires Numbered(env, records, task)
    requires r.body.launchCount == CountOf(records, r.body.task) + 1 <= env.limit
    ensures Numbered(env, records + [r], task)
  {
    OfSnoc(records, r, task);
    OfCounts(records, task);
  }

  /** A restart recorded for the launch whose directory was just made. */
  lemma RecordedOk(env: Env, d: Disk, records: seq<Record>, r: Record)
    requires DiskOk(env, d, records) && Dir(env, r) !in d.runDirs
    requires Sealed(env, r) && r.body.launchCount == CountOf(records, r.body.task) + 1 <= env.limit
    ensures DiskOk(env, d.(runDirs := d.runDirs + [Dir(env, r)], ledger := Some(Write(env, records + [r]))),
                   records + [r])
  {
    MadeOk(env, d, records, Dir(env, r));
    BackedSnoc(env, d, records, r);
    forall task ensures Numbered(env, records + [r], task) { NumberedSnoc(env, records, r, task); }
  }

  /** The launch goes on to another one, with its restart recorded. */
  predicate GoesOn(env: Env, task: TaskId, launch: nat -> LaunchResult, d: Disk, count: nat, life: nat) {
    && life > 1 && RunDir(env.attemptOf(task), count) !in d.runDirs
    && launch(count).Finished? && Eligible(launch(count).scorecard) && count <= env.limit
  }

  /** The disk after a launch that goes on. */
  function Restarted(
    env: Env, task: TaskId, launch: nat -> LaunchResult, d: Disk, records: seq<Record>, count: nat): Disk
    requires launch(count).Finished?
  {
    var r := RestartRecord(env, task, count, launch(count).scorecard);
    d.(runDirs := d.runDirs + [Dir(env, r)], ledger := Some(Write(env, records + [r])))
  }

  lemma LoopStep(
    env: Env, task: TaskId, launch: nat -> LaunchResult, d: Disk, records: seq<Record>, count: nat, life: nat)
    requires count <= env.limit + 1 && GoesOn(env, task, launch, d, count, life)
    ensures
      Loop(env, task, launch, d, records, count, life) ==
      Loop(env, task, launch, Restarted(env, task, launch, d, records, count),
           records + [RestartRecord(env, task, count, launch(count).scorecard)], count + 1, life - 2)
  {
  }

  /** A launch that does not go on adds no record, and at most its own directory. */
  lemma LoopEnd(
    env: Env, task: TaskId, launch: nat -> LaunchResult, d: Disk, records: seq<Record>, count: nat, life: nat)
    requires count <= env.limit + 1 && !GoesOn(env, task, launch, d, count, life)
    ensures
      var r, dir := Loop(env, task, launch, d, records, count, life), RunDir(env.attemptOf(task), count);
      && r.records == records && r.disk.ledger == d.ledger && !r.ending.OverLimit?
      && r.disk.runDirs == if dir in d.runDirs || life == 0 then d.runDirs else d.runDirs + [dir]
  {
  }

  lemma SameFiles(env: Env, d: Disk, e: Disk, records: seq<Record>)
    requires DiskOk(env, d, records) && e.ledger == d.ledger && e.runDirs == d.runDirs
    ensures DiskOk(env, e, records)
  {
  }

  /** What one launch does to an invariant and a claim about the end. */
  predicate Turn(
    env: Env, task: TaskId, launch: nat -> LaunchResult, holds: (Disk, seq<Record>, nat) -> bool,
    good: Launched -> bool,
    d: Disk, records: seq<Record>, count: nat, life: nat)
    requires count <= env.limit + 1
  {
    if GoesOn(env, task, launch, d, count, life) then
      holds(Restarted(env, task, launch, d, records, count),
            records + [RestartRecord(env, task, count, launch(count).scorecard)], count + 1)
    else good(Loop(env, task, launch, d, records, count, life))
  }

  /** The proof rule of the launch loop. */
  lemma {:induction false} LoopRule(
    env: Env, task: TaskId, launch: nat -> LaunchResult, holds: (Disk, seq<Record>, nat) -> bool,
    good: Launched -> bool,
    d: Disk, records: seq<Record>, count: nat, life: nat)
    requires forall d, records, count: nat, life: nat :: holds(d, records, count) && count <= env.limit + 1 ==>
               Turn(env, task, launch, holds, good, d, records, count, life)
    requires holds(d, records, count) && count <= env.limit + 1
    ensures good(Loop(env, task, launch, d, records, count, life))
    decreases env.limit + 1 - count
  {
    assert Turn(env, task, launch, holds, good, d, records, count, life);
    if GoesOn(env, task, launch, d, count, life) {
      LoopStep(env, task, launch, d, records, count, life);
      LoopRule(env, task, launch, holds, good, Restarted(env, task, launch, d, records, count),
               records + [RestartRecord(env, task, count, launch(count).scorecard)], count + 1, life - 2);
    }
  }

  ghost predicate Head(env: Env, task: TaskId, d: Disk, records: seq<Record>, count: nat) {
    DiskOk(env, d, records) && count == 1 + CountOf(records, task)
  }

  ghost predicate EndOk(env: Env, r: Launched) { DiskOk(env, r.disk, r.records) && !r.ending.OverLimit? }

  lemma HeadKept(
    env: Env, task: TaskId, launch: nat -> LaunchResult, d: Disk, records: seq<Record>, count: nat, life: nat)
    requires Head(env, task, d, records, count) && GoesOn(env, task, launch, d, count, life)
    ensures Head(env, task, Restarted(env, task, launch, d, records, count),
                 records + [RestartRecord(env, task, count, launch(count).scorecard)], count + 1)
  {
    var r := RestartRecord(env, task, count, launch(count).scorecard);
    RecordedOk(env, d, records, r);
    OfSnoc(records, r, task);
  }

  lemma EndKept(
    env: Env, task: TaskId, launch: nat -> LaunchResult, d: Disk, records: seq<Record>, count: nat, life: nat)
    requires Head(env, task, d, records, count) && count <= env.limit + 1 && !GoesOn(env, task, launch, d, count, life)
    ensures EndOk(env, Loop(env, task, launch, d, records, count, life))
  {
    var dir := RunDir(env.attemptOf(task), count);
    LoopEnd(env, task, launch, d, records, count, life);
    if dir !in d.runDirs { MadeOk(env, d, records, dir); }
    var made := if dir in d.runDirs || life == 0 then d else d.(runDirs := d.runDirs + [dir]);
    SameFiles(env, made, Loop(env, task, launch, d, records, count, life).disk, records);
  }

  lemma LoopOk(
    env: Env, task: TaskId, launch: nat -> LaunchResult, d: Disk, records: seq<Record>, count: nat, life: nat)
    requires Head(env, task, d, records, count) && count <= env.limit + 1
    ensures EndOk(env, Loop(env, task, launch, d, records, count, life))
  {
    ghost var holds := (d: Disk, records: seq<Record>, count: nat) => Head(env, task, d, records, count);
    ghost var good := (r: Launched) => EndOk(env, r);
    forall d, records, count: nat, life: nat | holds(d, records, count) && count <= env.limit + 1
      ensures Turn(env, task, launch, holds, good, d, records, count, life)
    {
      if GoesOn(env, task, launch, d, count, life) {
        HeadKept(env, task, launch, d, records, count, life);
      } else {
        EndKept(env, task, launch, d, records, count, life);
      }
    }
    LoopRule(env, task, launch, holds, good, d, records, count, life);
  }

  lemma TaskOk(env: Env, task: TaskId, launch: nat -> LaunchResult, d: Disk, records: seq<Record>, life: nat)
    requires DiskOk(env, d, records)
    ensures EndOk(env, LaunchTask(env, task, launch, d, records, life))
  {
    assert Numbered(env, records, task);
    OfCounts(records, task);
    LoopOk(env, task, launch, d, records, 1 + CountOf(records, task), life);
  }

  lemma StepOk(env: Env, s: State, e: Event)
    requires StateOk(env, s)
    ensures StateOk(env, Step(env, s, e))
  {
    if e.Take? && s.memory.Some? { TaskOk(env, e.task, e.launch, s.disk, s.memory.value, e.life); }
  }

  lemma LifeSnoc(env: Env, init: seq<Event>, e: Event)
    ensures Life(env, init + [e]) == Step(env, Life(env, init), e)
  {
    assert (init + [e])[..|init|] == init;
  }

  lemma {:induction false} LifeOk(env: Env, events: seq<Event>)
    ensures StateOk(env, Life(env, events))
  {
    if events == [] {
    } else {
      LifeOk(env, events[..|events| - 1]);
      StepOk(env, Life(env, events[..|events| - 1]), events[|events| - 1]);
    }
  }

  /* ---- what every life keeps ---- */

  /** Whatever is launched, and wherever processes die and start again: the ledger file holds
      sealed records, those of every task numbered consecutively from 1 and at most the limit;
      and a running process holds the same list. */
  lemma LedgerNumbered(env: Env, events: seq<Event>, task: TaskId)
    ensures
      var s := Life(env, events);
      && Numbered(env, Written(s.disk), task) && AllSealed(env, Written(s.disk))
      && (s.memory.Some? ==> s.memory.value == Written(s.disk))
  {
    LifeOk(env, events);
  }

  /** The check that a task is over its limit never fires. */
  lemma NeverOverLimit(env: Env, events: seq<Event>, task: TaskId, launch: nat -> LaunchResult, life: nat)
    requires Life(env, events).memory.Some?
    ensures
      var s := Life(env, events);
      !LaunchTask(env, task, launch, s.disk, s.memory.value, life).ending.OverLimit?
  {
    LifeOk(env, events);
    var s := Life(env, events);
    TaskOk(env, task, launch, s.disk, s.memory.value, life);
  }

  /* ---- counting directories ---- */

  lemma {:induction false} Layer(dirs: set<RunDir>, attempts: set<AttemptId>, count: nat)
    requires forall p :: p in dirs ==> p.attempt in attempts && p.launchCount == count
    ensures |dirs| <= |attempts|
  {
    if dirs != {} {
      var p :| p in dirs;
      assert forall q :: q in dirs - {p} ==> q.attempt in attempts - {p.attempt};
      Layer(dirs - {p}, attempts - {p.attempt}, count);
    }
  }

  lemma OneMoreLayer(n: nat, k: nat)
    requires k > 0
    ensures n * k == n * (k - 1) + n
  {
  }

  function LayerOf(dirs: set<RunDir>, k: nat): set<RunDir> { set p | p in dirs && p.launchCount == k }

  lemma LayerSplits(dirs: set<RunDir>, k: nat)
    ensures |dirs| == |LayerOf(dirs, k)| + |dirs - LayerOf(dirs, k)|
  {
    assert dirs == LayerOf(dirs, k) + (dirs - LayerOf(dirs, k));
  }

  /** As many directories as attempts times launches, at most. */
  lemma {:induction false} DirsBounded(dirs: set<RunDir>, attempts: set<AttemptId>, k: nat)
    requires forall p :: p in dirs ==> p.attempt in attempts && 1 <= p.launchCount <= k
    ensures |dirs| <= |attempts| * k
  {
    if k == 0 {
      assert dirs == {};
    } else {
      LayerSplits(dirs, k);
      Layer(LayerOf(dirs, k), attempts, k);
      DirsBounded(dirs - LayerOf(dirs, k), attempts, k - 1);
      OneMoreLayer(|attempts|, k);
    }
  }

  function DirSet(dirs: seq<RunDir>): set<RunDir> { set p | p in dirs }

  lemma {:induction false} DirSetSize(dirs: seq<RunDir>)
    requires NoDirTwice(dirs)
    ensures |DirSet(dirs)| == |dirs|
  {
    if dirs != [] {
      var init, last := dirs[..|dirs| - 1], dirs[|dirs| - 1];
      DirSetSize(init);
      assert dirs == init + [last];
      assert DirSet(dirs) == DirSet(init) + {last};
    }
  }

  function DirsOf(env: Env, records: seq<Record>): (dirs: seq<RunDir>)
    ensures |dirs| == |records|
  {
    seq(|records|, i requires 0 <= i < |records| => Dir(env, records[i]))
  }

  /** No run directory is ever made twice, and every attempt is launched at most the limit and
      one times, over all processes and kills: a launch killed before its restart is recorded is
      not repeated, because the next process finds its directory and gives the task up. */
  lemma LaunchesBounded(env: Env, events: seq<Event>, attempt: AttemptId)
    ensures
      var dirs := Life(env, events).disk.runDirs;
      NoDirTwice(dirs) && |set p | p in dirs && p.attempt == attempt| <= env.limit + 1
  {
    LifeOk(env, events);
    var mine := set p | p in Life(env, events).disk.runDirs && p.attempt == attempt;
    DirsBounded(mine, {attempt}, env.limit + 1);
  }

  /* ---- the size of the ledger ---- */

  predicate TakenFrom(events: seq<Event>, pool: set<TaskId>) {
    forall i :: 0 <= i < |events| && events[i].Take? ==> events[i].task in pool
  }

  /** The names the tasks of a pool run under. */
  function Attempts(env: Env, pool: set<TaskId>): set<AttemptId> { set t | t in pool :: env.attemptOf(t) }

  predicate RecordsFrom(records: seq<Record>, pool: set<TaskId>) {
    forall i :: 0 <= i < |records| ==> records[i].body.task in pool
  }

  lemma {:induction false} LoopFrom(
    env: Env, task: TaskId, launch: nat -> LaunchResult, d: Disk, records: seq<Record>, count: nat, life: nat,
    pool: set<TaskId>)
    requires RecordsFrom(records, pool) && task in pool && count <= env.limit + 1
    ensures RecordsFrom(Loop(env, task, launch, d, records, count, life).records, pool)
    decreases env.limit + 1 - count
  {
    if GoesOn(env, task, launch, d, count, life) {
      var r := RestartRecord(env, task, count, launch(count).scorecard);
      LoopFrom(env, task, launch, Restarted(env, task, launch, d, records, count), records + [r],
               count + 1, life - 2, pool);
    }
  }

  lemma {:induction false} LifeFrom(env: Env, events: seq<Event>, pool: set<TaskId>)
    requires TakenFrom(events, pool)
    ensures RecordsFrom(Written(Life(env, events).disk), pool)
  {
    if events == [] {
    } else {
      var init, e := events[..|events| - 1], events[|events| - 1];
      var s := Life(env, init);
      assert forall i :: 0 <= i < |init| ==> init[i] == events[i];
      LifeFrom(env, init, pool);
      LifeOk(env, init);
      if e.Take? && !Idle(s, e.task) {
        TaskOk(env, e.task, e.launch, s.disk, s.memory.value, e.life);
        var count := 1 + CountOf(s.memory.value, e.task);
        if count <= env.limit + 1 { LoopFrom(env, e.task, e.launch, s.disk, s.memory.value, count, e.life, pool); }
      }
    }
  }

  /** The ledger never holds more records than attempts times limit. */
  lemma LedgerBounded(env: Env, events: seq<Event>, pool: set<TaskId>)
    requires TakenFrom(events, pool)
    ensures |Written(Life(env, events).disk)| <= |Attempts(env, pool)| * env.limit
  {
    var records := Written(Life(env, events).disk);
    LifeOk(env, events);
    LifeFrom(env, events, pool);
    var dirs := DirsOf(env, records);
    DirSetSize(dirs);
    forall p | p in DirSet(dirs) ensures p.attempt in Attempts(env, pool) && 1 <= p.launchCount <= env.limit {
      var i :| 0 <= i < |dirs| && dirs[i] == p;
      assert records[i].body.task in pool;
    }
    DirsBounded(DirSet(dirs), Attempts(env, pool), env.limit);
  }

  /* ---- where records come from ---- */

  /** The record of a restart that the event really earned: its launch with that count made no
      model call, changed nothing, was cleaned up and failed only at startup. */
  predicate EarnedBy(env: Env, e: Event, r: Record) {
    e.Take? &&
    var count := r.body.launchCount;
    && e.launch(count).Finished? && Eligible(e.launch(count).scorecard)
    && r == RestartRecord(env, e.task, count, e.launch(count).scorecard)
  }

  predicate Earned(env: Env, events: seq<Event>, r: Record) {
    exists k :: 0 <= k < |events| && EarnedBy(env, events[k], r)
  }

  lemma {:induction false} LoopEarns(env: Env, e: Event, d: Disk, records: seq<Record>, count: nat, life: nat)
    requires e.Take? && count <= env.limit + 1
    ensures
      var after := Loop(env, e.task, e.launch, d, records, count, life).records;
      records <= after && forall i :: |records| <= i < |after| ==> EarnedBy(env, e, after[i])
    decreases env.limit + 1 - count
  {
    if GoesOn(env, e.task, e.launch, d, count, life) {
      var more := records + [RestartRecord(env, e.task, count, e.launch(count).scorecard)];
      LoopStep(env, e.task, e.launch, d, records, count, life);
      LoopEarns(env, e, Restarted(env, e.task, e.launch, d, records, count), more, count + 1, life - 2);
    } else {
      LoopEnd(env, e.task, e.launch, d, records, count, life);
    }
  }

  lemma EarnedBefore(env: Env, init: seq<Event>, e: Event, r: Record)
    requires Earned(env, init, r) || EarnedBy(env, e, r)
    ensures Earned(env, init + [e], r)
  {
    var all := init + [e];
    if Earned(env, init, r) {
      var k :| 0 <= k < |init| && EarnedBy(env, init[k], r);
      assert EarnedBy(env, all[k], r);
    } else {
      assert EarnedBy(env, all[|init|], r);
    }
  }

  predicate AllEarned(env: Env, events: seq<Event>, records: seq<Record>) {
    forall i :: 0 <= i < |records| ==> Earned(env, events, records[i])
  }

  lemma EarnedGrows(env: Env, init: seq<Event>, e: Event, before: seq<Record>, after: seq<Record>)
    requires AllEarned(env, init, before) && before <= after
    requires forall i :: |before| <= i < |after| ==> EarnedBy(env, e, after[i])
    ensures AllEarned(env, init + [e], after)
  {
    forall i | 0 <= i < |after| ensures Earned(env, init + [e], after[i]) {
      if i < |before| { assert Earned(env, init, before[i]) && after[i] == before[i]; }
      EarnedBefore(env, init, e, after[i]);
    }
  }

  lemma StepEarns(env: Env, s: State, e: Event)
    requires StateOk(env, s)
    ensures
      var before, after := Written(s.disk), Written(Step(env, s, e).disk);
      before <= after && forall i :: |before| <= i < |after| ==> EarnedBy(env, e, after[i])
  {
    if e.Take? && !Idle(s, e.task) {
      var before := s.memory.value;
      TaskOk(env, e.task, e.launch, s.disk, before, e.life);
      var count := 1 + CountOf(before, e.task);
      if count <= env.limit + 1 { LoopEarns(env, e, s.disk, before, count, e.life); }
    }
  }

  /** Every record in every ledger of every life is of a launch that was eligible, and says of
      it exactly what the launch was. */
  lemma {:induction false} LedgerEarned(env: Env, events: seq<Event>)
    ensures AllEarned(env, events, Written(Life(env, events).disk))
  {
    if events == [] {
      assert Written(Life(env, events).disk) == [];
    } else {
      var init, e := events[..|events| - 1], events[|events| - 1];
      assert events == init + [e];
      var s := Life(env, init);
      LedgerEarned(env, init);
      LifeOk(env, init);
      StepEarns(env, s, e);
      EarnedGrows(env, init, e, Written(s.disk), Written(Step(env, s, e).disk));
    }
  }

  /* ---- loading back ---- */

  /** A written ledger loads back unchanged exactly when it is short enough and every record is
      sealed and claims no model call. */
  lemma LoadsBack(env: Env, records: seq<Record>)
    ensures Loaded(env, Some(Write(env, records))) ==
            if |records| <= env.maxRecords && AllSealed(env, records) then Some(records) else None
  {
  }

  /** Eligible for a restart as often as there may be one, and clean at the launch after. */
  function FailsAtStartup(limit: nat): nat -> LaunchResult {
    (count: nat) =>
      Finished(Scorecard(if count <= limit then 0 else 1, count <= limit, false, false, true, false, false, ""))
  }

  function FillEvent(env: Env, task: TaskId): Event { Take(task, FailsAtStartup(env.limit), 2 * env.limit + 2) }

  /** Every task restarted as often as it may be, in one process, and then valid. */
  function Fill(env: Env, tasks: seq<TaskId>): seq<Event> {
    if tasks == [] then [Start]
    else Fill(env, tasks[..|tasks| - 1]) + [FillEvent(env, tasks[|tasks| - 1])]
  }

  /** Nothing has run under this attempt. */
  predicate Unused(d: Disk, attempt: AttemptId, count: nat) {
    forall p :: p in d.runDirs && p.attempt == attempt ==> p.launchCount < count
  }

  lemma {:induction false} LoopFills(env: Env, task: TaskId, d: Disk, records: seq<Record>, count: nat, life: nat)
    requires 1 <= count <= env.limit + 1 && life >= 2 * (env.limit + 1 - count) + 2
    requires Unused(d, env.attemptOf(task), count)
    ensures
      var r := Loop(env, task, FailsAtStartup(env.limit), d, records, count, life);
      && r.ending.Settled? && r.disk.stopped == d.stopped && r.disk.attempted == d.attempted + {task}
      && |r.records| == |records| + env.limit + 1 - count
      && forall p :: p in r.disk.runDirs ==> p in d.runDirs || p.attempt == env.attemptOf(task)
    decreases env.limit + 1 - count
  {
    var launch := FailsAtStartup(env.limit);
    assert RunDir(env.attemptOf(task), count) !in d.runDirs;
    if count <= env.limit {
      var next := Restarted(env, task, launch, d, records, count);
      LoopStep(env, task, launch, d, records, count, life);
      LoopFills(env, task, next, records + [RestartRecord(env, task, count, launch(count).scorecard)],
                count + 1, life - 2);
    }
  }

  lemma {:induction false} NoneCounted(env: Env, d: Disk, records: seq<Record>, task: TaskId)
    requires Unused(d, env.attemptOf(task), 0) && forall i :: 0 <= i < |records| ==> Dir(env, records[i]) in d.runDirs
    ensures CountOf(records, task) == 0
  {
    if records != [] {
      assert Dir(env, records[|records| - 1]) in d.runDirs;
      NoneCounted(env, d, records[..|records| - 1], task);
    }
  }

  predicate DistinctAttempts(env: Env, tasks: seq<TaskId>) {
    forall i, j :: 0 <= i < j < |tasks| ==> env.attemptOf(tasks[i]) != env.attemptOf(tasks[j])
  }

  predicate RunsOneOf(env: Env, p: RunDir, tasks: seq<TaskId>) {
    exists i :: 0 <= i < |tasks| && env.attemptOf(tasks[i]) == p.attempt
  }

  /** The campaign after the given tasks: running, with only their directories. */
  predicate Filled(env: Env, s: State, tasks: seq<TaskId>) {
    && s.memory.Some? && !s.disk.stopped
    && (forall t :: t in s.disk.attempted ==> t in tasks)
    && (forall p :: p in s.disk.runDirs ==> RunsOneOf(env, p, tasks))
  }

  /** A state in which the ledger has grown by the limit, with one more task attempted. */
  ghost predicate Grown(env: Env, s: State, u: State, t: TaskId) {
    && u.memory.Some? && s.memory.Some? && |u.memory.value| == |s.memory.value| + env.limit
    && !u.disk.stopped && u.disk.attempted == s.disk.attempted + {t}
    && forall p :: p in u.disk.runDirs ==> p in s.disk.runDirs || p.attempt == env.attemptOf(t)
  }

  /** One more task filled. */
  lemma FillOne(env: Env, s: State, t: TaskId)
    requires StateOk(env, s) && s.memory.Some? && !s.disk.stopped && t !in s.disk.attempted
    requires Unused(s.disk, env.attemptOf(t), 0)
    ensures Grown(env, s, Step(env, s, FillEvent(env, t)), t)
  {
    NoneCounted(env, s.disk, s.memory.value, t);
    assert Unused(s.disk, env.attemptOf(t), 1);
    LoopFills(env, t, s.disk, s.memory.value, 1, 2 * env.limit + 2);
  }

  lemma FilledSnoc(env: Env, s: State, u: State, tasks: seq<TaskId>, t: TaskId)
    requires Filled(env, s, tasks) && Grown(env, s, u, t)
    ensures Filled(env, u, tasks + [t])
  {
    var all := tasks + [t];
    forall p | p in u.disk.runDirs ensures RunsOneOf(env, p, all) {
      if p in s.disk.runDirs {
        var i :| 0 <= i < |tasks| && env.attemptOf(tasks[i]) == p.attempt;
        assert env.attemptOf(all[i]) == p.attempt;
      } else {
        assert env.attemptOf(all[|tasks|]) == p.attempt;
      }
    }
  }

  lemma NotYetUsed(env: Env, s: State, tasks: seq<TaskId>, t: TaskId)
    requires Filled(env, s, tasks) && DistinctAttempts(env, tasks + [t])
    ensures Unused(s.disk, env.attemptOf(t), 0) && t !in s.disk.attempted
  {
    var all := tasks + [t];
    forall i | 0 <= i < |tasks| ensures env.attemptOf(tasks[i]) != env.attemptOf(t) && tasks[i] != t {
      assert env.attemptOf(all[i]) != env.attemptOf(all[|tasks|]);
    }
    assert forall p :: p in s.disk.runDirs ==> RunsOneOf(env, p, tasks);
  }

  ghost predicate Full(env: Env, s: State, tasks: seq<TaskId>) {
    StateOk(env, s) && Filled(env, s, tasks) && |Written(s.disk)| == |tasks| * env.limit
  }

  lemma GrownSize(env: Env, s: State, u: State, t: TaskId, n: nat)
    requires StateOk(env, s) && StateOk(env, u) && Grown(env, s, u, t) && |Written(s.disk)| == n * env.limit
    ensures |Written(u.disk)| == (n + 1) * env.limit
  {
    OneMoreLayer(env.limit, n + 1);
  }

  lemma FullSnoc(env: Env, s: State, tasks: seq<TaskId>, t: TaskId)
    requires Full(env, s, tasks) && DistinctAttempts(env, tasks + [t])
    ensures Full(env, Step(env, s, FillEvent(env, t)), tasks + [t])
  {
    var u := Step(env, s, FillEvent(env, t));
    NotYetUsed(env, s, tasks, t);
    FillOne(env, s, t);
    StepOk(env, s, FillEvent(env, t));
    FilledSnoc(env, s, u, tasks, t);
    GrownSize(env, s, u, t, |tasks|);
  }

  lemma FillSnoc(env: Env, tasks: seq<TaskId>, t: TaskId)
    ensures Life(env, Fill(env, tasks + [t])) == Step(env, Life(env, Fill(env, tasks)), FillEvent(env, t))
  {
    assert (tasks + [t])[..|tasks|] == tasks;
    LifeSnoc(env, Fill(env, tasks), FillEvent(env, t));
  }

  lemma FullAtFirst(env: Env)
    ensures Full(env, Life(env, Fill(env, [])), [])
  {
    LifeSnoc(env, [], Start);
    LifeOk(env, [Start]);
    assert [] + [Start] == [Start];
  }

  /** Tasks that fail at startup as often as is tolerated, and then run validly, fill the ledger
      to exactly the limit for each. */
  lemma {:induction false} FillFills(env: Env, tasks: seq<TaskId>)
    requires DistinctAttempts(env, tasks)
    ensures Full(env, Life(env, Fill(env, tasks)), tasks)
  {
    if tasks == [] {
      FullAtFirst(env);
    } else {
      var n := |tasks| - 1;
      var init, t := tasks[..n], tasks[n];
      assert tasks == init + [t];
      FillFills(env, init);
      FillSnoc(env, init, t);
      FullSnoc(env, Life(env, Fill(env, init)), init, t);
    }
  }

  lemma {:induction false} FillTakes(env: Env, tasks: seq<TaskId>, pool: set<TaskId>)
    requires forall i :: 0 <= i < |tasks| ==> tasks[i] in pool
    ensures TakenFrom(Fill(env, tasks), pool)
  {
    if tasks != [] { FillTakes(env, tasks[..|tasks| - 1], pool); }
  }

  /** One task for each attempt of a pool. */
  lemma {:induction false} Representatives(env: Env, pool: set<TaskId>) returns (tasks: seq<TaskId>)
    ensures DistinctAttempts(env, tasks) && |tasks| == |Attempts(env, pool)|
    ensures forall i :: 0 <= i < |tasks| ==> tasks[i] in pool
  {
    if pool == {} {
      assert Attempts(env, pool) == {};
      return [];
    }
    var t :| t in pool;
    var rest := pool - {t};
    var chosen := Representatives(env, rest);
    assert Attempts(env, pool) == Attempts(env, rest) + {env.attemptOf(t)};
    if env.attemptOf(t) in Attempts(env, rest) {
      assert Attempts(env, pool) == Attempts(env, rest);
      return chosen;
    }
    assert forall i :: 0 <= i < |chosen| ==> chosen[i] in rest && env.attemptOf(chosen[i]) in Attempts(env, rest);
    return chosen + [t];
  }

  /** Every ledger a campaign over a pool can ever write loads back unchanged, if and only if
      there is room for all the restarts it may record. */
  lemma EveryLedgerLoadsIffRoom(env: Env, pool: set<TaskId>)
    ensures
      (forall events :: TakenFrom(events, pool) ==>
         Loaded(env, Life(env, events).disk.ledger) == Some(Written(Life(env, events).disk)))
      <==> |Attempts(env, pool)| * env.limit <= env.maxRecords
  {
    if |Attempts(env, pool)| * env.limit <= env.maxRecords {
      forall events | TakenFrom(events, pool)
        ensures Loaded(env, Life(env, events).disk.ledger) == Some(Written(Life(env, events).disk))
      {
        LedgerBounded(env, events, pool);
        LifeOk(env, events);
        LoadsBack(env, Written(Life(env, events).disk));
      }
    } else {
      var tasks := Representatives(env, pool);
      FillFills(env, tasks);
      FillTakes(env, tasks, pool);
      LoadsBack(env, Written(Life(env, Fill(env, tasks)).disk));
    }
  }

  /* ---- names of launches ---- */

  /** Two runs of digits that end one text right after a dash are one. */
  lemma SameNumeral(s: string, p: string, q: string)
    requires Decimal.AllDigits(p) && Decimal.AllDigits(q) && |p| < |s| && |q| < |s|
    requires s[|s| - |p|..] == p && s[|s| - |p| - 1] == '-'
    requires s[|s| - |q|..] == q && s[|s| - |q| - 1] == '-'
    ensures p == q
  {
    forall k | |s| - |p| <= k < |s| ensures s[k] != '-' { assert s[|s| - |p|..][k - (|s| - |p|)] == s[k]; }
    forall k | |s| - |q| <= k < |s| ensures s[k] != '-' { assert s[|s| - |q|..][k - (|s| - |q|)] == s[k]; }
    assert |p| == |q|;
  }

  lemma LaunchIdParts(a: AttemptId, m: nat)
    ensures
      var s, p := LaunchId(a, m), Decimal.Digits(m);
      && |s| == |a.name| + 8 + |p| && s[|s| - |p|..] == p && s[|s| - |p| - 1] == '-'
      && s[..|s| - |p| - 8] == a.name
  {
    assert (a.name + "-launch-")[|a.name| + 7] == "-launch-"[7];
  }

  /** Launch ids tell attempts and launch counts apart, so a run directory's name is its attempt
      and count. */
  lemma LaunchIdInjective(a: AttemptId, m: nat, b: AttemptId, n: nat)
    requires LaunchId(a, m) == LaunchId(b, n)
    ensures a == b && m == n
  {
    Decimal.ValueOfDigits(m);
    Decimal.ValueOfDigits(n);
    LaunchIdParts(a, m);
    LaunchIdParts(b, n);
    SameNumeral(LaunchId(a, m), Decimal.Digits(m), Decimal.Digits(n));
  }
}

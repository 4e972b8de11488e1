/** What the gate-driven collection turns into datasets: the record files it wrote, in the order
    of the attempts, each record dry-run and none too long. */
module GatedRecords {
  import opened Wrappers
  import opened GatedCollection
  import P = GatedProperties
  import G = CollectionGate

  /** The record files of one role's attempts, one after another. */
  function Filed(files: map<TaskId, seq<Record>>, attempts: seq<Attempt>, role: Role): seq<Record> {
    if attempts == [] then []
    else
      var last := attempts[|attempts| - 1];
      Filed(files, attempts[..|attempts| - 1], role) +
      (if last.role == role && last.decisionRecordCount > 0 && last.task in files then files[last.task] else [])
  }

  /** Records in memory are those on disk; every dry run is its record's; none is overlength. */
  predicate Kept(env: Env, s: State) {
    forall role ::
      && s.records.Of(role) == Filed(s.disk.recordFiles, s.attempts, role)
      && s.dryRuns.Of(role) == DryRuns(env, s.records.Of(role))
      && !AnyOverlength(env, s.records.Of(role))
  }

  /** No task is imported or scheduled twice. */
  predicate DistinctInputs(env: Env) {
    && (forall j, k :: 0 <= j < k < |env.imports| ==> env.imports[j].0 != env.imports[k].0)
    && (forall j, k :: 0 <= j < k < |env.schedule| ==> env.schedule[j].task != env.schedule[k].task)
    && (forall j, k :: 0 <= j < |env.imports| && 0 <= k < |env.schedule| ==> env.imports[j].0 != env.schedule[k].task)
  }

  predicate Elsewhere(attempts: seq<Attempt>, t: TaskId) {
    forall k :: 0 <= k < |attempts| ==> attempts[k].task != t
  }

  lemma {:induction false} OtherFilesIgnored(
      files: map<TaskId, seq<Record>>, attempts: seq<Attempt>, role: Role, t: TaskId, records: seq<Record>)
    requires Elsewhere(attempts, t)
    ensures Filed(files[t := records], attempts, role) == Filed(files, attempts, role)
  {
    if attempts != [] { OtherFilesIgnored(files, attempts[..|attempts| - 1], role, t, records); }
  }

  lemma FiledSnoc(files: map<TaskId, seq<Record>>, attempts: seq<Attempt>, a: Attempt, role: Role)
    ensures Filed(files, attempts + [a], role) ==
            Filed(files, attempts, role) +
            if a.role == role && a.decisionRecordCount > 0 && a.task in files then files[a.task] else []
  {
    assert (attempts + [a])[..|attempts|] == attempts;
  }

  lemma DryRunsConcat(env: Env, a: seq<Record>, b: seq<Record>)
    ensures DryRuns(env, a + b) == DryRuns(env, a) + DryRuns(env, b)
    ensures AnyOverlength(env, a + b) <==> AnyOverlength(env, a) || AnyOverlength(env, b)
  {
    if AnyOverlength(env, b) {
      var i :| 0 <= i < |b| && env.dryRun(b[i]).overlength;
      assert (a + b)[|a| + i] == b[i];
    }
    if AnyOverlength(env, a) {
      var i :| 0 <= i < |a| && env.dryRun(a[i]).overlength;
      assert (a + b)[i] == a[i];
    }
  }

  /** A materialised attempt as both kinds of materialisation yield it. */
  predicate Proper(env: Env, m: Materialized) {
    && m.attempt.decisionRecordCount == |m.records| && m.dryRuns == DryRuns(env, m.records)
    && !AnyOverlength(env, m.records)
  }

  /** The file written for a materialised attempt; none when it has no records. */
  function WithFile(s: State, m: Materialized): State {
    if m.records == [] then s
    else s.(disk := s.disk.(recordFiles := s.disk.recordFiles[m.attempt.task := m.records]))
  }

  lemma AddKeeps(env: Env, s: State, m: Materialized)
    requires Kept(env, s) && Proper(env, m) && Elsewhere(s.attempts, m.attempt.task)
    ensures Kept(env, WithFile(s, m))
    ensures Kept(env, Add(WithFile(s, m), m))
  {
    var w := WithFile(s, m);
    forall role
      ensures w.records.Of(role) == Filed(w.disk.recordFiles, s.attempts, role)
      ensures Add(w, m).records.Of(role) == Filed(w.disk.recordFiles, Add(w, m).attempts, role)
      ensures Add(w, m).dryRuns.Of(role) == DryRuns(env, Add(w, m).records.Of(role))
      ensures !AnyOverlength(env, Add(w, m).records.Of(role))
    {
      assert s.records.Of(role) == Filed(s.disk.recordFiles, s.attempts, role);
      OtherFilesIgnored(s.disk.recordFiles, s.attempts, role, m.attempt.task, m.records);
      FiledSnoc(w.disk.recordFiles, s.attempts, m.attempt, role);
      DryRunsConcat(env, s.records.Of(role), m.records);
    }
  }

  /** The attempts at schedule position `i` are of imported or earlier scheduled tasks. */
  predicate Earlier(env: Env, attempts: seq<Attempt>, i: nat)
    requires i <= |env.schedule|
  {
    forall k :: 0 <= k < |attempts| ==>
      || (exists j :: 0 <= j < |env.imports| && env.imports[j].0 == attempts[k].task)
      || (exists j :: 0 <= j < i && env.schedule[j].task == attempts[k].task)
  }

  lemma NextElsewhere(env: Env, attempts: seq<Attempt>, i: nat)
    requires DistinctInputs(env) && i < |env.schedule| && Earlier(env, attempts, i)
    ensures Elsewhere(attempts, env.schedule[i].task)
  {
  }

  lemma EarlierGrows(env: Env, attempts: seq<Attempt>, i: nat, a: Attempt)
    requires i < |env.schedule| && Earlier(env, attempts, i) && a.task == env.schedule[i].task
    ensures Earlier(env, attempts, i + 1) && Earlier(env, attempts + [a], i + 1)
  {
  }

  predicate Head(env: Env, s: State, i: nat) {
    i <= |env.schedule| && Earlier(env, s.attempts, i) && Kept(env, s)
  }

  lemma OnlyDiskMatters(env: Env, s: State, d: Disk)
    requires Kept(env, s) && d.recordFiles == s.disk.recordFiles
    ensures Kept(env, s.(disk := d))
  {
    forall role ensures s.(disk := d).records.Of(role) == Filed(d.recordFiles, s.attempts, role) {
      assert s.records.Of(role) == Filed(s.disk.recordFiles, s.attempts, role);
    }
  }

  lemma MaterializeProper(env: Env, e: Episode, run: Run)
    requires run.Ran? && Materialize(env, e, run).Some?
    ensures Proper(env, Materialize(env, e, run).value) && Materialize(env, e, run).value.attempt.task == e.task
  {
  }

  /** An episode that is counted, with its records filed. */
  lemma CountedKeeps(env: Env, s: State, i: nat, m: Materialized, d: Disk)
    requires Head(env, s, i) && i < |env.schedule| && DistinctInputs(env)
    requires Proper(env, m) && m.attempt.task == env.schedule[i].task
    requires d.recordFiles == WithFile(s, m).disk.recordFiles
    ensures Head(env, Add(s, m).(disk := d), i + 1) && Kept(env, s.(disk := d))
  {
    NextElsewhere(env, s.attempts, i);
    AddKeeps(env, s, m);
    EarlierGrows(env, s.attempts, i, m.attempt);
    OnlyDiskMatters(env, Add(WithFile(s, m), m), d);
    OnlyDiskMatters(env, WithFile(s, m), d);
    assert Add(WithFile(s, m), m).(disk := d) == Add(s, m).(disk := d);
    assert WithFile(s, m).(disk := d) == s.(disk := d);
  }

  lemma AttemptedKeeps(env: Env, s: State, i: nat)
    requires Head(env, s, i) && i < |env.schedule| && DistinctInputs(env)
    ensures
      var turn := Attempted(env, s, i);
      && (turn.Next? ==> Head(env, turn.state, i + 1))
      && (turn.End? ==> Kept(env, s.(disk := turn.disk)))
  {
    var e, run, turn := env.schedule[i], env.run(i), Attempted(env, s, i);
    if run.RunRaised? || Materialize(env, e, run).None? {
      OnlyDiskMatters(env, s, turn.disk);
    } else {
      var m := Materialize(env, e, run).value;
      MaterializeProper(env, e, run);
      if m.records != [] && !run.recordsWritten {
        OnlyDiskMatters(env, s, turn.disk);
      } else {
        CountedKeeps(env, s, i, m, if turn.Next? then turn.state.disk else turn.disk);
      }
    }
  }

  lemma TurnKeeps(env: Env, s: State, i: nat)
    requires Head(env, s, i) && DistinctInputs(env)
    ensures P.Turns(env, (t: State, j: nat) => Head(env, t, j), (r: Ended) => Kept(env, r.state), s, i)
  {
    if i == |env.schedule| || Take(env, s, i).Break? {
      OnlyDiskMatters(env, s, Conclude(env, s).state.disk);
      assert Conclude(env, s).state == s.(disk := Conclude(env, s).state.disk);
    } else {
      var g := env.gate(s.attempts);
      if g.Some? && !g.value.satisfied && g.value.possible {
        AttemptedKeeps(env, s, i);
      } else if Take(env, s, i).End? {
        OnlyDiskMatters(env, s, Take(env, s, i).disk);
      }
    }
  }

  /** The first `k` imports. */
  predicate ImportHead(env: Env, s: State, k: nat) {
    && k <= |env.imports| && |s.attempts| == k && Kept(env, s)
    && forall j :: 0 <= j < k ==> s.attempts[j].task == env.imports[j].0
  }

  lemma {:induction false} ImportsKeep(env: Env, s: State, k: nat)
    requires ImportHead(env, s, k) && DistinctInputs(env)
    ensures Import(env, s, k).Some? ==> ImportHead(env, Import(env, s, k).value, |env.imports|)
    decreases |env.imports| - k
  {
    if k < |env.imports| && Imported(env, env.imports[k].0, env.imports[k].1).Some? {
      var m := Imported(env, env.imports[k].0, env.imports[k].1).value;
      AddKeeps(env, s, m);
      var t := Add(s, m);
      var next := t.(disk := t.disk.(recordFiles := t.disk.recordFiles[env.imports[k].0 := m.records]));
      assert next == Add(WithFile(s, m), m);
      ImportsKeep(env, next, k + 1);
    }
  }

  lemma OpeningKept(env: Env)
    requires DistinctInputs(env) && Opening(env).Some?
    ensures Head(env, Opening(env).value, 0)
  {
    assert Kept(env, NOTHING);
    ImportsKeep(env, NOTHING, 0);
    OnlyDiskMatters(env, Import(env, NOTHING, 0).value, Opening(env).value.disk);
  }

  lemma LoopKept(env: Env, s: State)
    requires DistinctInputs(env) && Head(env, s, 0)
    ensures Kept(env, Loop(env, s, 0).state)
  {
    var holds, good := (t: State, j: nat) => Head(env, t, j), (r: Ended) => Kept(env, r.state);
    forall t, j: nat | holds(t, j) && j <= |env.schedule| ensures P.Turns(env, holds, good, t, j) {
      TurnKeeps(env, t, j);
    }
    P.LoopRule(env, holds, good, s, 0);
  }

  /** On every exit of every collection over distinct tasks, the records held for each role are
      exactly the record files of that role's attempts, in order; the dry runs are those of the
      records, one by one; and no record is overlength. */
  lemma DatasetsAreTheFiles(env: Env)
    requires DistinctInputs(env) && Opening(env).Some?
    ensures Kept(env, Collected(env).state)
  {
    OpeningKept(env);
    if env.preflight {
      LoopKept(env, Opening(env).value);
    } else {
      OnlyDiskMatters(env, Opening(env).value, Collected(env).state.disk);
    }
  }

  /** The inputs of a planned collection are distinct. */
  lemma PlannedAreDistinct(env: Env, plan: G.Plan)
    requires G.Planned(env, plan)
    ensures DistinctInputs(env)
  {
    var n := |plan.trainingOrder|;
    forall k | 0 <= k < |env.schedule|
      ensures env.schedule[k].task == if k < n then plan.trainingOrder[k] else plan.validationOrder[k - n]
    {
    }
  }
}

/** The crash-resumable teacher campaign: one episode for each pool entry until enough
    succeed, progress saved after every episode, and any number of relaunches after crashes. */
module TeacherCampaign {
  import opened Wrappers
  import Decimal

  /* ---- inputs ---- */

  /** An entry of the qualified pool; a task may have changed since it was qualified. */
  datatype PoolEntry = Malformed | Candidate(task: string, identityHolds: bool)

  datatype Transcript = Transcript(path: string, hash: string, tokens: nat)

  /** What an episode and its artifacts turn out to be. */
  datatype Episode =
    | Raised(errorType: string)
    | Finished(
        infrastructureInvalid: bool, resolved: bool,
        run: Result<string, string>, usage: Result<string, string>, transcript: Result<Transcript, string>)

  datatype Config = Config(pool: seq<PoolEntry>, target: nat, maxTokens: nat, episode: nat -> Episode)

  /** What a resumed campaign must agree on. */
  datatype Identity = Identity(campaign: string, split: string, docker: string, processTime: nat)

  /* ---- durable state ---- */

  datatype Status = InfrastructureInvalid | Rejected | OverTokenLimit | EligibleSuccess

  datatype Attempt = Attempt(
    id: string, task: string, status: Status, errorType: Option<string>, resolved: Option<bool>,
    infrastructureValid: Option<bool>, run: Option<string>, usage: Option<string>,
    transcript: Option<string>, tokens: Option<nat>)

  datatype Success = Success(
    task: string, id: string, run: string, transcript: string, tokens: nat, transcriptHash: string)

  datatype StopReason =
    | RunBoundaryException | RunArtifactBoundaryInvalid | ScorecardInfrastructureInvalid
    | ProviderUsageArtifactInvalid | SuccessfulTranscriptInvalid

  datatype CampaignStatus = Running | Stopped | Completed | Exhausted

  datatype Progress = Progress(
    identity: Identity, status: CampaignStatus, stopReason: Option<StopReason>,
    attempts: seq<Attempt>, successes: seq<Success>)

  datatype Bindings = Bindings(split: string, recordCount: nat, bindings: seq<Success>)

  /** The output directory, and the episodes started over its whole life. */
  datatype Disk = Disk(
    present: bool, progress: Option<Progress>, runDirs: set<string>, bindings: Option<Bindings>, executed: seq<string>)

  const EMPTY := Disk(false, None, {}, None, [])

  datatype Error =
    | NotResumable | IdentityChanged | CannotAutoResume
    | MalformedEntry | TaskChanged | UntrackedRun | StoppedInvalid

  datatype Outcome = Done(progress: Progress) | Failed(error: Error) | Killed

  function AttemptId(campaign: string, index: nat): string {
    campaign + "-" + Decimal.Pad2(index) + "-codex-sample-0"
  }

  /* ---- judging an episode ---- */

  datatype Judged = Judged(attempt: Attempt, success: Option<Success>, stop: Option<StopReason>)

  function Judge(cfg: Config, id: string, task: string, e: Episode): Judged {
    match e
    case Raised(error) =>
      Judged(Attempt(id, task, InfrastructureInvalid, Some(error), None, None, None, None, None, None),
             None, Some(RunBoundaryException))
    case Finished(invalid, resolved, run, usage, transcript) =>
      var attempt :=
        Attempt(id, task, InfrastructureInvalid, None, Some(resolved), Some(!invalid), None, None, None, None);
      if run.Err? then
        Judged(attempt.(infrastructureValid := Some(false), errorType := Some(run.error)), None,
               Some(RunArtifactBoundaryInvalid))
      else
        var located := attempt.(run := Some(run.value));
        if invalid then Judged(located, None, Some(ScorecardInfrastructureInvalid))
        else if usage.Err? then
          Judged(located.(infrastructureValid := Some(false), errorType := Some(usage.error)), None,
                 Some(ProviderUsageArtifactInvalid))
        else
          var accounted := located.(usage := Some(usage.value));
          if !resolved then Judged(accounted.(status := Rejected), None, None)
          else if transcript.Err? then
            Judged(accounted.(infrastructureValid := Some(false), errorType := Some(transcript.error)), None,
                   Some(SuccessfulTranscriptInvalid))
          else
            var t := transcript.value;
            var counted := accounted.(tokens := Some(t.tokens), transcript := Some(t.path));
            if t.tokens > cfg.maxTokens then Judged(counted.(status := OverTokenLimit), None, None)
            else
              Judged(counted.(status := EligibleSuccess),
                     Some(Success(task, id, run.value, t.path, t.tokens, t.hash)), None)
  }

  /** The part of a success that its attempt records too. */
  datatype Key = Key(task: string, id: string, run: string, transcript: string, tokens: nat)

  function SuccessKey(s: Success): Key { Key(s.task, s.id, s.run, s.transcript, s.tokens) }

  /** When each verdict falls: an attempt succeeds exactly when nothing about it is invalid, the
      task is resolved and the transcript fits; it stops the campaign exactly when invalid. */
  lemma JudgeMeaning(cfg: Config, id: string, task: string, e: Episode)
    ensures
      var j := Judge(cfg, id, task, e);
      var sound := e.Finished? && !e.infrastructureInvalid && e.run.Ok? && e.usage.Ok?;
      && j.attempt.id == id && j.attempt.task == task
      && (j.attempt.status.Rejected? <==> sound && !e.resolved)
      && (j.attempt.status.OverTokenLimit? <==>
            sound && e.resolved && e.transcript.Ok? && e.transcript.value.tokens > cfg.maxTokens)
      && (j.attempt.status.EligibleSuccess? <==>
            sound && e.resolved && e.transcript.Ok? && e.transcript.value.tokens <= cfg.maxTokens)
      && (j.stop.Some? <==> j.attempt.status.InfrastructureInvalid?)
      && (j.stop == Some(RunBoundaryException) <==> e.Raised?)
      && (j.stop == Some(RunArtifactBoundaryInvalid) <==> e.Finished? && e.run.Err?)
      && (j.stop == Some(ScorecardInfrastructureInvalid) <==> e.Finished? && e.run.Ok? && e.infrastructureInvalid)
      && (j.stop == Some(ProviderUsageArtifactInvalid) <==>
            e.Finished? && e.run.Ok? && !e.infrastructureInvalid && e.usage.Err?)
      && (j.stop == Some(SuccessfulTranscriptInvalid) <==> sound && e.resolved && e.transcript.Err?)
      && (j.attempt.errorType.Some? <==> j.stop.Some? && j.stop != Some(ScorecardInfrastructureInvalid))
      && (j.success.Some? <==> j.attempt.status.EligibleSuccess?)
      && (j.success.Some? ==>
            && j.success.value.transcriptHash == e.transcript.value.hash
            && j.success.value.tokens <= cfg.maxTokens
            && j.attempt.run == Some(j.success.value.run) && j.attempt.transcript == Some(j.success.value.transcript)
            && j.attempt.tokens == Some(j.success.value.tokens)
            && j.success.value.id == id && j.success.value.task == task)
      && (j.stop.Some? ==> j.attempt.infrastructureValid != Some(true))
  {
  }

  /* ---- one launch ---- */

  function Ids(attempts: seq<Attempt>): seq<string> {
    seq(|attempts|, i requires 0 <= i < |attempts| => attempts[i].id)
  }

  function AttemptedIds(attempts: seq<Attempt>): set<string> { set a | a in attempts :: a.id }

  function Tasks(successes: seq<Success>): set<string> { set s | s in successes :: s.task }

  function Fresh(id: Identity): Progress { Progress(id, Running, None, [], []) }

  function BindingsOf(p: Progress): Bindings { Bindings(p.identity.split, |p.successes|, p.successes) }

  /** The disk after the episode of entry `i` has been started: its run directory exists. */
  function Started(d: Disk, id: string): Disk {
    d.(runDirs := d.runDirs + {id}, executed := d.executed + [id])
  }

  function Recorded(p: Progress, j: Judged): Progress {
    var q := p.(attempts := p.attempts + [j.attempt]);
    if j.stop.Some? then q.(status := Stopped, stopReason := j.stop)
    else if j.success.Some? then q.(successes := q.successes + [j.success.value])
    else q
  }

  function Finish(cfg: Config, d: Disk, life: nat): (Disk, Outcome)
    requires d.progress.Some?
  {
    var p := d.progress.value;
    var q := p.(status := if |p.successes| == cfg.target then Completed else Exhausted);
    if life == 0 then (d, Killed)
    else
      var saved := d.(progress := Some(q));
      if |q.successes| != cfg.target then (saved, Done(q))
      else if life == 1 then (saved, Killed)
      else (saved.(bindings := Some(BindingsOf(q))), Done(q))
  }

  /** `collect_cva6_codex_trajectories` from pool entry `i` on, as a function of the disk. The
      process survives `life` further durable operations. */
  function Loop(cfg: Config, d: Disk, i: nat, life: nat): (Disk, Outcome)
    requires d.progress.Some? && i <= |cfg.pool|
    decreases |cfg.pool| - i
  {
    var p := d.progress.value;
    if i == |cfg.pool| || |p.successes| >= cfg.target then Finish(cfg, d, life)
    else if cfg.pool[i].Malformed? then (d, Failed(MalformedEntry))
    else if cfg.pool[i].task in Tasks(p.successes) then Loop(cfg, d, i + 1, life)
    else if !cfg.pool[i].identityHolds then (d, Failed(TaskChanged))
    else
      var id := AttemptId(p.identity.campaign, i);
      if id in Ids(p.attempts) then Loop(cfg, d, i + 1, life)
      else if id in d.runDirs then (d, Failed(UntrackedRun))
      else if life == 0 then (d, Killed)
      else
        var d1 := Started(d, id);
        if life == 1 then (d1, Killed)
        else
          var j := Judge(cfg, id, cfg.pool[i].task, cfg.episode(i));
          var d2 := d1.(progress := Some(Recorded(p, j)));
          if j.stop.Some? then (d2, Failed(StoppedInvalid)) else Loop(cfg, d2, i + 1, life - 2)
  }

  datatype Opened = Ready(disk: Disk, left: nat) | Ended(disk: Disk, outcome: Outcome)

  /** `_campaign_output`: a new or resumable campaign, or the reason it is neither. */
  function Open(id: Identity, d: Disk, life: nat): (r: Opened)
    ensures r.Ready? ==> r.disk.progress.Some? && r.disk.progress.value.identity == id
  {
    if d.present then
      if d.progress.None? then Ended(d, Failed(NotResumable))
      else if d.progress.value.identity != id then Ended(d, Failed(IdentityChanged))
      else if d.progress.value.status.Stopped? then Ended(d, Failed(CannotAutoResume))
      else Ready(d, life)
    else if life == 0 then Ended(d, Killed)
    else if life == 1 then Ended(d.(present := true), Killed)
    else Ready(d.(present := true, progress := Some(Fresh(id))), life - 2)
  }

  function Launch(cfg: Config, id: Identity, d: Disk, life: nat): (Disk, Outcome) {
    match Open(id, d, life)
    case Ended(d1, outcome) => (d1, outcome)
    case Ready(d1, left) => Loop(cfg, d1, 0, left)
  }

  lemma IdsAre(attempts: seq<Attempt>, id: string)
    ensures id in Ids(attempts) <==> id in AttemptedIds(attempts)
  {
    if id in Ids(attempts) {
      var i :| 0 <= i < |Ids(attempts)| && Ids(attempts)[i] == id;
      assert attempts[i] in attempts;
    }
    if id in AttemptedIds(attempts) {
      var i :| 0 <= i < |attempts| && attempts[i].id == id;
      assert Ids(attempts)[i] == id;
    }
  }

  /** The two sets the loop keeps up to date are those of the recorded progress. */
  lemma RecordedSets(p: Progress, j: Judged)
    ensures AttemptedIds(Recorded(p, j).attempts) == AttemptedIds(p.attempts) + {j.attempt.id}
    ensures j.stop.None? ==>
              Tasks(Recorded(p, j).successes) ==
              Tasks(p.successes) + if j.success.Some? then {j.success.value.task} else {}
  {
    assert j.attempt in p.attempts + [j.attempt];
    if j.success.Some? { assert j.success.value in p.successes + [j.success.value]; }
  }

  class Campaign {
    var files: Disk

    constructor ()
      ensures files == EMPTY
    {
      files := EMPTY;
    }

    method CampaignOutput(id: Identity, life: nat) returns (ended: Option<Outcome>, left: nat)
      modifies this
      ensures Open(id, old(files), life) ==
              if ended.Some? then Ended(files, ended.value) else Ready(files, left)
    {
      if files.present {
        if files.progress.None? { return Some(Failed(NotResumable)), 0; }
        if files.progress.value.identity != id { return Some(Failed(IdentityChanged)), 0; }
        if files.progress.value.status.Stopped? { return Some(Failed(CannotAutoResume)), 0; }
        return None, life;
      }
      if life == 0 { return Some(Killed), 0; }
      files := files.(present := true);
      if life == 1 { return Some(Killed), 0; }
      files := files.(progress := Some(Fresh(id)));
      return None, life - 2;
    }

    /** Appends the attempt, and the success if there is one, and saves. */
    method SaveAttempt(before: Progress, judged: Judged) returns (current: Progress)
      modifies this`files
      ensures current == Recorded(before, judged) && files == old(files).(progress := Some(current))
    {
      current := before.(attempts := before.attempts + [judged.attempt]);
      if judged.stop.Some? {
        current := current.(status := Stopped, stopReason := judged.stop);
      } else if judged.success.Some? {
        current := current.(successes := current.successes + [judged.success.value]);
      }
      files := files.(progress := Some(current));
    }

    /** After the pool loop: the final status, and the bindings of a completed campaign. */
    method FinishCampaign(cfg: Config, progressAtEnd: Progress, left: nat) returns (outcome: Outcome)
      requires files.progress == Some(progressAtEnd)
      modifies this
      ensures (files, outcome) == Finish(cfg, old(files), left)
    {
      var current := progressAtEnd.(status := if |progressAtEnd.successes| == cfg.target then Completed else Exhausted);
      if left == 0 { return Killed; }
      files := files.(progress := Some(current));
      if |current.successes| == cfg.target {
        if left == 1 { return Killed; }
        var written := Bindings(current.identity.split, cfg.target, current.successes);
        files := files.(bindings := Some(written));
      }
      return Done(current);
    }

    /** One episode, from its run directory to the saved attempt; `judged` is its verdict. */
    method RunEntry(cfg: Config, i: nat, before: Progress, life: nat)
      returns (ended: Option<Outcome>, current: Progress, judged: Judged)
      requires i < |cfg.pool| && cfg.pool[i].Candidate? && files.progress == Some(before)
      requires |before.successes| < cfg.target && cfg.pool[i].task !in Tasks(before.successes)
      requires cfg.pool[i].identityHolds && AttemptId(before.identity.campaign, i) !in Ids(before.attempts)
      modifies this
      ensures judged == Judge(cfg, AttemptId(before.identity.campaign, i), cfg.pool[i].task, cfg.episode(i))
      ensures current == Recorded(before, judged)
      ensures ended.Some? ==> Loop(cfg, old(files), i, life) == (files, ended.value)
      ensures ended.None? ==>
                && life >= 2 && judged.stop.None? && files.progress == Some(current)
                && Loop(cfg, old(files), i, life) == Loop(cfg, files, i + 1, life - 2)
    {
      var attemptId := AttemptId(before.identity.campaign, i);
      judged := Judge(cfg, attemptId, cfg.pool[i].task, cfg.episode(i));
      current := Recorded(before, judged);
      if attemptId in files.runDirs { return Some(Failed(UntrackedRun)), current, judged; }
      if life == 0 { return Some(Killed), current, judged; }
      files := Started(files, attemptId);
      if life == 1 { return Some(Killed), current, judged; }
      current := SaveAttempt(before, judged);
      ended := if judged.stop.Some? then Some(Failed(StoppedInvalid)) else None;
    }

    method Collect(cfg: Config, id: Identity, life: nat) returns (outcome: Outcome)
      modifies this
      ensures (files, outcome) == Launch(cfg, id, old(files), life)
    {
      var ended, left := CampaignOutput(id, life);
      if ended.Some? { return ended.value; }
      var current := files.progress.value;
      var attemptedIds := AttemptedIds(current.attempts);
      var successfulTasks := Tasks(current.successes);
      ghost var whole := Launch(cfg, id, old(files), life);
      var i := 0;
      while i < |cfg.pool|
        invariant i <= |cfg.pool|
        invariant files.progress == Some(current) && current.identity == id
        invariant attemptedIds == AttemptedIds(current.attempts)
        invariant successfulTasks == Tasks(current.successes)
        invariant whole == Loop(cfg, files, i, left)
      {
        if |current.successes| >= cfg.target { break; }
        if cfg.pool[i].Malformed? { return Failed(MalformedEntry); }
        var task := cfg.pool[i].task;
        if task in successfulTasks {
          i := i + 1;
          continue;
        }
        if !cfg.pool[i].identityHolds { return Failed(TaskChanged); }
        var attemptId := AttemptId(id.campaign, i);
        IdsAre(current.attempts, attemptId);
        if attemptId in attemptedIds {
          i := i + 1;
          continue;
        }
        ghost var before := current;
        var judged;
        ended, current, judged := RunEntry(cfg, i, current, left);
        if ended.Some? { return ended.value; }
        JudgeMeaning(cfg, attemptId, task, cfg.episode(i));
        RecordedSets(before, judged);
        if judged.success.Some? { successfulTasks := successfulTasks + {task}; }
        attemptedIds := attemptedIds + {attemptId};
        left := left - 2;
        i := i + 1;
      }
      outcome := FinishCampaign(cfg, current, left);
    }
  }
}

/** What a crashing and resuming teacher campaign adds up to: the state one uninterrupted pass
    over the pool leaves, every episode at most once, and an invariant at every save. */
module TeacherResume {
  import opened Wrappers
  import opened TeacherCampaign
  import Decimal

  /* ---- one uninterrupted pass ---- */

  datatype Pass = Pass(
    attempts: seq<Attempt>, successes: seq<Success>, stopReason: Option<StopReason>, ended: Option<Error>)

  /** An entry the pass would run an episode for. */
  predicate Runs(cfg: Config, s: Pass, i: nat)
    requires i < |cfg.pool|
  {
    && s.ended.None? && |s.successes| < cfg.target
    && cfg.pool[i].Candidate? && cfg.pool[i].task !in Tasks(s.successes) && cfg.pool[i].identityHolds
  }

  function Verdict(cfg: Config, id: Identity, i: nat): Judged
    requires i < |cfg.pool| && cfg.pool[i].Candidate?
  {
    Judge(cfg, AttemptId(id.campaign, i), cfg.pool[i].task, cfg.episode(i))
  }

  function Advance(cfg: Config, id: Identity, s: Pass, i: nat): Pass
    requires i < |cfg.pool|
  {
    if s.ended.Some? || |s.successes| >= cfg.target then s
    else if cfg.pool[i].Malformed? then s.(ended := Some(MalformedEntry))
    else if cfg.pool[i].task in Tasks(s.successes) then s
    else if !cfg.pool[i].identityHolds then s.(ended := Some(TaskChanged))
    else
      var j := Verdict(cfg, id, i);
      Pass(s.attempts + [j.attempt],
           if j.stop.None? && j.success.Some? then s.successes + [j.success.value] else s.successes,
           j.stop, if j.stop.Some? then Some(StoppedInvalid) else None)
  }

  /** The pass over the first `k` entries, which knows nothing of files or resuming. */
  function At(cfg: Config, id: Identity, k: nat): Pass
    requires k <= |cfg.pool|
  {
    if k == 0 then Pass([], [], None, None) else Advance(cfg, id, At(cfg, id, k - 1), k - 1)
  }

  function EndStatus(cfg: Config, s: Pass): CampaignStatus {
    match s.ended
    case None => if |s.successes| == cfg.target then Completed else Exhausted
    case Some(StoppedInvalid) => Stopped
    case Some(_) => Running
  }

  function IdSet(ids: seq<string>): set<string> { set x | x in ids }

  /** The disk and the outcome the whole pass leaves. */
  function PassEnd(cfg: Config, id: Identity): (Disk, Outcome) {
    var s := At(cfg, id, |cfg.pool|);
    var p := Progress(id, EndStatus(cfg, s), s.stopReason, s.attempts, s.successes);
    var ids := Ids(s.attempts);
    (Disk(true, Some(p), IdSet(ids), if p.status.Completed? then Some(BindingsOf(p)) else None, ids),
     if s.ended.Some? then Failed(s.ended.value) else Done(p))
  }

  /* ---- facts about the pass ---- */

  /** The first pass is a prefix of the second. */
  predicate Before(s: Pass, t: Pass) { s.attempts <= t.attempts && s.successes <= t.successes }

  predicate Over(cfg: Config, s: Pass) { s.ended.Some? || |s.successes| >= cfg.target }

  lemma AtNext(cfg: Config, id: Identity, k: nat)
    requires k < |cfg.pool|
    ensures At(cfg, id, k + 1) == Advance(cfg, id, At(cfg, id, k), k)
  {
  }

  lemma AdvanceGrows(cfg: Config, id: Identity, s: Pass, i: nat)
    requires i < |cfg.pool|
    ensures Before(s, Advance(cfg, id, s, i))
    ensures Over(cfg, s) ==> Advance(cfg, id, s, i) == s
  {
  }

  lemma {:induction false} AtGrows(cfg: Config, id: Identity, k: nat, m: nat)
    requires k <= m <= |cfg.pool|
    ensures Before(At(cfg, id, k), At(cfg, id, m))
    ensures Over(cfg, At(cfg, id, k)) ==> At(cfg, id, m) == At(cfg, id, k)
  {
    if k < m {
      AtGrows(cfg, id, k, m - 1);
      AdvanceGrows(cfg, id, At(cfg, id, m - 1), m - 1);
    }
  }

  lemma Pad2Distinct(campaign: string, i: nat, j: nat)
    requires AttemptId(campaign, i) == AttemptId(campaign, j)
    ensures i == j
  {
    var a, b := AttemptId(campaign, i), AttemptId(campaign, j);
    var n := |campaign| + 1;
    assert a[n..|a| - 15] == Decimal.Pad2(i) && b[n..|b| - 15] == Decimal.Pad2(j);
    Decimal.Pad2Injective(i, j);
  }

  predicate Unique(ids: seq<string>) {
    forall i, j :: 0 <= i < j < |ids| ==> ids[i] != ids[j]
  }

  lemma IdsSnoc(attempts: seq<Attempt>, a: Attempt)
    ensures Ids(attempts + [a]) == Ids(attempts) + [a.id]
  {
  }

  lemma NotEarlier(cfg: Config, id: Identity, k: nat)
    requires k <= |cfg.pool|
    requires forall x :: x in Ids(At(cfg, id, k).attempts) ==> exists j: nat :: j < k && x == AttemptId(id.campaign, j)
    ensures AttemptId(id.campaign, k) !in Ids(At(cfg, id, k).attempts)
  {
    if AttemptId(id.campaign, k) in Ids(At(cfg, id, k).attempts) {
      var j: nat :| j < k && AttemptId(id.campaign, k) == AttemptId(id.campaign, j);
      Pad2Distinct(id.campaign, k, j);
    }
  }

  /** The attempts of a pass carry the identifiers of earlier entries, each once. */
  lemma {:induction false} IdsOfEarlier(cfg: Config, id: Identity, k: nat)
    requires k <= |cfg.pool|
    ensures forall x :: x in Ids(At(cfg, id, k).attempts) ==> exists j: nat :: j < k && x == AttemptId(id.campaign, j)
    ensures Unique(Ids(At(cfg, id, k).attempts))
  {
    if k > 0 {
      IdsOfEarlier(cfg, id, k - 1);
      var s := At(cfg, id, k - 1);
      if Runs(cfg, s, k - 1) {
        var j := Verdict(cfg, id, k - 1);
        JudgeMeaning(cfg, AttemptId(id.campaign, k - 1), cfg.pool[k - 1].task, cfg.episode(k - 1));
        IdsSnoc(s.attempts, j.attempt);
        NotEarlier(cfg, id, k - 1);
      }
    }
  }

  /** An entry the loop steps over: its task succeeded, or it is unchanged and already attempted. */
  predicate Skipped(cfg: Config, id: Identity, s: Pass, i: nat)
    requires i < |cfg.pool|
  {
    && cfg.pool[i].Candidate?
    && (cfg.pool[i].task in Tasks(s.successes) ||
        (cfg.pool[i].identityHolds && AttemptId(id.campaign, i) in Ids(s.attempts)))
  }

  lemma JustSkipped(cfg: Config, id: Identity, s: Pass, i: nat)
    requires i < |cfg.pool| && !Over(cfg, s) && !Over(cfg, Advance(cfg, id, s, i))
    ensures Skipped(cfg, id, Advance(cfg, id, s, i), i)
  {
    if Runs(cfg, s, i) {
      var a := Verdict(cfg, id, i).attempt;
      JudgeMeaning(cfg, AttemptId(id.campaign, i), cfg.pool[i].task, cfg.episode(i));
      IdsSnoc(s.attempts, a);
      assert a.id in Ids(s.attempts + [a]);
    }
  }

  lemma StaysSkipped(cfg: Config, id: Identity, s: Pass, t: Pass, i: nat)
    requires i < |cfg.pool| && Before(s, t) && Skipped(cfg, id, s, i)
    ensures Skipped(cfg, id, t, i)
  {
    assert Ids(s.attempts) <= Ids(t.attempts);
    assert forall x :: x in s.successes ==> x in t.successes;
  }

  /** Entries a resumed pass has behind it are skipped. */
  lemma BehindIsSkipped(cfg: Config, id: Identity, i: nat, k: nat)
    requires i < k <= |cfg.pool| && !Over(cfg, At(cfg, id, k))
    ensures Skipped(cfg, id, At(cfg, id, k), i)
  {
    var s, next, now := At(cfg, id, i), At(cfg, id, i + 1), At(cfg, id, k);
    AtGrows(cfg, id, i, k);
    AtGrows(cfg, id, i + 1, k);
    AtNext(cfg, id, i);
    JustSkipped(cfg, id, s, i);
    StaysSkipped(cfg, id, next, now, i);
  }

  /* ---- disks on the track of the pass ---- */

  /** The disk holds the pass over the first `k` entries; `busy` when the process died inside
      the episode of entry `k`. */
  predicate Track(cfg: Config, id: Identity, d: Disk, k: nat, busy: bool) {
    && d.present && d.progress.Some? && k <= |cfg.pool|
    && var p, s := d.progress.value, At(cfg, id, k);
    && p.identity == id && p.attempts == s.attempts && p.successes == s.successes && p.stopReason == s.stopReason
    && (s.ended.None? || s.ended == Some(StoppedInvalid))
    && (p.status.Running? || (s == At(cfg, id, |cfg.pool|) && p.status == EndStatus(cfg, s)))
    && (s.ended.Some? ==> p.status.Stopped?)
    && (d.bindings.Some? ==> p.status.Completed? && d.bindings.value == BindingsOf(p))
    && d.runDirs == IdSet(d.executed)
    && (if busy then k < |cfg.pool| && Runs(cfg, s, k) && d.executed == Ids(s.attempts) + [AttemptId(id.campaign, k)]
        else d.executed == Ids(s.attempts))
  }

  lemma {:induction false} LoopSkips(cfg: Config, id: Identity, d: Disk, k: nat, busy: bool, i: nat, life: nat)
    requires Track(cfg, id, d, k, busy) && i <= k && At(cfg, id, k).ended.None?
    ensures Loop(cfg, d, i, life) == Loop(cfg, d, k, life)
    decreases k - i
  {
    if i < k && |At(cfg, id, k).successes| < cfg.target {
      BehindIsSkipped(cfg, id, i, k);
      LoopSkips(cfg, id, d, k, busy, i + 1, life);
    }
  }

  lemma FinishTracks(cfg: Config, id: Identity, d: Disk, k: nat, life: nat)
    requires Track(cfg, id, d, k, false) && At(cfg, id, k).ended.None?
    requires k == |cfg.pool| || |At(cfg, id, k).successes| >= cfg.target
    ensures Track(cfg, id, Finish(cfg, d, life).0, k, false)
    ensures Finish(cfg, d, life).1.Killed? || Finish(cfg, d, life) == PassEnd(cfg, id)
    ensures life >= 2 ==> !Finish(cfg, d, life).1.Killed?
  {
    AtGrows(cfg, id, k, |cfg.pool|);
  }

  /** The process is still on the track, or has ended as the pass does. */
  predicate Reaches(cfg: Config, id: Identity, r: (Disk, Outcome), m: nat, busy: bool) {
    Track(cfg, id, r.0, m, busy) && (r.1.Killed? || r == PassEnd(cfg, id))
  }

  lemma RunChangesPass(cfg: Config, id: Identity, k: nat)
    requires k < |cfg.pool| && Runs(cfg, At(cfg, id, k), k)
    ensures At(cfg, id, |cfg.pool|) != At(cfg, id, k)
  {
    AtGrows(cfg, id, k + 1, |cfg.pool|);
    assert |At(cfg, id, k + 1).attempts| == |At(cfg, id, k).attempts| + 1;
  }

  lemma StartTracks(cfg: Config, id: Identity, d: Disk, k: nat)
    requires Track(cfg, id, d, k, false) && k < |cfg.pool| && Runs(cfg, At(cfg, id, k), k)
    ensures AttemptId(id.campaign, k) !in Ids(d.progress.value.attempts) && AttemptId(id.campaign, k) !in d.runDirs
    ensures Track(cfg, id, Started(d, AttemptId(id.campaign, k)), k, true)
    ensures d.progress.value.status.Running? && d.bindings.None?
  {
    IdsOfEarlier(cfg, id, k);
    NotEarlier(cfg, id, k);
    RunChangesPass(cfg, id, k);
    assert IdSet(d.executed + [AttemptId(id.campaign, k)]) == IdSet(d.executed) + {AttemptId(id.campaign, k)};
  }

  /** The disk once the attempt of entry `k` is saved. */
  function Saved(cfg: Config, id: Identity, d: Disk, k: nat): Disk
    requires k < |cfg.pool| && cfg.pool[k].Candidate? && d.progress.Some?
  {
    Started(d, AttemptId(id.campaign, k)).(progress := Some(Recorded(d.progress.value, Verdict(cfg, id, k))))
  }

  lemma {:induction false} NoReasonBeforeEnd(cfg: Config, id: Identity, k: nat)
    requires k <= |cfg.pool|
    ensures At(cfg, id, k).stopReason.Some? <==> At(cfg, id, k).ended == Some(StoppedInvalid)
  {
    if k > 0 { NoReasonBeforeEnd(cfg, id, k - 1); }
  }

  lemma RecordTracks(cfg: Config, id: Identity, d: Disk, k: nat)
    requires Track(cfg, id, d, k, false) && k < |cfg.pool| && Runs(cfg, At(cfg, id, k), k)
    ensures
      var j := Verdict(cfg, id, k);
      && Track(cfg, id, Saved(cfg, id, d, k), k + 1, false)
      && (At(cfg, id, k + 1).ended.Some? <==> j.stop.Some?)
      && (j.stop.Some? ==> Saved(cfg, id, d, k) == PassEnd(cfg, id).0 && PassEnd(cfg, id).1 == Failed(StoppedInvalid))
  {
    var j := Verdict(cfg, id, k);
    var s, t := At(cfg, id, k), At(cfg, id, k + 1);
    StartTracks(cfg, id, d, k);
    JudgeMeaning(cfg, AttemptId(id.campaign, k), cfg.pool[k].task, cfg.episode(k));
    IdsSnoc(s.attempts, j.attempt);
    NoReasonBeforeEnd(cfg, id, k);
    if j.stop.Some? { AtGrows(cfg, id, k + 1, |cfg.pool|); }
  }

  /** One turn of the loop at an entry whose episode is still to run. */
  lemma LoopTurn(cfg: Config, id: Identity, d: Disk, k: nat, life: nat)
    requires Track(cfg, id, d, k, false) && k < |cfg.pool| && Runs(cfg, At(cfg, id, k), k)
    ensures
      Loop(cfg, d, k, life) ==
      if life == 0 then (d, Killed)
      else if life == 1 then (Started(d, AttemptId(id.campaign, k)), Killed)
      else if Verdict(cfg, id, k).stop.Some? then (Saved(cfg, id, d, k), Failed(StoppedInvalid))
      else Loop(cfg, Saved(cfg, id, d, k), k + 1, life - 2)
  {
    StartTracks(cfg, id, d, k);
  }

  /** A process killed before or inside the episode of entry `k`. */
  lemma KilledRun(cfg: Config, id: Identity, d: Disk, k: nat, life: nat)
    requires Track(cfg, id, d, k, false) && k < |cfg.pool| && Runs(cfg, At(cfg, id, k), k) && life <= 1
    ensures Loop(cfg, d, k, life).1.Killed? && Track(cfg, id, Loop(cfg, d, k, life).0, k, life == 1)
  {
    LoopTurn(cfg, id, d, k, life);
    StartTracks(cfg, id, d, k);
  }

  /** An episode that stops the campaign ends the pass too. */
  lemma StoppedRun(cfg: Config, id: Identity, d: Disk, k: nat, life: nat)
    requires Track(cfg, id, d, k, false) && k < |cfg.pool| && Runs(cfg, At(cfg, id, k), k) && life >= 2
    requires Verdict(cfg, id, k).stop.Some?
    ensures Loop(cfg, d, k, life) == PassEnd(cfg, id) && Track(cfg, id, Loop(cfg, d, k, life).0, k + 1, false)
  {
    LoopTurn(cfg, id, d, k, life);
    RecordTracks(cfg, id, d, k);
  }

  /** Any other episode leaves the next entry to the loop. */
  lemma SavedRun(cfg: Config, id: Identity, d: Disk, k: nat, life: nat)
    requires Track(cfg, id, d, k, false) && k < |cfg.pool| && Runs(cfg, At(cfg, id, k), k) && life >= 2
    requires Verdict(cfg, id, k).stop.None?
    ensures Loop(cfg, d, k, life) == Loop(cfg, Saved(cfg, id, d, k), k + 1, life - 2)
    ensures Track(cfg, id, Saved(cfg, id, d, k), k + 1, false) && At(cfg, id, k + 1).ended.None?
  {
    LoopTurn(cfg, id, d, k, life);
    RecordTracks(cfg, id, d, k);
  }

  predicate GoesTo(cfg: Config, holds: (Disk, nat) -> bool, d: Disk, k: nat, life: nat, e: Disk, left: nat)
    requires d.progress.Some? && k <= |cfg.pool|
  {
    && k < |cfg.pool| && life <= left + 2 && holds(e, k + 1) && e.progress.Some?
    && Loop(cfg, d, k, life) == Loop(cfg, e, k + 1, left)
  }

  /** From entry `k` the loop ends well, or goes on like this from the next entry with at most
      two durable operations less. */
  ghost predicate Turn(
    cfg: Config, holds: (Disk, nat) -> bool, good: ((Disk, Outcome), int) -> bool, d: Disk, k: nat, life: nat)
    requires d.progress.Some? && k <= |cfg.pool|
  {
    good(Loop(cfg, d, k, life), life - 2 * (|cfg.pool| - k)) ||
    exists e: Disk, left: nat :: GoesTo(cfg, holds, d, k, life, e, left)
  }

  /** The proof rule of the loop; the second argument of a claim is the slack of the life. */
  lemma {:induction false} LoopRule(
    cfg: Config, holds: (Disk, nat) -> bool, good: ((Disk, Outcome), int) -> bool, d: Disk, k: nat, life: nat)
    requires forall d: Disk, k: nat, life: nat :: holds(d, k) && d.progress.Some? && k <= |cfg.pool| ==>
               Turn(cfg, holds, good, d, k, life)
    requires forall r, m: int, n: int :: good(r, n) && m <= n ==> good(r, m)
    requires holds(d, k) && d.progress.Some? && k <= |cfg.pool|
    ensures good(Loop(cfg, d, k, life), life - 2 * (|cfg.pool| - k))
    decreases |cfg.pool| - k
  {
    assert Turn(cfg, holds, good, d, k, life);
    if !good(Loop(cfg, d, k, life), life - 2 * (|cfg.pool| - k)) {
      var e: Disk, left: nat :| GoesTo(cfg, holds, d, k, life, e, left);
      LoopRule(cfg, holds, good, e, k + 1, left);
    }
  }

  predicate OnTrack(cfg: Config, id: Identity, d: Disk, k: nat) {
    Track(cfg, id, d, k, false) && At(cfg, id, k).ended.None?
  }

  ghost predicate EndsWell(cfg: Config, id: Identity, r: (Disk, Outcome), slack: int) {
    (exists m: nat, busy :: Reaches(cfg, id, r, m, busy)) && (r.1.Killed? ==> slack < 2)
  }

  lemma EndedWell(cfg: Config, id: Identity, r: (Disk, Outcome), slack: int, m: nat, busy: bool)
    requires Reaches(cfg, id, r, m, busy) && (r.1.Killed? ==> slack < 2)
    ensures EndsWell(cfg, id, r, slack)
  {
  }

  /** An entry at which the loop ends without running an episode. */
  lemma EndTurn(cfg: Config, id: Identity, d: Disk, k: nat, life: nat)
    requires OnTrack(cfg, id, d, k)
    requires
      var s := At(cfg, id, k);
      || k == |cfg.pool| || |s.successes| >= cfg.target || cfg.pool[k].Malformed?
      || (cfg.pool[k].task !in Tasks(s.successes) && !cfg.pool[k].identityHolds)
    ensures EndsWell(cfg, id, Loop(cfg, d, k, life), life - 2 * (|cfg.pool| - k))
  {
    if k == |cfg.pool| || |At(cfg, id, k).successes| >= cfg.target {
      FinishTracks(cfg, id, d, k, life);
    } else {
      AtGrows(cfg, id, k + 1, |cfg.pool|);
    }
    EndedWell(cfg, id, Loop(cfg, d, k, life), life - 2 * (|cfg.pool| - k), k, false);
  }

  /** An entry whose episode is to run. */
  lemma RunTurn(
    cfg: Config, id: Identity, d: Disk, k: nat, life: nat,
    holds: (Disk, nat) -> bool, good: ((Disk, Outcome), int) -> bool)
    requires OnTrack(cfg, id, d, k) && k < |cfg.pool| && Runs(cfg, At(cfg, id, k), k)
    requires forall e: Disk {:trigger holds(e, k + 1)} :: OnTrack(cfg, id, e, k + 1) ==> holds(e, k + 1)
    requires forall r, n: int {:trigger good(r, n)} :: EndsWell(cfg, id, r, n) ==> good(r, n)
    ensures Turn(cfg, holds, good, d, k, life)
  {
    var slack := life - 2 * (|cfg.pool| - k);
    if life <= 1 {
      KilledRun(cfg, id, d, k, life);
      EndedWell(cfg, id, Loop(cfg, d, k, life), slack, k, life == 1);
    } else if Verdict(cfg, id, k).stop.Some? {
      StoppedRun(cfg, id, d, k, life);
      EndedWell(cfg, id, Loop(cfg, d, k, life), slack, k + 1, false);
    } else {
      SavedRun(cfg, id, d, k, life);
      assert GoesTo(cfg, holds, d, k, life, Saved(cfg, id, d, k), life - 2);
    }
  }

  /** An entry whose task has succeeded already. */
  lemma SkipTurn(cfg: Config, id: Identity, d: Disk, k: nat, life: nat)
    requires OnTrack(cfg, id, d, k) && k < |cfg.pool| && |At(cfg, id, k).successes| < cfg.target
    requires cfg.pool[k].Candidate? && cfg.pool[k].task in Tasks(At(cfg, id, k).successes)
    ensures Loop(cfg, d, k, life) == Loop(cfg, d, k + 1, life) && OnTrack(cfg, id, d, k + 1)
  {
  }

  /** A process that reaches entry `k` on the track stays on it, and with enough life ends as
      the pass does. */
  lemma LoopTracks(cfg: Config, id: Identity, d: Disk, k: nat, life: nat) returns (m: nat, busy: bool)
    requires OnTrack(cfg, id, d, k)
    ensures Reaches(cfg, id, Loop(cfg, d, k, life), m, busy)
    ensures Loop(cfg, d, k, life).1.Killed? ==> life < 2 * (|cfg.pool| - k) + 2
  {
    ghost var holds := (d: Disk, k: nat) => OnTrack(cfg, id, d, k);
    ghost var good := (r: (Disk, Outcome), slack: int) => EndsWell(cfg, id, r, slack);
    forall d: Disk, k: nat, life: nat | holds(d, k) && d.progress.Some? && k <= |cfg.pool|
      ensures Turn(cfg, holds, good, d, k, life)
    {
      if k < |cfg.pool| && Runs(cfg, At(cfg, id, k), k) {
        RunTurn(cfg, id, d, k, life, holds, good);
      } else if k < |cfg.pool| && |At(cfg, id, k).successes| < cfg.target && cfg.pool[k].Candidate?
                && cfg.pool[k].task in Tasks(At(cfg, id, k).successes) {
        SkipTurn(cfg, id, d, k, life);
        assert GoesTo(cfg, holds, d, k, life, d, life);
      } else {
        EndTurn(cfg, id, d, k, life);
      }
    }
    LoopRule(cfg, holds, good, d, k, life);
    m, busy :| Reaches(cfg, id, Loop(cfg, d, k, life), m, busy);
  }

  /* ---- whole lives ---- */

  datatype Relaunch = Relaunch(id: Identity, life: nat)

  /** The disk after a sequence of launches, each by some identity and cut short at will. */
  function Life(cfg: Config, launches: seq<Relaunch>): Disk {
    if launches == [] then EMPTY
    else
      var last := launches[|launches| - 1];
      Launch(cfg, last.id, Life(cfg, launches[..|launches| - 1]), last.life).0
  }

  /** One launch from a disk on the track. */
  lemma LaunchTracks(cfg: Config, id: Identity, d: Disk, k: nat, busy: bool, life: nat) returns (m: nat, busy': bool)
    requires Track(cfg, id, d, k, busy)
    ensures
      var r := Launch(cfg, id, d, life);
      && Track(cfg, id, r.0, m, busy')
      && (busy ==> r == (d, Failed(UntrackedRun)))
      && (d.progress.value.status.Stopped? ==> r == (d, Failed(CannotAutoResume)) && d == PassEnd(cfg, id).0)
      && (!busy && !d.progress.value.status.Stopped? && !r.1.Killed? ==> r == PassEnd(cfg, id))
      && (r.1.Killed? ==> life < 2 * |cfg.pool| + 2)
  {
    if d.progress.value.status.Stopped? {
      m, busy' := k, busy;
    } else {
      LoopSkips(cfg, id, d, k, busy, 0, life);
      if busy {
        IdsOfEarlier(cfg, id, k);
        NotEarlier(cfg, id, k);
        m, busy' := k, true;
      } else {
        m, busy' := LoopTracks(cfg, id, d, k, life);
      }
    }
  }

  lemma FirstLaunchTracks(cfg: Config, id: Identity, life: nat) returns (m: nat, busy: bool)
    requires life >= 2
    ensures
      var r := Launch(cfg, id, EMPTY, life);
      && Track(cfg, id, r.0, m, busy)
      && (r.1.Killed? || r == PassEnd(cfg, id))
      && (r.1.Killed? ==> life < 2 * |cfg.pool| + 4)
  {
    var d := EMPTY.(present := true, progress := Some(Fresh(id)));
    assert Ids([]) == [] && IdSet([]) == {};
    assert Track(cfg, id, d, 0, false);
    m, busy := LoopTracks(cfg, id, d, 0, life - 2);
  }

  /** Every disk a life can reach: untouched, abandoned before the first save, or on the track
      of the identity that created it. */
  lemma {:induction false} LifeTracks(cfg: Config, launches: seq<Relaunch>) returns (k: nat, busy: bool)
    ensures
      var d := Life(cfg, launches);
      d == EMPTY || d == EMPTY.(present := true) ||
      (d.progress.Some? && Track(cfg, d.progress.value.identity, d, k, busy))
  {
    k, busy := 0, false;
    if launches != [] {
      var last := launches[|launches| - 1];
      var before := Life(cfg, launches[..|launches| - 1]);
      k, busy := LifeTracks(cfg, launches[..|launches| - 1]);
      if before.progress.Some? {
        if before.progress.value.identity == last.id {
          k, busy := LaunchTracks(cfg, last.id, before, k, busy, last.life);
        }
      } else if before == EMPTY && last.life >= 2 {
        k, busy := FirstLaunchTracks(cfg, last.id, last.life);
      }
    }
  }

  /** Left alone, a campaign ends as the uninterrupted pass does. */
  lemma Undisturbed(cfg: Config, id: Identity, life: nat)
    requires life >= 2 * |cfg.pool| + 4
    ensures Launch(cfg, id, EMPTY, life) == PassEnd(cfg, id)
  {
    var m, busy := FirstLaunchTracks(cfg, id, life);
  }

  /** Nothing is there, or a saved campaign of this identity with no run it does not know. */
  predicate Resumable(d: Disk, id: Identity) {
    || !d.present
    || (d.progress.Some? && d.progress.value.identity == id && d.runDirs <= AttemptedIds(d.progress.value.attempts))
  }

  lemma StartsUntracked(cfg: Config, id: Identity, k: nat)
    requires k <= |cfg.pool|
    ensures AttemptId(id.campaign, k) !in Ids(At(cfg, id, k).attempts)
  {
    IdsOfEarlier(cfg, id, k);
    NotEarlier(cfg, id, k);
  }

  /** A process that died inside an episode left exactly that run untracked. */
  lemma BusyIsUntracked(cfg: Config, id: Identity, d: Disk, k: nat, busy: bool)
    requires Track(cfg, id, d, k, busy)
    ensures busy <==> !(d.runDirs <= AttemptedIds(d.progress.value.attempts))
  {
    var attempts, next := d.progress.value.attempts, AttemptId(id.campaign, k);
    forall x ensures x in IdSet(Ids(attempts)) <==> x in AttemptedIds(attempts) { IdsAre(attempts, x); }
    if busy {
      StartsUntracked(cfg, id, k);
      IdsAre(attempts, next);
      assert d.executed[|attempts|] == next && next in d.runDirs;
    }
  }

  /** How a relaunch that nothing kills ends, from any disk a life can leave. */
  function Relaunched(cfg: Config, id: Identity, d: Disk): (Disk, Outcome) {
    if !d.present then PassEnd(cfg, id)
    else if d.progress.None? then (d, Failed(NotResumable))
    else if d.progress.value.identity != id then (d, Failed(IdentityChanged))
    else if d.progress.value.status.Stopped? then (d, Failed(CannotAutoResume))
    else if !Resumable(d, id) then (d, Failed(UntrackedRun))
    else PassEnd(cfg, id)
  }

  /** The pass's own disk has no untracked run. */
  lemma PassEndTracked(cfg: Config, id: Identity)
    ensures Resumable(PassEnd(cfg, id).0, id)
  {
    var attempts := At(cfg, id, |cfg.pool|).attempts;
    forall x ensures x in IdSet(Ids(attempts)) <==> x in AttemptedIds(attempts) { IdsAre(attempts, x); }
  }

  /** A saved campaign, relaunched under its own identity. */
  lemma TrackedRelaunch(cfg: Config, id: Identity, d: Disk, k: nat, busy: bool, life: nat)
    requires Track(cfg, id, d, k, busy) && life >= 2 * |cfg.pool| + 4
    ensures Launch(cfg, id, d, life) == Relaunched(cfg, id, d)
    ensures Launch(cfg, id, d, life).0 == PassEnd(cfg, id).0 <==> Resumable(d, id)
  {
    var m, busy' := LaunchTracks(cfg, id, d, k, busy, life);
    BusyIsUntracked(cfg, id, d, k, busy);
    PassEndTracked(cfg, id);
  }

  /** However often a campaign was cut short and by whom it was launched, one more launch that
      nothing kills ends with exactly the disk of the uninterrupted pass if and only if nothing
      is there yet, or progress of the same identity is saved and no run is untracked. Every
      other launch is refused for the stated reason and changes nothing. */
  lemma ResumedEqualsUninterrupted(cfg: Config, launches: seq<Relaunch>, id: Identity, life: nat)
    requires life >= 2 * |cfg.pool| + 4
    ensures
      var d := Life(cfg, launches);
      var r := Launch(cfg, id, d, life);
      && r == Relaunched(cfg, id, d)
      && (r.0 == PassEnd(cfg, id).0 <==> Resumable(d, id))
  {
    var d := Life(cfg, launches);
    var k, busy := LifeTracks(cfg, launches);
    if d.progress.Some? {
      if d.progress.value.identity == id { TrackedRelaunch(cfg, id, d, k, busy, life); }
    } else if d == EMPTY {
      Undisturbed(cfg, id, life);
    }
  }

  lemma OneLaunch(cfg: Config, launch: Relaunch)
    ensures Life(cfg, [launch]) == Launch(cfg, launch.id, EMPTY, launch.life).0
  {
    assert [launch][..0] == [] && Life(cfg, []) == EMPTY;
  }

  /** The two ways a life ends that no relaunch resumes: a kill between the directory and the
      first save, and a kill inside the first episode. */
  lemma KilledBeyondResuming(cfg: Config, id: Identity)
    requires cfg.target > 0 && cfg.pool != [] && cfg.pool[0].Candidate? && cfg.pool[0].identityHolds
    ensures !Resumable(Life(cfg, [Relaunch(id, 1)]), id) && Life(cfg, [Relaunch(id, 1)]).progress.None?
    ensures !Resumable(Life(cfg, [Relaunch(id, 3)]), id) && Life(cfg, [Relaunch(id, 3)]).progress == Some(Fresh(id))
  {
    OneLaunch(cfg, Relaunch(id, 1));
    OneLaunch(cfg, Relaunch(id, 3));
    var d := EMPTY.(present := true, progress := Some(Fresh(id)));
    assert Loop(cfg, d, 0, 1) == (Started(d, AttemptId(id.campaign, 0)), Killed);
    assert AttemptId(id.campaign, 0) in Started(d, AttemptId(id.campaign, 0)).runDirs;
  }

  /** A launch that returns normally, at whatever point of whatever life, has left exactly the
      disk of the uninterrupted pass, bindings included. */
  lemma ReturnIsPassEnd(cfg: Config, launches: seq<Relaunch>, id: Identity, life: nat)
    ensures
      var r := Launch(cfg, id, Life(cfg, launches), life);
      r.1.Done? ==> r == PassEnd(cfg, id)
  {
    var d := Life(cfg, launches);
    var k, busy := LifeTracks(cfg, launches);
    if d.progress.Some? {
      if d.progress.value.identity == id {
        var m, busy' := LaunchTracks(cfg, id, d, k, busy, life);
      }
    } else if d == EMPTY && life >= 2 {
      var m, busy' := FirstLaunchTracks(cfg, id, life);
    }
  }

  /** No episode is started twice over the whole life of a campaign, wherever it crashes and
      whoever relaunches it. */
  lemma AtMostOnce(cfg: Config, launches: seq<Relaunch>)
    ensures Unique(Life(cfg, launches).executed)
  {
    var d := Life(cfg, launches);
    var k, busy := LifeTracks(cfg, launches);
    if d.progress.Some? {
      IdsOfEarlier(cfg, d.progress.value.identity, k);
      NotEarlier(cfg, d.progress.value.identity, k);
    }
  }

  /* ---- the state at every save ---- */

  /** What an attempt contributes to the successes. */
  function Projected(a: Attempt): seq<Key> {
    if a.status.EligibleSuccess? && a.run.Some? && a.transcript.Some? && a.tokens.Some?
    then [Key(a.task, a.id, a.run.value, a.transcript.value, a.tokens.value)] else []
  }

  /** The eligible attempts, in order, as successes record them. */
  function Projection(attempts: seq<Attempt>): seq<Key> {
    if attempts == [] then []
    else
      Projection(attempts[..|attempts| - 1]) + Projected(attempts[|attempts| - 1])
  }

  function Keys(successes: seq<Success>): (r: seq<Key>)
    ensures |r| == |successes|
  {
    seq(|successes|, i requires 0 <= i < |successes| => SuccessKey(successes[i]))
  }

  /** No attempt is invalid but the last. */
  predicate ValidButLast(attempts: seq<Attempt>) {
    forall i :: 0 <= i < |attempts| - 1 ==> !attempts[i].status.InfrastructureInvalid?
  }

  predicate LastInvalid(attempts: seq<Attempt>) {
    attempts != [] && attempts[|attempts| - 1].status.InfrastructureInvalid?
  }

  predicate StateOk(cfg: Config, attempts: seq<Attempt>, successes: seq<Success>, stopped: bool) {
    && Keys(successes) == Projection(attempts)
    && (forall i, j :: 0 <= i < j < |successes| ==> successes[i].task != successes[j].task)
    && (forall i :: 0 <= i < |successes| ==> successes[i].tokens <= cfg.maxTokens)
    && |successes| <= cfg.target
    && ValidButLast(attempts) && (stopped <==> LastInvalid(attempts))
  }

  lemma ProjectionSnoc(attempts: seq<Attempt>, a: Attempt)
    ensures Projection(attempts + [a]) == Projection(attempts) + Projected(a)
  {
    assert (attempts + [a])[..|attempts|] == attempts;
  }

  lemma KeysSnoc(successes: seq<Success>, s: Success)
    ensures Keys(successes + [s]) == Keys(successes) + [SuccessKey(s)]
  {
  }

  lemma NewTask(successes: seq<Success>, s: Success)
    requires s.task !in Tasks(successes)
    requires forall i, j :: 0 <= i < j < |successes| ==> successes[i].task != successes[j].task
    ensures
      var all := successes + [s];
      forall i, j :: 0 <= i < j < |all| ==> all[i].task != all[j].task
  {
    assert forall i :: 0 <= i < |successes| ==> successes[i] in successes && successes[i].task in Tasks(successes);
  }

  lemma InvalidLast(attempts: seq<Attempt>, a: Attempt)
    requires ValidButLast(attempts) && !LastInvalid(attempts)
    ensures ValidButLast(attempts + [a]) && (LastInvalid(attempts + [a]) <==> a.status.InfrastructureInvalid?)
  {
  }

  /** An attempt that is no success. */
  lemma FailureGrows(cfg: Config, attempts: seq<Attempt>, successes: seq<Success>, a: Attempt)
    requires StateOk(cfg, attempts, successes, false) && !a.status.EligibleSuccess?
    ensures StateOk(cfg, attempts + [a], successes, a.status.InfrastructureInvalid?)
  {
    InvalidLast(attempts, a);
    ProjectionSnoc(attempts, a);
  }

  lemma SuccessGrows(cfg: Config, attempts: seq<Attempt>, successes: seq<Success>, a: Attempt, s: Success)
    requires StateOk(cfg, attempts, successes, false) && |successes| < cfg.target
    requires a.status.EligibleSuccess? && s.task !in Tasks(successes) && s.tokens <= cfg.maxTokens
    requires Projected(a) == [SuccessKey(s)]
    ensures StateOk(cfg, attempts + [a], successes + [s], false)
  {
    InvalidLast(attempts, a);
    ProjectionSnoc(attempts, a);
    KeysSnoc(successes, s);
    NewTask(successes, s);
  }

  lemma StateGrows(cfg: Config, attempts: seq<Attempt>, successes: seq<Success>, j: Judged)
    requires StateOk(cfg, attempts, successes, false) && |successes| < cfg.target
    requires j.attempt.task !in Tasks(successes)
    requires j.stop.Some? <==> j.attempt.status.InfrastructureInvalid?
    requires j.success.Some? <==> j.attempt.status.EligibleSuccess?
    requires j.success.Some? ==>
               && j.success.value.tokens <= cfg.maxTokens
               && j.attempt.run == Some(j.success.value.run) && j.attempt.transcript == Some(j.success.value.transcript)
               && j.attempt.tokens == Some(j.success.value.tokens)
               && j.success.value.id == j.attempt.id && j.success.value.task == j.attempt.task
    ensures StateOk(cfg, attempts + [j.attempt],
                    if j.success.Some? then successes + [j.success.value] else successes, j.stop.Some?)
  {
    if j.success.Some? {
      SuccessGrows(cfg, attempts, successes, j.attempt, j.success.value);
    } else {
      FailureGrows(cfg, attempts, successes, j.attempt);
    }
  }

  predicate PassOk(cfg: Config, s: Pass) {
    StateOk(cfg, s.attempts, s.successes, s.ended == Some(StoppedInvalid))
  }

  lemma AdvanceOk(cfg: Config, id: Identity, s: Pass, i: nat)
    requires i < |cfg.pool| && Runs(cfg, s, i) && PassOk(cfg, s)
    ensures PassOk(cfg, Advance(cfg, id, s, i))
  {
    var j := Verdict(cfg, id, i);
    JudgeMeaning(cfg, AttemptId(id.campaign, i), cfg.pool[i].task, cfg.episode(i));
    StateGrows(cfg, s.attempts, s.successes, j);
    var t := Advance(cfg, id, s, i);
    assert t.attempts == s.attempts + [j.attempt];
    assert t.successes == if j.success.Some? then s.successes + [j.success.value] else s.successes;
  }

  lemma AdvanceKeeps(cfg: Config, id: Identity, s: Pass, i: nat)
    requires i < |cfg.pool| && PassOk(cfg, s)
    ensures PassOk(cfg, Advance(cfg, id, s, i))
  {
    if Runs(cfg, s, i) { AdvanceOk(cfg, id, s, i); }
  }

  lemma StartOk(cfg: Config, id: Identity)
    ensures PassOk(cfg, At(cfg, id, 0))
  {
  }

  lemma {:induction false} PassStateOk(cfg: Config, id: Identity, k: nat)
    requires k <= |cfg.pool|
    ensures PassOk(cfg, At(cfg, id, k))
  {
    if k == 0 {
      StartOk(cfg, id);
    } else {
      var s := At(cfg, id, k - 1);
      PassStateOk(cfg, id, k - 1);
      AdvanceKeeps(cfg, id, s, k - 1);
      AtNext(cfg, id, k - 1);
    }
  }

  /** At every save of every life: successes are the in-order projection of the eligible
      attempts, of distinct tasks, within the token limit and the target; an invalid attempt
      stands only last, exactly when the campaign is stopped; bindings appear only when it is
      completed, and hold the successes. */
  lemma SavedStateOk(cfg: Config, launches: seq<Relaunch>)
    ensures
      var d := Life(cfg, launches);
      d.progress.Some? ==>
        var p := d.progress.value;
        && StateOk(cfg, p.attempts, p.successes, p.status.Stopped?)
        && (p.status.Completed? ==> |p.successes| == cfg.target)
        && (p.status.Exhausted? ==> |p.successes| < cfg.target)
        && (d.bindings.Some? ==> p.status.Completed? && d.bindings.value == BindingsOf(p))
  {
    var d := Life(cfg, launches);
    var k, busy := LifeTracks(cfg, launches);
    if d.progress.Some? { PassStateOk(cfg, d.progress.value.identity, k); }
  }
}

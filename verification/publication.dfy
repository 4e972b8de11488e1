/** Any number of processes publishing one JSON Lines file at the same path, step by step,
    with failures and crashes anywhere. Names live in a directory whose committed state may
    lag behind what processes see, and file contents are certain on disk only once synced. */
module Publication {
  import opened Wrappers

  /** The file a directory entry names: the one there at the start, or one a writer created. */
  datatype Inode = Initial | Of(writer: nat)

  datatype Pc =
    | Start       // nothing checked yet
    | TempClear   // the temporary name was free
    | Clear       // both names were free
    | Writing     // the exclusive open succeeded
    | Synced      // written, flushed and synced
    | Cleaning    // an exception inside the `try`, before the rename
    | Returned
    | Raised
    | Dead

  /** A writer, the complete text it serialises, and the file it creates: what processes read
      from it and what the disk holds of it. */
  datatype Writer = Writer(text: string, pc: Pc, cache: string, disk: string, synced: bool)

  datatype State = State(
    writers: seq<Writer>,
    temp: Option<nat>, target: Option<Inode>,
    committedTemp: Option<nat>, committedTarget: Option<Inode>,
    initial: string)

  /** What writer's process does or suffers. */
  datatype Event =
    | CheckTemp | CheckTarget | Open | Write(length: nat) | Sync | Replace
    | Fail | Unlink | Kill | Writeback(garbage: string)

  datatype Action = By(i: nat, event: Event) | Commit | PowerLoss

  function SetPc(s: State, i: nat, pc: Pc): State
    requires i < |s.writers|
  {
    s.(writers := s.writers[i := s.writers[i].(pc := pc)])
  }

  predicate InTry(pc: Pc) { pc.Writing? || pc.Synced? || pc.Cleaning? }

  predicate Live(pc: Pc) { !pc.Returned? && !pc.Raised? && !pc.Dead? }

  /** After a power loss files hold what had reached the disk, and no process runs on; a call
      that had not begun may still come, from a later process. */
  function Lose(w: Writer): Writer {
    if w.pc.Start? then w else w.(cache := w.disk, pc := if Live(w.pc) then Dead else w.pc)
  }

  function StepBy(s: State, i: nat, e: Event): State
    requires i < |s.writers|
  {
    var w := s.writers[i];
    match e
    case CheckTemp =>
      if w.pc.Start? then SetPc(s, i, if s.temp.Some? then Raised else TempClear) else s
    case CheckTarget =>
      if w.pc.TempClear? then SetPc(s, i, if s.target.Some? then Raised else Clear) else s
    case Open =>
      // the exclusive open stands outside the `try`: losing it cleans nothing up
      if !w.pc.Clear? then s
      else if s.temp.Some? then SetPc(s, i, Raised)
      else SetPc(s, i, Writing).(temp := Some(i))
    case Write(n) =>
      if w.pc.Writing? && |w.cache| <= n <= |w.text| then
        s.(writers := s.writers[i := w.(cache := w.text[..n])])
      else s
    case Sync =>
      if w.pc.Writing? && w.cache == w.text then
        s.(writers := s.writers[i := w.(pc := Synced, disk := w.cache, synced := true)])
      else s
    case Replace =>
      // acts on the name, whatever file it stands for
      if !w.pc.Synced? then s
      else if s.temp.None? then SetPc(s, i, Cleaning)
      else SetPc(s, i, Returned).(temp := None, target := Some(Of(s.temp.value)))
    case Fail =>
      if w.pc.Writing? || w.pc.Synced? then SetPc(s, i, Cleaning) else s
    case Unlink =>
      // acts on the name, whatever file it stands for
      if w.pc.Cleaning? then SetPc(s, i, Raised).(temp := None) else s
    case Kill => if Live(w.pc) then SetPc(s, i, Dead) else s
    case Writeback(garbage) =>
      if w.synced then s else s.(writers := s.writers[i := w.(disk := garbage)])
  }

  /** One step of `_atomic_dump_jsonl` by writer `i`, or of its environment; a step that is
      not possible in a state leaves it alone. */
  function Apply(s: State, a: Action): State {
    match a
    case By(i, event) => if i < |s.writers| then StepBy(s, i, event) else s
    case Commit => s.(committedTemp := s.temp, committedTarget := s.target)
    case PowerLoss =>
      s.(temp := s.committedTemp, target := s.committedTarget,
         writers := seq(|s.writers|, i requires 0 <= i < |s.writers| => Lose(s.writers[i])))
  }

  function Run(s: State, actions: seq<Action>): State
    decreases |actions|
  {
    if actions == [] then s else Run(Apply(s, actions[0]), actions[1..])
  }

  /** Every call is about to start; the target may exist already. */
  predicate Init(s: State) {
    && s.temp.None? && s.committedTemp.None?
    && (s.target.None? || s.target == Some(Initial)) && s.committedTarget == s.target
    && forall i :: 0 <= i < |s.writers| ==>
         s.writers[i].pc.Start? && s.writers[i].cache == "" && !s.writers[i].synced
  }

  /* ---- the invariant ---- */

  predicate WriterOk(w: Writer) {
    && (w.synced ==> w.cache == w.text && w.disk == w.text)
    && (w.pc.Start? || w.pc.TempClear? || w.pc.Clear? || w.pc.Writing? ==> !w.synced)
    && (w.pc.Clear? || w.pc.TempClear? || w.pc.Start? ==> w.cache == "")
    && (w.pc.Synced? ==> w.synced)
  }

  predicate Complete(s: State, file: Option<Inode>) {
    file.Some? && file.value.Of? ==> file.value.writer < |s.writers| && s.writers[file.value.writer].synced
  }

  predicate Inv(s: State) {
    && (forall i :: 0 <= i < |s.writers| ==> WriterOk(s.writers[i]))
    && (forall i :: 0 <= i < |s.writers| && InTry(s.writers[i].pc) ==> s.temp == Some(i))
    && Complete(s, s.target) && Complete(s, s.committedTarget)
  }

  predicate SameTexts(s: State, t: State) {
    && |t.writers| == |s.writers| && t.initial == s.initial
    && forall i :: 0 <= i < |s.writers| ==> t.writers[i].text == s.writers[i].text
  }

  lemma OthersUnchanged(s: State, i: nat, e: Event)
    requires i < |s.writers|
    ensures |StepBy(s, i, e).writers| == |s.writers|
    ensures forall j :: 0 <= j < |s.writers| && j != i ==> StepBy(s, i, e).writers[j] == s.writers[j]
  {
  }

  lemma WriterOkBy(s: State, i: nat, e: Event)
    requires i < |s.writers| && WriterOk(s.writers[i])
    ensures WriterOk(StepBy(s, i, e).writers[i]) && StepBy(s, i, e).writers[i].text == s.writers[i].text
    ensures s.writers[i].synced ==> StepBy(s, i, e).writers[i].synced
  {
  }

  /** Whoever is inside the `try` after a step owns the temporary. */
  lemma OwnerBy(s: State, i: nat, e: Event, j: nat)
    requires Inv(s) && i < |s.writers| && j < |s.writers|
    ensures InTry(StepBy(s, i, e).writers[j].pc) ==> StepBy(s, i, e).temp == Some(j)
  {
    OthersUnchanged(s, i, e);
  }

  lemma CompleteBy(s: State, i: nat, e: Event)
    requires Inv(s) && i < |s.writers|
    ensures Complete(StepBy(s, i, e), StepBy(s, i, e).target) && Complete(StepBy(s, i, e), s.committedTarget)
    ensures StepBy(s, i, e).committedTarget == s.committedTarget
  {
    OthersUnchanged(s, i, e);
    WriterOkBy(s, i, e);
  }

  lemma InvStepBy(s: State, i: nat, e: Event)
    requires Inv(s) && i < |s.writers|
    ensures Inv(StepBy(s, i, e)) && SameTexts(s, StepBy(s, i, e))
  {
    OthersUnchanged(s, i, e);
    WriterOkBy(s, i, e);
    CompleteBy(s, i, e);
    forall j | 0 <= j < |s.writers| ensures InTry(StepBy(s, i, e).writers[j].pc) ==> StepBy(s, i, e).temp == Some(j) {
      OwnerBy(s, i, e, j);
    }
  }

  lemma InvStep(s: State, a: Action)
    requires Inv(s)
    ensures Inv(Apply(s, a)) && SameTexts(s, Apply(s, a))
  {
    if a.By? && a.i < |s.writers| { InvStepBy(s, a.i, a.event); }
  }

  lemma {:induction false} InvRun(s: State, actions: seq<Action>)
    requires Inv(s)
    ensures Inv(Run(s, actions)) && SameTexts(s, Run(s, actions))
    decreases |actions|
  {
    if actions != [] {
      InvStep(s, actions[0]);
      InvRun(Apply(s, actions[0]), actions[1..]);
    }
  }

  /* ---- what readers and the disk find ---- */

  predicate InDirectory(s: State, file: Option<Inode>) {
    file.Some? && file.value.Of? ==> file.value.writer < |s.writers|
  }

  function Seen(s: State): Option<string>
    requires InDirectory(s, s.target)
  {
    match s.target
    case None => None
    case Some(Initial) => Some(s.initial)
    case Some(Of(i)) => Some(s.writers[i].cache)
  }

  function Durable(s: State): Option<string>
    requires InDirectory(s, s.committedTarget)
  {
    match s.committedTarget
    case None => None
    case Some(Initial) => Some(s.initial)
    case Some(Of(i)) => Some(s.writers[i].disk)
  }

  /** Absent, what it was at the start, or one writer's whole text. */
  predicate Whole(content: Option<string>, s0: State) {
    || content.None?
    || (content.value == s0.initial && s0.target.Some?)
    || exists i :: 0 <= i < |s0.writers| && content.value == s0.writers[i].text
  }

  predicate FromStart(s: State, s0: State) {
    && (s.target == Some(Initial) ==> s0.target.Some?)
    && (s.committedTarget == Some(Initial) ==> s0.target.Some?)
  }

  lemma {:induction false} FromStartRun(s: State, s0: State, actions: seq<Action>)
    requires FromStart(s, s0)
    ensures FromStart(Run(s, actions), s0)
    decreases |actions|
  {
    if actions != [] { FromStartRun(Apply(s, actions[0]), s0, actions[1..]); }
  }

  predicate AtMostOneOwner(s: State) {
    forall i, j :: 0 <= i < j < |s.writers| ==> !(InTry(s.writers[i].pc) && InTry(s.writers[j].pc))
  }

  /** At every moment of every run the target, as read and as it would survive a power loss,
      is whole; and at most one live writer is past its exclusive open. */
  lemma TargetAlwaysWhole(s0: State, actions: seq<Action>)
    requires Init(s0)
    ensures
      var s := Run(s0, actions);
      && InDirectory(s, s.target) && Whole(Seen(s), s0)
      && InDirectory(s, s.committedTarget) && Whole(Durable(s), s0)
      && AtMostOneOwner(s)
  {
    InvRun(s0, actions);
    FromStartRun(s0, s0, actions);
    var s := Run(s0, actions);
    if s.target.Some? && s.target.value.Of? {
      assert s.writers[s.target.value.writer].cache == s0.writers[s.target.value.writer].text;
    }
    if s.committedTarget.Some? && s.committedTarget.value.Of? {
      assert s.writers[s.committedTarget.value.writer].disk == s0.writers[s.committedTarget.value.writer].text;
    }
  }

  /** The temporary file disappears only by its owner's rename or cleanup, or a power loss. */
  lemma OnlyOwnerRemovesTemp(s0: State, actions: seq<Action>, a: Action)
    requires Init(s0) && !a.PowerLoss?
    ensures
      var s := Run(s0, actions);
      s.temp.Some? && Apply(s, a).temp != s.temp ==>
        (a == By(s.temp.value, Replace) || a == By(s.temp.value, Unlink)) && Apply(s, a).temp.None?
  {
    InvRun(s0, actions);
  }

  /** Only a writer's own step makes its call return. */
  lemma OwnStepReturns(s: State, a: Action, i: nat)
    requires i < |s.writers| && !s.writers[i].pc.Returned?
    requires i < |Apply(s, a).writers| && Apply(s, a).writers[i].pc.Returned?
    ensures a.By? && a.i == i
  {
    if a.By? && a.i < |s.writers| { OthersUnchanged(s, a.i, a.event); }
  }

  lemma ReplacePublishes(s: State, i: nat, e: Event)
    requires Inv(s) && i < |s.writers| && !s.writers[i].pc.Returned?
    requires i < |StepBy(s, i, e).writers| && StepBy(s, i, e).writers[i].pc.Returned?
    ensures e == Replace && s.writers[i].pc.Synced?
    ensures StepBy(s, i, e).target == Some(Of(i)) && StepBy(s, i, e).temp.None?
  {
  }

  /** A call that returns has, at that moment, put its own text at the target. */
  lemma ReturnPublishes(s0: State, actions: seq<Action>, a: Action, i: nat)
    requires Init(s0) && i < |Run(s0, actions).writers|
    ensures
      var s := Run(s0, actions);
      var t := Apply(s, a);
      |t.writers| == |s.writers| == |s0.writers| &&
      (t.writers[i].pc.Returned? && !s.writers[i].pc.Returned? ==>
        InDirectory(t, t.target) && Seen(t) == Some(s0.writers[i].text) && t.temp.None?)
  {
    InvRun(s0, actions);
    var s := Run(s0, actions);
    var t := Apply(s, a);
    InvStep(s, a);
    if t.writers[i].pc.Returned? && !s.writers[i].pc.Returned? {
      OwnStepReturns(s, a, i);
      ReplacePublishes(s, i, a.event);
      assert Complete(t, t.target);
    }
  }

  /* ---- what the existence checks buy ---- */

  predicate Untouched(s: State) {
    && s.target == s.committedTarget == Some(Initial)
    && s.temp.None? && s.committedTemp.None?
    && forall i :: 0 <= i < |s.writers| ==> !InTry(s.writers[i].pc) && !s.writers[i].pc.Clear?
  }

  /** A target that exists before the calls is never replaced. */
  lemma {:induction false} ExistingTargetStays(s: State, actions: seq<Action>)
    requires Untouched(s)
    ensures Untouched(Run(s, actions))
    decreases |actions|
  {
    if actions != [] { ExistingTargetStays(Apply(s, actions[0]), actions[1..]); }
  }

  predicate NoPowerLoss(actions: seq<Action>) {
    forall i :: 0 <= i < |actions| ==> !actions[i].PowerLoss?
  }

  predicate NoneClear(s: State) {
    forall i :: 0 <= i < |s.writers| ==> !s.writers[i].pc.Clear?
  }

  lemma {:induction false} SettledStays(s: State, actions: seq<Action>)
    requires Inv(s) && s.target.Some? && s.temp.None? && NoneClear(s) && NoPowerLoss(actions)
    ensures Run(s, actions).target == s.target
    decreases |actions|
  {
    if actions != [] {
      InvStep(s, actions[0]);
      assert Apply(s, actions[0]).target == s.target;
      SettledStays(Apply(s, actions[0]), actions[1..]);
    }
  }

  function Overtake(s: State, j: nat): seq<Action>
    requires j < |s.writers|
  {
    [By(j, Open), By(j, Write(|s.writers[j].text|)), By(j, Sync), By(j, Replace)]
  }

  lemma RunStep(s: State, actions: seq<Action>)
    requires actions != []
    ensures Run(s, actions) == Run(Apply(s, actions[0]), actions[1..])
  {
  }

  lemma OvertakeReplaces(s: State, j: nat)
    requires Inv(s) && s.temp.None? && j < |s.writers| && s.writers[j].pc.Clear?
    ensures Run(s, Overtake(s, j)).target == Some(Of(j))
  {
    var acts := Overtake(s, j);
    var s1 := Apply(s, acts[0]);
    assert s1.writers[j] == s.writers[j].(pc := Writing) && s1.temp == Some(j);
    var s2 := Apply(s1, acts[1]);
    assert s2.writers[j] == s1.writers[j].(cache := s.writers[j].text) && s2.temp == Some(j);
    var s3 := Apply(s2, acts[2]);
    assert s3.writers[j].pc.Synced? && s3.temp == Some(j);
    var s4 := Apply(s3, acts[3]);
    assert s4.target == Some(Of(j));
    RunStep(s, acts);
    RunStep(s1, acts[1..]);
    RunStep(s2, acts[2..]);
    RunStep(s3, acts[3..]);
    assert acts[1..][1..] == acts[2..] && acts[2..][1..] == acts[3..] && acts[3..][1..] == [];
  }

  /** The existence checks and the exclusive open do not make publication exclusive: once the
      target is there it stays, whatever else happens short of a power loss, exactly when no
      other writer had passed its checks before. */
  lemma PublishedStaysIffNoneClear(s0: State, before: seq<Action>)
    requires Init(s0)
    requires Run(s0, before).target.Some? && Run(s0, before).temp.None?
    ensures
      var s := Run(s0, before);
      (forall after :: NoPowerLoss(after) ==> Run(s, after).target == s.target) <==> NoneClear(s)
  {
    var s := Run(s0, before);
    InvRun(s0, before);
    if NoneClear(s) {
      forall after | NoPowerLoss(after) ensures Run(s, after).target == s.target { SettledStays(s, after); }
    } else {
      var j :| 0 <= j < |s.writers| && s.writers[j].pc.Clear?;
      OvertakeReplaces(s, j);
      assert NoPowerLoss(Overtake(s, j));
      assert !s.writers[j].synced;
    }
  }

  /** The steps of one writer leave another where it was, and no temporary behind. */
  lemma OvertakeKeeps(s: State, j: nat, k: nat)
    requires Inv(s) && s.temp.None? && j < |s.writers| && k < |s.writers| && j != k && s.writers[j].pc.Clear?
    ensures
      var t := Run(s, Overtake(s, j));
      |t.writers| == |s.writers| && t.writers[k] == s.writers[k] && t.temp.None?
  {
    var acts := Overtake(s, j);
    var s1 := Apply(s, acts[0]);
    var s2 := Apply(s1, acts[1]);
    var s3 := Apply(s2, acts[2]);
    assert s1.writers[j].pc.Writing? && s2.writers[j].cache == s.writers[j].text && s3.writers[j].pc.Synced?;
    assert s3.temp == Some(j) && s3.writers[k] == s.writers[k];
    RunStep(s, acts);
    RunStep(s1, acts[1..]);
    RunStep(s2, acts[2..]);
    RunStep(s3, acts[3..]);
    assert acts[1..][1..] == acts[2..] && acts[2..][1..] == acts[3..] && acts[3..][1..] == [];
  }

  lemma ChecksPass(s: State, i: nat)
    requires i < |s.writers| && s.writers[i].pc.Start? && s.temp.None? && s.target.None?
    ensures Apply(Apply(s, By(i, CheckTemp)), By(i, CheckTarget)) == SetPc(s, i, Clear)
  {
    var s1 := Apply(s, By(i, CheckTemp));
    assert s1 == SetPc(s, i, TempClear);
    assert Apply(s1, By(i, CheckTarget)) == SetPc(s1, i, Clear);
    assert SetPc(s1, i, Clear).writers == SetPc(s, i, Clear).writers;
  }

  lemma ClearOk(s: State, i: nat)
    requires Inv(s) && i < |s.writers| && s.writers[i].pc.Start?
    ensures Inv(SetPc(s, i, Clear))
  {
  }

  /** Both writers past their checks, the first published. */
  function Overtaken(s0: State): seq<Action>
    requires |s0.writers| >= 2
  {
    [By(1, CheckTemp), By(1, CheckTarget), By(0, CheckTemp), By(0, CheckTarget)] + Overtake(s0, 0)
  }

  lemma OvertakenRuns(s0: State)
    requires Init(s0) && s0.target.None? && |s0.writers| >= 2
    ensures Run(s0, Overtaken(s0)) == Run(SetPc(SetPc(s0, 1, Clear), 0, Clear), Overtake(s0, 0))
  {
    var all := Overtaken(s0);
    var s1 := Apply(s0, all[0]);
    var s2 := SetPc(s0, 1, Clear);
    var s3 := Apply(s2, all[2]);
    ChecksPass(s0, 1);
    ChecksPass(s2, 0);
    RunStep(s0, all);
    RunStep(s1, all[1..]);
    RunStep(s2, all[2..]);
    RunStep(s3, all[3..]);
    assert all[1..][1..] == all[2..] && all[2..][1..] == all[3..] && all[3..][1..] == Overtake(s0, 0);
  }

  /** From any start with a free target and two writers, such a second writer can come about:
      the first has published, the second stands past its checks, and then replaces the file. */
  lemma OvertakingHappens(s0: State)
    requires Init(s0) && s0.target.None? && |s0.writers| >= 2
    ensures
      var s := Run(s0, Overtaken(s0));
      && s.target == Some(Of(0)) && s.temp.None? && !NoneClear(s)
      && |s.writers| >= 2 && Run(s, Overtake(s, 1)).target == Some(Of(1))
  {
    var s2 := SetPc(s0, 1, Clear);
    var s4 := SetPc(s2, 0, Clear);
    OvertakenRuns(s0);
    assert Inv(s0);
    ClearOk(s0, 1);
    ClearOk(s2, 0);
    assert Overtake(s4, 0) == Overtake(s0, 0);
    OvertakeReplaces(s4, 0);
    OvertakeKeeps(s4, 0, 1);
    InvRun(s4, Overtake(s4, 0));
    OvertakeReplaces(Run(s4, Overtake(s4, 0)), 1);
  }
}

/** The equal-trajectory sampler: the schedule that gives every trajectory as many samples as
    the longest one has decisions, and the manifest that counts it. */
module Sampler {
  import opened Wrappers
  import opened Ordering

  datatype TranscriptId = TranscriptId(text: Word)

  datatype Row = Row(transcript: TranscriptId, decision: int, declared: int)

  /** The rows of one trajectory: its declared decision count and the source row of each
      decision. */
  datatype Group = Group(declared: int, sources: map<int, nat>)

  type Groups = map<TranscriptId, Group>

  /** 64 lower-case hexadecimal digits. */
  predicate HashText(text: Word) {
    |text| == 64 && forall c :: c in text ==> 48 <= c <= 57 || 97 <= c <= 102
  }

  /* ---- grouping the rows ---- */

  /** What the rows must satisfy, each alone and each against the others. */
  predicate WellFormedRow(row: Row) { HashText(row.transcript.text) && row.declared > 0 }

  predicate Compatible(a: Row, b: Row) {
    a.transcript == b.transcript ==> a.declared == b.declared && a.decision != b.decision
  }

  predicate Groupable(rows: seq<Row>) {
    && (forall i :: 0 <= i < |rows| ==> WellFormedRow(rows[i]))
    && (forall i, j :: 0 <= i < j < |rows| ==> Compatible(rows[i], rows[j]))
  }

  predicate DecisionsInRange(rows: seq<Row>) {
    forall i :: 0 <= i < |rows| ==> 0 <= rows[i].decision < rows[i].declared
  }

  predicate RowsValid(rows: seq<Row>) { rows != [] && Groupable(rows) && DecisionsInRange(rows) }

  /** Row `i` is in its trajectory's group. */
  predicate RowHeld(groups: Groups, rows: seq<Row>, i: nat)
    requires i < |rows|
  {
    && rows[i].transcript in groups && groups[rows[i].transcript].declared == rows[i].declared
    && rows[i].decision in groups[rows[i].transcript].sources
    && groups[rows[i].transcript].sources[rows[i].decision] == i
  }

  /** A grouped decision is that of one of the first `n` rows. */
  predicate SourceHeld(groups: Groups, rows: seq<Row>, n: nat, t: TranscriptId, d: int)
    requires n <= |rows| && t in groups && d in groups[t].sources
  {
    var i := groups[t].sources[d];
    i < n && rows[i].transcript == t && rows[i].decision == d
  }

  /** `groups` holds exactly the first `n` rows. */
  ghost predicate Holds(groups: Groups, rows: seq<Row>, n: nat) {
    && n <= |rows|
    && (forall i :: 0 <= i < n ==> RowHeld(groups, rows, i))
    && (forall t, d {:trigger SourceHeld(groups, rows, n, t, d)} ::
          t in groups && d in groups[t].sources ==> SourceHeld(groups, rows, n, t, d))
    && (forall t :: t in groups ==> groups[t].sources.Keys != {})
  }

  lemma Member<T>(s: set<T>) returns (x: T)
    requires s != {}
    ensures x in s
  {
    x :| x in s;
  }

  function Sources(groups: Groups, t: TranscriptId): map<int, nat> {
    if t in groups then groups[t].sources else map[]
  }

  /** The row agrees with its group and is new to it. */
  predicate FitsGroup(groups: Groups, row: Row) {
    && (row.transcript in groups ==> groups[row.transcript].declared == row.declared)
    && row.decision !in Sources(groups, row.transcript)
  }

  function Extended(groups: Groups, row: Row, n: nat): Groups {
    groups[row.transcript := Group(row.declared, Sources(groups, row.transcript)[row.decision := n])]
  }

  /** A row that does not fit its group is incompatible with an earlier row. */
  lemma Clash(groups: Groups, rows: seq<Row>, n: nat)
    requires n < |rows| && Holds(groups, rows, n) && !FitsGroup(groups, rows[n])
    ensures exists i :: 0 <= i < n && !Compatible(rows[i], rows[n])
  {
    var t := rows[n].transcript;
    var g := groups[t];
    var d: int;
    if rows[n].decision in g.sources {
      d := rows[n].decision;
    } else {
      d := Member(g.sources.Keys);
    }
    assert SourceHeld(groups, rows, n, t, d);
    var i := g.sources[d];
    assert RowHeld(groups, rows, i);
    assert !Compatible(rows[i], rows[n]);
  }

  /** A row that fits its group is compatible with every earlier row. */
  lemma FitsAll(groups: Groups, rows: seq<Row>, n: nat)
    requires n < |rows| && Holds(groups, rows, n) && FitsGroup(groups, rows[n])
    ensures forall i :: 0 <= i < n ==> Compatible(rows[i], rows[n])
  {
    forall i | 0 <= i < n ensures Compatible(rows[i], rows[n]) {
      assert RowHeld(groups, rows, i);
    }
  }

  lemma HoldsNext(groups: Groups, rows: seq<Row>, n: nat)
    requires n < |rows| && Holds(groups, rows, n) && FitsGroup(groups, rows[n])
    ensures Holds(Extended(groups, rows[n], n), rows, n + 1)
  {
    var row, after := rows[n], Extended(groups, rows[n], n);
    forall i | 0 <= i < n + 1 ensures RowHeld(after, rows, i) {
      if i < n { assert RowHeld(groups, rows, i); }
    }
    forall t, d | t in after && d in after[t].sources ensures SourceHeld(after, rows, n + 1, t, d) {
      if t != row.transcript || d != row.decision { assert SourceHeld(groups, rows, n, t, d); }
    }
    assert row.decision in after[row.transcript].sources.Keys;
  }

  /** The grouping loop; `None` is its ValueError. */
  method GroupRows(rows: seq<Row>) returns (r: Option<Groups>)
    ensures r.Some? <==> Groupable(rows)
    ensures r.Some? ==> Holds(r.value, rows, |rows|)
  {
    var groups: Groups := map[];
    for n := 0 to |rows|
      invariant Groupable(rows[..n]) && Holds(groups, rows, n)
    {
      var row := rows[n];
      assert rows[..n + 1] == rows[..n] + [row];
      if !HashText(row.transcript.text) || row.declared <= 0 { return None; }
      if row.transcript in groups && groups[row.transcript].declared != row.declared {
        Clash(groups, rows, n);
        return None;
      }
      var sources := if row.transcript in groups then groups[row.transcript].sources else map[];
      if row.decision in sources {
        Clash(groups, rows, n);
        return None;
      }
      FitsAll(groups, rows, n);
      HoldsNext(groups, rows, n);
      groups := groups[row.transcript := Group(row.declared, sources[row.decision := n])];
    }
    assert rows[..|rows|] == rows;
    return Some(groups);
  }

  /* ---- the schedule ---- */

  predicate LeastInt(m: int, s: set<int>) { m in s && forall x :: x in s ==> m <= x }

  lemma {:induction false} LeastIntExists(s: set<int>)
    requires s != {}
    ensures exists m :: LeastInt(m, s)
  {
    var x := Member(s);
    var rest := s - {x};
    if rest == {} {
      assert s == {x} && LeastInt(x, s);
    } else {
      LeastIntExists(rest);
      var y :| LeastInt(y, rest);
      assert s == rest + {x} && LeastInt(if x < y then x else y, s);
    }
  }

  function LeastOf(s: set<int>): (m: int)
    requires s != {}
    ensures LeastInt(m, s)
  {
    LeastIntExists(s);
    var m :| m in s && LeastInt(m, s);
    m
  }

  /** `sorted` on the keys of a dictionary. */
  function SortedInts(s: set<int>): seq<int> {
    if s == {} then []
    else
      var m := LeastOf(s);
      [m] + SortedInts(s - {m})
  }

  /** `r` lists the members of `s` in ascending order. */
  predicate Lists(r: seq<int>, s: set<int>) {
    && |r| == |s| && (forall i :: 0 <= i < |r| ==> r[i] in s) && (forall x :: x in s ==> x in r)
    && (forall i, j :: 0 <= i < j < |r| ==> r[i] < r[j])
  }

  lemma PrependLeast(m: int, rest: seq<int>, s: set<int>)
    requires LeastInt(m, s) && Lists(rest, s - {m})
    ensures Lists([m] + rest, s)
  {
    var r := [m] + rest;
    forall i, j | 0 <= i < j < |r| ensures r[i] < r[j] {
      if i == 0 { assert rest[j - 1] in s - {m}; }
    }
    forall x | x in s ensures x in r {
      if x != m { assert x in rest; }
    }
  }

  lemma {:induction false} SortedIntsSound(s: set<int>)
    ensures Lists(SortedInts(s), s)
  {
    if s != {} {
      var m := LeastOf(s);
      SortedIntsSound(s - {m});
      PrependLeast(m, SortedInts(s - {m}), s);
    }
  }

  lemma SortedSize(s: set<int>)
    ensures |SortedInts(s)| == |s|
  {
    SortedIntsSound(s);
  }

  /** `sorted` on the transcripts. */
  function SortedIds(s: set<TranscriptId>): (r: seq<TranscriptId>)
    ensures forall t :: t in r <==> t in s
    ensures forall i, j :: 0 <= i < j < |r| ==> r[i] != r[j]
  {
    var texts := Sorted(set t | t in s :: t.text);
    assert forall i, j :: 0 <= i < j < |texts| ==> texts[i] != texts[j] by {
      forall i, j | 0 <= i < j < |texts| ensures texts[i] != texts[j] { LessTotal(texts[i], texts[j]); }
    }
    var r := seq(|texts|, i requires 0 <= i < |texts| => TranscriptId(texts[i]));
    assert forall t :: t in s ==> t in r by {
      forall t | t in s ensures t in r {
        assert t.text in texts;
        var i :| 0 <= i < |texts| && texts[i] == t.text;
        assert r[i] == t;
      }
    }
    assert forall t :: t in r ==> t in s by {
      forall t | t in r ensures t in s { assert t.text in texts; }
    }
    r
  }

  /** Which of a trajectory's decisions a slot takes. */
  function Rank(slot: nat, count: nat, maximum: nat): (rank: nat)
    requires 0 < count <= maximum
    ensures rank < count
  {
    var scaled := slot * count / maximum;
    if scaled < count - 1 then scaled else count - 1
  }

  function Pick(sources: map<int, nat>, slot: nat, maximum: nat): (index: nat)
    requires 0 < |sources| <= maximum
    ensures exists d :: d in sources && sources[d] == index
  {
    SortedIntsSound(sources.Keys);
    var decisions := SortedInts(sources.Keys);
    sources[decisions[Rank(slot, |decisions|, maximum)]]
  }

  ghost predicate Fitting(groups: Groups, ids: seq<TranscriptId>, maximum: nat) {
    forall j :: 0 <= j < |ids| ==> ids[j] in groups && 0 < |groups[ids[j]].sources| <= maximum
  }

  /** One sample of every trajectory. */
  ghost function Lap(groups: Groups, ids: seq<TranscriptId>, slot: nat, maximum: nat): seq<nat>
    requires Fitting(groups, ids, maximum)
  {
    seq(|ids|, j requires 0 <= j < |ids| => Pick(groups[ids[j]].sources, slot, maximum))
  }

  ghost function Laps(groups: Groups, ids: seq<TranscriptId>, slots: nat, maximum: nat): seq<nat>
    requires Fitting(groups, ids, maximum)
  {
    if slots == 0 then [] else Laps(groups, ids, slots - 1, maximum) + Lap(groups, ids, slots - 1, maximum)
  }

  /** The longest trajectory's number of eligible decisions. */
  ghost predicate Longest(groups: Groups, maximum: nat) {
    && (forall t :: t in groups ==> |groups[t].sources| <= maximum)
    && exists t :: t in groups && |groups[t].sources| == maximum
  }

  lemma {:induction false} BoundedSize(s: set<int>, n: nat)
    requires forall d :: d in s ==> 0 <= d < n
    ensures |s| <= n
  {
    if s != {} {
      var x := Member(s);
      BoundedSize(s - {n - 1}, n - 1);
    }
  }

  ghost predicate Ranged(group: Group) { forall d :: d in group.sources ==> 0 <= d < group.declared }

  ghost predicate InRange(groups: Groups) { forall t :: t in groups ==> Ranged(groups[t]) }

  /** One trajectory's decisions sorted, unless one is out of range. */
  method OrderGroup(group: Group) returns (r: Option<seq<int>>)
    requires group.sources.Keys != {}
    ensures r == if Ranged(group) then Some(SortedInts(group.sources.Keys)) else None
  {
    var decisions := SortedInts(group.sources.Keys);
    SortedIntsSound(group.sources.Keys);
    ghost var some := Member(group.sources.Keys);
    var last := |decisions| - 1;
    if decisions[0] < 0 || decisions[last] >= group.declared || |decisions| > group.declared {
      if Ranged(group) { BoundedSize(group.sources.Keys, group.declared); }
      return None;
    }
    forall d | d in group.sources ensures 0 <= d < group.declared {
      var i :| 0 <= i < |decisions| && decisions[i] == d;
      assert i == 0 || decisions[0] < decisions[i];
      assert i == last || decisions[i] < decisions[last];
    }
    return Some(decisions);
  }

  ghost predicate OrderedFrom(ordered: map<TranscriptId, seq<int>>, groups: Groups, ids: seq<TranscriptId>, k: nat)
    requires k <= |ids| && forall j :: 0 <= j < |ids| ==> ids[j] in groups
  {
    forall j :: 0 <= j < k ==> ids[j] in ordered && ordered[ids[j]] == SortedInts(groups[ids[j]].sources.Keys)
  }

  /** `top` is a longest of the first `k` trajectories. */
  ghost predicate Widest(groups: Groups, ids: seq<TranscriptId>, k: nat, top: nat)
    requires k <= |ids| && forall j :: 0 <= j < |ids| ==> ids[j] in groups
  {
    top < k && forall j :: 0 <= j < k ==> |groups[ids[j]].sources| <= |groups[ids[top]].sources|
  }

  /** The ordering loop and the longest trajectory. */
  method OrderGroups(groups: Groups, ids: seq<TranscriptId>)
    returns (r: Option<map<TranscriptId, seq<int>>>, widest: nat, ghost top: nat)
    requires forall j :: 0 <= j < |ids| ==> ids[j] in groups && groups[ids[j]].sources.Keys != {}
    requires ids != []
    ensures r.Some? <==> forall j :: 0 <= j < |ids| ==> Ranged(groups[ids[j]])
    ensures r.Some? ==> OrderedFrom(r.value, groups, ids, |ids|)
    ensures r.Some? ==> Widest(groups, ids, |ids|, top) && widest == |groups[ids[top]].sources|
  {
    var ordered: map<TranscriptId, seq<int>> := map[];
    widest, top := 0, 0;
    for k := 0 to |ids|
      invariant forall j :: 0 <= j < k ==> Ranged(groups[ids[j]])
      invariant OrderedFrom(ordered, groups, ids, k)
      invariant if k == 0 then widest == 0 else Widest(groups, ids, k, top) && widest == |groups[ids[top]].sources|
    {
      var decisions := OrderGroup(groups[ids[k]]);
      if decisions.None? { return None, widest, top; }
      SortedSize(groups[ids[k]].sources.Keys);
      assert |decisions.value| == |groups[ids[k]].sources| > 0;
      ordered := ordered[ids[k] := decisions.value];
      if |decisions.value| > widest { widest, top := |decisions.value|, k; }
    }
    return Some(ordered), widest, top;
  }

  /** The inner slot loop: one sample of every trajectory. */
  method FillLap(groups: Groups, ids: seq<TranscriptId>, ordered: map<TranscriptId, seq<int>>, slot: nat, maximum: nat)
    returns (lap: seq<nat>)
    requires Fitting(groups, ids, maximum)
    requires OrderedFrom(ordered, groups, ids, |ids|)
    ensures lap == Lap(groups, ids, slot, maximum)
  {
    lap := [];
    for j := 0 to |ids|
      invariant |lap| == j && forall k :: 0 <= k < j ==> lap[k] == Pick(groups[ids[k]].sources, slot, maximum)
    {
      var group, decisions := groups[ids[j]], ordered[ids[j]];
      SortedIntsSound(group.sources.Keys);
      var rank := slot * |decisions| / maximum;
      if |decisions| - 1 < rank { rank := |decisions| - 1; }
      assert rank == Rank(slot, |decisions|, maximum);
      lap := lap + [group.sources[decisions[rank]]];
    }
  }

  /** The slot loops. */
  method FillSlots(groups: Groups, ids: seq<TranscriptId>, ordered: map<TranscriptId, seq<int>>, maximum: nat)
    returns (schedule: seq<nat>)
    requires Fitting(groups, ids, maximum)
    requires OrderedFrom(ordered, groups, ids, |ids|)
    ensures schedule == Laps(groups, ids, maximum, maximum)
  {
    schedule := [];
    for slot := 0 to maximum
      invariant schedule == Laps(groups, ids, slot, maximum)
    {
      var lap := FillLap(groups, ids, ordered, slot, maximum);
      schedule := schedule + lap;
    }
  }

  lemma RangesAgree(groups: Groups, rows: seq<Row>)
    requires Holds(groups, rows, |rows|)
    ensures InRange(groups) <==> DecisionsInRange(rows)
  {
    forall i | 0 <= i < |rows| && InRange(groups) ensures 0 <= rows[i].decision < rows[i].declared {
      assert RowHeld(groups, rows, i);
    }
    forall t, d | t in groups && d in groups[t].sources && DecisionsInRange(rows) ensures 0 <= d < groups[t].declared {
      assert SourceHeld(groups, rows, |rows|, t, d);
      assert RowHeld(groups, rows, groups[t].sources[d]);
    }
  }

  /** The ordered trajectories are all of them. */
  lemma AllOrdered(groups: Groups, ids: seq<TranscriptId>, top: nat)
    requires forall t :: t in groups <==> t in ids
    requires forall t :: t in groups ==> groups[t].sources.Keys != {}
    requires forall j :: 0 <= j < |ids| ==> ids[j] in groups
    ensures InRange(groups) <==> forall j :: 0 <= j < |ids| ==> Ranged(groups[ids[j]])
    ensures Widest(groups, ids, |ids|, top) ==>
              var maximum := |groups[ids[top]].sources|;
              Longest(groups, maximum) && Fitting(groups, ids, maximum)
  {
    forall j | 0 <= j < |ids| ensures |groups[ids[j]].sources| > 0 {
      assert |groups[ids[j]].sources| == |groups[ids[j]].sources.Keys|;
    }
  }

  /** `trajectory_balanced_decision_indices`; `None` is its ValueError. */
  method Schedule(rows: seq<Row>) returns (r: Option<seq<nat>>, ghost groups: Groups, ghost maximum: nat)
    ensures r.Some? <==> RowsValid(rows)
    ensures r.Some? ==> Holds(groups, rows, |rows|) && Longest(groups, maximum)
    ensures r.Some? ==>
              && Fitting(groups, SortedIds(groups.Keys), maximum)
              && r.value == Laps(groups, SortedIds(groups.Keys), maximum, maximum)
  {
    groups, maximum := map[], 0;
    if rows == [] { return None, groups, maximum; }
    var grouped := GroupRows(rows);
    if grouped.None? { return None, groups, maximum; }
    var table := grouped.value;
    groups := table;
    RangesAgree(table, rows);
    assert RowHeld(table, rows, 0);
    var ids := SortedIds(table.Keys);
    assert forall j :: 0 <= j < |ids| ==> ids[j] in ids;
    var ordered, widest, top := OrderGroups(table, ids);
    AllOrdered(table, ids, top);
    if ordered.None? { return None, groups, maximum; }
    maximum := widest;
    var schedule := FillSlots(table, ids, ordered.value, widest);
    return Some(schedule), groups, maximum;
  }
}

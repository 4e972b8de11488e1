/** The sampler's manifest: what its counting loop accepts of any schedule, and that the
    equal-trajectory schedule always passes it while using every record. */
module SamplerManifest {
  import opened Wrappers
  import opened Sampler

  /** The transcript of each scheduled sample. */
  function Transcripts(rows: seq<Row>, schedule: seq<nat>): seq<TranscriptId>
    requires forall i :: 0 <= i < |schedule| ==> schedule[i] < |rows|
  {
    seq(|schedule|, i requires 0 <= i < |schedule| => rows[schedule[i]].transcript)
  }

  /** Something is scheduled, and every scheduled transcript equally often. */
  predicate Even<T(==)>(samples: seq<T>) {
    && samples != []
    && forall i, j :: 0 <= i < j < |samples| ==> multiset(samples)[samples[i]] == multiset(samples)[samples[j]]
  }

  datatype Manifest = Manifest(
    trajectoryCount: nat, samplesPerTrajectory: nat, sourceRecordCount: nat,
    epochSampleCount: nat, sourceRecordIndices: seq<nat>)

  /** Equal multiplicities: as many elements as distinct ones times the multiplicity. */
  lemma {:induction false} EqualMultiplicities<T>(m: multiset<T>, keys: set<T>, c: nat)
    requires forall t :: t in keys ==> m[t] == c
    requires forall t :: t in m ==> t in keys
    ensures |m| == |keys| * c
  {
    if keys == {} {
      assert m == multiset{};
    } else {
      var t := Member(keys);
      var rest := m[t := 0];
      assert forall u :: u in rest ==> u in keys - {t};
      EqualMultiplicities(rest, keys - {t}, c);
      assert m == rest[t := c];
    }
  }

  /** The counts are those of `samples`. */
  ghost predicate Counts<T(!new)>(counts: map<T, nat>, samples: seq<T>) {
    && (forall t :: t in counts <==> t in samples)
    && (forall t :: t in counts ==> counts[t] == multiset(samples)[t])
  }

  lemma {:induction false} SubsetSize<T>(a: set<T>, b: set<T>)
    requires a <= b
    ensures |a| <= |b|
  {
    assert b == a + (b - a);
  }

  lemma EvenIffOneCount<T(!new)>(counts: map<T, nat>, samples: seq<T>)
    requires Counts(counts, samples)
    ensures |counts.Values| == 1 <==> Even(samples)
    ensures Even(samples) ==> |samples| == |counts| * counts[samples[0]]
    ensures Even(samples) ==> forall t :: t in samples ==> multiset(samples)[t] == counts[samples[0]]
  {
    if samples != [] {
      var c := counts[samples[0]];
      assert c in counts.Values;
      if Even(samples) {
        forall t | t in samples ensures counts[t] == c {
          var i :| 0 <= i < |samples| && samples[i] == t;
          assert i == 0 || multiset(samples)[samples[0]] == multiset(samples)[samples[i]];
        }
        assert counts.Values == {c};
        EqualMultiplicities(multiset(samples), counts.Keys, c);
        assert |counts| == |counts.Keys|;
      } else {
        var i, j :| 0 <= i < j < |samples| && multiset(samples)[samples[i]] != multiset(samples)[samples[j]];
        assert {counts[samples[i]], counts[samples[j]]} <= counts.Values;
        SubsetSize({counts[samples[i]], counts[samples[j]]}, counts.Values);
      }
    } else {
      assert counts.Values == {} by {
        if counts.Values != {} { var c := Member(counts.Values); }
      }
    }
  }

  lemma CountsSnoc<T(!new)>(counts: map<T, nat>, samples: seq<T>, t: T)
    requires Counts(counts, samples)
    ensures Counts(counts[t := (if t in counts then counts[t] else 0) + 1], samples + [t])
  {
  }

  method CountTranscripts(rows: seq<Row>, schedule: seq<nat>) returns (counts: map<TranscriptId, nat>)
    requires forall i :: 0 <= i < |schedule| ==> schedule[i] < |rows|
    ensures Counts(counts, Transcripts(rows, schedule))
  {
    ghost var samples := Transcripts(rows, schedule);
    counts := map[];
    for n := 0 to |schedule|
      invariant Counts(counts, samples[..n])
    {
      var transcript := rows[schedule[n]].transcript;
      CountsSnoc(counts, samples[..n], transcript);
      assert samples[..n + 1] == samples[..n] + [transcript];
      counts := counts[transcript := (if transcript in counts then counts[transcript] else 0) + 1];
    }
    assert samples[..|schedule|] == samples;
  }

  /** The counting loop of `_write_sampler_manifest`, over any schedule. */
  method CountSchedule(rows: seq<Row>, schedule: seq<nat>) returns (r: Option<Manifest>)
    requires forall i :: 0 <= i < |schedule| ==> schedule[i] < |rows|
    ensures r.Some? <==> Even(Transcripts(rows, schedule))
    ensures r.Some? ==>
              var m, samples := r.value, Transcripts(rows, schedule);
              && (forall t :: t in samples ==> multiset(samples)[t] == m.samplesPerTrajectory)
              && m.epochSampleCount == |schedule| == m.trajectoryCount * m.samplesPerTrajectory
              && m.sourceRecordCount == |rows| && m.sourceRecordIndices == schedule
  {
    ghost var samples := Transcripts(rows, schedule);
    var counts := CountTranscripts(rows, schedule);
    EvenIffOneCount(counts, samples);
    if |counts.Values| != 1 { return None; }
    var first := rows[schedule[0]].transcript;
    assert first == samples[0];
    return Some(Manifest(|counts|, counts[first], |rows|, |schedule|, schedule));
  }

  /* ---- the schedule passes ---- */

  /** Every slot has one sample of every trajectory. */
  lemma LapTranscripts(rows: seq<Row>, groups: Groups, ids: seq<TranscriptId>, slot: nat, maximum: nat)
    requires Holds(groups, rows, |rows|) && Fitting(groups, ids, maximum)
    ensures
      var lap := Lap(groups, ids, slot, maximum);
      (forall i :: 0 <= i < |lap| ==> lap[i] < |rows|) && Transcripts(rows, lap) == ids
  {
    var lap := Lap(groups, ids, slot, maximum);
    forall i | 0 <= i < |lap| ensures lap[i] < |rows| && rows[lap[i]].transcript == ids[i] {
      var sources := groups[ids[i]].sources;
      SortedIntsSound(sources.Keys);
      var d := SortedInts(sources.Keys)[Rank(slot, |sources.Keys|, maximum)];
      assert d in sources && sources[d] == lap[i];
      assert SourceHeld(groups, rows, |rows|, ids[i], d);
    }
  }

  predicate Distinct<T(==)>(s: seq<T>) { forall i, j :: 0 <= i < j < |s| ==> s[i] != s[j] }

  lemma {:induction false} DistinctOnce<T>(s: seq<T>, t: T)
    requires Distinct(s)
    ensures multiset(s)[t] == if t in s then 1 else 0
  {
    if s != [] {
      var init, last := s[..|s| - 1], s[|s| - 1];
      assert s == init + [last];
      DistinctOnce(init, t);
    }
  }

  predicate InRows(rows: seq<Row>, schedule: seq<nat>) {
    forall i :: 0 <= i < |schedule| ==> schedule[i] < |rows|
  }

  /** How often a transcript is sampled. */
  function Sampled(rows: seq<Row>, schedule: seq<nat>, t: TranscriptId): nat
    requires InRows(rows, schedule)
  {
    multiset(Transcripts(rows, schedule))[t]
  }

  /** The schedule samples each of `ids` `times` times and nothing else. */
  ghost predicate Balanced(rows: seq<Row>, schedule: seq<nat>, ids: seq<TranscriptId>, times: nat) {
    && InRows(rows, schedule)
    && forall t :: Sampled(rows, schedule, t) == if t in ids then times else 0
  }

  lemma AppendBalanced(rows: seq<Row>, a: seq<nat>, b: seq<nat>, ids: seq<TranscriptId>, times: nat)
    requires Balanced(rows, a, ids, times) && Balanced(rows, b, ids, 1)
    ensures Balanced(rows, a + b, ids, times + 1)
  {
    assert Transcripts(rows, a + b) == Transcripts(rows, a) + Transcripts(rows, b);
    forall t ensures Sampled(rows, a + b, t) == Sampled(rows, a, t) + Sampled(rows, b, t) {
    }
  }

  lemma LapBalanced(rows: seq<Row>, groups: Groups, ids: seq<TranscriptId>, slot: nat, maximum: nat)
    requires Holds(groups, rows, |rows|) && Fitting(groups, ids, maximum) && Distinct(ids)
    ensures Balanced(rows, Lap(groups, ids, slot, maximum), ids, 1)
  {
    LapTranscripts(rows, groups, ids, slot, maximum);
    forall t ensures Sampled(rows, Lap(groups, ids, slot, maximum), t) == if t in ids then 1 else 0 {
      DistinctOnce(ids, t);
    }
  }

  lemma IndexOf<T>(s: seq<T>, x: T) returns (j: nat)
    requires x in s
    ensures j < |s| && s[j] == x
  {
    j :| 0 <= j < |s| && s[j] == x;
  }

  /** What one more lap keeps holds of all laps. */
  lemma {:induction false} LapsRule(
    groups: Groups, ids: seq<TranscriptId>, slots: nat, maximum: nat, holds: (seq<nat>, nat) -> bool)
    requires Fitting(groups, ids, maximum) && holds([], 0)
    requires forall laps, n: nat :: holds(laps, n) ==> holds(laps + Lap(groups, ids, n, maximum), n + 1)
    ensures holds(Laps(groups, ids, slots, maximum), slots)
  {
    if slots > 0 { LapsRule(groups, ids, slots - 1, maximum, holds); }
  }

  /** Over `slots` slots every trajectory is sampled `slots` times. */
  lemma LapsBalanced(rows: seq<Row>, groups: Groups, ids: seq<TranscriptId>, slots: nat, maximum: nat)
    requires Holds(groups, rows, |rows|) && Fitting(groups, ids, maximum) && Distinct(ids)
    ensures Balanced(rows, Laps(groups, ids, slots, maximum), ids, slots)
  {
    ghost var holds := (laps, n: nat) => Balanced(rows, laps, ids, n);
    forall laps, n: nat | holds(laps, n) ensures holds(laps + Lap(groups, ids, n, maximum), n + 1) {
      LapBalanced(rows, groups, ids, n, maximum);
      AppendBalanced(rows, laps, Lap(groups, ids, n, maximum), ids, n);
    }
    LapsRule(groups, ids, slots, maximum, holds);
  }

  lemma MulMono(a: int, b: int, d: nat)
    requires a <= b
    ensures a * d <= b * d
  {
  }

  lemma Quotient(x: nat, q: nat, d: nat)
    requires d > 0 && q * d <= x < q * d + d
    ensures x / d == q
  {
    var y := x / d;
    assert x == y * d + x % d;
    if y < q { MulMono(y + 1, q, d); }
    if y > q { MulMono(q + 1, y, d); }
  }

  /** The first slot that reaches a rank. */
  function SlotOf(rank: nat, count: nat, maximum: nat): nat
    requires count > 0
  {
    (rank * maximum + count - 1) / count
  }

  lemma SlotBounds(rank: nat, count: nat, maximum: nat)
    requires rank < count <= maximum
    ensures rank * maximum <= SlotOf(rank, count, maximum) * count < rank * maximum + maximum
  {
    var x := rank * maximum + count - 1;
    assert x == x / count * count + x % count;
  }

  lemma SlotWithin(rank: nat, count: nat, maximum: nat)
    requires rank < count <= maximum
    ensures SlotOf(rank, count, maximum) < maximum
  {
    var slot := SlotOf(rank, count, maximum);
    SlotBounds(rank, count, maximum);
    MulMono(rank + 1, count, maximum);
    assert (rank + 1) * maximum == rank * maximum + maximum;
    if slot >= maximum { MulMono(maximum, slot, count); }
  }

  /** Some slot takes the decision of each rank. */
  lemma RankTaken(rank: nat, count: nat, maximum: nat) returns (slot: nat)
    requires rank < count <= maximum
    ensures slot < maximum && Rank(slot, count, maximum) == rank
  {
    slot := SlotOf(rank, count, maximum);
    SlotBounds(rank, count, maximum);
    SlotWithin(rank, count, maximum);
    Quotient(slot * count, rank, maximum);
  }

  lemma {:induction false} LapWithin(groups: Groups, ids: seq<TranscriptId>, slot: nat, slots: nat, maximum: nat)
    requires Fitting(groups, ids, maximum) && slot < slots
    ensures forall i :: i in Lap(groups, ids, slot, maximum) ==> i in Laps(groups, ids, slots, maximum)
  {
    if slot < slots - 1 { LapWithin(groups, ids, slot, slots - 1, maximum); }
  }

  /** No record is left out. */
  lemma EveryRecordScheduled(rows: seq<Row>, groups: Groups, ids: seq<TranscriptId>, maximum: nat, i: nat)
    requires Holds(groups, rows, |rows|) && Fitting(groups, ids, maximum) && i < |rows|
    requires forall t :: t in groups <==> t in ids
    ensures i in Laps(groups, ids, maximum, maximum)
  {
    var t := rows[i].transcript;
    assert RowHeld(groups, rows, i);
    var j :| 0 <= j < |ids| && ids[j] == t;
    var sources := groups[t].sources;
    var decisions := SortedInts(sources.Keys);
    SortedIntsSound(sources.Keys);
    var rank :| 0 <= rank < |decisions| && decisions[rank] == rows[i].decision;
    var slot := RankTaken(rank, |decisions|, maximum);
    assert Lap(groups, ids, slot, maximum)[j] == i;
    LapWithin(groups, ids, slot, maximum, maximum);
  }

  /** The schedule over all slots: its samples are balanced and miss no record. */
  lemma ScheduleServes(rows: seq<Row>, groups: Groups, maximum: nat)
    requires Holds(groups, rows, |rows|) && Fitting(groups, SortedIds(groups.Keys), maximum) && rows != []
    ensures
      var schedule := Laps(groups, SortedIds(groups.Keys), maximum, maximum);
      && (forall i :: 0 <= i < |schedule| ==> schedule[i] < |rows|)
      && (forall i :: 0 <= i < |rows| ==> i in schedule)
      && (forall t :: t in Transcripts(rows, schedule) ==> multiset(Transcripts(rows, schedule))[t] == maximum)
      && schedule != []
  {
    var ids := SortedIds(groups.Keys);
    var schedule := Laps(groups, ids, maximum, maximum);
    LapsBalanced(rows, groups, ids, maximum, maximum);
    forall i | 0 <= i < |rows| ensures i in schedule { EveryRecordScheduled(rows, groups, ids, maximum, i); }
    assert 0 in schedule;
    var samples := Transcripts(rows, schedule);
    forall t | t in samples ensures multiset(samples)[t] == maximum {
      assert t in multiset(samples) && Sampled(rows, schedule, t) == multiset(samples)[t];
    }
  }

  /** A balanced schedule that misses no record is even, and samples every record's trajectory. */
  lemma ServedIsEven(rows: seq<Row>, schedule: seq<nat>, maximum: nat)
    requires forall i :: 0 <= i < |schedule| ==> schedule[i] < |rows|
    requires forall i :: 0 <= i < |rows| ==> i in schedule
    requires forall t :: t in Transcripts(rows, schedule) ==> multiset(Transcripts(rows, schedule))[t] == maximum
    requires schedule != []
    ensures Even(Transcripts(rows, schedule))
    ensures forall i :: 0 <= i < |rows| ==> rows[i].transcript in Transcripts(rows, schedule)
  {
    var samples := Transcripts(rows, schedule);
    assert forall j :: 0 <= j < |samples| ==> samples[j] in samples;
    forall i | 0 <= i < |rows| ensures rows[i].transcript in samples {
      var j := IndexOf(schedule, i);
      assert samples[j] == rows[i].transcript;
    }
  }

  /** `_write_sampler_manifest`: it raises exactly on malformed rows, never because the weights
      drifted; and then every trajectory is sampled as often as the longest one has records,
      and every record at least once. */
  method WriteSamplerManifest(rows: seq<Row>) returns (r: Option<Manifest>, ghost groups: Groups)
    ensures r.Some? <==> RowsValid(rows)
    ensures r.Some? ==>
              var m := r.value;
              && (forall i :: 0 <= i < |m.sourceRecordIndices| ==> m.sourceRecordIndices[i] < |rows|)
              && (forall i :: 0 <= i < |rows| ==>
                    && i in m.sourceRecordIndices
                    && multiset(Transcripts(rows, m.sourceRecordIndices))[rows[i].transcript] == m.samplesPerTrajectory)
              && m.epochSampleCount == |m.sourceRecordIndices| == m.trajectoryCount * m.samplesPerTrajectory
              && Holds(groups, rows, |rows|) && Longest(groups, m.samplesPerTrajectory)
  {
    var schedule, table, maximum := Schedule(rows);
    groups := table;
    if schedule.None? { return None, groups; }
    ScheduleServes(rows, groups, maximum);
    ServedIsEven(rows, schedule.value, maximum);
    r := CountSchedule(rows, schedule.value);
    assert Transcripts(rows, schedule.value)[0] in Transcripts(rows, schedule.value);
  }
}

/** Publishing the action-conditioned records of one trajectory, and loading them back:
    a JSON Lines file first, a sealed manifest second, faults anywhere. */
module Trajectories {
  import opened Wrappers
  import opened JsonlFiles
  import J = JsonLines
  import RoundTrip = JsonRoundTrip

  datatype Transcript = Transcript(hash: string, bucket: string)

  datatype Base = Base(
    task: string, transcript: Transcript, runHash: string, policyHash: string,
    recordCount: nat, recordHashes: seq<string>, recordsHash: string, maxTokens: nat,
    fileBytes: nat, fileSha: string)

  /** The hash functions, the parts of a record the code reads, the record contract, and the
      reader's size bound. Nothing is assumed of any of them. */
  datatype Env = Env(
    sha256: string -> string,
    hashList: seq<string> -> string,
    hashManifest: Base -> string,
    recordHash: J.Json -> string,
    policyHash: J.Json -> string,
    tokens: J.Json -> nat,
    valid: J.Json -> bool,
    sizeLimit: nat)

  datatype Batch = Batch(
    task: string, runHash: string, transcript: Option<Transcript>, examples: seq<J.Json>, recordsHash: string)

  datatype Manifest = Manifest(base: Base, manifestHash: string)

  /** The two files of a trajectory, and a temporary a crash may have left. */
  datatype Shelf = Shelf(slot: Slot, manifest: Option<Manifest>)

  function Hashes(env: Env, examples: seq<J.Json>): (r: seq<string>)
    ensures |r| == |examples|
  {
    if examples == [] then [] else Hashes(env, examples[..|examples| - 1]) + [env.recordHash(examples[|examples| - 1])]
  }

  function MaxTokens(env: Env, examples: seq<J.Json>): nat {
    if examples == [] then 0
    else
      var rest := MaxTokens(env, examples[1..]);
      if env.tokens(examples[0]) > rest then env.tokens(examples[0]) else rest
  }

  function Lines(examples: seq<J.Json>): seq<string> {
    seq(|examples|, i requires 0 <= i < |examples| => J.Print(examples[i]))
  }

  /** The manifest a publication writes for records whose file holds `text`. */
  function Sealed(env: Env, batch: Batch, text: string): Manifest
    requires batch.transcript.Some? && batch.examples != []
  {
    var base := Base(
      batch.task, batch.transcript.value, batch.runHash, env.policyHash(batch.examples[0]),
      |batch.examples|, Hashes(env, batch.examples), batch.recordsHash, MaxTokens(env, batch.examples),
      |text|, env.sha256(text));
    Manifest(base, env.hashManifest(base))
  }

  /** The manifest's token figure is the largest of the records'. */
  lemma {:induction false} MaxTokensIs(env: Env, examples: seq<J.Json>)
    requires examples != []
    ensures forall x :: x in examples ==> env.tokens(x) <= MaxTokens(env, examples)
    ensures exists x :: x in examples && env.tokens(x) == MaxTokens(env, examples)
  {
    assert examples == [examples[0]] + examples[1..];
    if |examples| == 1 {
      assert examples[0] in examples && MaxTokens(env, examples[1..]) == 0;
    } else {
      MaxTokensIs(env, examples[1..]);
      var y :| y in examples[1..] && env.tokens(y) == MaxTokens(env, examples[1..]);
      assert y in examples && examples[0] in examples;
    }
  }

  /* ---- publishing ---- */

  function WriteManifest(s: Shelf, manifest: Manifest, left: nat, fault: Fault): (Shelf, Outcome) {
    if s.manifest.Some? && s.manifest.value != manifest then (s, Refused)
    else if left == 0 then (s, Struck(fault))
    else (s.(manifest := Some(manifest)), Returned)
  }

  /** `_write_action_trajectory_records` on the two files. */
  function Publish(env: Env, s: Shelf, batch: Batch, fault: Fault): (r: (Shelf, Outcome)) {
    if batch.transcript.None? || batch.examples == [] then (s, Refused)
    else
      var text := J.Dump(batch.examples);
      if s.slot.target.Some? then
        if s.slot.target.value != text then (s, Refused)
        else WriteManifest(s, Sealed(env, batch, text), fault.after, fault)
      else
        var d := Dump(s.slot, Lines(batch.examples), fault);
        if !d.outcome.Returned? then (s.(slot := d.slot), d.outcome)
        else WriteManifest(s.(slot := d.slot), Sealed(env, batch, text), d.left, fault)
  }

  datatype LoadError = Missing | Unsafe | IdentityChanged | Malformed | Inconsistent

  function AllValid(env: Env, examples: seq<J.Json>): bool {
    forall x :: x in examples ==> env.valid(x)
  }

  predicate Consistent(env: Env, m: Manifest, examples: seq<J.Json>) {
    && examples != []
    && m.base.recordCount == |examples|
    && m.base.recordHashes == Hashes(env, examples)
    && m.base.recordsHash == env.hashList(Hashes(env, examples))
    && m.manifestHash == env.hashManifest(m.base)
  }

  /** `_load_action_trajectory_records`. */
  function Load(env: Env, s: Shelf, task: string): Result<seq<J.Json>, LoadError> {
    if s.manifest.None? then Err(Missing)
    else if s.slot.target.None? || |s.slot.target.value| > env.sizeLimit then Err(Unsafe)
    else
      var m, raw := s.manifest.value, s.slot.target.value;
      if m.base.task != task || m.base.fileBytes != |raw| || m.base.fileSha != env.sha256(raw) then Err(IdentityChanged)
      else
        match J.Load(raw)
        case None => Err(Malformed)
        case Some(examples) =>
          if !AllValid(env, examples) then Err(Malformed)
          else if Consistent(env, m, examples) then Ok(examples)
          else Err(Inconsistent)
  }

  function Prepend(done: seq<J.Json>, rest: Option<seq<J.Json>>): Option<seq<J.Json>> {
    match rest
    case None => None
    case Some(more) => Some(done + more)
  }

  lemma PrependSnoc(done: seq<J.Json>, x: J.Json, rest: Option<seq<J.Json>>)
    ensures Prepend(done, Prepend([x], rest)) == Prepend(done + [x], rest)
    ensures Prepend(done + [x], rest).Some? ==> x in Prepend(done + [x], rest).value
  {
    if rest.Some? { assert done + ([x] + rest.value) == done + [x] + rest.value; }
  }

  lemma {:induction false} JoinedCons(line: string, lines: seq<string>)
    ensures Joined([line] + lines) == line + "\n" + Joined(lines)
  {
    if lines == [] {
      assert ([line] + lines)[..0] == [];
    } else {
      var init, last := lines[..|lines| - 1], lines[|lines| - 1];
      JoinedCons(line, init);
      assert ([line] + lines)[..|lines|] == [line] + init;
      assert line + "\n" + Joined(init) + last + "\n" == line + "\n" + (Joined(init) + last + "\n");
    }
  }

  lemma {:induction false} JoinedIsDump(examples: seq<J.Json>)
    ensures Joined(Lines(examples)) == J.Dump(examples)
  {
    if examples == [] {
      assert Lines(examples) == [];
    } else {
      JoinedIsDump(examples[1..]);
      JoinedCons(J.Print(examples[0]), Lines(examples[1..]));
      assert Lines(examples) == [J.Print(examples[0])] + Lines(examples[1..]);
    }
  }

  class TrajectoryDir {
    const records: JsonlFile
    var manifest: Option<Manifest>

    function Here(): Shelf reads this, records { Shelf(records.Here(), manifest) }

    constructor ()
      ensures fresh(records) && Here() == Shelf(Slot(None, None), None)
    {
      records := new JsonlFile();
      manifest := None;
    }

    method WriteRecords(env: Env, batch: Batch, fault: Fault) returns (outcome: Outcome)
      modifies this, records
      ensures (Here(), outcome) == Publish(env, old(Here()), batch, fault)
    {
      if batch.transcript.None? || batch.examples == [] { return Refused; }
      var text := J.Dump(batch.examples);
      var left := fault.after;
      if records.target.Some? {
        if records.target.value != text { return Refused; }
      } else {
        outcome, left := records.AtomicDump(Lines(batch.examples), fault);
        if !outcome.Returned? { return outcome; }
        JoinedIsDump(batch.examples);
      }
      var raw := records.target.value;
      var base := Base(
        batch.task, batch.transcript.value, batch.runHash, env.policyHash(batch.examples[0]),
        |batch.examples|, Hashes(env, batch.examples), batch.recordsHash, MaxTokens(env, batch.examples),
        |raw|, env.sha256(raw));
      var sealed := Manifest(base, env.hashManifest(base));
      if manifest.Some? && manifest.value != sealed { return Refused; }
      if left == 0 { return Struck(fault); }
      manifest := Some(sealed);
      return Returned;
    }

    method LoadRecords(env: Env, task: string) returns (r: Result<seq<J.Json>, LoadError>)
      ensures r == Load(env, Here(), task)
    {
      if manifest.None? { return Err(Missing); }
      if records.target.None? || |records.target.value| > env.sizeLimit { return Err(Unsafe); }
      var m, raw := manifest.value, records.target.value;
      if m.base.task != task || m.base.fileBytes != |raw| || m.base.fileSha != env.sha256(raw) {
        return Err(IdentityChanged);
      }
      var lines := J.SplitLines(raw);
      var examples: seq<J.Json> := [];
      var hashes: seq<string> := [];
      var i := 0;
      assert lines[0..] == lines;
      assert J.ReadLines(lines).Some? ==> [] + J.ReadLines(lines).value == J.ReadLines(lines).value;
      while i < |lines|
        invariant i <= |lines|
        invariant J.Load(raw) == Prepend(examples, J.ReadLines(lines[i..]))
        invariant AllValid(env, examples) && hashes == Hashes(env, examples)
      {
        assert lines[i..][1..] == lines[i + 1..];
        var value := J.Loads(lines[i]);
        if value.None? || !value.value.Obj? { return Err(Malformed); }
        PrependSnoc(examples, value.value, J.ReadLines(lines[i + 1..]));
        if !env.valid(value.value) {
          assert value.value in examples + [value.value];
          return Err(Malformed);
        }
        assert (examples + [value.value])[..|examples|] == examples;
        hashes := hashes + [env.recordHash(value.value)];
        examples := examples + [value.value];
        i := i + 1;
      }
      assert J.Load(raw) == Some(examples + []) && examples + [] == examples;
      if examples != [] && m.base.recordCount == |examples| && m.base.recordHashes == hashes &&
         m.base.recordsHash == env.hashList(hashes) && m.manifestHash == env.hashManifest(m.base) {
        return Ok(examples);
      }
      return Err(Inconsistent);
    }
  }

  /* ---- what publication promises ---- */

  ghost predicate AllFaithful(examples: seq<J.Json>) {
    forall x :: x in examples ==> RoundTrip.Faithful(x)
  }

  lemma Returns(env: Env, s: Shelf, batch: Batch, fault: Fault)
    ensures
      var r := Publish(env, s, batch, fault);
      r.1.Returned? ==>
        && batch.transcript.Some? && batch.examples != []
        && r.0.slot.target == Some(J.Dump(batch.examples))
        && r.0.manifest == Some(Sealed(env, batch, J.Dump(batch.examples)))
  {
    JoinedIsDump(batch.examples);
  }

  lemma LoadReads(env: Env, s: Shelf, task: string)
    ensures
      var loaded := Load(env, s, task);
      loaded.Ok? ==> s.slot.target.Some? && J.Load(s.slot.target.value) == Some(loaded.value)
  {
  }

  lemma ReadsBack(examples: seq<J.Json>)
    requires RoundTrip.Records(examples)
    ensures J.Load(J.Dump(examples)) == Some(examples) <==> AllFaithful(examples)
    ensures J.Load(J.Dump(examples)).Some?
  {
    RoundTrip.RoundTrip(examples);
  }

  /** After a call that returns, loading yields exactly the examples written, if and only if
      the file is within the reader's bound, no string in it splits a surrogate pair, every
      record meets the contract and the caller passed the hash of the record hashes. */
  lemma PublishedThenLoaded(env: Env, s: Shelf, batch: Batch, fault: Fault)
    requires RoundTrip.Records(batch.examples)
    requires Publish(env, s, batch, fault).1.Returned?
    ensures
      Load(env, Publish(env, s, batch, fault).0, batch.task) == Ok(batch.examples) <==>
      && |J.Dump(batch.examples)| <= env.sizeLimit
      && AllFaithful(batch.examples)
      && AllValid(env, batch.examples)
      && batch.recordsHash == env.hashList(Hashes(env, batch.examples))
  {
    var t := Publish(env, s, batch, fault).0;
    Returns(env, s, batch, fault);
    ReadsBack(batch.examples);
    LoadReads(env, t, batch.task);
    if AllFaithful(batch.examples) {
      assert Load(env, t, batch.task) ==
             if |J.Dump(batch.examples)| > env.sizeLimit then Err(Unsafe)
             else if !AllValid(env, batch.examples) then Err(Malformed)
             else if Consistent(env, t.manifest.value, batch.examples) then Ok(batch.examples)
             else Err(Inconsistent);
    }
  }

  datatype Call = Call(batch: Batch, fault: Fault)

  function Life(env: Env, s: Shelf, calls: seq<Call>): Shelf {
    if calls == [] then s
    else
      var last := calls[|calls| - 1];
      Publish(env, Life(env, s, calls[..|calls| - 1]), last.batch, last.fault).0
  }

  const EMPTY := Shelf(Slot(None, None), None)

  lemma PublishKeeps(env: Env, s: Shelf, batch: Batch, fault: Fault)
    ensures
      var t := Publish(env, s, batch, fault).0;
      && (s.slot.target.Some? ==> t.slot == s.slot)
      && (s.manifest.Some? ==> t.manifest == s.manifest)
      && (t.slot.target != s.slot.target ==> t.slot.target == Some(J.Dump(batch.examples)))
      && (t.manifest.Some? ==> s.manifest == t.manifest || t.slot.target.Some?)
      && (s.slot.temp.Some? && s.slot.target.None? ==> t == s)
  {
    JoinedIsDump(batch.examples);
  }

  /** Whatever calls follow, with whatever examples and faults, a file that is there stays as
      it is, and a crash inside the first write refuses every later call. */
  lemma {:induction false} FilesNeverChange(env: Env, s: Shelf, calls: seq<Call>)
    ensures
      var t := Life(env, s, calls);
      && (s.slot.target.Some? ==> t.slot == s.slot)
      && (s.manifest.Some? ==> t.manifest == s.manifest)
      && (s.slot.temp.Some? && s.slot.target.None? ==> t == s)
  {
    if calls != [] {
      var init, last := calls[..|calls| - 1], calls[|calls| - 1];
      FilesNeverChange(env, s, init);
      PublishKeeps(env, Life(env, s, init), last.batch, last.fault);
    }
  }

  /** The records file always holds the whole examples of one of the calls. */
  lemma {:induction false} RecordsFromOneCall(env: Env, calls: seq<Call>)
    ensures
      var t := Life(env, EMPTY, calls);
      t.slot.target.Some? ==>
        exists k :: 0 <= k < |calls| && t.slot.target.value == J.Dump(calls[k].batch.examples)
  {
    if calls != [] {
      var init, last := calls[..|calls| - 1], calls[|calls| - 1];
      RecordsFromOneCall(env, init);
      var s := Life(env, EMPTY, init);
      var t := Life(env, EMPTY, calls);
      PublishKeeps(env, s, last.batch, last.fault);
      if s.slot.target.Some? {
        var k :| 0 <= k < |init| && s.slot.target.value == J.Dump(init[k].batch.examples);
        assert t.slot.target.value == J.Dump(calls[k].batch.examples);
      } else if t.slot.target.Some? {
        assert t.slot.target.value == J.Dump(calls[|calls| - 1].batch.examples);
      }
    }
  }

  /** Over a whole life of crashing and repeated calls, whatever loads is the examples of one
      of the calls. */
  lemma LoadsOnePublication(env: Env, calls: seq<Call>, task: string)
    requires forall k :: 0 <= k < |calls| ==>
               RoundTrip.Records(calls[k].batch.examples) && AllFaithful(calls[k].batch.examples)
    ensures
      var loaded := Load(env, Life(env, EMPTY, calls), task);
      loaded.Ok? ==> exists k :: 0 <= k < |calls| && loaded.value == calls[k].batch.examples
  {
    RecordsFromOneCall(env, calls);
    var t := Life(env, EMPTY, calls);
    if Load(env, t, task).Ok? {
      LoadReads(env, t, task);
      var k :| 0 <= k < |calls| && t.slot.target.value == J.Dump(calls[k].batch.examples);
      ReadsBack(calls[k].batch.examples);
    }
  }

  lemma DumpInjective(a: seq<J.Json>, b: seq<J.Json>)
    requires RoundTrip.Records(a) && RoundTrip.Records(b) && AllFaithful(a) && AllFaithful(b)
    ensures J.Dump(a) == J.Dump(b) <==> a == b
  {
    ReadsBack(a);
    ReadsBack(b);
  }

  /** Once the records of one list of examples are in place, a different list is refused and
      nothing changes. */
  lemma OtherExamplesRefused(env: Env, s: Shelf, published: seq<J.Json>, batch: Batch, fault: Fault)
    requires RoundTrip.Records(published) && AllFaithful(published)
    requires RoundTrip.Records(batch.examples) && AllFaithful(batch.examples)
    requires s.slot.target == Some(J.Dump(published)) && batch.examples != published
    ensures Publish(env, s, batch, fault) == (s, Refused)
  {
    DumpInjective(published, batch.examples);
  }

  predicate AllOf(calls: seq<Call>, batch: Batch) {
    forall k :: 0 <= k < |calls| ==> calls[k].batch == batch
  }

  lemma {:induction false} RepeatedCalls(env: Env, batch: Batch, calls: seq<Call>)
    requires batch.transcript.Some? && batch.examples != [] && AllOf(calls, batch)
    ensures
      var t, text := Life(env, EMPTY, calls), J.Dump(batch.examples);
      && (t.slot == Slot(None, None) || t.slot == Slot(None, Some(text)) ||
          (t.slot.temp.Some? && t.slot.target.None?))
      && (t.manifest.None? || t.manifest == Some(Sealed(env, batch, text)))
  {
    JoinedIsDump(batch.examples);
    if calls != [] {
      var init, last := calls[..|calls| - 1], calls[|calls| - 1];
      assert AllOf(init, batch) && last.batch == batch;
      RepeatedCalls(env, batch, init);
    }
  }

  /** Repeating a publication that any faults have cut short completes it, with the very files
      an undisturbed call would have left, exactly when no crash fell inside the first write. */
  lemma RepublishingCompletes(env: Env, batch: Batch, calls: seq<Call>, fault: Fault)
    requires batch.transcript.Some? && batch.examples != [] && AllOf(calls, batch)
    requires fault.after >= |batch.examples| + 3
    ensures
      var t := Life(env, EMPTY, calls);
      var undisturbed := Publish(env, EMPTY, batch, fault);
      undisturbed.1.Returned? &&
      (Publish(env, t, batch, fault) == undisturbed <==> t.slot.temp.None?)
  {
    RepeatedCalls(env, batch, calls);
    JoinedIsDump(batch.examples);
  }

  /** Such a crash: killed after the temporary was opened, a publication refuses every repeat. */
  lemma TemporaryLeft(env: Env, batch: Batch, again: Fault)
    requires batch.transcript.Some? && batch.examples != []
    ensures
      var t := Life(env, EMPTY, [Call(batch, Fault(1, Crash))]);
      t.slot.temp.Some? && t.slot.target.None? && Publish(env, t, batch, again) == (t, Refused)
  {
    assert [Call(batch, Fault(1, Crash))][..0] == [] && Life(env, EMPTY, []) == EMPTY;
  }
}

/** The four-file handoff of a completed campaign. The files are written one after another,
    so a fault can leave any prefix of them; outputs of two calls must never mix. */
module Handoff {
  import opened Wrappers
  import opened JsonlFiles

  /** What one call means to hand off: the dataset lines and the three JSON documents. */
  datatype Want = Want(lines: seq<string>, bindings: string, manifest: string, handoff: string)

  datatype Outputs = Outputs(
    dataset: Slot, bindings: Option<string>, manifest: Option<string>, handoff: Option<string>)

  /** `_json` refuses a document above its size bound. */
  predicate Reads(file: Option<string>, document: string, limit: nat) {
    file == Some(document) && |document| <= limit
  }

  predicate AnyExists(o: Outputs) {
    o.dataset.target.Some? || o.bindings.Some? || o.manifest.Some? || o.handoff.Some?
  }

  predicate AllMatch(o: Outputs, w: Want, limit: nat) {
    && o.dataset.target == Some(Joined(w.lines))
    && Reads(o.bindings, w.bindings, limit)
    && Reads(o.manifest, w.manifest, limit)
    && Reads(o.handoff, w.handoff, limit)
  }

  /** `_write_completed_handoff` and `_write_action_conditioned_handoff`, past the assembly of
      their documents. */
  function Write(o: Outputs, w: Want, limit: nat, fault: Fault): (Outputs, Outcome) {
    if AnyExists(o) then (o, if AllMatch(o, w, limit) then Returned else Refused)
    else
      var d := Dump(o.dataset, w.lines, fault);
      var o1 := o.(dataset := d.slot);
      if !d.outcome.Returned? then (o1, d.outcome)
      else if d.left == 0 then (o1, Struck(fault))
      else
        var o2 := o1.(bindings := Some(w.bindings));
        if d.left == 1 then (o2, Struck(fault))
        else
          var o3 := o2.(manifest := Some(w.manifest));
          if d.left == 2 then (o3, Struck(fault))
          else (o3.(handoff := Some(w.handoff)), Returned)
  }

  const EMPTY := Outputs(Slot(None, None), None, None, None)

  class HandoffDir {
    const dataset: JsonlFile
    var bindings: Option<string>
    var manifest: Option<string>
    var handoff: Option<string>

    function Here(): Outputs reads this, dataset { Outputs(dataset.Here(), bindings, manifest, handoff) }

    constructor ()
      ensures fresh(dataset) && Here() == EMPTY
    {
      dataset := new JsonlFile();
      bindings, manifest, handoff := None, None, None;
    }

    method WriteHandoff(w: Want, limit: nat, fault: Fault) returns (outcome: Outcome)
      modifies this, dataset
      ensures (Here(), outcome) == Write(old(Here()), w, limit, fault)
    {
      if dataset.target.Some? || bindings.Some? || manifest.Some? || handoff.Some? {
        if dataset.target.Some? && bindings.Some? && manifest.Some? && handoff.Some? &&
           dataset.target.value == Joined(w.lines) &&
           Reads(bindings, w.bindings, limit) && Reads(manifest, w.manifest, limit) &&
           Reads(handoff, w.handoff, limit) {
          return Returned;
        }
        return Refused;
      }
      var left;
      outcome, left := dataset.AtomicDump(w.lines, fault);
      if !outcome.Returned? { return outcome; }
      if left == 0 { return Struck(fault); }
      bindings := Some(w.bindings);
      if left == 1 { return Struck(fault); }
      manifest := Some(w.manifest);
      if left == 2 { return Struck(fault); }
      handoff := Some(w.handoff);
      return Returned;
    }
  }

  datatype Call = Call(want: Want, fault: Fault)

  function Life(o: Outputs, calls: seq<Call>, limit: nat): Outputs {
    if calls == [] then o
    else
      var last := calls[|calls| - 1];
      Write(Life(o, calls[..|calls| - 1], limit), last.want, limit, last.fault).0
  }

  /** Every output that is there is the one this call meant, and the files appear in order. */
  predicate FromCall(o: Outputs, w: Want) {
    && o.dataset == Slot(None, Some(Joined(w.lines)))
    && (o.bindings.Some? ==> o.bindings.value == w.bindings)
    && (o.manifest.Some? ==> o.bindings.Some? && o.manifest.value == w.manifest)
    && (o.handoff.Some? ==> o.manifest.Some? && o.handoff.value == w.handoff)
  }

  lemma WriteSteps(o: Outputs, w: Want, limit: nat, fault: Fault)
    ensures
      var r := Write(o, w, limit, fault);
      && (AnyExists(o) ==> r.0 == o)
      && (!AnyExists(o) && AnyExists(r.0) ==> FromCall(r.0, w))
      && (r.1.Returned? ==>
            && r.0.dataset.target == Some(Joined(w.lines))
            && r.0.bindings == Some(w.bindings) && r.0.manifest == Some(w.manifest)
            && r.0.handoff == Some(w.handoff))
      && (o.dataset.temp.Some? && !AnyExists(o) ==> r == (o, Refused))
  {
  }

  /** Over any calls with any inputs and faults, all outputs present come from one call. */
  lemma {:induction false} SingleOrigin(calls: seq<Call>, limit: nat)
    ensures
      var o := Life(EMPTY, calls, limit);
      AnyExists(o) ==> exists k :: 0 <= k < |calls| && FromCall(o, calls[k].want)
  {
    if calls != [] {
      var init, last := calls[..|calls| - 1], calls[|calls| - 1];
      var before := Life(EMPTY, init, limit);
      SingleOrigin(init, limit);
      WriteSteps(before, last.want, limit, last.fault);
      if AnyExists(before) {
        var k :| 0 <= k < |init| && FromCall(before, init[k].want);
        assert FromCall(before, calls[k].want);
      }
    }
  }

  /** Once any output exists, no later call changes anything; nor after a crash that left the
      temporary of the dataset behind. */
  lemma {:induction false} OutputsNeverChange(o: Outputs, calls: seq<Call>, limit: nat)
    requires AnyExists(o) || o.dataset.temp.Some?
    ensures Life(o, calls, limit) == o
  {
    if calls != [] {
      var last := calls[|calls| - 1];
      OutputsNeverChange(o, calls[..|calls| - 1], limit);
      WriteSteps(o, last.want, limit, last.fault);
    }
  }

  /** A call that returns leaves exactly the four files it meant. */
  lemma ReturnMeansAllFour(calls: seq<Call>, w: Want, limit: nat, fault: Fault)
    ensures
      var r := Write(Life(EMPTY, calls, limit), w, limit, fault);
      r.1.Returned? ==>
        r.0 == Outputs(Slot(None, Some(Joined(w.lines))), Some(w.bindings), Some(w.manifest), Some(w.handoff))
  {
    SingleOrigin(calls, limit);
    WriteSteps(Life(EMPTY, calls, limit), w, limit, fault);
  }

  /** Repeating a finished call changes nothing, and is accepted exactly when the reader can
      still read the three documents. */
  lemma FinishedCallRepeats(calls: seq<Call>, w: Want, limit: nat, fault: Fault, again: Fault)
    requires Write(Life(EMPTY, calls, limit), w, limit, fault).1.Returned?
    ensures
      var o := Write(Life(EMPTY, calls, limit), w, limit, fault).0;
      var r := Write(o, w, limit, again);
      && r.0 == o
      && (r.1.Returned? <==> |w.bindings| <= limit && |w.manifest| <= limit && |w.handoff| <= limit)
  {
    ReturnMeansAllFour(calls, w, limit, fault);
  }

  /** The call meets no fault before its last write. */
  predicate Undisturbed(w: Want, fault: Fault) { fault.after >= |w.lines| + 5 }

  /** A call that no fault disturbs succeeds if and only if nothing was started before, neither an
      output nor the temporary of the dataset, or all four files are already its own and still
      readable. So a handoff cut short anywhere is never completed by repeating it. */
  lemma CompletedIffNothingStarted(calls: seq<Call>, w: Want, limit: nat, fault: Fault)
    requires Undisturbed(w, fault)
    ensures
      var o := Life(EMPTY, calls, limit);
      && (Write(o, w, limit, fault).1.Returned? <==>
            (!AnyExists(o) && o.dataset.temp.None?) || AllMatch(o, w, limit))
      && (!Write(o, w, limit, fault).1.Returned? ==> Write(o, w, limit, fault) == (o, Refused))
  {
  }

  /** Handoffs cut short: after the dataset, and inside the dataset's own write. */
  lemma CutShort(w: Want, limit: nat, kind: FaultKind)
    ensures
      var o := Life(EMPTY, [Call(w, Fault(|w.lines| + 2, kind))], limit);
      AnyExists(o) && o.bindings.None? && !AllMatch(o, w, limit)
    ensures
      var o := Life(EMPTY, [Call(w, Fault(1, Crash))], limit);
      !AnyExists(o) && o.dataset.temp.Some?
  {
    assert [Call(w, Fault(|w.lines| + 2, kind))][..0] == [] && [Call(w, Fault(1, Crash))][..0] == [];
    assert Life(EMPTY, [], limit) == EMPTY;
  }
}

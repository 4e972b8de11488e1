/** One process writing a JSON Lines file through a temporary, with a fault anywhere. */
module JsonlFiles {
  import opened Wrappers

  /** The process is killed, or an operation raises and the handlers run. */
  datatype FaultKind = Crash | IoError

  /** The number of durable operations that still succeed, and what happens to the next. */
  datatype Fault = Fault(after: nat, kind: FaultKind)

  datatype Outcome = Returned | Refused | Killed

  /** How a call that meets its fault ends. */
  function Struck(fault: Fault): Outcome {
    if fault.kind.Crash? then Killed else Refused
  }

  /** The temporary and the target of one publication. */
  datatype Slot = Slot(temp: Option<string>, target: Option<string>)

  datatype Dumped = Dumped(slot: Slot, outcome: Outcome, left: nat)

  function Joined(lines: seq<string>): string {
    if lines == [] then "" else Joined(lines[..|lines| - 1]) + lines[|lines| - 1] + "\n"
  }

  /** `_atomic_dump_jsonl`: open, one write a record, rename; `left` counts what the fault
      leaves for the caller. */
  function Dump(s: Slot, lines: seq<string>, fault: Fault): Dumped {
    if s.temp.Some? || s.target.Some? then Dumped(s, Refused, fault.after)
    else if fault.after == 0 then Dumped(s, Struck(fault), 0)
    else if fault.after <= |lines| + 1 then
      if fault.kind.Crash? then Dumped(Slot(Some(Joined(lines[..fault.after - 1])), None), Killed, 0)
      else Dumped(s, Refused, 0)
    else Dumped(Slot(None, Some(Joined(lines))), Returned, fault.after - |lines| - 2)
  }

  class JsonlFile {
    var temp: Option<string>
    var target: Option<string>

    constructor ()
      ensures temp.None? && target.None?
    {
      temp, target := None, None;
    }

    function Here(): Slot reads this { Slot(temp, target) }

    method AtomicDump(lines: seq<string>, fault: Fault) returns (outcome: Outcome, left: nat)
      modifies this
      ensures Dumped(Here(), outcome, left) == Dump(old(Here()), lines, fault)
    {
      if temp.Some? || target.Some? { return Refused, fault.after; }
      if fault.after == 0 { return Struck(fault), 0; }
      temp := Some("");
      var i := 0;
      while i < |lines| && i + 1 < fault.after
        invariant i <= |lines| && i + 1 <= fault.after
        invariant temp == Some(Joined(lines[..i])) && target.None?
      {
        assert lines[..i + 1][..i] == lines[..i];
        temp := Some(temp.value + lines[i] + "\n");
        i := i + 1;
      }
      assert lines[..|lines|] == lines;
      if i + 1 == fault.after {
        // the next operation fails; only an exception runs the handler
        if fault.kind.IoError? { temp := None; }
        return Struck(fault), 0;
      }
      target := temp;
      temp := None;
      return Returned, fault.after - |lines| - 2;
    }
  }

  /** A dump either leaves the target alone or fills it with the whole text; it returns
      exactly when both names were free and the fault comes after the rename. */
  lemma DumpAllOrNothing(s: Slot, lines: seq<string>, fault: Fault)
    ensures
      var d := Dump(s, lines, fault);
      && (d.outcome.Returned? <==> s.temp.None? && s.target.None? && fault.after >= |lines| + 2)
      && (d.outcome.Returned? ==> d.slot == Slot(None, Some(Joined(lines))))
      && (!d.outcome.Returned? ==> d.slot.target == s.target)
      && (d.slot.temp != s.temp ==> d.outcome.Killed?)
  {
  }
}

/** The distribution audit's scan of archive members: names, declared sizes and bytes read. */
module MemberScan {
  import opened Wrappers
  import opened PosixPaths

  type Byte = b: int | 0 <= b < 256
  type Bytes = seq<Byte>

  datatype Limits = Limits(members: nat, memberBytes: nat, totalBytes: nat)

  const LIMITS := Limits(2_000, 8 * 1024 * 1024, 32 * 1024 * 1024)

  /** A member as listed, and everything its stream would give. */
  datatype Member = Member(name: string, declared: int, content: Bytes)

  const FORBIDDEN_PARTS: set<string> := {".codex", "__pycache__", "auth.json", "credentials.json"}
  const FORBIDDEN_SUFFIXES: set<string> := {".pyc", ".pyo", ".pid"}

  /** What `_safe_name` accepts. */
  predicate SafeName(raw: string) {
    && raw != "" && !Absolute(raw) && ".." !in Parts(raw) && '\\' !in raw
    && (forall part :: part in Parts(raw) ==> part !in FORBIDDEN_PARTS)
    && Suffix(raw) !in FORBIDDEN_SUFFIXES
  }

  /** `_safe_name`; `None` is its ValueError. */
  method CheckName(raw: string) returns (r: Option<string>)
    ensures r == if SafeName(raw) then Some(AsPosix(raw)) else None
  {
    if raw == "" || Absolute(raw) || ".." in Parts(raw) || '\\' in raw { return None; }
    var parts := Parts(raw);
    for i := 0 to |parts|
      invariant forall j :: 0 <= j < i ==> parts[j] !in FORBIDDEN_PARTS
    {
      if parts[i] in FORBIDDEN_PARTS { return None; }
    }
    if Suffix(raw) in FORBIDDEN_SUFFIXES { return None; }
    return Some(AsPosix(raw));
  }

  function Total(members: seq<Member>): nat {
    if members == [] then 0 else Total(members[..|members| - 1]) + |members[|members| - 1].content|
  }

  /** A member by itself: a safe name and exactly the declared bytes, within the bound. */
  predicate MemberOk(limits: Limits, m: Member) {
    SafeName(m.name) && m.declared == |m.content| <= limits.memberBytes
  }

  /** No two of the first `k` members denote one path. */
  predicate PathsDistinct(members: seq<Member>, k: nat)
    requires k <= |members|
  {
    forall i, j :: 0 <= i < j < k ==> Parts(members[i].name) != Parts(members[j].name)
  }

  /** All the scanner's rules. */
  predicate Acceptable(limits: Limits, members: seq<Member>) {
    && |members| <= limits.members
    && (forall i :: 0 <= i < |members| ==> MemberOk(limits, members[i]))
    && PathsDistinct(members, |members|)
    && Total(members) <= limits.totalBytes
  }

  /** The accepted members' normalised names. */
  function Names(members: seq<Member>): (names: seq<string>)
    ensures |names| == |members|
  {
    seq(|members|, i requires 0 <= i < |members| => AsPosix(members[i].name))
  }

  lemma {:induction false} TotalGrows(members: seq<Member>, k: nat)
    requires k <= |members|
    ensures Total(members[..k]) <= Total(members)
  {
    if k < |members| {
      var init := members[..|members| - 1];
      assert init[..k] == members[..k];
      TotalGrows(init, k);
    } else {
      assert members[..k] == members;
    }
  }

  /** What has been checked of the first `k` members. */
  ghost predicate Scanned(limits: Limits, members: seq<Member>, k: nat, names: seq<string>, total: nat) {
    && k <= |members| && PathsDistinct(members, k)
    && names == Names(members[..k])
    && (forall i :: 0 <= i < k ==> MemberOk(limits, members[i]))
    && total == Total(members[..k]) <= limits.totalBytes
  }

  lemma DistinctNext(members: seq<Member>, k: nat)
    requires k < |members| && PathsDistinct(members, k) && AsPosix(members[k].name) !in Names(members[..k])
    ensures PathsDistinct(members, k + 1)
  {
    forall i | 0 <= i < k ensures Parts(members[i].name) != Parts(members[k].name) {
      SameNormalForm(members[i].name, members[k].name);
      assert Names(members[..k])[i] == AsPosix(members[i].name);
    }
  }

  lemma SumsNext(members: seq<Member>, k: nat)
    requires k < |members|
    ensures Total(members[..k + 1]) == Total(members[..k]) + |members[k].content|
    ensures Names(members[..k + 1]) == Names(members[..k]) + [AsPosix(members[k].name)]
  {
    assert members[..k + 1][..k] == members[..k];
  }

  lemma ScannedNext(limits: Limits, members: seq<Member>, k: nat, names: seq<string>, total: nat)
    requires Scanned(limits, members, k, names, total) && k < |members| && MemberOk(limits, members[k])
    requires AsPosix(members[k].name) !in names && total + |members[k].content| <= limits.totalBytes
    ensures Scanned(limits, members, k + 1, names + [AsPosix(members[k].name)], total + |members[k].content|)
  {
    DistinctNext(members, k);
    SumsNext(members, k);
  }

  /** A name seen before belongs to an earlier member with the same components. */
  lemma SeenBefore(limits: Limits, members: seq<Member>, k: nat, names: seq<string>, total: nat)
    requires Scanned(limits, members, k, names, total) && k < |members| && AsPosix(members[k].name) in names
    ensures !Acceptable(limits, members)
  {
    var i :| 0 <= i < |names| && names[i] == AsPosix(members[k].name);
    SameNormalForm(members[i].name, members[k].name);
  }

  lemma TotalExceeded(limits: Limits, members: seq<Member>, k: nat)
    requires k < |members| && Total(members[..k]) + |members[k].content| > limits.totalBytes
    ensures !Acceptable(limits, members)
  {
    assert members[..k + 1][..k] == members[..k];
    TotalGrows(members, k + 1);
  }

  /** `_scan_members`, with the bytes it read; `None` is its ValueError. It accepts exactly when
      all rules hold, and reads little more than the total bound before it stops. */
  method ScanMembers(limits: Limits, members: seq<Member>) returns (r: Option<seq<string>>, bytesRead: nat)
    ensures r == if Acceptable(limits, members) then Some(Names(members)) else None
    ensures bytesRead <= limits.totalBytes + limits.memberBytes + 1
    ensures r.Some? ==> bytesRead == Total(members)
  {
    bytesRead := 0;
    if |members| > limits.members { return None, bytesRead; }
    var names: seq<string>, seen: set<string>, total: nat := [], {}, 0;
    for k := 0 to |members|
      invariant Scanned(limits, members, k, names, total)
      invariant seen == set n | n in names
      invariant bytesRead == total
    {
      var m := members[k];
      var name := CheckName(m.name);
      if name.None? { return None, bytesRead; }
      if name.value in seen {
        SeenBefore(limits, members, k, names, total);
        return None, bytesRead;
      }
      if m.declared > limits.memberBytes { return None, bytesRead; }
      var payload := if |m.content| < limits.memberBytes + 1 then m.content else m.content[..limits.memberBytes + 1];
      bytesRead := bytesRead + |payload|;
      if |payload| != m.declared || |payload| > limits.memberBytes { return None, bytesRead; }
      total := total + |payload|;
      if total > limits.totalBytes {
        TotalExceeded(limits, members, k);
        return None, bytesRead;
      }
      ScannedNext(limits, members, k, names, total - |payload|);
      seen := seen + {name.value};
      names := names + [name.value];
    }
    assert members[..|members|] == members;
    return Some(names), bytesRead;
  }

  /** Accepted names are distinct, as text and as paths, and none leaves the archive. */
  lemma AcceptedNamesDistinct(limits: Limits, members: seq<Member>)
    requires Acceptable(limits, members)
    ensures forall i, j :: 0 <= i < j < |members| ==> Names(members)[i] != Names(members)[j]
    ensures forall i :: 0 <= i < |members| ==>
              Parts(Names(members)[i]) == Parts(members[i].name) && ".." !in Parts(Names(members)[i])
  {
    forall i | 0 <= i < |members| ensures Parts(Names(members)[i]) == Parts(members[i].name) {
      NormalForm(members[i].name);
    }
  }
}

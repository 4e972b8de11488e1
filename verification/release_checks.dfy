/** The release's checksum list and the JSON objects of its provenance. */
module ReleaseChecks {
  import opened Wrappers
  import JsonLines

  /** Two spaces in a row. */
  predicate Gap(line: string, j: nat) { j + 1 < |line| && line[j] == ' ' && line[j + 1] == ' ' }

  /** Where the first two spaces in a row begin, or the length. */
  function FirstGap(line: string): (k: nat)
    ensures k <= |line|
    ensures k < |line| ==> Gap(line, k)
    ensures forall j :: 0 <= j < k ==> !Gap(line, j)
  {
    if |line| < 2 then |line|
    else if Gap(line, 0) then 0
    else
      assert forall j :: 0 < j ==> Gap(line, j) == Gap(line[1..], j - 1);
      1 + FirstGap(line[1..])
  }

  /** The digests of the lines that `partition("  ")` splits off before the asset's name. */
  function Matches(lines: seq<string>, name: string): seq<string> {
    if lines == [] then []
    else
      var init, line := lines[..|lines| - 1], lines[|lines| - 1];
      var k := FirstGap(line);
      Matches(init, name) + (if k < |line| && line[k + 2..] == name then [line[..k]] else [])
  }

  /** A line that binds a digest to a name. */
  predicate Entry(line: string, digest: string, name: string) {
    && line == digest + "  " + name
    && forall j :: 0 <= j < |digest| ==> !Gap(line, j)
  }

  lemma Regroup(a: string, b: string, c: string)
    ensures a + (b + c) == a + b + c
  {
  }

  lemma CutAtGap(line: string, k: nat)
    requires Gap(line, k)
    ensures line == line[..k] + "  " + line[k + 2..]
  {
    assert line == line[..k] + line[k..];
    assert line[k..] == "  " + line[k + 2..];
    Regroup(line[..k], "  ", line[k + 2..]);
  }

  /** Splitting finds an entry. */
  lemma SplitIsEntry(line: string)
    requires FirstGap(line) < |line|
    ensures Entry(line, line[..FirstGap(line)], line[FirstGap(line) + 2..])
  {
    CutAtGap(line, FirstGap(line));
  }

  /** An entry is split where it was joined. */
  lemma EntryIsSplit(line: string, digest: string, name: string)
    requires Entry(line, digest, name)
    ensures FirstGap(line) == |digest| < |line| && line[..|digest|] == digest && line[|digest| + 2..] == name
  {
    assert Gap(line, |digest|);
  }

  predicate Binds(line: string, name: string) {
    exists k :: 0 <= k <= |line| && Entry(line, line[..k], name)
  }

  /** The `i`-th line is the only one that binds any digest to the name. */
  predicate OnlyEntry(lines: seq<string>, i: nat, name: string, sha: string)
    requires i < |lines|
  {
    && Entry(lines[i], sha, name)
    && forall j :: 0 <= j < |lines| && j != i ==> !Binds(lines[j], name)
  }

  lemma BindsIsSplit(line: string, name: string)
    ensures Binds(line, name) <==> var k := FirstGap(line); k < |line| && line[k + 2..] == name
  {
    if FirstGap(line) < |line| { SplitIsEntry(line); }
    if Binds(line, name) {
      var d :| 0 <= d <= |line| && Entry(line, line[..d], name);
      EntryIsSplit(line, line[..d], name);
    }
  }

  lemma {:induction false} NoMatches(lines: seq<string>, name: string)
    ensures Matches(lines, name) == [] <==> forall j :: 0 <= j < |lines| ==> !Binds(lines[j], name)
  {
    if lines != [] {
      NoMatches(lines[..|lines| - 1], name);
      BindsIsSplit(lines[|lines| - 1], name);
    }
  }

  /** The list is accepted exactly when one line binds the name, and binds it to this digest. */
  lemma {:induction false} OneMatch(lines: seq<string>, name: string, sha: string) returns (i: nat)
    requires Matches(lines, name) == [sha]
    ensures i < |lines| && OnlyEntry(lines, i, name, sha)
  {
    var n := |lines| - 1;
    var init, line := lines[..n], lines[n];
    assert forall j :: 0 <= j < n ==> init[j] == lines[j];
    NoMatches(init, name);
    BindsIsSplit(line, name);
    if Binds(line, name) {
      assert |Matches(lines, name)| == |Matches(init, name)| + 1;
      assert Matches(lines, name)[0] == line[..FirstGap(line)];
      SplitIsEntry(line);
      return n;
    }
    assert Matches(lines, name) == Matches(init, name);
    i := OneMatch(init, name, sha);
  }

  lemma {:induction false} OnlyMatch(lines: seq<string>, i: nat, name: string, sha: string)
    requires i < |lines| && OnlyEntry(lines, i, name, sha)
    ensures Matches(lines, name) == [sha]
  {
    var n := |lines| - 1;
    var init, line := lines[..n], lines[n];
    assert forall j :: 0 <= j < n ==> init[j] == lines[j];
    BindsIsSplit(line, name);
    if i < n {
      OnlyMatch(init, i, name, sha);
    } else {
      EntryIsSplit(line, sha, name);
      NoMatches(init, name);
    }
  }

  ghost predicate Bound(lines: seq<string>, name: string, sha: string) {
    exists i: nat :: i < |lines| && OnlyEntry(lines, i, name, sha)
  }

  lemma AcceptedIffBound(lines: seq<string>, name: string, sha: string)
    ensures Matches(lines, name) == [sha] <==> Bound(lines, name, sha)
  {
    if Matches(lines, name) == [sha] {
      var i := OneMatch(lines, name, sha);
    } else if Bound(lines, name, sha) {
      var i: nat :| i < |lines| && OnlyEntry(lines, i, name, sha);
      OnlyMatch(lines, i, name, sha);
    }
  }

  /** `_validate_checksums`; false is its ValueError. */
  method ValidateChecksums(text: string, name: string, sha: string) returns (ok: bool)
    ensures ok <==> Bound(JsonLines.SplitLines(text), name, sha)
  {
    var lines := JsonLines.SplitLines(text);
    var matches: seq<string> := [];
    for n := 0 to |lines|
      invariant matches == Matches(lines[..n], name)
    {
      var line := lines[n];
      assert lines[..n + 1][..n] == lines[..n];
      var k := FirstGap(line);
      if k < |line| && line[k + 2..] == name { matches := matches + [line[..k]]; }
    }
    assert lines[..|lines|] == lines;
    AcceptedIffBound(lines, name, sha);
    ok := matches == [sha];
  }

  /** `_unique_object`; `None` is its ValueError. */
  method UniqueObject<K(==), V>(pairs: seq<(K, V)>) returns (r: Option<map<K, V>>)
    ensures r.Some? <==> forall i, j :: 0 <= i < j < |pairs| ==> pairs[i].0 != pairs[j].0
    ensures r.Some? ==>
              && (forall i :: 0 <= i < |pairs| ==> pairs[i].0 in r.value && r.value[pairs[i].0] == pairs[i].1)
              && (forall key :: key in r.value ==> exists i :: 0 <= i < |pairs| && pairs[i].0 == key)
              && |r.value| == |pairs|
  {
    var value: map<K, V> := map[];
    for n := 0 to |pairs|
      invariant forall i, j :: 0 <= i < j < n ==> pairs[i].0 != pairs[j].0
      invariant forall i :: 0 <= i < n ==> pairs[i].0 in value && value[pairs[i].0] == pairs[i].1
      invariant forall key :: key in value ==> exists i :: 0 <= i < n && pairs[i].0 == key
      invariant |value| == n
    {
      if pairs[n].0 in value { return None; }
      value := value[pairs[n].0 := pairs[n].1];
    }
    return Some(value);
  }
}

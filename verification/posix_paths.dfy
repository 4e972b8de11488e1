/** `PurePosixPath`: the components of a path, and its normal form. */
module PosixPaths {

  /** `str.split("/")`. */
  function Split(s: string): (parts: seq<string>)
    ensures parts != []
    ensures forall i :: 0 <= i < |parts| ==> '/' !in parts[i]
  {
    if s == "" then [""]
    else if s[0] == '/' then [""] + Split(s[1..])
    else
      var rest := Split(s[1..]);
      [[s[0]] + rest[0]] + rest[1..]
  }

  /** A component that `PurePosixPath` keeps. */
  predicate Component(part: string) { part != "" && part != "." && '/' !in part }

  function Keep(parts: seq<string>): (kept: seq<string>)
  {
    if parts == [] then []
    else if parts[0] == "" || parts[0] == "." then Keep(parts[1..])
    else [parts[0]] + Keep(parts[1..])
  }

  /** The components below the root. */
  function Parts(raw: string): seq<string> { Keep(Split(raw)) }

  predicate Absolute(raw: string) { raw != "" && raw[0] == '/' }

  /** `"/".join`. */
  function Join(parts: seq<string>): string {
    if parts == [] then ""
    else if |parts| == 1 then parts[0]
    else parts[0] + "/" + Join(parts[1..])
  }

  /** `as_posix` of a path without a root. */
  function AsPosix(raw: string): string {
    if Parts(raw) == [] then "." else Join(Parts(raw))
  }

  /** The position of the last dot, or -1. */
  function LastDot(s: string): (i: int)
    ensures -1 <= i < |s| && (i >= 0 ==> s[i] == '.')
    ensures forall j :: i < j < |s| ==> s[j] != '.'
  {
    if s == "" then -1
    else if s[|s| - 1] == '.' then |s| - 1
    else LastDot(s[..|s| - 1])
  }

  /** `suffix`: from the last dot of the last component, unless that dot begins or ends it. */
  function Suffix(raw: string): string {
    var parts := Parts(raw);
    if parts == [] then ""
    else
      var name := parts[|parts| - 1];
      var i := LastDot(name);
      if 0 < i < |name| - 1 then name[i..] else ""
  }

  lemma {:induction false} KeepComponents(parts: seq<string>)
    requires forall i :: 0 <= i < |parts| ==> '/' !in parts[i]
    ensures forall i :: 0 <= i < |Keep(parts)| ==> Component(Keep(parts)[i])
  {
    if parts != [] { KeepComponents(parts[1..]); }
  }

  lemma {:induction false} KeepWhole(parts: seq<string>)
    requires forall i :: 0 <= i < |parts| ==> Component(parts[i])
    ensures Keep(parts) == parts
  {
    if parts != [] { KeepWhole(parts[1..]); }
  }

  lemma {:induction false} SplitPlain(s: string)
    requires '/' !in s
    ensures Split(s) == [s]
  {
    if s != "" {
      assert s[0] in s && forall c :: c in s[1..] ==> c in s;
      SplitPlain(s[1..]);
      assert s == [s[0]] + s[1..];
    }
  }

  lemma {:induction false} SplitAtSlash(part: string, rest: string)
    requires '/' !in part
    ensures Split(part + "/" + rest) == [part] + Split(rest)
  {
    var s := part + "/" + rest;
    if part == "" {
      assert s[1..] == rest;
    } else {
      assert part[0] in part && forall c :: c in part[1..] ==> c in part;
      SplitAtSlash(part[1..], rest);
      assert s[1..] == part[1..] + "/" + rest;
      assert [s[0]] + part[1..] == part;
    }
  }

  /** Splitting undoes joining. */
  lemma {:induction false} SplitJoin(parts: seq<string>)
    requires parts != [] && forall i :: 0 <= i < |parts| ==> '/' !in parts[i]
    ensures Split(Join(parts)) == parts
  {
    if |parts| == 1 {
      SplitPlain(parts[0]);
    } else {
      SplitAtSlash(parts[0], Join(parts[1..]));
      SplitJoin(parts[1..]);
    }
  }

  lemma PartsAreComponents(raw: string)
    ensures forall i :: 0 <= i < |Parts(raw)| ==> Component(Parts(raw)[i])
  {
    KeepComponents(Split(raw));
  }

  /** The normal form has the same components, so it is its own normal form. */
  lemma NormalForm(raw: string)
    ensures Parts(AsPosix(raw)) == Parts(raw)
    ensures AsPosix(AsPosix(raw)) == AsPosix(raw)
  {
    PartsAreComponents(raw);
    var parts := Parts(raw);
    if parts == [] {
      assert Split(".") == ["."] by { SplitPlain("."); }
    } else {
      SplitJoin(parts);
      KeepWhole(parts);
    }
  }

  /** Two paths without a root have one normal form exactly when they have the same
      components. */
  lemma SameNormalForm(a: string, b: string)
    ensures AsPosix(a) == AsPosix(b) <==> Parts(a) == Parts(b)
  {
    NormalForm(a);
    NormalForm(b);
  }
}

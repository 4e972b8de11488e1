/** Reading an arbitrary stream, possibly endless, into a file with a fixed bound. */
module BoundedStream {
  import opened Wrappers
  import PosixPaths

  type Byte = b: int | 0 <= b < 256
  type Bytes = seq<Byte>

  /** What the k-th read returns; an empty chunk is the end. */
  type Stream = nat -> Bytes

  /** The first `k` chunks. */
  function Received(stream: Stream, k: nat): Bytes {
    if k == 0 then [] else Received(stream, k - 1) + stream(k - 1)
  }

  /** The stream ends after `k` chunks. */
  predicate EndsAfter(stream: Stream, k: nat) {
    stream(k) == [] && forall j :: 0 <= j < k ==> stream(j) != []
  }

  ghost predicate Holds(stream: Stream, content: Bytes) {
    exists k: nat :: EndsAfter(stream, k) && Received(stream, k) == content
  }

  ghost predicate Endless(stream: Stream) { forall k: nat :: stream(k) != [] }

  /** How a bounded copy ends, what it wrote, and how many reads it made. */
  datatype Copy = Copy(ended: bool, written: Bytes, calls: nat)

  /** The copy loop from the k-th read on. */
  function CopyFrom(stream: Stream, limit: nat, k: nat): (c: Copy)
    requires |Received(stream, k)| <= limit
    decreases limit - |Received(stream, k)|
  {
    if stream(k) == [] then Copy(true, Received(stream, k), k + 1)
    else if |Received(stream, k)| + |stream(k)| > limit then Copy(false, Received(stream, k), k + 1)
    else
      assert |Received(stream, k + 1)| == |Received(stream, k)| + |stream(k)|;
      CopyFrom(stream, limit, k + 1)
  }

  lemma {:induction false} ReceivedGrows(stream: Stream, j: nat, k: nat)
    requires j <= k
    ensures Received(stream, j) <= Received(stream, k)
    ensures (forall i :: j <= i < k ==> stream(i) != []) ==> |Received(stream, k)| >= |Received(stream, j)| + (k - j)
  {
    if j < k { ReceivedGrows(stream, j, k - 1); }
  }

  /** A stream holds at most one content. */
  lemma HoldsUnique(stream: Stream, a: Bytes, b: Bytes)
    requires Holds(stream, a) && Holds(stream, b)
    ensures a == b
  {
    var j: nat :| EndsAfter(stream, j) && Received(stream, j) == a;
    var k: nat :| EndsAfter(stream, k) && Received(stream, k) == b;
    assert !(j < k) && !(k < j);
  }

  /** The bounded copy ends properly exactly on the streams that hold at most `limit` bytes, and
      then wrote all of them; it never writes more than `limit` bytes, only a prefix of the
      stream, and needs at most one read per byte allowed and one more. */
  lemma {:induction false} CopyMeaning(stream: Stream, limit: nat, k: nat)
    requires |Received(stream, k)| <= limit && forall j :: 0 <= j < k ==> stream(j) != []
    ensures
      var c := CopyFrom(stream, limit, k);
      && (c.ended ==> Holds(stream, c.written))
      && (!c.ended ==> forall content :: Holds(stream, content) ==> |content| > limit)
      && |c.written| <= limit && k < c.calls <= limit + 1 && c.written == Received(stream, c.calls - 1)
    decreases limit - |Received(stream, k)|
  {
    ReceivedGrows(stream, 0, k);
    if stream(k) == [] {
      assert EndsAfter(stream, k);
    } else {
      assert |Received(stream, k + 1)| == |Received(stream, k)| + |stream(k)|;
      if |Received(stream, k + 1)| <= limit {
        CopyMeaning(stream, limit, k + 1);
      } else {
        forall content | Holds(stream, content) ensures |content| > limit {
          var n: nat :| EndsAfter(stream, n) && Received(stream, n) == content;
          assert n > k;
          ReceivedGrows(stream, k + 1, n);
        }
      }
    }
  }

  /** On a stream without end the copy stops all the same, unfinished. */
  lemma EndlessStops(stream: Stream, limit: nat)
    requires Endless(stream)
    ensures !CopyFrom(stream, limit, 0).ended && CopyFrom(stream, limit, 0).calls <= limit + 1
  {
    CopyMeaning(stream, limit, 0);
  }

  /* ---- the two users of the loop ---- */

  datatype Error =
    | UrlNotAllowed | AlreadyExists | SizeOutOfBound | ConnectionFailed | Oversized | IdentityChanged
    | MemberCount | UnsafeMember | NoBoundedCrane | Unreadable | Truncated | NotPrivate

  const MAX_BYTES: nat := 128 * 1024 * 1024
  const MAX_MEMBERS: nat := 32

  /** The download's surroundings: the URL checks before and after redirects, and the
      connection. */
  datatype Source = Source(urlAllowed: bool, connects: bool, finalUrlAllowed: bool, stream: Stream)

  type Digest = Bytes -> string

  /** Everything `_download` demands. */
  ghost predicate Acceptable(
    before: Option<Bytes>, source: Source, digest: Digest, sha: string, size: int, content: Bytes) {
    && before.None? && source.urlAllowed && source.connects && source.finalUrlAllowed
    && 1 <= size <= MAX_BYTES
    && Holds(source.stream, content) && |content| == size && digest(content) == sha
  }

  datatype Member = Member(name: string, regular: bool, size: nat, stream: Option<Stream>)

  /** The binaries an archive offers. */
  function Candidates(members: seq<Member>): seq<Member> {
    if members == [] then []
    else (if members[0].name == "crane" then [members[0]] else []) + Candidates(members[1..])
  }

  /** A member that stays below the archive's root. */
  predicate SafeMember(m: Member) {
    !PosixPaths.Absolute(m.name) && ".." !in PosixPaths.Parts(m.name) && m.regular
  }

  /** The archive's members are few and safe, and exactly one is the binary, of a bounded size. */
  predicate OneCrane(members: seq<Member>) {
    && 1 <= |members| <= MAX_MEMBERS && (forall i :: 0 <= i < |members| ==> SafeMember(members[i]))
    && |Candidates(members)| == 1 && 1 <= Candidates(members)[0].size <= MAX_BYTES
  }

  ghost predicate Extractable(before: Option<Bytes>, members: seq<Member>, privateFile: bool, content: Bytes) {
    && before.None? && privateFile && OneCrane(members)
    && var crane := Candidates(members)[0];
       crane.stream.Some? && Holds(crane.stream.value, content) && |content| == crane.size
  }

  /** Exactly one candidate: exactly one position of that name. */
  lemma {:induction false} OneCandidate(members: seq<Member>)
    ensures |Candidates(members)| == 0 <==> forall i :: 0 <= i < |members| ==> members[i].name != "crane"
    ensures |Candidates(members)| == 1 ==> exists i ::
              && 0 <= i < |members| && members[i] == Candidates(members)[0] && members[i].name == "crane"
              && forall j :: 0 <= j < |members| && j != i ==> members[j].name != "crane"
  {
    if members != [] {
      var rest := members[1..];
      OneCandidate(rest);
      if |Candidates(members)| == 1 {
        if members[0].name == "crane" {
          assert forall j :: 0 < j < |members| ==> members[j] == rest[j - 1];
          assert members[0] == Candidates(members)[0];
        } else {
          var i :| 0 <= i < |rest| && rest[i] == Candidates(rest)[0] && rest[i].name == "crane"
            && forall j :: 0 <= j < |rest| && j != i ==> rest[j].name != "crane";
          assert members[i + 1] == Candidates(members)[0];
          assert forall j :: 0 < j < |members| ==> members[j] == rest[j - 1];
        }
      }
    }
  }

  /** The checks on the archive's members. */
  method FindCrane(members: seq<Member>) returns (r: Result<Member, Error>)
    ensures r.Ok? <==> OneCrane(members)
    ensures r.Ok? ==> r.value == Candidates(members)[0]
  {
    if members == [] || |members| > MAX_MEMBERS { return Err(MemberCount); }
    for i := 0 to |members|
      invariant forall j :: 0 <= j < i ==> SafeMember(members[j])
    {
      if !SafeMember(members[i]) { return Err(UnsafeMember); }
    }
    var candidates := Candidates(members);
    if |candidates| != 1 || !(1 <= candidates[0].size <= MAX_BYTES) { return Err(NoBoundedCrane); }
    return Ok(candidates[0]);
  }

  class OutputFile {
    /** `None` when the path is free. */
    var bytes: Option<Bytes>

    /** `_download`. */
    method Download(source: Source, digest: Digest, sha: string, size: int) returns (r: Result<(), Error>)
      modifies this
      ensures r.Ok? ==> bytes.Some? && Acceptable(old(bytes), source, digest, sha, size, bytes.value)
      ensures forall content :: Acceptable(old(bytes), source, digest, sha, size, content) ==>
                r.Ok? && bytes == Some(content)
      ensures old(bytes).Some? ==> bytes == old(bytes)
      ensures old(bytes).None? && bytes.Some? ==>
                && |bytes.value| <= size <= MAX_BYTES
                && exists k: nat :: k <= size && bytes.value == Received(source.stream, k)
      ensures !source.urlAllowed ==> r == Err(UrlNotAllowed)
      ensures source.urlAllowed && old(bytes).Some? ==> r == Err(AlreadyExists)
      ensures r == Err(Oversized) ==> forall content :: Holds(source.stream, content) ==> |content| > size
      ensures r == Err(IdentityChanged) ==>
                && bytes.Some? && Holds(source.stream, bytes.value)
                && (|bytes.value| < size || digest(bytes.value) != sha)
    {
      if !source.urlAllowed { return Err(UrlNotAllowed); }
      if bytes.Some? { return Err(AlreadyExists); }
      if size < 1 || size > MAX_BYTES { return Err(SizeOutOfBound); }
      if !source.connects { return Err(ConnectionFailed); }
      bytes := Some([]);
      assert Received(source.stream, 0) == [];
      if !source.finalUrlAllowed { return Err(UrlNotAllowed); }
      ghost var copied := CopyFrom(source.stream, size, 0);
      CopyMeaning(source.stream, size, 0);
      var total, k, hashed := 0, 0, [];
      while true
        invariant bytes == Some(Received(source.stream, k)) && hashed == bytes.value
        invariant total == |bytes.value| <= size
        invariant CopyFrom(source.stream, size, k) == copied
        decreases size - total
      {
        var chunk := source.stream(k);
        if chunk == [] { break; }
        total := total + |chunk|;
        if total > size { return Err(Oversized); }
        hashed := hashed + chunk;
        bytes := Some(bytes.value + chunk);
        k := k + 1;
      }
      forall content | Acceptable(None, source, digest, sha, size, content) ensures content == bytes.value {
        HoldsUnique(source.stream, content, bytes.value);
      }
      if total != size || digest(hashed) != sha { return Err(IdentityChanged); }
      return Ok(());
    }

    /** The copy loop of `_extract_crane` and the check that nothing is missing. */
    method CopyInto(stream: Stream, size: nat) returns (r: Result<(), Error>)
      requires bytes.None?
      modifies this
      ensures bytes.Some? && |bytes.value| <= size
      ensures r.Ok? ==> Holds(stream, bytes.value) && |bytes.value| == size
      ensures forall content :: Holds(stream, content) && |content| == size ==> r.Ok? && bytes == Some(content)
      ensures r.Err? ==>
                if r.error == Truncated then Holds(stream, bytes.value) && |bytes.value| < size
                else r.error == Oversized && forall content :: Holds(stream, content) ==> |content| > size
    {
      bytes := Some([]);
      ghost var copied := CopyFrom(stream, size, 0);
      CopyMeaning(stream, size, 0);
      var total, k := 0, 0;
      while true
        invariant bytes == Some(Received(stream, k)) && total == |bytes.value| <= size
        invariant CopyFrom(stream, size, k) == copied
        decreases size - total
      {
        var chunk := stream(k);
        if chunk == [] { break; }
        total := total + |chunk|;
        if total > size { return Err(Oversized); }
        bytes := Some(bytes.value + chunk);
        k := k + 1;
      }
      forall content | Holds(stream, content) ensures content == bytes.value {
        HoldsUnique(stream, content, bytes.value);
      }
      if total != size { return Err(Truncated); }
      return Ok(());
    }

    /** `_extract_crane`. */
    method ExtractCrane(members: seq<Member>, privateFile: bool, digest: Digest) returns (r: Result<string, Error>)
      modifies this
      ensures r.Ok? ==>
                && bytes.Some? && Extractable(old(bytes), members, privateFile, bytes.value)
                && r.value == digest(bytes.value)
      ensures forall content :: Extractable(old(bytes), members, privateFile, content) ==>
                r.Ok? && bytes == Some(content)
      ensures old(bytes).Some? ==> bytes == old(bytes)
      ensures old(bytes).None? && bytes.Some? ==> OneCrane(members) && |bytes.value| <= Candidates(members)[0].size
    {
      if bytes.Some? { return Err(AlreadyExists); }
      var found := FindCrane(members);
      if found.Err? { return Err(found.error); }
      var crane := found.value;
      if crane.stream.None? { return Err(Unreadable); }
      var copied := CopyInto(crane.stream.value, crane.size);
      if copied.Err? { return Err(copied.error); }
      if !privateFile { return Err(NotPrivate); }
      return Ok(digest(bytes.value));
    }
  }
}

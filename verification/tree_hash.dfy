/** The canonical identity of a source tree: which paths are hashed, and the byte stream
    the tree digest is fed. The digest itself is a function of that stream. */
module TreeHash {
  import opened Wrappers
  import opened Ordering

  type Byte = b: int | 0 <= b < 256
  type Bytes = seq<Byte>

  /* ---- which paths ---- */

  /** `raw.split(b"\0")`. */
  function SplitNul(raw: Bytes): (r: seq<Bytes>)
    ensures |r| > 0
  {
    if raw == [] then [[]]
    else
      var rest := SplitNul(raw[1..]);
      if raw[0] == 0 then [[]] + rest else [[raw[0]] + rest[0]] + rest[1..]
  }

  /** The listed paths that are hashed: non-empty and not one of the generated files. */
  function Listed(raw: Bytes, excluded: set<Bytes>): set<Bytes> {
    set item | item in SplitNul(raw) && item != [] && item !in excluded
  }

  function Kept(items: seq<Bytes>, excluded: set<Bytes>): (paths: seq<Bytes>)
    ensures Ascending(paths)
    ensures forall p :: p in paths <==> p in items && p != [] && p !in excluded
  {
    if items == [] then []
    else
      assert items == [items[0]] + items[1..];
      var rest := Kept(items[1..], excluded);
      if items[0] == [] || items[0] in excluded then rest
      else
        var paths := Insert(items[0], rest);
        assert forall i :: 0 <= i < |paths| ==> paths[i] in paths && paths[i] in items;
        assert forall p :: p in paths <==> p in items && p != [] && p !in excluded;
        paths
  }

  /** `_source_paths`: the set of listed paths, sorted. */
  function SourcePaths(raw: Bytes, excluded: set<Bytes>): (paths: seq<Bytes>)
    ensures Ascending(paths)
    ensures forall p :: p in paths <==> p in Listed(raw, excluded)
  {
    Kept(SplitNul(raw), excluded)
  }

  /** The order and repetitions of the listing do not matter, and nothing else is forgotten. */
  lemma ListingOrderIrrelevant(a: Bytes, b: Bytes, excluded: set<Bytes>)
    ensures SourcePaths(a, excluded) == SourcePaths(b, excluded) <==>
            Listed(a, excluded) == Listed(b, excluded)
  {
    var pa, pb := SourcePaths(a, excluded), SourcePaths(b, excluded);
    assert Listed(a, excluded) == set p | p in pa;
    assert Listed(b, excluded) == set p | p in pb;
    if Listed(a, excluded) == Listed(b, excluded) {
      AscendingUnique(pa, pb);
    }
  }

  /* ---- what is hashed for each path ---- */

  /** What `lstat` and a read find at a path. */
  datatype Node =
    | Absent
    | Link(mode: nat, target: Bytes)
    | Regular(mode: nat, size: nat, payload: Bytes)
    | Special

  datatype Entry =
    | Missing(path: Bytes)
    | Symlink(path: Bytes, exec: nat, payload: Bytes)
    | File(path: Bytes, exec: nat, payload: Bytes)

  datatype HashError = ChangedWhileHashing | UnsupportedType | TooLong

  const LIMIT := 0x1_0000_0000_0000_0000

  /** `mode & 0o111`. */
  function ExecBits(mode: nat): (r: nat)
    ensures r < 0x1_0000
  {
    mode / 64 % 2 * 64 + mode / 8 % 2 * 8 + mode % 2
  }

  function View(path: Bytes, node: Node): Result<Entry, HashError> {
    match node
    case Absent => if |path| < LIMIT then Ok(Missing(path)) else Err(TooLong)
    case Link(mode, target) =>
      if |path| < LIMIT && |target| < LIMIT then Ok(Symlink(path, ExecBits(mode), target)) else Err(TooLong)
    case Regular(mode, size, payload) =>
      if |path| >= LIMIT then Err(TooLong)
      else if |payload| != size then Err(ChangedWhileHashing)
      else if |payload| < LIMIT then Ok(File(path, ExecBits(mode), payload))
      else Err(TooLong)
    case Special => if |path| < LIMIT then Err(UnsupportedType) else Err(TooLong)
  }

  function Views(paths: seq<Bytes>, tree: Bytes -> Node): Result<seq<Entry>, HashError> {
    if paths == [] then Ok([])
    else
      match View(paths[0], tree(paths[0]))
      case Err(e) => Err(e)
      case Ok(entry) =>
        match Views(paths[1..], tree)
        case Err(e) => Err(e)
        case Ok(entries) => Ok([entry] + entries)
  }

  /* ---- the encoding ---- */

  /** `n.to_bytes(width, "big")`. */
  function BigEndian(n: nat, width: nat): (r: Bytes)
    ensures |r| == width
  {
    if width == 0 then [] else BigEndian(n / 256, width - 1) + [n % 256]
  }

  function BigValue(s: Bytes): nat {
    if s == [] then 0 else BigValue(s[..|s| - 1]) * 256 + s[|s| - 1]
  }

  const MISSING: Bytes := [0x6D, 0x69, 0x73, 0x73, 0x69, 0x6E, 0x67, 0]
  const SYMLINK: Bytes := [0x73, 0x79, 0x6D, 0x6C, 0x69, 0x6E, 0x6B, 0]
  const FILE: Bytes := [0x66, 0x69, 0x6C, 0x65, 0]

  function Prefixed(s: Bytes): Bytes { BigEndian(|s|, 8) + s }

  function Tail(e: Entry): Bytes {
    match e
    case Missing(_) => MISSING
    case Symlink(_, exec, payload) => SYMLINK + BigEndian(exec, 2) + Prefixed(payload)
    case File(_, exec, payload) => FILE + BigEndian(exec, 2) + Prefixed(payload)
  }

  function Encode(e: Entry): Bytes { Prefixed(e.path) + Tail(e) }

  function Stream(entries: seq<Entry>): Bytes {
    if entries == [] then [] else Encode(entries[0]) + Stream(entries[1..])
  }

  /** The loop of the hasher: what the digest holds after the given paths follow `digest`. */
  function Fed(paths: seq<Bytes>, tree: Bytes -> Node, digest: Bytes): Result<Bytes, HashError> {
    if paths == [] then Ok(digest)
    else
      match View(paths[0], tree(paths[0]))
      case Err(e) => Err(e)
      case Ok(entry) => Fed(paths[1..], tree, digest + Encode(entry))
  }

  lemma {:induction false} FedIsStream(paths: seq<Bytes>, tree: Bytes -> Node, digest: Bytes)
    ensures Fed(paths, tree, digest) == match Views(paths, tree)
                                        case Err(e) => Err(e)
                                        case Ok(entries) => Ok(digest + Stream(entries))
  {
    if paths == [] {
      assert digest + [] == digest;
    } else if View(paths[0], tree(paths[0])).Ok? {
      var code := Encode(View(paths[0], tree(paths[0])).value);
      FedIsStream(paths[1..], tree, digest + code);
      if Views(paths[1..], tree).Ok? {
        var more := Stream(Views(paths[1..], tree).value);
        assert digest + (code + more) == digest + code + more;
      }
    }
  }

  lemma Regroup(digest: Bytes, a: Bytes, b: Bytes, c: Bytes, d: Bytes, e: Bytes, f: Bytes)
    ensures digest + a + b + c == digest + (a + b + c)
    ensures digest + a + b + c + d + e + f == digest + (a + b + (c + d + (e + f)))
  {
  }

  /** One turn of the hashing loop: the updates the digest receives for one path. */
  method FeedEntry(start: Bytes, path: Bytes, node: Node) returns (r: Result<Bytes, HashError>)
    ensures r == match View(path, node)
                 case Err(e) => Err(e)
                 case Ok(entry) => Ok(start + Encode(entry))
  {
    if |path| >= LIMIT { return Err(TooLong); }
    var digest := start + BigEndian(|path|, 8);
    digest := digest + path;
    if node.Absent? {
      Regroup(start, BigEndian(|path|, 8), path, MISSING, [], [], []);
      return Ok(digest + MISSING);
    }
    if node.Special? { return Err(UnsupportedType); }
    var kind, payload;
    if node.Link? {
      kind, payload := SYMLINK, node.target;
    } else {
      kind, payload := FILE, node.payload;
      if |payload| != node.size { return Err(ChangedWhileHashing); }
    }
    digest := digest + kind;
    var exec := BigEndian(ExecBits(node.mode), 2);
    digest := digest + exec;
    if |payload| >= LIMIT { return Err(TooLong); }
    digest := digest + BigEndian(|payload|, 8);
    digest := digest + payload;
    Regroup(start, BigEndian(|path|, 8), path, kind, exec, BigEndian(|payload|, 8), payload);
    return Ok(digest);
  }

  method FeedAll(paths: seq<Bytes>, tree: Bytes -> Node) returns (r: Result<Bytes, HashError>)
    ensures r == Fed(paths, tree, [])
  {
    var digest: Bytes := [];
    var i := 0;
    assert paths[0..] == paths;
    while i < |paths|
      invariant i <= |paths|
      invariant Fed(paths, tree, []) == Fed(paths[i..], tree, digest)
    {
      assert paths[i..][1..] == paths[i + 1..];
      var step := FeedEntry(digest, paths[i], tree(paths[i]));
      if step.Err? { return Err(step.error); }
      digest := step.value;
      i := i + 1;
    }
    return Ok(digest);
  }

  /** `_source_tree_hash`, returning what the digest has been fed instead of the digest. */
  method SourceTreeHash(paths: seq<Bytes>, tree: Bytes -> Node) returns (r: Result<Bytes, HashError>)
    ensures r == match Views(paths, tree)
                 case Err(e) => Err(e)
                 case Ok(entries) => Ok(Stream(entries))
  {
    FedIsStream(paths, tree, []);
    assert Views(paths, tree).Ok? ==> [] + Stream(Views(paths, tree).value) == Stream(Views(paths, tree).value);
    r := FeedAll(paths, tree);
  }

  /* ---- decoding ---- */

  datatype Taken = Nothing | Took(value: Bytes, rest: Bytes)

  function Take(s: Bytes, n: nat): Taken {
    if n <= |s| then Took(s[..n], s[n..]) else Nothing
  }

  function TakePrefixed(s: Bytes): (r: Taken)
    ensures r.Took? ==> |r.rest| < |s|
  {
    match Take(s, 8)
    case Nothing => Nothing
    case Took(length, rest) => Take(rest, BigValue(length))
  }

  datatype DecodedOne = NoEntry | OneEntry(entry: Entry, rest: Bytes)

  function DecodeBody(path: Bytes, link: bool, s: Bytes): (r: DecodedOne)
    ensures r.OneEntry? ==> |r.rest| <= |s|
  {
    match Take(s, 2)
    case Nothing => NoEntry
    case Took(exec, more) =>
      match TakePrefixed(more)
      case Nothing => NoEntry
      case Took(payload, rest) =>
        var bits := BigValue(exec);
        OneEntry(if link then Symlink(path, bits, payload) else File(path, bits, payload), rest)
  }

  function DecodeTail(path: Bytes, s: Bytes): (r: DecodedOne)
    ensures r.OneEntry? ==> |r.rest| <= |s|
  {
    if MISSING <= s then OneEntry(Missing(path), s[|MISSING|..])
    else if SYMLINK <= s then DecodeBody(path, true, s[|SYMLINK|..])
    else if FILE <= s then DecodeBody(path, false, s[|FILE|..])
    else NoEntry
  }

  function DecodeOne(s: Bytes): (r: DecodedOne)
    ensures r.OneEntry? ==> |r.rest| < |s|
  {
    match TakePrefixed(s)
    case Nothing => NoEntry
    case Took(path, rest) => DecodeTail(path, rest)
  }

  function Decode(s: Bytes): Option<seq<Entry>>
    decreases |s|
  {
    if s == [] then Some([])
    else
      match DecodeOne(s)
      case NoEntry => None
      case OneEntry(entry, rest) =>
        match Decode(rest)
        case None => None
        case Some(entries) => Some([entry] + entries)
  }

  predicate Encodable(e: Entry) {
    && |e.path| < LIMIT
    && (e.Missing? || (e.exec < 0x1_0000 && |e.payload| < LIMIT))
  }

  function Power256(w: nat): nat {
    if w == 0 then 1 else 256 * Power256(w - 1)
  }

  lemma {:induction false} BigRoundTrip(n: nat, width: nat)
    requires n < Power256(width)
    ensures BigValue(BigEndian(n, width)) == n
  {
    if width > 0 {
      BigRoundTrip(n / 256, width - 1);
      assert BigEndian(n, width)[..width - 1] == BigEndian(n / 256, width - 1);
    }
  }

  lemma Powers()
    ensures Power256(2) == 0x1_0000 && Power256(8) == LIMIT
  {
    assert Power256(4) == 0x1_0000_0000;
  }

  lemma LengthRoundTrip(n: nat)
    ensures n < LIMIT ==> BigValue(BigEndian(n, 8)) == n
    ensures n < 0x1_0000 ==> BigValue(BigEndian(n, 2)) == n
  {
    Powers();
    if n < LIMIT { BigRoundTrip(n, 8); }
    if n < 0x1_0000 { BigRoundTrip(n, 2); }
  }

  lemma SplitThree(a: Bytes, b: Bytes, c: Bytes)
    ensures (a + b + c)[..|a|] == a && (a + b + c)[|a|..] == b + c
    ensures (b + c)[..|b|] == b && (b + c)[|b|..] == c
  {
  }

  lemma TakePrefixedRoundTrip(s: Bytes, rest: Bytes)
    requires |s| < LIMIT
    ensures TakePrefixed(Prefixed(s) + rest) == Took(s, rest)
  {
    var length := BigEndian(|s|, 8);
    LengthRoundTrip(|s|);
    SplitThree(length, s, rest);
    assert Take(length + s + rest, 8) == Took(length, s + rest);
  }

  lemma DecodeBodyRoundTrip(path: Bytes, link: bool, exec: nat, payload: Bytes, rest: Bytes)
    requires exec < 0x1_0000 && |payload| < LIMIT
    ensures
      DecodeBody(path, link, BigEndian(exec, 2) + Prefixed(payload) + rest) ==
      OneEntry(if link then Symlink(path, exec, payload) else File(path, exec, payload), rest)
  {
    LengthRoundTrip(exec);
    SplitThree(BigEndian(exec, 2), Prefixed(payload), rest);
    TakePrefixedRoundTrip(payload, rest);
  }

  lemma DecodeMissing(path: Bytes, rest: Bytes)
    ensures DecodeTail(path, MISSING + rest) == OneEntry(Missing(path), rest)
  {
    assert (MISSING + rest)[..|MISSING|] == MISSING && (MISSING + rest)[|MISSING|..] == rest;
  }

  lemma DecodeSymlink(path: Bytes, body: Bytes)
    ensures DecodeTail(path, SYMLINK + body) == DecodeBody(path, true, body)
  {
    var s := SYMLINK + body;
    assert s[0] == 0x73 != MISSING[0];
    assert s[..|SYMLINK|] == SYMLINK && s[|SYMLINK|..] == body;
  }

  lemma DecodeFile(path: Bytes, body: Bytes)
    ensures DecodeTail(path, FILE + body) == DecodeBody(path, false, body)
  {
    var s := FILE + body;
    assert s[0] == 0x66 != MISSING[0] && s[0] != SYMLINK[0];
    assert s[..|FILE|] == FILE && s[|FILE|..] == body;
  }

  lemma Associate(a: Bytes, b: Bytes, c: Bytes, d: Bytes)
    ensures a + b + c + d == a + (b + c + d)
  {
  }

  lemma DecodeTailRoundTrip(e: Entry, rest: Bytes)
    requires Encodable(e)
    ensures DecodeTail(e.path, Tail(e) + rest) == OneEntry(e, rest)
  {
    match e
    case Missing(_) => DecodeMissing(e.path, rest);
    case Symlink(_, exec, payload) =>
      var body := BigEndian(exec, 2) + Prefixed(payload) + rest;
      Associate(SYMLINK, BigEndian(exec, 2), Prefixed(payload), rest);
      DecodeSymlink(e.path, body);
      DecodeBodyRoundTrip(e.path, true, exec, payload, rest);
    case File(_, exec, payload) =>
      var body := BigEndian(exec, 2) + Prefixed(payload) + rest;
      Associate(FILE, BigEndian(exec, 2), Prefixed(payload), rest);
      DecodeFile(e.path, body);
      DecodeBodyRoundTrip(e.path, false, exec, payload, rest);
  }

  lemma DecodeOneRoundTrip(e: Entry, rest: Bytes)
    requires Encodable(e)
    ensures DecodeOne(Encode(e) + rest) == OneEntry(e, rest)
  {
    var tail := Tail(e) + rest;
    assert Encode(e) + rest == Prefixed(e.path) + tail;
    TakePrefixedRoundTrip(e.path, tail);
    DecodeTailRoundTrip(e, rest);
  }

  lemma DecodeCons(code: Bytes, more: Bytes, e: Entry, entries: seq<Entry>)
    requires DecodeOne(code + more) == OneEntry(e, more) && Decode(more) == Some(entries)
    ensures Decode(code + more) == Some([e] + entries)
  {
    assert code + more != [];
  }

  lemma StreamCons(e: Entry, entries: seq<Entry>)
    ensures Stream([e] + entries) == Encode(e) + Stream(entries)
  {
    assert ([e] + entries)[1..] == entries;
  }

  /** The stream is uniquely decodable: the decoder recovers the entry list. */
  lemma {:induction false} DecodeStream(entries: seq<Entry>)
    requires forall i :: 0 <= i < |entries| ==> Encodable(entries[i])
    ensures Decode(Stream(entries)) == Some(entries)
  {
    if entries != [] {
      var e, others := entries[0], entries[1..];
      assert entries == [e] + others;
      StreamCons(e, others);
      DecodeStream(others);
      DecodeOneRoundTrip(e, Stream(others));
      DecodeCons(Encode(e), Stream(others), e, others);
    }
  }

  lemma {:induction false} ViewsEncodable(paths: seq<Bytes>, tree: Bytes -> Node)
    requires Views(paths, tree).Ok?
    ensures forall i :: 0 <= i < |Views(paths, tree).value| ==> Encodable(Views(paths, tree).value[i])
    ensures |Views(paths, tree).value| == |paths|
    ensures forall i :: 0 <= i < |paths| ==> Views(paths, tree).value[i].path == paths[i]
    ensures forall i :: 0 <= i < |paths| ==> View(paths[i], tree(paths[i])) == Ok(Views(paths, tree).value[i])
  {
    if paths != [] { ViewsEncodable(paths[1..], tree); }
  }

  /** Two trees feed the digest the same bytes exactly when they list the same paths and agree,
      at each of them, on presence, kind, execute bits and payload. */
  lemma SameStreamSameTree(
      paths1: seq<Bytes>, tree1: Bytes -> Node, paths2: seq<Bytes>, tree2: Bytes -> Node)
    requires Views(paths1, tree1).Ok? && Views(paths2, tree2).Ok?
    ensures
      Stream(Views(paths1, tree1).value) == Stream(Views(paths2, tree2).value) <==>
      paths1 == paths2 &&
      forall i :: 0 <= i < |paths1| ==> View(paths1[i], tree1(paths1[i])) == View(paths1[i], tree2(paths1[i]))
  {
    var v1, v2 := Views(paths1, tree1).value, Views(paths2, tree2).value;
    ViewsEncodable(paths1, tree1);
    ViewsEncodable(paths2, tree2);
    DecodeStream(v1);
    DecodeStream(v2);
    assert Stream(v1) == Stream(v2) <==> v1 == v2;
    assert paths1 == paths2 <== v1 == v2;
    assert v1 == v2 <== paths1 == paths2 && forall i :: 0 <= i < |paths1| ==> v1[i] == v2[i];
    assert paths1 == paths2 ==> forall i :: 0 <= i < |paths1| ==>
      View(paths1[i], tree1(paths1[i])) == Ok(v1[i]) && View(paths2[i], tree2(paths2[i])) == Ok(v2[i]);
  }
}

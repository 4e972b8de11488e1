/** Reproducible archives: the wheel and the sdist are rewritten so that only what they
    contain, and one chosen epoch, decides their member lists. Archives are lists of
    members; the ZIP and TAR byte formats are below this model. */
module Archives {
  import opened Wrappers
  import opened Ordering

  type Name = Word

  /** A member: its name, what normalisation keeps of it, and what it overwrites. */
  datatype Member<K, D> = Member(name: Name, kept: K, dropped: D)

  datatype ArchiveError = DuplicatePaths | UnsupportedMember | BadEpoch

  const ZIP_MIN_EPOCH: nat := 315_532_800

  /** `_source_date_epoch() or _ZIP_MIN_EPOCH`, given the parsed environment value. */
  function ArchiveEpoch(raw: Option<int>): Result<nat, ArchiveError> {
    match raw
    case None => Ok(ZIP_MIN_EPOCH)
    case Some(value) =>
      if value < 0 then Err(BadEpoch) else if value == 0 then Ok(ZIP_MIN_EPOCH) else Ok(value)
  }

  /* ---- names ---- */

  function Names<K, D>(members: seq<Member<K, D>>): (names: seq<Name>)
    ensures |names| == |members|
    ensures forall i :: 0 <= i < |members| ==> names[i] == members[i].name
  {
    seq(|members|, i requires 0 <= i < |members| => members[i].name)
  }

  predicate Distinct(names: seq<Name>) {
    forall i, j :: 0 <= i < j < |names| ==> names[i] != names[j]
  }

  function AsSet(names: seq<Name>): set<Name> { set n | n in names }

  lemma DistinctSnoc(names: seq<Name>, x: Name)
    ensures Distinct(names + [x]) <==> Distinct(names) && x !in names
    ensures AsSet(names + [x]) == AsSet(names) + {x}
  {
    var all := names + [x];
    assert all[|names|] == x;
    assert forall i :: 0 <= i < |names| ==> all[i] == names[i];
    if x in names {
      var i :| 0 <= i < |names| && names[i] == x;
      assert all[i] == all[|names|];
    }
    if Distinct(all) {
      forall i, j | 0 <= i < j < |names| ensures names[i] != names[j] { assert all[i] != all[j]; }
    }
  }

  /** `len({names}) == len(names)` is the test for distinct names. */
  lemma {:induction false} DistinctCount(names: seq<Name>)
    ensures |AsSet(names)| <= |names|
    ensures |AsSet(names)| == |names| <==> Distinct(names)
  {
    if names != [] {
      var init, x := names[..|names| - 1], names[|names| - 1];
      assert names == init + [x];
      DistinctCount(init);
      DistinctSnoc(init, x);
      if x in init { assert AsSet(names) == AsSet(init); }
    }
  }

  /* ---- contents and the canonical list ---- */

  /** What is kept of the members, by name. */
  function Contents<K, D>(members: seq<Member<K, D>>): map<Name, K> {
    if members == [] then map[]
    else
      var last := members[|members| - 1];
      Contents(members[..|members| - 1])[last.name := last.kept]
  }

  lemma {:induction false} ContentsHold<K, D>(members: seq<Member<K, D>>)
    ensures Contents(members).Keys == AsSet(Names(members))
    ensures Distinct(Names(members)) ==> forall m :: m in members ==>
              m.name in Contents(members) && Contents(members)[m.name] == m.kept
  {
    if members != [] {
      var init, last := members[..|members| - 1], members[|members| - 1];
      assert members == init + [last];
      assert Names(members) == Names(init) + [last.name];
      ContentsHold(init);
      DistinctSnoc(Names(init), last.name);
      forall m | m in init ensures m.name in Names(init) {
        var i :| 0 <= i < |init| && init[i] == m;
        assert Names(init)[i] == m.name;
      }
    }
  }

  function CanonicalFrom<K, D>(names: seq<Name>, contents: map<Name, K>, dropped: D): (r: seq<Member<K, D>>)
    requires forall n :: n in names ==> n in contents
    ensures Names(r) == names
    ensures forall i :: 0 <= i < |r| ==>
              r[i].name in contents && r[i] == Member(r[i].name, contents[r[i].name], dropped)
  {
    seq(|names|, i requires 0 <= i < |names| => assert names[i] in names; Member(names[i], contents[names[i]], dropped))
  }

  /** The one member list with the given contents. */
  function Canonical<K, D>(contents: map<Name, K>, dropped: D): (r: seq<Member<K, D>>)
    ensures Names(r) == Sorted(contents.Keys)
    ensures forall i :: 0 <= i < |r| ==>
              r[i].name in contents && r[i] == Member(r[i].name, contents[r[i].name], dropped)
  {
    CanonicalFrom(Sorted(contents.Keys), contents, dropped)
  }

  lemma AscendingAreDistinct(names: seq<Name>)
    requires Ascending(names)
    ensures Distinct(names)
  {
    forall i, j | 0 <= i < j < |names| ensures names[i] != names[j] {
      LessTotal(names[i], names[j]);
    }
  }

  /** The canonical list holds exactly the contents, under distinct names. */
  lemma CanonicalHolds<K, D>(contents: map<Name, K>, dropped: D)
    ensures Distinct(Names(Canonical(contents, dropped)))
    ensures Contents(Canonical(contents, dropped)) == contents
  {
    var r, names := Canonical(contents, dropped), Sorted(contents.Keys);
    AscendingAreDistinct(names);
    ContentsHold(r);
    assert AsSet(names) == contents.Keys;
    forall n | n in contents ensures Contents(r)[n] == contents[n] {
      assert n in names;
      var i :| 0 <= i < |names| && names[i] == n;
      assert r[i] in r && Names(r)[i] == n;
    }
  }

  /** Normalisation keeps every name with its payload and attributes, repeating it changes
      nothing, and two archives normalise alike exactly when their contents are the same. */
  lemma NormalFormCanonical<K, D>(a: seq<Member<K, D>>, b: seq<Member<K, D>>, dropped: D)
    ensures
      var na, nb := Canonical(Contents(a), dropped), Canonical(Contents(b), dropped);
      && Distinct(Names(na))
      && Contents(na) == Contents(a)
      && Canonical(Contents(na), dropped) == na
      && (na == nb <==> Contents(a) == Contents(b))
  {
    CanonicalHolds(Contents(a), dropped);
    CanonicalHolds(Contents(b), dropped);
  }

  predicate Holds<K(==), D>(members: seq<Member<K, D>>, n: Name, k: K) {
    exists i :: 0 <= i < |members| && members[i].name == n && members[i].kept == k
  }

  lemma ContentsAre<K, D>(members: seq<Member<K, D>>, n: Name, k: K)
    requires Distinct(Names(members))
    ensures n in Contents(members) && Contents(members)[n] == k <==> Holds(members, n, k)
  {
    ContentsHold(members);
    if n in Contents(members) {
      var i :| 0 <= i < |Names(members)| && Names(members)[i] == n;
      assert members[i] in members;
    }
    if Holds(members, n, k) {
      var i :| 0 <= i < |members| && members[i].name == n && members[i].kept == k;
      assert members[i] in members;
    }
  }

  lemma ContentsWithin<K, D>(a: seq<Member<K, D>>, b: seq<Member<K, D>>)
    requires Distinct(Names(a)) && Distinct(Names(b))
    requires forall m :: m in a ==> Holds(b, m.name, m.kept)
    ensures forall n :: n in Contents(a) ==> n in Contents(b) && Contents(b)[n] == Contents(a)[n]
  {
    forall n | n in Contents(a) ensures n in Contents(b) && Contents(b)[n] == Contents(a)[n] {
      ContentsAre(a, n, Contents(a)[n]);
      var i :| 0 <= i < |a| && a[i].name == n && a[i].kept == Contents(a)[n];
      assert a[i] in a;
      ContentsAre(b, n, Contents(a)[n]);
    }
  }

  /** Contents see the members as a set of names with kept parts: neither their order nor
      anything normalisation overwrites. */
  lemma SameContents<K, D>(a: seq<Member<K, D>>, b: seq<Member<K, D>>)
    requires Distinct(Names(a)) && Distinct(Names(b))
    ensures Contents(a) == Contents(b) <==>
            && (forall m :: m in a ==> Holds(b, m.name, m.kept))
            && (forall m :: m in b ==> Holds(a, m.name, m.kept))
  {
    ContentsHold(a);
    ContentsHold(b);
    if Contents(a) == Contents(b) {
      forall m | m in a ensures Holds(b, m.name, m.kept) { ContentsAre(b, m.name, m.kept); }
      forall m | m in b ensures Holds(a, m.name, m.kept) { ContentsAre(a, m.name, m.kept); }
    }
    if (forall m :: m in a ==> Holds(b, m.name, m.kept)) && (forall m :: m in b ==> Holds(a, m.name, m.kept)) {
      ContentsWithin(a, b);
      ContentsWithin(b, a);
    }
  }

  /* ---- wheels ---- */

  /** The flag bits are no part of a member here: the ZIP writer derives them from the name and
      overwrites those that were copied. */
  datatype WheelKept = WheelKept(payload: seq<int>, externalAttr: nat)
  datatype WheelDropped = WheelDropped(timestamp: nat, deflated: bool, createSystem: nat)
  type WheelMember = Member<WheelKept, WheelDropped>

  /** `0o600 << 16`. */
  const OWNER_ONLY: nat := 0x180_0000

  /** The ZIP writer replaces a zero attribute. */
  function StoredAttr(externalAttr: nat): nat { if externalAttr == 0 then OWNER_ONLY else externalAttr }

  function FreshWheel(epoch: nat): WheelDropped {
    WheelDropped(if epoch < ZIP_MIN_EPOCH then ZIP_MIN_EPOCH else epoch, true, 3)
  }

  function Joined(payload: seq<int>, original: WheelMember): WheelKept {
    WheelKept(payload, StoredAttr(original.kept.externalAttr))
  }

  /** A member as the ZIP writer stores it. */
  function Stored(m: WheelMember): WheelMember { m.(kept := Joined(m.kept.payload, m)) }

  function AsStored(members: seq<WheelMember>): (stored: seq<WheelMember>)
    ensures |stored| == |members| && Names(stored) == Names(members)
  {
    seq(|members|, i requires 0 <= i < |members| => Stored(members[i]))
  }

  /** The wheel that normalisation makes of the members. */
  function NormalWheel(members: seq<WheelMember>, epoch: nat): seq<WheelMember> {
    Canonical(Contents(AsStored(members)), FreshWheel(epoch))
  }

  /** Each wheel has the other's members: same name, payload and stored attribute. */
  predicate SameWheel(a: seq<WheelMember>, b: seq<WheelMember>) {
    && (forall m :: m in AsStored(a) ==> Holds(AsStored(b), m.name, m.kept))
    && (forall m :: m in AsStored(b) ==> Holds(AsStored(a), m.name, m.kept))
  }

  lemma AsStoredSnoc(members: seq<WheelMember>, k: nat)
    requires k < |members|
    ensures AsStored(members[..k + 1]) == AsStored(members[..k]) + [Stored(members[k])]
    ensures Contents(AsStored(members[..k + 1])) ==
            Contents(AsStored(members[..k]))[members[k].name := Stored(members[k]).kept]
  {
    assert AsStored(members[..k + 1]) == AsStored(members[..k]) + [Stored(members[k])];
    assert (AsStored(members[..k]) + [Stored(members[k])])[..k] == AsStored(members[..k]);
  }

  lemma NormalIsStored(a: seq<WheelMember>, epoch: nat)
    requires Distinct(Names(a))
    ensures AsStored(NormalWheel(a, epoch)) == NormalWheel(a, epoch)
  {
    var contents, r := Contents(AsStored(a)), NormalWheel(a, epoch);
    ContentsHold(AsStored(a));
    forall i | 0 <= i < |r| ensures Stored(r[i]) == r[i] {
      assert r[i].name in contents;
      ContentsAre(AsStored(a), r[i].name, r[i].kept);
      var j :| 0 <= j < |AsStored(a)| && AsStored(a)[j].name == r[i].name && AsStored(a)[j].kept == r[i].kept;
      assert AsStored(a)[j] == Stored(a[j]);
    }
  }

  /** Two wheels of distinct names are normalised alike exactly when they are the same wheel;
      normalising a normal wheel changes nothing; and every payload is kept. */
  lemma WheelsAlike(a: seq<WheelMember>, b: seq<WheelMember>, epoch: nat)
    requires Distinct(Names(a)) && Distinct(Names(b))
    ensures NormalWheel(a, epoch) == NormalWheel(b, epoch) <==> SameWheel(a, b)
    ensures Distinct(Names(NormalWheel(a, epoch))) && NormalWheel(NormalWheel(a, epoch), epoch) == NormalWheel(a, epoch)
    ensures forall m :: m in AsStored(a) ==> Holds(NormalWheel(a, epoch), m.name, m.kept)
  {
    NormalFormCanonical(AsStored(a), AsStored(b), FreshWheel(epoch));
    SameContents(AsStored(a), AsStored(b));
    NormalIsStored(a, epoch);
    forall m | m in AsStored(a) ensures Holds(NormalWheel(a, epoch), m.name, m.kept) {
      ContentsHold(AsStored(a));
      ContentsAre(NormalWheel(a, epoch), m.name, m.kept);
    }
  }

  /** The two dictionaries the normaliser fills from the open wheel. */
  method ReadWheel(members: seq<WheelMember>)
    returns (payloads: map<Name, seq<int>>, metadata: map<Name, WheelMember>)
    ensures metadata.Keys == payloads.Keys == Contents(AsStored(members)).Keys
    ensures forall n :: n in metadata ==> Contents(AsStored(members))[n] == Joined(payloads[n], metadata[n])
  {
    payloads, metadata := map[], map[];
    for i := 0 to |members|
      invariant metadata.Keys == payloads.Keys == Contents(AsStored(members[..i])).Keys
      invariant forall n :: n in metadata ==> Contents(AsStored(members[..i]))[n] == Joined(payloads[n], metadata[n])
    {
      AsStoredSnoc(members, i);
      payloads := payloads[members[i].name := members[i].kept.payload];
      metadata := metadata[members[i].name := members[i]];
    }
    assert members[..|members|] == members;
  }

  /** `sorted` over the names is the canonical order. */
  lemma SortedNames<K, D>(members: seq<Member<K, D>>)
    ensures SortedUnique(Names(members)) == Sorted(Contents(members).Keys)
  {
    ContentsHold(members);
    AscendingUnique(SortedUnique(Names(members)), Sorted(Contents(members).Keys));
  }

  /** The members written so far: the contents under the first of the given names. */
  ghost predicate Listing<K, D>(target: seq<Member<K, D>>, names: seq<Name>, contents: map<Name, K>, dropped: D) {
    && |target| <= |names|
    && forall i :: 0 <= i < |target| ==>
         && target[i].name == names[i]
         && names[i] in contents
         && target[i].kept == contents[names[i]]
         && target[i].dropped == dropped
  }

  lemma ListingSnoc<K, D>(
      target: seq<Member<K, D>>, m: Member<K, D>, names: seq<Name>, contents: map<Name, K>, dropped: D)
    requires Listing(target, names, contents, dropped) && |target| < |names|
    requires m.name == names[|target|] && m.name in contents && m.kept == contents[m.name] && m.dropped == dropped
    ensures Listing(target + [m], names, contents, dropped)
  {
  }

  lemma ListIsCanonical<K, D>(target: seq<Member<K, D>>, contents: map<Name, K>, dropped: D)
    requires Listing(target, Sorted(contents.Keys), contents, dropped) && |target| == |Sorted(contents.Keys)|
    ensures target == Canonical(contents, dropped)
  {
    var names, canonical := Sorted(contents.Keys), Canonical(contents, dropped);
    assert |target| == |names| == |canonical|;
    forall i | 0 <= i < |target| ensures target[i] == canonical[i] {
      assert canonical[i].name == Names(canonical)[i] == names[i];
    }
  }

  /** The members written to the new wheel, in name order. */
  method WriteWheel(
      names: seq<Name>, payloads: map<Name, seq<int>>, metadata: map<Name, WheelMember>, epoch: nat,
      ghost contents: map<Name, WheelKept>)
    returns (target: seq<WheelMember>)
    requires names == Sorted(contents.Keys) && metadata.Keys == payloads.Keys == contents.Keys
    requires forall n :: n in metadata ==> contents[n] == Joined(payloads[n], metadata[n])
    requires epoch >= ZIP_MIN_EPOCH
    ensures target == Canonical(contents, FreshWheel(epoch))
  {
    target := [];
    for i := 0 to |names|
      invariant |target| == i && Listing(target, names, contents, FreshWheel(epoch))
    {
      assert names[i] in names;
      var original := metadata[names[i]];
      var member := Member(names[i], Joined(payloads[names[i]], original), WheelDropped(epoch, true, 3));
      ListingSnoc(target, member, names, contents, FreshWheel(epoch));
      target := target + [member];
    }
    ListIsCanonical(target, contents, FreshWheel(epoch));
  }

  /** `_normalize_wheel`: a wheel is rejected exactly when two members share a name. */
  method NormalizeWheel(members: seq<WheelMember>, raw: Option<int>)
    returns (r: Result<seq<WheelMember>, ArchiveError>)
    ensures r == match ArchiveEpoch(raw)
                 case Err(e) => Err(e)
                 case Ok(epoch) =>
                   if Distinct(Names(members)) then Ok(NormalWheel(members, epoch)) else Err(DuplicatePaths)
  {
    var archiveEpoch := ArchiveEpoch(raw);
    if archiveEpoch.Err? { return Err(archiveEpoch.error); }
    var epoch := if archiveEpoch.value < ZIP_MIN_EPOCH then ZIP_MIN_EPOCH else archiveEpoch.value;
    DistinctCount(Names(members));
    if |AsSet(Names(members))| != |members| { return Err(DuplicatePaths); }
    var payloads, metadata := ReadWheel(members);
    SortedNames(AsStored(members));
    var target := WriteWheel(SortedUnique(Names(members)), payloads, metadata, epoch, Contents(AsStored(members)));
    return Ok(target);
  }

  /* ---- source distributions ---- */

  datatype TarType = File | Directory | SymbolicLink | HardLink | Device | Fifo

  datatype SdistKept = SdistKept(kind: TarType, mode: nat, payload: Option<seq<int>>)
  datatype SdistDropped = SdistDropped(
    uid: nat, gid: nat, uname: string, gname: string, mtime: nat, paxHeaders: map<string, string>)
  type SdistMember = Member<SdistKept, SdistDropped>

  predicate Supported(m: SdistMember) { m.kept.kind.File? || m.kept.kind.Directory? }

  /** Files carry a payload; nothing else does. */
  predicate Readable(m: SdistMember) { m.kept.kind.File? <==> m.kept.payload.Some? }

  function FreshSdist(epoch: nat): SdistDropped { SdistDropped(0, 0, "", "", epoch, map[]) }

  /** The payload dictionary the normaliser fills, and the members by name. */
  method ReadSdist(members: seq<SdistMember>)
    returns (ok: bool, payloads: map<Name, Option<seq<int>>>, byName: map<Name, SdistMember>)
    requires forall m :: m in members ==> Readable(m)
    ensures ok <==> forall m :: m in members ==> Supported(m)
    ensures ok ==> byName.Keys == payloads.Keys == Contents(members).Keys
    ensures ok ==> forall n :: n in byName ==>
              byName[n].name == n && Contents(members)[n] == byName[n].kept.(payload := payloads[n])
  {
    ok, payloads, byName := true, map[], map[];
    for i := 0 to |members|
      invariant ok && forall j :: 0 <= j < i ==> Supported(members[j])
      invariant byName.Keys == payloads.Keys == Contents(members[..i]).Keys
      invariant forall n :: n in byName ==>
                  byName[n].name == n && Contents(members[..i])[n] == byName[n].kept.(payload := payloads[n])
    {
      var member := members[i];
      assert member in members && members[..i + 1][..i] == members[..i];
      if member.kept.kind.SymbolicLink? || member.kept.kind.HardLink? ||
         member.kept.kind.Device? || member.kept.kind.Fifo? {
        ok := false;
        assert !Supported(member);
        return;
      }
      var payload := if member.kept.kind.File? then member.kept.payload else None;
      payloads := payloads[member.name := payload];
      byName := byName[member.name := member];
    }
    assert members[..|members|] == members;
  }

  /** The members written to the new sdist, in name order. */
  method WriteSdist(
      names: seq<Name>, payloads: map<Name, Option<seq<int>>>, byName: map<Name, SdistMember>, epoch: nat,
      ghost contents: map<Name, SdistKept>)
    returns (target: seq<SdistMember>)
    requires names == Sorted(contents.Keys) && byName.Keys == payloads.Keys == contents.Keys
    requires forall n :: n in byName ==>
               byName[n].name == n && contents[n] == byName[n].kept.(payload := payloads[n])
    ensures target == Canonical(contents, FreshSdist(epoch))
  {
    target := [];
    for i := 0 to |names|
      invariant |target| == i && Listing(target, names, contents, FreshSdist(epoch))
    {
      assert names[i] in names;
      var original := byName[names[i]];
      var member := Member(original.name, original.kept.(payload := payloads[names[i]]), FreshSdist(epoch));
      ListingSnoc(target, member, names, contents, FreshSdist(epoch));
      target := target + [member];
    }
    ListIsCanonical(target, contents, FreshSdist(epoch));
  }

  /** `_normalize_sdist`: an sdist is rejected exactly when two members share a name or one
      is a link, a device or a fifo. */
  method NormalizeSdist(members: seq<SdistMember>, raw: Option<int>)
    returns (r: Result<seq<SdistMember>, ArchiveError>)
    requires forall m :: m in members ==> Readable(m)
    ensures r == match ArchiveEpoch(raw)
                 case Err(e) => Err(e)
                 case Ok(epoch) =>
                   if !Distinct(Names(members)) then Err(DuplicatePaths)
                   else if exists m :: m in members && !Supported(m) then Err(UnsupportedMember)
                   else Ok(Canonical(Contents(members), FreshSdist(epoch)))
  {
    var archiveEpoch := ArchiveEpoch(raw);
    if archiveEpoch.Err? { return Err(archiveEpoch.error); }
    DistinctCount(Names(members));
    if |AsSet(Names(members))| != |members| { return Err(DuplicatePaths); }
    var ok, payloads, byName := ReadSdist(members);
    if !ok { return Err(UnsupportedMember); }
    SortedNames(members);
    var target := WriteSdist(SortedUnique(Names(members)), payloads, byName, archiveEpoch.value, Contents(members));
    return Ok(target);
  }
}

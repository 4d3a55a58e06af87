/**
 * User-namespace ID mappings: merging a list of ranges into one, translating IDs, and the test that decides
 * whether the owner of a bind source has to be shifted. Range fields are 32-bit and their sums wrap; translation
 * uses wide integers.
 */
module IdMappings {
  import opened Wrappers
  import opened Words

  const MODULUS := 0x1_0000_0000
  const ID_RANGE_MIN := 65536
  const DEFAULT_ID := 231072

  datatype IdRange = IdRange(container: Word32, host: Word32, size: Word32)

  function Plus(a: Word32, b: Word32): Word32 {
    if a + b < MODULUS then a + b else a + b - MODULUS
  }

  // ----- translation -----

  predicate Covers(m: IdRange, id: int) {
    m.container <= id <= m.container + m.size - 1
  }

  /** The host ID of a container ID: the first range that covers it decides. */
  function HostId(ranges: seq<IdRange>, id: int): Option<int> {
    if ranges == [] then None
    else if Covers(ranges[0], id) then Some(ranges[0].host + (id - ranges[0].container))
    else HostId(ranges[1..], id)
  }

  lemma {:induction false} HostIdOf(ranges: seq<IdRange>, id: int)
    ensures HostId(ranges, id).None? <==> forall m <- ranges :: !Covers(m, id)
    ensures HostId(ranges, id).Some? ==>
            exists m <- ranges :: Covers(m, id) && HostId(ranges, id).value == m.host + (id - m.container)
  {
    if ranges != [] {
      HostIdOf(ranges[1..], id);
      assert ranges == [ranges[0]] + ranges[1..];
    }
  }

  // ----- sorting -----

  ghost predicate SortedByContainer(s: seq<IdRange>) {
    forall i, j :: 0 <= i < j < |s| ==> s[i].container <= s[j].container
  }

  /** What a sort may leave behind; ranges with equal container IDs may come in either order. */
  ghost predicate IsSorting(list: seq<IdRange>, s: seq<IdRange>) {
    multiset(list) == multiset(s) && SortedByContainer(s)
  }

  lemma SameMembers(list: seq<IdRange>, s: seq<IdRange>)
    requires multiset(list) == multiset(s)
    ensures forall m :: m in list <==> m in s
    ensures |list| == |s|
  {
    assert forall m :: m in list <==> m in multiset(list);
    assert forall m :: m in s <==> m in multiset(s);
    assert |multiset(list)| == |list| && |multiset(s)| == |s|;
  }

  // ----- merging -----

  predicate Follows(prev: IdRange, curr: IdRange) {
    curr.container == Plus(prev.container, prev.size) && curr.host == Plus(prev.host, prev.size)
  }

  ghost predicate Chained(s: seq<IdRange>) {
    forall i :: 1 <= i < |s| ==> Follows(s[i - 1], s[i])
  }

  /** The sizes of the first `n` ranges together. */
  function Total(s: seq<IdRange>, n: nat): nat
    requires n <= |s|
  {
    if n == 0 then 0 else Total(s, n - 1) + s[n - 1].size
  }

  function Wrap(n: int): Word32 {
    n % MODULUS
  }

  /** `s` is what sorting left in the list. */
  method MergeIdMappings(list: seq<IdRange>, s: seq<IdRange>) returns (r: Option<seq<IdRange>>)
    requires IsSorting(list, s)
    ensures |list| < 2 ==> r == Some(list)
    ensures |list| >= 2 ==> (r.Some? <==> Chained(s))
    ensures |list| >= 2 && Chained(s) ==> r == Some([IdRange(s[0].container, s[0].host, Wrap(Total(s, |s|)))])
  {
    SameMembers(list, s);
    if |list| < 2 {
      return Some(list);
    }
    var size := s[0].size;
    assert Total(s, 1) == s[0].size;
    for i := 1 to |s|
      invariant forall j :: 1 <= j < i ==> Follows(s[j - 1], s[j])
      invariant size == Wrap(Total(s, i))
    {
      if s[i].container != Plus(s[i - 1].container, s[i - 1].size) {
        return None;
      }
      if s[i].host != Plus(s[i - 1].host, s[i - 1].size) {
        return None;
      }
      WrapPlus(Total(s, i), s[i].size);
      size := Plus(size, s[i].size);
    }
    return Some([IdRange(s[0].container, s[0].host, size)]);
  }

  lemma WrapPlus(n: nat, k: Word32)
    ensures Wrap(n + k) == Plus(Wrap(n), k)
  {
    var q, r := n / MODULUS, n % MODULUS;
    assert n + k == q * MODULUS + (r + k);
  }

  /** Being sorted keeps the container IDs from wrapping, except possibly at the very end; host IDs may wrap. */
  lemma {:induction false} Positions(s: seq<IdRange>, i: nat)
    requires SortedByContainer(s) && Chained(s) && i < |s|
    ensures s[i].container == s[0].container + Total(s, i)
    ensures s[i].host == Wrap(s[0].host + Total(s, i))
  {
    if i > 0 {
      Positions(s, i - 1);
      assert Follows(s[i - 1], s[i]) && s[i - 1].container <= s[i].container;
      WrapPlus(s[0].host + Total(s, i - 1), s[i - 1].size);
    }
  }

  lemma {:induction false} TotalGrows(s: seq<IdRange>, i: nat, j: nat)
    requires i < j <= |s|
    ensures Total(s, i) + s[i].size <= Total(s, j)
  {
    if j > i + 1 {
      TotalGrows(s, i, j - 1);
    }
  }

  /** Some range covers the ID exactly when it lies in the whole stretch. */
  lemma {:induction false} StretchIsCovered(s: seq<IdRange>, n: nat, id: int) returns (i: nat)
    requires SortedByContainer(s) && Chained(s) && 0 < n <= |s|
    requires s[0].container <= id < s[0].container + Total(s, n)
    ensures i < n && Covers(s[i], id)
  {
    i := n - 1;
    Positions(s, n - 1);
    if id < s[0].container + Total(s, n - 1) {
      i := StretchIsCovered(s, n - 1, id);
    }
  }

  /** Every range of the list lies in the stretch, and its host ID is the one of its place, wrapped. */
  lemma PlaceOf(list: seq<IdRange>, s: seq<IdRange>, m: IdRange)
    requires IsSorting(list, s) && Chained(s) && m in list
    ensures |s| > 0 && s[0].container <= m.container && m.container + m.size <= s[0].container + Total(s, |s|)
    ensures m.host == Wrap(s[0].host + (m.container - s[0].container))
  {
    hide Wrap;
    SameMembers(list, s);
    var i :| 0 <= i < |s| && s[i] == m;
    Positions(s, i);
    TotalGrows(s, i, |s|);
  }

  /** The IDs that the list maps are those of the stretch. */
  lemma MappedIds(list: seq<IdRange>, s: seq<IdRange>, id: int)
    requires IsSorting(list, s) && Chained(s) && |s| > 0
    ensures HostId(list, id).Some? <==> s[0].container <= id < s[0].container + Total(s, |s|)
  {
    hide HostId, Wrap;
    HostIdOf(list, id);
    if HostId(list, id).Some? {
      var m :| m in list && Covers(m, id) && HostId(list, id).value == m.host + (id - m.container);
      PlaceOf(list, s, m);
    }
    if s[0].container <= id < s[0].container + Total(s, |s|) {
      var i := StretchIsCovered(s, |s|, id);
      SameMembers(list, s);
      assert s[i] in list;
    }
  }

  /** One range alone. */
  lemma HostIdOfOne(m: IdRange, id: int)
    ensures HostId([m], id) ==
            if m.container <= id < m.container + m.size then Some(m.host + (id - m.container)) else None
  {
    assert [m][1..] == [];
  }

  /** The guard under which merging is safe: neither the total size nor any host ID reached needs a 33rd bit. */
  ghost predicate NoWrap(list: seq<IdRange>, lo: IdRange, total: nat) {
    && total < MODULUS
    && forall m <- list :: m.size > 0 ==> lo.host + (m.container - lo.container) < MODULUS
  }

  lemma MergedTranslatesWhen(list: seq<IdRange>, s: seq<IdRange>, id: int)
    requires IsSorting(list, s) && Chained(s) && |s| > 0 && NoWrap(list, s[0], Total(s, |s|))
    ensures HostId([IdRange(s[0].container, s[0].host, Wrap(Total(s, |s|)))], id) == HostId(list, id)
  {
    hide HostId, IsSorting, Chained, Total;
    HostIdOfOne(IdRange(s[0].container, s[0].host, Wrap(Total(s, |s|))), id);
    MappedIds(list, s, id);
    HostIdOf(list, id);
    if HostId(list, id).Some? {
      var m :| m in list && Covers(m, id) && HostId(list, id).value == m.host + (id - m.container);
      PlaceOf(list, s, m);
      assert m.size > 0;
    }
  }

  /** Otherwise some ID is translated differently. */
  lemma WrappedTranslatesDifferently(list: seq<IdRange>, s: seq<IdRange>) returns (id: int)
    requires IsSorting(list, s) && Chained(s) && |s| > 0 && !NoWrap(list, s[0], Total(s, |s|))
    ensures HostId([IdRange(s[0].container, s[0].host, Wrap(Total(s, |s|)))], id) != HostId(list, id)
  {
    hide HostId, IsSorting, Chained, Total;
    var merged := IdRange(s[0].container, s[0].host, Wrap(Total(s, |s|)));
    if Total(s, |s|) >= MODULUS {
      id := s[0].container + Total(s, |s|) - 1;
      HostIdOfOne(merged, id);
      MappedIds(list, s, id);
    } else {
      var bad :| bad in list && bad.size > 0 && s[0].host + (bad.container - s[0].container) >= MODULUS;
      id := bad.container;
      HostIdOfOne(merged, id);
      HostIdOf(list, id);
      assert Covers(bad, id);
      var m :| m in list && Covers(m, id) && HostId(list, id).value == m.host + (id - m.container);
      OneCover(list, s, m, bad, id);
      PlaceOf(list, s, bad);
    }
  }

  lemma OneCover(list: seq<IdRange>, s: seq<IdRange>, m: IdRange, m': IdRange, id: int)
    requires IsSorting(list, s) && Chained(s) && m in list && m' in list && Covers(m, id) && Covers(m', id)
    ensures m == m'
  {
    SameMembers(list, s);
    var i :| 0 <= i < |s| && s[i] == m;
    var j :| 0 <= j < |s| && s[j] == m';
    Positions(s, i);
    Positions(s, j);
    if i < j {
      TotalGrows(s, i, j);
    } else if j < i {
      TotalGrows(s, j, i);
    }
  }

  /**
   * When merging succeeds, the single range translates every ID, mapped or not, as the list did if and only if
   * nothing wraps. The guard speaks of the list as given, whatever its order.
   */
  lemma MergeKeepsTranslation(list: seq<IdRange>, s: seq<IdRange>)
    requires IsSorting(list, s) && Chained(s) && |list| >= 2
    ensures |s| > 0
    ensures (forall id ::
               HostId([IdRange(s[0].container, s[0].host, Wrap(Total(s, |s|)))], id) == HostId(list, id)) <==>
            NoWrap(list, s[0], Total(s, |s|))
  {
    SameMembers(list, s);
    if NoWrap(list, s[0], Total(s, |s|)) {
      forall id
        ensures HostId([IdRange(s[0].container, s[0].host, Wrap(Total(s, |s|)))], id) == HostId(list, id)
      {
        MergedTranslatesWhen(list, s, id);
      }
    } else {
      var id := WrappedTranslatesDifferently(list, s);
      assert HostId([IdRange(s[0].container, s[0].host, Wrap(Total(s, |s|)))], id) != HostId(list, id);
    }
  }

  /** Enough for that: every range ends below the 32-bit limit on both sides. */
  lemma FittingRangesMerge(list: seq<IdRange>, s: seq<IdRange>)
    requires IsSorting(list, s) && Chained(s) && |list| >= 2
    requires forall m <- list :: m.container + m.size < MODULUS && m.host + m.size < MODULUS
    ensures |s| > 0 && NoWrap(list, s[0], Total(s, |s|))
  {
    SameMembers(list, s);
    var n := |s| - 1;
    Positions(s, n);
    assert s[n] in list;
    forall m | m in list
      ensures s[0].host + (m.container - s[0].container) < MODULUS
    {
      var i :| 0 <= i < |s| && s[i] == m;
      HostsFit(s, i);
    }
  }

  lemma {:induction false} HostsFit(s: seq<IdRange>, i: nat)
    requires SortedByContainer(s) && Chained(s) && i < |s|
    requires forall m <- s :: m.host + m.size < MODULUS
    ensures s[i].host == s[0].host + (s[i].container - s[0].container)
  {
    Positions(s, i);
    if i > 0 {
      HostsFit(s, i - 1);
      Positions(s, i - 1);
      assert s[i - 1] in s && Follows(s[i - 1], s[i]);
    }
  }

  /** Ranges that end exactly at the limit are not enough: here the second range starts over at host ID 0. */
  lemma RangesAtTheLimitDoNot(list: seq<IdRange>)
    requires list == [IdRange(0, MODULUS - 65536, 65536), IdRange(65536, 0, 65536)]
    ensures IsSorting(list, list) && Chained(list)
    ensures forall m <- list :: m.container + m.size <= MODULUS && m.host + m.size <= MODULUS
    ensures !NoWrap(list, list[0], Total(list, |list|))
  {
    assert list[1] in list;
  }

  // ----- the mappings of a container's specification -----

  /** One range from container ID 0 with enough IDs. */
  predicate Usable(ranges: seq<IdRange>) {
    |ranges| == 1 && ranges[0].container == 0 && ranges[0].size >= ID_RANGE_MIN
  }

  /** What merging makes of a list, given what sorting left in it. */
  ghost function Merged(list: seq<IdRange>, s: seq<IdRange>): Option<seq<IdRange>>
    requires IsSorting(list, s)
  {
    if |list| < 2 then Some(list)
    else if !Chained(s) then None
    else
      SameMembers(list, s);
      Some([IdRange(s[0].container, s[0].host, Wrap(Total(s, |s|)))])
  }

  /** Lists that validation accepts: both merge to one usable range, with the same host ID, not 0. */
  ghost predicate Acceptable(uid: seq<IdRange>, sortedUid: seq<IdRange>, gid: seq<IdRange>, sortedGid: seq<IdRange>)
    requires IsSorting(uid, sortedUid) && IsSorting(gid, sortedGid)
  {
    var u, g := Merged(uid, sortedUid), Merged(gid, sortedGid);
    && u.Some? && Usable(u.value) && g.Some? && Usable(g.value)
    && u.value[0].host == g.value[0].host && u.value[0].host != 0
  }

  /** The lists after validation; a list that cannot be merged is dropped. */
  ghost function Validated(uid: seq<IdRange>, sortedUid: seq<IdRange>, gid: seq<IdRange>,
                           sortedGid: seq<IdRange>): (seq<IdRange>, seq<IdRange>)
    requires IsSorting(uid, sortedUid) && IsSorting(gid, sortedGid)
  {
    var u, g := Merged(uid, sortedUid), Merged(gid, sortedGid);
    if uid == [] || gid == [] then (uid, gid)
    else if u.None? then ([], gid)
    else (u.value, if g.None? then [] else g.value)
  }

  /** What the manager of the host answers; none when it is not running. */
  datatype Manager = NoManager | Manager(uidMappings: seq<IdRange>, gidMappings: seq<IdRange>,
                                         subids: Option<(Word32, Word32)>)

  /** The list in force: the manager's, if it has one. */
  function Effective(managed: bool, theirs: seq<IdRange>, ours: seq<IdRange>): seq<IdRange> {
    if managed && theirs != [] then theirs else ours
  }

  class LinuxSpec {
    var uidMappings: seq<IdRange>
    var gidMappings: seq<IdRange>

    constructor (uid: seq<IdRange>, gid: seq<IdRange>)
      ensures uidMappings == uid && gidMappings == gid
    {
      uidMappings, gidMappings := uid, gid;
    }

    method AllocIdMappings(mgr: Manager) returns (ok: bool)
      modifies this
      ensures ok <==> mgr.NoManager? || mgr.subids.Some?
      ensures ok ==>
                var (u, g) := if mgr.NoManager? then (DEFAULT_ID, DEFAULT_ID) else mgr.subids.value;
                && uidMappings == old(uidMappings) + [IdRange(0, u, ID_RANGE_MIN)]
                && gidMappings == old(gidMappings) + [IdRange(0, g, ID_RANGE_MIN)]
      ensures !ok ==> unchanged(this)
    {
      var uid: Word32, gid: Word32 := DEFAULT_ID, DEFAULT_ID;
      if mgr.Manager? {
        if mgr.subids.None? {
          return false;
        }
        uid, gid := mgr.subids.value.0, mgr.subids.value.1;
      }
      uidMappings := uidMappings + [IdRange(0, uid, ID_RANGE_MIN)];
      gidMappings := gidMappings + [IdRange(0, gid, ID_RANGE_MIN)];
      return true;
    }

    /** Fails exactly when the lists are not acceptable; either way it says what becomes of them. */
    method ValidateIdMappings(sortedUid: seq<IdRange>, sortedGid: seq<IdRange>) returns (ok: bool)
      requires IsSorting(uidMappings, sortedUid) && IsSorting(gidMappings, sortedGid)
      modifies this
      ensures ok <==> Acceptable(old(uidMappings), sortedUid, old(gidMappings), sortedGid)
      ensures (uidMappings, gidMappings) == Validated(old(uidMappings), sortedUid, old(gidMappings), sortedGid)
      ensures ok ==> Usable(uidMappings) && Usable(gidMappings) && uidMappings[0].host == gidMappings[0].host != 0
    {
      if |uidMappings| == 0 || |gidMappings| == 0 {
        return false;
      }
      var uid := MergeIdMappings(uidMappings, sortedUid);
      if uid.None? {
        uidMappings := [];
        return false;
      }
      uidMappings := uid.value;
      var gid := MergeIdMappings(gidMappings, sortedGid);
      if gid.None? {
        gidMappings := [];
        return false;
      }
      gidMappings := gid.value;
      var u, g := uidMappings[0], gidMappings[0];
      if u.container != 0 || u.size < ID_RANGE_MIN || g.container != 0 || g.size < ID_RANGE_MIN {
        return false;
      }
      return u.host == g.host && u.host != 0 && g.host != 0;
    }

    /**
     * The manager's lists take precedence; missing lists are allocated, and others validated. Success always leaves
     * one usable range per list; validated ranges start at the same host ID, which is not 0.
     */
    method CfgIdMappings(mgr: Manager, sortedUid: seq<IdRange>, sortedGid: seq<IdRange>) returns (ok: bool)
      requires IsSorting(Effective(mgr.Manager?, if mgr.Manager? then mgr.uidMappings else [], uidMappings), sortedUid)
      requires IsSorting(Effective(mgr.Manager?, if mgr.Manager? then mgr.gidMappings else [], gidMappings), sortedGid)
      modifies this
      ensures var uid := Effective(mgr.Manager?, if mgr.Manager? then mgr.uidMappings else [], old(uidMappings));
              var gid := Effective(mgr.Manager?, if mgr.Manager? then mgr.gidMappings else [], old(gidMappings));
              if uid == [] && gid == [] then ok <==> mgr.NoManager? || mgr.subids.Some?
              else ok <==> Acceptable(uid, sortedUid, gid, sortedGid)
      ensures ok ==> Usable(uidMappings) && Usable(gidMappings)
      ensures var uid := Effective(mgr.Manager?, if mgr.Manager? then mgr.uidMappings else [], old(uidMappings));
              var gid := Effective(mgr.Manager?, if mgr.Manager? then mgr.gidMappings else [], old(gidMappings));
              ok && !(uid == [] && gid == []) ==> uidMappings[0].host == gidMappings[0].host != 0
      ensures ok ==> uidMappings[0].container == gidMappings[0].container == 0 &&
                     uidMappings[0].size >= 65536 && gidMappings[0].size >= 65536
    {
      hide Acceptable, Validated, IsSorting;
      if mgr.Manager? {
        if |mgr.uidMappings| > 0 {
          uidMappings := mgr.uidMappings;
        }
        if |mgr.gidMappings| > 0 {
          gidMappings := mgr.gidMappings;
        }
      }
      if |uidMappings| == 0 && |gidMappings| == 0 {
        ok := AllocIdMappings(mgr);
      } else {
        ok := ValidateIdMappings(sortedUid, sortedGid);
      }
    }
  }

  // ----- bind sources -----

  /** The host ID of the last range that starts at container ID 0, or 0. */
  function RootHost(ranges: seq<IdRange>): Word32 {
    if ranges == [] then 0
    else if ranges[|ranges| - 1].container == 0 then ranges[|ranges| - 1].host
    else RootHost(ranges[..|ranges| - 1])
  }

  /** The test made on one ID, with 32-bit sums. */
  predicate InWindow(ranges: seq<IdRange>, id: Word32) {
    RootHost(ranges) <= id < Plus(RootHost(ranges), Wrap(Total(ranges, |ranges|)))
  }

  /** The two places whose files are never shifted: the file system server's directory and the container's rootfs. */
  predicate Exempt(source: string, fsDir: string, rootfs: string) {
    fsDir + "/" <= source || rootfs + "/" <= source
  }

  method Window(ranges: seq<IdRange>) returns (host: Word32, size: Word32)
    ensures host == RootHost(ranges) && size == Wrap(Total(ranges, |ranges|))
  {
    host, size := 0, 0;
    for i := 0 to |ranges|
      invariant host == RootHost(ranges[..i]) && size == Wrap(Total(ranges, i))
    {
      assert ranges[..i + 1][..i] == ranges[..i];
      if ranges[i].container == 0 {
        host := ranges[i].host;
      }
      WrapPlus(Total(ranges, i), ranges[i].size);
      size := Plus(size, ranges[i].size);
    }
    assert ranges[..|ranges|] == ranges;
  }

  method NeedUidShiftOnBindSrc(source: string, fsDir: string, rootfs: string, uidMaps: seq<IdRange>,
                               gidMaps: seq<IdRange>, uid: Word32, gid: Word32) returns (shift: bool)
    ensures shift <==> !Exempt(source, fsDir, rootfs) && !(InWindow(uidMaps, uid) && InWindow(gidMaps, gid))
  {
    if fsDir + "/" <= source {
      return false;
    }
    if rootfs + "/" <= source {
      return false;
    }
    var hostUid, uidSize := Window(uidMaps);
    var hostGid, gidSize := Window(gidMaps);
    if uid >= hostUid && uid < Plus(hostUid, uidSize) && gid >= hostGid && gid < Plus(hostGid, gidSize) {
      return false;
    }
    return true;
  }

  /** Some container ID is translated to this host ID. */
  ghost predicate InImage(ranges: seq<IdRange>, host: int) {
    exists id: int :: HostId(ranges, id) == Some(host)
  }

  lemma ImageOfOne(m: IdRange, host: int)
    ensures InImage([m], host) <==> m.host <= host < m.host + m.size
  {
    hide HostId;
    if m.host <= host < m.host + m.size {
      HostIdOfOne(m, m.container + (host - m.host));
    }
    if InImage([m], host) {
      var id: int :| HostId([m], id) == Some(host);
      HostIdOfOne(m, id);
    }
  }

  lemma WindowOfOne(m: IdRange, id: Word32)
    requires m.container == 0
    ensures InWindow([m], id) <==> m.host <= id < Plus(m.host, m.size)
  {
    assert Total([m], 1) == Total([m], 0) + m.size;
  }

  ghost predicate TestIsImage(uid: IdRange, gid: IdRange) {
    forall u: Word32, g: Word32 :: InWindow([uid], u) && InWindow([gid], g) <==> InImage([uid], u) && InImage([gid], g)
  }

  /**
   * For mappings as validation leaves them, the test says "no shift" exactly for the owners that the mappings can
   * produce, for all owners, if and only if neither range reaches the 32-bit limit on the host side. A range that
   * does makes the test demand a shift for every owner.
   */
  lemma ShiftTestIsExact(uid: IdRange, gid: IdRange)
    requires Usable([uid]) && Usable([gid])
    ensures TestIsImage(uid, gid) <==> uid.host + uid.size < MODULUS && gid.host + gid.size < MODULUS
  {
    hide InWindow, InImage;
    forall u: Word32, g: Word32
      ensures InWindow([uid], u) <==> uid.host <= u < Plus(uid.host, uid.size)
      ensures InWindow([gid], g) <==> gid.host <= g < Plus(gid.host, gid.size)
      ensures InImage([uid], u) <==> uid.host <= u < uid.host + uid.size
      ensures InImage([gid], g) <==> gid.host <= g < gid.host + gid.size
    {
      WindowOfOne(uid, u);
      WindowOfOne(gid, g);
      ImageOfOne(uid, u);
      ImageOfOne(gid, g);
    }
    ImageOfOne(uid, uid.host);
    ImageOfOne(gid, gid.host);
    assert InImage([uid], uid.host) && InImage([gid], gid.host);
  }

  /** The list as given: what the test accepts on its merged form is exactly what it can produce. */
  ghost predicate WindowIsImage(list: seq<IdRange>, s: seq<IdRange>)
    requires IsSorting(list, s) && Merged(list, s).Some?
  {
    forall u: Word32 :: InWindow(Merged(list, s).value, u) <==> InImage(list, u)
  }

  /** A list of one range is its own sorting. */
  lemma SortingOfOne(list: seq<IdRange>, s: seq<IdRange>)
    requires IsSorting(list, s) && |list| == 1
    ensures s == list && Total(s, |s|) == s[0].size
  {
    SameMembers(list, s);
    assert s[0] in s && list[0] in list;
    assert Total(s, 1) == Total(s, 0) + s[0].size;
  }

  /** A host ID that lies in the stretch, not wrapped, is produced. */
  lemma StretchIsProduced(list: seq<IdRange>, s: seq<IdRange>, host: int)
    requires IsSorting(list, s) && Chained(s) && |s| > 0 && s[0].host <= host < s[0].host + Total(s, |s|) &&
             host < MODULUS
    ensures InImage(list, host)
  {
    hide HostId, Total, IsSorting, Chained;
    var id := s[0].container + (host - s[0].host);
    MappedIds(list, s, id);
    HostIdOf(list, id);
    var m :| m in list && Covers(m, id) && HostId(list, id).value == m.host + (id - m.container);
    PlaceOf(list, s, m);
    assert HostId(list, id) == Some(host);
  }

  /** The last host ID is never in a window. */
  lemma LastIsOutside(ranges: seq<IdRange>)
    ensures !InWindow(ranges, MODULUS - 1)
  {
  }

  lemma NonEmptyList(list: seq<IdRange>, s: seq<IdRange>)
    requires IsSorting(list, s) && Merged(list, s).Some? && Usable(Merged(list, s).value)
    ensures |s| > 0 && Chained(s) && Total(s, |s|) > 0
  {
    SameMembers(list, s);
    if |list| == 1 {
      SortingOfOne(list, s);
    }
  }

  lemma WindowIsImageWhen(list: seq<IdRange>, s: seq<IdRange>)
    requires IsSorting(list, s) && Merged(list, s).Some? && Usable(Merged(list, s).value)
    ensures |s| > 0 && (WindowIsImage(list, s) <==> s[0].host + Total(s, |s|) < MODULUS)
  {
    hide InWindow, InImage, Total;
    NonEmptyList(list, s);
    var reach := s[0].host + Total(s, |s|);
    if reach >= MODULUS {
      StretchIsProduced(list, s, MODULUS - 1);
      LastIsOutside(Merged(list, s).value);
    } else {
      forall u: Word32
        ensures InWindow(Merged(list, s).value, u) <==> InImage(list, u)
      {
        InReach(list, s, u);
      }
    }
  }

  lemma InReach(list: seq<IdRange>, s: seq<IdRange>, u: Word32)
    requires IsSorting(list, s) && Merged(list, s).Some? && Usable(Merged(list, s).value)
    requires |s| > 0 && Chained(s) && s[0].host + Total(s, |s|) < MODULUS
    ensures InWindow(Merged(list, s).value, u) <==> InImage(list, u)
  {
    hide InWindow, InImage, Total;
    var m := Merged(list, s).value[0];
    assert Merged(list, s).value == [m];
    if |list| >= 2 {
      forall x | x in list
        ensures s[0].host + (x.container - s[0].container) < MODULUS
      {
        PlaceOf(list, s, x);
      }
    } else {
      SortingOfOne(list, s);
    }
    SameImage(list, s, u);
    WindowOfOne(m, u);
    ImageOfOne(m, u);
  }

  /**
   * The same for the lists as they were written: the test accepts exactly the owners that both lists can produce,
   * for all owners, if and only if neither stretch of host IDs reaches the 32-bit limit.
   */
  lemma ShiftTestMatchesGivenLists(uid: seq<IdRange>, sortedUid: seq<IdRange>, gid: seq<IdRange>,
                                   sortedGid: seq<IdRange>)
    requires IsSorting(uid, sortedUid) && IsSorting(gid, sortedGid) && Acceptable(uid, sortedUid, gid, sortedGid)
    ensures |sortedUid| > 0 && |sortedGid| > 0
    ensures (forall u: Word32, g: Word32 ::
               InWindow(Merged(uid, sortedUid).value, u) && InWindow(Merged(gid, sortedGid).value, g) <==>
               InImage(uid, u) && InImage(gid, g)) <==>
            && sortedUid[0].host + Total(sortedUid, |sortedUid|) < MODULUS
            && sortedGid[0].host + Total(sortedGid, |sortedGid|) < MODULUS
  {
    hide InWindow, InImage, Total, Chained, IsSorting, Merged;
    WindowIsImageWhen(uid, sortedUid);
    WindowIsImageWhen(gid, sortedGid);
    NonEmptyList(uid, sortedUid);
    NonEmptyList(gid, sortedGid);
    StretchIsProduced(uid, sortedUid, sortedUid[0].host);
    StretchIsProduced(gid, sortedGid, sortedGid[0].host);
  }

  lemma SameImage(list: seq<IdRange>, s: seq<IdRange>, host: int)
    requires IsSorting(list, s) && Merged(list, s).Some?
    requires |list| >= 2 ==> |s| > 0 && NoWrap(list, s[0], Total(s, |s|))
    ensures InImage(Merged(list, s).value, host) <==> InImage(list, host)
  {
    hide HostId;
    if |list| >= 2 {
      forall id: int
        ensures HostId(Merged(list, s).value, id) == HostId(list, id)
      {
        MergedTranslatesWhen(list, s, id);
      }
    }
  }

  /** For example, for the last 65536 host IDs the owner that container root maps to is said to need a shift. */
  lemma LastRangeIsShifted(m: IdRange)
    requires m == IdRange(0, MODULUS - 65536, 65536)
    ensures Usable([m]) && InImage([m], m.host) && !InWindow([m], m.host)
  {
    ImageOfOne(m, m.host);
    WindowOfOne(m, m.host);
  }
}

/** The attributes of the bootstrap message that a container sends, and what the C stages make of them. */
module BootstrapMessage {
  import opened Wrappers
  import opened Words
  import opened Netlink

  /** A mapping is absent when it is empty; the path of a mapping tool is empty when there is none. */
  datatype UserInfo = UserInfo(uidMap: Option<seq<Byte>>, uidMapPath: seq<Byte>,
                               gidMap: Option<seq<Byte>>, gidMapPath: seq<Byte>, setgroup: bool)

  datatype RootfsInfo = RootfsInfo(makeParentPriv: bool, parentMount: seq<Byte>, propagation: Word32,
                                   rootfs: seq<Byte>, shiftfsMounts: seq<Byte>)

  /** `user` is absent when an existing user namespace is joined, `rootfs` when a mount namespace is. */
  datatype BootInfo = BootInfo(cloneFlags: Word32, nsPaths: Option<seq<Byte>>, user: Option<UserInfo>,
                               oomScoreAdj: seq<Byte>, rootlessEuid: bool, rootfs: Option<RootfsInfo>,
                               timeOffsets: Option<seq<Byte>>)

  /** The flags MS_SLAVE and MS_REC, for a container that asks for no propagation of its own. */
  const SLAVE_REC: Word32 := 0x84000

  function TextIf(present: bool, kind: Word16, text: Option<seq<Byte>>): Option<Attr> {
    if present && text.Some? then Some(BytesAttr(kind, text.value)) else None
  }

  function BoolIf(present: bool, kind: Word16, flag: bool): Option<Attr> {
    if present then Some(BoolAttr(kind, flag)) else None
  }

  // The kinds as the Go side numbers them; the C side has its own table.

  const CLONE_FLAGS_ATTR: Word16 := 27281
  const NS_PATHS_ATTR: Word16 := 27282
  const UID_MAP_ATTR: Word16 := 27283
  const GID_MAP_ATTR: Word16 := 27284
  const SETGROUP_ATTR: Word16 := 27285
  const OOM_SCORE_ADJ_ATTR: Word16 := 27286
  const ROOTLESS_EUID_ATTR: Word16 := 27287
  const UID_MAP_PATH_ATTR: Word16 := 27288
  const GID_MAP_PATH_ATTR: Word16 := 27289
  const PREP_ROOTFS_ATTR: Word16 := 27290
  const MAKE_PARENT_PRIV_ATTR: Word16 := 27291
  const ROOTFS_PROP_ATTR: Word16 := 27292
  const ROOTFS_ATTR: Word16 := 27293
  const PARENT_MOUNT_ATTR: Word16 := 27294
  const SHIFTFS_MOUNTS_ATTR: Word16 := 27295
  const TIME_OFFSETS_ATTR: Word16 := 27296

  /** Every kind in the order in which it may be written. */
  const ORDER: seq<Word16> :=
    [CLONE_FLAGS_ATTR, NS_PATHS_ATTR, UID_MAP_PATH_ATTR, UID_MAP_ATTR, GID_MAP_ATTR, GID_MAP_PATH_ATTR, SETGROUP_ATTR,
     OOM_SCORE_ADJ_ATTR, ROOTLESS_EUID_ATTR, PREP_ROOTFS_ATTR, MAKE_PARENT_PRIV_ATTR, PARENT_MOUNT_ATTR,
     ROOTFS_PROP_ATTR, ROOTFS_ATTR, SHIFTFS_MOUNTS_ATTR, TIME_OFFSETS_ATTR]

  function UserParts(u: Option<UserInfo>, rootless: bool): seq<Option<Attr>> {
    match u
    case None => [None, None, None, None, None]
    case Some(u) =>
      [TextIf(u.uidMap.Some? && rootless && u.uidMapPath != [], UID_MAP_PATH_ATTR, Some(u.uidMapPath)),
       TextIf(true, UID_MAP_ATTR, u.uidMap),
       TextIf(true, GID_MAP_ATTR, u.gidMap),
       TextIf(u.gidMap.Some? && rootless && u.gidMapPath != [], GID_MAP_PATH_ATTR, Some(u.gidMapPath)),
       BoolIf(u.gidMap.Some? && u.setgroup, SETGROUP_ATTR, true)]
  }

  function RootfsParts(r: Option<RootfsInfo>): seq<Option<Attr>> {
    match r
    case None => [None, None, None, None, None, None]
    case Some(r) =>
      [Some(BoolAttr(PREP_ROOTFS_ATTR, true)), Some(BoolAttr(MAKE_PARENT_PRIV_ATTR, r.makeParentPriv)),
       Some(BytesAttr(PARENT_MOUNT_ATTR, r.parentMount)),
       Some(Int32Attr(ROOTFS_PROP_ATTR, if r.propagation != 0 then r.propagation else SLAVE_REC)),
       Some(BytesAttr(ROOTFS_ATTR, r.rootfs)), Some(BytesAttr(SHIFTFS_MOUNTS_ATTR, r.shiftfsMounts))]
  }

  function BootstrapParts(b: BootInfo): seq<Option<Attr>> {
    [Some(Int32Attr(CLONE_FLAGS_ATTR, b.cloneFlags)), TextIf(true, NS_PATHS_ATTR, b.nsPaths)] +
    UserParts(b.user, b.rootlessEuid) +
    [Some(BytesAttr(OOM_SCORE_ADJ_ATTR, b.oomScoreAdj)), Some(BoolAttr(ROOTLESS_EUID_ATTR, b.rootlessEuid))] +
    RootfsParts(b.rootfs) +
    [TextIf(true, TIME_OFFSETS_ATTR, b.timeOffsets)]
  }

  function Present(parts: seq<Option<Attr>>): seq<Attr> {
    if parts == [] then []
    else (if parts[0].Some? then [parts[0].value] else []) + Present(parts[1..])
  }

  function BootstrapAttrs(b: BootInfo): seq<Attr> {
    Present(BootstrapParts(b))
  }

  /** Part `i` is written as the parser reads the kind at place `i` of the order. */
  ghost predicate InOrder(parts: seq<Option<Attr>>, kinds: seq<Word16>) {
    |parts| == |kinds| && forall i :: 0 <= i < |parts| && parts[i].Some? ==>
      parts[i].value.kind == kinds[i] && WellShaped(parts[i].value)
  }

  lemma {:induction false} PresentInOrder(parts: seq<Option<Attr>>, kinds: seq<Word16>)
    requires InOrder(parts, kinds) && forall i, j :: 0 <= i < j < |kinds| ==> kinds[i] != kinds[j]
    ensures DistinctKinds(Present(parts))
    ensures forall a <- Present(parts) :: a.kind in kinds && WellShaped(a)
    decreases |parts|
  {
    hide WellShaped;
    if parts == [] {
      assert Present(parts) == [];
    } else {
      var rest := Present(parts[1..]);
      PresentInOrder(parts[1..], kinds[1..]);
      assert forall a <- rest :: a.kind in kinds[1..];
      assert kinds[0] !in kinds[1..];
      if parts[0].Some? {
        DistinctCons([parts[0].value], rest);
      } else {
        assert [] + rest == rest;
      }
    }
  }

  lemma DistinctCons(first: seq<Attr>, rest: seq<Attr>)
    requires |first| <= 1 && DistinctKinds(rest)
    requires forall a <- first, b <- rest :: a.kind != b.kind
    ensures DistinctKinds(first + rest)
  {
  }

  lemma PartsInOrder(b: BootInfo)
    ensures InOrder(BootstrapParts(b), ORDER)
  {
    var parts := BootstrapParts(b);
    assert parts[2..7] == UserParts(b.user, b.rootlessEuid);
    assert parts[9..15] == RootfsParts(b.rootfs);
    forall i | 0 <= i < |parts| && parts[i].Some?
      ensures parts[i].value.kind == ORDER[i] && WellShaped(parts[i].value)
    {
      if 2 <= i < 7 {
        assert parts[i] == UserParts(b.user, b.rootlessEuid)[i - 2];
      } else if 9 <= i < 15 {
        assert parts[i] == RootfsParts(b.rootfs)[i - 9];
      }
    }
  }

  /**
   * For every container, the C stages store the whole bootstrap message as it was written if and only if each of
   * its texts is at most 65530 bytes long.
   */
  lemma BootstrapRoundTrip(b: BootInfo)
    requires forall a <- BootstrapAttrs(b) :: Len(a) < SIZE_MODULUS
    ensures ParseFrom(Message(BootstrapAttrs(b)), 0, map[]) == Parsed(FieldsOf(BootstrapAttrs(b), 0, map[])) <==>
            forall a <- BootstrapAttrs(b) :: a.BytesAttr? ==> |a.text| <= 65530
  {
    hide ParseFrom, FieldsOf, Message, BootstrapParts, WellShaped, Present;
    PartsInOrder(b);
    PresentInOrder(BootstrapParts(b), ORDER);
    MessageRoundTripCondition(BootstrapAttrs(b));
    assert forall a <- BootstrapAttrs(b) :: Fits(a) <==> (a.BytesAttr? ==> |a.text| <= 65530);
  }

  lemma {:induction false} PresentAre(parts: seq<Option<Attr>>, a: Attr)
    ensures a in Present(parts) <==> Some(a) in parts
  {
    if parts != [] {
      PresentAre(parts[1..], a);
      assert parts == [parts[0]] + parts[1..];
    }
  }

  lemma {:induction false} AbsentKind(parts: seq<Option<Attr>>, kinds: seq<Word16>, i: nat)
    requires InOrder(parts, kinds) && i < |kinds| && parts[i].None?
    requires forall i, j :: 0 <= i < j < |kinds| ==> kinds[i] != kinds[j]
    ensures forall a <- Present(parts) :: a.kind != kinds[i]
  {
    hide WellShaped, Present;
    forall a | a in Present(parts)
      ensures a.kind != kinds[i]
    {
      PresentAre(parts, a);
      var j :| 0 <= j < |parts| && parts[j] == Some(a);
      assert i != j;
    }
  }

  /** Every text of the message is at most 65530 bytes long. */
  ghost predicate AllFit(b: BootInfo) {
    forall a <- BootstrapAttrs(b) :: a.BytesAttr? ==> |a.text| <= 65530
  }

  /** What the C side finds under the kind at place `i` of the order is what part `i` says. */
  lemma PartIsStored(b: BootInfo, i: nat)
    requires AllFit(b) && i < |ORDER|
    ensures var data := Message(BootstrapAttrs(b));
            var r := ParseFrom(data, 0, map[]);
            && r.Parsed?
            && Stored(data, r.fields, ORDER[i]) ==
               (match BootstrapParts(b)[i] case Some(a) => Some(ValueOf(a)) case None => None)
  {
    hide ParseFrom, Message, BootstrapParts, WellShaped, Present, Stored, FieldsOf, Reads;
    var parts, attrs := BootstrapParts(b), BootstrapAttrs(b);
    PartsInOrder(b);
    PresentInOrder(parts, ORDER);
    MessageRoundTrip(attrs);
    if parts[i].Some? {
      var a := parts[i].value;
      PresentAre(parts, a);
      var k :| 0 <= k < |attrs| && attrs[k] == a;
      EveryAttributeIsRead(attrs, k);
      ReadsIsStored(Message(attrs), ParseFrom(Message(attrs), 0, map[]).fields, a);
    } else {
      AbsentKind(parts, ORDER, i);
      FieldsOfOthers(attrs, 0, map[], ORDER[i]);
      NothingStored(Message(attrs), FieldsOf(attrs, 0, map[]), ORDER[i]);
    }
  }

  lemma NothingStored(data: seq<Byte>, fields: Fields, kind: Word16)
    requires kind !in fields
    ensures Stored(data, fields, kind) == None
  {
  }

  /** A text with its closing zero, if it is sent. */
  function Closed(sent: bool, text: seq<Byte>): Option<Value> {
    if sent then Some(TextValue(text + [0])) else None
  }

  function ClosedIf(text: Option<seq<Byte>>): Option<Value> {
    match text
    case Some(text) => Closed(true, text)
    case None => None
  }

  function FlagIf(sent: bool, flag: bool): Option<Value> {
    if sent then Some(FlagValue(if flag then 1 else 0)) else None
  }

  /**
   * Field by field, what the C stages find in a message that fits, and under which kind they find nothing. Each
   * value stands where the stages look for it, so no two are mixed up.
   */
  lemma GeneralFieldsArrive(b: BootInfo)
    requires AllFit(b)
    ensures var data := Message(BootstrapAttrs(b));
            var r := ParseFrom(data, 0, map[]);
            && r.Parsed?
            && Stored(data, r.fields, CLONE_FLAGS) == Some(NumberValue(b.cloneFlags))
            && Stored(data, r.fields, NS_PATHS) == ClosedIf(b.nsPaths)
            && Stored(data, r.fields, OOM_SCORE_ADJ) == Closed(true, b.oomScoreAdj)
            && Stored(data, r.fields, ROOTLESS_EUID) == FlagIf(true, b.rootlessEuid)
            && Stored(data, r.fields, TIME_OFFSETS) == ClosedIf(b.timeOffsets)
  {
    hide ParseFrom, Message, Stored, AllFit, Present;
    PartIsStored(b, 0);
    PartIsStored(b, 1);
    PartIsStored(b, 7);
    PartIsStored(b, 8);
    PartIsStored(b, 15);
  }

  /** Likewise for the mappings: nothing of them is sent when a user namespace is joined. */
  lemma UserFieldsArrive(b: BootInfo)
    requires AllFit(b)
    ensures var data := Message(BootstrapAttrs(b));
            var r := ParseFrom(data, 0, map[]);
            && r.Parsed?
            && match b.user
               case None =>
                 && Stored(data, r.fields, UID_MAP) == None && Stored(data, r.fields, UID_MAP_PATH) == None
                 && Stored(data, r.fields, GID_MAP) == None && Stored(data, r.fields, GID_MAP_PATH) == None
                 && Stored(data, r.fields, SETGROUP) == None
               case Some(u) =>
                 var tool := b.rootlessEuid;
                 && Stored(data, r.fields, UID_MAP) == ClosedIf(u.uidMap)
                 && Stored(data, r.fields, UID_MAP_PATH) ==
                    Closed(u.uidMap.Some? && tool && u.uidMapPath != [], u.uidMapPath)
                 && Stored(data, r.fields, GID_MAP) == ClosedIf(u.gidMap)
                 && Stored(data, r.fields, GID_MAP_PATH) ==
                    Closed(u.gidMap.Some? && tool && u.gidMapPath != [], u.gidMapPath)
                 && Stored(data, r.fields, SETGROUP) == FlagIf(u.gidMap.Some? && u.setgroup, true)
  {
    hide ParseFrom, Message, Stored, AllFit, Present;
    var parts := BootstrapParts(b);
    assert parts[2..7] == UserParts(b.user, b.rootlessEuid);
    forall i | 2 <= i < 7
      ensures parts[i] == UserParts(b.user, b.rootlessEuid)[i - 2]
    {
      assert parts[i] == parts[2..7][i - 2];
    }
    PartIsStored(b, 2);
    PartIsStored(b, 3);
    PartIsStored(b, 4);
    PartIsStored(b, 5);
    PartIsStored(b, 6);
  }

  /** Likewise for the root file system: nothing of it is sent when a mount namespace is joined. */
  lemma RootfsFieldsArrive(b: BootInfo)
    requires AllFit(b)
    ensures var data := Message(BootstrapAttrs(b));
            var r := ParseFrom(data, 0, map[]);
            && r.Parsed?
            && match b.rootfs
               case None =>
                 && Stored(data, r.fields, PREP_ROOTFS) == None && Stored(data, r.fields, MAKE_PARENT_PRIV) == None
                 && Stored(data, r.fields, PARENT_MOUNT) == None && Stored(data, r.fields, ROOTFS_PROP) == None
                 && Stored(data, r.fields, ROOTFS) == None && Stored(data, r.fields, SHIFTFS_MOUNTS) == None
               case Some(f) =>
                 && Stored(data, r.fields, PREP_ROOTFS) == FlagIf(true, true)
                 && Stored(data, r.fields, MAKE_PARENT_PRIV) == FlagIf(true, f.makeParentPriv)
                 && Stored(data, r.fields, PARENT_MOUNT) == Closed(true, f.parentMount)
                 && Stored(data, r.fields, ROOTFS_PROP) ==
                    Some(NumberValue(if f.propagation == 0 then SLAVE_REC else f.propagation))
                 && Stored(data, r.fields, ROOTFS) == Closed(true, f.rootfs)
                 && Stored(data, r.fields, SHIFTFS_MOUNTS) == Closed(true, f.shiftfsMounts)
  {
    hide ParseFrom, Message, Stored, AllFit, Present;
    var parts := BootstrapParts(b);
    assert parts[9..15] == RootfsParts(b.rootfs);
    forall i | 9 <= i < 15
      ensures parts[i] == RootfsParts(b.rootfs)[i - 9]
    {
      assert parts[i] == parts[9..15][i - 9];
    }
    PartIsStored(b, 9);
    PartIsStored(b, 10);
    PartIsStored(b, 11);
    PartIsStored(b, 12);
    PartIsStored(b, 13);
    PartIsStored(b, 14);
  }

  /** For example, ID mappings that take one byte more than fits are not stored as written. */
  lemma LongTextIsCut(b: BootInfo)
    requires b == BootInfo(0, None, Some(UserInfo(Some(seq(65531, _ => 48)), [], None, [], false)), [], false, None,
                           None)
    ensures ParseFrom(Message(BootstrapAttrs(b)), 0, map[]) != Parsed(FieldsOf(BootstrapAttrs(b), 0, map[]))
  {
    hide ParseFrom, FieldsOf, Message, Present;
    var long := BytesAttr(UID_MAP_ATTR, b.user.value.uidMap.value);
    var parts := BootstrapParts(b);
    forall a | a in BootstrapAttrs(b)
      ensures Len(a) < SIZE_MODULUS
    {
      PresentAre(parts, a);
    }
    assert parts[3] == UserParts(b.user, b.rootlessEuid)[1] == Some(long);
    PresentAre(parts, long);
    assert |long.text| == 65531;
    BootstrapRoundTrip(b);
  }
}

/**
 * The bootstrap message: attributes that the Go side serializes and the C side parses, as sections 2.2 and 2.3.2
 * of RFC 3549 frame them, little-endian. The C loop checks no bounds, so the model keeps what it would do on
 * any bytes, including leaving the buffer or never ending.
 */
module Netlink {
  import opened Wrappers
  import opened Words

  const HEADER := 4
  const SIZE_MODULUS := 0x1_0000_0000_0000_0000

  function Put16(x: Word16): seq<Byte> {
    [x % 256, x / 256]
  }

  function Put32(x: Word32): seq<Byte> {
    [x % 256, x / 256 % 256, x / 65536 % 256, x / 16777216]
  }

  function Get16(data: seq<Byte>, pos: nat): Word16
    requires pos + 2 <= |data|
  {
    var lo: int, hi: int := data[pos], data[pos + 1];
    lo + 256 * hi
  }

  function Get32(data: seq<Byte>, pos: nat): Word32
    requires pos + 4 <= |data|
  {
    var b0: int, b1: int, b2: int, b3: int := data[pos], data[pos + 1], data[pos + 2], data[pos + 3];
    b0 + 256 * b1 + 65536 * b2 + 16777216 * b3
  }

  /** Rounded up to a multiple of four. */
  function Align(n: nat): nat {
    (n + 3) / 4 * 4
  }

  // ----- the Go side -----

  datatype Attr =
    | Int32Attr(kind: Word16, number: Word32)
    | BytesAttr(kind: Word16, text: seq<Byte>)
    | BoolAttr(kind: Word16, flag: bool)

  /** The length field before it is cut to 16 bits; text is followed by a zero byte. */
  function Len(a: Attr): nat {
    if a.BytesAttr? then HEADER + |a.text| + 1 else HEADER + 4
  }

  /** The value, with the zeros that fill it up to the next multiple of four. */
  function Body(a: Attr): (r: seq<Byte>)
    ensures HEADER + |r| == Align(Len(a))
  {
    match a
    case Int32Attr(_, number) => Put32(number)
    case BoolAttr(_, flag) => Put32(if flag then 1 else 0)
    case BytesAttr(_, text) => text + seq(Align(Len(a)) - HEADER - |text|, _ => 0)
  }

  function Encode(a: Attr): (r: seq<Byte>)
    ensures |r| == Align(Len(a))
  {
    Put16(Len(a) % 0x1_0000) + (Put16(a.kind) + Body(a))
  }

  /** The serializer of text attributes, which fills a zeroed buffer. */
  method SerializeBytes(kind: Word16, text: seq<Byte>) returns (buf: array<Byte>)
    ensures fresh(buf) && buf[..] == Encode(BytesAttr(kind, text))
  {
    hide Put16;
    var l := HEADER + |text| + 1;
    buf := new Byte[Align(l)](_ => 0);
    ghost var a := BytesAttr(kind, text);
    PutLengths(l % 0x1_0000);
    PutLengths(kind);
    buf[0], buf[1] := Put16(l % 0x1_0000)[0], Put16(l % 0x1_0000)[1];
    buf[2], buf[3] := Put16(kind)[0], Put16(kind)[1];
    EncodedBytes(a);
    for i := 0 to |text|
      invariant buf[0] == Encode(a)[0] && buf[1] == Encode(a)[1] && buf[2] == Encode(a)[2] && buf[3] == Encode(a)[3]
      invariant forall k :: 4 <= k < 4 + i ==> buf[k] == text[k - 4]
      invariant forall k :: 4 + i <= k < buf.Length ==> buf[k] == 0
    {
      buf[4 + i] := text[i];
    }
    assert forall k :: 0 <= k < buf.Length ==> buf[k] == Encode(a)[k];
  }

  lemma PutLengths(x: Word16)
    ensures |Put16(x)| == 2
  {
  }

  lemma EncodedBytes(a: Attr)
    requires a.BytesAttr?
    ensures var e := Encode(a); var len, kind := Put16(Len(a) % 0x1_0000), Put16(a.kind);
            && |len| == 2 && |kind| == 2 && e[0] == len[0] && e[1] == len[1] && e[2] == kind[0] && e[3] == kind[1]
            && (forall k :: 4 <= k < 4 + |a.text| ==> e[k] == a.text[k - 4])
            && (forall k :: 4 + |a.text| <= k < |e| ==> e[k] == 0)
  {
    var rest := Put16(a.kind) + Body(a);
    assert Encode(a)[2..] == rest && rest[2..] == Body(a);
    assert forall k :: 4 <= k < |Encode(a)| ==> Encode(a)[k] == Body(a)[k - 4];
  }

  function Message(attrs: seq<Attr>): seq<Byte> {
    if attrs == [] then [] else Encode(attrs[0]) + Message(attrs[1..])
  }

  // ----- the C side -----

  datatype Shape = Number | Flag | Text | Unknown

  const CLONE_FLAGS: Word16 := 27281
  const NS_PATHS: Word16 := 27282
  const UID_MAP: Word16 := 27283
  const GID_MAP: Word16 := 27284
  const SETGROUP: Word16 := 27285
  const OOM_SCORE_ADJ: Word16 := 27286
  const ROOTLESS_EUID: Word16 := 27287
  const UID_MAP_PATH: Word16 := 27288
  const GID_MAP_PATH: Word16 := 27289
  const PREP_ROOTFS: Word16 := 27290
  const MAKE_PARENT_PRIV: Word16 := 27291
  const ROOTFS_PROP: Word16 := 27292
  const ROOTFS: Word16 := 27293
  const PARENT_MOUNT: Word16 := 27294
  const SHIFTFS_MOUNTS: Word16 := 27295
  const TIME_OFFSETS: Word16 := 27296

  /** How the parser reads an attribute of this kind. */
  function ShapeOf(kind: Word16): Shape {
    if kind == CLONE_FLAGS || kind == ROOTFS_PROP then Number
    else if kind == ROOTLESS_EUID || kind == SETGROUP || kind == PREP_ROOTFS || kind == MAKE_PARENT_PRIV then Flag
    else if CLONE_FLAGS < kind <= TIME_OFFSETS then Text
    else Unknown
  }

  /** What the parser stores: a number, a byte, or where a text starts and how long it is said to be. */
  datatype Field = NumberField(number: Word32) | FlagField(flag: Byte) | TextField(start: nat, length: nat)

  type Fields = map<Word16, Field>

  /** The C parser checks no bounds: it may read past the payload, or come back to the same attribute for ever. */
  datatype Outcome = Parsed(fields: Fields) | UnknownKind(kind: Word16) | Overrun | Endless

  /** The header length subtracted in a size_t. */
  function PayloadLength(len: Word16): nat {
    if len < HEADER then SIZE_MODULUS + len - HEADER else len - HEADER
  }

  /** How far the cursor moves after the header, in a size_t. */
  function Advance(len: Word16): nat {
    var n := PayloadLength(len) + 3;
    (if n < SIZE_MODULUS then n else n - SIZE_MODULUS) / 4 * 4
  }

  /** The field at `pos`, unless reading it leaves the payload. */
  function FieldAt(data: seq<Byte>, pos: nat): Option<Field>
    requires pos + HEADER <= |data|
  {
    match ShapeOf(Get16(data, pos + 2))
    case Number => if pos + 8 > |data| then None else Some(NumberField(Get32(data, pos + 4)))
    case Flag => if pos + 5 > |data| then None else Some(FlagField(data[pos + 4]))
    case _ => Some(TextField(pos + 4, PayloadLength(Get16(data, pos))))
  }

  function ParseFrom(data: seq<Byte>, pos: nat, fields: Fields): Outcome
    decreases |data| - pos
  {
    if pos >= |data| then Parsed(fields)
    else if pos + HEADER > |data| then Overrun
    else
      var len, kind := Get16(data, pos), Get16(data, pos + 2);
      if ShapeOf(kind) == Unknown then UnknownKind(kind)
      else if FieldAt(data, pos).None? then Overrun
      else if len == 0 then Endless
      else ParseFrom(data, pos + HEADER + Advance(len), fields[kind := FieldAt(data, pos).value])
  }

  /** The cursor comes back to the attribute it started from exactly when the length field is zero. */
  lemma AdvanceIsForward(len: Word16)
    ensures len == 0 <==> HEADER + Advance(len) == SIZE_MODULUS
    ensures len >= HEADER ==> HEADER + Advance(len) == Align(len)
    ensures 0 < len < HEADER ==> Advance(len) == 0 && PayloadLength(len) >= SIZE_MODULUS - 3
  {
  }

  method NlParse(data: seq<Byte>) returns (r: Outcome)
    ensures r == ParseFrom(data, 0, map[])
  {
    var current, fields: Fields := 0, map[];
    while current < |data|
      invariant ParseFrom(data, 0, map[]) == ParseFrom(data, current, fields)
      decreases |data| - current
    {
      if current + HEADER > |data| {
        return Overrun;
      }
      var len, kind := Get16(data, current), Get16(data, current + 2);
      if ShapeOf(kind) == Unknown {
        return UnknownKind(kind);
      }
      var field := FieldAt(data, current);
      if field.None? {
        return Overrun;
      }
      fields := fields[kind := field.value];
      if len == 0 {
        return Endless;
      }
      current := current + HEADER + Advance(len);
    }
    return Parsed(fields);
  }

  // ----- round trip -----

  predicate Fits(a: Attr) {
    Len(a) <= 0xFFFF
  }

  /** The kind is one that the parser reads the way the attribute is written. */
  predicate WellShaped(a: Attr) {
    match a
    case Int32Attr(kind, _) => ShapeOf(kind) == Number
    case BoolAttr(kind, _) => ShapeOf(kind) == Flag
    case BytesAttr(kind, _) => ShapeOf(kind) == Text
  }

  /** What the parser should store for an attribute that starts at `pos`. */
  function FieldOf(a: Attr, pos: nat): Field {
    match a
    case Int32Attr(_, number) => NumberField(number)
    case BoolAttr(_, flag) => FlagField(if flag then 1 else 0)
    case BytesAttr(_, text) => TextField(pos + HEADER, |text| + 1)
  }

  function FieldsOf(attrs: seq<Attr>, pos: nat, fields: Fields): Fields {
    if attrs == [] then fields
    else FieldsOf(attrs[1..], pos + |Encode(attrs[0])|, fields[attrs[0].kind := FieldOf(attrs[0], pos)])
  }

  /** The bytes `part` stand at `pos`. */
  predicate Holds(data: seq<Byte>, pos: nat, part: seq<Byte>) {
    pos + |part| <= |data| && data[pos..pos + |part|] == part
  }

  lemma HoldsBoth(data: seq<Byte>, pos: nat, a: seq<Byte>, b: seq<Byte>)
    requires Holds(data, pos, a + b)
    ensures Holds(data, pos, a) && Holds(data, pos + |a|, b)
  {
    var part := data[pos..pos + |a| + |b|];
    assert data[pos..pos + |a|] == part[..|a|] == a;
    assert data[pos + |a|..pos + |a| + |b|] == part[|a|..] == b;
  }

  lemma HoldsAt(data: seq<Byte>, pos: nat, part: seq<Byte>, i: nat)
    requires Holds(data, pos, part) && i < |part|
    ensures data[pos + i] == part[i]
  {
    assert data[pos..pos + |part|][i] == data[pos + i];
  }

  lemma Get16OfPut16(x: Word16, data: seq<Byte>, pos: nat)
    requires Holds(data, pos, Put16(x))
    ensures Get16(data, pos) == x
  {
    HoldsAt(data, pos, Put16(x), 0);
    HoldsAt(data, pos, Put16(x), 1);
  }

  lemma Get32OfPut32(x: Word32, data: seq<Byte>, pos: nat)
    requires Holds(data, pos, Put32(x))
    ensures Get32(data, pos) == x
  {
    HoldsAt(data, pos, Put32(x), 0);
    HoldsAt(data, pos, Put32(x), 1);
    HoldsAt(data, pos, Put32(x), 2);
    HoldsAt(data, pos, Put32(x), 3);
    assert x / 65536 == x / 256 / 256 && x / 16777216 == x / 65536 / 256;
  }

  lemma HeaderRoundTrip(a: Attr, data: seq<Byte>, pos: nat)
    requires Holds(data, pos, Encode(a))
    ensures Get16(data, pos) == Len(a) % 0x1_0000 && Get16(data, pos + 2) == a.kind
    ensures Holds(data, pos + HEADER, Body(a))
  {
    hide Holds, Get16, Put16, Body;
    assert |Put16(Len(a) % 0x1_0000)| == 2 && |Put16(a.kind)| == 2 by {
      PutLengths(Len(a) % 0x1_0000);
      PutLengths(a.kind);
    }
    HoldsBoth(data, pos, Put16(Len(a) % 0x1_0000), Put16(a.kind) + Body(a));
    HoldsBoth(data, pos + 2, Put16(a.kind), Body(a));
    Get16OfPut16(Len(a) % 0x1_0000, data, pos);
    Get16OfPut16(a.kind, data, pos + 2);
  }

  /** The text and its closing zero are in the payload as they were given. */
  lemma TextRoundTrip(a: Attr, data: seq<Byte>, pos: nat)
    requires a.BytesAttr? && Holds(data, pos, Encode(a))
    ensures Holds(data, pos + HEADER, a.text + [0])
  {
    hide Holds, Encode;
    HeaderRoundTrip(a, data, pos);
    var body := Body(a);
    assert |body| > |a.text|;
    assert body == (a.text + [0]) + body[|a.text| + 1..];
    HoldsBoth(data, pos + HEADER, a.text + [0], body[|a.text| + 1..]);
  }

  /** One attribute, wherever it stands in the payload. */
  lemma AttrRoundTrip(a: Attr, data: seq<Byte>, pos: nat)
    requires WellShaped(a) && Fits(a) && Holds(data, pos, Encode(a))
    ensures pos + HEADER <= |data| && FieldAt(data, pos) == Some(FieldOf(a, pos))
  {
    hide Encode, Get16, Get32, Put32;
    HeaderRoundTrip(a, data, pos);
    assert pos + Align(Len(a)) <= |data|;
    match a
    case Int32Attr(_, number) =>
      Get32OfPut32(number, data, pos + HEADER);
    case BoolAttr(_, flag) =>
      FlagByte(flag, data, pos + HEADER);
    case BytesAttr(_, text) =>
  }

  lemma FlagByte(flag: bool, data: seq<Byte>, pos: nat)
    requires Holds(data, pos, Put32(if flag then 1 else 0))
    ensures data[pos] == if flag then 1 else 0
  {
    HoldsAt(data, pos, Put32(if flag then 1 else 0), 0);
  }

  lemma {:induction false} MessageRoundTripFrom(attrs: seq<Attr>, data: seq<Byte>, pos: nat, fields: Fields)
    requires forall a <- attrs :: WellShaped(a) && Fits(a)
    requires Holds(data, pos, Message(attrs)) && pos + |Message(attrs)| == |data|
    ensures ParseFrom(data, pos, fields) == Parsed(FieldsOf(attrs, pos, fields))
    decreases |attrs|
  {
    hide Holds, Encode, FieldAt, FieldOf, WellShaped, Get16, ShapeOf, Advance;
    if attrs != [] {
      var a, rest := attrs[0], attrs[1..];
      HoldsBoth(data, pos, Encode(a), Message(rest));
      HeaderRoundTrip(a, data, pos);
      AttrRoundTrip(a, data, pos);
      KnownShape(a);
      AdvanceIsForward(Len(a));
      MessageRoundTripFrom(rest, data, pos + |Encode(a)|, fields[a.kind := FieldOf(a, pos)]);
    }
  }

  lemma KnownShape(a: Attr)
    requires WellShaped(a)
    ensures ShapeOf(a.kind) != Unknown
  {
  }

  /** The parser stops exactly at the end of a message of attributes that fit, and stores every one of them. */
  lemma MessageRoundTrip(attrs: seq<Attr>)
    requires forall a <- attrs :: WellShaped(a) && Fits(a)
    ensures ParseFrom(Message(attrs), 0, map[]) == Parsed(FieldsOf(attrs, 0, map[]))
  {
    assert Holds(Message(attrs), 0, Message(attrs));
    MessageRoundTripFrom(attrs, Message(attrs), 0, map[]);
  }

  /** Where attribute `k` starts. */
  function Offset(attrs: seq<Attr>, k: nat): nat
    requires k <= |attrs|
  {
    |Message(attrs[..k])|
  }

  ghost predicate DistinctKinds(attrs: seq<Attr>) {
    forall i, j :: 0 <= i < j < |attrs| ==> attrs[i].kind != attrs[j].kind
  }

  lemma {:induction false} FieldsOfOthers(attrs: seq<Attr>, pos: nat, fields: Fields, kind: Word16)
    requires forall a <- attrs :: a.kind != kind
    ensures kind in FieldsOf(attrs, pos, fields) <==> kind in fields
    ensures kind in fields ==> FieldsOf(attrs, pos, fields)[kind] == fields[kind]
    decreases |attrs|
  {
    if attrs != [] {
      FieldsOfOthers(attrs[1..], pos + |Encode(attrs[0])|, fields[attrs[0].kind := FieldOf(attrs[0], pos)], kind);
    }
  }

  lemma {:induction false} MessageConcat(a: seq<Attr>, b: seq<Attr>)
    ensures Message(a + b) == Message(a) + Message(b)
    decreases |a|
  {
    if a == [] {
      assert a + b == b;
    } else {
      assert (a + b)[1..] == a[1..] + b;
      MessageConcat(a[1..], b);
    }
  }

  lemma OffsetStep(attrs: seq<Attr>, k: nat)
    requires 0 < k < |attrs|
    ensures Offset(attrs, k) == |Encode(attrs[0])| + Offset(attrs[1..], k - 1)
  {
    assert attrs[..k][1..] == attrs[1..][..k - 1];
  }

  lemma {:induction false} FieldsOfAt(attrs: seq<Attr>, pos: nat, fields: Fields, k: nat)
    requires k < |attrs| && DistinctKinds(attrs)
    ensures attrs[k].kind in FieldsOf(attrs, pos, fields)
    ensures FieldsOf(attrs, pos, fields)[attrs[k].kind] == FieldOf(attrs[k], pos + Offset(attrs, k))
    decreases k
  {
    hide Encode, FieldOf, Message;
    var next := fields[attrs[0].kind := FieldOf(attrs[0], pos)];
    if k == 0 {
      FirstOffset(attrs);
      FieldsOfOthers(attrs[1..], pos + |Encode(attrs[0])|, next, attrs[0].kind);
    } else {
      OffsetStep(attrs, k);
      FieldsOfAt(attrs[1..], pos + |Encode(attrs[0])|, next, k - 1);
    }
  }

  lemma FirstOffset(attrs: seq<Attr>)
    ensures Offset(attrs, 0) == 0
  {
    assert attrs[..0] == [];
  }

  // ----- the length bound -----

  /** A length that a 16-bit field can lead to. */
  predicate Announceable(length: nat) {
    length <= 0xFFFF - HEADER || length >= SIZE_MODULUS - HEADER
  }

  ghost predicate AllAnnounceable(fields: Fields) {
    forall kind <- fields :: fields[kind].TextField? ==> Announceable(fields[kind].length)
  }

  lemma {:induction false} ParsedLengths(data: seq<Byte>, pos: nat, fields: Fields)
    requires AllAnnounceable(fields)
    ensures ParseFrom(data, pos, fields).Parsed? ==> AllAnnounceable(ParseFrom(data, pos, fields).fields)
    decreases |data| - pos
  {
    if pos + HEADER <= |data| {
      var len, kind := Get16(data, pos), Get16(data, pos + 2);
      if ShapeOf(kind) != Unknown && FieldAt(data, pos).Some? && len != 0 {
        ParsedLengths(data, pos + HEADER + Advance(len), fields[kind := FieldAt(data, pos).value]);
      }
    }
  }

  /**
   * The exact bound: a message whose kinds are all different is stored attribute by attribute if and only if no
   * length needs more than 16 bits. The serializer does not check it.
   */
  lemma MessageRoundTripCondition(attrs: seq<Attr>)
    requires DistinctKinds(attrs) && (forall a <- attrs :: WellShaped(a) && Len(a) < SIZE_MODULUS)
    ensures ParseFrom(Message(attrs), 0, map[]) == Parsed(FieldsOf(attrs, 0, map[])) <==> forall a <- attrs :: Fits(a)
  {
    if forall a <- attrs :: Fits(a) {
      MessageRoundTrip(attrs);
    } else {
      var a :| a in attrs && !Fits(a);
      var k :| 0 <= k < |attrs| && attrs[k] == a;
      FieldsOfAt(attrs, 0, map[], k);
      ParsedLengths(Message(attrs), 0, map[]);
      assert !Announceable(FieldOf(a, Offset(attrs, k)).length);
      assert !AllAnnounceable(FieldsOf(attrs, 0, map[]));
    }
  }

  /** What a stored field says: the number, the flag, or the bytes it points at. */
  predicate Reads(data: seq<Byte>, f: Field, a: Attr) {
    match f
    case NumberField(number) => a.Int32Attr? && a.number == number
    case FlagField(flag) => a.BoolAttr? && (if a.flag then 1 else 0) == flag
    case TextField(start, length) =>
      a.BytesAttr? && start + length <= |data| && data[start..start + length] == a.text + [0]
  }

  /** What the C side finds under a kind. A text is the bytes it points at, which may lie outside the message. */
  datatype Value = NumberValue(number: Word32) | FlagValue(flag: Byte) | TextValue(text: seq<Byte>) | Outside

  function Stored(data: seq<Byte>, fields: Fields, kind: Word16): Option<Value> {
    if kind !in fields then None
    else
      match fields[kind]
      case NumberField(number) => Some(NumberValue(number))
      case FlagField(flag) => Some(FlagValue(flag))
      case TextField(start, length) =>
        if start + length <= |data| then Some(TextValue(data[start..start + length])) else Some(Outside)
  }

  /** What it should find there for an attribute. */
  function ValueOf(a: Attr): Value {
    match a
    case Int32Attr(_, number) => NumberValue(number)
    case BoolAttr(_, flag) => FlagValue(if flag then 1 else 0)
    case BytesAttr(_, text) => TextValue(text + [0])
  }

  lemma ReadsIsStored(data: seq<Byte>, fields: Fields, a: Attr)
    requires a.kind in fields && Reads(data, fields[a.kind], a)
    ensures Stored(data, fields, a.kind) == Some(ValueOf(a))
  {
  }

  lemma HoldsMiddle(a: seq<Byte>, b: seq<Byte>, c: seq<Byte>)
    ensures Holds(a + (b + c), |a|, b)
  {
    var data := a + (b + c);
    assert data[|a|..][..|b|] == b;
    assert data[|a|..|a| + |b|] == data[|a|..][..|b|];
  }

  lemma MessageSplit(attrs: seq<Attr>, k: nat)
    requires k < |attrs|
    ensures Message(attrs) == Message(attrs[..k]) + (Encode(attrs[k]) + Message(attrs[k + 1..]))
  {
    hide Encode;
    var tail := attrs[k..];
    assert attrs == attrs[..k] + tail;
    assert tail[1..] == attrs[k + 1..];
    MessageConcat(attrs[..k], tail);
  }

  lemma EncodedAtOffset(attrs: seq<Attr>, k: nat)
    requires k < |attrs|
    ensures Holds(Message(attrs), Offset(attrs, k), Encode(attrs[k]))
  {
    hide Encode, Message, Holds;
    MessageSplit(attrs, k);
    HoldsMiddle(Message(attrs[..k]), Encode(attrs[k]), Message(attrs[k + 1..]));
  }

  /** Every attribute of a message that fits is read back: numbers, flags, and texts with their closing zero. */
  lemma EveryAttributeIsRead(attrs: seq<Attr>, k: nat)
    requires k < |attrs| && DistinctKinds(attrs) && (forall a <- attrs :: WellShaped(a) && Fits(a))
    ensures var r := ParseFrom(Message(attrs), 0, map[]);
            && r.Parsed?
            && attrs[k].kind in r.fields
            && Reads(Message(attrs), r.fields[attrs[k].kind], attrs[k])
  {
    hide ParseFrom, WellShaped, Fits, Encode, Message, Holds, FieldsOf;
    MessageRoundTrip(attrs);
    FieldsOfAt(attrs, 0, map[], k);
    if attrs[k].BytesAttr? {
      EncodedAtOffset(attrs, k);
      TextRoundTrip(attrs[k], Message(attrs), Offset(attrs, k));
      HoldsIs(Message(attrs), Offset(attrs, k) + HEADER, attrs[k].text + [0]);
    }
  }

  lemma HoldsIs(data: seq<Byte>, pos: nat, part: seq<Byte>)
    requires Holds(data, pos, part)
    ensures pos + |part| <= |data| && data[pos..pos + |part|] == part
  {
  }
}

/** The protobuf bodies of the five blob messages (Protocol Buffers Encoding, "Base 128 Varints",
    "Length-Delimited Records"), and the conversions between events and messages. */
module BlobMessages {
  import opened Basics
  import opened BlobEvents

  // ---------------------------------------------------------------- varints

  function Varint(v: nat): (b: Bytes)
    ensures b != []
  {
    if v < 128 then [v] else [v % 128 + 128] + Varint(v / 128)
  }

  datatype Parsed = Parsed(value: nat, used: nat)

  /** Reads at most `limit` bytes; the last byte allowed may only be 0 or 1. */
  function ReadVarint(b: Bytes, limit: nat): (r: Option<Parsed>)
    ensures r.Some? ==> 0 < r.value.used <= |b|
    decreases limit
  {
    if limit == 0 || b == [] then None
    else if b[0] < 128 then
      if limit == 1 && b[0] > 1 then None else Some(Parsed(b[0], 1))
    else
      match ReadVarint(b[1..], limit - 1)
      case None => None
      case Some(p) => Some(Parsed(b[0] - 128 + 128 * p.value, p.used + 1))
  }

  /** One more than the largest number that fits in `limit` bytes. */
  function Capacity(limit: nat): nat {
    if limit == 0 then 0 else if limit == 1 then 2 else 128 * Capacity(limit - 1)
  }

  lemma CapacityOfTen()
    ensures Capacity(10) == TWO_TO_THE_64
  {
  }

  lemma {:induction false} VarintRoundTrip(v: nat, limit: nat, tail: Bytes)
    requires v < Capacity(limit)
    ensures ReadVarint(Varint(v) + tail, limit) == Some(Parsed(v, |Varint(v)|))
    ensures |Varint(v)| <= limit
    decreases limit
  {
    if v >= 128 {
      VarintRoundTrip(v / 128, limit - 1, tail);
      assert (Varint(v) + tail)[1..] == Varint(v / 128) + tail;
    }
  }

  lemma VarintAfter(v: u64, tail: Bytes)
    ensures ReadVarint(Varint(v) + tail, 10) == Some(Parsed(v, |Varint(v)|))
    ensures 1 <= |Varint(v)| <= 10
    ensures (Varint(v) + tail)[|Varint(v)|..] == tail
  {
    CapacityOfTen();
    VarintRoundTrip(v, 10, tail);
  }

  // ---------------------------------------------------------------- fields

  datatype Field =
    | Number(tag: nat, value: nat)
    | Blob(tag: nat, bytes: Bytes)
    | Fixed(tag: nat, bytes: Bytes)
    | Group(tag: nat)

  function WireType(f: Field): nat {
    match f
    case Number(_, _) => 0
    case Blob(_, _) => 2
    case Fixed(_, bytes) => if |bytes| == 8 then 1 else 5
    case Group(_) => 3
  }

  function Payload(f: Field): Bytes {
    match f
    case Number(_, value) => Varint(value)
    case Blob(_, bytes) => Varint(|bytes|) + bytes
    case Fixed(_, bytes) => bytes
    case Group(tag) => Varint(tag * 8 + 4)
  }

  function FieldBytes(f: Field): Bytes {
    Varint(f.tag * 8 + WireType(f)) + Payload(f)
  }

  function FieldsBytes(fs: seq<Field>): Bytes {
    if fs == [] then [] else FieldBytes(fs[0]) + FieldsBytes(fs[1..])
  }

  predicate Encodable(f: Field) {
    && 1 <= f.tag < 0x2000_0000
    && match f
       case Number(_, value) => value < TWO_TO_THE_64
       case Blob(_, bytes) => |bytes| < TWO_TO_THE_64
       case Fixed(_, bytes) => |bytes| == 8 || |bytes| == 4
       case Group(_) => true
  }

  datatype Key = Key(tag: nat, wireType: nat, rest: Bytes)

  function ReadKey(b: Bytes): (r: Option<Key>)
    ensures r.Some? ==> |r.value.rest| < |b| && r.value.tag >= 1
  {
    match ReadVarint(b, 10)
    case None => None
    case Some(key) =>
      if key.value < 8 || key.value >= 0x1_0000_0000 then None
      else Some(Key(key.value / 8, key.value % 8, b[key.used..]))
  }

  datatype Cut = Cut(field: Field, rest: Bytes)

  /** How deep groups may nest in a message. */
  const RECURSION_LIMIT: nat := 100

  /** What follows the key of a field; a group is passed over up to its end. */
  function ReadPayload(tag: nat, wireType: nat, b: Bytes, depth: nat := RECURSION_LIMIT): (r: Option<Cut>)
    ensures r.Some? ==> |r.value.rest| <= |b|
    decreases |b|, 1
  {
    if depth == 0 then None
    else if wireType == 0 then
      match ReadVarint(b, 10)
      case None => None
      case Some(p) => Some(Cut(Number(tag, p.value), b[p.used..]))
    else if wireType == 2 then
      match ReadVarint(b, 10)
      case None => None
      case Some(p) =>
        var b := b[p.used..];
        if p.value <= |b| then Some(Cut(Blob(tag, b[..p.value]), b[p.value..])) else None
    else if wireType == 1 && 8 <= |b| then Some(Cut(Fixed(tag, b[..8]), b[8..]))
    else if wireType == 5 && 4 <= |b| then Some(Cut(Fixed(tag, b[..4]), b[4..]))
    else if wireType == 3 then
      match PastGroup(tag, b, depth - 1)
      case None => None
      case Some(rest) => Some(Cut(Group(tag), rest))
    else None
  }

  /** What is left after the fields of a group and the end that matches it. */
  function PastGroup(tag: nat, b: Bytes, depth: nat): (r: Option<Bytes>)
    ensures r.Some? ==> |r.value| <= |b|
    decreases |b|, 0
  {
    match ReadKey(b)
    case None => None
    case Some(key) =>
      if key.wireType == 4 then if key.tag == tag then Some(key.rest) else None
      else
        match ReadPayload(key.tag, key.wireType, key.rest, depth)
        case None => None
        case Some(cut) => PastGroup(tag, cut.rest, depth)
  }

  /** Splits the first field off a body. */
  function ReadField(b: Bytes): (r: Option<Cut>)
    ensures r.Some? ==> |r.value.rest| < |b|
  {
    match ReadKey(b)
    case None => None
    case Some(key) => ReadPayload(key.tag, key.wireType, key.rest)
  }

  function ReadFields(b: Bytes): Option<seq<Field>>
    decreases |b|
  {
    if b == [] then Some([])
    else
      match ReadField(b)
      case None => None
      case Some(cut) =>
        match ReadFields(cut.rest)
        case None => None
        case Some(fs) => Some([cut.field] + fs)
  }

  lemma PayloadRoundTrip(f: Field, tail: Bytes)
    requires Encodable(f)
    ensures ReadPayload(f.tag, WireType(f), Payload(f) + tail) == Some(Cut(f, tail))
  {
    match f
    case Number(tag, value) =>
      VarintAfter(value, tail);
    case Blob(tag, bytes) =>
      assert Payload(f) + tail == Varint(|bytes|) + (bytes + tail);
      VarintAfter(|bytes|, bytes + tail);
    case Fixed(tag, bytes) =>
    case Group(tag) => KeyRoundTrip(tag, 4, tail);
  }

  lemma KeyRoundTrip(tag: nat, wireType: nat, body: Bytes)
    requires 1 <= tag < 0x2000_0000 && wireType < 8
    ensures ReadKey(Varint(tag * 8 + wireType) + body) == Some(Key(tag, wireType, body))
  {
    var key := tag * 8 + wireType;
    VarintAfter(key, body);
    assert key / 8 == tag && key % 8 == wireType;
  }

  lemma ReadFieldAfterKey(tag: nat, wireType: nat, body: Bytes)
    requires 1 <= tag < 0x2000_0000 && wireType < 8
    ensures ReadField(Varint(tag * 8 + wireType) + body) == ReadPayload(tag, wireType, body)
  {
    KeyRoundTrip(tag, wireType, body);
  }

  lemma FieldRoundTrip(f: Field, tail: Bytes)
    requires Encodable(f)
    ensures ReadField(FieldBytes(f) + tail) == Some(Cut(f, tail))
    ensures FieldBytes(f) != []
  {
    hide Varint, ReadVarint, ReadField, ReadPayload, Payload;
    ReadFieldAfterKey(f.tag, WireType(f), Payload(f) + tail);
    PayloadRoundTrip(f, tail);
    Regroup(Varint(f.tag * 8 + WireType(f)), Payload(f), tail);
  }

  /** Any list of fields survives the encoding. */
  lemma {:induction false} FieldsRoundTrip(fs: seq<Field>)
    requires forall f :: f in fs ==> Encodable(f)
    ensures ReadFields(FieldsBytes(fs)) == Some(fs)
  {
    hide ReadField, FieldBytes;
    if fs != [] {
      FieldRoundTrip(fs[0], FieldsBytes(fs[1..]));
      FieldsRoundTrip(fs[1..]);
      assert [fs[0]] + fs[1..] == fs;
    }
  }

  // ---------------------------------------------------------------- proto3 field access

  /** A zero number and an empty blob are left out of the body. */
  function NumberField(tag: nat, value: nat): seq<Field> {
    if value == 0 then [] else [Number(tag, value)]
  }

  function BlobField(tag: nat, bytes: Bytes): seq<Field> {
    if bytes == [] then [] else [Blob(tag, bytes)]
  }

  /** The last occurrence wins over `sofar`, the value merged until now. None is a wire type mismatch. */
  function GetNumber(fs: seq<Field>, tag: nat, sofar: nat := 0): Option<nat> {
    if fs == [] then Some(sofar)
    else if fs[0].tag != tag then GetNumber(fs[1..], tag, sofar)
    else if fs[0].Number? then GetNumber(fs[1..], tag, fs[0].value)
    else None
  }

  function GetBlob(fs: seq<Field>, tag: nat, sofar: Bytes := []): Option<Bytes> {
    if fs == [] then Some(sofar)
    else if fs[0].tag != tag then GetBlob(fs[1..], tag, sofar)
    else if fs[0].Blob? then GetBlob(fs[1..], tag, fs[0].bytes)
    else None
  }

  /** A string field is a blob field every occurrence of which is UTF-8. */
  function GetText(fs: seq<Field>, tag: nat, sofar: Bytes := []): Option<Bytes> {
    if fs == [] then Some(sofar)
    else if fs[0].tag != tag then GetText(fs[1..], tag, sofar)
    else if fs[0].Blob? && Utf8(fs[0].bytes) then GetText(fs[1..], tag, fs[0].bytes)
    else None
  }

  predicate Tail(b: byte) { 0x80 <= b < 0xC0 }

  /** How many bytes the first character takes, 0 if there is none (section 4 of RFC 3629). */
  function FirstCharacter(b: Bytes): (n: nat)
    requires b != []
    ensures n <= |b|
  {
    var c := b[0];
    if c < 0x80 then 1
    else if |b| < 2 || c < 0xC2 then 0
    else if c < 0xE0 then if Tail(b[1]) then 2 else 0
    else if |b| < 3 || !Tail(b[2]) then 0
    else if c < 0xF0 then
      if Tail(b[1]) && (c == 0xE0 ==> b[1] >= 0xA0) && (c == 0xED ==> b[1] < 0xA0) then 3 else 0
    else if |b| < 4 || !Tail(b[3]) || c > 0xF4 then 0
    else if Tail(b[1]) && (c == 0xF0 ==> b[1] >= 0x90) && (c == 0xF4 ==> b[1] < 0x90) then 4 else 0
  }

  predicate Utf8(b: Bytes)
    decreases |b|
  {
    b == [] || (FirstCharacter(b) > 0 && Utf8(b[FirstCharacter(b)..]))
  }

  lemma PastNumberField(tag: nat, value: nat, rest: seq<Field>)
    ensures GetNumber(NumberField(tag, value) + rest, tag) == GetNumber(rest, tag, value)
    ensures forall t :: t != tag ==> GetNumber(NumberField(tag, value) + rest, t) == GetNumber(rest, t)
    ensures forall t :: t != tag ==> GetBlob(NumberField(tag, value) + rest, t) == GetBlob(rest, t)
    ensures forall t :: t != tag ==> GetText(NumberField(tag, value) + rest, t) == GetText(rest, t)
  {
    var fs := NumberField(tag, value) + rest;
    if value == 0 { assert fs == rest; } else { assert fs[1..] == rest; }
  }

  lemma PastBlobField(tag: nat, bytes: Bytes)
    ensures GetBlob(BlobField(tag, bytes), tag) == Some(bytes)
    ensures Utf8(bytes) ==> GetText(BlobField(tag, bytes), tag) == Some(bytes)
    ensures forall t, n: nat :: t != tag ==> GetNumber(BlobField(tag, bytes), t, n) == Some(n)
  {
  }

  // ---------------------------------------------------------------- the five messages

  datatype Packet = Packet(body: Bytes, messageType: byte)

  function EventFields(ev: FromBehaviour): seq<Field> {
    match ev
    case NewFileSend(name, id, total) => NumberField(1, id) + NumberField(2, total) + BlobField(3, name)
    case AcceptFile(id) => NumberField(1, id)
    case LocalCancelSend(id) => NumberField(1, id)
    case LocalCancelRecv(id) => NumberField(1, id)
    case FileChunk(id, content) => NumberField(1, id) + BlobField(2, content)
  }

  function MessageType(ev: FromBehaviour): byte {
    match ev
    case NewFileSend(_, _, _) => 0
    case AcceptFile(_) => 1
    case LocalCancelSend(_) => 2
    case LocalCancelRecv(_) => 3
    case FileChunk(_, _) => 4
  }

  /** The body and type byte that are put on the stream for an event. */
  function EncodeEvent(ev: FromBehaviour): Packet {
    Packet(FieldsBytes(EventFields(ev)), MessageType(ev))
  }

  /** What the receiving handler makes of the fields of a message; None is a decode error. */
  function Interpret(fs: seq<Field>, messageType: byte): Option<ToBehaviour> {
    match GetNumber(fs, 1)
    case None => None
    case Some(id) =>
      if messageType == 0 then
        match (GetNumber(fs, 2), GetText(fs, 3))
        case (Some(total), Some(name)) => Some(IncomingFile(name, id, total))
        case _ => None
      else if messageType == 1 then Some(FileSendAccepted(id))
      else if messageType == 2 then Some(RemoteCancelRecv(id))
      else if messageType == 3 then Some(RemoteCancelSend(id))
      else
        match GetBlob(fs, 2)
        case Some(content) => Some(RecvProgressed(id, content))
        case None => None
  }

  function DecodePacket(p: Packet): Option<ToBehaviour> {
    if p.messageType > 4 then Some(Failure(Io))
    else
      match ReadFields(p.body)
      case None => None
      case Some(fs) => Interpret(fs, p.messageType)
  }

  /** Ids and lengths are 64 bits wide and names are text, as the source's types have it. */
  predicate FitsWire(ev: FromBehaviour) {
    match ev
    case NewFileSend(name, id, total) => id < TWO_TO_THE_64 && total < TWO_TO_THE_64 && |name| < TWO_TO_THE_64
        && Utf8(name)
    case AcceptFile(id) => id < TWO_TO_THE_64
    case LocalCancelSend(id) => id < TWO_TO_THE_64
    case LocalCancelRecv(id) => id < TWO_TO_THE_64
    case FileChunk(id, content) => id < TWO_TO_THE_64 && |content| < TWO_TO_THE_64
  }

  lemma InterpretEvent(ev: FromBehaviour)
    requires FitsWire(ev)
    ensures Interpret(EventFields(ev), MessageType(ev)) == Some(Mirror(ev))
  {
    if ev.NewFileSend? {
      IncomingFileFields(ev.fileName, ev.localSendId, ev.bytesTotal);
    } else if ev.FileChunk? {
      PastNumberField(1, ev.localSendId, BlobField(2, ev.bytesToSend));
      PastBlobField(2, ev.bytesToSend);
    } else {
      assert EventFields(ev) + [] == EventFields(ev);
      PastNumberField(1, if ev.LocalCancelSend? then ev.localSendId else ev.remoteSendId, []);
    }
  }

  /** Decoding what was encoded gives the mirrored event, zero ids and empty contents included. */
  lemma EventRoundTrip(ev: FromBehaviour)
    requires FitsWire(ev)
    ensures DecodePacket(EncodeEvent(ev)) == Some(Mirror(ev))
  {
    hide FieldsBytes, ReadFields, Interpret, Utf8;
    FieldsRoundTrip(EventFields(ev));
    InterpretEvent(ev);
  }

  lemma IncomingFileFields(name: Bytes, id: nat, total: nat)
    requires Utf8(name)
    ensures var fs := EventFields(NewFileSend(name, id, total));
            && GetNumber(fs, 1) == Some(id)
            && GetNumber(fs, 2) == Some(total)
            && GetText(fs, 3) == Some(name)
  {
    var tail := NumberField(2, total) + BlobField(3, name);
    assert EventFields(NewFileSend(name, id, total)) == NumberField(1, id) + tail;
    PastNumberField(1, id, tail);
    PastNumberField(2, total, BlobField(3, name));
    SecondNumber(total, name, id);
    PastBlobField(3, name);
  }

  lemma SecondNumber(total: nat, name: Bytes, sofar: nat)
    ensures GetNumber(NumberField(2, total) + BlobField(3, name), 1, sofar) == Some(sofar)
  {
    PastBlobField(3, name);
    var fs := NumberField(2, total) + BlobField(3, name);
    if total == 0 { assert fs == BlobField(3, name); } else { assert fs[1..] == BlobField(3, name); }
  }

  // ---------------------------------------------------------------- sizes

  const FILE_CHUNK_SIZE: nat := 0x4_0000

  const RECV_LIMIT: nat := 0x4_0000 + 16

  lemma VarintSize(v: nat)
    ensures v < 0x80 ==> |Varint(v)| == 1
    ensures v < 0x20_0000 ==> |Varint(v)| <= 3
  {
    if v >= 128 && v / 128 >= 128 && v < 0x20_0000 {
      assert v / 128 / 128 < 128;
      assert |Varint(v / 128 / 128)| == 1;
    }
  }

  /** The bytes a number takes with its key, and those that come before a blob's content. */
  function NumberSize(value: nat): nat { if value == 0 then 0 else 1 + |Varint(value)| }

  function BlobSize(bytes: Bytes): nat { if bytes == [] then 0 else 1 + |Varint(|bytes|)| + |bytes| }

  lemma FieldsSize(fs: seq<Field>, gs: seq<Field>)
    requires |fs| <= 1
    ensures |FieldsBytes(fs + gs)| == (if fs == [] then 0 else |FieldBytes(fs[0])|) + |FieldsBytes(gs)|
  {
    if fs == [] { assert fs + gs == gs; } else { assert (fs + gs)[1..] == gs; }
  }

  lemma NumberFieldSize(tag: nat, value: u64, gs: seq<Field>)
    requires 1 <= tag <= 3
    ensures |FieldsBytes(NumberField(tag, value) + gs)| == NumberSize(value) + |FieldsBytes(gs)|
    ensures NumberSize(value) <= 11
  {
    FieldsSize(NumberField(tag, value), gs);
    VarintSize(tag * 8);
    VarintAfter(value, []);
  }

  lemma BlobFieldSize(tag: nat, bytes: Bytes)
    requires 1 <= tag <= 3
    ensures |FieldsBytes(BlobField(tag, bytes))| == BlobSize(bytes)
    ensures |bytes| < 0x20_0000 ==> BlobSize(bytes) <= 4 + |bytes|
  {
    FieldsSize(BlobField(tag, bytes), []);
    assert BlobField(tag, bytes) + [] == BlobField(tag, bytes);
    VarintSize(tag * 8 + 2);
    VarintSize(|bytes|);
  }

  /** Every chunk the sender can produce stays one byte below the receiver's limit. */
  lemma ChunkFitsReceiver(id: u64, content: Bytes)
    requires |content| <= FILE_CHUNK_SIZE
    ensures |EncodeEvent(FileChunk(id, content)).body| <= FILE_CHUNK_SIZE + 15 < RECV_LIMIT
  {
    NumberFieldSize(1, id, BlobField(2, content));
    BlobFieldSize(2, content);
  }

  /** The bound is met by a full chunk under the largest id: exactly one byte of slack. */
  lemma ChunkBoundIsReached(content: Bytes)
    requires |content| == FILE_CHUNK_SIZE
    ensures |EncodeEvent(FileChunk(TWO_TO_THE_64 - 1, content)).body| == RECV_LIMIT - 1
  {
    var number, blob := Number(1, TWO_TO_THE_64 - 1), Blob(2, content);
    FieldsSize([number], [blob]);
    FieldsSize([blob], []);
    assert [blob] + [] == [blob];
    CapacityOfTen();
    LongestVarint(TWO_TO_THE_64 - 1, 10);
    ThreeByteVarint(FILE_CHUNK_SIZE);
  }

  lemma {:induction false} LongestVarint(v: nat, limit: nat)
    requires 2 <= limit && v == Capacity(limit) - 1
    ensures |Varint(v)| == limit
    decreases limit
  {
    if limit == 2 {
      assert Varint(v / 128) == [1];
    } else {
      LongestVarint(v / 128, limit - 1);
    }
  }

  lemma ThreeByteVarint(v: nat)
    requires 0x4000 <= v < 0x20_0000
    ensures |Varint(v)| == 3
  {
    assert 128 <= v / 128 && 1 <= v / 128 / 128 < 128;
    assert |Varint(v / 128 / 128)| == 1;
  }

  /** The longest file name that can be offered under an id for a length. */
  function LongestName(id: u64, total: u64): int { RECV_LIMIT - 4 - NumberSize(id) - NumberSize(total) }

  /** Of the control messages only an offer can be too long, and it is exactly when its file name is. */
  lemma ControlFitsReceiver(ev: FromBehaviour)
    requires FitsWire(ev) && !ev.FileChunk?
    ensures |EncodeEvent(ev).body| <= RECV_LIMIT
            <==> (ev.NewFileSend? ==> |ev.fileName| <= LongestName(ev.localSendId, ev.bytesTotal))
  {
    if ev.NewFileSend? {
      var total, name := NumberField(2, ev.bytesTotal), BlobField(3, ev.fileName);
      assert EventFields(ev) == NumberField(1, ev.localSendId) + (total + name);
      NumberFieldSize(1, ev.localSendId, total + name);
      NumberFieldSize(2, ev.bytesTotal, name);
      BlobFieldSize(3, ev.fileName);
      if 0x4000 <= |ev.fileName| < 0x20_0000 { ThreeByteVarint(|ev.fileName|); }
    } else {
      assert EventFields(ev) + [] == EventFields(ev);
      NumberFieldSize(1, if ev.LocalCancelSend? then ev.localSendId else ev.remoteSendId, []);
    }
  }
}

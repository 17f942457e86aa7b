/** What the decoder accepts: numbers, keys, fields and names, each against what the encoding rules say. */
module BlobDecoding {
  import opened Basics
  import opened BlobEvents
  import opened BlobMessages

  // ---------------------------------------------------------------- varints

  /** The number whose base 128 digits are the low seven bits of each byte, least significant first. */
  function Base128(b: Bytes): nat { if b == [] then 0 else b[0] % 128 + 128 * Base128(b[1..]) }

  /** The first `n` bytes are a varint: each but the last announces another one. */
  ghost predicate IsVarint(b: Bytes, n: nat) {
    1 <= n <= |b| && b[n - 1] < 128 && forall i :: 0 <= i < n - 1 ==> b[i] >= 128
  }

  lemma RestOfVarint(b: Bytes, n: nat)
    requires 2 <= n <= |b| && b[0] >= 128
    ensures IsVarint(b, n) <==> IsVarint(b[1..], n - 1)
    ensures Base128(b[..n]) == b[0] - 128 + 128 * Base128(b[1..][..n - 1])
  {
    assert b[..n][1..] == b[1..][..n - 1];
    if IsVarint(b[1..], n - 1) {
      forall i | 0 <= i < n - 1 ensures b[i] >= 128 {
        if i > 0 { assert b[1..][i - 1] >= 128; }
      }
    }
    if IsVarint(b, n) {
      forall i | 0 <= i < n - 2 ensures b[1..][i] >= 128 { assert b[i + 1] >= 128; }
    }
  }

  lemma {:induction false} CapacityIsPositive(limit: nat)
    requires limit > 0
    ensures Capacity(limit) >= 2
  {
    if limit > 1 { CapacityIsPositive(limit - 1); }
  }

  lemma {:induction false} ReadIsVarint(b: Bytes, limit: nat)
    ensures match ReadVarint(b, limit)
            case None => true
            case Some(p) =>
              p.used <= limit && IsVarint(b, p.used) && p.value == Base128(b[..p.used]) && p.value < Capacity(limit)
    decreases limit
  {
    if limit > 0 && b != [] {
      if b[0] < 128 {
        assert b[..1][1..] == [] && Base128([]) == 0;
        if limit > 1 { CapacityIsPositive(limit - 1); }
      } else {
        ReadIsVarint(b[1..], limit - 1);
        var r := ReadVarint(b, limit);
        if r.Some? { RestOfVarint(b, r.value.used); }
      }
    }
  }

  lemma {:induction false} VarintIsRead(b: Bytes, limit: nat, n: nat)
    requires n <= limit && IsVarint(b, n) && Base128(b[..n]) < Capacity(limit)
    ensures ReadVarint(b, limit) == Some(Parsed(Base128(b[..n]), n))
    decreases limit
  {
    if n == 1 {
      assert b[..1][1..] == [] && Base128([]) == 0;
    } else {
      assert b[0] >= 128;
      RestOfVarint(b, n);
      VarintIsRead(b[1..], limit - 1, n - 1);
    }
  }

  /** A number is read if and only if a varint of at most ten bytes that says a 64-bit number is there, and
      it is that number; an overlong form is as good as any. */
  lemma NumberIsReadWhen(b: Bytes, v: nat, n: nat)
    ensures ReadVarint(b, 10) == Some(Parsed(v, n))
        <==> n <= 10 && IsVarint(b, n) && v == Base128(b[..n]) && v < TWO_TO_THE_64
  {
    hide ReadVarint, Base128;
    CapacityOfTen();
    ReadIsVarint(b, 10);
    if n <= 10 && IsVarint(b, n) && v == Base128(b[..n]) && v < TWO_TO_THE_64 { VarintIsRead(b, 10, n); }
  }

  /** A key is read if and only if its number names a field from 1 to 2^29 - 1 and fits in 32 bits. */
  lemma KeyIsReadWhen(b: Bytes, tag: nat, wireType: nat, rest: Bytes)
    ensures ReadKey(b) == Some(Key(tag, wireType, rest))
        <==> && 1 <= tag < 0x2000_0000 && wireType < 8
             && exists n: nat :: n <= 10 && IsVarint(b, n) && Base128(b[..n]) == tag * 8 + wireType && rest == b[n..]
  {
    hide ReadVarint, Base128;
    var r := ReadVarint(b, 10);
    if r.Some? { NumberIsReadWhen(b, r.value.value, r.value.used); }
    if n: nat :| n <= 10 && IsVarint(b, n) && Base128(b[..n]) == tag * 8 + wireType && rest == b[n..] {
      if 1 <= tag < 0x2000_0000 && wireType < 8 {
        NumberIsReadWhen(b, tag * 8 + wireType, n);
        assert (tag * 8 + wireType) / 8 == tag && (tag * 8 + wireType) % 8 == wireType;
      }
    }
  }

  // ---------------------------------------------------------------- fields

  ghost predicate LastOf(fs: seq<Field>, tag: nat, i: nat) {
    i < |fs| && fs[i].tag == tag && forall j :: i < j < |fs| ==> fs[j].tag != tag
  }

  /** What an optional field of a message comes to: its last occurrence, or what it was before. */
  lemma {:induction false} LastNumberCounts(fs: seq<Field>, tag: nat, sofar: nat)
    ensures GetNumber(fs, tag, sofar).Some? <==> forall f :: f in fs && f.tag == tag ==> f.Number?
    ensures GetNumber(fs, tag, sofar).Some? ==>
              && (forall i: nat :: LastOf(fs, tag, i) ==> GetNumber(fs, tag, sofar).value == fs[i].value)
              && ((forall f :: f in fs ==> f.tag != tag) ==> GetNumber(fs, tag, sofar).value == sofar)
  {
    if fs != [] {
      LastNumberCounts(fs[1..], tag, if fs[0].tag == tag && fs[0].Number? then fs[0].value else sofar);
      LastAmongRest(fs, tag);
    }
  }

  /** The same for blobs, and for text, which is a blob that is UTF-8 each time it occurs. */
  lemma {:induction false} LastBlobCounts(fs: seq<Field>, tag: nat, sofar: Bytes)
    ensures GetBlob(fs, tag, sofar).Some? <==> forall f :: f in fs && f.tag == tag ==> f.Blob?
    ensures GetBlob(fs, tag, sofar).Some? ==>
              && (forall i: nat :: LastOf(fs, tag, i) ==> GetBlob(fs, tag, sofar).value == fs[i].bytes)
              && ((forall f :: f in fs ==> f.tag != tag) ==> GetBlob(fs, tag, sofar).value == sofar)
  {
    if fs != [] {
      LastBlobCounts(fs[1..], tag, if fs[0].tag == tag && fs[0].Blob? then fs[0].bytes else sofar);
      LastAmongRest(fs, tag);
    }
  }

  lemma {:induction false} LastTextCounts(fs: seq<Field>, tag: nat, sofar: Bytes)
    ensures GetText(fs, tag, sofar).Some? <==> forall f :: f in fs && f.tag == tag ==> f.Blob? && Utf8(f.bytes)
    ensures GetText(fs, tag, sofar).Some? ==>
              && (forall i: nat :: LastOf(fs, tag, i) ==> GetText(fs, tag, sofar).value == fs[i].bytes)
              && ((forall f :: f in fs ==> f.tag != tag) ==> GetText(fs, tag, sofar).value == sofar)
  {
    hide Utf8;
    if fs != [] {
      LastTextCounts(fs[1..], tag, if fs[0].tag == tag && fs[0].Blob? then fs[0].bytes else sofar);
      LastAmongRest(fs, tag);
    }
  }

  lemma LastAmongRest(fs: seq<Field>, tag: nat)
    requires fs != []
    ensures forall i: nat :: LastOf(fs, tag, i) && i > 0 ==> LastOf(fs[1..], tag, i - 1)
    ensures LastOf(fs, tag, 0) <==> fs[0].tag == tag && forall f :: f in fs[1..] ==> f.tag != tag
    ensures forall f :: f in fs <==> f == fs[0] || f in fs[1..]
  {
    assert fs == [fs[0]] + fs[1..];
    forall i: nat | LastOf(fs, tag, i) && i > 0 ensures LastOf(fs[1..], tag, i - 1) {
      assert forall j :: i - 1 < j < |fs[1..]| ==> fs[1..][j] == fs[j + 1];
    }
    if LastOf(fs, tag, 0) {
      forall f | f in fs[1..] ensures f.tag != tag {
        var j :| 0 <= j < |fs[1..]| && fs[1..][j] == f;
        assert fs[j + 1].tag != tag;
      }
    }
  }

  /** A message is understood if and only if each field that its type has is of the right kind whenever it
      occurs, and names are text; it then says the last of each. Fields that its type does not have are
      passed over, and a type that there is not is an error whatever the body. */
  lemma MessageIsUnderstoodWhen(p: Packet)
    ensures p.messageType > 4 ==> DecodePacket(p) == Some(Failure(Io))
    ensures p.messageType <= 4 ==>
              var fs := ReadFields(p.body);
              DecodePacket(p).Some? <==> fs.Some? && WellTyped(fs.value, p.messageType)
    ensures p.messageType <= 4 && DecodePacket(p).Some? ==>
              var fs := ReadFields(p.body).value;
              var id := GetNumber(fs, 1).value;
              DecodePacket(p).value ==
                if p.messageType == 0 then IncomingFile(GetText(fs, 3).value, id, GetNumber(fs, 2).value)
                else if p.messageType == 1 then FileSendAccepted(id)
                else if p.messageType == 2 then RemoteCancelRecv(id)
                else if p.messageType == 3 then RemoteCancelSend(id)
                else RecvProgressed(id, GetBlob(fs, 2).value)
  {
    hide ReadFields, GetNumber, GetBlob, GetText;
    if p.messageType <= 4 && ReadFields(p.body).Some? {
      var fs := ReadFields(p.body).value;
      LastNumberCounts(fs, 1, 0);
      LastNumberCounts(fs, 2, 0);
      LastBlobCounts(fs, 2, []);
      LastTextCounts(fs, 3, []);
    }
  }

  ghost predicate WellTyped(fs: seq<Field>, messageType: byte) {
    && (forall f :: f in fs && f.tag == 1 ==> f.Number?)
    && (messageType == 0 ==> forall f :: f in fs && f.tag == 2 ==> f.Number?)
    && (messageType == 0 ==> forall f :: f in fs && f.tag == 3 ==> f.Blob? && Utf8(f.bytes))
    && (messageType == 4 ==> forall f :: f in fs && f.tag == 2 ==> f.Blob?)
  }

  /** A number under a key, left out when it is 0, and bytes under one, left out when there are none. */
  function NumberUnder(key: byte, value: nat): Bytes { if value == 0 then [] else [key] + Varint(value) }

  function BytesUnder(key: byte, bytes: Bytes): Bytes {
    if bytes == [] then [] else [key] + (Varint(|bytes|) + bytes)
  }

  /** The type and the body of every message. */
  lemma MessagesOnTheWire(id: nat, total: nat, bytes: Bytes)
    ensures EncodeEvent(NewFileSend(bytes, id, total))
        == Packet(NumberUnder(0x08, id) + NumberUnder(0x10, total) + BytesUnder(0x1A, bytes), 0)
    ensures EncodeEvent(AcceptFile(id)) == Packet(NumberUnder(0x08, id), 1)
    ensures EncodeEvent(LocalCancelSend(id)) == Packet(NumberUnder(0x08, id), 2)
    ensures EncodeEvent(LocalCancelRecv(id)) == Packet(NumberUnder(0x08, id), 3)
    ensures EncodeEvent(FileChunk(id, bytes)) == Packet(NumberUnder(0x08, id) + BytesUnder(0x12, bytes), 4)
  {
    hide FieldsBytes, NumberField, BlobField, NumberUnder, BytesUnder;
    var number, length, name := NumberField(1, id), NumberField(2, total), BlobField(3, bytes);
    NumberOnTheWire(1, id, []);
    NumberOnTheWire(1, id, BlobField(2, bytes));
    NumberOnTheWire(1, id, length + name);
    NumberOnTheWire(2, total, name);
    BytesOnTheWire(2, bytes);
    BytesOnTheWire(3, bytes);
    Regroup(number, length, name);
    Regroup(NumberUnder(0x08, id), NumberUnder(0x10, total), BytesUnder(0x1A, bytes));
    assert number + [] == number && NumberUnder(0x08, id) + [] == NumberUnder(0x08, id);
    NoFieldsNoBytes();
  }

  lemma NoFieldsNoBytes()
    ensures FieldsBytes([]) == []
  {
  }

  lemma NumberOnTheWire(tag: nat, value: nat, more: seq<Field>)
    requires 1 <= tag <= 3
    ensures FieldsBytes(NumberField(tag, value) + more) == NumberUnder(tag * 8, value) + FieldsBytes(more)
  {
    if value == 0 {
      assert [] + more == more && [] + FieldsBytes(more) == FieldsBytes(more);
    } else {
      assert (NumberField(tag, value) + more)[1..] == more;
      assert Varint(tag * 8) == [tag * 8];
    }
  }

  lemma BytesOnTheWire(tag: nat, bytes: Bytes)
    requires 1 <= tag <= 3
    ensures FieldsBytes(BlobField(tag, bytes)) == BytesUnder(tag * 8 + 2, bytes)
  {
    if bytes != [] {
      assert BlobField(tag, bytes)[1..] == [];
      assert Varint(tag * 8 + 2) == [tag * 8 + 2];
    }
  }

  /** A number takes the fewest bytes that say it. */
  lemma {:induction false} VarintIsShortest(v: nat)
    ensures IsVarint(Varint(v), |Varint(v)|) && Base128(Varint(v)) == v
    ensures |Varint(v)| > 1 ==> Varint(v)[|Varint(v)| - 1] != 0
  {
    if v >= 128 {
      VarintIsShortest(v / 128);
      var rest := Varint(v / 128);
      assert Varint(v)[1..] == rest;
      forall i | 0 <= i < |Varint(v)| - 1 ensures Varint(v)[i] >= 128 {
        if i > 0 { assert rest[i - 1] >= 128; }
      }
    }
  }

  // ---------------------------------------------------------------- groups

  /** A field or a group of nodes. */
  datatype Node = Plain(field: Field) | Nested(tag: nat, inner: seq<Node>)

  predicate Writable(node: Node) {
    match node
    case Plain(f) => Encodable(f) && !f.Group?
    case Nested(tag, inner) => 1 <= tag < 0x2000_0000 && forall n :: n in inner ==> Writable(n)
  }

  function TagOf(node: Node): nat { match node case Plain(f) => f.tag case Nested(tag, _) => tag }

  function WireTypeOf(node: Node): nat { match node case Plain(f) => WireType(f) case Nested(_, _) => 3 }

  /** A group is its fields and an end key with its number. */
  function ContentOf(node: Node): Bytes
    decreases node, 0
  {
    match node
    case Plain(f) => Payload(f)
    case Nested(tag, inner) => NodesBytes(inner) + Varint(tag * 8 + 4)
  }

  function NodeBytes(node: Node): Bytes
    decreases node, 1
  {
    Varint(TagOf(node) * 8 + WireTypeOf(node)) + ContentOf(node)
  }

  function NodesBytes(nodes: seq<Node>): Bytes
    decreases nodes
  {
    if nodes == [] then [] else NodeBytes(nodes[0]) + NodesBytes(nodes[1..])
  }

  /** How deep groups are nested in a node; a plain field is one deep. */
  function Height(node: Node): nat {
    match node
    case Plain(_) => 1
    case Nested(_, inner) => 1 + Tallest(inner)
  }

  function Tallest(nodes: seq<Node>): nat {
    if nodes == [] then 0
    else
      var rest := Tallest(nodes[1..]);
      if Height(nodes[0]) > rest then Height(nodes[0]) else rest
  }

  /** What is left of a node for the fields of a message. */
  function Seen(node: Node): Field { match node case Plain(f) => f case Nested(tag, _) => Group(tag) }

  lemma PlainIsRead(f: Field, tail: Bytes, depth: nat)
    requires Encodable(f) && !f.Group? && depth > 0
    ensures ReadPayload(f.tag, WireType(f), Payload(f) + tail, depth) == Some(Cut(f, tail))
  {
    PayloadRoundTrip(f, tail);
  }

  lemma NodeKey(node: Node, tail: Bytes)
    requires Writable(node)
    ensures ReadKey(NodeBytes(node) + tail) == Some(Key(TagOf(node), WireTypeOf(node), ContentOf(node) + tail))
    ensures WireTypeOf(node) != 4
  {
    hide Varint, ReadKey, ContentOf;
    KeyRoundTrip(TagOf(node), WireTypeOf(node), ContentOf(node) + tail);
    Regroup(Varint(TagOf(node) * 8 + WireTypeOf(node)), ContentOf(node), tail);
  }

  lemma {:induction false} NodeIsRead(node: Node, tail: Bytes, depth: nat)
    requires Writable(node)
    ensures ReadPayload(TagOf(node), WireTypeOf(node), ContentOf(node) + tail, depth)
        == if Height(node) <= depth then Some(Cut(Seen(node), tail)) else None
    decreases node, 1
  {
    hide Varint, ReadVarint, ReadKey, PastGroup, Payload, NodesBytes;
    if depth == 0 {
      NothingIsRead(TagOf(node), WireTypeOf(node), ContentOf(node) + tail);
    } else if node.Plain? {
      PlainIsRead(node.field, tail, depth);
    } else {
      GroupIsPassed(node.tag, node.inner, tail, depth - 1);
      Regroup(NodesBytes(node.inner), Varint(node.tag * 8 + 4), tail);
    }
  }

  lemma NothingIsRead(tag: nat, wireType: nat, b: Bytes)
    ensures ReadPayload(tag, wireType, b, 0).None?
  {
  }

  lemma {:induction false} GroupIsPassed(tag: nat, nodes: seq<Node>, tail: Bytes, depth: nat)
    requires 1 <= tag < 0x2000_0000 && forall n :: n in nodes ==> Writable(n)
    ensures PastGroup(tag, NodesBytes(nodes) + (Varint(tag * 8 + 4) + tail), depth)
        == if Tallest(nodes) <= depth then Some(tail) else None
    decreases nodes, 0
  {
    hide Varint, ReadKey, ReadPayload, NodeBytes;
    var end := Varint(tag * 8 + 4) + tail;
    if nodes == [] {
      KeyRoundTrip(tag, 4, tail);
      assert [] + end == end;
    } else {
      var rest := NodesBytes(nodes[1..]) + end;
      Regroup(NodeBytes(nodes[0]), NodesBytes(nodes[1..]), end);
      NodeKey(nodes[0], rest);
      NodeIsRead(nodes[0], rest, depth);
      GroupIsPassed(tag, nodes[1..], tail, depth);
    }
  }

  function AllSeen(nodes: seq<Node>): seq<Field> {
    if nodes == [] then [] else [Seen(nodes[0])] + AllSeen(nodes[1..])
  }

  /** A body with groups in it is read if and only if no group is nested deeper than the limit; then its plain
      fields are read as they are and each group is passed over as one. */
  lemma {:induction false} NodesRoundTrip(nodes: seq<Node>)
    requires forall n :: n in nodes ==> Writable(n)
    ensures ReadFields(NodesBytes(nodes)) == if Tallest(nodes) <= RECURSION_LIMIT then Some(AllSeen(nodes)) else None
  {
    hide Varint, ReadKey, ReadPayload, ContentOf;
    if nodes != [] {
      var rest := NodesBytes(nodes[1..]);
      NodeKey(nodes[0], rest);
      NodeIsRead(nodes[0], rest, RECURSION_LIMIT);
      NodesRoundTrip(nodes[1..]);
      assert NodeBytes(nodes[0]) != [];
    }
  }
}

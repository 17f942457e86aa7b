/** Blob framing: eight big-endian length bytes whose top byte carries the message type, the body,
    and a digest of the body sent back before the next frame. */
module BlobFraming {
  import opened Basics
  import opened BlobMessages

  type Digest = d: Bytes | |d| == 16 witness seq(16, _ => 0)

  // ---------------------------------------------------------------- big-endian numbers

  function Power256(k: nat): nat {
    if k == 0 then 1 else 256 * Power256(k - 1)
  }

  /** The `k` low bytes of `n`, most significant first. */
  function BigEndian(n: nat, k: nat): (b: Bytes)
    ensures |b| == k
  {
    if k == 0 then [] else BigEndian(n / 256, k - 1) + [n % 256]
  }

  function FromBigEndian(b: Bytes): nat {
    if b == [] then 0 else 256 * FromBigEndian(b[..|b| - 1]) + b[|b| - 1]
  }

  lemma {:induction false} BigEndianRoundTrip(n: nat, k: nat)
    requires n < Power256(k)
    ensures FromBigEndian(BigEndian(n, k)) == n
  {
    if k > 0 {
      BigEndianRoundTrip(n / 256, k - 1);
      assert BigEndian(n, k)[..k - 1] == BigEndian(n / 256, k - 1);
    }
  }

  /** Dropping the top byte of `k + 1` leaves the `k` low bytes. */
  lemma {:induction false} TopByte(n: nat, k: nat)
    ensures BigEndian(n, k + 1)[1..] == BigEndian(n, k)
    ensures n < Power256(k) ==> BigEndian(n, k + 1)[0] == 0
    decreases k
  {
    if k > 0 {
      TopByte(n / 256, k - 1);
      assert BigEndian(n, k + 1)[1..] == BigEndian(n / 256, k)[1..] + [n % 256];
    }
  }

  lemma {:induction false} LeadingZero(b: Bytes)
    requires b != [] && b[0] == 0
    ensures FromBigEndian(b) == FromBigEndian(b[1..])
    decreases |b|
  {
    if |b| > 1 {
      var front := b[..|b| - 1];
      LeadingZero(front);
      assert b[1..][..|b| - 2] == front[1..];
    } else {
      assert b[..0] == [];
    }
  }

  lemma {:induction false} FromBigEndianBound(b: Bytes)
    ensures FromBigEndian(b) < Power256(|b|)
  {
    if b != [] {
      FromBigEndianBound(b[..|b| - 1]);
    }
  }

  // ---------------------------------------------------------------- frames

  function Header(length: nat, messageType: byte): Bytes {
    BigEndian(length, 8)[0 := messageType]
  }

  function FrameBytes(p: Packet): Bytes {
    Header(|p.body|, p.messageType) + p.body
  }

  function FramesBytes(ps: seq<Packet>): Bytes {
    if ps == [] then [] else FrameBytes(ps[0]) + FramesBytes(ps[1..])
  }

  datatype StreamError = UnexpectedEof | TooLong | Incomplete | VerifierMismatch

  datatype FrameCut = FrameCut(packet: Packet, rest: Bytes)

  function AnnouncedLength(header: Bytes): nat
    requires |header| == 8
  {
    FromBigEndian(header[0 := 0])
  }

  /** The first frame of a stream, or why there is none. */
  function ReadFrame(b: Bytes): (r: Result<FrameCut, StreamError>)
    ensures r.Ok? ==> |r.value.rest| < |b|
  {
    if |b| < 8 then Err(UnexpectedEof)
    else
      var length := AnnouncedLength(b[..8]);
      if length > RECV_LIMIT then Err(TooLong)
      else if |b| < 8 + length then Err(Incomplete)
      else Ok(FrameCut(Packet(b[8..8 + length], b[0]), b[8 + length..]))
  }

  function ReadFrames(b: Bytes): Result<seq<Packet>, StreamError>
    decreases |b|
  {
    if b == [] then Ok([])
    else
      match ReadFrame(b)
      case Err(e) => Err(e)
      case Ok(cut) =>
        match ReadFrames(cut.rest)
        case Err(e) => Err(e)
        case Ok(ps) => Ok([cut.packet] + ps)
  }

  /** Storing the type in the top byte loses nothing exactly while the length is below 2^56. */
  lemma HeaderKeepsLength(length: nat, messageType: byte)
    ensures AnnouncedLength(Header(length, messageType)) == length <==> length < 0x100_0000_0000_0000
  {
    assert Power256(3) == 256 * Power256(2);
    assert Power256(5) == 256 * Power256(4);
    assert Power256(7) == 256 * Power256(6) == 0x100_0000_0000_0000;
    var b := Header(length, messageType)[0 := 0];
    LeadingZero(b);
    TopByte(length, 7);
    assert b[1..] == BigEndian(length, 7);
    if length < Power256(7) {
      BigEndianRoundTrip(length, 7);
    } else {
      FromBigEndianBound(b[1..]);
    }
  }

  lemma FrameRoundTrip(p: Packet, tail: Bytes)
    requires |p.body| <= RECV_LIMIT
    ensures ReadFrame(FrameBytes(p) + tail) == Ok(FrameCut(p, tail))
  {
    HeaderKeepsLength(|p.body|, p.messageType);
    var b := FrameBytes(p) + tail;
    assert b[..8] == Header(|p.body|, p.messageType);
    assert b[8..8 + |p.body|] == p.body;
  }

  /** Frames written back to back are read back as the same list, empty bodies included. */
  lemma {:induction false} FramesRoundTrip(ps: seq<Packet>)
    requires forall p :: p in ps ==> |p.body| <= RECV_LIMIT
    ensures ReadFrames(FramesBytes(ps)) == Ok(ps)
  {
    if ps != [] {
      FrameRoundTrip(ps[0], FramesBytes(ps[1..]));
      FramesRoundTrip(ps[1..]);
      assert [ps[0]] + ps[1..] == ps;
    }
  }

  /** A body over the limit is refused, whatever follows it. */
  lemma OversizeRefused(p: Packet, tail: Bytes)
    requires RECV_LIMIT < |p.body| < 0x100_0000_0000_0000
    ensures ReadFrame(FrameBytes(p) + tail) == Err(TooLong)
  {
    HeaderKeepsLength(|p.body|, p.messageType);
    assert (FrameBytes(p) + tail)[..8] == Header(|p.body|, p.messageType);
  }

  /** A frame that breaks off is never taken for a shorter one. */
  lemma BrokenOffFrame(p: Packet, i: nat)
    requires |p.body| <= RECV_LIMIT && i < |FrameBytes(p)|
    ensures ReadFrame(FrameBytes(p)[..i]) == Err(if i < 8 then UnexpectedEof else Incomplete)
  {
    hide AnnouncedLength, Header;
    HeaderKeepsLength(|p.body|, p.messageType);
    var header := Header(|p.body|, p.messageType);
    assert |header| == 8 by { HeaderLength(|p.body|, p.messageType); }
    if i >= 8 { assert FrameBytes(p)[..i][..8] == header; }
  }

  lemma HeaderLength(length: nat, messageType: byte)
    ensures |Header(length, messageType)| == 8
  {
  }

  // ---------------------------------------------------------------- the two ends of a substream

  /** A substream: bytes on the way to the receiver, and bytes on the way back. */
  class Substream {
    var up: Bytes
    var down: Bytes
    const digest: Bytes -> Digest

    constructor (digest: Bytes -> Digest)
      ensures up == [] && down == [] && this.digest == digest
    {
      this.up, this.down, this.digest := [], [], digest;
    }

    /** The first half of a send: header and body are written. */
    method StartSend(p: Packet)
      modifies this`up
      ensures up == old(up) + FrameBytes(p)
    {
      var header := BigEndian(|p.body|, 8);
      header := header[0 := p.messageType];
      up := up + header;
      up := up + p.body;
    }

    /** The second half of a send: the verifier is awaited and compared. */
    method FinishSend(body: Bytes) returns (r: Result<(), StreamError>)
      modifies this`down
      ensures |old(down)| < 16 ==> r == Err(UnexpectedEof)
      ensures |old(down)| >= 16 ==>
                && down == old(down)[16..]
                && r == (if old(down)[..16] == digest(body) then Ok(()) else Err(VerifierMismatch))
    {
      if |down| < 16 {
        return Err(UnexpectedEof);
      }
      var verifier := down[..16];
      down := down[16..];
      r := if verifier == digest(body) then Ok(()) else Err(VerifierMismatch);
    }

    /** Any non-empty run of the bytes that are there, as far as the buffer has room. */
    method Read(buf: array<byte>, cursor: nat) returns (n: nat)
      requires cursor < buf.Length && up != []
      modifies this`up, buf
      ensures 1 <= n <= |old(up)| && cursor + n <= buf.Length
      ensures up == old(up)[n..]
      ensures buf[..cursor] == old(buf[..cursor])
      ensures buf[cursor..cursor + n] == old(up)[..n]
    {
      n :| 1 <= n <= |up| && cursor + n <= buf.Length;
      forall i | 0 <= i < n {
        buf[cursor + i] := up[i];
      }
      up := up[n..];
    }

    /** Fills `buf` and answers with its digest. When the bytes do not all come, the source's loop never
        leaves: it waits while the stream is open and spins on empty reads once it has ended. Here it
        gives up instead, having answered nothing. */
    method CursorRead(buf: array<byte>) returns (filled: bool)
      modifies this, buf
      ensures filled <==> buf.Length <= |old(up)|
      ensures filled ==>
                && buf[..] == old(up)[..buf.Length] && up == old(up)[buf.Length..]
                && down == old(down) + digest(old(up)[..buf.Length])
      ensures !filled ==> buf[..|old(up)|] == old(up) && up == [] && down == old(down)
    {
      var cursor := 0;
      while cursor < buf.Length
        invariant cursor <= buf.Length && cursor <= |old(up)|
        invariant up == old(up)[cursor..]
        invariant buf[..cursor] == old(up)[..cursor]
        invariant down == old(down)
        decreases buf.Length - cursor
      {
        if up == [] {
          return false;
        }
        var n := Read(buf, cursor);
        assert buf[..cursor + n] == buf[..cursor] + buf[cursor..cursor + n];
        cursor := cursor + n;
      }
      assert buf[..cursor] == buf[..];
      down := down + digest(buf[..cursor]);
      filled := true;
    }

    /** One receive: exactly the first frame, or why there is none. Incomplete is the source's loop that
        never leaves. */
    method Recv() returns (r: Result<Packet, StreamError>)
      modifies this
      ensures match ReadFrame(old(up))
              case Err(e) => r == Err(e) && down == old(down)
              case Ok(cut) => r == Ok(cut.packet) && up == cut.rest && down == old(down) + digest(cut.packet.body)
    {
      if |up| < 8 {
        return Err(UnexpectedEof);
      }
      var header := up[..8];
      up := up[8..];
      var messageType := header[0];
      header := header[0 := 0];
      var bytesToRead := FromBigEndian(header);
      if bytesToRead > RECV_LIMIT {
        return Err(TooLong);
      }
      var buf := new byte[bytesToRead](_ => 0);
      var filled := CursorRead(buf);
      if !filled {
        return Err(Incomplete);
      }
      assert buf[..] == old(up)[8..8 + bytesToRead];
      assert up == old(up)[8 + bytesToRead..];
      r := Ok(Packet(buf[..], messageType));
    }
  }

  /** A whole session on one substream: every send succeeds and the receiver gets exactly the list,
      whatever fragments its reads see. */
  method Session(stream: Substream, packets: seq<Packet>) returns (received: seq<Packet>, succeeded: nat)
    requires stream.up == [] && stream.down == []
    requires forall p :: p in packets ==> |p.body| <= RECV_LIMIT
    modifies stream
    ensures received == packets && succeeded == |packets|
    ensures stream.up == [] && stream.down == []
  {
    received, succeeded := [], 0;
    for i := 0 to |packets|
      invariant stream.up == [] && stream.down == []
      invariant received == packets[..i] && succeeded == i
    {
      var p := packets[i];
      stream.StartSend(p);
      assert stream.up == FrameBytes(p) + [];
      FrameRoundTrip(p, []);
      var got := stream.Recv();
      received := received + [got.value];
      assert stream.down == stream.digest(p.body);
      var sent := stream.FinishSend(p.body);
      if sent.Ok? {
        succeeded := succeeded + 1;
      }
    }
  }
}

/** The universal send and receive used by messaging and advertise: eight big-endian length bytes, the
    body, and a digest sent back. The receiver reads up to 2048 bytes at a time and does not clip a
    read to the announced length. */
module Universal {
  import opened Basics
  import opened BlobFraming

  const READ_SIZE: nat := 2048

  const SIZE_LIMIT: nat := 129 * 1024

  function FrameOf(body: Bytes): Bytes { BigEndian(|body|, 8) + body }

  predicate Refused(length: nat) { length / 1024 > 128 }

  lemma LengthRoundTrip(body: Bytes)
    requires |body| < TWO_TO_THE_64
    ensures FromBigEndian(BigEndian(|body|, 8)) == |body|
  {
    assert Power256(3) == 256 * Power256(2);
    assert Power256(5) == 256 * Power256(4);
    assert Power256(7) == 256 * Power256(6);
    assert Power256(8) == 256 * Power256(7) == TWO_TO_THE_64;
    BigEndianRoundTrip(|body|, 8);
  }

  // ---------------------------------------------------------------- the read loop

  function ReadSize(wish: nat, available: nat): (n: nat)
    requires available > 0
    ensures 1 <= n <= available && n <= READ_SIZE
  {
    var most := if available < READ_SIZE then available else READ_SIZE;
    if wish < 1 then 1 else if wish > most then most else wish
  }

  datatype Read = Read(body: Bytes, rest: Bytes)

  /** The loop after the header, with `available` everything the sender has written since; `wishes` are
      the sizes of the reads, as far as they are possible. None: it waits for more. */
  function ReadLoop(available: Bytes, want: nat, got: Bytes, wishes: seq<nat>): (r: Option<Read>)
    ensures r.Some? ==> r.value.body + r.value.rest == got + available && |r.value.body| >= want && got < r.value.body
    decreases |available|
  {
    if available == [] then None
    else
      var n := ReadSize(if wishes == [] then READ_SIZE else wishes[0], |available|);
      var got' := got + available[..n];
      if |got'| >= want then Some(Read(got', available[n..]))
      else ReadLoop(available[n..], want, got', if wishes == [] then [] else wishes[1..])
  }

  /** Reads of the sizes in `wishes` have got the loop to `got`, with `rest` left. */
  ghost predicate Reached(all: Bytes, want: nat, wishes: seq<nat>, rest: Bytes, got: Bytes) {
    forall later: seq<nat> {:trigger ReadLoop(rest, want, got, later)} ::
      ReadLoop(all, want, [], wishes + later) == ReadLoop(rest, want, got, later)
  }

  lemma ReachedFirst(all: Bytes, want: nat)
    ensures Reached(all, want, [], all, [])
  {
    forall later: seq<nat> ensures ReadLoop(all, want, [], [] + later) == ReadLoop(all, want, [], later)
    {
      assert [] + later == later;
    }
  }

  /** A read of `bytes` is one turn of the loop. */
  lemma ReachedNext(all: Bytes, want: nat, wishes: seq<nat>, rest: Bytes, got: Bytes, bytes: Bytes, rest': Bytes)
    requires Reached(all, want, wishes, rest, got)
    requires bytes != [] && |bytes| <= READ_SIZE && bytes + rest' == rest
    ensures |got + bytes| < want ==> Reached(all, want, wishes + [|bytes|], rest', got + bytes)
    ensures |got + bytes| >= want ==> ReadLoop(all, want, [], wishes + [|bytes|]) == Some(Read(got + bytes, rest'))
  {
    forall later: seq<nat> ensures ReadLoop(all, want, [], (wishes + [|bytes|]) + later)
      == if |got + bytes| >= want then Some(Read(got + bytes, rest')) else ReadLoop(rest', want, got + bytes, later)
    {
      Regroup(wishes, [|bytes|], later);
      OneRead(rest, want, got, bytes, later);
      assert rest[|bytes|..] == rest';
    }
    assert (wishes + [|bytes|]) + [] == wishes + [|bytes|];
  }

  lemma OneRead(available: Bytes, want: nat, got: Bytes, bytes: Bytes, later: seq<nat>)
    requires bytes != [] && |bytes| <= READ_SIZE && bytes <= available
    ensures var rest := available[|bytes|..];
            ReadLoop(available, want, got, [|bytes|] + later)
            == if |got + bytes| >= want then Some(Read(got + bytes, rest)) else ReadLoop(rest, want, got + bytes, later)
  {
    assert ([|bytes|] + later)[1..] == later && available[..|bytes|] == bytes;
  }

  lemma ReachedNothing(all: Bytes, want: nat, wishes: seq<nat>, got: Bytes)
    requires Reached(all, want, wishes, [], got)
    ensures ReadLoop(all, want, [], wishes).None?
  {
    assert ReadLoop([], want, got, []).None?;
    assert wishes + [] == wishes;
  }

  /** When the body and nothing else is there, every fragmentation gives exactly the body. */
  lemma {:induction false} NothingBeyond(available: Bytes, want: nat, got: Bytes, wishes: seq<nat>)
    requires available != [] && |got| + |available| == want
    ensures ReadLoop(available, want, got, wishes) == Some(Read(got + available, []))
    decreases |available|
  {
    var n := ReadSize(if wishes == [] then READ_SIZE else wishes[0], |available|);
    assert (got + available[..n]) + available[n..] == got + available;
    if n < |available| {
      NothingBeyond(available[n..], want, got + available[..n], if wishes == [] then [] else wishes[1..]);
    } else {
      assert available[..n] == available;
    }
  }

  function Ones(n: nat): seq<nat> { seq(n, _ => 1) }

  /** Single bytes up to the last one, then a read of two: one byte too many. */
  lemma {:induction false} Overrun(available: Bytes, want: nat, got: Bytes, left: nat)
    requires left > 0 && |got| + left == want && |available| > left
    ensures var r := ReadLoop(available, want, got, Ones(left - 1) + [2]);
            r.Some? && |r.value.body| == want + 1
    decreases left
  {
    var wishes := Ones(left - 1) + [2];
    if left > 1 {
      assert wishes[0] == 1 && wishes[1..] == Ones(left - 2) + [2];
      Overrun(available[1..], want, got + available[..1], left - 1);
    } else {
      assert wishes == [2];
    }
  }

  /** A body is received exactly, however the stream is fragmented, if and only if nothing beyond it is
      available yet: this is what waiting for the verifier before the next frame is for. */
  lemma ExactWhen(body: Bytes, beyond: Bytes)
    requires body != []
    ensures (forall wishes :: ReadLoop(body + beyond, |body|, [], wishes) == Some(Read(body, beyond))) <==> beyond == []
  {
    if beyond == [] {
      assert body + beyond == body && [] + body == body;
      forall wishes ensures ReadLoop(body + beyond, |body|, [], wishes) == Some(Read(body, beyond)) {
        NothingBeyond(body, |body|, [], wishes);
      }
    } else {
      Overrun(body + beyond, |body|, [], |body|);
      var wishes := Ones(|body| - 1) + [2];
      assert ReadLoop(body + beyond, |body|, [], wishes) != Some(Read(body, beyond));
    }
  }

  /** An empty message is not received: its receiver waits for a byte of something else and returns that. */
  lemma EmptyMessageMisread(beyond: Bytes, wishes: seq<nat>)
    ensures ReadLoop(beyond, 0, [], wishes).None? <==> beyond == []
    ensures beyond != [] ==> ReadLoop(beyond, 0, [], wishes).value.body != []
  {
  }

  // ---------------------------------------------------------------- the two ends

  class Stream {
    var up: Bytes
    var down: Bytes
    const digest: Bytes -> Digest

    constructor (digest: Bytes -> Digest)
      ensures up == [] && down == [] && this.digest == digest
    {
      this.up, this.down, this.digest := [], [], digest;
    }

    /** Accepts some of the bytes, at least one if there are any. */
    method Write(bytes: Bytes) returns (n: nat)
      modifies this`up
      ensures n <= |bytes| && (bytes != [] ==> n >= 1)
      ensures up == old(up) + bytes[..n]
    {
      n :| n <= |bytes| && (bytes != [] ==> n >= 1);
      up := up + bytes[..n];
    }

    /** The first half of a send: the header, then the body in as many writes as it takes. */
    method StartSend(body: Bytes)
      modifies this`up
      ensures up == old(up) + FrameOf(body)
    {
      up := up + BigEndian(|body|, 8);
      var cursor := 0;
      while true
        invariant cursor <= |body|
        invariant up == old(up) + (BigEndian(|body|, 8) + body[..cursor])
        decreases |body| - cursor
      {
        var n := Write(body[cursor..]);
        assert body[..cursor] + body[cursor..][..n] == body[..cursor + n];
        cursor := cursor + n;
        if cursor >= |body| {
          break;
        }
      }
      assert body[..cursor] == body;
    }

    /** The second half: the verifier is awaited and compared. */
    method FinishSend(body: Bytes) returns (r: Result<(), StreamError>)
      modifies this`down
      ensures |old(down)| < 16 ==> r == Err(UnexpectedEof)
      ensures |old(down)| >= 16 ==>
                && down == old(down)[16..]
                && r == (if old(down)[..16] == digest(body) then Ok(()) else Err(VerifierMismatch))
    {
      if |down| < 16 {
        return Err(UnexpectedEof);
      }
      var verifier := down[..16];
      down := down[16..];
      r := if verifier == digest(body) then Ok(()) else Err(VerifierMismatch);
    }

    method ReadSome() returns (bytes: Bytes)
      requires up != []
      modifies this`up
      ensures bytes != [] && |bytes| <= READ_SIZE && bytes + up == old(up)
    {
      var n :| 1 <= n <= |up| && n <= READ_SIZE;
      bytes := up[..n];
      up := up[n..];
    }

    /** One receive under some fragmentation: what the read loop makes of the bytes that are there. When it
        is left waiting for more than ever comes, it gives up here as Incomplete, having answered nothing. */
    method Recv() returns (r: Result<Bytes, StreamError>)
      modifies this
      ensures |old(up)| < 8 ==> r == Err(UnexpectedEof) && down == old(down)
      ensures |old(up)| >= 8 ==>
                var want := FromBigEndian(old(up)[..8]);
                // A body of 129 KiB or more is refused before any of it is read.
                if want >= SIZE_LIMIT then r == Err(TooLong) && down == old(down) && up == old(up)[8..]
                else
                  exists wishes ::
                    match ReadLoop(old(up)[8..], want, [], wishes)
                    case None => r == Err(Incomplete) && down == old(down)
                    case Some(read) => r == Ok(read.body) && up == read.rest && down == old(down) + digest(read.body)
    {
      if |up| < 8 {
        return Err(UnexpectedEof);
      }
      var want := FromBigEndian(up[..8]);
      up := up[8..];
      if Refused(want) {
        return Err(TooLong);
      }
      hide ReadLoop, Reached, FromBigEndian;
      ghost var all := up;
      ghost var wishes: seq<nat> := [];
      var body: Bytes := [];
      ReachedFirst(all, want);
      while true
        invariant down == old(down) && all == old(up)[8..]
        invariant Reached(all, want, wishes, up, body)
        decreases |up|
      {
        if up == [] {
          ReachedNothing(all, want, wishes, body);
          return Err(Incomplete);
        }
        ghost var before := up;
        var bytes := ReadSome();
        ReachedNext(all, want, wishes, before, body, bytes, up);
        wishes := wishes + [|bytes|];
        body := body + bytes;
        if |body| >= want {
          break;
        }
      }
      assert ReadLoop(old(up)[8..], want, [], wishes) == Some(Read.Read(body, up));
      down := down + digest(body);
      r := Ok(body);
    }
  }

  /** A session: each send waits for its verifier, so each receive returns exactly what was sent. */
  method Session(stream: Stream, messages: seq<Bytes>) returns (received: seq<Bytes>, succeeded: nat)
    requires stream.up == [] && stream.down == []
    requires forall m :: m in messages ==> 0 < |m| < SIZE_LIMIT
    modifies stream
    ensures received == messages && succeeded == |messages|
    ensures stream.up == [] && stream.down == []
  {
    hide ReadLoop, FromBigEndian, BigEndian;
    received, succeeded := [], 0;
    for i := 0 to |messages|
      invariant stream.up == [] && stream.down == []
      invariant received == messages[..i] && succeeded == i
    {
      var m := messages[i];
      stream.StartSend(m);
      LengthRoundTrip(m);
      assert stream.up == FrameOf(m) && FrameOf(m)[..8] == BigEndian(|m|, 8) && FrameOf(m)[8..] == m;
      ExactWhen(m, []);
      assert m + [] == m;
      var got := stream.Recv();
      assert got == Ok(m);
      received := received + [got.value];
      assert stream.down == stream.digest(m);
      var sent := stream.FinishSend(m);
      if sent.Ok? {
        succeeded := succeeded + 1;
      }
    }
  }
}

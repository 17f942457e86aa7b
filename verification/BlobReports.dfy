/** What the user and the other side are told: of every operation, in numbers and by name, and over whole
    runs, in order. */
module BlobReports {
  import opened Basics
  import opened BlobEvents
  import opened BlobMessages
  import opened BlobState
  import opened BlobTables
  import opened BlobOutcomes

  // ---------------------------------------------------------------- a chunk and the writes it takes

  /** The bytes that the first `i` writes get out: each as many as the file system says, at least one and
      no more than what is left. */
  function Accepted(writes: seq<Option<nat>>, i: nat, length: nat): (n: nat)
    requires i <= |writes|
    ensures n <= length
  {
    if i == 0 then 0
    else
      var n := Accepted(writes, i - 1, length) + match writes[i - 1] case Some(wish) => Max(wish, 1) case None => 0;
      Min(n, length)
  }

  function Max(a: nat, b: nat): nat { if a > b then a else b }

  function Min(a: nat, b: nat): nat { if a < b then a else b }

  /** Write `i` is the first that fails, and it comes before the whole chunk is out. */
  ghost predicate FailsAt(writes: seq<Option<nat>>, i: nat, length: nat) {
    && i < |writes| && writes[i].None? && (forall j :: 0 <= j < i ==> writes[j].Some?)
    && Accepted(writes, i, length) < length
  }

  lemma {:induction false} WritesUntil(writes: seq<Option<nat>>, i: nat, length: nat)
    requires i <= |writes| && (forall j :: 0 <= j < i ==> writes[j].Some?) && Accepted(writes, i, length) < length
    ensures WriteAll(length, 0, writes) == WriteAll(length, Accepted(writes, i, length), writes[i..])
    decreases i
  {
    if i == 0 {
      assert writes[0..] == writes;
    } else {
      WritesUntil(writes, i - 1, length);
      assert writes[i - 1..][0] == writes[i - 1] && writes[i - 1..][1..] == writes[i..];
    }
  }

  lemma {:induction false} WritesAfter(writes: seq<Option<nat>>, i: nat, length: nat)
    requires i <= |writes| && (forall j :: 0 <= j < i ==> writes[j].Some?) && Accepted(writes, i, length) < length
    requires forall j :: !FailsAt(writes, j, length)
    ensures WriteAll(length, 0, writes) == Written(length, false)
    decreases |writes| - i
  {
    WritesUntil(writes, i, length);
    if i < |writes| {
      assert !FailsAt(writes, i, length);
      assert writes[i..][0] == writes[i] && writes[i..][1..] == writes[i + 1..];
      if Accepted(writes, i + 1, length) < length { WritesAfter(writes, i + 1, length); }
    }
  }

  /** A write that fails ends the receive: what was accepted before it stays in the file, nothing more is
      written, the record goes, and the user is told of the error under the local id. */
  lemma FailedWriteEndsIt(s: State, peer: PeerId, k: nat, content: Bytes, world: World, i: nat)
    requires Consistent(s) && k in s.recvs.ongoing && FailsAt(world.writes, i, |content|)
    ensures var s', l := OnHandlerEvent(s, peer, RecvProgressed(k, content), world), s.recvs.ongoing[k].localRecvId;
            && s'.recvs.ongoing == s.recvs.ongoing - {k}
            && s'.recvs.DataOf(l) == s.recvs.DataOf(l) + content[..Accepted(world.writes, i, |content|)]
            && (forall l' :: l' != l ==> s'.recvs.DataOf(l') == s.recvs.DataOf(l'))
            && s'.outEvents == s.outEvents + [OngoingRecvError(l)]
            && s' == s.(recvs := s.recvs.(ongoing := s'.recvs.ongoing, received := s'.recvs.received),
                        outEvents := s'.outEvents)
  {
    WritesUntil(world.writes, i, |content|);
    assert world.writes[i..][0] == world.writes[i];
    assert OngoingRecvFits(s.recvs, k);
  }

  /** Without a failing write the whole chunk is appended and counted, and the record stays, touched now. */
  lemma ChunkIsWritten(s: State, peer: PeerId, k: nat, content: Bytes, world: World)
    requires Consistent(s) && k in s.recvs.ongoing && content != []
    requires forall i :: !FailsAt(world.writes, i, |content|)
    ensures var s', v := OnHandlerEvent(s, peer, RecvProgressed(k, content), world), s.recvs.ongoing[k];
            && s'.recvs.ongoing ==
                 s.recvs.ongoing[k := v.(bytesReceived := v.bytesReceived + |content|, lastActive := world.now)]
            && s'.recvs.DataOf(v.localRecvId) == s.recvs.DataOf(v.localRecvId) + content
            && (forall l :: l != v.localRecvId ==> s'.recvs.DataOf(l) == s.recvs.DataOf(l))
            && s' == s.(recvs := s.recvs.(ongoing := s'.recvs.ongoing, received := s'.recvs.received))
  {
    WritesAfter(world.writes, 0, |content|);
    assert content[..|content|] == content;
    assert OngoingRecvFits(s.recvs, k);
  }

  // ---------------------------------------------------------------- an offer and its acceptance

  /** An offer is kept under an id that was never given out, the user is told that id and nothing else,
      and accepting that id answers this offer, to the peer it came from. */
  lemma OfferCanBeAccepted(s: State, peer: PeerId, name: Bytes, k: nat, total: nat, world: World, now: nat)
    requires Consistent(s)
    ensures var s', l := OnHandlerEvent(s, peer, IncomingFile(name, k, total), world), s.recvs.counter;
            && l !in s.recvs.pending && (forall j :: j in s.recvs.ongoing ==> s.recvs.ongoing[j].localRecvId != l)
            && s'.outEvents == s.outEvents + [FileOffered(peer, name, l, total)]
            && s'.recvs.pending == s.recvs.pending[l := PendingRecv(l, k, peer, total, name, world.now)]
            && var s'' := Apply(s', Accept(l, now));
            && s''.handlerEvents == s.handlerEvents + [Notify(peer, AcceptFile(k))]
            && s''.recvs.pending == s.recvs.pending
            && s''.recvs.ongoing == s.recvs.ongoing[k := OngoingRecv(l, k, peer, total, name, 0, now)]
            && s''.recvs.DataOf(l) == []
  {
    forall k' | k' in s.recvs.ongoing ensures s.recvs.ongoing[k'].localRecvId != s.recvs.counter {
      assert OngoingRecvFits(s.recvs, k');
    }
    assert s.recvs.pending[s.recvs.counter := PendingRecv(s.recvs.counter, k, peer, total, name, world.now)]
           - {s.recvs.counter} == s.recvs.pending;
  }

  // ---------------------------------------------------------------- cancelling

  /** Cancelling what is stored under a receive id tells the user that id, and the peer its own; the record
      goes and nothing else changes. An id that nothing is stored under changes nothing. */
  lemma CancelledRecvIsReported(s: State, l: nat)
    ensures var s', remote := Apply(s, StopRecv(l)), RecvRecord(s, l);
            match remote
            case None => s' == s
            case Some(r) =>
              && s'.outEvents == s.outEvents + [CancelledRecv(l)]
              && s'.handlerEvents == s.handlerEvents + [Notify(r.0, LocalCancelRecv(r.1))]
              && s'.sends == s.sends && s'.recvs.received == s.recvs.received
              && (if l in s.recvs.pending then
                    s'.recvs.pending == s.recvs.pending - {l} && s'.recvs.ongoing == s.recvs.ongoing
                  else s'.recvs.pending == s.recvs.pending && s'.recvs.ongoing == s.recvs.ongoing - {l})
  {
  }

  /** Who offered what is stored under a receive id, and by which id of theirs. */
  function RecvRecord(s: State, l: nat): Option<(PeerId, nat)> {
    if l in s.recvs.pending then Some((s.recvs.pending[l].remote, s.recvs.pending[l].remoteSendId))
    else if l in s.recvs.ongoing then Some((s.recvs.ongoing[l].remote, s.recvs.ongoing[l].remoteSendId))
    else None
  }

  function SendRecord(s: State, k: nat): Option<PeerId> {
    if k in s.sends.pending then Some(s.sends.pending[k].remote)
    else if k in s.sends.ongoing then Some(s.sends.ongoing[k].remote)
    else None
  }

  // ---------------------------------------------------------------- what is owed to the user

  /** What the user has to hear of a handler's event. */
  ghost function OwedFor(s: State, peer: PeerId, ev: ToBehaviour, world: World): seq<OutEvent> {
    match ev
    case IncomingFile(name, _, total) => [FileOffered(peer, name, s.recvs.counter, total)]
    case RecvProgressed(k, content) =>
      if k !in s.recvs.ongoing then []
      else
        var v := s.recvs.ongoing[k];
        if content != [] then
          if exists i :: FailsAt(world.writes, i, |content|) then [OngoingRecvError(v.localRecvId)] else []
        else if v.bytesReceived == v.bytesTotal then [RecvProgress(v.localRecvId, v.bytesTotal, v.bytesTotal)]
        else [OutEvent.Failed(UnexpectedEof(v.localRecvId))]
    case FileSendAccepted(k) => if k in s.sends.pending then [SendProgress(k, 0, s.sends.pending[k].bytesTotal)] else []
    case SendProgressed(k) =>
      if k !in s.sends.ongoing then []
      else [SendProgress(k, s.sends.ongoing[k].bytesSent, s.sends.ongoing[k].bytesTotal)]
    case RemoteCancelSend(k) => [CancelledSend(k)]
    // A withdrawn offer is reported under the remote's id, as written.
    case RemoteCancelRecv(k) =>
      if k in s.recvs.ongoing then [CancelledRecv(s.recvs.ongoing[k].localRecvId)]
      else if exists l :: l in s.recvs.pending && s.recvs.pending[l].remoteSendId == k then [CancelledRecv(k)]
      else []
    case FileSendPending(_) => []
    case Failure(e) => [OutEvent.Failed(e)]
    case InboundNegotiated => [InboundOpen(peer)]
    case OutboundNegotiated => [OutboundOpen(peer)]
    case Unsupported => [NotSupported(peer)]
  }

  ghost function Owed(s: State, op: Op): seq<OutEvent> {
    if op.FromHandler? then OwedFor(s, op.peer, op.event, op.world)
    else if op.StopRecv? then if RecvRecord(s, op.recvId).Some? then [CancelledRecv(op.recvId)] else []
    else if op.Expire? then RecvReports(s, op.order.pendingRecvs + op.order.ongoingRecvs)
    else []
  }

  lemma ChunkOwes(s: State, peer: PeerId, k: nat, content: Bytes, world: World)
    requires Consistent(s)
    ensures OnHandlerEvent(s, peer, RecvProgressed(k, content), world).outEvents
        == s.outEvents + OwedFor(s, peer, RecvProgressed(k, content), world)
  {
    hide Consistent;
    if k in s.recvs.ongoing && content != [] {
      if i :| FailsAt(world.writes, i, |content|) {
        FailedWriteEndsIt(s, peer, k, content, world, i);
      } else {
        ChunkIsWritten(s, peer, k, content, world);
      }
    }
  }

  lemma EventOwes(s: State, peer: PeerId, ev: ToBehaviour, world: World)
    requires Consistent(s) && Possible(s, FromHandler(peer, ev, world))
    ensures OnHandlerEvent(s, peer, ev, world).outEvents == s.outEvents + OwedFor(s, peer, ev, world)
  {
    hide Consistent, FailsAt;
    if ev.RecvProgressed? { ChunkOwes(s, peer, ev.remoteSendId, ev.content, world); }
    else if ev.RemoteCancelRecv? {
      var k := ev.remoteSendId;
      assert forall l :: IsOffer(s, l, k) <==> l in s.recvs.pending && s.recvs.pending[l].remoteSendId == k;
    }
  }

  /** Every operation queues for the user exactly what is owed. */
  lemma OwedIsQueued(s: State, op: Op)
    requires Consistent(s) && Possible(s, op) && !op.PopOut?
    ensures Apply(s, op).outEvents == s.outEvents + Owed(s, op)
  {
    hide Consistent, CheckExpiry, ValidExpiry, OnHandlerEvent, RecvReports, OwedFor;
    if op.FromHandler? { EventOwes(s, op.peer, op.event, op.world); }
    else if op.Expire? { ExpiryIsReported(s, op.now, op.order); }
    else if op.StopRecv? { CancelledRecvIsReported(s, op.recvId); }
  }

  /** The events that the polls of a run hand out. */
  function HandedOut(s: State, ops: seq<Op>): seq<OutEvent>
    decreases |ops|
  {
    if ops == [] then []
    else
      (if ops[0].PopOut? && s.outEvents != [] then [s.outEvents[0]] else []) + HandedOut(Apply(s, ops[0]), ops[1..])
  }

  ghost function AllOwed(s: State, ops: seq<Op>): seq<OutEvent>
    decreases |ops|
  {
    if ops == [] then [] else Owed(s, ops[0]) + AllOwed(Apply(s, ops[0]), ops[1..])
  }

  /** The user hears everything: in every run, what was handed out and then what is still queued are all
      that was queued before and all that is owed, in the order in which it came about. */
  lemma {:induction false} UserHearsEverything(s: State, ops: seq<Op>)
    requires Consistent(s) && PossibleRun(s, ops)
    ensures HandedOut(s, ops) + Run(s, ops).outEvents == s.outEvents + AllOwed(s, ops)
    decreases |ops|
  {
    hide Consistent, Possible, Owed;
    if ops == [] {
      assert [] + s.outEvents == s.outEvents + [];
    } else {
      var s1 := Apply(s, ops[0]);
      ConsistentKept(s, ops[0]);
      UserHearsEverything(s1, ops[1..]);
      var handed, owed, later := HandedOut(s1, ops[1..]), Owed(s, ops[0]), AllOwed(s1, ops[1..]);
      if ops[0].PopOut? {
        PopOwesNothing(s);
        if s.outEvents != [] {
          assert [s.outEvents[0]] + s1.outEvents == s.outEvents;
          Regroup([s.outEvents[0]], handed, Run(s, ops).outEvents);
          Regroup([s.outEvents[0]], s1.outEvents, later);
        } else {
          assert [] + handed == handed;
        }
        assert [] + later == later;
      } else {
        OwedIsQueued(s, ops[0]);
        assert [] + handed == handed;
        Regroup(s.outEvents, owed, later);
      }
    }
  }

  lemma PopOwesNothing(s: State)
    ensures Owed(s, PopOut) == []
    ensures Apply(s, PopOut) == if s.outEvents == [] then s else s.(outEvents := s.outEvents[1..])
  {
  }

  // ---------------------------------------------------------------- what is owed to the other side

  /** The part of a file that one read gives: what the file system says, at least a byte and no more than
      what is left or than the buffer takes. */
  function Piece(file: Bytes, from: nat, wish: nat): Bytes {
    if from >= |file| then [] else file[from..from + Min(Max(wish, 1), Min(|file| - from, FILE_CHUNK_SIZE))]
  }

  /** The next piece of a live send, if its file can be read. */
  function NextChunk(s: State, k: nat, read: Option<nat>): seq<Notify> {
    if read.None? then []
    else if k in s.sends.pending then
      [Notify(s.sends.pending[k].remote, FileChunk(k, Piece(s.sends.FileOf(k), 0, read.value)))]
    else if k in s.sends.ongoing then
      var v := s.sends.ongoing[k];
      [Notify(v.remote, FileChunk(k, Piece(s.sends.FileOf(k), v.bytesSent, read.value)))]
    else []
  }

  /** The notifications an operation has to queue. */
  function Due(s: State, op: Op): seq<Notify> {
    match op
    case Send(to, name, _, metadata, _, _) =>
      if to !in s.connectedPeers || metadata.None? then []
      else [Notify(to, NewFileSend(name, s.sends.counter, metadata.value))]
    case Accept(l, _) =>
      if l !in s.recvs.pending then []
      else [Notify(s.recvs.pending[l].remote, AcceptFile(s.recvs.pending[l].remoteSendId))]
    case StopRecv(l) => Withdrawal(s, l)
    case StopSend(k) => Cancellation(s, k)
    case FromHandler(_, FileSendAccepted(k), world) => if k in s.sends.pending then NextChunk(s, k, world.read) else []
    case FromHandler(_, SendProgressed(k), world) => if k in s.sends.ongoing then NextChunk(s, k, world.read) else []
    case Expire(_, order) =>
      Cancellations(s, order.pendingSends) + Withdrawals(s, order.pendingRecvs)
      + Cancellations(s, order.ongoingSends) + Withdrawals(s, order.ongoingRecvs)
    case _ => []
  }

  function Cancellation(s: State, k: nat): seq<Notify> {
    match SendRecord(s, k) case None => [] case Some(remote) => [Notify(remote, LocalCancelSend(k))]
  }

  function Withdrawal(s: State, l: nat): seq<Notify> {
    match RecvRecord(s, l) case None => [] case Some(r) => [Notify(r.0, LocalCancelRecv(r.1))]
  }

  function Cancellations(s: State, ids: seq<nat>): seq<Notify> {
    if ids == [] then [] else Cancellation(s, ids[0]) + Cancellations(s, ids[1..])
  }

  function Withdrawals(s: State, ids: seq<nat>): seq<Notify> {
    if ids == [] then [] else Withdrawal(s, ids[0]) + Withdrawals(s, ids[1..])
  }

  lemma {:induction false} SameNotices(s: State, ids: seq<nat>)
    ensures SendNotices(s, ids) == Cancellations(s, ids) && RecvNotices(s, ids) == Withdrawals(s, ids)
  {
    if ids != [] { SameNotices(s, ids[1..]); }
  }

  lemma ExpiryIsNotified(s: State, now: nat, order: Expiry)
    requires Consistent(s) && ValidExpiry(s, now, order)
    ensures CheckExpiry(s, order).handlerEvents == s.handlerEvents + Due(s, Expire(now, order))
  {
    hide Consistent, CheckExpiry, ValidExpiry, SendNotices, RecvNotices, Cancellations, Withdrawals;
    ExpiredTables(s, now, order);
    SameNotices(s, order.pendingSends);
    SameNotices(s, order.pendingRecvs);
    SameNotices(s, order.ongoingSends);
    SameNotices(s, order.ongoingRecvs);
  }

  lemma ReadIsSent(s: State, k: nat, now: nat, read: Option<nat>)
    requires k in s.sends.ongoing && k !in s.sends.pending && s.sends.ongoing[k].localSendId == k
    requires s.sends.ongoing[k].cursor == s.sends.ongoing[k].bytesSent
    ensures var s', v := ProgressSend(s, k, now, read), s.sends.ongoing[k];
            && s'.handlerEvents == s.handlerEvents + NextChunk(s, k, read)
            && s'.sends.pending == s.sends.pending
            && (k in s'.sends.ongoing <==> read.Some? && v.bytesSent < |s.sends.FileOf(k)|)
            && (k in s'.sends.ongoing ==>
                  && s'.sends.ongoing[k].bytesSent == v.bytesSent + |Piece(s.sends.FileOf(k), v.bytesSent, read.value)|
                  && s'.sends.ongoing[k].lastActive == now)
            && s'.sends.ongoing - {k} == s.sends.ongoing - {k} && s'.recvs == s.recvs
  {
  }

  /** A live send whose progress is reported sends the next piece of its file and counts it, touched now; it
      goes when there is nothing more to read, or when the file cannot be read, which tells nobody. */
  lemma NextPieceIsSent(s: State, peer: PeerId, ev: ToBehaviour, k: nat, world: World)
    requires Consistent(s)
    requires (ev == FileSendAccepted(k) && k in s.sends.pending) || (ev == SendProgressed(k) && k in s.sends.ongoing)
    ensures var s' := OnHandlerEvent(s, peer, ev, world);
            var file, sent := s.sends.FileOf(k), if ev.SendProgressed? then s.sends.ongoing[k].bytesSent else 0;
            && s'.handlerEvents == s.handlerEvents + NextChunk(s, k, world.read)
            && s'.sends.pending == s.sends.pending - {k}
            && (k in s'.sends.ongoing <==> world.read.Some? && sent < |file|)
            && (k in s'.sends.ongoing ==>
                  && s'.sends.ongoing[k].bytesSent == sent + |Piece(file, sent, world.read.value)|
                  && s'.sends.ongoing[k].lastActive == world.now)
            && s'.sends.ongoing - {k} == s.sends.ongoing - {k} && s'.recvs == s.recvs
  {
    hide ProgressSend, Piece;
    if ev.FileSendAccepted? {
      assert PendingSendFits(s.sends, s.connectedPeers, k);
      var p := s.sends.pending[k];
      var v := OngoingSend(k, p.remote, p.bytesTotal, p.filePath, 0, 0, world.now);
      var sends := s.sends.(pending := s.sends.pending - {k}, ongoing := s.sends.ongoing[k := v]);
      assert sends.ongoing - {k} == s.sends.ongoing - {k};
      ReadIsSent(s.(sends := sends), k, world.now, world.read);
    } else {
      assert OngoingSendFits(s.sends, s.connectedPeers, k);
      assert s.sends.pending - {k} == s.sends.pending;
      ReadIsSent(ReportSendProgress(s, k), k, world.now, world.read);
    }
  }

  lemma DueIsQueued(s: State, op: Op)
    requires Consistent(s) && Possible(s, op) && !op.PopHandlerEvent?
    ensures Apply(s, op).handlerEvents == s.handlerEvents + Due(s, op)
  {
    hide CheckExpiry, ValidExpiry;
    if op.Expire? { ExpiryIsNotified(s, op.now, op.order); }
    else if op.FromHandler? { EventIsNotified(s, op.peer, op.event, op.world); }
  }

  lemma EventIsNotified(s: State, peer: PeerId, ev: ToBehaviour, world: World)
    requires Consistent(s)
    ensures OnHandlerEvent(s, peer, ev, world).handlerEvents == s.handlerEvents + Due(s, FromHandler(peer, ev, world))
  {
    hide Consistent, NextChunk;
    if ev.FileSendAccepted? && ev.localSendId in s.sends.pending {
      NextPieceIsSent(s, peer, ev, ev.localSendId, world);
    } else if ev.SendProgressed? && ev.localSendId in s.sends.ongoing {
      NextPieceIsSent(s, peer, ev, ev.localSendId, world);
    }
  }

  /** The notifications that the polls of a run hand to the swarm. */
  function Delivered(s: State, ops: seq<Op>): seq<Notify>
    decreases |ops|
  {
    if ops == [] then []
    else
      (if ops[0].PopHandlerEvent? && s.handlerEvents != [] then [s.handlerEvents[0]] else [])
      + Delivered(Apply(s, ops[0]), ops[1..])
  }

  function AllDue(s: State, ops: seq<Op>): seq<Notify>
    decreases |ops|
  {
    if ops == [] then [] else Due(s, ops[0]) + AllDue(Apply(s, ops[0]), ops[1..])
  }

  /** So does the other side: what the swarm took and then what is still queued are what was queued before
      and all notifications that were due, in order. */
  lemma {:induction false} EveryNotificationLeaves(s: State, ops: seq<Op>)
    requires Consistent(s) && PossibleRun(s, ops)
    ensures Delivered(s, ops) + Run(s, ops).handlerEvents == s.handlerEvents + AllDue(s, ops)
    decreases |ops|
  {
    hide Consistent, Possible, Due;
    if ops == [] {
      assert [] + s.handlerEvents == s.handlerEvents + [];
    } else {
      var s1 := Apply(s, ops[0]);
      ConsistentKept(s, ops[0]);
      EveryNotificationLeaves(s1, ops[1..]);
      var taken, due, later := Delivered(s1, ops[1..]), Due(s, ops[0]), AllDue(s1, ops[1..]);
      if ops[0].PopHandlerEvent? {
        NothingIsDueAtAPop(s);
        if s.handlerEvents != [] {
          assert [s.handlerEvents[0]] + s1.handlerEvents == s.handlerEvents;
          Regroup([s.handlerEvents[0]], taken, Run(s, ops).handlerEvents);
          Regroup([s.handlerEvents[0]], s1.handlerEvents, later);
        } else {
          assert [] + taken == taken;
        }
        assert [] + later == later;
      } else {
        DueIsQueued(s, ops[0]);
        assert [] + taken == taken;
        Regroup(s.handlerEvents, due, later);
      }
    }
  }

  lemma NothingIsDueAtAPop(s: State)
    ensures Due(s, PopHandlerEvent) == []
    ensures Apply(s, PopHandlerEvent)
        == if s.handlerEvents == [] then s else s.(handlerEvents := s.handlerEvents[1..])
  {
  }
}

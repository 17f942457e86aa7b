/** What cancelling, expiry and the clock achieve on one blob behaviour. */
module BlobOutcomes {
  import opened Basics
  import opened BlobEvents
  import opened BlobState
  import opened BlobTables

  // ---------------------------------------------------------------- a cancelled id stays dead

  /** The id was given out and names no record any more. */
  ghost predicate SendOver(s: State, id: nat) {
    id < s.sends.counter && id !in s.sends.pending && id !in s.sends.ongoing
  }

  ghost predicate RecvOver(s: State, localRecvId: nat) {
    && localRecvId < s.recvs.counter && localRecvId !in s.recvs.pending
    && (forall k :: k in s.recvs.ongoing ==> s.recvs.ongoing[k].localRecvId != localRecvId)
  }

  function ChunksFor(queue: seq<Notify>, id: nat): nat {
    if queue == [] then 0
    else (if queue[0].event.FileChunk? && queue[0].event.localSendId == id then 1 else 0) + ChunksFor(queue[1..], id)
  }

  lemma {:induction false} ChunksForAppend(queue: seq<Notify>, n: Notify, id: nat)
    ensures ChunksFor(queue + [n], id) == ChunksFor(queue, id) + ChunksFor([n], id)
  {
    if queue == [] {
      assert queue + [n] == [n];
    } else {
      assert (queue + [n])[1..] == queue[1..] + [n];
      ChunksForAppend(queue[1..], n, id);
    }
  }

  /** No further chunk was queued for `id`. */
  ghost predicate NoMoreChunks(s: State, s': State, id: nat) {
    ChunksFor(s'.handlerEvents, id) <= ChunksFor(s.handlerEvents, id)
  }

  lemma {:induction false} CancelsQueueNoChunks(s: State, ids: seq<nat>, id: nat)
    ensures NoMoreChunks(s, CancelSends(s, ids), id) && NoMoreChunks(s, CancelRecvs(s, ids), id)
    decreases |ids|
  {
    if ids != [] {
      var a, b := CancelSend(s, ids[0]), CancelRecv(s, ids[0]);
      if a.handlerEvents != s.handlerEvents {
        ChunksForAppend(s.handlerEvents, a.handlerEvents[|s.handlerEvents|], id);
      }
      if b.handlerEvents != s.handlerEvents {
        ChunksForAppend(s.handlerEvents, b.handlerEvents[|s.handlerEvents|], id);
      }
      CancelsQueueNoChunks(a, ids[1..], id);
      CancelsQueueNoChunks(b, ids[1..], id);
    }
  }

  lemma ExpiryQueuesNoChunks(s: State, order: Expiry, id: nat)
    ensures NoMoreChunks(s, CheckExpiry(s, order), id)
  {
    CancelsQueueNoChunks(s, order.pendingSends, id);
    var s1 := CancelSends(s, order.pendingSends);
    CancelsQueueNoChunks(s1, order.pendingRecvs, id);
    var s2 := CancelRecvs(s1, order.pendingRecvs);
    CancelsQueueNoChunks(s2, order.ongoingSends, id);
    CancelsQueueNoChunks(CancelSends(s2, order.ongoingSends), order.ongoingRecvs, id);
  }

  /** Chunks are only ever queued for the send that made progress. */
  lemma HandlerEventChunks(s: State, peer: PeerId, ev: ToBehaviour, world: World, id: nat)
    requires Consistent(s) && SendOver(s, id)
    ensures NoMoreChunks(s, OnHandlerEvent(s, peer, ev, world), id)
  {
    var s' := OnHandlerEvent(s, peer, ev, world);
    if s'.handlerEvents != s.handlerEvents {
      var n := s'.handlerEvents[|s.handlerEvents|];
      assert s'.handlerEvents == s.handlerEvents + [n];
      ChunksForAppend(s.handlerEvents, n, id);
      if ev.FileSendAccepted? {
        assert PendingSendFits(s.sends, s.connectedPeers, ev.localSendId);
      } else {
        assert ev.SendProgressed? && OngoingSendFits(s.sends, s.connectedPeers, ev.localSendId);
      }
    }
  }

  lemma UserOpChunks(s: State, op: Op, id: nat)
    requires op.Send? || op.Accept? || op.StopRecv? || op.StopSend?
    ensures NoMoreChunks(s, Apply(s, op), id)
  {
    var s' := Apply(s, op);
    if s'.handlerEvents != s.handlerEvents {
      var n := s'.handlerEvents[|s.handlerEvents|];
      assert s'.handlerEvents == s.handlerEvents + [n];
      ChunksForAppend(s.handlerEvents, n, id);
    }
  }

  lemma SendStaysOver(s: State, op: Op, id: nat)
    requires Consistent(s) && SendOver(s, id)
    ensures SendOver(Apply(s, op), id) && NoMoreChunks(s, Apply(s, op), id)
  {
    hide CheckExpiry;
    match op
    case FromHandler(peer, ev, world) => HandlerEventChunks(s, peer, ev, world, id);
    case Expire(_, order) => ExpiryShrinks(s, order); ExpiryQueuesNoChunks(s, order, id);
    case Disconnect(_, _) =>
    case PopOut =>
    case PopHandlerEvent =>
    case _ => UserOpChunks(s, op, id);
  }

  lemma HandlerEventLeavesRecvOver(s: State, peer: PeerId, ev: ToBehaviour, world: World, l: nat)
    requires Consistent(s) && RecvOver(s, l)
    ensures RecvOver(OnHandlerEvent(s, peer, ev, world), l)
    ensures OnHandlerEvent(s, peer, ev, world).recvs.DataOf(l) == s.recvs.DataOf(l)
  {
  }

  lemma RecvStaysOver(s: State, op: Op, l: nat)
    requires Consistent(s) && RecvOver(s, l)
    ensures RecvOver(Apply(s, op), l) && Apply(s, op).recvs.DataOf(l) == s.recvs.DataOf(l)
  {
    match op
    case FromHandler(peer, ev, world) => HandlerEventLeavesRecvOver(s, peer, ev, world, l);
    case Expire(_, order) => ExpiryShrinks(s, order);
    case _ =>
  }

  /** Over every later run a send that is over stays out of both tables and no chunk is queued for it. */
  lemma {:induction false} CancelledSendIsFinal(s: State, ops: seq<Op>, id: nat)
    requires Consistent(s) && SendOver(s, id)
    ensures SendOver(Run(s, ops), id) && NoMoreChunks(s, Run(s, ops), id)
    decreases |ops|
  {
    if ops != [] {
      SendStaysOver(s, ops[0], id);
      ConsistentKept(s, ops[0]);
      CancelledSendIsFinal(Apply(s, ops[0]), ops[1..], id);
    }
  }

  /** Over every later run a removed receive is never revived and its file never written again. */
  lemma {:induction false} RemovedRecvIsFinal(s: State, ops: seq<Op>, l: nat)
    requires Consistent(s) && RecvOver(s, l)
    ensures RecvOver(Run(s, ops), l) && Run(s, ops).recvs.DataOf(l) == s.recvs.DataOf(l)
    decreases |ops|
  {
    if ops != [] {
      RecvStaysOver(s, ops[0], l);
      ConsistentKept(s, ops[0]);
      RemovedRecvIsFinal(Apply(s, ops[0]), ops[1..], l);
    }
  }

  /** Cancelling a live send ends it, and the acceptance or acknowledgement that arrives late changes nothing. */
  lemma CancelSendEndsIt(s: State, id: nat, peer: PeerId, world: World)
    requires Consistent(s) && (id in s.sends.pending || id in s.sends.ongoing)
    ensures var s' := CancelSend(s, id);
            && SendOver(s', id)
            && OnHandlerEvent(s', peer, FileSendAccepted(id), world) == s'
            && OnHandlerEvent(s', peer, SendProgressed(id), world) == s'
  {
  }

  // ---------------------------------------------------------------- what a cancelled receive removes

  /** Cancelling a pending receive ends it and leaves every other record alone. */
  lemma CancelPendingRecvEndsIt(s: State, l: nat)
    requires Consistent(s) && l in s.recvs.pending
    ensures var s' := CancelRecv(s, l);
            RecvOver(s', l) && s'.recvs.ongoing == s.recvs.ongoing && s'.recvs.pending == s.recvs.pending - {l}
  {
  }

  /** Cancelling an ongoing receive by its local id ends it exactly when that id equals the remote's
      send id it is stored under; otherwise the record stored under the local id is what goes. */
  lemma CancelOngoingRecvEndsIt(s: State, k: nat)
    requires Consistent(s) && k in s.recvs.ongoing
    ensures var l := s.recvs.ongoing[k].localRecvId;
            var s' := CancelRecv(s, l);
            && (RecvOver(s', l) <==> k == l)
            && s'.recvs.pending == s.recvs.pending
            && s'.recvs.ongoing == s.recvs.ongoing - {l}
  {
    assert OngoingRecvFits(s.recvs, k);
    var l := s.recvs.ongoing[k].localRecvId;
    var s' := CancelRecv(s, l);
    assert s'.recvs.ongoing == s.recvs.ongoing - {l};
    if k == l {
      forall k' | k' in s'.recvs.ongoing ensures s'.recvs.ongoing[k'].localRecvId != l {
        LocalRecvIdsDistinct(s.recvs, k, k');
      }
    } else {
      assert k in s'.recvs.ongoing;
    }
  }

  /** Remote send 5 was offered first, so its receive has local id 0, and was accepted. */
  function FiveAccepted(timeouts: Timeouts, peer: PeerId, world: World): State {
    Run(Initial(timeouts), [FromHandler(peer, IncomingFile([], 5, 3), world), Accept(0, world.now)])
  }

  lemma FiveIsOngoing(timeouts: Timeouts, peer: PeerId, world: World)
    ensures var s := FiveAccepted(timeouts, peer, world);
            && s.timeouts == timeouts && s.sends == Sends(0, map[], map[], map[]) && s.recvs.pending == map[]
            && s.recvs.ongoing == map[5 := OngoingRecv(0, 5, peer, 3, [], 0, world.now)]
  {
    var ops := [FromHandler(peer, IncomingFile([], 5, 3), world), Accept(0, world.now)];
    var s1 := Apply(Initial(timeouts), ops[0]);
    assert ops[1..] == [ops[1]] && ops[1..][1..] == [];
    assert Run(s1, ops[1..]) == Run(Apply(s1, ops[1]), []);
  }

  /** A receive of remote send 5 under local id 0 survives its own cancellation. */
  lemma CancelMissesItsRecord(timeouts: Timeouts, peer: PeerId, world: World)
    ensures var s := FiveAccepted(timeouts, peer, world);
            && 5 in s.recvs.ongoing && s.recvs.ongoing[5].localRecvId == 0
            && CancelRecv(s, 0) == s
  {
    FiveIsOngoing(timeouts, peer, world);
  }

  /** When the remote withdraws an offer, the reported id is the local one exactly when both agree. */
  lemma WithdrawnOfferReport(s: State, remoteSendId: nat, pick: nat)
    requires Consistent(s) && remoteSendId !in s.recvs.ongoing && IsOffer(s, pick, remoteSendId)
    ensures var s' := RemoteCancelledSend(s, remoteSendId, pick);
            && RecvOver(s', pick)
            && (s'.outEvents == s.outEvents + [CancelledRecv(pick)] <==> pick == remoteSendId)
  {
    assert PendingRecvFits(s.recvs, pick);
    forall k | k in s.recvs.ongoing ensures s.recvs.ongoing[k].localRecvId != pick
    {
      assert OngoingRecvFits(s.recvs, k);
    }
    var s' := RemoteCancelledSend(s, remoteSendId, pick);
    assert s'.outEvents[|s.outEvents|] == CancelledRecv(remoteSendId);
  }

  /** The offer of remote send 5 is withdrawn: local receive 0 ends, and the user is told that 5 did. */
  lemma WithdrawnOfferMisreported(timeouts: Timeouts, peer: PeerId, world: World)
    requires world.pick == 0
    ensures var s := Run(Initial(timeouts), [FromHandler(peer, IncomingFile([], 5, 3), world)]);
            var withdrawal := FromHandler(peer, RemoteCancelRecv(5), world);
            && Possible(s, withdrawal) && 0 in s.recvs.pending && 5 !in s.recvs.pending
            && RecvOver(Apply(s, withdrawal), 0)
            && Apply(s, withdrawal).outEvents == s.outEvents + [CancelledRecv(5)]
  {
    var offer := FromHandler(peer, IncomingFile([], 5, 3), world);
    var s := Apply(Initial(timeouts), offer);
    assert [offer][1..] == [] && Run(Initial(timeouts), [offer]) == Run(s, []);
    assert IsOffer(s, 0, 5);
  }

  // ---------------------------------------------------------------- expiry is exact

  ghost function Elements(ids: seq<nat>): set<nat> { set x | x in ids }

  ghost predicate NoRepeats(ids: seq<nat>) {
    forall i, j :: 0 <= i < j < |ids| ==> ids[i] != ids[j]
  }

  /** The cancel notifications owed for `ids`, in order. */
  function SendNotices(s: State, ids: seq<nat>): seq<Notify> {
    if ids == [] then []
    else
      (match RemoteOfSend(s, ids[0])
       case None => []
       case Some(remote) => [Notify(remote, LocalCancelSend(ids[0]))]) + SendNotices(s, ids[1..])
  }

  function RecvNotices(s: State, ids: seq<nat>): seq<Notify> {
    if ids == [] then []
    else
      (match FindRecvRecord(s, ids[0])
       case None => []
       case Some(found) => [Notify(found.remote, LocalCancelRecv(found.remoteSendId))]) + RecvNotices(s, ids[1..])
  }

  /** The user is told of each of `ids` under which something is stored, by that id. */
  function RecvReports(s: State, ids: seq<nat>): seq<OutEvent> {
    if ids == [] then []
    else
      (if ids[0] in s.recvs.pending || ids[0] in s.recvs.ongoing then [CancelledRecv(ids[0])] else [])
      + RecvReports(s, ids[1..])
  }

  lemma {:induction false} SameSendNotices(s: State, s': State, ids: seq<nat>)
    requires forall id :: id in ids ==> RemoteOfSend(s, id) == RemoteOfSend(s', id)
    ensures SendNotices(s, ids) == SendNotices(s', ids)
  {
    if ids != [] { SameSendNotices(s, s', ids[1..]); }
  }

  lemma {:induction false} SameRecvNotices(s: State, s': State, ids: seq<nat>)
    requires forall id :: id in ids ==> FindRecvRecord(s, id) == FindRecvRecord(s', id)
    ensures RecvNotices(s, ids) == RecvNotices(s', ids) && RecvReports(s, ids) == RecvReports(s', ids)
  {
    if ids != [] { SameRecvNotices(s, s', ids[1..]); }
  }

  lemma {:induction false} OneNoticeEach(s: State, ids: seq<nat>)
    ensures (forall id :: id in ids ==> RemoteOfSend(s, id).Some?) ==>
              |SendNotices(s, ids)| == |ids| &&
              forall i :: 0 <= i < |ids| ==>
                SendNotices(s, ids)[i] == Notify(RemoteOfSend(s, ids[i]).value, LocalCancelSend(ids[i]))
    ensures (forall id :: id in ids ==> FindRecvRecord(s, id).Some?) ==>
              |RecvNotices(s, ids)| == |ids| &&
              forall i :: 0 <= i < |ids| ==>
                RecvNotices(s, ids)[i] ==
                Notify(FindRecvRecord(s, ids[i]).value.remote,
                    LocalCancelRecv(FindRecvRecord(s, ids[i]).value.remoteSendId))
  {
    if ids != [] { OneNoticeEach(s, ids[1..]); }
  }

  lemma {:induction false} OneReportEach(s: State, ids: seq<nat>)
    requires NoRepeats(ids)
    ensures forall e :: e in RecvReports(s, ids) <==>
              e.CancelledRecv? && e.id in ids && (e.id in s.recvs.pending || e.id in s.recvs.ongoing)
    ensures forall i, j :: 0 <= i < j < |RecvReports(s, ids)| ==> RecvReports(s, ids)[i] != RecvReports(s, ids)[j]
  {
    if ids != [] {
      OneReportEach(s, ids[1..]);
      var rest := RecvReports(s, ids[1..]);
      assert forall i :: 0 <= i < |rest| ==> rest[i] in rest;
      assert ids == [ids[0]] + ids[1..];
    }
  }

  /** Cancelling `ids` in turn: pending records go first, ongoing ones only under ids not pending. */
  ghost predicate SendsCancelled(s: State, s': State, ids: seq<nat>, gone: set<nat>) {
    && s'.sends.pending == s.sends.pending - gone
    && s'.sends.ongoing == s.sends.ongoing - (gone - s.sends.pending.Keys)
    && s'.recvs == s.recvs && s'.timeouts == s.timeouts && s'.outEvents == s.outEvents
    && s'.handlerEvents == s.handlerEvents + SendNotices(s, ids)
  }

  ghost predicate RecvsCancelled(s: State, s': State, ids: seq<nat>, gone: set<nat>) {
    && s'.recvs.pending == s.recvs.pending - gone
    && s'.recvs.ongoing == s.recvs.ongoing - (gone - s.recvs.pending.Keys)
    && s'.sends == s.sends && s'.timeouts == s.timeouts
    && s'.handlerEvents == s.handlerEvents + RecvNotices(s, ids)
    && s'.outEvents == s.outEvents + RecvReports(s, ids)
  }

  lemma KeysLeft<V, W>(pending: map<nat, V>, ongoing: map<nat, W>, id: nat, rest: set<nat>)
    requires id !in rest
    ensures pending - {id} - rest == pending - ({id} + rest)
    ensures ongoing - ({id} - pending.Keys) - (rest - (pending - {id}).Keys) == ongoing - (({id} + rest) - pending.Keys)
  {
  }

  lemma CancelSendEffect(s: State, id: nat)
    ensures SendsCancelled(s, CancelSend(s, id), [id], {id})
    ensures forall other :: other != id ==> RemoteOfSend(CancelSend(s, id), other) == RemoteOfSend(s, other)
  {
    var s1 := CancelSend(s, id);
    assert s1.sends.pending == s.sends.pending - {id};
    assert s1.sends.ongoing == s.sends.ongoing - ({id} - s.sends.pending.Keys);
    assert SendNotices(s, [id][1..]) == [];
  }

  lemma SendNoticesSplit(s: State, id: nat, rest: seq<nat>)
    ensures SendNotices(s, [id] + rest) == SendNotices(s, [id]) + SendNotices(s, rest)
  {
    hide RemoteOfSend;
    assert ([id] + rest)[1..] == rest && [id][1..] == [];
  }

  lemma SendsCancelledThen(s: State, s1: State, s2: State, id: nat, rest: seq<nat>, gone: set<nat>)
    requires SendsCancelled(s, s1, [id], {id}) && SendsCancelled(s1, s2, rest, gone) && id !in gone
    requires SendNotices(s, rest) == SendNotices(s1, rest)
    ensures SendsCancelled(s, s2, [id] + rest, {id} + gone)
  {
    hide SendNotices;
    KeysLeft(s.sends.pending, s.sends.ongoing, id, gone);
    SendNoticesSplit(s, id, rest);
  }

  lemma {:induction false} CancelSendsEffect(s: State, ids: seq<nat>)
    requires NoRepeats(ids)
    ensures SendsCancelled(s, CancelSends(s, ids), ids, Elements(ids))
    decreases |ids|
  {
    if ids == [] {
      assert Elements(ids) == {};
    } else {
      hide CancelSend, RemoteOfSend, SendsCancelled, SendNotices;
      var id, rest := ids[0], ids[1..];
      var s1 := CancelSend(s, id);
      CancelSendEffect(s, id);
      SameSendNotices(s, s1, rest);
      CancelSendsEffect(s1, rest);
      SendsCancelledThen(s, s1, CancelSends(s, ids), id, rest, Elements(rest));
      assert Elements(ids) == {id} + Elements(rest);
      assert ids == [id] + rest;
    }
  }

  lemma CancelRecvEffect(s: State, id: nat)
    ensures RecvsCancelled(s, CancelRecv(s, id), [id], {id})
    ensures forall other :: other != id ==> FindRecvRecord(CancelRecv(s, id), other) == FindRecvRecord(s, other)
  {
    var s1 := CancelRecv(s, id);
    assert s1.recvs.pending == s.recvs.pending - {id};
    assert s1.recvs.ongoing == s.recvs.ongoing - ({id} - s.recvs.pending.Keys);
    assert RecvNotices(s, [id][1..]) == [] && RecvReports(s, [id][1..]) == [];
  }

  lemma RecvNoticesSplit(s: State, id: nat, rest: seq<nat>)
    ensures RecvNotices(s, [id] + rest) == RecvNotices(s, [id]) + RecvNotices(s, rest)
    ensures RecvReports(s, [id] + rest) == RecvReports(s, [id]) + RecvReports(s, rest)
  {
    hide FindRecvRecord;
    assert ([id] + rest)[1..] == rest && [id][1..] == [];
  }

  lemma RecvsCancelledThen(s: State, s1: State, s2: State, id: nat, rest: seq<nat>, gone: set<nat>)
    requires RecvsCancelled(s, s1, [id], {id}) && RecvsCancelled(s1, s2, rest, gone) && id !in gone
    requires RecvNotices(s, rest) == RecvNotices(s1, rest) && RecvReports(s, rest) == RecvReports(s1, rest)
    ensures RecvsCancelled(s, s2, [id] + rest, {id} + gone)
  {
    hide RecvNotices, RecvReports;
    KeysLeft(s.recvs.pending, s.recvs.ongoing, id, gone);
    RecvNoticesSplit(s, id, rest);
  }

  lemma {:induction false} CancelRecvsEffect(s: State, ids: seq<nat>)
    requires NoRepeats(ids)
    ensures RecvsCancelled(s, CancelRecvs(s, ids), ids, Elements(ids))
    decreases |ids|
  {
    if ids == [] {
      assert Elements(ids) == {};
    } else {
      hide CancelRecv, FindRecvRecord, RecvsCancelled, RecvNotices, RecvReports;
      var id, rest := ids[0], ids[1..];
      var s1 := CancelRecv(s, id);
      CancelRecvEffect(s, id);
      SameRecvNotices(s, s1, rest);
      CancelRecvsEffect(s1, rest);
      RecvsCancelledThen(s, s1, CancelRecvs(s, ids), id, rest, Elements(rest));
      assert Elements(ids) == {id} + Elements(rest);
      assert ids == [id] + rest;
    }
  }

  lemma SendStage(s: State, ids: seq<nat>, expired: set<nat>)
    requires Enumerates(ids, expired)
    ensures SendsCancelled(s, CancelSends(s, ids), ids, expired)
  {
    CancelSendsEffect(s, ids);
    assert Elements(ids) == expired;
  }

  lemma RecvStage(s: State, ids: seq<nat>, expired: set<nat>)
    requires Enumerates(ids, expired)
    ensures RecvsCancelled(s, CancelRecvs(s, ids), ids, expired)
  {
    CancelRecvsEffect(s, ids);
    assert Elements(ids) == expired;
  }

  /** Disjointness: what expired as ongoing is not pending. */
  lemma OngoingKeysNotPending(s: State, now: nat)
    requires Consistent(s)
    ensures ExpiredOngoingSends(s, now) !! s.sends.pending.Keys
    ensures ExpiredLocalRecvIds(s, now) !! s.recvs.pending.Keys
  {
  }

  /** The pending stages leave the ongoing tables, and what is expired in them, as they were. */
  lemma PendingStages(s: State, now: nat, order: Expiry)
    requires Consistent(s) && ValidExpiry(s, now, order)
    ensures var s2 := CancelRecvs(CancelSends(s, order.pendingSends), order.pendingRecvs);
            && s2.sends.pending == s.sends.pending - ExpiredPendingSends(s, now)
            && s2.recvs.pending == s.recvs.pending - ExpiredPendingRecvs(s, now)
            && s2.sends.ongoing == s.sends.ongoing && s2.recvs.ongoing == s.recvs.ongoing && s2.timeouts == s.timeouts
            && s2.handlerEvents == s.handlerEvents + SendNotices(s, order.pendingSends)
                   + RecvNotices(s, order.pendingRecvs)
            && s2.outEvents == s.outEvents + RecvReports(s, order.pendingRecvs)
    ensures Enumerates(order.pendingRecvs, ExpiredPendingRecvs(s, now))
  {
    var s1 := CancelSends(s, order.pendingSends);
    SendStage(s, order.pendingSends, ExpiredPendingSends(s, now));
    assert ExpiredPendingRecvs(s1, now) == ExpiredPendingRecvs(s, now);
    RecvStage(s1, order.pendingRecvs, ExpiredPendingRecvs(s, now));
    SameRecvNotices(s, s1, order.pendingRecvs);
  }

  /** The ongoing stages, run on what the pending stages left. */
  lemma OngoingStages(s: State, s2: State, now: nat, order: Expiry)
    requires Consistent(s)
    requires s2.sends.pending == s.sends.pending - ExpiredPendingSends(s, now)
    requires s2.recvs.pending == s.recvs.pending - ExpiredPendingRecvs(s, now)
    requires s2.sends.ongoing == s.sends.ongoing && s2.recvs.ongoing == s.recvs.ongoing && s2.timeouts == s.timeouts
    requires Enumerates(order.ongoingSends, ExpiredOngoingSends(s2, now))
    requires Enumerates(order.ongoingRecvs, ExpiredLocalRecvIds(CancelSends(s2, order.ongoingSends), now))
    ensures var s4 := CancelRecvs(CancelSends(s2, order.ongoingSends), order.ongoingRecvs);
            && s4.sends.pending == s2.sends.pending && s4.recvs.pending == s2.recvs.pending
            && s4.sends.ongoing == s.sends.ongoing - ExpiredOngoingSends(s, now)
            && s4.recvs.ongoing == s.recvs.ongoing - ExpiredLocalRecvIds(s, now)
            && s4.handlerEvents == s2.handlerEvents + SendNotices(s, order.ongoingSends)
                   + RecvNotices(s, order.ongoingRecvs)
            && s4.outEvents == s2.outEvents + RecvReports(s, order.ongoingRecvs)
    ensures Enumerates(order.ongoingSends, ExpiredOngoingSends(s, now))
    ensures Enumerates(order.ongoingRecvs, ExpiredLocalRecvIds(s, now))
  {
    hide Consistent, CancelSend, CancelRecv, CancelSends, CancelRecvs, RecvNotices, SendNotices, RecvReports;
    OngoingKeysNotPending(s, now);
    assert ExpiredOngoingSends(s2, now) == ExpiredOngoingSends(s, now);
    SendStage(s2, order.ongoingSends, ExpiredOngoingSends(s, now));
    SameSendNotices(s, s2, order.ongoingSends);
    var s3 := CancelSends(s2, order.ongoingSends);
    assert ExpiredOngoingRecvs(s3, now) == ExpiredOngoingRecvs(s, now);
    assert ExpiredLocalRecvIds(s3, now) == ExpiredLocalRecvIds(s, now);
    RecvStage(s3, order.ongoingRecvs, ExpiredLocalRecvIds(s, now));
    SameRecvNotices(s, s3, order.ongoingRecvs);
  }

  lemma ExpiredTables(s: State, now: nat, order: Expiry)
    requires Consistent(s) && ValidExpiry(s, now, order)
    ensures var s' := CheckExpiry(s, order);
            && s'.sends.pending == s.sends.pending - ExpiredPendingSends(s, now)
            && s'.sends.ongoing == s.sends.ongoing - ExpiredOngoingSends(s, now)
            && s'.recvs.pending == s.recvs.pending - ExpiredPendingRecvs(s, now)
            && s'.recvs.ongoing == s.recvs.ongoing - ExpiredLocalRecvIds(s, now)
            && s'.handlerEvents == s.handlerEvents + SendNotices(s, order.pendingSends)
                   + RecvNotices(s, order.pendingRecvs)
                   + SendNotices(s, order.ongoingSends) + RecvNotices(s, order.ongoingRecvs)
            && s'.outEvents == s.outEvents + RecvReports(s, order.pendingRecvs) + RecvReports(s, order.ongoingRecvs)
    ensures Enumerates(order.pendingSends, ExpiredPendingSends(s, now))
    ensures Enumerates(order.pendingRecvs, ExpiredPendingRecvs(s, now))
    ensures Enumerates(order.ongoingSends, ExpiredOngoingSends(s, now))
    ensures Enumerates(order.ongoingRecvs, ExpiredLocalRecvIds(s, now))
  {
    hide Consistent, CancelSend, CancelRecv, CancelSends, CancelRecvs, SendNotices, RecvNotices, RecvReports;
    PendingStages(s, now, order);
    OngoingStages(s, CancelRecvs(CancelSends(s, order.pendingSends), order.pendingRecvs), now, order);
  }

  lemma ExpiredNotices(s: State, now: nat, order: Expiry)
    requires Enumerates(order.pendingSends, ExpiredPendingSends(s, now))
    requires Enumerates(order.pendingRecvs, ExpiredPendingRecvs(s, now))
    requires Enumerates(order.ongoingSends, ExpiredOngoingSends(s, now))
    ensures |SendNotices(s, order.pendingSends)| == |order.pendingSends|
    ensures |RecvNotices(s, order.pendingRecvs)| == |order.pendingRecvs|
    ensures |SendNotices(s, order.ongoingSends)| == |order.ongoingSends|
  {
    hide SendNotices, RecvNotices;
    OneNoticeEach(s, order.pendingSends);
    OneNoticeEach(s, order.pendingRecvs);
    OneNoticeEach(s, order.ongoingSends);
  }

  /** The first three stages keep precisely the unexpired records; the last one drops what is stored
      under the local ids of the expired receives. One notification goes out per dropped record. */
  lemma ExpiryIsExact(s: State, now: nat, order: Expiry)
    requires Consistent(s) && ValidExpiry(s, now, order)
    ensures var s' := CheckExpiry(s, order);
            && s'.sends.pending == s.sends.pending - ExpiredPendingSends(s, now)
            && s'.sends.ongoing == s.sends.ongoing - ExpiredOngoingSends(s, now)
            && s'.recvs.pending == s.recvs.pending - ExpiredPendingRecvs(s, now)
            && s'.recvs.ongoing == s.recvs.ongoing - ExpiredLocalRecvIds(s, now)
            && s'.handlerEvents == s.handlerEvents + SendNotices(s, order.pendingSends)
                   + RecvNotices(s, order.pendingRecvs)
                   + SendNotices(s, order.ongoingSends) + RecvNotices(s, order.ongoingRecvs)
            && s'.outEvents == s.outEvents + RecvReports(s, order.pendingRecvs) + RecvReports(s, order.ongoingRecvs)
    ensures |SendNotices(s, order.pendingSends)| == |order.pendingSends|
    ensures |RecvNotices(s, order.pendingRecvs)| == |order.pendingRecvs|
    ensures |SendNotices(s, order.ongoingSends)| == |order.ongoingSends|
    ensures Enumerates(order.pendingSends, ExpiredPendingSends(s, now))
    ensures Enumerates(order.pendingRecvs, ExpiredPendingRecvs(s, now))
    ensures Enumerates(order.ongoingSends, ExpiredOngoingSends(s, now))
    ensures Enumerates(order.ongoingRecvs, ExpiredLocalRecvIds(s, now))
  {
    hide *;
    ExpiredTables(s, now, order);
    ExpiredNotices(s, now, order);
  }

  /** Expiry in plain numbers. A timeout of 0 waits forever; otherwise a record stays as long as it is not
      older than its timeout, whatever it says stays as it is, and an ongoing receive goes when some
      expired one has its key for a local id. */
  lemma ExpiryByAge(s: State, now: nat, order: Expiry)
    requires Consistent(s) && ValidExpiry(s, now, order)
    ensures var s', t := CheckExpiry(s, order), s.timeouts;
            && Shrinks(s, s')
            && (forall k :: k in s'.sends.pending <==>
                  k in s.sends.pending && (t.pendingSend == 0 || now - s.sends.pending[k].timestamp <= t.pendingSend))
            && (forall l :: l in s'.recvs.pending <==>
                  l in s.recvs.pending && (t.pendingRecv == 0 || now - s.recvs.pending[l].timestamp <= t.pendingRecv))
            && (forall k :: k in s'.sends.ongoing <==>
                  k in s.sends.ongoing && (t.ongoingSend == 0 || now - s.sends.ongoing[k].lastActive <= t.ongoingSend))
            && (forall k :: k in s'.recvs.ongoing <==>
                  k in s.recvs.ongoing && forall j :: j in s.recvs.ongoing && s.recvs.ongoing[j].localRecvId == k ==>
                    t.ongoingRecv == 0 || now - s.recvs.ongoing[j].lastActive <= t.ongoingRecv)
  {
    hide Consistent, CheckExpiry, ValidExpiry;
    ExpiredTables(s, now, order);
    ExpiryShrinks(s, order);
  }

  /** The user is told once of every pending receive that expiry dropped, by its local id, and once of every
      ongoing one, by the id it was stored under, and of nothing else. */
  lemma ExpiryIsReported(s: State, now: nat, order: Expiry)
    requires Consistent(s) && ValidExpiry(s, now, order)
    ensures var s', reports := CheckExpiry(s, order), RecvReports(s, order.pendingRecvs + order.ongoingRecvs);
            && s'.outEvents == s.outEvents + reports
            && (forall e :: e in reports <==>
                  && e.CancelledRecv?
                  && ((e.id in s.recvs.pending && e.id !in s'.recvs.pending)
                      || (e.id in s.recvs.ongoing && e.id !in s'.recvs.ongoing)))
            && (forall i, j :: 0 <= i < j < |reports| ==> reports[i] != reports[j])
  {
    hide Consistent, CheckExpiry, ValidExpiry, RecvReports, SendNotices, RecvNotices;
    hide ExpiredPendingRecvs, ExpiredLocalRecvIds, ExpiredPendingSends, ExpiredOngoingSends;
    ExpiredTables(s, now, order);
    OngoingKeysNotPending(s, now);
    PendingOnesArePending(s, now);
    ReportsAppend(s, order.pendingRecvs, order.ongoingRecvs);
    EnumeratesBoth(order.pendingRecvs, ExpiredPendingRecvs(s, now), order.ongoingRecvs, ExpiredLocalRecvIds(s, now));
    OneReportEach(s, order.pendingRecvs + order.ongoingRecvs);
  }

  lemma PendingOnesArePending(s: State, now: nat)
    ensures ExpiredPendingRecvs(s, now) <= s.recvs.pending.Keys
  {
  }

  lemma EnumeratesBoth(a: seq<nat>, x: set<nat>, b: seq<nat>, y: set<nat>)
    requires Enumerates(a, x) && Enumerates(b, y) && x !! y
    ensures NoRepeats(a + b) && forall i :: i in a + b <==> i in x || i in y
  {
    forall i, j | 0 <= i < j < |a + b| ensures (a + b)[i] != (a + b)[j] {
      if i < |a| <= j { assert a[i] in a && b[j - |a|] in b; }
    }
  }

  lemma {:induction false} ReportsAppend(s: State, a: seq<nat>, b: seq<nat>)
    ensures RecvReports(s, a + b) == RecvReports(s, a) + RecvReports(s, b)
  {
    if a == [] {
      assert a + b == b;
    } else {
      assert (a + b)[1..] == a[1..] + b;
      ReportsAppend(s, a[1..], b);
    }
  }

  /** As many local ids as records. */
  lemma {:induction false} AsManyLocals(s: Recvs, keys: set<nat>)
    requires RecvsConsistent(s) && keys <= s.ongoing.Keys
    ensures |set k | k in keys :: s.ongoing[k].localRecvId| == |keys|
    decreases |keys|
  {
    var locals := set k | k in keys :: s.ongoing[k].localRecvId;
    if k :| k in keys {
      var rest := set k' | k' in keys - {k} :: s.ongoing[k'].localRecvId;
      AsManyLocals(s, keys - {k});
      forall k' | k' in keys - {k} ensures s.ongoing[k'].localRecvId != s.ongoing[k].localRecvId
      {
        LocalRecvIdsDistinct(s, k, k');
      }
      assert locals == rest + {s.ongoing[k].localRecvId};
    } else {
      assert locals == {};
    }
  }

  lemma SameSizeSubset(a: set<nat>, b: set<nat>)
    requires a <= b && |a| == |b|
    ensures a == b
  {
    assert |b - a| == 0;
  }

  /** The last stage drops exactly the expired receives if and only if the expired records' local ids
      are, taken together, the remote send ids they are stored under. */
  lemma OngoingRecvExpiryExactWhen(s: State, now: nat, order: Expiry)
    requires Consistent(s) && ValidExpiry(s, now, order)
    ensures CheckExpiry(s, order).recvs.ongoing == s.recvs.ongoing - ExpiredOngoingRecvs(s, now)
            <==> ExpiredLocalRecvIds(s, now) == ExpiredOngoingRecvs(s, now)
  {
    ExpiredTables(s, now, order);
    AsManyLocals(s.recvs, ExpiredOngoingRecvs(s, now));
    ExactDropWhen(s.recvs.ongoing, ExpiredOngoingRecvs(s, now), ExpiredLocalRecvIds(s, now));
  }

  lemma ExactDropWhen<V>(stored: map<nat, V>, expired: set<nat>, locals: set<nat>)
    requires expired <= stored.Keys && |locals| == |expired|
    ensures stored - locals == stored - expired <==> locals == expired
  {
    if stored - locals == stored - expired {
      forall k | k in expired ensures k in locals { assert k !in (stored - expired); }
      SameSizeSubset(expired, locals);
    }
  }

  /** Receive 0 of remote send 5 expires, and its record outlives the expiry check. */
  lemma ExpiryMissesItsRecord(peer: PeerId)
    ensures var s := FiveAccepted(Timeouts(0, 0, 0, 1), peer, World(0, None, [], 0));
            var order := Expiry([], [], [], [0]);
            && ValidExpiry(s, 10, order) && 5 in ExpiredOngoingRecvs(s, 10)
            && CheckExpiry(s, order).recvs.ongoing == s.recvs.ongoing
  {
    FiveIsOngoing(Timeouts(0, 0, 0, 1), peer, World(0, None, [], 0));
    var s := FiveAccepted(Timeouts(0, 0, 0, 1), peer, World(0, None, [], 0));
    assert ExpiredPendingSends(s, 10) == ExpiredPendingRecvs(s, 10) == ExpiredOngoingSends(s, 10) == {};
    assert ExpiredOngoingRecvs(s, 10) == {5} && ExpiredLocalRecvIds(s, 10) == {0};
    assert CancelSends(s, []) == s && CancelRecvs(s, []) == s && [0][1..] == [];
    assert CancelRecvs(s, [0]) == CancelRecvs(CancelRecv(s, 0), []);
  }

  // ---------------------------------------------------------------- the clock

  /** No record is stamped later than `now`, so the ages that expiry compares are never negative. */
  ghost predicate StampedBy(s: State, now: nat) {
    && (forall k :: k in s.sends.pending ==> s.sends.pending[k].timestamp <= now)
    && (forall k :: k in s.sends.ongoing ==> s.sends.ongoing[k].lastActive <= now)
    && (forall l :: l in s.recvs.pending ==> s.recvs.pending[l].timestamp <= now)
    && (forall k :: k in s.recvs.ongoing ==> s.recvs.ongoing[k].lastActive <= now)
  }

  function ClockOf(op: Op): nat {
    match op
    case Send(_, _, _, _, _, now) => now
    case Accept(_, now) => now
    case FromHandler(_, _, world) => world.now
    case Expire(now, _) => now
    case _ => 0
  }

  ghost predicate ClocksUpTo(ops: seq<Op>, now: nat) {
    forall i :: 0 <= i < |ops| ==> ClockOf(ops[i]) <= now
  }

  lemma StampKeptByEvent(s: State, peer: PeerId, ev: ToBehaviour, world: World, now: nat)
    requires StampedBy(s, now) && world.now <= now
    ensures StampedBy(OnHandlerEvent(s, peer, ev, world), now)
  {
  }

  lemma StampKept(s: State, op: Op, now: nat)
    requires StampedBy(s, now) && ClockOf(op) <= now
    ensures StampedBy(Apply(s, op), now)
  {
    if op.Expire? { ExpiryShrinks(s, op.order); }
    else if op.FromHandler? { StampKeptByEvent(s, op.peer, op.event, op.world, now); }
  }

  lemma {:induction false} StampsNeverAhead(s: State, ops: seq<Op>, now: nat)
    requires StampedBy(s, now) && ClocksUpTo(ops, now)
    ensures StampedBy(Run(s, ops), now)
    decreases |ops|
  {
    if ops != [] {
      StampKept(s, ops[0], now);
      StampsNeverAhead(Apply(s, ops[0]), ops[1..], now);
    }
  }
}

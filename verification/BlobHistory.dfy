/** What a behaviour's records, counters and connected peers say of its history: every record repeats the
    offer or the request it came from, is as far as its file, and was last touched when it last made progress. */
module BlobHistory {
  import opened Basics
  import opened BlobEvents
  import opened BlobState
  import opened BlobTables
  import opened BlobOutcomes
  import opened BlobReports

  // ---------------------------------------------------------------- receives and the offers they came from

  datatype Offer = Offer(peer: PeerId, fileName: Bytes, remoteSendId: nat, bytesTotal: nat, time: nat)

  function OfferIn(op: Op): seq<Offer> {
    if op.FromHandler? && op.event.IncomingFile? then
      [Offer(op.peer, op.event.fileName, op.event.remoteSendId, op.event.bytesTotal, op.world.now)]
    else []
  }

  /** The offers that came in, in order. */
  function Offers(ops: seq<Op>): seq<Offer> { if ops == [] then [] else OfferIn(ops[0]) + Offers(ops[1..]) }

  ghost predicate PendingRecvTells(v: PendingRecv, l: nat, offers: seq<Offer>) {
    l < |offers| && var o := offers[l];
    v == PendingRecv(l, o.remoteSendId, o.peer, o.bytesTotal, o.fileName, o.time)
  }

  ghost predicate OngoingRecvTells(v: OngoingRecv, k: nat, offers: seq<Offer>, written: nat) {
    v.localRecvId < |offers| && var o := offers[v.localRecvId];
    && o.remoteSendId == k
    && v == OngoingRecv(v.localRecvId, k, o.peer, o.bytesTotal, o.fileName, written, v.lastActive)
  }

  /** Receive `l` is offer `l`. */
  ghost predicate RecvsTell(s: Recvs, offers: seq<Offer>) {
    && s.counter == |offers|
    && (forall l :: l in s.pending ==> PendingRecvTells(s.pending[l], l, offers))
    && (forall k :: k in s.ongoing ==>
          OngoingRecvTells(s.ongoing[k], k, offers, |s.DataOf(s.ongoing[k].localRecvId)|))
  }

  lemma RecvsTellWhenShrunk(s: Recvs, s': Recvs, offers: seq<Offer>)
    requires RecvsTell(s, offers) && RecvsShrink(s, s')
    ensures RecvsTell(s', offers)
  {
  }

  lemma ChunkKeepsRecvs(s: State, peer: PeerId, k: nat, content: Bytes, world: World, offers: seq<Offer>)
    requires Consistent(s) && RecvsTell(s.recvs, offers)
    ensures RecvsTell(OnHandlerEvent(s, peer, RecvProgressed(k, content), world).recvs, offers)
  {
    var s' := OnHandlerEvent(s, peer, RecvProgressed(k, content), world);
    if k in s.recvs.ongoing {
      assert OngoingRecvFits(s.recvs, k);
      forall j | j in s'.recvs.ongoing && j != k
        ensures OngoingRecvTells(s'.recvs.ongoing[j], j, offers, |s'.recvs.DataOf(s'.recvs.ongoing[j].localRecvId)|)
      {
        LocalRecvIdsDistinct(s.recvs, j, k);
      }
    }
  }

  lemma OfferKeepsRecvs(s: State, op: Op, offers: seq<Offer>)
    requires Consistent(s) && RecvsTell(s.recvs, offers) && op.FromHandler? && op.event.IncomingFile?
    ensures RecvsTell(Apply(s, op).recvs, offers + OfferIn(op))
  {
    forall k | k in s.recvs.ongoing ensures s.recvs.ongoing[k].localRecvId < s.recvs.counter {
      assert OngoingRecvFits(s.recvs, k);
    }
  }

  lemma AcceptKeepsRecvs(s: State, l: nat, now: nat, offers: seq<Offer>)
    requires Consistent(s) && RecvsTell(s.recvs, offers)
    ensures RecvsTell(Apply(s, Accept(l, now)).recvs, offers)
  {
    if l in s.recvs.pending {
      assert PendingRecvFits(s.recvs, l);
      forall k | k in s.recvs.ongoing ensures s.recvs.ongoing[k].localRecvId != l {
        assert OngoingRecvFits(s.recvs, k);
      }
    }
  }

  lemma OpKeepsRecvs(s: State, op: Op, offers: seq<Offer>)
    requires Consistent(s) && RecvsTell(s.recvs, offers)
    ensures RecvsTell(Apply(s, op).recvs, offers + OfferIn(op))
  {
    hide Consistent, RecvsTell, CheckExpiry, NewPendingRecv, ProgressRecv, AcceptPendingRecv;
    assert offers + [] == offers;
    if op.Accept? { AcceptKeepsRecvs(s, op.recvId, op.now, offers); }
    else if op.FromHandler? && op.event.IncomingFile? { OfferKeepsRecvs(s, op, offers); }
    else if op.FromHandler? && op.event.RecvProgressed? {
      ChunkKeepsRecvs(s, op.peer, op.event.remoteSendId, op.event.content, op.world, offers);
    } else {
      if op.Expire? { ExpiryShrinks(s, op.order); }
      RecvsTellWhenShrunk(s.recvs, Apply(s, op).recvs, offers);
    }
  }

  /** In every run, receive `l` is the `l`th offer, in all its terms, from the peer that made it, pending
      since it came in; an accepted one has counted the bytes that are in its file. */
  lemma {:induction false} RecvsTellTheirOffers(s: State, ops: seq<Op>, offers: seq<Offer>)
    requires Consistent(s) && RecvsTell(s.recvs, offers)
    ensures RecvsTell(Run(s, ops).recvs, offers + Offers(ops))
    decreases |ops|
  {
    hide Consistent, RecvsTell;
    if ops == [] {
      assert offers + [] == offers;
    } else {
      OpKeepsRecvs(s, ops[0], offers);
      ConsistentKept(s, ops[0]);
      RecvsTellTheirOffers(Apply(s, ops[0]), ops[1..], offers + OfferIn(ops[0]));
      Regroup(offers, OfferIn(ops[0]), Offers(ops[1..]));
    }
  }

  // ---------------------------------------------------------------- what the user hears of the offers

  function Announcement(): OutEvent -> seq<OutEvent> { (e: OutEvent) => if e.FileOffered? then [e] else [] }

  function Announcements(es: seq<OutEvent>): seq<OutEvent> { Project(es, Announcement()) }

  /** The announcements of a list of offers, under ids from `first` on. */
  function Numbered(offers: seq<Offer>, first: nat): seq<OutEvent> {
    if offers == [] then []
    else
      var o := offers[0];
      [FileOffered(o.peer, o.fileName, first, o.bytesTotal)] + Numbered(offers[1..], first + 1)
  }

  lemma {:induction false} ReportsAnnounceNothing(s: State, ids: seq<nat>)
    ensures Announcements(RecvReports(s, ids)) == []
  {
    if ids != [] {
      ReportsAnnounceNothing(s, ids[1..]);
      var first := RecvReports(s, [ids[0]]);
      assert [ids[0]][1..] == [] && [ids[0]] + ids[1..] == ids;
      ReportsAppend(s, [ids[0]], ids[1..]);
      ProjectAppend(first, RecvReports(s, ids[1..]), Announcement());
      if first != [] { assert first[1..] == [] && !first[0].FileOffered?; }
    }
  }

  lemma OwedAnnouncements(s: State, op: Op)
    ensures Announcements(Owed(s, op)) == Numbered(OfferIn(op), s.recvs.counter)
  {
    if op.Expire? { ReportsAnnounceNothing(s, op.order.pendingRecvs + op.order.ongoingRecvs); }
    else {
      var owed := Owed(s, op);
      if owed != [] {
        assert owed[1..] == [] && Announcements(owed[1..]) == [];
        assert Announcements(owed) == Announcement()(owed[0]) + Announcements(owed[1..]);
      }
      if OfferIn(op) != [] { assert OfferIn(op)[1..] == []; }
    }
  }

  lemma CounterCountsOffers(s: State, op: Op)
    ensures Apply(s, op).recvs.counter == s.recvs.counter + |OfferIn(op)|
  {
    if op.Expire? { ExpiryShrinks(s, op.order); }
  }

  lemma NumberedFirst(op: Op, rest: seq<Offer>, first: nat)
    ensures Numbered(OfferIn(op) + rest, first) == Numbered(OfferIn(op), first) + Numbered(rest, first + |OfferIn(op)|)
  {
    if OfferIn(op) == [] {
      assert [] + rest == rest && [] + Numbered(rest, first) == Numbered(rest, first);
    } else {
      assert OfferIn(op)[1..] == [] && (OfferIn(op) + rest)[1..] == rest;
      assert Numbered(OfferIn(op), first) + [] == Numbered(OfferIn(op), first);
    }
  }

  lemma {:induction false} AllAnnouncements(s: State, ops: seq<Op>)
    ensures Announcements(AllOwed(s, ops)) == Numbered(Offers(ops), s.recvs.counter)
    decreases |ops|
  {
    if ops != [] {
      hide Owed, OfferIn, Numbered;
      var s1 := Apply(s, ops[0]);
      AllAnnouncements(s1, ops[1..]);
      OwedAnnouncements(s, ops[0]);
      CounterCountsOffers(s, ops[0]);
      ProjectAppend(Owed(s, ops[0]), AllOwed(s1, ops[1..]), Announcement());
      NumberedFirst(ops[0], Offers(ops[1..]), s.recvs.counter);
    }
  }

  /** The user hears of every offer once, in order, and of the `l`th one under the id `l`. */
  lemma OffersAreAnnounced(timeouts: Timeouts, ops: seq<Op>)
    requires PossibleRun(Initial(timeouts), ops)
    ensures Announcements(HandedOut(Initial(timeouts), ops) + Run(Initial(timeouts), ops).outEvents)
        == Numbered(Offers(ops), 0)
  {
    UserHearsEverything(Initial(timeouts), ops);
    AllAnnouncements(Initial(timeouts), ops);
    assert [] + AllOwed(Initial(timeouts), ops) == AllOwed(Initial(timeouts), ops);
  }

  // ---------------------------------------------------------------- sends and the requests they came from

  function RequestIn(op: Op): seq<Op> { if op.Send? then [op] else [] }

  function Requests(ops: seq<Op>): seq<Op> { if ops == [] then [] else RequestIn(ops[0]) + Requests(ops[1..]) }

  ghost predicate PendingSendTells(s: Sends, k: nat, requests: seq<Op>)
    requires k in s.pending
  {
    k < |requests| && requests[k].Send? && requests[k].metadata.Some? && var r := requests[k];
    && s.pending[k] == PendingSend(k, r.to, r.metadata.value, r.filePath, 0, r.now)
    && k in s.files && s.files[k] == Source(r.fileName, r.content, r.metadata.value)
  }

  ghost predicate OngoingSendTells(s: Sends, k: nat, requests: seq<Op>)
    requires k in s.ongoing
  {
    k < |requests| && requests[k].Send? && requests[k].metadata.Some? && var r, v := requests[k], s.ongoing[k];
    && v == OngoingSend(k, r.to, r.metadata.value, r.filePath, v.bytesSent, v.bytesSent, v.lastActive)
    && k in s.files && s.files[k] == Source(r.fileName, r.content, r.metadata.value)
  }

  /** Send `k` is request `k`, refused or not. */
  ghost predicate SendsTell(s: Sends, requests: seq<Op>) {
    && s.counter == |requests|
    && (forall k :: k in s.pending ==> PendingSendTells(s, k, requests))
    && (forall k :: k in s.ongoing ==> OngoingSendTells(s, k, requests))
  }

  lemma SendsTellWhenShrunk(s: Sends, s': Sends, requests: seq<Op>)
    requires SendsTell(s, requests) && SendsShrink(s, s')
    ensures SendsTell(s', requests)
  {
  }

  lemma RequestKeepsSends(s: State, op: Op, requests: seq<Op>)
    requires Consistent(s) && SendsTell(s.sends, requests) && op.Send?
    ensures SendsTell(Apply(s, op).sends, requests + [op])
  {
  }

  lemma ProgressKeepsSends(s: State, k: nat, now: nat, read: Option<nat>, requests: seq<Op>)
    requires SendsTell(s.sends, requests)
    ensures SendsTell(ProgressSend(s, k, now, read).sends, requests)
  {
  }

  lemma EventKeepsSends(s: State, peer: PeerId, ev: ToBehaviour, world: World, requests: seq<Op>)
    requires SendsTell(s.sends, requests)
    ensures SendsTell(OnHandlerEvent(s, peer, ev, world).sends, requests)
  {
    hide ProgressSend;
    if ev.SendProgressed? {
      ProgressKeepsSends(ReportSendProgress(s, ev.localSendId), ev.localSendId, world.now, world.read, requests);
    } else if ev.FileSendAccepted? && ev.localSendId in s.sends.pending {
      var k := ev.localSendId;
      var p := s.sends.pending[k];
      var v := OngoingSend(p.localSendId, p.remote, p.bytesTotal, p.filePath, p.cursor, 0, world.now);
      var sends := s.sends.(pending := s.sends.pending - {k}, ongoing := s.sends.ongoing[k := v]);
      assert PendingSendTells(s.sends, k, requests);
      assert SendsTell(sends, requests);
      ProgressKeepsSends(s.(sends := sends), k, world.now, world.read, requests);
    } else {
      SendsTellWhenShrunk(s.sends, OnHandlerEvent(s, peer, ev, world).sends, requests);
    }
  }

  lemma OpKeepsSends(s: State, op: Op, requests: seq<Op>)
    requires Consistent(s) && SendsTell(s.sends, requests)
    ensures SendsTell(Apply(s, op).sends, requests + RequestIn(op))
  {
    hide Consistent, SendsTell, CheckExpiry, OnHandlerEvent, SendFile;
    assert requests + [] == requests;
    if op.Send? { RequestKeepsSends(s, op, requests); }
    else if op.FromHandler? { EventKeepsSends(s, op.peer, op.event, op.world, requests); }
    else {
      if op.Expire? { ExpiryShrinks(s, op.order); }
      SendsTellWhenShrunk(s.sends, Apply(s, op).sends, requests);
    }
  }

  /** In every run, send `k` is the `k`th request, in all its terms, to the peer it names, pending since it
      was made; what has been sent of it ends where its file is read next. */
  lemma {:induction false} SendsTellTheirRequests(s: State, ops: seq<Op>, requests: seq<Op>)
    requires Consistent(s) && SendsTell(s.sends, requests)
    ensures SendsTell(Run(s, ops).sends, requests + Requests(ops))
    decreases |ops|
  {
    hide Consistent, SendsTell;
    if ops == [] {
      assert requests + [] == requests;
    } else {
      OpKeepsSends(s, ops[0], requests);
      ConsistentKept(s, ops[0]);
      SendsTellTheirRequests(Apply(s, ops[0]), ops[1..], requests + RequestIn(ops[0]));
      Regroup(requests, RequestIn(ops[0]), Requests(ops[1..]));
    }
  }

  /** From the start: the records repeat the offers and requests of the whole run. */
  lemma RecordsTellTheRun(timeouts: Timeouts, ops: seq<Op>)
    ensures var s := Run(Initial(timeouts), ops); RecvsTell(s.recvs, Offers(ops)) && SendsTell(s.sends, Requests(ops))
  {
    RecvsTellTheirOffers(Initial(timeouts), ops, []);
    SendsTellTheirRequests(Initial(timeouts), ops, []);
    assert [] + Offers(ops) == Offers(ops) && [] + Requests(ops) == Requests(ops);
  }

  // ---------------------------------------------------------------- when a record was last touched

  /** The operation makes send `k` progress. */
  predicate SendTouched(s: State, op: Op, k: nat) {
    op.FromHandler?
    && (op.event == SendProgressed(k) || (op.event == FileSendAccepted(k) && k in s.sends.pending))
  }

  predicate RecvTouched(s: State, op: Op, k: nat) {
    || (op.FromHandler? && op.event.RecvProgressed? && op.event.remoteSendId == k)
    || (op.Accept? && op.recvId in s.recvs.pending && s.recvs.pending[op.recvId].remoteSendId == k)
  }

  /** The clock at the last operation of a run that made send `k` progress, `before` if there is none. */
  function LastSendTouch(s: State, ops: seq<Op>, k: nat, before: nat): nat
    decreases |ops|
  {
    if ops == [] then before
    else LastSendTouch(Apply(s, ops[0]), ops[1..], k, if SendTouched(s, ops[0], k) then ClockOf(ops[0]) else before)
  }

  function LastRecvTouch(s: State, ops: seq<Op>, k: nat, before: nat): nat
    decreases |ops|
  {
    if ops == [] then before
    else LastRecvTouch(Apply(s, ops[0]), ops[1..], k, if RecvTouched(s, ops[0], k) then ClockOf(ops[0]) else before)
  }

  lemma ProgressStamp(s: State, id: nat, now: nat, read: Option<nat>, k: nat)
    requires k in ProgressSend(s, id, now, read).sends.ongoing
    ensures k in s.sends.ongoing
    ensures ProgressSend(s, id, now, read).sends.ongoing[k].lastActive
        == if k == id then now else s.sends.ongoing[k].lastActive
  {
  }

  lemma EventStamp(s: State, peer: PeerId, ev: ToBehaviour, world: World, k: nat)
    requires k in OnHandlerEvent(s, peer, ev, world).sends.ongoing
    ensures var v := OnHandlerEvent(s, peer, ev, world).sends.ongoing[k];
            if SendTouched(s, FromHandler(peer, ev, world), k) then v.lastActive == world.now
            else k in s.sends.ongoing && v.lastActive == s.sends.ongoing[k].lastActive
  {
    hide ProgressSend;
    if ev.SendProgressed? {
      ProgressStamp(ReportSendProgress(s, ev.localSendId), ev.localSendId, world.now, world.read, k);
    } else if ev.FileSendAccepted? && ev.localSendId in s.sends.pending {
      var id := ev.localSendId;
      var p := s.sends.pending[id];
      var v := OngoingSend(p.localSendId, p.remote, p.bytesTotal, p.filePath, p.cursor, 0, world.now);
      var sends := s.sends.(pending := s.sends.pending - {id}, ongoing := s.sends.ongoing[id := v]);
      ProgressStamp(s.(sends := sends), id, world.now, world.read, k);
    }
  }

  lemma SendStamp(s: State, op: Op, k: nat)
    requires k in Apply(s, op).sends.ongoing
    ensures if SendTouched(s, op, k) then Apply(s, op).sends.ongoing[k].lastActive == ClockOf(op)
            else k in s.sends.ongoing && Apply(s, op).sends.ongoing[k].lastActive == s.sends.ongoing[k].lastActive
  {
    hide CheckExpiry, OnHandlerEvent;
    if op.Expire? { ExpiryShrinks(s, op.order); }
    else if op.FromHandler? { EventStamp(s, op.peer, op.event, op.world, k); }
  }

  lemma RecvStamp(s: State, op: Op, k: nat)
    requires k in Apply(s, op).recvs.ongoing
    ensures if RecvTouched(s, op, k) then Apply(s, op).recvs.ongoing[k].lastActive == ClockOf(op)
            else k in s.recvs.ongoing && Apply(s, op).recvs.ongoing[k].lastActive == s.recvs.ongoing[k].lastActive
  {
    hide CheckExpiry;
    if op.Expire? { ExpiryShrinks(s, op.order); }
  }

  /** In every run a live send was last active when it last made progress, which is what expiry goes by. */
  lemma {:induction false} SendsAreStamped(s: State, ops: seq<Op>, k: nat, before: nat)
    requires k in s.sends.ongoing ==> s.sends.ongoing[k].lastActive == before
    ensures k in Run(s, ops).sends.ongoing ==>
              Run(s, ops).sends.ongoing[k].lastActive == LastSendTouch(s, ops, k, before)
    decreases |ops|
  {
    hide Apply, SendTouched, ClockOf;
    if ops != [] {
      if k in Apply(s, ops[0]).sends.ongoing { SendStamp(s, ops[0], k); }
      SendsAreStamped(Apply(s, ops[0]), ops[1..], k, if SendTouched(s, ops[0], k) then ClockOf(ops[0]) else before);
    }
  }

  lemma {:induction false} RecvsAreStamped(s: State, ops: seq<Op>, k: nat, before: nat)
    requires k in s.recvs.ongoing ==> s.recvs.ongoing[k].lastActive == before
    ensures k in Run(s, ops).recvs.ongoing ==>
              Run(s, ops).recvs.ongoing[k].lastActive == LastRecvTouch(s, ops, k, before)
    decreases |ops|
  {
    hide Apply, RecvTouched, ClockOf;
    if ops != [] {
      if k in Apply(s, ops[0]).recvs.ongoing { RecvStamp(s, ops[0], k); }
      RecvsAreStamped(Apply(s, ops[0]), ops[1..], k, if RecvTouched(s, ops[0], k) then ClockOf(ops[0]) else before);
    }
  }

  // ---------------------------------------------------------------- who is connected

  /** The last word of a run about a peer: its outbound stream was negotiated, or its last connection closed. */
  function LastWord(ops: seq<Op>, peer: PeerId, before: bool): bool {
    if ops == [] then before
    else
      LastWord(ops[1..], peer,
               if ops[0] == Disconnect(peer, 0) then false
               else if ops[0].FromHandler? && ops[0].peer == peer && ops[0].event.OutboundNegotiated? then true
               else before)
  }

  /** A peer is connected if and only if that is the last word about it. */
  lemma {:induction false} ConnectedIsLastWord(s: State, ops: seq<Op>, peer: PeerId)
    ensures peer in Run(s, ops).connectedPeers <==> LastWord(ops, peer, peer in s.connectedPeers)
    decreases |ops|
  {
    hide CheckExpiry;
    if ops != [] {
      if ops[0].Expire? { ExpiryShrinks(s, ops[0].order); }
      ConnectedIsLastWord(Apply(s, ops[0]), ops[1..], peer);
    }
  }
}

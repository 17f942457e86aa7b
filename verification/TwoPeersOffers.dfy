/** What the users of two peers are told of each other's files is what was said of them: the name, the
    length and the id of an offer are the same at both ends in every state that two peers can get into. */
module TwoPeersOffers {
  import opened Basics
  import opened BlobEvents
  import BlobState
  import BlobTables
  import BlobReports
  import opened Outbound
  import opened TwoPeers
  import opened TwoPeersRuns

  datatype Terms = Terms(id: nat, fileName: Bytes, bytesTotal: nat)

  /** The terms are those of a request that was made. */
  ghost predicate Requested(b: BlobState.State, t: Terms) {
    && t.id in b.sends.files
    && b.sends.files[t.id].fileName == t.fileName && b.sends.files[t.id].announced == t.bytesTotal
  }

  function OfferOf(t: Terms): FromBehaviour { NewFileSend(t.fileName, t.id, t.bytesTotal) }

  ghost predicate Queued(b: BlobState.State, t: Terms) { exists x :: x in b.handlerEvents && x.event == OfferOf(t) }

  /** An offer with these terms is on its way to the other side. */
  ghost predicate UnderWay(n: Node, t: Terms) {
    || Queued(n.behaviour, t) || OfferOf(t) in n.machine.queue || n.machine.phase == Busy(OfferOf(t))
    || OfferOf(t) in n.wire
  }

  /** The user was told of an offer with these terms. */
  ghost predicate Announced(b: BlobState.State, t: Terms) {
    exists e :: e in b.outEvents && e.FileOffered? && e.fileName == t.fileName && e.bytesTotal == t.bytesTotal
      && e.localRecvId in b.recvs.received && b.recvs.received[e.localRecvId].remoteSendId == t.id
  }

  ghost predicate Recorded(r: BlobState.Recvs, t: Terms) {
    || (exists l :: l in r.pending && r.pending[l].remoteSendId == t.id
          && r.pending[l].fileName == t.fileName && r.pending[l].bytesTotal == t.bytesTotal)
    || (t.id in r.ongoing && r.ongoing[t.id].fileName == t.fileName && r.ongoing[t.id].bytesTotal == t.bytesTotal)
  }

  ghost predicate Heard(n: Node, t: Terms) {
    Mirror(OfferOf(t)) in n.pendingOut || Recorded(n.behaviour.recvs, t) || Announced(n.behaviour, t)
  }

  /** Every event about an offer names the peer and a receive that there is. */
  ghost predicate EventsFit(b: BlobState.State, peer: BlobState.PeerId) {
    forall e :: e in b.outEvents && e.FileOffered? ==> e.peer == peer && e.localRecvId in b.recvs.received
  }

  /** Whatever is said of an offer, on its way or over there, is what was requested. */
  ghost predicate Truthful(s: System, p: Side, t: Terms) {
    UnderWay(s.At(p), t) || Heard(s.At(Other(p)), t) ==> Requested(s.At(p).behaviour, t)
  }

  // ---------------------------------------------------------------- one behaviour

  predicate BySystem(op: BlobState.Op, peer: BlobState.PeerId) {
    || op.Send? || op.Accept? || op.StopRecv? || op.StopSend? || op.PopOut? || op.PopHandlerEvent?
    || (op.FromHandler? && op.peer == peer) || op.Disconnect?
  }

  /** Only a request queues an offer, and its terms are requested then; what was requested stays so. */
  lemma QueuedWhenRequested(b: BlobState.State, op: BlobState.Op, peer: BlobState.PeerId, t: Terms)
    requires BlobTables.Consistent(b) && BySystem(op, peer) && BlobState.Possible(b, op)
    ensures var b' := BlobState.Apply(b, op);
            && (Queued(b', t) ==> Queued(b, t) || Requested(b', t))
            && (Requested(b, t) ==> Requested(b', t))
  {
    RequestedStays(b, op, peer, t);
    hide BlobState.OnHandlerEvent, BlobState.OnDisconnect;
    var b' := BlobState.Apply(b, op);
    if op.PopHandlerEvent? { BlobReports.NothingIsDueAtAPop(b); }
    else { BlobReports.DueIsQueued(b, op); }
  }

  lemma EventLeavesFiles(b: BlobState.State, peer: BlobState.PeerId, ev: ToBehaviour, world: BlobState.World)
    ensures BlobState.OnHandlerEvent(b, peer, ev, world).sends.files == b.sends.files
  {
  }

  lemma EventRecords(b: BlobState.State, peer: BlobState.PeerId, ev: ToBehaviour, world: BlobState.World, t: Terms)
    requires BlobTables.Consistent(b) && Recorded(BlobState.OnHandlerEvent(b, peer, ev, world).recvs, t)
    ensures Recorded(b.recvs, t) || ev == Mirror(OfferOf(t))
  {
  }

  lemma EventLeavesReceived(b: BlobState.State, peer: BlobState.PeerId, ev: ToBehaviour, world: BlobState.World, l: nat)
    requires BlobTables.Consistent(b) && l in b.recvs.received
    ensures var r := BlobState.OnHandlerEvent(b, peer, ev, world).recvs.received;
            l in r && r[l].remoteSendId == b.recvs.received[l].remoteSendId
  {
  }

  lemma RequestedStays(b: BlobState.State, op: BlobState.Op, peer: BlobState.PeerId, t: Terms)
    requires BlobTables.Consistent(b) && BySystem(op, peer)
    ensures Requested(b, t) ==> Requested(BlobState.Apply(b, op), t)
  {
    hide BlobState.OnHandlerEvent;
    if op.FromHandler? { EventLeavesFiles(b, op.peer, op.event, op.world); }
  }

  /** A behaviour knows of an offer only what its handler told it. */
  lemma RecordedWhenTold(b: BlobState.State, op: BlobState.Op, peer: BlobState.PeerId, t: Terms)
    requires BlobTables.Consistent(b) && BySystem(op, peer)
    requires Recorded(BlobState.Apply(b, op).recvs, t)
    ensures Recorded(b.recvs, t) || (op.FromHandler? && op.event == Mirror(OfferOf(t)))
  {
    hide BlobState.OnHandlerEvent;
    if op.FromHandler? { EventRecords(b, op.peer, op.event, op.world, t); }
  }

  /** A receive stays that of the same offer. */
  lemma ReceivedStays(b: BlobState.State, op: BlobState.Op, peer: BlobState.PeerId, l: nat)
    requires BlobTables.Consistent(b) && BySystem(op, peer) && l in b.recvs.received
    ensures var r := BlobState.Apply(b, op).recvs.received;
            l in r && r[l].remoteSendId == b.recvs.received[l].remoteSendId
  {
    hide BlobState.OnHandlerEvent;
    if op.FromHandler? { EventLeavesReceived(b, op.peer, op.event, op.world, l); }
  }

  lemma AnnouncedWhenTold(b: BlobState.State, op: BlobState.Op, peer: BlobState.PeerId, t: Terms)
    requires BlobTables.Consistent(b) && BySystem(op, peer) && BlobState.Possible(b, op) && EventsFit(b, peer)
    ensures var b' := BlobState.Apply(b, op);
            && EventsFit(b', peer)
            && (Announced(b', t) ==> Announced(b, t) || (op.FromHandler? && op.event == Mirror(OfferOf(t))))
  {
    hide BlobTables.Consistent, BlobState.OnHandlerEvent, BlobState.OnDisconnect;
    var b' := BlobState.Apply(b, op);
    forall l | l in b.recvs.received
      ensures l in b'.recvs.received && b'.recvs.received[l].remoteSendId == b.recvs.received[l].remoteSendId
    {
      ReceivedStays(b, op, peer, l);
    }
    if op.PopOut? { BlobReports.PopOwesNothing(b); }
    else { BlobReports.OwedIsQueued(b, op); }
    if op.FromHandler? && op.event.IncomingFile? { NewReceive(b, op); }
  }

  lemma NewReceive(b: BlobState.State, op: BlobState.Op)
    requires op.FromHandler? && op.event.IncomingFile?
    ensures var r := BlobState.Apply(b, op).recvs.received;
            b.recvs.counter in r && r[b.recvs.counter].remoteSendId == op.event.remoteSendId
  {
  }

  // ---------------------------------------------------------------- one side

  /** The behaviour's operation in an act, if there is one. */
  function OpOf(n: Node, act: Act, peer: BlobState.PeerId): Option<BlobState.Op> {
    match act
    case Request(_, op) => Some(op)
    case HandOver(_) => Some(BlobState.PopHandlerEvent)
    case TakeEvent(_, world) =>
      if n.pendingOut == [] then None else Some(BlobState.FromHandler(peer, n.pendingOut[0], world))
    case Report(_, ev) => Some(BlobState.FromHandler(peer, ev, BlobState.World(0, None, [], 0)))
    case ReadFails(_) => Some(BlobState.FromHandler(peer, Failure(Io), BlobState.World(0, None, [], 0)))
    case Close(_) => Some(BlobState.Disconnect(peer, 0))
    case _ => None
  }

  lemma BehaviourAfter(n: Node, act: Act, peer: BlobState.PeerId, up: bool)
    requires NodeGuard(n, act, peer, up)
    ensures match OpOf(n, act, peer)
            case None => NodeAfter(n, act, peer, up).behaviour == n.behaviour
            case Some(op) =>
              && BySystem(op, peer) && BlobState.Possible(n.behaviour, op)
              && NodeAfter(n, act, peer, up).behaviour == BlobState.Apply(n.behaviour, op)
  {
    hide BlobState.OnHandlerEvent, BlobState.OnDisconnect;
  }

  lemma UnderWayWhenRequested(n: Node, act: Act, peer: BlobState.PeerId, up: bool, t: Terms)
    requires NodeFits(n, peer) && NodeGuard(n, act, peer, up)
    ensures var n' := NodeAfter(n, act, peer, up);
            && (UnderWay(n', t) ==> UnderWay(n, t) || Requested(n'.behaviour, t))
            && (Requested(n.behaviour, t) ==> Requested(n'.behaviour, t))
  {
    hide BlobState.Apply, BlobState.Possible, BlobTables.Consistent, SolePeer;
    BehaviourAfter(n, act, peer, up);
    var op := OpOf(n, act, peer);
    if op.Some? { QueuedWhenRequested(n.behaviour, op.value, peer, t); }
  }

  lemma HeardWhenTold(n: Node, act: Act, peer: BlobState.PeerId, up: bool, t: Terms)
    requires NodeFits(n, peer) && NodeGuard(n, act, peer, up) && EventsFit(n.behaviour, peer)
    ensures var n' := NodeAfter(n, act, peer, up); EventsFit(n'.behaviour, peer) && (Heard(n', t) ==> Heard(n, t))
  {
    hide BlobState.Apply, BlobState.Possible, BlobTables.Consistent, SolePeer, Recorded, Announced, EventsFit;
    BehaviourAfter(n, act, peer, up);
    var op := OpOf(n, act, peer);
    if op.Some? {
      AnnouncedWhenTold(n.behaviour, op.value, peer, t);
      if Recorded(BlobState.Apply(n.behaviour, op.value).recvs, t) { RecordedWhenTold(n.behaviour, op.value, peer, t); }
    }
  }

  // ---------------------------------------------------------------- both sides

  ghost predicate EventsFitAt(s: System, q: Side) { EventsFit(s.At(q).behaviour, IdOf(Other(q))) }

  /** An act of one side, before what it delivers has arrived. */
  lemma OwnActKeepsTruth(s: System, act: Act, p: Side, t: Terms)
    requires Wellformed(s) && Guard(s, act) && !act.Sever? && !act.Connect?
    requires Truthful(s, p, t) && EventsFitAt(s, Other(p))
    ensures var s' := s.With(act.side, NodeAfter(s.At(act.side), act, IdOf(Other(act.side)), s.up));
            Truthful(s', p, t) && EventsFitAt(s', Other(p))
  {
    hide UnderWay, Heard, Requested, EventsFit, NodeAfter, NodeGuard, NodeFits;
    assert NodeFits(s.At(act.side), IdOf(Other(act.side)));
    if act.side == p { UnderWayWhenRequested(s.At(p), act, IdOf(Other(p)), s.up, t); }
    else { HeardWhenTold(s.At(act.side), act, IdOf(p), s.up, t); }
  }

  /** What is delivered was under way. */
  lemma ArrivalKeepsTruth(s: System, p: Side, m: FromBehaviour, q: Side, t: Terms)
    requires Truthful(s, q, t) && EventsFitAt(s, Other(q))
    requires p == q && m == OfferOf(t) ==> Requested(s.At(q).behaviour, t)
    ensures var s' := s.With(Other(p), FrameReceived(s.At(Other(p)), m));
            Truthful(s', q, t) && EventsFitAt(s', Other(q))
  {
    hide Recorded, Announced, Requested, EventsFit, Queued;
  }

  lemma OffersOnTheWire(n: Node, t: Terms)
    requires n.wire != [] && n.wire[0] == OfferOf(t)
    ensures UnderWay(n, t)
  {
  }

  lemma ConnectionKeepsTruth(s: System, act: Act, p: Side, t: Terms)
    requires Guard(s, act) && (act.Sever? || act.Connect?) && Truthful(s, p, t) && EventsFitAt(s, Other(p))
    ensures Truthful(Next(s, act), p, t) && EventsFitAt(Next(s, act), Other(p))
  {
    hide Recorded, Announced, Requested, EventsFit, Queued;
  }

  lemma ActKeepsTruth(s: System, act: Act, p: Side, t: Terms)
    requires Wellformed(s) && Guard(s, act) && Truthful(s, p, t) && EventsFitAt(s, Other(p))
    ensures Truthful(Next(s, act), p, t) && EventsFitAt(Next(s, act), Other(p))
  {
    hide Wellformed, Truthful, EventsFitAt, NodeGuard, UnderWay;
    if act.Sever? || act.Connect? {
      ConnectionKeepsTruth(s, act, p, t);
    } else {
      OwnActKeepsTruth(s, act, p, t);
      if act.Deliver? { DeliveryKeepsTruth(s, act, p, t); }
    }
  }

  lemma DeliveryKeepsTruth(s: System, act: Act, p: Side, t: Terms)
    requires Guard(s, act) && act.Deliver? && Truthful(s, p, t)
    requires var s1 := s.With(act.side, NodeAfter(s.At(act.side), act, IdOf(Other(act.side)), s.up));
             Truthful(s1, p, t) && EventsFitAt(s1, Other(p))
    ensures Truthful(Next(s, act), p, t) && EventsFitAt(Next(s, act), Other(p))
  {
    hide EventsFitAt, UnderWay, Heard, Requested;
    var m, s1 := s.At(act.side).wire[0], s.With(act.side, FrameSent(s.At(act.side)));
    if act.side == p && m == OfferOf(t) { OffersOnTheWire(s.At(p), t); }
    assert s1.At(p).behaviour == s.At(p).behaviour;
    ArrivalKeepsTruth(s1, act.side, m, p, t);
  }

  lemma {:induction false} TruthAlways(s: System, acts: seq<Act>, p: Side, t: Terms)
    requires Wellformed(s) && Guarded(s, acts) && Truthful(s, p, t) && EventsFitAt(s, Other(p))
    ensures Truthful(RunOf(s, acts), p, t) && EventsFitAt(RunOf(s, acts), Other(p))
    decreases |acts|
  {
    hide Wellformed, Truthful, EventsFitAt, Guard, Next;
    if acts != [] {
      WellformedKept(s, acts[0]);
      ActKeepsTruth(s, acts[0], p, t);
      TruthAlways(Next(s, acts[0]), acts[1..], p, t);
    }
  }

  lemma InitiallyTruthful(left: BlobState.Timeouts, right: BlobState.Timeouts, p: Side, t: Terms)
    ensures var s := Unconnected(left, right); Truthful(s, p, t) && EventsFitAt(s, Other(p))
  {
  }

  lemma ReachableIsTruthful(s: System, p: Side, t: Terms)
    requires Reachable(s)
    ensures Truthful(s, p, t) && EventsFitAt(s, Other(p))
  {
    hide Wellformed, Truthful, EventsFitAt, Guarded, RunOf, Unconnected;
    var left, right, acts :| Guarded(Unconnected(left, right), acts) && s == RunOf(Unconnected(left, right), acts);
    InitiallyWellformed(left, right);
    InitiallyTruthful(left, right, p, t);
    TruthAlways(Unconnected(left, right), acts, p, t);
  }

  /** In every reachable state, an offer that the user is told of comes from the other side, whose user asked
      to send a file of that name and length under the id that the offer is kept with. */
  lemma OffersAreTruthful(s: System, q: Side, e: BlobState.OutEvent)
    requires Reachable(s) && e in s.At(q).behaviour.outEvents && e.FileOffered?
    ensures e.peer == IdOf(Other(q)) && e.localRecvId in s.At(q).behaviour.recvs.received
    ensures var k := s.At(q).behaviour.recvs.received[e.localRecvId].remoteSendId;
            var files := s.At(Other(q)).behaviour.sends.files;
            k in files && files[k].fileName == e.fileName && files[k].announced == e.bytesTotal
  {
    ReachableIsTruthful(s, Other(q), Terms(0, [], 0));
    var t := Terms(s.At(q).behaviour.recvs.received[e.localRecvId].remoteSendId, e.fileName, e.bytesTotal);
    ReachableIsTruthful(s, Other(q), t);
    assert Announced(s.At(q).behaviour, t);
  }

  /** And so does every record that a receive has, pending or ongoing. */
  lemma RecordsAreTruthful(s: System, q: Side, t: Terms)
    requires Reachable(s) && Recorded(s.At(q).behaviour.recvs, t)
    ensures Requested(s.At(Other(q)).behaviour, t)
  {
    ReachableIsTruthful(s, Other(q), t);
  }
}

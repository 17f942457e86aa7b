/** Every act of two peers moves every transfer by its steps, so every transfer of every run is safe. */
module TwoPeersRuns {
  import opened Basics
  import opened BlobEvents
  import BlobState
  import BlobTables
  import opened Outbound
  import opened TwoPeers
  import opened TwoPeersView
  import opened TwoPeersSteps
  import opened TwoPeersWires
  import T = BlobTransfer

  /** Every transfer, in either direction, is in a safe state. */
  ghost predicate Inv(s: System) {
    && Wellformed(s)
    && Distinct(s.left.behaviour.recvs) && Distinct(s.right.behaviour.recvs)
    && (forall p, k :: T.Safe(View(s, p, k)))
  }

  lemma KnownUnlessUnaware(n: Node, k: nat)
    requires BlobTables.Consistent(n.behaviour) && Distinct(n.behaviour.recvs)
    ensures Knows(n.behaviour.recvs, k) <==> !ReceiverOf(n.behaviour.recvs, k).Unaware?
  {
  }

  /** An offer that is about to be taken is the first the receiver hears of its transfer. */
  lemma OfferIsNew(s: System, q: Side)
    requires Inv(s) && s.At(q).pendingOut != [] && s.At(q).pendingOut[0].IncomingFile?
    ensures !Knows(s.At(q).behaviour.recvs, s.At(q).pendingOut[0].remoteSendId)
  {
    hide SenderOf, DataOf, T.OneToken, T.Prefixes, T.EofIsEnd, FlightFits, SolePeer;
    var k := s.At(q).pendingOut[0].remoteSendId;
    assert T.Safe(View(s, Other(q), k));
    HeadTaken(s.At(q).pendingOut, k);
    T.UpAppend(UpIn(s.At(q).pendingOut[0], k), UpsIn(s.At(q).pendingOut[1..], k));
    assert T.Offers(UpIn(s.At(q).pendingOut[0], k)) == 1;
    KnownUnlessUnaware(s.At(q), k);
  }

  // ---------------------------------------------------------------- every act moves every transfer by its steps

  lemma SenderRequests(n: Node, op: BlobState.Op, k: nat, up: bool, r: RecvHalf)
    requires BlobTables.Consistent(n.behaviour) && IsRequest(op)
    ensures Follows(Join(SendHalfOf(n, k), r), SenderEvents(n, Request(Left, op), k, up),
                    Join(SendHalfOf(WithBehaviour(n, BlobState.Apply(n.behaviour, op)), k), r))
  {
    RequestSendHalf(n, op, k);
    var t, t' := Join(SendHalfOf(n, k), r), Join(SendHalfOf(WithBehaviour(n, BlobState.Apply(n.behaviour, op)), k), r);
    if StartsSend(n.behaviour, op, k) { FollowsOne(t, T.Offered(op.content, op.metadata.value), t'); }
    else if StopsSend(n.behaviour, op, k) { FollowsOne(t, T.SendCancelled, t'); }
  }

  lemma ReceiverRequests(n: Node, op: BlobState.Op, k: nat, up: bool, h: SendHalf)
    requires BlobTables.Consistent(n.behaviour) && Distinct(n.behaviour.recvs) && IsRequest(op)
    ensures Follows(Join(h, RecvHalfOf(n, k)), ReceiverEvents(n, Request(Left, op), k, up, |h.answers|),
                    Join(h, RecvHalfOf(WithBehaviour(n, BlobState.Apply(n.behaviour, op)), k)))
    ensures Distinct(BlobState.Apply(n.behaviour, op).recvs)
  {
    RequestRecvs(n.behaviour, op, k);
    RequestRecvHalf(n, op, k);
    var r, r' := RecvHalfOf(n, k), RecvHalfOf(WithBehaviour(n, BlobState.Apply(n.behaviour, op)), k);
    var t, t' := Join(h, r), Join(h, r');
    Regroup(h.answers, r.replies, [T.Agree]);
    Regroup(h.answers, r.replies, [T.Refuse]);
    if AcceptsRecv(n.behaviour, op, k) { FollowsOne(t, T.Accepted, t'); }
    else if StopsRecv(n.behaviour, op, k) { FollowsOne(t, T.RecvCancelled, t'); }
  }

  /** Negotiation and errors belong to no transfer. */
  lemma IdleActs(n: Node, act: Act, peer: BlobState.PeerId, up: bool, k: nat)
    requires FlightFits(n) && NodeGuard(n, act, peer, up)
    requires act.Report? || act.ReadFails? || act.OutboundUp? || act.OutboundDown? || act.InboundUp?
    ensures SendHalfOf(NodeAfter(n, act, peer, up), k) == SendHalfOf(n, k)
    ensures RecvHalfOf(NodeAfter(n, act, peer, up), k) == RecvHalfOf(n, k)
    ensures NodeAfter(n, act, peer, up).behaviour.recvs == n.behaviour.recvs
  {
    hide SendHalfOf, RecvHalfOf, UpsIn, DownsIn, Credits, BlobState.Possible, Turned, Taken, TakenEvent, ConnectionGone;
    NeutralEvent(n, OutboundNegotiated, k);
    NeutralEvent(n, InboundNegotiated, k);
    SameHalves(n, NodeAfter(n, act, peer, up), k);
  }

  lemma SameHalves(n: Node, n': Node, k: nat)
    requires var b, b' := n.behaviour, n'.behaviour;
             b'.sends == b.sends && b'.recvs == b.recvs && b'.handlerEvents == b.handlerEvents
    requires n'.wire == n.wire && n'.flight == n.flight && n'.machine.queue == n.machine.queue
    requires n'.machine.phase == n.machine.phase || (!n'.machine.phase.Busy? && !n.machine.phase.Busy?)
    requires UpsIn(n'.pendingOut, k) == UpsIn(n.pendingOut, k) && DownsIn(n'.pendingOut, k) == DownsIn(n.pendingOut, k)
    requires Credits(n'.pendingOut, k) == Credits(n.pendingOut, k)
    ensures SendHalfOf(n', k) == SendHalfOf(n, k) && RecvHalfOf(n', k) == RecvHalfOf(n, k)
  {
    hide UpsIn, DownsIn, Credits;
  }

  /** One side as it is between acts. */
  ghost predicate Sound(n: Node, peer: BlobState.PeerId, up: bool) {
    NodeFits(n, peer) && Distinct(n.behaviour.recvs) && (!up ==> n.wire == []) && (up ==> n.alive)
  }

  lemma SenderActs(n: Node, act: Act, peer: BlobState.PeerId, up: bool, k: nat, r: RecvHalf)
    requires Sound(n, peer, up) && NodeGuard(n, act, peer, up) && !act.Sever? && !act.Connect? && !act.Deliver?
    ensures Follows(Join(SendHalfOf(n, k), r), SenderEvents(n, act, k, up),
        Join(SendHalfOf(NodeAfter(n, act, peer, up), k), r))
  {
    hide SendHalfOf, RecvHalfOf, Join, Follows;
    if act.Request? { SenderRequests(n, act.op, k, up, r); }
    else if act.HandOver? { SenderHandsOver(n, k, up, r); }
    else if act.TakeEvent? { SenderTakes(n, peer, act.world, k, r); }
    else if act.Outbound? { SenderTurns(n, act.poll, up, k, r); }
    else if act.Lose? { SenderLoses(n, act.from, act.to, k, r); }
    else if act.Close? { SenderCloses(n, peer, k, up, r); }
    else {
      IdleActs(n, act, peer, up, k);
      FollowsNone(Join(SendHalfOf(n, k), r));
    }
  }

  lemma ReceiverActs(n: Node, act: Act, peer: BlobState.PeerId, up: bool, k: nat, h: SendHalf)
    requires Sound(n, peer, up) && NodeGuard(n, act, peer, up) && !act.Sever? && !act.Connect? && !act.Deliver?
    requires act.TakeEvent? && n.pendingOut[0].IncomingFile? ==> !Knows(n.behaviour.recvs, n.pendingOut[0].remoteSendId)
    ensures Follows(Join(h, RecvHalfOf(n, k)), ReceiverEvents(n, act, k, up, |h.answers|),
        Join(h, RecvHalfOf(NodeAfter(n, act, peer, up), k)))
    ensures Distinct(NodeAfter(n, act, peer, up).behaviour.recvs)
  {
    hide SendHalfOf, RecvHalfOf, Join, Follows;
    if act.Request? { ReceiverRequests(n, act.op, k, up, h); }
    else if act.HandOver? { ReceiverHandsOver(n, k, up, h); }
    else if act.TakeEvent? { ReceiverTakes(n, peer, act.world, k, h); }
    else if act.Outbound? { ReceiverTurns(n, act.poll, up, k, h); }
    else if act.Lose? { ReceiverLoses(n, act.from, act.to, k, h); }
    else if act.Close? { ReceiverCloses(n, peer, k, up, h); ClosedRecords(n.behaviour, peer, k); }
    else {
      IdleActs(n, act, peer, up, k);
      FollowsNone(Join(h, RecvHalfOf(n, k)));
    }
  }

  lemma DeliveredNodes(s: System, p: Side)
    requires Inv(s) && Guard(s, Deliver(p))
    ensures var n, m, s' := s.At(p), s.At(Other(p)), Next(s, Deliver(p));
            n.wire != [] && FlightFits(n) && s'.At(p) == FrameSent(n) && s'.At(Other(p)) == FrameReceived(m, n.wire[0])
  {
  }

  lemma DeliverySimulates(s: System, p: Side, k: nat)
    requires Inv(s) && Guard(s, Deliver(p))
    ensures Follows(View(s, p, k), StepsOf(s, Deliver(p), p, k), View(Next(s, Deliver(p)), p, k))
    ensures Follows(View(s, Other(p), k), StepsOf(s, Deliver(p), Other(p), k), View(Next(s, Deliver(p)), Other(p), k))
  {
    hide Inv, Guard, Next, Join, SendHalfOf, RecvHalfOf, FrameSent, FrameReceived, FlightFits;
    DeliveredNodes(s, p);
    FrameArrives(s.At(p), s.At(Other(p)), k, s.up);
    AnswerArrives(s.At(Other(p)), s.At(p), k);
  }

  lemma SeveredNodes(s: System, p: Side)
    requires Inv(s) && Guard(s, Sever)
    ensures var n, m, s' := s.At(p), s.At(Other(p)), Next(s, Sever);
            FlightFits(n) && s'.At(p) == Without(n, 0, |n.wire|) && s'.At(Other(p)) == Without(m, 0, |m.wire|)
  {
  }

  lemma SeveranceSimulates(s: System, p: Side, k: nat)
    requires Inv(s) && Guard(s, Sever)
    ensures Follows(View(s, p, k), StepsOf(s, Sever, p, k), View(Next(s, Sever), p, k))
  {
    hide Inv, Guard, Next, Join, SendHalfOf, RecvHalfOf, Without, FlightFits, Follows, LossEvents, DownLossEvents;
    SeveredNodes(s, p);
    BothLose(s.At(p), s.At(Other(p)), k);
  }

  lemma BothLose(n: Node, m: Node, k: nat)
    requires FlightFits(n)
    ensures Follows(Join(SendHalfOf(n, k), RecvHalfOf(m, k)),
                    LossEvents(n, 0, |n.wire|, k) + DownLossEvents(m, 0, |m.wire|, k, |DownsIn(n.pendingOut, k)|),
                    Join(SendHalfOf(Without(n, 0, |n.wire|), k), RecvHalfOf(Without(m, 0, |m.wire|), k)))
  {
    hide Join, SendHalfOf, RecvHalfOf, Follows, FlightFits;
    var h', r := SendHalfOf(Without(n, 0, |n.wire|), k), RecvHalfOf(m, k);
    SenderLoses(n, 0, |n.wire|, k, r);
    ReceiverLoses(m, 0, |m.wire|, k, h');
    AnswersKept(n, k);
    var lost, down := LossEvents(n, 0, |n.wire|, k), DownLossEvents(m, 0, |m.wire|, k, |DownsIn(n.pendingOut, k)|);
    LossFollowedBy(Join(SendHalfOf(n, k), r), Join(h', r), lost[0], down[0],
        Join(h', RecvHalfOf(Without(m, 0, |m.wire|), k)));
    assert lost + down == [lost[0], down[0]];
  }

  lemma AnswersKept(n: Node, k: nat)
    ensures SendHalfOf(Without(n, 0, |n.wire|), k).answers == DownsIn(n.pendingOut, k)
  {
  }

  /** A plain act changes the acting side only, and that one as NodeAfter says. */
  lemma PlainNext(s: System, act: Act)
    requires Guard(s, act) && !act.Sever? && !act.Connect? && !act.Deliver?
    ensures Next(s, act).At(act.side) == NodeAfter(s.At(act.side), act, IdOf(Other(act.side)), s.up)
    ensures Next(s, act).At(Other(act.side)) == s.At(Other(act.side))
  {
  }

  lemma BothSound(s: System, p: Side)
    requires Inv(s)
    ensures Sound(s.At(p), IdOf(Other(p)), s.up)
  {
  }

  lemma SenderSimulates(s: System, act: Act, k: nat)
    requires Inv(s) && Guard(s, act) && !act.Sever? && !act.Connect? && !act.Deliver?
    ensures Follows(View(s, act.side, k), SenderEvents(s.At(act.side), act, k, s.up), View(Next(s, act), act.side, k))
  {
    hide Inv, Follows, Join, SendHalfOf, RecvHalfOf, SenderEvents, NodeAfter, BlobState.Possible, Sound;
    BothSound(s, act.side);
    PlainNext(s, act);
    SenderActs(s.At(act.side), act, IdOf(Other(act.side)), s.up, k, RecvHalfOf(s.At(Other(act.side)), k));
  }

  lemma ReceiverSimulates(s: System, act: Act, k: nat)
    requires Inv(s) && Guard(s, act) && !act.Sever? && !act.Connect? && !act.Deliver?
    ensures var p := Other(act.side);
            Follows(View(s, p, k), ReceiverEvents(s.At(act.side), act, k, s.up, |DownsIn(s.At(p).pendingOut, k)|),
                View(Next(s, act), p, k))
    ensures Distinct(Next(s, act).At(act.side).behaviour.recvs)
  {
    hide Inv, Follows, Join, RecvHalfOf, ReceiverEvents, NodeAfter, BlobState.Possible, Distinct, Sound;
    BothSound(s, act.side);
    PlainNext(s, act);
    if act.TakeEvent? && s.At(act.side).pendingOut[0].IncomingFile? { OfferIsNew(s, act.side); }
    ReceiverActs(s.At(act.side), act, IdOf(Other(act.side)), s.up, k, SendHalfOf(s.At(Other(act.side)), k));
  }

  lemma ConnectSimulates(s: System, p: Side, k: nat)
    requires Guard(s, Connect)
    ensures Follows(View(s, p, k), [], View(Next(s, Connect), p, k))
  {
  }

  lemma Simulates(s: System, act: Act, p: Side, k: nat)
    requires Inv(s) && Guard(s, act)
    ensures Follows(View(s, p, k), StepsOf(s, act, p, k), View(Next(s, act), p, k))
  {
    hide Inv, Guard, Next, View, Follows, SenderEvents, ReceiverEvents, DownsIn;
    if act.Connect? { ConnectSimulates(s, p, k); }
    else if act.Sever? { SeveranceSimulates(s, p, k); }
    else if act.Deliver? { DeliverySimulates(s, act.side, k); }
    else if act.side == p { SenderSimulates(s, act, k); }
    else { ReceiverSimulates(s, act, k); }
  }

  // ---------------------------------------------------------------- safety over every run

  lemma {:induction false} FollowsSafely(t: T.Transfer, steps: seq<T.Event>, t': T.Transfer)
    requires T.Safe(t) && Follows(t, steps, t')
    ensures T.Safe(t')
    decreases |steps|
  {
    if steps != [] {
      T.StepIsSafe(t, steps[0]);
      FollowsSafely(T.Step(t, steps[0]), steps[1..], t');
    }
  }

  lemma DistinctKept(s: System, act: Act, p: Side)
    requires Inv(s) && Guard(s, act)
    ensures Distinct(Next(s, act).At(p).behaviour.recvs)
  {
    hide View, Follows, ReceiverEvents, T.Safe, Wellformed;
    if !act.Sever? && !act.Connect? && !act.Deliver? {
      if act.side == p { ReceiverSimulates(s, act, 0); } else { PlainNext(s, act); }
    }
  }

  lemma InvKept(s: System, act: Act)
    requires Inv(s) && Guard(s, act)
    ensures Inv(Next(s, act))
  {
    WellformedKept(s, act);
    DistinctKept(s, act, Left);
    DistinctKept(s, act, Right);
    forall p, k ensures T.Safe(View(Next(s, act), p, k)) {
      Simulates(s, act, p, k);
      FollowsSafely(View(s, p, k), StepsOf(s, act, p, k), View(Next(s, act), p, k));
    }
  }

  lemma {:induction false} InvAlways(s: System, acts: seq<Act>)
    requires Inv(s) && Guarded(s, acts)
    ensures Inv(RunOf(s, acts))
    decreases |acts|
  {
    if acts != [] {
      InvKept(s, acts[0]);
      InvAlways(Next(s, acts[0]), acts[1..]);
    }
  }

  lemma InitiallyNothing(left: BlobState.Timeouts, right: BlobState.Timeouts, p: Side, k: nat)
    ensures View(Unconnected(left, right), p, k) == T.Start()
  {
  }

  lemma StartIsSafe()
    ensures T.Safe(T.Start())
  {
  }

  lemma InitiallySafe(left: BlobState.Timeouts, right: BlobState.Timeouts)
    ensures Inv(Unconnected(left, right))
  {
    hide T.Safe, Wellformed, Distinct;
    StartIsSafe();
    InitiallyWellformed(left, right);
    forall p, k ensures T.Safe(View(Unconnected(left, right), p, k)) {
      hide Unconnected, View;
      InitiallyNothing(left, right, p, k);
    }
  }

  lemma InitiallyWellformed(left: BlobState.Timeouts, right: BlobState.Timeouts)
    ensures var s := Unconnected(left, right);
            Wellformed(s) && Distinct(s.left.behaviour.recvs) && Distinct(s.right.behaviour.recvs)
  {
  }

  /** States that two peers can get into. */
  ghost predicate Reachable(s: System) {
    exists left, right, acts :: Guarded(Unconnected(left, right), acts) && s == RunOf(Unconnected(left, right), acts)
  }

  lemma ReachableIsSafe(s: System)
    requires Reachable(s)
    ensures Inv(s)
  {
    var left, right, acts :| Guarded(Unconnected(left, right), acts) && s == RunOf(Unconnected(left, right), acts);
    InitiallySafe(left, right);
    InvAlways(Unconnected(left, right), acts);
  }
}

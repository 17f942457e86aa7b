/** Runs in which nothing is lost, and runs in which nobody interferes. */
module TwoPeersLiveness {
  import opened Basics
  import opened BlobEvents
  import BlobState
  import BlobTables
  import opened Outbound
  import opened TwoPeers
  import opened TwoPeersView
  import opened TwoPeersSteps
  import opened TwoPeersRuns
  import T = BlobTransfer
  import L = BlobTransferLiveness

  // ---------------------------------------------------------------- dependable connections

  /** No frame, stream or connection is lost, the other side speaks the protocol, no send times out or
      fails, and files can be read.
      Requests, cancels from both ends (and so expiry), failed writes and every interleaving remain. */
  ghost predicate Dependable(act: Act) {
    && !act.Lose? && !act.Sever? && !act.Close? && !act.Connect? && !act.ReadFails?
    && (act.OutboundDown? ==> !act.unsupported)
    && (act.TakeEvent? ==> act.world.read.Some?)
    && (act.Outbound? ==> !act.poll.TimerFired? && !act.poll.SendFailed?)
  }

  /** Only the frame of the running send is on the wire. */
  ghost predicate SmoothNode(n: Node) {
    && n.alive && n.activity.Active? && n.flight != Gone && |n.wire| <= 1
    && (n.wire != [] ==> n.flight == OnWire)
  }

  ghost predicate Smooth(s: System) { s.up && SmoothNode(s.left) && SmoothNode(s.right) }

  lemma SmoothNodeKept(n: Node, act: Act, peer: BlobState.PeerId)
    requires SmoothNode(n) && FlightFits(n) && Dependable(act) && NodeGuard(n, act, peer, true)
    ensures SmoothNode(NodeAfter(n, act, peer, true))
  {
  }

  lemma SmoothKept(s: System, act: Act)
    requires Inv(s) && Smooth(s) && Dependable(act) && Guard(s, act)
    ensures Smooth(Next(s, act))
  {
    hide NodeAfter, NodeGuard, BlobTables.Consistent, SolePeer, Distinct, View;
    SmoothNodeKept(s.At(act.side), act, IdOf(Other(act.side)));
  }

  /** The one step that a dependable act amounts to loses nothing. */
  lemma SenderStepIsReliable(n: Node, act: Act, peer: BlobState.PeerId, k: nat, r: RecvHalf)
    requires SmoothNode(n) && Dependable(act) && NodeGuard(n, act, peer, true)
    ensures var t, steps := Join(SendHalfOf(n, k), r), SenderEvents(n, act, k, true);
            |steps| <= 1 && (steps != [] && T.Enabled(t, steps[0]) ==> L.Reliable(t, steps[0]))
  {
  }

  lemma ReceiverStepIsReliable(n: Node, act: Act, peer: BlobState.PeerId, k: nat, d: nat, h: SendHalf)
    requires SmoothNode(n) && Dependable(act) && NodeGuard(n, act, peer, true)
    ensures var t, steps := Join(h, RecvHalfOf(n, k)), ReceiverEvents(n, act, k, true, d);
            |steps| <= 1 && (steps != [] && T.Enabled(t, steps[0]) ==> L.Reliable(t, steps[0]))
  {
  }

  lemma StepIsReliable(s: System, act: Act, p: Side, k: nat)
    requires Smooth(s) && Dependable(act) && Guard(s, act)
    ensures var t, steps := View(s, p, k), StepsOf(s, act, p, k);
            |steps| <= 1 && (steps != [] && T.Enabled(t, steps[0]) ==> L.Reliable(t, steps[0]))
  {
    hide SmoothNode, Dependable, NodeGuard, SendHalfOf, RecvHalfOf, SenderEvents, ReceiverEvents, Join, T.Enabled,
        L.Reliable;
    assert !act.Sever? && !act.Connect? by { DependableActs(act); }
    if act.side == p {
      SenderStepIsReliable(s.At(p), act, IdOf(Other(p)), k, RecvHalfOf(s.At(Other(p)), k));
    } else {
      ReceiverStepIsReliable(s.At(act.side), act, IdOf(Other(act.side)), k, |DownsIn(s.At(p).pendingOut, k)|,
          SendHalfOf(s.At(p), k));
    }
  }

  lemma DependableActs(act: Act)
    requires Dependable(act)
    ensures !act.Sever? && !act.Connect? && !act.Close? && !act.Lose?
  {
  }

  ghost predicate Promising(s: System) {
    Inv(s) && Smooth(s) && (forall p, k :: L.Pledged(View(s, p, k)))
  }

  lemma OneStepIsPledged(t: T.Transfer, steps: seq<T.Event>, t': T.Transfer)
    requires T.Safe(t) && L.Pledged(t) && Follows(t, steps, t') && |steps| <= 1
    requires steps != [] && T.Enabled(t, steps[0]) ==> L.Reliable(t, steps[0])
    ensures L.Pledged(t')
  {
    if steps != [] { L.StepIsPledged(t, steps[0]); }
  }

  lemma PledgeKept(s: System, act: Act, p: Side, k: nat)
    requires Inv(s) && Smooth(s) && Dependable(act) && Guard(s, act) && L.Pledged(View(s, p, k))
    ensures L.Pledged(View(Next(s, act), p, k))
  {
    hide Inv, Smooth, Dependable, Guard, Next, View, StepsOf, T.Safe, L.Pledged, T.Enabled, L.Reliable, Follows;
    Simulates(s, act, p, k);
    SafeView(s, p, k);
    StepIsReliable(s, act, p, k);
    OneStepIsPledged(View(s, p, k), StepsOf(s, act, p, k), View(Next(s, act), p, k));
  }

  lemma PromiseKept(s: System, act: Act)
    requires Promising(s) && Dependable(act) && Guard(s, act)
    ensures Promising(Next(s, act))
  {
    hide Inv, Smooth, Dependable, Guard, Next, View, L.Pledged;
    InvKept(s, act);
    SmoothKept(s, act);
    forall p, k ensures L.Pledged(View(Next(s, act), p, k)) { PledgeKept(s, act, p, k); }
  }

  lemma SafeView(s: System, p: Side, k: nat)
    requires Inv(s)
    ensures T.Safe(View(s, p, k))
  {
  }

  ghost predicate DependableRun(s: System, acts: seq<Act>)
    decreases |acts|
  {
    acts == [] || (Guard(s, acts[0]) && Dependable(acts[0]) && DependableRun(Next(s, acts[0]), acts[1..]))
  }

  /** What is pledged about one transfer stays so whatever the others do. */
  lemma {:induction false} PledgeAlways(s: System, acts: seq<Act>, p: Side, k: nat)
    requires Inv(s) && Smooth(s) && DependableRun(s, acts) && L.Pledged(View(s, p, k))
    ensures Guarded(s, acts) && Inv(RunOf(s, acts)) && L.Pledged(View(RunOf(s, acts), p, k))
    decreases |acts|
  {
    hide Inv, Smooth, Guard, Dependable, Next, View, L.Pledged;
    if acts != [] {
      InvKept(s, acts[0]);
      SmoothKept(s, acts[0]);
      PledgeKept(s, acts[0], p, k);
      PledgeAlways(Next(s, acts[0]), acts[1..], p, k);
    }
  }

  function Connected(left: BlobState.Timeouts, right: BlobState.Timeouts): System {
    System(FreshNode(left).(alive := true), FreshNode(right).(alive := true), true)
  }

  lemma InitiallyPromising(left: BlobState.Timeouts, right: BlobState.Timeouts)
    ensures Promising(Connected(left, right))
  {
    var s := Unconnected(left, right);
    InitiallySafe(left, right);
    assert Next(s, Connect) == Connected(left, right);
    InvKept(s, Connect);
    assert L.Pledged(T.Start());
    forall p, k ensures L.Pledged(View(Connected(left, right), p, k)) {
      hide T.Safe, L.Pledged;
      assert View(Connected(left, right), p, k) == T.Start();
    }
  }

  /** Nothing is queued, in flight or on the wire on either side. */
  ghost predicate Idling(n: Node) {
    n.behaviour.handlerEvents == [] && n.machine.queue == [] && !n.machine.phase.Busy? && n.wire == []
        && n.pendingOut == []
  }

  lemma IdleViews(s: System, p: Side, k: nat)
    requires Idling(s.left) && Idling(s.right)
    ensures L.Quiet(View(s, p, k))
  {
  }

  /** No transfer gets stuck: when both sides have worked through their queues, neither has an ongoing
      record, and the offers one side still waits for are exactly those the other still has to decide. */
  lemma NothingStuck(left: BlobState.Timeouts, right: BlobState.Timeouts, acts: seq<Act>, p: Side, k: nat)
    requires DependableRun(Connected(left, right), acts)
    ensures Guarded(Connected(left, right), acts)
    ensures var s := RunOf(Connected(left, right), acts);
            Idling(s.left) && Idling(s.right) ==>
              && k !in s.At(p).behaviour.sends.ongoing && k !in s.At(p).behaviour.recvs.ongoing
              && (k in s.At(p).behaviour.sends.pending <==>
                    exists l :: BlobState.IsOffer(s.At(Other(p)).behaviour, l, k))
              && (var b := s.At(p).behaviour;
                  forall l, l' :: BlobState.IsOffer(b, l, k) && BlobState.IsOffer(b, l', k) ==> l == l')
  {
    hide Connected, DependableRun, Inv, Smooth, L.Pledged;
    InitiallyPromising(left, right);
    PledgeAlways(Connected(left, right), acts, p, k);
    PledgeAlways(Connected(left, right), acts, Other(p), k);
    var s := RunOf(Connected(left, right), acts);
    if Idling(s.left) && Idling(s.right) {
      SettledSide(s, p, k);
      SettledSide(s, Other(p), k);
    }
  }

  /** Neither side has an ongoing record of the transfer, and it is pending on both or on neither. */
  ghost predicate Settled(s: System, p: Side, k: nat) {
    && k !in s.At(p).behaviour.sends.ongoing && k !in s.At(Other(p)).behaviour.recvs.ongoing
    && (k in s.At(p).behaviour.sends.pending <==> exists l :: BlobState.IsOffer(s.At(Other(p)).behaviour, l, k))
  }

  lemma SettledSide(s: System, p: Side, k: nat)
    requires Inv(s) && L.Pledged(View(s, p, k)) && Idling(s.left) && Idling(s.right)
    ensures Settled(s, p, k)
    ensures var b := s.At(Other(p)).behaviour;
            forall l, l' :: BlobState.IsOffer(b, l, k) && BlobState.IsOffer(b, l', k) ==> l == l'
  {
    hide T.Safe, L.Pledged;
    IdleViews(s, p, k);
    L.QuietIsSettled(View(s, p, k));
    OneSendTable(s.At(p).behaviour, k);
    var b := s.At(Other(p)).behaviour;
    OneRecordPerTransfer(b.recvs, k);
    assert forall l :: BlobState.IsOffer(b, l, k) ==> l in b.recvs.pending && b.recvs.pending[l].remoteSendId == k;
    if Knows(b.recvs, k) && LocalOf(b.recvs, k) in b.recvs.pending {
      assert BlobState.IsOffer(b, LocalOf(b.recvs, k), k);
    }
  }

  lemma OneSendTable(b: BlobState.State, k: nat)
    requires BlobTables.Consistent(b)
    ensures k in b.sends.pending ==> k !in b.sends.ongoing
  {
  }

  // ---------------------------------------------------------------- nobody interferes

  /** No cancel (and so no expiry), no disconnection and no failed write; frames may still be lost. */
  ghost predicate Undisturbing(s: System, act: Act) {
    && (act.Request? ==> !act.op.StopSend? && !act.op.StopRecv?)
    && !act.Close?
    && (act.TakeEvent? && s.At(act.side).pendingOut != [] ==>
          !WrittenOf(s.At(act.side).pendingOut[0], act.world).failed)
  }

  ghost predicate UndisturbedRun(s: System, acts: seq<Act>)
    decreases |acts|
  {
    acts == [] || (Guard(s, acts[0]) && Undisturbing(s, acts[0]) && UndisturbedRun(Next(s, acts[0]), acts[1..]))
  }

  ghost predicate AllUndisturbed(steps: seq<T.Event>) { forall e :: e in steps ==> L.Undisturbed(e) }

  lemma StepsAreUndisturbed(s: System, act: Act, p: Side, k: nat)
    requires Guard(s, act) && Undisturbing(s, act)
    ensures AllUndisturbed(StepsOf(s, act, p, k))
  {
    hide BlobState.Possible, BlobState.WriteAll;
  }

  lemma {:induction false} FollowsExpected(t: T.Transfer, steps: seq<T.Event>, t': T.Transfer)
    requires T.Safe(t) && L.ChunksExpected(t) && Follows(t, steps, t') && AllUndisturbed(steps)
    ensures L.ChunksExpected(t')
    decreases |steps|
  {
    if steps != [] {
      assert steps[0] in steps;
      T.StepIsSafe(t, steps[0]);
      L.StepIsExpected(t, steps[0]);
      FollowsExpected(T.Step(t, steps[0]), steps[1..], t');
    }
  }

  lemma ExpectationKept(s: System, act: Act, p: Side, k: nat)
    requires Inv(s) && Guard(s, act) && Undisturbing(s, act) && L.ChunksExpected(View(s, p, k))
    ensures L.ChunksExpected(View(Next(s, act), p, k))
  {
    hide Inv, Guard, Next, Undisturbing, View, StepsOf, T.Safe, L.ChunksExpected, Follows, AllUndisturbed;
    Simulates(s, act, p, k);
    SafeView(s, p, k);
    StepsAreUndisturbed(s, act, p, k);
    FollowsExpected(View(s, p, k), StepsOf(s, act, p, k), View(Next(s, act), p, k));
  }

  lemma {:induction false} ExpectedAlways(s: System, acts: seq<Act>, p: Side, k: nat)
    requires Inv(s) && UndisturbedRun(s, acts) && L.ChunksExpected(View(s, p, k))
    ensures Guarded(s, acts) && Inv(RunOf(s, acts)) && L.ChunksExpected(View(RunOf(s, acts), p, k))
    decreases |acts|
  {
    hide Inv, Guard, Next, Undisturbing, View, L.ChunksExpected;
    if acts != [] {
      InvKept(s, acts[0]);
      ExpectationKept(s, acts[0], p, k);
      ExpectedAlways(Next(s, acts[0]), acts[1..], p, k);
    }
  }

  lemma ExpectedChunkFindsItsRecord(s: System, q: Side)
    requires Inv(s) && s.At(q).pendingOut != [] && s.At(q).pendingOut[0].RecvProgressed?
    requires L.ChunksExpected(View(s, Other(q), s.At(q).pendingOut[0].remoteSendId))
    ensures s.At(q).pendingOut[0].remoteSendId in s.At(q).behaviour.recvs.ongoing
  {
    hide Inv;
    var n := s.At(q);
    HeadTaken(n.pendingOut, n.pendingOut[0].remoteSendId);
    assert View(s, Other(q), n.pendingOut[0].remoteSendId).inbox[0].Chunk?;
  }

  /** As long as nobody cancels and nothing fails on the receiver's side, every chunk that arrives finds
      its record: the record is there before the acceptance that the chunk answers was sent. */
  lemma EveryChunkFindsItsRecord(left: BlobState.Timeouts, right: BlobState.Timeouts, acts: seq<Act>, q: Side)
    requires UndisturbedRun(Unconnected(left, right), acts)
    ensures Guarded(Unconnected(left, right), acts)
    ensures var n := RunOf(Unconnected(left, right), acts).At(q);
            n.pendingOut != [] && n.pendingOut[0].RecvProgressed? ==>
              n.pendingOut[0].remoteSendId in n.behaviour.recvs.ongoing
  {
    hide Inv, Unconnected, View, L.ChunksExpected, UndisturbedRun;
    InitiallySafe(left, right);
    ExpectedFromTheStart(left, right, acts);
    var n := RunOf(Unconnected(left, right), acts).At(q);
    if n.pendingOut != [] && n.pendingOut[0].RecvProgressed? {
      var k := n.pendingOut[0].remoteSendId;
      InitiallyNothing(left, right, Other(q), k);
      NothingIsExpected();
      ExpectedAlways(Unconnected(left, right), acts, Other(q), k);
      ExpectedChunkFindsItsRecord(RunOf(Unconnected(left, right), acts), q);
    }
  }

  lemma NothingIsExpected()
    ensures L.ChunksExpected(T.Start())
  {
  }

  lemma ExpectedFromTheStart(left: BlobState.Timeouts, right: BlobState.Timeouts, acts: seq<Act>)
    requires UndisturbedRun(Unconnected(left, right), acts)
    ensures Guarded(Unconnected(left, right), acts)
  {
    hide Inv, Unconnected, View, L.ChunksExpected, UndisturbedRun;
    InitiallySafe(left, right);
    InitiallyNothing(left, right, Left, 0);
    NothingIsExpected();
    ExpectedAlways(Unconnected(left, right), acts, Left, 0);
  }

  // ---------------------------------------------------------------- expiry as requests

  function CancelSendActs(p: Side, ids: seq<nat>): seq<Act> {
    if ids == [] then [] else [Request(p, BlobState.StopSend(ids[0]))] + CancelSendActs(p, ids[1..])
  }

  function CancelRecvActs(p: Side, ids: seq<nat>): seq<Act> {
    if ids == [] then [] else [Request(p, BlobState.StopRecv(ids[0]))] + CancelRecvActs(p, ids[1..])
  }

  function ExpiryActs(p: Side, order: BlobState.Expiry): seq<Act> {
    CancelSendActs(p, order.pendingSends) + (CancelRecvActs(p, order.pendingRecvs)
      + (CancelSendActs(p, order.ongoingSends) + CancelRecvActs(p, order.ongoingRecvs)))
  }

  function WithBehaviourAt(s: System, p: Side, b: BlobState.State): System { s.With(p, s.At(p).(behaviour := b)) }

  lemma CancelActs(s: System, p: Side, id: nat)
    ensures var act := Request(p, BlobState.StopSend(id));
            Guard(s, act) && Next(s, act) == WithBehaviourAt(s, p, BlobState.CancelSend(s.At(p).behaviour, id))
    ensures var act := Request(p, BlobState.StopRecv(id));
            Guard(s, act) && Next(s, act) == WithBehaviourAt(s, p, BlobState.CancelRecv(s.At(p).behaviour, id))
  {
    hide BlobState.CancelSend, BlobState.CancelRecv;
  }

  lemma {:induction false} CancelSendsByActs(s: System, p: Side, ids: seq<nat>)
    ensures Guarded(s, CancelSendActs(p, ids))
    ensures RunOf(s, CancelSendActs(p, ids)) == WithBehaviourAt(s, p, BlobState.CancelSends(s.At(p).behaviour, ids))
    decreases |ids|
  {
    hide Guard, Next, BlobState.CancelSend;
    if ids != [] {
      CancelActs(s, p, ids[0]);
      assert CancelSendActs(p, ids)[1..] == CancelSendActs(p, ids[1..]);
      CancelSendsByActs(WithBehaviourAt(s, p, BlobState.CancelSend(s.At(p).behaviour, ids[0])), p, ids[1..]);
    }
  }

  lemma {:induction false} CancelRecvsByActs(s: System, p: Side, ids: seq<nat>)
    ensures Guarded(s, CancelRecvActs(p, ids))
    ensures RunOf(s, CancelRecvActs(p, ids)) == WithBehaviourAt(s, p, BlobState.CancelRecvs(s.At(p).behaviour, ids))
    decreases |ids|
  {
    hide Guard, Next, BlobState.CancelRecv;
    if ids != [] {
      CancelActs(s, p, ids[0]);
      assert CancelRecvActs(p, ids)[1..] == CancelRecvActs(p, ids[1..]);
      CancelRecvsByActs(WithBehaviourAt(s, p, BlobState.CancelRecv(s.At(p).behaviour, ids[0])), p, ids[1..]);
    }
  }

  /** An expiry check is the run of the cancel requests it makes, so runs of requests cover expiry. */
  lemma ExpiryIsRequests(s: System, p: Side, order: BlobState.Expiry)
    ensures Guarded(s, ExpiryActs(p, order))
    ensures RunOf(s, ExpiryActs(p, order)) == WithBehaviourAt(s, p, BlobState.CheckExpiry(s.At(p).behaviour, order))
  {
    hide Guarded, RunOf, CancelSendActs, CancelRecvActs, BlobState.CancelSends, BlobState.CancelRecvs;
    var a, b := CancelSendActs(p, order.pendingSends), CancelRecvActs(p, order.pendingRecvs);
    var c, d := CancelSendActs(p, order.ongoingSends), CancelRecvActs(p, order.ongoingRecvs);
    CancelSendsByActs(s, p, order.pendingSends);
    var s1 := RunOf(s, a);
    CancelRecvsByActs(s1, p, order.pendingRecvs);
    var s2 := RunOf(s1, b);
    CancelSendsByActs(s2, p, order.ongoingSends);
    var s3 := RunOf(s2, c);
    CancelRecvsByActs(s3, p, order.ongoingRecvs);
    RunInTwo(s2, c, d);
    RunInTwo(s1, b, c + d);
    RunInTwo(s, a, b + (c + d));
  }
}

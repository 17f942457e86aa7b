/** A connection that is not the first one: what is left over from earlier connections, and what that means
    for the transfers, old and new. */
module TwoPeersReconnect {
  import opened Basics
  import opened BlobEvents
  import BlobState
  import opened Outbound
  import opened TwoPeers
  import opened TwoPeersView
  import opened TwoPeersSteps
  import opened TwoPeersWires
  import opened TwoPeersRuns
  import opened TwoPeersLiveness
  import opened TwoPeersTermination
  import opened TwoPeersDelivery
  import T = BlobTransfer
  import L = BlobTransferLiveness
  import R = BlobTransferRest

  // ---------------------------------------------------------------- sides without a handler

  /** No record, no stream: what a side is left with when its connection has gone. */
  ghost predicate Vacant(n: Node) {
    && n.behaviour.connectedPeers == {} && !n.inbound && n.activity.Active?
    && n.behaviour.sends.pending == map[] && n.behaviour.sends.ongoing == map[]
    && n.behaviour.recvs.pending == map[] && n.behaviour.recvs.ongoing == map[]
  }

  ghost predicate DeadAreVacant(s: System) {
    (!s.left.alive ==> Vacant(s.left)) && (!s.right.alive ==> Vacant(s.right))
  }

  lemma GoneIsVacant(n: Node, peer: BlobState.PeerId)
    requires SolePeer(n.behaviour, peer)
    ensures Vacant(ConnectionGone(n, peer))
  {
  }

  lemma VacantKept(n: Node, act: Act, peer: BlobState.PeerId, up: bool)
    requires NodeFits(n, peer) && NodeGuard(n, act, peer, up) && (!n.alive ==> Vacant(n))
    ensures var n' := NodeAfter(n, act, peer, up); !n'.alive ==> Vacant(n')
  {
    hide BlobTables.Consistent, BlobState.OnHandlerEvent, BlobState.OnDisconnect, Turned;
    if act.Close? { GoneIsVacant(n, peer); }
    else if n.alive { NodeKept(n, act, peer, up); }
  }

  lemma DeadStayVacant(s: System, act: Act)
    requires Wellformed(s) && DeadAreVacant(s) && Guard(s, act)
    ensures DeadAreVacant(Next(s, act))
  {
    hide NodeFits, NodeAfter, NodeGuard;
    if !act.Sever? && !act.Connect? {
      assert NodeFits(s.At(act.side), IdOf(Other(act.side)));
      VacantKept(s.At(act.side), act, IdOf(Other(act.side)), s.up);
    }
  }

  // ---------------------------------------------------------------- what holds in every run besides

  lemma {:induction false} OfferStaysFirst(t: T.Transfer, steps: seq<T.Event>, t': T.Transfer)
    requires T.Safe(t) && L.NoOfferBehind(t) && Follows(t, steps, t')
    ensures L.NoOfferBehind(t')
    decreases |steps|
  {
    hide T.Safe, L.NoOfferBehind, T.Enabled, T.Step;
    if steps != [] {
      T.StepIsSafe(t, steps[0]);
      R.OfferStaysFirst(t, steps[0]);
      OfferStaysFirst(T.Step(t, steps[0]), steps[1..], t');
    }
  }

  lemma {:induction false} Besides(s: System, acts: seq<Act>, p: Side, k: nat)
    requires Inv(s) && DeadAreVacant(s) && L.NoOfferBehind(View(s, p, k)) && Guarded(s, acts)
    ensures var s' := RunOf(s, acts); Inv(s') && DeadAreVacant(s') && L.NoOfferBehind(View(s', p, k))
    decreases |acts|
  {
    hide Guard, Next, View, StepsOf, T.Safe, L.NoOfferBehind, Follows, DeadAreVacant, Wellformed, Distinct;
    if acts != [] {
      InvKept(s, acts[0]);
      DeadStayVacant(s, acts[0]);
      Simulates(s, acts[0], p, k);
      OfferStaysFirst(View(s, p, k), StepsOf(s, acts[0], p, k), View(Next(s, acts[0]), p, k));
      Besides(Next(s, acts[0]), acts[1..], p, k);
    }
  }

  lemma InitiallyVacant(left: BlobState.Timeouts, right: BlobState.Timeouts)
    ensures DeadAreVacant(Unconnected(left, right))
  {
  }

  lemma NothingIsBehind()
    ensures L.NoOfferBehind(T.Start())
  {
  }

  lemma ReachableBesides(s: System, p: Side, k: nat)
    requires Reachable(s)
    ensures Inv(s) && DeadAreVacant(s) && L.NoOfferBehind(View(s, p, k))
  {
    hide Inv, View, Guarded, RunOf, Unconnected, DeadAreVacant, L.NoOfferBehind;
    var left, right, acts :| Guarded(Unconnected(left, right), acts) && s == RunOf(Unconnected(left, right), acts);
    BesidesFromTheStart(left, right, acts, p, k);
  }

  lemma BesidesFromTheStart(left: BlobState.Timeouts, right: BlobState.Timeouts, acts: seq<Act>, p: Side, k: nat)
    requires Guarded(Unconnected(left, right), acts)
    ensures var s := RunOf(Unconnected(left, right), acts); Inv(s) && DeadAreVacant(s) && L.NoOfferBehind(View(s, p, k))
  {
    hide *;
    InitiallySafe(left, right);
    InitiallyVacant(left, right);
    NothingIsBehind();
    InitiallyNothing(left, right, p, k);
    Besides(Unconnected(left, right), acts, p, k);
  }

  // ---------------------------------------------------------------- the moment of a connection

  /** A new connection is about to come up. */
  ghost predicate AboutToConnect(s: System) { Reachable(s) && Guard(s, Connect) }

  lemma {:induction false} NoticesHold(q: seq<BlobState.Notify>, k: nat)
    ensures T.Offers(UpNotices(q, k)) > 0 <==> exists n :: n in q && n.event.NewFileSend? && n.event.localSendId == k
    ensures T.Withdraw in UpNotices(q, k) <==> exists n :: n in q && n.event == LocalCancelSend(k)
  {
    if q != [] {
      NoticesHold(q[1..], k);
      HeadNotice(q, k);
      assert q == [q[0]] + q[1..];
      T.UpAppend(UpOf(q[0].event, k), UpNotices(q[1..], k));
      assert T.Offers(UpOf(q[0].event, k)) > 0 <==> q[0].event.NewFileSend? && q[0].event.localSendId == k;
    }
  }

  /** An offer of an earlier connection is still queued, without the withdrawal of its file. */
  ghost predicate Stale(n: Node, k: nat) {
    && (exists x :: x in n.behaviour.handlerEvents && x.event.NewFileSend? && x.event.localSendId == k)
    && !exists x :: x in n.behaviour.handlerEvents && x.event == LocalCancelSend(k)
  }

  lemma ConnectingChangesNoView(s: System, p: Side, k: nat)
    requires Guard(s, Connect)
    ensures View(Next(s, Connect), p, k) == View(s, p, k)
  {
  }

  lemma RestAtConnect(s: System, p: Side, k: nat)
    requires AboutToConnect(s)
    ensures var t := View(s, p, k);
            && T.Safe(t) && R.Resting(t) && L.NoOfferBehind(t)
            && t.transit == UpNotices(s.At(p).behaviour.handlerEvents, k)
            && (k >= s.At(p).behaviour.sends.counter ==> t.sender.Unborn?)
  {
    hide Reachable, T.Safe, L.NoOfferBehind, UpNotices, SolePeer;
    ReachableBesides(s, p, k);
    SafeView(s, p, k);
    var n := s.At(p);
    assert Ups([], k) == [] && UpsIn([], k) == [] && Credits([], k) == [];
    assert n.wire == [] && n.machine == Fresh();
    assert [] + [] + UpNotices(n.behaviour.handlerEvents, k) == UpNotices(n.behaviour.handlerEvents, k);
  }

  lemma SmoothSide(n: Node)
    requires FlightFits(n) && n.machine == Fresh() && Vacant(n) && n.wire == []
    ensures SmoothNode(n.(alive := true))
  {
  }

  lemma SmoothAtConnect(s: System)
    requires AboutToConnect(s)
    ensures Inv(Next(s, Connect)) && Smooth(Next(s, Connect))
  {
    ReachableBesides(s, Left, 0);
    assert Guard(s, Connect) && Wellformed(s);
    InvKept(s, Connect);
    hide Inv, Reachable, BlobTables.Consistent, SolePeer, FlightFits, SmoothNode, Vacant;
    SmoothSide(s.left);
    SmoothSide(s.right);
  }

  lemma PledgedUnlessStale(s: System, p: Side, k: nat)
    requires AboutToConnect(s)
    ensures L.Pledged(View(Next(s, Connect), p, k)) <==> !Stale(s.At(p), k)
    ensures R.Orphaned(View(Next(s, Connect), p, k)) <==> Stale(s.At(p), k)
  {
    hide AboutToConnect, View, UpNotices, Next;
    RestAtConnect(s, p, k);
    assert Guard(s, Connect) by { Connecting(s); }
    ConnectingChangesNoView(s, p, k);
    NoticesHold(s.At(p).behaviour.handlerEvents, k);
    var t := View(s, p, k);
    R.RestingIsPledgedWhen(t);
    OrphanedAtRest(t);
  }

  lemma Connecting(s: System)
    requires AboutToConnect(s)
    ensures Guard(s, Connect)
  {
  }

  lemma OrphanedAtRest(t: T.Transfer)
    requires T.Safe(t) && R.Resting(t)
    ensures R.Orphaned(t) <==> T.Offers(t.transit) > 0 && T.Withdraw !in t.transit
  {
  }

  // ---------------------------------------------------------------- old transfers on a new connection

  /** Everything about transfer `k` has been settled whenever a run of the new connection, in which nothing
      is lost, has worked through both sides' queues. */
  ghost predicate AlwaysSettles(s: System, p: Side, k: nat)
    requires Guard(s, Connect)
  {
    forall acts :: DependableRun(Next(s, Connect), acts) && Guarded(Next(s, Connect), acts) ==>
      var s' := RunOf(Next(s, Connect), acts);
      Idling(s'.left) && Idling(s'.right) ==> Settled(s', p, k)
  }

  lemma SettlesUnlessStale(s: System, p: Side, k: nat)
    requires AboutToConnect(s) && !Stale(s.At(p), k)
    ensures AlwaysSettles(s, p, k)
  {
    hide Reachable, Stale, Next, Inv, Smooth, L.Pledged, Settled, Idling, View;
    PledgedUnlessStale(s, p, k);
    SmoothAtConnect(s);
    var s1 := Next(s, Connect);
    forall acts | DependableRun(s1, acts) && Guarded(s1, acts)
      ensures Idling(RunOf(s1, acts).left) && Idling(RunOf(s1, acts).right) ==> Settled(RunOf(s1, acts), p, k)
    {
      PledgeAlways(s1, acts, p, k);
      if Idling(RunOf(s1, acts).left) && Idling(RunOf(s1, acts).right) { SettledSide(RunOf(s1, acts), p, k); }
    }
  }

  lemma WorkIsUnrequested(s: System, act: Act, p: Side, k: nat)
    requires Guard(s, act) && Working(s, act)
    ensures var steps := StepsOf(s, act, p, k); steps != [] ==> R.Unrequested(steps[0])
  {
  }

  lemma OrphanKept(s: System, act: Act, p: Side, k: nat)
    requires Inv(s) && Smooth(s) && Guard(s, act) && Dependable(act) && Working(s, act)
    ensures R.Orphaned(View(s, p, k)) ==> R.Orphaned(View(Next(s, act), p, k))
    ensures R.Forlorn(View(s, p, k)) ==> R.Forlorn(View(Next(s, act), p, k))
  {
    hide Inv, Smooth, Guard, Dependable, Working, Next, View, StepsOf, T.Safe, T.Enabled, T.Step;
    hide L.Reliable, R.Orphaned, R.Forlorn, R.Unrequested;
    Simulates(s, act, p, k);
    SafeView(s, p, k);
    StepIsReliable(s, act, p, k);
    WorkIsUnrequested(s, act, p, k);
    var t, steps := View(s, p, k), StepsOf(s, act, p, k);
    if steps != [] {
      R.OrphanStays(t, steps[0]);
      assert steps[1..] == [];
    }
  }

  lemma {:induction false} OrphanAlways(s: System, acts: seq<Act>, p: Side, k: nat)
    requires Inv(s) && Smooth(s) && WorkingRun(s, acts)
    ensures Guarded(s, acts) && DependableRun(s, acts) && Inv(RunOf(s, acts)) && Smooth(RunOf(s, acts))
    ensures R.Orphaned(View(s, p, k)) ==> R.Orphaned(View(RunOf(s, acts), p, k))
    ensures R.Forlorn(View(s, p, k)) ==> R.Forlorn(View(RunOf(s, acts), p, k))
    decreases |acts|
  {
    hide Inv, Smooth, Guard, Dependable, Working, Next, View, R.Orphaned, R.Forlorn;
    if acts != [] {
      InvKept(s, acts[0]);
      SmoothKept(s, acts[0]);
      OrphanKept(s, acts[0], p, k);
      OrphanAlways(Next(s, acts[0]), acts[1..], p, k);
    }
  }

  /** At rest an orphaned offer is the receiver's to decide, though its sender has no record of it. */
  lemma OrphanAtRest(s: System, p: Side, k: nat)
    requires Inv(s) && Idling(s.left) && Idling(s.right) && R.Orphaned(View(s, p, k))
    ensures View(s, p, k).receiver.Deciding? && !Settled(s, p, k)
    ensures exists l :: BlobState.IsOffer(s.At(Other(p)).behaviour, l, k)
  {
    hide T.Safe;
    IdleViews(s, p, k);
    var b := s.At(Other(p)).behaviour;
    OneRecordPerTransfer(b.recvs, k);
    assert T.Offers([]) == 0;
    assert BlobState.IsOffer(b, LocalOf(b.recvs, k), k);
  }

  lemma StaleUnsettles(s: System, p: Side, k: nat)
    requires AboutToConnect(s) && Stale(s.At(p), k)
    ensures !AlwaysSettles(s, p, k)
  {
    hide Reachable, Stale, Next, Inv, Smooth, R.Orphaned, Settled, Idling, View;
    PledgedUnlessStale(s, p, k);
    SmoothAtConnect(s);
    var s1 := Next(s, Connect);
    var acts := Drains(s1);
    OrphanAlways(s1, acts, p, k);
    OrphanAtRest(RunOf(s1, acts), p, k);
  }

  /** The exact condition: on a new connection a transfer is settled by every run in which nothing is lost if
      and only if no offer of it was left queued without its withdrawal. */
  lemma SettlesExactlyWhen(s: System, p: Side, k: nat)
    requires AboutToConnect(s)
    ensures AlwaysSettles(s, p, k) <==> !Stale(s.At(p), k)
  {
    hide AlwaysSettles, Stale, AboutToConnect;
    assert Guard(s, Connect) by { Connecting(s); }
    if Stale(s.At(p), k) { StaleUnsettles(s, p, k); } else { SettlesUnlessStale(s, p, k); }
  }

  /** What an accepted stale offer comes to: with every queue empty, the receiver still has an ongoing record
      that no chunk will ever come for. */
  lemma AcceptedOrphanStaysOngoing(s: System, p: Side, k: nat) returns (acts: seq<Act>)
    requires Inv(s) && Smooth(s) && Idling(s.left) && Idling(s.right) && R.Orphaned(View(s, p, k))
    ensures Guarded(s, acts) && DependableRun(s, acts)
    ensures var s' := RunOf(s, acts);
            Idling(s'.left) && Idling(s'.right) && k in s'.At(Other(p)).behaviour.recvs.ongoing
  {
    hide Inv, Smooth, Idling, View, Next, Guard, R.Orphaned, R.Forlorn, BlobState.IsOffer;
    OrphanAtRest(s, p, k);
    var l :| BlobState.IsOffer(s.At(Other(p)).behaviour, l, k);
    var act := Request(Other(p), BlobState.Accept(l, 0));
    AcceptingTheOrphan(s, p, k, l);
    InvKept(s, act);
    SmoothKept(s, act);
    var s1 := Next(s, act);
    var more := Drains(s1);
    OrphanAlways(s1, more, p, k);
    ForlornIsOngoing(RunOf(s1, more), p, k);
    acts := [act] + more;
    assert acts[0] == act && acts[1..] == more;
  }

  lemma {:induction false} DependableInTwo(s: System, first: seq<Act>, second: seq<Act>)
    requires Guarded(s, first) && DependableRun(s, first) && DependableRun(RunOf(s, first), second)
    ensures DependableRun(s, first + second)
    decreases |first|
  {
    hide Guard, Next, Dependable;
    if first == [] {
      assert first + second == second;
    } else {
      assert (first + second)[1..] == first[1..] + second;
      DependableInTwo(Next(s, first[0]), first[1..], second);
    }
  }

  /** So every stale offer can leave a receive behind that no chunk will ever come for: a run of the new
      connection in which nothing is lost empties every queue and leaves the record. */
  lemma StaleOfferLeavesARecord(s: System, p: Side, k: nat) returns (acts: seq<Act>)
    requires AboutToConnect(s) && Stale(s.At(p), k)
    ensures Guarded(Next(s, Connect), acts) && DependableRun(Next(s, Connect), acts)
    ensures var s' := RunOf(Next(s, Connect), acts);
            Idling(s'.left) && Idling(s'.right) && k in s'.At(Other(p)).behaviour.recvs.ongoing
  {
    hide Reachable, Stale, Inv, Smooth, Idling, View, Next, R.Orphaned;
    PledgedUnlessStale(s, p, k);
    SmoothAtConnect(s);
    var s1 := Next(s, Connect);
    var first := Drains(s1);
    OrphanAlways(s1, first, p, k);
    var second := AcceptedOrphanStaysOngoing(RunOf(s1, first), p, k);
    RunInTwo(s1, first, second);
    DependableInTwo(s1, first, second);
    acts := first + second;
  }

  lemma AcceptingTheOrphan(s: System, p: Side, k: nat, l: nat)
    requires Inv(s) && Smooth(s) && R.Orphaned(View(s, p, k)) && BlobState.IsOffer(s.At(Other(p)).behaviour, l, k)
    requires View(s, p, k).receiver.Deciding?
    ensures var act := Request(Other(p), BlobState.Accept(l, 0));
            Guard(s, act) && Dependable(act) && R.Forlorn(View(Next(s, act), p, k))
  {
    hide Inv, Next, View, T.Safe, R.Orphaned, R.Forlorn, BlobState.IsOffer;
    var act := Request(Other(p), BlobState.Accept(l, 0));
    Simulates(s, act, p, k);
    assert StepsOf(s, act, p, k) == [T.Accepted];
    assert [T.Accepted][1..] == [];
    R.AcceptedOrphan(View(s, p, k));
  }

  lemma ForlornIsOngoing(s: System, p: Side, k: nat)
    requires R.Forlorn(View(s, p, k))
    ensures k in s.At(Other(p)).behaviour.recvs.ongoing
  {
  }

  // ---------------------------------------------------------------- new transfers on a new connection

  lemma NewIsOnCourse(s: System, p: Side, k: nat)
    requires AboutToConnect(s) && k >= s.At(p).behaviour.sends.counter
    ensures OnCourse(View(Next(s, Connect), p, k))
  {
    hide Reachable, View, UpNotices, Next, L.NoOfferBehind;
    RestAtConnect(s, p, k);
    ConnectingChangesNoView(s, p, k);
    UnbornIsOnCourse(View(s, p, k));
  }

  lemma UnbornIsOnCourse(t: T.Transfer)
    requires T.Safe(t) && t.sender.Unborn?
    ensures OnCourse(t)
  {
  }

  /** Whatever earlier connections left behind, what a peer offers on this one arrives: every run in which
      nothing is lost and nobody interferes can be finished by the peers themselves, and then each file
      offered since the connection came up that does not wait for its acceptance has arrived whole. */
  lemma NewFilesGetThere(s: System, acts: seq<Act>) returns (more: seq<Act>)
    requires AboutToConnect(s) && QuietRun(Next(s, Connect), acts)
    ensures Guarded(Next(s, Connect), acts) && QuietRun(RunOf(Next(s, Connect), acts), more)
    ensures Guarded(RunOf(Next(s, Connect), acts), more)
    ensures forall p: Side, k: nat :: k >= s.At(p).behaviour.sends.counter ==>
              HasArrived(RunOf(RunOf(Next(s, Connect), acts), more), p, k)
  {
    hide Reachable, Inv, Smooth, OnCourse, QuietRun, HasArrived, View, Next;
    SmoothAtConnect(s);
    var s1 := Next(s, Connect);
    NewIsOnCourse(s, Left, s.left.behaviour.sends.counter);
    CourseAlways(s1, acts, Left, s.left.behaviour.sends.counter);
    more := Drains(RunOf(s1, acts));
    forall p: Side, k: nat | k >= s.At(p).behaviour.sends.counter
      ensures HasArrived(RunOf(RunOf(s1, acts), more), p, k)
    {
      NewIsOnCourse(s, p, k);
      CourseAlways(s1, acts, p, k);
      CourseAlways(RunOf(s1, acts), more, p, k);
      ArrivedWhenIdle(RunOf(RunOf(s1, acts), more), p, k);
    }
  }

  /** And every chunk of such a file finds its record as long as nobody interferes. */
  lemma NewChunksFindTheirRecord(s: System, acts: seq<Act>, q: Side)
    requires AboutToConnect(s) && UndisturbedRun(Next(s, Connect), acts)
    ensures Guarded(Next(s, Connect), acts)
    ensures var n := RunOf(Next(s, Connect), acts).At(q);
            n.pendingOut != [] && n.pendingOut[0].RecvProgressed?
            && n.pendingOut[0].remoteSendId >= s.At(Other(q)).behaviour.sends.counter ==>
              n.pendingOut[0].remoteSendId in n.behaviour.recvs.ongoing
  {
    hide Reachable, Inv, Smooth, L.Pledged, L.ChunksExpected, L.Fulfilled, UndisturbedRun, View, Next;
    SmoothAtConnect(s);
    var s1, base := Next(s, Connect), s.At(Other(q)).behaviour.sends.counter;
    NewIsOnCourse(s, Other(q), base);
    ExpectedAlways(s1, acts, Other(q), base);
    var n := RunOf(s1, acts).At(q);
    if n.pendingOut != [] && n.pendingOut[0].RecvProgressed? && n.pendingOut[0].remoteSendId >= base {
      NewIsOnCourse(s, Other(q), n.pendingOut[0].remoteSendId);
      ExpectedAlways(s1, acts, Other(q), n.pendingOut[0].remoteSendId);
      ExpectedChunkFindsItsRecord(RunOf(s1, acts), q);
    }
  }

  // ---------------------------------------------------------------- it does happen

  lemma FirstStep(s: System, act: Act, rest: seq<Act>)
    requires Guard(s, act) && Guarded(Next(s, act), rest)
    ensures Guarded(s, [act] + rest) && RunOf(s, [act] + rest) == RunOf(Next(s, act), rest)
  {
    hide Guard, Next;
    assert ([act] + rest)[1..] == rest;
  }

  const IDLE_WORLD := BlobState.World(0, None, [], 0)

  /** The left side opens its stream. */
  const OPENING: seq<Act> := [Connect, Act.Outbound(Left, StillPending), OutboundUp(Left), TakeEvent(Left, IDLE_WORLD)]

  /** It offers an empty file, and the connection breaks before the swarm has taken the offer. */
  const BREAKING: seq<Act> :=
    [Request(Left, BlobState.Send(1, [], [], Some(0), [], 0)), Sever, Close(Left), Close(Right)]

  /** A node with an open stream and nothing else. */
  function Opened(timeouts: BlobState.Timeouts): Node {
    var b := BlobState.Initial(timeouts);
    Node(b.(connectedPeers := {1}, outEvents := [BlobState.OutboundOpen(1)]), Machine([], Idle, [], 0), [], NoFrame, [],
         true, false, Active)
  }

  lemma OpeningRuns(left: BlobState.Timeouts, right: BlobState.Timeouts)
    ensures Guarded(Unconnected(left, right), OPENING)
    ensures RunOf(Unconnected(left, right), OPENING) == System(Opened(left), FreshNode(right).(alive := true), true)
  {
    var s0 := Unconnected(left, right);
    var s1 := Next(s0, OPENING[0]);
    var s2 := Next(s1, OPENING[1]);
    var s3 := Next(s2, OPENING[2]);
    var s4 := Next(s3, OPENING[3]);
    assert s4 == System(Opened(left), FreshNode(right).(alive := true), true);
    FirstStep(s3, OPENING[3], []);
    FirstStep(s2, OPENING[2], [OPENING[3]]);
    FirstStep(s1, OPENING[1], [OPENING[2], OPENING[3]]);
    FirstStep(s0, OPENING[0], [OPENING[1], OPENING[2], OPENING[3]]);
    assert [OPENING[3]] + [] == [OPENING[3]];
    assert OPENING == [OPENING[0]] + [OPENING[1], OPENING[2], OPENING[3]];
  }

  lemma BreakingRuns(left: BlobState.Timeouts, right: BlobState.Timeouts)
    ensures var s := System(Opened(left), FreshNode(right).(alive := true), true);
            && Guarded(s, BREAKING) && Guard(RunOf(s, BREAKING), Connect)
            && RunOf(s, BREAKING).left.behaviour.handlerEvents == [BlobState.Notify(1, NewFileSend([], 0, 0))]
  {
    hide Turned, Taken, TakenEvent, BlobState.OnHandlerEvent, BlobState.CheckExpiry, Told;
    var s0 := System(Opened(left), FreshNode(right).(alive := true), true);
    var s1 := Next(s0, BREAKING[0]);
    assert s1.left.behaviour.handlerEvents == [BlobState.Notify(1, NewFileSend([], 0, 0))];
    var s2 := Next(s1, BREAKING[1]);
    var s3 := Next(s2, BREAKING[2]);
    var s4 := Next(s3, BREAKING[3]);
    FirstStep(s3, BREAKING[3], []);
    FirstStep(s2, BREAKING[2], [BREAKING[3]]);
    FirstStep(s1, BREAKING[1], [BREAKING[2], BREAKING[3]]);
    FirstStep(s0, BREAKING[0], [BREAKING[1], BREAKING[2], BREAKING[3]]);
    assert [BREAKING[3]] + [] == [BREAKING[3]];
    assert BREAKING == [BREAKING[0]] + [BREAKING[1], BREAKING[2], BREAKING[3]];
  }

  /** A run of eight steps after which a connection would deliver a stale offer. */
  lemma StaleOfferHappens(left: BlobState.Timeouts, right: BlobState.Timeouts)
    ensures Guarded(Unconnected(left, right), OPENING + BREAKING)
    ensures var s := RunOf(Unconnected(left, right), OPENING + BREAKING); AboutToConnect(s) && Stale(s.left, 0)
  {
    hide Guard, Next, Unconnected, Opened, Guarded, RunOf;
    OpeningRuns(left, right);
    BreakingRuns(left, right);
    RunInTwo(Unconnected(left, right), OPENING, BREAKING);
    var s := RunOf(Unconnected(left, right), OPENING + BREAKING);
    assert BlobState.Notify(1, NewFileSend([], 0, 0)) in s.left.behaviour.handlerEvents;
    assert s.left.behaviour.handlerEvents == [BlobState.Notify(1, NewFileSend([], 0, 0))];
  }
}

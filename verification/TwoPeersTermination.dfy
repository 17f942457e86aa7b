/** Work runs out: on a connection that loses nothing every working step of the two peers uses up some of
    what there is to do, which is measured here. */
module TwoPeersTermination {
  import opened Basics
  import opened BlobEvents
  import BlobState
  import BlobTables
  import opened BlobHandler
  import opened Outbound
  import opened TwoPeers
  import opened TwoPeersView
  import opened TwoPeersSteps
  import opened TwoPeersRuns
  import opened TwoPeersLiveness

  // ---------------------------------------------------------------- what is still to be read

  /** The bytes of file `k` that were not read, and the steps of its send that come besides. */
  function UnreadOf(s: BlobState.Sends, k: nat): nat {
    if k in s.pending then |s.FileOf(k)| + 2
    else if k in s.ongoing then
      (if s.ongoing[k].cursor <= |s.FileOf(k)| then |s.FileOf(k)| - s.ongoing[k].cursor else 0) + 1
    else 0
  }

  function UnreadBelow(s: BlobState.Sends, n: nat): nat {
    if n == 0 then 0 else UnreadBelow(s, n - 1) + UnreadOf(s, n - 1)
  }

  lemma {:induction false} LessUnread(s: BlobState.Sends, s': BlobState.Sends, n: nat, k: nat)
    requires forall i: nat :: UnreadOf(s', i) <= UnreadOf(s, i)
    ensures UnreadBelow(s', n) <= UnreadBelow(s, n)
    ensures k < n && UnreadOf(s', k) < UnreadOf(s, k) ==> UnreadBelow(s', n) < UnreadBelow(s, n)
  {
    if n > 0 { LessUnread(s, s', n - 1, k); }
  }

  /** A read takes a byte at least, or ends its send. */
  lemma ProgressUnread(b: BlobState.State, k: nat, now: nat, read: Option<nat>)
    requires k in b.sends.ongoing ==> k !in b.sends.pending && b.sends.ongoing[k].cursor <= |b.sends.FileOf(k)|
    ensures var s, s' := b.sends, BlobState.ProgressSend(b, k, now, read).sends;
            && (forall i: nat :: i != k ==> UnreadOf(s', i) == UnreadOf(s, i))
            && (if k in s.ongoing then UnreadOf(s', k) < UnreadOf(s, k) else s' == s)
  {
  }

  lemma AcceptedUnread(b: BlobState.State, k: nat, now: nat, read: Option<nat>)
    requires BlobTables.Consistent(b)
    ensures var s, s' := b.sends, BlobState.PendingSendAccepted(b, k, now, read).sends;
            && (forall i: nat :: i != k ==> UnreadOf(s', i) == UnreadOf(s, i))
            && (if BlobState.AcceptanceOf(b, k).Started? then UnreadOf(s', k) < UnreadOf(s, k) else s' == s)
  {
    if BlobState.AcceptanceOf(b, k).Started? {
      assert BlobTables.PendingSendFits(b.sends, b.connectedPeers, k);
      var p := b.sends.pending[k];
      var v := BlobState.OngoingSend(p.localSendId, p.remote, p.bytesTotal, p.filePath, p.cursor, 0, now);
      var b1 := b.(sends := b.sends.(pending := b.sends.pending - {k}, ongoing := b.sends.ongoing[k := v]));
      hide BlobState.ProgressSend;
      ProgressUnread(b1, k, now, read);
    }
  }

  function Unread(s: BlobState.Sends): nat { UnreadBelow(s, s.counter) }

  /** The event that makes a send go on. */
  function Continued(ev: ToBehaviour): nat {
    if ev.SendProgressed? || ev.FileSendAccepted? then ev.localSendId else 0
  }

  lemma EventUnreadEach(b: BlobState.State, peer: BlobState.PeerId, ev: ToBehaviour, world: BlobState.World)
    requires BlobTables.Consistent(b)
    ensures var b' := BlobState.OnHandlerEvent(b, peer, ev, world);
            && b'.sends.counter == b.sends.counter
            && (forall i: nat :: UnreadOf(b'.sends, i) <= UnreadOf(b.sends, i))
            && (b'.handlerEvents != b.handlerEvents ==>
                  Continued(ev) < b.sends.counter
                      && UnreadOf(b'.sends, Continued(ev)) < UnreadOf(b.sends, Continued(ev)))
  {
    if ev.SendProgressed? {
      var k := ev.localSendId;
      if k in b.sends.ongoing { assert BlobTables.OngoingSendFits(b.sends, b.connectedPeers, k); }
      OneSendTable(b, k);
      ProgressUnread(BlobState.ReportSendProgress(b, k), k, world.now, world.read);
    } else if ev.FileSendAccepted? {
      if ev.localSendId in b.sends.pending {
        assert BlobTables.PendingSendFits(b.sends, b.connectedPeers, ev.localSendId);
      }
      AcceptedUnread(b, ev.localSendId, world.now, world.read);
    } else {
      OtherEventUnread(b, peer, ev, world);
    }
  }

  lemma OtherEventUnread(b: BlobState.State, peer: BlobState.PeerId, ev: ToBehaviour, world: BlobState.World)
    requires BlobTables.Consistent(b) && !ev.SendProgressed? && !ev.FileSendAccepted?
    ensures var b' := BlobState.OnHandlerEvent(b, peer, ev, world);
            && b'.sends.counter == b.sends.counter && b'.handlerEvents == b.handlerEvents
            && forall i: nat :: UnreadOf(b'.sends, i) <= UnreadOf(b.sends, i)
  {
    if ev.RemoteCancelSend? { OneSendTable(b, ev.localSendId); }
  }

  function BehaviourLoad(b: BlobState.State): nat { 20 * Unread(b.sends) + 10 * |b.handlerEvents| }

  /** An event costs nothing beyond itself: a chunk it adds is paid for by what was read. */
  lemma EventLoad(b: BlobState.State, peer: BlobState.PeerId, ev: ToBehaviour, world: BlobState.World)
    requires BlobTables.Consistent(b)
    ensures BehaviourLoad(BlobState.OnHandlerEvent(b, peer, ev, world)) <= BehaviourLoad(b)
  {
    hide BlobState.OnHandlerEvent, UnreadOf, UnreadBelow, BlobTables.Consistent;
    var b' := BlobState.OnHandlerEvent(b, peer, ev, world);
    EventUnreadEach(b, peer, ev, world);
    EventAppends(b, peer, ev, world);
    LessUnread(b.sends, b'.sends, b.sends.counter, Continued(ev));
  }

  // ---------------------------------------------------------------- what is still to be done

  function PhaseLoad(p: Phase<FromBehaviour>): nat {
    match p case Closed => 4 case OpenStream => 3 case Idle => 0 case Busy(_) => 3
  }

  function Load(n: Node): nat {
    BehaviourLoad(n.behaviour) + 8 * |n.machine.queue| + 3 * |n.wire| + PhaseLoad(n.machine.phase) + |n.pendingOut|
    + if n.inbound then 0 else 2
  }

  function SystemLoad(s: System): nat { Load(s.left) + Load(s.right) }

  /** The steps that the swarm and the handlers take by themselves, as far as they change anything. */
  ghost predicate Working(s: System, act: Act)
    requires Guard(s, act)
  {
    || act.HandOver? || act.TakeEvent? || act.Deliver? || act.OutboundUp?
    || (act.Outbound? && Next(s, act) != s)
    || (act.InboundUp? && !s.At(act.side).inbound)
  }

  lemma NodeLoadShrinks(n: Node, act: Act, peer: BlobState.PeerId)
    requires SmoothNode(n) && NodeFits(n, peer) && Dependable(act) && NodeGuard(n, act, peer, true)
    requires act.HandOver? || act.TakeEvent? || act.Deliver? || act.OutboundUp? || act.Outbound?
        || (act.InboundUp? && !n.inbound)
    ensures var n' := NodeAfter(n, act, peer, true);
            Load(n') + (if act.Deliver? then 2 else if act.Outbound? && n' == n then 0 else 1) <= Load(n)
  {
    hide BlobTables.Consistent, SolePeer, BlobState.OnHandlerEvent, BlobState.OnDisconnect, Unread;
    if act.TakeEvent? { EventLoad(n.behaviour, peer, n.pendingOut[0], act.world); }
    else if act.Outbound? { TurnLoad(n, act.poll); }
  }

  lemma TurnLoad(n: Node, poll: SendPoll)
    requires !poll.TimerFired? && !poll.SendFailed?
    ensures var n' := Turned(n, poll, true); n' == n || Load(n') < Load(n)
  {
    hide BehaviourLoad;
  }

  /** Every working step leaves less to do. */
  lemma WorkShrinks(s: System, act: Act)
    requires Inv(s) && Smooth(s) && Dependable(act) && Guard(s, act) && Working(s, act)
    ensures SystemLoad(Next(s, act)) < SystemLoad(s)
  {
    hide NodeAfter, NodeGuard, NodeFits, SmoothNode, View, Distinct, BehaviourLoad, PhaseLoad;
    BothSound(s, act.side);
    NodeLoadShrinks(s.At(act.side), act, IdOf(Other(act.side)));
    if !act.Deliver? { PlainNext(s, act); }
  }

  ghost predicate WorkingRun(s: System, acts: seq<Act>)
    decreases |acts|
  {
    acts == []
    || (Guard(s, acts[0]) && Dependable(acts[0]) && Working(s, acts[0]) && WorkingRun(Next(s, acts[0]), acts[1..]))
  }

  /** Without new requests there are only so many steps: never more than there was to do at the start. */
  lemma {:induction false} WorkEnds(s: System, acts: seq<Act>)
    requires Inv(s) && Smooth(s) && WorkingRun(s, acts)
    ensures Guarded(s, acts) && |acts| + SystemLoad(RunOf(s, acts)) <= SystemLoad(s)
    decreases |acts|
  {
    hide Inv, Smooth, Guard, Next, Dependable, Working, SystemLoad;
    if acts != [] {
      WorkShrinks(s, acts[0]);
      InvKept(s, acts[0]);
      SmoothKept(s, acts[0]);
      WorkEnds(Next(s, acts[0]), acts[1..]);
    }
  }
}

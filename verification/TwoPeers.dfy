/** Two peers and the connection between them: each side runs a blob behaviour and a handler, and the
    frames that a handler started but the other side has not taken are on a wire. Every interleaving of
    the acts below is a run. Some acts are freer than in the source. One is more restricted: a connection that
    breaks takes the frames on the wire with it, so a frame that a side still takes after the other has closed
    has to be taken before the break, which makes no difference to what either side sees. */
module TwoPeers {
  import opened Basics
  import opened BlobEvents
  import BlobState
  import BlobTables
  import opened BlobHandler
  import opened Outbound

  datatype Side = Left | Right

  function Other(p: Side): Side { if p.Left? then Right else Left }

  function IdOf(p: Side): BlobState.PeerId { if p.Left? then 0 else 1 }

  /** Where the frame of a handler's running send is. */
  datatype Flight = NoFrame | OnWire | Acked | Gone

  /** `wire` holds this side's frames that have not reached the other side; when `flight` is OnWire the
      last of them belongs to the running send, the others were given up by the sender. `alive` says that
      there is a handler, `inbound` that it has a stream to receive on. */
  datatype Node = Node(
    behaviour: BlobState.State, machine: Machine<FromBehaviour>, pendingOut: seq<ToBehaviour>,
    flight: Flight, wire: seq<FromBehaviour>, alive: bool, inbound: bool, activity: Activity)

  datatype System = System(left: Node, right: Node, up: bool)
  {
    function At(p: Side): Node { if p.Left? then left else right }

    function With(p: Side, n: Node): System {
      if p.Left? then this.(left := n) else this.(right := n)
    }
  }

  function FreshNode(timeouts: BlobState.Timeouts): Node {
    Node(BlobState.Initial(timeouts), Fresh(), [], NoFrame, [], false, false, Active)
  }

  function Unconnected(left: BlobState.Timeouts, right: BlobState.Timeouts): System {
    System(FreshNode(left), FreshNode(right), false)
  }

  datatype Act =
    | Request(side: Side, op: BlobState.Op)
    | HandOver(side: Side)
    | TakeEvent(side: Side, world: BlobState.World)
    | Report(side: Side, event: ToBehaviour)
    | Outbound(side: Side, poll: SendPoll)
    | OutboundUp(side: Side)
    | OutboundDown(side: Side, unsupported: bool)
    | InboundUp(side: Side)
    | ReadFails(side: Side)
    | Deliver(side: Side)
    | Lose(side: Side, from: nat, to: nat)
    | Sever
    | Close(side: Side)
    | Connect

  /** When one side can act. */
  ghost predicate NodeGuard(n: Node, act: Act, peer: BlobState.PeerId, up: bool) {
    match act
    // The user's requests; an expiry check is the cancel requests it makes, one after the other.
    case Request(_, op) => op.Send? || op.Accept? || op.StopRecv? || op.StopSend? || op.PopOut?
    // The swarm takes a notification off the behaviour: to the handler, or nowhere without a connection.
    case HandOver(_) => n.behaviour.handlerEvents != []
    // The handler's next queued event reaches the behaviour.
    case TakeEvent(_, world) =>
      n.alive && n.activity.Active? && n.pendingOut != []
      && BlobState.Possible(n.behaviour, BlobState.FromHandler(peer, n.pendingOut[0], world))
    // An event that a handler's poll returns directly.
    case Report(_, ev) =>
      n.alive && (if n.activity.Active? then ev.Failure? else ev.Unsupported? && !n.activity.reported)
    // One turn of the outbound loop; a send completes only on its acknowledgement.
    case Outbound(_, poll) =>
      n.alive && n.activity.Active? && (n.machine.phase.Busy? && poll == SendDone ==> n.flight == Acked)
    case OutboundUp(_) => n.alive && n.machine.requests > 0
    case OutboundDown(_, _) => n.alive && n.machine.requests > 0
    case InboundUp(_) => n.alive
    case ReadFails(_) => n.alive && n.activity.Active? && n.inbound
    // A frame reaches the other handler, which acknowledges it in the same step.
    case Deliver(_) => up && n.wire != []
    // Frames are lost: a stream is dropped or replaced, or fails.
    case Lose(_, from, to) => from <= to <= |n.wire|
    // A side notices that the connection broke.
    case Close(_) => !up && n.alive
    case _ => true
  }

  predicate Listening(n: Node) { n.alive && n.inbound && n.activity.Active? }

  /** When an act can happen. A frame needs a handler that reads at the other end. A broken connection is
      noticed by each side on its own; only then can there be a new one. */
  ghost predicate Guard(s: System, act: Act) {
    if act.Sever? then s.up
    else if act.Connect? then !s.up && !s.left.alive && !s.right.alive
    else
      && NodeGuard(s.At(act.side), act, IdOf(Other(act.side)), s.up)
      && (act.Deliver? ==> Listening(s.At(Other(act.side))))
  }

  function Taken(n: Node): Node
    requires n.behaviour.handlerEvents != []
  {
    var b := BlobState.Apply(n.behaviour, BlobState.PopHandlerEvent);
    if n.alive then n.(behaviour := b, machine := OnBehaviourEvent(n.machine, n.behaviour.handlerEvents[0].event))
    else n.(behaviour := b)
  }

  /** One turn of the outbound loop on a node: a completed send leaves its note, a started one puts its
      frame on the wire, which a broken connection swallows. */
  function Turned(n: Node, poll: SendPoll, up: bool): Node {
    var m := TurnOf(BlobVariant, n.machine, poll).machine;
    if n.machine.phase.Busy? then
      if m.phase.Busy? then n
      else n.(machine := m, flight := NoFrame, pendingOut := n.pendingOut + NoteOf(m.ended[|m.ended| - 1]))
    else if m.phase.Busy? then
      if up then n.(machine := m, flight := OnWire, wire := n.wire + [m.phase.message])
      else n.(machine := m, flight := Gone)
    else n.(machine := m)
  }

  function Without(n: Node, from: nat, to: nat): Node
    requires from <= to <= |n.wire|
  {
    n.(wire := n.wire[..from] + n.wire[to..],
       flight := if n.flight == OnWire && from < to == |n.wire| then Gone else n.flight)
  }

  function TakenEvent(n: Node, peer: BlobState.PeerId, world: BlobState.World): Node
    requires n.pendingOut != []
  {
    n.(pendingOut := n.pendingOut[1..],
       behaviour := BlobState.OnHandlerEvent(n.behaviour, peer, n.pendingOut[0], world))
  }

  function ConnectionGone(n: Node, peer: BlobState.PeerId): Node {
    Node(BlobState.OnDisconnect(n.behaviour, peer, 0), Fresh(), [], NoFrame, n.wire, false, false, Active)
  }

  function FrameSent(n: Node): Node
    requires n.wire != []
  {
    n.(wire := n.wire[1..], flight := if |n.wire| == 1 && n.flight == OnWire then Acked else n.flight)
  }

  function FrameReceived(n: Node, ev: FromBehaviour): Node { n.(pendingOut := n.pendingOut + [Mirror(ev)]) }

  /** The behaviour takes an event that a poll handed out directly. */
  function Told(n: Node, peer: BlobState.PeerId, ev: ToBehaviour): Node {
    n.(behaviour := BlobState.OnHandlerEvent(n.behaviour, peer, ev, BlobState.World(0, None, [], 0)))
  }

  /** The acting side's state after an act. */
  function NodeAfter(n: Node, act: Act, peer: BlobState.PeerId, up: bool): Node
    requires NodeGuard(n, act, peer, up)
  {
    match act
    case Request(_, op) => n.(behaviour := BlobState.Apply(n.behaviour, op))
    case HandOver(_) => Taken(n)
    case TakeEvent(_, world) => TakenEvent(n, peer, world)
    case Report(_, ev) => Told(n, peer, ev).(activity := if ev.Unsupported? then Inactive(true) else n.activity)
    case Outbound(_, poll) => Turned(n, poll, up)
    case OutboundUp(_) => n.(machine := OnNegotiated(n.machine), pendingOut := n.pendingOut + [OutboundNegotiated])
    case OutboundDown(_, unsupported) =>
      n.(machine := OnDialError(n.machine), activity := if unsupported then Inactive(false) else n.activity)
    case InboundUp(_) => n.(inbound := true, pendingOut := n.pendingOut + [InboundNegotiated])
    case ReadFails(_) => Told(n, peer, Failure(Io)).(inbound := false)
    case Deliver(_) => FrameSent(n)
    case Lose(_, from, to) => Without(n, from, to)
    case Close(_) => ConnectionGone(n, peer)
    case _ => n
  }

  function Next(s: System, act: Act): System
    requires Guard(s, act)
  {
    if act.Sever? then System(Without(s.left, 0, |s.left.wire|), Without(s.right, 0, |s.right.wire|), false)
    else if act.Connect? then System(s.left.(alive := true), s.right.(alive := true), true)
    else
      var p := act.side;
      var s' := s.With(p, NodeAfter(s.At(p), act, IdOf(Other(p)), s.up));
      if act.Deliver? then s'.With(Other(p), FrameReceived(s.At(Other(p)), s.At(p).wire[0])) else s'
  }

  ghost predicate Guarded(s: System, acts: seq<Act>)
    decreases |acts|
  {
    acts == [] || (Guard(s, acts[0]) && Guarded(Next(s, acts[0]), acts[1..]))
  }

  function RunOf(s: System, acts: seq<Act>): System
    requires Guarded(s, acts)
    decreases |acts|
  {
    if acts == [] then s else RunOf(Next(s, acts[0]), acts[1..])
  }

  lemma {:induction false} RunInTwo(s: System, first: seq<Act>, second: seq<Act>)
    requires Guarded(s, first) && Guarded(RunOf(s, first), second)
    ensures Guarded(s, first + second) && RunOf(s, first + second) == RunOf(RunOf(s, first), second)
    decreases |first|
  {
    hide Guard, Next;
    if first == [] {
      assert first + second == second;
    } else {
      assert (first + second)[1..] == first[1..] + second;
      RunInTwo(Next(s, first[0]), first[1..], second);
    }
  }

  // ---------------------------------------------------------------- what one side's state always looks like

  /** Only ever in touch with `peer`. */
  ghost predicate SolePeer(b: BlobState.State, peer: BlobState.PeerId) {
    && b.connectedPeers <= {peer}
    && (forall k :: k in b.sends.pending ==> b.sends.pending[k].remote == peer)
    && (forall k :: k in b.sends.ongoing ==> b.sends.ongoing[k].remote == peer)
    && (forall l :: l in b.recvs.pending ==> b.recvs.pending[l].remote == peer)
    && (forall k :: k in b.recvs.ongoing ==> b.recvs.ongoing[k].remote == peer)
    && (forall n :: n in b.handlerEvents ==> n.peer == peer)
  }

  ghost predicate FlightFits(n: Node) {
    && (n.machine.phase.Busy? <==> n.flight != NoFrame)
    && (n.flight == OnWire ==> n.wire != [] && n.wire[|n.wire| - 1] == n.machine.phase.message)
    && OneRequest(n.machine)
  }

  ghost predicate NodeFits(n: Node, peer: BlobState.PeerId) {
    && BlobTables.Consistent(n.behaviour) && SolePeer(n.behaviour, peer) && FlightFits(n)
    && (!n.alive ==> n.machine == Fresh() && n.pendingOut == [])
  }

  ghost predicate Wellformed(s: System) {
    && NodeFits(s.left, IdOf(Right)) && NodeFits(s.right, IdOf(Left))
    && (s.up ==> s.left.alive && s.right.alive)
    && (!s.up ==> s.left.wire == [] && s.right.wire == [])
  }

  lemma SolePeerKept(b: BlobState.State, peer: BlobState.PeerId, op: BlobState.Op)
    requires SolePeer(b, peer) && BlobTables.Consistent(b)
    requires op.Send? || op.Accept? || op.StopRecv? || op.StopSend? || op.PopOut? || op.PopHandlerEvent?
    ensures SolePeer(BlobState.Apply(b, op), peer)
  {
    hide BlobState.CheckExpiry, BlobState.OnDisconnect, BlobState.OnHandlerEvent;
  }

  lemma SolePeerKeptByEvent(b: BlobState.State, peer: BlobState.PeerId, ev: ToBehaviour, world: BlobState.World)
    requires SolePeer(b, peer) && BlobTables.Consistent(b)
    ensures SolePeer(BlobState.OnHandlerEvent(b, peer, ev, world), peer)
  {
    hide BlobTables.Consistent;
  }

  lemma TurnedFits(n: Node, poll: SendPoll, up: bool, peer: BlobState.PeerId)
    requires NodeFits(n, peer) && n.alive
    ensures var n' := Turned(n, poll, up); NodeFits(n', peer) && n'.alive && (n.wire == [] && !up ==> n'.wire == [])
  {
  }

  lemma BehaviourKept(b: BlobState.State, peer: BlobState.PeerId, op: BlobState.Op)
    requires SolePeer(b, peer) && BlobTables.Consistent(b)
    requires op.Send? || op.Accept? || op.StopRecv? || op.StopSend? || op.PopOut? || op.PopHandlerEvent?
             || (op.FromHandler? && op.peer == peer) || (op.Disconnect? && op.peer == peer)
    ensures SolePeer(BlobState.Apply(b, op), peer) && BlobTables.Consistent(BlobState.Apply(b, op))
  {
    BlobTables.ConsistentKept(b, op);
    if op.FromHandler? { SolePeerKeptByEvent(b, peer, op.event, op.world); }
    else if !op.Disconnect? { SolePeerKept(b, peer, op); }
  }

  /** Acts that leave the behaviour alone. */
  lemma StreamActKept(n: Node, act: Act, peer: BlobState.PeerId, up: bool)
    requires NodeFits(n, peer) && NodeGuard(n, act, peer, up)
    requires act.OutboundUp? || act.OutboundDown? || act.InboundUp? || act.Deliver? || act.Lose?
    ensures var n' := NodeAfter(n, act, peer, up); NodeFits(n', peer) && n'.alive == n.alive
    ensures n.wire == [] ==> NodeAfter(n, act, peer, up).wire == []
  {
    hide BlobTables.Consistent, SolePeer;
  }

  /** Acts in which the behaviour takes part. */
  lemma BehaviourActKept(n: Node, act: Act, peer: BlobState.PeerId, up: bool)
    requires NodeFits(n, peer) && NodeGuard(n, act, peer, up)
    requires act.Request? || act.HandOver? || act.TakeEvent? || act.Report? || act.ReadFails? || act.Close?
    ensures NodeFits(NodeAfter(n, act, peer, up), peer)
    ensures !act.Close? ==> NodeAfter(n, act, peer, up).alive == n.alive
    ensures NodeAfter(n, act, peer, up).wire == n.wire
  {
    hide BlobTables.Consistent, SolePeer, BlobState.OnHandlerEvent, BlobState.OnDisconnect;
    var b := n.behaviour;
    match act
    case Request(_, op) => BehaviourKept(b, peer, op);
    case HandOver(_) => BehaviourKept(b, peer, BlobState.PopHandlerEvent);
    case TakeEvent(_, world) => BehaviourKept(b, peer, BlobState.FromHandler(peer, n.pendingOut[0], world));
    case Report(_, ev) => BehaviourKept(b, peer, BlobState.FromHandler(peer, ev, BlobState.World(0, None, [], 0)));
    case ReadFails(_) => BehaviourKept(b, peer,
        BlobState.FromHandler(peer, Failure(Io), BlobState.World(0, None, [], 0)));
    case Close(_) => BehaviourKept(b, peer, BlobState.Disconnect(peer, 0));
  }

  lemma NodeKept(n: Node, act: Act, peer: BlobState.PeerId, up: bool)
    requires NodeFits(n, peer) && NodeGuard(n, act, peer, up)
    ensures NodeFits(NodeAfter(n, act, peer, up), peer)
    ensures !act.Close? ==> NodeAfter(n, act, peer, up).alive == n.alive
    ensures n.wire == [] && !up ==> NodeAfter(n, act, peer, up).wire == []
  {
    if act.Outbound? { TurnedFits(n, act.poll, up, peer); }
    else if act.OutboundUp? || act.OutboundDown? || act.InboundUp? || act.Deliver? || act.Lose? {
      hide *;
      StreamActKept(n, act, peer, up);
    } else if !act.Sever? && !act.Connect? {
      hide *;
      BehaviourActKept(n, act, peer, up);
    }
  }

  lemma WellformedKept(s: System, act: Act)
    requires Wellformed(s) && Guard(s, act)
    ensures Wellformed(Next(s, act))
  {
    hide BlobTables.Consistent, SolePeer, OneRequest, Turned, Taken, TakenEvent, ConnectionGone, BlobState.Apply;
    if !act.Sever? && !act.Connect? {
      NodeKept(s.At(act.side), act, IdOf(Other(act.side)), s.up);
    }
  }
}

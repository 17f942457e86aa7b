/** A handler's poll, taken as a whole, is a run of the acts that the two-peer system interleaves. */
module TwoPeersPolls {
  import opened Basics
  import opened BlobEvents
  import opened BlobMessages
  import BlobState
  import opened BlobHandler
  import opened Outbound
  import opened TwoPeers

  // ---------------------------------------------------------------- the outbound half, turn by turn

  function PolledOut(n: Node, polls: seq<SendPoll>, up: bool): Node
    decreases |n.machine.queue|, Rank(n.machine.phase)
  {
    var n' := Turned(n, NextPoll(polls), up);
    if TurnOf(BlobVariant, n.machine, NextPoll(polls)).exit != Again then n'
    else PolledOut(n', LaterPolls(n.machine.phase, polls), up)
  }

  function TurnActs(p: Side, n: Node, polls: seq<SendPoll>, up: bool): seq<Act>
    decreases |n.machine.queue|, Rank(n.machine.phase)
  {
    [Act.Outbound(p, NextPoll(polls))]
    + if TurnOf(BlobVariant, n.machine, NextPoll(polls)).exit != Again then []
      else TurnActs(p, Turned(n, NextPoll(polls), up), LaterPolls(n.machine.phase, polls), up)
  }

  /** A running send is found done only when its acknowledgement is there. */
  ghost predicate Earned(n: Node, polls: seq<SendPoll>, up: bool)
    decreases |n.machine.queue|, Rank(n.machine.phase)
  {
    && (n.machine.phase.Busy? && NextPoll(polls) == SendDone ==> n.flight == Acked)
    && (TurnOf(BlobVariant, n.machine, NextPoll(polls)).exit == Again ==>
          Earned(Turned(n, NextPoll(polls), up), LaterPolls(n.machine.phase, polls), up))
  }

  lemma OneTurnNotes(n: Node, poll: SendPoll, up: bool)
    ensures var turn, n' := TurnOf(BlobVariant, n.machine, poll), Turned(n, poll, up);
            && n.machine.ended <= turn.machine.ended
            && n'.behaviour == n.behaviour && n'.machine == turn.machine
            && n'.alive == n.alive && n'.inbound == n.inbound && n'.activity == n.activity
            && n'.pendingOut == n.pendingOut + NotesSince(n.machine.ended, turn.machine.ended)
  {
    NothingSince(n.machine.ended);
    if n.machine.phase.Busy? && poll != StillPending {
      var last := TurnOf(BlobVariant, n.machine, poll).machine.ended[|n.machine.ended|];
      NotesSinceOne(n.machine.ended, last);
    }
  }

  /** The turns that the system interleaves add up to what a handler's poll does. */
  lemma {:induction false} TurnsMakeAPoll(n: Node, polls: seq<SendPoll>, up: bool, h: HandlerState)
    requires h.machine == n.machine && h.pendingOut == n.pendingOut
    ensures var n', h' := PolledOut(n, polls, up), PollOutbound(h, polls).state;
            && n'.machine == h'.machine && n'.pendingOut == h'.pendingOut && n'.behaviour == n.behaviour
            && n'.alive == n.alive && n'.inbound == n.inbound && n'.activity == n.activity
    decreases |n.machine.queue|, Rank(n.machine.phase)
  {
    hide Turned, TurnOf, NotesSince;
    LoopOnce(BlobVariant, n.machine, polls);
    OneTurnNotes(n, NextPoll(polls), up);
    var turn, n' := TurnOf(BlobVariant, n.machine, NextPoll(polls)), Turned(n, NextPoll(polls), up);
    if turn.exit == Again {
      var later := LaterPolls(n.machine.phase, polls);
      TurnsMakeAPoll(n', later, up, h.(machine := n'.machine, pendingOut := n'.pendingOut));
      var last := Loop(BlobVariant, turn.machine, later).machine.ended;
      NotesSinceTwice(n.machine.ended, turn.machine.ended, last);
      Regroup(n.pendingOut, NotesSince(n.machine.ended, turn.machine.ended), NotesSince(turn.machine.ended, last));
    }
  }

  lemma {:induction false} TurnsAreARun(s: System, p: Side, polls: seq<SendPoll>)
    requires s.At(p).alive && s.At(p).activity.Active? && Earned(s.At(p), polls, s.up)
    ensures var acts := TurnActs(p, s.At(p), polls, s.up);
            Guarded(s, acts) && RunOf(s, acts) == s.With(p, PolledOut(s.At(p), polls, s.up))
    decreases |s.At(p).machine.queue|, Rank(s.At(p).machine.phase)
  {
    var n, poll, acts := s.At(p), NextPoll(polls), TurnActs(p, s.At(p), polls, s.up);
    var act := Act.Outbound(p, poll);
    OneTurnNotes(n, poll, s.up);
    LoopOnce(BlobVariant, n.machine, polls);
    assert acts[0] == act && Guard(s, act) && Next(s, act) == s.With(p, Turned(n, poll, s.up));
    var s' := Next(s, act);
    if TurnOf(BlobVariant, n.machine, poll).exit == Again {
      var later := LaterPolls(n.machine.phase, polls);
      assert acts[1..] == TurnActs(p, s'.At(p), later, s.up);
      TurnsAreARun(s', p, later);
    } else {
      assert acts[1..] == [];
    }
  }

  /** What a handler's queue holds does not matter for the turns. */
  lemma {:induction false} EarnedAnyway(n: Node, n': Node, polls: seq<SendPoll>, up: bool)
    requires n' == n.(pendingOut := n'.pendingOut) && Earned(n, polls, up)
    ensures Earned(n', polls, up)
    decreases |n.machine.queue|, Rank(n.machine.phase)
  {
    LoopOnce(BlobVariant, n.machine, polls);
    if TurnOf(BlobVariant, n.machine, NextPoll(polls)).exit == Again {
      OneTurnNotes(n, NextPoll(polls), up);
      EarnedAnyway(Turned(n, NextPoll(polls), up), Turned(n', NextPoll(polls), up),
          LaterPolls(n.machine.phase, polls), up);
    }
  }

  // ---------------------------------------------------------------- a whole poll

  /** The node is a behaviour with this handler. */
  predicate Agrees(h: HandlerState, n: Node) {
    n.alive && h.machine == n.machine && h.pendingOut == n.pendingOut && h.inbound == n.inbound
        && h.activity == n.activity
  }

  /** The message that the inbound stream has is the next frame from the other side. */
  predicate FromTheWire(s: System, p: Side, poll: InboundPoll<Packet>) {
    poll.Message? ==>
      var wire := s.At(Other(p)).wire;
      s.up && wire != [] && FitsWire(wire[0]) && poll.packet == EncodeEvent(wire[0])
  }

  /** The behaviour once it has what the poll handed out. */
  function Informed(b: BlobState.State, peer: BlobState.PeerId, polled: Polled<ToBehaviour>,
      world: BlobState.World): BlobState.State {
    if polled.NotifyBehaviour? then BlobState.OnHandlerEvent(b, peer, polled.event, world) else b
  }

  ghost predicate CanInform(b: BlobState.State, peer: BlobState.PeerId, polled: Polled<ToBehaviour>,
      world: BlobState.World) {
    polled.NotifyBehaviour? ==> BlobState.Possible(b, BlobState.FromHandler(peer, polled.event, world))
  }

  function InboundActs(p: Side, h: HandlerState, poll: InboundPoll<Packet>): seq<Act> {
    if h.inbound && poll.Message? then [Deliver(Other(p))] else []
  }

  lemma InboundIsARun(s: System, p: Side, h: HandlerState, poll: InboundPoll<Packet>)
    requires Agrees(h, s.At(p)) && h.activity.Active? && FromTheWire(s, p, poll) && !(h.inbound && poll.ReadError?)
    ensures var o, acts := PollInbound(h, poll), InboundActs(p, h, poll);
            && o.polled.NothingReady? && Guarded(s, acts) && Agrees(o.state, RunOf(s, acts).At(p))
                   && o.state.activity == h.activity
            && RunOf(s, acts).At(p) == s.At(p).(pendingOut := o.state.pendingOut) && RunOf(s, acts).up == s.up
  {
    var acts := InboundActs(p, h, poll);
    if acts != [] {
      EventRoundTrip(s.At(Other(p)).wire[0]);
      assert acts[1..] == [] && Guard(s, acts[0]);
      assert RunOf(s, acts) == RunOf(Next(s, acts[0]), []);
    }
  }

  /** What the end of a poll amounts to: an error handed out, or the head of the queue. */
  function LastActs(p: Side, o: Outcome, world: BlobState.World): seq<Act> {
    if o.polled.NotifyBehaviour? then [Report(p, o.polled.event)]
    else if o.polled.NothingReady? && o.state.pendingOut != [] then [TakeEvent(p, world)]
    else []
  }

  lemma EndIsARun(s: System, p: Side, o: Outcome, world: BlobState.World)
    requires Agrees(o.state, s.At(p)) && o.state.activity.Active? && !o.polled.Panicked?
    requires o.polled.NotifyBehaviour? ==> o.polled.event == Failure(Io)
    requires var last := if o.polled.NothingReady? then PopEvent(o.state) else o;
             CanInform(s.At(p).behaviour, IdOf(Other(p)), last.polled, world)
    ensures var last, acts := if o.polled.NothingReady? then PopEvent(o.state) else o, LastActs(p, o, world);
            && Guarded(s, acts) && Agrees(last.state, RunOf(s, acts).At(p))
            && RunOf(s, acts).At(p).behaviour == Informed(s.At(p).behaviour, IdOf(Other(p)), last.polled, world)
  {
    var acts := LastActs(p, o, world);
    if acts != [] {
      assert acts[1..] == [] && Guard(s, acts[0]);
      assert RunOf(s, acts) == RunOf(Next(s, acts[0]), []);
    }
  }

  function PollActs(s: System, p: Side, h: HandlerState, poll: InboundPoll<Packet>, polls: seq<SendPoll>,
      world: BlobState.World): seq<Act> {
    if h.activity.Inactive? then if h.activity.reported then [] else [Report(p, Unsupported)]
    else if h.inbound && poll.ReadError? then [ReadFails(p)]
    else
      var h1 := PollInbound(h, poll).state;
      InboundActs(p, h, poll)
      + (TurnActs(p, s.At(p).(pendingOut := h1.pendingOut), polls, s.up) + LastActs(p, PollOutbound(h1, polls), world))
  }

  lemma ShortPollIsARun(s: System, p: Side, h: HandlerState, poll: InboundPoll<Packet>, polls: seq<SendPoll>,
      world: BlobState.World)
    requires Agrees(h, s.At(p)) && (h.activity.Inactive? || (h.inbound && poll.ReadError?))
    ensures var o, acts := PollHandler(h, poll, polls), PollActs(s, p, h, poll, polls, world);
            && !o.polled.Panicked? && Guarded(s, acts) && Agrees(o.state, RunOf(s, acts).At(p))
            && RunOf(s, acts).At(p).behaviour == Informed(s.At(p).behaviour, IdOf(Other(p)), o.polled, world)
  {
    var acts := PollActs(s, p, h, poll, polls, world);
    if acts != [] {
      assert acts[1..] == [] && Guard(s, acts[0]);
      assert RunOf(s, acts) == RunOf(Next(s, acts[0]), []);
    }
  }

  /** A poll of a handler whose messages come off the wire never panics and is a run of the system: the run
      leaves the handler as the poll does, and its behaviour with what the poll handed out. */
  lemma PollIsARun(s: System, p: Side, h: HandlerState, poll: InboundPoll<Packet>, polls: seq<SendPoll>,
      world: BlobState.World)
    requires Agrees(h, s.At(p)) && FromTheWire(s, p, poll) && Earned(s.At(p), polls, s.up)
    requires CanInform(s.At(p).behaviour, IdOf(Other(p)), PollHandler(h, poll, polls).polled, world)
    ensures var o, acts := PollHandler(h, poll, polls), PollActs(s, p, h, poll, polls, world);
            && !o.polled.Panicked? && Guarded(s, acts) && Agrees(o.state, RunOf(s, acts).At(p))
            && RunOf(s, acts).At(p).behaviour == Informed(s.At(p).behaviour, IdOf(Other(p)), o.polled, world)
  {
    hide Guarded, RunOf, Informed, CanInform, Earned, TurnActs, PolledOut, Loop, EncodeEvent, DecodePacket;
    if h.activity.Inactive? || (h.inbound && poll.ReadError?) {
      ShortPollIsARun(s, p, h, poll, polls, world);
    } else {
      var a, h1 := InboundActs(p, h, poll), PollInbound(h, poll).state;
      InboundIsARun(s, p, h, poll);
      var s1 := RunOf(s, a);
      EarnedAnyway(s.At(p), s1.At(p), polls, s.up);
      var b, o := TurnActs(p, s1.At(p), polls, s.up), PollOutbound(h1, polls);
      TurnsAreARun(s1, p, polls);
      TurnsMakeAPoll(s1.At(p), polls, s.up, h1);
      var s2 := RunOf(s1, b);
      var c := LastActs(p, o, world);
      EndIsARun(s2, p, o, world);
      RunInTwo(s1, b, c);
      RunInTwo(s, a, b + c);
    }
  }
}

/** The blob connection handler: FIFO queues to and from the behaviour, an inbound stream and the
    outbound machine, updated in place as the source does. */
module BlobHandler {
  import opened Basics
  import opened BlobEvents
  import opened BlobMessages
  import opened Outbound

  datatype HandlerState = HandlerState(
    activity: Activity, machine: Machine<FromBehaviour>, pendingOut: seq<ToBehaviour>, inbound: bool)

  function FreshHandler(): HandlerState { HandlerState(Active, Fresh(), [], false) }

  /** What a completed send reports to the behaviour; timeouts and errors report nothing here. */
  function NoteOf(e: Ended<FromBehaviour>): seq<ToBehaviour> {
    if e.how != Sent then []
    else if e.message.NewFileSend? then [FileSendPending(e.message.localSendId)]
    else if e.message.FileChunk? then [SendProgressed(e.message.localSendId)]
    else []
  }

  function Notes(es: seq<Ended<FromBehaviour>>): seq<ToBehaviour> {
    if es == [] then [] else NoteOf(es[0]) + Notes(es[1..])
  }

  lemma {:induction false} NotesConcat(a: seq<Ended<FromBehaviour>>, b: seq<Ended<FromBehaviour>>)
    ensures Notes(a + b) == Notes(a) + Notes(b)
  {
    if a == [] {
      assert a + b == b;
    } else {
      assert (a + b)[1..] == a[1..] + b;
      NotesConcat(a[1..], b);
    }
  }

  /** What the sends that ended between two looks at the record report. */
  function NotesSince(before: seq<Ended<FromBehaviour>>, after: seq<Ended<FromBehaviour>>): seq<ToBehaviour>
    requires before <= after
  {
    Notes(after[|before|..])
  }

  lemma NothingSince(ended: seq<Ended<FromBehaviour>>)
    ensures NotesSince(ended, ended) == []
  {
    assert ended[|ended|..] == [];
  }

  lemma NotesSinceOne(before: seq<Ended<FromBehaviour>>, e: Ended<FromBehaviour>)
    ensures NotesSince(before, before + [e]) == NoteOf(e)
  {
    assert (before + [e])[|before|..] == [e] && [e][1..] == [];
    assert Notes([e]) == NoteOf(e) + [];
  }

  lemma NotesSinceTwice(a: seq<Ended<FromBehaviour>>, b: seq<Ended<FromBehaviour>>, c: seq<Ended<FromBehaviour>>)
    requires a <= b <= c
    ensures NotesSince(a, c) == NotesSince(a, b) + NotesSince(b, c)
  {
    assert c[|a|..] == b[|a|..] + c[|b|..];
    NotesConcat(b[|a|..], c[|b|..]);
  }

  datatype Outcome = Outcome(state: HandlerState, polled: Polled<ToBehaviour>)

  function PollOutbound(h: HandlerState, polls: seq<SendPoll>): Outcome {
    var turn := Loop(BlobVariant, h.machine, polls);
    var h' := h.(machine := turn.machine, pendingOut := h.pendingOut + NotesSince(h.machine.ended, turn.machine.ended));
    if turn.exit != Return then Outcome(h', NothingReady)
    else Outcome(h', if turn.machine.phase.OpenStream? then RequestSubstream else NotifyBehaviour(Failure(Io)))
  }

  function Understood(packet: Packet): ToBehaviour {
    match DecodePacket(packet)
    case Some(ev) => ev
    case None => Failure(UnrecognizedMessage)
  }

  /** The error report slices the first 20 bytes off the body, which panics when there are fewer. */
  predicate Unreportable(packet: Packet) { DecodePacket(packet).None? && |packet.body| < 20 }

  function PollInbound(h: HandlerState, poll: InboundPoll<Packet>): Outcome {
    if !h.inbound || poll.NotReady? then Outcome(h, NothingReady)
    else if poll.ReadError? then Outcome(h.(inbound := false), NotifyBehaviour(Failure(Io)))
    else if Unreportable(poll.packet) then Outcome(h, Panicked)
    else Outcome(h.(pendingOut := h.pendingOut + [Understood(poll.packet)]), NothingReady)
  }

  function PopEvent(h: HandlerState): Outcome {
    if h.pendingOut == [] then Outcome(h, NothingReady)
    else Outcome(h.(pendingOut := h.pendingOut[1..]), NotifyBehaviour(h.pendingOut[0]))
  }

  /** Inbound first, then outbound, then the queue to the behaviour; the first that has something ends the poll. */
  function PollHandler(h: HandlerState, poll: InboundPoll<Packet>, polls: seq<SendPoll>): Outcome {
    match h.activity
    case Inactive(true) => Outcome(h, NothingReady)
    case Inactive(false) => Outcome(h.(activity := Inactive(true)), NotifyBehaviour(Unsupported))
    case Active =>
      var o := PollInbound(h, poll);
      if !o.polled.NothingReady? then o
      else
        var o := PollOutbound(o.state, polls);
        if !o.polled.NothingReady? then o else PopEvent(o.state)
  }

  /** What a poll puts into the queue for the behaviour before it looks at its own messages. */
  function Arrived(h: HandlerState, poll: InboundPoll<Packet>): seq<ToBehaviour> {
    if h.activity.Active? && h.inbound && poll.Message? then [Understood(poll.packet)] else []
  }

  /** What a poll hands out past the queue. */
  function Bypassing(h: HandlerState, poll: InboundPoll<Packet>, polls: seq<SendPoll>): seq<ToBehaviour> {
    if h.activity.Inactive? then if h.activity.reported then [] else [Unsupported]
    else if h.inbound && poll.ReadError? then [Failure(Io)]
    else
      var turn := Loop(BlobVariant, h.machine, polls);
      if turn.exit == Return && !turn.machine.phase.OpenStream? then [Failure(Io)] else []
  }

  /** No event is lost, doubled or overtaken in a poll: what it hands out and then still holds is what went
      past the queue, what was queued, what arrived and what the ended sends reported, in that order. A
      poll with nothing to say leaves the queue empty, and the messages for the other side are kept. */
  ghost predicate LosesNothing(h: HandlerState, poll: InboundPoll<Packet>, polls: seq<SendPoll>, o: Outcome) {
    && h.machine.ended <= o.state.machine.ended
    && Handed(o.polled) + o.state.pendingOut
         == Bypassing(h, poll, polls) + (h.pendingOut + Arrived(h, poll)
                + NotesSince(h.machine.ended, o.state.machine.ended))
    && (o.polled.NothingReady? && h.activity.Active? ==> o.state.pendingOut == [])
    && History(o.state.machine) == History(h.machine)
  }

  lemma PollLosesNothing(h: HandlerState, poll: InboundPoll<Packet>, polls: seq<SendPoll>)
    requires OneRequest(h.machine) && !PollHandler(h, poll, polls).polled.Panicked?
    ensures LosesNothing(h, poll, polls, PollHandler(h, poll, polls))
  {
    hide *;
    if h.activity.Active? && PollInbound(h, poll).polled.NothingReady? {
      ActivePollLosesNothing(h, poll, polls);
    } else {
      ShortPollLosesNothing(h, poll, polls);
    }
  }

  /** The poll goes on to the outbound half and then to the queue. */
  lemma ActivePollLosesNothing(h: HandlerState, poll: InboundPoll<Packet>, polls: seq<SendPoll>)
    requires OneRequest(h.machine) && h.activity.Active? && PollInbound(h, poll).polled.NothingReady?
    ensures LosesNothing(h, poll, polls, PollHandler(h, poll, polls))
  {
    hide Loop, History, Understood, NotesSince, Unreportable, PopEvent;
    var h1 := PollInbound(h, poll).state;
    var o := PollOutbound(h1, polls);
    LoopKeeps(BlobVariant, h1.machine, polls);
    PopLosesNothing(o.state);
    var notes := NotesSince(h1.machine.ended, o.state.machine.ended);
    assert h1.pendingOut == h.pendingOut + Arrived(h, poll);
    assert [] + (h1.pendingOut + notes) == h1.pendingOut + notes;
  }

  /** The poll ends before that. */
  lemma ShortPollLosesNothing(h: HandlerState, poll: InboundPoll<Packet>, polls: seq<SendPoll>)
    requires !PollHandler(h, poll, polls).polled.Panicked?
    requires h.activity.Inactive? || !PollInbound(h, poll).polled.NothingReady?
    ensures LosesNothing(h, poll, polls, PollHandler(h, poll, polls))
  {
    hide Loop, History, Understood, NotesSince, Unreportable, PopEvent;
    NothingSince(h.machine.ended);
    assert h.pendingOut + [] + [] == h.pendingOut;
  }

  lemma PopLosesNothing(h: HandlerState)
    ensures var o := PopEvent(h);
            && Handed(o.polled) + o.state.pendingOut == h.pendingOut && o.state == h.(pendingOut := o.state.pendingOut)
            && (o.polled.NothingReady? ==> o.state.pendingOut == []) && !o.polled.RequestSubstream?
  {
  }

  /** A poll survives a message if and only if it can be decoded or has the 20 bytes to quote. */
  lemma PollSurvivesWhen(h: HandlerState, packet: Packet, polls: seq<SendPoll>)
    requires h.activity.Active? && h.inbound
    ensures !PollHandler(h, Message(packet), polls).polled.Panicked?
            <==> DecodePacket(packet).Some? || |packet.body| >= 20
  {
  }

  /** A single byte that announces a longer number panics its receiver. */
  lemma ShortBodyPanics(h: HandlerState, polls: seq<SendPoll>)
    requires h.activity.Active? && h.inbound
    ensures PollHandler(h, Message(Packet([128], 1)), polls).polled.Panicked?
  {
    assert ReadVarint([128][1..], 9).None?;
    assert ReadField([128]).None?;
  }

  /** Nothing that the other side's handler sends does. */
  lemma EventsArePolledSafely(h: HandlerState, ev: FromBehaviour, polls: seq<SendPoll>)
    requires FitsWire(ev)
    ensures !PollHandler(h, Message(EncodeEvent(ev)), polls).polled.Panicked?
  {
    EventRoundTrip(ev);
  }

  /** A callback is told when its offer or its acceptance was sent. */
  predicate TellsCallback(e: Ended<FromBehaviour>) {
    e.how == Sent && (e.message.NewFileSend? || e.message.AcceptFile?)
  }

  function InboundOpened(h: HandlerState): HandlerState {
    h.(inbound := true, pendingOut := h.pendingOut + [InboundNegotiated])
  }

  function OutboundOpened(h: HandlerState): HandlerState {
    h.(machine := OnNegotiated(h.machine), pendingOut := h.pendingOut + [OutboundNegotiated])
  }

  function DialFailed(h: HandlerState, unsupported: bool): HandlerState {
    h.(machine := OnDialError(h.machine), activity := if unsupported then Inactive(false) else h.activity)
  }

  /** An event put on the stream here is queued over there as its mirror image. */
  lemma ArrivesMirrored(h: HandlerState, ev: FromBehaviour)
    requires h.inbound && FitsWire(ev)
    ensures PollInbound(h, Message(EncodeEvent(ev))).state.pendingOut == h.pendingOut + [Mirror(ev)]
  {
    EventRoundTrip(ev);
  }

  /** An inbound stream that was opened is reported and listened on. */
  lemma OpenedInboundListens(h: HandlerState, ev: FromBehaviour)
    requires FitsWire(ev)
    ensures PollInbound(InboundOpened(h), Message(EncodeEvent(ev)))
        == Outcome(h.(inbound := true, pendingOut := h.pendingOut + [InboundNegotiated, Mirror(ev)]), NothingReady)
  {
    EventRoundTrip(ev);
  }

  /** What arrives is queued: an error for a type that there is not, whatever the body, an error for a body
      that cannot be read, and otherwise what it says. */
  lemma MessageIsQueued(h: HandlerState, packet: Packet)
    requires h.inbound && (packet.messageType <= 4 && DecodePacket(packet).None? ==> |packet.body| >= 20)
    ensures var o, said := PollInbound(h, Message(packet)), DecodePacket(packet);
            && o.polled == NothingReady
            && o.state == h.(pendingOut := h.pendingOut +
                 [if packet.messageType > 4 then Failure(Io)
                  else if said.Some? then said.value else Failure(UnrecognizedMessage)])
  {
  }

  /** A read error is told at once and ends the inbound stream: what comes after it is not looked at until
      there is a new one. Nothing else changes. */
  lemma ReadErrorEndsStream(h: HandlerState, polls: seq<SendPoll>, packet: Packet, later: seq<SendPoll>)
    requires h.activity.Active? && h.inbound
    ensures var o := PollHandler(h, ReadError, polls);
            && o == Outcome(h.(inbound := false), NotifyBehaviour(Failure(Io)))
            && PollHandler(o.state, Message(packet), later) == PollHandler(o.state, NotReady, later)
  {
  }

  /** A poll that gets past the inbound stream works the outbound one, whatever is queued for the behaviour,
      and hands out a substream request or a broken send before anything of the queue. */
  lemma PollWorksTheStream(h: HandlerState, poll: InboundPoll<Packet>, polls: seq<SendPoll>)
    requires h.activity.Active? && PollInbound(h, poll).polled.NothingReady?
    ensures var o, turn := PollHandler(h, poll, polls), Loop(BlobVariant, h.machine, polls);
            && o.state.machine == turn.machine
            && (turn.exit == Return ==>
                  o.polled == if turn.machine.phase.OpenStream? then RequestSubstream else NotifyBehaviour(Failure(Io)))
            && (turn.exit != Return ==> !o.polled.RequestSubstream?)
  {
    hide Loop, NotesSince;
  }

  /** When the peer does not speak the protocol, the next poll says so, and no later poll says or does
      anything more. */
  lemma UnsupportedIsToldOnce(h: HandlerState, poll: InboundPoll<Packet>, polls: seq<SendPoll>)
    ensures var o := PollHandler(DialFailed(h, true), poll, polls);
            && o.polled == NotifyBehaviour(Unsupported)
            && o.state.pendingOut == h.pendingOut && o.state.machine.queue == h.machine.queue
            && forall poll', polls' :: PollHandler(o.state, poll', polls') == Outcome(o.state, NothingReady)
  {
  }

  /** A dial that fails for another reason is asked for again by the next poll, which leaves the handler as
      it was before the failure. */
  lemma FailedDialIsRepeated(h: HandlerState, polls: seq<SendPoll>)
    requires h.activity.Active? && h.machine.phase.OpenStream? && OneRequest(h.machine)
    ensures PollHandler(DialFailed(h, false), NotReady, polls) == Outcome(h, RequestSubstream)
  {
  }

  /** A stream that was opened is reported, and the next poll sends what was waiting for it. */
  lemma OpenedStreamIsUsed(h: HandlerState, polls: seq<SendPoll>)
    requires h.machine.phase.OpenStream? && OneRequest(h.machine)
    ensures var h', turn := OutboundOpened(h), SendsInTurn(BlobVariant, h.machine.queue, polls, h.machine.ended, 0);
            && h'.pendingOut == h.pendingOut + [OutboundNegotiated]
            && PollOutbound(h', polls).state.machine == turn.machine
            && PollOutbound(h', polls).polled
                 == if turn.exit == Return then NotifyBehaviour(Failure(Io)) else NothingReady
  {
    RequestIsAnswered(h.machine);
    LoopSendsInTurn(BlobVariant, OnNegotiated(h.machine), polls);
    assert [] + h.machine.queue == h.machine.queue;
  }

  class Handler {
    var activity: Activity
    var pendingIn: seq<FromBehaviour>
    var pendingOut: seq<ToBehaviour>
    var inbound: bool
    var outbound: Phase<FromBehaviour>
    // How the sends ended, and the substream requests not answered yet: what the swarm and the
    // dropped futures know.
    var ended: seq<Ended<FromBehaviour>>
    var requests: nat
    // The numbers of the messages whose callbacks were answered.
    var answers: seq<nat>

    /** Every callback is answered at most once, and exactly those of offers and acceptances sent. */
    ghost predicate CallbacksTold()
      reads this`ended, this`answers
    {
      answers == Which(ended, TellsCallback)
    }

    function Abs(): HandlerState
      reads this
    {
      HandlerState(activity, Machine(pendingIn, outbound, ended, requests), pendingOut, inbound)
    }

    constructor ()
      ensures Abs() == FreshHandler() && CallbacksTold()
    {
      activity, pendingIn, pendingOut, inbound, outbound := Active, [], [], false, Closed;
      ended, requests, answers := [], 0, [];
    }

    method FromBehaviourEvent(event: FromBehaviour)
      modifies this`pendingIn
      ensures pendingIn == old(pendingIn) + [event]
    {
      pendingIn := pendingIn + [event];
    }

    method PollInboundStream(poll: InboundPoll<Packet>) returns (polled: Polled<ToBehaviour>)
      modifies this`inbound, this`pendingOut
      ensures Outcome(Abs(), polled) == PollInbound(old(Abs()), poll)
    {
      if inbound {
        if poll.ReadError? {
          inbound := false;
          return NotifyBehaviour(Failure(Io));
        }
        if poll.Message? {
          var ev := DecodePacket(poll.packet);
          if ev.None? && |poll.packet.body| < 20 {
            return Panicked;
          }
          pendingOut := pendingOut + [if ev.Some? then ev.value else Failure(UnrecognizedMessage)];
        }
      }
      return NothingReady;
    }

    /** What the end of a send leaves: a note for the behaviour and an answer for the callback, if the
        message went out. */
    method EndSend(message: FromBehaviour, how: How)
      requires CallbacksTold()
      modifies this`ended, this`pendingOut, this`answers
      ensures CallbacksTold()
      ensures ended == old(ended) + [Ended(message, how)]
      ensures pendingOut == old(pendingOut) + NoteOf(Ended(message, how))
      ensures how != Sent ==> pendingOut == old(pendingOut) && answers == old(answers)
      ensures how == Sent ==>
                match message
                case NewFileSend(_, id, _) =>
                  pendingOut == old(pendingOut) + [FileSendPending(id)] && answers == old(answers) + [|old(ended)|]
                case AcceptFile(_) => pendingOut == old(pendingOut) && answers == old(answers) + [|old(ended)|]
                case FileChunk(id, _) => pendingOut == old(pendingOut) + [SendProgressed(id)] && answers == old(answers)
                case LocalCancelSend(_) => pendingOut == old(pendingOut) && answers == old(answers)
                case LocalCancelRecv(_) => pendingOut == old(pendingOut) && answers == old(answers)
    {
      WhichLast(ended, Ended(message, how), TellsCallback);
      ended := ended + [Ended(message, how)];
      if how == Sent {
        if message.NewFileSend? {
          pendingOut := pendingOut + [FileSendPending(message.localSendId)];
          answers := answers + [|ended| - 1];
        } else if message.AcceptFile? {
          answers := answers + [|ended| - 1];
        } else if message.FileChunk? {
          pendingOut := pendingOut + [SendProgressed(message.localSendId)];
        }
      }
    }

    /** One turn of the outbound loop. */
    method OutboundTurn(poll: SendPoll) returns (exit: Exit)
      requires CallbacksTold()
      modifies this
      ensures CallbacksTold()
      ensures activity == old(activity) && inbound == old(inbound)
      ensures Turn(Abs().machine, exit) == TurnOf(BlobVariant, old(Abs()).machine, poll)
      ensures old(ended) <= ended && pendingOut == old(pendingOut) + NotesSince(old(ended), ended)
    {
      hide Which, NotesSince;
      NothingSince(ended);
      var taken := outbound;
      outbound := Closed;
      match taken {
        case Busy(message) =>
          if poll == StillPending {
            outbound := taken;
            return Break;
          }
          var how := match poll case TimerFired => TimedOut case SendDone => Sent case _ => Broken;
          NotesSinceOne(ended, Ended(message, how));
          EndSend(message, how);
          if poll != SendDone {
            return Return;
          }
          outbound := Idle;
          return Again;
        case Idle =>
          if pendingIn == [] {
            outbound := Idle;
            return Break;
          }
          outbound := Busy(pendingIn[0]);
          pendingIn := pendingIn[1..];
          return Again;
        case OpenStream =>
          outbound := OpenStream;
          return Break;
        case Closed =>
          outbound := OpenStream;
          requests := requests + 1;
          return Return;
      }
    }

    method OutboundLoop(polls: seq<SendPoll>) returns (exit: Exit)
      requires CallbacksTold()
      modifies this
      ensures CallbacksTold()
      ensures activity == old(activity) && inbound == old(inbound)
      ensures Turn(Abs().machine, exit) == Loop(BlobVariant, old(Abs()).machine, polls)
      ensures old(ended) <= ended && pendingOut == old(pendingOut) + NotesSince(old(ended), ended)
    {
      var rest := polls;
      ghost var goal := Loop(BlobVariant, Abs().machine, polls);
      hide Which, NotesSince;
      NothingSince(ended);
      exit := Again;
      while exit == Again
        invariant activity == old(activity) && inbound == old(inbound) && CallbacksTold()
        invariant exit == Again ==> goal == Loop(BlobVariant, Abs().machine, rest)
        invariant exit != Again ==> goal == Turn(Abs().machine, exit)
        invariant old(ended) <= ended && pendingOut == old(pendingOut) + NotesSince(old(ended), ended)
        decreases exit == Again, |pendingIn|, Rank(outbound)
      {
        ghost var before := ended;
        LoopOnce(BlobVariant, Abs().machine, rest);
        var wasBusy := outbound.Busy?;
        exit := OutboundTurn(NextPoll(rest));
        rest := if wasBusy && rest != [] then rest[1..] else rest;
        NotesSinceTwice(old(ended), before, ended);
        Regroup(old(pendingOut), NotesSince(old(ended), before), NotesSince(before, ended));
      }
    }

    method PollOutboundStream(polls: seq<SendPoll>) returns (polled: Polled<ToBehaviour>)
      requires CallbacksTold()
      modifies this
      ensures CallbacksTold()
      ensures Outcome(Abs(), polled) == PollOutbound(old(Abs()), polls)
    {
      var exit := OutboundLoop(polls);
      polled := if exit != Return then NothingReady
                else if outbound.OpenStream? then RequestSubstream else NotifyBehaviour(Failure(Io));
    }

    method Poll(inboundPoll: InboundPoll<Packet>, polls: seq<SendPoll>) returns (polled: Polled<ToBehaviour>)
      requires CallbacksTold()
      modifies this
      ensures CallbacksTold()
      ensures Outcome(Abs(), polled) == PollHandler(old(Abs()), inboundPoll, polls)
      ensures forall i: nat :: i in answers <==>
                && i < |ended| && ended[i].how == Sent
                && (ended[i].message.NewFileSend? || ended[i].message.AcceptFile?)
      ensures forall i, j :: 0 <= i < j < |answers| ==> answers[i] < answers[j]
    {
      WhichExactly(ended, TellsCallback);
      if activity == Inactive(true) {
        return NothingReady;
      }
      if activity == Inactive(false) {
        activity := Inactive(true);
        return NotifyBehaviour(Unsupported);
      }
      polled := PollInboundStream(inboundPoll);
      if !polled.NothingReady? {
        return;
      }
      polled := PollOutboundStream(polls);
      WhichExactly(ended, TellsCallback);
      if !polled.NothingReady? {
        return;
      }
      if pendingOut != [] {
        polled := NotifyBehaviour(pendingOut[0]);
        pendingOut := pendingOut[1..];
      }
    }

    method OnInboundNegotiated()
      requires CallbacksTold()
      modifies this
      ensures CallbacksTold()
      ensures Abs() == InboundOpened(old(Abs()))
    {
      inbound := true;
      pendingOut := pendingOut + [InboundNegotiated];
    }

    method OnOutboundNegotiated()
      requires CallbacksTold()
      modifies this
      ensures CallbacksTold()
      ensures Abs() == OutboundOpened(old(Abs()))
    {
      outbound := Idle;
      requests := if requests > 0 then requests - 1 else 0;
      pendingOut := pendingOut + [OutboundNegotiated];
    }

    method OnDialUpgradeError(negotiationFailed: bool)
      requires CallbacksTold()
      modifies this
      ensures CallbacksTold()
      ensures Abs() == DialFailed(old(Abs()), negotiationFailed)
    {
      outbound := Closed;
      requests := if requests > 0 then requests - 1 else 0;
      if negotiationFailed {
        activity := Inactive(false);
      }
    }
  }
}

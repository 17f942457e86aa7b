/** The advertise connection handler: the outbound machine that reports a failed send and asks for a
    new stream in the same loop. */
module AdvertiseHandler {
  import opened Basics
  import opened Outbound

  type PeerId = nat

  datatype FromBehaviour =
    | QueryAdvertisedPeer
    | AnswerAdvertisedPeer(peers: Option<seq<PeerId>>)
    | SetAdvertiseSelf(on: bool)

  datatype ToBehaviour =
    | IncomingQuery
    | QueryAnswered(peers: Option<seq<PeerId>>)
    | IncomingAdvertiseReq(on: bool)
    | Timeout
    | IoError
    | UnrecognizedMessage
    | InboundNegotiated
    | OutboundNegotiated

  /** How the other side sees a message; it travels as an opaque body that the other side may not read. */
  function Mirror(m: FromBehaviour): ToBehaviour {
    match m
    case QueryAdvertisedPeer => IncomingQuery
    case AnswerAdvertisedPeer(peers) => QueryAnswered(peers)
    case SetAdvertiseSelf(on) => IncomingAdvertiseReq(on)
  }

  function ReportOf(e: Ended<FromBehaviour>): seq<ToBehaviour> {
    match e.how case Sent => [] case TimedOut => [Timeout] case Broken => [IoError]
  }

  function Reporter(): Ended<FromBehaviour> -> seq<ToBehaviour> { (e: Ended<FromBehaviour>) => ReportOf(e) }

  /** One report per message that did not get through. */
  function Reports(es: seq<Ended<FromBehaviour>>): seq<ToBehaviour> { Project(es, Reporter()) }

  datatype HandlerState = HandlerState(
    activity: Activity, machine: Machine<FromBehaviour>, pendingOut: seq<ToBehaviour>, inbound: bool)

  datatype Outcome = Outcome(state: HandlerState, polled: Polled<ToBehaviour>)

  function PollOutbound(h: HandlerState, polls: seq<SendPoll>): Outcome {
    var turn := Loop(AdvertiseVariant, h.machine, polls);
    Outcome(h.(machine := turn.machine, pendingOut := h.pendingOut + Reports(turn.machine.ended[|h.machine.ended|..])),
            if turn.exit == Return then RequestSubstream else NothingReady)
  }

  /** A body that cannot be read as a packet is None. */
  function PollInbound(h: HandlerState, poll: InboundPoll<Option<FromBehaviour>>): HandlerState {
    if !h.inbound || poll.NotReady? then h
    else if poll.ReadError? then h.(inbound := false, pendingOut := h.pendingOut + [IoError])
    else h.(pendingOut := h.pendingOut + [if poll.packet.Some? then Mirror(poll.packet.value) else UnrecognizedMessage])
  }

  function PopEvent(h: HandlerState): Outcome {
    if h.pendingOut == [] then Outcome(h, NothingReady)
    else Outcome(h.(pendingOut := h.pendingOut[1..]), NotifyBehaviour(h.pendingOut[0]))
  }

  /** An inactive handler goes on for one more poll. */
  function PollHandler(h: HandlerState, poll: InboundPoll<Option<FromBehaviour>>, polls: seq<SendPoll>): Outcome {
    if h.activity == Inactive(true) then Outcome(h, NothingReady)
    else
      var h := h.(activity := if h.activity.Inactive? then Inactive(true) else h.activity);
      var o := PollOutbound(PollInbound(h, poll), polls);
      if o.polled.NothingReady? then PopEvent(o.state) else o
  }

  /** What a poll puts into the queue for the behaviour before it looks at its own messages. */
  function Arrived(h: HandlerState, poll: InboundPoll<Option<FromBehaviour>>): seq<ToBehaviour> {
    if h.activity == Inactive(true) || !h.inbound || poll.NotReady? then []
    else if poll.ReadError? then [IoError]
    else [if poll.packet.Some? then Mirror(poll.packet.value) else UnrecognizedMessage]
  }

  /** No event is lost, doubled or overtaken in a poll: what it hands out and then still holds is what was
      queued, what arrived and a report for every send that failed meanwhile, in that order. A poll with
      nothing to say leaves the queue empty, and the messages for the other side are kept. */
  ghost predicate LosesNothing(h: HandlerState, poll: InboundPoll<Option<FromBehaviour>>, o: Outcome) {
    && h.machine.ended <= o.state.machine.ended
    && Handed(o.polled) + o.state.pendingOut
         == h.pendingOut + Arrived(h, poll) + Reports(o.state.machine.ended[|h.machine.ended|..])
    && (o.polled.NothingReady? && h.activity != Inactive(true) ==> o.state.pendingOut == [])
    && History(o.state.machine) == History(h.machine)
  }

  lemma PollLosesNothing(h: HandlerState, poll: InboundPoll<Option<FromBehaviour>>, polls: seq<SendPoll>)
    requires OneRequest(h.machine)
    ensures LosesNothing(h, poll, PollHandler(h, poll, polls))
  {
    hide *;
    if h.activity == Inactive(true) {
      SilentPollLosesNothing(h, poll, polls);
    } else {
      WholePollLosesNothing(h, poll, polls);
    }
  }

  lemma WholePollLosesNothing(h: HandlerState, poll: InboundPoll<Option<FromBehaviour>>, polls: seq<SendPoll>)
    requires OneRequest(h.machine) && h.activity != Inactive(true)
    ensures LosesNothing(h, poll, PollHandler(h, poll, polls))
  {
    hide Loop, History, Reports, PopEvent, Mirror;
    var h1 := PollInbound(h.(activity := if h.activity.Inactive? then Inactive(true) else h.activity), poll);
    LoopKeeps(AdvertiseVariant, h.machine, polls);
    PopLosesNothing(PollOutbound(h1, polls).state);
    assert h.pendingOut + [] == h.pendingOut;
    assert h1.pendingOut == h.pendingOut + Arrived(h, poll);
  }

  lemma SilentPollLosesNothing(h: HandlerState, poll: InboundPoll<Option<FromBehaviour>>, polls: seq<SendPoll>)
    requires h.activity == Inactive(true)
    ensures LosesNothing(h, poll, PollHandler(h, poll, polls))
  {
    assert h.machine.ended[|h.machine.ended|..] == [] && Reports([]) == [];
    assert h.pendingOut + [] + [] == h.pendingOut;
  }

  lemma PopLosesNothing(h: HandlerState)
    ensures var o := PopEvent(h);
            && Handed(o.polled) + o.state.pendingOut == h.pendingOut && o.state == h.(pendingOut := o.state.pendingOut)
            && (o.polled.NothingReady? ==> o.state.pendingOut == [])
  {
  }

  /** What arrives is queued as what it asks or answers, as an error when it cannot be read; a read error
      is queued and ends the stream. */
  lemma MessageIsQueued(h: HandlerState, poll: InboundPoll<Option<FromBehaviour>>)
    requires h.inbound && !poll.NotReady?
    ensures var told :=
              if poll.ReadError? then IoError
              else
                match poll.packet
                case None => UnrecognizedMessage
                case Some(QueryAdvertisedPeer) => IncomingQuery
                case Some(AnswerAdvertisedPeer(peers)) => QueryAnswered(peers)
                case Some(SetAdvertiseSelf(on)) => IncomingAdvertiseReq(on);
            PollInbound(h, poll) == h.(pendingOut := h.pendingOut + [told], inbound := !poll.ReadError?)
  {
  }

  /** A send that fails is reported, a timeout as one, and the poll asks for a new stream; a completed one is
      not reported. */
  lemma OnlyFailuresAreReported(h: HandlerState, polls: seq<SendPoll>)
    requires h.activity.Active? && !h.inbound && h.machine.phase.Busy? && polls != [] && polls[0] != StillPending
    requires polls[0] == SendDone ==> h.machine.queue == []
    ensures var o := PollHandler(h, NotReady, polls);
            match polls[0]
            case TimerFired => o.state.pendingOut == h.pendingOut + [Timeout] && o.polled == RequestSubstream
            case SendFailed => o.state.pendingOut == h.pendingOut + [IoError] && o.polled == RequestSubstream
            case _ => Handed(o.polled) + o.state.pendingOut == h.pendingOut && o.state.machine.phase == Idle
  {
    hide Loop, Reports;
    var message := h.machine.phase.message;
    var how := match polls[0] case TimerFired => TimedOut case SendDone => Sent case _ => Broken;
    LoopSendsInTurn(AdvertiseVariant, h.machine, polls);
    var turn := Loop(AdvertiseVariant, h.machine, polls);
    assert turn.machine.ended == h.machine.ended + [Ended(message, how)];
    assert turn.machine.ended[|h.machine.ended|..] == [] + [Ended(message, how)];
    ReportOfOne(Ended(message, how));
  }

  lemma ReportOfOne(e: Ended<FromBehaviour>)
    ensures Reports([] + [e]) == match e.how case Sent => [] case TimedOut => [Timeout] case Broken => [IoError]
  {
    ProjectOne([], e, Reporter());
  }

  /** Every poll but that of a silent handler works the outbound stream, whatever is queued for the
      behaviour, and asks for a substream before it hands out anything of the queue. */
  lemma PollWorksTheStream(h: HandlerState, poll: InboundPoll<Option<FromBehaviour>>, polls: seq<SendPoll>)
    requires h.activity != Inactive(true)
    ensures var o, turn := PollHandler(h, poll, polls), Loop(AdvertiseVariant, h.machine, polls);
            && o.state.machine == turn.machine
            && (o.polled.RequestSubstream? <==> turn.exit == Return)
  {
    hide Loop, Reports;
  }

  /** An inactive handler is polled as an active one once more, and then is silent. */
  lemma InactiveGoesSilent(h: HandlerState, poll: InboundPoll<Option<FromBehaviour>>, polls: seq<SendPoll>)
    requires h.activity == Inactive(false)
    ensures var o, active := PollHandler(h, poll, polls), PollHandler(h.(activity := Active), poll, polls);
            && o == Outcome(active.state.(activity := Inactive(true)), active.polled)
            && forall poll', polls' :: PollHandler(o.state, poll', polls') == Outcome(o.state, NothingReady)
  {
  }

  /** Unlike the other two handlers, a poll returns from the loop only to ask for a stream, and it never
      leaves the machine without a stream, a request for one or a running send. */
  lemma NeverWithoutStream(m: Machine<FromBehaviour>, polls: seq<SendPoll>)
    ensures var turn := Loop(AdvertiseVariant, m, polls);
            && !turn.machine.phase.Closed?
            && (turn.exit == Return ==> turn.machine.phase.OpenStream?)
            && (turn.exit != Return && turn.machine.phase.Idle? ==> turn.machine.queue == [])
    decreases |m.queue|, Rank(m.phase)
  {
    var turn := TurnOf(AdvertiseVariant, m, NextPoll(polls));
    LoopOnce(AdvertiseVariant, m, polls);
    if turn.exit == Again && !turn.machine.phase.Closed? {
      NeverWithoutStream(turn.machine, LaterPolls(m.phase, polls));
    } else if turn.exit == Again {
      LoopOnce(AdvertiseVariant, turn.machine, LaterPolls(m.phase, polls));
    }
  }

  class Handler {
    var activity: Activity
    var pendingIn: seq<FromBehaviour>
    var pendingOut: seq<ToBehaviour>
    var inbound: bool
    var outbound: Phase<FromBehaviour>
    // How the sends ended, and the substream requests not answered yet.
    var ended: seq<Ended<FromBehaviour>>
    var requests: nat

    function Abs(): HandlerState
      reads this
    {
      HandlerState(activity, Machine(pendingIn, outbound, ended, requests), pendingOut, inbound)
    }

    constructor ()
      ensures Abs() == HandlerState(Active, Fresh(), [], false)
    {
      activity, pendingIn, pendingOut, inbound, outbound := Active, [], [], false, Closed;
      ended, requests := [], 0;
    }

    /** One turn of the outbound loop. */
    method OutboundTurn(poll: SendPoll) returns (exit: Exit)
      modifies this
      ensures activity == old(activity) && inbound == old(inbound)
      ensures Turn(Abs().machine, exit) == TurnOf(AdvertiseVariant, old(Abs()).machine, poll)
      ensures old(ended) <= ended && pendingOut == old(pendingOut) + Reports(ended[|old(ended)|..])
    {
      var taken := outbound;
      outbound := Closed;
      match taken {
        case Busy(message) =>
          if poll == StillPending {
            outbound := taken;
            return Break;
          }
          var how := match poll case TimerFired => TimedOut case SendDone => Sent case _ => Broken;
          ended := ended + [Ended(message, how)];
          ProjectOne([], Ended(message, how), Reporter());
          assert ended[|old(ended)|..] == [] + [Ended(message, how)];
          if how == TimedOut {
            pendingOut := pendingOut + [Timeout];
          } else if how == Broken {
            pendingOut := pendingOut + [IoError];
          } else {
            outbound := Idle;
          }
          return Again;
        case Idle =>
          if pendingIn == [] {
            outbound := Idle;
            return Break;
          }
          outbound := Busy(pendingIn[0]);
          pendingIn := pendingIn[1..];
          return Again;
        case OpenStream =>
          outbound := OpenStream;
          return Break;
        case Closed =>
          outbound := OpenStream;
          requests := requests + 1;
          return Return;
      }
    }

    method PollOutboundStream(polls: seq<SendPoll>) returns (polled: Polled<ToBehaviour>)
      modifies this
      ensures Outcome(Abs(), polled) == PollOutbound(old(Abs()), polls)
    {
      var rest := polls;
      var exit := Again;
      ghost var goal := Loop(AdvertiseVariant, Abs().machine, polls);
      ghost var more: seq<Ended<FromBehaviour>> := [];
      while exit == Again
        invariant activity == old(activity) && inbound == old(inbound)
        invariant exit == Again ==> goal == Loop(AdvertiseVariant, Abs().machine, rest)
        invariant exit != Again ==> goal == Turn(Abs().machine, exit)
        invariant ended == old(ended) + more && pendingOut == old(pendingOut) + Reports(more)
        decreases exit == Again, |pendingIn|, Rank(outbound)
      {
        ghost var before := ended;
        LoopOnce(AdvertiseVariant, Abs().machine, rest);
        var wasBusy := outbound.Busy?;
        exit := OutboundTurn(NextPoll(rest));
        rest := if wasBusy && rest != [] then rest[1..] else rest;
        ghost var latest := ended[|before|..];
        assert ended == before + latest;
        ProjectAppend(more, latest, Reporter());
        Regroup(old(ended), more, latest);
        Regroup(old(pendingOut), Reports(more), Reports(latest));
        more := more + latest;
      }
      assert ended[|old(ended)|..] == more;
      polled := if exit == Return then RequestSubstream else NothingReady;
    }

    method Poll(inboundPoll: InboundPoll<Option<FromBehaviour>>, polls: seq<SendPoll>)
        returns (polled: Polled<ToBehaviour>)
      modifies this
      ensures Outcome(Abs(), polled) == PollHandler(old(Abs()), inboundPoll, polls)
    {
      if activity == Inactive(true) {
        return NothingReady;
      }
      if activity == Inactive(false) {
        activity := Inactive(true);
      }
      if inbound {
        if inboundPoll.ReadError? {
          pendingOut := pendingOut + [IoError];
          inbound := false;
        } else if inboundPoll.Message? {
          pendingOut := pendingOut + [
            if inboundPoll.packet.Some? then Mirror(inboundPoll.packet.value) else UnrecognizedMessage];
        }
      }
      polled := PollOutboundStream(polls);
      if polled.NothingReady? && pendingOut != [] {
        polled := NotifyBehaviour(pendingOut[0]);
        pendingOut := pendingOut[1..];
      }
    }
  }
}

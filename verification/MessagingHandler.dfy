/** The messaging connection handler: the outbound machine with a callback for every message. */
module MessagingHandler {
  import opened Basics
  import opened Outbound

  /** A message and its callback; the callback is known by the number the message was submitted under. */
  datatype Post = Post(body: Bytes, ticket: nat)

  datatype ToBehaviour = IncomingMessage(bytes: Bytes) | IoError | InboundNegotiated | OutboundNegotiated | Unsupported

  /** The answer of the callback under a number: the round trip time, or that the send timed out. */
  datatype Reply = Reply(ticket: nat, timedOut: bool)

  /** A send that breaks drops its callback without an answer. */
  function ReplyTo(e: Ended<Post>): seq<Reply> {
    if e.how == Broken then [] else [Reply(e.message.ticket, e.how == TimedOut)]
  }

  function Replier(): Ended<Post> -> seq<Reply> { (e: Ended<Post>) => ReplyTo(e) }

  function Replies(es: seq<Ended<Post>>): seq<Reply> { Project(es, Replier()) }

  datatype HandlerState = HandlerState(
    activity: Activity, machine: Machine<Post>, pendingOut: seq<ToBehaviour>, inbound: bool)

  datatype Outcome = Outcome(state: HandlerState, polled: Polled<ToBehaviour>)

  function PollOutbound(h: HandlerState, polls: seq<SendPoll>): Outcome {
    var turn := Loop(MessagingVariant, h.machine, polls);
    Outcome(h.(machine := turn.machine),
            if turn.exit != Return then NothingReady
            else if turn.machine.phase.OpenStream? then RequestSubstream
            else NotifyBehaviour(IoError))
  }

  function PollInbound(h: HandlerState, poll: InboundPoll<Bytes>): Outcome {
    if !h.inbound || poll.NotReady? then Outcome(h, NothingReady)
    else if poll.ReadError? then Outcome(h.(inbound := false, pendingOut := h.pendingOut + [IoError]), NothingReady)
    else Outcome(h, NotifyBehaviour(IncomingMessage(poll.packet)))
  }

  function PollHandler(h: HandlerState, poll: InboundPoll<Bytes>, polls: seq<SendPoll>): Outcome {
    match h.activity
    case Inactive(true) => Outcome(h, NothingReady)
    case Inactive(false) => Outcome(h.(activity := Inactive(true)), NotifyBehaviour(Unsupported))
    case Active =>
      var o := PollInbound(h, poll);
      if !o.polled.NothingReady? then o
      else
        var o := PollOutbound(o.state, polls);
        if !o.polled.NothingReady? || o.state.pendingOut == [] then o
        else Outcome(o.state.(pendingOut := o.state.pendingOut[1..]), NotifyBehaviour(o.state.pendingOut[0]))
  }

  /** What a poll hands out past the queue. */
  function Bypassing(h: HandlerState, poll: InboundPoll<Bytes>, polls: seq<SendPoll>): seq<ToBehaviour> {
    if h.activity.Inactive? then if h.activity.reported then [] else [Unsupported]
    else if h.inbound && poll.Message? then [IncomingMessage(poll.packet)]
    else
      var turn := Loop(MessagingVariant, h.machine, polls);
      if turn.exit == Return && !turn.machine.phase.OpenStream? then [IoError] else []
  }

  /** No event is lost, doubled or overtaken in a poll: what it hands out and then still holds is what went
      past the queue, what was queued and a read error if there was one, in that order. A poll with
      nothing to say leaves the queue empty, and the messages for the other side are kept. */
  lemma PollLosesNothing(h: HandlerState, poll: InboundPoll<Bytes>, polls: seq<SendPoll>)
    requires OneRequest(h.machine)
    ensures var o := PollHandler(h, poll, polls);
            && Handed(o.polled) + o.state.pendingOut
                 == Bypassing(h, poll, polls)
                    + (h.pendingOut + if h.activity.Active? && h.inbound && poll.ReadError? then [IoError] else [])
            && (o.polled.NothingReady? && h.activity.Active? ==> o.state.pendingOut == [])
            && History(o.state.machine) == History(h.machine)
  {
    hide Loop, History;
    LoopKeeps(MessagingVariant, h.machine, polls);
    assert h.pendingOut + [] == h.pendingOut;
  }

  /** A message that times out while nothing else is ready is answered, its stream is dropped, and the
      poll hands out nothing but an event queued before. */
  lemma TimeoutIsAnswered(h: HandlerState, polls: seq<SendPoll>)
    requires h.activity.Active? && h.machine.phase.Busy? && polls != [] && polls[0].TimerFired?
    ensures var o := PollHandler(h, NotReady, polls);
            && o.state.machine.ended == h.machine.ended + [Ended(h.machine.phase.message, TimedOut)]
            && o.state.machine.phase.Closed? && o.state.machine.queue == h.machine.queue
            && o.polled == if h.pendingOut == [] then NothingReady else NotifyBehaviour(h.pendingOut[0])
  {
  }

  /** A read error is queued and ends the inbound stream, and the poll goes on; what comes after it is not
      looked at until there is a new one. */
  lemma ReadErrorEndsStream(h: HandlerState, polls: seq<SendPoll>, bytes: Bytes, later: seq<SendPoll>)
    requires h.activity.Active? && h.inbound
    ensures var h', o := h.(inbound := false, pendingOut := h.pendingOut + [IoError]), PollHandler(h, ReadError, polls);
            && o == PollHandler(h', NotReady, polls)
            && PollHandler(o.state, Message(bytes), later) == PollHandler(o.state, NotReady, later)
  {
  }

  /** A poll that receives no message works the outbound stream, whatever is queued for the behaviour, and
      hands out a substream request or a broken send before anything of the queue. */
  lemma PollWorksTheStream(h: HandlerState, poll: InboundPoll<Bytes>, polls: seq<SendPoll>)
    requires h.activity.Active? && !(h.inbound && poll.Message?)
    ensures var o, turn := PollHandler(h, poll, polls), Loop(MessagingVariant, h.machine, polls);
            && o.state.machine == turn.machine
            && (turn.exit == Return ==>
                  o.polled == if turn.machine.phase.OpenStream? then RequestSubstream else NotifyBehaviour(IoError))
            && (turn.exit != Return ==> !o.polled.RequestSubstream?)
  {
    hide Loop;
  }

  /** When the peer does not speak the protocol, one poll says so, and no later poll says or does anything. */
  lemma UnsupportedIsToldOnce(h: HandlerState, poll: InboundPoll<Bytes>, polls: seq<SendPoll>)
    requires h.activity == Inactive(false)
    ensures var o := PollHandler(h, poll, polls);
            && o == Outcome(h.(activity := Inactive(true)), NotifyBehaviour(Unsupported))
            && forall poll', polls' :: PollHandler(o.state, poll', polls') == Outcome(o.state, NothingReady)
  {
  }

  class Handler {
    var activity: Activity
    var pendingIn: seq<Post>
    var pendingOut: seq<ToBehaviour>
    var inbound: bool
    var outbound: Phase<Post>
    // How the sends ended, what the callbacks were told, and the substream requests not answered yet.
    var ended: seq<Ended<Post>>
    var replies: seq<Reply>
    var requests: nat

    /** The callbacks were told how their sends ended, in order, except for sends that broke. */
    ghost predicate CallbacksTold()
      reads this`ended, this`replies
    {
      replies == Replies(ended)
    }

    function Abs(): HandlerState
      reads this
    {
      HandlerState(activity, Machine(pendingIn, outbound, ended, requests), pendingOut, inbound)
    }

    constructor ()
      ensures Abs() == HandlerState(Active, Fresh(), [], false) && CallbacksTold()
    {
      activity, pendingIn, pendingOut, inbound, outbound := Active, [], [], false, Closed;
      ended, replies, requests := [], [], 0;
    }

    method OnBehaviourEvent(post: Post)
      modifies this`pendingIn
      ensures Abs().machine == Outbound.OnBehaviourEvent(old(Abs()).machine, post)
    {
      pendingIn := pendingIn + [post];
    }

    /** The send's end is told to the callback, unless it broke. */
    method EndSend(post: Post, how: How)
      requires CallbacksTold()
      modifies this`ended, this`replies
      ensures CallbacksTold() && ended == old(ended) + [Ended(post, how)]
    {
      ProjectOne(ended, Ended(post, how), Replier());
      ended := ended + [Ended(post, how)];
      if how == TimedOut {
        replies := replies + [Reply(post.ticket, true)];
      } else if how == Sent {
        replies := replies + [Reply(post.ticket, false)];
      }
    }

    method PollOutboundStream(polls: seq<SendPoll>) returns (polled: Polled<ToBehaviour>)
      requires CallbacksTold()
      modifies this
      ensures CallbacksTold()
      ensures Outcome(Abs(), polled) == PollOutbound(old(Abs()), polls)
    {
      var rest := polls;
      ghost var goal := Loop(MessagingVariant, Abs().machine, polls);
      while true
        invariant activity == old(activity) && inbound == old(inbound) && pendingOut == old(pendingOut)
        invariant CallbacksTold() && goal == Loop(MessagingVariant, Abs().machine, rest)
        decreases |pendingIn|, Rank(outbound)
      {
        LoopOnce(MessagingVariant, Abs().machine, rest);
        var taken := outbound;
        outbound := Closed;
        match taken {
          case Busy(post) =>
            var poll := NextPoll(rest);
            rest := if rest == [] then rest else rest[1..];
            if poll == StillPending {
              outbound := taken;
              break;
            }
            EndSend(post, match poll case TimerFired => TimedOut case SendDone => Sent case _ => Broken);
            if poll == TimerFired {
              break;
            }
            if poll == SendFailed {
              return NotifyBehaviour(IoError);
            }
            outbound := Idle;
          case Idle =>
            if pendingIn == [] {
              outbound := Idle;
              break;
            }
            outbound := Busy(pendingIn[0]);
            pendingIn := pendingIn[1..];
          case OpenStream =>
            outbound := OpenStream;
            break;
          case Closed =>
            outbound := OpenStream;
            requests := requests + 1;
            return RequestSubstream;
        }
      }
      return NothingReady;
    }

    method Poll(inboundPoll: InboundPoll<Bytes>, polls: seq<SendPoll>) returns (polled: Polled<ToBehaviour>)
      requires CallbacksTold()
      modifies this
      ensures CallbacksTold()
      ensures Outcome(Abs(), polled) == PollHandler(old(Abs()), inboundPoll, polls)
    {
      if activity == Inactive(true) {
        return NothingReady;
      }
      if activity == Inactive(false) {
        activity := Inactive(true);
        return NotifyBehaviour(Unsupported);
      }
      if inbound {
        if inboundPoll.Message? {
          return NotifyBehaviour(IncomingMessage(inboundPoll.packet));
        }
        if inboundPoll.ReadError? {
          pendingOut := pendingOut + [IoError];
          inbound := false;
        }
      }
      polled := PollOutboundStream(polls);
      if polled.NothingReady? && pendingOut != [] {
        polled := NotifyBehaviour(pendingOut[0]);
        pendingOut := pendingOut[1..];
      }
    }

    method OnOutboundNegotiated()
      requires CallbacksTold()
      modifies this
      ensures CallbacksTold()
      ensures Abs() == old(Abs()).(machine := OnNegotiated(old(Abs()).machine),
          pendingOut := old(pendingOut) + [OutboundNegotiated])
    {
      outbound := Idle;
      requests := if requests > 0 then requests - 1 else 0;
      pendingOut := pendingOut + [OutboundNegotiated];
    }

    method OnInboundNegotiated()
      requires CallbacksTold()
      modifies this
      ensures CallbacksTold()
      ensures Abs() == old(Abs()).(inbound := true, pendingOut := old(pendingOut) + [InboundNegotiated])
    {
      inbound := true;
      pendingOut := pendingOut + [InboundNegotiated];
    }

    method OnDialUpgradeError(negotiationFailed: bool)
      requires CallbacksTold()
      modifies this
      ensures CallbacksTold()
      ensures Abs() == old(Abs()).(machine := OnDialError(old(Abs()).machine),
                                   activity := if negotiationFailed then Inactive(false) else old(activity))
    {
      outbound := Closed;
      requests := if requests > 0 then requests - 1 else 0;
      if negotiationFailed {
        activity := Inactive(false);
      }
    }
  }
}

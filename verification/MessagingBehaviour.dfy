/** The messaging behaviour: a queue of requests, the connected peers and a queue of events. */
module MessagingBehaviour {
  import opened Basics
  import opened MessagingHandler

  type PeerId = nat

  datatype Request = Request(peer: PeerId, post: Post)

  datatype InEvent = SendMessage(request: Request) | ListConnected(ticket: nat)

  datatype OutEvent =
    | Received(from: PeerId, message: Bytes)
    | Failed
    | Unreadable(bytes: Bytes)
    | InboundOpen(peer: PeerId)
    | OutboundOpen(peer: PeerId)
    | NotSupported(peer: PeerId)

  /** What became of a request: handed to the connection, or its callback answered PeerNotFound. */
  datatype Decision = Decision(request: Request, forwarded: bool)

  datatype Listing = Listing(ticket: nat, peers: set<PeerId>)

  datatype State = State(
    inEvents: seq<InEvent>, outEvents: seq<OutEvent>, connected: set<PeerId>,
    decisions: seq<Decision>, listings: seq<Listing>)

  const INITIAL := State([], [], {}, [], [])

  datatype Drained = Drained(state: State, notice: Option<Request>)

  /** Works through the requests up to the first one for a connected peer. */
  function Drain(s: State): Drained
    decreases |s.inEvents|
  {
    if s.inEvents == [] then Drained(s, None)
    else
      var rest := s.(inEvents := s.inEvents[1..]);
      match s.inEvents[0]
      case ListConnected(ticket) => Drain(rest.(listings := s.listings + [Listing(ticket, s.connected)]))
      case SendMessage(r) =>
        var next := rest.(decisions := s.decisions + [Decision(r, r.peer in s.connected)]);
        if r.peer in s.connected then Drained(next, Some(r)) else Drain(next)
  }

  /** `parsed` is what reading an incoming body gives: the sender it names and the text. */
  function OnHandlerEvent(s: State, peer: PeerId, ev: ToBehaviour, parsed: Option<(PeerId, Bytes)>): State {
    match ev
    case IncomingMessage(bytes) =>
      s.(outEvents := s.outEvents + [match parsed case Some(m) => Received(m.0, m.1) case None => Unreadable(bytes)])
    case IoError => s.(outEvents := s.outEvents + [Failed])
    case InboundNegotiated => s.(outEvents := s.outEvents + [InboundOpen(peer)])
    case OutboundNegotiated => s.(outEvents := s.outEvents + [OutboundOpen(peer)], connected := s.connected + {peer})
    case Unsupported => s.(outEvents := s.outEvents + [NotSupported(peer)])
  }

  function OnDisconnect(s: State, peer: PeerId, remaining: nat): State {
    if remaining < 1 then s.(connected := s.connected - {peer}) else s
  }

  // ---------------------------------------------------------------- what becomes of requests and events

  /** The answers to the listings among `es`, all with the peers connected now. */
  function ListingsOf(es: seq<InEvent>, connected: set<PeerId>): seq<Listing> {
    if es == [] then []
    else (if es[0].ListConnected? then [Listing(es[0].ticket, connected)] else []) + ListingsOf(es[1..], connected)
  }

  /** What is decided of the messages among `es`: to go out if the peer is connected. */
  function DecisionsOf(es: seq<InEvent>, connected: set<PeerId>): seq<Decision> {
    if es == [] then []
    else
      (if es[0].SendMessage? then [Decision(es[0].request, es[0].request.peer in connected)] else [])
      + DecisionsOf(es[1..], connected)
  }

  predicate GoesOut(e: InEvent, connected: set<PeerId>) { e.SendMessage? && e.request.peer in connected }

  lemma OnItsOwn(e: InEvent, connected: set<PeerId>)
    ensures DecisionsOf([e], connected)
        == if e.SendMessage? then [Decision(e.request, e.request.peer in connected)] else []
    ensures ListingsOf([e], connected) == if e.ListConnected? then [Listing(e.ticket, connected)] else []
  {
    assert [e][1..] == [];
    assert DecisionsOf([], connected) == [] && ListingsOf([], connected) == [];
  }

  lemma DrainOne(s: State)
    requires s.inEvents != []
    ensures var e := s.inEvents[0];
            var next := State(s.inEvents[1..], s.outEvents, s.connected, s.decisions + DecisionsOf([e], s.connected),
                              s.listings + ListingsOf([e], s.connected));
            Drain(s) == if GoesOut(e, s.connected) then Drained(next, Some(e.request)) else Drain(next)
  {
    var e := s.inEvents[0];
    hide ListingsOf, DecisionsOf;
    OnItsOwn(e, s.connected);
    assert s.decisions + [] == s.decisions && s.listings + [] == s.listings;
  }

  lemma PartFirst(e: InEvent, es: seq<InEvent>, connected: set<PeerId>)
    ensures DecisionsOf([e] + es, connected) == DecisionsOf([e], connected) + DecisionsOf(es, connected)
    ensures ListingsOf([e] + es, connected) == ListingsOf([e], connected) + ListingsOf(es, connected)
  {
    assert ([e] + es)[1..] == es && [e][1..] == [];
  }

  /** One round works through a first part of the requests: up to the first message to a connected peer,
      which is handed out, or all of them. Every listing among them is answered with the peers connected,
      every message decided, and nothing else changes. */
  lemma {:induction false} DrainTakesAPrefix(s: State) returns (k: nat)
    ensures k <= |s.inEvents|
    ensures Drain(s).state == s.(inEvents := s.inEvents[k..],
                                 listings := s.listings + ListingsOf(s.inEvents[..k], s.connected),
                                 decisions := s.decisions + DecisionsOf(s.inEvents[..k], s.connected))
    ensures match Drain(s).notice
            case None => k == |s.inEvents| && forall i :: 0 <= i < k ==> !GoesOut(s.inEvents[i], s.connected)
            case Some(r) =>
              && k > 0 && s.inEvents[k - 1] == SendMessage(r) && r.peer in s.connected
              && forall i :: 0 <= i < k - 1 ==> !GoesOut(s.inEvents[i], s.connected)
    decreases |s.inEvents|
  {
    if s.inEvents == [] {
      k := 0;
      assert s.listings + [] == s.listings && s.decisions + [] == s.decisions;
    } else {
      hide Drain, ListingsOf, DecisionsOf;
      var e := s.inEvents[0];
      var listed, decided := ListingsOf([e], s.connected), DecisionsOf([e], s.connected);
      DrainOne(s);
      if GoesOut(e, s.connected) {
        k := 1;
        assert s.inEvents[..1] == [e];
      } else {
        var next := State(s.inEvents[1..], s.outEvents, s.connected, s.decisions + decided, s.listings + listed);
        var j := DrainTakesAPrefix(next);
        k := j + 1;
        assert s.inEvents[..k] == [e] + next.inEvents[..j];
        PartFirst(e, next.inEvents[..j], s.connected);
        Regroup(s.listings, listed, ListingsOf(next.inEvents[..j], s.connected));
        Regroup(s.decisions, decided, DecisionsOf(next.inEvents[..j], s.connected));
      }
    }
  }

  /** The user hears of every event of a handler once: a message under the sender that it names, one that
      cannot be read with its bytes, and the rest under the peer of the connection. Only a negotiated
      outbound stream makes a peer connected, and only its last connection's end undoes that. */
  lemma EventIsTold(s: State, peer: PeerId, ev: ToBehaviour, parsed: Option<(PeerId, Bytes)>, remaining: nat)
    ensures var told := match ev
              case IncomingMessage(bytes) =>
                (match parsed case Some((from, text)) => Received(from, text) case None => Unreadable(bytes))
              case IoError => Failed
              case InboundNegotiated => InboundOpen(peer)
              case OutboundNegotiated => OutboundOpen(peer)
              case Unsupported => NotSupported(peer);
            OnHandlerEvent(s, peer, ev, parsed)
              == s.(outEvents := s.outEvents + [told],
                    connected := if ev.OutboundNegotiated? then s.connected + {peer} else s.connected)
    ensures OnDisconnect(s, peer, remaining) == if remaining > 0 then s else s.(connected := s.connected - {peer})
  {
  }

  datatype ToSwarm = Pending | GenerateEvent(event: OutEvent) | NotifyHandler(request: Request)

  class Behaviour {
    var outEvents: seq<OutEvent>
    var inEvents: seq<InEvent>
    var connectedPeers: set<PeerId>
    // What the callbacks and the swarm were told, in order.
    var decisions: seq<Decision>
    var listings: seq<Listing>

    function Abs(): State
      reads this
    {
      State(inEvents, outEvents, connectedPeers, decisions, listings)
    }

    constructor ()
      ensures Abs() == INITIAL
    {
      outEvents, inEvents, connectedPeers, decisions, listings := [], [], {}, [], [];
    }

    method PushEvent(event: InEvent)
      modifies this`inEvents
      ensures inEvents == old(inEvents) + [event]
    {
      inEvents := inEvents + [event];
    }

    method OnConnectionClosed(peer: PeerId, remaining: nat)
      modifies this
      ensures Abs() == OnDisconnect(old(Abs()), peer, remaining)
    {
      if remaining < 1 {
        connectedPeers := connectedPeers - {peer};
      }
    }

    method HandleInEvents() returns (notice: Option<Request>)
      modifies this
      ensures Drained(Abs(), notice) == Drain(old(Abs()))
    {
      while inEvents != []
        invariant Drain(Abs()) == Drain(old(Abs()))
        decreases |inEvents|
      {
        var ev := inEvents[0];
        inEvents := inEvents[1..];
        match ev {
          case SendMessage(r) =>
            if r.peer in connectedPeers {
              decisions := decisions + [Decision(r, true)];
              return Some(r);
            }
            decisions := decisions + [Decision(r, false)];
          case ListConnected(ticket) =>
            listings := listings + [Listing(ticket, connectedPeers)];
        }
      }
      return None;
    }

    method Poll() returns (polled: ToSwarm)
      modifies this
      ensures old(outEvents) != [] ==>
                Abs() == old(Abs()).(outEvents := old(outEvents)[1..]) && polled == GenerateEvent(old(outEvents)[0])
      ensures old(outEvents) == [] ==>
                && Abs() == Drain(old(Abs())).state
                && polled == match Drain(old(Abs())).notice case Some(r) => NotifyHandler(r) case None => Pending
    {
      if outEvents != [] {
        polled := GenerateEvent(outEvents[0]);
        outEvents := outEvents[1..];
        return;
      }
      var notice := HandleInEvents();
      polled := if notice.Some? then NotifyHandler(notice.value) else Pending;
    }

    method OnConnectionHandlerEvent(peer: PeerId, event: ToBehaviour, parsed: Option<(PeerId, Bytes)>)
      modifies this
      ensures Abs() == OnHandlerEvent(old(Abs()), peer, event, parsed)
    {
      match event {
        case IncomingMessage(bytes) =>
          if parsed.Some? {
            outEvents := outEvents + [Received(parsed.value.0, parsed.value.1)];
          } else {
            outEvents := outEvents + [Unreadable(bytes)];
          }
        case IoError =>
          outEvents := outEvents + [Failed];
        case InboundNegotiated =>
          outEvents := outEvents + [InboundOpen(peer)];
        case OutboundNegotiated =>
          outEvents := outEvents + [OutboundOpen(peer)];
          connectedPeers := connectedPeers + {peer};
        case Unsupported =>
          outEvents := outEvents + [NotSupported(peer)];
      }
    }
  }
}

/** The messaging behaviour with any number of connections: on a connection that stays open every
    message is in exactly one place at any time and none is sent twice or out of order. */
module MessagingRuns {
  import opened Basics
  import opened Outbound
  import opened MessagingHandler
  import opened MessagingBehaviour

  /** `mail` is what the swarm carries to a handler; `submitted` are the messages ever submitted, each
      callback numbered by its place there. */
  datatype Net = Net(
    behaviour: MessagingBehaviour.State, mail: seq<Request>, handlers: map<PeerId, Machine<Post>>,
        submitted: seq<Request>)

  const QUIET := Net(MessagingBehaviour.INITIAL, [], map[], [])

  datatype Act =
    | Submit(peer: PeerId, body: Bytes)
    | AskConnected(ticket: nat)
    | PollBehaviour
    | Carry
    | Work(peer: PeerId, op: Outbound.Op<Post>)
    | Report(peer: PeerId, event: ToBehaviour, parsed: Option<(PeerId, Bytes)>)
    | Open(peer: PeerId)
    | Close(peer: PeerId)

  ghost predicate Guard(n: Net, act: Act) {
    match act
    case Carry => n.mail != []
    // Messages reach a handler through the mail only, and the swarm answers each request once.
    case Work(peer, op) =>
      peer in n.handlers && !op.Push? && (op.Negotiated? || op.DialError? ==> n.handlers[peer].requests > 0)
    case Report(peer, _, _) => peer in n.handlers
    case Open(peer) => peer !in n.handlers
    case _ => true
  }

  function Carried(n: Net): Net
    requires n.mail != []
  {
    var r, rest := n.mail[0], n.(mail := n.mail[1..]);
    if r.peer in n.handlers then
      rest.(handlers := n.handlers[r.peer := OnBehaviourEvent(n.handlers[r.peer], r.post)])
    else rest
  }

  function Polled(n: Net): Net {
    var d := Drain(n.behaviour);
    n.(behaviour := d.state, mail := n.mail + match d.notice case Some(r) => [r] case None => [])
  }

  function Submitted(n: Net, peer: PeerId, body: Bytes): Net {
    var r := Request(peer, Post(body, |n.submitted|));
    n.(submitted := n.submitted + [r], behaviour := n.behaviour.(inEvents := n.behaviour.inEvents + [SendMessage(r)]))
  }

  function Next(n: Net, act: Act): Net
    requires Guard(n, act)
  {
    match act
    case Submit(peer, body) => Submitted(n, peer, body)
    case AskConnected(ticket) =>
      n.(behaviour := n.behaviour.(inEvents := n.behaviour.inEvents + [ListConnected(ticket)]))
    case PollBehaviour => Polled(n)
    case Carry => Carried(n)
    case Work(peer, op) => n.(handlers := n.handlers[peer := Outbound.Apply(MessagingVariant, n.handlers[peer], op)])
    case Report(peer, ev, parsed) => n.(behaviour := OnHandlerEvent(n.behaviour, peer, ev, parsed))
    case Open(peer) => n.(handlers := n.handlers[peer := Fresh()])
    case Close(peer) => n.(handlers := n.handlers - {peer}, behaviour := OnDisconnect(n.behaviour, peer, 0))
  }

  ghost predicate Guarded(n: Net, acts: seq<Act>)
    decreases |acts|
  {
    acts == [] || (Guard(n, acts[0]) && Guarded(Next(n, acts[0]), acts[1..]))
  }

  function RunOf(n: Net, acts: seq<Act>): Net
    requires Guarded(n, acts)
    decreases |acts|
  {
    if acts == [] then n else RunOf(Next(n, acts[0]), acts[1..])
  }

  predicate StaysOpen(acts: seq<Act>, p: PeerId) { Close(p) !in acts }

  // ---------------------------------------------------------------- who is connected

  /** The last word of a run about a peer: its outbound stream was negotiated, or its connection closed. */
  function LastWord(acts: seq<Act>, peer: PeerId, before: bool): bool {
    if acts == [] then before
    else
      LastWord(acts[1..], peer,
               if acts[0] == Close(peer) then false
               else if acts[0].Report? && acts[0].peer == peer && acts[0].event.OutboundNegotiated? then true
               else before)
  }

  lemma {:induction false} DrainKeepsConnected(s: MessagingBehaviour.State)
    ensures Drain(s).state.connected == s.connected
  {
    var _ := DrainTakesAPrefix(s);
  }

  /** A peer is connected if and only if that is the last word about it. */
  lemma {:induction false} ConnectedIsLastWord(n: Net, acts: seq<Act>, peer: PeerId)
    requires Guarded(n, acts)
    ensures peer in RunOf(n, acts).behaviour.connected <==> LastWord(acts, peer, peer in n.behaviour.connected)
    decreases |acts|
  {
    hide Drain;
    if acts != [] {
      DrainKeepsConnected(n.behaviour);
      ConnectedIsLastWord(Next(n, acts[0]), acts[1..], peer);
    }
  }

  // ---------------------------------------------------------------- where the messages to one peer are

  function PostsTo(p: PeerId): Request -> seq<Post> { (r: Request) => if r.peer == p then [r.post] else [] }

  function Posts(rs: seq<Request>, p: PeerId): seq<Post> { Project(rs, PostsTo(p)) }

  function Asks(): InEvent -> seq<Request> { (e: InEvent) => if e.SendMessage? then [e.request] else [] }

  function Waiting(es: seq<InEvent>): seq<Request> { Project(es, Asks()) }

  function AnyDecision(): Decision -> seq<Request> { (d: Decision) => [d.request] }

  function Decided(ds: seq<Decision>): seq<Request> { Project(ds, AnyDecision()) }

  function Chosen(forwarded: bool): Decision -> seq<Request> {
    (d: Decision) => if d.forwarded == forwarded then [d.request] else []
  }

  function Forwarded(ds: seq<Decision>): seq<Request> { Project(ds, Chosen(true)) }

  function Refused(ds: seq<Decision>): seq<Request> { Project(ds, Chosen(false)) }

  /** Everything the connection to `p` ever got, in order: ended, running, queued and in the mail. */
  function OnConnection(n: Net, p: PeerId): seq<Post> {
    (if p in n.handlers then History(n.handlers[p]) else []) + Posts(n.mail, p)
  }

  ghost predicate Numbered(rs: seq<Request>, from: nat) { forall i :: 0 <= i < |rs| ==> rs[i].post.ticket == from + i }

  ghost predicate Inv(n: Net, p: PeerId) {
    && n.behaviour.connected <= n.handlers.Keys
    && n.submitted == Decided(n.behaviour.decisions) + Waiting(n.behaviour.inEvents)
    && Numbered(n.submitted, 0)
    && Posts(Forwarded(n.behaviour.decisions), p) == OnConnection(n, p)
    && (if p in n.handlers then OneRequest(n.handlers[p]) else Posts(n.mail, p) == [])
  }

  // ---------------------------------------------------------------- every act keeps it

  lemma DecisionAdded(ds: seq<Decision>, d: Decision, p: PeerId)
    ensures Decided(ds + [d]) == Decided(ds) + [d.request]
    ensures Posts(Forwarded(ds + [d]), p)
        == Posts(Forwarded(ds), p) + if d.forwarded && d.request.peer == p then [d.request.post] else []
  {
    ProjectOne(ds, d, AnyDecision());
    ProjectOne(ds, d, Chosen(true));
    if d.forwarded { ProjectOne(Forwarded(ds), d.request, PostsTo(p)); }
    else { assert Forwarded(ds) + [] == Forwarded(ds); }
  }

  lemma {:induction false} DrainKeeps(s: MessagingBehaviour.State, p: PeerId)
    ensures var d := Drain(s);
            && Decided(d.state.decisions) + Waiting(d.state.inEvents) == Decided(s.decisions) + Waiting(s.inEvents)
            && d.state.connected == s.connected
            && (d.notice.Some? ==> d.notice.value.peer in s.connected)
            && Posts(Forwarded(d.state.decisions), p) == Posts(Forwarded(s.decisions), p)
                 + (if d.notice.Some? && d.notice.value.peer == p then [d.notice.value.post] else [])
    decreases |s.inEvents|
  {
    if s.inEvents == [] {
    } else if s.inEvents[0].ListConnected? {
      DrainKeeps(s.(inEvents := s.inEvents[1..],
          listings := s.listings + [Listing(s.inEvents[0].ticket, s.connected)]), p);
      assert [] + Waiting(s.inEvents[1..]) == Waiting(s.inEvents[1..]);
    } else {
      var r := s.inEvents[0].request;
      var d := Decision(r, r.peer in s.connected);
      DecisionAdded(s.decisions, d, p);
      Regroup(Decided(s.decisions), [r], Waiting(s.inEvents[1..]));
      if r.peer !in s.connected {
        DrainKeeps(s.(inEvents := s.inEvents[1..], decisions := s.decisions + [d]), p);
      }
    }
  }

  lemma PollKeeps(n: Net, p: PeerId)
    requires Inv(n, p)
    ensures Inv(Polled(n), p)
  {
    hide Drain, Decided, Waiting, Forwarded, History, Numbered;
    DrainKeeps(n.behaviour, p);
    var notice := Drain(n.behaviour).notice;
    if notice.Some? {
      ProjectOne(n.mail, notice.value, PostsTo(p));
      Regroup(if p in n.handlers then History(n.handlers[p]) else [], Posts(n.mail, p), PostsTo(p)(notice.value));
    } else {
      assert n.mail + [] == n.mail;
    }
  }

  lemma CarryKeeps(n: Net, p: PeerId)
    requires Inv(n, p) && n.mail != []
    ensures Inv(Carried(n), p)
  {
    var r, n' := n.mail[0], Carried(n);
    assert Posts(n.mail, p) == PostsTo(p)(r) + Posts(n.mail[1..], p);
    if r.peer == p {
      if p in n.handlers {
        OpKeeps(MessagingVariant, n.handlers[p], Outbound.Push(r.post));
        assert [Outbound.Push(r.post)][1..] == [];
        assert History(n'.handlers[p]) == History(n.handlers[p]) + [r.post];
        Regroup(History(n.handlers[p]), [r.post], Posts(n.mail[1..], p));
      }
    }
  }

  lemma SubmitKeeps(n: Net, p: PeerId, peer: PeerId, body: Bytes)
    requires Inv(n, p)
    ensures Inv(Submitted(n, peer, body), p)
  {
    hide Posts, Forwarded, History, Decided, OneRequest;
    var r := Request(peer, Post(body, |n.submitted|));
    ProjectOne(n.behaviour.inEvents, SendMessage(r), Asks());
    Regroup(Decided(n.behaviour.decisions), Waiting(n.behaviour.inEvents), [r]);
  }

  lemma WorkKeeps(n: Net, p: PeerId, peer: PeerId, op: Outbound.Op<Post>)
    requires Inv(n, p) && Guard(n, Work(peer, op))
    ensures Inv(Next(n, Work(peer, op)), p)
  {
    if peer == p {
      OpKeeps(MessagingVariant, n.handlers[p], op);
      assert Pushed([op]) == [];
      assert History(n.handlers[p]) + [] == History(n.handlers[p]);
    }
  }

  lemma AskKeeps(n: Net, p: PeerId, ticket: nat)
    requires Inv(n, p)
    ensures Inv(Next(n, AskConnected(ticket)), p)
  {
    hide Decided, Waiting, Forwarded, Numbered, Posts, History, OneRequest;
    NothingAsked(n.behaviour.inEvents, ticket);
  }

  lemma NothingAsked(es: seq<InEvent>, ticket: nat)
    ensures Waiting(es + [ListConnected(ticket)]) == Waiting(es)
  {
    ProjectOne(es, ListConnected(ticket), Asks());
    assert Waiting(es) + [] == Waiting(es);
  }

  /** What the peer's connection holds is the same, or it has just been opened. */
  lemma SameConnection(n: Net, n': Net, p: PeerId)
    requires Inv(n, p) && n'.submitted == n.submitted && n'.mail == n.mail && n'.behaviour.connected <= n'.handlers.Keys
    requires n'.behaviour.decisions == n.behaviour.decisions && n'.behaviour.inEvents == n.behaviour.inEvents
    requires if p in n.handlers then p in n'.handlers && n'.handlers[p] == n.handlers[p]
             else p in n'.handlers ==> n'.handlers[p] == Fresh()
    ensures Inv(n', p)
  {
    assert History(Fresh<Post>()) == [];
    hide Decided, Forwarded, Waiting, Numbered, Posts, History;
  }

  lemma RestKeeps(n: Net, act: Act, p: PeerId)
    requires Inv(n, p) && Guard(n, act) && act != Close(p) && (act.Report? || act.Open? || act.Close?)
    ensures Inv(Next(n, act), p)
  {
    assert n.behaviour.connected <= n.handlers.Keys;
    hide Inv, Drain, Carried, Polled, Submitted, Outbound.Apply;
    SameConnection(n, Next(n, act), p);
  }

  lemma InvKept(n: Net, act: Act, p: PeerId)
    requires Inv(n, p) && Guard(n, act) && act != Close(p)
    ensures Inv(Next(n, act), p)
  {
    hide Inv, Submitted, Polled, Carried;
    if act.Submit? { SubmitKeeps(n, p, act.peer, act.body); }
    else if act.PollBehaviour? { PollKeeps(n, p); }
    else if act.Carry? { CarryKeeps(n, p); }
    else if act.Work? { WorkKeeps(n, p, act.peer, act.op); }
    else if act.AskConnected? { AskKeeps(n, p, act.ticket); }
    else { RestKeeps(n, act, p); }
  }

  lemma {:induction false} InvAlways(n: Net, acts: seq<Act>, p: PeerId)
    requires Inv(n, p) && Guarded(n, acts) && StaysOpen(acts, p)
    ensures Inv(RunOf(n, acts), p)
    decreases |acts|
  {
    if acts != [] {
      assert acts[0] in acts;
      InvKept(n, acts[0], p);
      InvAlways(Next(n, acts[0]), acts[1..], p);
    }
  }

  // ---------------------------------------------------------------- conservation

  /** Every place a message to `p` can be: ended (answered Ok or Timeout, or dropped by an error),
      running, in the handler's queue, in the mail, refused with PeerNotFound, or still waiting. */
  function Places(n: Net, p: PeerId): multiset<Post> {
    multiset(OnConnection(n, p)) + multiset(Posts(Refused(n.behaviour.decisions), p))
        + multiset(Posts(Waiting(n.behaviour.inEvents), p))
  }

  lemma PostsFirst(r: Request, rs: seq<Request>, p: PeerId)
    ensures Posts([r] + rs, p) == PostsTo(p)(r) + Posts(rs, p)
  {
    assert ([r] + rs)[1..] == rs;
  }

  lemma DecisionFirst(ds: seq<Decision>)
    requires ds != []
    ensures Decided(ds) == [ds[0].request] + Decided(ds[1..])
    ensures Forwarded(ds) == if ds[0].forwarded then [ds[0].request] + Forwarded(ds[1..]) else Forwarded(ds[1..])
    ensures Refused(ds) == if ds[0].forwarded then Refused(ds[1..]) else [ds[0].request] + Refused(ds[1..])
  {
    assert forall q: seq<Request> :: [] + q == q;
  }

  lemma {:induction false} DecisionsSplit(ds: seq<Decision>, p: PeerId)
    ensures multiset(Posts(Decided(ds), p)) == multiset(Posts(Forwarded(ds), p)) + multiset(Posts(Refused(ds), p))
  {
    if ds != [] {
      DecisionFirst(ds);
      hide Decided, Forwarded, Refused, Posts;
      DecisionsSplit(ds[1..], p);
      PostsFirst(ds[0].request, Decided(ds[1..]), p);
      PostsFirst(ds[0].request, Forwarded(ds[1..]), p);
      PostsFirst(ds[0].request, Refused(ds[1..]), p);
    }
  }

  ghost predicate Increasing(q: seq<Post>) { forall i, j :: 0 <= i < j < |q| ==> q[i].ticket < q[j].ticket }

  ghost predicate IncreasingFrom(q: seq<Post>, from: nat) {
    Increasing(q) && forall i :: 0 <= i < |q| ==> q[i].ticket >= from
  }

  lemma IncreasingFirst(first: seq<Post>, rest: seq<Post>, from: nat)
    requires IncreasingFrom(rest, from + 1) && (first == [] || (|first| == 1 && first[0].ticket == from))
    ensures IncreasingFrom(first + rest, from)
  {
  }

  lemma NumberedFirst(r: Request, rs: seq<Request>, from: nat)
    requires Numbered([r] + rs, from)
    ensures r.post.ticket == from && Numbered(rs, from + 1)
  {
    assert ([r] + rs)[0] == r && forall i :: 0 <= i < |rs| ==> ([r] + rs)[i + 1] == rs[i];
  }

  /** What a numbered list holds for one peer is in the order of the numbers. */
  lemma {:induction false} PostsIncrease(rs: seq<Request>, from: nat, p: PeerId)
    requires Numbered(rs, from)
    ensures IncreasingFrom(Posts(rs, p), from)
    decreases |rs|
  {
    if rs != [] {
      hide Numbered, IncreasingFrom, Posts;
      assert rs == [rs[0]] + rs[1..];
      NumberedFirst(rs[0], rs[1..], from);
      PostsIncrease(rs[1..], from + 1, p);
      PostsFirst(rs[0], rs[1..], p);
      IncreasingFirst(PostsTo(p)(rs[0]), Posts(rs[1..], p), from);
    }
  }

  lemma {:induction false} ForwardedIncrease(ds: seq<Decision>, from: nat, p: PeerId)
    requires Numbered(Decided(ds), from)
    ensures IncreasingFrom(Posts(Forwarded(ds), p), from)
    decreases |ds|
  {
    if ds != [] {
      DecisionFirst(ds);
      hide Numbered, IncreasingFrom, Posts, Decided, Forwarded;
      var r, rest := ds[0].request, Posts(Forwarded(ds[1..]), p);
      NumberedFirst(r, Decided(ds[1..]), from);
      ForwardedIncrease(ds[1..], from + 1, p);
      PostsFirst(r, Forwarded(ds[1..]), p);
      assert [] + rest == rest;
      IncreasingFirst(if ds[0].forwarded then PostsTo(p)(r) else [], rest, from);
    }
  }

  /** Conservation: while the connection to `p` stays open, the places together hold exactly the
      messages submitted to `p`, each once. */
  lemma EveryMessageInOnePlace(acts: seq<Act>, p: PeerId)
    requires Guarded(QUIET, acts) && StaysOpen(acts, p)
    ensures var n := RunOf(QUIET, acts);
            && Places(n, p) == multiset(Posts(n.submitted, p))
            && Increasing(Posts(n.submitted, p))
  {
    InvAlways(QUIET, acts, p);
    var n := RunOf(QUIET, acts);
    DecisionsSplit(n.behaviour.decisions, p);
    ProjectAppend(Decided(n.behaviour.decisions), Waiting(n.behaviour.inEvents), PostsTo(p));
    PostsIncrease(n.submitted, 0, p);
  }

  lemma HistoryPart(m: Machine<Post>, mail: seq<Post>, i: nat)
    requires i < |m.ended|
    ensures i < |History(m) + mail| && (History(m) + mail)[i] == m.ended[i].message
  {
  }

  /** Order: the connection handles messages in the order of their submission, so no callback is
      answered twice and answers, Ok or not, never overtake each other. */
  lemma AnswersInOrder(acts: seq<Act>, p: PeerId)
    requires Guarded(QUIET, acts) && StaysOpen(acts, p)
    ensures var n := RunOf(QUIET, acts);
            && Increasing(OnConnection(n, p))
            && (p in n.handlers ==>
                  forall i, j :: 0 <= i < j < |n.handlers[p].ended| ==>
                    n.handlers[p].ended[i].message.ticket < n.handlers[p].ended[j].message.ticket)
  {
    InvAlways(QUIET, acts, p);
    var n := RunOf(QUIET, acts);
    var decided := Decided(n.behaviour.decisions);
    assert Numbered(decided, 0) by { assert forall i :: 0 <= i < |decided| ==> n.submitted[i] == decided[i]; }
    ForwardedIncrease(n.behaviour.decisions, 0, p);
    if p in n.handlers {
      var m := n.handlers[p];
      forall i, j | 0 <= i < j < |m.ended| ensures m.ended[i].message.ticket < m.ended[j].message.ticket {
        HistoryPart(m, Posts(n.mail, p), i);
        HistoryPart(m, Posts(n.mail, p), j);
      }
    }
  }

  lemma {:induction false} RepliesTellEnds(es: seq<Ended<Post>>)
    requires forall i, j :: 0 <= i < j < |es| ==> es[i].message.ticket < es[j].message.ticket
    ensures forall i, j :: 0 <= i < j < |Replies(es)| ==> Replies(es)[i].ticket < Replies(es)[j].ticket
    ensures forall r :: r in Replies(es) <==>
              exists e :: e in es && e.how != Broken && r == Reply(e.message.ticket, e.how == TimedOut)
    decreases |es|
  {
    if es != [] {
      var rest := Replies(es[1..]);
      RepliesTellEnds(es[1..]);
      assert Replies(es) == ReplyTo(es[0]) + rest && es == [es[0]] + es[1..];
      forall i | 0 <= i < |rest| ensures es[0].message.ticket < rest[i].ticket {
        assert rest[i] in rest;
        var e :| e in es[1..] && e.how != Broken && rest[i] == Reply(e.message.ticket, e.how == TimedOut);
      }
    }
  }

  /** Callbacks: on a connection that stays open each is answered at most once, in the order of submission,
      and a message's is answered, with a timeout or a time, exactly when its send ended unbroken. */
  lemma CallbacksAnsweredOnce(acts: seq<Act>, p: PeerId)
    requires Guarded(QUIET, acts) && StaysOpen(acts, p) && p in RunOf(QUIET, acts).handlers
    ensures var ended := RunOf(QUIET, acts).handlers[p].ended;
            && (forall i, j :: 0 <= i < j < |Replies(ended)| ==> Replies(ended)[i].ticket < Replies(ended)[j].ticket)
            && forall r :: r in Replies(ended) <==>
                 exists e :: e in ended && e.how != Broken && r == Reply(e.message.ticket, e.how == TimedOut)
  {
    AnswersInOrder(acts, p);
    RepliesTellEnds(RunOf(QUIET, acts).handlers[p].ended);
  }
}

/** The outbound half of a connection handler. Blob, messaging and advertise each have a copy of it;
    they differ in what happens when a send times out or fails. */
module Outbound {
  import opened Basics

  datatype Variant = BlobVariant | MessagingVariant | AdvertiseVariant

  datatype Phase<T> = Closed | OpenStream | Idle | Busy(message: T)

  datatype Activity = Active | Inactive(reported: bool)

  /** What a handler's poll hands out, or that it panics. */
  datatype Polled<E> = NothingReady | NotifyBehaviour(event: E) | RequestSubstream | Panicked

  function Handed<E>(p: Polled<E>): seq<E> { if p.NotifyBehaviour? then [p.event] else [] }

  /** What polling the inbound stream finds. */
  datatype InboundPoll<M> = NotReady | ReadError | Message(packet: M)

  /** What polling the running send, and then its timer, finds. */
  datatype SendPoll = StillPending | TimerFired | SendFailed | SendDone

  datatype How = Sent | TimedOut | Broken

  datatype Ended<T> = Ended(message: T, how: How)

  /** `ended` records, in order, how the send of each message ended; `requests` counts the substream
      requests that were not answered yet. */
  datatype Machine<T> = Machine(queue: seq<T>, phase: Phase<T>, ended: seq<Ended<T>>, requests: nat)

  function Fresh<T>(): Machine<T> { Machine([], Closed, [], 0) }

  /** How one turn of the poll loop leaves it: go on, leave the loop, or return to the caller. */
  datatype Exit = Again | Break | Return

  datatype Turn<T> = Turn(machine: Machine<T>, exit: Exit)

  function TurnOf<T>(v: Variant, m: Machine<T>, poll: SendPoll): Turn<T> {
    match m.phase
    case Busy(message) =>
      (match poll
       case StillPending => Turn(m, Break)
       case SendDone => Turn(m.(phase := Idle, ended := m.ended + [Ended(message, Sent)]), Again)
       case TimerFired =>
         Turn(m.(phase := Closed, ended := m.ended + [Ended(message, TimedOut)]),
              match v case BlobVariant => Return case MessagingVariant => Break case AdvertiseVariant => Again)
       case SendFailed =>
         Turn(m.(phase := Closed, ended := m.ended + [Ended(message, Broken)]),
              match v case BlobVariant => Return case MessagingVariant => Return case AdvertiseVariant => Again))
    case Idle =>
      if m.queue == [] then Turn(m, Break)
      else Turn(m.(queue := m.queue[1..], phase := Busy(m.queue[0])), Again)
    case OpenStream => Turn(m, Break)
    case Closed => Turn(m.(phase := OpenStream, requests := m.requests + 1), Return)
  }

  function Rank<T>(p: Phase<T>): nat {
    match p case Busy(_) => 2 case Idle => 1 case OpenStream => 0 case Closed => 0
  }

  function NextPoll(polls: seq<SendPoll>): SendPoll { if polls == [] then StillPending else polls[0] }

  function LaterPolls<T>(p: Phase<T>, polls: seq<SendPoll>): seq<SendPoll> {
    if p.Busy? && polls != [] then polls[1..] else polls
  }

  /** The whole loop; `polls` are the results of polling a running send, in turn, pending from then on.
      Every turn that goes round again takes a message or moves from Busy over Idle to a free stream. */
  function Loop<T>(v: Variant, m: Machine<T>, polls: seq<SendPoll>): (turn: Turn<T>)
    ensures m.ended <= turn.machine.ended
    decreases |m.queue|, Rank(m.phase)
  {
    var turn := TurnOf(v, m, NextPoll(polls));
    if turn.exit != Again then turn
    else Loop(v, turn.machine, LaterPolls(m.phase, polls))
  }

  lemma LoopOnce<T>(v: Variant, m: Machine<T>, polls: seq<SendPoll>)
    ensures var turn := TurnOf(v, m, NextPoll(polls));
            && Loop(v, m, polls)
                 == (if turn.exit == Again then Loop(v, turn.machine, LaterPolls(m.phase, polls)) else turn)
            && (turn.exit == Again ==>
                  |turn.machine.queue| < |m.queue|
                      || (turn.machine.queue == m.queue && Rank(turn.machine.phase) < Rank(m.phase)))
  {
  }

  /** What follows a send that fails: advertise asks for a new stream in the same loop and stays in step
      with the swarm; the others leave the loop with the stream given up, to ask at the next poll. */
  lemma AfterFailure<T>(v: Variant, m: Machine<T>, polls: seq<SendPoll>)
    requires m.phase.Busy? && polls != [] && (polls[0].TimerFired? || polls[0].SendFailed?)
    ensures var turn := Loop(v, m, polls);
            && turn.machine.queue == m.queue
            && turn.machine.ended
                 == m.ended + [Ended(m.phase.message, if polls[0].TimerFired? then TimedOut else Broken)]
            && (if v.AdvertiseVariant? then
                  turn.machine.phase.OpenStream? && turn.machine.requests == m.requests + 1 && turn.exit == Return
                else turn.machine.phase.Closed? && turn.machine.requests == m.requests)
            && (turn.exit == Break <==> v.MessagingVariant? && polls[0].TimerFired?)
  {
  }

  function OnNegotiated<T>(m: Machine<T>): Machine<T> {
    m.(phase := Idle, requests := if m.requests > 0 then m.requests - 1 else 0)
  }

  function OnDialError<T>(m: Machine<T>): Machine<T> {
    m.(phase := Closed, requests := if m.requests > 0 then m.requests - 1 else 0)
  }

  /** The answer to an open request leaves a free stream or none, no open request, and every message where
      it was. */
  lemma RequestIsAnswered<T>(m: Machine<T>)
    requires OneRequest(m) && m.phase.OpenStream?
    ensures OnNegotiated(m) == Machine(m.queue, Idle, m.ended, 0)
    ensures OnDialError(m) == Machine(m.queue, Closed, m.ended, 0)
  {
  }

  function OnBehaviourEvent<T>(m: Machine<T>, message: T): Machine<T> { m.(queue := m.queue + [message]) }

  // ---------------------------------------------------------------- any run of a handler

  datatype Op<T> = Push(message: T) | PollWith(polls: seq<SendPoll>) | Negotiated | DialError

  function Apply<T>(v: Variant, m: Machine<T>, op: Op<T>): Machine<T> {
    match op
    case Push(message) => OnBehaviourEvent(m, message)
    case PollWith(polls) => Loop(v, m, polls).machine
    case Negotiated => OnNegotiated(m)
    case DialError => OnDialError(m)
  }

  function Run<T>(v: Variant, m: Machine<T>, ops: seq<Op<T>>): Machine<T>
    decreases |ops|
  {
    if ops == [] then m else Run(v, Apply(v, m, ops[0]), ops[1..])
  }

  /** The swarm answers a substream request at most once and nothing else. */
  ghost predicate Answered<T>(v: Variant, m: Machine<T>, ops: seq<Op<T>>)
    decreases |ops|
  {
    ops == [] || ((ops[0].Negotiated? || ops[0].DialError? ==> m.requests > 0)
        && Answered(v, Apply(v, m, ops[0]), ops[1..]))
  }

  function Pushed<T>(ops: seq<Op<T>>): seq<T> {
    if ops == [] then [] else (if ops[0].Push? then [ops[0].message] else []) + Pushed(ops[1..])
  }

  function Messages<T>(ended: seq<Ended<T>>): (r: seq<T>)
    ensures |r| == |ended|
  {
    seq(|ended|, i requires 0 <= i < |ended| => ended[i].message)
  }

  function InFlight<T>(p: Phase<T>): seq<T> { if p.Busy? then [p.message] else [] }

  /** The messages started on streams, in order, and then the ones still queued. */
  function History<T>(m: Machine<T>): seq<T> { Messages(m.ended) + InFlight(m.phase) + m.queue }

  /** At most one substream request is open, and exactly in the state that waits for it. */
  ghost predicate OneRequest<T>(m: Machine<T>) { m.requests == if m.phase.OpenStream? then 1 else 0 }

  lemma TurnKeeps<T>(v: Variant, m: Machine<T>, poll: SendPoll)
    requires OneRequest(m)
    ensures var m' := TurnOf(v, m, poll).machine; OneRequest(m') && History(m') == History(m)
  {
  }

  lemma {:induction false} LoopKeeps<T>(v: Variant, m: Machine<T>, polls: seq<SendPoll>)
    requires OneRequest(m)
    ensures var m' := Loop(v, m, polls).machine; OneRequest(m') && History(m') == History(m)
    decreases |m.queue|, Rank(m.phase)
  {
    var turn := TurnOf(v, m, NextPoll(polls));
    TurnKeeps(v, m, NextPoll(polls));
    if turn.exit == Again {
      LoopKeeps(v, turn.machine, LaterPolls(m.phase, polls));
    }
  }

  lemma OpKeeps<T>(v: Variant, m: Machine<T>, op: Op<T>)
    requires OneRequest(m) && (op.Negotiated? || op.DialError? ==> m.requests > 0)
    ensures OneRequest(Apply(v, m, op))
    ensures History(Apply(v, m, op)) == History(m) + Pushed([op])
  {
    match op
    case Push(message) => assert History(Apply(v, m, op)) == History(m) + [message];
    case PollWith(polls) => LoopKeeps(v, m, polls);
    case Negotiated =>
    case DialError =>
  }

  lemma PushedFirst<T>(ops: seq<Op<T>>)
    requires ops != []
    ensures Pushed(ops) == Pushed([ops[0]]) + Pushed(ops[1..])
  {
  }

  /** In every run, what was started followed by what is queued is the full sequence received: nothing
      is lost, doubled or reordered, and a negotiated stream never replaces a running send. */
  lemma {:induction false} NothingSkipped<T>(v: Variant, m: Machine<T>, ops: seq<Op<T>>)
    requires OneRequest(m) && Answered(v, m, ops)
    ensures History(Run(v, m, ops)) == History(m) + Pushed(ops)
    ensures OneRequest(Run(v, m, ops))
    decreases |ops|
  {
    if ops == [] {
      assert History(m) + [] == History(m);
    } else {
      OpKeeps(v, m, ops[0]);
      var m' := Apply(v, m, ops[0]);
      NothingSkipped(v, m', ops[1..]);
      PushedFirst(ops);
      assert History(Run(v, m', ops[1..])) == History(m) + Pushed([ops[0]]) + Pushed(ops[1..]);
    }
  }

  /** Without the swarm's discipline a negotiated stream does replace a running send: its message is
      then neither queued nor on a stream. */
  lemma UnaskedNegotiationDrops<T>(m: Machine<T>)
    requires m.phase.Busy?
    ensures |History(OnNegotiated(m))| == |History(m)| - 1
  {
  }

  /** A loop that ends without a return has nothing more to start: the stream is busy, requested, or
      idle with an empty queue, or (messaging) was given up on a timeout. */
  lemma {:induction false} LoopRests<T>(v: Variant, m: Machine<T>, polls: seq<SendPoll>)
    ensures var turn := Loop(v, m, polls);
            && turn.exit != Again
            && (turn.exit == Break ==>
                  turn.machine.phase.Busy? || turn.machine.phase.OpenStream?
                  || (turn.machine.phase.Idle? && turn.machine.queue == [])
                  || (v.MessagingVariant? && turn.machine.phase.Closed?))
    decreases |m.queue|, Rank(m.phase)
  {
    var turn := TurnOf(v, m, NextPoll(polls));
    if turn.exit == Again {
      LoopRests(v, turn.machine, LaterPolls(m.phase, polls));
    }
  }

  // ---------------------------------------------------------------- what one loop does, without the loop

  /** How often a running send is found done before it is found anything else. */
  function DoneInARow(polls: seq<SendPoll>): (n: nat)
    ensures n <= |polls|
  {
    if polls == [] || polls[0] != SendDone then 0 else 1 + DoneInARow(polls[1..])
  }

  function AllSent<T>(messages: seq<T>): (r: seq<Ended<T>>)
    ensures |r| == |messages|
  {
    seq(|messages|, i requires 0 <= i < |messages| => Ended(messages[i], Sent))
  }

  /** With a stream, `ms` go out one after the other for as long as each is found done, all on that stream.
      Then the messages have run out, or the next one is on the stream and still under way, or that one
      failed: then the stream is gone, and advertise asks for a new one at once. */
  function SendsInTurn<T>(v: Variant, ms: seq<T>, polls: seq<SendPoll>, ended: seq<Ended<T>>, requests: nat): Turn<T> {
    var n := if DoneInARow(polls) < |ms| then DoneInARow(polls) else |ms|;
    var sent := ended + AllSent(ms[..n]);
    if n == |ms| then Turn(Machine([], Idle, sent, requests), Break)
    else if n == |polls| || polls[n].StillPending? then Turn(Machine(ms[n + 1..], Busy(ms[n]), sent, requests), Break)
    else
      var timedOut := polls[n].TimerFired?;
      var ended := sent + [Ended(ms[n], if timedOut then TimedOut else Broken)];
      if v.AdvertiseVariant? then Turn(Machine(ms[n + 1..], OpenStream, ended, requests + 1), Return)
      else
        Turn(Machine(ms[n + 1..], Closed, ended, requests), if v.MessagingVariant? && timedOut then Break else Return)
  }

  lemma SentFirst<T>(v: Variant, ms: seq<T>, polls: seq<SendPoll>, ended: seq<Ended<T>>, requests: nat)
    requires ms != [] && polls != [] && polls[0] == SendDone
    ensures SendsInTurn(v, ms, polls, ended, requests)
        == SendsInTurn(v, ms[1..], polls[1..], ended + [Ended(ms[0], Sent)], requests)
  {
    var n := if DoneInARow(polls) < |ms| then DoneInARow(polls) else |ms|;
    AllSentFirst(ms, n, ended);
    assert ms[1..][n - 1..] == ms[n..];
    if n < |ms| { assert ms[1..][n..] == ms[n + 1..]; }
  }

  lemma AllSentFirst<T>(ms: seq<T>, n: nat, ended: seq<Ended<T>>)
    requires 1 <= n <= |ms|
    ensures ended + AllSent(ms[..n]) == ended + [Ended(ms[0], Sent)] + AllSent(ms[1..][..n - 1])
  {
    assert AllSent(ms[..n]) == [Ended(ms[0], Sent)] + AllSent(ms[1..][..n - 1]);
  }

  lemma NothingToSend<T>(v: Variant, polls: seq<SendPoll>, ended: seq<Ended<T>>, requests: nat)
    ensures SendsInTurn(v, [], polls, ended, requests) == Turn(Machine([], Idle, ended, requests), Break)
  {
    assert ended + AllSent<T>([]) == ended;
  }

  lemma FirstIsNotDone<T>(v: Variant, m: Machine<T>, polls: seq<SendPoll>)
    requires m.phase.Busy? && NextPoll(polls) != SendDone
    ensures Loop(v, m, polls) == SendsInTurn(v, [m.phase.message] + m.queue, polls, m.ended, m.requests)
  {
    var ms := [m.phase.message] + m.queue;
    assert ms[1..] == m.queue && ms[..0] == [] && m.ended + AllSent<T>([]) == m.ended;
    LoopOnce(v, m, polls);
    var turn := TurnOf(v, m, NextPoll(polls));
    if turn.exit == Again { LoopOnce(v, turn.machine, LaterPolls(m.phase, polls)); }
  }

  /** What one loop does with a stream, without the loop. */
  lemma {:induction false} LoopSendsInTurn<T>(v: Variant, m: Machine<T>, polls: seq<SendPoll>)
    requires m.phase.Busy? || m.phase.Idle?
    ensures Loop(v, m, polls) == SendsInTurn(v, InFlight(m.phase) + m.queue, polls, m.ended, m.requests)
    decreases |m.queue|, Rank(m.phase)
  {
    hide SendsInTurn, AllSent;
    var ms, turn := InFlight(m.phase) + m.queue, TurnOf(v, m, NextPoll(polls));
    if m.phase.Busy? && NextPoll(polls) != SendDone {
      FirstIsNotDone(v, m, polls);
    } else if m.phase.Busy? {
      LoopSendsInTurn(v, turn.machine, polls[1..]);
      SentFirst(v, ms, polls, m.ended, m.requests);
      assert ms[1..] == [] + m.queue;
    } else {
      assert ms == m.queue;
      NothingToSend(v, polls, m.ended, m.requests);
      if m.queue != [] {
        LoopSendsInTurn(v, turn.machine, polls);
        assert InFlight(turn.machine.phase) + turn.machine.queue == ms;
      }
    }
  }

  /** Without a stream it asks for one, and with a request open it waits; neither touches a message. */
  lemma LoopWithoutStream<T>(v: Variant, m: Machine<T>, polls: seq<SendPoll>)
    requires m.phase.Closed? || m.phase.OpenStream?
    ensures Loop(v, m, polls) ==
              if m.phase.OpenStream? then Turn(m, Break)
              else Turn(m.(phase := OpenStream, requests := m.requests + 1), Return)
  {
  }

  // ---------------------------------------------------------------- callbacks

  /** The numbers of the messages that ended so that `f` holds; messages count from 0 as they end. */
  function Which<T>(ended: seq<Ended<T>>, f: Ended<T> -> bool): seq<nat> {
    if ended == [] then []
    else
      var n := |ended| - 1;
      Which(ended[..n], f) + if f(ended[n]) then [n] else []
  }

  lemma WhichLast<T>(ended: seq<Ended<T>>, e: Ended<T>, f: Ended<T> -> bool)
    ensures Which(ended + [e], f) == Which(ended, f) + if f(e) then [|ended|] else []
  {
    assert (ended + [e])[..|ended|] == ended;
  }

  lemma {:induction false} WhichExactly<T>(ended: seq<Ended<T>>, f: Ended<T> -> bool)
    ensures forall i, j :: 0 <= i < j < |Which(ended, f)| ==> Which(ended, f)[i] < Which(ended, f)[j]
    ensures forall i: nat :: i in Which(ended, f) <==> i < |ended| && f(ended[i])
  {
    if ended != [] {
      var n := |ended| - 1;
      WhichExactly(ended[..n], f);
      var w := Which(ended[..n], f);
      assert forall i :: 0 <= i < |w| ==> w[i] in w;
    }
  }

  /** The message received under a number is the one that ends under it, so what `f` says of its end is
      said of its callback, and of no other. */
  lemma NumberedAsReceived<T>(v: Variant, ops: seq<Op<T>>, f: Ended<T> -> bool, i: nat)
    requires Answered(v, Fresh(), ops) && i < |Pushed(ops)|
    ensures var ended := Run(v, Fresh(), ops).ended;
            && |ended| <= |Pushed(ops)|
            && (i < |ended| ==> ended[i].message == Pushed(ops)[i])
            && (i in Which(ended, f) <==> i < |ended| && f(ended[i]))
  {
    NothingSkipped(v, Fresh(), ops);
    var m := Run(v, Fresh<T>(), ops);
    WhichExactly(m.ended, f);
    assert History(Fresh<T>()) + Pushed(ops) == Pushed(ops);
    if i < |m.ended| { assert History(m)[i] == Messages(m.ended)[i]; }
  }
}

/** The acts that move, deliver or lose messages, as steps of each transfer. */
module TwoPeersWires {
  import opened Basics
  import opened BlobEvents
  import BlobState
  import BlobTables
  import opened BlobHandler
  import opened Outbound
  import opened TwoPeers
  import opened TwoPeersView
  import opened TwoPeersSteps
  import T = BlobTransfer

  // ---------------------------------------------------------------- from the behaviour to the handler

  lemma HeadNotice(q: seq<BlobState.Notify>, k: nat)
    requires q != []
    ensures UpNotices(q, k) == UpOf(q[0].event, k) + UpNotices(q[1..], k)
    ensures DownNotices(q, k) == DownOf(q[0].event, k) + DownNotices(q[1..], k)
  {
  }

  lemma HeadMessage(q: seq<FromBehaviour>, k: nat)
    requires q != []
    ensures Ups(q, k) == UpOf(q[0], k) + Ups(q[1..], k)
    ensures Downs(q, k) == DownOf(q[0], k) + Downs(q[1..], k)
  {
  }

  lemma LastMessage(q: seq<FromBehaviour>, ev: FromBehaviour, k: nat)
    ensures Ups(q + [ev], k) == Ups(q, k) + UpOf(ev, k)
    ensures Downs(q + [ev], k) == Downs(q, k) + DownOf(ev, k)
  {
    ProjectOne(q, ev, UpsFilter(k));
    ProjectOne(q, ev, DownsFilter(k));
  }

  lemma LastEvent(q: seq<ToBehaviour>, ev: ToBehaviour, k: nat)
    ensures UpsIn(q + [ev], k) == UpsIn(q, k) + UpIn(ev, k)
    ensures DownsIn(q + [ev], k) == DownsIn(q, k) + DownIn(ev, k)
    ensures Credits(q + [ev], k) == Credits(q, k) + CreditOf(ev, k)
  {
    ProjectOne(q, ev, UpInFilter(k));
    ProjectOne(q, ev, DownInFilter(k));
    ProjectOne(q, ev, CreditFilter(k));
  }

  /** Three stages of a queue: moving `x` from one stage to the next changes nothing. */
  lemma Shift<X>(wire: seq<X>, queue: seq<X>, x: seq<X>, rest: seq<X>)
    ensures wire + queue + (x + rest) == wire + (queue + x) + rest
    ensures wire + (x + queue) + rest == (wire + x) + queue + rest
    ensures (x + wire) + queue + rest == x + (wire + queue + rest)
  {
  }

  lemma HandedOver(n: Node, k: nat)
    requires n.behaviour.handlerEvents != [] && (!n.alive ==> n.machine.queue == [] && n.wire == [])
    ensures var h, h', r, r', ev := SendHalfOf(n, k), SendHalfOf(Taken(n), k), RecvHalfOf(n, k),
        RecvHalfOf(Taken(n), k),
                                    n.behaviour.handlerEvents[0].event;
            && h' == h.(transit := h'.transit) && r' == r.(replies := r'.replies)
            && h.transit == (if n.alive then h'.transit else UpOf(ev, k) + h'.transit)
            && r.replies == if n.alive then r'.replies else DownOf(ev, k) + r'.replies
  {
    var ev, tail := n.behaviour.handlerEvents[0].event, n.behaviour.handlerEvents[1..];
    HeadNotice(n.behaviour.handlerEvents, k);
    LastMessage(n.machine.queue, ev, k);
    Shift(Ups(n.wire, k), Ups(n.machine.queue, k), UpOf(ev, k), UpNotices(tail, k));
    Shift(Downs(n.wire, k), Downs(n.machine.queue, k), DownOf(ev, k), DownNotices(tail, k));
  }

  /** A loss at the front of what is in transit, or at position `d` of the answers. */
  lemma LossFollows(t: T.Transfer, t': T.Transfer, gone: seq<T.Up>, current: bool)
    requires t.transit == gone + t'.transit && (current ==> T.Chunks(gone) > 0)
    requires t' == t.(transit := t'.transit, stalled := t.stalled + if current then 1 else 0)
    ensures Follows(t, [T.Lost(0, |gone|, current)], t')
  {
    hide T.Progress, T.Receive, T.Answer, Follows;
    assert t.transit[0..|gone|] == gone && t.transit[..0] + t.transit[|gone|..] == t'.transit;
    FollowsOne(t, T.Lost(0, |gone|, current), t');
  }

  lemma DownLossFollows(t: T.Transfer, t': T.Transfer, kept: seq<T.Down>, gone: seq<T.Down>, rest: seq<T.Down>)
    requires t.down == kept + (gone + rest) && t' == t.(down := kept + rest)
    ensures Follows(t, [T.LostDown(|kept|, |kept| + |gone|)], t')
  {
  }

  lemma SenderHandsOver(n: Node, k: nat, up: bool, r: RecvHalf)
    requires n.behaviour.handlerEvents != [] && (!n.alive ==> n.machine.queue == [] && n.wire == [])
    ensures Follows(Join(SendHalfOf(n, k), r), SenderEvents(n, HandOver(Left), k, up), Join(SendHalfOf(Taken(n), k), r))
  {
    hide Taken, Follows, SendHalfOf, RecvHalfOf, UpOf, DownOf;
    HandedOver(n, k);
    if n.alive { FollowsNone(Join(SendHalfOf(n, k), r)); }
    else {
      LossFollows(Join(SendHalfOf(n, k), r), Join(SendHalfOf(Taken(n), k), r),
          UpOf(n.behaviour.handlerEvents[0].event, k), false);
    }
  }

  lemma ReceiverHandsOver(n: Node, k: nat, up: bool, h: SendHalf)
    requires n.behaviour.handlerEvents != [] && (!n.alive ==> n.machine.queue == [] && n.wire == [])
    ensures Follows(Join(h, RecvHalfOf(n, k)), ReceiverEvents(n, HandOver(Left), k, up, |h.answers|),
        Join(h, RecvHalfOf(Taken(n), k)))
  {
    hide Taken, Follows, RecvHalfOf, SendHalfOf, DownOf, UpOf;
    HandedOver(n, k);
    if n.alive { FollowsNone(Join(h, RecvHalfOf(n, k))); }
    else {
      DownLossFollows(Join(h, RecvHalfOf(n, k)), Join(h, RecvHalfOf(Taken(n), k)), h.answers,
                      DownOf(n.behaviour.handlerEvents[0].event, k), RecvHalfOf(Taken(n), k).replies);
    }
  }

  // ---------------------------------------------------------------- the outbound loop

  predicate StartsFrame(n: Node) { n.machine.phase.Idle? && n.machine.queue != [] }

  lemma TurnedQueues(n: Node, poll: SendPoll, up: bool, k: nat)
    requires !up ==> n.wire == []
    ensures var n' := Turned(n, poll, up);
            && n'.behaviour == n.behaviour
            && (if StartsFrame(n) && !up then
                  && TransitOf(n, k) == UpOf(n.machine.queue[0], k) + TransitOf(n', k)
                  && RepliesOf(n, k) == DownOf(n.machine.queue[0], k) + RepliesOf(n', k)
                else TransitOf(n', k) == TransitOf(n, k) && RepliesOf(n', k) == RepliesOf(n, k))
  {
    hide Ups, Downs, UpNotices, DownNotices, UpOf, DownOf;
    if StartsFrame(n) {
      var ups, downs := UpNotices(n.behaviour.handlerEvents, k), DownNotices(n.behaviour.handlerEvents, k);
      if up { MovedToWire(n.wire, n.machine.queue, k, ups, downs); } else { Dropped(n.machine.queue, k, ups, downs); }
    }
  }

  lemma MovedToWire(wire: seq<FromBehaviour>, queue: seq<FromBehaviour>, k: nat, ups: seq<T.Up>, downs: seq<T.Down>)
    requires queue != []
    ensures Ups(wire + [queue[0]], k) + Ups(queue[1..], k) + ups == Ups(wire, k) + Ups(queue, k) + ups
    ensures Downs(wire + [queue[0]], k) + Downs(queue[1..], k) + downs == Downs(wire, k) + Downs(queue, k) + downs
  {
    hide Ups, Downs, UpOf, DownOf;
    HeadMessage(queue, k);
    LastMessage(wire, queue[0], k);
    Regroup(Ups(wire, k), UpOf(queue[0], k), Ups(queue[1..], k));
    Regroup(Downs(wire, k), DownOf(queue[0], k), Downs(queue[1..], k));
  }

  lemma Dropped(queue: seq<FromBehaviour>, k: nat, ups: seq<T.Up>, downs: seq<T.Down>)
    requires queue != []
    ensures Ups([], k) + Ups(queue, k) + ups == UpOf(queue[0], k) + (Ups([], k) + Ups(queue[1..], k) + ups)
    ensures Downs([], k) + Downs(queue, k) + downs
        == DownOf(queue[0], k) + (Downs([], k) + Downs(queue[1..], k) + downs)
  {
    assert Ups([], k) == [] && Downs([], k) == [];
    hide Ups, Downs, UpOf, DownOf;
    HeadMessage(queue, k);
    Shift([], Ups(queue[1..], k), UpOf(queue[0], k), ups);
    Shift([], Downs(queue[1..], k), DownOf(queue[0], k), downs);
  }

  /** What a turn leaves for the behaviour: at most a credit. */
  lemma TurnedEvents(n: Node, poll: SendPoll, up: bool, k: nat)
    requires OneRequest(n.machine)
    ensures var n' := Turned(n, poll, up);
            && UpsIn(n'.pendingOut, k) == UpsIn(n.pendingOut, k)
            && DownsIn(n'.pendingOut, k) == DownsIn(n.pendingOut, k)
            && |Credits(n'.pendingOut, k)| == |Credits(n.pendingOut, k)|
                   + (if BusyWithChunk(n, k) && poll == SendDone then 1 else 0)
  {
    var n' := Turned(n, poll, up);
    if n.machine.phase.Busy? && poll != StillPending {
      var note := NoteOf(n'.machine.ended[|n'.machine.ended| - 1]);
      assert n'.pendingOut == n.pendingOut + note;
      if note != [] {
        assert note == [note[0]];
        LastEvent(n.pendingOut, note[0], k);
      } else {
        assert n'.pendingOut == n.pendingOut;
      }
    }
  }

  lemma BusyHalf(n: Node, poll: SendPoll, up: bool, k: nat)
    requires FlightFits(n) && (!up ==> n.wire == []) && n.machine.phase.Busy?
        && (poll == SendDone ==> n.flight == Acked)
    ensures var h, h' := SendHalfOf(n, k), SendHalfOf(Turned(n, poll, up), k);
            match poll
            case StillPending => h' == h
            case SendDone =>
              if BusyWithChunk(n, k) then h.acked == 1 && h' == h.(acked := 0, credits := h.credits + 1) else h' == h
            case _ => h' == h.(acked := 0, stalled := 0)
  {
    hide TransitOf, RepliesOf, UpsIn, DownsIn, Credits, UpOf, SenderOf, OneRequest;
    TurnedQueues(n, poll, up, k);
    TurnedEvents(n, poll, up, k);
  }

  lemma FreeHalf(n: Node, poll: SendPoll, up: bool, k: nat)
    requires FlightFits(n) && (!up ==> n.wire == []) && !n.machine.phase.Busy?
    ensures var h, n' := SendHalfOf(n, k), Turned(n, poll, up);
            if StartsFrame(n) && !up then
              var ev := n.machine.queue[0];
              && h.transit == UpOf(ev, k) + TransitOf(n', k)
              && SendHalfOf(n', k) == h.(transit := TransitOf(n', k),
                                         stalled := h.stalled + if ev.FileChunk? && ev.localSendId == k then 1 else 0)
            else SendHalfOf(n', k) == h
  {
    hide TransitOf, RepliesOf, UpsIn, DownsIn, Credits, UpOf, SenderOf, OneRequest;
    TurnedQueues(n, poll, up, k);
    TurnedEvents(n, poll, up, k);
  }

  lemma SenderTurns(n: Node, poll: SendPoll, up: bool, k: nat, r: RecvHalf)
    requires FlightFits(n) && (!up ==> n.wire == [])
    requires n.machine.phase.Busy? && poll == SendDone ==> n.flight == Acked
    ensures Follows(Join(SendHalfOf(n, k), r), SenderEvents(n, Outbound(Left, poll), k, up),
        Join(SendHalfOf(Turned(n, poll, up), k), r))
  {
    var t, t' := Join(SendHalfOf(n, k), r), Join(SendHalfOf(Turned(n, poll, up), k), r);
    if n.machine.phase.Busy? {
      BusyHalf(n, poll, up, k);
      if poll == SendDone {
        if BusyWithChunk(n, k) { FollowsOne(t, T.Acknowledged, t'); }
      } else if poll != StillPending { FollowsOne(t, T.AckDropped, t'); }
    } else {
      FreeHalf(n, poll, up, k);
      if StartsFrame(n) && !up {
        LossFollows(t, t', UpOf(n.machine.queue[0], k),
            n.machine.queue[0].FileChunk? && n.machine.queue[0].localSendId == k);
      }
    }
  }

  lemma TurnedRecvHalf(n: Node, poll: SendPoll, up: bool, k: nat)
    requires FlightFits(n) && (!up ==> n.wire == [])
    ensures var r, n' := RecvHalfOf(n, k), Turned(n, poll, up);
            && RecvHalfOf(n', k) == r.(replies := RepliesOf(n', k))
            && r.replies == if StartsFrame(n) && !up then DownOf(n.machine.queue[0], k) + RepliesOf(n', k)
                   else RepliesOf(n', k)
  {
    hide Turned, ReceiverOf, DataOf;
    TurnedQueues(n, poll, up, k);
    TurnedEvents(n, poll, up, k);
  }

  lemma ReceiverTurns(n: Node, poll: SendPoll, up: bool, k: nat, h: SendHalf)
    requires FlightFits(n) && (!up ==> n.wire == [])
    ensures Follows(Join(h, RecvHalfOf(n, k)), ReceiverEvents(n, Outbound(Left, poll), k, up, |h.answers|),
        Join(h, RecvHalfOf(Turned(n, poll, up), k)))
  {
    hide RecvHalfOf, Turned, RepliesOf, DownOf, FlightFits, Follows;
    TurnedRecvHalf(n, poll, up, k);
    var r, r' := RecvHalfOf(n, k), RecvHalfOf(Turned(n, poll, up), k);
    if StartsFrame(n) && !up {
      DownLossFollows(Join(h, r), Join(h, r'), h.answers, DownOf(n.machine.queue[0], k), r'.replies);
    } else { FollowsNone(Join(h, r)); }
  }

  /** A handler event that belongs to no transfer. */
  lemma NeutralEvent(n: Node, ev: ToBehaviour, k: nat)
    requires ev.InboundNegotiated? || ev.OutboundNegotiated?
    ensures var q := n.pendingOut + [ev];
            UpsIn(q, k) == UpsIn(n.pendingOut, k) && DownsIn(q, k) == DownsIn(n.pendingOut, k)
                && Credits(q, k) == Credits(n.pendingOut, k)
  {
    LastEvent(n.pendingOut, ev, k);
  }

  // ---------------------------------------------------------------- frames that arrive

  lemma SentHalf(n: Node, k: nat)
    requires n.wire != [] && FlightFits(n)
    ensures var h, h', ev := SendHalfOf(n, k), SendHalfOf(FrameSent(n), k), n.wire[0];
            && h.transit == UpOf(ev, k) + h'.transit
            && h' == h.(transit := h'.transit,
                        acked := h.acked
                          + if UpOf(ev, k) != [] && ev.FileChunk? && |n.wire| == 1 && n.flight == OnWire then 1 else 0)
  {
    HeadMessage(n.wire, k);
    Shift(Ups(n.wire[1..], k), Ups(n.machine.queue, k), UpOf(n.wire[0], k), UpNotices(n.behaviour.handlerEvents, k));
  }

  lemma ReceivedHalf(m: Node, ev: FromBehaviour, k: nat)
    ensures var h := RecvHalfOf(m, k); RecvHalfOf(FrameReceived(m, ev), k) == h.(inbox := h.inbox + UpOf(ev, k))
  {
    LastEvent(m.pendingOut, Mirror(ev), k);
    MirrorKeepsKind(ev, k);
  }

  lemma FrameArrives(n: Node, m: Node, k: nat, up: bool)
    requires n.wire != [] && FlightFits(n)
    ensures Follows(Join(SendHalfOf(n, k), RecvHalfOf(m, k)), SenderEvents(n, Deliver(Left), k, up),
                    Join(SendHalfOf(FrameSent(n), k), RecvHalfOf(FrameReceived(m, n.wire[0]), k)))
  {
    hide FlightFits, FrameSent, FrameReceived, SendHalfOf, RecvHalfOf, T.Receive, T.Progress, T.Answer;
    var ev := n.wire[0];
    SentHalf(n, k);
    ReceivedHalf(m, ev, k);
    var t, t' := Join(SendHalfOf(n, k), RecvHalfOf(m, k)),
        Join(SendHalfOf(FrameSent(n), k), RecvHalfOf(FrameReceived(m, ev), k));
    if UpOf(ev, k) != [] {
      assert t.transit[0] == UpOf(ev, k)[0] && t.transit[1..] == t'.transit;
      FollowsOne(t, T.Delivered(ev.FileChunk? && |n.wire| == 1 && n.flight == OnWire), t');
    } else {
      assert t.transit == t'.transit && t.inbox == t'.inbox;
    }
  }

  /** An answer that reaches the sender's handler stays the same distance from its behaviour. */
  lemma AnswerArrives(n: Node, m: Node, k: nat)
    requires m.wire != []
    ensures Join(SendHalfOf(FrameReceived(n, m.wire[0]), k), RecvHalfOf(FrameSent(m), k))
        == Join(SendHalfOf(n, k), RecvHalfOf(m, k))
  {
    HeadMessage(m.wire, k);
    LastEvent(n.pendingOut, Mirror(m.wire[0]), k);
    MirrorKeepsKind(m.wire[0], k);
    var m' := FrameSent(m);
    Shift(Downs(m.wire[1..], k), Downs(m.machine.queue, k), DownOf(m.wire[0], k),
        DownNotices(m.behaviour.handlerEvents, k));
    Regroup(DownsIn(n.pendingOut, k), DownOf(m.wire[0], k), RepliesOf(m', k));
  }

  // ---------------------------------------------------------------- frames that are lost

  lemma CutParts<X>(a: seq<X>, b: seq<X>, c: seq<X>, q: seq<X>, r: seq<X>)
    ensures var all := (a + (b + c)) + q + r;
            && |a| + |b| <= |all| && all[|a|..|a| + |b|] == b
            && (a + c) + q + r == all[..|a|] + all[|a| + |b|..]
  {
  }

  lemma ProjectThree<Y>(a: seq<FromBehaviour>, b: seq<FromBehaviour>, c: seq<FromBehaviour>, f: FromBehaviour -> seq<Y>)
    ensures Project(a + (b + c), f) == Project(a, f) + (Project(b, f) + Project(c, f))
    ensures Project(a + c, f) == Project(a, f) + Project(c, f)
  {
    ProjectAppend(b, c, f);
    ProjectAppend(a, b + c, f);
    ProjectAppend(a, c, f);
  }

  lemma CutWire(n: Node, from: nat, to: nat, k: nat)
    requires from <= to <= |n.wire|
    ensures var a, b := Ups(n.wire[..from], k), Ups(n.wire[from..to], k);
            && |a| + |b| <= |TransitOf(n, k)|
            && TransitOf(n, k)[|a|..|a| + |b|] == b
            && TransitOf(Without(n, from, to), k) == TransitOf(n, k)[..|a|] + TransitOf(n, k)[|a| + |b|..]
    ensures var a, b := Downs(n.wire[..from], k), Downs(n.wire[from..to], k);
            && |a| + |b| <= |RepliesOf(n, k)|
            && RepliesOf(Without(n, from, to), k) == RepliesOf(n, k)[..|a|] + RepliesOf(n, k)[|a| + |b|..]
  {
    hide Project, UpNotices, DownNotices;
    var a, b, c := n.wire[..from], n.wire[from..to], n.wire[to..];
    assert n.wire == a + (b + c);
    ProjectThree(a, b, c, UpsFilter(k));
    ProjectThree(a, b, c, DownsFilter(k));
    CutParts(Ups(a, k), Ups(b, k), Ups(c, k), Ups(n.machine.queue, k), UpNotices(n.behaviour.handlerEvents, k));
    CutParts(Downs(a, k), Downs(b, k), Downs(c, k), Downs(n.machine.queue, k),
        DownNotices(n.behaviour.handlerEvents, k));
  }

  /** The frame of the running send is among those lost: it carried a chunk. */
  lemma LostCurrent(n: Node, from: nat, to: nat, k: nat)
    requires FlightFits(n) && n.flight == OnWire && from < to == |n.wire| && BusyWithChunk(n, k)
    ensures T.Chunks(Ups(n.wire[from..to], k)) > 0
  {
    var front, last := n.wire[from..|n.wire| - 1], n.wire[|n.wire| - 1];
    assert n.wire[from..to] == front + [last];
    LastMessage(front, last, k);
    T.UpAppend(Ups(front, k), UpOf(last, k));
    assert UpOf(last, k) == [T.Chunk(last.bytesToSend)];
  }

  lemma LosingHalf(n: Node, from: nat, to: nat, k: nat)
    requires from <= to <= |n.wire|
    ensures var h, a, b := SendHalfOf(n, k), |Ups(n.wire[..from], k)|, |Ups(n.wire[from..to], k)|;
            && a + b <= |h.transit| && h.transit[a..a + b] == Ups(n.wire[from..to], k)
            && SendHalfOf(Without(n, from, to), k) ==
                 h.(transit := h.transit[..a] + h.transit[a + b..],
                    stalled := h.stalled
                        + if n.flight == OnWire && from < to == |n.wire| && BusyWithChunk(n, k) then 1 else 0)
  {
    CutWire(n, from, to, k);
  }

  lemma SenderLoses(n: Node, from: nat, to: nat, k: nat, r: RecvHalf)
    requires FlightFits(n) && from <= to <= |n.wire|
    ensures Follows(Join(SendHalfOf(n, k), r), LossEvents(n, from, to, k), Join(SendHalfOf(Without(n, from, to), k), r))
  {
    hide SendHalfOf, Without, FlightFits, BusyWithChunk, Ups, T.Progress, T.Receive, T.Answer, Follows;
    LosingHalf(n, from, to, k);
    if n.flight == OnWire && from < to == |n.wire| && BusyWithChunk(n, k) { LostCurrent(n, from, to, k); }
    var t, t' := Join(SendHalfOf(n, k), r), Join(SendHalfOf(Without(n, from, to), k), r);
    FollowsOne(t, LossEvents(n, from, to, k)[0], t');
  }

  lemma LosingReplies(n: Node, from: nat, to: nat, k: nat)
    requires from <= to <= |n.wire|
    ensures var r, a, b := RecvHalfOf(n, k), |Downs(n.wire[..from], k)|, |Downs(n.wire[from..to], k)|;
            && a + b <= |r.replies|
            && RecvHalfOf(Without(n, from, to), k) == r.(replies := r.replies[..a] + r.replies[a + b..])
  {
    CutWire(n, from, to, k);
  }

  lemma ReceiverLoses(n: Node, from: nat, to: nat, k: nat, h: SendHalf)
    requires from <= to <= |n.wire|
    ensures Follows(Join(h, RecvHalfOf(n, k)), DownLossEvents(n, from, to, k, |h.answers|),
        Join(h, RecvHalfOf(Without(n, from, to), k)))
  {
    hide RecvHalfOf, Without, Downs, T.Progress, T.Receive, T.Answer, Follows;
    LosingReplies(n, from, to, k);
    var t, t' := Join(h, RecvHalfOf(n, k)), Join(h, RecvHalfOf(Without(n, from, to), k));
    var a, b, d, replies := |Downs(n.wire[..from], k)|, |Downs(n.wire[from..to], k)|, |h.answers|,
        RecvHalfOf(n, k).replies;
    assert t.down[..d + a] == h.answers + replies[..a];
    assert t.down[d + a + b..] == replies[a + b..];
    Regroup(h.answers, replies[..a], replies[a + b..]);
    FollowsOne(t, T.LostDown(d + a, d + a + b), t');
  }

  // ---------------------------------------------------------------- a closed connection

  lemma ClosedRecords(b: BlobState.State, peer: BlobState.PeerId, k: nat)
    requires BlobTables.Consistent(b) && SolePeer(b, peer) && Distinct(b.recvs)
    ensures var b' := BlobState.OnDisconnect(b, peer, 0);
            && SenderOf(b'.sends, k) == (if T.Live(SenderOf(b.sends, k)) then T.Over else SenderOf(b.sends, k))
            && ReceiverOf(b'.recvs, k) == (if T.Held(ReceiverOf(b.recvs, k)) then T.Done else ReceiverOf(b.recvs, k))
            && DataOf(b'.recvs, k) == DataOf(b.recvs, k) && Distinct(b'.recvs)
  {
  }

  lemma FollowsMore(t: T.Transfer, e: T.Event, steps: seq<T.Event>, t': T.Transfer)
    requires T.Enabled(t, e) && Follows(T.Step(t, e), steps, t')
    ensures Follows(t, [e] + steps, t')
  {
  }

  lemma EmptiedStages<X>(queue: seq<X>, rest: seq<X>)
    ensures [] + queue + rest == queue + ([] + [] + rest)
  {
  }

  lemma ClosedHalves(n: Node, peer: BlobState.PeerId, k: nat)
    requires BlobTables.Consistent(n.behaviour) && SolePeer(n.behaviour, peer) && Distinct(n.behaviour.recvs)
        && n.wire == []
    ensures var h, h', r, r' := SendHalfOf(n, k), SendHalfOf(ConnectionGone(n, peer), k), RecvHalfOf(n, k),
        RecvHalfOf(ConnectionGone(n, peer), k);
            && h.transit == Ups(n.machine.queue, k) + h'.transit
            && h' == SendHalf(h.file, h.total, if T.Live(h.sender) then T.Over else h.sender, h'.transit, 0, 0, 0, [])
            && r.replies == Downs(n.machine.queue, k) + r'.replies
            && r' == RecvHalf([], if T.Held(r.receiver) then T.Done else r.receiver, r.data, r'.replies)
  {
    assert Ups([], k) == [] && Downs([], k) == [] && UpsIn([], k) == [] && DownsIn([], k) == [] && Credits([], k) == [];
    hide Ups, Downs, UpsIn, DownsIn, Credits, UpNotices, DownNotices;
    EmptiedStages(Ups(n.machine.queue, k), UpNotices(n.behaviour.handlerEvents, k));
    EmptiedStages(Downs(n.machine.queue, k), DownNotices(n.behaviour.handlerEvents, k));
    hide BlobTables.Consistent, SolePeer, Distinct, SenderOf, ReceiverOf, DataOf;
    ClosedRecords(n.behaviour, peer, k);
  }

  lemma SenderCloses(n: Node, peer: BlobState.PeerId, k: nat, up: bool, r: RecvHalf)
    requires BlobTables.Consistent(n.behaviour) && SolePeer(n.behaviour, peer) && Distinct(n.behaviour.recvs)
        && n.wire == []
    ensures Follows(Join(SendHalfOf(n, k), r), SenderEvents(n, Close(Left), k, up),
        Join(SendHalfOf(ConnectionGone(n, peer), k), r))
  {
    ClosedHalves(n, peer, k);
    hide ConnectionGone, Follows, Ups;
    var h, h' := SendHalfOf(n, k), SendHalfOf(ConnectionGone(n, peer), k);
    SenderForgets(Join(h, r), Join(h', r), Ups(n.machine.queue, k), h.answers, r.replies);
  }

  lemma SenderForgets(t: T.Transfer, t': T.Transfer, queued: seq<T.Up>, answers: seq<T.Down>, replies: seq<T.Down>)
    requires t.transit == queued + t'.transit && t.down == answers + replies && t'.down == replies
    requires t' == t.(sender := t'.sender, transit := t'.transit, acked := 0, credits := 0, stalled := 0,
        down := t'.down)
    requires t'.sender == if T.Live(t.sender) then T.Over else t.sender
    ensures Follows(t, [T.SendForgotten, T.Lost(0, |queued|, false), T.LostDown(0, |answers|)], t')
  {
    var t1 := T.Step(t, T.SendForgotten);
    var t2 := t1.(transit := t'.transit);
    var lost, down := T.Lost(0, |queued|, false), T.LostDown(0, |answers|);
    LossFollows(t1, t2, queued, false);
    assert [] + (answers + replies) == t.down && [] + replies == replies;
    DownLossFollows(t2, t', [], answers, replies);
    LossFollowedBy(t1, t2, lost, down, t');
    FollowsMore(t, T.SendForgotten, [lost, down], t');
    assert [T.SendForgotten] + [lost, down] == [T.SendForgotten, lost, down];
  }

  lemma LossFollowedBy(t1: T.Transfer, t2: T.Transfer, lost: T.Event, down: T.Event, t': T.Transfer)
    requires Follows(t1, [lost], t2) && Follows(t2, [down], t')
    ensures Follows(t1, [lost, down], t')
  {
  }

  lemma ReceiverCloses(n: Node, peer: BlobState.PeerId, k: nat, up: bool, h: SendHalf)
    requires BlobTables.Consistent(n.behaviour) && SolePeer(n.behaviour, peer) && Distinct(n.behaviour.recvs)
        && n.wire == []
    ensures Follows(Join(h, RecvHalfOf(n, k)), ReceiverEvents(n, Close(Left), k, up, |h.answers|),
        Join(h, RecvHalfOf(ConnectionGone(n, peer), k)))
  {
    ClosedHalves(n, peer, k);
    ReceiverClosing(n, k, up, h);
    hide RecvHalfOf, ConnectionGone, Follows, ReceiverEvents, Downs;
    var r, r' := RecvHalfOf(n, k), RecvHalfOf(ConnectionGone(n, peer), k);
    ReceiverForgets(Join(h, r), Join(h, r'), h.answers, Downs(n.machine.queue, k), r'.replies);
  }

  lemma ReceiverClosing(n: Node, k: nat, up: bool, h: SendHalf)
    ensures ReceiverEvents(n, Close(Left), k, up, |h.answers|) ==
              [T.RecvForgotten, T.LostDown(|h.answers|, |h.answers| + |Downs(n.machine.queue, k)|)]
  {
  }

  lemma ReceiverForgets(t: T.Transfer, t': T.Transfer, answers: seq<T.Down>, queued: seq<T.Down>, replies: seq<T.Down>)
    requires t.down == answers + (queued + replies) && t'.down == answers + replies
    requires t' == t.(inbox := [], receiver := if T.Held(t.receiver) then T.Done else t.receiver, down := t'.down)
    ensures Follows(t, [T.RecvForgotten, T.LostDown(|answers|, |answers| + |queued|)], t')
  {
  }
}

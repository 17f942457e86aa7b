/** A chunk that is lost, or whose acknowledgement is, stops its transfer for good. */
module TwoPeersLoss {
  import opened Basics
  import opened BlobEvents
  import BlobTables
  import opened BlobHandler
  import opened Outbound
  import opened TwoPeers
  import opened TwoPeersView
  import opened TwoPeersSteps
  import opened TwoPeersWires
  import opened TwoPeersRuns
  import opened TwoPeersLiveness
  import T = BlobTransfer
  import Loss = BlobTransferLoss

  /** Side `p` sends file `k`, and no chunk, acknowledgement or progress event is left to keep it going. */
  ghost predicate Abandoned(s: System, p: Side, k: nat) {
    k in s.At(p).behaviour.sends.ongoing && T.Token(View(s, p, k)) == 0
  }

  lemma SenderIsSending(s: System, p: Side, k: nat)
    requires Inv(s)
    ensures k in s.At(p).behaviour.sends.ongoing <==> View(s, p, k).sender.Sending?
    ensures k in s.At(p).behaviour.sends.ongoing ==>
              View(s, p, k).sender == T.Sending(s.At(p).behaviour.sends.ongoing[k].bytesSent)
  {
    hide FlightFits, SolePeer, Distinct, ReceiverOf, DataOf, T.Safe;
    var b := s.At(p).behaviour;
    OneSendTable(b, k);
    if k in b.sends.ongoing { assert BlobTables.OngoingSendFits(b.sends, b.connectedPeers, k); }
  }

  // ---------------------------------------------------------------- what stops a transfer

  lemma {:induction false} ChunkAmong(q: seq<FromBehaviour>, i: nat, k: nat)
    requires i < |q| && q[i].FileChunk? && q[i].localSendId == k
    ensures T.Chunks(Ups(q, k)) > 0
  {
    HeadMessage(q, k);
    T.UpAppend(UpOf(q[0], k), Ups(q[1..], k));
    if i > 0 {
      ChunkAmong(q[1..], i - 1, k);
    } else {
      assert T.Chunks(UpOf(q[0], k)) == 1;
    }
  }

  lemma StepTakesToken(s: System, act: Act, p: Side, k: nat, e: T.Event)
    requires Inv(s) && Guard(s, act) && k in s.At(p).behaviour.sends.ongoing
    requires StepsOf(s, act, p, k) == [e] && T.Enabled(View(s, p, k), e) && Loss.TakesToken(View(s, p, k), e)
    ensures Abandoned(Next(s, act), p, k)
  {
    hide Inv, Guard, Next, View, StepsOf, T.Enabled, T.Step, T.Safe, Loss.TakesToken, T.Token;
    var t, t' := View(s, p, k), View(Next(s, act), p, k);
    Simulates(s, act, p, k);
    assert [e][1..] == [];
    assert t' == T.Step(t, e);
    SafeView(s, p, k);
    SenderIsSending(s, p, k);
    Loss.LossStops(t, e);
    InvKept(s, act);
    SenderIsSending(Next(s, act), p, k);
  }

  /** The chunk is lost on the wire. */
  lemma LosingTheChunkStops(s: System, p: Side, k: nat, from: nat, to: nat, i: nat)
    requires Reachable(s) && Guard(s, Lose(p, from, to)) && k in s.At(p).behaviour.sends.ongoing
    requires from <= i < to && s.At(p).wire[i].FileChunk? && s.At(p).wire[i].localSendId == k
    ensures Abandoned(Next(s, Lose(p, from, to)), p, k)
  {
    hide Inv, T.Safe, SendHalfOf, RecvHalfOf, Reachable, Ups, BusyWithChunk, T.Chunks;
    ReachableIsSafe(s);
    var e := LossEvents(s.At(p), from, to, k)[0];
    ChunkCut(s.At(p), from, to, i, k, RecvHalfOf(s.At(Other(p)), k));
    StepTakesToken(s, Lose(p, from, to), p, k, e);
  }

  lemma ChunkCut(n: Node, from: nat, to: nat, i: nat, k: nat, r: RecvHalf)
    requires from <= i < to <= |n.wire| && n.wire[i].FileChunk? && n.wire[i].localSendId == k
    ensures var t, e := Join(SendHalfOf(n, k), r), LossEvents(n, from, to, k)[0];
            T.Enabled(t, e) && Loss.TakesToken(t, e) && LossEvents(n, from, to, k) == [e]
  {
    hide SendHalfOf, Ups, BusyWithChunk, T.Chunks;
    LosingHalf(n, from, to, k);
    ChunkAmong(n.wire[from..to], i - from, k);
  }

  /** The acknowledgement has come, but the wait for it ends before it is taken. */
  lemma LosingTheAcknowledgementStops(s: System, p: Side, k: nat, poll: SendPoll)
    requires Reachable(s) && Guard(s, Act.Outbound(p, poll)) && k in s.At(p).behaviour.sends.ongoing
    requires BusyWithChunk(s.At(p), k) && s.At(p).flight == Acked && (poll.TimerFired? || poll.SendFailed?)
    ensures Abandoned(Next(s, Act.Outbound(p, poll)), p, k)
  {
    hide Inv, T.Safe, SenderOf, ReceiverOf, DataOf, DownsIn, Credits, Ups;
    ReachableIsSafe(s);
    StepTakesToken(s, Act.Outbound(p, poll), p, k, T.AckDropped);
  }

  /** The chunk arrives when its sender has given it up. */
  lemma ArrivingTooLateStops(s: System, p: Side, k: nat)
    requires Reachable(s) && Guard(s, Deliver(p)) && k in s.At(p).behaviour.sends.ongoing && s.At(p).flight != OnWire
    requires s.At(p).wire[0].FileChunk? && s.At(p).wire[0].localSendId == k
    ensures Abandoned(Next(s, Deliver(p)), p, k)
  {
    hide Inv, T.Safe, SendHalfOf, RecvHalfOf, Reachable;
    ReachableIsSafe(s);
    assert FlightFits(s.At(p)) by { DeliveredNodes(s, p); }
    SentHalf(s.At(p), k);
    StepTakesToken(s, Deliver(p), p, k, T.Delivered(false));
  }

  // ---------------------------------------------------------------- and it stays stopped

  lemma {:induction false} FollowsStopped(t: T.Transfer, steps: seq<T.Event>, t': T.Transfer, sent: nat, all: Bytes)
    requires T.Safe(t) && Loss.Stopped(t, sent, all) && Follows(t, steps, t')
    ensures Loss.Stopped(t', sent, all)
    decreases |steps|
  {
    hide T.Safe, Loss.Stopped, T.Enabled, T.Step;
    if steps != [] {
      T.StepIsSafe(t, steps[0]);
      Loss.StopLasts(t, steps[0], sent, all);
      FollowsStopped(T.Step(t, steps[0]), steps[1..], t', sent, all);
    }
  }

  lemma {:induction false} StaysStopped(s: System, acts: seq<Act>, p: Side, k: nat, sent: nat, all: Bytes)
    requires Inv(s) && Guarded(s, acts) && Loss.Stopped(View(s, p, k), sent, all)
    ensures Loss.Stopped(View(RunOf(s, acts), p, k), sent, all) && Inv(RunOf(s, acts))
    decreases |acts|
  {
    hide Inv, Guard, Next, View, StepsOf, T.Safe, Loss.Stopped, Follows;
    if acts != [] {
      InvKept(s, acts[0]);
      Simulates(s, acts[0], p, k);
      SafeView(s, p, k);
      FollowsStopped(View(s, p, k), StepsOf(s, acts[0], p, k), View(Next(s, acts[0]), p, k), sent, all);
      StaysStopped(Next(s, acts[0]), acts[1..], p, k, sent, all);
    }
  }

  /** In every run from there on, the sender reads no further byte of the file, the receiver gets no more than
      its handler held then, and no end of the file arrives, so the transfer is never reported complete. */
  lemma LostChunkStops(s: System, acts: seq<Act>, p: Side, k: nat)
    requires Reachable(s) && Abandoned(s, p, k) && Guarded(s, acts)
    ensures var s' := RunOf(s, acts);
            var sends, sends', m, m' := s.At(p).behaviour.sends, s'.At(p).behaviour.sends, s.At(Other(p)),
                s'.At(Other(p));
            && k !in sends'.pending
            && (k in sends'.ongoing ==> sends'.ongoing[k].bytesSent == sends.ongoing[k].bytesSent)
            && DataOf(m'.behaviour.recvs, k) <= DataOf(m.behaviour.recvs, k) + T.Content(UpsIn(m.pendingOut, k))
            && RecvProgressed(k, []) !in m'.pendingOut
  {
    hide Inv, T.Safe, Guarded, RunOf, SenderOf, ReceiverOf, Loss.Stopped;
    ReachableIsSafe(s);
    SafeView(s, p, k);
    SenderIsSending(s, p, k);
    var t := View(s, p, k);
    Loss.StoppedWithoutToken(t);
    var sent, all := t.sender.sent, if t.receiver.Receiving? then t.data + T.Content(t.inbox) else t.data;
    StaysStopped(s, acts, p, k, sent, all);
    StoppedMeans(RunOf(s, acts), p, k, sent, all);
  }

  lemma StoppedMeans(s: System, p: Side, k: nat, sent: nat, all: Bytes)
    requires Inv(s) && Loss.Stopped(View(s, p, k), sent, all)
    ensures var sends, m := s.At(p).behaviour.sends, s.At(Other(p));
            && k !in sends.pending && (k in sends.ongoing ==> sends.ongoing[k].bytesSent == sent)
            && DataOf(m.behaviour.recvs, k) <= all && RecvProgressed(k, []) !in m.pendingOut
  {
    SenderIsSending(s, p, k);
    var q := s.At(Other(p)).pendingOut;
    if RecvProgressed(k, []) in q { EndAmong(q, k); }
  }

  lemma {:induction false} EndAmong(q: seq<ToBehaviour>, k: nat)
    requires RecvProgressed(k, []) in q
    ensures T.HasEof(UpsIn(q, k))
  {
    HeadTaken(q, k);
    T.UpAppend(UpIn(q[0], k), UpsIn(q[1..], k));
    if q[0] != RecvProgressed(k, []) {
      EndAmong(q[1..], k);
    } else {
      assert T.HasEof(UpIn(q[0], k));
    }
  }
}

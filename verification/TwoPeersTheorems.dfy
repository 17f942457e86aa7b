/** What holds in every state that two peers can get into: prefix safety, stop-and-wait, truthful
    completion, no panic. */
module TwoPeersTheorems {
  import opened BlobEvents
  import BlobState
  import BlobTables
  import opened BlobHandler
  import opened TwoPeers
  import opened TwoPeersView
  import opened TwoPeersSteps
  import opened TwoPeersWires
  import opened TwoPeersRuns
  import opened TwoPeersLiveness
  import T = BlobTransfer
  import L = BlobTransferLiveness

  /** In every reachable state, whatever was lost, cancelled or expired on the way, what a receiver has
      written is a prefix of the file the sender reads from. */
  lemma PrefixSafety(s: System, q: Side, l: nat)
    requires Reachable(s) && l in s.At(q).behaviour.recvs.received
    ensures var f := s.At(q).behaviour.recvs.received[l];
            f.data <= s.At(Other(q)).behaviour.sends.FileOf(f.remoteSendId)
  {
    ReachableIsSafe(s);
    var recvs := s.At(q).behaviour.recvs;
    var k := recvs.received[l].remoteSendId;
    LocalIs(recvs, k, l);
    assert T.Safe(View(s, Other(q), k));
  }

  /** The acceptance that would find no pending record is never the next event. */
  lemma NeverPanics(s: System, p: Side)
    requires Reachable(s) && s.At(p).pendingOut != []
    ensures var sends, ev := s.At(p).behaviour.sends, s.At(p).pendingOut[0];
            ev.FileSendAccepted? && ev.localSendId in sends.ongoing ==> ev.localSendId in sends.pending
    ensures !BlobState.Panics(s.At(p).behaviour, s.At(p).pendingOut[0])
  {
    hide T.Safe, Wellformed, BlobTables.Consistent, Distinct, Follows;
    ReachableIsSafe(s);
    var ev := s.At(p).pendingOut[0];
    if ev.FileSendAccepted? {
      var k := ev.localSendId;
      HeadTaken(s.At(p).pendingOut, k);
      assert T.Safe(View(s, p, k));
      assert View(s, p, k).down[0].Agree?;
      L.NoSecondAcceptance(View(s, p, k));
    }
  }

  /** The chunks of send `k` that are queued or on a stream without their acknowledgement taken, and the
      progress events that were not handled. */
  function Outstanding(n: Node, k: nat): nat {
    T.Chunks(UpNotices(n.behaviour.handlerEvents, k)) + T.Chunks(Ups(n.machine.queue, k))
    + (if BusyWithChunk(n, k) then 1 else 0) + |Credits(n.pendingOut, k)|
  }

  lemma OutstandingBelowToken(n: Node, k: nat, r: RecvHalf)
    requires FlightFits(n)
    ensures var t := Join(SendHalfOf(n, k), r); Outstanding(n, k) <= T.Token(t) + t.stalled
  {
    T.UpAppend(Ups(n.wire, k), Ups(n.machine.queue, k));
    T.UpAppend(Ups(n.wire, k) + Ups(n.machine.queue, k), UpNotices(n.behaviour.handlerEvents, k));
    if BusyWithChunk(n, k) && n.flight == OnWire {
      LostCurrent(n, 0, |n.wire|, k);
      assert n.wire[0..|n.wire|] == n.wire;
    }
  }

  /** Stop and wait: at most one chunk of a transfer is out at any time, and none before the transfer
      was accepted. */
  lemma StopAndWait(s: System, p: Side, k: nat)
    requires Reachable(s)
    ensures Outstanding(s.At(p), k) <= 1
    ensures k in s.At(p).behaviour.sends.pending ==> Outstanding(s.At(p), k) == 0
  {
    hide BlobTables.Consistent, SolePeer, Distinct, T.Prefixes, T.EofIsEnd, T.OfferedOnce, Outstanding,
        ReceiverOf, DataOf;
    ReachableIsSafe(s);
    OutstandingBelowToken(s.At(p), k, RecvHalfOf(s.At(Other(p)), k));
    assert T.Safe(View(s, p, k));
  }

  /** When the empty chunk reaches a live record, the whole file has been written. The receiver reports
      completion if the file had its announced length and an early end otherwise. */
  lemma CompletionIsTruthful(s: System, q: Side, k: nat, world: BlobState.World)
    requires Reachable(s) && s.At(q).pendingOut != [] && s.At(q).pendingOut[0] == RecvProgressed(k, [])
    requires k in s.At(q).behaviour.recvs.ongoing
    ensures var b, sends, v := s.At(q).behaviour, s.At(Other(q)).behaviour.sends, s.At(q).behaviour.recvs.ongoing[k];
            && b.recvs.DataOf(v.localRecvId) == sends.FileOf(k)
            && k in sends.files && v.bytesTotal == sends.files[k].announced
            && BlobState.OnHandlerEvent(b, IdOf(Other(q)), RecvProgressed(k, []), world).outEvents == b.outEvents +
                 [if |sends.FileOf(k)| == sends.files[k].announced
                  then BlobState.RecvProgress(v.localRecvId, v.bytesTotal, v.bytesTotal)
                  else BlobState.Failed(UnexpectedEof(v.localRecvId))]
  {
    ReachableIsSafe(s);
    var b, t := s.At(q).behaviour, View(s, Other(q), k);
    assert T.Safe(t);
    HeadTaken(s.At(q).pendingOut, k);
    assert t.inbox[0] == T.Chunk([]);
    OneRecordPerTransfer(b.recvs, k);
    assert BlobTables.OngoingRecvFits(b.recvs, k);
    L.CompletionIsTruthful(t);
  }

  /** Nothing else reports completion. */
  lemma OnlyTheEndCompletes(b: BlobState.State, peer: BlobState.PeerId, ev: ToBehaviour, world: BlobState.World,
      l: nat, n: nat, total: nat)
    requires BlobState.OnHandlerEvent(b, peer, ev, world).outEvents
        == b.outEvents + [BlobState.RecvProgress(l, n, total)]
    ensures ev.RecvProgressed? && ev.content == [] && ev.remoteSendId in b.recvs.ongoing
    ensures b.recvs.ongoing[ev.remoteSendId].localRecvId == l
        && n == total == b.recvs.ongoing[ev.remoteSendId].bytesTotal
    ensures b.recvs.ongoing[ev.remoteSendId].bytesReceived == total
  {
    var out := BlobState.OnHandlerEvent(b, peer, ev, world).outEvents;
    assert out != b.outEvents;
    assert out[|b.outEvents|] == BlobState.RecvProgress(l, n, total);
  }

  /** The progress a sender reports is the part of the file that has reached the other peer: what its
      handler still holds follows what is written, and together they are the bytes reported. */
  lemma ProgressIsTruthful(s: System, p: Side, k: nat, world: BlobState.World)
    requires Reachable(s) && s.At(p).pendingOut != [] && s.At(p).pendingOut[0] == SendProgressed(k)
    requires k in s.At(p).behaviour.sends.ongoing && k in s.At(Other(p)).behaviour.recvs.ongoing
    ensures var b, m := s.At(p).behaviour, s.At(Other(p));
            var v := b.sends.ongoing[k];
            && v.bytesSent <= |b.sends.FileOf(k)|
            && DataOf(m.behaviour.recvs, k) + T.Content(UpsIn(m.pendingOut, k)) == b.sends.FileOf(k)[..v.bytesSent]
            && b.outEvents + [BlobState.SendProgress(k, v.bytesSent, v.bytesTotal)]
                 == BlobState.OnHandlerEvent(b, IdOf(Other(p)), SendProgressed(k), world).outEvents
  {
    hide T.Content, T.EofIsEnd, T.OfferedOnce, FlightFits, SolePeer, Distinct;
    ReachableIsSafe(s);
    var b, t := s.At(p).behaviour, View(s, p, k);
    assert T.Safe(t);
    HeadTaken(s.At(p).pendingOut, k);
    assert BlobTables.OngoingSendFits(b.sends, b.connectedPeers, k);
    SendingSide(b, k);
    T.NoChunksNoContent(t.transit);
    assert t.sender == T.Sending(b.sends.ongoing[k].cursor) && t.receiver.Receiving? && t.credits == 1;
    assert T.Expectation(t) == t.data + T.Content(t.inbox);
  }

  lemma SendingSide(b: BlobState.State, k: nat)
    requires BlobTables.Consistent(b) && k in b.sends.ongoing
    ensures SenderOf(b.sends, k) == T.Sending(b.sends.ongoing[k].cursor)
  {
    OneSendTable(b, k);
  }
}

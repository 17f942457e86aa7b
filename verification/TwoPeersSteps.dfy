/** Every act of the two-peer system moves each half of each transfer by the steps that
    TwoPeersView names. */
module TwoPeersSteps {
  import opened Basics
  import opened BlobEvents
  import BlobState
  import BlobTables
  import opened BlobHandler
  import opened Outbound
  import opened TwoPeers
  import opened TwoPeersView
  import T = BlobTransfer

  // ---------------------------------------------------------------- queues

  /** At most one notification was appended. */
  ghost predicate Appended(q: seq<BlobState.Notify>, q': seq<BlobState.Notify>) {
    q' == q || (|q'| == |q| + 1 && q' == q + [q'[|q|]])
  }

  function Added(q: seq<BlobState.Notify>, q': seq<BlobState.Notify>): seq<BlobState.Notify> {
    if |q'| > |q| then [q'[|q'| - 1]] else []
  }

  lemma NoticesAppended(q: seq<BlobState.Notify>, q': seq<BlobState.Notify>, k: nat)
    requires Appended(q, q')
    ensures UpNotices(q', k) == UpNotices(q, k) + UpNotices(Added(q, q'), k)
    ensures DownNotices(q', k) == DownNotices(q, k) + DownNotices(Added(q, q'), k)
    ensures Added(q, q') == [] ==> UpNotices(Added(q, q'), k) == [] && DownNotices(Added(q, q'), k) == []
    ensures Added(q, q') != [] ==>
              && UpNotices(Added(q, q'), k) == UpOf(Added(q, q')[0].event, k)
              && DownNotices(Added(q, q'), k) == DownOf(Added(q, q')[0].event, k)
  {
    if q' != q {
      var n := q'[|q|];
      ProjectOne(q, n, UpNoticeFilter(k));
      ProjectOne(q, n, DownNoticeFilter(k));
      ProjectOne([], n, UpNoticeFilter(k));
      ProjectOne([], n, DownNoticeFilter(k));
      assert [] + [n] == [n];
    }
  }

  // ---------------------------------------------------------------- the sender's half

  /** What a behaviour operation did to the sender's half: messages of this transfer were added. */
  lemma SendHalfGrew(n: Node, n': Node, k: nat)
    requires n' == n.(behaviour := n'.behaviour) && Appended(n.behaviour.handlerEvents, n'.behaviour.handlerEvents)
    ensures TransitOf(n', k) == TransitOf(n, k)
        + UpNotices(Added(n.behaviour.handlerEvents, n'.behaviour.handlerEvents), k)
    ensures RepliesOf(n', k) == RepliesOf(n, k)
        + DownNotices(Added(n.behaviour.handlerEvents, n'.behaviour.handlerEvents), k)
  {
    hide SenderOf, Ups, Downs, UpNotices, DownNotices, DownsIn, Credits;
    NoticesAppended(n.behaviour.handlerEvents, n'.behaviour.handlerEvents, k);
  }

  function WithBehaviour(n: Node, b: BlobState.State): Node { n.(behaviour := b) }

  /** The user's request is the start of sending file `k`. */
  predicate StartsSend(b: BlobState.State, op: BlobState.Op, k: nat) {
    op.Send? && op.to in b.connectedPeers && op.metadata.Some? && k == b.sends.counter
  }

  predicate StopsSend(b: BlobState.State, op: BlobState.Op, k: nat) {
    op.StopSend? && op.sendId == k && BlobState.RemoteOfSend(b, k).Some?
  }

  predicate StopsRecv(b: BlobState.State, op: BlobState.Op, k: nat) {
    op.StopRecv? && BlobState.FindRecvRecord(b, op.recvId).Some?
        && BlobState.FindRecvRecord(b, op.recvId).value.remoteSendId == k
  }

  predicate AcceptsRecv(b: BlobState.State, op: BlobState.Op, k: nat) {
    op.Accept? && BlobState.IsOffer(b, op.recvId, k)
  }

  predicate IsRequest(op: BlobState.Op) { op.Send? || op.Accept? || op.StopRecv? || op.StopSend? || op.PopOut? }

  lemma RequestAdds(b: BlobState.State, op: BlobState.Op, k: nat)
    requires IsRequest(op)
    ensures var q := b.handlerEvents;
            var q' := BlobState.Apply(b, op).handlerEvents;
            && Appended(q, q')
            && UpNotices(Added(q, q'), k) == (if StartsSend(b, op, k) then [T.Offer(op.metadata.value)]
                                              else if StopsSend(b, op, k) then [T.Withdraw] else [])
            && DownNotices(Added(q, q'), k) == (if AcceptsRecv(b, op, k) then [T.Agree]
                                                else if StopsRecv(b, op, k) then [T.Refuse] else [])
  {
    hide BlobState.OnHandlerEvent, BlobState.OnDisconnect, BlobState.CheckExpiry, UpNotices, DownNotices;
    NoticesAppended(b.handlerEvents, BlobState.Apply(b, op).handlerEvents, k);
  }

  lemma RequestSends(b: BlobState.State, op: BlobState.Op, k: nat)
    requires BlobTables.Consistent(b) && IsRequest(op)
    ensures var s, s' := b.sends, BlobState.Apply(b, op).sends;
            if StartsSend(b, op, k) then
              SenderOf(s, k).Unborn? && SenderOf(s', k).Offering? && k in s'.files
                  && s'.files[k] == BlobState.Source(op.fileName, op.content, op.metadata.value)
            else
              && (k in s'.files <==> k in s.files) && (k in s.files ==> s'.files[k] == s.files[k])
              && (if StopsSend(b, op, k) then T.Live(SenderOf(s, k)) && SenderOf(s', k).Over?
                  else SenderOf(s', k) == SenderOf(s, k))
  {
    if k in b.sends.pending { assert BlobTables.PendingSendFits(b.sends, b.connectedPeers, k); }
    if k in b.sends.ongoing { assert BlobTables.OngoingSendFits(b.sends, b.connectedPeers, k); }
  }

  lemma RequestSendHalf(n: Node, op: BlobState.Op, k: nat)
    requires BlobTables.Consistent(n.behaviour) && IsRequest(op)
    ensures var b, h, h' := n.behaviour, SendHalfOf(n, k),
        SendHalfOf(WithBehaviour(n, BlobState.Apply(n.behaviour, op)), k);
            if StartsSend(b, op, k) then
              && h.sender.Unborn?
              && h' == h.(file := op.content, total := op.metadata.value, sender := T.Offering,
                     transit := h.transit + [T.Offer(op.metadata.value)])
            else if StopsSend(b, op, k) then T.Live(h.sender)
                && h' == h.(sender := T.Over, transit := h.transit + [T.Withdraw])
            else h' == h
  {
    var n' := WithBehaviour(n, BlobState.Apply(n.behaviour, op));
    RequestAdds(n.behaviour, op, k);
    RequestSends(n.behaviour, op, k);
    SendHalfGrew(n, n', k);
    assert TransitOf(n, k) + [] == TransitOf(n, k);
  }

  // ---------------------------------------------------------------- the receiver's half

  /** No two files this peer was offered have the same send id. */
  ghost predicate Distinct(s: BlobState.Recvs) {
    forall l, l' :: l in s.received && l' in s.received && l != l' ==>
      s.received[l].remoteSendId != s.received[l'].remoteSendId
  }

  lemma LocalIs(s: BlobState.Recvs, k: nat, l: nat)
    requires Distinct(s) && l in s.received && s.received[l].remoteSendId == k
    ensures Knows(s, k) && LocalOf(s, k) == l
  {
  }

  /** A pending record's transfer is not ongoing, and the other way round. */
  lemma OneRecordPerTransfer(s: BlobState.Recvs, k: nat)
    requires BlobTables.RecvsConsistent(s) && Distinct(s)
    ensures k in s.ongoing ==> Knows(s, k) && LocalOf(s, k) == s.ongoing[k].localRecvId && LocalOf(s, k) !in s.pending
    ensures forall l :: l in s.pending && s.pending[l].remoteSendId == k ==>
              Knows(s, k) && LocalOf(s, k) == l && k !in s.ongoing
    ensures Knows(s, k) && LocalOf(s, k) in s.pending ==> s.pending[LocalOf(s, k)].remoteSendId == k
  {
  }

  /** The same files are known, under the same ids. */
  ghost predicate SameFiles(s: BlobState.Recvs, s': BlobState.Recvs) {
    && s'.received.Keys == s.received.Keys
    && (forall l :: l in s.received ==> s'.received[l].remoteSendId == s.received[l].remoteSendId)
  }

  lemma SameLocal(s: BlobState.Recvs, s': BlobState.Recvs, k: nat)
    requires Distinct(s) && SameFiles(s, s')
    ensures Distinct(s') && (Knows(s, k) <==> Knows(s', k)) && (Knows(s, k) ==> LocalOf(s', k) == LocalOf(s, k))
  {
  }

  lemma AcceptRecvs(b: BlobState.State, l: nat, now: nat, k: nat)
    requires BlobTables.Consistent(b) && Distinct(b.recvs)
    ensures var b' := BlobState.AcceptPendingRecv(b, l, now);
            && Distinct(b'.recvs)
            && (if BlobState.IsOffer(b, l, k) then
                  ReceiverOf(b.recvs, k).Deciding?
                  && ReceiverOf(b'.recvs, k) == T.Receiving(ReceiverOf(b.recvs, k).total) && DataOf(b'.recvs, k) == []
                else ReceiverOf(b'.recvs, k) == ReceiverOf(b.recvs, k) && DataOf(b'.recvs, k) == DataOf(b.recvs, k))
  {
    var b' := BlobState.AcceptPendingRecv(b, l, now);
    if l in b.recvs.pending { assert BlobTables.PendingRecvFits(b.recvs, l); }
    OneRecordPerTransfer(b.recvs, k);
    SameLocal(b.recvs, b'.recvs, k);
  }

  lemma StopRecvs(b: BlobState.State, l: nat, k: nat)
    requires BlobTables.Consistent(b) && Distinct(b.recvs)
    ensures var b' := BlobState.CancelRecv(b, l);
            && Distinct(b'.recvs) && DataOf(b'.recvs, k) == DataOf(b.recvs, k)
            && (if BlobState.FindRecvRecord(b, l).Some? && BlobState.FindRecvRecord(b, l).value.remoteSendId == k then
                  T.Held(ReceiverOf(b.recvs, k)) && ReceiverOf(b'.recvs, k).Done?
                else ReceiverOf(b'.recvs, k) == ReceiverOf(b.recvs, k))
  {
  }

  lemma RequestRecvs(b: BlobState.State, op: BlobState.Op, k: nat)
    requires BlobTables.Consistent(b) && Distinct(b.recvs) && IsRequest(op)
    ensures var s, s' := b.recvs, BlobState.Apply(b, op).recvs;
            && Distinct(s')
            && (if AcceptsRecv(b, op, k) then
                  ReceiverOf(s, k).Deciding? && ReceiverOf(s', k) == T.Receiving(ReceiverOf(s, k).total)
                      && DataOf(s', k) == []
                else
                  && DataOf(s', k) == DataOf(s, k)
                  && (if StopsRecv(b, op, k) then T.Held(ReceiverOf(s, k)) && ReceiverOf(s', k).Done?
                      else ReceiverOf(s', k) == ReceiverOf(s, k)))
  {
    if op.Accept? { AcceptRecvs(b, op.recvId, op.now, k); }
    else if op.StopRecv? { StopRecvs(b, op.recvId, k); }
  }

  lemma RequestRecvHalf(n: Node, op: BlobState.Op, k: nat)
    requires BlobTables.Consistent(n.behaviour) && Distinct(n.behaviour.recvs) && IsRequest(op)
    ensures var b, h, h' := n.behaviour, RecvHalfOf(n, k),
        RecvHalfOf(WithBehaviour(n, BlobState.Apply(n.behaviour, op)), k);
            if AcceptsRecv(b, op, k) then
              h.receiver.Deciding? && h' == h.(receiver := T.Receiving(h.receiver.total), data := [],
                  replies := h.replies + [T.Agree])
            else if StopsRecv(b, op, k) then T.Held(h.receiver)
                && h' == h.(receiver := T.Done, replies := h.replies + [T.Refuse])
            else h' == h
  {
    var n' := WithBehaviour(n, BlobState.Apply(n.behaviour, op));
    RequestAdds(n.behaviour, op, k);
    RequestRecvs(n.behaviour, op, k);
    SendHalfGrew(n, n', k);
    assert RepliesOf(n, k) + [] == RepliesOf(n, k);
  }

  // ---------------------------------------------------------------- events taken from the handler

  lemma EventAppends(b: BlobState.State, peer: BlobState.PeerId, ev: ToBehaviour, world: BlobState.World)
    ensures Appended(b.handlerEvents, BlobState.OnHandlerEvent(b, peer, ev, world).handlerEvents)
    ensures var q := Added(b.handlerEvents, BlobState.OnHandlerEvent(b, peer, ev, world).handlerEvents);
            q != [] ==> q[0].event.FileChunk? && (ev.SendProgressed? || ev.FileSendAccepted?)
  {
  }

  /** What is left when the first event has been taken. */
  lemma HeadTaken(q: seq<ToBehaviour>, k: nat)
    requires q != []
    ensures UpsIn(q, k) == UpIn(q[0], k) + UpsIn(q[1..], k)
    ensures DownsIn(q, k) == DownIn(q[0], k) + DownsIn(q[1..], k)
    ensures Credits(q, k) == CreditOf(q[0], k) + Credits(q[1..], k)
  {
  }

  /** The part of a transfer that sending changes. */
  function SendPart(file: Bytes, sender: T.Sender): T.Transfer { T.Start().(file := file, sender := sender) }

  lemma ProgressedSends(b: BlobState.State, k0: nat, now: nat, read: Option<nat>, k: nat)
    requires k0 in b.sends.ongoing ==>
               k0 !in b.sends.pending && b.sends.ongoing[k0].localSendId == k0 && k0 in b.sends.files
    ensures var b' := BlobState.ProgressSend(b, k0, now, read);
            var t := if k == k0 then T.Progress(SendPart(b.sends.FileOf(k), SenderOf(b.sends, k)), read)
                     else SendPart(b.sends.FileOf(k), SenderOf(b.sends, k));
            && Appended(b.handlerEvents, b'.handlerEvents)
            && b'.sends.files == b.sends.files
            && SenderOf(b'.sends, k) == t.sender
            && UpNotices(Added(b.handlerEvents, b'.handlerEvents), k) == t.transit
  {
    var b' := BlobState.ProgressSend(b, k0, now, read);
    NoticesAppended(b.handlerEvents, b'.handlerEvents, k);
  }

  /** What an event does to send `k`: the phase it leaves and the messages it adds. */
  function AfterEvent(file: Bytes, sender: T.Sender, ev: ToBehaviour, read: Option<nat>, k: nat): T.Transfer {
    if ev == SendProgressed(k) then T.Progress(SendPart(file, sender), read)
    else if ev == FileSendAccepted(k) && sender.Offering? then T.Progress(SendPart(file, T.Sending(0)), read)
    else if ev == RemoteCancelSend(k) && T.Live(sender) then SendPart(file, T.Over)
    else SendPart(file, sender)
  }

  lemma AcceptedSends(b: BlobState.State, k0: nat, now: nat, read: Option<nat>, k: nat)
    requires BlobTables.Consistent(b)
    ensures var b' := BlobState.PendingSendAccepted(b, k0, now, read);
            var t := AfterEvent(b.sends.FileOf(k), SenderOf(b.sends, k), FileSendAccepted(k0), read, k);
            && Appended(b.handlerEvents, b'.handlerEvents)
            && b'.sends.files == b.sends.files
            && SenderOf(b'.sends, k) == t.sender
            && UpNotices(Added(b.handlerEvents, b'.handlerEvents), k) == t.transit
  {
    if BlobState.AcceptanceOf(b, k0).Started? {
      assert BlobTables.PendingSendFits(b.sends, b.connectedPeers, k0);
      var p := b.sends.pending[k0];
      var v := BlobState.OngoingSend(p.localSendId, p.remote, p.bytesTotal, p.filePath, p.cursor, 0, now);
      var b1 := b.(sends := b.sends.(pending := b.sends.pending - {k0}, ongoing := b.sends.ongoing[k0 := v]));
      ProgressedSends(b1, k0, now, read, k);
    }
  }

  lemma OtherEventsLeaveSends(b: BlobState.State, peer: BlobState.PeerId, ev: ToBehaviour, world: BlobState.World)
    requires !ev.SendProgressed? && !ev.FileSendAccepted? && !ev.RemoteCancelSend?
    ensures var b' := BlobState.OnHandlerEvent(b, peer, ev, world);
            b'.sends == b.sends && b'.handlerEvents == b.handlerEvents
  {
  }

  lemma RefusedSends(b: BlobState.State, peer: BlobState.PeerId, ev: ToBehaviour, world: BlobState.World, k: nat)
    requires BlobTables.Consistent(b) && !ev.SendProgressed? && !ev.FileSendAccepted?
    ensures var b' := BlobState.OnHandlerEvent(b, peer, ev, world);
            && b.handlerEvents == b'.handlerEvents
            && b'.sends.files == b.sends.files
            && SenderOf(b'.sends, k) == AfterEvent(b.sends.FileOf(k), SenderOf(b.sends, k), ev, world.read, k).sender
  {
    hide T.Progress, BlobTables.RecvsConsistent, UpNotices, BlobState.ProgressRecv, BlobState.NewPendingRecv;
    hide BlobState.RemoteCancelledSend;
    if !ev.RemoteCancelSend? { OtherEventsLeaveSends(b, peer, ev, world); }
    if k in b.sends.pending { assert BlobTables.PendingSendFits(b.sends, b.connectedPeers, k); }
    if k in b.sends.ongoing { assert BlobTables.OngoingSendFits(b.sends, b.connectedPeers, k); }
  }

  lemma EventSends(b: BlobState.State, peer: BlobState.PeerId, ev: ToBehaviour, world: BlobState.World, k: nat)
    requires BlobTables.Consistent(b)
    ensures var b' := BlobState.OnHandlerEvent(b, peer, ev, world);
            var t := AfterEvent(b.sends.FileOf(k), SenderOf(b.sends, k), ev, world.read, k);
            && Appended(b.handlerEvents, b'.handlerEvents)
            && b'.sends.files == b.sends.files
            && SenderOf(b'.sends, k) == t.sender
            && UpNotices(Added(b.handlerEvents, b'.handlerEvents), k) == t.transit
  {
    if ev.SendProgressed? {
      if ev.localSendId in b.sends.ongoing {
        assert BlobTables.OngoingSendFits(b.sends, b.connectedPeers, ev.localSendId);
      }
      if ev.localSendId in b.sends.pending {
        assert BlobTables.PendingSendFits(b.sends, b.connectedPeers, ev.localSendId);
      }
      ProgressedSends(BlobState.ReportSendProgress(b, ev.localSendId), ev.localSendId, world.now, world.read, k);
    } else if ev.FileSendAccepted? {
      AcceptedSends(b, ev.localSendId, world.now, world.read, k);
    } else {
      RefusedSends(b, peer, ev, world, k);
    }
  }

  lemma TakenSendHalf(n: Node, peer: BlobState.PeerId, world: BlobState.World, k: nat)
    requires BlobTables.Consistent(n.behaviour) && n.pendingOut != []
    ensures var h, h', ev := SendHalfOf(n, k), SendHalfOf(TakenEvent(n, peer, world), k), n.pendingOut[0];
            var t := AfterEvent(h.file, h.sender, ev, world.read, k);
            && h'.credits == h.credits - |CreditOf(ev, k)| && h.answers == DownIn(ev, k) + h'.answers
            && h' == h.(sender := t.sender, transit := h.transit + t.transit, credits := h'.credits,
                   answers := h'.answers)
  {
    hide AfterEvent, SenderOf, BlobState.OnHandlerEvent, BlobTables.Consistent, UpNotices, DownNotices, UpsIn, DownsIn,
        Credits, Ups, Downs;
    var n' := TakenEvent(n, peer, world);
    EventSends(n.behaviour, peer, n.pendingOut[0], world, k);
    HeadTaken(n.pendingOut, k);
    NoticesAppended(n.behaviour.handlerEvents, n'.behaviour.handlerEvents, k);
  }

  lemma CreditFollows(t: T.Transfer, t': T.Transfer, read: Option<nat>)
    requires t.credits > 0
    requires var p := T.Progress(SendPart(t.file, t.sender), read);
             t' == t.(sender := p.sender, transit := t.transit + p.transit, credits := t.credits - 1)
    ensures Follows(t, [T.CreditUsed(read)], t')
  {
  }

  lemma AgreementFollows(t: T.Transfer, t': T.Transfer, read: Option<nat>)
    requires t.down != [] && t.down[0].Agree?
    requires var p := if t.sender.Offering? then T.Progress(SendPart(t.file, T.Sending(0)), read)
        else SendPart(t.file, t.sender);
             t' == t.(sender := p.sender, transit := t.transit + p.transit, down := t.down[1..])
    ensures Follows(t, [T.Answered(read)], t')
  {
  }

  lemma RefusalFollows(t: T.Transfer, t': T.Transfer, read: Option<nat>)
    requires t.down != [] && t.down[0].Refuse?
    requires t' == t.(sender := if T.Live(t.sender) then T.Over else t.sender, down := t.down[1..])
    ensures Follows(t, [T.Answered(read)], t')
  {
  }

  /** The transfer's step when its sender takes an event. */
  lemma SenderTakes(n: Node, peer: BlobState.PeerId, world: BlobState.World, k: nat, r: RecvHalf)
    requires BlobTables.Consistent(n.behaviour) && n.pendingOut != []
    ensures Follows(Join(SendHalfOf(n, k), r), SenderEvents(n, TakeEvent(Left, world), k, true),
        Join(SendHalfOf(TakenEvent(n, peer, world), k), r))
  {
    hide SenderOf, BlobState.OnHandlerEvent, BlobTables.Consistent, SendHalfOf, TakenEvent, T.Progress, Follows;
    var h, h', ev := SendHalfOf(n, k), SendHalfOf(TakenEvent(n, peer, world), k), n.pendingOut[0];
    TakenSendHalf(n, peer, world, k);
    assert h.transit + [] == h.transit;
    if DownIn(ev, k) != [] {
      assert (h.answers + r.replies)[0] == DownIn(ev, k)[0];
      assert (h.answers + r.replies)[1..] == h'.answers + r.replies;
      if ev.FileSendAccepted? { AgreementFollows(Join(h, r), Join(h', r), world.read); }
      else { RefusalFollows(Join(h, r), Join(h', r), world.read); }
    } else {
      assert h.answers == h'.answers;
      if ev == SendProgressed(k) {
        CreditFollows(Join(h, r), Join(h', r), world.read);
      } else {
        FollowsNone(Join(h, r));
      }
    }
  }

  // ---------------------------------------------------------------- events taken by the receiver

  lemma NewFileRecvs(b: BlobState.State, peer: BlobState.PeerId, name: Bytes, k0: nat, total: nat, now: nat, k: nat)
    requires BlobTables.Consistent(b) && Distinct(b.recvs) && !Knows(b.recvs, k0)
    ensures var s, s' := b.recvs, BlobState.NewPendingRecv(b, peer, name, k0, total, now).recvs;
            && Distinct(s') && DataOf(s', k) == DataOf(s, k)
            && (if k == k0 then ReceiverOf(s, k).Unaware? && ReceiverOf(s', k) == T.Deciding(total)
                else ReceiverOf(s', k) == ReceiverOf(s, k))
  {
    var s, s' := b.recvs, BlobState.NewPendingRecv(b, peer, name, k0, total, now).recvs;
    assert s.counter !in s.received;
    OneRecordPerTransfer(s, k);
    if k == k0 { LocalIs(s', k, s.counter); }
    else if Knows(s, k) { LocalIs(s', k, LocalOf(s, k)); }
  }

  lemma ChunkRecvs(b: BlobState.State, k0: nat, content: Bytes, now: nat, writes: seq<Option<nat>>, k: nat)
    requires BlobTables.Consistent(b) && Distinct(b.recvs)
    ensures var s, s' := b.recvs, BlobState.ProgressRecv(b, k0, content, now, writes).recvs;
            && Distinct(s')
            && (if k != k0 || !ReceiverOf(s, k).Receiving? then
                  ReceiverOf(s', k) == ReceiverOf(s, k) && DataOf(s', k) == DataOf(s, k)
                else if content == [] then ReceiverOf(s', k) == T.Done && DataOf(s', k) == DataOf(s, k)
                else
                  var w := BlobState.WriteAll(|content|, 0, writes);
                  && DataOf(s', k) == DataOf(s, k) + content[..w.count]
                  && ReceiverOf(s', k) == if w.failed then T.Done else ReceiverOf(s, k))
  {
    var s, s' := b.recvs, BlobState.ProgressRecv(b, k0, content, now, writes).recvs;
    OneRecordPerTransfer(s, k);
    OneRecordPerTransfer(s, k0);
    SameLocal(s, s', k);
    SameLocal(s, s', k0);
  }

  lemma WithdrawnRecvs(b: BlobState.State, k0: nat, pick: nat, k: nat)
    requires BlobTables.Consistent(b) && Distinct(b.recvs) && BlobState.ValidPick(b, k0, pick)
    ensures var s, s' := b.recvs, BlobState.RemoteCancelledSend(b, k0, pick).recvs;
            && Distinct(s') && DataOf(s', k) == DataOf(s, k)
            && ReceiverOf(s', k) == if k == k0 && T.Held(ReceiverOf(s, k)) then T.Done else ReceiverOf(s, k)
  {
    var s, s' := b.recvs, BlobState.RemoteCancelledSend(b, k0, pick).recvs;
    OneRecordPerTransfer(s, k);
    SameLocal(s, s', k);
    if k == k0 && k !in s.ongoing && Knows(s, k) && LocalOf(s, k) in s.pending {
      assert BlobState.IsOffer(b, LocalOf(s, k), k0);
    }
  }

  /** What an event does to receive `k`: the phase it leaves and what it wrote. */
  lemma EventRecvs(b: BlobState.State, peer: BlobState.PeerId, ev: ToBehaviour, world: BlobState.World, k: nat)
    requires BlobTables.Consistent(b) && Distinct(b.recvs)
    requires BlobState.Possible(b, BlobState.FromHandler(peer, ev, world))
    requires ev.IncomingFile? ==> !Knows(b.recvs, ev.remoteSendId)
    ensures var s, s' := b.recvs, BlobState.OnHandlerEvent(b, peer, ev, world).recvs;
            && Distinct(s')
            && (if UpIn(ev, k) == [] then ReceiverOf(s', k) == ReceiverOf(s, k) && DataOf(s', k) == DataOf(s, k)
                else
                  var t := T.Start().(inbox := UpIn(ev, k), receiver := ReceiverOf(s, k), data := DataOf(s, k));
                  && T.Enabled(t, T.Received(WrittenOf(ev, world)))
                  && ReceiverOf(s', k) == T.Receive(t, WrittenOf(ev, world)).receiver
                  && DataOf(s', k) == T.Receive(t, WrittenOf(ev, world)).data)
  {
    hide BlobTables.Consistent, ReceiverOf, DataOf, Distinct, BlobState.ProgressRecv, BlobState.NewPendingRecv,
        BlobState.RemoteCancelledSend;
    if ev.RecvProgressed? { ChunkRecvs(b, ev.remoteSendId, ev.content, world.now, world.writes, k); }
    else if ev.IncomingFile? { NewFileRecvs(b, peer, ev.fileName, ev.remoteSendId, ev.bytesTotal, world.now, k); }
    else if ev.RemoteCancelRecv? { WithdrawnRecvs(b, ev.remoteSendId, world.pick, k); }
  }

  lemma ReceiverTakes(n: Node, peer: BlobState.PeerId, world: BlobState.World, k: nat, h: SendHalf)
    requires BlobTables.Consistent(n.behaviour) && Distinct(n.behaviour.recvs) && n.pendingOut != []
    requires BlobState.Possible(n.behaviour, BlobState.FromHandler(peer, n.pendingOut[0], world))
    requires n.pendingOut[0].IncomingFile? ==> !Knows(n.behaviour.recvs, n.pendingOut[0].remoteSendId)
    ensures var n' := TakenEvent(n, peer, world);
            && Distinct(n'.behaviour.recvs)
            && Follows(Join(h, RecvHalfOf(n, k)), ReceiverEvents(n, TakeEvent(Left, world), k, true, 0),
                   Join(h, RecvHalfOf(n', k)))
  {
    hide BlobState.OnHandlerEvent, BlobTables.Consistent, Distinct, Follows, Ups, Downs, UpNotices, Credits,
        ReceiverOf, DataOf;
    var n', ev := TakenEvent(n, peer, world), n.pendingOut[0];
    EventRecvs(n.behaviour, peer, ev, world, k);
    EventAppends(n.behaviour, peer, ev, world);
    NoticesAppended(n.behaviour.handlerEvents, n'.behaviour.handlerEvents, k);
    HeadTaken(n.pendingOut, k);
    assert RepliesOf(n', k) == RepliesOf(n, k);
    if UpIn(ev, k) == [] {
      assert UpsIn(n.pendingOut, k) == UpsIn(n'.pendingOut, k);
      FollowsNone(Join(h, RecvHalfOf(n, k)));
    } else {
      var t := Join(h, RecvHalfOf(n, k));
      assert t.inbox[0] == UpIn(ev, k)[0] && t.inbox[1..] == UpsIn(n'.pendingOut, k);
      FollowsOne(t, T.Received(WrittenOf(ev, world)), Join(h, RecvHalfOf(n', k)));
    }
  }
}

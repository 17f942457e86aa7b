/** What holds of one blob behaviour under every operation, whatever its peers do. */
module BlobTables {
  import opened Basics
  import opened BlobEvents
  import opened BlobMessages
  import opened BlobState

  ghost predicate PendingSendFits(s: Sends, connected: set<PeerId>, k: nat)
    requires k in s.pending
  {
    var v := s.pending[k];
    && v.localSendId == k < s.counter && k in s.files && v.remote in connected && v.cursor == 0 && k !in s.ongoing
    && v.bytesTotal == s.files[k].announced
  }

  ghost predicate OngoingSendFits(s: Sends, connected: set<PeerId>, k: nat)
    requires k in s.ongoing
  {
    var v := s.ongoing[k];
    && v.localSendId == k < s.counter && k in s.files && v.remote in connected
    && 1 <= v.bytesSent == v.cursor <= |s.files[k].content|
    && v.bytesTotal == s.files[k].announced
  }

  ghost predicate SendsConsistent(s: Sends, connected: set<PeerId>) {
    && (forall k :: k in s.pending ==> PendingSendFits(s, connected, k))
    && (forall k :: k in s.ongoing ==> OngoingSendFits(s, connected, k))
    && (forall k :: k in s.files ==> k < s.counter)
  }

  ghost predicate PendingRecvFits(s: Recvs, l: nat)
    requires l in s.pending
  {
    var v := s.pending[l];
    v.localRecvId == l < s.counter && l in s.received && s.received[l] == Incoming(v.remote, v.remoteSendId, [])
  }

  ghost predicate OngoingRecvFits(s: Recvs, k: nat)
    requires k in s.ongoing
  {
    var v := s.ongoing[k];
    var l := v.localRecvId;
    && v.remoteSendId == k && l < s.counter && l in s.received && l !in s.pending
    && s.received[l].remote == v.remote && s.received[l].remoteSendId == k && |s.received[l].data| == v.bytesReceived
  }

  ghost predicate RecvsConsistent(s: Recvs) {
    && (forall l :: l in s.pending ==> PendingRecvFits(s, l))
    && (forall k :: k in s.ongoing ==> OngoingRecvFits(s, k))
    && (forall l :: l in s.received ==> l < s.counter)
  }

  /** Send keys are their records' ids, below the counter and in one table only; every started send
      has sent something and stands where its file handle stands; the remotes are connected. Receive
      records name the file they write and how much of it there is. */
  ghost predicate Consistent(s: State) {
    SendsConsistent(s.sends, s.connectedPeers) && RecvsConsistent(s.recvs)
  }

  /** Local receive ids are pairwise distinct, since each names one file and that file one remote id. */
  lemma LocalRecvIdsDistinct(s: Recvs, k: nat, k': nat)
    requires RecvsConsistent(s)
    requires k in s.ongoing && k' in s.ongoing && k != k'
    ensures s.ongoing[k].localRecvId != s.ongoing[k'].localRecvId
  {
  }

  // ---------------------------------------------------------------- kept by every operation

  ghost predicate Within<V>(small: map<nat, V>, large: map<nat, V>) {
    forall k :: k in small ==> k in large && small[k] == large[k]
  }

  ghost predicate SendsShrink(s: Sends, s': Sends) {
    Within(s'.pending, s.pending) && Within(s'.ongoing, s.ongoing) && s'.counter == s.counter && s'.files == s.files
  }

  ghost predicate RecvsShrink(s: Recvs, s': Recvs) {
    Within(s'.pending, s.pending) && Within(s'.ongoing, s.ongoing) && s'.counter == s.counter
        && s'.received == s.received
  }

  /** Records were dropped, nothing else happened to the tables. */
  ghost predicate Shrinks(s: State, s': State) {
    SendsShrink(s.sends, s'.sends) && RecvsShrink(s.recvs, s'.recvs) && s'.connectedPeers == s.connectedPeers
  }

  lemma MoreConnected(s: Sends, connected: set<PeerId>, more: set<PeerId>)
    requires SendsConsistent(s, connected) && connected <= more
    ensures SendsConsistent(s, more)
  {
  }

  lemma ConsistentWhenShrunk(s: State, s': State)
    requires Consistent(s) && Shrinks(s, s')
    ensures Consistent(s')
  {
  }

  lemma {:induction false} CancelsShrink(s: State, ids: seq<nat>)
    ensures Shrinks(s, CancelSends(s, ids)) && Shrinks(s, CancelRecvs(s, ids))
    decreases |ids|
  {
    if ids != [] {
      CancelsShrink(CancelSend(s, ids[0]), ids[1..]);
      CancelsShrink(CancelRecv(s, ids[0]), ids[1..]);
    }
  }

  lemma ExpiryShrinks(s: State, order: Expiry)
    ensures Shrinks(s, CheckExpiry(s, order))
  {
    CancelsShrink(s, order.pendingSends);
    var s1 := CancelSends(s, order.pendingSends);
    CancelsShrink(s1, order.pendingRecvs);
    var s2 := CancelRecvs(s1, order.pendingRecvs);
    CancelsShrink(s2, order.ongoingSends);
    CancelsShrink(CancelSends(s2, order.ongoingSends), order.ongoingRecvs);
  }

  /** The last connection to a peer takes exactly the records whose remote it is, from all four tables; any
      other takes nothing. */
  lemma DisconnectIsExact(s: State, peer: PeerId, remaining: nat)
    ensures remaining > 0 ==> OnDisconnect(s, peer, remaining) == s
    ensures var s' := OnDisconnect(s, peer, 0);
            && (forall k :: k in s'.sends.pending <==> k in s.sends.pending && s.sends.pending[k].remote != peer)
            && (forall k :: k in s'.sends.ongoing <==> k in s.sends.ongoing && s.sends.ongoing[k].remote != peer)
            && (forall l :: l in s'.recvs.pending <==> l in s.recvs.pending && s.recvs.pending[l].remote != peer)
            && (forall k :: k in s'.recvs.ongoing <==> k in s.recvs.ongoing && s.recvs.ongoing[k].remote != peer)
            && Shrinks(s.(connectedPeers := s.connectedPeers - {peer}), s')
            && s'.outEvents == s.outEvents && s'.handlerEvents == s.handlerEvents
  {
  }

  lemma DisconnectKeeps(s: State, peer: PeerId, remaining: nat)
    requires Consistent(s)
    ensures Consistent(OnDisconnect(s, peer, remaining))
  {
  }

  lemma SendFileKeeps(s: State, op: Op)
    requires Consistent(s) && op.Send?
    ensures Consistent(Apply(s, op))
  {
  }

  lemma ProgressSendKeeps(s: State, id: nat, now: nat, read: Option<nat>)
    requires Consistent(s)
    ensures Consistent(ProgressSend(s, id, now, read))
  {
  }

  /** The first read of an accepted send leaves either no record or one that has sent something. */
  lemma AcceptedKeeps(s: State, id: nat, now: nat, read: Option<nat>)
    requires Consistent(s)
    ensures Consistent(PendingSendAccepted(s, id, now, read))
  {
  }

  lemma NewPendingRecvKeeps(s: State, peer: PeerId, name: Bytes, id: nat, total: nat, now: nat)
    requires Consistent(s)
    ensures Consistent(NewPendingRecv(s, peer, name, id, total, now))
  {
  }

  lemma AcceptKeeps(s: State, id: nat, now: nat)
    requires Consistent(s)
    ensures Consistent(AcceptPendingRecv(s, id, now))
  {
  }

  lemma ProgressRecvKeeps(s: State, id: nat, content: Bytes, now: nat, writes: seq<Option<nat>>)
    requires Consistent(s)
    ensures Consistent(ProgressRecv(s, id, content, now, writes))
  {
  }

  lemma HandlerEventKeeps(s: State, peer: PeerId, ev: ToBehaviour, world: World)
    requires Consistent(s)
    ensures Consistent(OnHandlerEvent(s, peer, ev, world))
  {
    match ev
    case RecvProgressed(id, content) => ProgressRecvKeeps(s, id, content, world.now, world.writes);
    case IncomingFile(name, id, total) => NewPendingRecvKeeps(s, peer, name, id, total, world.now);
    case FileSendAccepted(id) => AcceptedKeeps(s, id, world.now, world.read);
    case SendProgressed(id) => ProgressSendKeeps(ReportSendProgress(s, id), id, world.now, world.read);
    case OutboundNegotiated => MoreConnected(s.sends, s.connectedPeers, s.connectedPeers + {peer});
    case RemoteCancelSend(id) => ConsistentWhenShrunk(s, RemoveSendRecord(s, id));
    case RemoteCancelRecv(id) => ConsistentWhenShrunk(s, RemoteCancelledSend(s, id, world.pick));
    case _ =>
  }

  /** Every operation keeps the tables consistent. */
  lemma ConsistentKept(s: State, op: Op)
    requires Consistent(s)
    ensures Consistent(Apply(s, op))
  {
    match op
    case Send(_, _, _, _, _, _) => SendFileKeeps(s, op);
    case Accept(id, now) => AcceptKeeps(s, id, now);
    case StopRecv(id) => ConsistentWhenShrunk(s, CancelRecv(s, id));
    case StopSend(id) => ConsistentWhenShrunk(s, CancelSend(s, id));
    case FromHandler(peer, ev, world) => HandlerEventKeeps(s, peer, ev, world);
    case Expire(_, order) => ExpiryShrinks(s, order); ConsistentWhenShrunk(s, CheckExpiry(s, order));
    case Disconnect(peer, remaining) => DisconnectKeeps(s, peer, remaining);
    case _ =>
  }

  lemma {:induction false} AlwaysConsistent(s: State, ops: seq<Op>)
    requires Consistent(s)
    ensures Consistent(Run(s, ops))
    decreases |ops|
  {
    if ops != [] {
      ConsistentKept(s, ops[0]);
      AlwaysConsistent(Apply(s, ops[0]), ops[1..]);
    }
  }
}

/** The blob behaviour as the source has it: an object whose tables, counters and queues its methods
    update in place. Each method is proved against the operations of BlobState. */
module BlobBehaviour {
  import opened Basics
  import opened BlobEvents
  import opened BlobMessages
  import opened BlobState
  import opened BlobTables

  datatype Polled = Pending | GenerateEvent(event: OutEvent) | NotifyHandler(notify: Notify)

  datatype SendInfo = SendInfo(localSendId: nat, bytesSent: nat, bytesTotal: nat, started: bool, remote: PeerId,
      filePath: Bytes)

  datatype RecvInfo = RecvInfo(localRecvId: nat, bytesTotal: nat, bytesReceived: nat, fileName: Bytes, remote: PeerId,
      timestamp: nat)

  function OngoingSendInfo(v: OngoingSend): SendInfo {
    SendInfo(v.localSendId, v.bytesSent, v.bytesTotal, true, v.remote, v.filePath)
  }

  function PendingSendInfo(v: PendingSend): SendInfo {
    SendInfo(v.localSendId, 0, v.bytesTotal, false, v.remote, v.filePath)
  }

  function OngoingRecvInfo(v: OngoingRecv): RecvInfo {
    RecvInfo(v.localRecvId, v.bytesTotal, v.bytesReceived, v.fileName, v.remote, v.lastActive)
  }

  function PendingRecvInfo(v: PendingRecv): RecvInfo {
    RecvInfo(v.localRecvId, v.bytesTotal, 0, v.fileName, v.remote, v.timestamp)
  }

  function SendInfos(s: Sends, ongoing: seq<nat>, pending: seq<nat>): (infos: seq<SendInfo>)
    requires forall k :: k in ongoing ==> k in s.ongoing
    requires forall k :: k in pending ==> k in s.pending
    ensures |infos| == |ongoing| + |pending|
  {
    seq(|ongoing|, i requires 0 <= i < |ongoing| => OngoingSendInfo(s.ongoing[ongoing[i]]))
    + seq(|pending|, i requires 0 <= i < |pending| => PendingSendInfo(s.pending[pending[i]]))
  }

  function RecvInfos(s: Recvs, ongoing: seq<nat>, pending: seq<nat>): (infos: seq<RecvInfo>)
    requires forall k :: k in ongoing ==> k in s.ongoing
    requires forall l :: l in pending ==> l in s.pending
    ensures |infos| == |ongoing| + |pending|
  {
    seq(|ongoing|, i requires 0 <= i < |ongoing| => OngoingRecvInfo(s.ongoing[ongoing[i]]))
    + seq(|pending|, i requires 0 <= i < |pending| => PendingRecvInfo(s.pending[pending[i]]))
  }

  /** Each live send appears under its id exactly once; the ongoing ones, and only they, are started. */
  ghost predicate ListsSends(infos: seq<SendInfo>, s: Sends) {
    && (forall i, j :: 0 <= i < j < |infos| ==> infos[i].localSendId != infos[j].localSendId)
    && (forall i :: 0 <= i < |infos| ==>
          var id := infos[i].localSendId;
          && (id in s.pending || id in s.ongoing)
          && (id in s.ongoing ==> var v := s.ongoing[id];
                infos[i] == SendInfo(id, v.bytesSent, v.bytesTotal, true, v.remote, v.filePath))
          && (id !in s.ongoing ==> var v := s.pending[id];
                infos[i] == SendInfo(id, 0, v.bytesTotal, false, v.remote, v.filePath))
          && (infos[i].started ==> infos[i].bytesSent >= 1))
    && (forall id :: id in s.pending || id in s.ongoing ==> exists i :: 0 <= i < |infos| && infos[i].localSendId == id)
  }

  ghost predicate LiveRecv(s: Recvs, l: nat) {
    l in s.pending || exists k :: k in s.ongoing && s.ongoing[k].localRecvId == l
  }

  ghost predicate DescribesRecv(info: RecvInfo, s: Recvs) {
    || (info.localRecvId in s.pending && var v := s.pending[info.localRecvId];
        info == RecvInfo(v.localRecvId, v.bytesTotal, 0, v.fileName, v.remote, v.timestamp))
    || (exists k :: k in s.ongoing && var v := s.ongoing[k];
        info == RecvInfo(v.localRecvId, v.bytesTotal, v.bytesReceived, v.fileName, v.remote, v.lastActive))
  }

  ghost predicate ListsRecvs(infos: seq<RecvInfo>, s: Recvs) {
    && (forall i, j :: 0 <= i < j < |infos| ==> infos[i].localRecvId != infos[j].localRecvId)
    && (forall i :: 0 <= i < |infos| ==> DescribesRecv(infos[i], s))
    && (forall l :: LiveRecv(s, l) ==> exists i :: 0 <= i < |infos| && infos[i].localRecvId == l)
  }

  lemma SendInfosAreExact(s: Sends, connected: set<PeerId>, ongoing: seq<nat>, pending: seq<nat>)
    requires SendsConsistent(s, connected)
    requires Enumerates(ongoing, s.ongoing.Keys) && Enumerates(pending, s.pending.Keys)
    ensures ListsSends(SendInfos(s, ongoing, pending), s)
  {
    var infos := SendInfos(s, ongoing, pending);
    forall i | 0 <= i < |ongoing|
      ensures infos[i].localSendId == ongoing[i] && infos[i].started && infos[i].bytesSent >= 1
          && ongoing[i] in s.ongoing
    {
      assert ongoing[i] in ongoing;
      assert OngoingSendFits(s, connected, ongoing[i]);
    }
    forall i | 0 <= i < |pending|
      ensures infos[|ongoing| + i].localSendId == pending[i] && !infos[|ongoing| + i].started
      ensures pending[i] in s.pending && pending[i] !in s.ongoing
    {
      assert pending[i] in pending;
      assert PendingSendFits(s, connected, pending[i]);
    }
    forall id | id in s.pending || id in s.ongoing ensures exists i :: 0 <= i < |infos| && infos[i].localSendId == id {
      if id in s.ongoing {
        var i :| 0 <= i < |ongoing| && ongoing[i] == id;
        assert infos[i].localSendId == id;
      } else {
        var i :| 0 <= i < |pending| && pending[i] == id;
        assert infos[|ongoing| + i].localSendId == id;
      }
    }
    forall i | |ongoing| <= i < |infos|
      ensures infos[i].localSendId == pending[i - |ongoing|] && infos[i].localSendId in s.pending
      ensures infos[i].localSendId !in s.ongoing && !infos[i].started
    {
      assert i == |ongoing| + (i - |ongoing|);
    }
  }

  lemma RecvInfosAreExact(s: Recvs, ongoing: seq<nat>, pending: seq<nat>)
    requires RecvsConsistent(s)
    requires Enumerates(ongoing, s.ongoing.Keys) && Enumerates(pending, s.pending.Keys)
    ensures ListsRecvs(RecvInfos(s, ongoing, pending), s)
  {
    var infos := RecvInfos(s, ongoing, pending);
    forall i | 0 <= i < |ongoing|
      ensures ongoing[i] in s.ongoing && infos[i].localRecvId == s.ongoing[ongoing[i]].localRecvId
          && infos[i].localRecvId !in s.pending
    {
      assert ongoing[i] in ongoing;
      assert OngoingRecvFits(s, ongoing[i]);
    }
    forall i | |ongoing| <= i < |infos|
      ensures infos[i].localRecvId == pending[i - |ongoing|] && infos[i].localRecvId in s.pending
    {
      assert pending[i - |ongoing|] in pending;
      assert PendingRecvFits(s, pending[i - |ongoing|]);
    }
    forall i, j | 0 <= i < j < |infos| ensures infos[i].localRecvId != infos[j].localRecvId {
      if j < |ongoing| { LocalRecvIdsDistinct(s, ongoing[i], ongoing[j]); }
    }
    forall l | LiveRecv(s, l) ensures exists i :: 0 <= i < |infos| && infos[i].localRecvId == l {
      if l in s.pending {
        var i :| 0 <= i < |pending| && pending[i] == l;
        assert infos[|ongoing| + i].localRecvId == l;
      } else {
        var k :| k in s.ongoing && s.ongoing[k].localRecvId == l;
        var i :| 0 <= i < |ongoing| && ongoing[i] == k;
        assert infos[i].localRecvId == l;
      }
    }
  }

  class Behaviour {
    const config: Timeouts
    var outEvents: seq<OutEvent>
    var pendingHandlerEvents: seq<Notify>
    var connectedPeers: set<PeerId>
    var recvCounter: nat
    var sendCounter: nat
    var pendingRecv: map<nat, PendingRecv>
    var pendingSend: map<nat, PendingSend>
    var ongoingRecv: map<nat, OngoingRecv>
    var ongoingSend: map<nat, OngoingSend>
    // The file system behind the handles.
    var files: map<nat, Source>
    var received: map<nat, Incoming>

    function Abs(): State
      reads this
    {
      State(config, outEvents, pendingHandlerEvents, connectedPeers,
            Sends(sendCounter, pendingSend, ongoingSend, files), Recvs(recvCounter, pendingRecv, ongoingRecv, received))
    }

    ghost predicate Valid()
      reads this
    {
      Consistent(Abs())
    }

    constructor (config: Timeouts)
      ensures Valid() && Abs() == Initial(config)
    {
      this.config := config;
      outEvents, pendingHandlerEvents, connectedPeers := [], [], {};
      recvCounter, sendCounter := 0, 0;
      pendingRecv, pendingSend, ongoingRecv, ongoingSend := map[], map[], map[], map[];
      files, received := map[], map[];
    }

    // -------------------------------------------------------------- requests of the user

    method PushSendFile(to: PeerId, fileName: Bytes, filePath: Bytes, metadata: Option<nat>, content: Bytes, now: nat)
      returns (reply: Reply)
      requires Valid()
      modifies this
      ensures Valid() && Abs() == SendFile(old(Abs()), to, fileName, filePath, metadata, content, now)
      ensures reply == if to !in old(connectedPeers) then PeerNotFound else Silent
    {
      ConsistentKept(Abs(), Send(to, fileName, filePath, metadata, content, now));
      var localSendId := NextSendId();
      if to !in connectedPeers {
        return PeerNotFound;
      }
      if metadata.None? {
        return Silent;
      }
      files := files[localSendId := Source(fileName, content, metadata.value)];
      pendingSend := pendingSend[localSendId := PendingSend(localSendId, to, metadata.value, filePath, 0, now)];
      pendingHandlerEvents := pendingHandlerEvents + [Notify(to, NewFileSend(fileName, localSendId, metadata.value))];
      return Silent;
    }

    method NextSendId() returns (id: nat)
      modifies this`sendCounter
      ensures id == old(sendCounter) && sendCounter == id + 1
    {
      id := sendCounter;
      sendCounter := sendCounter + 1;
    }

    method NextRecvId() returns (id: nat)
      modifies this`recvCounter
      ensures id == old(recvCounter) && recvCounter == id + 1
    {
      id := recvCounter;
      recvCounter := recvCounter + 1;
    }

    method PushAcceptFile(recvId: nat, now: nat) returns (reply: Reply)
      requires Valid()
      modifies this
      ensures Valid() && Abs() == AcceptPendingRecv(old(Abs()), recvId, now)
      ensures reply == if recvId in old(pendingRecv) then Silent else RecvNotFound(recvId)
    {
      ConsistentKept(Abs(), Accept(recvId, now));
      if recvId !in pendingRecv {
        return RecvNotFound(recvId);
      }
      var v := pendingRecv[recvId];
      pendingRecv := pendingRecv - {recvId};
      received := received[recvId := Incoming(v.remote, v.remoteSendId, [])];
      ongoingRecv := ongoingRecv[v.remoteSendId :=
        OngoingRecv(recvId, v.remoteSendId, v.remote, v.bytesTotal, v.fileName, 0, now)];
      pendingHandlerEvents := pendingHandlerEvents + [Notify(v.remote, AcceptFile(v.remoteSendId))];
      return Silent;
    }

    method PushCancelRecv(localRecvId: nat) returns (reply: Reply)
      requires Valid()
      modifies this
      ensures Valid() && Abs() == CancelRecv(old(Abs()), localRecvId)
      ensures reply
        == if localRecvId in old(pendingRecv) || localRecvId in old(ongoingRecv) then Cancelled else IdNotFound
    {
      var found := CancelRecvByLocalRecvId(localRecvId);
      reply := if found then Cancelled else IdNotFound;
    }

    method PushCancelSend(localSendId: nat) returns (reply: Reply)
      requires Valid()
      modifies this
      ensures Valid() && Abs() == CancelSend(old(Abs()), localSendId)
      ensures reply
        == if localSendId in old(pendingSend) || localSendId in old(ongoingSend) then Cancelled else IdNotFound
    {
      var found := CancelSendByLocalSendId(localSendId);
      reply := if found then Cancelled else IdNotFound;
    }

    /** Every live send is listed once, and a started one never has zero bytes to divide by. */
    method ListSend() returns (infos: seq<SendInfo>)
      requires Valid()
      ensures ListsSends(infos, Abs().sends)
    {
      var ongoing := KeysInSomeOrder(ongoingSend.Keys);
      var pending := KeysInSomeOrder(pendingSend.Keys);
      infos := SendInfos(Abs().sends, ongoing, pending);
      SendInfosAreExact(Abs().sends, connectedPeers, ongoing, pending);
    }

    /** Every live receive is listed once under its local id. */
    method ListRecv() returns (infos: seq<RecvInfo>)
      requires Valid()
      ensures ListsRecvs(infos, Abs().recvs)
    {
      var ongoing := KeysInSomeOrder(ongoingRecv.Keys);
      var pending := KeysInSomeOrder(pendingRecv.Keys);
      infos := RecvInfos(Abs().recvs, ongoing, pending);
      RecvInfosAreExact(Abs().recvs, ongoing, pending);
    }

    // -------------------------------------------------------------- cancelling

    method CancelSendByLocalSendId(localSendId: nat) returns (found: bool)
      requires Valid()
      modifies this
      ensures Valid() && Abs() == CancelSend(old(Abs()), localSendId)
      ensures found == (localSendId in old(pendingSend) || localSendId in old(ongoingSend))
    {
      ConsistentKept(Abs(), StopSend(localSendId));
      var removed := TakeSendRecord(localSendId);
      if removed.Some? {
        pendingHandlerEvents := pendingHandlerEvents + [Notify(removed.value, LocalCancelSend(localSendId))];
        return true;
      }
      return false;
    }

    method TakeSendRecord(localSendId: nat) returns (remote: Option<PeerId>)
      modifies this
      ensures remote == RemoteOfSend(old(Abs()), localSendId)
      ensures Abs() == RemoveSendRecord(old(Abs()), localSendId)
    {
      if localSendId in pendingSend {
        remote := Some(pendingSend[localSendId].remote);
        pendingSend := pendingSend - {localSendId};
        return;
      }
      if localSendId in ongoingSend {
        remote := Some(ongoingSend[localSendId].remote);
        ongoingSend := ongoingSend - {localSendId};
        return;
      }
      assert ongoingSend - {localSendId} == ongoingSend;
      remote := None;
    }

    method CancelRecvByLocalRecvId(localRecvId: nat) returns (found: bool)
      requires Valid()
      modifies this
      ensures Valid() && Abs() == CancelRecv(old(Abs()), localRecvId)
      ensures found == (localRecvId in old(pendingRecv) || localRecvId in old(ongoingRecv))
    {
      ConsistentKept(Abs(), StopRecv(localRecvId));
      var removed := TakeRecvRecord(localRecvId);
      if removed.Some? {
        pendingHandlerEvents := pendingHandlerEvents
            + [Notify(removed.value.remote, LocalCancelRecv(removed.value.remoteSendId))];
        outEvents := outEvents + [CancelledRecv(localRecvId)];
        return true;
      }
      return false;
    }

    method TakeRecvRecord(localRecvId: nat) returns (removed: Option<Removed>)
      modifies this
      ensures removed == FindRecvRecord(old(Abs()), localRecvId)
      ensures Abs() == RemoveRecvRecord(old(Abs()), localRecvId)
    {
      if localRecvId in pendingRecv {
        removed := Some(Removed(pendingRecv[localRecvId].remote, pendingRecv[localRecvId].remoteSendId));
        pendingRecv := pendingRecv - {localRecvId};
        return;
      }
      if localRecvId in ongoingRecv {
        removed := Some(Removed(ongoingRecv[localRecvId].remote, ongoingRecv[localRecvId].remoteSendId));
        ongoingRecv := ongoingRecv - {localRecvId};
        return;
      }
      assert ongoingRecv - {localRecvId} == ongoingRecv;
      removed := None;
    }

    /** `pick` is the pending record that was taken, when it came to that. */
    method OnRemoteCancelledSend(remoteSendId: nat) returns (pick: nat)
      requires Valid()
      modifies this
      ensures ValidPick(old(Abs()), remoteSendId, pick)
      ensures Valid() && Abs() == RemoteCancelledSend(old(Abs()), remoteSendId, pick)
    {
      ghost var before := Abs();
      pick := 0;
      if remoteSendId in ongoingRecv {
        var localRecvId := ongoingRecv[remoteSendId].localRecvId;
        ongoingRecv := ongoingRecv - {remoteSendId};
        outEvents := outEvents + [CancelledRecv(localRecvId)];
      } else {
        var matching := set l | l in pendingRecv && pendingRecv[l].remoteSendId == remoteSendId;
        if matching != {} {
          pick :| pick in matching;
          pendingRecv := pendingRecv - {pick};
          outEvents := outEvents + [CancelledRecv(remoteSendId)];
        } else {
          forall l ensures !IsOffer(before, l, remoteSendId) { assert l !in matching; }
        }
      }
      ConsistentWhenShrunk(before, RemoteCancelledSend(before, remoteSendId, pick));
    }

    // -------------------------------------------------------------- progress

    method ProgressOngoingSend(localSendId: nat, now: nat, read: Option<nat>)
      modifies this
      ensures Abs() == ProgressSend(old(Abs()), localSendId, now, read)
    {
      if localSendId !in ongoingSend {
        return;
      }
      var v := ongoingSend[localSendId];
      if read.None? {
        ongoingSend := ongoingSend - {localSendId};
        return;
      }
      var file := if localSendId in files then files[localSendId].content else [];
      var bytesRead := ReadCount(file, v.cursor, read.value);
      var buf := if bytesRead == 0 then [] else file[v.cursor..v.cursor + bytesRead];
      v := v.(lastActive := now, cursor := v.cursor + bytesRead, bytesSent := v.bytesSent + bytesRead);
      pendingHandlerEvents := pendingHandlerEvents + [Notify(v.remote, FileChunk(v.localSendId, buf))];
      if bytesRead == 0 {
        ongoingSend := ongoingSend - {localSendId};
      } else {
        ongoingSend := ongoingSend[localSendId := v];
      }
    }

    method OnPendingSendAccepted(localSendId: nat, now: nat, read: Option<nat>) returns (acceptance: Acceptance)
      modifies this
      ensures acceptance == AcceptanceOf(old(Abs()), localSendId)
      ensures Abs() == PendingSendAccepted(old(Abs()), localSendId, now, read)
    {
      if localSendId !in pendingSend && localSendId !in ongoingSend {
        return UnknownSend;
      }
      if localSendId !in pendingSend {
        return Panicked;
      }
      var p := pendingSend[localSendId];
      pendingSend := pendingSend - {localSendId};
      ongoingSend := ongoingSend[localSendId :=
        OngoingSend(p.localSendId, p.remote, p.bytesTotal, p.filePath, p.cursor, 0, now)];
      ProgressOngoingSend(localSendId, now, read);
      return Started(p.bytesTotal);
    }

    method OnNewPendingRecv(peer: PeerId, fileName: Bytes, remoteSendId: nat, bytesTotal: nat, now: nat)
      modifies this
      ensures Abs() == NewPendingRecv(old(Abs()), peer, fileName, remoteSendId, bytesTotal, now)
    {
      var localRecvId := NextRecvId();
      received := received[localRecvId := Incoming(peer, remoteSendId, [])];
      pendingRecv := pendingRecv[localRecvId := PendingRecv(localRecvId, remoteSendId, peer, bytesTotal,
          fileName, now)];
      outEvents := outEvents + [FileOffered(peer, fileName, localRecvId, bytesTotal)];
    }

    /** The write loop: what reached the file before an error stays there. */
    method WriteChunk(localRecvId: nat, content: Bytes, writes: seq<Option<nat>>) returns (w: Written)
      requires content != []
      modifies this`received
      ensures w == WriteAll(|content|, 0, writes)
      ensures received == Append(old(received), localRecvId, content[..w.count])
    {
      var cursor, attempt := 0, 0;
      assert localRecvId in received ==> received[localRecvId].data + content[..0] == received[localRecvId].data;
      while true
        invariant attempt <= |writes| && cursor < |content|
        invariant WriteAll(|content|, 0, writes) == WriteAll(|content|, cursor, writes[attempt..])
        invariant received == Append(old(received), localRecvId, content[..cursor])
        decreases |content| - cursor
      {
        var answer := if attempt < |writes| then writes[attempt] else Some(|content| - cursor);
        if answer.None? {
          return Written(cursor, true);
        }
        var n := Clamp(answer.value, |content| - cursor);
        assert content[..cursor + n] == content[..cursor] + content[cursor..cursor + n];
        if localRecvId in received {
          var f := received[localRecvId];
          received := received[localRecvId := f.(data := f.data + content[cursor..cursor + n])];
          assert old(received)[localRecvId].data + content[..cursor] + content[cursor..cursor + n]
              == old(received)[localRecvId].data + content[..cursor + n];
        }
        cursor := cursor + n;
        if cursor >= |content| {
          return Written(|content|, false);
        }
        attempt := attempt + 1;
      }
    }

    method ProgressOngoingRecv(remoteSendId: nat, content: Bytes, now: nat, writes: seq<Option<nat>>)
      modifies this
      ensures Abs() == ProgressRecv(old(Abs()), remoteSendId, content, now, writes)
    {
      if remoteSendId !in ongoingRecv {
        return;
      }
      var v := ongoingRecv[remoteSendId];
      ongoingRecv := ongoingRecv - {remoteSendId};
      if content == [] && v.bytesReceived != v.bytesTotal {
        outEvents := outEvents + [Failed(UnexpectedEof(v.localRecvId))];
        return;
      }
      if content == [] {
        outEvents := outEvents + [RecvProgress(v.localRecvId, v.bytesTotal, v.bytesTotal)];
        return;
      }
      var w := WriteChunk(v.localRecvId, content, writes);
      if w.failed {
        outEvents := outEvents + [OngoingRecvError(v.localRecvId)];
        return;
      }
      v := v.(bytesReceived := v.bytesReceived + w.count, lastActive := now);
      ongoingRecv := ongoingRecv[remoteSendId := v];
      assert ongoingRecv == old(ongoingRecv)[remoteSendId := v];
    }

    // -------------------------------------------------------------- events

    /** Returns the world as it was met: `pick` is settled by the table's iteration order. */
    method OnConnectionHandlerEvent(peer: PeerId, event: ToBehaviour, now: nat, read: Option<nat>,
        writes: seq<Option<nat>>)
      returns (world: World)
      requires Valid() && !Panics(Abs(), event)
      modifies this
      ensures world == World(now, read, writes, world.pick) && Possible(old(Abs()), FromHandler(peer, event, world))
      ensures Valid() && Abs() == OnHandlerEvent(old(Abs()), peer, event, world)
    {
      hide Consistent, ProgressRecv, ProgressSend, PendingSendAccepted, NewPendingRecv, RemoteCancelledSend;
      hide RemoveSendRecord, IsOffer;
      ghost var before := Abs();
      world := World(now, read, writes, 0);
      match event {
        case RecvProgressed(id, content) => ProgressOngoingRecv(id, content, now, writes);
        case IncomingFile(name, id, total) => OnNewPendingRecv(peer, name, id, total, now);
        case Failure(e) => outEvents := outEvents + [Failed(e)];
        case InboundNegotiated => outEvents := outEvents + [InboundOpen(peer)];
        case OutboundNegotiated =>
          connectedPeers := connectedPeers + {peer};
          outEvents := outEvents + [OutboundOpen(peer)];
        case Unsupported => outEvents := outEvents + [NotSupported(peer)];
        case FileSendPending(id) =>
        case FileSendAccepted(id) =>
          var acceptance := OnPendingSendAccepted(id, now, read);
          assert !acceptance.Panicked?;
          if acceptance.Started? {
            outEvents := outEvents + [SendProgress(id, 0, acceptance.bytesTotal)];
          }
        case SendProgressed(id) =>
          if id in ongoingSend {
            outEvents := outEvents + [SendProgress(id, ongoingSend[id].bytesSent, ongoingSend[id].bytesTotal)];
          }
          ProgressOngoingSend(id, now, read);
        case RemoteCancelSend(id) =>
          outEvents := outEvents + [CancelledSend(id)];
          var _ := TakeSendRecord(id);
        case RemoteCancelRecv(id) =>
          var pick := OnRemoteCancelledSend(id);
          world := world.(pick := pick);
      }
      ConsistentKept(before, FromHandler(peer, event, world));
    }

    method OnConnectionClosed(peer: PeerId, remaining: nat)
      requires Valid()
      modifies this
      ensures Valid() && Abs() == OnDisconnect(old(Abs()), peer, remaining)
    {
      hide Consistent;
      ConsistentKept(Abs(), Disconnect(peer, remaining));
      if remaining < 1 {
        connectedPeers := connectedPeers - {peer};
        pendingSend := pendingSend - PendingSendsWith(pendingSend, peer);
        pendingRecv := pendingRecv - PendingRecvsWith(pendingRecv, peer);
        ongoingSend := ongoingSend - OngoingSendsWith(ongoingSend, peer);
        ongoingRecv := ongoingRecv - OngoingRecvsWith(ongoingRecv, peer);
      }
    }

    method CancelSendsInTurn(ids: seq<nat>)
      requires Valid()
      modifies this
      ensures Valid() && Abs() == CancelSends(old(Abs()), ids)
    {
      for i := 0 to |ids|
        invariant Valid()
        invariant CancelSends(old(Abs()), ids) == CancelSends(Abs(), ids[i..])
      {
        var _ := CancelSendByLocalSendId(ids[i]);
      }
    }

    method CancelRecvsInTurn(ids: seq<nat>)
      requires Valid()
      modifies this
      ensures Valid() && Abs() == CancelRecvs(old(Abs()), ids)
    {
      for i := 0 to |ids|
        invariant Valid()
        invariant CancelRecvs(old(Abs()), ids) == CancelRecvs(Abs(), ids[i..])
      {
        var _ := CancelRecvByLocalRecvId(ids[i]);
      }
    }

    /** Collects the expired ids of one table after the other and cancels them. */
    method ExpireRecords(now: nat) returns (order: Expiry)
      requires Valid()
      modifies this
      ensures ValidExpiry(old(Abs()), now, order)
      ensures Valid() && Abs() == CheckExpiry(old(Abs()), order)
    {
      var pendingSends := KeysInSomeOrder(ExpiredPendingSends(Abs(), now));
      CancelSendsInTurn(pendingSends);
      var pendingRecvs := KeysInSomeOrder(ExpiredPendingRecvs(Abs(), now));
      CancelRecvsInTurn(pendingRecvs);
      var ongoingSends := KeysInSomeOrder(ExpiredOngoingSends(Abs(), now));
      CancelSendsInTurn(ongoingSends);
      var ongoingRecvs := KeysInSomeOrder(ExpiredLocalRecvIds(Abs(), now));
      CancelRecvsInTurn(ongoingRecvs);
      order := Expiry(pendingSends, pendingRecvs, ongoingSends, ongoingRecvs);
    }

    /** Expiry first when the throttle lets it, then queued events, then notifications. */
    method Poll(throttleReady: bool, now: nat) returns (polled: Polled, order: Expiry)
      requires Valid()
      modifies this
      ensures Valid()
      ensures throttleReady ==> ValidExpiry(old(Abs()), now, order)
      ensures var s := if throttleReady then CheckExpiry(old(Abs()), order) else old(Abs());
              if s.outEvents != [] then
                polled == GenerateEvent(s.outEvents[0]) && Abs() == s.(outEvents := s.outEvents[1..])
              else if s.handlerEvents != [] then
                polled == NotifyHandler(s.handlerEvents[0]) && Abs() == s.(handlerEvents := s.handlerEvents[1..])
              else polled == Pending && Abs() == s
    {
      order := Expiry([], [], [], []);
      if throttleReady {
        order := ExpireRecords(now);
      }
      ghost var s := Abs();
      if outEvents != [] {
        ConsistentKept(s, PopOut);
        polled := GenerateEvent(outEvents[0]);
        outEvents := outEvents[1..];
        return;
      }
      if pendingHandlerEvents != [] {
        ConsistentKept(s, PopHandlerEvent);
        polled := NotifyHandler(pendingHandlerEvents[0]);
        pendingHandlerEvents := pendingHandlerEvents[1..];
        return;
      }
      polled := Pending;
    }
  }
}

/** The state of a blob behaviour as a value, and what each of its operations does to that state. */
module BlobState {
  import opened Basics
  import opened BlobEvents
  import opened BlobMessages

  type PeerId = nat

  datatype PendingRecv = PendingRecv(
    localRecvId: nat, remoteSendId: nat, remote: PeerId, bytesTotal: nat, fileName: Bytes, timestamp: nat)

  datatype OngoingRecv = OngoingRecv(
    localRecvId: nat, remoteSendId: nat, remote: PeerId, bytesTotal: nat, fileName: Bytes,
    bytesReceived: nat, lastActive: nat)

  /** `cursor` is the position of the open file handle. */
  datatype PendingSend = PendingSend(
    localSendId: nat, remote: PeerId, bytesTotal: nat, filePath: Bytes, cursor: nat, timestamp: nat)

  datatype OngoingSend = OngoingSend(
    localSendId: nat, remote: PeerId, bytesTotal: nat, filePath: Bytes, cursor: nat,
    bytesSent: nat, lastActive: nat)

  datatype OutEvent =
    | FileOffered(peer: PeerId, fileName: Bytes, localRecvId: nat, bytesTotal: nat)
    | RecvProgress(localRecvId: nat, bytesReceived: nat, bytesTotal: nat)
    | OngoingRecvError(localRecvId: nat)
    | SendProgress(localSendId: nat, bytesSent: nat, bytesTotal: nat)
    | CancelledSend(id: nat)
    | CancelledRecv(id: nat)
    | Failed(error: Error)
    | InboundOpen(peer: PeerId)
    | OutboundOpen(peer: PeerId)
    | NotSupported(peer: PeerId)

  datatype Notify = Notify(peer: PeerId, event: FromBehaviour)

  /** Seconds; 0 waits forever. */
  datatype Timeouts = Timeouts(pendingSend: nat, pendingRecv: nat, ongoingSend: nat, ongoingRecv: nat)

  /** A file this peer was ever offered: where it came from and what has been written of it. */
  datatype Incoming = Incoming(remote: PeerId, remoteSendId: nat, data: Bytes)

  /** A file this peer ever offered: the name it went by, what is in it and the length announced for it. */
  datatype Source = Source(fileName: Bytes, content: Bytes, announced: nat)

  /** `files` holds what is behind each send's file handle; it stands for the file system and outlives
      the records. */
  datatype Sends = Sends(
    counter: nat, pending: map<nat, PendingSend>, ongoing: map<nat, OngoingSend>, files: map<nat, Source>)
  {
    function FileOf(id: nat): Bytes { if id in files then files[id].content else [] }
  }

  /** `ongoing` is keyed by the remote's send id, `pending` by the local receive id. `received` holds
      the files being written; it stands for the file system and outlives the records. */
  datatype Recvs = Recvs(
    counter: nat, pending: map<nat, PendingRecv>, ongoing: map<nat, OngoingRecv>, received: map<nat, Incoming>)
  {
    function DataOf(id: nat): Bytes { if id in received then received[id].data else [] }
  }

  datatype State = State(
    timeouts: Timeouts,
    outEvents: seq<OutEvent>,
    handlerEvents: seq<Notify>,
    connectedPeers: set<PeerId>,
    sends: Sends,
    recvs: Recvs)
  {
    function Emit(ev: OutEvent): State { this.(outEvents := outEvents + [ev]) }

    function Tell(peer: PeerId, ev: FromBehaviour): State {
      this.(handlerEvents := handlerEvents + [Notify(peer, ev)])
    }
  }

  function Initial(timeouts: Timeouts): State {
    State(timeouts, [], [], {}, Sends(0, map[], map[], map[]), Recvs(0, map[], map[], map[]))
  }

  // ---------------------------------------------------------------- the file system's answers

  function Clamp(wish: nat, most: nat): nat {
    if wish < 1 then 1 else if wish > most then most else wish
  }

  /** A read returns some of the bytes that are left, at most a buffer full, and none only at the end. */
  function ReadCount(file: Bytes, cursor: nat, wish: nat): (n: nat)
    ensures n <= FILE_CHUNK_SIZE
    ensures cursor <= |file| ==> cursor + n <= |file|
    ensures n == 0 <==> cursor >= |file|
  {
    if cursor >= |file| then 0
    else Clamp(wish, if |file| - cursor < FILE_CHUNK_SIZE then |file| - cursor else FILE_CHUNK_SIZE)
  }

  datatype Written = Written(count: nat, failed: bool)

  /** Writing until `length` bytes are out or a write fails. Each write accepts at least one byte;
      `answers` are the file system's answers in turn, None being an error. */
  function WriteAll(length: nat, cursor: nat, answers: seq<Option<nat>>): (w: Written)
    requires cursor < length
    ensures cursor <= w.count <= length
    ensures w.failed ==> w.count < length
    ensures !w.failed ==> w.count == length
    decreases |answers|
  {
    if answers == [] then Written(length, false)
    else if answers[0].None? then Written(cursor, true)
    else
      var next := cursor + Clamp(answers[0].value, length - cursor);
      if next >= length then Written(length, false) else WriteAll(length, next, answers[1..])
  }

  /** What the outside world answers while one event is handled. */
  datatype World = World(now: nat, read: Option<nat>, writes: seq<Option<nat>>, pick: nat)

  // ---------------------------------------------------------------- sending

  datatype Reply = Silent | PeerNotFound | RecvNotFound(id: nat) | Cancelled | IdNotFound

  function SendFile(s: State, to: PeerId, fileName: Bytes, filePath: Bytes,
                    metadata: Option<nat>, content: Bytes, now: nat): State {
    var id := s.sends.counter;
    if to !in s.connectedPeers || metadata.None? then s.(sends := s.sends.(counter := id + 1))
    else
      s.(sends := Sends(id + 1,
                        s.sends.pending[id := PendingSend(id, to, metadata.value, filePath, 0, now)],
                        s.sends.ongoing,
                        s.sends.files[id := Source(fileName, content, metadata.value)]))
       .Tell(to, NewFileSend(fileName, id, metadata.value))
  }

  /** Reads the next piece of the file and queues it as a chunk; an empty chunk ends the send. */
  function ProgressSend(s: State, id: nat, now: nat, read: Option<nat>): State {
    if id !in s.sends.ongoing then s
    else if read.None? then s.(sends := s.sends.(ongoing := s.sends.ongoing - {id}))
    else
      var v := s.sends.ongoing[id];
      var file := s.sends.FileOf(id);
      var n := ReadCount(file, v.cursor, read.value);
      var chunk := if n == 0 then [] else file[v.cursor..v.cursor + n];
      var v' := v.(cursor := v.cursor + n, bytesSent := v.bytesSent + n, lastActive := now);
      s.(sends := s.sends.(ongoing := if n == 0 then s.sends.ongoing - {id} else s.sends.ongoing[id := v']))
       .Tell(v.remote, FileChunk(v.localSendId, chunk))
  }

  datatype Acceptance = Started(bytesTotal: nat) | UnknownSend | Panicked

  function AcceptanceOf(s: State, id: nat): Acceptance {
    if id !in s.sends.pending && id !in s.sends.ongoing then UnknownSend
    else if id !in s.sends.pending then Panicked
    else Started(s.sends.pending[id].bytesTotal)
  }

  function PendingSendAccepted(s: State, id: nat, now: nat, read: Option<nat>): State {
    if !AcceptanceOf(s, id).Started? then s
    else
      var p := s.sends.pending[id];
      var v := OngoingSend(p.localSendId, p.remote, p.bytesTotal, p.filePath, p.cursor, 0, now);
      ProgressSend(s.(sends := s.sends.(pending := s.sends.pending - {id}, ongoing := s.sends.ongoing[id := v])),
          id, now, read)
  }

  function RemoteOfSend(s: State, id: nat): Option<PeerId> {
    if id in s.sends.pending then Some(s.sends.pending[id].remote)
    else if id in s.sends.ongoing then Some(s.sends.ongoing[id].remote)
    else None
  }

  /** The pending table is searched first; the ongoing one only when nothing was found. */
  function RemoveSendRecord(s: State, id: nat): State {
    if id in s.sends.pending then s.(sends := s.sends.(pending := s.sends.pending - {id}))
    else s.(sends := s.sends.(ongoing := s.sends.ongoing - {id}))
  }

  function CancelSend(s: State, id: nat): State {
    match RemoteOfSend(s, id)
    case None => s
    case Some(remote) => RemoveSendRecord(s, id).Tell(remote, LocalCancelSend(id))
  }

  // ---------------------------------------------------------------- receiving

  function NewPendingRecv(s: State, peer: PeerId, fileName: Bytes, remoteSendId: nat, bytesTotal: nat,
      now: nat): State {
    var id := s.recvs.counter;
    s.(recvs := Recvs(id + 1,
                      s.recvs.pending[id := PendingRecv(id, remoteSendId, peer, bytesTotal, fileName, now)],
                      s.recvs.ongoing,
                      s.recvs.received[id := Incoming(peer, remoteSendId, [])]))
     .Emit(FileOffered(peer, fileName, id, bytesTotal))
  }

  /** The record is stored under the remote's send id before the acceptance is queued. */
  function AcceptPendingRecv(s: State, id: nat, now: nat): State {
    if id !in s.recvs.pending then s
    else
      var p := s.recvs.pending[id];
      var v := OngoingRecv(id, p.remoteSendId, p.remote, p.bytesTotal, p.fileName, 0, now);
      s.(recvs := Recvs(s.recvs.counter,
                        s.recvs.pending - {id},
                        s.recvs.ongoing[p.remoteSendId := v],
                        s.recvs.received[id := Incoming(p.remote, p.remoteSendId, [])]))
       .Tell(p.remote, AcceptFile(p.remoteSendId))
  }

  /** A chunk takes its record out of the table; only a chunk written in full puts it back. */
  function ProgressRecv(s: State, remoteSendId: nat, content: Bytes, now: nat, writes: seq<Option<nat>>): State {
    if remoteSendId !in s.recvs.ongoing then s
    else
      var v := s.recvs.ongoing[remoteSendId];
      var rest := s.recvs.ongoing - {remoteSendId};
      if content == [] then
        s.(recvs := s.recvs.(ongoing := rest))
         .Emit(if v.bytesReceived != v.bytesTotal then Failed(UnexpectedEof(v.localRecvId))
               else RecvProgress(v.localRecvId, v.bytesTotal, v.bytesTotal))
      else
        var w := WriteAll(|content|, 0, writes);
        var received := Append(s.recvs.received, v.localRecvId, content[..w.count]);
        if w.failed then
          s.(recvs := s.recvs.(ongoing := rest, received := received)).Emit(OngoingRecvError(v.localRecvId))
        else
          var v' := v.(bytesReceived := v.bytesReceived + |content|, lastActive := now);
          s.(recvs := s.recvs.(ongoing := s.recvs.ongoing[remoteSendId := v'], received := received))
  }

  function Append(received: map<nat, Incoming>, localRecvId: nat, bytes: Bytes): map<nat, Incoming> {
    if localRecvId !in received then received
    else
      var f := received[localRecvId];
      received[localRecvId := f.(data := f.data + bytes)]
  }

  datatype Removed = Removed(remote: PeerId, remoteSendId: nat)

  /** The ongoing table, keyed by the remote's send id, is searched with the local id, as written. */
  function FindRecvRecord(s: State, localRecvId: nat): Option<Removed> {
    if localRecvId in s.recvs.pending then
      Some(Removed(s.recvs.pending[localRecvId].remote, s.recvs.pending[localRecvId].remoteSendId))
    else if localRecvId in s.recvs.ongoing then
      Some(Removed(s.recvs.ongoing[localRecvId].remote, s.recvs.ongoing[localRecvId].remoteSendId))
    else None
  }

  function RemoveRecvRecord(s: State, localRecvId: nat): State {
    if localRecvId in s.recvs.pending then s.(recvs := s.recvs.(pending := s.recvs.pending - {localRecvId}))
    else s.(recvs := s.recvs.(ongoing := s.recvs.ongoing - {localRecvId}))
  }

  function CancelRecv(s: State, localRecvId: nat): State {
    match FindRecvRecord(s, localRecvId)
    case None => s
    case Some(found) =>
      RemoveRecvRecord(s, localRecvId)
      .Tell(found.remote, LocalCancelRecv(found.remoteSendId))
      .Emit(CancelledRecv(localRecvId))
  }

  predicate IsOffer(s: State, localRecvId: nat, remoteSendId: nat) {
    localRecvId in s.recvs.pending && s.recvs.pending[localRecvId].remoteSendId == remoteSendId
  }

  /** `pick` is the first matching pending record the hash table happens to yield. */
  ghost predicate ValidPick(s: State, remoteSendId: nat, pick: nat) {
    remoteSendId !in s.recvs.ongoing && (exists l :: IsOffer(s, l, remoteSendId)) ==> IsOffer(s, pick, remoteSendId)
  }

  /** The remote cancelled its send. For a pending record the remote's id is reported, as written. */
  function RemoteCancelledSend(s: State, remoteSendId: nat, pick: nat): State {
    if remoteSendId in s.recvs.ongoing then
      s.(recvs := s.recvs.(ongoing := s.recvs.ongoing - {remoteSendId}))
       .Emit(CancelledRecv(s.recvs.ongoing[remoteSendId].localRecvId))
    else if IsOffer(s, pick, remoteSendId) then
      s.(recvs := s.recvs.(pending := s.recvs.pending - {pick})).Emit(CancelledRecv(remoteSendId))
    else s
  }

  // ---------------------------------------------------------------- events from the handler

  function ReportSendProgress(s: State, id: nat): State {
    if id in s.sends.ongoing then
      s.Emit(SendProgress(id, s.sends.ongoing[id].bytesSent, s.sends.ongoing[id].bytesTotal))
    else s
  }

  function OnHandlerEvent(s: State, peer: PeerId, ev: ToBehaviour, world: World): State {
    match ev
    case RecvProgressed(id, content) => ProgressRecv(s, id, content, world.now, world.writes)
    case IncomingFile(name, id, total) => NewPendingRecv(s, peer, name, id, total, world.now)
    case Failure(e) => s.Emit(Failed(e))
    case InboundNegotiated => s.Emit(InboundOpen(peer))
    case OutboundNegotiated => s.(connectedPeers := s.connectedPeers + {peer}).Emit(OutboundOpen(peer))
    case Unsupported => s.Emit(NotSupported(peer))
    case FileSendPending(_) => s
    case FileSendAccepted(id) =>
      var s' := PendingSendAccepted(s, id, world.now, world.read);
      (match AcceptanceOf(s, id)
       case Started(total) => s'.Emit(SendProgress(id, 0, total))
       case _ => s')
    case SendProgressed(id) => ProgressSend(ReportSendProgress(s, id), id, world.now, world.read)
    case RemoteCancelSend(id) => RemoveSendRecord(s.Emit(CancelledSend(id)), id)
    case RemoteCancelRecv(id) => RemoteCancelledSend(s, id, world.pick)
  }

  /** The event that would reach the source's `expect("Already handled")` without a pending record. */
  predicate Panics(s: State, ev: ToBehaviour) {
    ev.FileSendAccepted? && AcceptanceOf(s, ev.localSendId).Panicked?
  }

  // ---------------------------------------------------------------- expiry and disconnection

  predicate Expired(now: nat, since: nat, timeout: nat) {
    timeout > 0 && now - since > timeout
  }

  /** The order in which each stage met its expired ids. */
  datatype Expiry = Expiry(pendingSends: seq<nat>, pendingRecvs: seq<nat>, ongoingSends: seq<nat>,
      ongoingRecvs: seq<nat>)

  function ExpiredPendingSends(s: State, now: nat): set<nat> {
    set k | k in s.sends.pending && Expired(now, s.sends.pending[k].timestamp, s.timeouts.pendingSend)
  }

  function ExpiredPendingRecvs(s: State, now: nat): set<nat> {
    set k | k in s.recvs.pending && Expired(now, s.recvs.pending[k].timestamp, s.timeouts.pendingRecv)
  }

  function ExpiredOngoingSends(s: State, now: nat): set<nat> {
    set k | k in s.sends.ongoing && Expired(now, s.sends.ongoing[k].lastActive, s.timeouts.ongoingSend)
  }

  /** The keys of the expired ongoing receives, which are the remote's send ids. */
  function ExpiredOngoingRecvs(s: State, now: nat): set<nat> {
    set k | k in s.recvs.ongoing && Expired(now, s.recvs.ongoing[k].lastActive, s.timeouts.ongoingRecv)
  }

  /** The local ids of those records, which are what the source cancels by. */
  function ExpiredLocalRecvIds(s: State, now: nat): set<nat> {
    set k | k in ExpiredOngoingRecvs(s, now) :: s.recvs.ongoing[k].localRecvId
  }

  function CancelSends(s: State, ids: seq<nat>): State
    decreases |ids|
  {
    if ids == [] then s else CancelSends(CancelSend(s, ids[0]), ids[1..])
  }

  function CancelRecvs(s: State, ids: seq<nat>): State
    decreases |ids|
  {
    if ids == [] then s else CancelRecvs(CancelRecv(s, ids[0]), ids[1..])
  }

  function CheckExpiry(s: State, order: Expiry): State {
    var s := CancelSends(s, order.pendingSends);
    var s := CancelRecvs(s, order.pendingRecvs);
    var s := CancelSends(s, order.ongoingSends);
    CancelRecvs(s, order.ongoingRecvs)
  }

  /** Each stage cancels what has expired when it starts. */
  ghost predicate ValidExpiry(s: State, now: nat, order: Expiry) {
    && Enumerates(order.pendingSends, ExpiredPendingSends(s, now))
    && var s := CancelSends(s, order.pendingSends);
    && Enumerates(order.pendingRecvs, ExpiredPendingRecvs(s, now))
    && var s := CancelRecvs(s, order.pendingRecvs);
    && Enumerates(order.ongoingSends, ExpiredOngoingSends(s, now))
    && var s := CancelSends(s, order.ongoingSends);
    && Enumerates(order.ongoingRecvs, ExpiredLocalRecvIds(s, now))
  }

  function PendingSendsWith(m: map<nat, PendingSend>, peer: PeerId): set<nat> { set k | k in m && m[k].remote == peer }

  function OngoingSendsWith(m: map<nat, OngoingSend>, peer: PeerId): set<nat> { set k | k in m && m[k].remote == peer }

  function PendingRecvsWith(m: map<nat, PendingRecv>, peer: PeerId): set<nat> { set l | l in m && m[l].remote == peer }

  function OngoingRecvsWith(m: map<nat, OngoingRecv>, peer: PeerId): set<nat> { set k | k in m && m[k].remote == peer }

  function OnDisconnect(s: State, peer: PeerId, remaining: nat): State {
    if remaining >= 1 then s
    else
      s.(connectedPeers := s.connectedPeers - {peer},
         sends := s.sends.(pending := s.sends.pending - PendingSendsWith(s.sends.pending, peer),
                           ongoing := s.sends.ongoing - OngoingSendsWith(s.sends.ongoing, peer)),
         recvs := s.recvs.(pending := s.recvs.pending - PendingRecvsWith(s.recvs.pending, peer),
                           ongoing := s.recvs.ongoing - OngoingRecvsWith(s.recvs.ongoing, peer)))
  }

  // ---------------------------------------------------------------- one operation at a time

  datatype Op =
    | Send(to: PeerId, fileName: Bytes, filePath: Bytes, metadata: Option<nat>, content: Bytes, now: nat)
    | Accept(recvId: nat, now: nat)
    | StopRecv(recvId: nat)
    | StopSend(sendId: nat)
    | FromHandler(peer: PeerId, event: ToBehaviour, world: World)
    | Expire(now: nat, order: Expiry)
    | Disconnect(peer: PeerId, remaining: nat)
    | PopOut
    | PopHandlerEvent

  function Apply(s: State, op: Op): State {
    match op
    case Send(to, name, path, metadata, content, now) => SendFile(s, to, name, path, metadata, content, now)
    case Accept(id, now) => AcceptPendingRecv(s, id, now)
    case StopRecv(id) => CancelRecv(s, id)
    case StopSend(id) => CancelSend(s, id)
    case FromHandler(peer, ev, world) => OnHandlerEvent(s, peer, ev, world)
    case Expire(_, order) => CheckExpiry(s, order)
    case Disconnect(peer, remaining) => OnDisconnect(s, peer, remaining)
    case PopOut => if s.outEvents == [] then s else s.(outEvents := s.outEvents[1..])
    case PopHandlerEvent => if s.handlerEvents == [] then s else s.(handlerEvents := s.handlerEvents[1..])
  }

  /** The outside world answers as it can; the cancelled ids are those that expired. */
  ghost predicate Possible(s: State, op: Op) {
    match op
    case FromHandler(_, RemoteCancelRecv(id), world) => ValidPick(s, id, world.pick)
    case Expire(now, order) => ValidExpiry(s, now, order)
    case _ => true
  }

  function Run(s: State, ops: seq<Op>): State
    decreases |ops|
  {
    if ops == [] then s else Run(Apply(s, ops[0]), ops[1..])
  }

  ghost predicate PossibleRun(s: State, ops: seq<Op>)
    decreases |ops|
  {
    ops == [] || (Possible(s, ops[0]) && PossibleRun(Apply(s, ops[0]), ops[1..]))
  }
}

/** How one transfer of the two-peer system looks: every act of the system moves every transfer by
    steps of BlobTransfer, which are named here. */
module TwoPeersView {
  import opened Basics
  import opened BlobEvents
  import BlobState
  import opened BlobHandler
  import opened Outbound
  import opened TwoPeers
  import T = BlobTransfer

  // ---------------------------------------------------------------- the messages of one transfer

  function UpOf(ev: FromBehaviour, k: nat): seq<T.Up> {
    match ev
    case NewFileSend(_, id, total) => if id == k then [T.Offer(total)] else []
    case FileChunk(id, bytes) => if id == k then [T.Chunk(bytes)] else []
    case LocalCancelSend(id) => if id == k then [T.Withdraw] else []
    case _ => []
  }

  function UpIn(ev: ToBehaviour, k: nat): seq<T.Up> {
    match ev
    case IncomingFile(_, id, total) => if id == k then [T.Offer(total)] else []
    case RecvProgressed(id, bytes) => if id == k then [T.Chunk(bytes)] else []
    case RemoteCancelRecv(id) => if id == k then [T.Withdraw] else []
    case _ => []
  }

  function DownOf(ev: FromBehaviour, k: nat): seq<T.Down> {
    match ev
    case AcceptFile(id) => if id == k then [T.Agree] else []
    case LocalCancelRecv(id) => if id == k then [T.Refuse] else []
    case _ => []
  }

  function DownIn(ev: ToBehaviour, k: nat): seq<T.Down> {
    match ev
    case FileSendAccepted(id) => if id == k then [T.Agree] else []
    case RemoteCancelSend(id) => if id == k then [T.Refuse] else []
    case _ => []
  }

  function CreditOf(ev: ToBehaviour, k: nat): seq<()> {
    if ev == SendProgressed(k) then [()] else []
  }

  function UpsFilter(k: nat): FromBehaviour -> seq<T.Up> { ev => UpOf(ev, k) }
  function UpNoticeFilter(k: nat): BlobState.Notify -> seq<T.Up> { (n: BlobState.Notify) => UpOf(n.event, k) }
  function UpInFilter(k: nat): ToBehaviour -> seq<T.Up> { ev => UpIn(ev, k) }
  function DownsFilter(k: nat): FromBehaviour -> seq<T.Down> { ev => DownOf(ev, k) }
  function DownNoticeFilter(k: nat): BlobState.Notify -> seq<T.Down> { (n: BlobState.Notify) => DownOf(n.event, k) }
  function DownInFilter(k: nat): ToBehaviour -> seq<T.Down> { ev => DownIn(ev, k) }
  function CreditFilter(k: nat): ToBehaviour -> seq<()> { ev => CreditOf(ev, k) }

  function Ups(q: seq<FromBehaviour>, k: nat): seq<T.Up> { Project(q, UpsFilter(k)) }
  function UpNotices(q: seq<BlobState.Notify>, k: nat): seq<T.Up> { Project(q, UpNoticeFilter(k)) }
  function UpsIn(q: seq<ToBehaviour>, k: nat): seq<T.Up> { Project(q, UpInFilter(k)) }
  function Downs(q: seq<FromBehaviour>, k: nat): seq<T.Down> { Project(q, DownsFilter(k)) }
  function DownNotices(q: seq<BlobState.Notify>, k: nat): seq<T.Down> { Project(q, DownNoticeFilter(k)) }
  function DownsIn(q: seq<ToBehaviour>, k: nat): seq<T.Down> { Project(q, DownInFilter(k)) }
  function Credits(q: seq<ToBehaviour>, k: nat): seq<()> { Project(q, CreditFilter(k)) }

  /** Nothing changes its kind on the way. */
  lemma MirrorKeepsKind(ev: FromBehaviour, k: nat)
    ensures UpIn(Mirror(ev), k) == UpOf(ev, k) && DownIn(Mirror(ev), k) == DownOf(ev, k)
        && CreditOf(Mirror(ev), k) == []
  {
  }

  // ---------------------------------------------------------------- the two halves of a transfer

  function SenderOf(s: BlobState.Sends, k: nat): T.Sender {
    if k in s.pending then T.Offering
    else if k in s.ongoing then T.Sending(s.ongoing[k].cursor)
    else if k in s.files then T.Over
    else T.Unborn
  }

  ghost predicate Knows(s: BlobState.Recvs, k: nat) {
    exists l :: l in s.received && s.received[l].remoteSendId == k
  }

  ghost function LocalOf(s: BlobState.Recvs, k: nat): (l: nat)
    requires Knows(s, k)
    ensures l in s.received && s.received[l].remoteSendId == k
  {
    var l :| l in s.received && s.received[l].remoteSendId == k;
    l
  }

  ghost function ReceiverOf(s: BlobState.Recvs, k: nat): T.Receiver {
    if k in s.ongoing then T.Receiving(s.ongoing[k].bytesTotal)
    else if !Knows(s, k) then T.Unaware
    else if LocalOf(s, k) in s.pending then T.Deciding(s.pending[LocalOf(s, k)].bytesTotal)
    else T.Done
  }

  ghost function DataOf(s: BlobState.Recvs, k: nat): Bytes {
    if Knows(s, k) then s.received[LocalOf(s, k)].data else []
  }

  predicate BusyWithChunk(n: Node, k: nat) {
    n.machine.phase.Busy? && n.machine.phase.message.FileChunk? && n.machine.phase.message.localSendId == k
  }

  datatype SendHalf = SendHalf(
    file: Bytes, total: nat, sender: T.Sender, transit: seq<T.Up>, acked: nat, credits: nat, stalled: nat,
        answers: seq<T.Down>)

  datatype RecvHalf = RecvHalf(inbox: seq<T.Up>, receiver: T.Receiver, data: Bytes, replies: seq<T.Down>)

  function TransitOf(n: Node, k: nat): seq<T.Up> {
    Ups(n.wire, k) + Ups(n.machine.queue, k) + UpNotices(n.behaviour.handlerEvents, k)
  }

  function RepliesOf(n: Node, k: nat): seq<T.Down> {
    Downs(n.wire, k) + Downs(n.machine.queue, k) + DownNotices(n.behaviour.handlerEvents, k)
  }

  function SendHalfOf(n: Node, k: nat): SendHalf {
    SendHalf(
      n.behaviour.sends.FileOf(k),
      if k in n.behaviour.sends.files then n.behaviour.sends.files[k].announced else 0,
      SenderOf(n.behaviour.sends, k),
      TransitOf(n, k),
      if BusyWithChunk(n, k) && n.flight == Acked then 1 else 0,
      |Credits(n.pendingOut, k)|,
      if BusyWithChunk(n, k) && n.flight == Gone then 1 else 0,
      DownsIn(n.pendingOut, k))
  }

  ghost function RecvHalfOf(n: Node, k: nat): RecvHalf {
    RecvHalf(UpsIn(n.pendingOut, k), ReceiverOf(n.behaviour.recvs, k), DataOf(n.behaviour.recvs, k), RepliesOf(n, k))
  }

  function Join(s: SendHalf, r: RecvHalf): T.Transfer {
    T.Transfer(s.file, s.total, s.sender, s.transit, s.acked, s.credits, s.stalled,
               r.inbox, r.receiver, r.data, s.answers + r.replies)
  }

  /** The transfer that side `p` sends under id `k`. */
  ghost function View(s: System, p: Side, k: nat): T.Transfer {
    Join(SendHalfOf(s.At(p), k), RecvHalfOf(s.At(Other(p)), k))
  }

  // ---------------------------------------------------------------- the steps an act amounts to

  function WrittenOf(ev: ToBehaviour, world: BlobState.World): BlobState.Written {
    if ev.RecvProgressed? && ev.content != [] then BlobState.WriteAll(|ev.content|, 0, world.writes)
    else BlobState.Written(0, false)
  }

  /** What an act of the sending side means for its transfer `k`; `d` is how many answers are already
      with the sending handler. */
  function SenderEvents(n: Node, act: Act, k: nat, up: bool): seq<T.Event> {
    match act
    case Request(_, Send(to, _, _, metadata, content, _)) =>
      if to in n.behaviour.connectedPeers && metadata.Some? && k == n.behaviour.sends.counter
      then [T.Offered(content, metadata.value)] else []
    case Request(_, StopSend(id)) =>
      if id == k && BlobState.RemoteOfSend(n.behaviour, k).Some? then [T.SendCancelled] else []
    case HandOver(_) =>
      if n.alive || n.behaviour.handlerEvents == [] then []
      else [T.Lost(0, |UpOf(n.behaviour.handlerEvents[0].event, k)|, false)]
    case TakeEvent(_, world) =>
      if n.pendingOut == [] then []
      else if CreditOf(n.pendingOut[0], k) != [] then [T.CreditUsed(world.read)]
      else if DownIn(n.pendingOut[0], k) != [] then [T.Answered(world.read)]
      else []
    case Outbound(_, poll) =>
      if n.machine.phase.Busy? then
        if poll == StillPending then []
        else if poll != SendDone then [T.AckDropped]
        else if BusyWithChunk(n, k) then [T.Acknowledged] else []
      else if n.machine.phase.Idle? && n.machine.queue != [] && !up then
        [T.Lost(0, |UpOf(n.machine.queue[0], k)|, n.machine.queue[0].FileChunk? && n.machine.queue[0].localSendId == k)]
      else []
    case Deliver(_) =>
      if n.wire == [] || UpOf(n.wire[0], k) == [] then []
      else [T.Delivered(n.wire[0].FileChunk? && |n.wire| == 1 && n.flight == OnWire)]
    case Lose(_, from, to) => if from <= to <= |n.wire| then LossEvents(n, from, to, k) else []
    case Sever => LossEvents(n, 0, |n.wire|, k)
    case Close(_) =>
      [T.SendForgotten, T.Lost(0, |Ups(n.machine.queue, k)|, false), T.LostDown(0, |DownsIn(n.pendingOut, k)|)]
    case _ => []
  }

  function LossEvents(n: Node, from: nat, to: nat, k: nat): seq<T.Event>
    requires from <= to <= |n.wire|
  {
    [T.Lost(|Ups(n.wire[..from], k)|, |Ups(n.wire[..from], k)| + |Ups(n.wire[from..to], k)|,
            n.flight == OnWire && from < to == |n.wire| && BusyWithChunk(n, k))]
  }

  ghost function ReceiverEvents(n: Node, act: Act, k: nat, up: bool, d: nat): seq<T.Event> {
    match act
    case Request(_, Accept(l, _)) => if BlobState.IsOffer(n.behaviour, l, k) then [T.Accepted] else []
    case Request(_, StopRecv(l)) =>
      (match BlobState.FindRecvRecord(n.behaviour, l)
       case Some(found) => if found.remoteSendId == k then [T.RecvCancelled] else []
       case None => [])
    case HandOver(_) =>
      if n.alive || n.behaviour.handlerEvents == [] then []
      else [T.LostDown(d, d + |DownOf(n.behaviour.handlerEvents[0].event, k)|)]
    case TakeEvent(_, world) =>
      if n.pendingOut == [] || UpIn(n.pendingOut[0], k) == [] then []
          else [T.Received(WrittenOf(n.pendingOut[0], world))]
    case Outbound(_, poll) =>
      if n.machine.phase.Idle? && n.machine.queue != [] && !up then
        [T.LostDown(d, d + |DownOf(n.machine.queue[0], k)|)]
      else []
    case Lose(_, from, to) => if from <= to <= |n.wire| then DownLossEvents(n, from, to, k, d) else []
    case Sever => DownLossEvents(n, 0, |n.wire|, k, d)
    case Close(_) => [T.RecvForgotten, T.LostDown(d, d + |Downs(n.machine.queue, k)|)]
    case _ => []
  }

  function DownLossEvents(n: Node, from: nat, to: nat, k: nat, d: nat): seq<T.Event>
    requires from <= to <= |n.wire|
  {
    [T.LostDown(d + |Downs(n.wire[..from], k)|, d + |Downs(n.wire[..from], k)| + |Downs(n.wire[from..to], k)|)]
  }

  /** The steps that transfer `k` of side `p` makes when the system makes `act`. */
  ghost function StepsOf(s: System, act: Act, p: Side, k: nat): seq<T.Event> {
    var n, m := s.At(p), s.At(Other(p));
    if act.Connect? then []
    else if act.Sever? then SenderEvents(n, act, k, s.up) + ReceiverEvents(m, act, k, s.up, |DownsIn(n.pendingOut, k)|)
    else if act.side == p then SenderEvents(n, act, k, s.up)
    else ReceiverEvents(m, act, k, s.up, |DownsIn(n.pendingOut, k)|)
  }

  /** `t'` is where the steps lead from `t`. */
  ghost predicate Follows(t: T.Transfer, steps: seq<T.Event>, t': T.Transfer)
    decreases |steps|
  {
    if steps == [] then t == t'
    else T.Enabled(t, steps[0]) && Follows(T.Step(t, steps[0]), steps[1..], t')
  }

  lemma FollowsNone(t: T.Transfer)
    ensures Follows(t, [], t)
  {
  }

  lemma FollowsOne(t: T.Transfer, e: T.Event, t': T.Transfer)
    requires T.Enabled(t, e) && T.Step(t, e) == t'
    ensures Follows(t, [e], t')
  {
  }
}

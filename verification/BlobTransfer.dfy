/** One file transfer between two peers, seen from outside: the sender's and the receiver's phase and
    the messages about it that are on their way. TwoPeers shows that every transfer of the full system
    moves like this. */
module BlobTransfer {
  import opened Basics
  import opened BlobMessages
  import opened BlobState

  datatype Up = Offer(total: nat) | Chunk(bytes: Bytes) | Withdraw

  datatype Down = Agree | Refuse

  datatype Sender = Unborn | Offering | Sending(sent: nat) | Over

  datatype Receiver = Unaware | Deciding(total: nat) | Receiving(total: nat) | Done

  /** `transit` is what has not reached the receiving handler, `inbox` what that handler holds for its
      behaviour, head first. `acked` counts the chunk whose acknowledgement the sending handler has not
      taken, `credits` the progress events it holds for its behaviour, `stalled` the chunk it still waits
      for although it was lost. `data` is the receiver's file. */
  datatype Transfer = Transfer(
    file: Bytes, total: nat,
    sender: Sender, transit: seq<Up>, acked: nat, credits: nat, stalled: nat,
    inbox: seq<Up>, receiver: Receiver, data: Bytes, down: seq<Down>)

  datatype Event =
    | Offered(file: Bytes, total: nat)
    | SendCancelled
    | SendForgotten
    | Accepted
    | RecvCancelled
    | RecvForgotten
    | Delivered(current: bool)
    | Acknowledged
    | AckDropped
    | CreditUsed(read: Option<nat>)
    | Lost(from: nat, to: nat, current: bool)
    | LostDown(from: nat, to: nat)
    | Received(written: Written)
    | Answered(read: Option<nat>)

  // ---------------------------------------------------------------- steps

  predicate Live(s: Sender) { s.Offering? || s.Sending? }

  predicate Held(r: Receiver) { r.Deciding? || r.Receiving? }

  function Progress(t: Transfer, read: Option<nat>): Transfer {
    if !t.sender.Sending? then t
    else if read.None? then t.(sender := Over)
    else
      var sent := t.sender.sent;
      var n := ReadCount(t.file, sent, read.value);
      if n == 0 then t.(sender := Over, transit := t.transit + [Chunk([])])
      else t.(sender := Sending(sent + n), transit := t.transit + [Chunk(t.file[sent..sent + n])])
  }

  ghost predicate Enabled(t: Transfer, e: Event) {
    match e
    case Offered(_, _) => t.sender.Unborn?
    case SendCancelled => Live(t.sender)
    case SendForgotten => true
    case Accepted => t.receiver.Deciding?
    case RecvCancelled => Held(t.receiver)
    case RecvForgotten => true
    case Delivered(current) => t.transit != [] && (current ==> t.transit[0].Chunk?)
    case Acknowledged => t.acked > 0
    case AckDropped => true
    case CreditUsed(_) => t.credits > 0
    case Lost(from, to, current) => from <= to <= |t.transit| && (current ==> Chunks(t.transit[from..to]) > 0)
    case LostDown(from, to) => from <= to <= |t.down|
    case Received(w) =>
      && t.inbox != []
      && (t.inbox[0].Chunk? ==> w.count <= |t.inbox[0].bytes| && (w.failed || w.count == |t.inbox[0].bytes|))
    case Answered(_) => t.down != []
  }

  function Step(t: Transfer, e: Event): Transfer
    requires Enabled(t, e)
  {
    match e
    case Offered(file, total) => t.(file := file, total := total, sender := Offering,
        transit := t.transit + [Offer(total)])
    case SendCancelled => t.(sender := Over, transit := t.transit + [Withdraw])
    case SendForgotten => t.(sender := if Live(t.sender) then Over else t.sender, acked := 0, credits := 0,
        stalled := 0)
    case Accepted => t.(receiver := Receiving(t.receiver.total), data := [], down := t.down + [Agree])
    case RecvCancelled => t.(receiver := Done, down := t.down + [Refuse])
    case RecvForgotten => t.(receiver := if Held(t.receiver) then Done else t.receiver, inbox := [])
    case Delivered(current) =>
      t.(transit := t.transit[1..], inbox := t.inbox + [t.transit[0]], acked := t.acked + if current then 1 else 0)
    case Acknowledged => t.(acked := t.acked - 1, credits := t.credits + 1)
    case AckDropped => t.(acked := 0, stalled := 0)
    case CreditUsed(read) => Progress(t.(credits := t.credits - 1), read)
    case Lost(from, to, current) =>
      t.(transit := t.transit[..from] + t.transit[to..], stalled := t.stalled + if current then 1 else 0)
    case LostDown(from, to) => t.(down := t.down[..from] + t.down[to..])
    case Received(w) => Receive(t, w)
    case Answered(read) => Answer(t, read)
  }

  function Receive(t: Transfer, w: Written): Transfer
    requires Enabled(t, Received(w))
  {
    var rest := t.(inbox := t.inbox[1..]);
    match t.inbox[0]
    case Offer(total) => if t.receiver.Unaware? then rest.(receiver := Deciding(total)) else rest
    case Withdraw => if Held(t.receiver) then rest.(receiver := Done) else rest
    case Chunk(bytes) =>
      if !t.receiver.Receiving? then rest
      else if bytes == [] then rest.(receiver := Done)
      else rest.(data := t.data + bytes[..w.count], receiver := if w.failed then Done else t.receiver)
  }

  function Answer(t: Transfer, read: Option<nat>): Transfer
    requires t.down != []
  {
    var rest := t.(down := t.down[1..]);
    if t.down[0].Agree? then if t.sender.Offering? then Progress(rest.(sender := Sending(0)), read) else rest
    else if Live(t.sender) then rest.(sender := Over) else rest
  }

  // ---------------------------------------------------------------- what a queue holds

  function Chunks(q: seq<Up>): nat { if q == [] then 0 else (if q[0].Chunk? then 1 else 0) + Chunks(q[1..]) }

  function Content(q: seq<Up>): Bytes {
    if q == [] then [] else (if q[0].Chunk? then q[0].bytes else []) + Content(q[1..])
  }

  function Offers(q: seq<Up>): nat { if q == [] then 0 else (if q[0].Offer? then 1 else 0) + Offers(q[1..]) }

  predicate HasEof(q: seq<Up>) { q != [] && (q[0] == Chunk([]) || HasEof(q[1..])) }

  /** No chunk follows an empty one. */
  predicate EofLast(q: seq<Up>) { q == [] || ((q[0] == Chunk([]) ==> Chunks(q[1..]) == 0) && EofLast(q[1..])) }

  ghost predicate OffersTotal(q: seq<Up>, total: nat) { forall m :: m in q && m.Offer? ==> m.total == total }

  function Accepts(d: seq<Down>): nat { if d == [] then 0 else (if d[0].Agree? then 1 else 0) + Accepts(d[1..]) }

  lemma HeadOf(q: seq<Up>)
    requires q != []
    ensures Chunks(q) == (if q[0].Chunk? then 1 else 0) + Chunks(q[1..])
    ensures Content(q) == (if q[0].Chunk? then q[0].bytes else []) + Content(q[1..])
    ensures Offers(q) == (if q[0].Offer? then 1 else 0) + Offers(q[1..])
    ensures HasEof(q) <==> q[0] == Chunk([]) || HasEof(q[1..])
    ensures EofLast(q) <==> (q[0] == Chunk([]) ==> Chunks(q[1..]) == 0) && EofLast(q[1..])
  {
  }

  lemma {:induction false} UpAppend(a: seq<Up>, b: seq<Up>)
    ensures Chunks(a + b) == Chunks(a) + Chunks(b)
    ensures Content(a + b) == Content(a) + Content(b)
    ensures Offers(a + b) == Offers(a) + Offers(b)
    ensures HasEof(a + b) <==> HasEof(a) || HasEof(b)
    ensures EofLast(a + b) <==> EofLast(a) && EofLast(b) && (HasEof(a) ==> Chunks(b) == 0)
  {
    if a == [] {
      assert a + b == b;
    } else {
      hide Chunks, Content, Offers, HasEof, EofLast;
      assert (a + b)[1..] == a[1..] + b;
      HeadOf(a);
      HeadOf(a + b);
      UpAppend(a[1..], b);
      Regroup(if a[0].Chunk? then a[0].bytes else [], Content(a[1..]), Content(b));
    }
  }

  lemma {:induction false} DownAppend(a: seq<Down>, b: seq<Down>)
    ensures Accepts(a + b) == Accepts(a) + Accepts(b)
  {
    if a == [] {
      assert a + b == b;
    } else {
      assert (a + b)[1..] == a[1..] + b;
      DownAppend(a[1..], b);
    }
  }

  lemma {:induction false} NoChunksNoContent(q: seq<Up>)
    ensures Chunks(q) == 0 ==> Content(q) == [] && !HasEof(q) && EofLast(q)
    ensures HasEof(q) ==> Chunks(q) >= 1
    ensures Chunks(q) <= 1 ==> EofLast(q)
  {
    if q != [] { NoChunksNoContent(q[1..]); }
  }

  // ---------------------------------------------------------------- the invariant

  function Token(t: Transfer): nat { Chunks(t.transit) + t.acked + t.credits }

  function Expectation(t: Transfer): Bytes { t.data + Content(t.inbox) + Content(t.transit) }

  /** Nothing of the file has left the sender. */
  ghost predicate Untouched(t: Transfer) {
    t.data == [] && Chunks(t.inbox) == Chunks(t.transit) == t.acked == t.credits == t.stalled == 0
  }

  ghost predicate PhasesAgree(t: Transfer) {
    && (t.sender.Unborn? ==> Untouched(t) && t.inbox == t.transit == [] && t.down == [] && t.receiver.Unaware?)
    && (t.sender.Offering? ==> Untouched(t))
    && (t.receiver.Unaware? || t.receiver.Deciding? ==> Untouched(t) && !t.sender.Sending? && t.down == [])
    && (t.sender.Sending? ==> 1 <= t.sender.sent <= |t.file| && Accepts(t.down) == 0)
    && Accepts(t.down) <= 1
    && (Refuse in t.down ==> t.receiver.Done?)
  }

  ghost predicate OfferedOnce(t: Transfer) {
    && Offers(t.inbox) + Offers(t.transit) <= 1
    && (Offers(t.inbox) + Offers(t.transit) > 0 ==> t.receiver.Unaware?)
    && OffersTotal(t.inbox, t.total) && OffersTotal(t.transit, t.total)
    && (Held(t.receiver) ==> t.receiver.total == t.total)
  }

  /** Stop and wait: at most one chunk is unacknowledged or about to be followed by the next one. */
  ghost predicate OneToken(t: Transfer) { Token(t) + t.stalled <= 1 }

  /** What was written is a prefix of the file, and so it stays when everything under way arrives. While
      the token is alive nothing is missing. */
  ghost predicate Prefixes(t: Transfer)
    requires t.sender.Sending? ==> t.sender.sent <= |t.file|
  {
    && t.data <= t.file
    && (t.receiver.Receiving? ==>
          && Expectation(t) <= t.file
          && (t.sender.Sending? && Token(t) == 1 ==> Expectation(t) == t.file[..t.sender.sent]))
  }

  /** The empty chunk comes last and only when the whole file is there or under way. */
  ghost predicate EofIsEnd(t: Transfer) {
    && EofLast(t.inbox) && EofLast(t.transit) && (HasEof(t.inbox) ==> Chunks(t.transit) == 0)
    && (HasEof(t.inbox) || HasEof(t.transit) ==> t.sender.Over? && (t.receiver.Receiving? ==> Expectation(t) == t.file))
  }

  ghost predicate Safe(t: Transfer) {
    PhasesAgree(t) && OfferedOnce(t) && OneToken(t) && Prefixes(t) && EofIsEnd(t)
  }

  function Start(): Transfer {
    Transfer([], 0, Unborn, [], 0, 0, 0, [], Unaware, [], [])
  }

  lemma AppendOne(q: seq<Up>, m: Up)
    ensures var q' := q + [m];
            && Chunks(q') == Chunks(q) + (if m.Chunk? then 1 else 0)
            && Content(q') == Content(q) + (if m.Chunk? then m.bytes else [])
            && Offers(q') == Offers(q) + (if m.Offer? then 1 else 0)
            && (HasEof(q') <==> HasEof(q) || m == Chunk([]))
            && (EofLast(q') <==> EofLast(q) && (HasEof(q) ==> !m.Chunk?))
  {
    UpAppend(q, [m]);
    assert Content([m]) == if m.Chunk? then m.bytes else [];
    assert HasEof([m]) <==> m == Chunk([]);
  }

  /** The sender's turn: the token is free and the receiver, if it still listens, misses nothing. */
  ghost predicate MayProgress(t: Transfer) {
    && t.sender.Sending? && t.sender.sent <= |t.file|
    && Token(t) == 0 && t.stalled == 0 && Accepts(t.down) == 0
    && (t.receiver.Receiving? || t.receiver.Done?)
    && (t.receiver.Receiving? ==> Expectation(t) == t.file[..t.sender.sent])
    && !HasEof(t.inbox) && !HasEof(t.transit)
    && Safe(t.(sender := Over))
  }

  lemma ProgressIsSafe(t: Transfer, read: Option<nat>)
    requires MayProgress(t)
    ensures Safe(Progress(t, read))
  {
    hide Chunks, Content, Offers, HasEof, EofLast;
    if read.Some? {
      var sent := t.sender.sent;
      var n := ReadCount(t.file, sent, read.value);
      var bytes := if n == 0 then [] else t.file[sent..sent + n];
      AppendOne(t.transit, Chunk(bytes));
      NoChunksNoContent(t.transit);
      var t' := Progress(t, read);
      assert t'.transit == t.transit + [Chunk(bytes)];
      assert t.file[..sent] + bytes == t.file[..sent + n];
      assert Expectation(t') == t.data + Content(t.inbox) + bytes;
      assert Expectation(t) == t.data + Content(t.inbox);
    }
  }

  lemma AnswerIsSafe(t: Transfer, read: Option<nat>)
    requires Safe(t) && t.down != []
    ensures Safe(Answer(t, read))
  {
    var rest := t.(down := t.down[1..]);
    if t.down[0].Agree? && t.sender.Offering? {
      NoChunksNoContent(t.inbox);
      NoChunksNoContent(t.transit);
      assert Expectation(rest) == [];
      assert MayProgress(rest.(sender := Sending(0)));
      ProgressIsSafe(rest.(sender := Sending(0)), read);
    }
  }

  lemma CreditIsSafe(t: Transfer, read: Option<nat>)
    requires Safe(t) && t.credits > 0
    ensures Safe(Step(t, CreditUsed(read)))
  {
    var rest := t.(credits := t.credits - 1);
    assert Expectation(rest) == Expectation(t);
    NoChunksNoContent(t.transit);
    if t.sender.Sending? {
      assert MayProgress(rest);
      ProgressIsSafe(rest, read);
    }
  }

  lemma ReceiveKeepsPhases(t: Transfer, w: Written)
    requires Safe(t) && Enabled(t, Received(w))
    ensures PhasesAgree(Receive(t, w)) && OfferedOnce(Receive(t, w)) && OneToken(Receive(t, w))
  {
  }

  lemma ChunkKeepsContent(t: Transfer, w: Written)
    requires Safe(t) && Enabled(t, Received(w)) && t.inbox[0].Chunk?
    requires PhasesAgree(Receive(t, w))
    ensures Prefixes(Receive(t, w)) && EofIsEnd(Receive(t, w))
  {
    hide OfferedOnce, OneToken, Chunks, Content, Offers, HasEof, EofLast;
    var c, rest := t.inbox[0].bytes, t.inbox[1..];
    HeadOf(t.inbox);
    NoChunksNoContent(rest);
    NoChunksNoContent(t.transit);
    if t.receiver.Receiving? {
      assert Expectation(t) == t.data + c + Content(rest) + Content(t.transit);
      assert t.data + c[..w.count] <= t.data + c <= Expectation(t);
      if !w.failed && c != [] {
        assert c[..w.count] == c;
        assert Expectation(Receive(t, w)) == Expectation(t);
      }
    }
  }

  lemma ControlKeepsContent(t: Transfer, w: Written)
    requires Safe(t) && Enabled(t, Received(w)) && !t.inbox[0].Chunk?
    requires PhasesAgree(Receive(t, w))
    ensures Prefixes(Receive(t, w)) && EofIsEnd(Receive(t, w))
  {
  }

  lemma ReceiveIsSafe(t: Transfer, w: Written)
    requires Safe(t) && Enabled(t, Received(w))
    ensures Safe(Receive(t, w))
  {
    ReceiveKeepsPhases(t, w);
    hide PhasesAgree, OfferedOnce, OneToken, Prefixes, EofIsEnd, Receive;
    if t.inbox[0].Chunk? { ChunkKeepsContent(t, w); } else { ControlKeepsContent(t, w); }
  }

  /** A message that moves from the head of one queue to the end of the other. */
  lemma MoveHead(transit: seq<Up>, inbox: seq<Up>)
    requires transit != []
    ensures var m, rest, inbox' := transit[0], transit[1..], inbox + [transit[0]];
            && Chunks(transit) == Chunks(rest) + (if m.Chunk? then 1 else 0)
            && Chunks(inbox') == Chunks(inbox) + (if m.Chunk? then 1 else 0)
            && Content(inbox') + Content(rest) == Content(inbox) + Content(transit)
            && Offers(inbox') + Offers(rest) == Offers(inbox) + Offers(transit)
            && (HasEof(inbox') || HasEof(rest) <==> HasEof(inbox) || HasEof(transit))
            && (EofLast(transit) ==> EofLast(rest) && (m == Chunk([]) ==> Chunks(rest) == 0))
            && (EofLast(inbox') <==> EofLast(inbox) && (HasEof(inbox) ==> !m.Chunk?))
            && (HasEof(inbox') <==> HasEof(inbox) || m == Chunk([]))
  {
    hide Chunks, Content, Offers, HasEof, EofLast;
    AppendOne(inbox, transit[0]);
    HeadOf(transit);
    Regroup(Content(inbox), if transit[0].Chunk? then transit[0].bytes else [], Content(transit[1..]));
  }

  lemma DeliveryIsSafe(t: Transfer, current: bool)
    requires Safe(t) && Enabled(t, Delivered(current))
    ensures Safe(Step(t, Delivered(current)))
  {
    MoveHead(t.transit, t.inbox);
    var t' := Step(t, Delivered(current));
    SafeDelivered(t, t', current);
  }

  lemma SafeDelivered(t: Transfer, t': Transfer, current: bool)
    requires Safe(t) && t.transit != []
    requires t' == t.(transit := t'.transit, inbox := t'.inbox, acked := t'.acked)
    requires t'.acked == t.acked + if current then 1 else 0
    requires Chunks(t.transit) - Chunks(t'.transit) == Chunks(t'.inbox) - Chunks(t.inbox)
    requires Chunks(t'.transit) + (if current then 1 else 0) <= Chunks(t.transit)
    requires Content(t'.inbox) + Content(t'.transit) == Content(t.inbox) + Content(t.transit)
    requires Offers(t'.inbox) + Offers(t'.transit) == Offers(t.inbox) + Offers(t.transit)
    requires OffersTotal(t'.inbox, t.total) && OffersTotal(t'.transit, t.total)
    requires HasEof(t'.inbox) || HasEof(t'.transit) <==> HasEof(t.inbox) || HasEof(t.transit)
    requires EofLast(t'.inbox) && EofLast(t'.transit) && (HasEof(t'.inbox) ==> Chunks(t'.transit) == 0)
    ensures Safe(t')
  {
    hide Chunks, Content, Offers, HasEof, EofLast;
    assert t.data + (Content(t.inbox) + Content(t.transit)) == Expectation(t);
    assert t'.data + (Content(t'.inbox) + Content(t'.transit)) == Expectation(t');
  }

  /** What is left of a queue with at most one chunk when its middle is cut out. */
  lemma CutMiddle(a: seq<Up>, b: seq<Up>, c: seq<Up>)
    requires Chunks(a + (b + c)) <= 1
    ensures var q, q' := a + (b + c), a + c;
            && Offers(q') <= Offers(q) && EofLast(q') && (HasEof(q') ==> HasEof(q))
            && (if Chunks(b) == 0 then Chunks(q') == Chunks(q) && Content(q') == Content(q)
                else Chunks(q) == 1 && Chunks(q') == 0 && Content(q') == [] && !HasEof(q'))
  {
    hide Chunks, Content, Offers, HasEof, EofLast;
    UpAppend(b, c);
    UpAppend(a, b + c);
    UpAppend(a, c);
    NoChunksNoContent(a);
    NoChunksNoContent(b);
    NoChunksNoContent(c);
  }

  lemma CutQueue(q: seq<Up>, from: nat, to: nat)
    requires from <= to <= |q| && Chunks(q) <= 1
    ensures var q' := q[..from] + q[to..];
            && Offers(q') <= Offers(q) && EofLast(q') && (HasEof(q') ==> HasEof(q))
            && (if Chunks(q[from..to]) == 0 then Chunks(q') == Chunks(q) && Content(q') == Content(q)
                else Chunks(q) == 1 && Chunks(q') == 0 && Content(q') == [] && !HasEof(q'))
  {
    hide Chunks, Content, Offers, HasEof, EofLast;
    assert q == q[..from] + (q[from..to] + q[to..]);
    CutMiddle(q[..from], q[from..to], q[to..]);
  }

  lemma LossKeepsPhases(t: Transfer, from: nat, to: nat, current: bool)
    requires Safe(t) && Enabled(t, Lost(from, to, current))
    ensures var t' := Step(t, Lost(from, to, current)); PhasesAgree(t') && OfferedOnce(t') && OneToken(t')
  {
    hide Chunks, Content, Offers, HasEof, EofLast, Prefixes, EofIsEnd, Progress, Receive, Answer;
    CutQueue(t.transit, from, to);
  }

  lemma LossKeepsContent(t: Transfer, from: nat, to: nat, current: bool)
    requires Safe(t) && Enabled(t, Lost(from, to, current)) && PhasesAgree(Step(t, Lost(from, to, current)))
    ensures var t' := Step(t, Lost(from, to, current)); Prefixes(t') && EofIsEnd(t')
  {
    hide Chunks, Content, Offers, HasEof, EofLast, OfferedOnce, Progress, Receive, Answer;
    CutQueue(t.transit, from, to);
    NoChunksNoContent(t.transit);
    assert t.data + Content(t.inbox) <= Expectation(t);
  }

  lemma LossIsSafe(t: Transfer, from: nat, to: nat, current: bool)
    requires Safe(t) && Enabled(t, Lost(from, to, current))
    ensures Safe(Step(t, Lost(from, to, current)))
  {
    LossKeepsPhases(t, from, to, current);
    LossKeepsContent(t, from, to, current);
  }

  lemma LossDownIsSafe(t: Transfer, from: nat, to: nat)
    requires Safe(t) && Enabled(t, LostDown(from, to))
    ensures Safe(Step(t, LostDown(from, to)))
  {
    var a, b, c := t.down[..from], t.down[from..to], t.down[to..];
    assert t.down == a + (b + c);
    DownAppend(b, c);
    DownAppend(a, b + c);
    DownAppend(a, c);
  }

  lemma PlainStepIsSafe(t: Transfer, e: Event)
    requires Safe(t) && Enabled(t, e)
    requires e.Offered? || e.SendCancelled? || e.Accepted? || e.RecvCancelled?
    ensures Safe(Step(t, e))
  {
    if e.Offered? { AppendOne(t.transit, Offer(e.total)); }
    else if e.SendCancelled? { AppendOne(t.transit, Withdraw); }
    else if e.Accepted? {
      DownAppend(t.down, [Agree]);
      NoChunksNoContent(t.inbox);
      NoChunksNoContent(t.transit);
    } else { DownAppend(t.down, [Refuse]); }
  }

  lemma ForgettingIsSafe(t: Transfer, e: Event)
    requires Safe(t) && Enabled(t, e) && (e.SendForgotten? || e.RecvForgotten? || e.Acknowledged? || e.AckDropped?)
    ensures Safe(Step(t, e))
  {
    NoChunksNoContent(t.inbox);
  }

  lemma StepIsSafe(t: Transfer, e: Event)
    requires Safe(t) && Enabled(t, e)
    ensures Safe(Step(t, e))
  {
    hide Safe, Progress;
    if e.Delivered? { DeliveryIsSafe(t, e.current); }
    else if e.CreditUsed? { CreditIsSafe(t, e.read); }
    else if e.Lost? { LossIsSafe(t, e.from, e.to, e.current); }
    else if e.LostDown? { LossDownIsSafe(t, e.from, e.to); }
    else if e.Received? { ReceiveIsSafe(t, e.written); }
    else if e.Answered? { AnswerIsSafe(t, e.read); }
    else if e.Offered? || e.SendCancelled? || e.Accepted? || e.RecvCancelled? { PlainStepIsSafe(t, e); }
    else { ForgettingIsSafe(t, e); }
  }
}

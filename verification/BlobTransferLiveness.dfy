/** What a transfer keeps when nothing is lost, and when nobody interferes. */
module BlobTransferLiveness {
  import opened Basics
  import opened BlobState
  import opened BlobTransfer

  // ---------------------------------------------------------------- reliable delivery

  /** No message, acknowledgement or connection is lost and the file can be read. Cancelling from both
      ends, expiry and failed writes remain possible. */
  ghost predicate Reliable(t: Transfer, e: Event)
    requires Enabled(t, e)
  {
    match e
    case Lost(_, _, _) => false
    case LostDown(_, _) => false
    case AckDropped => false
    case SendForgotten => false
    case RecvForgotten => false
    case CreditUsed(read) => read.Some?
    case Answered(read) => read.Some?
    case Delivered(current) => t.transit[0].Chunk? ==> current
    case _ => true
  }

  predicate NoOffer(q: seq<Up>) { Offers(q) == 0 }

  ghost predicate Withdrawn(t: Transfer) { Withdraw in t.inbox || Withdraw in t.transit }

  ghost predicate Ending(t: Transfer) { Withdrawn(t) || HasEof(t.inbox) || HasEof(t.transit) }

  ghost predicate OfferUnderWay(t: Transfer) { Offers(t.inbox) + Offers(t.transit) > 0 }

  /** Whatever a peer still waits for is under way. */
  ghost predicate Pledged(t: Transfer) {
    && (t.sender.Sending? ==> Token(t) == 1)
    && (t.receiver.Receiving? ==>
          (t.sender.Offering? && Agree in t.down) || t.sender.Sending? || (t.sender.Over? && Ending(t)))
    && (t.sender.Offering? ==> OfferUnderWay(t) || t.receiver.Deciding? || Agree in t.down || Refuse in t.down)
    && (t.receiver.Deciding? || OfferUnderWay(t) ==> t.sender.Offering? || (t.sender.Over? && Withdrawn(t)))
    && (Withdrawn(t) ==> t.sender.Over?)
    && NoOfferBehind(t)
  }

  /** An offer is the first message about its transfer. */
  ghost predicate NoOfferBehind(t: Transfer) {
    && (t.inbox != [] ==> NoOffer(t.inbox[1..]) && NoOffer(t.transit))
    && (t.transit != [] ==> NoOffer(t.transit[1..]))
  }

  lemma {:induction false} NoAgreement(d: seq<Down>)
    ensures Agree in d <==> Accepts(d) > 0
  {
    if d != [] {
      assert d == [d[0]] + d[1..];
      NoAgreement(d[1..]);
    }
  }

  lemma AppendedBehind(q: seq<Up>, m: Up)
    requires !m.Offer? || q == []
    ensures q != [] && NoOffer(q[1..]) ==> NoOffer((q + [m])[1..])
    ensures q == [] ==> NoOffer((q + [m])[1..])
    ensures !m.Offer? ==> (NoOffer(q) <==> NoOffer(q + [m]))
  {
    AppendOne(q, m);
    if q != [] {
      assert (q + [m])[1..] == q[1..] + [m];
      AppendOne(q[1..], m);
    } else {
      assert (q + [m])[1..] == [];
    }
  }

  lemma ProgressIsPledged(t: Transfer, read: Option<nat>)
    requires t.sender.Sending? && read.Some? && Token(t) == 0 && !OfferUnderWay(t) && NoOfferBehind(t)
    requires t.receiver.Receiving? || t.receiver.Done?
    requires !Withdrawn(t)
    ensures Pledged(Progress(t, read))
  {
    var t' := Progress(t, read);
    var m := t'.transit[|t.transit|];
    assert t'.transit == t.transit + [m];
    AppendOne(t.transit, m);
    AppendedBehind(t.transit, m);
  }

  lemma AnswerIsPledged(t: Transfer, read: Option<nat>)
    requires Safe(t) && Pledged(t) && t.down != [] && read.Some?
    ensures Pledged(Answer(t, read))
  {
    NoAgreement(t.down[1..]);
    assert t.down == [t.down[0]] + t.down[1..];
    var rest := t.(down := t.down[1..]);
    if t.down[0].Agree? && t.sender.Offering? {
      ProgressIsPledged(rest.(sender := Sending(0)), read);
    }
  }

  lemma CreditIsPledged(t: Transfer, read: Option<nat>)
    requires Safe(t) && Pledged(t) && t.credits > 0 && read.Some?
    ensures Pledged(Step(t, CreditUsed(read)))
  {
    if t.sender.Sending? {
      ProgressIsPledged(t.(credits := t.credits - 1), read);
    }
  }

  lemma ReceiveIsPledged(t: Transfer, w: Written)
    requires Safe(t) && Pledged(t) && Enabled(t, Received(w))
    ensures Pledged(Receive(t, w))
  {
  }

  lemma DeliveryIsPledged(t: Transfer, current: bool)
    requires Safe(t) && Pledged(t) && Enabled(t, Delivered(current)) && Reliable(t, Delivered(current))
    ensures Pledged(Step(t, Delivered(current)))
  {
    MoveHead(t.transit, t.inbox);
    var t' := Step(t, Delivered(current));
    assert t.transit == [t.transit[0]] + t.transit[1..];
    if t'.transit != [] { assert NoOffer(t'.transit[1..]); }
    AppendedBehind(t.inbox, t.transit[0]);
  }

  lemma PlainStepIsPledged(t: Transfer, e: Event)
    requires Safe(t) && Pledged(t) && Enabled(t, e)
    requires e.Offered? || e.SendCancelled? || e.Accepted? || e.RecvCancelled?
    ensures Pledged(Step(t, e))
  {
    if e.Offered? { AppendOne(t.transit, Offer(e.total)); AppendedBehind(t.transit, Offer(e.total)); }
    else if e.SendCancelled? {
      AppendOne(t.transit, Withdraw);
      AppendedBehind(t.transit, Withdraw);
      assert Withdraw in Step(t, e).transit;
    } else if e.Accepted? { assert Agree in Step(t, e).down; }
    else { assert Refuse in Step(t, e).down; }
  }

  lemma StepIsPledged(t: Transfer, e: Event)
    requires Safe(t) && Pledged(t) && Enabled(t, e) && Reliable(t, e)
    ensures Pledged(Step(t, e))
  {
    if e.Delivered? { DeliveryIsPledged(t, e.current); }
    else if e.CreditUsed? { CreditIsPledged(t, e.read); }
    else if e.Received? { ReceiveIsPledged(t, e.written); }
    else if e.Answered? { AnswerIsPledged(t, e.read); }
    else if e.Offered? || e.SendCancelled? || e.Accepted? || e.RecvCancelled? { PlainStepIsPledged(t, e); }
    else { assert e.Acknowledged?; }
  }

  /** Nothing about the transfer is queued or on its way. */
  ghost predicate Quiet(t: Transfer) {
    t.inbox == [] && t.transit == [] && t.down == [] && t.acked == 0 && t.credits == 0
  }

  /** A transfer that nothing is under way for is ongoing on neither side, and one side still waits for
      the answer to an offer exactly when the other still has it to decide. */
  lemma QuietIsSettled(t: Transfer)
    requires Pledged(t) && Quiet(t)
    ensures !t.sender.Sending? && !t.receiver.Receiving? && (t.sender.Offering? <==> t.receiver.Deciding?)
  {
  }

  // ---------------------------------------------------------------- no interference

  /** Nobody cancels, nothing expires, no peer disconnects and no write fails. */
  ghost predicate Undisturbed(e: Event) {
    && !e.SendCancelled? && !e.RecvCancelled? && !e.SendForgotten? && !e.RecvForgotten?
    && (e.Received? ==> !e.written.failed)
  }

  ghost predicate ChunksExpected(t: Transfer) {
    && (t.sender.Sending? || Chunks(t.inbox) + Chunks(t.transit) > 0 ==> t.receiver.Receiving?)
    && (t.sender.Offering? && Accepts(t.down) > 0 ==> t.receiver.Receiving?)
    && Refuse !in t.down && !Withdrawn(t)
  }

  lemma StepIsExpected(t: Transfer, e: Event)
    requires Safe(t) && ChunksExpected(t) && Enabled(t, e) && Undisturbed(e)
    ensures ChunksExpected(Step(t, e))
  {
    hide Safe, ChunksExpected, Progress;
    if e.Offered? || e.Delivered? || e.Lost? { TransitIsExpected(t, e); }
    else if e.LostDown? || e.Accepted? { RepliesAreExpected(t, e); }
    else if e.Received? { ReceiveIsExpected(t, e.written); }
    else if e.CreditUsed? { CreditIsExpected(t, e.read); }
    else if e.Answered? { AnswerIsExpected(t, e.read); }
    else { AcknowledgedIsExpected(t, e); }
  }

  lemma TransitIsExpected(t: Transfer, e: Event)
    requires Safe(t) && ChunksExpected(t) && Enabled(t, e) && (e.Offered? || e.Delivered? || e.Lost?)
    ensures ChunksExpected(Step(t, e))
  {
    hide Progress, Prefixes, EofIsEnd, Chunks, Content, Offers, HasEof, EofLast;
    if e.Offered? { AppendOne(t.transit, Offer(e.total)); }
    else if e.Delivered? { MoveHead(t.transit, t.inbox); }
    else { CutQueue(t.transit, e.from, e.to); }
  }

  lemma RepliesAreExpected(t: Transfer, e: Event)
    requires Safe(t) && ChunksExpected(t) && Enabled(t, e) && (e.LostDown? || e.Accepted?)
    ensures ChunksExpected(Step(t, e))
  {
    hide Progress, Prefixes, EofIsEnd;
    if e.LostDown? {
      var a, b, c := t.down[..e.from], t.down[e.from..e.to], t.down[e.to..];
      assert t.down == a + (b + c);
      DownAppend(b, c);
      DownAppend(a, b + c);
      DownAppend(a, c);
    } else { DownAppend(t.down, [Agree]); }
  }

  lemma CreditIsExpected(t: Transfer, read: Option<nat>)
    requires ChunksExpected(t) && t.credits > 0
    ensures ChunksExpected(Step(t, CreditUsed(read)))
  {
    ProgressIsExpected(t.(credits := t.credits - 1), read);
  }

  lemma AcknowledgedIsExpected(t: Transfer, e: Event)
    requires ChunksExpected(t) && Enabled(t, e) && (e.Acknowledged? || e.AckDropped?)
    ensures ChunksExpected(Step(t, e))
  {
  }

  lemma ProgressIsExpected(t: Transfer, read: Option<nat>)
    requires ChunksExpected(t)
    ensures ChunksExpected(Progress(t, read))
  {
  }

  lemma AnswerIsExpected(t: Transfer, read: Option<nat>)
    requires Safe(t) && ChunksExpected(t) && t.down != []
    ensures ChunksExpected(Answer(t, read))
  {
  }

  lemma ReceiveIsExpected(t: Transfer, w: Written)
    requires Safe(t) && ChunksExpected(t) && Enabled(t, Received(w)) && !w.failed
    ensures ChunksExpected(Receive(t, w))
  {
  }

  /** A receive that is over has the whole file, and a send is over only once its receive has begun. */
  ghost predicate Fulfilled(t: Transfer) {
    (t.receiver.Done? ==> t.data == t.file) && (t.sender.Over? ==> t.receiver.Receiving? || t.receiver.Done?)
  }

  lemma StepIsFulfilled(t: Transfer, e: Event)
    requires Safe(t) && ChunksExpected(t) && Fulfilled(t) && Enabled(t, e) && Undisturbed(e)
    ensures Fulfilled(Step(t, e))
  {
    hide Content, Offers, EofLast;
    if e.Received? && t.inbox[0] == Chunk([]) && t.receiver.Receiving? { CompletionIsTruthful(t); }
  }

  // ---------------------------------------------------------------- consequences of safety

  /** An acceptance never meets a send that has already started. */
  lemma NoSecondAcceptance(t: Transfer)
    requires Safe(t) && t.down != [] && t.down[0].Agree?
    ensures !t.sender.Sending?
  {
  }

  /** When the final empty chunk meets a live record, the whole file has been written, so the totals
      match exactly when the announced length was the file's. */
  lemma CompletionIsTruthful(t: Transfer)
    requires Safe(t) && t.inbox != [] && t.inbox[0] == Chunk([]) && t.receiver.Receiving?
    ensures t.data == t.file
    ensures |t.data| == t.receiver.total <==> |t.file| == t.total
  {
    NoChunksNoContent(t.inbox[1..]);
    NoChunksNoContent(t.transit);
    assert Content(t.inbox) == [];
    assert Expectation(t) == t.data;
  }

  /** How much of the file is still to be read; it shrinks with every chunk but the last. */
  function Remaining(t: Transfer): int {
    if t.sender.Sending? then |t.file| - t.sender.sent else 0
  }

  lemma ProgressTerminates(t: Transfer, read: Option<nat>)
    requires Safe(t) && t.sender.Sending? && read.Some?
    ensures var t' := Progress(t, read);
            && |t'.transit| == |t.transit| + 1
            && var m := t'.transit[|t.transit|];
            && m.Chunk?
            && (m.bytes != [] ==> t'.sender.Sending? && 0 <= Remaining(t') < Remaining(t))
            && (m.bytes != [] ==> |m.bytes| == Remaining(t) - Remaining(t'))
            && (m.bytes == [] <==> t'.sender.Over?)
            && (m.bytes == [] <==> Remaining(t) == 0)
  {
  }
}

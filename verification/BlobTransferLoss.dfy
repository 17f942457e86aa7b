/** What becomes of a transfer whose chunk, or the acknowledgement of it, was lost. */
module BlobTransferLoss {
  import opened Basics
  import opened BlobState
  import opened BlobTransfer

  /** The sender has read `sent` bytes and nothing is left that would make it read on; the receiver is not
      told of an end, and what it has and is about to get is within `all`. */
  ghost predicate Stopped(t: Transfer, sent: nat, all: Bytes) {
    && (t.sender == Sending(sent) || t.sender.Over?)
    && Token(t) == 0 && !HasEof(t.inbox)
    && t.data <= all
    && (t.receiver.Receiving? ==> t.data + Content(t.inbox) <= all)
    && !t.receiver.Deciding? && !t.receiver.Unaware?
  }

  /** A sender that is under way without its token has stopped. */
  lemma StoppedWithoutToken(t: Transfer)
    requires Safe(t) && t.sender.Sending? && Token(t) == 0
    ensures Stopped(t, t.sender.sent, if t.receiver.Receiving? then t.data + Content(t.inbox) else t.data)
  {
  }

  /** Which steps take the token away: the loss of the chunk, its arrival after the sender gave up, or the
      end of the wait for an acknowledgement that was not taken. */
  ghost predicate TakesToken(t: Transfer, e: Event)
    requires Enabled(t, e)
  {
    match e
    case Lost(from, to, _) => Chunks(t.transit[from..to]) > 0
    case Delivered(current) => t.transit[0].Chunk? && !current
    case AckDropped => t.acked > 0
    case _ => false
  }

  lemma LossStops(t: Transfer, e: Event)
    requires Safe(t) && t.sender.Sending? && Enabled(t, e) && TakesToken(t, e)
    ensures var t' := Step(t, e); Safe(t') && t'.sender == t.sender && Token(t') == 0
  {
    hide Safe, Prefixes, EofIsEnd, OfferedOnce, PhasesAgree, Content, Offers, HasEof, EofLast, Progress, Receive,
        Answer, Chunks;
    StepIsSafe(t, e);
    TokenAtMostOne(t);
    if e.Lost? { CutQueue(t.transit, e.from, e.to); }
    else if e.Delivered? { MoveHead(t.transit, t.inbox); }
  }

  lemma TokenAtMostOne(t: Transfer)
    requires Safe(t)
    ensures Token(t) <= 1
  {
  }

  lemma StopLasts(t: Transfer, e: Event, sent: nat, all: Bytes)
    requires Safe(t) && Stopped(t, sent, all) && Enabled(t, e)
    ensures Stopped(Step(t, e), sent, all)
  {
    hide Progress, Prefixes, EofIsEnd, OfferedOnce;
    if e.SendCancelled? { AppendOne(t.transit, Withdraw); }
    else if e.Delivered? { DeliveryStaysStopped(t, e.current, sent, all); }
    else if e.Lost? { CutQueue(t.transit, e.from, e.to); }
    else if e.Received? { ReceiveStaysStopped(t, e.written, sent, all); }
  }

  lemma DeliveryStaysStopped(t: Transfer, current: bool, sent: nat, all: Bytes)
    requires Safe(t) && Stopped(t, sent, all) && Enabled(t, Delivered(current))
    ensures Stopped(Step(t, Delivered(current)), sent, all)
  {
    hide Chunks, Content, Offers, HasEof, EofLast, PhasesAgree, Prefixes, EofIsEnd, OfferedOnce;
    MoveHead(t.transit, t.inbox);
    AppendOne(t.inbox, t.transit[0]);
    assert Content(t.inbox) + [] == Content(t.inbox);
  }

  lemma ReceiveStaysStopped(t: Transfer, w: Written, sent: nat, all: Bytes)
    requires Safe(t) && Stopped(t, sent, all) && Enabled(t, Received(w))
    ensures Stopped(Receive(t, w), sent, all)
  {
    hide Chunks, Content, Offers, HasEof, EofLast, Prefixes, EofIsEnd, OfferedOnce;
    HeadOf(t.inbox);
    if t.inbox[0].Chunk? {
      var c, rest := t.inbox[0].bytes, Content(t.inbox[1..]);
      Regroup(t.data, c, rest);
      if t.receiver.Receiving? && c != [] {
        assert t.data + c[..w.count] <= t.data + c <= t.data + Content(t.inbox);
        if !w.failed { assert c[..w.count] == c; }
      }
    } else {
      assert [] + Content(t.inbox[1..]) == Content(t.inbox[1..]);
    }
  }
}

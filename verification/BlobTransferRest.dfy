/** What a transfer looks like between two connections, and what becomes of it on the next one. */
module BlobTransferRest {
  import opened Basics
  import opened BlobTransfer
  import opened BlobTransferLiveness

  // ---------------------------------------------------------------- an offer comes first

  lemma {:induction false} NoOfferMeans(q: seq<Up>)
    ensures NoOffer(q) <==> forall i :: 0 <= i < |q| ==> !q[i].Offer?
  {
    if q != [] {
      NoOfferMeans(q[1..]);
      assert q == [q[0]] + q[1..];
    }
  }

  lemma CutKeepsOffersOut(q: seq<Up>, from: nat, to: nat)
    requires from <= to <= |q|
    ensures var q' := q[..from] + q[to..];
            (NoOffer(q) ==> NoOffer(q')) && (q != [] && NoOffer(q[1..]) && q' != [] ==> NoOffer(q'[1..]))
  {
    hide Offers;
    var q' := q[..from] + q[to..];
    NoOfferMeans(q);
    NoOfferMeans(q');
    if q != [] && q' != [] {
      NoOfferMeans(q[1..]);
      NoOfferMeans(q'[1..]);
      assert forall i :: 0 <= i < |q'[1..]| ==> q'[1..][i] == q[1..][if i + 1 < from then i else i + to - from];
    }
  }

  lemma ProgressKeepsOfferFirst(t: Transfer, read: Option<nat>)
    requires NoOfferBehind(t)
    ensures NoOfferBehind(Progress(t, read))
  {
    hide Offers;
    var t' := Progress(t, read);
    if t'.transit != t.transit {
      var m := t'.transit[|t.transit|];
      assert t'.transit == t.transit + [m];
      AppendedBehind(t.transit, m);
    }
  }

  lemma QueueStepKeepsOfferFirst(t: Transfer, e: Event)
    requires Safe(t) && NoOfferBehind(t) && Enabled(t, e)
    requires e.Offered? || e.SendCancelled? || e.Delivered? || e.Lost? || e.Received?
    ensures NoOfferBehind(Step(t, e))
  {
    hide Chunks, Content, EofLast, HasEof, Prefixes, EofIsEnd, Progress;
    if e.Offered? { AppendedBehind(t.transit, Offer(e.total)); }
    else if e.SendCancelled? { AppendedBehind(t.transit, Withdraw); }
    else if e.Delivered? { AppendedBehind(t.inbox, t.transit[0]); HeadOf(t.transit); }
    else if e.Lost? { CutKeepsOffersOut(t.transit, e.from, e.to); }
    else { HeadOf(t.inbox); }
  }

  /** In every run the offer is the first message about its transfer. */
  lemma OfferStaysFirst(t: Transfer, e: Event)
    requires Safe(t) && NoOfferBehind(t) && Enabled(t, e)
    ensures NoOfferBehind(Step(t, e))
  {
    hide Safe, Progress, Offers;
    if e.Offered? || e.SendCancelled? || e.Delivered? || e.Lost? || e.Received? { QueueStepKeepsOfferFirst(t, e); }
    else if e.CreditUsed? { ProgressKeepsOfferFirst(t.(credits := t.credits - 1), e.read); }
    else if e.Answered? { ProgressKeepsOfferFirst(t.(down := t.down[1..], sender := Sending(0)), e.read); }
  }

  // ---------------------------------------------------------------- between connections

  /** Nobody has a record, and only messages from the sender's behaviour are left. */
  ghost predicate Resting(t: Transfer) {
    && (t.sender.Over? || t.sender.Unborn?) && (t.receiver.Done? || t.receiver.Unaware?)
    && t.inbox == [] && t.acked == t.credits == t.stalled == 0
  }

  /** What is left is kept to once it is delivered exactly if an offer comes with its withdrawal. */
  lemma RestingIsPledgedWhen(t: Transfer)
    requires Safe(t) && Resting(t) && NoOfferBehind(t)
    ensures Pledged(t) <==> (OfferUnderWay(t) ==> Withdraw in t.transit)
  {
  }

  // ---------------------------------------------------------------- an offer that nobody stands behind

  /** The sender has forgotten the offer, and no withdrawal is on its way after it. */
  ghost predicate Orphaned(t: Transfer) {
    && t.sender.Over? && !Withdrawn(t) && Chunks(t.inbox) + Chunks(t.transit) == 0
    && ((t.receiver.Unaware? && OfferUnderWay(t)) || t.receiver.Deciding?)
  }

  /** And the receiver has agreed to it. */
  ghost predicate Forlorn(t: Transfer) {
    t.sender.Over? && !Withdrawn(t) && Chunks(t.inbox) + Chunks(t.transit) == 0 && t.receiver.Receiving?
  }

  /** Not a request of either user. */
  predicate Unrequested(e: Event) { !e.Offered? && !e.SendCancelled? && !e.Accepted? && !e.RecvCancelled? }

  lemma OrphanStays(t: Transfer, e: Event)
    requires Safe(t) && Enabled(t, e) && Reliable(t, e) && Unrequested(e)
    ensures Orphaned(t) ==> Orphaned(Step(t, e))
    ensures Forlorn(t) ==> Forlorn(Step(t, e))
  {
    hide Content, EofLast, HasEof, Prefixes, EofIsEnd;
    if e.Delivered? { MoveHead(t.transit, t.inbox); }
    else if e.Received? {
      HeadOf(t.inbox);
      assert t.inbox == [t.inbox[0]] + t.inbox[1..];
    }
  }

  lemma AcceptedOrphan(t: Transfer)
    requires Orphaned(t) && t.receiver.Deciding?
    ensures Forlorn(Step(t, Accepted))
  {
  }
}

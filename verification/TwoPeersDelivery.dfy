/** What two peers achieve on a connection that loses nothing when nobody interferes: as long as something
    is queued some step can be taken, the steps run out, and then every accepted file has arrived whole. */
module TwoPeersDelivery {
  import opened Basics
  import opened BlobEvents
  import BlobState
  import opened Outbound
  import opened TwoPeers
  import opened TwoPeersView
  import opened TwoPeersRuns
  import opened TwoPeersLiveness
  import opened TwoPeersTermination
  import T = BlobTransfer
  import L = BlobTransferLiveness

  // ---------------------------------------------------------------- accepted files arrive

  /** One transfer is on its way to be whole. */
  ghost predicate OnCourse(t: T.Transfer) { L.Pledged(t) && L.ChunksExpected(t) && L.Fulfilled(t) }

  ghost predicate QuietRun(s: System, acts: seq<Act>)
    decreases |acts|
  {
    acts == []
    || (Guard(s, acts[0]) && Dependable(acts[0]) && Undisturbing(s, acts[0]) && QuietRun(Next(s, acts[0]), acts[1..]))
  }

  lemma {:induction false} FollowsFulfilled(t: T.Transfer, steps: seq<T.Event>, t': T.Transfer)
    requires T.Safe(t) && L.ChunksExpected(t) && L.Fulfilled(t) && Follows(t, steps, t') && AllUndisturbed(steps)
    ensures L.ChunksExpected(t') && L.Fulfilled(t')
    decreases |steps|
  {
    if steps != [] {
      assert steps[0] in steps;
      T.StepIsSafe(t, steps[0]);
      L.StepIsExpected(t, steps[0]);
      L.StepIsFulfilled(t, steps[0]);
      FollowsFulfilled(T.Step(t, steps[0]), steps[1..], t');
    }
  }

  lemma CourseKept(s: System, act: Act, p: Side, k: nat)
    requires Inv(s) && Smooth(s) && Guard(s, act) && Dependable(act) && Undisturbing(s, act) && OnCourse(View(s, p, k))
    ensures OnCourse(View(Next(s, act), p, k))
  {
    hide Inv, Smooth, Guard, Dependable, Undisturbing, Next, View, StepsOf, T.Safe, Follows, AllUndisturbed;
    hide L.Pledged, L.ChunksExpected, L.Fulfilled;
    PledgeKept(s, act, p, k);
    Simulates(s, act, p, k);
    SafeView(s, p, k);
    StepsAreUndisturbed(s, act, p, k);
    FollowsFulfilled(View(s, p, k), StepsOf(s, act, p, k), View(Next(s, act), p, k));
  }

  lemma {:induction false} CourseAlways(s: System, acts: seq<Act>, p: Side, k: nat)
    requires Inv(s) && Smooth(s) && QuietRun(s, acts) && OnCourse(View(s, p, k))
    ensures Guarded(s, acts) && Inv(RunOf(s, acts)) && Smooth(RunOf(s, acts)) && OnCourse(View(RunOf(s, acts), p, k))
    decreases |acts|
  {
    hide Inv, Smooth, Guard, Dependable, Undisturbing, Next, View, OnCourse;
    if acts != [] {
      InvKept(s, acts[0]);
      SmoothKept(s, acts[0]);
      CourseKept(s, acts[0], p, k);
      CourseAlways(Next(s, acts[0]), acts[1..], p, k);
    }
  }

  lemma InitiallyOnCourse(left: BlobState.Timeouts, right: BlobState.Timeouts, p: Side, k: nat)
    ensures var s := Connected(left, right); Inv(s) && Smooth(s) && OnCourse(View(s, p, k))
  {
    InitiallyPromising(left, right);
    assert View(Connected(left, right), p, k) == T.Start();
  }

  /** If side `p` offered file `k` and does not wait for an answer, the other side has all of it. */
  ghost predicate HasArrived(s: System, p: Side, k: nat) {
    var sends, recvs := s.At(p).behaviour.sends, s.At(Other(p)).behaviour.recvs;
    k in sends.files && k !in sends.pending ==>
      exists l :: l in recvs.received && recvs.received[l].remoteSendId == k
          && recvs.received[l].data == sends.FileOf(k)
  }

  /** Every file that was offered and is not waiting for its acceptance any more has arrived whole once
      both sides have worked through their queues. */
  lemma AcceptedFilesArrive(left: BlobState.Timeouts, right: BlobState.Timeouts, acts: seq<Act>, p: Side, k: nat)
    requires QuietRun(Connected(left, right), acts)
    ensures Guarded(Connected(left, right), acts)
    ensures var s := RunOf(Connected(left, right), acts);
            Idling(s.left) && Idling(s.right) ==> HasArrived(s, p, k)
  {
    hide Inv, Smooth, OnCourse, Idling, Connected, QuietRun, HasArrived;
    InitiallyOnCourse(left, right, p, k);
    CourseAlways(Connected(left, right), acts, p, k);
    var s := RunOf(Connected(left, right), acts);
    if Idling(s.left) && Idling(s.right) { ArrivedWhenIdle(s, p, k); }
  }

  lemma ArrivedWhenIdle(s: System, p: Side, k: nat)
    requires Inv(s) && OnCourse(View(s, p, k)) && Idling(s.left) && Idling(s.right)
    ensures HasArrived(s, p, k)
  {
    hide T.Safe, L.Pledged, L.ChunksExpected;
    var t, sends, recvs := View(s, p, k), s.At(p).behaviour.sends, s.At(Other(p)).behaviour.recvs;
    IdleViews(s, p, k);
    L.QuietIsSettled(t);
    if k in sends.files && k !in sends.pending {
      assert t.sender.Over?;
      assert t.receiver.Done?;
      assert Knows(recvs, k) && recvs.received[LocalOf(recvs, k)].data == t.data;
    }
  }

  // ---------------------------------------------------------------- no deadlock

  /** Whenever a side has anything queued, a working step is enabled that loses and disturbs nothing. */
  lemma NeverDeadlocked(s: System, p: Side) returns (act: Act)
    requires Inv(s) && Smooth(s) && !Idling(s.At(p))
    ensures Guard(s, act) && Dependable(act) && Undisturbing(s, act) && Working(s, act)
  {
    var n := s.At(p);
    BothSound(s, p);
    if n.wire != [] { act := if s.At(Other(p)).inbound then Deliver(p) else InboundUp(Other(p)); }
    else if n.behaviour.handlerEvents != [] { act := HandOver(p); }
    else if n.pendingOut != [] {
      var pick := PickFor(n.behaviour, n.pendingOut[0]);
      act := TakeEvent(p, BlobState.World(0, Some(1), [], pick));
    }
    else if n.machine.phase.Busy? { act := Outbound(p, SendDone); }
    else if n.machine.phase.OpenStream? { act := OutboundUp(p); }
    else { act := Outbound(p, StillPending); }
  }

  lemma PickFor(b: BlobState.State, ev: ToBehaviour) returns (pick: nat)
    ensures ev.RemoteCancelRecv? ==> BlobState.ValidPick(b, ev.remoteSendId, pick)
  {
    pick := 0;
    if ev.RemoteCancelRecv? && exists l :: BlobState.IsOffer(b, l, ev.remoteSendId) {
      pick :| BlobState.IsOffer(b, pick, ev.remoteSendId);
    }
  }

  // ---------------------------------------------------------------- the queues run empty

  /** Steps that nobody has to ask for empty every queue. */
  lemma {:induction false} Drains(s: System) returns (acts: seq<Act>)
    requires Inv(s) && Smooth(s)
    ensures QuietRun(s, acts) && WorkingRun(s, acts) && Guarded(s, acts)
    ensures Idling(RunOf(s, acts).left) && Idling(RunOf(s, acts).right)
    decreases SystemLoad(s)
  {
    hide Guard, Next, Dependable, Undisturbing, Working, Idling, SystemLoad, Inv, Smooth;
    if Idling(s.left) && Idling(s.right) {
      acts := [];
    } else {
      var act := NeverDeadlocked(s, if Idling(s.left) then Right else Left);
      WorkShrinks(s, act);
      InvKept(s, act);
      SmoothKept(s, act);
      var rest := Drains(Next(s, act));
      acts := [act] + rest;
      assert acts[0] == act && acts[1..] == rest;
    }
  }

  /** However far an undisturbed run has come, the two peers can finish it by themselves, and then every
      file that was offered and is not waiting for its acceptance has arrived whole. */
  lemma AcceptedFilesGetThere(left: BlobState.Timeouts, right: BlobState.Timeouts, acts: seq<Act>)
      returns (more: seq<Act>)
    requires QuietRun(Connected(left, right), acts)
    ensures Guarded(Connected(left, right), acts) && QuietRun(RunOf(Connected(left, right), acts), more)
    ensures Guarded(RunOf(Connected(left, right), acts), more)
    ensures forall p, k :: HasArrived(RunOf(RunOf(Connected(left, right), acts), more), p, k)
  {
    hide Inv, Smooth, OnCourse, QuietRun, Connected, HasArrived, View;
    InitiallyOnCourse(left, right, Left, 0);
    CourseAlways(Connected(left, right), acts, Left, 0);
    var s := RunOf(Connected(left, right), acts);
    more := Drains(s);
    forall p, k ensures HasArrived(RunOf(s, more), p, k) {
      InitiallyOnCourse(left, right, p, k);
      CourseAlways(Connected(left, right), acts, p, k);
      CourseAlways(s, more, p, k);
      ArrivedWhenIdle(RunOf(s, more), p, k);
    }
  }
}

/** The grab-readiness state machine of a Grabable on its own: the two flags
    it keeps while a hand collider overlaps it, and the notice each real
    transition sends the grab coordinator. */
module Readiness {

  /** `ready`: a hand is inside the grab collider and the object waits in a
      grabbing queue; `leftHanded`: that queue is the left hand's. */
  datatype Flags = Flags(ready: bool, leftHanded: bool)

  /** What a transition tells the coordinator: join the grabbing queue
      (WaitForGrabbing) or leave it (ExitGrabbingQueue). `left` is the hand
      the object reports at the moment of the call, which tells the
      coordinator whose queue is meant. */
  datatype Notice = Enqueue(left: bool) | Dequeue(left: bool)

  /** The two trigger callbacks. */
  datatype Trigger = Enter(isLeft: bool) | Exit

  /** The flags after a callback and the notices it sent, in order. */
  datatype Transition = Transition(after: Flags, notices: seq<Notice>)

  /** The flags on activation. */
  const INITIAL: Flags := Flags(false, false)

  /** One trigger callback. Entering when already ready and exiting when not
      ready do nothing; every other callback flips `ready` and sends exactly
      the notice that matches the flip. An enqueue carries the hand just
      recorded, a dequeue the hand the object still has. Exiting keeps the
      handedness. */
  function Step(f: Flags, t: Trigger): (r: Transition)
    ensures r.notices == (if r.after.ready == f.ready then []
                          else if r.after.ready then [Enqueue(r.after.leftHanded)]
                          else [Dequeue(f.leftHanded)])
    ensures t.Enter? ==> r.after.ready
    ensures t.Exit? ==> !r.after.ready && r.after.leftHanded == f.leftHanded
    ensures t.Enter? && f.ready ==> r.after == f
    ensures t.Enter? && !f.ready ==> r.after.leftHanded == t.isLeft
  {
    match t
    case Enter(isLeft) =>
      if f.ready then Transition(f, []) else Transition(Flags(true, isLeft), [Enqueue(isLeft)])
    case Exit =>
      if !f.ready then Transition(f, []) else Transition(f.(ready := false), [Dequeue(f.leftHanded)])
  }

  /** A sequence of trigger callbacks, one after another. */
  function Run(f: Flags, ts: seq<Trigger>): Transition
    decreases |ts|
  {
    if ts == [] then Transition(f, [])
    else
      var first := Step(f, ts[0]);
      var rest := Run(first.after, ts[1..]);
      Transition(rest.after, first.notices + rest.notices)
  }

  /** Notices alternate, starting with an enqueue: the object is never queued
      twice and never removed without having been queued. */
  predicate Alternating(ns: seq<Notice>) {
    forall i :: 0 <= i < |ns| ==> (ns[i].Enqueue? <==> i % 2 == 0)
  }

  /** Every dequeue names the hand of the enqueue just before it. */
  predicate Paired(ns: seq<Notice>) {
    forall i :: 0 < i < |ns| && i % 2 == 1 ==> ns[i].left == ns[i - 1].left
  }

  /** The coordinator's view of this object (the notices it received) agrees
      with the object's own flags: it is ready exactly when it is queued, and
      then it is queued for the hand it reports. */
  predicate Synced(ns: seq<Notice>, f: Flags) {
    Alternating(ns) && Paired(ns) &&
    (f.ready <==> |ns| % 2 == 1) &&
    (f.ready ==> ns[|ns| - 1].left == f.leftHanded)
  }

  /** Repeating a callback does nothing the second time. */
  lemma StepRepeatIsNoop(f: Flags, t: Trigger)
    ensures var once := Step(f, t).after;
            Step(once, t) == Transition(once, [])
  {
  }

  /** Entering and then exiting from the idle state sends one enqueue and one
      dequeue and leaves the object idle, remembering the hand. */
  lemma EnterThenExit(f: Flags, isLeft: bool)
    requires !f.ready
    ensures Run(f, [Enter(isLeft), Exit]) == Transition(Flags(false, isLeft), [Enqueue(isLeft), Dequeue(isLeft)])
  {
    var once := Step(f, Enter(isLeft));
    var twice := Step(once.after, Exit);
    assert [Enter(isLeft), Exit][1..] == [Exit];
    assert Run(once.after, [Exit]) == Transition(twice.after, twice.notices + []);
  }

  /** One callback keeps the coordinator's view in agreement with the flags. */
  lemma StepKeepsSynced(ns: seq<Notice>, f: Flags, t: Trigger)
    requires Synced(ns, f)
    ensures Synced(ns + Step(f, t).notices, Step(f, t).after)
  {
  }

  /** Any sequence of callbacks keeps the coordinator's view in agreement
      with the flags. */
  lemma {:induction false} RunKeepsSynced(ns: seq<Notice>, f: Flags, ts: seq<Trigger>)
    requires Synced(ns, f)
    ensures Synced(ns + Run(f, ts).notices, Run(f, ts).after)
    decreases |ts|
  {
    if ts == [] {
      assert ns + Run(f, ts).notices == ns;
    } else {
      var first := Step(f, ts[0]);
      var rest := Run(first.after, ts[1..]);
      StepKeepsSynced(ns, f, ts[0]);
      RunKeepsSynced(ns + first.notices, first.after, ts[1..]);
      assert (ns + first.notices) + rest.notices == ns + (first.notices + rest.notices);
    }
  }

  /** From activation on, whatever the callbacks, the notices alternate and the
      object is ready exactly when it has been queued once more than removed,
      queued for the hand it reports. */
  lemma FromInitialSynced(ts: seq<Trigger>)
    ensures Synced(Run(INITIAL, ts).notices, Run(INITIAL, ts).after)
  {
    RunKeepsSynced([], INITIAL, ts);
    assert [] + Run(INITIAL, ts).notices == Run(INITIAL, ts).notices;
  }
}

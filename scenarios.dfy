/** Call sequences a grab interaction goes through, and what a caller can
    conclude from the Grabable contracts alone. */
module Scenarios {
  import opened Engine
  import opened Readiness
  import opened CallLog
  import opened Grabbing

  /** A hand enters twice and leaves twice: only the first of each reaches
      the coordinator, and the object ends idle, remembering the hand. */
  method EnterExitTwice(g: Grabable, isLeft: bool)
    requires !g.isReadyForGrab && g.InSync()
    modifies g`isReadyForGrab, g`isLeftHanded, g.grab`calls, g.vibration`pulses
    ensures g.grab.calls == old(g.grab.calls) + [Call(g, Enqueue(isLeft)), Call(g, Dequeue(isLeft))]
    ensures g.ReadyFlags() == Readiness.Flags(false, isLeft)
    ensures g.InSync()
  {
    ghost var calls0 := g.grab.calls;
    g.OnGrabTriggerEnter(isLeft);
    assert g.InSync() && g.isReadyForGrab && g.isLeftHanded == isLeft;
    ghost var calls1 := g.grab.calls;
    assert calls1 == calls0 + [Call(g, Enqueue(isLeft))];
    g.OnGrabTriggerEnter(!isLeft);
    assert g.InSync() && g.isReadyForGrab && g.isLeftHanded == isLeft;
    assert g.grab.calls == calls1;
    g.OnGrabTriggerExit();
    assert g.InSync() && !g.isReadyForGrab;
    ghost var calls2 := g.grab.calls;
    assert calls2 == calls1 + [Call(g, Dequeue(isLeft))];
    g.OnGrabTriggerExit();
    assert g.grab.calls == calls2;
    assert calls2 == calls0 + [Call(g, Enqueue(isLeft)), Call(g, Dequeue(isLeft))];
  }

  /** The engine delivers one trigger callback: the object's flags and the
      notices the coordinator receives from it are those of `Step`. */
  method Deliver(g: Grabable, t: Trigger)
    modifies g`isReadyForGrab, g`isLeftHanded, g.grab`calls, g.vibration`pulses
    ensures g.ReadyFlags() == Step(old(g.ReadyFlags()), t).after
    ensures g.grab.calls == old(g.grab.calls) + CallsOf(g, Step(old(g.ReadyFlags()), t).notices)
    ensures NoticesFor(g.grab.calls, g) == NoticesFor(old(g.grab.calls), g) + Step(old(g.ReadyFlags()), t).notices
  {
    ghost var before := g.ReadyFlags();
    ghost var calls := g.grab.calls;
    match t {
      case Enter(isLeft) =>
        g.OnGrabTriggerEnter(isLeft);
        if !before.ready {
          assert CallsOf(g, [Enqueue(isLeft)]) == [Call(g, Enqueue(isLeft))];
          NoticesForSnoc(calls, Call(g, Enqueue(isLeft)), g);
        } else {
          assert g.grab.calls == calls == calls + [];
          assert NoticesFor(calls, g) + [] == NoticesFor(calls, g);
        }
      case Exit =>
        g.OnGrabTriggerExit();
        if before.ready {
          assert CallsOf(g, [Dequeue(before.leftHanded)]) == [Call(g, Dequeue(before.leftHanded))];
          NoticesForSnoc(calls, Call(g, Dequeue(before.leftHanded)), g);
        } else {
          assert g.grab.calls == calls == calls + [];
          assert NoticesFor(calls, g) + [] == NoticesFor(calls, g);
        }
    }
  }

  /** The engine delivers a sequence of trigger callbacks to one object: its
      flags and the notices the coordinator receives from it are exactly those
      of `Run` over the same callbacks. */
  method ReplayTriggers(g: Grabable, ts: seq<Trigger>)
    modifies g`isReadyForGrab, g`isLeftHanded, g.grab`calls, g.vibration`pulses
    ensures g.ReadyFlags() == Run(old(g.ReadyFlags()), ts).after
    ensures g.grab.calls == old(g.grab.calls) + CallsOf(g, Run(old(g.ReadyFlags()), ts).notices)
    ensures NoticesFor(g.grab.calls, g) == NoticesFor(old(g.grab.calls), g) + Run(old(g.ReadyFlags()), ts).notices
    decreases |ts|
  {
    if ts != [] {
      ghost var f0 := g.ReadyFlags();
      ghost var calls0 := g.grab.calls;
      Deliver(g, ts[0]);
      ghost var calls1 := g.grab.calls;
      ReplayTriggers(g, ts[1..]);
      RunLogsInOrder(g, f0, ts, calls0, calls1, g.grab.calls);
    } else {
      assert g.grab.calls + [] == g.grab.calls;
    }
    LoggedViews(old(g.grab.calls), g, Run(old(g.ReadyFlags()), ts).notices, g);
  }

  /** The log after the first callback and the log after the rest together
      are the log of the whole run. */
  lemma RunLogsInOrder(g: object, f: Flags, ts: seq<Trigger>, calls0: seq<Call>, calls1: seq<Call>, calls2: seq<Call>)
    requires ts != []
    requires calls1 == calls0 + CallsOf(g, Step(f, ts[0]).notices)
    requires calls2 == calls1 + CallsOf(g, Run(Step(f, ts[0]).after, ts[1..]).notices)
    ensures calls2 == calls0 + CallsOf(g, Run(f, ts).notices)
  {
    var first := Step(f, ts[0]);
    var rest := Run(first.after, ts[1..]);
    assert Run(f, ts).notices == first.notices + rest.notices;
    LogInTwoParts(calls0, g, first.notices, rest.notices);
  }

  /** Because the replay follows `Run`, the agreement proved for `Run`
      carries over: an object in sync with the coordinator stays in sync
      whatever callbacks it receives. */
  method ReplayKeepsInSync(g: Grabable, ts: seq<Trigger>)
    requires g.InSync()
    modifies g`isReadyForGrab, g`isLeftHanded, g.grab`calls, g.vibration`pulses
    ensures g.InSync()
  {
    ghost var f0 := g.ReadyFlags();
    ghost var ns0 := NoticesFor(g.grab.calls, g);
    ReplayTriggers(g, ts);
    RunKeepsSynced(ns0, f0, ts);
  }

  /** Callbacks delivered to one object leave every other object that shares
      its coordinator exactly as it was: same flags, same view of the log,
      and so still in sync. */
  method ReplayLeavesOthers(g: Grabable, h: Grabable, ts: seq<Trigger>)
    requires h != g && h.grab == g.grab
    modifies g`isReadyForGrab, g`isLeftHanded, g.grab`calls, g.vibration`pulses
    ensures h.ReadyFlags() == old(h.ReadyFlags())
    ensures NoticesFor(h.grab.calls, h) == NoticesFor(old(h.grab.calls), h)
    ensures old(h.InSync()) ==> h.InSync()
  {
    ReplayTriggers(g, ts);
    LoggedViews(old(g.grab.calls), g, Run(old(g.ReadyFlags()), ts).notices, h);
  }

  /** Selecting and then deselecting puts back the material the renderer had. */
  method SelectionRoundTrip(g: Grabable)
    requires g.renderer != null && g.selectedMaterial.Some? && g.grab.useMaterialChange
    modifies g`unselectedMaterial, g.renderer
    ensures g.renderer.material == old(g.renderer.material)
    ensures g.unselectedMaterial == Some(old(g.renderer.material))
  {
    g.OnSelected();
    g.OnDeSelected();
  }

  /** Select, grab, throw, deselect: while held the body is still and
      weightless, after release it flies at the release velocity times the
      throw power with the selected look back on, and deselection restores
      the original material. */
  method InteractionCycle(g: Grabable, release: Vec3)
    requires g.renderer != null && g.selectedMaterial.Some? && g.grab.useMaterialChange
    modifies g`unselectedMaterial, g.renderer, g.collider, g.rigidbody
    ensures g.rigidbody != null ==>
              g.rigidbody.useGravity && g.rigidbody.velocity == Scale(release, g.throwPower) &&
              g.rigidbody.angularVelocity == ZERO
    ensures g.collider != null ==> !g.collider.isTrigger
    ensures g.renderer.material == old(g.renderer.material)
  {
    g.OnSelected();
    ghost var selectedLook := g.renderer.material;
    g.OnGrabStart();
    assert g.rigidbody != null ==> !g.rigidbody.useGravity && g.rigidbody.velocity == ZERO;
    if g.useOutlineMaterial {
      OutlineRecolorReverts(selectedLook, g.grabbedOutlineColor, g.selectedOutlineColor);
    }
    g.OnGrabStop(release);
    assert g.renderer.material == selectedLook;
    g.OnDeSelected();
  }

  /** With throw power 5, releasing at (0, 1, 0) throws the body at (0, 5, 0). */
  method ThrowExample(g: Grabable)
    requires g.throwPower == 5 && g.rigidbody != null
    requires g.grab.useMaterialChange && (g.useOutlineMaterial || g.selectedMaterial.Some?) ==> g.renderer != null
    modifies g.collider, g.rigidbody, g.renderer
    ensures g.rigidbody.velocity == Vec3(0, 5, 0) && g.rigidbody.useGravity
  {
    g.OnGrabStop(Vec3(0, 1, 0));
  }

  /** Selecting twice before deselecting saves the selected look the second
      time, so deselection then leaves the selected material in place (shown
      here without outline mode). */
  method SelectTwiceKeepsSelected(g: Grabable)
    requires g.renderer != null && g.selectedMaterial.Some? && g.grab.useMaterialChange
    requires !g.useOutlineMaterial
    modifies g`unselectedMaterial, g.renderer
    ensures g.renderer.material == g.selectedMaterial.value
  {
    g.OnSelected();
    g.OnSelected();
    g.OnDeSelected();
  }
}

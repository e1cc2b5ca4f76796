# Grabable — a Dafny model

`Grabable` is the component of the Portal-ble hand-interaction system that
marks an object as grabbable. While a hand's grab collider overlaps the
object, the object is "ready for grab" and waits in the grab coordinator's
queue for that hand. When the user selects it, its renderer gets a selected
look (an outlined copy of the selected material, or the selected material
itself) and the previous material is saved so that deselection can put it
back. Grabbing turns the collider into a trigger and stops the rigidbody
without gravity. Releasing turns both back and throws the body with the
release velocity times a throw power.

The model has five modules:

- `Engine` (engine.dfy) holds stand-ins for the engine objects:
  - colours and materials as values, with the outline colour present only
    when the shader has that property;
  - integer 3-vectors;
  - the renderer, collider and rigidbody components as small classes;
  - haptics as a ghost log of pulses.
- `Readiness` (readiness.dfy) is the trigger enter/exit state machine as pure
  functions. `Step` is one callback and `Run` is a sequence of callbacks. Each
  transition yields the notice it sends the coordinator, tagged with the hand
  the object reports at the moment of the call. The lemmas prove that the
  notices alternate enqueue/dequeue and that each dequeue names the hand of
  the enqueue before it. They also prove that the object is ready exactly
  when it is queued, and then for the hand it reports. `Synced` is the
  value-level form of the class invariant `InSync`.
- `CallLog` (call_log.dfy) holds the record of one queue call and each
  caller's view of a log of such calls (`NoticesFor`). The log itself is the
  coordinator's `calls` field in `Grabbing`. `CallsOf` gives the log entries
  an object adds when it sends a run of notices.
- `Grabbing` (grabable.dfy) holds two classes.
  - The `Grab` singleton is reduced to the flags a Grabable reads, the
    currently grabbed object, and the queue calls it receives. Each call
    records the hand its caller reports at that moment.
  - The `Grabable` class has handlers that update its fields and the
    components in place. They are proved against `Readiness` and the material
    functions. `InSync()` ties the object's flags to its own calls in the
    coordinator's log. The constructor establishes it, and both trigger
    handlers preserve it.
- `Scenarios` (scenarios.dfy) holds client methods that chain handlers. They
  show what a caller can conclude from the contracts alone:
  - the select/deselect round trip;
  - a whole select–grab–throw–deselect cycle;
  - repeated enter/exit callbacks;
  - a replay of any callback sequence on a live object. It follows `Run`
    exactly, so the `Run` lemmas carry over to the class. It changes only
    the object's flags, the coordinator's log and the vibration pulses, and
    other objects on the same coordinator keep their view of the log.

The component keeps no grabbed state of its own. Being grabbed is only the
coordinator's `grabbingObject` (see `IsBeingGrabbed`).

Absent components are silent no-ops, with one exception. On the material
paths, `OnGrabStart` and `OnGrabStop` read the renderer without a null check
(Grabable.cs:185, 191, 214, 220). The model makes a present renderer a
precondition of those paths.

Selecting twice without deselecting overwrites the saved material with the
selected look. After that, deselection does not bring the original material
back (`Scenarios.SelectTwiceKeepsSelected`). Whether the coordinator ever
makes such calls is outside this model.

## Model

| member | source | states |
|---|---|---|
| `Engine.WithOutlineColor` | Portal-ble/Portalble-Android/Assets/Portalble_Core/Scripts/Grab/Grabable.cs:186-187 | Setting the outline colour is guarded by the shader having that property. It changes nothing else, and nothing at all when the property is absent. |
| `Engine.OutlinedInstance` | Portal-ble/Portalble-Android/Assets/Portalble_Core/Scripts/Grab/Grabable.cs:144-149 | The outlined copy keeps the template's shader and colour. It takes the body colour and main texture of the material it replaces. It carries the selected outline colour exactly when the shader has an outline property. |
| `Engine.OutlineRecolorReverts` | Portal-ble/Portalble-Android/Assets/Portalble_Core/Scripts/Grab/Grabable.cs:186-216 | Recolouring the outline for grabbing and then back to the selected colour returns the material the selection installed. |
| `Engine.Rigidbody.Sleep` | Portal-ble/Portalble-Android/Assets/Portalble_Core/Scripts/Grab/Grabable.cs:180 | After `Sleep` the body is marked asleep. |
| `Engine.Vibration.Vibrate` | Portal-ble/Portalble-Android/Assets/Portalble_Core/Scripts/Grab/Grabable.cs:100 | Each vibration request is recorded once, with its duration. |
| `Readiness.Step` | Portal-ble/Portalble-Android/Assets/Portalble_Core/Scripts/Grab/Grabable.cs:77-131 | A callback sends a notice exactly when it flips `ready`. It sends an enqueue for the hand just recorded when it becomes ready, and a dequeue for the hand it still has when it stops. Enter always ends ready. When already ready, Enter changes nothing; otherwise it records the hand. Exit always ends not ready and keeps the hand. |
| `Readiness.StepRepeatIsNoop` | Portal-ble/Portalble-Android/Assets/Portalble_Core/Scripts/Grab/Grabable.cs:79-109 | Repeating an enter or an exit changes no flag and sends nothing. |
| `Readiness.EnterThenExit` | Portal-ble/Portalble-Android/Assets/Portalble_Core/Scripts/Grab/Grabable.cs:77-131 | From not ready, enter then exit sends exactly one enqueue and then one dequeue, both for the entering hand. It ends not ready, with that hand recorded. |
| `Readiness.StepKeepsSynced` | Portal-ble/Portalble-Android/Assets/Portalble_Core/Scripts/Grab/Grabable.cs:83-112 | One callback keeps the notices alternating (enqueue first), with each dequeue naming its enqueue's hand. The object stays ready exactly when it has sent an odd number of notices, and while ready its last enqueue names the hand it reports. |
| `Readiness.RunKeepsSynced` | Portal-ble/Portalble-Android/Assets/Portalble_Core/Scripts/Grab/Grabable.cs:77-131 | Any sequence of callbacks preserves that agreement. |
| `Readiness.FromInitialSynced` | Portal-ble/Portalble-Android/Assets/Portalble_Core/Scripts/Grab/Grabable.cs:62-131 | From the activated state, no callback sequence makes the object queue twice, leave a queue it is not in, or sit in the other hand's queue. |
| `CallLog.NoticesForSnoc` | Portal-ble/Portalble-Android/Assets/Portalble_Core/Scripts/Grab/Grabable.cs:84-112 | A queue call made by one object adds its notice to that object's view of the log and to no other object's. |
| `CallLog.CallsOfViews` | Portal-ble/Portalble-Android/Assets/Portalble_Core/Scripts/Grab/Grabable.cs:84-112 | The calls an object makes for a run of notices give back exactly those notices in its own view, and nothing in any other object's view. |
| `CallLog.LoggedViews` | Portal-ble/Portalble-Android/Assets/Portalble_Core/Scripts/Grab/Grabable.cs:84-112 | Appending an object's calls to the log extends its own view by exactly its notices and leaves every other object's view unchanged. |
| `Grabbing.Grab.WaitForGrabbing` | Portal-ble/Portalble-Android/Assets/Portalble_Core/Scripts/Grab/Grabable.cs:83-84 | The enqueue call is appended to the coordinator's log, with the hand the caller reports during the call. |
| `Grabbing.Grab.ExitGrabbingQueue` | Portal-ble/Portalble-Android/Assets/Portalble_Core/Scripts/Grab/Grabable.cs:112 | The dequeue call is appended to the coordinator's log, with the hand the caller reports during the call. |
| `Grabbing.Grab.GetGrabbingObject` | Portal-ble/Portalble-Android/Assets/Portalble_Core/Scripts/Grab/Grabable.cs:237 | Returns the coordinator's currently grabbed object. |
| `Grabbing.GrabableConfig.constructor` | Portal-ble/Portalble-Android/Assets/Portalble_Core/Scripts/Grab/Grabable.cs:68 | A configuration built from a lock value keeps that value. |
| `Grabbing.Grabable.constructor` | Portal-ble/Portalble-Android/Assets/Portalble_Core/Scripts/Grab/Grabable.cs:11-59 | A new component starts not ready, right-handed and with no saved material. It is in sync with the coordinator, whose log cannot mention it yet. |
| `Grabbing.Grabable.Start` | Portal-ble/Portalble-Android/Assets/Portalble_Core/Scripts/Grab/Grabable.cs:62-69 | Start clears both flags. It builds a fresh configuration from the initial lock only when there is none, and otherwise keeps the existing one. It stays in sync with the coordinator only if the object was not ready, because Start does not dequeue. |
| `Grabbing.Grabable.OnGrabTriggerEnter` | Portal-ble/Portalble-Android/Assets/Portalble_Core/Scripts/Grab/Grabable.cs:77-103 | When already ready, nothing changes: no queue call and no vibration. Otherwise it records the hand before it enqueues itself exactly once for that hand, vibrates for 25 ms only when the coordinator enables vibration, and ends ready. It keeps the coordinator in sync. |
| `Grabbing.Grabable.OnGrabTriggerExit` | Portal-ble/Portalble-Android/Assets/Portalble_Core/Scripts/Grab/Grabable.cs:106-131 | When not ready, nothing changes. Otherwise it dequeues itself exactly once for the hand it has, and ends not ready, keeping the hand. It keeps the coordinator in sync. |
| `Grabbing.Grabable.OnSelected` | Portal-ble/Portalble-Android/Assets/Portalble_Core/Scripts/Grab/Grabable.cs:137-155 | Only when a renderer exists, a selected material is set and material changes are on: saves the current material, then installs the outlined copy (outline mode) or the selected material. Otherwise neither the saved material nor the renderer changes. |
| `Grabbing.Grabable.OnDeSelected` | Portal-ble/Portalble-Android/Assets/Portalble_Core/Scripts/Grab/Grabable.cs:160-165 | Puts the saved material back on the renderer. It does nothing without a renderer or a saved material. |
| `Grabbing.Grabable.OnGrabStart` | Portal-ble/Portalble-Android/Assets/Portalble_Core/Scripts/Grab/Grabable.cs:171-193 | The collider becomes a trigger. The body loses gravity, has zero linear and angular velocity, and is asleep. When material changes are on, the outline turns to the grabbed colour, or the grabbed material is installed. |
| `Grabbing.Grabable.OnGrabStop` | Portal-ble/Portalble-Android/Assets/Portalble_Core/Scripts/Grab/Grabable.cs:199-222 | The collider is no longer a trigger. The body has gravity, zero angular velocity, and velocity equal to the release velocity times the throw power. When material changes are on, the outline returns to the selected colour, or the selected material is installed. |
| `Grabbing.Grabable.IsBeingGrabbed` | Portal-ble/Portalble-Android/Assets/Portalble_Core/Scripts/Grab/Grabable.cs:236-237 | True exactly when the coordinator's grabbed object is this instance. It changes nothing. |
| `Scenarios.EnterExitTwice` | Portal-ble/Portalble-Android/Assets/Portalble_Core/Scripts/Grab/Grabable.cs:77-131 | Two enters and two exits reach the coordinator as exactly one enqueue and one dequeue, both for the first hand. The object ends not ready, with that hand recorded, and only its flags, the log and the pulses change. |
| `Scenarios.Deliver` | Portal-ble/Portalble-Android/Assets/Portalble_Core/Scripts/Grab/Grabable.cs:77-131 | Delivering one callback changes only the object's two flags, the coordinator's log and the vibration pulses. The flags change exactly as `Readiness.Step` says, and the log gains exactly the calls of `Step`'s notices, made by this object, so its own view gains those notices. |
| `Scenarios.ReplayTriggers` | Portal-ble/Portalble-Android/Assets/Portalble_Core/Scripts/Grab/Grabable.cs:77-131 | Delivering any callback sequence changes only the same fields. The flags change exactly as `Readiness.Run` says, and the log gains exactly the calls of `Run`'s notices, made by this object. |
| `Scenarios.ReplayLeavesOthers` | Portal-ble/Portalble-Android/Assets/Portalble_Core/Scripts/Grab/Grabable.cs:77-131 | Callbacks delivered to one object leave another object on the same coordinator with the same flags and the same view of the log, so it stays in sync. |
| `Scenarios.ReplayKeepsInSync` | Portal-ble/Portalble-Android/Assets/Portalble_Core/Scripts/Grab/Grabable.cs:77-131 | An object in sync with the coordinator stays in sync whatever callbacks it receives, and only its flags, the log and the pulses change. |
| `Scenarios.SelectionRoundTrip` | Portal-ble/Portalble-Android/Assets/Portalble_Core/Scripts/Grab/Grabable.cs:142-164 | When the selection guards hold, selecting then deselecting leaves the renderer with the material it had before, with that material saved. Only the saved material and the renderer change, so the readiness flags and the sync with the coordinator are kept. |
| `Scenarios.InteractionCycle` | Portal-ble/Portalble-Android/Assets/Portalble_Core/Scripts/Grab/Grabable.cs:137-222 | Select, grab, release, deselect: the body ends thrown at release × throw power with gravity on, the angular velocity is zero, the collider is solid again, and the original material is back. Of the object itself only the saved material changes, so the readiness flags and the sync with the coordinator are kept. |
| `Scenarios.ThrowExample` | Portal-ble/Portalble-Android/Assets/Portalble_Core/Scripts/Grab/Grabable.cs:208 | With throw power 5, releasing at (0, 1, 0) gives velocity (0, 5, 0). |
| `Scenarios.SelectTwiceKeepsSelected` | Portal-ble/Portalble-Android/Assets/Portalble_Core/Scripts/Grab/Grabable.cs:142-164 | Without outline mode, selecting twice and then deselecting leaves the selected material on the renderer. Only the saved material and the renderer change. |

## Left out

- `Update` and `OnMaterialConfigChanged` have empty bodies; the latter is an unimplemented TODO whose intent is not defined.
- `Debug.Log` traces and the commented-out file logging are not modelled; they have no effect on state.
- The coordinator's queue and arbitration logic is not part of this model. `WaitForGrabbing` and `ExitGrabbingQueue` only record the call, and the flags it exposes are read as they are.
- Grabbing.Grab.WaitForGrabbing: states only that the call is logged, because the coordinator's own effects are not part of this model.
- Grabbing.Grab.ExitGrabbingQueue: states only that the call is logged, for the same reason.
- Floats: colours, velocities and the throw power are integers. `Vector3 * float` becomes exact component-wise integer scaling, so rounding is not modelled.
- Materials are values. The engine's distinction between `material` (a per-renderer copy made on first read) and `sharedMaterial` is not modelled, and neither is the aliasing between a saved material and a shared one recoloured in place.
- Shader property names and `HasProperty` are reduced to one fact: whether the material has an outline colour. Setting `_BodyColor` on a shader without that property is modelled as stored anyway.
- The physics meaning of `Sleep`, and the engine waking a body whose velocity is assigned, are not modelled. `asleep` only records the last `Sleep` call.
- The renderer is read without a null check on the material paths of `OnGrabStart` and `OnGrabStop`. The resulting exception is replaced by the precondition that a renderer exists there. Likewise, a renderer is always assumed to have a material.
- Inspector settings (materials, outline colours, outline mode, throw power, initial lock) are constants. The handlers never write them, though other code could.
- The `Grab` singleton and the vibration service are passed in at construction instead of being reached through global state. `GetComponent` lookups are fixed references set at construction.
- `GrabableConfig` is not part of this model beyond the lock value it is built from.

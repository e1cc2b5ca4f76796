/** The Grabable component: an object a hand can grab. It tracks whether a
    hand collider overlaps it, keeps the coordinator's grabbing queue
    informed, swaps materials on selection and grabbing, and switches its
    physics between held and thrown. */
module Grabbing {
  import opened Engine
  import opened Readiness
  import opened CallLog

  /** The grab configuration; only the lock value it is built from is kept. */
  class GrabableConfig {
    const lockState: int

    constructor (lockState: int)
      ensures this.lockState == lockState
    {
      this.lockState := lockState;
    }
  }

  /** The grab coordinator singleton, as far as a Grabable sees it: the
      settings it reads, the object it reports as grabbed, and the queue calls
      it receives. */
  class Grab {
    var useVibration: bool
    var useMaterialChange: bool
    var grabbingObject: Grabable?
    ghost var calls: seq<Call>

    constructor (useVibration: bool, useMaterialChange: bool)
      ensures this.useVibration == useVibration
      ensures this.useMaterialChange == useMaterialChange
      ensures grabbingObject == null && calls == []
    {
      this.useVibration := useVibration;
      this.useMaterialChange := useMaterialChange;
      grabbingObject := null;
      calls := [];
    }

    /** `who` joins the grabbing queue of the hand it reports. */
    method WaitForGrabbing(who: Grabable)
      modifies this`calls
      ensures calls == old(calls) + [Call(who, Enqueue(who.isLeftHanded))]
    {
      calls := calls + [Call(who, Enqueue(who.isLeftHanded))];
    }

    /** `who` leaves the grabbing queue of the hand it reports. */
    method ExitGrabbingQueue(who: Grabable)
      modifies this`calls
      ensures calls == old(calls) + [Call(who, Dequeue(who.isLeftHanded))]
    {
      calls := calls + [Call(who, Dequeue(who.isLeftHanded))];
    }

    /** The object currently grabbed, if any. */
    method GetGrabbingObject() returns (o: Grabable?)
      ensures o == grabbingObject
    {
      o := grabbingObject;
    }
  }

  class Grabable {
    var configuration: GrabableConfig?
    const initialLock: int

    // Inspector settings: outline colours, outline mode, the user's own
    // materials and the throw power.
    const selectedOutlineColor: Color
    const grabbedOutlineColor: Color
    const useOutlineMaterial: bool
    const selectedMaterial: Option<Material>
    const grabbedMaterial: Option<Material>
    const throwPower: int

    /** The renderer's material saved by the last selection. */
    var unselectedMaterial: Option<Material>

    var isReadyForGrab: bool
    var isLeftHanded: bool

    // Collaborators: the coordinator, haptics, and the components found on
    // the same game object (null when absent).
    const grab: Grab
    const vibration: Vibration
    const renderer: Renderer?
    const collider: Collider?
    const rigidbody: Rigidbody?

    constructor (configuration: GrabableConfig?, initialLock: int,
                 selectedOutlineColor: Color, grabbedOutlineColor: Color,
                 useOutlineMaterial: bool,
                 selectedMaterial: Option<Material>, grabbedMaterial: Option<Material>,
                 throwPower: int, grab: Grab, vibration: Vibration,
                 renderer: Renderer?, collider: Collider?, rigidbody: Rigidbody?)
      ensures this.configuration == configuration && this.initialLock == initialLock
      ensures this.selectedOutlineColor == selectedOutlineColor
      ensures this.grabbedOutlineColor == grabbedOutlineColor
      ensures this.useOutlineMaterial == useOutlineMaterial
      ensures this.selectedMaterial == selectedMaterial && this.grabbedMaterial == grabbedMaterial
      ensures this.throwPower == throwPower
      ensures this.grab == grab && this.vibration == vibration
      ensures this.renderer == renderer && this.collider == collider && this.rigidbody == rigidbody
      ensures unselectedMaterial == None && ReadyFlags() == INITIAL
      ensures InSync()
    {
      this.configuration := configuration;
      this.initialLock := initialLock;
      this.selectedOutlineColor := selectedOutlineColor;
      this.grabbedOutlineColor := grabbedOutlineColor;
      this.useOutlineMaterial := useOutlineMaterial;
      this.selectedMaterial := selectedMaterial;
      this.grabbedMaterial := grabbedMaterial;
      this.throwPower := throwPower;
      this.grab := grab;
      this.vibration := vibration;
      this.renderer := renderer;
      this.collider := collider;
      this.rigidbody := rigidbody;
      unselectedMaterial := None;
      isReadyForGrab := false;
      isLeftHanded := false;
      new;
      NoticesForAbsent(grab.calls, this);
    }

    /** The readiness flags as a value. */
    function ReadyFlags(): Flags
      reads this
    {
      Readiness.Flags(isReadyForGrab, isLeftHanded)
    }

    /** The coordinator's queue calls agree with this object's readiness
        and, while it is ready, with its hand. */
    ghost predicate InSync()
      reads this, grab
    {
      Synced(NoticesFor(grab.calls, this), ReadyFlags())
    }

    /** What selection installs on a renderer currently showing `look`. */
    function SelectedLook(look: Material): Material
      requires selectedMaterial.Some?
    {
      if useOutlineMaterial then OutlinedInstance(selectedMaterial.value, look, selectedOutlineColor)
      else selectedMaterial.value
    }

    /** Activation: clears both flags and builds a configuration from the
        initial lock only when there is none. */
    method Start()
      modifies this`isReadyForGrab, this`isLeftHanded, this`configuration
      ensures ReadyFlags() == INITIAL
      ensures old(configuration) != null ==> configuration == old(configuration)
      ensures old(configuration) == null ==>
                configuration != null && fresh(configuration) && configuration.lockState == initialLock
      ensures old(InSync()) && !old(isReadyForGrab) ==> InSync()
    {
      isReadyForGrab := false;
      isLeftHanded := false;
      if configuration == null {
        configuration := new GrabableConfig(initialLock);
      }
    }

    /** A hand collider entered the grab collider. */
    method OnGrabTriggerEnter(isLeft: bool)
      modifies this`isReadyForGrab, this`isLeftHanded, grab`calls, vibration`pulses
      ensures ReadyFlags() == Step(old(ReadyFlags()), Enter(isLeft)).after
      ensures grab.calls == old(grab.calls) + (if old(isReadyForGrab) then [] else [Call(this, Enqueue(isLeft))])
      ensures vibration.pulses
           == old(vibration.pulses) + (if !old(isReadyForGrab) && grab.useVibration then [25] else [])
      ensures old(InSync()) ==> InSync()
    {
      if isReadyForGrab {
        return;
      }
      ghost var before := ReadyFlags();
      isLeftHanded := isLeft;
      grab.WaitForGrabbing(this);
      if grab.useVibration {
        vibration.Vibrate(25);
      }
      isReadyForGrab := true;
      NoticesForSnoc(old(grab.calls), Call(this, Enqueue(isLeft)), this);
      if old(InSync()) {
        StepKeepsSynced(NoticesFor(old(grab.calls), this), before, Enter(isLeft));
      }
    }

    /** The hand collider left the grab collider. */
    method OnGrabTriggerExit()
      modifies this`isReadyForGrab, grab`calls
      ensures ReadyFlags() == Step(old(ReadyFlags()), Exit).after
      ensures grab.calls == old(grab.calls) + (if old(isReadyForGrab) then [Call(this, Dequeue(isLeftHanded))] else [])
      ensures old(InSync()) ==> InSync()
    {
      if !isReadyForGrab {
        return;
      }
      ghost var before := ReadyFlags();
      grab.ExitGrabbingQueue(this);
      isReadyForGrab := false;
      NoticesForSnoc(old(grab.calls), Call(this, Dequeue(isLeftHanded)), this);
      if old(InSync()) {
        StepKeepsSynced(NoticesFor(old(grab.calls), this), before, Exit);
      }
    }

    /** The user selected this object: when there is a renderer, a selected
        material and material changes are on, save the current material and
        install the selected look. */
    method OnSelected()
      modifies this`unselectedMaterial, renderer
      ensures if renderer != null && selectedMaterial.Some? && grab.useMaterialChange then
                unselectedMaterial == Some(old(renderer.material)) &&
                renderer.material == SelectedLook(old(renderer.material))
              else
                unselectedMaterial == old(unselectedMaterial) &&
                (renderer != null ==> renderer.material == old(renderer.material))
    {
      if renderer != null && selectedMaterial.Some? && grab.useMaterialChange {
        unselectedMaterial := Some(renderer.material);
        if useOutlineMaterial {
          renderer.material := OutlinedInstance(selectedMaterial.value, unselectedMaterial.value, selectedOutlineColor);
        } else if selectedMaterial.Some? {
          renderer.material := selectedMaterial.value;
        }
      }
    }

    /** The user deselected this object: put back the saved material, if any. */
    method OnDeSelected()
      modifies renderer
      ensures renderer != null ==>
                renderer.material == if unselectedMaterial.Some? then unselectedMaterial.value
                                     else old(renderer.material)
    {
      if renderer != null && unselectedMaterial.Some? {
        renderer.material := unselectedMaterial.value;
      }
    }

    /** Grabbing starts: the collider becomes a trigger, the body stops and
        sleeps without gravity, and the look switches to the grabbed one. The
        renderer is read unchecked on the material path. */
    method OnGrabStart()
      requires grab.useMaterialChange && (useOutlineMaterial || grabbedMaterial.Some?) ==> renderer != null
      modifies collider, rigidbody, renderer
      ensures collider != null ==> collider.isTrigger
      ensures rigidbody != null ==>
                !rigidbody.useGravity && rigidbody.velocity == ZERO &&
                rigidbody.angularVelocity == ZERO && rigidbody.asleep
      ensures renderer != null ==>
                renderer.material == if !grab.useMaterialChange then old(renderer.material)
                                     else if useOutlineMaterial then WithOutlineColor(old(renderer.material), grabbedOutlineColor)
                                     else if grabbedMaterial.Some? then grabbedMaterial.value
                                     else old(renderer.material)
    {
      if collider != null {
        collider.isTrigger := true;
      }
      if rigidbody != null {
        rigidbody.useGravity := false;
        rigidbody.velocity := ZERO;
        rigidbody.angularVelocity := ZERO;
        rigidbody.Sleep();
      }
      if grab.useMaterialChange {
        if useOutlineMaterial {
          var mat := renderer.material;
          if HasOutline(mat) {
            renderer.material := WithOutlineColor(mat, grabbedOutlineColor);
          }
        } else if grabbedMaterial.Some? {
          renderer.material := grabbedMaterial.value;
        }
      }
    }

    /** Grabbing stops: the collider is solid again, gravity is back, the body
        is thrown with the release velocity times the throw power, and the
        look returns to the selected one. The renderer is read unchecked on
        the material path. */
    method OnGrabStop(releaseVelocity: Vec3)
      requires grab.useMaterialChange && (useOutlineMaterial || selectedMaterial.Some?) ==> renderer != null
      modifies collider, rigidbody, renderer
      ensures collider != null ==> !collider.isTrigger
      ensures rigidbody != null ==>
                rigidbody.useGravity && rigidbody.angularVelocity == ZERO &&
                rigidbody.velocity == Scale(releaseVelocity, throwPower) &&
                rigidbody.asleep == old(rigidbody.asleep)
      ensures renderer != null ==>
                renderer.material == if !grab.useMaterialChange then old(renderer.material)
                                     else if useOutlineMaterial then WithOutlineColor(old(renderer.material), selectedOutlineColor)
                                     else if selectedMaterial.Some? then selectedMaterial.value
                                     else old(renderer.material)
    {
      if collider != null {
        collider.isTrigger := false;
      }
      if rigidbody != null {
        rigidbody.useGravity := true;
        rigidbody.velocity := ZERO;
        rigidbody.angularVelocity := ZERO;
        rigidbody.velocity := Scale(releaseVelocity, throwPower);
      }
      if grab.useMaterialChange {
        if useOutlineMaterial {
          var mat := renderer.material;
          if HasOutline(mat) {
            renderer.material := WithOutlineColor(mat, selectedOutlineColor);
          }
        } else if selectedMaterial.Some? {
          renderer.material := selectedMaterial.value;
        }
      }
    }

    /** Whether the coordinator's grabbed object is this one. */
    method IsBeingGrabbed() returns (b: bool)
      ensures b <==> grab.grabbingObject == this
    {
      var o := grab.GetGrabbingObject();
      b := o == this;
    }
  }
}

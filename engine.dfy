/** Stand-ins for the engine objects a Grabable touches: colours, materials,
    integer 3-vectors, and the renderer, collider, rigidbody and haptics
    components it finds on its own game object. */
module Engine {

  datatype Option<+T> = None | Some(value: T)

  /** An RGBA colour; the engine's float channels are kept opaque as integers. */
  datatype Color = Color(r: int, g: int, b: int, a: int)

  /** A material, reduced to what the grab component reads and writes.
      `shader` stands for the shader and every property not listed here;
      `outline` is None when the shader has no outline-colour property and
      otherwise holds that property's current value. */
  datatype Material = Material(
    shader: nat,
    color: Color,
    mainTexture: nat,
    bodyColor: Color,
    outline: Option<Color>)

  /** Whether the material's shader has an outline-colour property. */
  predicate HasOutline(m: Material) {
    m.outline.Some?
  }

  /** Sets the outline colour when the shader has that property; otherwise the
      material is left as it is. */
  function WithOutlineColor(m: Material, c: Color): (r: Material)
    ensures HasOutline(r) == HasOutline(m)
    ensures HasOutline(r) ==> r.outline == Some(c)
    ensures r.(outline := m.outline) == m
  {
    if HasOutline(m) then m.(outline := Some(c)) else m
  }

  /** The copy of `template` that selection installs in outline mode: the
      template's shader and colour, the body colour and main texture of the
      material it replaces (`look`), and `outlineColor` as outline colour when
      the shader has one. */
  function OutlinedInstance(template: Material, look: Material, outlineColor: Color): (m: Material)
    ensures m.shader == template.shader && m.color == template.color
    ensures m.bodyColor == look.color && m.mainTexture == look.mainTexture
    ensures HasOutline(m) == HasOutline(template)
    ensures HasOutline(m) ==> m.outline == Some(outlineColor)
  {
    WithOutlineColor(template.(bodyColor := look.color, mainTexture := look.mainTexture), outlineColor)
  }

  /** Recolouring the outline and then recolouring it back to the colour it
      had gives the material back. */
  lemma OutlineRecolorReverts(m: Material, c: Color, back: Color)
    requires HasOutline(m) ==> m.outline == Some(back)
    ensures WithOutlineColor(WithOutlineColor(m, c), back) == m
  {
  }

  /** An integer 3-vector standing for the engine's float Vector3. */
  datatype Vec3 = Vec3(x: int, y: int, z: int)

  const ZERO: Vec3 := Vec3(0, 0, 0)

  /** Component-wise scaling, `v * k`. */
  function Scale(v: Vec3, k: int): Vec3 {
    Vec3(v.x * k, v.y * k, v.z * k)
  }

  /** The renderer component: the material it currently draws with. */
  class Renderer {
    var material: Material

    constructor (material: Material)
      ensures this.material == material
    {
      this.material := material;
    }
  }

  /** The collider component: only its trigger flag matters here. */
  class Collider {
    var isTrigger: bool

    constructor (isTrigger: bool)
      ensures this.isTrigger == isTrigger
    {
      this.isTrigger := isTrigger;
    }
  }

  /** The rigidbody component: gravity flag, linear and angular velocity, and
      whether it was last put to sleep. */
  class Rigidbody {
    var useGravity: bool
    var velocity: Vec3
    var angularVelocity: Vec3
    var asleep: bool

    constructor (useGravity: bool, velocity: Vec3, angularVelocity: Vec3)
      ensures this.useGravity == useGravity && this.velocity == velocity
      ensures this.angularVelocity == angularVelocity && !asleep
    {
      this.useGravity := useGravity;
      this.velocity := velocity;
      this.angularVelocity := angularVelocity;
      asleep := false;
    }

    method Sleep()
      modifies this`asleep
      ensures asleep
    {
      asleep := true;
    }
  }

  /** Haptic feedback; every pulse requested is recorded with its duration in
      milliseconds. */
  class Vibration {
    ghost var pulses: seq<int>

    constructor ()
      ensures pulses == []
    {
      pulses := [];
    }

    method Vibrate(milliseconds: int)
      modifies this`pulses
      ensures pulses == old(pulses) + [milliseconds]
    {
      pulses := pulses + [milliseconds];
    }
  }
}

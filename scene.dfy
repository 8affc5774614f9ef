/** The scene of src/scene.ts: spheres, one light, the camera and the input
    handlers that mutate them.

    Each handler is a method that receives the fields of its DOM event (the
    key code, the mouse movement, the id and numeric value of a light input);
    registering the listeners and reading the HTML inputs are not modelled. */
module SceneModel {
  import opened Vectors
  import opened Primitives
  import opened CameraModel

  /** A light: a position and one padding scalar (16 bytes as 32-bit floats). */
  datatype Light = Light(position: Vec3, padding: real)

  /** `new Light(position)`: the position as given, padding 0. */
  function NewLight(position: Vec3): (l: Light)
    ensures l.position == position && l.padding == 0.0
  {
    Light(position, 0.0)
  }

  /** The step `#handleKeyDown` pans by. */
  const MovementFactor: real := 0.4

  /** The divisor `#handleMouseEvent` applies to mouse movement. */
  const DampingFactor: real := 40000.0

  /** The pitch bound of `#handleMouseEvent`, in degrees. */
  const PitchLimit: real := 89.0

  /** JavaScript's `a % 360` on numbers: the remainder of the division truncated
      toward zero, so the result keeps the sign of `a` (unlike Euclidean
      remainder). The result differs from `a` by a whole multiple of 360. */
  function Rem360(a: real): (r: real)
    ensures -360.0 < r < 360.0
    ensures a >= 0.0 ==> 0.0 <= r
    ensures a <= 0.0 ==> r <= 0.0
    ensures ((a - r) / 360.0).Floor as real == (a - r) / 360.0
    ensures -360.0 < a < 360.0 ==> r == a
  {
    var q := TruncQuotient360(a);
    assert (a - (a - 360.0 * q as real)) / 360.0 == q as real;
    a - 360.0 * q as real
  }

  /** `a / 360` truncated toward zero. */
  function TruncQuotient360(a: real): (q: int)
    ensures a >= 0.0 ==> 0 <= q && 360.0 * q as real <= a < 360.0 * q as real + 360.0
    ensures a < 0.0 ==> q <= 0 && 360.0 * q as real - 360.0 < a <= 360.0 * q as real
    ensures -360.0 < a < 360.0 ==> q == 0
  {
    if a >= 0.0 then (a / 360.0).Floor else -((-a / 360.0).Floor)
  }

  /** A turn of 400 degrees from yaw 0 wraps to 40; a turn of -400 keeps its
      sign and wraps to -40. */
  lemma Rem360Examples()
    ensures Rem360(400.0) == 40.0
    ensures Rem360(-400.0) == -40.0
    ensures Rem360(720.0) == 0.0
  {
    assert (400.0 / 360.0).Floor == 1;
    assert (720.0 / 360.0).Floor == 2;
  }

  /** `Math.min(89, Math.max(-89, p))` */
  function ClampPitch(p: real): (r: real)
    ensures -PitchLimit <= r <= PitchLimit
    ensures -PitchLimit <= p <= PitchLimit ==> r == p
    ensures p > PitchLimit ==> r == PitchLimit
    ensures p < -PitchLimit ==> r == -PitchLimit
  {
    var atLeast := if -PitchLimit > p then -PitchLimit else p;
    if PitchLimit < atLeast then PitchLimit else atLeast
  }

  /** Pitch pinned at a bound stays at that bound however far the mouse keeps
      pushing past it. */
  lemma ClampPitchPinned(p: real, d: real)
    requires p == PitchLimit || p == -PitchLimit
    requires p * d >= 0.0
    ensures ClampPitch(p + d) == p
  {
    if p == PitchLimit {
      assert d >= 0.0;
    } else {
      assert d <= 0.0;
    }
  }

  class Scene {
    /** `sphereData`: fixed after construction. */
    var spheres: seq<Sphere>
    const camera: Camera
    var lights: seq<Light>
    var mouseClicked: bool

    /** What every handler keeps: one light (the light inputs edit lights[0]),
        pitch within ±89 degrees and yaw strictly within ±360 degrees. */
    ghost predicate Valid()
      reads this, camera
    {
      |lights| == 1 &&
      -PitchLimit <= camera.euler.y <= PitchLimit &&
      -360.0 < camera.euler.z < 360.0
    }

    /** The fixed scene: one sphere at (0,3,0) with radius 1.1 and color
        (0,0.5,0.8), the camera at (-10,0,0) facing along yaw 0 and pitch 0,
        one light at (11,-15,-12), and the mouse not pressed. */
    constructor (sin: real -> real, cos: real -> real)
      ensures spheres == [NewSphere(Vec3(0.0, 3.0, 0.0), 1.1, Vec3(0.0, 0.5, 0.8))]
      ensures fresh(camera)
      ensures camera.position == Vec3(-10.0, 0.0, 0.0) && camera.euler == Zero
      ensures camera.CurrentBasis() == BasisOf(camera.euler, sin, cos)
      ensures lights == [NewLight(Vec3(11.0, -15.0, -12.0))]
      ensures lights[0].padding == 0.0
      ensures !mouseClicked
      ensures Valid()
    {
      spheres := [NewSphere(Vec3(0.0, 3.0, 0.0), 1.1, Vec3(0.0, 0.5, 0.8))];
      camera := new Camera(Vec3(-10.0, 0.0, 0.0), 0.0, 0.0, sin, cos);
      lights := [NewLight(Vec3(11.0, -15.0, -12.0))];
      mouseClicked := false;
    }

    /** `#handleKeyDown`: W/S pan forward/back, A/D pan left/right by
        MovementFactor. E and Q pass their step as a third argument, which
        `pan` ignores, so they pan by (0, 0). Any other code does nothing. */
    method HandleKeyDown(code: string)
      modifies camera`position
      ensures code == "KeyW" ==>
        camera.position == Panned(old(camera.position), camera.forward, camera.right, MovementFactor, 0.0)
      ensures code == "KeyS" ==>
        camera.position == Panned(old(camera.position), camera.forward, camera.right, -MovementFactor, 0.0)
      ensures code == "KeyA" ==>
        camera.position == Panned(old(camera.position), camera.forward, camera.right, 0.0, -MovementFactor)
      ensures code == "KeyD" ==>
        camera.position == Panned(old(camera.position), camera.forward, camera.right, 0.0, MovementFactor)
      ensures code !in {"KeyW", "KeyS", "KeyA", "KeyD"} ==> camera.position == old(camera.position)
      ensures Valid() == old(Valid())
    {
      if code == "KeyW" {
        camera.Pan(MovementFactor, 0.0);
      }
      if code == "KeyS" {
        camera.Pan(-MovementFactor, 0.0);
      }
      if code == "KeyA" {
        camera.Pan(0.0, -MovementFactor);
      }
      if code == "KeyD" {
        camera.Pan(0.0, MovementFactor);
      }
      if code == "KeyE" {
        camera.Pan(0.0, 0.0);
      }
      if code == "KeyQ" {
        camera.Pan(0.0, 0.0);
      }
    }

    /** `#handleMouseDown`: start dragging. */
    method HandleMouseDown()
      modifies this`mouseClicked
      ensures mouseClicked
      ensures Valid() == old(Valid())
    {
      mouseClicked := true;
    }

    /** `#handleMouseUp`: stop dragging. */
    method HandleMouseUp()
      modifies this`mouseClicked
      ensures !mouseClicked
      ensures Valid() == old(Valid())
    {
      mouseClicked := false;
    }

    /** `#handleMouseEvent`: while dragging, the damped horizontal movement turns
        the yaw (euler[2], wrapped by JavaScript's `% 360`) and the damped
        vertical movement turns the pitch (euler[1], clamped to ±89). When
        not dragging, nothing changes. */
    method HandleMouseMove(movementX: real, movementY: real)
      modifies camera`euler
      ensures !mouseClicked ==> camera.euler == old(camera.euler)
      ensures mouseClicked ==>
        camera.euler == Vec3(old(camera.euler).x,
                             ClampPitch(old(camera.euler).y + movementY / DampingFactor),
                             Rem360(old(camera.euler).z + movementX / DampingFactor))
      ensures mouseClicked ==>
        -PitchLimit <= camera.euler.y <= PitchLimit && -360.0 < camera.euler.z < 360.0
      ensures old(Valid()) ==> Valid()
    {
      if !mouseClicked {
        return;
      }
      var dx := movementX / DampingFactor;
      var dy := movementY / DampingFactor;
      camera.euler := With(camera.euler, 2, Rem360(camera.euler.z + dx));
      camera.euler := With(camera.euler, 1, ClampPitch(camera.euler.y + dy));
    }

    /** `#updateLight`: the input with id lightX, lightY or lightZ sets that one
        coordinate of the first light's position; any other id changes
        nothing. Only a known id touches lights[0]. */
    method UpdateLight(id: string, value: real)
      requires id in {"lightX", "lightY", "lightZ"} ==> |lights| >= 1
      modifies this`lights
      ensures id == "lightX" ==>
        lights == old(lights)[0 := old(lights)[0].(position := With(old(lights)[0].position, 0, value))]
      ensures id == "lightY" ==>
        lights == old(lights)[0 := old(lights)[0].(position := With(old(lights)[0].position, 1, value))]
      ensures id == "lightZ" ==>
        lights == old(lights)[0 := old(lights)[0].(position := With(old(lights)[0].position, 2, value))]
      ensures id !in {"lightX", "lightY", "lightZ"} ==> lights == old(lights)
      ensures Valid() == old(Valid())
    {
      if id == "lightX" {
        lights := lights[0 := lights[0].(position := With(lights[0].position, 0, value))];
      } else if id == "lightY" {
        lights := lights[0 := lights[0].(position := With(lights[0].position, 1, value))];
      } else if id == "lightZ" {
        lights := lights[0 := lights[0].(position := With(lights[0].position, 2, value))];
      }
    }
  }
}

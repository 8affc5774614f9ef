/** The camera of src/camera.ts: a position, an orientation `euler` in degrees
    (index 1 is the vertical rotation, or pitch, index 2 the horizontal one, or
    yaw) and the basis forward/right/up derived from it by `update`.

    `Math.sin` and `Math.cos` are not modelled: the members that need them take
    them as parameters `sin` and `cos`, about which nothing is assumed. What is
    proved about the basis therefore holds for any trigonometric functions. */
module CameraModel {
  import opened Vectors

  /** Math.PI */
  const Pi: real := 3.141592653589793

  /** The world "up" axis that `update` crosses the forward vector with. */
  const WorldUp: Vec3 := Vec3(0.0, 0.0, 1.0)

  /** `#degreesToRadians` as written: it multiplies by 180 and divides by π,
      which is the inverse of the usual conversion (π/180). */
  function DegreesToRadians(degrees: real): real
  {
    degrees * 180.0 / Pi
  }

  /** The conversion is linear and maps 0 to 0. */
  lemma DegreesToRadiansLinear(a: real, b: real, k: real)
    ensures DegreesToRadians(0.0) == 0.0
    ensures DegreesToRadians(a + b) == DegreesToRadians(a) + DegreesToRadians(b)
    ensures DegreesToRadians(k * a) == k * DegreesToRadians(a)
  {
  }

  /** The basis `update` derives from an orientation. */
  datatype Basis = Basis(forward: Vec3, right: Vec3, up: Vec3)

  /** The forward vector `update` computes from `euler` (yaw euler.z, pitch euler.y). */
  function ForwardOf(euler: Vec3, sin: real -> real, cos: real -> real): Vec3
  {
    var yaw := DegreesToRadians(euler.z);
    var pitch := DegreesToRadians(euler.y);
    Vec3(cos(yaw) * cos(pitch), sin(yaw) * cos(pitch), sin(pitch))
  }

  /** The whole basis: right = forward × (0,0,1), up = right × forward. */
  function BasisOf(euler: Vec3, sin: real -> real, cos: real -> real): Basis
  {
    var forward := ForwardOf(euler, sin, cos);
    var right := Cross(forward, WorldUp);
    Basis(forward, right, Cross(right, forward))
  }

  /** Whatever sin and cos are, the basis is pairwise orthogonal and `right`
      lies in the horizontal plane. Lengths are the subject of BasisLengths. */
  lemma BasisOrthogonal(euler: Vec3, sin: real -> real, cos: real -> real)
    ensures BasisOf(euler, sin, cos).right.z == 0.0
    ensures Dot(BasisOf(euler, sin, cos).right, BasisOf(euler, sin, cos).forward) == 0.0
    ensures Dot(BasisOf(euler, sin, cos).up, BasisOf(euler, sin, cos).right) == 0.0
    ensures Dot(BasisOf(euler, sin, cos).up, BasisOf(euler, sin, cos).forward) == 0.0
  {
    var b := BasisOf(euler, sin, cos);
    CrossOrthogonal(b.forward, WorldUp);
    CrossOrthogonal(b.right, b.forward);
  }

  /** The forward vector of yaw (cy, sy) and pitch (cp, sp) on the unit circle
      has length 1. */
  lemma ForwardLength(cy: real, sy: real, cp: real, sp: real)
    requires cy * cy + sy * sy == 1.0 && cp * cp + sp * sp == 1.0
    ensures Dot(Vec3(cy * cp, sy * cp, sp), Vec3(cy * cp, sy * cp, sp)) == 1.0
  {
    calc {
      Dot(Vec3(cy * cp, sy * cp, sp), Vec3(cy * cp, sy * cp, sp));
      (cy * cy + sy * sy) * (cp * cp) + sp * sp;
      1.0;
    }
  }

  /** forward × (0,0,1) is (sy·cp, -cy·cp, 0), of squared length cp². */
  lemma RightLength(cy: real, sy: real, cp: real, sp: real)
    requires cy * cy + sy * sy == 1.0
    ensures Cross(Vec3(cy * cp, sy * cp, sp), WorldUp) == Vec3(sy * cp, -(cy * cp), 0.0)
    ensures Dot(Vec3(sy * cp, -(cy * cp), 0.0), Vec3(sy * cp, -(cy * cp), 0.0)) == cp * cp
  {
    calc {
      Dot(Vec3(sy * cp, -(cy * cp), 0.0), Vec3(sy * cp, -(cy * cp), 0.0));
      (cy * cy + sy * sy) * (cp * cp);
      cp * cp;
    }
  }

  /** right × forward is (-cy·cp·sp, -sy·cp·sp, cp²). */
  lemma UpOf(cy: real, sy: real, cp: real, sp: real)
    requires cy * cy + sy * sy == 1.0
    ensures Cross(Vec3(sy * cp, -(cy * cp), 0.0), Vec3(cy * cp, sy * cp, sp))
         == Vec3(-(cy * cp * sp), -(sy * cp * sp), cp * cp)
  {
    calc {
      Cross(Vec3(sy * cp, -(cy * cp), 0.0), Vec3(cy * cp, sy * cp, sp)).z;
      (cy * cy + sy * sy) * (cp * cp);
      cp * cp;
    }
  }

  /** That up vector has squared length cp². */
  lemma UpLength(cy: real, sy: real, cp: real, sp: real)
    requires cy * cy + sy * sy == 1.0 && cp * cp + sp * sp == 1.0
    ensures Dot(Vec3(-(cy * cp * sp), -(sy * cp * sp), cp * cp), Vec3(-(cy * cp * sp), -(sy * cp * sp), cp * cp))
         == cp * cp
  {
    calc {
      Dot(Vec3(-(cy * cp * sp), -(sy * cp * sp), cp * cp), Vec3(-(cy * cp * sp), -(sy * cp * sp), cp * cp));
      (cy * cy + sy * sy) * (cp * cp) * (sp * sp) + (cp * cp) * (cp * cp);
      (cp * cp) * (sp * sp + cp * cp);
      cp * cp;
    }
  }

  /** Given sin² + cos² = 1, forward is a unit vector, but right and up, which
      `update` never normalises, both have squared length cos²(pitch): they are
      unit only when the pitch's cosine is ±1. */
  lemma BasisLengths(euler: Vec3, sin: real -> real, cos: real -> real)
    requires forall x :: sin(x) * sin(x) + cos(x) * cos(x) == 1.0
    ensures Dot(BasisOf(euler, sin, cos).forward, BasisOf(euler, sin, cos).forward) == 1.0
    ensures Dot(BasisOf(euler, sin, cos).right, BasisOf(euler, sin, cos).right)
         == cos(DegreesToRadians(euler.y)) * cos(DegreesToRadians(euler.y))
    ensures Dot(BasisOf(euler, sin, cos).up, BasisOf(euler, sin, cos).up)
         == cos(DegreesToRadians(euler.y)) * cos(DegreesToRadians(euler.y))
  {
    var yaw, pitch := DegreesToRadians(euler.z), DegreesToRadians(euler.y);
    var cy, sy, cp, sp := cos(yaw), sin(yaw), cos(pitch), sin(pitch);
    assert sin(yaw) * sin(yaw) + cos(yaw) * cos(yaw) == 1.0;
    assert sin(pitch) * sin(pitch) + cos(pitch) * cos(pitch) == 1.0;
    var b := BasisOf(euler, sin, cos);
    assert b.forward == Vec3(cy * cp, sy * cp, sp);
    RightLength(cy, sy, cp, sp);
    assert b.right == Vec3(sy * cp, -(cy * cp), 0.0);
    UpOf(cy, sy, cp, sp);
    assert b.up == Vec3(-(cy * cp * sp), -(sy * cp * sp), cp * cp);
    ForwardLength(cy, sy, cp, sp);
    UpLength(cy, sy, cp, sp);
  }

  /** The position `pan(dx, dy)` moves to: dx along forward, then dy along right. */
  function Panned(position: Vec3, forward: Vec3, right: Vec3, dx: real, dy: real): Vec3
  {
    ScaleAndAdd(ScaleAndAdd(position, forward, dx), right, dy)
  }

  /** Panning by (0, 0) stays in place. */
  lemma PanZero(position: Vec3, forward: Vec3, right: Vec3)
    ensures Panned(position, forward, right, 0.0, 0.0) == position
  {
    ScaleAndAddZero(position, forward);
    ScaleAndAddZero(position, right);
  }

  /** Two pans with the same basis compose into one pan by the summed deltas. */
  lemma PanCompose(position: Vec3, forward: Vec3, right: Vec3, dx1: real, dy1: real, dx2: real, dy2: real)
    ensures Panned(Panned(position, forward, right, dx1, dy1), forward, right, dx2, dy2)
         == Panned(position, forward, right, dx1 + dx2, dy1 + dy2)
  {
    ScaleAndAddCommute(ScaleAndAdd(position, forward, dx1), right, dy1, forward, dx2);
    ScaleAndAddTwice(position, forward, dx1, dx2);
    ScaleAndAddTwice(ScaleAndAdd(position, forward, dx1 + dx2), right, dy1, dy2);
  }

  class Camera {
    var position: Vec3
    var euler: Vec3
    var forward: Vec3
    var right: Vec3
    var up: Vec3

    /** The basis fields as one value. */
    function CurrentBasis(): Basis
      reads this
    {
      Basis(forward, right, up)
    }

    /** The constructor stores [0, verticalRotation, horizontalRotation] and then
        runs `update`. The zero vectors src/camera.ts stores in right and up first
        are overwritten by that `update` before anything reads them. */
    constructor (position: Vec3, verticalRotation: real, horizontalRotation: real,
                 sin: real -> real, cos: real -> real)
      ensures this.position == position
      ensures euler == Vec3(0.0, verticalRotation, horizontalRotation)
      ensures CurrentBasis() == BasisOf(euler, sin, cos)
    {
      this.position := position;
      euler := Vec3(0.0, verticalRotation, horizontalRotation);
      new;
      assert euler == Vec3(0.0, verticalRotation, horizontalRotation);
      Update(sin, cos);
    }

    /** `update`: recompute forward from euler, then right and up by cross
        products. Position and euler are not touched. */
    method Update(sin: real -> real, cos: real -> real)
      modifies this`forward, this`right, this`up
      ensures CurrentBasis() == BasisOf(euler, sin, cos)
      ensures right.z == 0.0 && Dot(right, forward) == 0.0
      ensures Dot(up, right) == 0.0 && Dot(up, forward) == 0.0
    {
      var yaw := DegreesToRadians(euler.z);
      var pitch := DegreesToRadians(euler.y);
      forward := Vec3(cos(yaw) * cos(pitch), sin(yaw) * cos(pitch), sin(pitch));
      right := Cross(forward, WorldUp);
      up := Cross(right, forward);
      BasisOrthogonal(euler, sin, cos);
    }

    /** `pan(dx, dy)`: move along the current forward and right vectors. */
    method Pan(dx: real, dy: real)
      modifies this`position
      ensures position == Panned(old(position), forward, right, dx, dy)
      ensures position == Vec3(old(position).x + dx * forward.x + dy * right.x,
                               old(position).y + dx * forward.y + dy * right.y,
                               old(position).z + dx * forward.z + dy * right.z)
    {
      position := ScaleAndAdd(position, forward, dx);
      position := ScaleAndAdd(position, right, dy);
    }
  }
}

/** Three-component vectors over the reals and the few `vec3` operations of the
    gl-matrix library that the camera uses. Float32/float64 rounding is not
    modelled: every component is an exact real. */
module Vectors {

  /** A `vec3`; the TypeScript code indexes it as [0], [1], [2], which are x, y, z here. */
  datatype Vec3 = Vec3(x: real, y: real, z: real)

  const Zero: Vec3 := Vec3(0.0, 0.0, 0.0)

  /** `v[i]` */
  function Get(v: Vec3, i: nat): real
    requires i < 3
  {
    if i == 0 then v.x else if i == 1 then v.y else v.z
  }

  /** The vector after the indexed write `v[i] = value`: component i is the new
      value and the other two components are those of v. */
  function With(v: Vec3, i: nat, value: real): (r: Vec3)
    requires i < 3
    ensures Get(r, i) == value
    ensures forall j: nat :: j < 3 && j != i ==> Get(r, j) == Get(v, j)
  {
    if i == 0 then v.(x := value) else if i == 1 then v.(y := value) else v.(z := value)
  }

  function Dot(a: Vec3, b: Vec3): real
  {
    a.x * b.x + a.y * b.y + a.z * b.z
  }

  /** `vec3.cross(out, a, b)`: the value written to `out`. */
  function Cross(a: Vec3, b: Vec3): Vec3
  {
    Vec3(a.y * b.z - a.z * b.y,
         a.z * b.x - a.x * b.z,
         a.x * b.y - a.y * b.x)
  }

  /** `vec3.scaleAndAdd(out, a, b, s)`: the value written to `out`, a + s·b. */
  function ScaleAndAdd(a: Vec3, b: Vec3, s: real): Vec3
  {
    Vec3(a.x + b.x * s, a.y + b.y * s, a.z + b.z * s)
  }

  /** Adding a zero multiple of any vector changes nothing. */
  lemma ScaleAndAddZero(a: Vec3, b: Vec3)
    ensures ScaleAndAdd(a, b, 0.0) == a
  {
  }

  /** Two steps along the same vector add up. */
  lemma ScaleAndAddTwice(a: Vec3, b: Vec3, s: real, t: real)
    ensures ScaleAndAdd(ScaleAndAdd(a, b, s), b, t) == ScaleAndAdd(a, b, s + t)
  {
  }

  /** Steps along two vectors can be taken in either order. */
  lemma ScaleAndAddCommute(a: Vec3, b: Vec3, s: real, c: Vec3, t: real)
    ensures ScaleAndAdd(ScaleAndAdd(a, b, s), c, t) == ScaleAndAdd(ScaleAndAdd(a, c, t), b, s)
  {
  }

  /** The cross product is orthogonal to both of its operands. */
  lemma CrossOrthogonal(a: Vec3, b: Vec3)
    ensures Dot(Cross(a, b), a) == 0.0
    ensures Dot(Cross(a, b), b) == 0.0
  {
  }
}

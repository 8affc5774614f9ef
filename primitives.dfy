/** The sphere record of src/primatives.ts. */
module Primitives {
  import opened Vectors

  /** A sphere: center, radius, color and one padding scalar, 3 + 1 + 3 + 1
      scalars, which is 32 bytes as 32-bit floats. The renderer serialises the
      fields in this order (RayMarchingRenderer.SphereRecord). */
  datatype Sphere = Sphere(center: Vec3, radius: real, color: Vec3, padding: real)

  /** `new Sphere(center, radius, color)`: the arguments are stored as given,
      with no validation of radius or color (there is no precondition), and
      the padding is 0. */
  function NewSphere(center: Vec3, radius: real, color: Vec3): (s: Sphere)
    ensures s.center == center && s.radius == radius && s.color == color
    ensures s.padding == 0.0
  {
    Sphere(center, radius, color, 0.0)
  }
}

/** Three-component vectors standing in for the `dlovi::Matrix` column vectors the
    drawer reads points, edges, normals and camera orientations into. Coordinates
    are exact reals: the model abstracts from double and float rounding. */
module Geometry {

  datatype Vec3 = Vec3(x: real, y: real, z: real)

  const Zero: Vec3 := Vec3(0.0, 0.0, 0.0)

  /** Component-wise difference `a - b` (an edge between two vertices). */
  function Sub(a: Vec3, b: Vec3): Vec3 {
    Vec3(a.x - b.x, a.y - b.y, a.z - b.z)
  }

  /** The cross product `a × b`. */
  function Cross(a: Vec3, b: Vec3): Vec3 {
    Vec3(a.y * b.z - a.z * b.y, a.z * b.x - a.x * b.z, a.x * b.y - a.y * b.x)
  }

  function Dot(a: Vec3, b: Vec3): real {
    a.x * b.x + a.y * b.y + a.z * b.z
  }

  /** `a` with every component multiplied by `c`; dividing by a norm `k` is `Scale(a, 1.0 / k)`. */
  function Scale(a: Vec3, c: real): Vec3 {
    Vec3(c * a.x, c * a.y, c * a.z)
  }

  /** Scaling by a positive factor does not change the sign of a dot product, so the
      facing test on the normalised normal agrees with the test on the raw cross product. */
  lemma PositiveScaleKeepsSign(n: Vec3, o: Vec3, k: real)
    requires k > 0.0
    ensures Dot(Scale(n, 1.0 / k), o) > 0.0 <==> Dot(n, o) > 0.0
  {
    var c := 1.0 / k;
    assert c > 0.0;
    assert Dot(Scale(n, c), o) == c * Dot(n, o);
  }
}

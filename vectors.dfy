/**
 * Three-component vectors over the reals, standing for the framework's `Vector3`
 * (whose float rounding is not modelled).
 */
module Vectors {

  datatype Vec3 = Vec3(x: real, y: real, z: real)

  const Zero := Vec3(0.0, 0.0, 0.0)
  const UnitX := Vec3(1.0, 0.0, 0.0)
  const UnitY := Vec3(0.0, 1.0, 0.0)
  const UnitZ := Vec3(0.0, 0.0, 1.0)

  /** `a + b` */
  function Add(a: Vec3, b: Vec3): Vec3 {
    Vec3(a.x + b.x, a.y + b.y, a.z + b.z)
  }

  /** `a - b` */
  function Sub(a: Vec3, b: Vec3): Vec3 {
    Vec3(a.x - b.x, a.y - b.y, a.z - b.z)
  }

  /** `v * s` */
  function Scale(v: Vec3, s: real): Vec3 {
    Vec3(v.x * s, v.y * s, v.z * s)
  }

  // ---- algebra the camera proofs use

  lemma AddAssoc(a: Vec3, b: Vec3, c: Vec3)
    ensures Add(Add(a, b), c) == Add(a, Add(b, c))
  {
  }

  lemma SubIsAddNegated(o: Vec3, v: Vec3, t: real)
    ensures Sub(o, Scale(v, t)) == Add(o, Scale(v, -1.0 * t))
  {
  }

  lemma ScaleByOne(v: Vec3, t: real)
    ensures Scale(v, 1.0 * t) == Scale(v, t)
  {
  }

  lemma AddZeroScale(o: Vec3, v: Vec3, t: real)
    ensures Add(o, Scale(v, 0.0 * t)) == o
  {
  }

  /** Two axis steps of length `t2 = 2 t` add up to twice the two steps of length `t`. */
  lemma PairDoubles(a: Vec3, b: Vec3, x: real, y: real, t: real, t2: real)
    requires t2 == t * 2.0
    ensures Add(Scale(a, x * t2), Scale(b, y * t2)) == Scale(Add(Scale(a, x * t), Scale(b, y * t)), 2.0)
  {
    assert x * t2 == (x * t) * 2.0 && y * t2 == (y * t) * 2.0;
  }
}

/**
 * Vectors and the scalar helpers the gameplay code takes from `Math` and
 * from the vector classes of its libraries. Positions and velocities are
 * reals; a Euclidean distance is never taken: every comparison
 * `a.distanceTo(b) < r` is written `DistSq(a, b) < r * r`, which is
 * equivalent because a distance is never negative.
 */
module Geometry {
  datatype Vec3 = Vec3(x: real, y: real, z: real)

  const Zero: Vec3 := Vec3(0.0, 0.0, 0.0)

  function Abs(v: real): (r: real)
    ensures r >= 0.0
    ensures r == v || r == -v
  {
    if v < 0.0 then -v else v
  }

  function Max(a: real, b: real): (r: real)
    ensures r >= a && r >= b
    ensures r == a || r == b
  {
    if a >= b then a else b
  }

  function Min(a: real, b: real): (r: real)
    ensures r <= a && r <= b
    ensures r == a || r == b
  {
    if a <= b then a else b
  }

  /** `Math.sign` on a finite number. */
  function Sign(v: real): (s: int)
    ensures s == -1 || s == 0 || s == 1
    ensures s == 1 <==> v > 0.0
    ensures s == -1 <==> v < 0.0
    ensures (s as real) * v == Abs(v)
  {
    if v > 0.0 then 1 else if v < 0.0 then -1 else 0
  }

  lemma SquareNonNegative(d: real)
    ensures d * d >= 0.0
  {
    if d < 0.0 {
      assert d * d == (-d) * (-d);
    }
  }

  /** The squared Euclidean distance in three dimensions. */
  function DistSq(a: Vec3, b: Vec3): (d: real)
    ensures d >= 0.0
  {
    SquareNonNegative(a.x - b.x);
    SquareNonNegative(a.y - b.y);
    SquareNonNegative(a.z - b.z);
    (a.x - b.x) * (a.x - b.x) + (a.y - b.y) * (a.y - b.y) + (a.z - b.z) * (a.z - b.z)
  }
}

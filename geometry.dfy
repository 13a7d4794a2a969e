/** Vectors of the 3-D scene and the distance tests the game makes on them.
    Coordinates are reals (the floating-point rounding of the game is not modelled).
    The only operation that is not computed here is Math.sqrt: functions that need it
    receive it as a function value satisfying IsSqrt. Distance comparisons are made on
    squared lengths, which over the reals is exact (see DistanceComparisons). */
module Geometry {

  datatype Vec3 = Vec3(x: real, y: real, z: real)

  const Origin := Vec3(0.0, 0.0, 0.0)

  /** Math.PI as a real (the double closest to pi, written out). */
  const Pi := 3.141592653589793

  function Add(a: Vec3, b: Vec3): Vec3 { Vec3(a.x + b.x, a.y + b.y, a.z + b.z) }

  function Sub(a: Vec3, b: Vec3): Vec3 { Vec3(a.x - b.x, a.y - b.y, a.z - b.z) }

  function Scale(v: Vec3, k: real): Vec3 { Vec3(v.x * k, v.y * k, v.z * k) }

  function Cross(a: Vec3, b: Vec3): Vec3 {
    Vec3(a.y * b.z - a.z * b.y, a.z * b.x - a.x * b.z, a.x * b.y - a.y * b.x)
  }

  /** The vector with its height dropped (`v.y = 0`), used for steering on the ground plane. */
  function Flat(v: Vec3): Vec3 { v.(y := 0.0) }

  function LengthSq(v: Vec3): real { v.x * v.x + v.y * v.y + v.z * v.z }

  /** Squared 3-D distance, the square of `a.distanceTo(b)`. */
  function DistanceSq(a: Vec3, b: Vec3): real { LengthSq(Sub(a, b)) }

  /** Squared distance of two points of the ground plane given by (x, z) pairs, the square
      of `new Vector2(ax, az).distanceTo(new Vector2(bx, bz))`. */
  function PlanarDistanceSq(ax: real, az: real, bx: real, bz: real): real {
    (ax - bx) * (ax - bx) + (az - bz) * (az - bz)
  }

  /** `distance < r`, given the squared distance. */
  predicate Within(distSq: real, r: real) { r > 0.0 && distSq < r * r }

  /** `distance > r`, given the squared distance. */
  predicate Beyond(distSq: real, r: real) { r < 0.0 || distSq > r * r }

  /** A function that computes the non-negative square root of every non-negative real. */
  ghost predicate IsSqrt(sqrt: real -> real) {
    forall a :: a >= 0.0 ==> sqrt(a) >= 0.0 && sqrt(a) * sqrt(a) == a
  }

  /** `Vector3.normalize()`: divide by the length, or by 1 when the length is 0. */
  function Normalize(v: Vec3, sqrt: real -> real): Vec3 {
    var len := sqrt(LengthSq(v));
    if len == 0.0 then v else Scale(v, 1.0 / len)
  }

  function Clamp(v: real, lo: real, hi: real): real {
    if v < lo then lo else if v > hi then hi else v
  }

  function Abs(v: real): real { if v < 0.0 then -v else v }

  function Min(a: real, b: real): real { if a <= b then a else b }

  function Max(a: real, b: real): real { if a >= b then a else b }

  /** A uniform draw of Math.random(). */
  predicate IsUnit(r: real) { 0.0 <= r < 1.0 }

  lemma SquareLess(a: real, b: real)
    requires 0.0 <= a < b
    ensures a * a < b * b
  {
    var ab := a * b;
    assert a * a <= ab;
    assert ab < b * b;
  }

  lemma SquareMonotone(a: real, b: real)
    requires 0.0 <= a && 0.0 <= b
    ensures a < b <==> a * a < b * b
  {
    if a < b {
      SquareLess(a, b);
    } else if b < a {
      SquareLess(b, a);
    }
  }

  /** Comparing a distance with a radius is the same as comparing its square with the
      squared radius, which is why the model never needs the square root for a test. */
  lemma DistanceComparisons(sqrt: real -> real, distSq: real, r: real)
    requires IsSqrt(sqrt) && distSq >= 0.0
    ensures sqrt(distSq) < r <==> Within(distSq, r)
    ensures sqrt(distSq) > r <==> Beyond(distSq, r)
  {
    var d := sqrt(distSq);
    assert d >= 0.0 && d * d == distSq;
    if r >= 0.0 {
      SquareMonotone(d, r);
      SquareMonotone(r, d);
    }
  }

  lemma DivideSquare(a: real, l: real)
    requires l != 0.0
    ensures (a * (1.0 / l)) * (a * (1.0 / l)) == (a * a) / (l * l)
  {
    var k := 1.0 / l;
    assert (a * k) * (a * k) == (a * a) * (k * k);
    assert k * k * (l * l) == 1.0;
  }

  /** A normalized non-zero vector has length 1 and scaled back by the original length gives
      the original vector; normalizing a vector with no height keeps it at height 0. */
  lemma NormalizeIsUnit(v: Vec3, sqrt: real -> real)
    requires IsSqrt(sqrt) && LengthSq(v) > 0.0
    ensures LengthSq(Normalize(v, sqrt)) == 1.0
    ensures Scale(Normalize(v, sqrt), sqrt(LengthSq(v))) == v
    ensures v.y == 0.0 ==> Normalize(v, sqrt).y == 0.0
  {
    var l := sqrt(LengthSq(v));
    assert l * l == LengthSq(v);
    assert l != 0.0;
    var k := 1.0 / l;
    var u := Normalize(v, sqrt);
    assert u == Scale(v, k);
    DivideSquare(v.x, l);
    DivideSquare(v.y, l);
    DivideSquare(v.z, l);
    calc {
      LengthSq(u);
      (v.x * v.x) / (l * l) + (v.y * v.y) / (l * l) + (v.z * v.z) / (l * l);
      (v.x * v.x + v.y * v.y + v.z * v.z) / (l * l);
      1.0;
    }
    assert k * l == 1.0;
    assert v.x * k * l == v.x;
    assert v.y * k * l == v.y;
    assert v.z * k * l == v.z;
  }

  /** Moving by `step` along a unit direction with no height moves exactly `step` on the
      ground plane and keeps the height. */
  lemma StepAlongUnit(p: Vec3, u: Vec3, step: real)
    requires LengthSq(u) == 1.0 && u.y == 0.0
    ensures Add(p, Scale(u, step)).y == p.y
    ensures DistanceSq(Add(p, Scale(u, step)), p) == step * step
  {
    var q := Add(p, Scale(u, step));
    assert Sub(q, p) == Vec3(u.x * step, 0.0, u.z * step);
    calc {
      DistanceSq(q, p);
      (u.x * step) * (u.x * step) + 0.0 * 0.0 + (u.z * step) * (u.z * step);
      (u.x * u.x + u.z * u.z) * (step * step);
      step * step;
    }
  }
}

/** What the three placement loops of src/rocks.ts, src/bush.ts and src/tree.ts share: a
    random coordinate spread over an area, the two exclusion discs (pond and nest) that every
    placed object must stay clear of on the ground plane, and the order-preserving filter
    that says which candidates of a run of attempts end up in the scene. */
module Scatter {
  import opened Geometry

  /** `(Math.random() - 0.5) * extent`: a coordinate in an interval of width `extent`
      centred on 0. */
  function Spread(draw: real, extent: real): (r: real)
    ensures IsUnit(draw) ==> Abs(r) <= Abs(extent) / 2.0
  {
    var offset := draw - 0.5;
    assert -0.5 <= offset < 0.5 ==> Abs(offset * extent) <= Abs(extent) / 2.0 by {
      if -0.5 <= offset < 0.5 {
        SpreadBound(offset, extent);
      }
    }
    offset * extent
  }

  lemma SpreadBound(offset: real, extent: real)
    requires -0.5 <= offset < 0.5
    ensures Abs(offset * extent) <= Abs(extent) / 2.0
  {
    if extent >= 0.0 {
      HalfBound(offset, extent);
    } else {
      var n := -extent;
      HalfBound(offset, n);
      var q := offset * n;
      assert offset * extent == -q;
      assert Abs(extent) == n;
    }
  }

  lemma HalfBound(a: real, b: real)
    requires -0.5 <= a <= 0.5 && b >= 0.0
    ensures -0.5 * b <= a * b <= 0.5 * b
  {
    var lo := (a + 0.5) * b;
    var hi := (0.5 - a) * b;
    assert lo >= 0.0 && hi >= 0.0;
    assert lo == a * b + 0.5 * b;
    assert hi == 0.5 * b - a * b;
  }

  /** The two discs to avoid: the pond and the nest, each a centre and a radius. */
  datatype Exclusion = Exclusion(pondPosition: Vec3, pondRadius: real, nestPosition: Vec3, nestRadius: real)

  /** Where a candidate would stand on the ground plane, and the radius it needs. */
  datatype Footprint = Footprint(x: real, z: real, radius: real)

  /** The acceptance test of every loop: the planar distance to the pond centre is greater
      than the pond radius plus the object's radius, and likewise for the nest. */
  predicate Clear(e: Exclusion, f: Footprint) {
    && Beyond(PlanarDistanceSq(f.x, f.z, e.pondPosition.x, e.pondPosition.z), e.pondRadius + f.radius)
    && Beyond(PlanarDistanceSq(f.x, f.z, e.nestPosition.x, e.nestPosition.z), e.nestRadius + f.radius)
  }

  /** The candidates of a run of attempts that pass the test, in the order they were drawn:
      what the loop adds to the scene. */
  function Kept<T>(candidates: seq<T>, footprint: T -> Footprint, e: Exclusion): seq<T>
    decreases |candidates|
  {
    if |candidates| == 0 then []
    else
      var last := candidates[|candidates| - 1];
      Kept(candidates[..|candidates| - 1], footprint, e) + (if Clear(e, footprint(last)) then [last] else [])
  }

  /** Exactly the candidates that are clear of both discs are placed: nothing rejected is ever
      added, nothing accepted is lost, and no more objects are placed than attempts made. */
  lemma {:induction false} KeptExactlyClear<T>(candidates: seq<T>, footprint: T -> Footprint, e: Exclusion)
    ensures |Kept(candidates, footprint, e)| <= |candidates|
    ensures forall t :: t in Kept(candidates, footprint, e) <==> t in candidates && Clear(e, footprint(t))
    decreases |candidates|
  {
    if |candidates| > 0 {
      var prefix := candidates[..|candidates| - 1];
      KeptExactlyClear(prefix, footprint, e);
      assert candidates == prefix + [candidates[|candidates| - 1]];
    }
  }
}

/** The bushes of src/bush.ts: `createBush`, which builds a bush out of four to six
    spheres, and the bounded placement loop of `createBushes`. A sphere keeps the values its
    position is made from (the angle, the distance from the bush's centre and the height);
    turning angle and distance into x and z takes a cosine and a sine and is not modelled. */
module Bushes {
  import opened Geometry
  import opened Scatter

  datatype Sphere = Sphere(radius: real, angle: real, distance: real, height: real)

  /** A bush group: its spheres, the bounding radius stored in its user data, and where it
      stands. */
  datatype Bush = Bush(spheres: seq<Sphere>, boundingRadius: real, position: Vec3)

  /** The Math.random() values of one sphere: its size, angle, distance and height. */
  datatype SphereDraw = SphereDraw(radius: real, angle: real, distance: real, height: real)

  predicate IsUnitSphereDraw(d: SphereDraw) {
    IsUnit(d.radius) && IsUnit(d.angle) && IsUnit(d.distance) && IsUnit(d.height)
  }

  /** `Math.floor(Math.random() * 3) + 4`. */
  function NumSpheres(shape: real): (n: int)
    ensures IsUnit(shape) ==> 4 <= n <= 6
  {
    (shape * 3.0).Floor + 4
  }

  /** One sphere of a bush whose base radius is `baseRadius`. */
  function SphereOf(d: SphereDraw, baseRadius: real): Sphere {
    var sphereRadius := (d.radius * 0.3 + 0.4) * baseRadius;
    Sphere(sphereRadius, d.angle * Pi * 2.0, d.distance * baseRadius * 0.6,
           d.height * baseRadius * 0.4 + sphereRadius * 0.5)
  }

  /** A sphere's radius is 0.4 to 0.7 times the base radius, its angle is a full turn at
      most, it sits less than 0.6 base radii from the bush's centre, and its centre is at
      least half its own radius above the ground. */
  lemma SphereBounds(d: SphereDraw, baseRadius: real)
    requires IsUnitSphereDraw(d) && baseRadius > 0.0
    ensures var s := SphereOf(d, baseRadius);
      && 0.4 * baseRadius <= s.radius < 0.7 * baseRadius
      && 0.0 <= s.angle < 2.0 * Pi
      && 0.0 <= s.distance < 0.6 * baseRadius
      && s.radius * 0.5 <= s.height < 0.4 * baseRadius + s.radius * 0.5
  {
    SphereRadiusRange(d, baseRadius);
    SphereDistanceRange(d, baseRadius);
    SphereHeightRange(d, baseRadius);
  }

  lemma UnitTimes(u: real, k: real)
    requires IsUnit(u) && k > 0.0
    ensures 0.0 <= u * k < k
  {
    assert (1.0 - u) * k > 0.0;
  }

  lemma SphereRadiusRange(d: SphereDraw, baseRadius: real)
    requires IsUnit(d.radius) && baseRadius > 0.0
    ensures 0.4 * baseRadius <= SphereOf(d, baseRadius).radius < 0.7 * baseRadius
  {
    UnitTimes(d.radius, baseRadius);
    assert SphereOf(d, baseRadius).radius == (d.radius * 0.3 + 0.4) * baseRadius
                                          == d.radius * baseRadius * 0.3 + 0.4 * baseRadius;
  }

  lemma SphereDistanceRange(d: SphereDraw, baseRadius: real)
    requires IsUnit(d.distance) && baseRadius > 0.0
    ensures 0.0 <= SphereOf(d, baseRadius).distance < 0.6 * baseRadius
  {
    UnitTimes(d.distance, baseRadius);
    assert SphereOf(d, baseRadius).distance == d.distance * baseRadius * 0.6;
  }

  lemma SphereHeightRange(d: SphereDraw, baseRadius: real)
    requires IsUnit(d.height) && baseRadius > 0.0
    ensures var s := SphereOf(d, baseRadius);
      s.radius * 0.5 <= s.height < 0.4 * baseRadius + s.radius * 0.5
  {
    UnitTimes(d.height, baseRadius);
    var s := SphereOf(d, baseRadius);
    assert s.height == d.height * baseRadius * 0.4 + s.radius * 0.5;
  }

  /** The bush `createBush(scale)` builds from the draws of its sphere count and of each
      sphere, standing at the origin. */
  function BushOf(scale: real, shape: real, sphereDraws: seq<SphereDraw>): (b: Bush)
    requires |sphereDraws| >= NumSpheres(shape)
    ensures |b.spheres| <= |sphereDraws|
    ensures NumSpheres(shape) >= 0 ==> |b.spheres| == NumSpheres(shape)
    ensures IsUnit(shape) ==> 4 <= |b.spheres| <= 6
    ensures b.boundingRadius == 0.6 * scale && b.position == Origin
    ensures forall i :: 0 <= i < |b.spheres| ==> b.spheres[i] == SphereOf(sphereDraws[i], 0.5 * scale)
  {
    var n := if NumSpheres(shape) < 0 then 0 else NumSpheres(shape);
    Bush(seq(n, i requires 0 <= i < n => SphereOf(sphereDraws[i], 0.5 * scale)), 0.5 * scale * 1.2, Origin)
  }

  /** `createBush(scale)`: one sphere per turn of the loop. */
  method CreateBush(scale: real := 1.0, shape: real, sphereDraws: seq<SphereDraw>) returns (bush: Bush)
    requires |sphereDraws| >= NumSpheres(shape)
    ensures bush == BushOf(scale, shape, sphereDraws)
    ensures IsUnit(shape) ==> 4 <= |bush.spheres| <= 6
    ensures bush.boundingRadius == 0.6 * scale
  {
    var spheres: seq<Sphere> := [];
    var numSpheres := (shape * 3.0).Floor + 4;
    var baseRadius := 0.5 * scale;

    var i := 0;
    while i < numSpheres
      invariant 0 <= i && (i <= numSpheres || i == 0)
      invariant |spheres| == i
      invariant forall j :: 0 <= j < i ==> spheres[j] == SphereOf(sphereDraws[j], baseRadius)
    {
      var d := sphereDraws[i];
      var sphereRadius := (d.radius * 0.3 + 0.4) * baseRadius;
      var angle := d.angle * Pi * 2.0;
      var distance := d.distance * baseRadius * 0.6;
      var height := d.height * baseRadius * 0.4 + sphereRadius * 0.5;
      spheres := spheres + [Sphere(sphereRadius, angle, distance, height)];
      i := i + 1;
    }

    bush := Bush(spheres, baseRadius * 1.2, Origin);
  }

  /** `boundingRadius || bushScale * 0.6`: the stored radius, or the estimate when the stored
      one is 0. For every bush `createBush` builds the two agree, so the fallback never
      changes the value. */
  function PlacementRadius(b: Bush, scale: real): (r: real)
    ensures b.boundingRadius == 0.6 * scale ==> r == b.boundingRadius == 0.6 * scale
  {
    if b.boundingRadius != 0.0 then b.boundingRadius else scale * 0.6
  }

  /** The Math.random() values of one attempt: the scale, the bush's own draws, then x and z. */
  datatype BushDraw = BushDraw(scale: real, shape: real, spheres: seq<SphereDraw>, x: real, z: real)

  predicate WellSized(d: BushDraw) {
    |d.spheres| >= NumSpheres(d.shape)
  }

  predicate IsUnitDraw(d: BushDraw) {
    && IsUnit(d.scale) && IsUnit(d.shape) && IsUnit(d.x) && IsUnit(d.z)
    && forall i :: 0 <= i < |d.spheres| ==> IsUnitSphereDraw(d.spheres[i])
  }

  /** The bush an attempt proposes: scale in [0.7, 1.3), standing on the ground, kept inside
      the area by its radius. */
  function Candidate(d: BushDraw, areaWidth: real, areaDepth: real): (b: Bush)
    requires WellSized(d)
    ensures IsUnitDraw(d) ==> 0.42 <= b.boundingRadius < 0.78 && 4 <= |b.spheres| <= 6
    ensures IsUnitDraw(d) ==> forall s :: s in b.spheres ==>
              0.4 * (b.boundingRadius / 1.2) <= s.radius < 0.7 * (b.boundingRadius / 1.2)
    ensures b.position.y == 0.0
    ensures IsUnitDraw(d) ==> Abs(b.position.x) <= Abs(areaWidth - 2.0 * b.boundingRadius) / 2.0
    ensures IsUnitDraw(d) ==> Abs(b.position.z) <= Abs(areaDepth - 2.0 * b.boundingRadius) / 2.0
  {
    var bushScale := d.scale * 0.6 + 0.7;
    var bush := BushOf(bushScale, d.shape, d.spheres);
    var radius := PlacementRadius(bush, bushScale);
    assert IsUnitDraw(d) ==> forall s :: s in bush.spheres ==>
             0.4 * (0.5 * bushScale) <= s.radius < 0.7 * (0.5 * bushScale) by {
      if IsUnitDraw(d) {
        forall s | s in bush.spheres
          ensures 0.4 * (0.5 * bushScale) <= s.radius < 0.7 * (0.5 * bushScale)
        {
          var i :| 0 <= i < |bush.spheres| && bush.spheres[i] == s;
          SphereBounds(d.spheres[i], 0.5 * bushScale);
        }
      }
    }
    bush.(position := Vec3(Spread(d.x, areaWidth - radius * 2.0), 0.0, Spread(d.z, areaDepth - radius * 2.0)))
  }

  function Candidates(draws: seq<BushDraw>, areaWidth: real, areaDepth: real): (r: seq<Bush>)
    requires forall i :: 0 <= i < |draws| ==> WellSized(draws[i])
    ensures |r| == |draws|
    ensures forall i :: 0 <= i < |draws| ==> r[i] == Candidate(draws[i], areaWidth, areaDepth)
  {
    seq(|draws|, i requires 0 <= i < |draws| => Candidate(draws[i], areaWidth, areaDepth))
  }

  function FootprintOf(b: Bush): Footprint {
    Footprint(b.position.x, b.position.z, b.boundingRadius)
  }

  /** What every bush that reaches the scene satisfies. */
  predicate Placeable(b: Bush, e: Exclusion, areaWidth: real, areaDepth: real) {
    && Clear(e, FootprintOf(b))
    && b.position.y == 0.0
    && 0.42 <= b.boundingRadius < 0.78
    && 4 <= |b.spheres| <= 6
    && Abs(b.position.x) <= Abs(areaWidth - 2.0 * b.boundingRadius) / 2.0
    && Abs(b.position.z) <= Abs(areaDepth - 2.0 * b.boundingRadius) / 2.0
  }

  /** After any number of attempts, every bush in the scene stands on the ground inside the
      area and clear of the pond and the nest by its radius; no clear candidate is dropped. */
  lemma PlacedBushesArePlaceable(draws: seq<BushDraw>, attempts: nat, e: Exclusion, areaWidth: real, areaDepth: real)
    requires forall i :: 0 <= i < |draws| ==> WellSized(draws[i])
    requires attempts <= |draws|
    requires forall i :: 0 <= i < attempts ==> IsUnitDraw(draws[i])
    ensures var placed := Kept(Candidates(draws, areaWidth, areaDepth)[..attempts], FootprintOf, e);
      && (forall b :: b in placed ==> Placeable(b, e, areaWidth, areaDepth))
      && (forall i :: 0 <= i < attempts && Clear(e, FootprintOf(Candidate(draws[i], areaWidth, areaDepth))) ==>
            Candidate(draws[i], areaWidth, areaDepth) in placed)
  {
    var cs := Candidates(draws, areaWidth, areaDepth)[..attempts];
    KeptExactlyClear(cs, FootprintOf, e);
    forall b | b in Kept(cs, FootprintOf, e)
      ensures Placeable(b, e, areaWidth, areaDepth)
    {
      var i :| 0 <= i < |cs| && cs[i] == b;
      assert IsUnitDraw(draws[i]);
    }
    forall i | 0 <= i < attempts && Clear(e, FootprintOf(Candidate(draws[i], areaWidth, areaDepth)))
      ensures Candidate(draws[i], areaWidth, areaDepth) in Kept(cs, FootprintOf, e)
    {
      assert cs[i] == Candidate(draws[i], areaWidth, areaDepth);
    }
  }

  /** `createBushes`. Returns the bushes added to the scene in order, the number of attempts
      made and whether the "max attempts" warning was logged. `draws[k]` holds the random
      values of attempt k + 1. */
  method CreateBushes(e: Exclusion, count: int := 30, areaWidth: real := 200.0, areaDepth: real := 200.0, draws: seq<BushDraw>)
    returns (bushes: seq<Bush>, attempts: nat, warned: bool)
    requires |draws| >= count * 5
    requires forall i :: 0 <= i < |draws| ==> WellSized(draws[i])
    ensures attempts <= |draws|
    ensures bushes == Kept(Candidates(draws, areaWidth, areaDepth)[..attempts], FootprintOf, e)
    ensures count <= 0 ==> attempts == 0 && bushes == []
    ensures count > 0 ==> attempts <= count * 5 && |bushes| <= count
    ensures |bushes| <= attempts
    ensures |bushes| >= count || attempts >= count * 5
    ensures warned <==> attempts >= count * 5
  {
    ghost var candidates := Candidates(draws, areaWidth, areaDepth);
    var placedBushes := 0;
    attempts := 0;
    var maxAttempts := count * 5;
    bushes := [];

    while placedBushes < count && attempts < maxAttempts
      invariant attempts <= |draws|
      invariant attempts <= maxAttempts || attempts == 0
      invariant placedBushes == |bushes| <= attempts
      invariant placedBushes <= count || attempts == 0
      invariant bushes == Kept(candidates[..attempts], FootprintOf, e)
      decreases maxAttempts - attempts
    {
      attempts := attempts + 1;
      var d := draws[attempts - 1];
      var bushScale := d.scale * 0.6 + 0.7;
      var bush := CreateBush(bushScale, d.shape, d.spheres);
      var bushBoundingRadius := if bush.boundingRadius != 0.0 then bush.boundingRadius else bushScale * 0.6;

      var x := Spread(d.x, areaWidth - bushBoundingRadius * 2.0);
      var z := Spread(d.z, areaDepth - bushBoundingRadius * 2.0);
      var y := 0.0;
      bush := bush.(position := Vec3(x, y, z));

      var pondClear := Beyond(PlanarDistanceSq(x, z, e.pondPosition.x, e.pondPosition.z), e.pondRadius + bushBoundingRadius);
      var nestClear := Beyond(PlanarDistanceSq(x, z, e.nestPosition.x, e.nestPosition.z), e.nestRadius + bushBoundingRadius);
      assert candidates[attempts - 1] == bush;
      assert candidates[..attempts][..attempts - 1] == candidates[..attempts - 1];
      if pondClear && nestClear {
        bushes := bushes + [bush];
        placedBushes := placedBushes + 1;
      }
    }

    warned := attempts >= maxAttempts;
  }
}

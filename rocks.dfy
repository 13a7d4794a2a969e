/** The rocks of src/rocks.ts: the `Rock` record and the bounded placement loop of
    `createRocks`. Each attempt draws a size and a position (the three rotation draws that
    follow only turn the mesh and are not modelled). */
module Rocks {
  import opened Geometry
  import opened Scatter

  /** A placed rock. `isCollidable` keeps the default of the game-object base class, which
      rocks never change. */
  datatype Rock = Rock(position: Vec3, size: real, boundingRadius: real, isCollidable: bool)

  /** The Math.random() values of one attempt: the size, then x, then z. */
  datatype RockDraw = RockDraw(size: real, x: real, z: real)

  predicate IsUnitDraw(d: RockDraw) {
    IsUnit(d.size) && IsUnit(d.x) && IsUnit(d.z)
  }

  /** The `Rock` constructor: the size is the diameter and the bounding radius half of it. */
  function NewRock(position: Vec3, size: real): Rock {
    Rock(position, size, size / 2.0, false)
  }

  /** The rock an attempt proposes: a diameter in [1, 3) resting on the ground (its centre at
      the height of its radius), at a position that keeps the whole rock inside the area. */
  function Candidate(d: RockDraw, areaWidth: real, areaDepth: real): (r: Rock)
    ensures IsUnitDraw(d) ==> 1.0 <= r.size < 3.0
    ensures r.position.y == r.boundingRadius == r.size / 2.0 && !r.isCollidable
    ensures IsUnitDraw(d) ==> Abs(r.position.x) <= Abs(areaWidth - r.size) / 2.0
    ensures IsUnitDraw(d) ==> Abs(r.position.z) <= Abs(areaDepth - r.size) / 2.0
  {
    var rockSize := d.size * 2.0 + 1.0;
    var rockRadius := rockSize / 2.0;
    NewRock(Vec3(Spread(d.x, areaWidth - rockSize), rockRadius, Spread(d.z, areaDepth - rockSize)), rockSize)
  }

  function Candidates(draws: seq<RockDraw>, areaWidth: real, areaDepth: real): (r: seq<Rock>)
    ensures |r| == |draws|
    ensures forall i :: 0 <= i < |draws| ==> r[i] == Candidate(draws[i], areaWidth, areaDepth)
  {
    seq(|draws|, i requires 0 <= i < |draws| => Candidate(draws[i], areaWidth, areaDepth))
  }

  /** The ground-plane footprint the exclusion test uses: the centre's (x, z) and the radius. */
  function FootprintOf(r: Rock): Footprint {
    Footprint(r.position.x, r.position.z, r.boundingRadius)
  }

  /** What every rock that reaches the scene satisfies. */
  predicate Placeable(r: Rock, e: Exclusion, areaWidth: real, areaDepth: real) {
    && Clear(e, FootprintOf(r))
    && 1.0 <= r.size < 3.0
    && r.position.y == r.boundingRadius == r.size / 2.0
    && Abs(r.position.x) <= Abs(areaWidth - r.size) / 2.0
    && Abs(r.position.z) <= Abs(areaDepth - r.size) / 2.0
  }

  /** After any number of attempts, every placed rock is clear of the pond and the nest by
      its own radius, has a diameter in [1, 3), sits on the ground and lies inside the area;
      and no candidate that was clear has been dropped. */
  lemma PlacedRocksArePlaceable(draws: seq<RockDraw>, attempts: nat, e: Exclusion, areaWidth: real, areaDepth: real)
    requires attempts <= |draws|
    requires forall i :: 0 <= i < attempts ==> IsUnitDraw(draws[i])
    ensures var placed := Kept(Candidates(draws, areaWidth, areaDepth)[..attempts], FootprintOf, e);
      && (forall r :: r in placed ==> Placeable(r, e, areaWidth, areaDepth))
      && (forall i :: 0 <= i < attempts && Clear(e, FootprintOf(Candidate(draws[i], areaWidth, areaDepth))) ==>
            Candidate(draws[i], areaWidth, areaDepth) in placed)
  {
    var cs := Candidates(draws, areaWidth, areaDepth)[..attempts];
    KeptExactlyClear(cs, FootprintOf, e);
    forall r | r in Kept(cs, FootprintOf, e)
      ensures Placeable(r, e, areaWidth, areaDepth)
    {
      var i :| 0 <= i < |cs| && cs[i] == r;
      assert IsUnitDraw(draws[i]);
    }
    forall i | 0 <= i < attempts && Clear(e, FootprintOf(Candidate(draws[i], areaWidth, areaDepth)))
      ensures Candidate(draws[i], areaWidth, areaDepth) in Kept(cs, FootprintOf, e)
    {
      assert cs[i] == Candidate(draws[i], areaWidth, areaDepth);
    }
  }

  /** `createRocks`. Returns the rocks added to the scene in order, the number of attempts
      made and whether the "max attempts" warning was logged. `draws[k]` holds the random
      values of attempt k + 1. */
  method CreateRocks(e: Exclusion, count: int := 20, areaWidth: real := 200.0, areaDepth: real := 200.0, draws: seq<RockDraw>)
    returns (rocks: seq<Rock>, attempts: nat, warned: bool)
    requires |draws| >= count * 3
    ensures attempts <= |draws|
    ensures rocks == Kept(Candidates(draws, areaWidth, areaDepth)[..attempts], FootprintOf, e)
    ensures count <= 0 ==> attempts == 0 && rocks == []
    ensures count > 0 ==> attempts <= count * 3 && |rocks| <= count
    ensures |rocks| <= attempts
    ensures |rocks| >= count || attempts >= count * 3
    ensures warned <==> attempts >= count * 3
  {
    ghost var candidates := Candidates(draws, areaWidth, areaDepth);
    var placedRocks := 0;
    attempts := 0;
    var maxAttempts := count * 3;
    rocks := [];

    while placedRocks < count && attempts < maxAttempts
      invariant attempts <= |draws|
      invariant attempts <= maxAttempts || attempts == 0
      invariant placedRocks == |rocks| <= attempts
      invariant placedRocks <= count || attempts == 0
      invariant rocks == Kept(candidates[..attempts], FootprintOf, e)
      decreases maxAttempts - attempts
    {
      attempts := attempts + 1;
      var d := draws[attempts - 1];
      var rockSize := d.size * 2.0 + 1.0;
      var rockRadius := rockSize / 2.0;
      var x := Spread(d.x, areaWidth - rockSize);
      var z := Spread(d.z, areaDepth - rockSize);
      var y := rockRadius;
      var potentialPosition := Vec3(x, y, z);

      var pondClear := Beyond(PlanarDistanceSq(x, z, e.pondPosition.x, e.pondPosition.z), e.pondRadius + rockRadius);
      var nestClear := Beyond(PlanarDistanceSq(x, z, e.nestPosition.x, e.nestPosition.z), e.nestRadius + rockRadius);
      assert candidates[attempts - 1] == NewRock(potentialPosition, rockSize);
      assert candidates[..attempts][..attempts - 1] == candidates[..attempts - 1];
      if pondClear && nestClear {
        rocks := rocks + [NewRock(potentialPosition, rockSize)];
        placedRocks := placedRocks + 1;
      }
    }

    warned := attempts >= maxAttempts;
  }
}

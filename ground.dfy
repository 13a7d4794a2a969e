/** The terrain height pass of `createGround` in src/ground.ts. The ground is a 200 x 200
    plane of 50 x 50 segments whose vertices lie in the plane's local (x, y) with z = 0; the
    pass raises or lowers every vertex outside the pond disc by a small random offset in z,
    and the mesh is then rotated by -pi/2 about the x axis so that local z becomes the height.
    Math.random() is an input: `draws[i]` is the value drawn when vertex i is perturbed. */
module Ground {
  import opened Geometry

  const MaxHeightVariation := 0.2
  const PondFlatteningMargin := 1.0

  /** The test of the loop as written: the vertex's local (x, y) is compared with the pond's
      world (x, z), and the vertex is perturbed when it is farther than the radius plus the
      margin. */
  predicate FlattenedAsWritten(v: Vec3, pondPosition: Vec3, pondRadius: real) {
    !Beyond(PlanarDistanceSq(v.x, v.y, pondPosition.x, pondPosition.z), pondRadius + PondFlatteningMargin)
  }

  /** One vertex after the pass: outside the disc its z is moved by (draw - 0.5) * 0.2, that
      is by at least -0.1 and less than 0.1; x and y are never touched. */
  function PerturbedVertex(v: Vec3, draw: real, pondPosition: Vec3, pondRadius: real): (r: Vec3)
    ensures r.x == v.x && r.y == v.y
    ensures FlattenedAsWritten(v, pondPosition, pondRadius) ==> r == v
    ensures !FlattenedAsWritten(v, pondPosition, pondRadius) && IsUnit(draw) ==>
              -0.1 <= r.z - v.z < 0.1
  {
    if FlattenedAsWritten(v, pondPosition, pondRadius) then v
    else v.(z := v.z + (draw - 0.5) * MaxHeightVariation)
  }

  /** The whole buffer after the pass, vertex by vertex. */
  function Perturbed(vertices: seq<Vec3>, draws: seq<real>, pondPosition: Vec3, pondRadius: real): (r: seq<Vec3>)
    requires |draws| == |vertices|
    ensures |r| == |vertices|
    ensures forall i :: 0 <= i < |r| ==> r[i].x == vertices[i].x && r[i].y == vertices[i].y
    ensures forall i :: 0 <= i < |r| && FlattenedAsWritten(vertices[i], pondPosition, pondRadius) ==>
              r[i] == vertices[i]
    ensures forall i :: (0 <= i < |r| && !FlattenedAsWritten(vertices[i], pondPosition, pondRadius)
                         && IsUnit(draws[i])) ==> -0.1 <= r[i].z - vertices[i].z < 0.1
  {
    seq(|vertices|, i requires 0 <= i < |vertices| => PerturbedVertex(vertices[i], draws[i], pondPosition, pondRadius))
  }

  /** The loop of `createGround`: every vertex index is visited once, in order, and only the z
      entries are written. */
  method PerturbHeights(vertices: array<Vec3>, pondPosition: Vec3, pondRadius: real, draws: seq<real>)
    requires |draws| == vertices.Length
    modifies vertices
    ensures vertices[..] == Perturbed(old(vertices[..]), draws, pondPosition, pondRadius)
  {
    ghost var original := vertices[..];
    ghost var result := Perturbed(original, draws, pondPosition, pondRadius);
    for i := 0 to vertices.Length
      invariant vertices[..i] == result[..i]
      invariant vertices[i..] == original[i..]
    {
      var x := vertices[i].x;
      var y := vertices[i].y;
      if PlanarDistanceSq(x, y, pondPosition.x, pondPosition.z) > (pondRadius + PondFlatteningMargin) * (pondRadius + PondFlatteningMargin)
         || pondRadius + PondFlatteningMargin < 0.0 {
        var currentZ := vertices[i].z;
        var randomOffset := (draws[i] - 0.5) * MaxHeightVariation;
        vertices[i] := vertices[i].(z := currentZ + randomOffset);
      }
      assert vertices[i] == result[i];
      assert vertices[..i + 1] == vertices[..i] + [vertices[i]];
      assert result[..i + 1] == result[..i] + [result[i]];
    }
  }

  // ---------------------------------------------------------------------------------------
  // Where the flat disc ends up

  /** Where a local vertex of the plane lands once the mesh is rotated by -pi/2 about x:
      local z becomes the height and local y becomes minus the world z. */
  function WorldOf(v: Vec3): Vec3 {
    Vec3(v.x, v.z, -v.y)
  }

  /** The world pond of src/world.ts and src/pond.ts: a disc of radius 15 at (-30, 0.01, 20). */
  const PondPosition := Vec3(-30.0, 0.01, 20.0)
  const PondRadius := 15.0

  /** As written, the disc that is kept flat is the mirror image of the pond in world z: the
      vertex right under the pond's centre is perturbed, and the vertex under (-30, -20),
      far from any water, is kept flat. */
  lemma FlatDiscIsMirrored(draw: real)
    requires IsUnit(draw) && draw != 0.5
    ensures var underPond := Vec3(-30.0, -20.0, 0.0);
      && WorldOf(underPond).x == PondPosition.x && WorldOf(underPond).z == PondPosition.z
      && PerturbedVertex(underPond, draw, PondPosition, PondRadius) != underPond
    ensures var mirrored := Vec3(-30.0, 20.0, 0.0);
      && WorldOf(mirrored).z == -PondPosition.z
      && PerturbedVertex(mirrored, draw, PondPosition, PondRadius) == mirrored
  {
    var underPond := Vec3(-30.0, -20.0, 0.0);
    assert PlanarDistanceSq(underPond.x, underPond.y, PondPosition.x, PondPosition.z) == 1600.0;
    assert (draw - 0.5) * MaxHeightVariation != 0.0;
  }

  /** The test the comment beside it describes: the vertex's position on the rotated ground,
      (x, -y), compared with the pond's (x, z). */
  predicate FlattenedInWorld(v: Vec3, pondPosition: Vec3, pondRadius: real) {
    !Beyond(PlanarDistanceSq(v.x, -v.y, pondPosition.x, pondPosition.z), pondRadius + PondFlatteningMargin)
  }

  function PerturbedVertexInWorld(v: Vec3, draw: real, pondPosition: Vec3, pondRadius: real): (r: Vec3)
    ensures r.x == v.x && r.y == v.y
    ensures FlattenedInWorld(v, pondPosition, pondRadius) ==> r == v
  {
    if FlattenedInWorld(v, pondPosition, pondRadius) then v
    else v.(z := v.z + (draw - 0.5) * MaxHeightVariation)
  }

  /** With the corrected test, every ground vertex whose world position is within the pond's
      radius plus the margin of the pond's centre on the ground plane keeps its height, and
      every vertex farther away gets the random offset. */
  lemma WorldDiscKeptFlat(v: Vec3, draw: real, pondPosition: Vec3, pondRadius: real)
    ensures var w := WorldOf(v);
      !Beyond(PlanarDistanceSq(w.x, w.z, pondPosition.x, pondPosition.z), pondRadius + PondFlatteningMargin)
      ==> WorldOf(PerturbedVertexInWorld(v, draw, pondPosition, pondRadius)) == w
    ensures var w := WorldOf(v);
      Beyond(PlanarDistanceSq(w.x, w.z, pondPosition.x, pondPosition.z), pondRadius + PondFlatteningMargin)
      ==> WorldOf(PerturbedVertexInWorld(v, draw, pondPosition, pondRadius)).y == w.y + (draw - 0.5) * MaxHeightVariation
  {
  }

  /** The corrected test keeps the real pond's disc flat: the vertex under the pond's centre
      keeps its height. */
  lemma CorrectedKeepsPondFlat(draw: real)
    ensures var underPond := Vec3(-30.0, -20.0, 0.0);
      PerturbedVertexInWorld(underPond, draw, PondPosition, PondRadius) == underPond
  {
  }
}

/** The trees of src/tree.ts: the bounded placement loop of `createTrees`. The trunk and the
    foliage cone `createTree` builds are meshes and are not modelled; a placed tree is its
    scale, the radius of its trunk's base, and where it stands. */
module Trees {
  import opened Geometry
  import opened Scatter

  datatype Tree = Tree(position: Vec3, scale: real, baseRadius: real)

  /** The Math.random() values of one attempt: the scale, then x and z. */
  datatype TreeDraw = TreeDraw(scale: real, x: real, z: real)

  predicate IsUnitDraw(d: TreeDraw) {
    IsUnit(d.scale) && IsUnit(d.x) && IsUnit(d.z)
  }

  /** The radius the placement checks use: the wider base of the trunk, 0.3 * scale * 1.2. */
  function TreeBaseRadius(scale: real): (r: real)
    ensures r == 0.36 * scale
  {
    0.3 * scale * 1.2
  }

  /** The tree an attempt proposes: scale in [0.75, 1.25), standing on the ground, kept inside
      the area by its base radius. */
  function Candidate(d: TreeDraw, areaWidth: real, areaDepth: real): (t: Tree)
    ensures IsUnitDraw(d) ==> 0.75 <= t.scale < 1.25
    ensures t.baseRadius == 0.36 * t.scale && t.position.y == 0.0
    ensures IsUnitDraw(d) ==> Abs(t.position.x) <= Abs(areaWidth - 2.0 * t.baseRadius) / 2.0
    ensures IsUnitDraw(d) ==> Abs(t.position.z) <= Abs(areaDepth - 2.0 * t.baseRadius) / 2.0
  {
    var treeScale := d.scale * 0.5 + 0.75;
    var treeBaseRadius := TreeBaseRadius(treeScale);
    Tree(Vec3(Spread(d.x, areaWidth - treeBaseRadius * 2.0), 0.0, Spread(d.z, areaDepth - treeBaseRadius * 2.0)),
         treeScale, treeBaseRadius)
  }

  function Candidates(draws: seq<TreeDraw>, areaWidth: real, areaDepth: real): (r: seq<Tree>)
    ensures |r| == |draws|
    ensures forall i :: 0 <= i < |draws| ==> r[i] == Candidate(draws[i], areaWidth, areaDepth)
  {
    seq(|draws|, i requires 0 <= i < |draws| => Candidate(draws[i], areaWidth, areaDepth))
  }

  function FootprintOf(t: Tree): Footprint {
    Footprint(t.position.x, t.position.z, t.baseRadius)
  }

  /** What every tree that reaches the scene satisfies. */
  predicate Placeable(t: Tree, e: Exclusion, areaWidth: real, areaDepth: real) {
    && Clear(e, FootprintOf(t))
    && t.position.y == 0.0
    && 0.75 <= t.scale < 1.25
    && t.baseRadius == 0.36 * t.scale
    && Abs(t.position.x) <= Abs(areaWidth - 2.0 * t.baseRadius) / 2.0
    && Abs(t.position.z) <= Abs(areaDepth - 2.0 * t.baseRadius) / 2.0
  }

  /** After any number of attempts, every tree in the scene stands on the ground inside the
      area and clear of the pond and the nest by its base radius; a rejected candidate is
      never added and a clear one never dropped. */
  lemma PlacedTreesArePlaceable(draws: seq<TreeDraw>, attempts: nat, e: Exclusion, areaWidth: real, areaDepth: real)
    requires attempts <= |draws|
    requires forall i :: 0 <= i < attempts ==> IsUnitDraw(draws[i])
    ensures var placed := Kept(Candidates(draws, areaWidth, areaDepth)[..attempts], FootprintOf, e);
      && (forall t :: t in placed ==> Placeable(t, e, areaWidth, areaDepth))
      && (forall i :: 0 <= i < attempts ==>
            (Candidate(draws[i], areaWidth, areaDepth) in placed <==>
             Clear(e, FootprintOf(Candidate(draws[i], areaWidth, areaDepth)))))
  {
    var cs := Candidates(draws, areaWidth, areaDepth)[..attempts];
    KeptExactlyClear(cs, FootprintOf, e);
    forall t | t in Kept(cs, FootprintOf, e)
      ensures Placeable(t, e, areaWidth, areaDepth)
    {
      var i :| 0 <= i < |cs| && cs[i] == t;
      assert IsUnitDraw(draws[i]);
    }
    forall i | 0 <= i < attempts
      ensures Candidate(draws[i], areaWidth, areaDepth) in Kept(cs, FootprintOf, e) <==>
              Clear(e, FootprintOf(Candidate(draws[i], areaWidth, areaDepth)))
    {
      assert cs[i] == Candidate(draws[i], areaWidth, areaDepth);
    }
  }

  /** `createTrees`. Returns the trees added to the scene in order, the number of attempts
      made and whether the "max attempts" warning was logged. `draws[k]` holds the random
      values of attempt k + 1. */
  method CreateTrees(e: Exclusion, count: int := 15, areaWidth: real := 200.0, areaDepth: real := 200.0, draws: seq<TreeDraw>)
    returns (trees: seq<Tree>, attempts: nat, warned: bool)
    requires |draws| >= count * 5
    ensures attempts <= |draws|
    ensures trees == Kept(Candidates(draws, areaWidth, areaDepth)[..attempts], FootprintOf, e)
    ensures count <= 0 ==> attempts == 0 && trees == []
    ensures count > 0 ==> attempts <= count * 5 && |trees| <= count
    ensures |trees| <= attempts
    ensures |trees| >= count || attempts >= count * 5
    ensures warned <==> attempts >= count * 5
  {
    ghost var candidates := Candidates(draws, areaWidth, areaDepth);
    var placedTrees := 0;
    attempts := 0;
    var maxAttempts := count * 5;
    trees := [];

    while placedTrees < count && attempts < maxAttempts
      invariant attempts <= |draws|
      invariant attempts <= maxAttempts || attempts == 0
      invariant placedTrees == |trees| <= attempts
      invariant placedTrees <= count || attempts == 0
      invariant trees == Kept(candidates[..attempts], FootprintOf, e)
      decreases maxAttempts - attempts
    {
      attempts := attempts + 1;
      var d := draws[attempts - 1];
      var treeScale := d.scale * 0.5 + 0.75;
      var treeBaseRadius := 0.3 * treeScale * 1.2;
      var x := Spread(d.x, areaWidth - treeBaseRadius * 2.0);
      var z := Spread(d.z, areaDepth - treeBaseRadius * 2.0);
      var y := 0.0;
      var tree := Tree(Vec3(x, y, z), treeScale, treeBaseRadius);

      var pondClear := Beyond(PlanarDistanceSq(x, z, e.pondPosition.x, e.pondPosition.z), e.pondRadius + treeBaseRadius);
      var nestClear := Beyond(PlanarDistanceSq(x, z, e.nestPosition.x, e.nestPosition.z), e.nestRadius + treeBaseRadius);
      assert candidates[attempts - 1] == tree;
      assert candidates[..attempts][..attempts - 1] == candidates[..attempts - 1];
      if pondClear && nestClear {
        trees := trees + [tree];
        placedTrees := placedTrees + 1;
      }
    }

    warned := attempts >= maxAttempts;
  }
}

/** The duckling behaviour of src/babyDuck.ts: a state machine idle -> following -> returning
    -> safe, advanced once per frame. The pure step functions below say what one frame does
    to a duckling; the class BabyDuck performs the same steps in place and is proved to agree
    with them. Math.random() draws arrive as a Draws record, Math.sqrt as `sqrt`. */
module Ducklings {
  import opened Geometry
  import GameProgress

  const IdleWanderRadius := 5.0
  const IdleTargetChangeMinTime := 2.0
  const IdleTargetChangeMaxTime := 6.0
  const FollowDistance := 1.5
  const FollowSpeedFactor := 1.1
  const ReturnSpeedFactor := 1.0
  const IdleSpeedFactor := 0.6
  const FatherCollectionRadius := 2.0
  const NestReturnRadius := 3.5
  const NestSafeRadius := 0.5
  const RetargetRadius := 0.5
  const BabyDuckBaseSpeed := 1.0
  /** Wander targets are kept inside [-WorldBound, WorldBound] on x and z. */
  const WorldBound := 95.0
  /** Half the side of the square in which a safe duckling is placed around the nest. */
  const NestJitter := 0.75

  datatype DuckState = Idle | Following | Returning | Safe

  /** The Math.random() values one frame may use, in call order: a new wander target uses
      all three (x offset, z offset, timer), arrival in the nest the first two (x, z). */
  datatype Draws = Draws(first: real, second: real, third: real)

  predicate AreUnit(r: Draws) {
    IsUnit(r.first) && IsUnit(r.second) && IsUnit(r.third)
  }

  /** The fields of a duckling that a frame can change; `following` is `followTarget != null`
      (the only actor ever followed is the father). */
  datatype Duckling = Duckling(state: DuckState, position: Vec3, target: Vec3, timer: real, following: bool)

  /** `followTarget` is set exactly in the following state. */
  predicate FollowInvariant(d: Duckling) {
    d.following <==> d.state == Following
  }

  /** Once returning, the target is the nest. */
  predicate HomingInvariant(d: Duckling, nest: Vec3) {
    (d.state == Returning || d.state == Safe) ==> d.target == nest
  }

  /** Order of the states along the normal life of a duckling. */
  function Rank(s: DuckState): nat {
    match s
    case Idle => 0
    case Following => 1
    case Returning => 2
    case Safe => 3
  }

  function StartSpeed(r: real): real {
    BabyDuckBaseSpeed * (0.8 + r * 0.4)
  }

  function BeganFollowing(d: Duckling): Duckling {
    d.(state := Following, following := true)
  }

  function BeganReturning(d: Duckling, nest: Vec3): Duckling {
    d.(state := Returning, following := false, target := nest)
  }

  function MadeSafe(d: Duckling, nest: Vec3, r: Draws): Duckling {
    d.(state := Safe,
       position := Vec3(nest.x + (r.first - 0.5) * (2.0 * NestJitter), d.position.y,
                        nest.z + (r.second - 0.5) * (2.0 * NestJitter)))
  }

  function WithNewIdleTarget(d: Duckling, r: Draws): Duckling {
    var x := d.position.x + (r.first - 0.5) * IdleWanderRadius * 2.0;
    var z := d.position.z + (r.second - 0.5) * IdleWanderRadius * 2.0;
    d.(target := Vec3(Clamp(x, -WorldBound, WorldBound), d.position.y, Clamp(z, -WorldBound, WorldBound)),
       timer := IdleTargetChangeMinTime + r.third * (IdleTargetChangeMaxTime - IdleTargetChangeMinTime))
  }

  /** The planar direction from the duckling towards `goal` (`goal - position` with y = 0). */
  function PlanarDirection(d: Duckling, goal: Vec3): Vec3 {
    Flat(Sub(goal, d.position))
  }

  /** The duckling moved `distance` along the normalized direction `dir`. */
  function Moved(d: Duckling, dir: Vec3, distance: real, sqrt: real -> real): Duckling {
    d.(position := Add(d.position, Scale(Normalize(dir, sqrt), distance)))
  }

  /** A new wander target is due this frame: the timer, once counted down by `dt`, has run
      out, or the duckling is strictly within 0.5 of its target. */
  predicate RetargetDue(d: Duckling, dt: real) {
    d.timer - dt <= 0.0 || Within(DistanceSq(d.position, d.target), RetargetRadius)
  }

  /** The wander part of `updateIdle` before the move: the timer runs down, and a new target
      is picked when one is due. */
  function Retargeted(d: Duckling, dt: real, r: Draws): Duckling {
    var counted := d.(timer := d.timer - dt);
    if RetargetDue(d, dt) then WithNewIdleTarget(counted, r) else counted
  }

  /** `updateIdle`: `step` is the frame's `speed * deltaTime`. */
  function IdleStep(d: Duckling, father: Vec3, dt: real, step: real, r: Draws, sqrt: real -> real): Duckling {
    if Within(DistanceSq(father, d.position), FatherCollectionRadius) then
      BeganFollowing(d)
    else
      var aimed := Retargeted(d, dt, r);
      var dir := PlanarDirection(aimed, aimed.target);
      if LengthSq(dir) > 0.01 then Moved(aimed, dir, step * IdleSpeedFactor, sqrt) else aimed
  }

  /** `updateFollowing`. */
  function FollowStep(d: Duckling, father: Vec3, nest: Vec3, step: real, sqrt: real -> real): Duckling {
    if !d.following then
      d.(state := Idle)
    else if Within(DistanceSq(d.position, nest), NestReturnRadius) then
      BeganReturning(d, nest)
    else
      var dir := PlanarDirection(d, father);
      if Beyond(LengthSq(dir), FollowDistance) then Moved(d, dir, step * FollowSpeedFactor, sqrt) else d
  }

  /** The returning duckling is close enough to its target to become safe this frame. */
  predicate ArrivesThisFrame(d: Duckling) {
    d.state == Returning && LengthSq(PlanarDirection(d, d.target)) < NestSafeRadius * NestSafeRadius
  }

  /** `updateReturning`. */
  function ReturnStep(d: Duckling, nest: Vec3, step: real, r: Draws, sqrt: real -> real): Duckling {
    var dir := PlanarDirection(d, d.target);
    if LengthSq(dir) < NestSafeRadius * NestSafeRadius then MadeSafe(d, nest, r)
    else Moved(d, dir, step * ReturnSpeedFactor, sqrt)
  }

  /** `update(deltaTime)`: one frame of the state machine. */
  function FrameStep(d: Duckling, father: Vec3, nest: Vec3, speed: real, dt: real, r: Draws, sqrt: real -> real): Duckling {
    var step := speed * dt;
    match d.state
    case Idle => IdleStep(d, father, dt, step, r, sqrt)
    case Following => FollowStep(d, father, nest, step, sqrt)
    case Returning => ReturnStep(d, nest, step, r, sqrt)
    case Safe => d
  }

  // ---------------------------------------------------------------------------------------
  // Properties of one frame

  /** Near enough to the father, an idle duckling starts following him and does not move in
      that frame. */
  lemma IdleCollected(d: Duckling, father: Vec3, nest: Vec3, speed: real, dt: real, r: Draws, sqrt: real -> real)
    requires d.state == Idle && Within(DistanceSq(father, d.position), FatherCollectionRadius)
    ensures var e := FrameStep(d, father, nest, speed, dt, r, sqrt);
      e.state == Following && e.following && e.position == d.position && e.target == d.target && e.timer == d.timer
  {
  }

  /** A new wander target keeps the height, stays inside the world bounds and, for a duckling
      inside those bounds, within the wander radius of it; the timer restarts in [2, 6). */
  lemma NewIdleTargetBounds(d: Duckling, r: Draws)
    requires AreUnit(r)
    ensures var e := WithNewIdleTarget(d, r);
      && e.target.y == d.position.y
      && -WorldBound <= e.target.x <= WorldBound && -WorldBound <= e.target.z <= WorldBound
      && (-WorldBound <= d.position.x <= WorldBound ==> Abs(e.target.x - d.position.x) <= IdleWanderRadius)
      && (-WorldBound <= d.position.z <= WorldBound ==> Abs(e.target.z - d.position.z) <= IdleWanderRadius)
      && IdleTargetChangeMinTime <= e.timer < IdleTargetChangeMaxTime
      && e.position == d.position && e.state == d.state && e.following == d.following
  {
    var e := WithNewIdleTarget(d, r);
    assert -0.5 <= r.first - 0.5 < 0.5;
    assert -IdleWanderRadius <= (r.first - 0.5) * IdleWanderRadius * 2.0 <= IdleWanderRadius;
    assert -IdleWanderRadius <= (r.second - 0.5) * IdleWanderRadius * 2.0 <= IdleWanderRadius;
    assert 0.0 <= r.third * 4.0 < 4.0;
  }

  /** A move along a planar direction that is not zero covers exactly `distance` on the
      ground plane, keeps the height and changes nothing but the position. */
  lemma MovedExactly(d: Duckling, dir: Vec3, distance: real, sqrt: real -> real)
    requires IsSqrt(sqrt) && dir.y == 0.0 && LengthSq(dir) > 0.0
    ensures var e := Moved(d, dir, distance, sqrt);
      && e.position.y == d.position.y
      && DistanceSq(e.position, d.position) == distance * distance
      && e == d.(position := e.position)
  {
    NormalizeIsUnit(dir, sqrt);
    StepAlongUnit(d.position, Normalize(dir, sqrt), distance);
  }

  /** A move of `distance` along the planar direction to `goal` is a move towards it: what is
      left of the planar way to the goal is the old way shortened by `distance`, in the same
      direction (or reversed past the goal when the step is longer than the way). */
  lemma MovedToward(d: Duckling, goal: Vec3, distance: real, sqrt: real -> real)
    requires IsSqrt(sqrt) && LengthSq(PlanarDirection(d, goal)) > 0.0
    ensures var dir := PlanarDirection(d, goal);
      PlanarDirection(Moved(d, dir, distance, sqrt), goal) == Scale(dir, 1.0 - distance / sqrt(LengthSq(dir)))
  {
    var dir := PlanarDirection(d, goal);
    var len := sqrt(LengthSq(dir));
    assert len * len == LengthSq(dir);
    assert len != 0.0;
    var k := 1.0 / len;
    assert Normalize(dir, sqrt) == Scale(dir, k);
    var f := 1.0 - distance / len;
    assert distance / len == distance * k;
    var p := Moved(d, dir, distance, sqrt).position;
    assert p.x == d.position.x + dir.x * k * distance;
    assert p.z == d.position.z + dir.z * k * distance;
    assert goal.x - p.x == dir.x - dir.x * k * distance;
    assert dir.x - dir.x * k * distance == dir.x * f;
    assert goal.z - p.z == dir.z - dir.z * k * distance;
    assert dir.z - dir.z * k * distance == dir.z * f;
    assert dir.y * f == 0.0;
  }

  /** An idle duckling that is not collected moves only when its planar distance to the
      (possibly new) target exceeds 0.1, and then by exactly 0.6 * speed * dt on the ground
      plane towards that target, keeping its height. */
  lemma IdleMovement(d: Duckling, father: Vec3, dt: real, step: real, r: Draws, sqrt: real -> real)
    requires IsSqrt(sqrt)
    requires !Within(DistanceSq(father, d.position), FatherCollectionRadius)
    ensures var e := IdleStep(d, father, dt, step, r, sqrt);
      && e.state == d.state && e.following == d.following && e.position.y == d.position.y
      && (e.position != d.position ==> LengthSq(PlanarDirection(d, e.target)) > 0.01)
      && (LengthSq(PlanarDirection(d, e.target)) > 0.01 ==>
            && DistanceSq(e.position, d.position) == (step * IdleSpeedFactor) * (step * IdleSpeedFactor)
            && PlanarDirection(e, e.target) ==
                 Scale(PlanarDirection(d, e.target), 1.0 - step * IdleSpeedFactor / sqrt(LengthSq(PlanarDirection(d, e.target)))))
  {
    var aimed := Retargeted(d, dt, r);
    assert aimed.position == d.position && aimed.state == d.state && aimed.following == d.following;
    var dir := PlanarDirection(aimed, aimed.target);
    if LengthSq(dir) > 0.01 {
      MovedExactly(aimed, dir, step * IdleSpeedFactor, sqrt);
      MovedToward(aimed, aimed.target, step * IdleSpeedFactor, sqrt);
    }
  }

  /** The wander timer of an idle duckling that is not collected runs down by `dt`; a new
      target is drawn exactly when the timer has run out or the target is within 0.5, and then
      the timer restarts in [2, 6); otherwise target and counted-down timer are kept. */
  lemma IdleRetarget(d: Duckling, father: Vec3, dt: real, step: real, r: Draws, sqrt: real -> real)
    requires AreUnit(r) && !Within(DistanceSq(father, d.position), FatherCollectionRadius)
    ensures var e := IdleStep(d, father, dt, step, r, sqrt);
      && (RetargetDue(d, dt) ==>
            && e.target == WithNewIdleTarget(d, r).target && e.timer == WithNewIdleTarget(d, r).timer
            && IdleTargetChangeMinTime <= e.timer < IdleTargetChangeMaxTime)
      && (!RetargetDue(d, dt) ==> e.target == d.target && e.timer == d.timer - dt)
  {
    NewIdleTargetBounds(d, r);
  }

  /** A following duckling within 3.5 of the nest starts returning: it stops following, its
      target becomes the nest and it does not move in that frame. */
  lemma FollowingReachesNest(d: Duckling, father: Vec3, nest: Vec3, step: real, sqrt: real -> real)
    requires d.following && Within(DistanceSq(d.position, nest), NestReturnRadius)
    ensures var e := FollowStep(d, father, nest, step, sqrt);
      e.state == Returning && !e.following && e.target == nest && e.position == d.position
  {
  }

  /** Further from the nest, a following duckling moves only when its planar distance to the
      father exceeds 1.5, and then by exactly 1.1 * speed * dt towards the father, keeping its
      height. */
  lemma FollowingMovement(d: Duckling, father: Vec3, nest: Vec3, step: real, sqrt: real -> real)
    requires IsSqrt(sqrt) && d.following && !Within(DistanceSq(d.position, nest), NestReturnRadius)
    ensures var e := FollowStep(d, father, nest, step, sqrt);
      && e.state == d.state && e.following && e.target == d.target && e.position.y == d.position.y
      && (Beyond(LengthSq(PlanarDirection(d, father)), FollowDistance) ==>
            && DistanceSq(e.position, d.position) == (step * FollowSpeedFactor) * (step * FollowSpeedFactor)
            && PlanarDirection(e, father) ==
                 Scale(PlanarDirection(d, father), 1.0 - step * FollowSpeedFactor / sqrt(LengthSq(PlanarDirection(d, father)))))
      && (!Beyond(LengthSq(PlanarDirection(d, father)), FollowDistance) ==> e.position == d.position)
  {
    var dir := PlanarDirection(d, father);
    if Beyond(LengthSq(dir), FollowDistance) {
      MovedExactly(d, dir, step * FollowSpeedFactor, sqrt);
      MovedToward(d, father, step * FollowSpeedFactor, sqrt);
    }
  }

  /** A returning duckling close to its target becomes safe, placed within 0.75 of the nest on
      x and z at its own height; otherwise it moves by exactly speed * dt towards the target. */
  lemma ReturningStep(d: Duckling, nest: Vec3, step: real, r: Draws, sqrt: real -> real)
    requires IsSqrt(sqrt) && AreUnit(r) && d.state == Returning
    ensures var e := ReturnStep(d, nest, step, r, sqrt);
      && e.position.y == d.position.y && e.target == d.target && e.following == d.following
      && (ArrivesThisFrame(d) ==>
            e.state == Safe && Abs(e.position.x - nest.x) <= NestJitter && Abs(e.position.z - nest.z) <= NestJitter)
      && (!ArrivesThisFrame(d) ==>
            e.state == Returning
            && DistanceSq(e.position, d.position) == (step * ReturnSpeedFactor) * (step * ReturnSpeedFactor)
            && PlanarDirection(e, d.target) ==
                 Scale(PlanarDirection(d, d.target), 1.0 - step * ReturnSpeedFactor / sqrt(LengthSq(PlanarDirection(d, d.target)))))
  {
    var dir := PlanarDirection(d, d.target);
    if LengthSq(dir) < NestSafeRadius * NestSafeRadius {
      assert -0.75 <= (r.first - 0.5) * (2.0 * NestJitter) < 0.75;
      assert -0.75 <= (r.second - 0.5) * (2.0 * NestJitter) < 0.75;
    } else {
      MovedExactly(d, dir, step * ReturnSpeedFactor, sqrt);
      MovedToward(d, d.target, step * ReturnSpeedFactor, sqrt);
    }
  }

  /** `safe` is terminal: a frame changes nothing. */
  lemma SafeIsTerminal(d: Duckling, father: Vec3, nest: Vec3, speed: real, dt: real, r: Draws, sqrt: real -> real)
    requires d.state == Safe
    ensures FrameStep(d, father, nest, speed, dt, r, sqrt) == d
  {
  }

  /** Every frame keeps `followTarget` set exactly while following, keeps the nest as the
      target once returning, keeps the height, and never moves backwards along
      idle -> following -> returning -> safe. */
  lemma FrameKeepsInvariants(d: Duckling, father: Vec3, nest: Vec3, speed: real, dt: real, r: Draws, sqrt: real -> real)
    requires IsSqrt(sqrt) && FollowInvariant(d) && HomingInvariant(d, nest)
    ensures var e := FrameStep(d, father, nest, speed, dt, r, sqrt);
      && FollowInvariant(e) && HomingInvariant(e, nest)
      && e.position.y == d.position.y
      && Rank(d.state) <= Rank(e.state)
      && (e.state == Safe <==> d.state == Safe || ArrivesThisFrame(d))
  {
    var step := speed * dt;
    match d.state
    case Idle =>
      if !Within(DistanceSq(father, d.position), FatherCollectionRadius) {
        IdleMovement(d, father, dt, step, r, sqrt);
      }
    case Following =>
      if Within(DistanceSq(d.position, nest), NestReturnRadius) {
      } else {
        FollowingMovement(d, father, nest, step, sqrt);
      }
    case Returning =>
      var dir := PlanarDirection(d, d.target);
      if LengthSq(dir) >= NestSafeRadius * NestSafeRadius {
        NormalizeIsUnit(dir, sqrt);
      }
    case Safe =>
  }

  // ---------------------------------------------------------------------------------------
  // Properties of a whole life

  /** What one frame feeds a duckling: the father's position after the player moved, the
      elapsed time and the random draws. */
  datatype Frame = Frame(father: Vec3, dt: real, draws: Draws)

  function Run(d: Duckling, nest: Vec3, speed: real, frames: seq<Frame>, sqrt: real -> real): Duckling
    decreases |frames|
  {
    if frames == [] then d
    else Run(FrameStep(d, frames[0].father, nest, speed, frames[0].dt, frames[0].draws, sqrt), nest, speed, frames[1..], sqrt)
  }

  /** How many frames of the run call `foundDuckling()`. */
  function Arrivals(d: Duckling, nest: Vec3, speed: real, frames: seq<Frame>, sqrt: real -> real): nat
    decreases |frames|
  {
    if frames == [] then 0
    else
      (if ArrivesThisFrame(d) then 1 else 0)
      + Arrivals(FrameStep(d, frames[0].father, nest, speed, frames[0].dt, frames[0].draws, sqrt), nest, speed, frames[1..], sqrt)
  }

  /** A safe duckling stays exactly as it is for any number of frames. */
  lemma {:induction false} SafeForever(d: Duckling, nest: Vec3, speed: real, frames: seq<Frame>, sqrt: real -> real)
    requires d.state == Safe
    ensures Run(d, nest, speed, frames, sqrt) == d
    ensures Arrivals(d, nest, speed, frames, sqrt) == 0
    decreases |frames|
  {
    if frames != [] {
      SafeIsTerminal(d, frames[0].father, nest, speed, frames[0].dt, frames[0].draws, sqrt);
      SafeForever(d, nest, speed, frames[1..], sqrt);
    }
  }

  /** Over any run, the invariants hold at the end, the state has only moved forward, and the
      progress counter is told at most once (exactly once when the run ends safe from a
      duckling that was not safe yet). */
  lemma {:induction false} RunKeepsInvariants(d: Duckling, nest: Vec3, speed: real, frames: seq<Frame>, sqrt: real -> real)
    requires IsSqrt(sqrt) && FollowInvariant(d) && HomingInvariant(d, nest)
    ensures var e := Run(d, nest, speed, frames, sqrt);
      && FollowInvariant(e) && HomingInvariant(e, nest)
      && Rank(d.state) <= Rank(e.state)
      && Arrivals(d, nest, speed, frames, sqrt) <= 1
      && (Arrivals(d, nest, speed, frames, sqrt) == 1 <==> d.state != Safe && e.state == Safe)
    decreases |frames|
  {
    if frames != [] {
      var f := frames[0];
      var next := FrameStep(d, f.father, nest, speed, f.dt, f.draws, sqrt);
      FrameKeepsInvariants(d, f.father, nest, speed, f.dt, f.draws, sqrt);
      if next.state == Safe {
        SafeForever(next, nest, speed, frames[1..], sqrt);
      } else {
        RunKeepsInvariants(next, nest, speed, frames[1..], sqrt);
      }
    }
  }

  // ---------------------------------------------------------------------------------------
  // The objects

  /** A scene object whose position other objects read (the father and the mother duck). */
  class Actor {
    var position: Vec3

    constructor (position: Vec3)
      ensures this.position == position
    {
      this.position := position;
    }
  }

  class BabyDuck {
    var state: DuckState
    const speed: real
    var position: Vec3
    var targetPosition: Vec3
    var changeTargetTimer: real
    var followTarget: Actor?

    const father: Actor
    const mother: Actor
    const nestPosition: Vec3
    const gameState: GameProgress.GameState
    const sqrt: real -> real

    /** The follow reference, when set, is the father. */
    ghost predicate Valid()
      reads this
    {
      IsSqrt(sqrt) && (followTarget == null || followTarget == father)
    }

    ghost function View(): Duckling
      reads this
    {
      Duckling(state, position, targetPosition, changeTargetTimer, followTarget != null)
    }

    /** `speedDraw` and `timerDraw` are the two Math.random() values of the constructor. */
    constructor (initialPosition: Vec3, father: Actor, mother: Actor, nestPosition: Vec3,
                 gameState: GameProgress.GameState, speedDraw: real, timerDraw: real, sqrt: real -> real)
      requires IsSqrt(sqrt) && IsUnit(speedDraw) && IsUnit(timerDraw)
      ensures Valid() && FollowInvariant(View()) && HomingInvariant(View(), nestPosition)
      ensures state == Idle && followTarget == null
      ensures position == initialPosition && targetPosition == initialPosition
      ensures 0.0 <= changeTargetTimer < IdleTargetChangeMaxTime
      ensures 0.8 <= speed < 1.2
      ensures this.father == father && this.mother == mother && this.nestPosition == nestPosition
      ensures this.gameState == gameState && this.sqrt == sqrt
    {
      this.father := father;
      this.mother := mother;
      this.nestPosition := nestPosition;
      this.gameState := gameState;
      this.sqrt := sqrt;
      state := Idle;
      speed := BabyDuckBaseSpeed * (0.8 + speedDraw * 0.4);
      targetPosition := initialPosition;
      changeTargetTimer := timerDraw * IdleTargetChangeMaxTime;
      followTarget := null;
      position := initialPosition;
    }

    method Update(deltaTime: real, r: Draws)
      requires Valid()
      modifies this, gameState
      ensures Valid()
      ensures View() == FrameStep(old(View()), father.position, nestPosition, speed, deltaTime, r, sqrt)
      ensures gameState.ducklingsFound ==
                if ArrivesThisFrame(old(View()))
                then GameProgress.AfterFound(old(gameState.ducklingsFound), gameState.totalDucklings)
                else old(gameState.ducklingsFound)
    {
      var effectiveSpeed := speed * deltaTime;
      match state
      case Idle =>
        UpdateIdle(deltaTime, effectiveSpeed, r);
      case Following =>
        UpdateFollowing(deltaTime, effectiveSpeed);
      case Returning =>
        UpdateReturning(deltaTime, effectiveSpeed, r);
      case Safe =>
    }

    method UpdateIdle(deltaTime: real, speed: real, r: Draws)
      requires Valid() && state == Idle
      modifies this
      ensures Valid()
      ensures View() == IdleStep(old(View()), father.position, deltaTime, speed, r, sqrt)
    {
      if Within(DistanceSq(father.position, position), FatherCollectionRadius) {
        StartFollowing();
      } else {
        changeTargetTimer := changeTargetTimer - deltaTime;
        if changeTargetTimer <= 0.0 || Within(DistanceSq(position, targetPosition), RetargetRadius) {
          SetNewIdleTarget(r);
        }
        var direction := Flat(Sub(targetPosition, position));
        if LengthSq(direction) > 0.01 {
          direction := Normalize(direction, sqrt);
          position := Add(position, Scale(direction, speed * IdleSpeedFactor));
        }
      }
    }

    method SetNewIdleTarget(r: Draws)
      modifies this
      ensures View() == WithNewIdleTarget(old(View()), r)
      ensures followTarget == old(followTarget)
    {
      targetPosition := Vec3(position.x + (r.first - 0.5) * IdleWanderRadius * 2.0,
                             position.y,
                             position.z + (r.second - 0.5) * IdleWanderRadius * 2.0);
      targetPosition := targetPosition.(x := Clamp(targetPosition.x, -WorldBound, WorldBound));
      targetPosition := targetPosition.(z := Clamp(targetPosition.z, -WorldBound, WorldBound));
      changeTargetTimer := IdleTargetChangeMinTime + r.third * (IdleTargetChangeMaxTime - IdleTargetChangeMinTime);
    }

    method UpdateFollowing(deltaTime: real, speed: real)
      requires Valid() && state == Following
      modifies this
      ensures Valid()
      ensures View() == FollowStep(old(View()), father.position, nestPosition, speed, sqrt)
    {
      if followTarget == null {
        state := Idle;
        return;
      }
      if Within(DistanceSq(position, nestPosition), NestReturnRadius) {
        StartReturning();
      } else {
        var directionToTarget := Flat(Sub(followTarget.position, position));
        if Beyond(LengthSq(directionToTarget), FollowDistance) {
          directionToTarget := Normalize(directionToTarget, sqrt);
          position := Add(position, Scale(directionToTarget, speed * FollowSpeedFactor));
        }
      }
    }

    method UpdateReturning(deltaTime: real, speed: real, r: Draws)
      requires Valid() && state == Returning
      modifies this, gameState
      ensures Valid()
      ensures View() == ReturnStep(old(View()), nestPosition, speed, r, sqrt)
      ensures gameState.ducklingsFound ==
                if ArrivesThisFrame(old(View()))
                then GameProgress.AfterFound(old(gameState.ducklingsFound), gameState.totalDucklings)
                else old(gameState.ducklingsFound)
    {
      var directionToNest := Flat(Sub(targetPosition, position));
      if LengthSq(directionToNest) < NestSafeRadius * NestSafeRadius {
        SetSafe(r);
      } else {
        directionToNest := Normalize(directionToNest, sqrt);
        position := Add(position, Scale(directionToNest, speed * ReturnSpeedFactor));
      }
    }

    method StartFollowing()
      requires Valid()
      modifies this
      ensures Valid() && followTarget == father
      ensures View() == BeganFollowing(old(View()))
    {
      state := Following;
      followTarget := father;
    }

    method StartReturning()
      requires Valid()
      modifies this
      ensures Valid() && followTarget == null
      ensures View() == BeganReturning(old(View()), nestPosition)
    {
      state := Returning;
      followTarget := null;
      targetPosition := nestPosition;
    }

    method SetSafe(r: Draws)
      requires Valid()
      modifies this, gameState
      ensures Valid()
      ensures View() == MadeSafe(old(View()), nestPosition, r)
      ensures gameState.ducklingsFound ==
                GameProgress.AfterFound(old(gameState.ducklingsFound), gameState.totalDucklings)
    {
      state := Safe;
      position := Vec3(nestPosition.x + (r.first - 0.5) * (2.0 * NestJitter), position.y,
                       nestPosition.z + (r.second - 0.5) * (2.0 * NestJitter));
      gameState.FoundDuckling();
    }
  }
}

# Duck game: the state machines, counters and placement loops

The game is a three.js scene in which the player steers a father duck around a pond. Ducklings
wander the meadow until the father comes close. They then follow him until they are near the
nest, walk into it, and are counted as safe. This project models the logic of that game and
proves properties of it. The mesh building, rendering and browser glue are not modelled.

- `Geometry` (geometry.dfy): three-component real vectors and distances compared squared.
  `Math.sqrt` is a function parameter `sqrt` constrained by `IsSqrt`. It also holds the
  `normalize` of three.js (divide by the length, or by 1 for the zero vector).
- `GameProgress` (game_progress.dfy): the `GameState` counter of found ducklings.
- `Ducklings` (ducklings.dfy): the `BabyDuck` state machine idle → following → returning → safe.
  - Pure step functions state what one frame does: `IdleStep`, `FollowStep`, `ReturnStep` and
    `FrameStep`.
  - The class `BabyDuck` updates its fields in place, and each of its methods is proved equal to
    the matching step function.
  - Lemmas state the transitions, the invariants, and what happens over any run of frames.
- `Player` (player.dfy): the `PlayerController`.
  - Key and mouse handlers update a record of movement flags and the camera yaw and pitch.
  - `Update` runs one frame: horizontal velocity from the camera-relative input, jump or
    gravity, the move, the ground clamp and the wing-flap timer.
- `Ground` (ground.dfy): the in-place height pass of `createGround` over the vertex array.
- `Scatter` (scatter.dfy): what the three placement loops share. This is the random spread of a
  coordinate, the pond/nest exclusion test, and `Kept`, the order-preserving filter. `Kept` says
  which candidates of a run of attempts reach the scene.
- `Rocks`, `Bushes`, `Trees` (rocks.dfy, bushes.dfy, trees.dfy): `createRocks`, `createBush`,
  `createBushes` and `createTrees`. Each loop is a method that returns three things: the objects
  it adds to the scene in order, the number of attempts made, and whether it logs the
  "max attempts" warning.

`Math.random()` values are inputs, each in [0, 1).
- A frame of a duckling gets a `Draws` record.
- An attempt of a placement loop gets one draw record, and the loop gets a sequence of them.
- The height pass gets one value per vertex.

Where the classes read the positions of other scene objects (the father and the mother duck),
those objects are `Actor`s holding a position.

## Model

| member | source | states |
|---|---|---|
| Geometry.DistanceComparisons | src/babyDuck.ts:86-91 | `distanceTo(...) < r` is exactly `Within` (squared distance below r², r positive), and `> r` is exactly `Beyond` |
| Geometry.NormalizeIsUnit | src/babyDuck.ts:96-100 | normalizing a non-zero vector gives length 1, and scaling it back by the length gives the vector again; a planar vector stays planar |
| Geometry.StepAlongUnit | src/babyDuck.ts:99-100 | adding `step` times a planar unit vector moves a point by exactly `step` and keeps its height |
| GameProgress.AfterFound | src/gameState.ts:10-14 | one `foundDuckling` adds exactly 1 when found < total and otherwise changes nothing; it never decreases the count and never takes it past the total |
| GameProgress.FoundAfterSaturates | src/gameState.ts:10-14 | repeated `foundDuckling` calls count up one by one and stop at the total |
| GameProgress.CompleteAfterTotalCalls | src/gameState.ts:5-8 | from a fresh counter, `allDucklingsFound` holds after `calls` calls exactly when total ≤ 0 or calls ≥ total |
| GameProgress.GameState.constructor | src/gameState.ts:5-8 | found is 0, the total is the argument (default 66), the bounds hold when the total is not negative, and `allDucklingsFound` holds at once exactly when total ≤ 0 |
| GameProgress.GameState.FoundDuckling | src/gameState.ts:10-14 | the new count is `AfterFound` of the old one; it never decreases; 0 ≤ found ≤ total is preserved |
| GameProgress.GameState.Reset | src/gameState.ts:16-18 | the count becomes 0, the read-only total is untouched, and the bounds are preserved |
| Ducklings.BabyDuck.constructor | src/babyDuck.ts:35-63 | a new duckling is idle, follows nobody, stands at the spawn point with that point as its target, has a retarget timer in [0, 6) and a speed in [0.8, 1.2) |
| Ducklings.BabyDuck.Update | src/babyDuck.ts:65-82 | the new duckling is `FrameStep` of the old one, with step speed·dt; the counter is told exactly when the duckling arrives this frame |
| Ducklings.BabyDuck.UpdateIdle | src/babyDuck.ts:84-104 | performs `IdleStep` in place and keeps the follow reference the father or null |
| Ducklings.BabyDuck.SetNewIdleTarget | src/babyDuck.ts:106-118 | performs `WithNewIdleTarget` in place |
| Ducklings.BabyDuck.UpdateFollowing | src/babyDuck.ts:121-143 | performs `FollowStep` in place; a missing follow reference sends the duckling back to idle |
| Ducklings.BabyDuck.UpdateReturning | src/babyDuck.ts:145-157 | performs `ReturnStep` in place and tells the counter exactly when the duckling arrives |
| Ducklings.BabyDuck.StartFollowing | src/babyDuck.ts:159-163 | the state becomes following and the follow reference the father |
| Ducklings.BabyDuck.StartReturning | src/babyDuck.ts:165-170 | the state becomes returning, the follow reference is cleared, and the target becomes the nest |
| Ducklings.BabyDuck.SetSafe | src/babyDuck.ts:172-188 | the state becomes safe, the duckling is placed around the nest at its own height, and `foundDuckling` runs exactly once |
| Ducklings.IdleCollected | src/babyDuck.ts:86-88 | an idle duckling strictly within 3-D distance 2 of the father starts following, and position, target and timer are unchanged that frame |
| Ducklings.NewIdleTargetBounds | src/babyDuck.ts:106-118 | a new wander target keeps the height, lies in [-95, 95] on x and z, and lies within 5 of a duckling inside those bounds; the timer restarts in [2, 6) |
| Ducklings.IdleMovement | src/babyDuck.ts:89-103 | an idle duckling that is not collected moves only when its planar squared distance to the target exceeds 0.01, and then exactly 0.6·speed·dt towards the target (the planar way left is the old one shortened by that step, in the same direction), keeping its height and state |
| Ducklings.FollowingReachesNest | src/babyDuck.ts:127-128 | a following duckling strictly within 3-D distance 3.5 of the nest starts returning, stops following, targets the nest and does not move |
| Ducklings.FollowingMovement | src/babyDuck.ts:129-142 | otherwise it moves exactly 1.1·speed·dt towards the father (the planar way left is the old one shortened by that step) when its planar distance to him exceeds 1.5, and it does not move at all when that distance is 1.5 or less |
| Ducklings.ReturningStep | src/babyDuck.ts:145-157 | a returning duckling with planar squared distance to the nest below 0.25 becomes safe within 0.75 of the nest on x and z at its own height; otherwise it moves exactly speed·dt towards the nest (the planar way left is the old one shortened by that step) and stays returning |
| Ducklings.IdleRetarget | src/babyDuck.ts:89-93 | an idle duckling that is not collected counts its timer down by dt; a new target is drawn exactly when the counted-down timer is ≤ 0 or the target is strictly within 0.5, and the timer then restarts in [2, 6); otherwise target and counted-down timer are kept |
| Ducklings.MovedToward | src/babyDuck.ts:96-100 | a step of length s along the normalized planar direction to a goal leaves the planar way to that goal equal to the old way times 1 − s/length: the step goes towards the goal |
| Ducklings.SafeIsTerminal | src/babyDuck.ts:78-80 | a frame leaves a safe duckling exactly as it is |
| Ducklings.FrameKeepsInvariants | src/babyDuck.ts:65-82 | every frame keeps "follow reference set ⇔ following" and "returning or safe ⇒ target is the nest", keeps the height, never goes back along idle → following → returning → safe, and reaches safe exactly on arrival |
| Ducklings.SafeForever | src/babyDuck.ts:78-80 | a safe duckling stays unchanged over any run of frames and is never counted again |
| Ducklings.RunKeepsInvariants | src/babyDuck.ts:172-185 | over any run of frames the invariants hold, the state only moves forward, and `foundDuckling` is called at most once; it is called exactly once when the run ends safe from a duckling that was not safe |
| Player.KeyDown | src/playerController.ts:88-110 | W/ArrowUp, S/ArrowDown, A/ArrowLeft, D/ArrowRight and Space set exactly their own flag, and any other code changes nothing |
| Player.KeyUp | src/playerController.ts:112-135 | the directional keys clear exactly their own flag; Space and other codes change nothing |
| Player.PressRelease | src/playerController.ts:88-135 | pressing then releasing a movement key leaves it released, the same as releasing it alone; pressing twice is the same as pressing once |
| Player.ClampPitch | src/playerController.ts:162 | the pitch lands in [minPitch, maxPitch], a pitch already in range is kept, and an out-of-range pitch goes to the nearer limit |
| Player.InputIsFlat | src/playerController.ts:183-192 | the input vector built from the flattened camera direction and the right vector has no vertical part |
| Player.OpposedKeysStop | src/playerController.ts:188-192 | with no key held, or with each pair of opposite keys held together, the horizontal velocity is exactly zero |
| Player.MovingAtMoveSpeed | src/playerController.ts:194-219 | above the 0.01 squared-length threshold the horizontal velocity is planar with speed exactly 5; at or below it the velocity is zero |
| Player.FlatVelocity | src/playerController.ts:211-219 | the same, for any planar input vector |
| Player.GroundJump | src/playerController.ts:222-229 | on the ground with a jump request, the vertical velocity becomes 6, the request is consumed, the flap starts with timer 0.3 (counted down by this frame), and the player rises by 6·dt |
| Player.GroundedWithoutJump | src/playerController.ts:177-178 | on the ground (y ≤ 0.51) with no request, the vertical velocity is 0, the flags are unchanged, and the height is only raised up to 0.5 |
| Player.Airborne | src/playerController.ts:230-232 | in the air, a jump request is kept, the vertical velocity drops by exactly 19.6·dt unless the fall is clamped, and no flap starts |
| Player.FrameKeepsBounds | src/playerController.ts:236-262 | after every frame y ≥ 0.5; a clamped fall ends with vertical velocity 0; a running flap has time left and never more than 0.3; an ongoing flap's timer drops by dt |
| Player.PlayerController.constructor | src/playerController.ts:17-74 | all flags are released, the velocities are zero, no flap is running, the yaw is 0 and the pitch is π/8 |
| Player.PlayerController.HandleKeyDown | src/playerController.ts:88-110 | the flags become `KeyDown` of the old flags, and nothing else changes |
| Player.PlayerController.HandleKeyUp | src/playerController.ts:112-135 | the flags become `KeyUp` of the old flags, and nothing else changes |
| Player.PlayerController.HandleMouseDown | src/playerController.ts:137-144 | the right button sets the camera-button flag, other buttons change nothing |
| Player.PlayerController.HandleMouseUp | src/playerController.ts:146-153 | the right button clears the camera-button flag, other buttons change nothing |
| Player.PlayerController.HandleMouseMove | src/playerController.ts:155-164 | while the pointer is locked, the yaw drops by 0.002·movementX and the pitch becomes the clamped 0.002·movementY increase, so it stays in range; unlocked, the yaw and pitch are unchanged |
| Player.PlayerController.HandlePointerLockChange | src/playerController.ts:166-173 | losing the lock clears only the camera-button flag, and the movement flags are untouched |
| Player.PlayerController.Update | src/playerController.ts:176-262 | the new body is `PlayerStep` of the old one; the yaw and pitch are untouched; the player ends at or above the ground |
| Player.PlayerController.SteerHorizontally | src/playerController.ts:180-219 | the horizontal velocity becomes `HorizontalVelocity` of the flags and camera direction, and the vertical component of the velocity is left as it was |
| Ground.PerturbedVertex | src/ground.ts:32-44 | x and y are never changed; a vertex inside the (as-written) disc keeps its z; any other vertex gets z moved by an offset in [-0.1, 0.1) |
| Ground.Perturbed | src/ground.ts:29-45 | the buffer keeps its vertex count, and each vertex is treated as `PerturbedVertex` describes |
| Ground.PerturbHeights | src/ground.ts:32-45 | the loop visits every index once, in order, and leaves the array equal to `Perturbed` of its old contents |
| Ground.FlatDiscIsMirrored | src/ground.ts:30-38 | as written, the vertex under the pond's centre (-30, 20) is perturbed, and its mirror image under (-30, -20) is kept flat |
| Ground.PerturbedVertexInWorld | src/ground.ts:37-44 | the corrected test, on (x, -y): x and y are never changed, and a vertex inside the pond's disc keeps its z |
| Ground.WorldDiscKeptFlat | src/ground.ts:37-54 | with the corrected test, a vertex whose world position is within pondRadius + 1 of the pond keeps its height after rotation, and any other vertex gets exactly the random offset |
| Ground.CorrectedKeepsPondFlat | src/ground.ts:37-44 | with the corrected test, the vertex under the real pond's centre keeps its height |
| Scatter.Spread | src/rocks.ts:78-79 | `(random - 0.5) * extent` lies within half the extent of 0 |
| Scatter.KeptExactlyClear | src/rocks.ts:96-103 | a run of attempts places exactly the candidates clear of both discs: nothing rejected is added, nothing clear is lost, and no more are placed than attempts made |
| Rocks.Candidate | src/rocks.ts:74-80 | a rock's size is in [1, 3); its centre height and bounding radius are size/2; it is not collidable; \|x\| ≤ \|areaWidth − size\|/2, and likewise for z |
| Rocks.PlacedRocksArePlaceable | src/rocks.ts:85-103 | every placed rock is clear of the pond and the nest by its radius, sized and placed as above, and every clear candidate is placed |
| Rocks.CreateRocks | src/rocks.ts:58-110 | with the defaults count 20 and a 200 × 200 area, the rocks added are `Kept` of the attempts made; at most count·3 attempts and at most count rocks; the loop ends with count rocks or the attempts used up; the warning fires exactly when attempts ≥ count·3 |
| Bushes.NumSpheres | src/bush.ts:17 | a bush has 4 to 6 spheres |
| Bushes.SphereBounds | src/bush.ts:18-28 | a sphere's radius is in [0.4, 0.7)·baseRadius, its angle is in [0, 2π), its distance is in [0, 0.6·baseRadius), and its height is at least half its radius |
| Bushes.SphereRadiusRange | src/bush.ts:21 | a sphere's radius is in [0.4, 0.7)·baseRadius |
| Bushes.SphereDistanceRange | src/bush.ts:27 | a sphere's distance from the centre is in [0, 0.6·baseRadius) |
| Bushes.SphereHeightRange | src/bush.ts:28 | a sphere's height is in [radius/2, 0.4·baseRadius + radius/2) |
| Bushes.BushOf | src/bush.ts:15-46 | the bush has `NumSpheres` spheres (4 to 6 for a unit draw), sphere i is built from draw i with base radius scale/2, the bounding radius is 0.6·scale, and it stands at the origin |
| Bushes.CreateBush | src/bush.ts:15-46 | with the default scale 1, the loop builds exactly `BushOf`, with 4 to 6 spheres and bounding radius 0.6·scale |
| Bushes.PlacementRadius | src/bush.ts:78 | for every bush `createBush` builds, the `\|\|` fallback gives the stored radius, 0.6·scale |
| Bushes.Candidate | src/bush.ts:76-84 | a bush's radius is in [0.42, 0.78) with 4 to 6 spheres of radius in [0.4, 0.7)·(radius/1.2); it stands at y = 0 with \|x\| ≤ \|areaWidth − 2r\|/2, and likewise for z |
| Bushes.PlacedBushesArePlaceable | src/bush.ts:86-101 | every placed bush is clear of the pond and the nest by its radius, sized and placed as above, and every clear candidate is placed |
| Bushes.CreateBushes | src/bush.ts:60-108 | with the defaults count 30 and a 200 × 200 area, the bushes added are `Kept` of the attempts made; at most count·5 attempts and at most count bushes; the loop ends with count bushes or the attempts used up; the warning fires exactly when attempts ≥ count·5 |
| Trees.Candidate | src/tree.ts:76-85 | a tree's scale is in [0.75, 1.25) and its base radius is 0.36·scale; it stands at y = 0 with \|x\| ≤ \|areaWidth − 2r\|/2, and likewise for z |
| Trees.PlacedTreesArePlaceable | src/tree.ts:87-103 | every placed tree is clear of the pond and the nest by its base radius, sized and placed as above; a candidate is placed exactly when it is clear, so rejected trees are never added |
| Trees.CreateTrees | src/tree.ts:60-109 | with the defaults count 15 and a 200 × 200 area, the trees added are `Kept` of the attempts made; at most count·5 attempts and at most count trees; the loop ends with count trees or the attempts used up; the warning fires exactly when attempts ≥ count·5 |

## Left out

- Meshes, materials, groups, shadows, textures, the renderer, the lights and the scene graph are left out. So are duck.ts, sceneSetup.ts, nest.ts and pond.ts. A "scene add" is the object returned by the loop.
- Rotations are left out because they are quaternion trigonometry on floating point:
  - `rotateTowards` / `setFromUnitVectors` / `slerp` in babyDuck.ts;
  - the duckling's `lookAt` of the mother;
  - the player's `rotateTowards` towards the camera heading;
  - the rock rotation Euler (its three draws come after x and z and affect nothing modelled);
  - the spherical camera pose and `lookAt`;
  - the sine wing-flap angle.
- Bushes.SphereOf: keeps the angle and the distance of a sphere instead of its x = cos(angle)·distance and z = sin(angle)·distance, because cosine and sine are not modelled.
- Player.PlayerController.Update: takes the camera's world direction as a parameter (`getWorldDirection`), because the camera pose is not modelled.
- Numbers are mathematical reals, not IEEE doubles, and π is the literal 3.141592653589793.
- `Math.sqrt` is an oracle characterised by `IsSqrt`. Comparisons of distances are stated on squares, and `Geometry.DistanceComparisons` proves this exact.
- `Math.random()` is an input stream. The model indexes the height-pass draws per vertex, whereas the source draws a value only for a perturbed vertex. The offsets applied are the same, taken in order from the values actually drawn.
- Rocks.CreateRocks, Bushes.CreateBushes, Trees.CreateTrees: require at least count·3 (or count·5) draw records. This is enough for every attempt the loop can make, and it stands in for an endless random source.
- Bushes.BushOf, Bushes.CreateBush, Bushes.Candidate: require as many sphere draws as the sphere count asks for, for the same reason.
- Event listener registration, `dispose`, pointer-lock requests and exits, the `console` messages, and the DOM updates and animation loop of main.ts are left out. So is the rock loop of world.ts: it has no attempt cap and duplicates rocks.ts.
- Several call sites in main.ts do not match the classes, so the classes are modelled as defined:
  - `setTotalDucklings` is called but does not exist on `GameState`;
  - `BabyDuck` is called with seven arguments;
  - `PlayerController` is called with four arguments;
  - main.ts destructures `{nest, collidables}` from a world that returns only `{nestPosition}`.
- world.ts builds its own flat ground and never calls `createGround`. The height pass is modelled as `createGround` defines it, with the pond of world.ts and pond.ts as the example disc.
- The model follows the code as written:
  - there are no jumps in the air, no gliding and no collision with obstacles;
  - `allDucklingsFound` is `found >= total`, so a total of 0 or less counts as complete at construction;
  - the duckling's collection and nest-return tests use 3-D distances, while its steering is planar.
- The wing meshes that the flap rotates are left out. Their presence does not affect `isFlying` or `flyTimer`.
- `GameState.totalDucklingsCount` and `allDucklingsFound` are modelled as the read-only functions `TotalDucklingsCount` and `AllDucklingsFound`. Their meaning is stated through the constructor, `AllFound` and `CompleteAfterTotalCalls`.

## Findings

| source | as written | input that shows it | evidently intended | confidence | as-written member | corrected member |
|---|---|---|---|---|---|---|
| src/ground.ts:30-38 | the flattening test compares the plane's local (x, y) with the pond's (x, z), but the mesh is then rotated by -π/2 about x (line 54), so world z is minus local y | pond at (-30, 0.01, 20) with radius 15: the vertex at local (-30, -20), which lies under the pond's centre, is perturbed, and the vertex at local (-30, 20), 40 units from the pond, is kept flat | keep flat the vertices whose world position (x, -y) is within pondRadius + 1 of the pond | not executed | Ground.FlatDiscIsMirrored | Ground.WorldDiscKeptFlat |

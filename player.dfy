/** The player controller of src/playerController.ts: keyboard flags, pointer-locked mouse
    look with a clamped pitch, and the per-frame movement with jump, gravity, a ground clamp
    and the wing-flap timer. The pure functions say what each handler and each frame do; the
    class PlayerController performs them in place and is proved to agree with them. */
module Player {
  import opened Geometry
  import Ducklings

  const MoveSpeed := 5.0
  const Gravity := -9.8 * 2.0
  const JumpStrength := 6.0
  const FlyDuration := 0.3
  const GroundY := 0.5
  const GroundTolerance := 0.01
  const MouseSensitivity := 0.002
  const MinPitch := -Pi / 4.0
  const MaxPitch := Pi / 2.0 - 0.1
  const InitialPitch := Pi / 8.0
  /** The mouse button that captures the pointer (the right button). */
  const CameraButton := 2

  /** The record of held keys and the camera mouse button. */
  datatype MoveState = MoveState(forward: bool, backward: bool, strafeLeft: bool, strafeRight: bool,
                                 jump: bool, mouseLeftDown: bool)

  const Released := MoveState(false, false, false, false, false, false)

  /** The movement flags a key can set. */
  datatype Flag = Forward | Backward | StrafeLeft | StrafeRight | Jump

  datatype Option<T> = None | Some(value: T)

  function Get(m: MoveState, f: Flag): bool {
    match f
    case Forward => m.forward
    case Backward => m.backward
    case StrafeLeft => m.strafeLeft
    case StrafeRight => m.strafeRight
    case Jump => m.jump
  }

  /** Which flag a key code stands for: WASD, the arrow keys and Space. */
  function FlagOf(code: string): Option<Flag> {
    if code == "KeyW" || code == "ArrowUp" then Some(Forward)
    else if code == "KeyS" || code == "ArrowDown" then Some(Backward)
    else if code == "KeyA" || code == "ArrowLeft" then Some(StrafeLeft)
    else if code == "KeyD" || code == "ArrowRight" then Some(StrafeRight)
    else if code == "Space" then Some(Jump)
    else None
  }

  /** `handleKeyDown`: sets exactly the flag of the key; any other key changes nothing. */
  function KeyDown(m: MoveState, code: string): (r: MoveState)
    ensures forall f :: Get(r, f) == (FlagOf(code) == Some(f) || Get(m, f))
    ensures r.mouseLeftDown == m.mouseLeftDown
  {
    match code
    case "KeyW" => m.(forward := true)
    case "ArrowUp" => m.(forward := true)
    case "KeyS" => m.(backward := true)
    case "ArrowDown" => m.(backward := true)
    case "KeyA" => m.(strafeLeft := true)
    case "ArrowLeft" => m.(strafeLeft := true)
    case "KeyD" => m.(strafeRight := true)
    case "ArrowRight" => m.(strafeRight := true)
    case "Space" => m.(jump := true)
    case _ => m
  }

  /** `handleKeyUp`: clears exactly the directional flag of the key; releasing Space leaves
      the jump request for the next frame to consume. */
  function KeyUp(m: MoveState, code: string): (r: MoveState)
    ensures forall f :: Get(r, f) == (Get(m, f) && (f == Jump || FlagOf(code) != Some(f)))
    ensures r.mouseLeftDown == m.mouseLeftDown
  {
    match code
    case "KeyW" => m.(forward := false)
    case "ArrowUp" => m.(forward := false)
    case "KeyS" => m.(backward := false)
    case "ArrowDown" => m.(backward := false)
    case "KeyA" => m.(strafeLeft := false)
    case "ArrowLeft" => m.(strafeLeft := false)
    case "KeyD" => m.(strafeRight := false)
    case "ArrowRight" => m.(strafeRight := false)
    case _ => m
  }

  /** Pressing and releasing a movement key leaves that key released, whatever it was before;
      pressing it twice is pressing it once. */
  lemma {:induction false} PressRelease(m: MoveState, code: string)
    requires FlagOf(code).Some? && FlagOf(code) != Some(Jump)
    ensures !Get(KeyUp(KeyDown(m, code), code), FlagOf(code).value)
    ensures KeyUp(KeyDown(m, code), code) == KeyUp(m, code)
    ensures KeyDown(KeyDown(m, code), code) == KeyDown(m, code)
  {
    var f := FlagOf(code).value;
    var a := KeyUp(KeyDown(m, code), code);
    var b := KeyUp(m, code);
    assert Get(a, Forward) == Get(b, Forward);
    assert Get(a, Backward) == Get(b, Backward);
    assert Get(a, StrafeLeft) == Get(b, StrafeLeft);
    assert Get(a, StrafeRight) == Get(b, StrafeRight);
    assert Get(a, Jump) == Get(b, Jump);
    var c := KeyDown(KeyDown(m, code), code);
    var e := KeyDown(m, code);
    assert Get(c, Forward) == Get(e, Forward);
    assert Get(c, Backward) == Get(e, Backward);
    assert Get(c, StrafeLeft) == Get(e, StrafeLeft);
    assert Get(c, StrafeRight) == Get(e, StrafeRight);
    assert Get(c, Jump) == Get(e, Jump);
  }

  /** The pitch clamp of `handleMouseMove`: the result is in [minPitch, maxPitch], and a pitch
      already in that range is kept. */
  function ClampPitch(p: real): (r: real)
    ensures MinPitch <= r <= MaxPitch
    ensures MinPitch <= p <= MaxPitch ==> r == p
    ensures p < MinPitch ==> r == MinPitch
    ensures p > MaxPitch ==> r == MaxPitch
  {
    Max(MinPitch, Min(MaxPitch, p))
  }

  /** The fields of the controller and of the player's position that a frame changes. */
  datatype Body = Body(moveState: MoveState, velocity: Vec3, verticalVelocity: real,
                       isFlying: bool, flyTimer: real, position: Vec3)

  /** The camera-relative input vector: forward/backward along the flattened camera direction,
      left/right along up x forward. */
  function InputVector(m: MoveState, cameraDirection: Vec3, sqrt: real -> real): Vec3 {
    var flatCameraDirection := Normalize(Flat(cameraDirection), sqrt);
    var cameraRight := Normalize(Cross(Vec3(0.0, 1.0, 0.0), flatCameraDirection), sqrt);
    var v0 := Origin;
    var v1 := if m.forward then Add(v0, flatCameraDirection) else v0;
    var v2 := if m.backward then Sub(v1, flatCameraDirection) else v1;
    var v3 := if m.strafeLeft then Add(v2, cameraRight) else v2;
    if m.strafeRight then Sub(v3, cameraRight) else v3
  }

  predicate OnGround(b: Body) {
    b.position.y <= GroundY + GroundTolerance
  }

  /** A jump is granted this frame: the player is on the ground and a jump was requested. */
  predicate Jumps(b: Body) {
    OnGround(b) && b.moveState.jump
  }

  /** The horizontal velocity a frame sets: the normalized input times moveSpeed, or zero
      when the input is too short to count as movement (y is left 0 here). */
  function HorizontalVelocity(m: MoveState, cameraDirection: Vec3, sqrt: real -> real): Vec3 {
    VelocityOf(InputVector(m, cameraDirection, sqrt), sqrt)
  }

  function VelocityOf(input: Vec3, sqrt: real -> real): Vec3 {
    if LengthSq(input) > 0.01 then
      var dir := Normalize(input, sqrt);
      Vec3(dir.x * MoveSpeed, 0.0, dir.z * MoveSpeed)
    else Origin
  }

  /** The rest of a frame once the horizontal velocity `h` is known: the jump or gravity, the
      move, the ground clamp and the flap timer. */
  function Integrate(b: Body, dt: real, h: Vec3): Body {
    var jumped := Jumps(b);
    var vertical :=
      if OnGround(b) then (if jumped then JumpStrength else 0.0) else b.verticalVelocity + Gravity * dt;
    var moveState := if jumped then b.moveState.(jump := false) else b.moveState;
    var flying := jumped || b.isFlying;
    var timer := if jumped then FlyDuration else b.flyTimer;
    var velocity := Vec3(h.x, vertical, h.z);
    var moved := Add(b.position, Scale(velocity, dt));
    var clamped := moved.y < GroundY;
    var timerAfter := if flying then timer - dt else timer;
    Body(moveState, velocity, if clamped then 0.0 else vertical,
         flying && timerAfter > 0.0, timerAfter,
         if clamped then moved.(y := GroundY) else moved)
  }

  /** `update(deltaTime)` without the camera pose. */
  function PlayerStep(b: Body, dt: real, cameraDirection: Vec3, sqrt: real -> real): Body {
    Integrate(b, dt, HorizontalVelocity(b.moveState, cameraDirection, sqrt))
  }

  // ---------------------------------------------------------------------------------------
  // Properties of one frame

  lemma InputIsFlat(m: MoveState, cameraDirection: Vec3, sqrt: real -> real)
    ensures InputVector(m, cameraDirection, sqrt).y == 0.0
  {
    var flat := Normalize(Flat(cameraDirection), sqrt);
    assert flat.y == 0.0;
    assert Cross(Vec3(0.0, 1.0, 0.0), flat).y == 0.0;
  }

  /** With no movement key held, or with each pair of opposite keys both held or both
      released, the player stops at once: no momentum, no drift. */
  lemma OpposedKeysStop(m: MoveState, cameraDirection: Vec3, sqrt: real -> real)
    requires m.forward == m.backward && m.strafeLeft == m.strafeRight
    ensures HorizontalVelocity(m, cameraDirection, sqrt) == Origin
  {
    assert InputVector(m, cameraDirection, sqrt) == Origin;
  }

  /** A velocity along the ground plane whose speed is `speed`. */
  predicate PlanarSpeed(v: Vec3, speed: real) {
    v.y == 0.0 && v.x * v.x + v.z * v.z == speed * speed
  }

  /** When the input is long enough to count as movement, the horizontal speed is exactly
      moveSpeed, in whatever direction the keys give; otherwise the player stands still. */
  lemma MovingAtMoveSpeed(m: MoveState, cameraDirection: Vec3, sqrt: real -> real)
    requires IsSqrt(sqrt)
    ensures var input := InputVector(m, cameraDirection, sqrt);
      PlanarSpeed(HorizontalVelocity(m, cameraDirection, sqrt), if LengthSq(input) > 0.01 then MoveSpeed else 0.0)
  {
    InputIsFlat(m, cameraDirection, sqrt);
    FlatVelocity(InputVector(m, cameraDirection, sqrt), sqrt);
  }

  lemma FlatVelocity(input: Vec3, sqrt: real -> real)
    requires IsSqrt(sqrt) && input.y == 0.0
    ensures PlanarSpeed(VelocityOf(input, sqrt), if LengthSq(input) > 0.01 then MoveSpeed else 0.0)
  {
    if LengthSq(input) > 0.01 {
      NormalizeIsUnit(input, sqrt);
      var u := Normalize(input, sqrt);
      assert u.y == 0.0;
      assert u.x * u.x + u.z * u.z == 1.0;
      calc {
        (u.x * MoveSpeed) * (u.x * MoveSpeed) + (u.z * MoveSpeed) * (u.z * MoveSpeed);
        (u.x * u.x + u.z * u.z) * (MoveSpeed * MoveSpeed);
        MoveSpeed * MoveSpeed;
      }
    }
  }

  /** A jump requested on the ground is granted and consumed: upward velocity jumpStrength,
      the flap starts (its timer already counted down by this frame) and the player rises. */
  lemma GroundJump(b: Body, dt: real, h: Vec3)
    requires OnGround(b) && b.moveState.jump && b.position.y >= GroundY && dt >= 0.0
    ensures var e := Integrate(b, dt, h);
      && !e.moveState.jump && e.verticalVelocity == JumpStrength && e.velocity.y == JumpStrength
      && e.flyTimer == FlyDuration - dt && e.isFlying == (dt < FlyDuration)
      && e.position.y == b.position.y + JumpStrength * dt
  {
    assert JumpStrength * dt >= 0.0;
  }

  /** On the ground without a jump request the vertical velocity is zero and the height is
      only raised up to the ground level. */
  lemma GroundedWithoutJump(b: Body, dt: real, h: Vec3)
    requires OnGround(b) && !b.moveState.jump
    ensures var e := Integrate(b, dt, h);
      && e.verticalVelocity == 0.0 && e.moveState == b.moveState
      && e.position.y == Max(b.position.y, GroundY)
  {
  }

  /** In the air a jump request is kept, not consumed, and gravity lowers the vertical
      velocity by exactly 19.6 * dt, unless the fall ends on the ground this frame. */
  lemma Airborne(b: Body, dt: real, h: Vec3)
    requires !OnGround(b)
    ensures var e := Integrate(b, dt, h);
      && e.moveState == b.moveState
      && e.velocity.y == b.verticalVelocity - 19.6 * dt
      && (e.position.y > GroundY ==> e.verticalVelocity == b.verticalVelocity - 19.6 * dt)
      && (e.isFlying ==> b.isFlying)
  {
  }

  /** After every frame the player is at or above the ground; a clamped fall ends with zero
      vertical velocity; a flap in progress has time left, and never more than flyDuration
      when time does not run backwards; the horizontal velocity is the one given. */
  lemma FrameKeepsBounds(b: Body, dt: real, h: Vec3)
    ensures var e := Integrate(b, dt, h);
      && e.position.y >= GroundY
      && (b.position.y + e.velocity.y * dt < GroundY ==> e.position.y == GroundY && e.verticalVelocity == 0.0)
      && (e.isFlying ==> e.flyTimer > 0.0)
      && (dt >= 0.0 && (b.isFlying ==> b.flyTimer <= FlyDuration) ==> (e.isFlying ==> e.flyTimer <= FlyDuration))
      && (b.isFlying && !Jumps(b) ==> e.flyTimer == b.flyTimer - dt)
      && e.velocity.x == h.x && e.velocity.z == h.z
  {
  }

  // ---------------------------------------------------------------------------------------
  // The object

  class PlayerController {
    /** The father duck the player steers; ducklings read its position. */
    const playerObject: Ducklings.Actor
    const sqrt: real -> real
    var velocity: Vec3
    var verticalVelocity: real
    var isFlying: bool
    var flyTimer: real
    var cameraYaw: real
    var cameraPitch: real
    var moveState: MoveState

    ghost predicate Valid()
      reads this
    {
      IsSqrt(sqrt)
    }

    ghost function View(): Body
      reads this, playerObject
    {
      Body(moveState, velocity, verticalVelocity, isFlying, flyTimer, playerObject.position)
    }

    constructor (playerObject: Ducklings.Actor, sqrt: real -> real)
      requires IsSqrt(sqrt)
      ensures Valid() && this.playerObject == playerObject
      ensures moveState == Released && velocity == Origin && verticalVelocity == 0.0
      ensures !isFlying && flyTimer == 0.0
      ensures cameraYaw == 0.0 && cameraPitch == InitialPitch
    {
      this.playerObject := playerObject;
      this.sqrt := sqrt;
      velocity := Origin;
      verticalVelocity := 0.0;
      isFlying := false;
      flyTimer := 0.0;
      cameraYaw := 0.0;
      cameraPitch := InitialPitch;
      moveState := Released;
    }

    method HandleKeyDown(code: string)
      modifies this
      ensures moveState == KeyDown(old(moveState), code)
      ensures unchanged(this`velocity, this`verticalVelocity, this`isFlying, this`flyTimer, this`cameraYaw, this`cameraPitch)
    {
      match code
      case "KeyW" => moveState := moveState.(forward := true);
      case "ArrowUp" => moveState := moveState.(forward := true);
      case "KeyS" => moveState := moveState.(backward := true);
      case "ArrowDown" => moveState := moveState.(backward := true);
      case "KeyA" => moveState := moveState.(strafeLeft := true);
      case "ArrowLeft" => moveState := moveState.(strafeLeft := true);
      case "KeyD" => moveState := moveState.(strafeRight := true);
      case "ArrowRight" => moveState := moveState.(strafeRight := true);
      case "Space" => moveState := moveState.(jump := true);
      case _ =>
    }

    method HandleKeyUp(code: string)
      modifies this
      ensures moveState == KeyUp(old(moveState), code)
      ensures unchanged(this`velocity, this`verticalVelocity, this`isFlying, this`flyTimer, this`cameraYaw, this`cameraPitch)
    {
      match code
      case "KeyW" => moveState := moveState.(forward := false);
      case "ArrowUp" => moveState := moveState.(forward := false);
      case "KeyS" => moveState := moveState.(backward := false);
      case "ArrowDown" => moveState := moveState.(backward := false);
      case "KeyA" => moveState := moveState.(strafeLeft := false);
      case "ArrowLeft" => moveState := moveState.(strafeLeft := false);
      case "KeyD" => moveState := moveState.(strafeRight := false);
      case "ArrowRight" => moveState := moveState.(strafeRight := false);
      case _ =>
    }

    /** `handleMouseDown`: the camera button marks the mouse as held (the pointer-lock
        request it also makes is outside the model). */
    method HandleMouseDown(button: int)
      modifies this
      ensures moveState == if button == CameraButton then old(moveState).(mouseLeftDown := true) else old(moveState)
      ensures unchanged(this`velocity, this`verticalVelocity, this`isFlying, this`flyTimer, this`cameraYaw, this`cameraPitch)
    {
      if button == CameraButton {
        moveState := moveState.(mouseLeftDown := true);
      }
    }

    /** `handleMouseUp`: releasing the camera button clears the held mark. */
    method HandleMouseUp(button: int)
      modifies this
      ensures moveState == if button == CameraButton then old(moveState).(mouseLeftDown := false) else old(moveState)
      ensures unchanged(this`velocity, this`verticalVelocity, this`isFlying, this`flyTimer, this`cameraYaw, this`cameraPitch)
    {
      if button == CameraButton {
        moveState := moveState.(mouseLeftDown := false);
      }
    }

    /** `handleMouseMove`; `pointerLocked` is `document.pointerLockElement === canvas`. */
    method HandleMouseMove(movementX: real, movementY: real, pointerLocked: bool)
      modifies this
      ensures pointerLocked ==> cameraYaw == old(cameraYaw) - movementX * MouseSensitivity
      ensures pointerLocked ==> cameraPitch == ClampPitch(old(cameraPitch) + movementY * MouseSensitivity)
      ensures pointerLocked ==> MinPitch <= cameraPitch <= MaxPitch
      ensures !pointerLocked ==> cameraYaw == old(cameraYaw) && cameraPitch == old(cameraPitch)
      ensures unchanged(this`velocity, this`verticalVelocity, this`isFlying, this`flyTimer, this`moveState)
    {
      if pointerLocked {
        cameraYaw := cameraYaw - movementX * MouseSensitivity;
        cameraPitch := cameraPitch + movementY * MouseSensitivity;
        cameraPitch := Max(MinPitch, Min(MaxPitch, cameraPitch));
      }
    }

    /** `handlePointerLockChange`: losing the lock clears only the mouse-held mark. */
    method HandlePointerLockChange(pointerLocked: bool)
      modifies this
      ensures moveState == if pointerLocked then old(moveState) else old(moveState).(mouseLeftDown := false)
      ensures unchanged(this`velocity, this`verticalVelocity, this`isFlying, this`flyTimer, this`cameraYaw, this`cameraPitch)
    {
      if !pointerLocked {
        moveState := moveState.(mouseLeftDown := false);
      }
    }

    /** `update(deltaTime)`; `cameraDirection` is what `camera.getWorldDirection` returns. */
    method Update(deltaTime: real, cameraDirection: Vec3)
      modifies this, playerObject
      ensures View() == PlayerStep(old(View()), deltaTime, cameraDirection, sqrt)
      ensures cameraYaw == old(cameraYaw) && cameraPitch == old(cameraPitch)
      ensures playerObject.position.y >= GroundY
    {
      ghost var before := View();
      var onGround := playerObject.position.y <= GroundY + GroundTolerance;
      SteerHorizontally(cameraDirection);
      ghost var h := velocity;

      if onGround {
        verticalVelocity := 0.0;
        if moveState.jump {
          verticalVelocity := JumpStrength;
          moveState := moveState.(jump := false);
          isFlying := true;
          flyTimer := FlyDuration;
        }
      } else {
        verticalVelocity := verticalVelocity + Gravity * deltaTime;
      }
      velocity := velocity.(y := verticalVelocity);

      playerObject.position := Add(playerObject.position, Scale(velocity, deltaTime));

      if playerObject.position.y < GroundY {
        playerObject.position := playerObject.position.(y := GroundY);
        verticalVelocity := 0.0;
      }

      if isFlying {
        flyTimer := flyTimer - deltaTime;
        if flyTimer <= 0.0 {
          isFlying := false;
        }
      }
      assert View() == Integrate(before, deltaTime, h);
    }

    /** The first half of `update`: the camera-relative input vector and the horizontal
        velocity it sets. */
    method SteerHorizontally(cameraDirection: Vec3)
      modifies this
      ensures velocity.x == HorizontalVelocity(moveState, cameraDirection, sqrt).x
      ensures velocity.z == HorizontalVelocity(moveState, cameraDirection, sqrt).z
      ensures velocity.y == old(velocity.y)
      ensures unchanged(this`verticalVelocity, this`isFlying, this`flyTimer, this`cameraYaw, this`cameraPitch, this`moveState)
    {
      var flatCameraDirection := Normalize(Vec3(cameraDirection.x, 0.0, cameraDirection.z), sqrt);
      var cameraRight := Normalize(Cross(Vec3(0.0, 1.0, 0.0), flatCameraDirection), sqrt);
      var inputVector := Origin;
      if moveState.forward { inputVector := Add(inputVector, flatCameraDirection); }
      if moveState.backward { inputVector := Sub(inputVector, flatCameraDirection); }
      if moveState.strafeLeft { inputVector := Add(inputVector, cameraRight); }
      if moveState.strafeRight { inputVector := Sub(inputVector, cameraRight); }
      assert inputVector == InputVector(moveState, cameraDirection, sqrt);
      var isMoving := LengthSq(inputVector) > 0.01;

      if isMoving {
        inputVector := Normalize(inputVector, sqrt);
        velocity := velocity.(x := inputVector.x * MoveSpeed, z := inputVector.z * MoveSpeed);
      } else {
        velocity := velocity.(x := 0.0, z := 0.0);
      }
    }
  }
}

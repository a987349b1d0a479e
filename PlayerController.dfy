/**
 * The per-tick locomotion core of the third-person controller: movement-state
 * classification, vertical and lateral velocity integration, camera yaw/pitch and
 * the idle "snap to camera" rotation timer.
 *
 * Engine inputs (the physical body's grounded flag and velocity, the frame time,
 * the camera basis, the character's Euler angle, the recomputed rotation mismatch)
 * are parameters. Turning the character toward its target (a quaternion
 * interpolation in the engine) is recorded as a counted request.
 */
module Controller {
  import opened Vectors
  import opened PlayerStates
  import opened MovementInput

  /** The tunable settings of the controller. */
  datatype Settings = Settings(
    walkAcceleration: real,
    walkSpeed: real,
    runAcceleration: real,
    runSpeed: real,
    drag: real,
    sprintAcceleration: real,
    sprintSpeed: real,
    jumpSpeed: real,
    gravity: real,
    playerRotationSpeed: real,
    rotateToTargetTime: real,
    lookSensitivityH: real,
    lookSensitivityV: real,
    lookLimitV: real)

  /** Settings the core assumes: no negative speed, acceleration, drag, gravity, duration or limit. */
  predicate ValidSettings(s: Settings)
  {
    && s.walkAcceleration >= 0.0 && s.walkSpeed >= 0.0
    && s.runAcceleration >= 0.0 && s.runSpeed >= 0.0
    && s.sprintAcceleration >= 0.0 && s.sprintSpeed >= 0.0
    && s.drag >= 0.0 && s.jumpSpeed >= 0.0 && s.gravity >= 0.0
    && s.rotateToTargetTime >= 0.0 && s.lookLimitV >= 0.0
  }

  /** The values the component is created with. */
  function DefaultSettings(): (s: Settings)
    ensures ValidSettings(s)
    ensures s.walkSpeed < s.runSpeed < s.sprintSpeed
    ensures s.walkAcceleration < s.runAcceleration < s.sprintAcceleration
  {
    Settings(
      walkAcceleration := 0.15, walkSpeed := 3.0,
      runAcceleration := 0.25, runSpeed := 6.0,
      drag := 0.1,
      sprintAcceleration := 0.5, sprintSpeed := 9.0,
      jumpSpeed := 1.0, gravity := 25.0,
      playerRotationSpeed := 10.0, rotateToTargetTime := 0.25,
      lookSensitivityH := 0.1, lookSensitivityV := 0.1, lookLimitV := 80.0)
  }

  /** Horizontal speed below which the body counts as standing still. */
  const LateralDeadZone: real := 0.01

  /** Mismatch, in degrees, beyond which an idle character snaps toward the camera. */
  const RotationTolerance: real := 90.0

  // ---------------------------------------------------------------------------
  // Movement-state classification

  /** Forward input at least as strong as sideways input permits running. */
  function CanRun(movement: Vec2): (canRun: bool)
    ensures canRun <==> movement.y >= movement.x && movement.y >= -movement.x
    ensures canRun ==> movement.y >= 0.0
  {
    movement.y >= Abs(movement.x)
  }

  /** The body's horizontal speed exceeds the dead zone (compared on squares). */
  function IsMovingLaterally(velocity: Vec3): (moving: bool)
    ensures moving ==> velocity.x != 0.0 || velocity.z != 0.0
  {
    LateralSqrMagnitude(velocity) > LateralDeadZone * LateralDeadZone
  }

  /** Comparing squares is comparing the horizontal speed itself with the dead zone. */
  lemma IsMovingLaterallyByMagnitude(velocity: Vec3, speed: real)
    requires IsMagnitudeOf(speed, Vec3(velocity.x, 0.0, velocity.z))
    ensures IsMovingLaterally(velocity) <==> speed > LateralDeadZone
  {
    assert speed * speed == LateralSqrMagnitude(velocity);
    if speed > LateralDeadZone {
      SquareStrict(LateralDeadZone, speed);
    } else {
      SquareMonotonic(speed, LateralDeadZone);
    }
  }

  /**
   * The state the horizontal situation calls for, by priority: Walking, then
   * Sprinting, then Running, then Idling.
   */
  function LateralState(movement: Vec2, velocity: Vec3, sprintToggleOn: bool, walkToggleOn: bool): (s: PlayerStateEnum)
    ensures s == Walking <==> walkToggleOn || (IsMovingLaterally(velocity) && !CanRun(movement))
    ensures s == Sprinting <==> !walkToggleOn && sprintToggleOn && IsMovingLaterally(velocity) && CanRun(movement)
    ensures s == Running <==> !walkToggleOn
                              && ((IsMovingLaterally(velocity) && CanRun(movement) && !sprintToggleOn)
                                  || (!IsMovingLaterally(velocity) && IsNonZero2(movement)))
    ensures s == Idling <==> !walkToggleOn && !IsMovingLaterally(velocity) && !IsNonZero2(movement)
  {
    var canRun := CanRun(movement);
    var isMovementPressed := IsNonZero2(movement);
    var isMovingLaterally := IsMovingLaterally(velocity);
    var isWalking := (isMovingLaterally && !canRun) || walkToggleOn;
    var isSprinting := sprintToggleOn && isMovingLaterally;
    if isWalking then Walking
    else if isSprinting then Sprinting
    else if isMovingLaterally || isMovementPressed then Running
    else Idling
  }

  /**
   * The state of the tick: the lateral state, overridden by Jumping when airborne
   * and rising, or by Falling when airborne and sinking.
   */
  function MovementState(movement: Vec2, velocity: Vec3, sprintToggleOn: bool, walkToggleOn: bool,
                         isGrounded: bool): (s: PlayerStateEnum)
    ensures s == Jumping <==> !isGrounded && velocity.y > 0.0
    ensures s == Falling <==> !isGrounded && velocity.y < 0.0
    ensures isGrounded || velocity.y == 0.0 ==> s == LateralState(movement, velocity, sprintToggleOn, walkToggleOn)
    ensures s != Strafing
    ensures IsGrounded(s) <==> isGrounded || velocity.y == 0.0
  {
    var lateralState := LateralState(movement, velocity, sprintToggleOn, walkToggleOn);
    if !isGrounded && velocity.y > 0.0 then Jumping
    else if !isGrounded && velocity.y < 0.0 then Falling
    else lateralState
  }

  // ---------------------------------------------------------------------------
  // Vertical integration

  /**
   * Vertical velocity after one tick: a grounded state first cancels a downward
   * velocity, gravity is always applied, and the jump impulse is added only in a
   * grounded state with the jump flag set.
   */
  function NextVerticalVelocity(verticalVelocity: real, groundedState: bool, jumpPressed: bool,
                                gravity: real, dt: real, jumpImpulse: real): (next: real)
    ensures !groundedState ==> next == verticalVelocity - gravity * dt
    ensures groundedState && verticalVelocity < 0.0 && !jumpPressed ==> next == -gravity * dt
    ensures groundedState && verticalVelocity < 0.0 && jumpPressed ==> next == jumpImpulse - gravity * dt
    ensures groundedState && verticalVelocity >= 0.0
            ==> next == verticalVelocity - gravity * dt + (if jumpPressed then jumpImpulse else 0.0)
  {
    var v := if groundedState && verticalVelocity < 0.0 then 0.0 else verticalVelocity;
    var v' := v - gravity * dt;
    if jumpPressed && groundedState then v' + jumpImpulse else v'
  }

  // ---------------------------------------------------------------------------
  // Lateral integration

  /** Acceleration by state: walk values when Walking, sprint values when Sprinting, run values otherwise. */
  function LateralAcceleration(state: PlayerStateEnum, s: Settings): (a: real)
    ensures state == Walking ==> a == s.walkAcceleration
    ensures state == Sprinting ==> a == s.sprintAcceleration
    ensures state != Walking && state != Sprinting ==> a == s.runAcceleration
    ensures ValidSettings(s) ==> a >= 0.0
  {
    var isSprinting := state == Sprinting;
    var isWalking := state == Walking;
    if isWalking then s.walkAcceleration else if isSprinting then s.sprintAcceleration else s.runAcceleration
  }

  /** Speed cap by state, chosen by the same rule as the acceleration. */
  function LateralSpeed(state: PlayerStateEnum, s: Settings): (cap: real)
    ensures state == Walking ==> cap == s.walkSpeed
    ensures state == Sprinting ==> cap == s.sprintSpeed
    ensures state != Walking && state != Sprinting ==> cap == s.runSpeed
    ensures ValidSettings(s) ==> cap >= 0.0
  {
    var isSprinting := state == Sprinting;
    var isWalking := state == Walking;
    if isWalking then s.walkSpeed else if isSprinting then s.sprintSpeed else s.runSpeed
  }

  /** Camera-relative move direction from the (already flattened) camera basis. */
  function MoveDirection(movement: Vec2, cameraForward: Vec3, cameraRight: Vec3): (dir: Vec3)
    ensures movement == Zero2 ==> dir == Zero3
    ensures cameraForward.y == 0.0 && cameraRight.y == 0.0 ==> dir.y == 0.0
  {
    Add(Scale(cameraRight, movement.x), Scale(cameraForward, movement.y))
  }

  /** Body velocity plus this tick's acceleration along the move direction. */
  function Accelerated(velocity: Vec3, dir: Vec3, acceleration: real, dt: real): (r: Vec3)
    ensures Sub(r, velocity) == Scale(dir, acceleration * dt)
    ensures dir == Zero3 || acceleration == 0.0 || dt == 0.0 ==> r == velocity
  {
    ScaleScale(dir, acceleration, dt);
    AddSub(velocity, Scale(dir, acceleration * dt));
    NoStep(dir, acceleration, dt);
    Add(velocity, Scale(Scale(dir, acceleration), dt))
  }

  lemma NoStep(dir: Vec3, acceleration: real, dt: real)
    ensures dir == Zero3 || acceleration == 0.0 || dt == 0.0 ==> Scale(dir, acceleration * dt) == Zero3
  {
    if dir == Zero3 {
      ScaleZero3(acceleration * dt);
    } else if acceleration == 0.0 || dt == 0.0 {
      ScaleZero(dir);
    }
  }

  lemma AddSub(a: Vec3, b: Vec3)
    ensures Sub(Add(a, b), a) == b
  {
  }

  /** The factor by which drag scales a velocity of length `m`. */
  function DragFactor(m: real, dragStep: real): (k: real)
    requires m >= 0.0 && dragStep >= 0.0
    ensures 0.0 <= k <= 1.0
    ensures m <= dragStep ==> k == 0.0
    ensures m > dragStep && m <= KEpsilon ==> k == 1.0
  {
    if m > dragStep then
      if m > KEpsilon then
        DivBounds(m - dragStep, m);
        (m - dragStep) / m
      else 1.0
    else 0.0
  }

  /**
   * The length left after drag: nothing when the length is at most `dragStep`, the
   * length less `dragStep` above kEpsilon, and the length itself below it (where the
   * engine's normalized vector is zero).
   */
  function DraggedLength(m: real, dragStep: real): (len: real)
    requires m >= 0.0 && dragStep >= 0.0
    ensures 0.0 <= len <= m
    ensures len == 0.0 <==> m <= dragStep
  {
    if m <= dragStep then 0.0 else if m > KEpsilon then m - dragStep else m
  }

  /** The drag factor scales the length to the dragged length. */
  lemma DragFactorLength(m: real, dragStep: real)
    requires m >= 0.0 && dragStep >= 0.0
    ensures DragFactor(m, dragStep) * m == DraggedLength(m, dragStep)
  {
    if m > dragStep {
      if m > KEpsilon {
        DivMul(m - dragStep, m);
      } else {
        OneTimes(m);
      }
    } else {
      ZeroTimes(m);
    }
  }

  /**
   * Drag: subtract `dragStep` along the velocity's own direction, or stop outright when
   * the velocity (of length `m`) is no longer than `dragStep`.
   */
  function ApplyDrag(v: Vec3, m: real, dragStep: real): (r: Vec3)
    requires m >= 0.0 && dragStep >= 0.0
    ensures r == Scale(v, DragFactor(m, dragStep))
    ensures m <= dragStep ==> r == Zero3
  {
    var currentDrag := Scale(Normalized(v, m), dragStep);
    if m > dragStep then
      if m > KEpsilon then
        DragScales(v, m, dragStep);
        Sub(v, currentDrag)
      else
        ScaleZero3(dragStep);
        ScaleOne(v);
        Sub(v, currentDrag)
    else
      ScaleZero(v);
      Zero3
  }

  lemma ScaleZero3(k: real)
    ensures Scale(Zero3, k) == Zero3
  {
    ZeroTimes(k);
  }

  /** Above kEpsilon, subtracting `d` along the direction of `v` scales `v` by `(m - d) / m`. */
  lemma DragScales(v: Vec3, m: real, d: real)
    requires 0.0 <= d < m && m > KEpsilon
    ensures Sub(v, Scale(Normalized(v, m), d)) == Scale(v, (m - d) / m)
  {
    ScaleScale(v, 1.0 / m, d);
    DragAsScale(v.x, m, d);
    DragAsScale(v.y, m, d);
    DragAsScale(v.z, m, d);
  }

  lemma DragAsScale(c: real, m: real, d: real)
    requires m > 0.0
    ensures c - c * (1.0 / m * d) == c * ((m - d) / m)
  {
  }

  /** After drag, a vector of length `m` has the dragged length. */
  lemma DraggedMagnitude(v: Vec3, m: real, dragStep: real)
    requires IsMagnitudeOf(m, v) && dragStep >= 0.0
    ensures IsMagnitudeOf(DraggedLength(m, dragStep), ApplyDrag(v, m, dragStep))
  {
    DragFactorLength(m, dragStep);
    ScaledToLength(v, m, DragFactor(m, dragStep), DraggedLength(m, dragStep));
  }

  /**
   * Drag followed by the clamp to `speed`: the velocity is only rescaled along its own
   * direction, to the dragged length capped at `speed`, and a velocity no longer than
   * `dragStep` is stopped.
   */
  function DragAndClamp(v: Vec3, m: real, dragStep: real, speed: real): (w: Vec3)
    requires IsMagnitudeOf(m, v) && dragStep >= 0.0 && speed >= 0.0
    ensures w == Scale(Scale(v, DragFactor(m, dragStep)), ClampFactor(DraggedLength(m, dragStep), speed))
    ensures IsMagnitudeOf(ClampedLength(DraggedLength(m, dragStep), speed), w)
    ensures m <= dragStep ==> w == Zero3
  {
    var dragged := ApplyDrag(v, m, dragStep);
    DraggedMagnitude(v, m, dragStep);
    ClampMagnitudeBound(dragged, DraggedLength(m, dragStep), speed);
    ClampMagnitude(dragged, DraggedLength(m, dragStep), speed)
  }

  /**
   * The velocity requested from the body: drag, clamp to the speed cap, then the
   * vertical component replaced by the integrated vertical velocity. `newVelocity` is
   * the body velocity after this tick's acceleration and `magnitude` its length.
   */
  function NextLateralVelocity(newVelocity: Vec3, magnitude: real, dragStep: real, speed: real,
                               verticalVelocity: real): (r: Vec3)
    requires IsMagnitudeOf(magnitude, newVelocity)
    requires dragStep >= 0.0 && speed >= 0.0
    ensures r == DragAndClamp(newVelocity, magnitude, dragStep, speed).(y := verticalVelocity)
    ensures r.y == verticalVelocity
    ensures LateralSqrMagnitude(r) <= speed * speed
    ensures magnitude <= dragStep ==> r == Vec3(0.0, verticalVelocity, 0.0)
  {
    var clamped := DragAndClamp(newVelocity, magnitude, dragStep, speed);
    CappedWithVertical(clamped, ClampedLength(DraggedLength(magnitude, dragStep), speed), speed, verticalVelocity);
    clamped.(y := verticalVelocity)
  }

  /** A vector no longer than the cap stays within it horizontally whatever its vertical component becomes. */
  lemma CappedWithVertical(w: Vec3, len: real, speed: real, verticalVelocity: real)
    requires IsMagnitudeOf(len, w) && len <= speed
    ensures LateralSqrMagnitude(w.(y := verticalVelocity)) <= speed * speed
  {
    SquareMonotonic(len, speed);
  }

  /** The displacement requested in one tick stays within the cap times the frame time horizontally. */
  lemma DisplacementBound(newVelocity: Vec3, magnitude: real, dragStep: real, speed: real,
                          verticalVelocity: real, dt: real)
    requires IsMagnitudeOf(magnitude, newVelocity) && dragStep >= 0.0 && speed >= 0.0 && dt >= 0.0
    ensures LateralSqrMagnitude(Scale(NextLateralVelocity(newVelocity, magnitude, dragStep, speed, verticalVelocity), dt))
         <= (speed * dt) * (speed * dt)
  {
    var r := NextLateralVelocity(newVelocity, magnitude, dragStep, speed, verticalVelocity);
    ScaledLateralBound(r, dt, speed);
  }

  /** Scaling by the frame time turns a speed bound into a displacement bound. */
  lemma ScaledLateralBound(v: Vec3, dt: real, speed: real)
    requires LateralSqrMagnitude(v) <= speed * speed && dt >= 0.0
    ensures LateralSqrMagnitude(Scale(v, dt)) <= (speed * dt) * (speed * dt)
  {
    SquareScale(v.x, dt);
    SquareScale(v.z, dt);
    ScaledSquareBound(dt, LateralSqrMagnitude(v), speed);
  }

  lemma ScaledSquareBound(dt: real, l: real, s: real)
    requires dt >= 0.0 && l <= s * s
    ensures dt * dt * l <= (s * dt) * (s * dt)
  {
  }

  // ---------------------------------------------------------------------------
  // Camera and idle snap

  /** Yaw accumulates without bound; pitch is clamped to the vertical look limit. */
  function NextCameraRotation(cameraRotation: Vec2, look: Vec2, s: Settings): (r: Vec2)
    ensures r.x == cameraRotation.x + s.lookSensitivityH * look.x
    ensures s.lookLimitV >= 0.0 ==> -s.lookLimitV <= r.y <= s.lookLimitV
    ensures -s.lookLimitV <= cameraRotation.y - s.lookSensitivityV * look.y <= s.lookLimitV
            ==> r.y == cameraRotation.y - s.lookSensitivityV * look.y
  {
    Vec2(cameraRotation.x + s.lookSensitivityH * look.x,
         Clamp(cameraRotation.y - s.lookSensitivityV * look.y, -s.lookLimitV, s.lookLimitV))
  }

  /** The idle-snap countdown and the direction it turns in. */
  datatype SnapTimer = SnapTimer(timer: real, clockwise: bool)

  datatype IdleRotationOutcome = IdleRotationOutcome(next: SnapTimer, rotates: bool)

  /**
   * One idle-rotation step: a mismatch beyond the tolerance re-arms the timer and sets
   * the direction; the timer then runs down by `dt`; the character turns only when the
   * mismatch lies on the side the direction names.
   */
  function IdleRotation(mismatch: real, snap: SnapTimer, tolerance: real, rotateToTargetTime: real, dt: real)
    : (r: IdleRotationOutcome)
    ensures Abs(mismatch) > tolerance ==> r.next == SnapTimer(rotateToTargetTime - dt, mismatch > tolerance)
    ensures Abs(mismatch) <= tolerance ==> r.next == SnapTimer(snap.timer - dt, snap.clockwise)
    ensures r.rotates <==> (r.next.clockwise && mismatch > 0.0) || (!r.next.clockwise && mismatch < 0.0)
    ensures tolerance >= 0.0 && Abs(mismatch) > tolerance ==> r.rotates
  {
    var armed := if Abs(mismatch) > tolerance then SnapTimer(rotateToTargetTime, mismatch > tolerance) else snap;
    var next := armed.(timer := armed.timer - dt);
    IdleRotationOutcome(next, (next.clockwise && mismatch > 0.0) || (!next.clockwise && mismatch < 0.0))
  }

  datatype RotationTick = RotationTick(next: SnapTimer, rotates: bool, isRotatingToTarget: bool)

  /**
   * The rotation decision of a camera update: a non-idle character always turns toward
   * its target; an idle one runs the idle-rotation step only while the mismatch is beyond
   * the tolerance or a snap is in progress. `isRotatingToTarget` is the timer before
   * this tick's decrement.
   */
  function ReconcileRotation(isIdling: bool, mismatch: real, snap: SnapTimer, rotateToTargetTime: real, dt: real)
    : (r: RotationTick)
    ensures r.isRotatingToTarget <==> snap.timer > 0.0
    ensures !isIdling ==> r.rotates && r.next == snap
    ensures isIdling && Abs(mismatch) <= RotationTolerance && snap.timer <= 0.0 ==> !r.rotates && r.next == snap
    ensures isIdling && Abs(mismatch) > RotationTolerance
            ==> r.rotates && r.next == SnapTimer(rotateToTargetTime - dt, mismatch > RotationTolerance)
    ensures isIdling && Abs(mismatch) <= RotationTolerance && snap.timer > 0.0
            ==> r.next == SnapTimer(snap.timer - dt, snap.clockwise)
                && (r.rotates <==> (snap.clockwise && mismatch > 0.0) || (!snap.clockwise && mismatch < 0.0))
  {
    var isRotatingToTarget := snap.timer > 0.0;
    if !isIdling then
      RotationTick(snap, true, isRotatingToTarget)
    else if Abs(mismatch) > RotationTolerance || isRotatingToTarget then
      var idle := IdleRotation(mismatch, snap, RotationTolerance, rotateToTargetTime, dt);
      RotationTick(idle.next, idle.rotates, isRotatingToTarget)
    else
      RotationTick(snap, false, isRotatingToTarget)
  }

  // ---------------------------------------------------------------------------
  // The component

  class PlayerController {
    const settings: Settings
    /** The engine's square root of jumpSpeed * 3 * gravity, fixed with the settings. */
    const jumpImpulse: real
    const input: PlayerMovementInput
    const playerState: PlayerState

    var RotationMismatch: real
    var IsRotatingToTarget: bool
    /** x: yaw, y: pitch. */
    var cameraRotation: Vec2
    var playerTargetRotation: Vec2
    var verticalVelocity: real
    var rotatingToTargetTimer: real
    var isRotatingClockwise: bool
    /** How many times the character has been asked to turn toward its target. */
    var rotationRequests: nat

    ghost predicate Valid()
      reads this
    {
      && ValidSettings(settings)
      && jumpImpulse >= 0.0 && jumpImpulse * jumpImpulse == settings.jumpSpeed * 3.0 * settings.gravity
      && -settings.lookLimitV <= cameraRotation.y <= settings.lookLimitV
      && -180.0 <= RotationMismatch <= 180.0
    }

    /** Creation plus the component lookups of Awake. */
    constructor (settings: Settings, jumpImpulse: real, input: PlayerMovementInput, playerState: PlayerState)
      requires ValidSettings(settings)
      requires jumpImpulse >= 0.0 && jumpImpulse * jumpImpulse == settings.jumpSpeed * 3.0 * settings.gravity
      ensures Valid()
      ensures this.settings == settings && this.jumpImpulse == jumpImpulse
      ensures this.input == input && this.playerState == playerState
      ensures RotationMismatch == 0.0 && !IsRotatingToTarget
      ensures cameraRotation == Vec2(0.0, 0.0) && playerTargetRotation == Vec2(0.0, 0.0)
      ensures verticalVelocity == 0.0 && rotatingToTargetTimer == 0.0 && !isRotatingClockwise
      ensures rotationRequests == 0
    {
      this.settings := settings;
      this.jumpImpulse := jumpImpulse;
      this.input := input;
      this.playerState := playerState;
      RotationMismatch := 0.0;
      IsRotatingToTarget := false;
      cameraRotation := Vec2(0.0, 0.0);
      playerTargetRotation := Vec2(0.0, 0.0);
      verticalVelocity := 0.0;
      rotatingToTargetTimer := 0.0;
      isRotatingClockwise := false;
      rotationRequests := 0;
    }

    /** One tick of movement: classify, integrate vertically, integrate laterally. */
    method Update(isGrounded: bool, velocity: Vec3, walkToggleOn: bool, cameraForward: Vec3, cameraRight: Vec3,
                  dt: real, magnitude: real) returns (moveDelta: Vec3)
      requires Valid() && dt >= 0.0
      requires IsMagnitudeOf(magnitude,
        Accelerated(velocity, MoveDirection(input.MovementVector, cameraForward, cameraRight),
                    LateralAcceleration(MovementState(input.MovementVector, velocity, input.SprintToggleOn,
                                                      walkToggleOn, isGrounded), settings), dt))
      modifies this`verticalVelocity, playerState`CurrentPlayerState
      ensures Valid()
      ensures playerState.CurrentPlayerState
           == MovementState(input.MovementVector, velocity, input.SprintToggleOn, walkToggleOn, isGrounded)
      ensures verticalVelocity
           == NextVerticalVelocity(old(verticalVelocity), IsGrounded(playerState.CurrentPlayerState),
                                   input.JumpPressed, settings.gravity, dt, jumpImpulse)
      ensures moveDelta
           == Scale(NextLateralVelocity(
                        Accelerated(velocity, MoveDirection(input.MovementVector, cameraForward, cameraRight),
                                    LateralAcceleration(playerState.CurrentPlayerState, settings), dt),
                        magnitude, settings.drag * dt, LateralSpeed(playerState.CurrentPlayerState, settings),
                        verticalVelocity), dt)
    {
      UpdateMovementState(isGrounded, velocity, walkToggleOn);
      HandleVerticalMovement(dt);
      moveDelta := HandleLateralMovement(velocity, cameraForward, cameraRight, dt, magnitude);
    }

    method UpdateMovementState(isGrounded: bool, velocity: Vec3, walkToggleOn: bool)
      modifies playerState`CurrentPlayerState
      ensures playerState.CurrentPlayerState
           == MovementState(input.MovementVector, velocity, input.SprintToggleOn, walkToggleOn, isGrounded)
    {
      var canRun := CanRun(input.MovementVector);
      var isMovementPressed := IsNonZero2(input.MovementVector);
      var isMovingLaterally := IsMovingLaterally(velocity);
      var isWalking := (isMovingLaterally && !canRun) || walkToggleOn;
      var isSprinting := input.SprintToggleOn && isMovingLaterally;

      var lateralState := if isWalking then Walking
                          else if isSprinting then Sprinting
                          else if isMovingLaterally || isMovementPressed then Running
                          else Idling;
      playerState.SetCurrentPlayerState(lateralState);

      if !isGrounded && velocity.y > 0.0 {
        playerState.SetCurrentPlayerState(Jumping);
      } else if !isGrounded && velocity.y < 0.0 {
        playerState.SetCurrentPlayerState(Falling);
      }
    }

    method HandleVerticalMovement(dt: real)
      modifies this`verticalVelocity
      ensures verticalVelocity
           == NextVerticalVelocity(old(verticalVelocity), playerState.IsGroundedState(), input.JumpPressed,
                                   settings.gravity, dt, jumpImpulse)
    {
      var isGrounded := playerState.IsGroundedState();
      if isGrounded && verticalVelocity < 0.0 {
        verticalVelocity := 0.0;
      }
      verticalVelocity := verticalVelocity - settings.gravity * dt;

      if input.JumpPressed && isGrounded {
        verticalVelocity := verticalVelocity + jumpImpulse;
      }
    }

    /** Returns the position delta requested from the body (velocity times dt). */
    method HandleLateralMovement(velocity: Vec3, cameraForward: Vec3, cameraRight: Vec3, dt: real, magnitude: real)
      returns (moveDelta: Vec3)
      requires Valid() && dt >= 0.0
      requires IsMagnitudeOf(magnitude,
        Accelerated(velocity, MoveDirection(input.MovementVector, cameraForward, cameraRight),
                    LateralAcceleration(playerState.CurrentPlayerState, settings), dt))
      ensures moveDelta
           == Scale(NextLateralVelocity(
                        Accelerated(velocity, MoveDirection(input.MovementVector, cameraForward, cameraRight),
                                    LateralAcceleration(playerState.CurrentPlayerState, settings), dt),
                        magnitude, settings.drag * dt, LateralSpeed(playerState.CurrentPlayerState, settings),
                        verticalVelocity), dt)
    {
      var lateralAcceleration := LateralAcceleration(playerState.CurrentPlayerState, settings);
      var lateralSpeed := LateralSpeed(playerState.CurrentPlayerState, settings);
      var moveDir := MoveDirection(input.MovementVector, cameraForward, cameraRight);
      var newVelocity := Accelerated(velocity, moveDir, lateralAcceleration, dt);
      var dragStep := settings.drag * dt;
      var requested := NextLateralVelocity(newVelocity, magnitude, dragStep, lateralSpeed, verticalVelocity);
      moveDelta := Scale(requested, dt);
    }

    /** The end-of-tick camera step. */
    method LateUpdate(dt: real, eulerAnglesX: real, newMismatch: real)
      requires Valid() && -180.0 <= newMismatch <= 180.0
      modifies this`cameraRotation, this`playerTargetRotation, this`IsRotatingToTarget,
               this`rotatingToTargetTimer, this`isRotatingClockwise, this`rotationRequests, this`RotationMismatch
      ensures Valid()
      ensures cameraRotation == NextCameraRotation(old(cameraRotation), input.LookVector, settings)
      ensures playerTargetRotation
           == old(playerTargetRotation).(x := old(playerTargetRotation).x + eulerAnglesX
                                               + settings.lookSensitivityH * input.LookVector.x)
      ensures var tick := ReconcileRotation(playerState.CurrentPlayerState == Idling, old(RotationMismatch),
                                            SnapTimer(old(rotatingToTargetTimer), old(isRotatingClockwise)),
                                            settings.rotateToTargetTime, dt);
              && IsRotatingToTarget == tick.isRotatingToTarget
              && SnapTimer(rotatingToTargetTimer, isRotatingClockwise) == tick.next
              && rotationRequests == old(rotationRequests) + (if tick.rotates then 1 else 0)
      ensures RotationMismatch == newMismatch
    {
      UpdateCameraRotation(dt, eulerAnglesX, newMismatch);
    }

    /**
     * Camera yaw and pitch, the character's yaw target, the rotation decision, and the
     * recomputed mismatch (`newMismatch`, the signed angle the engine measures after the
     * camera has been turned).
     */
    method UpdateCameraRotation(dt: real, eulerAnglesX: real, newMismatch: real)
      requires Valid() && -180.0 <= newMismatch <= 180.0
      modifies this`cameraRotation, this`playerTargetRotation, this`IsRotatingToTarget,
               this`rotatingToTargetTimer, this`isRotatingClockwise, this`rotationRequests, this`RotationMismatch
      ensures Valid()
      ensures cameraRotation == NextCameraRotation(old(cameraRotation), input.LookVector, settings)
      ensures playerTargetRotation
           == old(playerTargetRotation).(x := old(playerTargetRotation).x + eulerAnglesX
                                               + settings.lookSensitivityH * input.LookVector.x)
      ensures var tick := ReconcileRotation(playerState.CurrentPlayerState == Idling, old(RotationMismatch),
                                            SnapTimer(old(rotatingToTargetTimer), old(isRotatingClockwise)),
                                            settings.rotateToTargetTime, dt);
              && IsRotatingToTarget == tick.isRotatingToTarget
              && SnapTimer(rotatingToTargetTimer, isRotatingClockwise) == tick.next
              && rotationRequests == old(rotationRequests) + (if tick.rotates then 1 else 0)
      ensures RotationMismatch == newMismatch
    {
      cameraRotation := cameraRotation.(x := cameraRotation.x + settings.lookSensitivityH * input.LookVector.x);
      cameraRotation := cameraRotation.(y := Clamp(cameraRotation.y - settings.lookSensitivityV * input.LookVector.y,
                                                   -settings.lookLimitV, settings.lookLimitV));

      playerTargetRotation := playerTargetRotation.(x := playerTargetRotation.x + eulerAnglesX
                                                         + settings.lookSensitivityH * input.LookVector.x);
      var isIdling := playerState.CurrentPlayerState == Idling;
      IsRotatingToTarget := rotatingToTargetTimer > 0.0;
      if !isIdling {
        RotatePlayerToTarget();
      } else if Abs(RotationMismatch) > RotationTolerance || IsRotatingToTarget {
        UpdateIdleRotation(RotationTolerance, dt);
      }

      RotationMismatch := newMismatch;
    }

    method UpdateIdleRotation(rotationTolerance: real, dt: real)
      modifies this`rotatingToTargetTimer, this`isRotatingClockwise, this`rotationRequests
      ensures var idle := IdleRotation(RotationMismatch, SnapTimer(old(rotatingToTargetTimer), old(isRotatingClockwise)),
                                       rotationTolerance, settings.rotateToTargetTime, dt);
              && SnapTimer(rotatingToTargetTimer, isRotatingClockwise) == idle.next
              && rotationRequests == old(rotationRequests) + (if idle.rotates then 1 else 0)
    {
      if Abs(RotationMismatch) > rotationTolerance {
        rotatingToTargetTimer := settings.rotateToTargetTime;
        isRotatingClockwise := RotationMismatch > rotationTolerance;
      }
      rotatingToTargetTimer := rotatingToTargetTimer - dt;

      if (isRotatingClockwise && RotationMismatch > 0.0) || (!isRotatingClockwise && RotationMismatch < 0.0) {
        RotatePlayerToTarget();
      }
    }

    /** Stands for the interpolation of the character's yaw toward `playerTargetRotation.x`. */
    method RotatePlayerToTarget()
      modifies this`rotationRequests
      ensures rotationRequests == old(rotationRequests) + 1
    {
      rotationRequests := rotationRequests + 1;
    }
  }

  /**
   * One frame in the engine's order: the controller's Update, then the input
   * sampler's LateUpdate (it runs earlier in the frame's late phase), then the
   * controller's LateUpdate.
   */
  method Frame(c: PlayerController, isGrounded: bool, velocity: Vec3, walkToggleOn: bool,
               cameraForward: Vec3, cameraRight: Vec3, dt: real, magnitude: real,
               eulerAnglesX: real, newMismatch: real) returns (moveDelta: Vec3)
    requires c.Valid() && dt >= 0.0 && -180.0 <= newMismatch <= 180.0
    requires IsMagnitudeOf(magnitude,
      Accelerated(velocity, MoveDirection(c.input.MovementVector, cameraForward, cameraRight),
                  LateralAcceleration(MovementState(c.input.MovementVector, velocity, c.input.SprintToggleOn,
                                                    walkToggleOn, isGrounded), c.settings), dt))
    modifies c, c.playerState, c.input
    ensures c.Valid()
    ensures c.playerState.CurrentPlayerState
         == MovementState(old(c.input.MovementVector), velocity, old(c.input.SprintToggleOn), walkToggleOn, isGrounded)
    ensures c.verticalVelocity
         == NextVerticalVelocity(old(c.verticalVelocity), IsGrounded(c.playerState.CurrentPlayerState),
                                 old(c.input.JumpPressed), c.settings.gravity, dt, c.jumpImpulse)
    ensures !c.input.JumpPressed
    ensures c.input.MovementVector == old(c.input.MovementVector) && c.input.LookVector == old(c.input.LookVector)
    ensures c.input.SprintToggleOn == old(c.input.SprintToggleOn)
    ensures c.cameraRotation == NextCameraRotation(old(c.cameraRotation), old(c.input.LookVector), c.settings)
    ensures c.playerTargetRotation
         == old(c.playerTargetRotation).(x := old(c.playerTargetRotation).x + eulerAnglesX
                                              + c.settings.lookSensitivityH * old(c.input.LookVector).x)
    ensures var tick := ReconcileRotation(c.playerState.CurrentPlayerState == Idling, old(c.RotationMismatch),
                                          SnapTimer(old(c.rotatingToTargetTimer), old(c.isRotatingClockwise)),
                                          c.settings.rotateToTargetTime, dt);
            && c.IsRotatingToTarget == tick.isRotatingToTarget
            && SnapTimer(c.rotatingToTargetTimer, c.isRotatingClockwise) == tick.next
            && c.rotationRequests == old(c.rotationRequests) + (if tick.rotates then 1 else 0)
    ensures c.RotationMismatch == newMismatch
    ensures moveDelta
         == Scale(NextLateralVelocity(
                      Accelerated(velocity, MoveDirection(old(c.input.MovementVector), cameraForward, cameraRight),
                                  LateralAcceleration(c.playerState.CurrentPlayerState, c.settings), dt),
                      magnitude, c.settings.drag * dt, LateralSpeed(c.playerState.CurrentPlayerState, c.settings),
                      c.verticalVelocity), dt)
  {
    moveDelta := c.Update(isGrounded, velocity, walkToggleOn, cameraForward, cameraRight, dt, magnitude);
    c.input.LateUpdate();
    c.LateUpdate(dt, eulerAnglesX, newMismatch);
  }
}

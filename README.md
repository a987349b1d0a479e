# Third-person locomotion core, modelled in Dafny

This project models the per-tick locomotion logic of a Unity third-person character
controller and proves properties of it. The model has three components:

- **PlayerController** classifies the movement state each tick: Walking, then
  Sprinting, then Running, then Idling, with Jumping/Falling overriding in the air.
  It integrates the vertical velocity: a grounded reset, then gravity, then the jump
  impulse. It integrates the lateral velocity: per-state acceleration, drag and a
  speed clamp. It turns the camera: yaw accumulates and pitch is clamped. While the
  character is idle, it runs the snap timer that turns the character toward the camera.
- **PlayerState** holds the seven-value movement-state enumeration and the
  grounded-state predicate over it.
- **PlayerMovementInput** latches input between ticks. Move and look vectors are
  overwritten by each callback. The sprint toggle works in hold mode or toggle mode.
  The jump flag is a pulse that is cleared at the end of every tick.

Files:

- `Vectors.dfy`: the parts of Unity's `Vector2`/`Vector3`/`Mathf` that the core uses,
  over exact reals. Square roots are never computed. Every magnitude is supplied by the
  caller and tied to the squared magnitude by `IsMagnitudeOf`.
- `PlayerState.dfy`: the enumeration, its numbering, the grounded predicate and the
  `PlayerState` component class.
- `PlayerMovementInput.dfy`: the input component as a class with one method per callback.
  It also has folds over runs of callbacks and lemmas about them.
- `PlayerController.dfy`: the pure per-tick functions, the `PlayerController` class and
  the `Frame` method. The class's methods change the component's fields and are proved
  against those functions. `Frame` runs one frame in the engine's order: the controller's
  `Update`, the input's `LateUpdate`, then the controller's `LateUpdate`.
- `LocomotionProperties.dfy`: properties over several ticks (falling, resting on the
  ground, the idle snap running out) and worked examples.

The engine supplies several values, which are parameters here:

- the body's grounded flag and velocity;
- the frame time;
- the flattened camera basis;
- the character's `transform.eulerAngles.x`;
- the length of the accelerated velocity;
- the rotation mismatch recomputed after the camera turns.

The jump impulse `Mathf.Sqrt(jumpSpeed * 3 * gravity)` is a constant of the controller.
It is the non-negative number whose square is `jumpSpeed * 3 * gravity`.

### Behaviour worth noting

- The Jumping/Falling override applies only when the body is airborne and its vertical
  velocity is strictly positive or strictly negative. An airborne body with vertical
  velocity exactly 0 keeps its lateral state, which is a grounded one.
  `Controller.MovementState` states this, and `LocomotionProperties.ApexJumpIsHonoured`
  shows that a jump press there is honoured.
- A grounded jump does not set the vertical velocity to the impulse. A negative velocity
  is reset to 0, then gravity * dt is subtracted, then the impulse is added, giving
  `max(v, 0) - gravity * dt + impulse` (`Controller.NextVerticalVelocity`).
- The character's yaw target advances by `transform.eulerAngles.x` plus the look delta
  (`Controller.PlayerController.UpdateCameraRotation`, parameter `eulerAnglesX`).
- The lateral speed stays within the cap, but the clamp acts on the whole 3D velocity,
  including the body's vertical component, before that component is overwritten. A body
  moving vertically is therefore slowed horizontally even when its horizontal speed is
  already within the cap (`LocomotionProperties.VerticalSpeedShrinksLateral`).

## Model

| member | source | states |
|---|---|---|
| Vectors.Abs | Assets/Scripts/PlayerController.cs:186 | `Mathf.Abs`: the result is non-negative and is the argument or its negation |
| Vectors.Clamp | Assets/Scripts/PlayerController.cs:141 | `Mathf.Clamp`: with min ≤ max the result lies in [min, max]; a value in range is returned unchanged; a value below min gives min and, with min ≤ max, a value above max gives max |
| Vectors.SqrMagnitude | Assets/Scripts/PlayerController.cs:113-116 | `sqrMagnitude`: the squared length is non-negative |
| Vectors.LateralSqrMagnitude | Assets/Scripts/PlayerController.cs:124-125 | the squared length of the horizontal part (x, 0, z) is non-negative and at most the full squared length |
| Vectors.MagnitudeUnique | Assets/Scripts/PlayerController.cs:113-116 | `magnitude` as `IsMagnitudeOf` pins it down: two non-negative numbers whose squares are the squared length are equal |
| Vectors.IsNonZero2 | Assets/Scripts/PlayerController.cs:57 | "movement pressed" (`!= Vector2.zero`): false for the zero vector, true whenever a component has size at least kEpsilon |
| Vectors.Normalized | Assets/Scripts/PlayerController.cs:113 | `normalized`: the vector divided by its length above kEpsilon, the zero vector otherwise |
| Vectors.NormalizedIsUnit | Assets/Scripts/PlayerController.cs:113 | above kEpsilon a normalized vector has length exactly one |
| Vectors.ClampFactor | Assets/Scripts/PlayerController.cs:116 | the clamp's scale factor lies in [0, 1], and is 1 when the vector is already within maxLength |
| Vectors.ClampedLength | Assets/Scripts/PlayerController.cs:116 | the length a clamp leaves is at most maxLength and at most the length, and is one of the two |
| Vectors.ClampFactorLength | Assets/Scripts/PlayerController.cs:116 | the clamp factor times the length is `ClampedLength`, i.e. min(length, maxLength) |
| Vectors.ClampMagnitude | Assets/Scripts/PlayerController.cs:116 | `Vector3.ClampMagnitude` scales the vector by `ClampFactor` |
| Vectors.ClampTestBySquares | Assets/Scripts/PlayerController.cs:116 | the engine's squared-length test and the length test agree, in both directions |
| Vectors.ClampMagnitudeBound | Assets/Scripts/PlayerController.cs:116 | the clamped vector's length is `ClampedLength`, so its squared length is at most maxLength² |
| PlayerStates.Ordinal | Assets/Scripts/PlayerState.cs:18-27 | every member has a value below 7 |
| PlayerStates.FromOrdinal | Assets/Scripts/PlayerState.cs:18-27 | each of 0..6 names the member with that value |
| PlayerStates.OrdinalBijection | Assets/Scripts/PlayerState.cs:18-27 | the numbering is a bijection: injective, and `FromOrdinal` inverts it |
| PlayerStates.IsGrounded | Assets/Scripts/PlayerState.cs:9-15 | grounded exactly for Idling, Walking, Running and Sprinting, i.e. values 0..3; not for Jumping, Falling or Strafing |
| PlayerStates.PlayerState.constructor | Assets/Scripts/PlayerState.cs:5 | the initial state is Idling |
| PlayerStates.PlayerState.SetCurrentPlayerState | Assets/Scripts/PlayerState.cs:7 | the state becomes exactly the argument; the frame allows no other change |
| PlayerStates.PlayerState.IsGroundedState | Assets/Scripts/PlayerState.cs:9-15 | false exactly when the current state is Jumping, Falling or Strafing |
| MovementInput.SprintToggleAfter | Assets/Scripts/PlayerMovementInput.cs:46-56 | hold mode: performed gives on and canceled gives off; toggle mode: performed flips and canceled keeps; any other phase keeps |
| MovementInput.JumpPressedAfter | Assets/Scripts/PlayerMovementInput.cs:58-63 | only a performed phase sets the flag; any other phase leaves it unchanged |
| MovementInput.PlayerMovementInput.constructor | Assets/Scripts/PlayerMovementInput.cs:11-15 | hold mode by default; sprint toggle and jump flag start false |
| MovementInput.PlayerMovementInput.Configured | Assets/Scripts/PlayerMovementInput.cs:11 | the serialized sprint mode is taken as given, flags start false |
| MovementInput.PlayerMovementInput.LateUpdate | Assets/Scripts/PlayerMovementInput.cs:31-34 | the jump flag is false afterwards, unconditionally; nothing else may change |
| MovementInput.PlayerMovementInput.OnMove | Assets/Scripts/PlayerMovementInput.cs:36-39 | the movement vector becomes the callback's value; nothing else may change |
| MovementInput.PlayerMovementInput.OnLook | Assets/Scripts/PlayerMovementInput.cs:41-44 | the look vector becomes the callback's value; nothing else may change |
| MovementInput.PlayerMovementInput.OnSprintToggle | Assets/Scripts/PlayerMovementInput.cs:46-56 | the toggle becomes `SprintToggleAfter` of its old value in the configured mode |
| MovementInput.PlayerMovementInput.OnJump | Assets/Scripts/PlayerMovementInput.cs:58-63 | the flag becomes `JumpPressedAfter` of its old value |
| MovementInput.CountPerformed | Assets/Scripts/PlayerMovementInput.cs:48 | the number of performed presses is at most the number of callbacks, and zero exactly when none was performed |
| MovementInput.SprintToggleAfterEventsAppend | Assets/Scripts/PlayerMovementInput.cs:46-56 | processing two runs of sprint callbacks equals processing their concatenation |
| MovementInput.NonDecisiveEventsKeepToggle | Assets/Scripts/PlayerMovementInput.cs:48-55 | callbacks that are neither performed nor canceled leave the toggle alone, in both modes |
| MovementInput.HoldModeLastDecisiveEventWins | Assets/Scripts/PlayerMovementInput.cs:48-55 | in hold mode the toggle is on exactly when the last press-or-release was a press |
| MovementInput.ToggleModeFlipsPerPress | Assets/Scripts/PlayerMovementInput.cs:48-55 | in toggle mode the toggle flips once per performed press, so it differs from the start exactly when the count of presses is odd |
| MovementInput.JumpPressedIffPerformed | Assets/Scripts/PlayerMovementInput.cs:58-63 | after a run of jump callbacks the flag is set if and only if it was set before or some callback was performed |
| MovementInput.LastValueWins | Assets/Scripts/PlayerMovementInput.cs:36-44 | after a run of move (or look) callbacks the vector is the last value, or unchanged when there were none |
| Controller.DefaultSettings | Assets/Scripts/PlayerController.cs:14-31 | the default settings are valid and order walk < run < sprint for speeds and accelerations |
| Controller.CanRun | Assets/Scripts/PlayerController.cs:184-187 | running is allowed exactly when input y ≥ input x and input y ≥ −input x, which forces y ≥ 0 |
| Controller.IsMovingLaterally | Assets/Scripts/PlayerController.cs:122-126 | moving laterally requires a non-zero horizontal velocity component |
| Controller.IsMovingLaterallyByMagnitude | Assets/Scripts/PlayerController.cs:122-126 | comparing squares is the same as comparing the horizontal speed with 0.01, in both directions |
| Controller.LateralState | Assets/Scripts/PlayerController.cs:56-65 | each of Walking, Sprinting, Running and Idling is chosen if and only if its priority-ordered condition holds |
| Controller.MovementState | Assets/Scripts/PlayerController.cs:63-75 | Jumping iff airborne and rising; Falling iff airborne and sinking; otherwise the lateral state stands; never Strafing; grounded state iff the body is grounded or its vertical velocity is 0 |
| Controller.NextVerticalVelocity | Assets/Scripts/PlayerController.cs:79-93 | airborne states: exactly −gravity·dt and no impulse; grounded and negative: −gravity·dt, plus the impulse when jumping; grounded and non-negative: −gravity·dt, plus the impulse only when jumping |
| Controller.LateralAcceleration | Assets/Scripts/PlayerController.cs:101-102 | walk value for Walking, sprint value for Sprinting, run value for every other state; non-negative for valid settings |
| Controller.LateralSpeed | Assets/Scripts/PlayerController.cs:103-104 | the speed cap by the same rule; non-negative for valid settings |
| Controller.MoveDirection | Assets/Scripts/PlayerController.cs:109 | zero input gives no direction; a flat camera basis gives a horizontal direction |
| Controller.Accelerated | Assets/Scripts/PlayerController.cs:110-111 | the velocity changes by exactly acceleration·dt along the move direction; no direction, no acceleration or no time leaves it unchanged |
| Controller.DragFactor | Assets/Scripts/PlayerController.cs:113-115 | the drag factor lies in [0, 1]; it is 0 when the length is at most drag·dt and 1 between drag·dt and kEpsilon |
| Controller.DraggedLength | Assets/Scripts/PlayerController.cs:113-115 | the length after drag lies in [0, length] and is 0 exactly when the length is at most drag·dt |
| Controller.DragFactorLength | Assets/Scripts/PlayerController.cs:113-115 | the drag factor times the length is `DraggedLength`: 0 when at most drag·dt, the length less drag·dt above kEpsilon, unchanged otherwise |
| Controller.ApplyDrag | Assets/Scripts/PlayerController.cs:113-115 | drag scales the velocity by `DragFactor` and yields the zero vector when its length is at most drag·dt |
| Controller.DraggedMagnitude | Assets/Scripts/PlayerController.cs:113-115 | a dragged vector has exactly the length `DraggedLength` |
| Controller.DragAndClamp | Assets/Scripts/PlayerController.cs:113-116 | drag then clamp only rescales the velocity along its own direction; the result's length is `DraggedLength` capped at the speed cap; a velocity no longer than drag·dt becomes zero |
| Controller.NextLateralVelocity | Assets/Scripts/PlayerController.cs:113-117 | the horizontal components are those of `DragAndClamp`; the vertical component equals `verticalVelocity`; the horizontal speed is within the cap; a velocity no longer than drag·dt is stopped horizontally |
| Controller.ScaledLateralBound | Assets/Scripts/PlayerController.cs:119 | scaling by dt turns a horizontal speed bound into a displacement bound of cap·dt |
| Controller.DisplacementBound | Assets/Scripts/PlayerController.cs:116-119 | the displacement requested per tick, `NextLateralVelocity`·dt, is at most cap·dt horizontally |
| Controller.NextCameraRotation | Assets/Scripts/PlayerController.cs:140-141 | yaw advances by exactly lookSensitivityH·look.x, without bound; pitch stays in [−lookLimitV, lookLimitV] and is exact when in range |
| Controller.IdleRotation | Assets/Scripts/PlayerController.cs:162-176 | a mismatch beyond the tolerance re-arms the timer to rotateToTargetTime − dt and sets the direction to mismatch > tolerance; otherwise the timer drops by dt and the direction is kept; the character turns iff the mismatch's sign agrees with the direction, always when freshly armed |
| Controller.ReconcileRotation | Assets/Scripts/PlayerController.cs:145-153 | `IsRotatingToTarget` is timer > 0 before the decrement; a non-idle state always turns and leaves the timer alone; idle, calm and not snapping: no turn and the timer is unchanged; idle beyond 90°: armed and turning; idle, calm and snapping: countdown, turning on the agreeing side |
| Controller.PlayerController.constructor | Assets/Scripts/PlayerController.cs:9-39 | all rotation and velocity fields start at zero or false, and the invariant holds |
| Controller.PlayerController.Update | Assets/Scripts/PlayerController.cs:47-52 | one tick: the new state is `MovementState`; the vertical velocity is `NextVerticalVelocity` for that state; the requested displacement is `NextLateralVelocity`·dt (within cap·dt by `DisplacementBound`) |
| Controller.PlayerController.UpdateMovementState | Assets/Scripts/PlayerController.cs:54-77 | the state component ends at `MovementState` of this tick's input and body |
| Controller.PlayerController.HandleVerticalMovement | Assets/Scripts/PlayerController.cs:79-93 | the vertical velocity becomes `NextVerticalVelocity` of its old value |
| Controller.PlayerController.HandleLateralMovement | Assets/Scripts/PlayerController.cs:95-120 | the displacement is `NextLateralVelocity` of the accelerated velocity, with the state's acceleration, cap and drag·dt, times dt |
| Controller.PlayerController.LateUpdate | Assets/Scripts/PlayerController.cs:133-136 | the end-of-tick camera update, with the same contract as `UpdateCameraRotation` |
| Controller.PlayerController.UpdateCameraRotation | Assets/Scripts/PlayerController.cs:138-160 | the camera rotation becomes `NextCameraRotation`; the yaw target advances by eulerAngles.x plus the look delta; the timer, direction, flag and turn count follow `ReconcileRotation`; the mismatch is replaced by the recomputed one; pitch stays within its limit |
| Controller.PlayerController.UpdateIdleRotation | Assets/Scripts/PlayerController.cs:162-176 | the timer, direction and turn count follow `IdleRotation` |
| Controller.PlayerController.RotatePlayerToTarget | Assets/Scripts/PlayerController.cs:178-182 | each call records exactly one turn toward the target |
| Controller.Frame | Assets/Scripts/PlayerController.cs:47-52 | one frame in engine order: the state, vertical velocity and displacement of `Update` from this frame's input; the jump flag is cleared by the end; move, look and sprint inputs are untouched; the camera, yaw target, snap timer, direction, turn count and `IsRotatingToTarget` follow `LateUpdate`, whose `ReconcileRotation` reads the state computed earlier in the same frame; the mismatch is the recomputed one |
| LocomotionProperties.AirborneTicksIgnoreJumps | Assets/Scripts/PlayerController.cs:81-91 | over n airborne ticks the vertical velocity drops by exactly n·gravity·dt, whatever jump presses occur |
| LocomotionProperties.GroundedRestIsStable | Assets/Scripts/PlayerController.cs:82-86 | on the ground without jumping, a negative vertical velocity stays at −gravity·dt for every following tick |
| LocomotionProperties.ApexJumpIsHonoured | Assets/Scripts/PlayerController.cs:68-91 | an airborne body at vertical velocity 0 keeps a grounded state, and a jump press there adds the impulse |
| LocomotionProperties.CalmIdleTicksCountDown | Assets/Scripts/PlayerController.cs:145-176 | while every mismatch is within 90°, idle ticks keep the direction and only count the timer down until it is no longer positive |
| LocomotionProperties.CountdownStops | Assets/Scripts/PlayerController.cs:169 | with dt > 0, n ticks with n·dt ≥ timer bring the countdown to at most 0 |
| LocomotionProperties.CountdownWhilePositive | Assets/Scripts/PlayerController.cs:169 | until the countdown stops it loses exactly dt per tick |
| LocomotionProperties.SnapEnds | Assets/Scripts/PlayerController.cs:145-176 | after an arming tick and enough calm ticks to cover rotateToTargetTime the snap has stopped: its direction is the one armed, and a further calm idle tick neither turns nor changes the timer |
| LocomotionProperties.ForwardInputRuns | Assets/Scripts/PlayerController.cs:56-65 | input (0, 1) with no toggles on the ground classifies as Running |
| LocomotionProperties.SinkingFalls | Assets/Scripts/PlayerController.cs:72-75 | airborne and sinking classifies as Falling whatever the input and toggles |
| LocomotionProperties.VerticalSpeedShrinksLateral | Assets/Scripts/PlayerController.cs:116 | a body at (3, −4, 0) with cap 4 and no drag is slowed to 2.4 horizontally |

## Left out

- Assets/Scripts/PlayerAnimation.cs is not part of this model. It sets animator parameters through foreign calls and smooths a blend vector, and nothing in it feeds back into the locomotion core.
- Rotation-mismatch geometry (PlayerController.cs:156-159): the normalization, cross product, `Vector3.Angle` and `Mathf.Sign` are not modelled. The recomputed mismatch is a parameter in [−180, 180].
- Camera-basis flattening (PlayerController.cs:106-107): the flattened, normalized camera forward and right vectors are parameters.
- Quaternions (PlayerController.cs:154, 180-181): the camera's `Quaternion.Euler` write is not modelled. The character's `Quaternion.Lerp` toward its target is recorded as a count of turn requests.
- Float arithmetic: everything is over exact reals, and no claim is made about IEEE rounding. For example, the code computes `normalized * drag * deltaTime`, while the model uses `normalized * (drag * deltaTime)`.
- Square roots: `Mathf.Sqrt` and `magnitude` are never computed. The caller supplies the length of the accelerated velocity, and the controller is created with the jump impulse, both tied to squared values.
- Engine plumbing: the `CharacterController` (`Move`, `isGrounded`, `velocity`), `Time.deltaTime`, the `Awake` component lookups and the input wiring in `OnEnable`/`OnDisable` (PlayerMovementInput.cs:17-29) are not modelled. The body's state and the frame time are parameters. The requested displacement is returned instead of applied. The collaborating components are constructor arguments.
- `PlayerInputActions` and `InputAction.CallbackContext` are not modelled: a callback receives its phase, or its `Vector2` value, directly.
- Tuning during play: the controller's settings (speeds, accelerations, drag, gravity, jump speed, look sensitivities and limits, rotateToTargetTime), the jump impulse derived from them and the input's `holdToSprint` are fixed when the components are created. In the code they are public or serialized fields read afresh every tick, and the impulse is recomputed on every jump (PlayerController.cs:14-31, 90; PlayerMovementInput.cs:11), so changing them in the inspector while playing is not modelled.
- `WalkToggleOn` is read at PlayerController.cs:59 but is not declared in PlayerMovementInput.cs. It is a boolean parameter of `Update`, `UpdateMovementState` and `Frame`.
- Scheduling: Unity's Update/LateUpdate ordering is fixed to one frame shape, `Controller.Frame`. Multi-tick properties are stated over the pure step functions.
- Controller.PlayerController.constructor: the settings must be non-negative and dt must be non-negative (`Valid`, `Update`). The inspector accepts any float, and negative caps, drag, gravity or frame times are not modelled.

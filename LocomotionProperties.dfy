/**
 * Properties of the locomotion core over several ticks, and worked situations that
 * pin down its edge cases.
 */
module LocomotionProperties {
  import opened Vectors
  import opened PlayerStates
  import opened Controller

  // ---------------------------------------------------------------------------
  // Vertical velocity over several ticks

  /** One tick's inputs to the vertical integration: the grounded state and the jump flag. */
  datatype VerticalInput = VerticalInput(groundedState: bool, jumpPressed: bool)

  /** Vertical velocity after a run of ticks. */
  function VerticalAfter(v: real, ticks: seq<VerticalInput>, gravity: real, dt: real, jumpImpulse: real): real
    decreases |ticks|
  {
    if ticks == [] then v
    else VerticalAfter(NextVerticalVelocity(v, ticks[0].groundedState, ticks[0].jumpPressed, gravity, dt, jumpImpulse),
                       ticks[1..], gravity, dt, jumpImpulse)
  }

  /**
   * In the air, every tick takes exactly gravity * dt off the vertical velocity, and
   * jump presses have no effect.
   */
  lemma {:induction false} AirborneTicksIgnoreJumps(v: real, ticks: seq<VerticalInput>, gravity: real, dt: real,
                                                     jumpImpulse: real)
    requires forall i :: 0 <= i < |ticks| ==> !ticks[i].groundedState
    ensures VerticalAfter(v, ticks, gravity, dt, jumpImpulse) == v - |ticks| as real * (gravity * dt)
    decreases |ticks|
  {
    if ticks != [] {
      AirborneTicksIgnoreJumps(v - gravity * dt, ticks[1..], gravity, dt, jumpImpulse);
    }
  }

  /**
   * On the ground without jumping, once the velocity is negative it stays pinned at
   * -gravity * dt: the downward velocity never builds up.
   */
  lemma {:induction false} GroundedRestIsStable(v: real, ticks: seq<VerticalInput>, gravity: real, dt: real,
                                                jumpImpulse: real)
    requires gravity * dt > 0.0 && v < 0.0
    requires forall i :: 0 <= i < |ticks| ==> ticks[i].groundedState && !ticks[i].jumpPressed
    ensures ticks != [] ==> VerticalAfter(v, ticks, gravity, dt, jumpImpulse) == -gravity * dt
    decreases |ticks|
  {
    if ticks != [] {
      GroundedRestIsStable(-gravity * dt, ticks[1..], gravity, dt, jumpImpulse);
    }
  }

  /**
   * An airborne body whose vertical velocity is exactly zero (the apex of a jump) keeps
   * its lateral state, which is a grounded one, so a jump press there is honoured.
   */
  lemma ApexJumpIsHonoured(movement: Vec2, velocity: Vec3, sprintToggleOn: bool, walkToggleOn: bool,
                           v: real, gravity: real, dt: real, jumpImpulse: real)
    requires velocity.y == 0.0 && v >= 0.0
    ensures var state := MovementState(movement, velocity, sprintToggleOn, walkToggleOn, false);
            NextVerticalVelocity(v, IsGrounded(state), true, gravity, dt, jumpImpulse)
            == v - gravity * dt + jumpImpulse
  {
  }

  // ---------------------------------------------------------------------------
  // The idle snap over several ticks

  /** The snap timer after a run of idle ticks, one recomputed mismatch per tick. */
  function IdleTicks(snap: SnapTimer, mismatches: seq<real>, rotateToTargetTime: real, dt: real): SnapTimer
    decreases |mismatches|
  {
    if mismatches == [] then snap
    else IdleTicks(ReconcileRotation(true, mismatches[0], snap, rotateToTargetTime, dt).next,
                   mismatches[1..], rotateToTargetTime, dt)
  }

  /** A countdown that runs down by `dt` per tick while positive and then stops. */
  function Countdown(timer: real, n: nat, dt: real): real
    decreases n
  {
    if n == 0 || timer <= 0.0 then timer else Countdown(timer - dt, n - 1, dt)
  }

  /** No mismatch beyond the tolerance. */
  predicate Calm(mismatches: seq<real>)
  {
    forall i :: 0 <= i < |mismatches| ==> Abs(mismatches[i]) <= RotationTolerance
  }

  /**
   * While the camera stays within the tolerance, an idle snap only counts down: the
   * direction is kept and the timer stops changing once it is no longer positive.
   */
  lemma {:induction false} CalmIdleTicksCountDown(snap: SnapTimer, mismatches: seq<real>,
                                                  rotateToTargetTime: real, dt: real)
    requires Calm(mismatches)
    ensures IdleTicks(snap, mismatches, rotateToTargetTime, dt)
         == SnapTimer(Countdown(snap.timer, |mismatches|, dt), snap.clockwise)
    decreases |mismatches|
  {
    if mismatches != [] {
      var next := ReconcileRotation(true, mismatches[0], snap, rotateToTargetTime, dt).next;
      assert Abs(mismatches[0]) <= RotationTolerance;
      assert Calm(mismatches[1..]) by {
        forall i | 0 <= i < |mismatches[1..]| ensures Abs(mismatches[1..][i]) <= RotationTolerance {
          assert mismatches[1..][i] == mismatches[i + 1];
        }
      }
      CalmIdleTicksCountDown(next, mismatches[1..], rotateToTargetTime, dt);
    }
  }

  /** With a positive frame time, a countdown of `n` ticks of at least `timer` has stopped. */
  lemma {:induction false} CountdownStops(timer: real, n: nat, dt: real)
    requires dt > 0.0 && n as real * dt >= timer
    ensures Countdown(timer, n, dt) <= 0.0
    decreases n
  {
    if n != 0 && timer > 0.0 {
      assert (n - 1) as real * dt == n as real * dt - dt;
      CountdownStops(timer - dt, n - 1, dt);
    }
  }

  /** Until it stops, the countdown loses exactly `dt` per tick. */
  lemma {:induction false} CountdownWhilePositive(timer: real, n: nat, dt: real)
    requires n > 0 && dt >= 0.0 && timer > (n - 1) as real * dt
    ensures Countdown(timer, n, dt) == timer - n as real * dt
    decreases n
  {
    if n > 1 {
      assert (n - 2) as real * dt == (n - 1) as real * dt - dt;
      CountdownWhilePositive(timer - dt, n - 1, dt);
    }
  }

  /**
   * A snap armed by a mismatch beyond the tolerance ends: after it, calm idle ticks
   * covering `rotateToTargetTime` leave the timer stopped, after which a calm idle tick
   * neither turns the character nor changes the timer.
   */
  lemma SnapEnds(arming: real, snap: SnapTimer, mismatches: seq<real>, rotateToTargetTime: real, dt: real,
                 m: real)
    requires Abs(arming) > RotationTolerance && Calm(mismatches) && Abs(m) <= RotationTolerance
    requires dt > 0.0 && (|mismatches| + 1) as real * dt >= rotateToTargetTime
    ensures var after := IdleTicks(snap, [arming] + mismatches, rotateToTargetTime, dt);
            && after.timer <= 0.0
            && after.clockwise == (arming > RotationTolerance)
            && ReconcileRotation(true, m, after, rotateToTargetTime, dt) == RotationTick(after, false, false)
  {
    var armed := ReconcileRotation(true, arming, snap, rotateToTargetTime, dt).next;
    assert armed == SnapTimer(rotateToTargetTime - dt, arming > RotationTolerance);
    assert ([arming] + mismatches)[1..] == mismatches;
    CalmIdleTicksCountDown(armed, mismatches, rotateToTargetTime, dt);
    assert |mismatches| as real * dt >= rotateToTargetTime - dt;
    CountdownStops(rotateToTargetTime - dt, |mismatches|, dt);
  }

  // ---------------------------------------------------------------------------
  // Worked situations

  /** Full forward input, no toggles, on the ground: Running, whether or not the body moves yet. */
  lemma ForwardInputRuns(velocity: Vec3)
    ensures MovementState(Vec2(0.0, 1.0), velocity, false, false, true) == Running
  {
    assert IsNonZero2(Vec2(0.0, 1.0));
  }

  /** Airborne and sinking: Falling, whatever the input and toggles say. */
  lemma SinkingFalls(movement: Vec2, sprintToggleOn: bool, walkToggleOn: bool)
    ensures MovementState(movement, Vec3(1.0, -2.0, 0.0), sprintToggleOn, walkToggleOn, false) == Falling
  {
  }

  /**
   * The clamp acts on the whole velocity, the body's vertical speed included: a body
   * moving at 3 horizontally and -4 vertically under a cap of 4 and no drag is slowed
   * to 2.4 horizontally, although its horizontal speed was already within the cap.
   */
  lemma VerticalSpeedShrinksLateral()
    ensures NextLateralVelocity(Vec3(3.0, -4.0, 0.0), 5.0, 0.0, 4.0, 0.0) == Vec3(2.4, 0.0, 0.0)
  {
    assert IsMagnitudeOf(5.0, Vec3(3.0, -4.0, 0.0));
    assert DraggedLength(5.0, 0.0) == 5.0;
    assert ClampFactor(5.0, 4.0) == 0.8;
  }
}

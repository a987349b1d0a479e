/**
 * The input sampler: callbacks of the input system overwrite or latch the movement
 * vector, look vector, sprint toggle and jump flag between ticks, and the flag for
 * jumping is cleared at the end of every tick.
 */
module MovementInput {
  import opened Vectors

  /** The phase an input action reports with each callback. */
  datatype InputActionPhase = Disabled | Waiting | Started | Performed | Canceled

  /**
   * The sprint toggle after one sprint callback. In hold mode it follows the button
   * (pressed: on, released: off); in toggle mode each press flips it and a release
   * leaves it alone. Any other phase leaves it alone in both modes.
   */
  function SprintToggleAfter(holdToSprint: bool, sprintToggleOn: bool, phase: InputActionPhase): (on: bool)
    ensures holdToSprint && phase == Performed ==> on
    ensures holdToSprint && phase == Canceled ==> !on
    ensures !holdToSprint && phase == Performed ==> on == !sprintToggleOn
    ensures !holdToSprint && phase == Canceled ==> on == sprintToggleOn
    ensures phase != Performed && phase != Canceled ==> on == sprintToggleOn
  {
    if phase == Performed then holdToSprint || !sprintToggleOn
    else if phase == Canceled then !holdToSprint && sprintToggleOn
    else sprintToggleOn
  }

  /** The jump flag after one jump callback: only a performed press latches it. */
  function JumpPressedAfter(jumpPressed: bool, phase: InputActionPhase): (pressed: bool)
    ensures phase == Performed ==> pressed
    ensures phase != Performed ==> pressed == jumpPressed
    ensures pressed ==> jumpPressed || phase == Performed
  {
    if phase != Performed then jumpPressed else true
  }

  class PlayerMovementInput {
    var MovementVector: Vec2
    var LookVector: Vec2
    /** A serialized setting, fixed once the component is created. */
    const holdToSprint: bool
    var SprintToggleOn: bool
    var JumpPressed: bool

    /** The component with its default settings. */
    constructor ()
      ensures holdToSprint
      ensures !SprintToggleOn && !JumpPressed
      ensures MovementVector == Zero2 && LookVector == Zero2
    {
      holdToSprint := true;
      MovementVector, LookVector := Zero2, Zero2;
      SprintToggleOn, JumpPressed := false, false;
    }

    /** The component with the sprint mode chosen in the editor. */
    constructor Configured(holdToSprint: bool)
      ensures this.holdToSprint == holdToSprint
      ensures !SprintToggleOn && !JumpPressed
      ensures MovementVector == Zero2 && LookVector == Zero2
    {
      this.holdToSprint := holdToSprint;
      MovementVector, LookVector := Zero2, Zero2;
      SprintToggleOn, JumpPressed := false, false;
    }

    /** End of tick: the jump pulse is cleared whether or not it was consumed. */
    method LateUpdate()
      modifies this`JumpPressed
      ensures !JumpPressed
    {
      JumpPressed := false;
    }

    method OnMove(value: Vec2)
      modifies this`MovementVector
      ensures MovementVector == value
    {
      MovementVector := value;
    }

    method OnLook(value: Vec2)
      modifies this`LookVector
      ensures LookVector == value
    {
      LookVector := value;
    }

    method OnSprintToggle(phase: InputActionPhase)
      modifies this`SprintToggleOn
      ensures SprintToggleOn == SprintToggleAfter(holdToSprint, old(SprintToggleOn), phase)
    {
      if phase == Performed {
        SprintToggleOn := holdToSprint || !SprintToggleOn;
      } else if phase == Canceled {
        SprintToggleOn := !holdToSprint && SprintToggleOn;
      }
    }

    method OnJump(phase: InputActionPhase)
      modifies this`JumpPressed
      ensures JumpPressed == JumpPressedAfter(old(JumpPressed), phase)
    {
      if phase != Performed {
        return;
      }
      JumpPressed := true;
    }
  }

  // ---------------------------------------------------------------------------
  // Several callbacks between two ticks

  /** The sprint toggle after a run of sprint callbacks, in arrival order. */
  function SprintToggleAfterEvents(holdToSprint: bool, sprintToggleOn: bool, phases: seq<InputActionPhase>): bool
    decreases |phases|
  {
    if phases == [] then sprintToggleOn
    else SprintToggleAfterEvents(holdToSprint, SprintToggleAfter(holdToSprint, sprintToggleOn, phases[0]), phases[1..])
  }

  /** A phase that changes the sprint toggle in at least one mode. */
  predicate IsDecisive(phase: InputActionPhase)
  {
    phase == Performed || phase == Canceled
  }

  function CountPerformed(phases: seq<InputActionPhase>): (n: nat)
    ensures n <= |phases|
    ensures n == 0 <==> forall i :: 0 <= i < |phases| ==> phases[i] != Performed
  {
    if phases == [] then 0
    else (if phases[0] == Performed then 1 else 0) + CountPerformed(phases[1..])
  }

  /** Processing two runs of callbacks is processing their concatenation. */
  lemma {:induction false} SprintToggleAfterEventsAppend(holdToSprint: bool, sprintToggleOn: bool,
                                                         a: seq<InputActionPhase>, b: seq<InputActionPhase>)
    ensures SprintToggleAfterEvents(holdToSprint, sprintToggleOn, a + b)
         == SprintToggleAfterEvents(holdToSprint, SprintToggleAfterEvents(holdToSprint, sprintToggleOn, a), b)
    decreases |a|
  {
    if a != [] {
      assert (a + b)[1..] == a[1..] + b;
      SprintToggleAfterEventsAppend(holdToSprint, SprintToggleAfter(holdToSprint, sprintToggleOn, a[0]), a[1..], b);
    } else {
      assert a + b == b;
    }
  }

  /** Callbacks that are neither performed nor canceled leave the toggle alone, in either mode. */
  lemma {:induction false} NonDecisiveEventsKeepToggle(holdToSprint: bool, sprintToggleOn: bool, phases: seq<InputActionPhase>)
    requires forall i :: 0 <= i < |phases| ==> !IsDecisive(phases[i])
    ensures SprintToggleAfterEvents(holdToSprint, sprintToggleOn, phases) == sprintToggleOn
    decreases |phases|
  {
    if phases != [] {
      NonDecisiveEventsKeepToggle(holdToSprint, sprintToggleOn, phases[1..]);
    }
  }

  /** Hold mode: the toggle is whatever the last press or release said. */
  lemma {:induction false} HoldModeLastDecisiveEventWins(sprintToggleOn: bool, earlier: seq<InputActionPhase>,
                                                         last: InputActionPhase, later: seq<InputActionPhase>)
    requires IsDecisive(last)
    requires forall i :: 0 <= i < |later| ==> !IsDecisive(later[i])
    ensures SprintToggleAfterEvents(true, sprintToggleOn, earlier + [last] + later) == (last == Performed)
  {
    var before := SprintToggleAfterEvents(true, sprintToggleOn, earlier);
    SprintToggleAfterEventsAppend(true, sprintToggleOn, earlier, [last]);
    SprintToggleAfterEventsAppend(true, sprintToggleOn, earlier + [last], later);
    assert SprintToggleAfterEvents(true, before, [last]) == SprintToggleAfter(true, before, last);
    NonDecisiveEventsKeepToggle(true, SprintToggleAfter(true, before, last), later);
  }

  /** Toggle mode: the toggle flips once per press; releases and other phases do nothing. */
  lemma {:induction false} ToggleModeFlipsPerPress(sprintToggleOn: bool, phases: seq<InputActionPhase>)
    ensures SprintToggleAfterEvents(false, sprintToggleOn, phases) == (sprintToggleOn != (CountPerformed(phases) % 2 == 1))
    decreases |phases|
  {
    if phases != [] {
      ToggleModeFlipsPerPress(SprintToggleAfter(false, sprintToggleOn, phases[0]), phases[1..]);
    }
  }

  /** The jump flag after a run of jump callbacks. */
  function JumpPressedAfterEvents(jumpPressed: bool, phases: seq<InputActionPhase>): bool
    decreases |phases|
  {
    if phases == [] then jumpPressed
    else JumpPressedAfterEvents(JumpPressedAfter(jumpPressed, phases[0]), phases[1..])
  }

  /**
   * The flag read by a tick is set exactly when it was already set or some callback
   * since the last clear was a performed press. Starting from the cleared flag, that
   * makes it a one-tick pulse per press.
   */
  lemma {:induction false} JumpPressedIffPerformed(jumpPressed: bool, phases: seq<InputActionPhase>)
    ensures JumpPressedAfterEvents(jumpPressed, phases)
        <==> jumpPressed || exists i :: 0 <= i < |phases| && phases[i] == Performed
    decreases |phases|
  {
    if phases != [] {
      JumpPressedIffPerformed(JumpPressedAfter(jumpPressed, phases[0]), phases[1..]);
      if exists i :: 0 <= i < |phases[1..]| && phases[1..][i] == Performed {
        var i :| 0 <= i < |phases[1..]| && phases[1..][i] == Performed;
        assert phases[i + 1] == Performed;
      }
      if exists i :: 0 <= i < |phases| && phases[i] == Performed {
        var i :| 0 <= i < |phases| && phases[i] == Performed;
        if i > 0 { assert phases[1..][i - 1] == Performed; }
      }
    }
  }

  /** A vector after a run of move (or look) callbacks: each one overwrites it. */
  function LatestVector(current: Vec2, values: seq<Vec2>): Vec2
    decreases |values|
  {
    if values == [] then current else LatestVector(values[0], values[1..])
  }

  /** The last callback wins; with no callback the vector is unchanged. */
  lemma {:induction false} LastValueWins(current: Vec2, values: seq<Vec2>)
    ensures values == [] ==> LatestVector(current, values) == current
    ensures values != [] ==> LatestVector(current, values) == values[|values| - 1]
    decreases |values|
  {
    if values != [] {
      LastValueWins(values[0], values[1..]);
    }
  }
}

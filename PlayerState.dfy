/**
 * The character's discrete movement state: a seven-value enumeration, the
 * "grounded" predicate over it, and the component that holds the current value.
 */
module PlayerStates {

  /** Declared in the order of the source enumeration, numbered 0 to 6. */
  datatype PlayerStateEnum =
    | Idling
    | Walking
    | Running
    | Sprinting
    | Jumping
    | Falling
    | Strafing

  /** The integer value the enumeration assigns to each member. */
  function Ordinal(s: PlayerStateEnum): (n: nat)
    ensures n < 7
  {
    match s
    case Idling => 0
    case Walking => 1
    case Running => 2
    case Sprinting => 3
    case Jumping => 4
    case Falling => 5
    case Strafing => 6
  }

  /** The member with a given integer value. */
  function FromOrdinal(n: nat): (s: PlayerStateEnum)
    requires n < 7
    ensures Ordinal(s) == n
  {
    if n == 0 then Idling
    else if n == 1 then Walking
    else if n == 2 then Running
    else if n == 3 then Sprinting
    else if n == 4 then Jumping
    else if n == 5 then Falling
    else Strafing
  }

  /** The numbering is a bijection between the seven members and 0..6. */
  lemma OrdinalBijection(s: PlayerStateEnum, t: PlayerStateEnum)
    ensures FromOrdinal(Ordinal(s)) == s
    ensures Ordinal(s) == Ordinal(t) ==> s == t
  {
  }

  /** The states in which the character stands on the ground. */
  function IsGrounded(s: PlayerStateEnum): (grounded: bool)
    ensures grounded <==> !(s == Jumping || s == Falling || s == Strafing)
    ensures grounded <==> Ordinal(s) <= 3
  {
    s == Idling || s == Walking || s == Running || s == Sprinting
  }

  /** The component holding the current state (a single mutable field). */
  class PlayerState {
    var CurrentPlayerState: PlayerStateEnum

    constructor ()
      ensures CurrentPlayerState == Idling
    {
      CurrentPlayerState := Idling;
    }

    method SetCurrentPlayerState(playerStateEnum: PlayerStateEnum)
      modifies this`CurrentPlayerState
      ensures CurrentPlayerState == playerStateEnum
    {
      CurrentPlayerState := playerStateEnum;
    }

    function IsGroundedState(): (grounded: bool)
      reads this
      ensures !grounded <==> CurrentPlayerState in {Jumping, Falling, Strafing}
    {
      IsGrounded(CurrentPlayerState)
    }
  }
}

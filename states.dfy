/**
  * Clash.Player.State and its subclasses (States.cs): the player's current
  * state is a variant, carrying its own flags, plus the frame counter every
  * state shares.
  */
module States {
  import Vecs
  import Directions

  /**
    * One constructor per subclass of State. Dash and Run keep the direction
    * they were built with (a readonly field); Pivot carries the direction it
    * turns to and WaveLand has no fields. The flags of JumpWait, Airborne and
    * AirDodge are public fields that Player rewrites in place, which here is
    * a new variant value in the player's state.
    */
  datatype Variant =
    | Idle
    | Walk
    | Dash(direction: Directions.Direction)
    | Run(direction: Directions.Direction)
    | Pivot(direction: Directions.Direction)
    | Skid
    | JumpWait(isShort: bool)
    | Airborne(isFalling: bool)
    | AirDodge(motion: Vecs.Vec, isOnGround: bool := true)
    | WaveLand

  /** A state object: the frame counter of the State base class and the subclass's own fields. */
  datatype State = State(frame: int, variant: Variant)
  {
    /** AdvanceFrame(): one more frame in the same state. */
    function Advance(): (r: State)
      ensures r.frame == frame + 1 && r.frame > frame
      ensures r.variant == variant
    {
      State(frame + 1, variant)
    }
  }

  /** `new Idle()`, `new Dash(d)`, ...: every state starts at Frame 0. */
  function New(variant: Variant): (r: State)
    ensures r.frame == 0 && r.variant == variant
  {
    State(0, variant)
  }

  /** n successive AdvanceFrame() calls. */
  function AdvanceTimes(s: State, n: nat): State
  {
    if n == 0 then s else AdvanceTimes(s, n - 1).Advance()
  }

  /** Frame counts the AdvanceFrame() calls since construction, and the variant is left alone. */
  lemma {:induction false} FrameCountsAdvances(v: Variant, n: nat)
    ensures AdvanceTimes(New(v), n).frame == n
    ensures AdvanceTimes(New(v), n).variant == v
  {
    if n > 0 {
      FrameCountsAdvances(v, n - 1);
    }
  }

  /** Advancing never lowers the frame: k more calls add exactly k. */
  lemma {:induction false} AdvanceMonotone(s: State, n: nat, k: nat)
    ensures AdvanceTimes(s, n + k).frame == AdvanceTimes(s, n).frame + k
    ensures AdvanceTimes(s, n + k).frame >= AdvanceTimes(s, n).frame
  {
    if k > 0 {
      AdvanceMonotone(s, n, k - 1);
      assert AdvanceTimes(s, n + k) == AdvanceTimes(s, n + k - 1).Advance();
    }
  }

  /** `new AirDodge(direction)` without the second argument is on the ground. */
  lemma AirDodgeDefaultsOnGround(motion: Vecs.Vec)
    ensures New(AirDodge(motion)).variant.isOnGround
    ensures New(AirDodge(motion)).frame == 0
  {
  }
}

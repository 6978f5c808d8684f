/** Clash.Input.Analog: one frame's classified stick reading. */
module Analogs {
  import opened Vecs
  import Directions

  /** StateA, in declaration order; Idle is the default. */
  datatype StateA = Idle | Switch | SwitchTap | Active | Unknown

  /** Immutable: every property is get-only and set by the constructor. */
  datatype Analog = Analog(state: StateA, direction: Directions.Direction, position: Vec, rawPosition: Vec)
  {
    predicate IsNeutral() {
      Directions.IsNeutral(direction)
    }

    predicate IsLeft() {
      Directions.IsLeft(direction)
    }

    predicate IsRight() {
      Directions.IsRight(direction)
    }

    /** A tap is a SwitchTap classification. */
    predicate DidTap() {
      state == SwitchTap
    }
  }

  /** `default(Analog)`: Idle (the first StateA), direction 0, both positions zero. */
  const Default := Analog(Idle, 0, Zero, Zero)

  /** The queries read only the stored direction and state. */
  lemma QueriesFollowFields(a: Analog)
    ensures a.DidTap() <==> a.state == SwitchTap
    ensures a.IsNeutral() <==> a.direction == Directions.Neutral
    ensures a.IsLeft() ==> !a.IsRight() && !a.IsNeutral()
    ensures a.IsLeft() || a.IsRight() ==> Directions.IsHorizontal(a.direction)
  {
  }

  /** The default stick is idle but not Neutral: its direction is the value 0. */
  lemma DefaultIsIdleNotNeutral()
    ensures Default.state == Idle && !Default.DidTap()
    ensures !Default.IsNeutral() && !Default.IsLeft() && !Default.IsRight()
    ensures Default.rawPosition == Zero
  {
  }
}

/** Clash.Input.Button: one frame's classified button reading. */
module Buttons {

  /** StateB, in declaration order; Inactive is the default. */
  datatype StateB = Inactive | Down | Active | Up

  datatype Button = Button(state: StateB)
  {
    /** Pressed on this frame. */
    predicate IsDown() {
      state == Down
    }

    /** Pressed on this frame or held from an earlier one. */
    predicate IsActive() {
      state == Down || state == Active
    }
  }

  /** `default(Button)`. */
  const Default := Button(Inactive)

  /** A press counts as active; a release and an idle button are neither. */
  lemma QueriesByState(b: Button)
    ensures b.IsDown() ==> b.IsActive()
    ensures b.IsActive() <==> b.state in {Down, Active}
    ensures b.state in {Up, Inactive} ==> !b.IsDown() && !b.IsActive()
    ensures Default.state == Inactive && !Default.IsActive()
  {
  }
}

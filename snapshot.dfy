/** Clash.Input.Snapshot: one fully classified input frame. */
module Snapshots {
  import Analogs
  import Buttons
  import Vecs

  /** Immutable: every property is get-only and set by the constructor. */
  datatype Snapshot = Snapshot(
    move: Analogs.Analog,
    jumpA: Buttons.Button,
    jumpB: Buttons.Button,
    shieldL: Buttons.Button,
    shieldR: Buttons.Button,
    time: real)

  /** `default(Snapshot)`: the zero value every unwritten buffer slot holds. */
  const Default := Snapshot(Analogs.Default, Buttons.Default, Buttons.Default, Buttons.Default, Buttons.Default, 0.0)

  /** The default snapshot has no button active, time 0 and an idle stick at the origin. */
  lemma DefaultIsAtRest()
    ensures Default.time == 0.0
    ensures !Default.jumpA.IsActive() && !Default.jumpB.IsActive()
    ensures !Default.shieldL.IsActive() && !Default.shieldR.IsActive()
    ensures Default.move.state == Analogs.Idle && Default.move.rawPosition == Vecs.Zero
  {
  }
}

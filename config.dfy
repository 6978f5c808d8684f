/** Clash.Player.Config: the player's tuning constants. */
module Config {
  import Vecs

  const Gravity: real := 1.0
  const Friction: real := 0.65

  // run / walk
  const Run: real := 6.0
  const Walk: real := 2.0
  const RunPivotFrames: int := 30

  // dash
  const DashFrames: int := 15
  const DashInitial: real := 1.5
  const DashBase: real := 0.2
  const DashScale: real := 0.5

  // jump
  const JumpWaitFrames: int := 8
  const Jump: real := 5.0
  const JumpShort: real := 3.0
  const FastFall: real := 6.0

  // airborne
  const Drift: real := 0.2
  const MaxAirSpeedX: real := 6.0

  // air dodge
  const AirDodgeFrames: int := 49
  const AirDodge: real := 5.0

  // size / hit detection
  const Size := Vecs.Vec(1.0, 2.0)
  const HurtboxSize := Vecs.Vec(1.0, 0.9)
}

/**
  * The transitions of Clash.Player.Player as functions on the player's
  * fields. The Player class (player.dfy) performs the same steps by updating
  * its fields in place, and each of its methods is proved to end in the
  * state these functions give; the properties of the state machine are
  * proved here, once, about the functions.
  */
module PlayerLogic {
  import opened Vecs
  import opened Mathf
  import D = Directions
  import Analogs
  import Snapshots
  import S = States
  import K = Config

  /** The private CommandState enum; Unknown is the default. */
  datatype CommandState = Unknown | Possible | Recognized | Failed

  /** The private WaveDashCommand struct. */
  datatype WaveDashCommand = WaveDashCommand(state: CommandState, didPressJump: bool, didPressShield: bool, waitFrames: int)

  /** `default(WaveDashCommand)`, which is also what ResetJumpStates leaves. */
  const NoCommand := WaveDashCommand(Unknown, false, false, 0)

  /**
    * What Player.cs reads from outside the files of this model: K.GravityOn,
    * K.GravityOff, K.AirDodgeDecay, the minimum air dodge length
    * `(int)Mathf.Ceil(K.AirDodge / K.AirDodgeDecay)` and `Vec.Normalize()`.
    */
  datatype Tuning = Tuning(gravityOn: real, gravityOff: real, airDodgeDecay: real, airDodgeMinFrames: int,
                           normalize: Vec -> Vec)

  /** Every field of a Player: the physics values, the current state and the jump command recognizers. */
  datatype Body = Body(
    velocity: Vec,
    force: Vec,
    gravity: real,
    isFacingLeft: bool,
    state: S.State,
    waveDashCmd: WaveDashCommand,
    fullJumpCmd: CommandState,
    shortJumpCmd: CommandState)

  /** `Mathf.Sign`, with the sign of zero taken as 0. */
  function Sign(x: real): (r: int)
    ensures r == -1 || r == 0 || r == 1
    ensures r == 0 <==> x == 0.0
    ensures r * r == 1 ==> (r == 1 <==> x > 0.0)
  {
    if x > 0.0 then 1 else if x < 0.0 then -1 else 0
  }

  // -- lifetime --

  /** `new Player(isOnGround)`: Idle on the ground, otherwise falling; facing right, at rest, gravity on. */
  function Initial(isOnGround: bool, k: Tuning): (r: Body)
    ensures r.state.frame == 0
    ensures isOnGround <==> r.state.variant == S.Idle
    ensures !isOnGround <==> r.state.variant == S.Airborne(true)
    ensures !r.isFacingLeft && r.velocity == Zero && r.force == Zero && r.gravity == k.gravityOn
    ensures r.waveDashCmd == NoCommand && r.fullJumpCmd == Unknown && r.shortJumpCmd == Unknown
  {
    var state := if isOnGround then S.New(S.Idle) else S.New(S.Airborne(isFalling := true));
    Body(Zero, Zero, k.gravityOn, false, state, NoCommand, Unknown, Unknown)
  }

  // -- events --

  /** OnPreUpdate(v): one more frame in the current state, the force cleared and the body's velocity synced. */
  function OnPreUpdate(b: Body, v: Vec): (r: Body)
    ensures r.state.frame == b.state.frame + 1 && r.state.variant == b.state.variant
    ensures r.force == Zero && r.velocity == v
    ensures r == b.(state := r.state, force := Zero, velocity := v)
  {
    b.(state := b.state.Advance(), force := Zero, velocity := Vec(v.x, v.y))
  }

  /** OnUpdate(inputs): the per-state handler for the current snapshot. */
  function OnUpdate(b: Body, input: Snapshots.Snapshot, k: Tuning): Body
  {
    match b.state.variant
    case Idle => OnIdle(b, input, k)
    case Walk => OnWalk(b, input, k)
    case Dash(_) => OnDash(b, input, k)
    case Run(_) => OnRun(b, input, k)
    case Pivot(_) => OnPivot(b, input, k)
    case Skid => OnSkid(b, input, k)
    case JumpWait(_) => OnJumpWait(b, input, k)
    case Airborne(_) => OnAirborne(b, input, k)
    case AirDodge(_, _) => OnAirDodge(b, k)
    case WaveLand => OnWaveLand(b, input)
  }

  /** OnPostSimulation(v): sync the body, then the late handler of Dash, Airborne or AirDodge. */
  function OnPostSimulation(b: Body, v: Vec, k: Tuning): Body
  {
    var synced := b.(force := Zero, velocity := Vec(v.x, v.y));
    match synced.state.variant
    case Dash(_) => OnDashLate(synced)
    case Airborne(_) => OnAirborneLate(synced)
    case AirDodge(_, _) => OnAirDodgeLate(synced, k)
    case _ => synced
  }

  /** OnCollide(): only Airborne and AirDodge react to touching the ground. */
  function OnCollide(b: Body, k: Tuning): Body
  {
    match b.state.variant
    case Airborne(_) => OnAirborneCollide(b)
    case AirDodge(_, _) => OnAirDodgeCollide(b, k)
    case _ => b
  }

  // -- events/neutral and move --

  function OnIdle(b: Body, input: Snapshots.Snapshot, k: Tuning): Body
  {
    var stick := input.move;
    var t := TryJumpInputs(b, input, k);
    if t.fired then t.body
    else if DidTap(stick, D.Horizontal) then Dash(t.body, stick.direction, stick.position.x)
    else if stick.position.x != 0.0 then Walk(t.body, stick.direction, stick.position.x)
    else t.body
  }

  function OnWalk(b: Body, input: Snapshots.Snapshot, k: Tuning): Body
  {
    var stick := input.move;
    var t := TryJumpInputs(b, input, k);
    if t.fired then t.body
    else if DidTap(stick, D.Horizontal) then Dash(t.body, stick.direction, stick.position.x)
    else if stick.position.x != 0.0 then Walk(t.body, stick.direction, stick.position.x)
    else Idle(t.body)
  }

  function OnDash(b: Body, input: Snapshots.Snapshot, k: Tuning): Body
    requires b.state.variant.Dash?
  {
    var stick := input.move;
    var dash := b.state;
    var t := TryJumpInputs(b, input, k);
    if t.fired then t.body
    else if DidTap(stick, D.Invert(dash.variant.direction)) then Dash(t.body, stick.direction, stick.position.x)
    else if dash.frame < K.DashFrames then Dash(t.body, dash.variant.direction, stick.position.x)
    else if stick.direction == dash.variant.direction then Run(t.body, dash.variant.direction)
    else Skid(t.body)
  }

  function OnDashLate(b: Body): Body
  {
    LimitGroundSpeed(b)
  }

  function OnRun(b: Body, input: Snapshots.Snapshot, k: Tuning): Body
    requires b.state.variant.Run?
  {
    var stick := input.move;
    var run := b.state;
    var t := TryJumpInputs(b, input, k);
    if t.fired then t.body
    else if stick.direction == run.variant.direction then Run(t.body, run.variant.direction)
    else if stick.direction == D.Invert(run.variant.direction) then Pivot(t.body, stick.direction)
    else Skid(t.body)
  }

  function OnPivot(b: Body, input: Snapshots.Snapshot, k: Tuning): Body
    requires b.state.variant.Pivot?
  {
    var stick := input.move;
    var pivot := b.state;
    var t := TryJumpInputs(b, input, k);
    if t.fired then t.body
    else if pivot.frame < K.RunPivotFrames then t.body
    else if stick.direction == pivot.variant.direction then Run(t.body, pivot.variant.direction)
    else Idle(t.body)
  }

  function OnSkid(b: Body, input: Snapshots.Snapshot, k: Tuning): Body
  {
    var stick := input.move;
    var t := TryJumpInputs(b, input, k);
    if t.fired then t.body
    else if DidTap(stick, D.Horizontal) then Dash(t.body, stick.direction, stick.position.x)
    else if stick.position.x != 0.0 then Walk(t.body, stick.direction, stick.position.x)
    else Idle(t.body)
  }

  // -- events/jump and air --

  function OnJumpWait(b: Body, input: Snapshots.Snapshot, k: Tuning): Body
    requires b.state.variant.JumpWait?
  {
    var latched :=
      if !b.state.variant.isShort && !input.jumpA.IsActive()
      then b.(state := b.state.(variant := S.JumpWait(isShort := true)))
      else b;
    if latched.state.frame >= K.JumpWaitFrames then Jump(latched)
    else if input.shieldL.IsDown() || input.shieldR.IsDown() then WaveDash(latched, k.normalize(input.move.position))
    else latched
  }

  function OnAirborne(b: Body, input: Snapshots.Snapshot, k: Tuning): Body
    requires b.state.variant.Airborne?
  {
    var stick := input.move;
    var drifted := Drift(b, stick.position.x);
    var fell := if drifted.velocity.y <= 0.0 then Fall(drifted) else drifted;
    var fast := if fell.state.variant.isFalling && DidTap(stick, D.Down) then FastFall(fell) else fell;
    if input.shieldL.IsDown() || input.shieldR.IsDown() then StartAirDodge(fast, k, k.normalize(stick.position))
    else fast
  }

  function OnAirborneCollide(b: Body): Body
    requires b.state.variant.Airborne?
  {
    if b.state.variant.isFalling then Land(b) else b
  }

  function OnAirborneLate(b: Body): Body
  {
    LimitAirSpeed(b)
  }

  function OnAirDodge(b: Body, k: Tuning): Body
    requires b.state.variant.AirDodge?
  {
    AirDodge(b, k)
  }

  /** Past the minimum length, an air dodge whose motion opposes the dodge on both axes ends in a fall. */
  function OnAirDodgeLate(b: Body, k: Tuning): Body
    requires b.state.variant.AirDodge?
  {
    if b.state.frame < k.airDodgeMinFrames then b
    else
      var direction := b.state.variant.motion;
      var isDirectionOpposed :=
        Sign(b.velocity.x) == -Sign(direction.x) && Sign(b.velocity.y) == -Sign(direction.y);
      if isDirectionOpposed then Fall(EndAirDodge(b, k).(velocity := Zero)) else b
  }

  function OnAirDodgeCollide(b: Body, k: Tuning): Body
  {
    WaveLand(EndAirDodge(b, k))
  }

  function OnWaveLand(b: Body, input: Snapshots.Snapshot): Body
  {
    if input.jumpA.IsDown() then FullJump(b)
    else if input.jumpB.IsDown() then ShortJump(b)
    else if b.velocity.x == 0.0 then Idle(b)
    else b
  }

  // -- events/inputs --

  /** ResetJumpStates(): every jump command back to Unknown. */
  function ResetJumpStates(b: Body): (r: Body)
    ensures r.waveDashCmd == NoCommand && r.fullJumpCmd == Unknown && r.shortJumpCmd == Unknown
    ensures r == b.(waveDashCmd := r.waveDashCmd, fullJumpCmd := Unknown, shortJumpCmd := Unknown)
  {
    b.(waveDashCmd := NoCommand, fullJumpCmd := Unknown, shortJumpCmd := Unknown)
  }

  /** The result of TryJumpInputs: the player after it and whether it reported a jump input. */
  datatype Attempt = Attempt(body: Body, fired: bool)

  /** The opening countdown of a Possible wavedash command. */
  function CountDown(b: Body): Body
  {
    var cmd := b.waveDashCmd;
    if cmd.state == Possible && cmd.waitFrames > 0 then b.(waveDashCmd := cmd.(waitFrames := cmd.waitFrames - 1))
    else b
  }

  /** The JumpA block: open a wavedash window, complete one opened by shield, or jump after a failed one. */
  function PressJumpA(b: Body, direction: Vec): Body
  {
    var cmd := b.waveDashCmd;
    var pressed := b.(fullJumpCmd := Recognized);
    if cmd.state == Unknown then pressed.(waveDashCmd := cmd.(state := Possible, didPressJump := true, waitFrames := 1))
    else if cmd.state == Possible && cmd.didPressShield then WaveDash(ResetJumpStates(pressed), direction)
    else if cmd.state == Failed then FullJump(ResetJumpStates(pressed))
    else pressed
  }

  /** The JumpB block: as JumpA, with ShortJumpCmd and a short jump. */
  function PressJumpB(b: Body, direction: Vec): Body
  {
    var cmd := b.waveDashCmd;
    var pressed := b.(shortJumpCmd := Recognized);
    if cmd.state == Unknown then pressed.(waveDashCmd := cmd.(state := Possible, didPressJump := true, waitFrames := 1))
    else if cmd.state == Possible && cmd.didPressShield then WaveDash(ResetJumpStates(pressed), direction)
    else if cmd.state == Failed then ShortJump(ResetJumpStates(pressed))
    else pressed
  }

  /** The shield block: open a wavedash window, or complete one opened by a jump button. */
  function PressShield(b: Body, direction: Vec): Body
  {
    var cmd := b.waveDashCmd;
    if cmd.state == Unknown then b.(waveDashCmd := cmd.(state := Possible, didPressShield := true, waitFrames := 1))
    else if cmd.state == Possible && cmd.didPressJump then WaveDash(ResetJumpStates(b), direction)
    else b
  }

  /**
    * The closing block: a window that ran out fails, and the jump waiting on
    * it fires. The short jump test compares ShortJumpCmd with Failed, a value
    * it is never given, so only a full jump fires here.
    */
  function Expire(b: Body): Attempt
  {
    var cmd := b.waveDashCmd;
    if cmd.state == Possible && cmd.waitFrames <= 0 then
      var failed := b.(waveDashCmd := cmd.(state := Failed));
      if failed.fullJumpCmd == Recognized then Attempt(FullJump(ResetJumpStates(failed)), true)
      else if failed.shortJumpCmd == Failed then Attempt(ShortJump(ResetJumpStates(failed)), true)
      else Attempt(failed, false)
    else Attempt(b, false)
  }

  /** TryJumpInputs(inputs): reads only the current snapshot (its buffered variant is commented out). */
  function TryJumpInputs(b: Body, input: Snapshots.Snapshot, k: Tuning): Attempt
  {
    var direction := k.normalize(input.move.position);
    var shield := input.shieldL.IsDown() || input.shieldR.IsDown();
    var counted := CountDown(b);
    var afterA := if input.jumpA.IsDown() then PressJumpA(counted, direction) else counted;
    var afterB := if input.jumpB.IsDown() then PressJumpB(afterA, direction) else afterA;
    var afterShield := if shield then PressShield(afterB, direction) else afterB;
    var expired := Expire(afterShield);
    Attempt(expired.body, expired.fired || input.jumpA.IsDown() || input.jumpB.IsDown() || shield)
  }

  /** DidTap(stick, direction): a tap whose direction shares a bit with `direction`. */
  predicate DidTap(stick: Analogs.Analog, direction: D.Direction) {
    stick.DidTap() && D.Intersects(stick.direction, direction)
  }

  // -- commands --

  function Idle(b: Body): Body
  {
    b.(state := S.New(S.Idle))
  }

  /** Walk(direction, xMove): keeps a running walk, sets the walking speed and faces the stick. */
  function Walk(b: Body, direction: D.Direction, xMove: real): Body
  {
    var state := if b.state.variant.Walk? then b.state else S.New(S.Walk);
    b.(state := state, velocity := Vec(xMove * K.Walk, 0.0), isFacingLeft := D.IsLeft(direction))
  }

  /** Dash(dir, xAxis): a new dash (or a turned one) starts fresh; every dash frame pushes along dir. */
  function Dash(b: Body, dir: D.Direction, xAxis: real): Body
  {
    var state := if b.state.variant.Dash? && b.state.variant.direction == dir then b.state else S.New(S.Dash(dir));
    var isFresh := state.frame == 0;
    var isAxisAligned := (xAxis < 0.0 && D.IsLeft(dir)) || (xAxis > 0.0 && D.IsRight(dir));
    var scale := if isAxisAligned then Abs(xAxis) else 0.0;
    var push := K.DashBase + K.DashScale * scale;
    b.(state := state,
       velocity := if isFresh then Vec(if D.IsLeft(dir) then -K.DashInitial else K.DashInitial, 0.0) else b.velocity,
       isFacingLeft := if isFresh then D.IsLeft(dir) else b.isFacingLeft,
       force := b.force.(x := b.force.x + if D.IsLeft(dir) then -push else push))
  }

  function LimitGroundSpeed(b: Body): Body
  {
    b.(velocity := Vec(Clamp(b.velocity.x, -K.Run, K.Run), b.velocity.y))
  }

  /** Run(direction): enters Run only from another state (a run keeps its own direction); full running speed. */
  function Run(b: Body, direction: D.Direction): Body
  {
    var state := if b.state.variant.Run? then b.state else S.New(S.Run(direction));
    b.(state := state, velocity := Vec(if D.IsLeft(direction) then -K.Run else K.Run, 0.0))
  }

  function Pivot(b: Body, direction: D.Direction): Body
  {
    b.(state := S.New(S.Pivot(direction)), isFacingLeft := D.IsLeft(direction))
  }

  function Skid(b: Body): Body
  {
    b.(state := S.New(S.Skid))
  }

  function FullJump(b: Body): Body
  {
    b.(state := S.New(S.JumpWait(isShort := false)))
  }

  function ShortJump(b: Body): Body
  {
    b.(state := S.New(S.JumpWait(isShort := true)))
  }

  /** StartAirDodge(direction): gravity off, momentum cancelled, the dodge's impulse applied. */
  function StartAirDodge(b: Body, k: Tuning, direction: Vec): Body
  {
    var airDodge := S.New(S.AirDodge(direction));
    b.(state := airDodge, gravity := k.gravityOff, velocity := Zero,
       force := Add(b.force, Scale(airDodge.variant.motion, K.AirDodge)))
  }

  /** AirDodge(): each frame the dodge decays by a push against its own direction. */
  function AirDodge(b: Body, k: Tuning): Body
    requires b.state.variant.AirDodge?
  {
    b.(force := Add(b.force, Scale(Reverse(b.state.variant.motion), k.airDodgeDecay)))
  }

  function EndAirDodge(b: Body, k: Tuning): Body
  {
    b.(gravity := k.gravityOn)
  }

  /** WaveDash(direction): the direction flattened onto the ground, momentum cancelled, then WaveLand. */
  function WaveDash(b: Body, direction: Vec): Body
  {
    var grounded := direction.(y := 0.0);
    WaveLand(b.(velocity := Zero, force := Add(b.force, Scale(grounded, K.AirDodge))))
  }

  function WaveLand(b: Body): Body
  {
    b.(state := S.New(S.WaveLand))
  }

  /** Jump(): take off from JumpWait with the short or full jump speed, keeping X. */
  function Jump(b: Body): Body
    requires b.state.variant.JumpWait?
  {
    var isShort := b.state.variant.isShort;
    b.(state := S.New(S.Airborne(isFalling := false)),
       velocity := Vec(b.velocity.x, if isShort then K.JumpShort else K.Jump))
  }

  function Drift(b: Body, xMov: real): Body
  {
    b.(force := b.force.(x := b.force.x + xMov * K.Drift))
  }

  /** Fall(): an Airborne state is marked falling in place; any other state is replaced by a falling one. */
  function Fall(b: Body): (r: Body)
    ensures r.state.variant == S.Airborne(true)
    ensures b.state.variant.Airborne? ==> r.state.frame == b.state.frame
    ensures !b.state.variant.Airborne? ==> r.state.frame == 0
    ensures r == b.(state := r.state)
  {
    var airborne := if b.state.variant.Airborne? then b.state else S.New(S.Airborne(isFalling := true));
    b.(state := airborne.(variant := S.Airborne(isFalling := true)))
  }

  function FastFall(b: Body): Body
  {
    b.(velocity := Vec(b.velocity.x, -K.FastFall))
  }

  function Land(b: Body): Body
  {
    Idle(b)
  }

  function LimitAirSpeed(b: Body): Body
  {
    b.(velocity := Vec(Clamp(b.velocity.x, -K.MaxAirSpeedX, K.MaxAirSpeedX), b.velocity.y))
  }
}

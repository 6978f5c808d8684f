/**
  * What the player's state machine promises, proved about the transition
  * functions of PlayerLogic.
  */
module PlayerProperties {
  import opened Vecs
  import opened Mathf
  import D = Directions
  import Buttons
  import Snapshots
  import S = States
  import K = Config
  import opened PlayerLogic

  /** No jump or shield button goes down on this frame. */
  predicate Quiet(input: Snapshots.Snapshot) {
    !input.jumpA.IsDown() && !input.jumpB.IsDown() && !input.shieldL.IsDown() && !input.shieldR.IsDown()
  }

  /** All three jump commands as ResetJumpStates leaves them. */
  predicate Cleared(b: Body) {
    b.waveDashCmd == NoCommand && b.fullJumpCmd == Unknown && b.shortJumpCmd == Unknown
  }

  // -- TryJumpInputs --

  /** Any jump or shield press makes TryJumpInputs report an input, so the caller's handler stops there. */
  lemma FiresOnEveryPress(b: Body, input: Snapshots.Snapshot, k: Tuning)
    requires !Quiet(input)
    ensures TryJumpInputs(b, input, k).fired
  {
  }

  /**
    * When TryJumpInputs reports nothing, only the wavedash command moved on:
    * the state, the physics and the two jump commands are as they were.
    */
  lemma UnfiredKeepsBody(b: Body, input: Snapshots.Snapshot, k: Tuning)
    ensures var t := TryJumpInputs(b, input, k);
      !t.fired ==> Quiet(input) && t.body == b.(waveDashCmd := t.body.waveDashCmd)
  {
  }

  /** `after` kept gravity, and either kept the state of `before` or holds a fresh JumpWait or WaveLand. */
  predicate JumpOrWaveLandStep(before: Body, after: Body) {
    && after.gravity == before.gravity
    && (after.state != before.state ==>
          after.state in {S.New(S.JumpWait(false)), S.New(S.JumpWait(true)), S.New(S.WaveLand)})
  }

  lemma {:induction false} JumpOrWaveLandSteps(a: Body, b: Body, c: Body)
    requires JumpOrWaveLandStep(a, b) && JumpOrWaveLandStep(b, c)
    ensures JumpOrWaveLandStep(a, c)
  {
  }

  lemma BlocksEnterOnlyJumpOrWaveLand(b: Body, direction: Vec)
    ensures JumpOrWaveLandStep(b, CountDown(b))
    ensures JumpOrWaveLandStep(b, PressJumpA(b, direction))
    ensures JumpOrWaveLandStep(b, PressJumpB(b, direction))
    ensures JumpOrWaveLandStep(b, PressShield(b, direction))
    ensures JumpOrWaveLandStep(b, Expire(b).body)
  {
  }

  /** TryJumpInputs never touches gravity, and the only states it enters are a fresh JumpWait or WaveLand. */
  lemma {:induction false} TryJumpEntersOnlyJumpOrWaveLand(b: Body, input: Snapshots.Snapshot, k: Tuning)
    ensures JumpOrWaveLandStep(b, TryJumpInputs(b, input, k).body)
  {
    var direction := k.normalize(input.move.position);
    var shield := input.shieldL.IsDown() || input.shieldR.IsDown();
    var counted := CountDown(b);
    var afterA := if input.jumpA.IsDown() then PressJumpA(counted, direction) else counted;
    var afterB := if input.jumpB.IsDown() then PressJumpB(afterA, direction) else afterA;
    var afterShield := if shield then PressShield(afterB, direction) else afterB;
    BlocksEnterOnlyJumpOrWaveLand(b, direction);
    BlocksEnterOnlyJumpOrWaveLand(counted, direction);
    JumpOrWaveLandSteps(b, counted, afterA);
    BlocksEnterOnlyJumpOrWaveLand(afterA, direction);
    JumpOrWaveLandSteps(b, afterA, afterB);
    BlocksEnterOnlyJumpOrWaveLand(afterB, direction);
    JumpOrWaveLandSteps(b, afterB, afterShield);
    BlocksEnterOnlyJumpOrWaveLand(afterShield, direction);
    JumpOrWaveLandSteps(b, afterShield, Expire(afterShield).body);
  }

  /** A lone JumpA press opens a one-frame wavedash window and leaves the player's state alone. */
  lemma JumpAOpensWindow(b: Body, input: Snapshots.Snapshot, k: Tuning)
    requires Cleared(b)
    requires input.jumpA.IsDown() && !input.jumpB.IsDown() && !input.shieldL.IsDown() && !input.shieldR.IsDown()
    ensures var t := TryJumpInputs(b, input, k);
      && t.fired
      && t.body == b.(waveDashCmd := WaveDashCommand(Possible, true, false, 1), fullJumpCmd := Recognized)
  {
  }

  /** On the next quiet frame the window runs out and the full jump fires: JumpWait comes one frame late. */
  lemma JumpAFiresAfterWait(b: Body, input: Snapshots.Snapshot, k: Tuning)
    requires b.waveDashCmd == WaveDashCommand(Possible, true, false, 1) && b.fullJumpCmd == Recognized
    requires Quiet(input)
    ensures var t := TryJumpInputs(b, input, k);
      && t.fired
      && t.body.state == S.New(S.JumpWait(isShort := false))
      && Cleared(t.body)
  {
  }

  /** A lone JumpB press opens the same window, recording the short jump. */
  lemma JumpBOpensWindow(b: Body, input: Snapshots.Snapshot, k: Tuning)
    requires Cleared(b)
    requires input.jumpB.IsDown() && !input.jumpA.IsDown() && !input.shieldL.IsDown() && !input.shieldR.IsDown()
    ensures var t := TryJumpInputs(b, input, k);
      && t.fired
      && t.body == b.(waveDashCmd := WaveDashCommand(Possible, true, false, 1), shortJumpCmd := Recognized)
  {
  }

  /**
    * When that window runs out nothing fires: the short jump waits on
    * ShortJumpCmd == Failed, which never holds. The command is left Failed
    * and the player where it was.
    */
  lemma JumpBNeverFiresOnExpiry(b: Body, input: Snapshots.Snapshot, k: Tuning)
    requires b.waveDashCmd == WaveDashCommand(Possible, true, false, 1)
    requires b.fullJumpCmd == Unknown && b.shortJumpCmd == Recognized
    requires Quiet(input)
    ensures var t := TryJumpInputs(b, input, k);
      && !t.fired
      && t.body == b.(waveDashCmd := WaveDashCommand(Failed, true, false, 0))
  {
  }

  /** A failed command with no full jump waiting stays failed on every quiet frame after. */
  lemma FailedStaysQuiet(b: Body, input: Snapshots.Snapshot, k: Tuning)
    requires b.waveDashCmd.state == Failed && b.fullJumpCmd != Recognized
    requires Quiet(input)
    ensures TryJumpInputs(b, input, k) == Attempt(b, false)
  {
  }

  /** ShortJumpCmd is only ever Unknown or Recognized: no block of TryJumpInputs makes it Failed. */
  lemma BlocksNeverFailShortJump(b: Body, direction: Vec)
    requires b.shortJumpCmd != Failed
    ensures CountDown(b).shortJumpCmd != Failed
    ensures PressJumpA(b, direction).shortJumpCmd != Failed
    ensures PressJumpB(b, direction).shortJumpCmd != Failed
    ensures PressShield(b, direction).shortJumpCmd != Failed
    ensures Expire(b).body.shortJumpCmd != Failed
  {
  }

  lemma {:induction false} ShortJumpNeverFailed(b: Body, input: Snapshots.Snapshot, k: Tuning)
    requires b.shortJumpCmd != Failed
    ensures TryJumpInputs(b, input, k).body.shortJumpCmd != Failed
  {
    var direction := k.normalize(input.move.position);
    var shield := input.shieldL.IsDown() || input.shieldR.IsDown();
    var counted := CountDown(b);
    BlocksNeverFailShortJump(b, direction);
    var afterA := if input.jumpA.IsDown() then PressJumpA(counted, direction) else counted;
    BlocksNeverFailShortJump(counted, direction);
    var afterB := if input.jumpB.IsDown() then PressJumpB(afterA, direction) else afterA;
    BlocksNeverFailShortJump(afterA, direction);
    var afterShield := if shield then PressShield(afterB, direction) else afterB;
    BlocksNeverFailShortJump(afterB, direction);
    BlocksNeverFailShortJump(afterShield, direction);
  }

  /** Jump and shield on the same frame wavedash: momentum cancelled, a grounded push, then WaveLand. */
  lemma ChordWaveDashes(b: Body, input: Snapshots.Snapshot, k: Tuning)
    requires Cleared(b)
    requires input.jumpA.IsDown() && !input.jumpB.IsDown() && (input.shieldL.IsDown() || input.shieldR.IsDown())
    ensures var t := TryJumpInputs(b, input, k);
      var direction := k.normalize(input.move.position);
      && t.fired
      && t.body.state == S.New(S.WaveLand)
      && t.body.velocity == Zero
      && t.body.force == Add(b.force, Vec(direction.x * K.AirDodge, 0.0))
      && Cleared(t.body)
  {
  }

  /** A shield press inside the window a jump opened wavedashes too. */
  lemma ShieldInsideWindowWaveDashes(b: Body, input: Snapshots.Snapshot, k: Tuning)
    requires b.waveDashCmd == WaveDashCommand(Possible, true, false, 1) && b.shortJumpCmd != Failed
    requires !input.jumpA.IsDown() && !input.jumpB.IsDown() && input.shieldL.IsDown()
    ensures var t := TryJumpInputs(b, input, k);
      && t.fired
      && t.body.state == S.New(S.WaveLand)
      && t.body.velocity == Zero
      && Cleared(t.body)
  {
  }

  // -- grounded handlers --

  /** Idle: after jump inputs, a horizontal tap dashes and a tilt walks, facing the stick. */
  lemma IdleRules(b: Body, input: Snapshots.Snapshot, k: Tuning)
    requires b.state.variant == S.Idle
    ensures var r := OnUpdate(b, input, k);
      var t := TryJumpInputs(b, input, k);
      var stick := input.move;
      && (t.fired ==> r == t.body)
      && (!t.fired && DidTap(stick, D.Horizontal) ==>
            r.state == S.New(S.Dash(stick.direction)) && r.isFacingLeft == D.IsLeft(stick.direction))
      && (!t.fired && !DidTap(stick, D.Horizontal) && stick.position.x != 0.0 ==>
            r.state == S.New(S.Walk) && r.velocity == Vec(stick.position.x * K.Walk, 0.0)
            && r.isFacingLeft == D.IsLeft(stick.direction))
      && (!t.fired && !DidTap(stick, D.Horizontal) && stick.position.x == 0.0 ==> r.state == b.state)
  {
    UnfiredKeepsBody(b, input, k);
  }

  /** A fresh dash starts at Frame 0 with the initial dash speed along its direction, facing it. */
  lemma DashStarts(b: Body, dir: D.Direction, xAxis: real)
    requires b.state.variant != S.Dash(dir)
    ensures var r := Dash(b, dir, xAxis);
      && r.state == S.New(S.Dash(dir))
      && r.velocity == Vec(if D.IsLeft(dir) then -K.DashInitial else K.DashInitial, 0.0)
      && r.isFacingLeft == D.IsLeft(dir)
  {
  }

  /** A dash already under way keeps its state, velocity and facing. */
  lemma DashContinues(b: Body, dir: D.Direction, xAxis: real)
    requires b.state.variant == S.Dash(dir) && b.state.frame != 0
    ensures var r := Dash(b, dir, xAxis);
      r.state == b.state && r.velocity == b.velocity && r.isFacingLeft == b.isFacingLeft
  {
  }

  /**
    * Every dash frame pushes along the dash by DashBase, plus DashScale times
    * the stick's |x| when the stick points along the dash.
    */
  lemma DashPush(b: Body, dir: D.Direction, xAxis: real)
    ensures var r := Dash(b, dir, xAxis);
      var push := if D.IsLeft(dir) then b.force.x - r.force.x else r.force.x - b.force.x;
      var along := (D.IsLeft(dir) && xAxis < 0.0) || (D.IsRight(dir) && xAxis > 0.0);
      && r.force.y == b.force.y
      && K.DashBase <= push <= K.DashBase + K.DashScale * Abs(xAxis)
      && (along ==> push == K.DashBase + K.DashScale * Abs(xAxis))
      && (!along ==> push == K.DashBase)
  {
  }

  /** Dash exits: tap back, keep dashing, then Run if still held that way, else Skid. */
  lemma DashRules(b: Body, input: Snapshots.Snapshot, k: Tuning)
    requires b.state.variant.Dash?
    ensures var r := OnUpdate(b, input, k);
      var t := TryJumpInputs(b, input, k);
      var stick := input.move;
      var dir := b.state.variant.direction;
      var tapBack := DidTap(stick, D.Invert(dir));
      && (t.fired ==> r == t.body)
      && (!t.fired && tapBack ==> r.state.variant == S.Dash(stick.direction))
      && (!t.fired && !tapBack && b.state.frame < K.DashFrames ==> r.state == b.state)
      && (!t.fired && !tapBack && b.state.frame >= K.DashFrames && stick.direction == dir ==>
            r.state == S.New(S.Run(dir)) && r.velocity == Vec(if D.IsLeft(dir) then -K.Run else K.Run, 0.0))
      && (!t.fired && !tapBack && b.state.frame >= K.DashFrames && stick.direction != dir ==>
            r.state == S.New(S.Skid))
  {
    UnfiredKeepsBody(b, input, k);
  }

  /** Run: holding keeps running at full speed, reversing pivots to face the new way, anything else skids. */
  lemma RunRules(b: Body, input: Snapshots.Snapshot, k: Tuning)
    requires b.state.variant.Run?
    ensures var r := OnUpdate(b, input, k);
      var t := TryJumpInputs(b, input, k);
      var stick := input.move;
      var dir := b.state.variant.direction;
      && (t.fired ==> r == t.body)
      && (!t.fired && stick.direction == dir ==>
            r.state == b.state && r.velocity == Vec(if D.IsLeft(dir) then -K.Run else K.Run, 0.0))
      && (!t.fired && stick.direction != dir && stick.direction == D.Invert(dir) ==>
            r.state == S.New(S.Pivot(stick.direction)) && r.isFacingLeft == D.IsLeft(stick.direction))
      && (!t.fired && stick.direction != dir && stick.direction != D.Invert(dir) ==>
            r.state == S.New(S.Skid))
  {
    UnfiredKeepsBody(b, input, k);
  }

  /** Walk: after jump inputs, a horizontal tap dashes, a tilt keeps walking and facing the stick, and release idles. */
  lemma WalkRules(b: Body, input: Snapshots.Snapshot, k: Tuning)
    requires b.state.variant == S.Walk
    ensures var r := OnUpdate(b, input, k);
      var t := TryJumpInputs(b, input, k);
      var stick := input.move;
      && (t.fired ==> r == t.body)
      && (!t.fired && DidTap(stick, D.Horizontal) ==>
            r.state == S.New(S.Dash(stick.direction)) && r.isFacingLeft == D.IsLeft(stick.direction))
      && (!t.fired && !DidTap(stick, D.Horizontal) && stick.position.x != 0.0 ==>
            r.state == b.state && r.velocity == Vec(stick.position.x * K.Walk, 0.0)
            && r.isFacingLeft == D.IsLeft(stick.direction))
      && (!t.fired && !DidTap(stick, D.Horizontal) && stick.position.x == 0.0 ==> r.state == S.New(S.Idle))
  {
    UnfiredKeepsBody(b, input, k);
  }

  /** Skid: the same exits as Walk, except that a tilt starts a fresh Walk. */
  lemma SkidRules(b: Body, input: Snapshots.Snapshot, k: Tuning)
    requires b.state.variant == S.Skid
    ensures var r := OnUpdate(b, input, k);
      var t := TryJumpInputs(b, input, k);
      var stick := input.move;
      && (t.fired ==> r == t.body)
      && (!t.fired && DidTap(stick, D.Horizontal) ==>
            r.state == S.New(S.Dash(stick.direction)) && r.isFacingLeft == D.IsLeft(stick.direction))
      && (!t.fired && !DidTap(stick, D.Horizontal) && stick.position.x != 0.0 ==>
            r.state == S.New(S.Walk) && r.velocity == Vec(stick.position.x * K.Walk, 0.0)
            && r.isFacingLeft == D.IsLeft(stick.direction))
      && (!t.fired && !DidTap(stick, D.Horizontal) && stick.position.x == 0.0 ==> r.state == S.New(S.Idle))
  {
    UnfiredKeepsBody(b, input, k);
  }

  /** Pivot: nothing happens for RunPivotFrames frames; then Run if the stick holds the pivot's way, else Idle. */
  lemma PivotRules(b: Body, input: Snapshots.Snapshot, k: Tuning)
    requires b.state.variant.Pivot?
    ensures var r := OnUpdate(b, input, k);
      var t := TryJumpInputs(b, input, k);
      var dir := b.state.variant.direction;
      && (t.fired || b.state.frame < K.RunPivotFrames ==> r == t.body)
      && (!t.fired && b.state.frame >= K.RunPivotFrames && input.move.direction == dir ==>
            r.state == S.New(S.Run(dir)))
      && (!t.fired && b.state.frame >= K.RunPivotFrames && input.move.direction != dir ==>
            r.state == S.New(S.Idle))
  {
    UnfiredKeepsBody(b, input, k);
  }

  // -- jump and air --

  /**
    * JumpWait: IsShort latches once JumpA is neither Down nor Active; at
    * JumpWaitFrames the player takes off with the short or full jump speed,
    * keeping X; before that a shield press wavedashes into WaveLand.
    */
  lemma JumpWaitRules(b: Body, input: Snapshots.Snapshot, k: Tuning)
    requires b.state.variant.JumpWait?
    ensures var r := OnUpdate(b, input, k);
      var isShort := b.state.variant.isShort || !input.jumpA.IsActive();
      var shield := input.shieldL.IsDown() || input.shieldR.IsDown();
      && (b.state.frame >= K.JumpWaitFrames ==>
            r.state == S.New(S.Airborne(false))
            && r.velocity == Vec(b.velocity.x, if isShort then K.JumpShort else K.Jump))
      && (b.state.frame < K.JumpWaitFrames && shield ==> r.state == S.New(S.WaveLand) && r.velocity == Zero)
      && (b.state.frame < K.JumpWaitFrames && !shield ==>
            r == b.(state := S.State(b.state.frame, S.JumpWait(isShort))))
  {
  }

  /** Airborne: moving down (or not at all) marks the state falling; a shield press starts an air dodge. */
  lemma AirborneRules(b: Body, input: Snapshots.Snapshot, k: Tuning)
    requires b.state.variant.Airborne?
    ensures var r := OnUpdate(b, input, k);
      var shield := input.shieldL.IsDown() || input.shieldR.IsDown();
      var direction := k.normalize(input.move.position);
      && (b.velocity.y <= 0.0 && !shield ==> r.state == S.State(b.state.frame, S.Airborne(true)))
      && (b.velocity.y > 0.0 && !shield ==> r.state == b.state)
      && (shield ==>
            && r.state == S.New(S.AirDodge(direction, true))
            && r.gravity == k.gravityOff
            && r.velocity == Zero
            && r.force == Add(Vec(b.force.x + input.move.position.x * K.Drift, b.force.y), Scale(direction, K.AirDodge)))
  {
  }

  /** AirDodge: every frame pushes against the dodge's own direction by AirDodgeDecay, and nothing else changes. */
  lemma AirDodgeDecays(b: Body, input: Snapshots.Snapshot, k: Tuning)
    requires b.state.variant.AirDodge?
    ensures OnUpdate(b, input, k) == b.(force := Add(b.force, Scale(Reverse(b.state.variant.motion), k.airDodgeDecay)))
    ensures OnUpdate(b, input, k).force ==
      Vec(b.force.x - b.state.variant.motion.x * k.airDodgeDecay, b.force.y - b.state.variant.motion.y * k.airDodgeDecay)
  {
  }

  /** A falling fighter that is not dodging fast-falls on a downward tap. */
  lemma FastFallOnDownTap(b: Body, input: Snapshots.Snapshot, k: Tuning)
    requires b.state.variant == S.Airborne(true)
    requires DidTap(input.move, D.Down) && !input.shieldL.IsDown() && !input.shieldR.IsDown()
    ensures OnUpdate(b, input, k).velocity == Vec(b.velocity.x, -K.FastFall)
  {
  }

  /** Touching the ground: a falling Airborne lands in Idle, a rising one ignores it, an air dodge wave-lands. */
  lemma CollideRules(b: Body, k: Tuning)
    ensures var r := OnCollide(b, k);
      && (b.state.variant == S.Airborne(true) ==> r == b.(state := S.New(S.Idle)))
      && (b.state.variant == S.Airborne(false) ==> r == b)
      && (b.state.variant.AirDodge? ==> r == b.(gravity := k.gravityOn, state := S.New(S.WaveLand)))
      && (!b.state.variant.Airborne? && !b.state.variant.AirDodge? ==> r == b)
  {
  }

  /** WaveLand: JumpA jumps, else JumpB short-jumps, else the player idles once stopped. */
  lemma WaveLandRules(b: Body, input: Snapshots.Snapshot, k: Tuning)
    requires b.state.variant == S.WaveLand
    ensures var r := OnUpdate(b, input, k);
      && (input.jumpA.IsDown() ==> r == b.(state := S.New(S.JumpWait(false))))
      && (!input.jumpA.IsDown() && input.jumpB.IsDown() ==> r == b.(state := S.New(S.JumpWait(true))))
      && (!input.jumpA.IsDown() && !input.jumpB.IsDown() && b.velocity.x == 0.0 ==> r == b.(state := S.New(S.Idle)))
      && (!input.jumpA.IsDown() && !input.jumpB.IsDown() && b.velocity.x != 0.0 ==> r == b)
  {
  }

  // -- post-simulation --

  /** The late handlers clamp X in Dash and Airborne and never touch Y. */
  lemma PostSimulationClamps(b: Body, v: Vec, k: Tuning)
    ensures var r := OnPostSimulation(b, v, k);
      && (b.state.variant.Dash? ==>
            r.velocity == Vec(Clamp(v.x, -K.Run, K.Run), v.y) && -K.Run <= r.velocity.x <= K.Run && r.state == b.state)
      && (b.state.variant.Airborne? ==>
            r.velocity == Vec(Clamp(v.x, -K.MaxAirSpeedX, K.MaxAirSpeedX), v.y)
            && -K.MaxAirSpeedX <= r.velocity.x <= K.MaxAirSpeedX && r.state == b.state)
      && (!b.state.variant.Dash? && !b.state.variant.Airborne? && !b.state.variant.AirDodge? ==>
            r == b.(force := Zero, velocity := v))
      && r.force == Zero
  {
  }

  /**
    * An air dodge shorter than the minimum goes on; a longer one whose
    * velocity opposes its direction on both axes ends in a fresh fall with
    * gravity back on.
    */
  lemma AirDodgeEnds(b: Body, v: Vec, k: Tuning)
    requires b.state.variant.AirDodge?
    ensures var r := OnPostSimulation(b, v, k);
      var direction := b.state.variant.motion;
      var opposed := Sign(v.x) == -Sign(direction.x) && Sign(v.y) == -Sign(direction.y);
      && (b.state.frame < k.airDodgeMinFrames || !opposed ==> r == b.(force := Zero, velocity := v))
      && (b.state.frame >= k.airDodgeMinFrames && opposed ==>
            r == b.(force := Zero, velocity := Zero, gravity := k.gravityOn, state := S.New(S.Airborne(true))))
  {
  }

  // -- the gravity invariant --

  /** Gravity is off exactly while air dodging. */
  predicate GravityMatchesState(b: Body, k: Tuning) {
    b.gravity == (if b.state.variant.AirDodge? then k.gravityOff else k.gravityOn)
  }

  lemma InitialGravity(isOnGround: bool, k: Tuning)
    ensures GravityMatchesState(Initial(isOnGround, k), k)
  {
  }

  /** Every event keeps gravity off exactly during an air dodge. */
  lemma PreUpdateKeepsGravity(b: Body, v: Vec, k: Tuning)
    requires GravityMatchesState(b, k)
    ensures GravityMatchesState(OnPreUpdate(b, v), k)
  {
  }

  lemma {:induction false} UpdateKeepsGravity(b: Body, input: Snapshots.Snapshot, k: Tuning)
    requires GravityMatchesState(b, k)
    ensures GravityMatchesState(OnUpdate(b, input, k), k)
  {
    match b.state.variant
    case Idle => IdleKeepsGravity(b, input, k);
    case Walk => WalkKeepsGravity(b, input, k);
    case Dash(_) => DashKeepsGravity(b, input, k);
    case Run(_) => RunKeepsGravity(b, input, k);
    case Pivot(_) => PivotKeepsGravity(b, input, k);
    case Skid => SkidKeepsGravity(b, input, k);
    case JumpWait(_) =>
    case Airborne(_) =>
    case AirDodge(_, _) =>
    case WaveLand =>
  }

  lemma {:induction false} IdleKeepsGravity(b: Body, input: Snapshots.Snapshot, k: Tuning)
    requires GravityMatchesState(b, k) && !b.state.variant.AirDodge?
    ensures GravityMatchesState(OnIdle(b, input, k), k)
  {
    TryJumpEntersOnlyJumpOrWaveLand(b, input, k);
  }

  lemma {:induction false} WalkKeepsGravity(b: Body, input: Snapshots.Snapshot, k: Tuning)
    requires GravityMatchesState(b, k) && !b.state.variant.AirDodge?
    ensures GravityMatchesState(OnWalk(b, input, k), k)
  {
    TryJumpEntersOnlyJumpOrWaveLand(b, input, k);
  }

  lemma {:induction false} DashKeepsGravity(b: Body, input: Snapshots.Snapshot, k: Tuning)
    requires GravityMatchesState(b, k) && b.state.variant.Dash?
    ensures GravityMatchesState(OnDash(b, input, k), k)
  {
    TryJumpEntersOnlyJumpOrWaveLand(b, input, k);
  }

  lemma {:induction false} RunKeepsGravity(b: Body, input: Snapshots.Snapshot, k: Tuning)
    requires GravityMatchesState(b, k) && b.state.variant.Run?
    ensures GravityMatchesState(OnRun(b, input, k), k)
  {
    TryJumpEntersOnlyJumpOrWaveLand(b, input, k);
  }

  lemma {:induction false} PivotKeepsGravity(b: Body, input: Snapshots.Snapshot, k: Tuning)
    requires GravityMatchesState(b, k) && b.state.variant.Pivot?
    ensures GravityMatchesState(OnPivot(b, input, k), k)
  {
    TryJumpEntersOnlyJumpOrWaveLand(b, input, k);
  }

  lemma {:induction false} SkidKeepsGravity(b: Body, input: Snapshots.Snapshot, k: Tuning)
    requires GravityMatchesState(b, k) && !b.state.variant.AirDodge?
    ensures GravityMatchesState(OnSkid(b, input, k), k)
  {
    TryJumpEntersOnlyJumpOrWaveLand(b, input, k);
  }

  lemma PostSimulationKeepsGravity(b: Body, v: Vec, k: Tuning)
    requires GravityMatchesState(b, k)
    ensures GravityMatchesState(OnPostSimulation(b, v, k), k)
  {
  }

  lemma CollideKeepsGravity(b: Body, k: Tuning)
    requires GravityMatchesState(b, k)
    ensures GravityMatchesState(OnCollide(b, k), k)
  {
  }

  // -- where the tests expect otherwise --

  /** A jump press on an idle fighter does not enter JumpWait on that frame: the state is still Idle. */
  lemma JumpPressStaysIdle(b: Body, input: Snapshots.Snapshot, k: Tuning)
    requires b.state.variant == S.Idle && Cleared(b)
    requires input.jumpA.IsDown() && !input.jumpB.IsDown() && !input.shieldL.IsDown() && !input.shieldR.IsDown()
    ensures OnUpdate(b, input, k).state == b.state
  {
    JumpAOpensWindow(b, input, k);
  }

  /** A shield press during JumpWait ends in WaveLand, not in an air dodge. */
  lemma ShieldInJumpWaitWaveLands(b: Body, input: Snapshots.Snapshot, k: Tuning)
    requires b.state.variant.JumpWait? && b.state.frame < K.JumpWaitFrames
    requires input.shieldL.IsDown()
    ensures OnUpdate(b, input, k).state == S.New(S.WaveLand)
    ensures !OnUpdate(b, input, k).state.variant.AirDodge?
  {
  }

  /** An air dodge started in the air is built with IsOnGround left at its default, true. */
  lemma AirDodgeStartsOnGround(b: Body, input: Snapshots.Snapshot, k: Tuning)
    requires b.state.variant.Airborne? && input.shieldL.IsDown()
    ensures OnUpdate(b, input, k).state.variant.AirDodge?
    ensures OnUpdate(b, input, k).state.variant.isOnGround
  {
  }
}

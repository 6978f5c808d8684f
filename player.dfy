/**
  * Clash.Player.Player: the fighter's state machine. Each handler updates the
  * player's fields in place, step by step; its postcondition ties the new
  * fields to the transition function of PlayerLogic, whose properties are
  * proved in PlayerProperties.
  */
module Players {
  import opened Vecs
  import opened Mathf
  import D = Directions
  import Analogs
  import Snapshots
  import S = States
  import K = Config
  import L = PlayerLogic

  class Player {
    /** The values Player.cs reads from outside the files of this model. */
    const k: L.Tuning

    // physics
    var velocity: Vec
    var force: Vec
    var gravity: real

    // state machine
    var state: S.State
    var isFacingLeft: bool

    // jump command recognizers
    var waveDashCmd: L.WaveDashCommand
    var fullJumpCmd: L.CommandState
    var shortJumpCmd: L.CommandState

    /** All fields as one value. */
    function AsBody(): L.Body
      reads this
    {
      L.Body(velocity, force, gravity, isFacingLeft, state, waveDashCmd, fullJumpCmd, shortJumpCmd)
    }

    // -- lifetime --

    constructor (isOnGround: bool, k: L.Tuning)
      ensures this.k == k
      ensures AsBody() == L.Initial(isOnGround, k)
    {
      this.k := k;
      velocity := Zero;
      force := Zero;
      gravity := k.gravityOn;
      isFacingLeft := false;
      waveDashCmd := L.NoCommand;
      fullJumpCmd := L.Unknown;
      shortJumpCmd := L.Unknown;
      if isOnGround {
        state := S.New(S.Idle);
      } else {
        state := S.New(S.Airborne(isFalling := true));
      }
    }

    // -- events --

    method OnPreUpdate(v: Vec)
      modifies this
      ensures AsBody() == L.OnPreUpdate(old(AsBody()), v)
    {
      state := state.Advance();

      // sync body data
      force := Zero;
      velocity := Vec(v.x, v.y);
    }

    method OnUpdate(input: Snapshots.Snapshot)
      modifies this
      ensures AsBody() == L.OnUpdate(old(AsBody()), input, k)
    {
      match state.variant
      case Idle => OnIdle(input);
      case Walk => OnWalk(input);
      case Dash(_) => OnDash(input);
      case Run(_) => OnRun(input);
      case Pivot(_) => OnPivot(input);
      case Skid => OnSkid(input);
      case JumpWait(_) => OnJumpWait(input);
      case Airborne(_) => OnAirborne(input);
      case AirDodge(_, _) => OnAirDodge();
      case WaveLand => OnWaveLand(input);
    }

    method OnPostSimulation(v: Vec)
      modifies this
      ensures AsBody() == L.OnPostSimulation(old(AsBody()), v, k)
    {
      // sync body data
      force := Zero;
      velocity := Vec(v.x, v.y);

      match state.variant
      case Dash(_) => OnDashLate();
      case Airborne(_) => OnAirborneLate();
      case AirDodge(_, _) => OnAirDodgeLate();
      case _ =>
    }

    method OnCollide()
      modifies this
      ensures AsBody() == L.OnCollide(old(AsBody()), k)
    {
      match state.variant
      case Airborne(_) => OnAirborneCollide();
      case AirDodge(_, _) => OnAirDodgeCollide();
      case _ =>
    }

    // -- events/neutral and move --

    method OnIdle(input: Snapshots.Snapshot)
      modifies this
      ensures AsBody() == L.OnIdle(old(AsBody()), input, k)
    {
      var stick := input.move;
      var fired := TryJumpInputs(input);
      if fired {
        return;
      } else if L.DidTap(stick, D.Horizontal) {
        Dash(stick.direction, stick.position.x);
      } else if stick.position.x != 0.0 {
        Walk(stick.direction, stick.position.x);
      }
    }

    method OnWalk(input: Snapshots.Snapshot)
      modifies this
      ensures AsBody() == L.OnWalk(old(AsBody()), input, k)
    {
      var stick := input.move;
      var fired := TryJumpInputs(input);
      if fired {
        return;
      } else if L.DidTap(stick, D.Horizontal) {
        Dash(stick.direction, stick.position.x);
      } else if stick.position.x != 0.0 {
        Walk(stick.direction, stick.position.x);
      } else {
        Idle();
      }
    }

    method OnDash(input: Snapshots.Snapshot)
      requires state.variant.Dash?
      modifies this
      ensures AsBody() == L.OnDash(old(AsBody()), input, k)
    {
      var stick := input.move;
      var dash := state;
      var fired := TryJumpInputs(input);
      if fired {
        return;
      } else if L.DidTap(stick, D.Invert(dash.variant.direction)) {
        Dash(stick.direction, stick.position.x);
      } else if dash.frame < K.DashFrames {
        Dash(dash.variant.direction, stick.position.x);
      } else if stick.direction == dash.variant.direction {
        Run(dash.variant.direction);
      } else {
        Skid();
      }
    }

    method OnDashLate()
      modifies this
      ensures AsBody() == L.OnDashLate(old(AsBody()))
    {
      LimitGroundSpeed();
    }

    method OnRun(input: Snapshots.Snapshot)
      requires state.variant.Run?
      modifies this
      ensures AsBody() == L.OnRun(old(AsBody()), input, k)
    {
      var stick := input.move;
      var run := state;
      var fired := TryJumpInputs(input);
      if fired {
        return;
      } else if stick.direction == run.variant.direction {
        Run(run.variant.direction);
      } else if stick.direction == D.Invert(run.variant.direction) {
        Pivot(stick.direction);
      } else {
        Skid();
      }
    }

    method OnPivot(input: Snapshots.Snapshot)
      requires state.variant.Pivot?
      modifies this
      ensures AsBody() == L.OnPivot(old(AsBody()), input, k)
    {
      var stick := input.move;
      var pivot := state;
      var fired := TryJumpInputs(input);
      if fired {
        return;
      } else if pivot.frame < K.RunPivotFrames {
        return;
      } else if stick.direction == pivot.variant.direction {
        Run(pivot.variant.direction);
      } else {
        Idle();
      }
    }

    method OnSkid(input: Snapshots.Snapshot)
      modifies this
      ensures AsBody() == L.OnSkid(old(AsBody()), input, k)
    {
      var stick := input.move;
      var fired := TryJumpInputs(input);
      if fired {
        return;
      } else if L.DidTap(stick, D.Horizontal) {
        Dash(stick.direction, stick.position.x);
      } else if stick.position.x != 0.0 {
        Walk(stick.direction, stick.position.x);
      } else {
        Idle();
      }
    }

    // -- events/jump and air --

    method OnJumpWait(input: Snapshots.Snapshot)
      requires state.variant.JumpWait?
      modifies this
      ensures AsBody() == L.OnJumpWait(old(AsBody()), input, k)
    {
      // switch to a short jump if the button is released within the window
      if !state.variant.isShort && !input.jumpA.IsActive() {
        state := state.(variant := S.JumpWait(isShort := true));
      }

      if state.frame >= K.JumpWaitFrames {
        Jump();
      } else if input.shieldL.IsDown() || input.shieldR.IsDown() {
        WaveDash(k.normalize(input.move.position));
      }
    }

    method OnAirborne(input: Snapshots.Snapshot)
      requires state.variant.Airborne?
      modifies this
      ensures AsBody() == L.OnAirborne(old(AsBody()), input, k)
    {
      var stick := input.move;

      // air control
      Drift(stick.position.x);

      if velocity.y <= 0.0 {
        Fall();
      }

      if state.variant.isFalling && L.DidTap(stick, D.Down) {
        FastFall();
      }

      if input.shieldL.IsDown() || input.shieldR.IsDown() {
        StartAirDodge(k.normalize(stick.position));
      }
    }

    method OnAirborneCollide()
      requires state.variant.Airborne?
      modifies this
      ensures AsBody() == L.OnAirborneCollide(old(AsBody()))
    {
      if state.variant.isFalling {
        Land();
      }
    }

    method OnAirborneLate()
      modifies this
      ensures AsBody() == L.OnAirborneLate(old(AsBody()))
    {
      LimitAirSpeed();
    }

    method OnAirDodge()
      requires state.variant.AirDodge?
      modifies this
      ensures AsBody() == L.OnAirDodge(old(AsBody()), k)
    {
      AirDodge();
    }

    method OnAirDodgeLate()
      requires state.variant.AirDodge?
      modifies this
      ensures AsBody() == L.OnAirDodgeLate(old(AsBody()), k)
    {
      if state.frame < k.airDodgeMinFrames {
        return;
      }

      // a coarse check that the player's motion opposes the dodge
      var direction := state.variant.motion;
      var isDirectionOpposed :=
        L.Sign(velocity.x) == -L.Sign(direction.x) && L.Sign(velocity.y) == -L.Sign(direction.y);

      if isDirectionOpposed {
        EndAirDodge();
        velocity := Zero;
        Fall();
      }
    }

    method OnAirDodgeCollide()
      modifies this
      ensures AsBody() == L.OnAirDodgeCollide(old(AsBody()), k)
    {
      EndAirDodge();
      WaveLand();
    }

    method OnWaveLand(input: Snapshots.Snapshot)
      modifies this
      ensures AsBody() == L.OnWaveLand(old(AsBody()), input)
    {
      if input.jumpA.IsDown() {
        FullJump();
      } else if input.jumpB.IsDown() {
        ShortJump();
      } else if velocity.x == 0.0 {
        Idle();
      }
    }

    // -- events/inputs --

    method ResetJumpStates()
      modifies this`waveDashCmd, this`fullJumpCmd, this`shortJumpCmd
      ensures AsBody() == L.ResetJumpStates(old(AsBody()))
    {
      waveDashCmd := waveDashCmd.(state := L.Unknown, didPressJump := false, didPressShield := false, waitFrames := 0);
      fullJumpCmd := L.Unknown;
      shortJumpCmd := L.Unknown;
    }

    method TryJumpInputs(input: Snapshots.Snapshot) returns (didRecognize: bool)
      modifies this
      ensures L.Attempt(AsBody(), didRecognize) == L.TryJumpInputs(old(AsBody()), input, k)
    {
      var direction := k.normalize(input.move.position);
      didRecognize := false;

      if waveDashCmd.state == L.Possible && waveDashCmd.waitFrames > 0 {
        waveDashCmd := waveDashCmd.(waitFrames := waveDashCmd.waitFrames - 1);
      }

      if input.jumpA.IsDown() {
        PressJumpA(direction);
        didRecognize := true;
      }

      if input.jumpB.IsDown() {
        PressJumpB(direction);
        didRecognize := true;
      }

      if input.shieldL.IsDown() || input.shieldR.IsDown() {
        PressShield(direction);
        didRecognize := true;
      }

      var expired := Expire();
      didRecognize := didRecognize || expired;
    }

    /** The JumpA block of TryJumpInputs. */
    method PressJumpA(direction: Vec)
      modifies this
      ensures AsBody() == L.PressJumpA(old(AsBody()), direction)
    {
      fullJumpCmd := L.Recognized;
      if waveDashCmd.state == L.Unknown {
        waveDashCmd := waveDashCmd.(state := L.Possible, didPressJump := true, waitFrames := 1);
      } else if waveDashCmd.state == L.Possible && waveDashCmd.didPressShield {
        ResetJumpStates();
        WaveDash(direction);
      } else if waveDashCmd.state == L.Failed {
        ResetJumpStates();
        FullJump();
      }
    }

    /** The JumpB block of TryJumpInputs. */
    method PressJumpB(direction: Vec)
      modifies this
      ensures AsBody() == L.PressJumpB(old(AsBody()), direction)
    {
      shortJumpCmd := L.Recognized;
      if waveDashCmd.state == L.Unknown {
        waveDashCmd := waveDashCmd.(state := L.Possible, didPressJump := true, waitFrames := 1);
      } else if waveDashCmd.state == L.Possible && waveDashCmd.didPressShield {
        ResetJumpStates();
        WaveDash(direction);
      } else if waveDashCmd.state == L.Failed {
        ResetJumpStates();
        ShortJump();
      }
    }

    /** The shield block of TryJumpInputs. */
    method PressShield(direction: Vec)
      modifies this
      ensures AsBody() == L.PressShield(old(AsBody()), direction)
    {
      if waveDashCmd.state == L.Unknown {
        waveDashCmd := waveDashCmd.(state := L.Possible, didPressShield := true, waitFrames := 1);
      } else if waveDashCmd.state == L.Possible && waveDashCmd.didPressJump {
        ResetJumpStates();
        WaveDash(direction);
      }
    }

    /** The closing block of TryJumpInputs: fail a window that ran out and fire the jump it held back. */
    method Expire() returns (didRecognize: bool)
      modifies this
      ensures L.Attempt(AsBody(), didRecognize) == L.Expire(old(AsBody()))
    {
      didRecognize := false;
      if waveDashCmd.state == L.Possible && waveDashCmd.waitFrames <= 0 {
        waveDashCmd := waveDashCmd.(state := L.Failed);

        if fullJumpCmd == L.Recognized {
          ResetJumpStates();
          FullJump();
          didRecognize := true;
        } else if shortJumpCmd == L.Failed {
          ResetJumpStates();
          ShortJump();
          didRecognize := true;
        }
      }
    }

    // -- commands --

    method Idle()
      modifies this`state
      ensures AsBody() == L.Idle(old(AsBody()))
    {
      state := S.New(S.Idle);
    }

    method Walk(direction: D.Direction, xMove: real)
      modifies this
      ensures AsBody() == L.Walk(old(AsBody()), direction, xMove)
    {
      if !state.variant.Walk? {
        state := S.New(S.Walk);
      }

      velocity := Vec(xMove * K.Walk, 0.0);
      isFacingLeft := D.IsLeft(direction);
    }

    method Dash(dir: D.Direction, xAxis: real)
      modifies this
      ensures AsBody() == L.Dash(old(AsBody()), dir, xAxis)
    {
      // a new dash or a change of direction starts a new state
      if !state.variant.Dash? || state.variant.direction != dir {
        state := S.New(S.Dash(dir));
      }

      // ... with the initial velocity
      if state.frame == 0 {
        velocity := Vec(if D.IsLeft(dir) then -K.DashInitial else K.DashInitial, 0.0);
        isFacingLeft := D.IsLeft(dir);
      }

      // push harder when the stick points along the dash
      var isAxisAligned := (xAxis < 0.0 && D.IsLeft(dir)) || (xAxis > 0.0 && D.IsRight(dir));
      var scale := if isAxisAligned then Abs(xAxis) else 0.0;
      var push := K.DashBase + K.DashScale * scale;

      force := force.(x := force.x + if D.IsLeft(dir) then -push else push);
    }

    method LimitGroundSpeed()
      modifies this`velocity
      ensures AsBody() == L.LimitGroundSpeed(old(AsBody()))
    {
      var v := velocity;
      velocity := Vec(Clamp(v.x, -K.Run, K.Run), v.y);
    }

    method Run(direction: D.Direction)
      modifies this
      ensures AsBody() == L.Run(old(AsBody()), direction)
    {
      if !state.variant.Run? {
        state := S.New(S.Run(direction));
      }

      velocity := Vec(if D.IsLeft(direction) then -K.Run else K.Run, 0.0);
    }

    method Pivot(direction: D.Direction)
      modifies this
      ensures AsBody() == L.Pivot(old(AsBody()), direction)
    {
      state := S.New(S.Pivot(direction));
      isFacingLeft := D.IsLeft(direction);
    }

    method Skid()
      modifies this`state
      ensures AsBody() == L.Skid(old(AsBody()))
    {
      state := S.New(S.Skid);
    }

    method FullJump()
      modifies this`state
      ensures AsBody() == L.FullJump(old(AsBody()))
    {
      state := S.New(S.JumpWait(isShort := false));
    }

    method ShortJump()
      modifies this`state
      ensures AsBody() == L.ShortJump(old(AsBody()))
    {
      state := S.New(S.JumpWait(isShort := true));
    }

    method StartAirDodge(direction: Vec)
      modifies this
      ensures AsBody() == L.StartAirDodge(old(AsBody()), k, direction)
    {
      var airDodge := S.New(S.AirDodge(direction));
      state := airDodge;

      // no gravity while dodging
      gravity := k.gravityOff;

      // cancel momentum and apply the initial push
      velocity := Zero;
      force := Add(force, Scale(airDodge.variant.motion, K.AirDodge));
    }

    method AirDodge()
      requires state.variant.AirDodge?
      modifies this`force
      ensures AsBody() == L.AirDodge(old(AsBody()), k)
    {
      force := Add(force, Scale(Reverse(state.variant.motion), k.airDodgeDecay));
    }

    method EndAirDodge()
      modifies this`gravity
      ensures AsBody() == L.EndAirDodge(old(AsBody()), k)
    {
      gravity := k.gravityOn;
    }

    method WaveDash(direction: Vec)
      modifies this
      ensures AsBody() == L.WaveDash(old(AsBody()), direction)
    {
      // wavedashes are always grounded
      var grounded := direction.(y := 0.0);

      velocity := Zero;
      force := Add(force, Scale(grounded, K.AirDodge));

      WaveLand();
    }

    method WaveLand()
      modifies this`state
      ensures AsBody() == L.WaveLand(old(AsBody()))
    {
      state := S.New(S.WaveLand);
    }

    method Jump()
      requires state.variant.JumpWait?
      modifies this
      ensures AsBody() == L.Jump(old(AsBody()))
    {
      var jump := state;
      state := S.New(S.Airborne(isFalling := false));
      velocity := Vec(velocity.x, if jump.variant.isShort then K.JumpShort else K.Jump);
    }

    method Drift(xMov: real)
      modifies this`force
      ensures AsBody() == L.Drift(old(AsBody()), xMov)
    {
      force := force.(x := force.x + xMov * K.Drift);
    }

    method Fall()
      modifies this`state
      ensures AsBody() == L.Fall(old(AsBody()))
    {
      if !state.variant.Airborne? {
        state := S.New(S.Airborne(isFalling := true));
      }

      state := state.(variant := S.Airborne(isFalling := true));
    }

    method FastFall()
      modifies this`velocity
      ensures AsBody() == L.FastFall(old(AsBody()))
    {
      velocity := Vec(velocity.x, -K.FastFall);
    }

    method Land()
      modifies this`state
      ensures AsBody() == L.Land(old(AsBody()))
    {
      Idle();
    }

    method LimitAirSpeed()
      modifies this`velocity
      ensures AsBody() == L.LimitAirSpeed(old(AsBody()))
    {
      var v := velocity;
      velocity := Vec(Clamp(v.x, -K.MaxAirSpeedX, K.MaxAirSpeedX), v.y);
    }
  }
}

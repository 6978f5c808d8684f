/**
  * Clash.Player.Controls.WaveDash: tells a jump+other-button chord within a
  * frame window (a wavedash) from a lone jump press whose window runs out.
  */
module WaveDashes {
  import opened EnumExt
  import Snapshots

  datatype StateW = Possible | Pending | Satisfied | Failed

  datatype ActionW = None | Wavedash | JumpA | JumpB

  /** The private [Flags] Buttons enum: note that bit 1 is unused. */
  type ButtonSet = bv8
  const NoButtons: ButtonSet := 0
  const JumpAButton: ButtonSet := 1
  const JumpBButton: ButtonSet := 4
  const ShieldLButton: ButtonSet := 8
  const ShieldRButton: ButtonSet := 16

  /** The recognizer's fields as one value. */
  datatype Recognizer = Recognizer(action: ActionW, state: StateW, buttons: ButtonSet, failOnFrame: int)

  /** Part A: OR in every button that is down on this frame. */
  function Pressed(buttons: ButtonSet, input: Snapshots.Snapshot): ButtonSet
  {
    var b0 := buttons;
    var b1 := if input.jumpA.IsDown() then b0 | JumpAButton else b0;
    var b2 := if input.jumpB.IsDown() then b1 | JumpBButton else b1;
    var b3 := if input.shieldL.IsDown() then b2 | ShieldLButton else b2;
    if input.shieldR.IsDown() then b3 | ShieldRButton else b3
  }

  /** Pressed only adds bits: exactly the four buttons that are down, nothing else. */
  lemma PressedBits(buttons: ButtonSet, input: Snapshots.Snapshot)
    ensures var r := Pressed(buttons, input);
      && Has(r, buttons)
      && (Has(r, JumpAButton) <==> Has(buttons, JumpAButton) || input.jumpA.IsDown())
      && (Has(r, JumpBButton) <==> Has(buttons, JumpBButton) || input.jumpB.IsDown())
      && (Has(r, ShieldLButton) <==> Has(buttons, ShieldLButton) || input.shieldL.IsDown())
      && (Has(r, ShieldRButton) <==> Has(buttons, ShieldRButton) || input.shieldR.IsDown())
      && r & 0xE2 == buttons & 0xE2
  {
  }

  /** A jump button together with any other button (the other jump button included). */
  predicate IsChord(buttons: ButtonSet) {
    (Has(buttons, JumpAButton) && Any(buttons, !JumpAButton)) ||
    (Has(buttons, JumpBButton) && Any(buttons, !JumpBButton))
  }

  /** OnUpdate(inputs, frame) on the recognizer's fields; `window` is WaveDashFrameWindow. */
  function Step(w: Recognizer, input: Snapshots.Snapshot, frame: int, window: int): (r: Recognizer)
  {
    if w.action != None then w
    else
      var buttons := Pressed(w.buttons, input);
      var open := w.state == Possible || w.state == Pending;
      var nextS :=
        if IsChord(buttons) then Satisfied
        else if w.state == Pending && frame >= w.failOnFrame then Failed
        else if buttons != NoButtons then Pending
        else Possible;
      var failOnFrame := if open && nextS == Pending && w.state != nextS then frame + window else w.failOnFrame;
      var state := if open then nextS else w.state;
      var action :=
        if state == Satisfied then Wavedash
        else if state == Failed && Has(buttons, JumpAButton) then JumpA
        else if state == Failed && Has(buttons, JumpBButton) then JumpB
        else w.action;
      Recognizer(action, state, buttons, failOnFrame)
  }

  /** A chord is a jump button plus anything else: a lone jump button is not one, a shield pair is not one. */
  lemma ChordIsJumpPlusOther(buttons: ButtonSet)
    ensures IsChord(buttons) <==>
      (Has(buttons, JumpAButton) || Has(buttons, JumpBButton)) && buttons != JumpAButton && buttons != JumpBButton
  {
  }

  /** Once an action is recognized, OnUpdate changes nothing. */
  lemma StepStopsOnAction(w: Recognizer, input: Snapshots.Snapshot, frame: int, window: int)
    requires w.action != None
    ensures Step(w, input, frame, window) == w
  {
  }

  /** Buttons are only ever added: every button seen so far stays, and every button down now joins. */
  lemma StepButtonsGrow(w: Recognizer, input: Snapshots.Snapshot, frame: int, window: int)
    ensures Has(Step(w, input, frame, window).buttons, w.buttons)
    ensures w.action == None && input.jumpA.IsDown() ==> Has(Step(w, input, frame, window).buttons, JumpAButton)
    ensures w.action == None && input.jumpB.IsDown() ==> Has(Step(w, input, frame, window).buttons, JumpBButton)
    ensures w.action == None && input.shieldL.IsDown() ==> Has(Step(w, input, frame, window).buttons, ShieldLButton)
    ensures w.action == None && input.shieldR.IsDown() ==> Has(Step(w, input, frame, window).buttons, ShieldRButton)
  {
    PressedBits(w.buttons, input);
  }

  /** A chord in Possible or Pending gives Satisfied and Wavedash, even past the deadline. */
  lemma ChordWins(w: Recognizer, input: Snapshots.Snapshot, frame: int, window: int)
    requires w.action == None && (w.state == Possible || w.state == Pending)
    requires IsChord(Pressed(w.buttons, input))
    ensures Step(w, input, frame, window).state == Satisfied
    ensures Step(w, input, frame, window).action == Wavedash
  {
  }

  /** The deadline moves only on the step from Possible into Pending, to frame + window. */
  lemma DeadlineSetOnEntry(w: Recognizer, input: Snapshots.Snapshot, frame: int, window: int)
    ensures var r := Step(w, input, frame, window);
      r.failOnFrame != w.failOnFrame ==> w.state == Possible && r.state == Pending && r.failOnFrame == frame + window
    ensures var r := Step(w, input, frame, window);
      w.action == None && w.state == Possible && r.state == Pending ==> r.failOnFrame == frame + window
  {
  }

  /** Pending past the deadline without a chord fails, and the jump pressed picks the action (JumpA first). */
  lemma ExpiryFails(w: Recognizer, input: Snapshots.Snapshot, frame: int, window: int)
    requires w.action == None && w.state == Pending && frame >= w.failOnFrame
    requires !IsChord(Pressed(w.buttons, input))
    ensures var r := Step(w, input, frame, window);
      var b := Pressed(w.buttons, input);
      && r.state == Failed
      && r.action == (if Has(b, JumpAButton) then JumpA else if Has(b, JumpBButton) then JumpB else None)
  {
  }

  /** Satisfied and Failed are final until Reset. */
  lemma ClosedStatesPersist(w: Recognizer, input: Snapshots.Snapshot, frame: int, window: int)
    requires w.state == Satisfied || w.state == Failed
    ensures Step(w, input, frame, window).state == w.state
    ensures Step(w, input, frame, window).failOnFrame == w.failOnFrame
  {
  }

  /** With nothing pressed so far or now, a Possible recognizer stays exactly as it is. */
  lemma IdleStaysPossible(w: Recognizer, input: Snapshots.Snapshot, frame: int, window: int)
    requires w.action == None && w.state == Possible && w.buttons == NoButtons
    requires !input.jumpA.IsDown() && !input.jumpB.IsDown() && !input.shieldL.IsDown() && !input.shieldR.IsDown()
    ensures Step(w, input, frame, window) == w
  {
  }

  /** What every reachable recognizer satisfies: an action only in a closed state, Wavedash exactly for Satisfied,
    * and a pending window only once something was pressed. */
  ghost predicate Consistent(w: Recognizer) {
    && (w.action != None ==> w.state == Satisfied || w.state == Failed)
    && (w.state == Satisfied <==> w.action == Wavedash)
    && (w.state == Pending ==> w.buttons != NoButtons)
    && (w.action == JumpA ==> Has(w.buttons, JumpAButton))
    && (w.action == JumpB ==> Has(w.buttons, JumpBButton))
  }

  lemma StepKeepsConsistent(w: Recognizer, input: Snapshots.Snapshot, frame: int, window: int)
    requires Consistent(w)
    ensures Consistent(Step(w, input, frame, window))
  {
    PressedBits(w.buttons, input);
  }

  /** Applies Step once per frame, with frames first, first + 1, ... */
  function Run(w: Recognizer, inputs: seq<Snapshots.Snapshot>, first: int, window: int): Recognizer
    decreases |inputs|
  {
    if |inputs| == 0 then w
    else Run(Step(w, inputs[0], first, window), inputs[1..], first + 1, window)
  }

  /** A lone JumpA press followed by window quiet frames fails the chord and yields JumpA on the last one. */
  lemma {:induction false} LoneJumpAExpires(press: Snapshots.Snapshot, quiet: seq<Snapshots.Snapshot>, first: int, window: nat)
    requires window >= 1
    requires press.jumpA.IsDown() && !press.jumpB.IsDown() && !press.shieldL.IsDown() && !press.shieldR.IsDown()
    requires |quiet| == window
    requires forall k :: 0 <= k < |quiet| ==>
      !quiet[k].jumpB.IsDown() && !quiet[k].shieldL.IsDown() && !quiet[k].shieldR.IsDown()
    ensures var w := Step(Fresh, press, first, window);
      w == Recognizer(None, Pending, JumpAButton, first + window)
    ensures Run(Step(Fresh, press, first, window), quiet, first + 1, window) == Recognizer(JumpA, Failed, JumpAButton, first + window)
  {
    var w := Step(Fresh, press, first, window);
    assert w.buttons == JumpAButton;
    QuietPending(w, quiet, first + 1, window);
  }

  lemma {:induction false} QuietPending(w: Recognizer, quiet: seq<Snapshots.Snapshot>, frame: int, window: nat)
    requires w == Recognizer(None, Pending, JumpAButton, w.failOnFrame)
    requires frame <= w.failOnFrame && frame + |quiet| == w.failOnFrame + 1
    requires forall k :: 0 <= k < |quiet| ==>
      !quiet[k].jumpB.IsDown() && !quiet[k].shieldL.IsDown() && !quiet[k].shieldR.IsDown()
    ensures Run(w, quiet, frame, window) == Recognizer(JumpA, Failed, JumpAButton, w.failOnFrame)
    decreases |quiet|
  {
    var next := Step(w, quiet[0], frame, window);
    assert Pressed(JumpAButton, quiet[0]) == JumpAButton;
    if frame == w.failOnFrame {
      assert next == Recognizer(JumpA, Failed, JumpAButton, w.failOnFrame);
      assert |quiet| == 1;
    } else {
      assert next == w;
      QuietPending(w, quiet[1..], frame + 1, window);
    }
  }

  /** Reset(): no action, Possible, no buttons, no deadline. */
  const Fresh := Recognizer(None, Possible, NoButtons, -1)

  class WaveDash {
    const window: int
    var action: ActionW
    var state: StateW
    var buttons: ButtonSet
    var failOnFrame: int

    function Fields(): Recognizer
      reads this
    {
      Recognizer(action, state, buttons, failOnFrame)
    }

    /** The implicit constructor: every field at its default (failOnFrame 0, not -1). */
    constructor (window: int)
      ensures this.window == window && Fields() == Recognizer(None, Possible, NoButtons, 0)
    {
      this.window := window;
      action, state, buttons, failOnFrame := None, Possible, NoButtons, 0;
    }

    method Reset()
      modifies this
      ensures Fields() == Fresh
    {
      action := None;
      state := Possible;
      buttons := NoButtons;
      failOnFrame := -1;
    }

    /** Part A of OnUpdate: record every button that is down on this frame. */
    method UpdateFlags(input: Snapshots.Snapshot)
      modifies this`buttons
      ensures buttons == Pressed(old(buttons), input)
    {
      if input.jumpA.IsDown() {
        buttons := buttons | JumpAButton;
      }
      if input.jumpB.IsDown() {
        buttons := buttons | JumpBButton;
      }
      if input.shieldL.IsDown() {
        buttons := buttons | ShieldLButton;
      }
      if input.shieldR.IsDown() {
        buttons := buttons | ShieldRButton;
      }
    }

    method OnUpdate(input: Snapshots.Snapshot, frame: int)
      modifies this
      ensures Fields() == Step(old(Fields()), input, frame, window)
    {
      // if we recognized an action, stop
      if action != None {
        return;
      }

      // A: update flags
      UpdateFlags(input);

      // B: update wavedash state
      if state == Possible || state == Pending {
        var nextS := Possible;
        var isChordRecognized :=
          (Has(buttons, JumpAButton) && Any(buttons, !JumpAButton)) ||
          (Has(buttons, JumpBButton) && Any(buttons, !JumpBButton));
        assert isChordRecognized == IsChord(buttons);
        if isChordRecognized {
          nextS := Satisfied;
        } else if state == Pending && frame >= failOnFrame {
          nextS := Failed;
        } else if buttons != NoButtons {
          nextS := Pending;
        }
        if nextS == Pending && state != nextS {
          failOnFrame := frame + window;
        }
        state := nextS;
      }

      // C: update action
      var nextA := action;
      if state == Satisfied {
        nextA := Wavedash;
      } else if state == Failed {
        if Has(buttons, JumpAButton) {
          nextA := JumpA;
        } else if Has(buttons, JumpBButton) {
          nextA := JumpB;
        }
      }
      action := nextA;
    }
  }
}

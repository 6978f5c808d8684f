# Clash: the player's input and movement core in Dafny

Clash is a platform fighter. Every frame its input stream samples a control
stick and four buttons into a `Snapshot`, classifies the stick's motion
(idle, switching direction, tapping, held) and keeps the last ten snapshots
in a ring buffer. The player reads the newest snapshot: a wavedash
recognizer watches the jump and shield buttons for a chord or an expired
window, and the player's state machine (Idle, Walk, Dash, Run, Pivot, Skid,
JumpWait, Airborne, AirDodge, WaveLand) turns stick and buttons into
velocity, force and gravity for the physics engine. A small gesture chain
decides which of several competing gestures is recognised.

The model follows the code's own form:

- value types (`Vec`, `Analog`, `Button`, `Snapshot`, `Direction`, the
  state variants, the wavedash command) are datatypes, and the pure queries
  on them are functions;
- the classes whose fields change in place (`Buffer`, `Stream`, `Gesture`,
  `WaveDash`, `Player`) are Dafny classes whose methods update fields step
  by step and are proved to end in the state that a specification function
  of the old state gives (`Buffer.Add` ends in `Pushed(old(Contents()), s)`,
  `WaveDash.OnUpdate` in `Step(old(Fields()), ...)`, every `Player` method
  in the `PlayerLogic` function of the same name);
- the properties the game relies on (newest-first history, at most one
  recognised gesture, chords win over expiry, gravity is off exactly while
  air dodging, which state each handler may enter) are lemmas about those
  functions.

Floats are modelled as reals. Square roots are avoided by comparing
squares. NaN is modelled only where it arises: the stick speed when two
samples share a timestamp.

Where the unit tests expect something the code does not do, the model
follows the code and a lemma states what the code does:

- `PlayerProperties.JumpPressStaysIdle`: a jump press leaves an idle
  player Idle on that frame. JumpWait starts one frame later, after the
  wavedash window expires. Clash.Tests/Domain/Player/PlayerTests.cs:73-83
  expects JumpWait at once.
- `PlayerProperties.JumpBNeverFiresOnExpiry`: a lone JumpB press never
  short-jumps when its window expires. The command it records is never
  read. PlayerTests.cs:114-129 expects a short jump.
- `PlayerProperties.AirDodgeStartsOnGround`: an air dodge started in the
  air carries `IsOnGround == true`, the constructor's default.
  PlayerTests.cs:131-143 expects otherwise.
- `PlayerProperties.ShieldInJumpWaitWaveLands`: shield during JumpWait
  ends in WaveLand. PlayerTests.cs:145-160 expects an air dodge.

Other behaviour of the code as written that the model keeps:

- a Failed wavedash command lets the next jump press jump at once;
- a lone shield press leaves the command Failed.

## Model

| member | source | states |
|---|---|---|
| Mathf.Abs | Clash/Core/Maths/Mathf.cs:5 | the result is non-negative and is either x or -x |
| Mathf.Clamp | Clash/Core/Maths/Mathf.cs:11-13 | `Min(Max(val, min), max)`: inside [min, max] when min <= max; val itself when already inside; max when min > max; always one of the three |
| Mathf.ClampIdempotent | Clash/Core/Maths/Mathf.cs:11-13 | clamping twice gives the same value as clamping once |
| Mathf.HypotSquared | Clash/Core/Maths/Mathf.cs:7-9 | the square of Hypot is non-negative and is zero at the origin |
| Mathf.HypotSignSymmetric | Clash/Core/Maths/Mathf.cs:7-9 | Hypot does not depend on the signs of its arguments |
| Mathf.HypotAtMostIsExact | Clash/Core/Maths/Mathf.cs:7-9 | for the non-negative h with h*h = x*x + y*y, `h <= t` holds exactly when the squared comparison holds |
| Vecs.Sub | Clash/Core/Maths/Vec.cs:15-20 | `a - b` is the vector that, added to b, gives back a |
| Vecs.Scale | Clash/Domain/Player/Player.cs:554 | scaling by 0 gives Zero and by 1 gives the vector itself |
| Vecs.Reverse | Clash/Domain/Player/Player.cs:560 | the reversed vector adds to the original to give Zero |
| Vecs.MagSquared | Clash/Core/Maths/Vec.cs:23-25 | the square of Mag is non-negative and zero for Zero |
| Vecs.AddSubInverse | Clash/Core/Maths/Vec.cs:15-20 | subtraction undoes addition and addition undoes subtraction |
| Vecs.SubZero | Clash/Core/Maths/Vec.cs:15-28 | `a - Zero == a` and `a - a == Zero` |
| Vecs.ReverseInvolutive | Clash/Domain/Player/Player.cs:560 | reversing twice is the identity and keeps the magnitude |
| EnumExt.All | Clash/Core/Ext/EnumExt.cs:9-11 | All is the same test as Has |
| EnumExt.HasIsEveryBit | Clash/Core/Ext/EnumExt.cs:5-7 | `flags.HasFlag(flag)` holds exactly when every bit of flag is set in flags |
| EnumExt.AnyIsSomeBit | Clash/Core/Ext/EnumExt.cs:13-15 | `(flags & flag) != 0` holds exactly when some bit is set in both |
| EnumExt.EmptyAndNonEmptyFlag | Clash/Core/Ext/EnumExt.cs:5-15 | every set has the empty flag and none has Any of it; for a non-empty flag Has implies Any |
| EnumerableExt.To | Clash/Core/Ext/EnumerableExt.cs:5-15 | yields every integer from `from` to `to` inclusive, upwards when from < to and downwards otherwise, starting at from and ending at to |
| Directions.IntersectsSymmetric | Clash/Core/Input/Direction.cs:47-49 | two directions intersect in either order or in neither |
| Directions.Invert | Clash/Core/Input/Direction.cs:16-29 | swaps Up/Down and Left/Right and returns every other value unchanged; it keeps horizontality |
| Directions.IsHorizontal | Clash/Core/Input/Direction.cs:43-45 | holds exactly when the Left or Right bit is set |
| Directions.InvertInvolutive | Clash/Core/Input/Direction.cs:16-29 | inverting twice gives back the direction |
| Directions.NamedDirectionsAreBits | Clash/Core/Input/Direction.cs:2-10 | the five named directions are distinct single bits; Neutral meets neither axis and the axes do not meet |
| Directions.EqualityTestsAreExact | Clash/Core/Input/Direction.cs:31-45 | IsLeft and IsRight are equality tests, so the combined Horizontal value is neither; 0 is neither neutral nor horizontal |
| Analogs.QueriesFollowFields | Clash/Core/Input/Analog.cs:26-40 | DidTap holds exactly in SwitchTap; IsNeutral exactly for Neutral; left excludes right and neutral; left or right implies horizontal |
| Analogs.DefaultIsIdleNotNeutral | Clash/Core/Input/Analog.cs:6-23 | the default stick is Idle at the origin, yet its direction 0 is not Neutral, Left or Right |
| Buttons.QueriesByState | Clash/Core/Input/Button.cs:11-17 | Down implies Active; IsActive holds exactly in Down and Active; the default button is inactive |
| Snapshots.DefaultIsAtRest | Clash/Core/Input/Snapshot.cs:2-31 | the default snapshot has time 0, no active button and an idle stick at the origin |
| Buffers.Pushed | Clash/Core/Input/Buffer.cs:20-24 | adding puts the new snapshot at offset 0 and moves every other one back by one offset, dropping the oldest |
| Buffers.AfterAdds | Clash/Core/Input/Buffer.cs:15-24 | the reference contents after a list of adds to a new buffer of n slots: n entries, each add a push |
| Buffers.AfterAddsNewestFirst | Clash/Core/Input/Buffer.cs:4-8 | after any sequence of adds, offset k holds the k-th newest snapshot, or the default snapshot when fewer were added |
| Buffers.View | Clash/Core/Input/Buffer.cs:27-41 | offset k of the buffer is the array slot `GetIndex(k)` |
| Buffers.ViewAfterWrite | Clash/Core/Input/Buffer.cs:21-24 | moving head one slot forward and writing there is a push onto the view |
| Buffers.Buffer.Contents | Clash/Core/Input/Buffer.cs:27-36 | the view has one entry per array slot |
| Buffers.Buffer.constructor | Clash/Core/Input/Buffer.cs:11-17 | a new buffer has `size` slots, head -1 and holds only default snapshots |
| Buffers.Buffer.Add | Clash/Core/Input/Buffer.cs:21-24 | head moves forward one slot modulo the length, that slot receives the snapshot, no other slot changes, and the contents become `Pushed(old contents, snapshot)` |
| Buffers.Buffer.Get | Clash/Core/Input/Buffer.cs:28-36 | an offset at or past the length is out of range; any other offset finds the snapshot at that offset |
| Buffers.Buffer.GetIndex | Clash/Core/Input/Buffer.cs:39-41 | the circular index is always a valid slot |
| Buffers.SlotStep | Clash/Core/Input/Buffer.cs:39-41 | after head moves one slot forward, offset k is the slot that offset k - 1 was, and never the new head |
| Buffers.Slot | Clash/Core/Input/Buffer.cs:39-41 | `((head - offset) + n) % n` lies in [0, n) |
| Streams.SpeedComparisons | Clash/Core/Input/Stream.cs:86-88 | a finite speed is below a threshold exactly when it is not at least it; NaN is neither; infinity is only at least |
| Streams.FiniteSpeedComparisonsAreExact | Clash/Core/Input/Stream.cs:86-88 | comparing squared speeds with a threshold decides the same as comparing the speeds |
| Streams.Filter | Clash/Core/Input/Stream.cs:71-74 | a position inside the dead zone becomes Zero; any other is kept |
| Streams.PrimaryDirection | Clash/Core/Input/Stream.cs:76-84 | Neutral exactly at the origin; otherwise Left or Right when the x component dominates and Up or Down when it does not, by sign |
| Streams.StickSpeed | Clash/Core/Input/Stream.cs:86-88 | the speed is finite exactly when the time changed; no motion at an unchanged time is NaN |
| Streams.PrimaryMagnitude | Clash/Core/Input/Stream.cs:90-91 | the magnitude is the absolute x component for a horizontal direction and the absolute y component otherwise |
| Streams.PrimaryMagnitudeIsLarger | Clash/Core/Input/Stream.cs:76-91 | along the primary direction the magnitude is the larger of the absolute components (y on a tie), and 0 at the origin |
| Streams.Engaged | Clash/Core/Input/Stream.cs:104-114 | the states that count as already pressing a direction |
| Streams.ClassifyState | Clash/Core/Input/Stream.cs:93-125 | each of the five stick states holds exactly under the condition the code tests for it |
| Streams.CaptureMove | Clash/Core/Input/Stream.cs:58-132 | keeps the raw position; inside the dead zone the stick is neutral at Zero and idle or unknown; outside it the position is the raw one |
| Streams.CaptureButton | Clash/Core/Input/Stream.cs:134-145 | Down when pressed this frame, else Up when released, else Active when held, else Inactive |
| Streams.CaptureSnapshot | Clash/Core/Input/Stream.cs:47-56 | stamps the time, keeps the raw stick and reports each button's press |
| Streams.NaNSpeedClassification | Clash/Core/Input/Stream.cs:93-125 | at an unchanged timestamp an off-centre stick is classified as a held direction or Unknown, never as a tap |
| Streams.DeadZoneOnFreshStream | Clash/Core/Input/Stream.cs:58-132 | on a new stream a stick inside the dead zone reads as an idle neutral stick |
| Streams.Stream.History | Clash/Core/Input/Stream.cs:23 | the history has Capacity (10) entries |
| Streams.Stream.constructor | Clash/Core/Input/Stream.cs:26-30 | a new stream holds `initial` as its newest snapshot and default snapshots behind it |
| Streams.Stream.Get | Clash/Core/Input/Stream.cs:33-35 | offsets past the capacity are out of range; others find that entry of the history |
| Streams.Stream.GetCurrent | Clash/Core/Input/Stream.cs:37-39 | the current snapshot is the newest entry of the history |
| Streams.Stream.OnUpdate | Clash/Core/Input/Stream.cs:42-44 | pushes the snapshot captured from the previous current one: the new current snapshot has the frame's time and every older entry moves back one offset |
| Gestures.BlockedIffEarlierHolds | Clash/Core/Input/Gesture.cs:72-80 | a gesture is blocked exactly when some gesture before it in the chain is Pending or Satisfied |
| Gestures.BlockedReadsOnlyEarlier | Clash/Core/Input/Gesture.cs:72-80 | blocking depends only on the gestures before this one |
| Gestures.HeadNeverBlocked | Clash/Core/Input/Gesture.cs:72-80 | the first gesture of a chain is never blocked |
| Gestures.Advance | Clash/Core/Input/Gesture.cs:49-53 | a completed gesture keeps its state; a Possible or Pending one takes the recognizer's answer |
| Gestures.AdvancedFrom | Clash/Core/Input/Gesture.cs:45-59 | updating from gesture i onwards leaves the earlier ones alone and advances every later one |
| Gestures.AtMostOneRecognized | Clash/Core/Input/Gesture.cs:67-80 | for one list of gesture states, no two gestures are both Satisfied and unblocked; the stored flags follow it after a full update (see Chain.OnUpdate) |
| Gestures.Chain.constructor | Clash/Core/Input/Gesture.cs:28-30 | a new gesture is Possible and not recognised |
| Gestures.Chain.AddNext | Clash/Core/Input/Gesture.cs:62-65 | appends a Possible, unrecognised gesture whose previous gesture is the old last one |
| Gestures.Chain.Reset | Clash/Core/Input/Gesture.cs:33-43 | gesture i and every later one become Possible; earlier ones and all recognition flags are unchanged |
| Gestures.Chain.InvalidateRecognition | Clash/Core/Input/Gesture.cs:67-69 | only gesture i's flag changes, to Satisfied and not blocked |
| Gestures.Chain.OnUpdate | Clash/Core/Input/Gesture.cs:45-59 | gesture i and every later one advance, and each of their flags then reads Satisfied and not blocked; after an update from the first gesture at most one flag is set |
| Gestures.SatisfiedRecognizedWhenPrevFails | Clash/Core/Input/Gesture.cs:45-59 | a Satisfied gesture waiting behind a Pending one becomes recognised on the frame the earlier one fails |
| WaveDashes.PressedBits | Clash/Domain/Player/Controls/WaveDash.cs:47-63 | the flags keep every button already seen and add exactly the buttons that went down this frame |
| WaveDashes.ChordIsJumpPlusOther | Clash/Domain/Player/Controls/WaveDash.cs:70-73 | a chord is a jump button together with some other button |
| WaveDashes.StepStopsOnAction | Clash/Domain/Player/Controls/WaveDash.cs:42-45 | once an action is chosen the recognizer no longer changes |
| WaveDashes.StepButtonsGrow | Clash/Domain/Player/Controls/WaveDash.cs:47-63 | the flags only grow, and each of the four buttons that goes down is recorded |
| WaveDashes.ChordWins | Clash/Domain/Player/Controls/WaveDash.cs:70-96 | a chord satisfies the recognizer and fires a wavedash, even when the window has expired |
| WaveDashes.DeadlineSetOnEntry | Clash/Domain/Player/Controls/WaveDash.cs:83-86 | the deadline is `frame + window` when the state first becomes Pending, and is otherwise unchanged |
| WaveDashes.ExpiryFails | Clash/Domain/Player/Controls/WaveDash.cs:77-78 | a Pending recognizer at or past its deadline without a chord fails |
| WaveDashes.ClosedStatesPersist | Clash/Domain/Player/Controls/WaveDash.cs:66-90 | Satisfied and Failed never change and the deadline stays |
| WaveDashes.IdleStaysPossible | Clash/Domain/Player/Controls/WaveDash.cs:79-81 | with no button seen and none pressed, nothing changes |
| WaveDashes.Consistent | Clash/Domain/Player/Controls/WaveDash.cs:92-105 | the action agrees with the state: Wavedash only when Satisfied, a jump only when Failed |
| WaveDashes.StepKeepsConsistent | Clash/Domain/Player/Controls/WaveDash.cs:41-106 | every update keeps the action consistent with the state |
| WaveDashes.LoneJumpAExpires | Clash/Domain/Player/Controls/WaveDash.cs:41-106 | a lone JumpA press followed by `window` quiet frames ends Failed with action JumpA at the deadline |
| WaveDashes.QuietPending | Clash/Domain/Player/Controls/WaveDash.cs:77-105 | a Pending JumpA recognizer fed quiet frames up to its deadline fails with action JumpA |
| WaveDashes.WaveDash.constructor | Clash/Domain/Player/Controls/WaveDash.cs:23-30 | a new recognizer has no action, state Possible, no buttons and deadline 0 |
| WaveDashes.WaveDash.Reset | Clash/Domain/Player/Controls/WaveDash.cs:33-38 | clears action, state and buttons |
| WaveDashes.WaveDash.UpdateFlags | Clash/Domain/Player/Controls/WaveDash.cs:47-63 | ORs in the bit of each button that went down |
| WaveDashes.WaveDash.OnUpdate | Clash/Domain/Player/Controls/WaveDash.cs:41-106 | the fields end as `Step` of the old fields, the property lemmas above describe |
| States.State.Advance | Clash/Domain/Player/State.cs:12-14 | AdvanceFrame adds one to Frame and keeps the state's own fields |
| States.New | Clash/Domain/Player/State.cs:7-9 | every state starts at Frame 0 |
| States.FrameCountsAdvances | Clash/Domain/Player/State.cs:4-14 | Frame counts the AdvanceFrame calls since construction and the variant is unchanged |
| States.AdvanceMonotone | Clash/Domain/Player/State.cs:12-14 | k more AdvanceFrame calls add exactly k to Frame |
| States.AirDodgeDefaultsOnGround | Clash/Domain/Player/States.cs:68-76 | an AirDodge built without the second argument is on the ground |
| PlayerLogic.Sign | Clash/Domain/Player/Player.cs:300-304 | the sign is -1, 0 or 1, zero exactly for 0, positive exactly for positive values |
| PlayerLogic.Initial | Clash/Domain/Player/Player.cs:8-27 | a new player is Idle on the ground or falling Airborne, at Frame 0, facing right, at rest, with gravity on and no jump command |
| PlayerLogic.OnPreUpdate | Clash/Domain/Player/Player.cs:30-36 | takes the engine's velocity, clears the force and advances the state by one frame, nothing else |
| PlayerLogic.ResetJumpStates | Clash/Domain/Player/Player.cs:353-361 | clears the three jump commands and nothing else |
| PlayerLogic.Fall | Clash/Domain/Player/Player.cs:595-603 | the state becomes falling Airborne; an Airborne state keeps its frame, any other starts at 0 |
| PlayerProperties.FiresOnEveryPress | Clash/Domain/Player/Player.cs:363-460 | any jump or shield press makes TryJumpInputs report an input, so the handler stops |
| PlayerProperties.UnfiredKeepsBody | Clash/Domain/Player/Player.cs:363-460 | when nothing fires, only the jump commands may change |
| PlayerProperties.TryJumpEntersOnlyJumpOrWaveLand | Clash/Domain/Player/Player.cs:363-460 | TryJumpInputs keeps gravity and either keeps the state or enters a fresh JumpWait or WaveLand |
| PlayerProperties.JumpOrWaveLandSteps | Clash/Domain/Player/Player.cs:363-460 | two blocks that each keep gravity and enter only a fresh JumpWait or WaveLand compose to one that does |
| PlayerProperties.BlocksEnterOnlyJumpOrWaveLand | Clash/Domain/Player/Player.cs:392-456 | the countdown, each of the three press blocks and the expiry block keep gravity and enter only a fresh JumpWait or WaveLand |
| PlayerProperties.JumpAOpensWindow | Clash/Domain/Player/Player.cs:397-412 | a lone JumpA press opens a one-frame wavedash window, records a full jump and leaves the state alone |
| PlayerProperties.JumpAFiresAfterWait | Clash/Domain/Player/Player.cs:392-394 | on the next quiet frame the window expires and the player enters JumpWait for a full jump |
| PlayerProperties.JumpBOpensWindow | Clash/Domain/Player/Player.cs:414-429 | a lone JumpB press opens the same window and records a short jump |
| PlayerProperties.JumpBNeverFiresOnExpiry | Clash/Domain/Player/Player.cs:444-456 | when a JumpB window expires the command fails and no jump starts |
| PlayerProperties.FailedStaysQuiet | Clash/Domain/Player/Player.cs:444-456 | a failed command without a pending full jump changes nothing on quiet frames |
| PlayerProperties.BlocksNeverFailShortJump | Clash/Domain/Player/Player.cs:392-456 | no block of TryJumpInputs sets the short-jump command to Failed |
| PlayerProperties.ShortJumpNeverFailed | Clash/Domain/Player/Player.cs:363-460 | the short-jump command never becomes Failed, so the branch that tests for it is dead |
| PlayerProperties.ChordWaveDashes | Clash/Domain/Player/Player.cs:431-442 | jump and shield on one frame wavedash: velocity cancelled, push along the stick, state WaveLand |
| PlayerProperties.ShieldInsideWindowWaveDashes | Clash/Domain/Player/Player.cs:431-442 | a shield press inside an open jump window wavedashes |
| PlayerProperties.IdleRules | Clash/Domain/Player/Player.cs:104-120 | from Idle a horizontal tap dashes and a horizontal tilt walks, facing the stick; otherwise the player stays Idle |
| PlayerProperties.DashStarts | Clash/Domain/Player/Player.cs:483-508 | a new dash starts at Frame 0 with the initial dash speed along its direction and faces it |
| PlayerProperties.DashContinues | Clash/Domain/Player/Player.cs:483-508 | a dash under way keeps its state, velocity and facing |
| PlayerProperties.DashPush | Clash/Domain/Player/Player.cs:498-507 | the dash force is base plus scale times the stick, in the dash's direction |
| PlayerProperties.DashRules | Clash/Domain/Player/Player.cs:143-165 | a back tap re-dashes the other way; before DashFrames the dash goes on; after it Run while the stick holds that way, else Skid |
| PlayerProperties.RunRules | Clash/Domain/Player/Player.cs:171-191 | holding keeps running at full speed; reversing pivots; anything else skids |
| PlayerProperties.WalkRules | Clash/Domain/Player/Player.cs:123-141 | from Walk a horizontal tap dashes facing the stick, a tilt keeps the Walk state with speed x times Walk facing the stick, and a released stick idles |
| PlayerProperties.SkidRules | Clash/Domain/Player/Player.cs:215-233 | from Skid a horizontal tap dashes, a tilt starts a fresh Walk with speed x times Walk facing the stick, and a released stick idles |
| PlayerProperties.PivotRules | Clash/Domain/Player/Player.cs:193-213 | nothing happens for RunPivotFrames frames; then Run if the stick holds the pivot's way, else Idle |
| PlayerProperties.JumpWaitRules | Clash/Domain/Player/Player.cs:236-253 | IsShort latches once JumpA is no longer held; at JumpWaitFrames the player takes off with the short or full jump speed; before that a shield press wavedashes into WaveLand; otherwise nothing else changes |
| PlayerProperties.AirborneRules | Clash/Domain/Player/Player.cs:255-276 | moving down or not at all marks the state falling and moving up keeps it; a shield press starts an air dodge along the normalised stick with gravity off, velocity zeroed and the dodge force added |
| PlayerProperties.AirDodgeDecays | Clash/Domain/Player/Player.cs:557-561 | each AirDodge frame adds the reversed dodge direction times AirDodgeDecay to the force and changes nothing else |
| PlayerProperties.FastFallOnDownTap | Clash/Domain/Player/Player.cs:255-276 | a falling player tapping down takes the fast-fall speed |
| PlayerProperties.CollideRules | Clash/Domain/Player/Player.cs:93-101 | a falling Airborne lands in Idle, a rising one ignores the ground, an air dodge wave-lands |
| PlayerProperties.WaveLandRules | Clash/Domain/Player/Player.cs:319-332 | in WaveLand JumpA starts a full JumpWait, else JumpB a short one, else a stopped player idles and a moving one is left alone, whatever the shields do; nothing else changes |
| PlayerProperties.PostSimulationClamps | Clash/Domain/Player/Player.cs:77-91 | the late handlers clamp horizontal speed in Dash and Airborne and never touch vertical speed |
| PlayerProperties.AirDodgeEnds | Clash/Domain/Player/Player.cs:292-312 | before the minimum frames nothing happens; after them the dodge ends in a fall with gravity on and velocity zero exactly when its speed opposes the dodge on both axes |
| PlayerProperties.InitialGravity | Clash/Domain/Player/Player.cs:12-27 | a new player has gravity on and is not air dodging |
| PlayerProperties.PreUpdateKeepsGravity | Clash/Domain/Player/Player.cs:30-36 | the pre-update step keeps gravity off exactly during an air dodge |
| PlayerProperties.UpdateKeepsGravity | Clash/Domain/Player/Player.cs:38-75 | every update keeps gravity off exactly during an air dodge |
| PlayerProperties.IdleKeepsGravity | Clash/Domain/Player/Player.cs:104-120 | the Idle handler keeps gravity off exactly during an air dodge |
| PlayerProperties.WalkKeepsGravity | Clash/Domain/Player/Player.cs:123-141 | so does the Walk handler |
| PlayerProperties.DashKeepsGravity | Clash/Domain/Player/Player.cs:143-165 | so does the Dash handler |
| PlayerProperties.RunKeepsGravity | Clash/Domain/Player/Player.cs:171-191 | so does the Run handler |
| PlayerProperties.PivotKeepsGravity | Clash/Domain/Player/Player.cs:193-213 | so does the Pivot handler |
| PlayerProperties.SkidKeepsGravity | Clash/Domain/Player/Player.cs:215-233 | so does the Skid handler |
| PlayerProperties.PostSimulationKeepsGravity | Clash/Domain/Player/Player.cs:77-91 | so does the post-simulation step |
| PlayerProperties.CollideKeepsGravity | Clash/Domain/Player/Player.cs:93-101 | so does a collision |
| PlayerProperties.JumpPressStaysIdle | Clash.Tests/Domain/Player/PlayerTests.cs:73-83 | a jump press on an idle player leaves it Idle on that frame |
| PlayerProperties.ShieldInJumpWaitWaveLands | Clash.Tests/Domain/Player/PlayerTests.cs:145-160 | a shield press during JumpWait ends in WaveLand, not in an air dodge |
| PlayerProperties.AirDodgeStartsOnGround | Clash.Tests/Domain/Player/PlayerTests.cs:131-143 | an air dodge started in the air is marked on the ground |
| Players.Player.constructor | Clash/Domain/Player/Player.cs:21-27 | the fields of a new player are `PlayerLogic.Initial` |
| Players.Player.OnPreUpdate | Clash/Domain/Player/Player.cs:30-36 | the fields end as `PlayerLogic.OnPreUpdate` of the old ones |
| Players.Player.OnUpdate | Clash/Domain/Player/Player.cs:38-75 | dispatches on the state; the fields end as `PlayerLogic.OnUpdate` |
| Players.Player.OnPostSimulation | Clash/Domain/Player/Player.cs:77-91 | the fields end as `PlayerLogic.OnPostSimulation` |
| Players.Player.OnCollide | Clash/Domain/Player/Player.cs:93-101 | the fields end as `PlayerLogic.OnCollide` |
| Players.Player.OnIdle | Clash/Domain/Player/Player.cs:104-120 | the Idle handler, as `PlayerLogic.OnIdle` |
| Players.Player.OnWalk | Clash/Domain/Player/Player.cs:123-141 | the Walk handler, as `PlayerLogic.OnWalk`, whose transitions WalkRules states |
| Players.Player.OnDash | Clash/Domain/Player/Player.cs:143-165 | the Dash handler, as `PlayerLogic.OnDash` |
| Players.Player.OnDashLate | Clash/Domain/Player/Player.cs:167-169 | the late Dash handler, as `PlayerLogic.OnDashLate` |
| Players.Player.OnRun | Clash/Domain/Player/Player.cs:171-191 | the Run handler, as `PlayerLogic.OnRun` |
| Players.Player.OnPivot | Clash/Domain/Player/Player.cs:193-213 | the Pivot handler, as `PlayerLogic.OnPivot` |
| Players.Player.OnSkid | Clash/Domain/Player/Player.cs:215-233 | the Skid handler, as `PlayerLogic.OnSkid`, whose transitions SkidRules states |
| Players.Player.OnJumpWait | Clash/Domain/Player/Player.cs:236-253 | the JumpWait handler, as `PlayerLogic.OnJumpWait` |
| Players.Player.OnAirborne | Clash/Domain/Player/Player.cs:255-276 | the Airborne handler, as `PlayerLogic.OnAirborne` |
| Players.Player.OnAirborneCollide | Clash/Domain/Player/Player.cs:278-282 | landing, as `PlayerLogic.OnAirborneCollide` |
| Players.Player.OnAirborneLate | Clash/Domain/Player/Player.cs:284-286 | the late Airborne handler, as `PlayerLogic.OnAirborneLate` |
| Players.Player.OnAirDodge | Clash/Domain/Player/Player.cs:288-290 | the AirDodge handler, as `PlayerLogic.OnAirDodge`, whose per-frame decay AirDodgeDecays states |
| Players.Player.OnAirDodgeLate | Clash/Domain/Player/Player.cs:292-312 | the late AirDodge handler, as `PlayerLogic.OnAirDodgeLate` |
| Players.Player.OnAirDodgeCollide | Clash/Domain/Player/Player.cs:314-317 | wave-landing, as `PlayerLogic.OnAirDodgeCollide` |
| Players.Player.OnWaveLand | Clash/Domain/Player/Player.cs:319-332 | the WaveLand handler, as `PlayerLogic.OnWaveLand` |
| Players.Player.ResetJumpStates | Clash/Domain/Player/Player.cs:353-361 | clears the jump commands, as `PlayerLogic.ResetJumpStates` |
| Players.Player.TryJumpInputs | Clash/Domain/Player/Player.cs:363-460 | returns whether an input fired and updates the fields, both as `PlayerLogic.TryJumpInputs` |
| Players.Player.PressJumpA | Clash/Domain/Player/Player.cs:397-412 | the JumpA block, as `PlayerLogic.PressJumpA` |
| Players.Player.PressJumpB | Clash/Domain/Player/Player.cs:414-429 | the JumpB block, as `PlayerLogic.PressJumpB` |
| Players.Player.PressShield | Clash/Domain/Player/Player.cs:431-442 | the shield block, as `PlayerLogic.PressShield` |
| Players.Player.Expire | Clash/Domain/Player/Player.cs:444-456 | the expiry block, as `PlayerLogic.Expire` |
| Players.Player.Idle | Clash/Domain/Player/Player.cs:468-470 | enters a fresh Idle state and changes nothing else |
| Players.Player.Walk | Clash/Domain/Player/Player.cs:473-480 | as `PlayerLogic.Walk` |
| Players.Player.Dash | Clash/Domain/Player/Player.cs:483-508 | as `PlayerLogic.Dash`, whose effect DashStarts, DashContinues and DashPush state |
| Players.Player.LimitGroundSpeed | Clash/Domain/Player/Player.cs:510-513 | as `PlayerLogic.LimitGroundSpeed` |
| Players.Player.Run | Clash/Domain/Player/Player.cs:515-523 | as `PlayerLogic.Run` |
| Players.Player.Pivot | Clash/Domain/Player/Player.cs:525-528 | as `PlayerLogic.Pivot` |
| Players.Player.Skid | Clash/Domain/Player/Player.cs:530-532 | as `PlayerLogic.Skid` |
| Players.Player.FullJump | Clash/Domain/Player/Player.cs:535-537 | as `PlayerLogic.FullJump` |
| Players.Player.ShortJump | Clash/Domain/Player/Player.cs:539-541 | as `PlayerLogic.ShortJump` |
| Players.Player.StartAirDodge | Clash/Domain/Player/Player.cs:543-555 | as `PlayerLogic.StartAirDodge` |
| Players.Player.AirDodge | Clash/Domain/Player/Player.cs:557-561 | as `PlayerLogic.AirDodge`: force plus the reversed dodge direction times AirDodgeDecay (AirDodgeDecays) |
| Players.Player.EndAirDodge | Clash/Domain/Player/Player.cs:563-566 | as `PlayerLogic.EndAirDodge` |
| Players.Player.WaveDash | Clash/Domain/Player/Player.cs:568-578 | as `PlayerLogic.WaveDash` |
| Players.Player.WaveLand | Clash/Domain/Player/Player.cs:580-583 | as `PlayerLogic.WaveLand` |
| Players.Player.Jump | Clash/Domain/Player/Player.cs:585-589 | as `PlayerLogic.Jump` |
| Players.Player.Drift | Clash/Domain/Player/Player.cs:591-593 | as `PlayerLogic.Drift` |
| Players.Player.Fall | Clash/Domain/Player/Player.cs:595-603 | as `PlayerLogic.Fall` |
| Players.Player.FastFall | Clash/Domain/Player/Player.cs:605-607 | as `PlayerLogic.FastFall` |
| Players.Player.Land | Clash/Domain/Player/Player.cs:609-612 | as `PlayerLogic.Land` |
| Players.Player.LimitAirSpeed | Clash/Domain/Player/Player.cs:614-617 | as `PlayerLogic.LimitAirSpeed` |

## Left out

- Floating point: `float` is modelled as `real`. Rounding, overflow and
  NaN are not modelled, except NaN stick speed at an unchanged timestamp.
- Square roots: `Hypot`, `Mag` and the stick speed are compared through
  their squares (`HypotAtMostIsExact` shows the comparison is the same).
- `Vec.Normalize`, the `+` and `*` operators and `Reverse` come from
  files that are not part of this model. Normalize is a parameter of
  `Tuning`. The others are taken component-wise.
- `Mathf.Sign` is not in Mathf.cs. It is modelled as `System.Math.Sign`
  (-1, 0 or 1).
- Config.cs does not define `GravityOn`, `GravityOff`, `AirDodgeDecay` or
  `WaveDashFrameWindow`, and the input `Config` that Stream.cs reads (dead
  zone, idle and tap speeds) is not part of this model. They are
  parameters: `Tuning`, the wavedash `window` and `Thresholds`. The
  minimum air-dodge frame count `Ceil(AirDodge / AirDodgeDecay)` is a
  `Tuning` parameter for the same reason.
- The physics engine, which integrates force and gravity into velocity
  between frames, is outside the core. Its results enter as parameters
  of `OnPreUpdate` and `OnPostSimulation`.
- `ISource` (the Unity input system) is replaced by a `Reading` value.
  It holds the stick axes and, per button, whether it went down, came up
  or is held this frame.
- `IStream` as read by the player and the wavedash recognizer is replaced
  by the current `Snapshot`. The buffered reads in `TryJumpInputs` are
  commented out in Player.cs.
- `Gesture`: recognizers are user code behind an interface. Their answers
  on a frame are a parameter of `Chain.OnUpdate`, and `Recognizer.Reset`
  has no effect. The chain is a list whose gesture i follows gesture i-1.
  `Chain.AddNext` appends at the tail; re-linking a gesture in the middle
  of a chain is not modelled.
- `StateName` and the `base(StateName.X)` calls in States.cs are left out.
  State.cs has no such constructor, and the name only labels log lines.
  `Pivot` carries the direction that Player.cs passes to it. `WaveLand`,
  which Player.cs builds, is not declared in States.cs and is modelled as a
  variant without fields.
- Logging (`Log.Debug` in `SwitchState`) and the `ToString` methods are
  left out.
- States.State.Advance: `Frame` is a C# `int`. Its wrap-around after 2^31
  frames is not modelled.
- Buffers.Buffer.Add: requires a buffer of at least one slot. In C# a
  buffer of size 0 throws on its first `Add` (a division by zero).
- EnumerableExt.To: requires both ends to be 32-bit values and the counter
  not to overflow past them. C# would wrap around when `to` is
  `int.MaxValue` (or `int.MinValue` going down) and never stop.
- `Config.AirDodgeFrames` is declared in Config.cs but read nowhere in
  Player.cs, so no air dodge ends by a frame count; `AirDodgeEnds` states
  the only exit the code has.
- Config.cs holds only constants. They are copied into `Config` and have
  no contracts.
- The older Unity copies under `Assets/` are not part of this model.

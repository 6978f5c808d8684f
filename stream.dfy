/**
  * Clash.Input.Stream: each OnUpdate classifies one raw reading and pushes
  * the resulting snapshot into a 10-slot Buffer.
  */
module Streams {
  import opened Vecs
  import opened Mathf
  import opened Directions
  import opened Analogs
  import Buttons
  import opened Snapshots
  import opened Buffers

  /** The input thresholds the classifier reads (DeadZone, IdleSpeed, TapSpeed). */
  datatype Thresholds = Thresholds(deadZone: real, idleSpeed: real, tapSpeed: real)

  /** The three polls ISource answers for one button on one frame. */
  datatype ButtonPoll = ButtonPoll(down: bool, up: bool, held: bool)

  /** One frame's reading from ISource: the two move axes and the four buttons. */
  datatype Reading = Reading(moveX: real, moveY: real,
                             jumpA: ButtonPoll, jumpB: ButtonPoll, shieldL: ButtonPoll, shieldR: ButtonPoll)

  /**
    * The stick speed |delta.Mag() / (time - prevTime)| as a float would hold
    * it: a finite value (carried by its square, since square roots are not
    * modelled), +infinity when a moved stick meets zero elapsed time, and NaN
    * when an unmoved one does (0 / 0).
    */
  datatype Speed = Finite(squared: real) | Infinite | NotANumber
  {
    /** speed < t */
    predicate Below(t: real) {
      Finite? && t > 0.0 && squared < t * t
    }

    /** speed >= t */
    predicate AtLeast(t: real) {
      Infinite? || (Finite? && (t <= 0.0 || squared >= t * t))
    }
  }

  /** A finite speed is either below a threshold or at least it; NaN is neither. */
  lemma SpeedComparisons(s: Speed, t: real)
    ensures s.Finite? ==> (s.Below(t) <==> !s.AtLeast(t))
    ensures s.NotANumber? ==> !s.Below(t) && !s.AtLeast(t)
    ensures s.Infinite? ==> !s.Below(t) && s.AtLeast(t)
  {
  }

  /** For a finite speed `v` (v >= 0, v * v == squared) the comparisons on squares are v's own. */
  lemma {:induction false} FiniteSpeedComparisonsAreExact(v: real, t: real)
    requires v >= 0.0
    ensures Finite(v * v).Below(t) <==> v < t
    ensures Finite(v * v).AtLeast(t) <==> v >= t
  {
    SquareNonNegative(v);
    if v < t {
      assert t > 0.0 && t - v > 0.0 && t + v > 0.0;
      ProductPositive(t - v, t + v);
      assert (t - v) * (t + v) == t * t - v * v;
      assert v * v < t * t;
      assert Finite(v * v).Below(t) && !Finite(v * v).AtLeast(t);
    } else if t > 0.0 {
      if v > t {
        assert v - t > 0.0 && v + t > 0.0;
        ProductPositive(v - t, v + t);
        assert (v - t) * (v + t) == v * v - t * t;
        assert v * v > t * t;
      } else {
        assert v == t;
        assert v * v == t * t;
      }
      assert !Finite(v * v).Below(t) && Finite(v * v).AtLeast(t);
    } else {
      assert !Finite(v * v).Below(t) && Finite(v * v).AtLeast(t);
    }
  }

  /** Step 1: a reading whose magnitude is within the dead zone is zeroed. */
  function Filter(raw: Vec, deadZone: real): (pos: Vec)
    ensures MagAtMost(raw, deadZone) ==> pos == Zero
    ensures !MagAtMost(raw, deadZone) ==> pos == raw
  {
    if MagAtMost(raw, deadZone) then Zero else raw
  }

  /** Step 2: the primary-axis direction; ties between the axes go to the vertical one. */
  function PrimaryDirection(pos: Vec): (d: Direction)
    ensures d in Named
    ensures d == Neutral <==> pos == Zero
    ensures d == Right <==> pos != Zero && Abs(pos.x) > Abs(pos.y) && pos.x > 0.0
    ensures d == Left <==> pos != Zero && Abs(pos.x) > Abs(pos.y) && pos.x < 0.0
    ensures d == Up <==> pos != Zero && Abs(pos.x) <= Abs(pos.y) && pos.y > 0.0
    ensures d == Down <==> pos != Zero && Abs(pos.x) <= Abs(pos.y) && pos.y < 0.0
  {
    if pos.x == 0.0 && pos.y == 0.0 then Neutral
    else if Abs(pos.x) > Abs(pos.y) then (if pos.x > 0.0 then Right else Left)
    else (if pos.y > 0.0 then Up else Down)
  }

  /** Step 3: the speed of the raw stick since the previous sample. */
  function StickSpeed(raw: Vec, prevRaw: Vec, time: real, prevTime: real): (s: Speed)
    ensures time != prevTime <==> s.Finite?
    ensures raw == prevRaw && time == prevTime ==> s.NotANumber?
  {
    var moved := MagSquared(Sub(raw, prevRaw));
    var elapsed := time - prevTime;
    if elapsed != 0.0 then Finite(moved / (elapsed * elapsed))
    else if moved == 0.0 then NotANumber
    else Infinite
  }

  /** Step 4: the filtered deflection along the primary axis. */
  function PrimaryMagnitude(pos: Vec, direction: Direction): (mag: real)
    ensures mag >= 0.0
    ensures mag == Abs(pos.x) || mag == Abs(pos.y)
  {
    Abs(if IsHorizontal(direction) then pos.x else pos.y)
  }

  /** Along the primary direction the magnitude is the larger of |x| and |y|, and 0 at the origin. */
  lemma PrimaryMagnitudeIsLarger(pos: Vec)
    ensures PrimaryMagnitude(pos, PrimaryDirection(pos)) == (if Abs(pos.x) > Abs(pos.y) then Abs(pos.x) else Abs(pos.y))
    ensures pos == Zero ==> PrimaryMagnitude(pos, PrimaryDirection(pos)) == 0.0
  {
  }

  /** Previous states from which a held direction stays Active. */
  predicate Engaged(s: StateA) {
    s == Active || s == Switch || s == SwitchTap
  }

  /**
    * Step 5: the stick-state decision table over the previous state and
    * direction, the new direction, the speed and the primary magnitude.
    */
  function ClassifyState(prev: StateA, prevDir: Direction, dir: Direction, speed: Speed, mag: real, k: Thresholds): (r: StateA)
    ensures r == Idle <==> IsNeutral(dir) && (prev == Idle || speed.Below(k.idleSpeed))
    ensures r == Active <==> !IsNeutral(dir) && dir == prevDir && Engaged(prev)
    ensures r == SwitchTap <==>
      !IsNeutral(dir) && !(dir == prevDir && Engaged(prev)) && speed.AtLeast(k.tapSpeed) && mag == 1.0
    ensures r == Switch <==>
      && !IsNeutral(dir)
      && !(speed.AtLeast(k.tapSpeed) && mag == 1.0)
      && (if dir == prevDir then !Engaged(prev) && speed.Below(k.tapSpeed) else !speed.AtLeast(k.tapSpeed))
    ensures r == Unknown <==>
      || (IsNeutral(dir) && prev != Idle && !speed.Below(k.idleSpeed))
      || (!IsNeutral(dir) && dir == prevDir && !Engaged(prev) && !(speed.AtLeast(k.tapSpeed) && mag == 1.0)
          && !speed.Below(k.tapSpeed))
      || (dir != prevDir && !IsNeutral(dir) && speed.AtLeast(k.tapSpeed) && mag != 1.0)
  {
    if IsNeutral(dir) then
      (if prev == Idle || speed.Below(k.idleSpeed) then Idle else Unknown)
    else if dir == prevDir then
      (if Engaged(prev) then Active
       else if speed.AtLeast(k.tapSpeed) && mag == 1.0 then SwitchTap
       else if speed.Below(k.tapSpeed) then Switch
       else Unknown)
    else
      (if speed.AtLeast(k.tapSpeed) && mag == 1.0 then SwitchTap
       else if speed.AtLeast(k.tapSpeed) then Unknown
       else Switch)
  }

  /** CaptureMove: classify the raw stick reading against the previous snapshot. */
  function CaptureMove(prev: Snapshot, raw: Vec, time: real, k: Thresholds): (a: Analog)
    ensures a.rawPosition == raw
    ensures MagAtMost(raw, k.deadZone) ==> a.position == Zero && a.direction == Neutral
    ensures !MagAtMost(raw, k.deadZone) ==> a.position == raw
    ensures a.direction == Neutral <==> a.position == Zero
    ensures a.direction == Neutral ==> a.state in {Idle, Unknown}
  {
    var pos := Filter(raw, k.deadZone);
    var direction := PrimaryDirection(pos);
    var speed := StickSpeed(raw, prev.move.rawPosition, time, prev.time);
    var mag := PrimaryMagnitude(pos, direction);
    Analog(ClassifyState(prev.move.state, prev.move.direction, direction, speed, mag, k), direction, pos, raw)
  }

  /** CaptureButton: Down beats Up, and both beat the held state. */
  function CaptureButton(poll: ButtonPoll): (b: Buttons.Button)
    ensures b.state == Buttons.Down <==> poll.down
    ensures b.state == Buttons.Up <==> !poll.down && poll.up
    ensures b.state == Buttons.Active <==> !poll.down && !poll.up && poll.held
    ensures b.state == Buttons.Inactive <==> !poll.down && !poll.up && !poll.held
  {
    if poll.down then Buttons.Button(Buttons.Down)
    else if poll.up then Buttons.Button(Buttons.Up)
    else if poll.held then Buttons.Button(Buttons.Active)
    else Buttons.Button(Buttons.Inactive)
  }

  /** CaptureSnapshot: the whole frame, stamped with `time`. */
  function CaptureSnapshot(prev: Snapshot, reading: Reading, time: real, k: Thresholds): (s: Snapshot)
    ensures s.time == time
    ensures s.move.rawPosition == Vec(reading.moveX, reading.moveY)
    ensures s.jumpA.IsDown() == reading.jumpA.down && s.jumpB.IsDown() == reading.jumpB.down
    ensures s.shieldL.IsDown() == reading.shieldL.down && s.shieldR.IsDown() == reading.shieldR.down
  {
    Snapshot(
      CaptureMove(prev, Vec(reading.moveX, reading.moveY), time, k),
      CaptureButton(reading.jumpA),
      CaptureButton(reading.jumpB),
      CaptureButton(reading.shieldL),
      CaptureButton(reading.shieldR),
      time)
  }

  /**
    * A NaN speed (no time elapsed and no stick motion) fails both comparisons:
    * a held direction that was not engaged becomes Unknown, a changed one Switch.
    */
  lemma NaNSpeedClassification(prev: StateA, prevDir: Direction, dir: Direction, mag: real, k: Thresholds)
    requires !IsNeutral(dir)
    ensures ClassifyState(prev, prevDir, dir, NotANumber, mag, k) ==
      (if dir == prevDir && Engaged(prev) then Active else if dir == prevDir then Unknown else Switch)
  {
  }

  /**
    * The first update of a fresh stream, at time 0 like the default snapshot:
    * a reading inside the dead zone is filtered to Neutral at the origin, keeps
    * its raw position and, the previous stick being Idle, stays Idle.
    */
  lemma DeadZoneOnFreshStream(raw: Vec, k: Thresholds)
    requires MagAtMost(raw, k.deadZone)
    ensures var a := CaptureMove(Snapshots.Default, raw, 0.0, k);
      a.position == Zero && a.rawPosition == raw && a.direction == Neutral && a.state == Idle
  {
  }

  /** The number of snapshots a Stream keeps. */
  const Capacity: nat := 10

  class Stream {
    const k: Thresholds
    const buffer: Buffer

    ghost predicate Valid()
      reads this, buffer, buffer.queue
    {
      buffer.Valid() && buffer.queue.Length == Capacity
    }

    /** The kept snapshots, newest first. */
    ghost function History(): (h: seq<Snapshot>)
      reads this, buffer, buffer.queue
      requires Valid()
      ensures |h| == Capacity
    {
      buffer.Contents()
    }

    /** A 10-slot buffer holding `initial` at offset 0 and default snapshots behind it. */
    constructor (k: Thresholds, initial: Snapshot := Snapshots.Default)
      ensures Valid() && fresh(buffer) && fresh(buffer.queue) && this.k == k
      ensures History()[0] == initial
      ensures forall i :: 0 < i < Capacity ==> History()[i] == Snapshots.Default
    {
      this.k := k;
      buffer := new Buffer(Capacity);
      new;
      buffer.Add(initial);
    }

    /** Get(offset): the offset-th newest snapshot; offsets from 10 on are out of range. */
    function Get(offset: nat): (r: Lookup)
      reads this, buffer, buffer.queue
      requires Valid()
      ensures offset >= Capacity <==> r == OutOfRange
      ensures offset < Capacity ==> r == Found(History()[offset])
    {
      buffer.Get(offset)
    }

    /** GetCurrent(): Get(0), which is always in range. */
    function GetCurrent(): (s: Snapshot)
      reads this, buffer, buffer.queue
      requires Valid()
      ensures s == History()[0]
    {
      Get(0).snapshot
    }

    /** OnUpdate(time): classify `reading` and push exactly one snapshot stamped `time`. */
    method OnUpdate(time: real, reading: Reading)
      requires Valid()
      modifies buffer, buffer.queue
      ensures Valid()
      ensures History() == Pushed(old(History()), CaptureSnapshot(old(GetCurrent()), reading, time, k))
      ensures GetCurrent().time == time
      ensures forall i :: 0 <= i < Capacity - 1 ==> History()[i + 1] == old(History()[i])
    {
      buffer.Add(CaptureSnapshot(GetCurrent(), reading, time, k));
    }
  }
}

/**
  * Clash.Input.Direction: a [Flags]-style enum. Neutral is bit 0, so the
  * default value 0 is a distinct value that is not Neutral.
  */
module Directions {

  type Direction = bv8

  const Neutral: Direction := 1
  const Up: Direction := 2
  const Down: Direction := 4
  const Left: Direction := 8
  const Right: Direction := 16
  const Vertical: Direction := Up | Down
  const Horizontal: Direction := Left | Right

  /** Intersects: the two masks share a bit. */
  predicate Intersects(direction: Direction, other: Direction) {
    direction & other != 0
  }

  lemma IntersectsSymmetric(d: Direction, e: Direction)
    ensures Intersects(d, e) <==> Intersects(e, d)
  {
  }

  /** The five values a stick reading is classified into. */
  const Named: set<Direction> := {Neutral, Up, Down, Left, Right}

  predicate IsSingleBit(d: Direction) {
    d != 0 && d & (d - 1) == 0
  }

  /** Invert: Up and Down swap, Left and Right swap, everything else is kept. */
  function Invert(direction: Direction): (r: Direction)
    ensures direction in {Up, Down, Left, Right} <==> r in {Up, Down, Left, Right}
    ensures direction !in {Up, Down, Left, Right} ==> r == direction
    ensures r != direction <==> direction in {Up, Down, Left, Right}
    ensures Intersects(r, Horizontal) <==> Intersects(direction, Horizontal)
  {
    if direction == Up then Down
    else if direction == Down then Up
    else if direction == Left then Right
    else if direction == Right then Left
    else direction
  }

  predicate IsNeutral(direction: Direction) {
    direction == Neutral
  }

  predicate IsLeft(direction: Direction) {
    direction == Left
  }

  predicate IsRight(direction: Direction) {
    direction == Right
  }

  /** IsHorizontal: shares a bit with Left | Right. */
  predicate IsHorizontal(direction: Direction)
    ensures IsHorizontal(direction) <==> direction & 0x18 != 0
  {
    Intersects(direction, Horizontal)
  }

  /** Inverting twice gives back the original direction. */
  lemma InvertInvolutive(d: Direction)
    ensures Invert(Invert(d)) == d
  {
  }

  /** The five named directions are distinct single bits; Neutral is in neither axis group. */
  lemma NamedDirectionsAreBits()
    ensures forall d :: d in Named ==> IsSingleBit(d)
    ensures forall d, e :: d in Named && e in Named && d != e ==> !Intersects(d, e)
    ensures !Intersects(Neutral, Horizontal) && !Intersects(Neutral, Vertical)
    ensures !Intersects(Horizontal, Vertical)
  {
  }

  /** The equality tests are exact: Horizontal is neither left nor right, 0 is not neutral. */
  lemma EqualityTestsAreExact()
    ensures !IsLeft(Horizontal) && !IsRight(Horizontal) && IsHorizontal(Horizontal)
    ensures !IsNeutral(0) && !IsHorizontal(0) && Invert(0) == 0
    ensures IsHorizontal(Left) && IsHorizontal(Right) && !IsHorizontal(Up) && !IsHorizontal(Down)
  {
  }
}

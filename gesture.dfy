/**
  * Clash.Input.Gesture: a chain of recognizers. Gesture i of the chain has
  * gesture i - 1 as `prev` and gesture i + 1 as `next`; the chain is held as
  * parallel sequences of each gesture's State and IsRecognized. What the i-th
  * recognizer's OnInput answers on a frame is given as results[i].
  */
module Gestures {

  datatype StateG = Possible | Pending | Satisfied | Failed

  /** IsBlocked(): prev is Pending or Satisfied, or prev is itself blocked. */
  predicate IsBlocked(states: seq<StateG>, i: nat)
    requires i < |states|
    decreases i
  {
    i > 0 && (states[i - 1] == Pending || states[i - 1] == Satisfied || IsBlocked(states, i - 1))
  }

  /** The recursive test is "some earlier gesture is Pending or Satisfied". */
  lemma {:induction false} BlockedIffEarlierHolds(states: seq<StateG>, i: nat)
    requires i < |states|
    ensures IsBlocked(states, i) <==> exists j :: 0 <= j < i && states[j] in {Pending, Satisfied}
  {
    if i > 0 {
      BlockedIffEarlierHolds(states, i - 1);
      if states[i - 1] in {Pending, Satisfied} {
        assert exists j :: 0 <= j < i && states[j] in {Pending, Satisfied};
      }
    }
  }

  /** Blocking reads only the gestures before i. */
  lemma {:induction false} BlockedReadsOnlyEarlier(s: seq<StateG>, t: seq<StateG>, i: nat)
    requires i < |s| && i < |t| && s[..i] == t[..i]
    ensures IsBlocked(s, i) == IsBlocked(t, i)
  {
    if i > 0 {
      assert s[i - 1] == s[..i][i - 1] == t[..i][i - 1] == t[i - 1];
      assert s[..i - 1] == s[..i][..i - 1];
      assert t[..i - 1] == t[..i][..i - 1];
      BlockedReadsOnlyEarlier(s, t, i - 1);
    }
  }

  /** The head of a chain has no prev and is never blocked. */
  lemma HeadNeverBlocked(states: seq<StateG>)
    requires |states| > 0
    ensures !IsBlocked(states, 0)
  {
  }

  /** InvalidateRecognition(): Satisfied and not blocked. */
  predicate Recognition(states: seq<StateG>, i: nat)
    requires i < |states|
  {
    states[i] == Satisfied && !IsBlocked(states, i)
  }

  /** A gesture's State after an update: the recognizer's answer if it was still open, unchanged otherwise. */
  function Advance(state: StateG, result: StateG): (r: StateG)
    ensures state in {Satisfied, Failed} ==> r == state
    ensures state in {Possible, Pending} ==> r == result
  {
    if state == Possible || state == Pending then result else state
  }

  /** Every gesture from i on advanced by its recognizer's answer; those before i untouched. */
  function AdvancedFrom(states: seq<StateG>, results: seq<StateG>, i: nat): (r: seq<StateG>)
    requires |results| == |states|
    ensures |r| == |states|
    ensures forall j :: 0 <= j < |r| ==> r[j] == if j < i then states[j] else Advance(states[j], results[j])
  {
    seq(|states|, j requires 0 <= j < |states| => if j < i then states[j] else Advance(states[j], results[j]))
  }

  /** At most one gesture of a chain is recognized at a time. */
  lemma {:induction false} AtMostOneRecognized(states: seq<StateG>, i: nat, j: nat)
    requires i < j < |states|
    ensures !(Recognition(states, i) && Recognition(states, j))
  {
    if Recognition(states, i) {
      BlockedIffEarlierHolds(states, j);
      assert states[i] in {Pending, Satisfied};
    }
  }

  class Chain {
    var states: seq<StateG>
    var recognized: seq<bool>

    ghost predicate Valid()
      reads this
    {
      |states| == |recognized| > 0
    }

    /** A chain of one new gesture: Possible and not recognized. */
    constructor ()
      ensures Valid() && states == [Possible] && recognized == [false]
    {
      states := [Possible];
      recognized := [false];
    }

    /** AddNext on the last gesture: links a new gesture (Possible, not recognized) after it. */
    method AddNext()
      requires Valid()
      modifies this
      ensures Valid()
      ensures states == old(states) + [Possible] && recognized == old(recognized) + [false]
    {
      states := states + [Possible];
      recognized := recognized + [false];
    }

    /** Reset(): gesture i and every later one go back to Possible; IsRecognized is not touched. */
    method Reset(i: nat)
      requires Valid() && i < |states|
      modifies this
      decreases |states| - i
      ensures Valid() && recognized == old(recognized) && |states| == |old(states)|
      ensures forall j :: 0 <= j < |states| ==> states[j] == if j < i then old(states[j]) else Possible
    {
      states := states[i := Possible];
      if i + 1 < |states| {
        Reset(i + 1);
      }
    }

    /** InvalidateRecognition() of gesture i. */
    method InvalidateRecognition(i: nat)
      requires Valid() && i < |states|
      modifies this`recognized
      ensures Valid() && recognized == old(recognized)[i := Recognition(states, i)]
    {
      recognized := recognized[i := states[i] == Satisfied && !IsBlocked(states, i)];
    }

    /**
      * OnUpdate() of gesture i: re-derive recognition, run the recognizer
      * only while Possible or Pending, re-derive again, then always update
      * the next gesture.
      */
    method OnUpdate(i: nat, results: seq<StateG>)
      requires Valid() && i < |states| && |results| == |states|
      modifies this
      decreases |states| - i
      ensures Valid() && states == AdvancedFrom(old(states), results, i)
      ensures forall j :: 0 <= j < |states| ==>
        recognized[j] == if j < i then old(recognized[j]) else Recognition(states, j)
      ensures i == 0 ==> forall j, l :: 0 <= j < l < |recognized| ==> !(recognized[j] && recognized[l])
    {
      InvalidateRecognition(i);
      if states[i] == Possible || states[i] == Pending {
        states := states[i := results[i]];
        InvalidateRecognition(i);
      }
      ghost var mid := states;
      if i + 1 < |states| {
        OnUpdate(i + 1, results);
        BlockedReadsOnlyEarlier(mid, states, i);
        assert mid[i] == states[i];
      }
      assert states == AdvancedFrom(old(states), results, i);
      if i == 0 {
        forall j, l | 0 <= j < l < |recognized|
          ensures !(recognized[j] && recognized[l])
        {
          AtMostOneRecognized(states, j, l);
        }
      }
    }
  }

  /**
    * A Satisfied gesture behind a Pending one becomes recognized on the update
    * where the Pending one fails, without its own recognizer answering again.
    */
  lemma SatisfiedRecognizedWhenPrevFails(answer: StateG)
    ensures var before := [Pending, Satisfied];
            var after := AdvancedFrom(before, [Failed, answer], 0);
            !Recognition(before, 1) && after == [Failed, Satisfied] && Recognition(after, 1)
  {
    var after := AdvancedFrom([Pending, Satisfied], [Failed, answer], 0);
    assert after == [Failed, Satisfied];
  }
}

/**
  * Clash.Input.Buffer: a fixed-size ring of the last n snapshots, addressed
  * newest-first. Slots never written hold the default snapshot.
  */
module Buffers {
  import opened Snapshots

  /** The indexer's outcome: a snapshot, or the IndexOutOfRangeException it throws. */
  datatype Lookup = Found(snapshot: Snapshot) | OutOfRange

  /** The ring after one Add: `s` at offset 0, everything else one offset older, the oldest gone. */
  function Pushed(view: seq<Snapshot>, s: Snapshot): (r: seq<Snapshot>)
    requires |view| > 0
    ensures |r| == |view| && r[0] == s
    ensures forall k :: 0 < k < |r| ==> r[k] == view[k - 1]
  {
    [s] + view[..|view| - 1]
  }

  /** A ring of size n that started empty and then received `adds`, oldest first. */
  function AfterAdds(n: nat, adds: seq<Snapshot>): (r: seq<Snapshot>)
    requires n > 0
    ensures |r| == n
  {
    if adds == [] then seq(n, _ => Default)
    else Pushed(AfterAdds(n, adds[..|adds| - 1]), adds[|adds| - 1])
  }

  /**
    * Offset k holds the (k+1)-th most recent add while there is one, and the
    * default snapshot otherwise: older adds have been overwritten.
    */
  lemma {:induction false} AfterAddsNewestFirst(n: nat, adds: seq<Snapshot>, k: nat)
    requires n > 0 && k < n
    ensures AfterAdds(n, adds)[k] == if k < |adds| then adds[|adds| - 1 - k] else Default
  {
    if adds != [] && k > 0 {
      AfterAddsNewestFirst(n, adds[..|adds| - 1], k - 1);
    }
  }

  /** The ring `queue` with newest slot `head`, read newest-first. */
  function View(queue: seq<Snapshot>, head: int): (r: seq<Snapshot>)
    requires -1 <= head < |queue|
    ensures |r| == |queue|
    ensures forall k :: 0 <= k < |queue| ==> r[k] == queue[Slot(head, k, |queue|)]
  {
    seq(|queue|, k requires 0 <= k < |queue| => queue[Slot(head, k, |queue|)])
  }

  /** Writing `s` one slot past head and moving head there pushes `s` onto the view. */
  lemma ViewAfterWrite(queue: seq<Snapshot>, head: int, s: Snapshot)
    requires 0 < |queue| && -1 <= head < |queue|
    ensures var next := Slot(head, -1, |queue|);
      View(queue[next := s], next) == Pushed(View(queue, head), s)
  {
    var n := |queue|;
    var next := Slot(head, -1, n);
    var after := View(queue[next := s], next);
    var pushed := Pushed(View(queue, head), s);
    forall k | 0 <= k < n
      ensures after[k] == pushed[k]
    {
      if k > 0 {
        SlotStep(head, k, n);
      }
    }
  }

  class Buffer {
    const queue: array<Snapshot>
    var head: int

    ghost predicate Valid()
      reads this
    {
      -1 <= head < queue.Length
    }

    /** The ring read newest-first: Contents()[k] is what `this[k]` returns. */
    ghost function Contents(): (r: seq<Snapshot>)
      reads this, queue
      requires Valid()
      ensures |r| == queue.Length
    {
      View(queue[..], head)
    }

    /** An empty ring of `size` default snapshots; head starts at -1. */
    constructor (size: nat)
      ensures Valid() && fresh(queue)
      ensures queue.Length == size && head == -1
      ensures Contents() == seq(size, _ => Default)
    {
      queue := new Snapshot[size](_ => Default);
      head := -1;
    }

    /**
      * Advances head by one slot and writes `snapshot` there. A zero-size
      * ring is excluded: the source's `% queue.Length` throws on it.
      */
    method Add(snapshot: Snapshot)
      requires Valid() && queue.Length > 0
      modifies this`head, queue
      ensures Valid()
      ensures 0 <= head < queue.Length && head == (old(head) + 1) % queue.Length
      ensures queue[head] == snapshot
      ensures forall i :: 0 <= i < queue.Length && i != head ==> queue[i] == old(queue[i])
      ensures Contents() == Pushed(old(Contents()), snapshot)
    {
      ghost var oldQueue, oldHead := queue[..], head;
      ModInRange(oldHead + 1, queue.Length);
      head := GetIndex(-1);
      assert head == (oldHead + 1) % queue.Length;
      queue[head] := snapshot;
      assert queue[..] == oldQueue[head := snapshot];
      ViewAfterWrite(oldQueue, oldHead, snapshot);
    }

    /** this[offset]: the offset-th newest snapshot, or out of range when offset >= size. */
    function Get(offset: nat): (r: Lookup)
      reads this, queue
      requires Valid()
      ensures offset >= queue.Length <==> r == OutOfRange
      ensures offset < queue.Length ==> r == Found(Contents()[offset])
    {
      if offset >= queue.Length then OutOfRange
      else Found(queue[GetIndex(offset)])
    }

    /** ((head - offset) + n) % n: the slot `offset` places behind head, going round the ring. */
    function GetIndex(offset: int): (i: int)
      reads this, queue
      requires 0 < queue.Length && -1 <= head < queue.Length
      requires -1 <= offset < queue.Length
      ensures i == Slot(head, offset, queue.Length)
    {
      ModInRange(head - offset + queue.Length, queue.Length);
      ((head - offset) + queue.Length) % queue.Length
    }
  }

  /** The slot `offset` places behind `head` on a ring of n slots, without `%`. */
  function Slot(head: int, offset: int, n: int): (i: int)
    requires 0 < n && -1 <= head < n && -1 <= offset < n
    ensures 0 <= i < n
  {
    if head - offset < 0 then head - offset + n
    else if head - offset >= n then head - offset - n
    else head - offset
  }

  /** After head moves on by one, offset k lands where offset k - 1 was, never on the new head. */
  lemma SlotStep(oldHead: int, k: int, n: int)
    requires 0 < n && -1 <= oldHead < n && 0 < k < n
    ensures Slot(Slot(oldHead, -1, n), k, n) == Slot(oldHead, k - 1, n) != Slot(oldHead, -1, n)
  {
  }

  /** On [0, 2n] the remainder by n subtracts n at most twice. */
  lemma ModInRange(x: int, n: int)
    requires 0 < n && 0 <= x <= 2 * n
    ensures x % n == if x < n then x else if x < 2 * n then x - n else 0
  {
    if x == 2 * n {
      assert x == 2 * n + 0;
    } else if x >= n {
      assert x == n + (x - n);
    }
  }
}

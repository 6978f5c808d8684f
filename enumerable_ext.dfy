/** Clash.Ext.EnumerableExt: the inclusive integer range `from.To(to)`. */
module EnumerableExt {

  const MinInt32: int := -0x8000_0000
  const MaxInt32: int := 0x7fff_ffff

  predicate IsInt32(n: int) {
    MinInt32 <= n <= MaxInt32
  }

  /**
    * Counts from `from` to `to` inclusive, upwards when from < to and
    * downwards otherwise. The source's `from++` / `from--` on a 32-bit int
    * never passes an end point at the int limits, so those end points are
    * excluded.
    */
  method To(from: int, to: int) returns (r: seq<int>)
    requires IsInt32(from) && IsInt32(to)
    requires from < to ==> to < MaxInt32
    requires from >= to ==> to > MinInt32
    ensures |r| == (if from < to then to - from else from - to) + 1
    ensures forall i :: 0 <= i < |r| ==> r[i] == (if from < to then from + i else from - i)
    ensures r[0] == from && r[|r| - 1] == to
  {
    var n := from;
    r := [];
    if from < to {
      while n <= to
        invariant from <= n <= to + 1
        invariant |r| == n - from
        invariant forall i :: 0 <= i < |r| ==> r[i] == from + i
      {
        r := r + [n];
        n := n + 1;
      }
    } else {
      while n >= to
        invariant to - 1 <= n <= from
        invariant |r| == from - n
        invariant forall i :: 0 <= i < |r| ==> r[i] == from - i
      {
        r := r + [n];
        n := n - 1;
      }
    }
  }
}

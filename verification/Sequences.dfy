/** Sequences and arrays: what several modules share. */
module Sequences {

  lemma Regroup<T>(x: seq<T>, y: seq<T>, z: seq<T>)
    ensures x + (y + z) == x + y + z
  {
  }

  /** The positions from `from` to `to`, without `to`. */
  function Range(from: nat, to: nat): (r: seq<nat>)
    ensures |r| == if from <= to then to - from else 0
    ensures forall i :: 0 <= i < |r| ==> r[i] == from + i
  {
    if from <= to then seq(to - from, i requires 0 <= i => from + i) else []
  }

  /** Moves the first `k` cells from `insertPos` on down by one, where the last is lost, and stores the new one. */
  method ShiftIn<T>(a: array<T>, k: nat, insertPos: nat, x: T)
    requires insertPos < k <= a.Length
    modifies a
    ensures a[insertPos] == x
    ensures forall i :: 0 <= i < insertPos ==> a[i] == old(a[i])
    ensures forall i :: insertPos < i < k ==> a[i] == old(a[i-1])
    ensures a[k..] == old(a[k..])
  {
    var j := k - 1;
    while j > insertPos
      invariant insertPos <= j < k
      invariant forall i :: 0 <= i <= j ==> a[i] == old(a[i])
      invariant forall i :: j < i < k ==> a[i] == old(a[i-1])
      invariant forall i :: k <= i < a.Length ==> a[i] == old(a[i])
    {
      a[j] := a[j-1];
      j := j - 1;
    }
    a[insertPos] := x;
  }
}

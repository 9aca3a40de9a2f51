/**
 `OnlineSoftmaxAccumulator`: the running softmax state of all heads and value coordinates,
 overwritten partition by partition.
 */
module Accumulator {
  import opened Sums
  import opened Softmax

  type Vector = seq<real>
  type Matrix = seq<Vector>      // [heads][dim], one token's keys or values

  predicate Shape(x: Matrix, rows: nat, columns: nat) {
    |x| == rows && forall i :: 0 <= i < rows ==> |x[i]| == columns
  }

  /** A [heads][tokens] matrix of logits against a [tokens][heads][dim] tensor of values. */
  predicate Aligned(logits: Matrix, values: seq<Matrix>, heads: nat, dim: nat) {
    && Shape(logits, heads, |values|)
    && forall t :: 0 <= t < |values| ==> Shape(values[t], heads, dim)
  }

  /** What head `h` and value coordinate `d` see of a partition. */
  function Column(logits: Matrix, values: seq<Matrix>, h: nat, d: nat): (ts: seq<Token>)
    requires h < |logits| && |logits[h]| == |values|
    requires forall t :: 0 <= t < |values| ==> h < |values[t]| && d < |values[t][h]|
    ensures |ts| == |values|
  {
    seq(|values|, t requires 0 <= t < |values| => Token(logits[h][t], values[t][h][d]))
  }

  function Id(x: real): real { x }

  /** The greatest entry of a row. */
  function RowMax(xs: Vector): real
    requires xs != []
  {
    if |xs| == 1 then xs[0] else Max(xs[0], RowMax(xs[1..]))
  }

  function ExpRow(exp: real -> real, xs: Vector, m: real): Vector {
    seq(|xs|, t requires 0 <= t < |xs| => exp(xs[t] - m))
  }

  function Coordinate(values: seq<Matrix>, h: nat, d: nat): Vector
    requires forall t :: 0 <= t < |values| ==> h < |values[t]| && d < |values[t][h]|
  {
    seq(|values|, t requires 0 <= t < |values| => values[t][h][d])
  }

  lemma {:induction false} RowMaxIsPartMax(xs: Vector, ts: seq<Token>)
    requires |xs| == |ts| > 0
    requires forall t :: 0 <= t < |ts| ==> xs[t] == ts[t].logit
    ensures RowMax(xs) == PartMax(ts)
  {
    if |xs| > 1 {
      RowMaxIsPartMax(xs[1..], ts[1..]);
      MaxLogitFloor(ts[1].logit, ts[0].logit, ts[2..]);
      MaxLogitFloor(ts[0].logit, ts[1].logit, ts[2..]);
      assert ts[1..][1..] == ts[2..];
      assert Max(ts[1].logit, ts[0].logit) == Max(ts[0].logit, ts[1].logit);
    }
  }

  lemma {:induction false} RowSumIsMass(exp: real -> real, xs: Vector, m: real, ts: seq<Token>)
    requires |xs| == |ts|
    requires forall t :: 0 <= t < |ts| ==> xs[t] == ts[t].logit
    ensures Sum(Id, ExpRow(exp, xs, m)) == Mass(exp, ts, m)
  {
    if xs != [] {
      RowSumIsMass(exp, xs[1..], m, ts[1..]);
      assert ExpRow(exp, xs, m)[1..] == ExpRow(exp, xs[1..], m);
    }
  }

  lemma {:induction false} DotIsMoment(exp: real -> real, xs: Vector, v: Vector, m: real, ts: seq<Token>)
    requires |xs| == |v| == |ts|
    requires forall t :: 0 <= t < |ts| ==> xs[t] == ts[t].logit && v[t] == ts[t].value
    ensures Dot(ExpRow(exp, xs, m), v) == Moment(exp, ts, m)
  {
    if xs != [] {
      DotIsMoment(exp, xs[1..], v[1..], m, ts[1..]);
      assert ExpRow(exp, xs, m)[1..] == ExpRow(exp, xs[1..], m);
    }
  }

  // The vectorized steps of one update, each over all heads.

  function NewMax(m: Vector, logits: Matrix): (r: Vector)
    requires |m| == |logits| && forall h :: 0 <= h < |logits| ==> logits[h] != []
    ensures |r| == |m|
  {
    seq(|m|, h requires 0 <= h < |m| => Max(m[h], RowMax(logits[h])))
  }

  function NewMass(exp: real -> real, m: Vector, l: Vector, mNew: Vector, logits: Matrix): (r: Vector)
    requires |m| == |l| == |mNew| == |logits|
    ensures |r| == |m|
  {
    seq(|m|, h requires 0 <= h < |m| =>
      Rescaled(l[h], exp(m[h] - mNew[h])) + Sum(Id, ExpRow(exp, logits[h], mNew[h])))
  }

  function NewContext(exp: real -> real, m: Vector, acc: Matrix, mNew: Vector, logits: Matrix, values: seq<Matrix>,
                      dim: nat): (r: Matrix)
    requires |m| == |mNew| && Aligned(logits, values, |m|, dim) && Shape(acc, |m|, dim)
    ensures Shape(r, |m|, dim)
  {
    seq(|m|, h requires 0 <= h < |m| =>
      seq(dim, d requires 0 <= d < dim =>
        Rescaled(acc[h][d], exp(m[h] - mNew[h])) + Dot(ExpRow(exp, logits[h], mNew[h]), Coordinate(values, h, d))))
  }

  /** The vectorized arithmetic, at one head and coordinate, is `Update`. */
  lemma VectorUpdate(exp: real -> real, m: Vector, l: Vector, acc: Matrix, logits: Matrix, values: seq<Matrix>,
                     dim: nat, h: nat, d: nat)
    requires |m| == |l| && Aligned(logits, values, |m|, dim) && Shape(acc, |m|, dim)
    requires values != [] && h < |m| && d < dim
    ensures var mNew := NewMax(m, logits);
      Update(exp, Partial(m[h], l[h], acc[h][d]), Column(logits, values, h, d))
      == Partial(mNew[h], NewMass(exp, m, l, mNew, logits)[h], NewContext(exp, m, acc, mNew, logits, values, dim)[h][d])
  {
    var mNew := NewMax(m, logits);
    var ts := Column(logits, values, h, d);
    RowMaxIsPartMax(logits[h], ts);
    RowSumIsMass(exp, logits[h], mNew[h], ts);
    DotIsMoment(exp, logits[h], Coordinate(values, h, d), mNew[h], ts);
  }

  class OnlineSoftmaxAccumulator {
    const exp: real -> real
    const heads: nat
    const dim: nat
    var m: Vector        // [heads]
    var l: Vector        // [heads]
    var acc: Matrix      // [heads][dim]

    predicate Valid()
      reads this
    {
      |m| == heads && |l| == heads && Shape(acc, heads, dim)
    }

    /** The running triple of one head and one value coordinate. */
    function At(h: nat, d: nat): Partial
      requires Valid() && h < heads && d < dim
      reads this
    {
      Partial(m[h], l[h], acc[h][d])
    }

    constructor (exp: real -> real, heads: nat, dim: nat)
      ensures Valid() && this.exp == exp && this.heads == heads && this.dim == dim
      ensures forall h: nat, d: nat | h < heads && d < dim :: At(h, d) == INITIAL
    {
      this.exp, this.heads, this.dim := exp, heads, dim;
      m := seq(heads, h => MIN_LOGIT);
      l := seq(heads, h => 0.0);
      acc := seq(heads, h => seq(dim, d => 0.0));
    }

    /** Merges a partition: every head and coordinate advances by `Update`. */
    method UpdateWithPartition(logits: Matrix, values: seq<Matrix>)
      requires Valid()
      requires Aligned(logits, values, heads, dim)
      modifies this
      ensures Valid()
      ensures forall h: nat, d: nat | h < heads && d < dim ::
        At(h, d) == Update(exp, old(At(h, d)), Column(logits, values, h, d))
    {
      if |values| == 0 { return; }
      forall h: nat, d: nat | h < heads && d < dim {
        VectorUpdate(exp, m, l, acc, logits, values, dim, h, d);
      }
      var mNew := NewMax(m, logits);
      acc := NewContext(exp, m, acc, mNew, logits, values, dim);
      l := NewMass(exp, m, l, mNew, logits);
      m := mNew;
    }

    /** The normalized context vector [heads][dim]. */
    method FinalizeContext() returns (context: Matrix)
      requires Valid()
      ensures Shape(context, heads, dim)
      ensures forall h: nat, d: nat | h < heads && d < dim :: context[h][d] == Finalize(At(h, d))
    {
      context := seq(heads, h requires 0 <= h < heads reads this requires Valid() =>
        seq(dim, d requires 0 <= d < dim reads this requires Valid() => Finalize(At(h, d))));
    }
  }
}

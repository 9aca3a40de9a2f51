/** Dense attention, written out over queries, keys and values: what the decode step must agree with. */
module DenseReference {
  import opened Sums
  import opened Softmax
  import opened Accumulator

  /** Keys and values [tokens][heads][dim] of as many tokens. */
  predicate Shaped(K: seq<Matrix>, V: seq<Matrix>, heads: nat, dim: nat) {
    |K| == |V| && forall t :: 0 <= t < |K| ==> Shape(K[t], heads, dim) && Shape(V[t], heads, dim)
  }

  /** x(t) = scale * (sum over i of q[h][i] * K[t][h][i]) */
  function LogitAt(q: Matrix, scale: real, K: seq<Matrix>, h: nat, t: nat): real
    requires h < |q| && t < |K| && h < |K[t]| && |K[t][h]| == |q[h]|
  {
    scale * Inner(q[h], K[t][h])
  }

  /** sum over t of exp(x(t) - m) */
  function Denominator(exp: real -> real, q: Matrix, scale: real, K: seq<Matrix>, heads: nat, dim: nat, h: nat,
                       m: real): real
    requires Shape(q, heads, dim) && Shaped(K, K, heads, dim) && h < heads
  {
    SumTo((t: nat) => if t < |K| then exp(LogitAt(q, scale, K, h, t) - m) else 0.0, |K|)
  }

  /** sum over t of exp(x(t) - m) * V[t][h][d] */
  function Numerator(exp: real -> real, q: Matrix, scale: real, K: seq<Matrix>, V: seq<Matrix>, heads: nat, dim: nat,
                     h: nat, d: nat, m: real): real
    requires Shape(q, heads, dim) && Shaped(K, V, heads, dim) && h < heads && d < dim
  {
    SumTo((t: nat) => if t < |K| then exp(LogitAt(q, scale, K, h, t) - m) * V[t][h][d] else 0.0, |K|)
  }

  /**
   `out` is dense attention at head `h` and coordinate `d`: the weighted sum over the sum of weights, whatever
   reference `m` the exponents are taken relative to; zero without tokens.
   */
  ghost predicate IsAttention(exp: real -> real, q: Matrix, scale: real, K: seq<Matrix>, V: seq<Matrix>, heads: nat,
                              dim: nat, h: nat, d: nat, out: real)
    requires Shape(q, heads, dim) && Shaped(K, V, heads, dim) && h < heads && d < dim
  {
    if K == [] then out == 0.0
    else forall m :: Denominator(exp, q, scale, K, heads, dim, h, m) > 0.0
           && out == Numerator(exp, q, scale, K, V, heads, dim, h, d, m)
                     / Denominator(exp, q, scale, K, heads, dim, h, m)
  }

  /** The tokens carry the logits and values of that head and coordinate. */
  ghost predicate Carries(ts: seq<Token>, q: Matrix, scale: real, K: seq<Matrix>, V: seq<Matrix>, heads: nat, dim: nat,
                          h: nat, d: nat)
    requires Shape(q, heads, dim) && Shaped(K, V, heads, dim) && h < heads && d < dim
  {
    |ts| == |K| && forall t: nat | t < |K| :: ts[t] == Token(LogitAt(q, scale, K, h, t), V[t][h][d])
  }

  lemma MassIsDenominator(exp: real -> real, ts: seq<Token>, q: Matrix, scale: real, K: seq<Matrix>, V: seq<Matrix>,
                          heads: nat, dim: nat, h: nat, d: nat, m: real)
    requires Shape(q, heads, dim) && Shaped(K, V, heads, dim) && h < heads && d < dim
    requires Carries(ts, q, scale, K, V, heads, dim, h, d)
    ensures Mass(exp, ts, m) == Denominator(exp, q, scale, K, heads, dim, h, m)
  {
    SumToIsSum((t: nat) => if t < |K| then exp(LogitAt(q, scale, K, h, t) - m) else 0.0, MassTerm(exp, m), ts);
  }

  lemma MomentIsNumerator(exp: real -> real, ts: seq<Token>, q: Matrix, scale: real, K: seq<Matrix>, V: seq<Matrix>,
                          heads: nat, dim: nat, h: nat, d: nat, m: real)
    requires Shape(q, heads, dim) && Shaped(K, V, heads, dim) && h < heads && d < dim
    requires Carries(ts, q, scale, K, V, heads, dim, h, d)
    ensures Moment(exp, ts, m) == Numerator(exp, q, scale, K, V, heads, dim, h, d, m)
  {
    SumToIsSum((t: nat) => if t < |K| then exp(LogitAt(q, scale, K, h, t) - m) * V[t][h][d] else 0.0,
               MomentTerm(exp, m), ts);
  }

  /** The softmax average of such tokens is dense attention. */
  lemma AverageIsAttention(exp: real -> real, ts: seq<Token>, q: Matrix, scale: real, K: seq<Matrix>, V: seq<Matrix>,
                           heads: nat, dim: nat, h: nat, d: nat)
    requires IsExp(exp) && Shape(q, heads, dim) && Shaped(K, V, heads, dim) && h < heads && d < dim
    requires Carries(ts, q, scale, K, V, heads, dim, h, d)
    ensures IsAttention(exp, q, scale, K, V, heads, dim, h, d, Average(exp, ts))
  {
    if K != [] {
      forall m
        ensures Denominator(exp, q, scale, K, heads, dim, h, m) > 0.0
        ensures Average(exp, ts) == Numerator(exp, q, scale, K, V, heads, dim, h, d, m)
                                    / Denominator(exp, q, scale, K, heads, dim, h, m)
      {
        AverageAnyReference(exp, ts, m);
        MassIsDenominator(exp, ts, q, scale, K, V, heads, dim, h, d, m);
        MomentIsNumerator(exp, ts, q, scale, K, V, heads, dim, h, d, m);
      }
    }
  }

  /** There is only one such number. */
  lemma AttentionUnique(exp: real -> real, q: Matrix, scale: real, K: seq<Matrix>, V: seq<Matrix>, heads: nat, dim: nat,
                        h: nat, d: nat, a: real, b: real)
    requires Shape(q, heads, dim) && Shaped(K, V, heads, dim) && h < heads && d < dim
    requires IsAttention(exp, q, scale, K, V, heads, dim, h, d, a)
    requires IsAttention(exp, q, scale, K, V, heads, dim, h, d, b)
    ensures a == b
  {
    if K != [] { assert Denominator(exp, q, scale, K, heads, dim, h, 0.0) > 0.0; }
  }
}

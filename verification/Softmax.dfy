/**
 Online softmax: the running state of `OnlineSoftmaxAccumulator`, the pairwise
 `merge_online_attention`, and the plain softmax-weighted average both must agree with.

 Everything in this module is about one head and one value coordinate; module Accumulator
 lifts it to all heads and coordinates.  Arithmetic is over `real`, and `exp` is any
 function that satisfies `IsExp`.
 */
module Softmax {
  import opened Sums

  /** One token as one head and one value coordinate see it. */
  datatype Token = Token(logit: real, value: real)

  /** The running triple of the accumulator for one head and one value coordinate. */
  datatype Partial = Partial(m: real, l: real, acc: real)

  /** A normalized result, as `merge_online_attention` takes and returns it. */
  datatype Normalized = Normalized(m: real, l: real, out: real)

  /** -1e30, the initial running maximum. */
  const MIN_LOGIT: real := -1000000000000000000000000000000.0

  const INITIAL := Partial(MIN_LOGIT, 0.0, 0.0)

  // ------------------------------------------------------------------ exponential

  /** Names a pair of exponents, so that the functional equation is used only where it is asked for. */
  ghost predicate Exponents(a: real, b: real) { true }

  /** The laws of the exponential that the algorithm relies on. */
  ghost predicate IsExp(exp: real -> real) {
    && exp(0.0) == 1.0
    && (forall a :: exp(a) > 0.0)
    && (forall a, b {:trigger Exponents(a, b)} :: Exponents(a, b) ==> exp(a + b) == exp(a) * exp(b))
  }

  /** Non-positive exponents never exceed one (needed only for the upper bound on `l`). */
  ghost predicate IsDecaying(exp: real -> real) {
    forall a :: a <= 0.0 ==> exp(a) <= 1.0
  }

  lemma ExpSum(exp: real -> real, a: real, b: real)
    requires IsExp(exp)
    ensures exp(a + b) == exp(a) * exp(b)
  {
    assert Exponents(a, b);
  }

  // ------------------------------------------------------------------ specification

  function Max(a: real, b: real): real {
    if a >= b then a else b
  }

  /** The greatest logit, but never less than `floor`. */
  function MaxLogit(floor: real, ts: seq<Token>): real {
    if ts == [] then floor else Max(ts[0].logit, MaxLogit(floor, ts[1..]))
  }

  function MassTerm(exp: real -> real, m: real): Token -> real {
    (t: Token) => exp(t.logit - m)
  }

  function MomentTerm(exp: real -> real, m: real): Token -> real {
    (t: Token) => exp(t.logit - m) * t.value
  }

  /** Sum of the exponentials of the logits, relative to the reference `m`. */
  function Mass(exp: real -> real, ts: seq<Token>, m: real): real {
    Sum(MassTerm(exp, m), ts)
  }

  /** Sum of the values weighted by those exponentials. */
  function Moment(exp: real -> real, ts: seq<Token>, m: real): real {
    Sum(MomentTerm(exp, m), ts)
  }

  /** The softmax-weighted average of the values, without any running maximum; zero if there are none. */
  function Average(exp: real -> real, ts: seq<Token>): real
    requires IsExp(exp)
  {
    if ts == [] then 0.0 else
    MassPositive(exp, ts, 0.0);
    Moment(exp, ts, 0.0) / Mass(exp, ts, 0.0)
  }

  // ------------------------------------------------------------------ the code's formulas

  /** The largest logit of a non-empty partition. */
  function PartMax(ts: seq<Token>): real
    requires ts != []
  {
    MaxLogit(ts[0].logit, ts[1..])
  }

  /** A previous sum, moved to a new reference logit. */
  function Rescaled(previous: real, alpha: real): real {
    previous * alpha
  }

  /** `update_with_partition` for one head and coordinate. */
  function Update(exp: real -> real, s: Partial, part: seq<Token>): Partial {
    if part == [] then s else
    var m := Max(s.m, PartMax(part));
    var alpha := exp(s.m - m);
    Partial(m, Rescaled(s.l, alpha) + Mass(exp, part, m), Rescaled(s.acc, alpha) + Moment(exp, part, m))
  }

  /** `finalize` for one head and coordinate. */
  function Finalize(s: Partial): real {
    s.acc / (if s.l > 0.0 then s.l else 1.0)
  }

  function UpdateAll(exp: real -> real, s: Partial, parts: seq<seq<Token>>): Partial
    decreases |parts|
  {
    if parts == [] then s else UpdateAll(exp, Update(exp, s, parts[0]), parts[1..])
  }

  /** `merge_online_attention` for one head and coordinate. */
  function Merge(exp: real -> real, a: Normalized, b: Normalized): Normalized {
    var m := Max(a.m, b.m);
    var wa := exp(a.m - m) * a.l;
    var wb := exp(b.m - m) * b.l;
    var l := wa + wb;
    Normalized(m, l, (wa * a.out + wb * b.out) / (if l > 0.0 then l else 1.0))
  }

  function DenseTerm(exp: real -> real, m: real, total: real): Token -> real
    requires total != 0.0
  {
    (t: Token) => exp(t.logit - m) / total * t.value
  }

  /** `compute_decode_step` for one head and coordinate: weights first, then their product with the values. */
  function DenseStep(exp: real -> real, ts: seq<Token>): real
    requires IsExp(exp)
    requires ts != []
  {
    var m := PartMax(ts);
    MassPositive(exp, ts, m);
    Sum(DenseTerm(exp, m, Mass(exp, ts, m)), ts)
  }

  // ------------------------------------------------------------------ running maximum

  lemma {:induction false} MaxLogitConcat(floor: real, a: seq<Token>, b: seq<Token>)
    ensures MaxLogit(floor, a + b) == MaxLogit(MaxLogit(floor, a), b)
  {
    if a == [] {
      assert a + b == b;
      if b != [] { MaxLogitConcat(floor, [], b[1..]); assert [] + b[1..] == b[1..]; }
    } else {
      assert (a + b)[1..] == a[1..] + b;
      MaxLogitConcat(floor, a[1..], b);
      MaxLogitFloor(MaxLogit(floor, a[1..]), a[0].logit, b);
    }
  }

  lemma {:induction false} MaxLogitFloor(x: real, y: real, ts: seq<Token>)
    ensures MaxLogit(Max(y, x), ts) == Max(y, MaxLogit(x, ts))
  {
    if ts != [] { MaxLogitFloor(x, y, ts[1..]); }
  }

  lemma {:induction false} MaxLogitBounds(floor: real, ts: seq<Token>)
    ensures MaxLogit(floor, ts) >= floor
    ensures forall t :: t in ts ==> t.logit <= MaxLogit(floor, ts)
    ensures MaxLogit(floor, ts) == floor || exists t :: t in ts && t.logit == MaxLogit(floor, ts)
  {
    if ts != [] {
      MaxLogitBounds(floor, ts[1..]);
      assert ts[0] in ts;
      assert forall t :: t in ts ==> t == ts[0] || t in ts[1..];
    }
  }

  // ------------------------------------------------------------------ sums over tokens

  lemma MassPositive(exp: real -> real, ts: seq<Token>, m: real)
    requires IsExp(exp)
    ensures Mass(exp, ts, m) >= 0.0
    ensures ts != [] ==> Mass(exp, ts, m) > 0.0
  {
    SumPositive(MassTerm(exp, m), ts);
    if ts != [] {
      assert ts[0] in ts;
      assert MassTerm(exp, m)(ts[0]) > 0.0;
    }
  }

  lemma Reassociate(x: real, f: real, v: real)
    ensures (x * f) * v == (x * v) * f
  {
  }

  lemma TermsRescale(exp: real -> real, t: Token, from: real, to: real)
    requires IsExp(exp)
    ensures MassTerm(exp, to)(t) == MassTerm(exp, from)(t) * exp(from - to)
    ensures MomentTerm(exp, to)(t) == MomentTerm(exp, from)(t) * exp(from - to)
  {
    ExpSum(exp, t.logit - from, from - to);
    assert t.logit - to == (t.logit - from) + (from - to);
    Reassociate(exp(t.logit - from), exp(from - to), t.value);
  }

  /** Changing the reference logit rescales both sums by the same factor. */
  lemma SumsRescale(exp: real -> real, ts: seq<Token>, from: real, to: real)
    requires IsExp(exp)
    ensures Mass(exp, ts, to) == Mass(exp, ts, from) * exp(from - to)
    ensures Moment(exp, ts, to) == Moment(exp, ts, from) * exp(from - to)
  {
    MassRescales(exp, ts, from, to);
    MomentRescales(exp, ts, from, to);
  }

  lemma MassRescales(exp: real -> real, ts: seq<Token>, from: real, to: real)
    requires IsExp(exp)
    ensures Mass(exp, ts, to) == Mass(exp, ts, from) * exp(from - to)
  {
    forall t | t in ts ensures MassTerm(exp, to)(t) == MassTerm(exp, from)(t) * exp(from - to) {
      TermsRescale(exp, t, from, to);
    }
    SumScale(MassTerm(exp, from), MassTerm(exp, to), exp(from - to), ts);
  }

  lemma MomentRescales(exp: real -> real, ts: seq<Token>, from: real, to: real)
    requires IsExp(exp)
    ensures Moment(exp, ts, to) == Moment(exp, ts, from) * exp(from - to)
  {
    forall t | t in ts ensures MomentTerm(exp, to)(t) == MomentTerm(exp, from)(t) * exp(from - to) {
      TermsRescale(exp, t, from, to);
    }
    SumScale(MomentTerm(exp, from), MomentTerm(exp, to), exp(from - to), ts);
  }

  lemma QuotientScale(n: real, d: real, f: real)
    requires d > 0.0 && f > 0.0
    ensures d * f > 0.0
    ensures (n * f) / (d * f) == n / d
  {
    var q := n / d;
    assert q * d == n;
    assert q * (d * f) == n * f;
  }

  lemma ScaledQuotient(n: real, d: real, f: real, scaledN: real, scaledD: real)
    requires d > 0.0 && f > 0.0 && scaledN == n * f && scaledD == d * f
    ensures scaledD > 0.0 && scaledN / scaledD == n / d
  {
    QuotientScale(n, d, f);
  }

  /** The quotient of the two sums does not depend on the reference logit. */
  lemma AverageAnyReference(exp: real -> real, ts: seq<Token>, m: real)
    requires IsExp(exp)
    requires ts != []
    ensures Mass(exp, ts, m) > 0.0
    ensures Moment(exp, ts, m) / Mass(exp, ts, m) == Average(exp, ts)
  {
    MassPositive(exp, ts, m);
    MassPositive(exp, ts, 0.0);
    SumsRescale(exp, ts, 0.0, m);
    ScaledQuotient(Moment(exp, ts, 0.0), Mass(exp, ts, 0.0), exp(0.0 - m), Moment(exp, ts, m), Mass(exp, ts, m));
  }

  lemma TimesReciprocal(x: real, d: real)
    requires d > 0.0
    ensures x / d == x * (1.0 / d)
  {
  }

  lemma WeightedTerm(exp: real -> real, t: Token, m: real, total: real)
    requires total > 0.0
    ensures DenseTerm(exp, m, total)(t) == MomentTerm(exp, m)(t) * (1.0 / total)
  {
    TimesReciprocal(exp(t.logit - m), total);
    Reassociate(exp(t.logit - m), 1.0 / total, t.value);
  }

  lemma DenseSum(exp: real -> real, ts: seq<Token>, m: real, total: real)
    requires total > 0.0
    ensures Sum(DenseTerm(exp, m, total), ts) == Moment(exp, ts, m) / total
  {
    var f := 1.0 / total;
    forall t | t in ts
      ensures DenseTerm(exp, m, total)(t) == MomentTerm(exp, m)(t) * f
    {
      WeightedTerm(exp, t, m, total);
    }
    SumScale(MomentTerm(exp, m), DenseTerm(exp, m, total), f, ts);
    TimesReciprocal(Moment(exp, ts, m), total);
  }

  /** The dense reference, which normalizes the weights before using them, is the same average. */
  lemma DenseIsAverage(exp: real -> real, ts: seq<Token>)
    requires IsExp(exp)
    requires ts != []
    ensures DenseStep(exp, ts) == Average(exp, ts)
  {
    var m := PartMax(ts);
    AverageAnyReference(exp, ts, m);
    DenseSum(exp, ts, m, Mass(exp, ts, m));
  }

  /** Softmax does not depend on the order of the tokens. */
  lemma AveragePermute(exp: real -> real, a: seq<Token>, b: seq<Token>)
    requires IsExp(exp)
    requires multiset(a) == multiset(b)
    ensures Average(exp, a) == Average(exp, b)
  {
    assert |a| == |multiset(a)| == |multiset(b)| == |b|;
    SumPermute(MassTerm(exp, 0.0), a, b);
    SumPermute(MomentTerm(exp, 0.0), a, b);
  }

  // ------------------------------------------------------------------ the accumulator

  /** `s` is the state after having seen exactly the tokens `ts`, in some partitioning. */
  ghost predicate Tracks(exp: real -> real, s: Partial, ts: seq<Token>) {
    && s.m == MaxLogit(MIN_LOGIT, ts)
    && s.l == Mass(exp, ts, s.m)
    && s.acc == Moment(exp, ts, s.m)
  }

  lemma PartMaxFloor(floor: real, part: seq<Token>)
    requires part != []
    ensures Max(floor, PartMax(part)) == MaxLogit(floor, part)
  {
    MaxLogitFloor(part[0].logit, floor, part[1..]);
    MaxLogitFloor(floor, part[0].logit, part[1..]);
    assert Max(floor, part[0].logit) == Max(part[0].logit, floor);
  }

  /** One update keeps the accumulator's three fields exact, whatever the reference logit was. */
  lemma UpdateTracks(exp: real -> real, s: Partial, seen: seq<Token>, part: seq<Token>)
    requires IsExp(exp)
    requires Tracks(exp, s, seen)
    ensures Tracks(exp, Update(exp, s, part), seen + part)
  {
    if part == [] {
      assert seen + part == seen;
    } else {
      var m := Max(s.m, PartMax(part));
      MaxLogitConcat(MIN_LOGIT, seen, part);
      PartMaxFloor(s.m, part);
      SumsRescale(exp, seen, s.m, m);
      SumsConcat(exp, seen, part, m);
    }
  }

  lemma {:induction false} UpdateAllTracks(exp: real -> real, s: Partial, seen: seq<Token>, parts: seq<seq<Token>>)
    requires IsExp(exp)
    requires Tracks(exp, s, seen)
    ensures Tracks(exp, UpdateAll(exp, s, parts), seen + Join(parts))
    decreases |parts|
  {
    if parts == [] {
      assert seen + Join(parts) == seen;
    } else {
      UpdateTracks(exp, s, seen, parts[0]);
      UpdateAllTracks(exp, Update(exp, s, parts[0]), seen + parts[0], parts[1..]);
      JoinFirst(seen, parts);
    }
  }

  lemma JoinFirst(seen: seq<Token>, parts: seq<seq<Token>>)
    requires parts != []
    ensures seen + parts[0] + Join(parts[1..]) == seen + Join(parts)
  {
  }

  /** A tracked state finalizes to the softmax average of what it has seen, and to zero before any token. */
  lemma FinalizeTracked(exp: real -> real, s: Partial, ts: seq<Token>)
    requires IsExp(exp)
    requires Tracks(exp, s, ts)
    ensures Finalize(s) == Average(exp, ts)
  {
    if ts != [] { AverageAnyReference(exp, ts, s.m); }
  }

  /**
   Streaming softmax is exact: tokens fed in any partitioning (empty partitions included)
   and in any order finalize to the one-shot softmax average.
   */
  lemma StreamingEqualsOneShot(exp: real -> real, parts: seq<seq<Token>>, ts: seq<Token>)
    requires IsExp(exp)
    requires multiset(Join(parts)) == multiset(ts)
    ensures Finalize(UpdateAll(exp, INITIAL, parts)) == Average(exp, ts)
  {
    UpdateAllTracks(exp, INITIAL, [], parts);
    assert [] + Join(parts) == Join(parts);
    FinalizeTracked(exp, UpdateAll(exp, INITIAL, parts), Join(parts));
    AveragePermute(exp, ts, Join(parts));
  }

  lemma QuotientBetween(n: real, d: real, lo: real, hi: real)
    requires d > 0.0
    requires lo * d <= n <= hi * d
    ensures lo <= n / d <= hi
  {
    var q := n / d;
    assert q * d == n;
    assert (q - lo) * d >= 0.0 && (hi - q) * d >= 0.0;
  }

  function ConstantTerm(exp: real -> real, m: real, c: real): Token -> real {
    (t: Token) => exp(t.logit - m) * c
  }

  lemma ProductBetween(x: real, lo: real, v: real, hi: real)
    requires x > 0.0 && lo <= v <= hi
    ensures x * lo <= x * v <= x * hi
  {
  }

  lemma TermsBetween(exp: real -> real, t: Token, m: real, lo: real, hi: real)
    requires IsExp(exp)
    requires lo <= t.value <= hi
    ensures ConstantTerm(exp, m, lo)(t) <= MomentTerm(exp, m)(t) <= ConstantTerm(exp, m, hi)(t)
  {
    ProductBetween(exp(t.logit - m), lo, t.value, hi);
  }

  lemma ConstantSum(exp: real -> real, ts: seq<Token>, m: real, c: real)
    ensures Sum(ConstantTerm(exp, m, c), ts) == c * Mass(exp, ts, m)
  {
    SumScale(MassTerm(exp, m), ConstantTerm(exp, m, c), c, ts);
  }

  lemma MomentBetween(exp: real -> real, ts: seq<Token>, m: real, lo: real, hi: real)
    requires IsExp(exp)
    requires forall t :: t in ts ==> lo <= t.value <= hi
    ensures lo * Mass(exp, ts, m) <= Moment(exp, ts, m) <= hi * Mass(exp, ts, m)
  {
    var low, high := ConstantTerm(exp, m, lo), ConstantTerm(exp, m, hi);
    forall t | t in ts
      ensures low(t) <= MomentTerm(exp, m)(t) <= high(t)
    {
      TermsBetween(exp, t, m, lo, hi);
    }
    ConstantSum(exp, ts, m, lo);
    ConstantSum(exp, ts, m, hi);
    SumMonotone(low, MomentTerm(exp, m), ts);
    SumMonotone(MomentTerm(exp, m), high, ts);
  }

  lemma MassBetween(exp: real -> real, ts: seq<Token>)
    requires IsExp(exp) && IsDecaying(exp)
    requires ts != []
    requires forall t :: t in ts ==> t.logit >= MIN_LOGIT
    ensures 1.0 <= Mass(exp, ts, MaxLogit(MIN_LOGIT, ts)) <= |ts| as real
  {
    var m := MaxLogit(MIN_LOGIT, ts);
    MaxLogitBounds(MIN_LOGIT, ts);
    assert ts[0] in ts;
    var t :| t in ts && t.logit == m;
    SumPositive(MassTerm(exp, m), ts);
    assert MassTerm(exp, m)(t) == 1.0;
    SumMonotone(MassTerm(exp, m), (t: Token) => 1.0, ts);
    SumConstant(1.0, ts);
  }

  /**
   Numerical health: while no logit is below the initial running maximum, the normaliser
   stays within [1, n] and the output within the range of the values seen.
   */
  lemma AccumulatorBounds(exp: real -> real, s: Partial, ts: seq<Token>, lo: real, hi: real)
    requires IsExp(exp) && IsDecaying(exp)
    requires Tracks(exp, s, ts) && ts != []
    requires forall t :: t in ts ==> t.logit >= MIN_LOGIT
    requires forall t :: t in ts ==> lo <= t.value <= hi
    ensures 1.0 <= s.l <= |ts| as real
    ensures lo <= Finalize(s) <= hi
  {
    MassBetween(exp, ts);
    MomentBetween(exp, ts, s.m, lo, hi);
    QuotientBetween(s.acc, s.l, lo, hi);
  }

  // ------------------------------------------------------------------ merging normalized results

  /** `r` is a normalized attention result over the tokens `ts`, at some reference logit. */
  ghost predicate Summarizes(exp: real -> real, r: Normalized, ts: seq<Token>)
    requires IsExp(exp)
  {
    && ts != []
    && r.l == Mass(exp, ts, r.m)
    && r.out == Average(exp, ts)
  }

  /** The weight that a result carries relative to the reference `m`. */
  function Weight(exp: real -> real, a: Normalized, m: real): real {
    exp(a.m - m) * a.l
  }

  lemma QuotientTimes(n: real, d: real)
    requires d > 0.0
    ensures d * (n / d) == n
  {
  }

  lemma PositiveProduct(a: real, b: real)
    requires a > 0.0 && b > 0.0
    ensures a * b > 0.0
  {
  }

  lemma WeightShift(exp: real -> real, a: Normalized, from: real, to: real)
    requires IsExp(exp)
    ensures Weight(exp, a, to) == exp(from - to) * Weight(exp, a, from)
  {
    ExpSum(exp, a.m - from, from - to);
    assert a.m - to == (a.m - from) + (from - to);
    Regroup(exp(a.m - from), exp(from - to), a.l);
  }

  lemma Regroup(x: real, f: real, l: real)
    ensures x * f * l == f * (x * l)
  {
  }

  /** A summary weighs what its tokens weigh, and contributes their moment. */
  lemma SummaryWeight(exp: real -> real, r: Normalized, ts: seq<Token>, m: real)
    requires IsExp(exp)
    requires Summarizes(exp, r, ts)
    ensures Weight(exp, r, m) == Mass(exp, ts, m)
    ensures Weight(exp, r, m) * r.out == Moment(exp, ts, m)
  {
    SumsRescale(exp, ts, r.m, m);
    AverageAnyReference(exp, ts, m);
    QuotientTimes(Moment(exp, ts, m), Mass(exp, ts, m));
  }

  /** Merging two normalized results gives the normalized result over all their tokens. */
  lemma MergeSummarizes(exp: real -> real, a: Normalized, ta: seq<Token>, b: Normalized, tb: seq<Token>)
    requires IsExp(exp)
    requires Summarizes(exp, a, ta) && Summarizes(exp, b, tb)
    ensures Summarizes(exp, Merge(exp, a, b), ta + tb)
  {
    MergeIsQuotient(exp, a, ta, b, tb);
    AverageAnyReference(exp, ta + tb, Max(a.m, b.m));
  }

  lemma MergeIsQuotient(exp: real -> real, a: Normalized, ta: seq<Token>, b: Normalized, tb: seq<Token>)
    requires IsExp(exp)
    requires Summarizes(exp, a, ta) && Summarizes(exp, b, tb)
    ensures var m := Max(a.m, b.m);
      var mass, moment := Mass(exp, ta + tb, m), Moment(exp, ta + tb, m);
      mass > 0.0 && Merge(exp, a, b) == Normalized(m, mass, moment / mass)
  {
    var m := Max(a.m, b.m);
    SummaryWeight(exp, a, ta, m);
    SummaryWeight(exp, b, tb, m);
    SumsConcat(exp, ta, tb, m);
    MassPositive(exp, ta + tb, m);
    MergeAtWeights(exp, a, b, Mass(exp, ta, m), Moment(exp, ta, m), Mass(exp, tb, m), Moment(exp, tb, m));
  }

  lemma SumsConcat(exp: real -> real, a: seq<Token>, b: seq<Token>, m: real)
    ensures Mass(exp, a + b, m) == Mass(exp, a, m) + Mass(exp, b, m)
    ensures Moment(exp, a + b, m) == Moment(exp, a, m) + Moment(exp, b, m)
  {
    SumConcat(MassTerm(exp, m), a, b);
    SumConcat(MomentTerm(exp, m), a, b);
  }

  lemma MergeAtWeights(exp: real -> real, a: Normalized, b: Normalized, ma: real, na: real, mb: real, nb: real)
    requires Weight(exp, a, Max(a.m, b.m)) == ma && ma * a.out == na
    requires Weight(exp, b, Max(a.m, b.m)) == mb && mb * b.out == nb
    requires ma + mb > 0.0
    ensures Merge(exp, a, b) == Normalized(Max(a.m, b.m), ma + mb, (na + nb) / (ma + mb))
  {
    MergeUnfolded(exp, a, b);
    assert Merge(exp, a, b).out == (ma * a.out + mb * b.out) / (ma + mb);
  }

  lemma MergeUnfolded(exp: real -> real, a: Normalized, b: Normalized)
    ensures var m := Max(a.m, b.m);
      var wa, wb := Weight(exp, a, m), Weight(exp, b, m);
      && Merge(exp, a, b).m == m && Merge(exp, a, b).l == wa + wb
      && (wa + wb > 0.0 ==> Merge(exp, a, b).out == (wa * a.out + wb * b.out) / (wa + wb))
  {
  }

  /** An accumulator that has seen tokens, normalized, is a summary of them: the two forms interoperate. */
  lemma TrackedSummarizes(exp: real -> real, s: Partial, ts: seq<Token>)
    requires IsExp(exp)
    requires Tracks(exp, s, ts) && ts != []
    ensures Summarizes(exp, Normalized(s.m, s.l, Finalize(s)), ts)
  {
    FinalizeTracked(exp, s, ts);
  }

  lemma MergeCommutes(exp: real -> real, a: Normalized, b: Normalized)
    ensures Merge(exp, a, b) == Merge(exp, b, a)
  {
    var m := Max(a.m, b.m);
    assert Weight(exp, a, m) * a.out + Weight(exp, b, m) * b.out
        == Weight(exp, b, m) * b.out + Weight(exp, a, m) * a.out;
  }

  /** `r` weighs, and contributes, what `a` and `b` do together, whatever the reference. */
  ghost predicate Combines(exp: real -> real, r: Normalized, a: Normalized, b: Normalized) {
    && r.l > 0.0
    && r.m == Max(a.m, b.m)
    && forall m :: WeighsBoth(exp, r, a, b, m)
  }

  ghost predicate WeighsBoth(exp: real -> real, r: Normalized, a: Normalized, b: Normalized, m: real) {
    && Weight(exp, r, m) == Weight(exp, a, m) + Weight(exp, b, m)
    && Weight(exp, r, m) * r.out == Weight(exp, a, m) * a.out + Weight(exp, b, m) * b.out
  }

  lemma MergeCombines(exp: real -> real, a: Normalized, b: Normalized)
    requires IsExp(exp)
    requires a.l > 0.0 && b.l > 0.0
    ensures Combines(exp, Merge(exp, a, b), a, b)
  {
    var ab := Merge(exp, a, b);
    MergeAtOwn(exp, a, b);
    forall m ensures WeighsBoth(exp, ab, a, b, m) {
      WeightShift(exp, a, ab.m, m);
      WeightShift(exp, b, ab.m, m);
      Distribute(exp(ab.m - m), ab.l, ab.out, Weight(exp, a, ab.m), a.out, Weight(exp, b, ab.m), b.out);
    }
  }

  lemma MergeAtOwn(exp: real -> real, a: Normalized, b: Normalized)
    requires IsExp(exp)
    requires a.l > 0.0 && b.l > 0.0
    ensures var ab := Merge(exp, a, b);
      var wa, wb := Weight(exp, a, ab.m), Weight(exp, b, ab.m);
      ab.m == Max(a.m, b.m) && ab.l == wa + wb > 0.0 && ab.l * ab.out == wa * a.out + wb * b.out
  {
    var m := Max(a.m, b.m);
    PositiveProduct(exp(a.m - m), a.l);
    PositiveProduct(exp(b.m - m), b.l);
    MergeUnfolded(exp, a, b);
    QuotientTimes(Weight(exp, a, m) * a.out + Weight(exp, b, m) * b.out, Weight(exp, a, m) + Weight(exp, b, m));
  }

  lemma Distribute(f: real, l: real, out: real, wa: real, oa: real, wb: real, ob: real)
    requires l == wa + wb
    requires l * out == wa * oa + wb * ob
    ensures f * l == f * wa + f * wb
    ensures f * l * out == f * wa * oa + f * wb * ob
  {
    calc {
      f * l * out;
      f * (l * out);
      f * (wa * oa + wb * ob);
      f * (wa * oa) + f * (wb * ob);
      f * wa * oa + f * wb * ob;
    }
  }

  /** At its own reference a result weighs exactly `l`. */
  lemma OwnWeight(exp: real -> real, a: Normalized)
    requires IsExp(exp)
    ensures Weight(exp, a, a.m) == a.l
  {
  }

  lemma CombinesAssociates(exp: real -> real, a: Normalized, b: Normalized, c: Normalized, ab: Normalized,
                           bc: Normalized, left: Normalized, right: Normalized)
    requires IsExp(exp)
    requires Combines(exp, ab, a, b) && Combines(exp, left, ab, c)
    requires Combines(exp, bc, b, c) && Combines(exp, right, a, bc)
    ensures left == right
  {
    var m := left.m;
    assert right.m == m;
    assert WeighsBoth(exp, ab, a, b, m) && WeighsBoth(exp, left, ab, c, m);
    assert WeighsBoth(exp, bc, b, c, m) && WeighsBoth(exp, right, a, bc, m);
    OwnWeight(exp, left);
    OwnWeight(exp, right);
    SameQuotient(left.l, left.out, right.out);
  }

  lemma SameQuotient(l: real, x: real, y: real)
    requires l > 0.0 && l * x == l * y
    ensures x == y
  {
    assert l * (x - y) == 0.0;
  }

  /** Results may be merged in any grouping. */
  lemma MergeAssociates(exp: real -> real, a: Normalized, b: Normalized, c: Normalized)
    requires IsExp(exp)
    requires a.l > 0.0 && b.l > 0.0 && c.l > 0.0
    ensures Merge(exp, Merge(exp, a, b), c) == Merge(exp, a, Merge(exp, b, c))
  {
    var ab, bc := Merge(exp, a, b), Merge(exp, b, c);
    MergeCombines(exp, a, b);
    MergeCombines(exp, b, c);
    MergeCombines(exp, ab, c);
    MergeCombines(exp, a, bc);
    CombinesAssociates(exp, a, b, c, ab, bc, Merge(exp, ab, c), Merge(exp, a, bc));
  }
}

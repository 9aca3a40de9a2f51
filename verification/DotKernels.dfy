/**
 The dot products of the C kernels: the 4-way unrolled loop over flat buffers, and the
 8-lane vector forms with one and with four accumulators.  Over exact arithmetic all of them
 are the plain dot product.
 */
module DotKernels {
  import opened Sums

  // ------------------------------------------------------------------ unrolled loop

  lemma DotSnoc(a: seq<real>, b: seq<real>, i: nat)
    requires |a| == |b| && i < |a|
    ensures Dot(a[..i+1], b[..i+1]) == Dot(a[..i], b[..i]) + a[i] * b[i]
  {
    assert a[..i+1] == a[..i] + [a[i]] && b[..i+1] == b[..i] + [b[i]];
    DotConcat(a[..i], b[..i], [a[i]], [b[i]]);
    assert Dot([a[i]], [b[i]]) == a[i] * b[i] + Dot([], []);
  }

  function FourProducts(a: seq<real>, b: seq<real>, d: nat): real
    requires |a| == |b| && d + 4 <= |a|
  {
    a[d] * b[d] + a[d+1] * b[d+1] + a[d+2] * b[d+2] + a[d+3] * b[d+3]
  }

  lemma DotFour(a: seq<real>, b: seq<real>, d: nat)
    requires |a| == |b| && d + 4 <= |a|
    ensures Dot(a[..d+4], b[..d+4]) == Dot(a[..d], b[..d]) + FourProducts(a, b, d)
  {
    DotSnoc(a, b, d);
    DotSnoc(a, b, d + 1);
    DotSnoc(a, b, d + 2);
    DotSnoc(a, b, d + 3);
  }

  /** The body of the unrolled loop: the next four products of the vectors `a` and `b` at `qo` and `ko`. */
  method FourAt(q: array<real>, qo: nat, k: array<real>, ko: nat, d: nat, ghost a: seq<real>, ghost b: seq<real>)
    returns (products: real)
    requires qo + |a| <= q.Length && ko + |b| <= k.Length && |a| == |b| && d + 4 <= |a|
    requires a == q[qo..qo+|a|] && b == k[ko..ko+|b|]
    ensures products == Dot(a[..d+4], b[..d+4]) - Dot(a[..d], b[..d])
  {
    var i, j := qo + d, ko + d;
    products := q[i] * k[j] + q[i+1] * k[j+1] + q[i+2] * k[j+2] + q[i+3] * k[j+3];
    DotFour(a, b, d);
    assert a[d] == q[i] && a[d+1] == q[i+1] && a[d+2] == q[i+2] && a[d+3] == q[i+3];
    assert b[d] == k[j] && b[d+1] == k[j+1] && b[d+2] == k[j+2] && b[d+3] == k[j+3];
  }

  /** The inner loops of `compute_block_score`: four products a turn, then the remainder. */
  method DotUnrolled(q: array<real>, qo: nat, k: array<real>, ko: nat, headDim: nat) returns (dot: real)
    requires qo + headDim <= q.Length && ko + headDim <= k.Length
    ensures dot == Dot(q[qo..qo+headDim], k[ko..ko+headDim])
  {
    ghost var a, b := q[qo..qo+headDim], k[ko..ko+headDim];
    dot := 0.0;
    var d := 0;
    while d <= headDim - 4
      invariant 0 <= d <= headDim
      invariant dot == Dot(a[..d], b[..d])
    {
      var products := FourAt(q, qo, k, ko, d, a, b);
      dot := dot + products;
      d := d + 4;
    }
    while d < headDim
      invariant 0 <= d <= headDim
      invariant dot == Dot(a[..d], b[..d])
    {
      DotSnoc(a, b, d);
      dot := dot + q[qo+d] * k[ko+d];
      d := d + 1;
    }
    assert a[..d] == a && b[..d] == b;
  }

  // ------------------------------------------------------------------ vector lanes

  type Lanes = x: seq<real> | |x| == 8 witness [0.0, 0.0, 0.0, 0.0, 0.0, 0.0, 0.0, 0.0]

  function Load(a: seq<real>, offset: nat): Lanes
    requires offset + 8 <= |a|
  {
    a[offset..offset+8]
  }

  /** `_mm256_mul_ps` */
  function Mul(x: Lanes, y: Lanes): Lanes {
    seq(8, i requires 0 <= i < 8 => x[i] * y[i])
  }

  /** `_mm256_fmadd_ps` */
  function Fma(x: Lanes, y: Lanes, acc: Lanes): Lanes {
    seq(8, i requires 0 <= i < 8 => x[i] * y[i] + acc[i])
  }

  /** `_mm256_add_ps` */
  function Add(x: Lanes, y: Lanes): Lanes {
    seq(8, i requires 0 <= i < 8 => x[i] + y[i])
  }

  /** The reduction of the eight lanes: upper half onto lower half, then two horizontal adds. */
  function Reduce(x: Lanes): real {
    var s := [x[0] + x[4], x[1] + x[5], x[2] + x[6], x[3] + x[7]];
    var t := [s[0] + s[1], s[2] + s[3], s[0] + s[1], s[2] + s[3]];
    t[0] + t[1]
  }

  function Total(xs: seq<real>): real {
    if xs == [] then 0.0 else xs[0] + Total(xs[1..])
  }

  lemma {:induction false} DotIsTotal(a: seq<real>, b: seq<real>, products: seq<real>)
    requires |a| == |b| == |products|
    requires forall i :: 0 <= i < |a| ==> products[i] == a[i] * b[i]
    ensures Dot(a, b) == Total(products)
  {
    if a != [] { DotIsTotal(a[1..], b[1..], products[1..]); }
  }

  lemma TotalOfEight(x: Lanes)
    ensures Total(x) == Reduce(x)
  {
    assert Total(x[8..]) == 0.0;
    assert Total(x[7..]) == x[7] + Total(x[7..][1..]) && x[7..][1..] == x[8..];
    assert Total(x[6..]) == x[6] + Total(x[6..][1..]) && x[6..][1..] == x[7..];
    assert Total(x[5..]) == x[5] + Total(x[5..][1..]) && x[5..][1..] == x[6..];
    assert Total(x[4..]) == x[4] + Total(x[4..][1..]) && x[4..][1..] == x[5..];
    assert Total(x[3..]) == x[3] + Total(x[3..][1..]) && x[3..][1..] == x[4..];
    assert Total(x[2..]) == x[2] + Total(x[2..][1..]) && x[2..][1..] == x[3..];
    assert Total(x[1..]) == x[1] + Total(x[1..][1..]) && x[1..][1..] == x[2..];
  }

  lemma ReduceMul(x: Lanes, y: Lanes)
    ensures Reduce(Mul(x, y)) == Dot(x, y)
  {
    DotIsTotal(x, y, Mul(x, y));
    TotalOfEight(Mul(x, y));
  }

  lemma ReduceAdd(x: Lanes, y: Lanes)
    ensures Reduce(Add(x, y)) == Reduce(x) + Reduce(y)
  {
  }

  lemma ReduceFma(x: Lanes, y: Lanes, acc: Lanes)
    ensures Reduce(Fma(x, y, acc)) == Dot(x, y) + Reduce(acc)
  {
    assert Fma(x, y, acc) == Add(Mul(x, y), acc);
    ReduceMul(x, y);
    ReduceAdd(Mul(x, y), acc);
  }

  /** The `g`-th group of eight lanes. */
  function Group(a: seq<real>, g: nat): Lanes
    requires 8 * g + 8 <= |a|
  {
    Load(a, 8 * g)
  }

  /** One accumulator fed with the groups from `g` on, `stride` apart, below `n`. */
  function Chain(a: seq<real>, b: seq<real>, g: nat, stride: nat, n: nat, acc: Lanes): Lanes
    requires 8 * n <= |a| && 8 * n <= |b| && stride > 0
    decreases n - g
  {
    if g >= n then acc
    else Chain(a, b, g + stride, stride, n, Fma(Group(a, g), Group(b, g), acc))
  }

  /** An accumulator that starts with the product of group `g`. */
  function Started(a: seq<real>, b: seq<real>, g: nat, stride: nat, n: nat): (acc: Lanes)
    requires 8 * n <= |a| && 8 * n <= |b| && stride > 0 && g < n
    ensures Reduce(acc) == Groups(a, b, g, stride, n)
  {
    ReduceChain(a, b, g + stride, stride, n, Mul(Group(a, g), Group(b, g)));
    ReduceMul(Group(a, g), Group(b, g));
    Chain(a, b, g + stride, stride, n, Mul(Group(a, g), Group(b, g)))
  }

  /** `dot_product_64_avx2`: a product, then seven fused steps on one accumulator. */
  function Dot64(a: seq<real>, b: seq<real>): real
    requires |a| == |b| == 64
  {
    Reduce(Started(a, b, 0, 1, 8))
  }

  /** `dot_product_128_avx2` of the storage kernel: one accumulator. */
  function Dot128One(a: seq<real>, b: seq<real>): real
    requires |a| == |b| == 128
  {
    Reduce(Started(a, b, 0, 1, 16))
  }

  /** `dot_product_128_avx2` of the guest daemon: four accumulators, added pairwise at the end. */
  function Dot128Four(a: seq<real>, b: seq<real>): real
    requires |a| == |b| == 128
  {
    var acc0, acc1 := Started(a, b, 0, 4, 16), Started(a, b, 1, 4, 16);
    var acc2, acc3 := Started(a, b, 2, 4, 16), Started(a, b, 3, 4, 16);
    Reduce(Add(Add(acc0, acc1), Add(acc2, acc3)))
  }

  /** What the groups from `g` on, `stride` apart, contribute to the dot product. */
  function Groups(a: seq<real>, b: seq<real>, g: nat, stride: nat, n: nat): real
    requires 8 * n <= |a| && 8 * n <= |b| && stride > 0
    decreases n - g
  {
    if g >= n then 0.0 else Dot(Group(a, g), Group(b, g)) + Groups(a, b, g + stride, stride, n)
  }

  lemma {:induction false} ReduceChain(a: seq<real>, b: seq<real>, g: nat, stride: nat, n: nat, acc: Lanes)
    requires 8 * n <= |a| && 8 * n <= |b| && stride > 0
    ensures Reduce(Chain(a, b, g, stride, n, acc)) == Groups(a, b, g, stride, n) + Reduce(acc)
    decreases n - g
  {
    if g < n {
      ReduceFma(Group(a, g), Group(b, g), acc);
      ReduceChain(a, b, g + stride, stride, n, Fma(Group(a, g), Group(b, g), acc));
    }
  }

  lemma {:induction false} GroupsAreDot(a: seq<real>, b: seq<real>, g: nat, n: nat)
    requires |a| == |b| == 8 * n && g <= n
    ensures Groups(a, b, g, 1, n) == Dot(a[8*g..], b[8*g..])
    decreases n - g
  {
    if g < n {
      GroupsAreDot(a, b, g + 1, n);
      DotSplit(a[8*g..], b[8*g..], 8);
      assert a[8*g..][..8] == Group(a, g) && b[8*g..][..8] == Group(b, g);
      assert a[8*g..][8..] == a[8*(g+1)..] && b[8*g..][8..] == b[8*(g+1)..];
    }
  }

  /** Both strides start with the same group. */
  lemma GroupsStep(a: seq<real>, b: seq<real>, g: nat, n: nat)
    requires 8 * n <= |a| && 8 * n <= |b| && g < n
    ensures Groups(a, b, g, 1, n) - Groups(a, b, g + 1, 1, n) == Groups(a, b, g, 4, n) - Groups(a, b, g + 4, 4, n)
  {
  }

  /** Four interleaved families of groups are all the groups. */
  lemma {:induction false} InterleavedGroups(a: seq<real>, b: seq<real>, g: nat, n: nat)
    requires 8 * n <= |a| && 8 * n <= |b| && n % 4 == 0 && g % 4 == 0
    ensures Families(a, b, g, n) == Groups(a, b, g, 1, n)
    decreases n - g
  {
    if g < n {
      InterleavedGroups(a, b, g + 4, n);
      FamiliesStep(a, b, g, n);
    }
  }

  /** The four families of every fourth group, from `g` on. */
  function Families(a: seq<real>, b: seq<real>, g: nat, n: nat): real
    requires 8 * n <= |a| && 8 * n <= |b|
  {
    Groups(a, b, g, 4, n) + Groups(a, b, g + 1, 4, n) + Groups(a, b, g + 2, 4, n) + Groups(a, b, g + 3, 4, n)
  }

  lemma FamiliesStep(a: seq<real>, b: seq<real>, g: nat, n: nat)
    requires 8 * n <= |a| && 8 * n <= |b| && g + 3 < n
    ensures Families(a, b, g, n) - Families(a, b, g + 4, n) == Groups(a, b, g, 1, n) - Groups(a, b, g + 4, 1, n)
  {
    GroupsStep(a, b, g, n);
    GroupsStep(a, b, g + 1, n);
    GroupsStep(a, b, g + 2, n);
    GroupsStep(a, b, g + 3, n);
  }

  lemma Dot64IsDot(a: seq<real>, b: seq<real>)
    requires |a| == |b| == 64
    ensures Dot64(a, b) == Dot(a, b)
  {
    GroupsAreDot(a, b, 0, 8);
    assert a[8*0..] == a && b[8*0..] == b;
  }

  lemma Dot128OneIsDot(a: seq<real>, b: seq<real>)
    requires |a| == |b| == 128
    ensures Dot128One(a, b) == Dot(a, b)
  {
    GroupsAreDot(a, b, 0, 16);
    assert a[8*0..] == a && b[8*0..] == b;
  }

  lemma ReduceFour(acc0: Lanes, acc1: Lanes, acc2: Lanes, acc3: Lanes)
    ensures Reduce(Add(Add(acc0, acc1), Add(acc2, acc3))) == Reduce(acc0) + Reduce(acc1) + Reduce(acc2) + Reduce(acc3)
  {
    ReduceAdd(acc0, acc1);
    ReduceAdd(acc2, acc3);
    ReduceAdd(Add(acc0, acc1), Add(acc2, acc3));
  }

  /** The four families of a product over `n` groups contribute all of it. */
  lemma FourFamilies(a: seq<real>, b: seq<real>, n: nat)
    requires |a| == |b| == 8 * n && n % 4 == 0
    ensures Groups(a, b, 0, 4, n) + Groups(a, b, 1, 4, n) + Groups(a, b, 2, 4, n) + Groups(a, b, 3, 4, n) == Dot(a, b)
  {
    InterleavedGroups(a, b, 0, n);
    GroupsAreDot(a, b, 0, n);
    assert a[8*0..] == a && b[8*0..] == b;
  }

  lemma Dot128FourIsDot(a: seq<real>, b: seq<real>)
    requires |a| == |b| == 128
    ensures Dot128Four(a, b) == Dot(a, b)
  {
    ReduceFour(Started(a, b, 0, 4, 16), Started(a, b, 1, 4, 16), Started(a, b, 2, 4, 16), Started(a, b, 3, 4, 16));
    FourFamilies(a, b, 16);
  }

  /** How the grouped-query kernels choose among the forms. */
  function DotByDim(a: seq<real>, b: seq<real>, fourAccumulators: bool): real
    requires |a| == |b|
  {
    if |a| == 64 then Dot64(a, b)
    else if |a| == 128 then (if fourAccumulators then Dot128Four(a, b) else Dot128One(a, b))
    else Dot(a, b)
  }

  /** Whichever form is chosen, it is the plain dot product. */
  lemma DotByDimIsDot(a: seq<real>, b: seq<real>, fourAccumulators: bool)
    requires |a| == |b|
    ensures DotByDim(a, b, fourAccumulators) == Dot(a, b)
  {
    if |a| == 64 { Dot64IsDot(a, b); }
    if |a| == 128 { Dot128OneIsDot(a, b); Dot128FourIsDot(a, b); }
  }
}

/** Finite sums over sequences: the algebra that the attention and byte-accounting proofs share. */
module Sums {

  function NatSum(xs: seq<nat>): nat {
    if xs == [] then 0 else NatSum(xs[..|xs|-1]) + xs[|xs|-1]
  }

  function Sum<T>(f: T -> real, ts: seq<T>): real {
    if ts == [] then 0.0 else f(ts[0]) + Sum(f, ts[1..])
  }

  lemma {:induction false} SumConcat<T>(f: T -> real, a: seq<T>, b: seq<T>)
    ensures Sum(f, a + b) == Sum(f, a) + Sum(f, b)
  {
    if a == [] {
      assert a + b == b;
    } else {
      assert (a + b)[1..] == a[1..] + b;
      SumConcat(f, a[1..], b);
    }
  }

  /** Locates the head of `a` in a permutation of `a`; what is left of both is again a permutation. */
  lemma FindHead<T>(a: seq<T>, b: seq<T>) returns (i: nat)
    requires multiset(a) == multiset(b) && a != []
    ensures i < |b| && b[i] == a[0]
    ensures multiset(a[1..]) == multiset(b[..i] + b[i+1..])
  {
    assert a == [a[0]] + a[1..];
    assert a[0] in multiset(b);
    i :| 0 <= i < |b| && b[i] == a[0];
    assert b == b[..i] + [b[i]] + b[i+1..];
    assert multiset(a[1..]) == multiset(a) - multiset{a[0]};
    assert multiset(b[..i] + b[i+1..]) == multiset(b) - multiset{b[i]};
  }

  lemma {:induction false} SumPermute<T>(f: T -> real, a: seq<T>, b: seq<T>)
    requires multiset(a) == multiset(b)
    ensures Sum(f, a) == Sum(f, b)
  {
    if a == [] {
      assert |b| == |multiset(b)| == 0;
    } else {
      var i := FindHead(a, b);
      SumPermute(f, a[1..], b[..i] + b[i+1..]);
      assert b == b[..i] + b[i..] && b[i..][1..] == b[i+1..];
      SumConcat(f, b[..i], b[i..]);
      SumConcat(f, b[..i], b[i+1..]);
    }
  }

  lemma {:induction false} SumScale<T>(f: T -> real, g: T -> real, c: real, ts: seq<T>)
    requires forall t :: t in ts ==> g(t) == f(t) * c
    ensures Sum(g, ts) == Sum(f, ts) * c
  {
    if ts != [] {
      assert ts[0] in ts;
      SumScale(f, g, c, ts[1..]);
    }
  }

  lemma {:induction false} SumMonotone<T>(f: T -> real, g: T -> real, ts: seq<T>)
    requires forall t :: t in ts ==> f(t) <= g(t)
    ensures Sum(f, ts) <= Sum(g, ts)
  {
    if ts != [] {
      assert ts[0] in ts;
      SumMonotone(f, g, ts[1..]);
    }
  }

  lemma {:induction false} SumPositive<T>(f: T -> real, ts: seq<T>)
    requires forall t :: t in ts ==> f(t) > 0.0
    ensures Sum(f, ts) >= 0.0
    ensures forall t :: t in ts ==> f(t) <= Sum(f, ts)
  {
    if ts != [] {
      assert ts[0] in ts;
      SumPositive(f, ts[1..]);
      assert forall t :: t in ts ==> t == ts[0] || t in ts[1..];
    }
  }

  lemma {:induction false} SumConstant<T>(c: real, ts: seq<T>)
    ensures Sum((t: T) => c, ts) == c * |ts| as real
  {
    if ts != [] { SumConstant(c, ts[1..]); }
  }

  /** The plain dot product. */
  function Dot(a: seq<real>, b: seq<real>): real
    requires |a| == |b|
  {
    if a == [] then 0.0 else a[0] * b[0] + Dot(a[1..], b[1..])
  }

  lemma {:induction false} DotConcat(a: seq<real>, b: seq<real>, c: seq<real>, d: seq<real>)
    requires |a| == |b| && |c| == |d|
    ensures Dot(a + c, b + d) == Dot(a, b) + Dot(c, d)
  {
    if a == [] {
      assert a + c == c && b + d == d;
    } else {
      assert (a + c)[1..] == a[1..] + c && (b + d)[1..] == b[1..] + d;
      DotConcat(a[1..], b[1..], c, d);
    }
  }

  // ------------------------------------------------------------------ sums over an index

  /** f(0) + ... + f(n - 1) */
  function SumTo(f: nat -> real, n: nat): real {
    if n == 0 then 0.0 else SumTo(f, n - 1) + f(n - 1)
  }

  lemma {:induction false} SumToIsSum<T>(f: nat -> real, g: T -> real, ts: seq<T>)
    requires forall i: nat | i < |ts| :: f(i) == g(ts[i])
    ensures SumTo(f, |ts|) == Sum(g, ts)
  {
    if ts != [] {
      var n := |ts| - 1;
      SumToIsSum(f, g, ts[..n]);
      SumConcat(g, ts[..n], [ts[n]]);
      assert ts == ts[..n] + [ts[n]] && f(n) == g(ts[n]);
    }
  }

  lemma {:induction false} SumToSame(f: nat -> real, g: nat -> real, n: nat)
    requires forall i: nat | i < n :: f(i) == g(i)
    ensures SumTo(f, n) == SumTo(g, n)
  {
    if n > 0 { SumToSame(f, g, n - 1); }
  }

  function Products(a: seq<real>, b: seq<real>): nat -> real {
    (i: nat) => if i < |a| && i < |b| then a[i] * b[i] else 0.0
  }

  /** The sum over i of a[i] * b[i]. */
  function Inner(a: seq<real>, b: seq<real>): real
    requires |a| == |b|
  {
    SumTo(Products(a, b), |a|)
  }

  lemma {:induction false} DotOfPrefix(a: seq<real>, b: seq<real>, n: nat)
    requires |a| == |b| && n <= |a|
    ensures Dot(a[..n], b[..n]) == SumTo(Products(a, b), n)
  {
    if n > 0 {
      DotOfPrefix(a, b, n - 1);
      assert a[..n] == a[..n-1] + [a[n-1]] && b[..n] == b[..n-1] + [b[n-1]];
      DotConcat(a[..n-1], b[..n-1], [a[n-1]], [b[n-1]]);
      assert Dot([a[n-1]], [b[n-1]]) == a[n-1] * b[n-1] + Dot([], []);
    }
  }

  lemma DotIsInner(a: seq<real>, b: seq<real>)
    requires |a| == |b|
    ensures Dot(a, b) == Inner(a, b)
  {
    DotOfPrefix(a, b, |a|);
    assert a[..|a|] == a && b[..|b|] == b;
  }

  /** Cutting both vectors at `i` cuts the dot product. */
  lemma DotSplit(a: seq<real>, b: seq<real>, i: nat)
    requires |a| == |b| && i <= |a|
    ensures Dot(a, b) == Dot(a[..i], b[..i]) + Dot(a[i..], b[i..])
  {
    assert a == a[..i] + a[i..] && b == b[..i] + b[i..];
    DotConcat(a[..i], b[..i], a[i..], b[i..]);
  }

  function Join<T>(parts: seq<seq<T>>): seq<T> {
    if parts == [] then [] else parts[0] + Join(parts[1..])
  }

  lemma {:induction false} JoinConcat<T>(a: seq<seq<T>>, b: seq<seq<T>>)
    ensures Join(a + b) == Join(a) + Join(b)
  {
    if a == [] {
      assert a + b == b;
    } else {
      assert (a + b)[1..] == a[1..] + b;
      JoinConcat(a[1..], b);
    }
  }

  function Map<S, T>(f: S -> T, xs: seq<S>): (ys: seq<T>)
    ensures |ys| == |xs|
    ensures forall i :: 0 <= i < |xs| ==> ys[i] == f(xs[i])
  {
    if xs == [] then [] else [f(xs[0])] + Map(f, xs[1..])
  }

  lemma {:induction false} MapConcat<S, T>(f: S -> T, a: seq<S>, b: seq<S>)
    ensures Map(f, a + b) == Map(f, a) + Map(f, b)
  {
    forall i | 0 <= i < |a + b| ensures Map(f, a + b)[i] == (Map(f, a) + Map(f, b))[i] {}
  }

  lemma MapPick<S, T>(f: S -> T, b: seq<S>, i: nat)
    requires i < |b|
    ensures multiset(Map(f, b)) == multiset(Map(f, b[..i] + b[i+1..])) + multiset{f(b[i])}
  {
    MapConcat(f, b[..i], b[i+1..]);
    MapConcat(f, b[..i], b[i..]);
    assert b == b[..i] + b[i..] && b[i..][1..] == b[i+1..];
    assert Map(f, b[i..]) == [f(b[i])] + Map(f, b[i+1..]);
  }

  lemma {:induction false} MapMultiset<S, T>(f: S -> T, a: seq<S>, b: seq<S>)
    requires multiset(a) == multiset(b)
    ensures multiset(Map(f, a)) == multiset(Map(f, b))
  {
    if a == [] {
      assert |b| == |multiset(b)| == 0;
    } else {
      var i := FindHead(a, b);
      MapMultiset(f, a[1..], b[..i] + b[i+1..]);
      MapPick(f, b, i);
      assert a[..0] + a[1..] == a[1..];
      MapPick(f, a, 0);
    }
  }

  lemma {:induction false} JoinMultiset<T>(a: seq<seq<T>>, b: seq<seq<T>>)
    requires multiset(a) == multiset(b)
    ensures multiset(Join(a)) == multiset(Join(b))
  {
    if a == [] {
      assert |b| == |multiset(b)| == 0;
    } else {
      var i := FindHead(a, b);
      JoinMultiset(a[1..], b[..i] + b[i+1..]);
      JoinConcat(b[..i], b[i+1..]);
      JoinConcat(b[..i], b[i..]);
      assert b == b[..i] + b[i..] && b[i..][1..] == b[i+1..];
      assert multiset(Join(b)) == multiset(Join(b[..i])) + (multiset(b[i]) + multiset(Join(b[i+1..])));
    }
  }
}

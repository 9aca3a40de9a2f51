/**
 Hybrid decode attention: resident tokens on the host, the rest scanned and selected inside the
 storage device, merged by the online softmax.  It must agree with dense attention over the
 baseline cache.  This module is the value-level specification; module Pruner has the objects.
 */
module HybridAttention {
  import opened Options
  import opened Sums
  import opened Softmax
  import opened Accumulator
  import opened DenseReference
  import R = Ranking
  import opened Kernel
  import opened Selection
  import opened TieredCache
  import opened TieredRefinement

  // ------------------------------------------------------------------ tokens of payloads

  predicate ShapedRows(xs: seq<Matrix>, heads: nat, dim: nat) {
    forall t :: 0 <= t < |xs| ==> Shape(xs[t], heads, dim)
  }

  predicate ShapedPayload(x: Payload, heads: nat, dim: nat) {
    |x.k| == |x.v| && ShapedRows(x.k, heads, dim) && ShapedRows(x.v, heads, dim)
  }

  predicate ShapedPayloads(xs: seq<Payload>, heads: nat, dim: nat) {
    forall i :: 0 <= i < |xs| ==> ShapedPayload(xs[i], heads, dim)
  }

  /** A decode query: one vector per head, and the common scale of the logits. */
  datatype Query = Query(q: Matrix, heads: nat, dim: nat, scale: real) {
    predicate Valid() { Shape(q, heads, dim) }
  }

  /** What head `h` and value coordinate `d` see of the payload under the query. */
  function TokensOf(query: Query, x: Payload, h: nat, d: nat): (ts: seq<Token>)
    requires query.Valid() && ShapedPayload(x, query.heads, query.dim) && h < query.heads && d < query.dim
    ensures |ts| == |x.k|
  {
    seq(|x.k|, t requires 0 <= t < |x.k| => Token(Scaled(Dot(query.q[h], x.k[t][h]), query.scale), x.v[t][h][d]))
  }

  /** Those are the logits and values of the head, coordinate and tokens. */
  lemma TokensCarry(query: Query, x: Payload, h: nat, d: nat)
    requires query.Valid() && ShapedPayload(x, query.heads, query.dim) && h < query.heads && d < query.dim
    ensures Shaped(x.k, x.v, query.heads, query.dim)
    ensures Carries(TokensOf(query, x, h, d), query.q, query.scale, x.k, x.v, query.heads, query.dim, h, d)
  {
    forall t: nat | t < |x.k| ensures TokensOf(query, x, h, d)[t].logit == LogitAt(query.q, query.scale, x.k, h, t) {
      DotIsInner(query.q[h], x.k[t][h]);
    }
  }

  /** `out` is dense attention over the payload, at one head and coordinate. */
  ghost predicate Attends(exp: real -> real, query: Query, x: Payload, h: nat, d: nat, out: real)
    requires query.Valid() && ShapedPayload(x, query.heads, query.dim) && h < query.heads && d < query.dim
  {
    IsAttention(exp, query.q, query.scale, x.k, x.v, query.heads, query.dim, h, d, out)
  }

  lemma AverageAttends(exp: real -> real, query: Query, x: Payload, h: nat, d: nat)
    requires IsExp(exp) && query.Valid() && ShapedPayload(x, query.heads, query.dim)
    requires h < query.heads && d < query.dim
    ensures Attends(exp, query, x, h, d, Average(exp, TokensOf(query, x, h, d)))
  {
    TokensCarry(query, x, h, d);
    AverageIsAttention(exp, TokensOf(query, x, h, d), query.q, query.scale, x.k, x.v, query.heads, query.dim, h, d);
  }

  function JoinPayloads(xs: seq<Payload>): Payload {
    if xs == [] then Payload([], [])
    else
      var init, last := JoinPayloads(xs[..|xs|-1]), xs[|xs|-1];
      Payload(init.k + last.k, init.v + last.v)
  }

  lemma {:induction false} JoinShaped(xs: seq<Payload>, heads: nat, dim: nat)
    requires ShapedPayloads(xs, heads, dim)
    ensures ShapedPayload(JoinPayloads(xs), heads, dim)
  {
    if xs != [] { JoinShaped(xs[..|xs|-1], heads, dim); }
  }

  /** The tokens of each payload, one sequence a payload. */
  function TokenParts(query: Query, xs: seq<Payload>, h: nat, d: nat): (parts: seq<seq<Token>>)
    requires query.Valid() && ShapedPayloads(xs, query.heads, query.dim) && h < query.heads && d < query.dim
    ensures |parts| == |xs|
  {
    seq(|xs|, i requires 0 <= i < |xs| => TokensOf(query, xs[i], h, d))
  }

  lemma {:induction false} TokensOfJoin(query: Query, xs: seq<Payload>, h: nat, d: nat)
    requires query.Valid() && ShapedPayloads(xs, query.heads, query.dim) && h < query.heads && d < query.dim
    ensures ShapedPayload(JoinPayloads(xs), query.heads, query.dim)
    ensures TokensOf(query, JoinPayloads(xs), h, d) == Join(TokenParts(query, xs, h, d))
  {
    JoinShaped(xs, query.heads, query.dim);
    if xs != [] {
      var n := |xs| - 1;
      TokensOfJoin(query, xs[..n], h, d);
      var parts := TokenParts(query, xs, h, d);
      assert parts == TokenParts(query, xs[..n], h, d) + [TokensOf(query, xs[n], h, d)];
      JoinConcat(TokenParts(query, xs[..n], h, d), [TokensOf(query, xs[n], h, d)]);
      assert Join([TokensOf(query, xs[n], h, d)]) == TokensOf(query, xs[n], h, d);
    }
  }

  /** Payload lists with the same payloads give the same tokens, in some order. */
  lemma TokensPermute(query: Query, xs: seq<Payload>, ys: seq<Payload>, h: nat, d: nat)
    requires query.Valid() && ShapedPayloads(xs, query.heads, query.dim) && ShapedPayloads(ys, query.heads, query.dim)
    requires h < query.heads && d < query.dim
    requires multiset(xs) == multiset(ys)
    ensures multiset(TokenParts(query, xs, h, d)) == multiset(TokenParts(query, ys, h, d))
  {
    var f := (x: Payload) => if ShapedPayload(x, query.heads, query.dim) then TokensOf(query, x, h, d) else [];
    assert TokenParts(query, xs, h, d) == Map(f, xs);
    assert TokenParts(query, ys, h, d) == Map(f, ys);
    MapMultiset(f, xs, ys);
  }

  lemma JoinedTokensPermute(query: Query, xs: seq<Payload>, ys: seq<Payload>, h: nat, d: nat)
    requires query.Valid() && ShapedPayloads(xs, query.heads, query.dim) && ShapedPayloads(ys, query.heads, query.dim)
    requires h < query.heads && d < query.dim
    requires multiset(xs) == multiset(ys)
    ensures ShapedPayload(JoinPayloads(xs), query.heads, query.dim)
    ensures ShapedPayload(JoinPayloads(ys), query.heads, query.dim)
    ensures multiset(TokensOf(query, JoinPayloads(xs), h, d)) == multiset(TokensOf(query, JoinPayloads(ys), h, d))
  {
    TokensPermute(query, xs, ys, h, d);
    JoinMultiset(TokenParts(query, xs, h, d), TokenParts(query, ys, h, d));
    TokensOfJoin(query, xs, h, d);
    TokensOfJoin(query, ys, h, d);
  }

  // ------------------------------------------------------------------ what the host and the device read

  /** `get_hot_kv`: the data of the resident blocks, in block order. */
  function Residents(bs: seq<Block>): seq<Payload> {
    if bs == [] then []
    else
      var b := bs[|bs|-1];
      Residents(bs[..|bs|-1]) + if b.inRam && Loaded(b) then [Payload(b.k.value, b.v.value)] else []
  }

  /** `get_cold_blocks`: is there any? */
  predicate AnyCold(bs: seq<Block>) {
    exists i :: 0 <= i < |bs| && !bs[i].inRam
  }

  function StoredIdSet(flash: Flash, l: int): set<nat> {
    set x | x in flash && x.0 == l :: x.1
  }

  predicate IsGreatest(ids: set<nat>, m: nat) {
    m in ids && forall x :: x in ids ==> x <= m
  }

  lemma {:induction false} HasGreatest(ids: set<nat>)
    requires ids != {}
    ensures exists m :: IsGreatest(ids, m)
  {
    var m :| m in ids;
    if ids == {m} {
      assert IsGreatest(ids, m);
    } else {
      HasGreatest(ids - {m});
      var rest :| IsGreatest(ids - {m}, rest);
      var greatest := if rest > m then rest else m;
      forall x | x in ids ensures x <= greatest {
        if x != m { assert x in ids - {m}; }
      }
      assert IsGreatest(ids, greatest);
    }
  }

  /** The ids in increasing order. */
  function SortedIds(ids: set<nat>): (r: seq<nat>)
    ensures forall i :: 0 <= i < |r| ==> r[i] in ids
    ensures R.Ascending(r)
  {
    if ids == {} then []
    else
      HasGreatest(ids);
      var m :| m in ids && IsGreatest(ids, m);
      SortedIds(ids - {m}) + [m]
  }

  /** The last of the sorted ids is the greatest. */
  lemma SortedIdsLast(ids: set<nat>) returns (m: nat)
    requires ids != {}
    ensures IsGreatest(ids, m) && SortedIds(ids) == SortedIds(ids - {m}) + [m]
  {
    HasGreatest(ids);
    m :| m in ids && IsGreatest(ids, m) && SortedIds(ids) == SortedIds(ids - {m}) + [m];
  }

  lemma {:induction false} SortedIdsComplete(ids: set<nat>, x: nat)
    requires x in ids
    ensures x in SortedIds(ids)
  {
    var m := SortedIdsLast(ids);
    if x != m { SortedIdsComplete(ids - {m}, x); }
  }

  /** The last of an ascending list of all ids is the greatest one. */
  lemma LastIsGreatest(ids: set<nat>, r: seq<nat>, m: nat)
    requires R.Ascending(r) && r != [] && IsGreatest(ids, m)
    requires r[|r|-1] in ids && m in r
    ensures r[|r|-1] == m
  {
    var j :| 0 <= j < |r| && r[j] == m;
  }

  /** The sorted list of a set of ids is its only ascending list. */
  lemma {:induction false} SortedIdsUnique(ids: set<nat>, r: seq<nat>)
    requires R.Ascending(r)
    requires forall x :: x in ids <==> x in r
    ensures r == SortedIds(ids)
    decreases |r|
  {
    if r == [] {
      assert ids == {};
    } else {
      var n := |r| - 1;
      assert r[n] in r;
      var m := SortedIdsLast(ids);
      LastIsGreatest(ids, r, m);
      forall x ensures x in ids - {m} <==> x in r[..n] {
        AllButLast(r, x);
      }
      SortedIdsUnique(ids - {m}, r[..n]);
    }
  }

  lemma AllButLast(r: seq<nat>, x: nat)
    requires R.Ascending(r) && r != []
    ensures x in r[..|r|-1] <==> x in r && x != r[|r|-1]
  {
    if x in r && x != r[|r|-1] {
      var j :| 0 <= j < |r| && r[j] == x;
      assert r[..|r|-1][j] == x;
    }
  }

  // ------------------------------------------------------------------ blocks and stored payloads

  /** The block's data is its slice of the baseline, wherever it is held; a block that is not resident is stored. */
  predicate BlockData(b: Block, l: int, flash: Flash, ks: seq<Matrix>, vs: seq<Matrix>)
    requires b.start + b.count <= |ks| == |vs|
  {
    && b.layer == l
    && (b.inRam ==> b.k == Some(Slice(b, ks, vs).k) && b.v == Some(Slice(b, ks, vs).v))
    && (!b.inRam ==> (l, b.id) in flash)
    && ((l, b.id) in flash ==> flash[(l, b.id)] == Slice(b, ks, vs))
  }

  ghost predicate StoredAreBlocks(bs: seq<Block>, l: int, flash: Flash) {
    forall id :: (l, id) in flash ==> exists i :: 0 <= i < |bs| && bs[i].id == id
  }

  /**
   The part of the layer invariant that also survives fetching cold blocks back: a block may then
   be both resident and stored.
   */
  ghost predicate DataOk(p: Policy, bs: seq<Block>, bound: nat, flash: Flash, l: int, ks: seq<Matrix>,
                         vs: seq<Matrix>) {
    && |ks| == |vs|
    && Tiles(p, bs, |ks|)
    && IdsAscend(bs, bound)
    && (forall i :: 0 <= i < |bs| ==> BlockData(bs[i], l, flash, ks, vs))
    && StoredAreBlocks(bs, l, flash)
  }

  /** Is the block held twice? */
  predicate Twice(b: Block, l: int, flash: Flash) {
    b.inRam && (l, b.id) in flash
  }

  lemma BlocksOkData(p: Policy, bs: seq<Block>, bound: nat, flash: Flash, l: int, ks: seq<Matrix>, vs: seq<Matrix>)
    requires BlocksOk(p, bs, bound, flash, l, ks, vs)
    ensures DataOk(p, bs, bound, flash, l, ks, vs)
    ensures forall i :: 0 <= i < |bs| ==> !Twice(bs[i], l, flash)
  {
    forall i | 0 <= i < |bs|
      ensures BlockData(bs[i], l, flash, ks, vs) && !Twice(bs[i], l, flash)
    {
      assert BlockOk(p, bs[i], l, flash, ks, vs);
      if (l, bs[i].id) in flash {
        var j :| 0 <= j < |bs| && bs[j].id == bs[i].id && !bs[j].inRam;
        assert i == j;
      }
    }
  }

  /** The stored payloads of the blocks, in block order. */
  function StoredOf(bs: seq<Block>, l: int, flash: Flash): seq<Payload> {
    if bs == [] then []
    else
      var b := bs[|bs|-1];
      StoredOf(bs[..|bs|-1], l, flash) + if (l, b.id) in flash then [flash[(l, b.id)]] else []
  }

  function StoredIdsOf(bs: seq<Block>, l: int, flash: Flash): seq<nat> {
    if bs == [] then []
    else
      var b := bs[|bs|-1];
      StoredIdsOf(bs[..|bs|-1], l, flash) + if (l, b.id) in flash then [b.id] else []
  }

  predicate Fits(bs: seq<Block>, n: nat) {
    forall i :: 0 <= i < |bs| ==> bs[i].start + bs[i].count <= n
  }

  function Slices(bs: seq<Block>, ks: seq<Matrix>, vs: seq<Matrix>): (r: seq<Payload>)
    requires |ks| == |vs| && Fits(bs, |ks|)
    ensures |r| == |bs|
  {
    seq(|bs|, i requires 0 <= i < |bs| => Slice(bs[i], ks, vs))
  }

  /** The slices of the blocks that are held twice. */
  function TwiceOf(bs: seq<Block>, l: int, flash: Flash, ks: seq<Matrix>, vs: seq<Matrix>): seq<Payload>
    requires |ks| == |vs| && Fits(bs, |ks|)
  {
    if bs == [] then []
    else
      var b := bs[|bs|-1];
      TwiceOf(bs[..|bs|-1], l, flash, ks, vs) + if Twice(b, l, flash) then [Slice(b, ks, vs)] else []
  }

  lemma CountOne(r: seq<Payload>, s: seq<Payload>, a: seq<Payload>, t: seq<Payload>, x: Payload, resident: bool,
                 stored: bool)
    requires multiset(r) + multiset(s) == multiset(a) + multiset(t)
    requires resident || stored
    ensures multiset(r + if resident then [x] else []) + multiset(s + if stored then [x] else [])
         == multiset(a + [x]) + multiset(t + if resident && stored then [x] else [])
  {
    var rx, sx, tx := if resident then [x] else [], if stored then [x] else [], if resident && stored then [x] else [];
    assert multiset(rx) + multiset(sx) == multiset([x]) + multiset(tx);
    assert multiset(r + rx) + multiset(s + sx) == (multiset(r) + multiset(s)) + (multiset(rx) + multiset(sx));
    assert multiset(a + [x]) + multiset(t + tx) == (multiset(a) + multiset(t)) + (multiset([x]) + multiset(tx));
  }

  /** How the four lists grow with the last block. */
  lemma LastBlockLists(bs: seq<Block>, l: int, flash: Flash, ks: seq<Matrix>, vs: seq<Matrix>)
    requires |ks| == |vs| && Fits(bs, |ks|) && bs != []
    requires BlockData(bs[|bs|-1], l, flash, ks, vs)
    ensures var init, b, x := bs[..|bs|-1], bs[|bs|-1], Slice(bs[|bs|-1], ks, vs);
      && Residents(bs) == Residents(init) + (if b.inRam then [x] else [])
      && StoredOf(bs, l, flash) == StoredOf(init, l, flash) + (if (l, b.id) in flash then [x] else [])
      && Slices(bs, ks, vs) == Slices(init, ks, vs) + [x]
      && TwiceOf(bs, l, flash, ks, vs) == TwiceOf(init, l, flash, ks, vs)
          + (if b.inRam && (l, b.id) in flash then [x] else [])
      && (b.inRam || (l, b.id) in flash)
  {
  }

  /** Host plus device hold every block once, and the twice-held ones once more. */
  lemma {:induction false} Accounting(bs: seq<Block>, l: int, flash: Flash, ks: seq<Matrix>, vs: seq<Matrix>)
    requires |ks| == |vs| && Fits(bs, |ks|)
    requires forall i :: 0 <= i < |bs| ==> BlockData(bs[i], l, flash, ks, vs)
    ensures multiset(Residents(bs)) + multiset(StoredOf(bs, l, flash))
         == multiset(Slices(bs, ks, vs)) + multiset(TwiceOf(bs, l, flash, ks, vs))
  {
    if bs != [] {
      var n := |bs| - 1;
      var init, b, x := bs[..n], bs[n], Slice(bs[n], ks, vs);
      LastBlockLists(bs, l, flash, ks, vs);
      Accounting(init, l, flash, ks, vs);
      CountOne(Residents(init), StoredOf(init, l, flash), Slices(init, ks, vs), TwiceOf(init, l, flash, ks, vs),
               x, b.inRam, (l, b.id) in flash);
    }
  }

  lemma {:induction false} TwiceIffAny(bs: seq<Block>, l: int, flash: Flash, ks: seq<Matrix>, vs: seq<Matrix>)
    requires |ks| == |vs| && Fits(bs, |ks|)
    ensures TwiceOf(bs, l, flash, ks, vs) == [] <==> forall i :: 0 <= i < |bs| ==> !Twice(bs[i], l, flash)
  {
    if bs != [] {
      TwiceIffAny(bs[..|bs|-1], l, flash, ks, vs);
    }
  }

  lemma {:induction false} SlicesJoin(p: Policy, bs: seq<Block>, n: nat, ks: seq<Matrix>, vs: seq<Matrix>, i: nat)
    requires |ks| == |vs| == n && Tiles(p, bs, n) && 0 < i <= |bs|
    ensures var end := bs[i-1].start + bs[i-1].count;
      JoinPayloads(Slices(bs, ks, vs)[..i]) == Payload(ks[..end], vs[..end])
  {
    var b, xs := bs[i-1], Slices(bs, ks, vs);
    SliceExtends(b, ks, vs);
    assert xs[..i][..i-1] == xs[..i-1];
    if i == 1 {
      assert JoinPayloads(xs[..0]) == Payload(ks[..0], vs[..0]);
    } else {
      SlicesJoin(p, bs, n, ks, vs, i - 1);
      assert bs[i-2].start + bs[i-2].count == b.start;
    }
  }

  /** The slices of all blocks join to the whole sequence. */
  lemma SlicesAreAll(p: Policy, bs: seq<Block>, ks: seq<Matrix>, vs: seq<Matrix>)
    requires |ks| == |vs| && Tiles(p, bs, |ks|)
    ensures JoinPayloads(Slices(bs, ks, vs)) == Payload(ks, vs)
  {
    if bs != [] {
      SlicesJoin(p, bs, |ks|, ks, vs, |bs|);
      assert Slices(bs, ks, vs)[..|bs|] == Slices(bs, ks, vs);
      assert ks[..|ks|] == ks && vs[..|vs|] == vs;
    }
  }

  // ------------------------------------------------------------------ what the device scans

  /** The payloads of the layer in the flash store, sorted by block id. */
  function StoredBlocks(flash: Flash, l: int): (xs: seq<Payload>)
    ensures |xs| == |SortedIds(StoredIdSet(flash, l))|
  {
    var ids := SortedIds(StoredIdSet(flash, l));
    seq(|ids|, i requires 0 <= i < |ids| => flash[(l, ids[i])])
  }

  lemma {:induction false} StoredIdsFacts(bs: seq<Block>, bound: nat, l: int, flash: Flash)
    requires IdsAscend(bs, bound)
    ensures var ids := StoredIdsOf(bs, l, flash);
      && |ids| == |StoredOf(bs, l, flash)|
      && R.Ascending(ids)
      && (forall i :: 0 <= i < |ids| ==> (l, ids[i]) in flash && StoredOf(bs, l, flash)[i] == flash[(l, ids[i])])
      && (forall i :: 0 <= i < |ids| ==> ids[i] < (if bs == [] then 0 else bs[|bs|-1].id + 1))
      && (forall i :: 0 <= i < |bs| && (l, bs[i].id) in flash ==> bs[i].id in ids)
  {
    if bs != [] {
      StoredIdsFacts(bs[..|bs|-1], bound, l, flash);
    }
  }

  /** Sorting the stored blocks by id gives them in block order. */
  lemma StoredInBlockOrder(p: Policy, bs: seq<Block>, bound: nat, flash: Flash, l: int)
    requires IdsAscend(bs, bound) && StoredAreBlocks(bs, l, flash)
    ensures StoredBlocks(flash, l) == StoredOf(bs, l, flash)
  {
    var ids, all := StoredIdsOf(bs, l, flash), StoredIdSet(flash, l);
    StoredIdsFacts(bs, bound, l, flash);
    forall x ensures x in all <==> x in ids {
      if x in all {
        assert (l, x) in flash;
        var i :| 0 <= i < |bs| && bs[i].id == x;
      }
    }
    SortedIdsUnique(all, ids);
  }
}

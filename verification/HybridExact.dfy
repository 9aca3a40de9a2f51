/**
 Hybrid attention against dense attention: exactness over every run, and exactly when it holds.
 */
module HybridExact {
  import opened Sums
  import opened Softmax
  import opened Accumulator
  import R = Ranking
  import opened Kernel
  import opened Selection
  import opened TieredCache
  import opened TieredRefinement
  import opened TieredRuns
  import opened HybridAttention

  // ------------------------------------------------------------------ the hybrid result

  /** The scores by which the device filters: as many key heads as query heads. */
  function BlockScores(query: Query, xs: seq<Payload>): (s: seq<real>)
    requires query.Valid() && ShapedPayloads(xs, query.heads, query.dim)
    ensures |s| == |xs|
  {
    seq(|xs|, i requires 0 <= i < |xs| => BlockScore(query.q, xs[i].k, 1, query.scale))
  }

  function Gather(xs: seq<Payload>, picks: seq<nat>): (r: seq<Payload>)
    requires forall i :: 0 <= i < |picks| ==> picks[i] < |xs|
    ensures |r| == |picks|
  {
    seq(|picks|, i requires 0 <= i < |picks| => xs[picks[i]])
  }

  /** The payloads that in-storage filtering returns for the layer, best first. */
  function Picked(query: Query, flash: Flash, l: int, topK: nat): (xs: seq<Payload>)
    requires query.Valid() && ShapedPayloads(StoredBlocks(flash, l), query.heads, query.dim)
    ensures ShapedPayloads(xs, query.heads, query.dim)
  {
    var xs := StoredBlocks(flash, l);
    Gather(xs, Picks(BlockScores(query, xs), topK))
  }

  predicate ShapedStore(query: Query, bs: seq<Block>, flash: Flash, l: int) {
    && ShapedPayloads(Residents(bs), query.heads, query.dim)
    && ShapedPayloads(StoredBlocks(flash, l), query.heads, query.dim)
  }

  lemma ShapedConcat(xs: seq<Payload>, ys: seq<Payload>, heads: nat, dim: nat)
    requires ShapedPayloads(xs, heads, dim) && ShapedPayloads(ys, heads, dim)
    ensures ShapedPayloads(xs + ys, heads, dim)
  {
  }

  /** The payloads attended to: the resident blocks, then, if any block is cold, the picked ones. */
  function Attended(query: Query, bs: seq<Block>, flash: Flash, l: int, topK: nat): (xs: seq<Payload>)
    requires query.Valid() && ShapedStore(query, bs, flash, l)
    ensures ShapedPayloads(xs, query.heads, query.dim)
  {
    var picked := if AnyCold(bs) then Picked(query, flash, l, topK) else [];
    ShapedConcat(Residents(bs), picked, query.heads, query.dim);
    Residents(bs) + picked
  }

  /** `compute_decode_attention` at head `h` and value coordinate `d`: two updates, then finalize. */
  function Hybrid(exp: real -> real, query: Query, bs: seq<Block>, flash: Flash, l: int, topK: nat, h: nat,
                  d: nat): real
    requires query.Valid() && ShapedStore(query, bs, flash, l) && h < query.heads && d < query.dim
  {
    JoinShaped(Residents(bs), query.heads, query.dim);
    var hot := Update(exp, INITIAL, TokensOf(query, JoinPayloads(Residents(bs)), h, d));
    if AnyCold(bs) then
      var picked := Picked(query, flash, l, topK);
      JoinShaped(picked, query.heads, query.dim);
      Finalize(Update(exp, hot, TokensOf(query, JoinPayloads(picked), h, d)))
    else Finalize(hot)
  }

  /** `compute_decode_step` over the baseline: the dense reference. */
  function Dense(exp: real -> real, query: Query, x: Payload, h: nat, d: nat): real
    requires IsExp(exp) && query.Valid() && ShapedPayload(x, query.heads, query.dim) && h < query.heads && d < query.dim
    requires x.k != []
  {
    DenseStep(exp, TokensOf(query, x, h, d))
  }

  lemma JoinPayloadsConcat(query: Query, xs: seq<Payload>, ys: seq<Payload>, h: nat, d: nat)
    requires query.Valid() && ShapedPayloads(xs, query.heads, query.dim) && ShapedPayloads(ys, query.heads, query.dim)
    requires h < query.heads && d < query.dim
    ensures ShapedPayloads(xs + ys, query.heads, query.dim)
    ensures Join(TokenParts(query, xs + ys, h, d)) == Join(TokenParts(query, xs, h, d))
        + Join(TokenParts(query, ys, h, d))
  {
    assert TokenParts(query, xs + ys, h, d) == TokenParts(query, xs, h, d) + TokenParts(query, ys, h, d);
    JoinConcat(TokenParts(query, xs, h, d), TokenParts(query, ys, h, d));
  }

  /**
   Whatever the state and `top_k`, the result is the softmax average over the tokens attended to: dense
   attention over their keys and values.
   */
  lemma HybridIsAverage(exp: real -> real, query: Query, bs: seq<Block>, flash: Flash, l: int, topK: nat, h: nat,
                        d: nat)
    requires IsExp(exp)
    requires query.Valid() && ShapedStore(query, bs, flash, l) && h < query.heads && d < query.dim
    ensures Hybrid(exp, query, bs, flash, l, topK, h, d)
         == Average(exp, Join(TokenParts(query, Attended(query, bs, flash, l, topK), h, d)))
    ensures var x := JoinPayloads(Attended(query, bs, flash, l, topK));
      ShapedPayload(x, query.heads, query.dim)
      && Attends(exp, query, x, h, d, Hybrid(exp, query, bs, flash, l, topK, h, d))
  {
    HybridAverages(exp, query, bs, flash, l, topK, h, d);
    var attended := Attended(query, bs, flash, l, topK);
    TokensOfJoin(query, attended, h, d);
    AverageAttends(exp, query, JoinPayloads(attended), h, d);
  }

  lemma HybridAverages(exp: real -> real, query: Query, bs: seq<Block>, flash: Flash, l: int, topK: nat, h: nat,
                       d: nat)
    requires IsExp(exp)
    requires query.Valid() && ShapedStore(query, bs, flash, l) && h < query.heads && d < query.dim
    ensures Hybrid(exp, query, bs, flash, l, topK, h, d)
         == Average(exp, Join(TokenParts(query, Attended(query, bs, flash, l, topK), h, d)))
  {
    var hot := Residents(bs);
    TokensOfJoin(query, hot, h, d);
    var hotTokens := Join(TokenParts(query, hot, h, d));
    UpdateTracks(exp, INITIAL, [], hotTokens);
    assert [] + hotTokens == hotTokens;
    var s := Update(exp, INITIAL, hotTokens);
    if AnyCold(bs) {
      var cold := Picked(query, flash, l, topK);
      TokensOfJoin(query, cold, h, d);
      var coldTokens := Join(TokenParts(query, cold, h, d));
      UpdateTracks(exp, s, hotTokens, coldTokens);
      FinalizeTracked(exp, Update(exp, s, coldTokens), hotTokens + coldTokens);
      JoinPayloadsConcat(query, hot, cold, h, d);
    } else {
      FinalizeTracked(exp, s, hotTokens);
      assert hot + [] == hot;
    }
  }

  // ------------------------------------------------------------------ when everything is attended to once

  /** All but the last of the scanned blocks score above -1e30. */
  predicate ScoresOk(query: Query, xs: seq<Payload>)
    requires query.Valid() && ShapedPayloads(xs, query.heads, query.dim)
  {
    forall b :: 0 <= b < |xs| - 1 ==> BlockScores(query, xs)[b] > MIN_LOGIT
  }

  lemma GatherPermutation(xs: seq<Payload>, picks: seq<nat>)
    requires forall i :: 0 <= i < |picks| ==> picks[i] < |xs|
    requires multiset(picks) == multiset(R.Indices(|xs|))
    ensures multiset(Gather(xs, picks)) == multiset(xs)
  {
    var f := (i: nat) => if i < |xs| then xs[i] else Payload([], []);
    MapMultiset(f, picks, R.Indices(|xs|));
    assert Map(f, picks) == Gather(xs, picks);
    assert Map(f, R.Indices(|xs|)) == xs;
  }

  /** With `top_k` at least the number of stored blocks, the device returns each of them once, in some order. */
  lemma PickedAll(query: Query, flash: Flash, l: int, topK: nat)
    requires query.Valid() && ShapedPayloads(StoredBlocks(flash, l), query.heads, query.dim)
    requires topK >= |StoredBlocks(flash, l)| && ScoresOk(query, StoredBlocks(flash, l))
    ensures multiset(Picked(query, flash, l, topK)) == multiset(StoredBlocks(flash, l))
  {
    var xs := StoredBlocks(flash, l);
    var s := BlockScores(query, xs);
    if xs != [] {
      PicksCompleteIff(s, topK);
      GatherPermutation(xs, Picks(s, topK));
    }
  }

  /** What a complete scan attends to: every block once, and the twice-held blocks once more if any block is cold. */
  lemma AttendedBlocks(p: Policy, query: Query, bs: seq<Block>, bound: nat, flash: Flash, l: int, topK: nat,
                       ks: seq<Matrix>, vs: seq<Matrix>)
    requires DataOk(p, bs, bound, flash, l, ks, vs)
    requires query.Valid() && ShapedStore(query, bs, flash, l)
    requires topK >= |StoredBlocks(flash, l)| && ScoresOk(query, StoredBlocks(flash, l))
    ensures multiset(Attended(query, bs, flash, l, topK))
         == multiset(Slices(bs, ks, vs)) + if AnyCold(bs) then multiset(TwiceOf(bs, l, flash, ks, vs)) else multiset{}
  {
    if AnyCold(bs) {
      PickedAll(query, flash, l, topK);
      StoredInBlockOrder(p, bs, bound, flash, l);
      Accounting(bs, l, flash, ks, vs);
    } else {
      AllResident(bs, l, flash, ks, vs);
      assert Residents(bs) + [] == Residents(bs);
    }
  }

  lemma {:induction false} AllResident(bs: seq<Block>, l: int, flash: Flash, ks: seq<Matrix>, vs: seq<Matrix>)
    requires |ks| == |vs| && Fits(bs, |ks|)
    requires forall i :: 0 <= i < |bs| ==> BlockData(bs[i], l, flash, ks, vs) && bs[i].inRam
    ensures Residents(bs) == Slices(bs, ks, vs)
  {
    if bs != [] {
      AllResident(bs[..|bs|-1], l, flash, ks, vs);
      LastBlockLists(bs, l, flash, ks, vs);
    }
  }

  /** No block is both resident and stored, or nothing is cold and the device is not asked. */
  predicate ScannedOnce(bs: seq<Block>, flash: Flash, l: int) {
    AnyCold(bs) ==> forall i :: 0 <= i < |bs| ==> !Twice(bs[i], l, flash)
  }

  /**
   A complete scan attends to exactly the blocks of the sequence, each once, if and only if no
   block is held twice while another one is cold.
   */
  lemma AttendedOnceIff(p: Policy, query: Query, bs: seq<Block>, bound: nat, flash: Flash, l: int, topK: nat,
                        ks: seq<Matrix>, vs: seq<Matrix>)
    requires DataOk(p, bs, bound, flash, l, ks, vs)
    requires query.Valid() && ShapedStore(query, bs, flash, l)
    requires topK >= |StoredBlocks(flash, l)| && ScoresOk(query, StoredBlocks(flash, l))
    ensures multiset(Attended(query, bs, flash, l, topK)) == multiset(Slices(bs, ks, vs)) <==> ScannedOnce(bs, flash, l)
  {
    AttendedBlocks(p, query, bs, bound, flash, l, topK, ks, vs);
    TwiceIffAny(bs, l, flash, ks, vs);
    var twice := TwiceOf(bs, l, flash, ks, vs);
    var all := multiset(Slices(bs, ks, vs));
    if twice != [] {
      assert |multiset(twice)| == |twice| > 0;
      assert |all + multiset(twice)| == |all| + |multiset(twice)|;
    }
  }

  // ------------------------------------------------------------------ hybrid equals dense

  lemma SlicesShaped(bs: seq<Block>, ks: seq<Matrix>, vs: seq<Matrix>, heads: nat, dim: nat)
    requires |ks| == |vs| && Fits(bs, |ks|)
    requires ShapedPayload(Payload(ks, vs), heads, dim)
    ensures ShapedPayloads(Slices(bs, ks, vs), heads, dim)
  {
  }

  /**
   Hybrid attention is dense attention: when the device is asked for at least as many blocks as it
   stores, no block is scanned twice and the scores exceed -1e30, merging resident and returned
   tokens gives exactly the dense softmax attention over the whole sequence.
   */
  lemma HybridIsDense(exp: real -> real, p: Policy, query: Query, bs: seq<Block>, bound: nat, flash: Flash, l: int,
                      topK: nat, ks: seq<Matrix>, vs: seq<Matrix>, h: nat, d: nat)
    requires IsExp(exp)
    requires DataOk(p, bs, bound, flash, l, ks, vs) && ScannedOnce(bs, flash, l)
    requires query.Valid() && ShapedStore(query, bs, flash, l) && ShapedPayload(Payload(ks, vs), query.heads, query.dim)
    requires topK >= |StoredBlocks(flash, l)| && ScoresOk(query, StoredBlocks(flash, l))
    requires h < query.heads && d < query.dim
    ensures Attends(exp, query, Payload(ks, vs), h, d, Hybrid(exp, query, bs, flash, l, topK, h, d))
    ensures ks != [] ==> Hybrid(exp, query, bs, flash, l, topK, h, d) == Dense(exp, query, Payload(ks, vs), h, d)
  {
    var attended, slices := Attended(query, bs, flash, l, topK), Slices(bs, ks, vs);
    HybridIsAverage(exp, query, bs, flash, l, topK, h, d);
    AttendedOnceIff(p, query, bs, bound, flash, l, topK, ks, vs);
    SlicesShaped(bs, ks, vs, query.heads, query.dim);
    JoinedTokensPermute(query, attended, slices, h, d);
    TokensOfJoin(query, attended, h, d);
    SlicesAreAll(p, bs, ks, vs);
    var tokens := TokensOf(query, Payload(ks, vs), h, d);
    AveragePermute(exp, Join(TokenParts(query, attended, h, d)), tokens);
    AverageAttends(exp, query, Payload(ks, vs), h, d);
    if ks != [] { DenseIsAverage(exp, tokens); }
  }

  // ------------------------------------------------------------------ over every run

  lemma {:induction false} ResidentsShaped(bs: seq<Block>, l: int, flash: Flash, ks: seq<Matrix>, vs: seq<Matrix>,
                                           heads: nat, dim: nat)
    requires |ks| == |vs| && Fits(bs, |ks|) && ShapedPayload(Payload(ks, vs), heads, dim)
    requires forall i :: 0 <= i < |bs| ==> BlockData(bs[i], l, flash, ks, vs)
    ensures ShapedPayloads(Residents(bs), heads, dim)
    ensures ShapedPayloads(StoredOf(bs, l, flash), heads, dim)
  {
    if bs != [] {
      ResidentsShaped(bs[..|bs|-1], l, flash, ks, vs, heads, dim);
      LastBlockLists(bs, l, flash, ks, vs);
      SlicesShaped(bs, ks, vs, heads, dim);
      assert ShapedPayload(Slices(bs, ks, vs)[|bs|-1], heads, dim);
    }
  }

  lemma LayerShaped(p: Policy, query: Query, bs: seq<Block>, bound: nat, flash: Flash, l: int, ks: seq<Matrix>,
                    vs: seq<Matrix>)
    requires DataOk(p, bs, bound, flash, l, ks, vs) && ShapedPayload(Payload(ks, vs), query.heads, query.dim)
    ensures ShapedStore(query, bs, flash, l)
  {
    ResidentsShaped(bs, l, flash, ks, vs, query.heads, query.dim);
    StoredInBlockOrder(p, bs, bound, flash, l);
  }

  /**
   End to end: after any run of prefills and appends, hybrid decode attention over the tiered cache
   is dense attention over the keys and values of the baseline cache that saw the same operations.
   */
  lemma EndToEnd(exp: real -> real, p: Policy, ops: seq<Op>, query: Query, l: int, topK: nat, h: nat, d: nat)
    requires IsExp(exp) && WindowOk(p) && RunOk(ops)
    requires query.Valid() && ShapedPayload(Kv(BaseRun(ops), l), query.heads, query.dim)
    requires h < query.heads && d < query.dim
    ensures var c := Run(p, ops);
      && ShapedStore(query, LayerBlocks(c, l), c.flash, l)
      && (topK >= |StoredBlocks(c.flash, l)| && ScoresOk(query, StoredBlocks(c.flash, l)) ==>
            Attends(exp, query, Kv(BaseRun(ops), l), h, d,
                    Hybrid(exp, query, LayerBlocks(c, l), c.flash, l, topK, h, d)))
  {
    var c, x := Run(p, ops), Kv(BaseRun(ops), l);
    var bs := LayerBlocks(c, l);
    RunsOk(p, ops);
    assert LayerOk(p, c, l, x.k, x.v);
    BlocksOkData(p, bs, c.nextId, c.flash, l, x.k, x.v);
    LayerShaped(p, query, bs, c.nextId, c.flash, l, x.k, x.v);
    if topK >= |StoredBlocks(c.flash, l)| && ScoresOk(query, StoredBlocks(c.flash, l)) {
      HybridIsDense(exp, p, query, bs, c.nextId, c.flash, l, topK, x.k, x.v, h, d);
    }
  }
}

/** `InStorageAttentionPruner`: one decode step over the objects of the tiered cache. */
module Pruner {
  import opened Options
  import opened Sums
  import opened Softmax
  import opened Accumulator
  import opened Selection
  import opened TieredCache
  import opened TieredRefinement
  import opened TieredRuns
  import opened HybridAttention
  import opened HybridExact
  import opened FlashController
  import opened TieredManager

  /** Positions are listed exactly when there is resident data. */
  lemma {:induction false} PositionsIffResidents(bs: seq<Block>)
    requires forall i :: 0 <= i < |bs| ==> bs[i].count >= 1
    ensures Positions(bs) == [] <==> Residents(bs) == []
  {
    if bs != [] {
      PositionsIffResidents(bs[..|bs|-1]);
      assert bs[|bs|-1].count >= 1;
    }
  }

  /** What the device needs in order to reply. */
  predicate CanReply(query: Query, xs: seq<Payload>, topK: int) {
    xs != [] && Uniform(xs, |xs[0].k|) && |xs[0].k| > 0 && query.heads > 0 && query.dim > 0 && topK > 0
  }

  lemma StoredIsFull(p: Policy, bs: seq<Block>, bound: nat, flash: Flash, l: int, ks: seq<Matrix>, vs: seq<Matrix>,
                     i: nat)
    requires WindowOk(p) && BlocksOk(p, bs, bound, flash, l, ks, vs) && i < |StoredBlocks(flash, l)|
    ensures |StoredBlocks(flash, l)[i].k| == p.perBlock && AnyCold(bs)
  {
    var ids := SortedIds(StoredIdSet(flash, l));
    ColdIsFull(p, bs, bound, flash, l, ks, vs);
    assert (l, ids[i]) in flash;
    var j :| 0 <= j < |bs| && bs[j].id == ids[i] && !bs[j].inRam;
    assert BlockOk(p, bs[j], l, flash, ks, vs);
  }

  lemma ColdIsStored(p: Policy, bs: seq<Block>, bound: nat, flash: Flash, l: int, ks: seq<Matrix>, vs: seq<Matrix>)
    requires BlocksOk(p, bs, bound, flash, l, ks, vs) && AnyCold(bs)
    ensures StoredBlocks(flash, l) != []
  {
    var j :| 0 <= j < |bs| && !bs[j].inRam;
    assert BlockOk(p, bs[j], l, flash, ks, vs);
    assert bs[j].id in StoredIdSet(flash, l);
    SortedIdsComplete(StoredIdSet(flash, l), bs[j].id);
  }

  /** Every stored block is full, so the device can stack what it scans. */
  lemma StoredUniform(p: Policy, bs: seq<Block>, bound: nat, flash: Flash, l: int, ks: seq<Matrix>, vs: seq<Matrix>)
    requires WindowOk(p) && BlocksOk(p, bs, bound, flash, l, ks, vs)
    ensures Uniform(StoredBlocks(flash, l), p.perBlock)
    ensures AnyCold(bs) <==> StoredBlocks(flash, l) != []
  {
    var xs := StoredBlocks(flash, l);
    forall i | 0 <= i < |xs| ensures |xs[i].k| == p.perBlock && AnyCold(bs) {
      StoredIsFull(p, bs, bound, flash, l, ks, vs, i);
    }
    if AnyCold(bs) { ColdIsStored(p, bs, bound, flash, l, ks, vs); }
    if xs != [] { StoredIsFull(p, bs, bound, flash, l, ks, vs, 0); }
  }

  function Clamp(k: int): nat { if k > 0 then k else 0 }

  /** The context is dense attention over `x` at every head and coordinate, zero if there are no tokens. */
  ghost predicate DenseAt(exp: real -> real, query: Query, x: Payload, context: Matrix)
    requires query.Valid() && ShapedPayload(x, query.heads, query.dim)
  {
    && Shape(context, query.heads, query.dim)
    && forall h: nat, d: nat | h < query.heads && d < query.dim ::
         Attends(exp, query, x, h, d, context[h][d])
  }

  /**
   A decode step over the layer of a cache, which holds `x`, succeeds and is dense, whenever the device is
   asked for as many blocks as it stores and the scores exceed -1e30.
   */
  ghost predicate DecodesDense(exp: real -> real, query: Query, c: Cache, x: Payload, l: int, topK: int,
                               context: Option<Matrix>)
    requires IsExp(exp) && query.Valid() && ShapedPayload(x, query.heads, query.dim)
  {
    && ShapedStore(query, LayerBlocks(c, l), c.flash, l)
    && (topK >= |StoredBlocks(c.flash, l)| && ScoresOk(query, StoredBlocks(c.flash, l)) ==>
          context.Some? && DenseAt(exp, query, x, context.value))
  }

  class InStorageAttentionPruner {
    const exp: real -> real
    const heads: nat
    const dim: nat
    const scale: real
    const storage: MockSSDController
    const manager: TieredKVManager
    const defaultTopK: int

    constructor (exp: real -> real, heads: nat, dim: nat, scale: real, storage: MockSSDController,
                 manager: TieredKVManager, defaultTopK: int)
      ensures this.exp == exp && this.heads == heads && this.dim == dim && this.scale == scale
      ensures this.storage == storage && this.manager == manager && this.defaultTopK == defaultTopK
    {
      this.exp, this.heads, this.dim, this.scale := exp, heads, dim, scale;
      this.storage, this.manager, this.defaultTopK := storage, manager, defaultTopK;
    }

    function Asked(q: Matrix): Query {
      Query(q, heads, dim, scale)
    }

    /** `Hybrid` at every head and coordinate. */
    function HybridContext(query: Query, bs: seq<Block>, flash: Flash, l: int, topK: nat): (m: Matrix)
      requires query.Valid() && ShapedStore(query, bs, flash, l)
      ensures Shape(m, query.heads, query.dim)
    {
      seq(query.heads, h requires 0 <= h < query.heads =>
        seq(query.dim, d requires 0 <= d < query.dim => Hybrid(exp, query, bs, flash, l, topK, h, d)))
    }

    /**
     `compute_decode_attention`.  It fails exactly when some block is cold and the device cannot
     reply; otherwise the context is `HybridContext`, and dense attention over the tokens attended to.
     */
    method ComputeDecodeAttention(q: Matrix, layerId: int, topK: Option<int>) returns (context: Option<Matrix>)
      requires manager.Valid() && Shape(q, heads, dim)
      requires ShapedStore(Asked(q), manager.LayerView(layerId), storage.flashStore, layerId)
      ensures IsDecode(manager.LayerView(layerId), storage.flashStore, q, layerId,
                       if topK.Some? then topK.value else defaultTopK, context)
    {
      var kVal := if topK.Some? then topK.value else defaultTopK;
      var accumulator := new OnlineSoftmaxAccumulator(exp, heads, dim);
      ghost var bs, flash := manager.LayerView(layerId), storage.flashStore;
      context := Attend(accumulator, q, layerId, kVal, bs);
      HybridDecodes(bs, flash, q, layerId, kVal, context);
    }

    lemma HybridDecodes(bs: seq<Block>, flash: Flash, q: Matrix, l: int, k: int, context: Option<Matrix>)
      requires Shape(q, heads, dim) && ShapedStore(Asked(q), bs, flash, l)
      requires context.Some? <==> (AnyCold(bs) ==> CanReply(Asked(q), StoredBlocks(flash, l), k))
      requires context.Some? ==> context.value == HybridContext(Asked(q), bs, flash, l, Clamp(k))
      ensures IsDecode(bs, flash, q, l, k, context)
    {
      if IsExp(exp) { HybridAttends(Asked(q), bs, flash, l, Clamp(k)); }
    }

    /** The context is what a decode step returns over the layer's blocks and that store. */
    ghost predicate IsDecode(bs: seq<Block>, flash: Flash, q: Matrix, l: int, k: int, context: Option<Matrix>)
      requires Shape(q, heads, dim)
    {
      && ShapedStore(Asked(q), bs, flash, l)
      && (context.Some? <==> (AnyCold(bs) ==> CanReply(Asked(q), StoredBlocks(flash, l), k)))
      && (context.Some? ==> context.value == HybridContext(Asked(q), bs, flash, l, Clamp(k)))
      && (context.Some? && IsExp(exp) ==> AttendsJointly(Asked(q), bs, flash, l, Clamp(k), context.value))
    }

    /** The context is dense attention over the tokens attended to, however few blocks were asked for. */
    ghost predicate AttendsJointly(query: Query, bs: seq<Block>, flash: Flash, l: int, topK: nat, context: Matrix)
      requires query.Valid() && ShapedStore(query, bs, flash, l)
    {
      var x := JoinPayloads(Attended(query, bs, flash, l, topK));
      ShapedPayload(x, query.heads, query.dim) && DenseAt(exp, query, x, context)
    }

    lemma HybridAttends(query: Query, bs: seq<Block>, flash: Flash, l: int, topK: nat)
      requires IsExp(exp) && query.Valid() && ShapedStore(query, bs, flash, l)
      ensures AttendsJointly(query, bs, flash, l, topK, HybridContext(query, bs, flash, l, topK))
    {
      JoinShaped(Attended(query, bs, flash, l, topK), query.heads, query.dim);
      forall h: nat, d: nat | h < query.heads && d < query.dim
        ensures Attends(exp, query, JoinPayloads(Attended(query, bs, flash, l, topK)), h, d,
                        HybridContext(query, bs, flash, l, topK)[h][d])
      {
        HybridIsAverage(exp, query, bs, flash, l, topK, h, d);
      }
    }

    /**
     Over every run: when the device is asked for at least as many blocks as it stores, it can reply
     whenever it is asked, and the context is dense attention over the baseline at every head and
     coordinate.
     */
    lemma DecodeIsDense(p: Policy, ops: seq<Op>, q: Matrix, l: int, k: int)
      requires IsExp(exp) && WindowOk(p) && RunOk(ops) && heads > 0 && dim > 0
      requires Shape(q, heads, dim) && ShapedPayload(Kv(BaseRun(ops), l), heads, dim)
      ensures var c, x := Run(p, ops), Kv(BaseRun(ops), l);
        && ShapedStore(Asked(q), LayerBlocks(c, l), c.flash, l)
        && (k >= |StoredBlocks(c.flash, l)| && ScoresOk(Asked(q), StoredBlocks(c.flash, l)) ==>
              && (AnyCold(LayerBlocks(c, l)) ==> CanReply(Asked(q), StoredBlocks(c.flash, l), k))
              && DenseAt(exp, Asked(q), x, HybridContext(Asked(q), LayerBlocks(c, l), c.flash, l, Clamp(k))))
    {
      var c, x := Run(p, ops), Kv(BaseRun(ops), l);
      EndToEnd(exp, p, ops, Asked(q), l, Clamp(k), 0, 0);
      if k >= |StoredBlocks(c.flash, l)| && ScoresOk(Asked(q), StoredBlocks(c.flash, l)) {
        RunsOk(p, ops);
        assert LayerOk(p, c, l, x.k, x.v);
        StoredUniform(p, LayerBlocks(c, l), c.nextId, c.flash, l, x.k, x.v);
        HybridIsDenseAt(p, ops, q, l, k);
      }
    }

    lemma HybridIsDenseAt(p: Policy, ops: seq<Op>, q: Matrix, l: int, k: int)
      requires IsExp(exp) && WindowOk(p) && RunOk(ops) && heads > 0 && dim > 0
      requires Shape(q, heads, dim) && ShapedPayload(Kv(BaseRun(ops), l), heads, dim)
      requires ShapedStore(Asked(q), LayerBlocks(Run(p, ops), l), Run(p, ops).flash, l)
      requires k >= |StoredBlocks(Run(p, ops).flash, l)| && ScoresOk(Asked(q), StoredBlocks(Run(p, ops).flash, l))
      ensures var c := Run(p, ops);
        DenseAt(exp, Asked(q), Kv(BaseRun(ops), l), HybridContext(Asked(q), LayerBlocks(c, l), c.flash, l, Clamp(k)))
    {
      var c, x := Run(p, ops), Kv(BaseRun(ops), l);
      forall h: nat, d: nat | h < heads && d < dim
        ensures Attends(exp, Asked(q), x, h, d,
                        HybridContext(Asked(q), LayerBlocks(c, l), c.flash, l, Clamp(k))[h][d])
      {
        EndToEnd(exp, p, ops, Asked(q), l, Clamp(k), h, d);
      }
    }

    lemma ShapedAfterRun(p: Policy, ops: seq<Op>, q: Matrix, l: int, k: int)
      requires IsExp(exp) && WindowOk(p) && RunOk(ops) && heads > 0 && dim > 0
      requires Shape(q, heads, dim) && ShapedPayload(Kv(BaseRun(ops), l), heads, dim)
      ensures ShapedStore(Asked(q), LayerBlocks(Run(p, ops), l), Run(p, ops).flash, l)
    {
      DecodeIsDense(p, ops, q, l, k);
    }

    /** So what `ComputeDecodeAttention` returns after a run is dense attention. */
    lemma ContextIsDense(p: Policy, ops: seq<Op>, q: Matrix, l: int, k: int, context: Option<Matrix>)
      requires IsExp(exp) && WindowOk(p) && RunOk(ops) && heads > 0 && dim > 0
      requires Shape(q, heads, dim) && ShapedPayload(Kv(BaseRun(ops), l), heads, dim)
      requires IsDecode(LayerBlocks(Run(p, ops), l), Run(p, ops).flash, q, l, k, context)
      ensures DecodesDense(exp, Asked(q), Run(p, ops), Kv(BaseRun(ops), l), l, k, context)
    {
      DecodeIsDense(p, ops, q, l, k);
    }

    method Attend(accumulator: OnlineSoftmaxAccumulator, q: Matrix, layerId: int, kVal: int, ghost bs: seq<Block>)
      returns (context: Option<Matrix>)
      requires manager.Valid() && Shape(q, heads, dim) && bs == manager.LayerView(layerId)
      requires ShapedStore(Asked(q), bs, storage.flashStore, layerId)
      requires accumulator.Valid() && accumulator.exp == exp && accumulator.heads == heads && accumulator.dim == dim
      requires forall h: nat, d: nat | h < heads && d < dim :: accumulator.At(h, d) == INITIAL
      modifies accumulator
      ensures context.Some? <==> (AnyCold(bs) ==> CanReply(Asked(q), StoredBlocks(storage.flashStore, layerId), kVal))
      ensures context.Some? ==>
        context.value == HybridContext(Asked(q), bs, storage.flashStore, layerId, Clamp(kVal))
    {
      ghost var hot := MergeHot(accumulator, q, layerId, bs);
      ghost var picked;
      var ok;
      ok, picked := MergeCold(accumulator, q, layerId, kVal, bs, hot);
      if !ok { return None; }
      var vector := Finish(accumulator, q, bs, layerId, Clamp(kVal), hot, picked);
      context := Some(vector);
    }

    method Finish(accumulator: OnlineSoftmaxAccumulator, q: Matrix, ghost bs: seq<Block>, layerId: int, ghost topK: nat,
                  ghost hot: Payload, ghost picked: Option<Payload>) returns (context: Matrix)
      requires Shape(q, heads, dim) && ShapedStore(Asked(q), bs, storage.flashStore, layerId)
      requires hot == JoinPayloads(Residents(bs))
          && Contributes(Asked(q), bs, storage.flashStore, layerId, topK, picked)
      requires Holds(accumulator, Asked(q), hot, picked)
      ensures context == HybridContext(Asked(q), bs, storage.flashStore, layerId, topK)
    {
      context := accumulator.FinalizeContext();
      ContextIsHybrid(accumulator, context, Asked(q), bs, storage.flashStore, layerId, topK, hot, picked);
    }

    /** The finalized context is `Hybrid`, head by head and coordinate by coordinate. */
    lemma ContextIsHybrid(accumulator: OnlineSoftmaxAccumulator, vector: Matrix, query: Query, bs: seq<Block>,
                          flash: Flash, l: int, topK: nat, hot: Payload, picked: Option<Payload>)
      requires query.Valid() && ShapedStore(query, bs, flash, l)
      requires hot == JoinPayloads(Residents(bs)) && Contributes(query, bs, flash, l, topK, picked)
      requires Holds(accumulator, query, hot, picked) && Shape(vector, heads, dim)
      requires forall h: nat, d: nat | h < heads && d < dim :: vector[h][d] == Finalize(accumulator.At(h, d))
      ensures vector == HybridContext(query, bs, flash, l, topK)
    {
      var context := HybridContext(query, bs, flash, l, topK);
      forall h | 0 <= h < heads ensures vector[h] == context[h] {
        forall d | 0 <= d < dim ensures vector[h][d] == context[h][d] {
          HybridSteps(query, bs, flash, l, topK, h, d, hot, picked);
        }
      }
    }

    /** The accumulator has merged one payload, and perhaps another. */
    ghost predicate Holds(accumulator: OnlineSoftmaxAccumulator, query: Query, first: Payload, second: Option<Payload>)
      reads accumulator
    {
      && accumulator.Valid() && accumulator.exp == exp && accumulator.heads == heads && accumulator.dim == dim
      && query.Valid() && query.heads == heads && query.dim == dim
      && ShapedPayload(first, heads, dim) && (second.Some? ==> ShapedPayload(second.value, heads, dim))
      && forall h: nat, d: nat | h < heads && d < dim :: accumulator.At(h, d) == Merged(query, first, second, h, d)
    }

    function Merged(query: Query, first: Payload, second: Option<Payload>, h: nat, d: nat): Partial
      requires query.Valid() && h < query.heads && d < query.dim
      requires ShapedPayload(first, query.heads, query.dim)
      requires second.Some? ==> ShapedPayload(second.value, query.heads, query.dim)
    {
      var s := Update(exp, INITIAL, TokensOf(query, first, h, d));
      if second.Some? then Update(exp, s, TokensOf(query, second.value, h, d)) else s
    }

    /** What the device contributes: the picked payloads joined, or nothing. */
    predicate Contributes(query: Query, bs: seq<Block>, flash: Flash, l: int, topK: nat, picked: Option<Payload>)
      requires query.Valid() && ShapedPayloads(StoredBlocks(flash, l), query.heads, query.dim)
    {
      picked == if AnyCold(bs) then Some(JoinPayloads(Picked(query, flash, l, topK))) else None
    }

    lemma HybridSteps(query: Query, bs: seq<Block>, flash: Flash, l: int, topK: nat, h: nat, d: nat, hot: Payload,
                      picked: Option<Payload>)
      requires query.Valid() && ShapedStore(query, bs, flash, l) && h < query.heads && d < query.dim
      requires hot == JoinPayloads(Residents(bs)) && Contributes(query, bs, flash, l, topK, picked)
      ensures ShapedPayload(hot, query.heads, query.dim)
      ensures picked.Some? ==> ShapedPayload(picked.value, query.heads, query.dim)
      ensures Hybrid(exp, query, bs, flash, l, topK, h, d) == Finalize(Merged(query, hot, picked, h, d))
    {
      JoinShaped(Residents(bs), query.heads, query.dim);
      JoinShaped(Picked(query, flash, l, topK), query.heads, query.dim);
    }

    /** The host's part: merges the resident tokens. */
    method MergeHot(accumulator: OnlineSoftmaxAccumulator, q: Matrix, layerId: int, ghost bs: seq<Block>)
      returns (ghost hot: Payload)
      requires manager.Valid() && Shape(q, heads, dim) && bs == manager.LayerView(layerId)
      requires accumulator.Valid() && accumulator.exp == exp && accumulator.heads == heads && accumulator.dim == dim
      requires forall h: nat, d: nat | h < heads && d < dim :: accumulator.At(h, d) == INITIAL
      requires ShapedPayloads(Residents(bs), heads, dim)
      modifies accumulator
      ensures hot == JoinPayloads(Residents(bs)) && Holds(accumulator, Asked(q), hot, None)
    {
      var hotK, hotV, hotIndices := manager.GetHotKv(layerId);
      hot := Payload(hotK, hotV);
      JoinShaped(Residents(bs), heads, dim);
      if |hotIndices| > 0 {
        MergeResident(accumulator, q, hotK, hotV);
      } else {
        NothingResident(layerId);
        HoldsNothing(accumulator, Asked(q));
      }
    }

    /** A fresh accumulator has merged the empty payload. */
    lemma HoldsNothing(accumulator: OnlineSoftmaxAccumulator, query: Query)
      requires query.Valid() && query.heads == heads && query.dim == dim
      requires accumulator.Valid() && accumulator.exp == exp && accumulator.heads == heads && accumulator.dim == dim
      requires forall h: nat, d: nat | h < heads && d < dim :: accumulator.At(h, d) == INITIAL
      ensures Holds(accumulator, query, Payload([], []), None)
    {
    }

    method MergeResident(accumulator: OnlineSoftmaxAccumulator, q: Matrix, hotK: seq<Matrix>, hotV: seq<Matrix>)
      requires Shape(q, heads, dim) && ShapedPayload(Payload(hotK, hotV), heads, dim)
      requires accumulator.Valid() && accumulator.exp == exp && accumulator.heads == heads && accumulator.dim == dim
      requires forall h: nat, d: nat | h < heads && d < dim :: accumulator.At(h, d) == INITIAL
      modifies accumulator
      ensures Holds(accumulator, Asked(q), Payload(hotK, hotV), None)
    {
      var logitsHot := Logits(Asked(q), hotK);
      accumulator.UpdateWithPartition(logitsHot, hotV);
      forall h: nat, d: nat | h < heads && d < dim
        ensures Column(logitsHot, hotV, h, d) == TokensOf(Asked(q), Payload(hotK, hotV), h, d)
      {
        ColumnIsTokens(Asked(q), Payload(hotK, hotV), h, d);
      }
    }

    /** The device's part: merges what the device returns, if any block is cold. */
    method MergeCold(accumulator: OnlineSoftmaxAccumulator, q: Matrix, layerId: int, kVal: int, ghost bs: seq<Block>,
                     ghost hot: Payload) returns (ok: bool, ghost picked: Option<Payload>)
      requires manager.Valid() && Shape(q, heads, dim) && bs == manager.LayerView(layerId)
      requires ShapedPayloads(StoredBlocks(storage.flashStore, layerId), heads, dim)
      requires Holds(accumulator, Asked(q), hot, None)
      modifies accumulator
      ensures ok <==> (AnyCold(bs) ==> CanReply(Asked(q), StoredBlocks(storage.flashStore, layerId), kVal))
      ensures ok ==> Holds(accumulator, Asked(q), hot, picked)
      ensures ok ==> Contributes(Asked(q), bs, storage.flashStore, layerId, Clamp(kVal), picked)
    {
      picked := None;
      var coldBlocks := manager.GetColdBlocks(layerId);
      if |coldBlocks| == 0 { return true, None; }
      var r, x := AskDevice(q, layerId, kVal);
      if r.Failed? { return false, None; }
      if |r.reply.ids| > 0 {
        MergeReply(accumulator, q, r.reply, hot, x);
      }
      return true, Some(x);
    }

    /** The call of the device, whose reply holds the picked blocks. */
    method AskDevice(q: Matrix, layerId: int, kVal: int) returns (r: Outcome, ghost picked: Payload)
      requires Shape(q, heads, dim) && ShapedPayloads(StoredBlocks(storage.flashStore, layerId), heads, dim)
      ensures r.Failed? <==> !CanReply(Asked(q), StoredBlocks(storage.flashStore, layerId), kVal)
      ensures !r.Failed? ==>
        && picked == JoinPayloads(Picked(Asked(q), storage.flashStore, layerId, Clamp(kVal)))
        && ShapedPayload(picked, heads, dim) && r.reply.logits == Logits(Asked(q), picked.k)
        && Join(r.reply.values) == picked.v && |r.reply.ids| > 0
    {
      r := storage.InStorageTopkAttention(Asked(q), layerId, kVal);
      if r.Failed? { return r, Payload([], []); }
      picked := ReplyIsPicked(Asked(q), layerId, kVal, r.reply);
    }

    /** A reply holds the logits and values of the picked blocks, token by token. */
    lemma ReplyIsPicked(query: Query, layerId: int, kVal: nat, reply: Reply) returns (picked: Payload)
      requires query.Valid() && ShapedPayloads(StoredBlocks(storage.flashStore, layerId), query.heads, query.dim)
      requires CanReply(query, StoredBlocks(storage.flashStore, layerId), kVal)
      requires var s := BlockScores(query, StoredBlocks(storage.flashStore, layerId));
        reply == ReplyFor(query, storage.flashStore, layerId, Picks(s, kVal), PickScores(s, kVal))
      ensures picked == JoinPayloads(Picked(query, storage.flashStore, layerId, kVal))
      ensures
        && ShapedPayload(picked, query.heads, query.dim)
        && reply.logits == Logits(query, picked.k)
        && Join(reply.values) == picked.v
        && |reply.ids| > 0
    {
      var s := BlockScores(query, StoredBlocks(storage.flashStore, layerId));
      ReplyAligned(query, storage.flashStore, layerId, Picks(s, kVal), PickScores(s, kVal));
      picked := JoinPayloads(Picked(query, storage.flashStore, layerId, kVal));
    }

    method MergeReply(accumulator: OnlineSoftmaxAccumulator, q: Matrix, reply: Reply, ghost hot: Payload,
                      ghost picked: Payload)
      requires Shape(q, heads, dim) && ShapedPayload(picked, heads, dim)
      requires reply.logits == Logits(Asked(q), picked.k) && Join(reply.values) == picked.v
      requires Holds(accumulator, Asked(q), hot, None)
      modifies accumulator
      ensures Holds(accumulator, Asked(q), hot, Some(picked))
    {
      accumulator.UpdateWithPartition(reply.logits, Join(reply.values));
      forall h: nat, d: nat | h < heads && d < dim
        ensures Column(reply.logits, picked.v, h, d) == TokensOf(Asked(q), picked, h, d)
      {
        ColumnIsTokens(Asked(q), picked, h, d);
      }
    }

    lemma NothingResident(layerId: int)
      requires manager.Valid() && Positions(manager.LayerView(layerId)) == []
      ensures Residents(manager.LayerView(layerId)) == []
    {
      var bs := manager.LayerView(layerId);
      if layerId in manager.pool.layerBlocks { assert manager.View().layers[layerId] == bs; }
      PositionsIffResidents(bs);
    }
  }
}

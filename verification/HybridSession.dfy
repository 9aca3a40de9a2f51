/** A whole session over the objects: both caches driven through the same operations, then one decode step. */
module HybridSession {
  import opened Options
  import opened Arithmetic
  import opened Softmax
  import opened Accumulator
  import opened TieredCache
  import opened TieredRefinement
  import opened TieredRuns
  import opened HybridAttention
  import opened HybridExact
  import opened FlashController
  import opened TieredManager
  import opened BaselineCache
  import opened Residency
  import opened Pruner

  predicate OpsWithin(ops: seq<Op>, layers: nat) {
    forall i :: 0 <= i < |ops| ==> 0 <= ops[i].layer < layers
  }

  /** The two caches stand for what the operations have done. */
  ghost predicate Mirror(manager: TieredKVManager, baseline: BaselineKVCache, ops: seq<Op>)
    reads manager.pool, manager.pool.blocks.Values, manager.storage, baseline
    requires manager.policy.perBlock > 0 && RunOk(ops)
  {
    && manager.Valid() && manager.View() == Run(manager.policy, ops)
    && baseline.Valid() && baseline.View() == BaseRun(ops) && baseline.currentTokens == Tokens(ops, baseline.layers)
  }

  /** The values after one more operation. */
  lemma OneMore(p: Policy, before: seq<Op>, op: Op, layers: nat)
    requires p.perBlock > 0 && RunOk(before) && RunOk(before + [op])
    ensures Run(p, before + [op]) == Step(p, Run(p, before), op)
    ensures BaseRun(before + [op]) == BaseStep(BaseRun(before), op)
    ensures Tokens(before + [op], layers) == TokensNext(Tokens(before, layers), op, layers)
  {
    var now := before + [op];
    assert now[..|now|-1] == before && now[|now|-1] == op;
  }

  method ApplyManager(manager: TieredKVManager, op: Op)
    requires manager.policy.perBlock > 0 && manager.Valid() && Shaped(op)
    modifies manager.pool, manager.pool.blocks.Values, manager.storage
    ensures manager.Valid() && manager.View() == Step(manager.policy, old(manager.View()), op) && manager.pool.Grew()
  {
    match op
    case PrefillOp(l, ks, vs) => manager.PrefillSequence(l, ks, vs);
    case AppendOp(l, k, v) => manager.AppendToken(l, k, v);
  }

  method ApplyBaseline(baseline: BaselineKVCache, op: Op)
    requires baseline.Valid() && 0 <= op.layer < baseline.layers
    modifies baseline
    ensures baseline.Valid() && baseline.View() == BaseStep(old(baseline.View()), op)
    ensures baseline.currentTokens == TokensNext(old(baseline.currentTokens), op, baseline.layers)
  {
    match op
    case PrefillOp(l, ks, vs) => baseline.Prefill(l, ks, vs);
    case AppendOp(l, k, v) => baseline.AppendToken(l, k, v);
  }

  /** One operation on both caches. */
  method Apply(manager: TieredKVManager, baseline: BaselineKVCache, ghost before: seq<Op>, op: Op)
    requires manager.policy.perBlock > 0 && RunOk(before) && RunOk(before + [op]) && 0 <= op.layer < baseline.layers
    requires Mirror(manager, baseline, before)
    modifies manager.pool, manager.pool.blocks.Values, manager.storage, baseline
    ensures Mirror(manager, baseline, before + [op]) && manager.pool.Grew()
  {
    OneMore(manager.policy, before, op, baseline.layers);
    ApplyManager(manager, op);
    ApplyBaseline(baseline, op);
  }

  method ApplyAt(manager: TieredKVManager, baseline: BaselineKVCache, ops: seq<Op>, i: nat)
    requires manager.policy.perBlock > 0 && RunOk(ops) && OpsWithin(ops, baseline.layers) && i < |ops|
    requires RunOk(ops[..i]) && Mirror(manager, baseline, ops[..i])
    modifies manager.pool, manager.pool.blocks.Values, manager.storage, baseline
    ensures RunOk(ops[..i+1]) && Mirror(manager, baseline, ops[..i+1]) && manager.pool.Grew()
  {
    PrefixNext(ops, i);
    Apply(manager, baseline, ops[..i], ops[i]);
  }

  lemma PrefixNext(ops: seq<Op>, i: nat)
    requires RunOk(ops) && i < |ops|
    ensures RunOk(ops[..i+1]) && ops[..i+1] == ops[..i] + [ops[i]]
  {
    RunOkPrefix(ops, i + 1);
  }

  method Begin(policy: Policy, heads: nat, dim: nat, elemBytes: nat, layers: nat)
    returns (manager: TieredKVManager, baseline: BaselineKVCache)
    requires policy.perBlock > 0
    ensures fresh(manager.pool) && fresh(manager.storage) && fresh(baseline)
    ensures manager.policy == policy && manager.rowBytes == heads * dim * elemBytes && Mirror(manager, baseline, [])
    ensures baseline.layers == layers && baseline.heads == heads && baseline.dim == dim
        && baseline.elemBytes == elemBytes
    ensures manager.pool.blocks == map[]
  {
    var storage := new MockSSDController();
    manager := new TieredKVManager(policy, heads * dim * elemBytes, storage);
    baseline := new BaselineKVCache(layers, heads, dim, elemBytes);
    assert manager.View().nextId == 0;
  }

  /** Fresh caches after the operations. */
  method Replay(policy: Policy, heads: nat, dim: nat, elemBytes: nat, layers: nat, ops: seq<Op>)
    returns (manager: TieredKVManager, baseline: BaselineKVCache)
    requires policy.perBlock > 0 && RunOk(ops) && OpsWithin(ops, layers)
    ensures manager.policy == policy && manager.rowBytes == RowBytes(heads, dim, elemBytes)
        && Mirror(manager, baseline, ops)
    ensures baseline.layers == layers && baseline.heads == heads && baseline.dim == dim
        && baseline.elemBytes == elemBytes
  {
    manager, baseline := Begin(policy, heads, dim, elemBytes, layers);
    assert ops[..0] == [];
    for i := 0 to |ops|
      invariant fresh(manager.pool) && fresh(manager.storage) && fresh(baseline)
      invariant forall id :: id in manager.pool.blocks ==> fresh(manager.pool.blocks[id])
      invariant RunOk(ops[..i]) && Mirror(manager, baseline, ops[..i])
    {
      ApplyAt(manager, baseline, ops, i);
    }
    assert ops[..|ops|] == ops;
  }

  /**
   Prefills and appends through both caches, then one decode step through the pruner over the manager
   and its storage: the context is dense attention over what the baseline cache returns, at every head
   and coordinate, whenever the device is asked for as many blocks as it stores and the scores exceed -1e30.
   */
  method DecodeAfter(exp: real -> real, policy: Policy, heads: nat, dim: nat, elemBytes: nat, layers: nat, scale: real,
                     ops: seq<Op>, q: Matrix, l: nat, topK: int)
    returns (context: Option<Matrix>, k: seq<Matrix>, v: seq<Matrix>)
    requires IsExp(exp) && WindowOk(policy) && RunOk(ops) && OpsWithin(ops, layers) && l < layers && heads > 0
        && dim > 0
    requires Shape(q, heads, dim) && ShapedPayload(Kv(BaseRun(ops), l), heads, dim)
    ensures Payload(k, v) == Kv(BaseRun(ops), l)
    ensures DecodesDense(exp, Query(q, heads, dim, scale), Run(policy, ops), Payload(k, v), l, topK, context)
  {
    var manager, baseline := Replay(policy, heads, dim, elemBytes, layers, ops);
    k, v := baseline.GetKv(l);
    context := DecodeStep(exp, heads, dim, scale, manager, ops, q, l, topK);
  }

  /** The decode step over a manager that has gone through the operations. */
  method DecodeStep(exp: real -> real, heads: nat, dim: nat, scale: real, manager: TieredKVManager, ghost ops: seq<Op>,
                    q: Matrix, l: nat, topK: int) returns (context: Option<Matrix>)
    requires IsExp(exp) && WindowOk(manager.policy) && RunOk(ops) && heads > 0 && dim > 0
    requires manager.Valid() && manager.View() == Run(manager.policy, ops)
    requires Shape(q, heads, dim) && ShapedPayload(Kv(BaseRun(ops), l), heads, dim)
    ensures DecodesDense(exp, Query(q, heads, dim, scale), Run(manager.policy, ops), Kv(BaseRun(ops), l), l, topK,
                         context)
  {
    var pruner := new InStorageAttentionPruner(exp, heads, dim, scale, manager.storage, manager, topK);
    LayerOfView(manager, l);
    pruner.ShapedAfterRun(manager.policy, ops, q, l, topK);
    context := DecodeOver(pruner, q, l, Run(manager.policy, ops));
    pruner.ContextIsDense(manager.policy, ops, q, l, topK, context);
  }

  /** The decode step over a manager of that value, with the default number of blocks. */
  method DecodeOver(pruner: InStorageAttentionPruner, q: Matrix, l: nat, ghost c: Cache)
    returns (context: Option<Matrix>)
    requires IsExp(pruner.exp) && pruner.manager.Valid() && Shape(q, pruner.heads, pruner.dim)
    requires pruner.manager.LayerView(l) == LayerBlocks(c, l) && pruner.storage.flashStore == c.flash
    requires ShapedStore(pruner.Asked(q), LayerBlocks(c, l), c.flash, l)
    ensures pruner.IsDecode(LayerBlocks(c, l), c.flash, q, l, pruner.defaultTopK, context)
  {
    context := pruner.ComputeDecodeAttention(q, l, None);
  }

  lemma LayerOfView(manager: TieredKVManager, l: int)
    requires manager.Valid()
    ensures manager.LayerView(l) == LayerBlocks(manager.View(), l) && manager.storage.flashStore == manager.View().flash
  {
  }

  lemma {:induction false} RunWithin(policy: Policy, ops: seq<Op>, layers: nat)
    requires policy.perBlock > 0 && RunOk(ops) && OpsWithin(ops, layers)
    ensures forall l :: l in Run(policy, ops).layers ==> 0 <= l < layers
  {
    if ops != [] {
      var n := |ops| - 1;
      assert forall i :: 0 <= i < n ==> ops[..n][i] == ops[i];
      RunWithin(policy, ops[..n], layers);
    }
  }

  lemma PoolOfRun(manager: TieredKVManager, ops: seq<Op>, layers: nat)
    requires manager.policy.perBlock > 0 && RunOk(ops) && OpsWithin(ops, layers)
    requires manager.Valid() && manager.View() == Run(manager.policy, ops)
    ensures Enumerates(Views(manager.pool.AllBlocks()), Run(manager.policy, ops), layers)
  {
    RunWithin(manager.policy, ops, layers);
    forall l | l in manager.pool.layerBlocks ensures 0 <= l < layers {
      assert l in manager.View().layers;
    }
    PoolEnumerates(manager, layers);
  }

  /** What the three counters show after the operations. */
  predicate UsageShown(ops: seq<Op>, layers: nat, row: nat, ramBytes: nat, ssdBytes: nat, reported: nat) {
    && ramBytes + ssdBytes == Bytes(2 * BaseTokens(BaseRun(ops), layers), row)
    && (ramBytes + ssdBytes == reported <==>
          row == 0 || BaseTokens(BaseRun(ops), layers) == Times(layers, Tokens(ops, layers)))
  }

  lemma UsageOfPool(p: Policy, ops: seq<Op>, all: seq<Block>, layers: nat, row: nat)
    requires WindowOk(p) && RunOk(ops) && Enumerates(all, Run(p, ops), layers)
    ensures UsageShown(ops, layers, row, RamBytes(all, row), OffloadedBytes(all, row),
                       UsageBytes(Tokens(ops, layers), layers, row))
  {
    UsageConserved(p, ops, all, layers, row);
    UsageReportedIff(p, ops, all, layers, row);
  }

  /** The three usage counters, each over its own cache. */
  method Counters(manager: TieredKVManager, baseline: BaselineKVCache)
    returns (ramBytes: nat, ssdBytes: nat, reported: nat)
    requires manager.Valid()
    ensures ramBytes == RamBytes(Views(manager.pool.AllBlocks()), manager.rowBytes)
    ensures ssdBytes == OffloadedBytes(Views(manager.pool.AllBlocks()), manager.rowBytes)
    ensures reported == UsageBytes(baseline.currentTokens, baseline.layers,
                                   RowBytes(baseline.heads, baseline.dim, baseline.elemBytes))
  {
    ramBytes, ssdBytes := ManagerCounters(manager);
    reported := baseline.GetMemoryUsageBytes();
  }

  method ManagerCounters(manager: TieredKVManager) returns (ramBytes: nat, ssdBytes: nat)
    requires manager.Valid()
    ensures ramBytes == RamBytes(Views(manager.pool.AllBlocks()), manager.rowBytes)
    ensures ssdBytes == OffloadedBytes(Views(manager.pool.AllBlocks()), manager.rowBytes)
  {
    ramBytes := manager.GetHostRamUsageBytes();
    ssdBytes := manager.GetOffloadedStorageBytes();
  }

  /**
   Prefills and appends through both caches, then the three usage counters: RAM plus offloaded bytes are
   what the baseline reports if and only if its layers hold `current_tokens` tokens on average, or a
   token has no bytes.
   */
  method UsageAfter(policy: Policy, heads: nat, dim: nat, elemBytes: nat, layers: nat, ops: seq<Op>)
    returns (ramBytes: nat, ssdBytes: nat, reported: nat)
    requires WindowOk(policy) && RunOk(ops) && OpsWithin(ops, layers)
    ensures UsageShown(ops, layers, RowBytes(heads, dim, elemBytes), ramBytes, ssdBytes, reported)
  {
    var manager, baseline := Replay(policy, heads, dim, elemBytes, layers, ops);
    ramBytes, ssdBytes, reported := Counters(manager, baseline);
    PoolOfRun(manager, ops, layers);
    UsageOfPool(policy, ops, Views(manager.pool.AllBlocks()), layers, manager.rowBytes);
  }
}

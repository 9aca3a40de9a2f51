/**
 Runs of the tiered cache: any sequence of prefills (of layers without tokens) and appends, over
 any layers, next to the same operations on the baseline cache.
 */
module TieredRuns {
  import opened Arithmetic
  import opened Accumulator
  import opened TieredCache
  import opened TieredRefinement

  datatype Op =
    | PrefillOp(layer: int, ks: seq<Matrix>, vs: seq<Matrix>)
    | AppendOp(layer: int, k: Matrix, v: Matrix)

  /** Keys and values per layer, as `BaselineKVCache` holds them. */
  type Baseline = map<int, Payload>

  /** `get_kv`: empty for a layer without tokens. */
  function Kv(base: Baseline, l: int): Payload {
    if l in base then base[l] else Payload([], [])
  }

  function BaseStep(base: Baseline, op: Op): Baseline {
    match op
    case PrefillOp(l, ks, vs) => base[l := Payload(ks, vs)]
    case AppendOp(l, k, v) => base[l := Payload(Kv(base, l).k + [k], Kv(base, l).v + [v])]
  }

  function BaseRun(ops: seq<Op>): Baseline {
    if ops == [] then map[] else BaseStep(BaseRun(ops[..|ops|-1]), ops[|ops|-1])
  }

  /** `current_tokens` of a baseline of that many layers. */
  function Tokens(ops: seq<Op>, layers: nat): nat {
    if ops == [] then 0 else TokensNext(Tokens(ops[..|ops|-1], layers), ops[|ops|-1], layers)
  }

  function TokensNext(before: nat, op: Op, layers: nat): nat {
    match op
    case PrefillOp(l, ks, _) => if l == 0 then |ks| else before
    case AppendOp(l, _, _) => if l == layers - 1 then before + 1 else before
  }

  predicate Shaped(op: Op) {
    op.PrefillOp? ==> |op.ks| == |op.vs|
  }

  /** The operations are shaped, and a layer is prefilled only while it holds no tokens. */
  predicate RunOk(ops: seq<Op>) {
    ops == [] || (
      && RunOk(ops[..|ops|-1])
      && var op := ops[|ops|-1];
      && Shaped(op)
      && (op.PrefillOp? ==> Kv(BaseRun(ops[..|ops|-1]), op.layer).k == []))
  }

  lemma {:induction false} RunOkPrefix(ops: seq<Op>, m: nat)
    requires RunOk(ops) && m <= |ops|
    ensures RunOk(ops[..m])
  {
    if m < |ops| {
      RunOkPrefix(ops[..|ops|-1], m);
      assert ops[..|ops|-1][..m] == ops[..m];
    } else {
      assert ops[..m] == ops;
    }
  }

  type SoundCache = c: Cache | Wellformed(c) witness EMPTY

  lemma ChunksWellformed(p: Policy, l: int, id: nat, start: nat, ks: seq<Matrix>, vs: seq<Matrix>, i: nat)
    requires start <= |ks| == |vs| && p.perBlock > 0
    requires i < |Chunks(p, l, id, start, ks, vs)|
    ensures var b := Chunks(p, l, id, start, ks, vs)[i];
      b.layer == l && Loaded(b) && b.count >= 1 && id <= b.id < id + |Chunks(p, l, id, start, ks, vs)|
    decreases i
  {
    if i > 0 { ChunksWellformed(p, l, id + 1, Min(start + p.perBlock, |ks|), ks, vs, i - 1); }
  }

  lemma PrefillWellformed(p: Policy, c: Cache, l: int, ks: seq<Matrix>, vs: seq<Matrix>)
    requires p.perBlock > 0 && |ks| == |vs| && Wellformed(c)
    ensures Wellformed(Prefill(p, c, l, ks, vs))
  {
    var cs := Chunks(p, l, c.nextId, 0, ks, vs);
    var d := Prefill(p, c, l, ks, vs);
    forall i | 0 <= i < |cs|
      ensures cs[i].layer == l && Loaded(cs[i]) && cs[i].count >= 1 && cs[i].id < c.nextId + |cs|
    {
      ChunksWellformed(p, l, c.nextId, 0, ks, vs, i);
    }
    if cs != [] {
      forall i | 0 <= i < |d.layers[l]|
        ensures BlockWellformed(d.layers[l][i], l, d.nextId)
      {
        if i >= |LayerBlocks(c, l)| { assert cs[i - |LayerBlocks(c, l)|].layer == l; }
      }
    }
  }

  lemma LayerReplaced(c: Cache, l: int, bs: seq<Block>, nextId: nat, flash: Flash)
    requires Wellformed(c) && bs != [] && c.nextId <= nextId
    requires forall i :: 0 <= i < |bs| ==> BlockWellformed(bs[i], l, nextId)
    ensures Wellformed(Cache(nextId, c.layers[l := bs], flash))
  {
    var d := Cache(nextId, c.layers[l := bs], flash);
    forall m, i | m in d.layers && 0 <= i < |d.layers[m]| ensures BlockWellformed(d.layers[m][i], m, nextId) {
      if m == l { assert BlockWellformed(bs[i], l, nextId); }
    }
  }

  lemma GrownWellformed(p: Policy, c: Cache, l: int, k: Matrix, v: Matrix, i: nat)
    requires Wellformed(c) && i < |Grown(p, c, l, k, v)|
    ensures BlockWellformed(Grown(p, c, l, k, v)[i], l,
                            if HasRoom(p, LayerBlocks(c, l)) then c.nextId else c.nextId + 1)
  {
  }

  lemma AppendWellformed(p: Policy, c: Cache, l: int, k: Matrix, v: Matrix)
    requires Wellformed(c)
    ensures Wellformed(Append(p, c, l, k, v))
  {
    var g, d := Grown(p, c, l, k, v), Append(p, c, l, k, v);
    var settled := Settle(p, g, TotalTokens(g), true);
    forall i | 0 <= i < |settled| ensures BlockWellformed(settled[i], l, d.nextId) {
      GrownWellformed(p, c, l, k, v, i);
    }
    LayerReplaced(c, l, settled, d.nextId, d.flash);
  }

  function Step(p: Policy, c: SoundCache, op: Op): SoundCache
    requires p.perBlock > 0 && Shaped(op)
  {
    match op
    case PrefillOp(l, ks, vs) => PrefillWellformed(p, c, l, ks, vs); Prefill(p, c, l, ks, vs)
    case AppendOp(l, k, v) => AppendWellformed(p, c, l, k, v); Append(p, c, l, k, v)
  }

  function Run(p: Policy, ops: seq<Op>): SoundCache
    requires p.perBlock > 0 && RunOk(ops)
  {
    if ops == [] then EMPTY else Step(p, Run(p, ops[..|ops|-1]), ops[|ops|-1])
  }

  // ------------------------------------------------------------------ the invariant over runs

  ghost predicate CacheOk(p: Policy, c: Cache, base: Baseline) {
    forall l :: LayerOk(p, c, l, Kv(base, l).k, Kv(base, l).v)
  }

  /** An operation on one layer leaves every other layer's blocks and stored data alone. */
  lemma StepFrame(p: Policy, c: SoundCache, op: Op, l: int)
    requires p.perBlock > 0 && Shaped(op) && l != op.layer
    ensures var d := Step(p, c, op);
      && LayerBlocks(d, l) == LayerBlocks(c, l)
      && c.nextId <= d.nextId
      && (forall id: nat :: SameEntry(c.flash, d.flash, (l, id)))
  {
    forall id: nat ensures SameEntry(c.flash, Step(p, c, op).flash, (l, id)) {
      FlashFrame(p, c, op, (l, id));
    }
  }

  predicate SameEntry(f: Flash, g: Flash, x: (int, nat)) {
    (x in g <==> x in f) && (x in g ==> g[x] == f[x])
  }

  /** An eviction pass over blocks of one layer leaves the other layers' data alone. */
  lemma FlushElsewhere(p: Policy, bs: seq<Block>, total: nat, decode: bool, flash: Flash, m: int, x: (int, nat))
    requires CanFlush(p, bs, total, decode) && x.0 != m
    requires forall i :: 0 <= i < |bs| ==> bs[i].layer == m
    ensures SameEntry(flash, Flush(p, bs, |bs|, total, decode, flash), x)
  {
    FlushOnly(p, bs, |bs|, total, decode, flash, m, x);
  }

  lemma PrefillFlash(p: Policy, c: SoundCache, m: int, ks: seq<Matrix>, vs: seq<Matrix>, x: (int, nat))
    requires p.perBlock > 0 && |ks| == |vs| && x.0 != m
    ensures SameEntry(c.flash, Prefill(p, c, m, ks, vs).flash, x)
  {
    var cs := Chunks(p, m, c.nextId, 0, ks, vs);
    ChunksCanFlush(p, m, c.nextId, 0, ks, vs, |ks|, false);
    forall i | 0 <= i < |cs| ensures cs[i].layer == m {
      ChunksWellformed(p, m, c.nextId, 0, ks, vs, i);
    }
    FlushElsewhere(p, cs, |ks|, false, c.flash, m, x);
  }

  lemma GrownLayers(p: Policy, c: Cache, m: int, k: Matrix, v: Matrix)
    requires Wellformed(c)
    ensures forall i :: 0 <= i < |Grown(p, c, m, k, v)| ==> Grown(p, c, m, k, v)[i].layer == m
  {
    var bs := Grown(p, c, m, k, v);
    forall i | 0 <= i < |bs| ensures bs[i].layer == m {
      GrownWellformed(p, c, m, k, v, i);
    }
  }

  lemma AppendFlash(p: Policy, c: SoundCache, m: int, k: Matrix, v: Matrix, x: (int, nat))
    requires x.0 != m
    ensures SameEntry(c.flash, Append(p, c, m, k, v).flash, x)
  {
    var bs := Grown(p, c, m, k, v);
    var total := TotalTokens(bs);
    GrownLayers(p, c, m, k, v);
    GrownCanFlush(p, c, m, k, v, total);
    FlushElsewhere(p, bs, total, true, c.flash, m, x);
  }

  lemma FlashFrame(p: Policy, c: SoundCache, op: Op, x: (int, nat))
    requires p.perBlock > 0 && Shaped(op) && x.0 != op.layer
    ensures SameEntry(c.flash, Step(p, c, op).flash, x)
  {
    match op
    case PrefillOp(m, ks, vs) => PrefillFlash(p, c, m, ks, vs, x);
    case AppendOp(m, k, v) => AppendFlash(p, c, m, k, v, x);
  }

  lemma LayerOkFrame(p: Policy, c: Cache, d: Cache, l: int, ks: seq<Matrix>, vs: seq<Matrix>)
    requires LayerOk(p, c, l, ks, vs)
    requires LayerBlocks(d, l) == LayerBlocks(c, l) && c.nextId <= d.nextId
    requires forall id: nat :: SameEntry(c.flash, d.flash, (l, id))
    ensures LayerOk(p, d, l, ks, vs)
  {
    var bs := LayerBlocks(c, l);
    forall i | 0 <= i < |bs| ensures BlockOk(p, bs[i], l, d.flash, ks, vs) {
      assert BlockOk(p, bs[i], l, c.flash, ks, vs) && SameEntry(c.flash, d.flash, (l, bs[i].id));
    }
  }

  lemma PrefillStep(p: Policy, c: SoundCache, base: Baseline, l: int, ks: seq<Matrix>, vs: seq<Matrix>)
    requires WindowOk(p) && Shaped(PrefillOp(l, ks, vs)) && Kv(base, l).k == []
    requires LayerOk(p, c, l, Kv(base, l).k, Kv(base, l).v)
    ensures var kv := Kv(BaseStep(base, PrefillOp(l, ks, vs)), l);
            LayerOk(p, Prefill(p, c, l, ks, vs), l, kv.k, kv.v)
  {
    assert Kv(base, l).v == [];
    PrefillOk(p, c, l, ks, vs);
  }

  lemma AppendStep(p: Policy, c: SoundCache, base: Baseline, l: int, k: Matrix, v: Matrix)
    requires WindowOk(p) && Shaped(AppendOp(l, k, v)) && LayerOk(p, c, l, Kv(base, l).k, Kv(base, l).v)
    ensures var kv := Kv(BaseStep(base, AppendOp(l, k, v)), l);
            LayerOk(p, Append(p, c, l, k, v), l, kv.k, kv.v)
  {
    AppendOk(p, c, l, Kv(base, l).k, Kv(base, l).v, k, v);
  }

  lemma OtherStep(p: Policy, c: SoundCache, base: Baseline, op: Op, l: int)
    requires WindowOk(p) && Shaped(op) && LayerOk(p, c, l, Kv(base, l).k, Kv(base, l).v) && l != op.layer
    ensures LayerOk(p, Step(p, c, op), l, Kv(BaseStep(base, op), l).k, Kv(BaseStep(base, op), l).v)
  {
    StepFrame(p, c, op, l);
    LayerOkFrame(p, c, Step(p, c, op), l, Kv(base, l).k, Kv(base, l).v);
  }

  lemma StepOk(p: Policy, c: SoundCache, base: Baseline, op: Op)
    requires WindowOk(p) && Shaped(op) && CacheOk(p, c, base)
    requires op.PrefillOp? ==> Kv(base, op.layer).k == []
    ensures CacheOk(p, Step(p, c, op), BaseStep(base, op))
  {
    var base' := BaseStep(base, op);
    forall l ensures LayerOk(p, Step(p, c, op), l, Kv(base', l).k, Kv(base', l).v) {
      if l != op.layer {
        OtherStep(p, c, base, op, l);
      } else if op.PrefillOp? {
        PrefillStep(p, c, base, l, op.ks, op.vs);
      } else {
        AppendStep(p, c, base, l, op.k, op.v);
      }
    }
  }

  /** The invariant holds after every run. */
  lemma {:induction false} RunsOk(p: Policy, ops: seq<Op>)
    requires WindowOk(p) && RunOk(ops)
    ensures CacheOk(p, Run(p, ops), BaseRun(ops))
  {
    if ops == [] {
      forall l ensures LayerOk(p, EMPTY, l, [], []) {}
    } else {
      RunsOk(p, ops[..|ops|-1]);
      StepOk(p, Run(p, ops[..|ops|-1]), BaseRun(ops[..|ops|-1]), ops[|ops|-1]);
    }
  }

  // ------------------------------------------------------------------ when the refinement holds

  /** The cache agrees with the baseline: joining a layer's blocks gives the layer's keys and values. */
  ghost predicate Agrees(c: Cache, base: Baseline) {
    forall l :: Joined(LayerBlocks(c, l), c.flash) == Kv(base, l)
  }

  /** The policy refines the baseline over every run. */
  ghost predicate Refines(p: Policy)
    requires p.perBlock > 0
  {
    forall ops | RunOk(ops) :: Agrees(Run(p, ops), BaseRun(ops))
  }

  predicate AllShaped(xs: seq<Matrix>, heads: nat, dim: nat) {
    forall t :: 0 <= t < |xs| ==> Shape(xs[t], heads, dim)
  }

  predicate OfShape(op: Op, heads: nat, dim: nat) {
    match op
    case PrefillOp(_, ks, vs) => AllShaped(ks, heads, dim) && AllShaped(vs, heads, dim)
    case AppendOp(_, k, v) => Shape(k, heads, dim) && Shape(v, heads, dim)
  }

  /** The policy refines the baseline over every run of a model with those dimensions. */
  ghost predicate RefinesFor(p: Policy, heads: nat, dim: nat)
    requires p.perBlock > 0
  {
    forall ops | RunOk(ops) && (forall i :: 0 <= i < |ops| ==> OfShape(ops[i], heads, dim)) ::
      Agrees(Run(p, ops), BaseRun(ops))
  }

  /**
   The tiered cache refines the baseline cache over every run, exactly under the policies of `WindowOk`;
   runs of a model of any fixed dimensions refine it under the same policies.
   */
  lemma RefinesIffWindowOk(p: Policy, heads: nat, dim: nat)
    requires p.perBlock > 0
    ensures Refines(p) <==> WindowOk(p)
    ensures RefinesFor(p, heads, dim) <==> WindowOk(p)
  {
    if WindowOk(p) {
      WindowOkRefines(p);
    } else {
      var row: Matrix := seq(heads, _ => seq(dim, _ => 0.0));
      var ops := LosingRun(p, row);
      LosingRunDisagrees(p, row);
      LosingRunShaped(p, row, heads, dim);
      assert RunOk(ops) && !Agrees(Run(p, ops), BaseRun(ops));
    }
  }

  lemma WindowOkRefines(p: Policy)
    requires p.perBlock > 0 && WindowOk(p)
    ensures Refines(p)
  {
    forall ops | RunOk(ops) ensures Agrees(Run(p, ops), BaseRun(ops)) {
      RunsOk(p, ops);
      CacheOkAgrees(p, Run(p, ops), BaseRun(ops));
    }
  }

  lemma LosingRunShaped(p: Policy, row: Matrix, heads: nat, dim: nat)
    requires Shape(row, heads, dim)
    ensures forall i :: 0 <= i < |LosingRun(p, row)| ==> OfShape(LosingRun(p, row)[i], heads, dim)
  {
  }

  lemma CacheOkAgrees(p: Policy, c: Cache, base: Baseline)
    requires CacheOk(p, c, base)
    ensures Agrees(c, base)
  {
    forall l ensures Joined(LayerBlocks(c, l), c.flash) == Kv(base, l) {
      JoinedIsBaseline(p, LayerBlocks(c, l), c.nextId, c.flash, l, Kv(base, l).k, Kv(base, l).v);
    }
  }

  function Copies(row: Matrix, n: nat): (ks: seq<Matrix>)
    ensures |ks| == n
  {
    seq(n, _ => row)
  }

  /** Without a window: prefill up to one token past the sinks' blocks, then append one more token. */
  function LosingRun(p: Policy, row: Matrix): seq<Op> {
    var ks := Copies(row, p.sink * p.perBlock + 1);
    [PrefillOp(0, ks, ks), AppendOp(0, row, row)]
  }

  /** Chunks start at multiples of the block size. */
  lemma {:induction false} ChunkStarts(p: Policy, l: int, id: nat, start: nat, ks: seq<Matrix>, vs: seq<Matrix>, q: nat,
                                       i: nat)
    requires start <= |ks| == |vs| && p.perBlock > 0
    requires start < |ks| ==> start == q * p.perBlock
    requires i < |Chunks(p, l, id, start, ks, vs)|
    ensures Chunks(p, l, id, start, ks, vs)[i].start == (q + i) * p.perBlock
    decreases i
  {
    if i > 0 {
      assert (q + 1) * p.perBlock == q * p.perBlock + p.perBlock;
      ChunkStarts(p, l, id + 1, Min(start + p.perBlock, |ks|), ks, vs, q + 1, i - 1);
      assert (q + 1) + (i - 1) == q + i;
    }
  }

  lemma OneLeftOver(q: nat, s: nat, m: nat, count: nat, total: nat)
    requires m > 0 && 1 <= count <= m && q * m + count == total == s * m + 1
    ensures count == 1 && total - 1 >= s
  {
    QuotientUnique(s * m, m, q, count - 1);
    QuotientUnique(s * m, m, s, 0);
    AtLeast(s, m);
  }

  lemma LastStart(p: Policy, ks: seq<Matrix>)
    requires p.perBlock > 0 && ks != []
    ensures var cs := Chunks(p, 0, 0, 0, ks, ks);
      && cs != [] && cs[|cs|-1].start == (|cs| - 1) * p.perBlock
      && 1 <= cs[|cs|-1].count <= p.perBlock && cs[|cs|-1].start + cs[|cs|-1].count == |ks|
  {
    var cs := Chunks(p, 0, 0, 0, ks, ks);
    ChunksTile(p, 0, 0, 0, ks, ks);
    ChunkStarts(p, 0, 0, 0, ks, ks, 0, |cs| - 1);
    assert 0 + (|cs| - 1) == |cs| - 1;
  }

  /** The last chunk of such a sequence holds one token, past the sinks. */
  lemma LastChunk(p: Policy, ks: seq<Matrix>)
    requires p.perBlock > 1 && |ks| == p.sink * p.perBlock + 1
    ensures var cs := Chunks(p, 0, 0, 0, ks, ks);
      cs != [] && cs[|cs|-1].count == 1 && cs[|cs|-1].start == |ks| - 1 >= p.sink
  {
    var cs := Chunks(p, 0, 0, 0, ks, ks);
    LastStart(p, ks);
    OneLeftOver(|cs| - 1, p.sink, p.perBlock, cs[|cs|-1].count, |ks|);
  }

  lemma AtLeast(s: nat, m: nat)
    requires m >= 1
    ensures s * m >= s
  {
  }

  /** After that prefill the last block holds one token and is already in storage. */
  lemma LosingPrefill(p: Policy, ks: seq<Matrix>)
    requires p.window == 0 && p.perBlock > 1 && |ks| == p.sink * p.perBlock + 1
    ensures var c := Prefill(p, EMPTY, 0, ks, ks);
      var bs := LayerBlocks(c, 0);
      bs != [] && bs[|bs|-1].count == 1 && !bs[|bs|-1].inRam
  {
    var cs := Chunks(p, 0, 0, 0, ks, ks);
    LastChunk(p, ks);
    var c := Prefill(p, EMPTY, 0, ks, ks);
    assert LayerBlocks(c, 0) == Settle(p, cs, |ks|, false);
  }

  /** Appending to a block that is in storage does not reach its stored data. */
  lemma LosingAppend(p: Policy, c: SoundCache, l: int, ks: seq<Matrix>, vs: seq<Matrix>, k: Matrix, v: Matrix)
    requires p.window == 0 && p.perBlock > 0 && LayerOk(p, c, l, ks, vs)
    requires var bs := LayerBlocks(c, l); HasRoom(p, bs) && !bs[|bs|-1].inRam
    ensures var d := Append(p, c, l, k, v);
      Joined(LayerBlocks(d, l), d.flash) == Payload(ks, vs)
  {
    var bs, g := LayerBlocks(c, l), Grown(p, c, l, k, v);
    var total := TotalTokens(g);
    GrownTiles(p, c, l, ks, vs, k, v);
    TilesTotal(p, g, |ks| + 1);
    forall i | 0 <= i < |g|
      ensures !Leaves(p, g[i], total, true) && Held(g[i], c.flash) == Held(bs[i], c.flash)
    {
      assert BlockOk(p, bs[i], l, c.flash, ks, vs);
    }
    GrownCanFlush(p, c, l, k, v, total);
    NothingFlushed(p, g, |g|, total, c.flash);
    assert Settle(p, g, total, true) == g;
    JoinedSame(g, bs, c.flash, c.flash);
    JoinedIsBaseline(p, bs, c.nextId, c.flash, l, ks, vs);
  }

  lemma {:induction false} NothingFlushed(p: Policy, bs: seq<Block>, n: nat, total: nat, flash: Flash)
    requires n <= |bs| && CanFlush(p, bs, total, true)
    requires forall i :: 0 <= i < |bs| ==> !Leaves(p, bs[i], total, true)
    ensures Flush(p, bs, n, total, true, flash) == flash
  {
    if n > 0 { NothingFlushed(p, bs, n - 1, total, flash); }
  }

  lemma OneOpRun(ops: seq<Op>)
    requires |ops| == 1 && Shaped(ops[0])
    ensures RunOk(ops)
  {
    assert ops[..0] == [];
    assert RunOk(ops[..0]);
  }

  lemma LosingRunDisagrees(p: Policy, row: Matrix)
    requires p.window == 0 && p.perBlock > 1
    ensures RunOk(LosingRun(p, row))
    ensures !Agrees(Run(p, LosingRun(p, row)), BaseRun(LosingRun(p, row)))
  {
    var ops := LosingRun(p, row);
    var ks := Copies(row, p.sink * p.perBlock + 1);
    var first := [PrefillOp(0, ks, ks)];
    assert ops[..1] == first && first[..0] == [];
    OneOpRun(first);
    assert RunOk(ops);
    var c := Run(p, first);
    assert c == Step(p, Run(p, first[..0]), first[0]);
    LosingPrefill(p, ks);
    assert LayerOk(p, EMPTY, 0, [], []);
    PrefillOk(p, EMPTY, 0, ks, ks);
    LosingAppend(p, c, 0, ks, ks, row, row);
    var d := Run(p, ops);
    assert d == Append(p, c, 0, row, row);
    assert |Joined(LayerBlocks(d, 0), d.flash).k| == |ks|;
    assert |Kv(BaseRun(ops), 0).k| == |ks| + 1;
  }
}

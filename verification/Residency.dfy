/**
 What stays in RAM: the resident positions cover the sinks and the window, their blocks are
 bounded at any length, a block that has gone to storage stays there unchanged, and RAM plus
 storage account for exactly the baseline's bytes.
 */
module Residency {
  import opened Arithmetic
  import opened Sequences
  import opened Sums
  import opened Accumulator
  import opened TieredCache
  import opened TieredRefinement
  import opened TieredRuns
  import opened HybridAttention
  import opened TieredManager
  import opened BaselineCache

  // ------------------------------------------------------------------ coverage

  predicate Covers(b: Block, t: nat) {
    b.start <= t < b.start + b.count
  }

  predicate ResidentAt(b: Block, t: nat) {
    b.inRam && Loaded(b) && Covers(b, t)
  }

  /** Some resident block covers the position. */
  predicate ResidentIn(bs: seq<Block>, t: nat) {
    exists i :: 0 <= i < |bs| && ResidentAt(bs[i], t)
  }

  /** A position is listed exactly when a resident block covers it. */
  lemma {:induction false} ListedIffResident(bs: seq<Block>, t: nat)
    ensures t in Positions(bs) <==> ResidentIn(bs, t)
  {
    if bs != [] {
      ListedIffResident(bs[..|bs|-1], t);
      ListedNext(bs, t);
      ResidentNext(bs, t);
    }
  }

  lemma ResidentNext(bs: seq<Block>, t: nat)
    requires bs != []
    ensures ResidentIn(bs, t) <==> ResidentIn(bs[..|bs|-1], t) || ResidentAt(bs[|bs|-1], t)
  {
    var init := bs[..|bs|-1];
    assert forall i :: 0 <= i < |init| ==> init[i] == bs[i];
  }

  lemma ListedNext(bs: seq<Block>, t: nat)
    requires bs != []
    ensures t in Positions(bs) <==> t in Positions(bs[..|bs|-1]) || ResidentAt(bs[|bs|-1], t)
  {
    var b := bs[|bs|-1];
    if Covers(b, t) { assert Range(b.start, b.start + b.count)[t - b.start] == t; }
  }

  /** Tiles leave no gap. */
  lemma {:induction false} TileAt(p: Policy, bs: seq<Block>, n: nat, k: nat, t: nat)
    requires Tiles(p, bs, n) && k < |bs| && t < bs[k].start + bs[k].count
    ensures exists i :: 0 <= i < |bs| && Covers(bs[i], t)
  {
    if t >= bs[k].start {
      assert Covers(bs[k], t);
    } else {
      TileAt(p, bs, n, k - 1, t);
    }
  }

  lemma NeededIsResident(p: Policy, b: Block, l: int, flash: Flash, ks: seq<Matrix>, vs: seq<Matrix>, t: nat)
    requires |ks| == |vs| && b.start + b.count <= |ks| && BlockOk(p, b, l, flash, ks, vs) && Covers(b, t)
    requires t < p.sink || t + p.window >= |ks|
    ensures ResidentAt(b, t)
  {
  }

  /** The attention sinks and the sliding window are always resident. */
  lemma HotCoversSinkAndWindow(p: Policy, bs: seq<Block>, bound: nat, flash: Flash, l: int, ks: seq<Matrix>,
                               vs: seq<Matrix>, t: nat)
    requires BlocksOk(p, bs, bound, flash, l, ks, vs)
    requires t < |ks| && (t < p.sink || t + p.window >= |ks|)
    ensures t in Positions(bs)
  {
    TileAt(p, bs, |ks|, |bs| - 1, t);
    var i :| 0 <= i < |bs| && Covers(bs[i], t);
    NeededIsResident(p, bs[i], l, flash, ks, vs, t);
    ListedIffResident(bs, t);
  }

  // ------------------------------------------------------------------ what is listed

  /** A resident block holds the keys and values at its place. */
  predicate HoldsPlace(b: Block, ks: seq<Matrix>, vs: seq<Matrix>) {
    && |ks| == |vs| && b.start + b.count <= |ks|
    && (b.inRam ==> Loaded(b) && b.k.value == ks[b.start..b.start + b.count]
                    && b.v.value == vs[b.start..b.start + b.count])
  }

  /** The rows are those at the positions. */
  predicate RowsAt(x: Payload, positions: seq<nat>, ks: seq<Matrix>, vs: seq<Matrix>) {
    && |x.k| == |x.v| == |positions| && |ks| == |vs|
    && forall i :: 0 <= i < |positions| ==>
         positions[i] < |ks| && x.k[i] == ks[positions[i]] && x.v[i] == vs[positions[i]]
  }

  lemma RowsAtJoin(x: Payload, y: Payload, a: seq<nat>, b: seq<nat>, ks: seq<Matrix>, vs: seq<Matrix>)
    requires RowsAt(x, a, ks, vs) && RowsAt(y, b, ks, vs)
    ensures RowsAt(Payload(x.k + y.k, x.v + y.v), a + b, ks, vs)
  {
  }

  lemma {:induction false} ResidentsAt(bs: seq<Block>, ks: seq<Matrix>, vs: seq<Matrix>)
    requires |ks| == |vs| && forall i :: 0 <= i < |bs| ==> HoldsPlace(bs[i], ks, vs)
    ensures RowsAt(JoinPayloads(Residents(bs)), Positions(bs), ks, vs)
  {
    if bs != [] {
      ResidentsAt(bs[..|bs|-1], ks, vs);
      NextResident(bs[..|bs|-1], bs[|bs|-1], ks, vs);
      assert bs == bs[..|bs|-1] + [bs[|bs|-1]];
    }
  }

  lemma NextResident(bs: seq<Block>, b: Block, ks: seq<Matrix>, vs: seq<Matrix>)
    requires RowsAt(JoinPayloads(Residents(bs)), Positions(bs), ks, vs) && HoldsPlace(b, ks, vs)
    ensures RowsAt(JoinPayloads(Residents(bs + [b])), Positions(bs + [b]), ks, vs)
  {
    OneMoreBlock(bs, b);
    assert (bs + [b])[..|bs|] == bs;
    if b.inRam {
      RowsAtJoin(JoinPayloads(Residents(bs)), Payload(b.k.value, b.v.value), Positions(bs),
                 Range(b.start, b.start + b.count), ks, vs);
    }
  }

  /** After every run the resident rows are the baseline's rows at the listed positions. */
  lemma HotRowsAreBaseline(p: Policy, ops: seq<Op>, l: int)
    requires WindowOk(p) && RunOk(ops)
    ensures var bs, x := LayerBlocks(Run(p, ops), l), Kv(BaseRun(ops), l);
      RowsAt(JoinPayloads(Residents(bs)), Positions(bs), x.k, x.v)
  {
    var c, x := Run(p, ops), Kv(BaseRun(ops), l);
    RunsOk(p, ops);
    assert LayerOk(p, c, l, x.k, x.v);
    forall i | 0 <= i < |LayerBlocks(c, l)| ensures HoldsPlace(LayerBlocks(c, l)[i], x.k, x.v) {
      assert BlockOk(p, LayerBlocks(c, l)[i], l, c.flash, x.k, x.v);
    }
    ResidentsAt(LayerBlocks(c, l), x.k, x.v);
  }

  /** After every run a block is resident exactly when one of its tokens is a sink or in the window. */
  lemma ResidentIff(p: Policy, ops: seq<Op>, l: int, i: nat)
    requires WindowOk(p) && RunOk(ops) && i < |LayerBlocks(Run(p, ops), l)|
    ensures var b, total := LayerBlocks(Run(p, ops), l)[i], |Kv(BaseRun(ops), l).k|;
      b.inRam <==> HoldsNeeded(p, b.start, b.count, total)
  {
    var c, x := Run(p, ops), Kv(BaseRun(ops), l);
    RunsOk(p, ops);
    assert LayerOk(p, c, l, x.k, x.v);
    var b := LayerBlocks(c, l)[i];
    assert BlockOk(p, b, l, c.flash, x.k, x.v);
    HotIff(p, b.start, b.count, |x.k|);
  }

  // ------------------------------------------------------------------ the bound

  function ResidentCount(bs: seq<Block>): nat {
    if bs == [] then 0 else ResidentCount(bs[..|bs|-1]) + if bs[|bs|-1].inRam then 1 else 0
  }

  /** If the resident blocks are among the first `a` and those from `b` on, there are no more than that many. */
  lemma {:induction false} CountWithin(bs: seq<Block>, a: nat, b: nat)
    requires forall i :: 0 <= i < |bs| && bs[i].inRam ==> i < a || i >= b
    ensures ResidentCount(bs) <= a + if |bs| > b then |bs| - b else 0
    ensures |bs| <= a ==> ResidentCount(bs) <= |bs|
  {
    if bs != [] { CountWithin(bs[..|bs|-1], a, b); }
  }

  lemma {:induction false} TileStart(p: Policy, bs: seq<Block>, n: nat, i: nat)
    requires Tiles(p, bs, n) && i < |bs|
    ensures bs[i].start == i * p.perBlock
  {
    if i > 0 {
      TileStart(p, bs, n, i - 1);
      MulStep(i - 1, p.perBlock);
    }
  }

  lemma Below(i: nat, q: nat, m: nat)
    requires m > 0 && i * m < q * m
    ensures i < q
  {
    if q <= i { MulMonotone(q, i, m); }
  }

  /** A block that starts in the sinks is one of the first `ceil(sink / tpb)`. */
  lemma SinkIndex(p: Policy, bs: seq<Block>, n: nat, i: nat)
    requires p.perBlock > 0 && Tiles(p, bs, n) && i < |bs| && bs[i].start < p.sink
    ensures i < NumBlocks(p.sink, p.perBlock)
  {
    TileStart(p, bs, n, i);
    NumBlocksBounds(p.sink, p.perBlock);
    Below(i, NumBlocks(p.sink, p.perBlock), p.perBlock);
  }

  /** A block that reaches into the window is one of the last `ceil(window / tpb) + 1`. */
  lemma WindowIndex(p: Policy, bs: seq<Block>, n: nat, i: nat)
    requires p.perBlock > 0 && Tiles(p, bs, n) && i < |bs|
    requires bs[i].start + bs[i].count > (if n > p.window then n - p.window else 0)
    ensures |bs| <= i + NumBlocks(p.window, p.perBlock) + 1
  {
    var w, m, last := NumBlocks(p.window, p.perBlock), p.perBlock, |bs| - 1;
    NumBlocksBounds(p.window, m);
    TileStart(p, bs, n, i);
    TileStart(p, bs, n, last);
    if last >= i + w + 1 {
      MulMonotone(i + w + 1, last, m);
      MulSplit(i, w, m);
      assert false;
    }
  }

  lemma MulSplit(i: nat, w: nat, m: nat)
    ensures (i + w + 1) * m == i * m + w * m + m
  {
  }

  /** However long the sequence, a layer keeps at most ceil(sink/tpb) + ceil(window/tpb) + 1 blocks in RAM. */
  lemma ResidentBound(p: Policy, bs: seq<Block>, bound: nat, flash: Flash, l: int, ks: seq<Matrix>, vs: seq<Matrix>)
    requires p.perBlock > 0 && BlocksOk(p, bs, bound, flash, l, ks, vs)
    ensures ResidentCount(bs) <= NumBlocks(p.sink, p.perBlock) + NumBlocks(p.window, p.perBlock) + 1
  {
    var a, w := NumBlocks(p.sink, p.perBlock), NumBlocks(p.window, p.perBlock) + 1;
    var b := if |bs| > w then |bs| - w else 0;
    forall i | 0 <= i < |bs| && bs[i].inRam ensures i < a || i >= b {
      assert BlockOk(p, bs[i], l, flash, ks, vs);
      if bs[i].start < p.sink { SinkIndex(p, bs, |ks|, i); } else { WindowIndex(p, bs, |ks|, i); }
    }
    CountWithin(bs, a, b);
  }

  // ------------------------------------------------------------------ cold stays cold

  /** A cold block is full, so an append does not extend it. */
  lemma ColdNotGrown(p: Policy, c: SoundCache, l: int, ks: seq<Matrix>, vs: seq<Matrix>, k: Matrix, v: Matrix, i: nat)
    requires WindowOk(p) && LayerOk(p, c, l, ks, vs)
    requires i < |LayerBlocks(c, l)| && !LayerBlocks(c, l)[i].inRam
    ensures var g := Grown(p, c, l, k, v);
      && i < |g| && g[i] == LayerBlocks(c, l)[i]
      && (forall j :: 0 <= j < |g| && j != i ==> g[j].id != g[i].id)
      && (forall j :: 0 <= j < |g| ==> g[j].layer == l)
  {
    var bs, g := LayerBlocks(c, l), Grown(p, c, l, k, v);
    ColdIsFull(p, bs, c.nextId, c.flash, l, ks, vs);
    GrownTiles(p, c, l, ks, vs, k, v);
    forall j | 0 <= j < |g| && j != i ensures g[j].id != g[i].id {
      assert i < j || j < i;
    }
  }

  lemma AppendKeepsCold(p: Policy, c: SoundCache, l: int, ks: seq<Matrix>, vs: seq<Matrix>, k: Matrix, v: Matrix,
                        i: nat)
    requires WindowOk(p) && LayerOk(p, c, l, ks, vs)
    requires i < |LayerBlocks(c, l)| && !LayerBlocks(c, l)[i].inRam
    ensures var b, d := LayerBlocks(c, l)[i], Append(p, c, l, k, v);
      && i < |LayerBlocks(d, l)| && LayerBlocks(d, l)[i] == b
      && (l, b.id) in c.flash && (l, b.id) in d.flash && d.flash[(l, b.id)] == c.flash[(l, b.id)]
  {
    var bs, g := LayerBlocks(c, l), Grown(p, c, l, k, v);
    var total := TotalTokens(g);
    assert BlockOk(p, bs[i], l, c.flash, ks, vs);
    ColdNotGrown(p, c, l, ks, vs, k, v, i);
    GrownCanFlush(p, c, l, k, v, total);
    FlushOnly(p, g, |g|, total, true, c.flash, l, (l, bs[i].id));
  }

  /** One step leaves a cold block and its stored data exactly as they were. */
  lemma StepKeepsCold(p: Policy, c: SoundCache, base: Baseline, op: Op, l: int, i: nat)
    requires WindowOk(p) && Shaped(op) && CacheOk(p, c, base)
    requires op.PrefillOp? ==> Kv(base, op.layer).k == []
    requires i < |LayerBlocks(c, l)| && !LayerBlocks(c, l)[i].inRam
    ensures var b, d := LayerBlocks(c, l)[i], Step(p, c, op);
      && i < |LayerBlocks(d, l)| && LayerBlocks(d, l)[i] == b
      && (l, b.id) in c.flash && (l, b.id) in d.flash && d.flash[(l, b.id)] == c.flash[(l, b.id)]
  {
    var x := Kv(base, l);
    assert LayerOk(p, c, l, x.k, x.v);
    if op.layer != l {
      assert BlockOk(p, LayerBlocks(c, l)[i], l, c.flash, x.k, x.v);
      StepFrame(p, c, op, l);
    } else if op.AppendOp? {
      AppendKeepsCold(p, c, l, x.k, x.v, op.k, op.v, i);
    }
  }

  /** Over every run: a block that is in storage at some point stays there, unchanged, ever after. */
  lemma {:induction false} ColdForever(p: Policy, ops: seq<Op>, m: nat, l: int, i: nat)
    requires WindowOk(p) && RunOk(ops) && m <= |ops| && RunOk(ops[..m])
    requires i < |LayerBlocks(Run(p, ops[..m]), l)| && !LayerBlocks(Run(p, ops[..m]), l)[i].inRam
    ensures var c, d := Run(p, ops[..m]), Run(p, ops);
      var b := LayerBlocks(c, l)[i];
      && i < |LayerBlocks(d, l)| && LayerBlocks(d, l)[i] == b
      && (l, b.id) in c.flash && (l, b.id) in d.flash && d.flash[(l, b.id)] == c.flash[(l, b.id)]
    decreases |ops|
  {
    if m == |ops| {
      assert ops[..m] == ops;
      RunsOk(p, ops);
      var x := Kv(BaseRun(ops), l);
      assert LayerOk(p, Run(p, ops), l, x.k, x.v);
      assert BlockOk(p, LayerBlocks(Run(p, ops), l)[i], l, Run(p, ops).flash, x.k, x.v);
    } else {
      var before := ops[..|ops|-1];
      assert before[..m] == ops[..m];
      ColdForever(p, before, m, l, i);
      RunsOk(p, before);
      StepKeepsCold(p, Run(p, before), BaseRun(before), ops[|ops|-1], l, i);
    }
  }

  // ------------------------------------------------------------------ RAM plus storage

  lemma BytesAdd(m: nat, n: nat, row: nat)
    ensures Bytes(m + n, row) == Bytes(m, row) + Bytes(n, row)
  {
  }

  /** In RAM and in storage the blocks hold the keys and values of that many tokens. */
  predicate HoldsBytes(bs: seq<Block>, tokens: nat, row: nat) {
    RamBytes(bs, row) + OffloadedBytes(bs, row) == Bytes(2 * tokens, row)
  }

  lemma HeldBytesAdd(a: seq<Block>, b: seq<Block>, m: nat, n: nat, row: nat)
    requires HoldsBytes(a, m, row) && HoldsBytes(b, n, row)
    ensures HoldsBytes(a + b, m + n, row)
  {
    UsageConcat(a, b, row);
    BytesAdd(2 * m, 2 * n, row);
  }

  lemma BlockUsage(p: Policy, b: Block, l: int, flash: Flash, ks: seq<Matrix>, vs: seq<Matrix>, row: nat)
    requires |ks| == |vs| && b.start + b.count <= |ks| && BlockOk(p, b, l, flash, ks, vs)
    ensures HoldsBytes([b], b.count, row)
  {
  }

  /** The number of tokens in the first `n` blocks of a layer. */
  function TokensBelow(bs: seq<Block>, n: nat): nat
    requires n <= |bs|
  {
    if n == 0 then 0 else bs[n-1].start + bs[n-1].count
  }

  lemma NextStart(p: Policy, bs: seq<Block>, total: nat, n: nat)
    requires Tiles(p, bs, total) && 0 < n <= |bs|
    ensures TokensBelow(bs, n - 1) == bs[n-1].start && bs[n-1].start + bs[n-1].count <= total
  {
    if n > 1 { assert bs[n-2].start + bs[n-2].count == bs[n-1].start; }
  }

  /** What RAM and storage hold of the first `n` blocks of a layer together. */
  lemma {:induction false} LayerUsage(p: Policy, bs: seq<Block>, bound: nat, flash: Flash, l: int, ks: seq<Matrix>,
                                      vs: seq<Matrix>, row: nat, n: nat)
    requires BlocksOk(p, bs, bound, flash, l, ks, vs) && n <= |bs|
    ensures HoldsBytes(bs[..n], TokensBelow(bs, n), row)
  {
    if n > 0 {
      LayerUsage(p, bs, bound, flash, l, ks, vs, row, n - 1);
      NextStart(p, bs, |ks|, n);
      BlockUsage(p, bs[n-1], l, flash, ks, vs, row);
      UsageNext(bs, n, row);
    }
  }

  lemma UsageNext(bs: seq<Block>, n: nat, row: nat)
    requires 0 < n <= |bs| && TokensBelow(bs, n - 1) == bs[n-1].start
    requires HoldsBytes(bs[..n-1], TokensBelow(bs, n - 1), row) && HoldsBytes([bs[n-1]], bs[n-1].count, row)
    ensures HoldsBytes(bs[..n], TokensBelow(bs, n), row)
  {
    HeldBytesAdd(bs[..n-1], [bs[n-1]], TokensBelow(bs, n - 1), bs[n-1].count, row);
    assert bs[..n] == bs[..n-1] + [bs[n-1]];
  }

  predicate Distinct(bs: seq<Block>) {
    forall i, j :: 0 <= i < j < |bs| ==> bs[i] != bs[j]
  }

  lemma {:induction false} CountDistinct(bs: seq<Block>, b: Block)
    requires Distinct(bs)
    ensures multiset(bs)[b] == if b in bs then 1 else 0
  {
    if bs != [] {
      var n := |bs| - 1;
      CountDistinct(bs[..n], b);
      assert bs == bs[..n] + [bs[n]];
    }
  }

  lemma SameBlocks(a: seq<Block>, b: seq<Block>)
    requires Distinct(a) && Distinct(b)
    requires forall x :: x in a <==> x in b
    ensures multiset(a) == multiset(b)
  {
    forall x ensures multiset(a)[x] == multiset(b)[x] {
      CountDistinct(a, x);
      CountDistinct(b, x);
    }
  }

  lemma {:induction false} UsageConcat(a: seq<Block>, b: seq<Block>, row: nat)
    ensures RamBytes(a + b, row) == RamBytes(a, row) + RamBytes(b, row)
    ensures OffloadedBytes(a + b, row) == OffloadedBytes(a, row) + OffloadedBytes(b, row)
  {
    if b == [] {
      assert a + b == a;
    } else {
      assert (a + b)[..|a+b|-1] == a + b[..|b|-1];
      UsageConcat(a, b[..|b|-1], row);
    }
  }

  lemma {:induction false} UsagePermute(a: seq<Block>, b: seq<Block>, row: nat)
    requires multiset(a) == multiset(b)
    ensures RamBytes(a, row) == RamBytes(b, row)
    ensures OffloadedBytes(a, row) == OffloadedBytes(b, row)
    decreases |a|
  {
    if a == [] {
      assert |b| == |multiset(b)| == 0;
    } else {
      var i := FindHead(a, b);
      UsagePermute(a[1..], b[..i] + b[i+1..], row);
      assert b == b[..i] + [b[i]] + b[i+1..] && a == [a[0]] + a[1..];
      UsageConcat([a[0]], a[1..], row);
      UsageConcat(b[..i] + [b[i]], b[i+1..], row);
      UsageConcat(b[..i], [b[i]], row);
      UsageConcat(b[..i], b[i+1..], row);
    }
  }

  /** The blocks of layers 0 to `layers - 1`, layer by layer. */
  function InLayers(c: Cache, layers: nat): seq<Block> {
    if layers == 0 then [] else InLayers(c, layers - 1) + LayerBlocks(c, layers - 1)
  }

  /** `all` lists blocks by id, the cache's blocks among them, and the layers are 0 to `layers - 1`. */
  predicate Enumerates(all: seq<Block>, c: Cache, layers: nat) {
    && |all| == c.nextId
    && (forall l :: l in c.layers ==> 0 <= l < layers)
    && (forall id :: 0 <= id < |all| ==> all[id].id == id)
    && (forall l, i :: l in c.layers && 0 <= i < |c.layers[l]| ==>
         var b := c.layers[l][i]; b.layer == l && b.id < |all| && all[b.id] == b)
  }

  ghost predicate HasId(c: Cache, id: nat) {
    exists l, i :: l in c.layers && 0 <= i < |c.layers[l]| && c.layers[l][i].id == id
  }

  /** Every id handed out belongs to a block of some layer. */
  ghost predicate Numbered(c: Cache) {
    forall id: nat :: id < c.nextId ==> HasId(c, id)
  }

  lemma PrefillNumbered(p: Policy, c: SoundCache, l: int, ks: seq<Matrix>, vs: seq<Matrix>)
    requires p.perBlock > 0 && |ks| == |vs| && Numbered(c)
    ensures Numbered(Prefill(p, c, l, ks, vs))
  {
    var added, d := Chunks(p, l, c.nextId, 0, ks, vs), Prefill(p, c, l, ks, vs);
    ChunksIds(p, l, c.nextId, 0, ks, vs);
    if added != [] {
      var n := |LayerBlocks(c, l)|;
      forall id: nat | id < d.nextId ensures HasId(d, id) {
        if id >= c.nextId {
          assert d.layers[l][n + (id - c.nextId)].id == id;
        } else {
          assert HasId(c, id);
          var m, i :| m in c.layers && 0 <= i < |c.layers[m]| && c.layers[m][i].id == id;
          assert d.layers[m][i].id == id;
        }
      }
    }
  }

  lemma AppendKeepsId(p: Policy, c: SoundCache, l: int, k: Matrix, v: Matrix, m: int, i: nat)
    requires m in c.layers && i < |c.layers[m]|
    ensures HasId(Append(p, c, l, k, v), c.layers[m][i].id)
  {
    var g, d := Grown(p, c, l, k, v), Append(p, c, l, k, v);
    assert m == l ==> g[i].id == c.layers[m][i].id;
    assert m in d.layers && i < |d.layers[m]| && d.layers[m][i].id == c.layers[m][i].id;
  }

  lemma AppendNumbered(p: Policy, c: SoundCache, l: int, k: Matrix, v: Matrix)
    requires Numbered(c)
    ensures Numbered(Append(p, c, l, k, v))
  {
    var g, d := Grown(p, c, l, k, v), Append(p, c, l, k, v);
    forall id: nat | id < d.nextId ensures HasId(d, id) {
      if id < c.nextId {
        assert HasId(c, id);
        var m, i: nat :| m in c.layers && i < |c.layers[m]| && c.layers[m][i].id == id;
        AppendKeepsId(p, c, l, k, v, m, i);
      } else {
        assert g[|g|-1].id == id && d.layers[l][|g|-1].id == id;
      }
    }
  }

  lemma {:induction false} RunNumbered(p: Policy, ops: seq<Op>)
    requires p.perBlock > 0 && RunOk(ops)
    ensures Numbered(Run(p, ops))
  {
    if ops != [] {
      var c := Run(p, ops[..|ops|-1]);
      RunNumbered(p, ops[..|ops|-1]);
      match ops[|ops|-1]
      case PrefillOp(l, ks, vs) => PrefillNumbered(p, c, l, ks, vs);
      case AppendOp(l, k, v) => AppendNumbered(p, c, l, k, v);
    }
  }

  /** The pool's list of all blocks enumerates the cache. */
  lemma PoolEnumerates(m: TieredKVManager, layers: nat)
    requires m.Valid() && forall l :: l in m.pool.layerBlocks ==> 0 <= l < layers
    ensures Enumerates(Views(m.pool.AllBlocks()), m.View(), layers)
  {
  }

  lemma InItsLayer(all: seq<Block>, c: Cache, layers: nat, b: Block)
    requires Enumerates(all, c, layers) && Numbered(c) && b in all
    ensures b in LayerBlocks(c, b.layer) && 0 <= b.layer < layers
  {
    var id :| 0 <= id < |all| && all[id] == b;
    assert HasId(c, id);
    var l, i :| l in c.layers && 0 <= i < |c.layers[l]| && c.layers[l][i].id == id;
    assert all[c.layers[l][i].id] == c.layers[l][i];
  }

  lemma {:induction false} InLayersDistinct(all: seq<Block>, c: Cache, layers: nat, n: nat)
    requires Enumerates(all, c, layers) && Numbered(c) && n <= layers
    requires forall l :: l in c.layers ==> IdsAscend(c.layers[l], |all|)
    ensures Distinct(InLayers(c, n))
    ensures forall b :: b in InLayers(c, n) <==> b in all && 0 <= b.layer < n
  {
    if n > 0 {
      InLayersDistinct(all, c, layers, n - 1);
      LayerMembers(all, c, layers, n - 1);
      DistinctJoin(InLayers(c, n - 1), LayerBlocks(c, n - 1), |all|);
    }
  }

  lemma DistinctJoin(xs: seq<Block>, ys: seq<Block>, bound: nat)
    requires Distinct(xs) && IdsAscend(ys, bound) && forall y :: y in ys ==> y !in xs
    ensures Distinct(xs + ys)
  {
    var all := xs + ys;
    forall i, j | 0 <= i < j < |all| ensures all[i] != all[j] {
      if |xs| <= i {
        assert ys[i - |xs|].id < ys[j - |xs|].id;
      } else if |xs| <= j {
        assert all[j] in ys && all[i] in xs;
      }
    }
  }

  lemma LayerMembers(all: seq<Block>, c: Cache, layers: nat, l: nat)
    requires Enumerates(all, c, layers) && Numbered(c)
    ensures forall b :: b in LayerBlocks(c, l) <==> b in all && b.layer == l
  {
    var bs := LayerBlocks(c, l);
    forall b | b in bs ensures b in all && b.layer == l {
      var i :| 0 <= i < |bs| && bs[i] == b;
    }
    forall b | b in all && b.layer == l ensures b in bs {
      InItsLayer(all, c, layers, b);
    }
  }

  /** Bytes counted over the pool are the bytes counted layer by layer. */
  lemma PoolIsLayers(all: seq<Block>, c: Cache, layers: nat, row: nat)
    requires Enumerates(all, c, layers) && Numbered(c)
    requires forall l :: l in c.layers ==> IdsAscend(c.layers[l], |all|)
    ensures RamBytes(all, row) == RamBytes(InLayers(c, layers), row)
    ensures OffloadedBytes(all, row) == OffloadedBytes(InLayers(c, layers), row)
  {
    InLayersDistinct(all, c, layers, layers);
    forall b | b in all ensures 0 <= b.layer < layers {
      InItsLayer(all, c, layers, b);
    }
    SameBlocks(all, InLayers(c, layers));
    UsagePermute(all, InLayers(c, layers), row);
  }

  /** The tokens of layers 0 to `layers - 1` in the baseline. */
  function BaseTokens(base: Baseline, layers: nat): nat {
    if layers == 0 then 0 else BaseTokens(base, layers - 1) + |Kv(base, layers - 1).k|
  }

  /** RAM and storage hold the baseline's bytes of the layer. */
  predicate LayerBytes(c: Cache, base: Baseline, l: int, row: nat) {
    HoldsBytes(LayerBlocks(c, l), |Kv(base, l).k|, row)
  }

  lemma LayerBytesOk(p: Policy, c: Cache, base: Baseline, l: int, row: nat)
    requires CacheOk(p, c, base)
    ensures LayerBytes(c, base, l, row)
  {
    var bs, x := LayerBlocks(c, l), Kv(base, l);
    assert LayerOk(p, c, l, x.k, x.v);
    LayerUsage(p, bs, c.nextId, c.flash, l, x.k, x.v, row, |bs|);
    assert bs[..|bs|] == bs;
  }

  lemma {:induction false} LayersUsage(c: Cache, base: Baseline, layers: nat, row: nat)
    requires forall l :: 0 <= l < layers ==> LayerBytes(c, base, l, row)
    ensures HoldsBytes(InLayers(c, layers), BaseTokens(base, layers), row)
  {
    if layers > 0 {
      var l := layers - 1;
      LayersUsage(c, base, l, row);
      assert LayerBytes(c, base, l, row);
      HeldBytesAdd(InLayers(c, l), LayerBlocks(c, l), BaseTokens(base, l), |Kv(base, l).k|, row);
    }
  }

  /**
   Over every run: the bytes resident in RAM and the bytes offloaded, each counted over the whole
   pool, add up to the bytes of the baseline's keys and values.
   */
  lemma UsageConserved(p: Policy, ops: seq<Op>, all: seq<Block>, layers: nat, row: nat)
    requires WindowOk(p) && RunOk(ops)
    requires Enumerates(all, Run(p, ops), layers)
    ensures RamBytes(all, row) + OffloadedBytes(all, row) == Bytes(2 * BaseTokens(BaseRun(ops), layers), row)
  {
    var c, base := Run(p, ops), BaseRun(ops);
    RunsOk(p, ops);
    forall l | l in c.layers ensures IdsAscend(c.layers[l], |all|) {
      assert LayerOk(p, c, l, Kv(base, l).k, Kv(base, l).v);
    }
    RunNumbered(p, ops);
    PoolIsLayers(all, c, layers, row);
    forall l | 0 <= l < layers ensures LayerBytes(c, base, l, row) {
      LayerBytesOk(p, c, base, l, row);
    }
    LayersUsage(c, base, layers, row);
  }

  /** The tokens of the blocks that are resident, or of those that are not. */
  function TokensWhere(bs: seq<Block>, resident: bool): nat {
    if bs == [] then 0
    else TokensWhere(bs[..|bs|-1], resident) + if bs[|bs|-1].inRam == resident then bs[|bs|-1].count else 0
  }

  predicate HoldsCount(b: Block) {
    b.inRam ==> Loaded(b) && |b.k.value| == |b.v.value| == b.count
  }

  lemma {:induction false} UsageByTier(bs: seq<Block>, row: nat)
    requires forall i :: 0 <= i < |bs| ==> HoldsCount(bs[i])
    ensures RamBytes(bs, row) == Bytes(2 * TokensWhere(bs, true), row)
    ensures OffloadedBytes(bs, row) == Bytes(2 * TokensWhere(bs, false), row)
  {
    if bs != [] {
      var n := |bs| - 1;
      UsageByTier(bs[..n], row);
      assert HoldsCount(bs[n]);
      BytesAdd(2 * TokensWhere(bs[..n], bs[n].inRam), 2 * bs[n].count, row);
    }
  }

  /** After every run: RAM bytes are those of the resident blocks' tokens, offloaded bytes those of the others. */
  lemma UsageSplit(p: Policy, ops: seq<Op>, all: seq<Block>, layers: nat, row: nat)
    requires WindowOk(p) && RunOk(ops) && Enumerates(all, Run(p, ops), layers)
    ensures RamBytes(all, row) == Bytes(2 * TokensWhere(all, true), row)
    ensures OffloadedBytes(all, row) == Bytes(2 * TokensWhere(all, false), row)
  {
    RunsOk(p, ops);
    RunNumbered(p, ops);
    forall i | 0 <= i < |all| ensures HoldsCount(all[i]) {
      InItsLayer(all, Run(p, ops), layers, all[i]);
      CountHeld(p, Run(p, ops), BaseRun(ops), all[i]);
    }
    UsageByTier(all, row);
  }

  lemma CountHeld(p: Policy, c: Cache, base: Baseline, b: Block)
    requires CacheOk(p, c, base) && b in LayerBlocks(c, b.layer)
    ensures HoldsCount(b)
  {
    var x := Kv(base, b.layer);
    assert LayerOk(p, c, b.layer, x.k, x.v);
    var i :| 0 <= i < |LayerBlocks(c, b.layer)| && LayerBlocks(c, b.layer)[i] == b;
    assert BlockOk(p, LayerBlocks(c, b.layer)[i], b.layer, c.flash, x.k, x.v);
  }

  // ------------------------------------------------------------------ against the reported usage

  lemma UsageIsBytes(tokens: nat, layers: nat, row: nat)
    ensures UsageBytes(tokens, layers, row) == Bytes(2 * Times(layers, tokens), row)
  {
  }

  lemma BytesInjective(m: nat, n: nat, row: nat)
    ensures Bytes(m, row) == Bytes(n, row) <==> row == 0 || m == n
  {
    if m < n { MulMonotone(m + 1, n, row); MulStep(m, row); }
    if n < m { MulMonotone(n + 1, m, row); MulStep(n, row); }
  }

  /**
   Over every run: RAM plus offloaded bytes are what the baseline's `get_memory_usage_bytes` reports if
   and only if the layers hold `current_tokens` tokens on average, or a token has no bytes.
   */
  lemma UsageReportedIff(p: Policy, ops: seq<Op>, all: seq<Block>, layers: nat, row: nat)
    requires WindowOk(p) && RunOk(ops) && Enumerates(all, Run(p, ops), layers)
    ensures RamBytes(all, row) + OffloadedBytes(all, row) == UsageBytes(Tokens(ops, layers), layers, row)
       <==> row == 0 || BaseTokens(BaseRun(ops), layers) == Times(layers, Tokens(ops, layers))
  {
    UsageConserved(p, ops, all, layers, row);
    UsageIsBytes(Tokens(ops, layers), layers, row);
    BytesInjective(2 * BaseTokens(BaseRun(ops), layers), 2 * Times(layers, Tokens(ops, layers)), row);
  }

  /** The appends of one token to the first `j` layers. */
  function TokenOps(rows: seq<(Matrix, Matrix)>, j: nat): (ops: seq<Op>)
    requires j <= |rows|
    ensures |ops| == j
  {
    if j == 0 then [] else TokenOps(rows, j - 1) + [AppendOp(j - 1, rows[j-1].0, rows[j-1].1)]
  }

  /** All layers hold `n` tokens, and that is what the baseline counts. */
  predicate Even(ops: seq<Op>, layers: nat, n: nat) {
    Tokens(ops, layers) == n && forall l :: 0 <= l < layers ==> |Kv(BaseRun(ops), l).k| == n
  }

  lemma AppendedLayer(base: Baseline, op: Op, l: int)
    requires op.AppendOp?
    ensures |Kv(BaseStep(base, op), l).k| == |Kv(base, l).k| + if l == op.layer then 1 else 0
  {
  }

  lemma {:induction false} DuringToken(ops: seq<Op>, layers: nat, n: nat, rows: seq<(Matrix, Matrix)>, j: nat)
    requires Even(ops, layers, n) && |rows| == layers && j <= layers
    ensures var now := ops + TokenOps(rows, j);
      && Tokens(now, layers) == (if 0 < j == layers then n + 1 else n)
      && FirstLayersAhead(BaseRun(now), layers, n, j)
  {
    var now := ops + TokenOps(rows, j);
    if j == 0 {
      assert now == ops;
    } else {
      DuringToken(ops, layers, n, rows, j - 1);
      var before := ops + TokenOps(rows, j - 1);
      var op := AppendOp(j - 1, rows[j-1].0, rows[j-1].1);
      assert now[..|now|-1] == before && now[|now|-1] == op;
      OneLayerAhead(BaseRun(before), layers, n, j, op);
    }
  }

  /** The first `j` layers hold one token more than the others. */
  predicate FirstLayersAhead(base: Baseline, layers: nat, n: nat, j: nat) {
    forall l :: 0 <= l < layers ==> |Kv(base, l).k| == if l < j then n + 1 else n
  }

  lemma OneLayerAhead(base: Baseline, layers: nat, n: nat, j: nat, op: Op)
    requires 0 < j <= layers && FirstLayersAhead(base, layers, n, j - 1) && op.AppendOp? && op.layer == j - 1
    ensures FirstLayersAhead(BaseStep(base, op), layers, n, j)
  {
    forall l | 0 <= l < layers ensures |Kv(BaseStep(base, op), l).k| == if l < j then n + 1 else n {
      AppendedLayer(base, op, l);
    }
  }

  lemma {:induction false} MixedTokens(base: Baseline, layers: nat, n: nat, j: nat)
    requires FirstLayersAhead(base, layers, n, j)
    ensures BaseTokens(base, layers) == Times(layers, n) + if j < layers then j else layers
  {
    if layers > 0 {
      MixedTokens(base, layers - 1, n, j);
      MulStep(layers - 1, n);
    }
  }

  lemma OneTokenMore(layers: nat, n: nat)
    ensures Times(layers, n + 1) == Times(layers, n) + layers
  {
  }

  /**
   While one more token goes through the layers, the reported usage falls behind: it is right before the
   first layer and after the last one, and nowhere in between.
   */
  lemma ReportedBetweenTokensIff(p: Policy, ops: seq<Op>, all: seq<Block>, layers: nat, row: nat, n: nat,
                                 rows: seq<(Matrix, Matrix)>, j: nat)
    requires Even(ops, layers, n) && |rows| == layers && j <= layers
    requires WindowOk(p) && RunOk(ops + TokenOps(rows, j))
    requires Enumerates(all, Run(p, ops + TokenOps(rows, j)), layers)
    ensures RamBytes(all, row) + OffloadedBytes(all, row)
        == UsageBytes(Tokens(ops + TokenOps(rows, j), layers), layers, row)
       <==> row == 0 || j == 0 || j == layers
  {
    var now := ops + TokenOps(rows, j);
    DuringToken(ops, layers, n, rows, j);
    MixedTokens(BaseRun(now), layers, n, j);
    OneTokenMore(layers, n);
    UsageReportedIff(p, now, all, layers, row);
  }
}

/**
 The run whose trace the validator expects to have 7872 events: 24 layers of 2 KV heads over 703
 tokens, 16 decode steps, a tenth of the candidates selected.
 */
module KnownRun {
  import opened Arithmetic
  import R = Ranking
  import opened Blockize
  import opened BlockAdapter
  import opened TraceEvents
  import opened TraceTallies
  import opened TraceSelection

  const ADAPTER := Adapter(16, 1, 64, 4, 4, 16)
  const GEOMETRY := Geometry(16, 4096)

  /** A layer of the model's cache. */
  predicate QwenLayer<T>(x: LayerKv<T>) {
    x.Valid() && |x.cells| == 2 && x.seqLen == 703
  }

  predicate QwenLayers<T>(xs: seq<LayerKv<T>>) {
    forall i :: 0 <= i < |xs| ==> xs[i].Valid() && QwenLayer(xs[i])
  }

  lemma {:induction false} WhereConcat<T>(x: seq<Block<T>>, y: seq<Block<T>>)
    ensures |Where(x + y, true)| == |Where(x, true)| + |Where(y, true)|
  {
    if y == [] {
      assert x + y == x;
    } else {
      assert (x + y)[..|x + y|-1] == x + y[..|y|-1];
      WhereConcat(x, y[..|y|-1]);
    }
  }

  /** Resident are the first `p` and those from `q` on. */
  lemma {:induction false} WhereEnds<T>(bs: seq<Block<T>>, n: nat, p: nat, q: nat)
    requires n <= |bs| && p <= q
    requires forall i :: 0 <= i < |bs| ==> (bs[i].dram <==> i < p || i >= q)
    ensures |Where(bs[..n], true)| == (if n < p then n else p) + (if n > q then n - q else 0)
  {
    if n > 0 {
      WhereEnds(bs, n - 1, p, q);
      assert bs[..n][..n-1] == bs[..n-1];
    }
  }

  /** Whether the `i`-th block of a head group is in DRAM. */
  lemma {:induction false} GroupDram<T>(a: Adapter, layer: int, id: nat, x: seq<seq<T>>, seqLen: nat, h: nat, t: nat,
                                        pad: T, i: nat)
    requires a.tokensPerBlock > 0 && Tensor(x, seqLen) && h <= |x| && t <= seqLen
    requires i < |GroupFrom(a, layer, id, x, seqLen, h, t, pad)|
    ensures t + i * a.tokensPerBlock < seqLen
    ensures GroupFrom(a, layer, id, x, seqLen, h, t, pad)[i].dram
         == IsDram(a, t + i * a.tokensPerBlock, Min(t + (i + 1) * a.tokensPerBlock, seqLen), seqLen)
    decreases i
  {
    var m := a.tokensPerBlock;
    if i > 0 {
      var end := Min(t + m, seqLen);
      GroupDram(a, layer, id + 1, x, seqLen, h, end, pad, i - 1);
      MulStep(i - 1, m);
      MulStep(i, m);
    }
  }

  /** One head has 44 blocks, of which the first and the last two are resident. */
  lemma HeadCounts<T>(layer: int, id: nat, x: seq<seq<T>>, h: nat, pad: T)
    requires Tensor(x, 703) && h <= |x|
    ensures var bs := GroupFrom(ADAPTER, layer, id, x, 703, h, 0, pad); |bs| == 44 && |Where(bs, true)| == 3
  {
    var bs := GroupFrom(ADAPTER, layer, id, x, 703, h, 0, pad);
    GroupIds(ADAPTER, layer, id, x, 703, h, 0, pad);
    assert NumBlocks(703, 16) == 44;
    forall i | 0 <= i < 44 ensures bs[i].dram <==> i < 1 || i >= 42 {
      GroupDram(ADAPTER, layer, id, x, 703, h, 0, pad, i);
    }
    WhereEnds(bs, 44, 1, 42);
    assert bs[..44] == bs;
  }

  /** A layer has 88 blocks, 6 of them resident, and they are standard. */
  lemma LayerCounts<T>(x: LayerKv<T>, id: nat, pad: T)
    requires QwenLayer(x)
    ensures var bs := LayerBlocks(ADAPTER, x, id, pad);
      |bs| == 88 && |Where(bs, true)| == 6 && Standard(GEOMETRY, bs)
  {
    var cells := x.cells;
    var first := GroupFrom(ADAPTER, x.layer, id, cells, 703, 0, 0, pad);
    var second := GroupFrom(ADAPTER, x.layer, id + |first|, cells, 703, 1, 0, pad);
    HeadCounts(x.layer, id, cells, 0, pad);
    HeadCounts(x.layer, id + |first|, cells, 1, pad);
    NextGroup(ADAPTER, x.layer, cells, 703, id, 0, pad);
    NextGroup(ADAPTER, x.layer, cells, 703, id + |first|, 1, pad);
    var rest := BlocksFrom(ADAPTER, x.layer, id + |first| + |second|, cells, 703, 2, pad);
    assert rest == [];
    assert second + rest == second;
    WhereConcat(first, second);
    GroupIds(ADAPTER, x.layer, id, cells, 703, 0, 0, pad);
    GroupIds(ADAPTER, x.layer, id + |first|, cells, 703, 1, 0, pad);
  }

  lemma {:induction false} AllLayersCount<T>(xs: seq<LayerKv<T>>, id: nat, pad: T, l: nat)
    requires l < |xs| && QwenLayers(xs)
    ensures var bs := AllBlocks(ADAPTER, xs, id, pad)[l]; |bs| == 88 && |Where(bs, true)| == 6 && Standard(GEOMETRY, bs)
  {
    var first := LayerBlocks(ADAPTER, xs[0], id, pad);
    if l == 0 {
      LayerCounts(xs[0], id, pad);
    } else {
      AllLayersCount(xs[1..], id + |first|, pad, l - 1);
    }
  }

  lemma TenthOf82()
    ensures KVal(82, 10.0) == 8
  {
    assert 82 as real * (10.0 / 100.0) == 8.2;
  }

  /** The checks of the validator pass on this run's trace, which has 7872 events. */
  lemma ExpectedEvents<T(!new)>(xs: seq<LayerKv<T>>, pad: T, score: Scorer<T>, base: int)
    requires |xs| == 24 && base >= 0 && QwenLayers(xs)
    ensures var trace := Trace(GEOMETRY, KernelSelector(score, 10.0), 16, AllBlocks(ADAPTER, xs, 0, pad), base);
      |trace| == 7872 && Validated(trace)
  {
    var layers, sel := AllBlocks(ADAPTER, xs, 0, pad), KernelSelector(score, 10.0);
    forall l | 0 <= l < |layers| ensures |layers[l]| == 88 && |Where(layers[l], true)| == 6
        && Standard(GEOMETRY, layers[l]) {
      AllLayersCount(xs, 0, pad, l);
    }
    KernelSelectorOk(score, 10.0);
    EventCount(GEOMETRY, sel, 16, layers, base, 88, 6);
    TenthOf82();
    assert PerLayer(6, 82, sel.kOf) == 15;
    WhereSplits(layers[0]);
    assert Candidate(layers, 0);
    ValidatedIff(GEOMETRY, sel, 16, layers, base);
  }
}

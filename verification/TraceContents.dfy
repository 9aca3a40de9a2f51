/** What the events of a trace say, field by field. */
module TraceContents {
  import opened Options
  import opened Arithmetic
  import opened Blockize
  import opened TraceEvents

  /** The writing of block `b` of layer `l`, at place `i` of a trace that starts at `base`. */
  predicate WritesBlock<T>(g: Geometry, e: Event, l: nat, b: Block<T>) {
    && e.operation == PREFILL_WRITE && e.queryId == 0 && e.step == 0 && e.layer == l && e.head == b.headStart
    && e.block == b.id && e.tokenStart == b.tokenStart && e.tokenEnd == b.tokenStart + g.tokensPerBlock
    && e.subPage == BOTH && e.bytes == g.keySize + g.keySize && (e.tier == DRAM <==> b.dram) && e.hotness == b.hotness
    && e.candidates == [] && e.selected == [b.id] && e.topkK == None
  }

  /** The reading of a resident block in a decode step. */
  predicate ReadsBlock<T>(g: Geometry, e: Event, step: nat, l: nat, b: Block<T>) {
    && e.operation == DECODE_READ && e.queryId == e.step == step && e.layer == l && e.head == b.headStart
    && e.block == b.id && e.tokenStart == b.tokenStart && e.tokenEnd == b.tokenStart + g.tokensPerBlock
    && e.subPage == BOTH && e.bytes == g.keySize + g.keySize && e.tier == DRAM && e.hotness == b.hotness
    && e.candidates == [] && e.selected == [b.id] && e.topkK == None
  }

  /** The filtering of a layer's candidates in a decode step. */
  predicate Filters<T>(g: Geometry, e: Event, step: nat, l: nat, ssd: seq<Block<T>>, chosen: seq<Block<T>>, k: nat) {
    && ssd != []
    && e.operation == TOPK_FILTER && e.queryId == e.step == step && e.layer == l && e.head == 0
    && e.block == ssd[0].id && e.tokenStart == e.tokenEnd == 0
    && e.subPage == KEY && e.bytes == |ssd| * g.keySize && e.tier == SSD && e.hotness == 0.5
    && ListsIds(e.candidates, ssd) && ListsIds(e.selected, chosen) && e.topkK == Some(k)
  }

  /** The fetching of a chosen block. */
  predicate FetchesBlock<T>(g: Geometry, e: Event, step: nat, l: nat, b: Block<T>, ssd: seq<Block<T>>,
                            chosen: seq<Block<T>>) {
    && e.operation == TOPK_FETCH && e.queryId == e.step == step && e.layer == l && e.head == b.headStart
    && e.block == b.id && e.tokenStart == b.tokenStart && e.tokenEnd == b.tokenStart + g.tokensPerBlock
    && e.subPage == VALUE && e.bytes == g.keySize && e.tier == SSD && e.hotness == b.hotness
    && ListsIds(e.candidates, ssd) && ListsIds(e.selected, chosen) && e.topkK == None
  }

  predicate ListsIds<T>(ids: seq<nat>, bs: seq<Block<T>>) {
    |ids| == |bs| && forall i :: 0 <= i < |bs| ==> ids[i] == bs[i].id
  }

  /** The events of a prefilled layer are the writing of its blocks, in order. */
  predicate IsPrefill<T>(g: Geometry, es: seq<Event>, l: nat, bs: seq<Block<T>>) {
    |es| == |bs| && forall i :: 0 <= i < |bs| ==> WritesBlock(g, es[i], l, bs[i])
  }

  /**
   The events of a layer in a decode step: the resident blocks are read in order, and if there are candidates, one
   filter over all of them is followed by the fetches of the chosen ones, in the order of choice.
   */
  predicate IsDecode<T>(g: Geometry, sel: Selector<T>, es: seq<Event>, step: nat, l: nat, bs: seq<Block<T>>) {
    var dram, ssd := Where(bs, true), Where(bs, false);
    var chosen, k := sel.choose(step, l, ssd), sel.kOf(|ssd|);
    && |es| == |dram| + (if ssd == [] then 0 else 1 + |chosen|)
    && (forall i :: 0 <= i < |dram| ==> ReadsBlock(g, es[i], step, l, dram[i]))
    && (ssd != [] ==>
          && Filters(g, es[|dram|], step, l, ssd, chosen, k)
          && forall i :: 0 <= i < |chosen| ==> FetchesBlock(g, es[|dram| + 1 + i], step, l, chosen[i], ssd, chosen))
  }

  lemma PrefillIs<T>(g: Geometry, l: nat, bs: seq<Block<T>>)
    ensures IsPrefill(g, PrefillDrafts(g, l, bs), l, bs)
  {
  }

  lemma DecodeIs<T>(g: Geometry, sel: Selector<T>, step: nat, l: nat, bs: seq<Block<T>>)
    ensures IsDecode(g, sel, DecodeDrafts(g, sel, step, l, bs), step, l, bs)
  {
    var dram, ssd := Where(bs, true), Where(bs, false);
    var chosen, k := sel.choose(step, l, ssd), sel.kOf(|ssd|);
    LayerIs(g, step, l, dram, ssd, chosen, k);
  }

  /** `Where` lists the blocks with that flag, in their order. */
  lemma {:induction false} WhereIs<T>(bs: seq<Block<T>>, dram: bool) returns (at: seq<nat>)
    ensures |at| == |Where(bs, dram)| && forall i, j :: 0 <= i < j < |at| ==> at[i] < at[j]
    ensures forall i :: 0 <= i < |at| ==>
      at[i] < |bs| && bs[at[i]].dram == dram && Where(bs, dram)[i] == bs[at[i]]
    ensures forall j :: 0 <= j < |bs| && bs[j].dram == dram ==> j in at
  {
    if bs == [] {
      at := [];
    } else {
      var n := |bs| - 1;
      var before := WhereIs(bs[..n], dram);
      at := before + if bs[n].dram == dram then [n] else [];
      forall j | 0 <= j < |bs| && bs[j].dram == dram ensures j in at {
        if j < n { assert bs[..n][j] == bs[j] && j in before; }
      }
    }
  }

  lemma LayerIs<T>(g: Geometry, step: nat, l: nat, dram: seq<Block<T>>, ssd: seq<Block<T>>, chosen: seq<Block<T>>,
                   k: nat)
    ensures var es := LayerDrafts(g, step, l, dram, ssd, chosen, k);
      && (forall i :: 0 <= i < |dram| ==> ReadsBlock(g, es[i], step, l, dram[i]))
      && (ssd != [] ==>
            && Filters(g, es[|dram|], step, l, ssd, chosen, k)
            && forall i :: 0 <= i < |chosen| ==> FetchesBlock(g, es[|dram| + 1 + i], step, l, chosen[i], ssd, chosen))
  {
    var es := LayerDrafts(g, step, l, dram, ssd, chosen, k);
    assert forall i :: 0 <= i < |dram| ==> es[i] == ReadDrafts(g, step, l, dram)[i];
    if ssd != [] {
      var fetches := FetchDrafts(g, step, l, chosen, Ids(ssd), Ids(chosen));
      assert es[|dram|] == FilterEvent(g, step, l, Ids(ssd), Ids(chosen), k);
      forall i | 0 <= i < |chosen| ensures FetchesBlock(g, es[|dram| + 1 + i], step, l, chosen[i], ssd, chosen) {
        assert es[|dram| + 1 + i] == fetches[i];
      }
    }
  }

  /** How a trace is made up: layer by layer at prefill, then step by step and layer by layer. */
  datatype Parts = Parts(prefill: seq<seq<Event>>, decode: seq<seq<seq<Event>>>)

  function Flat(xs: seq<seq<Event>>): seq<Event> {
    if xs == [] then [] else Flat(xs[..|xs|-1]) + xs[|xs|-1]
  }

  function FlatSteps(xs: seq<seq<seq<Event>>>): seq<Event> {
    if xs == [] then [] else FlatSteps(xs[..|xs|-1]) + Flat(xs[|xs|-1])
  }

  lemma FlatNext(xs: seq<seq<Event>>, x: seq<Event>)
    ensures Flat(xs + [x]) == Flat(xs) + x
  {
    assert (xs + [x])[..|xs|] == xs;
  }

  lemma FlatStepsNext(xs: seq<seq<seq<Event>>>, x: seq<seq<Event>>)
    ensures FlatSteps(xs + [x]) == FlatSteps(xs) + Flat(x)
  {
    assert (xs + [x])[..|xs|] == xs;
  }

  ghost predicate AreParts<T>(g: Geometry, sel: Selector<T>, steps: nat, layers: seq<seq<Block<T>>>, x: Parts) {
    && |x.prefill| == |layers| && |x.decode| == steps
    && (forall l: nat | l < |layers| :: IsPrefill(g, x.prefill[l], l, layers[l]))
    && forall s: nat | s < steps :: IsStep(g, sel, s + 1, layers, x.decode[s])
  }

  ghost predicate IsStep<T>(g: Geometry, sel: Selector<T>, step: nat, layers: seq<seq<Block<T>>>, es: seq<seq<Event>>) {
    |es| == |layers| && forall l: nat | l < |layers| :: IsDecode(g, sel, es[l], step, l, layers[l])
  }

  lemma {:induction false} PrefillFlat<T>(g: Geometry, layers: seq<seq<Block<T>>>, n: nat) returns (xs: seq<seq<Event>>)
    requires n <= |layers|
    ensures |xs| == n && Flat(xs) == PrefillAll(g, layers, n)
    ensures forall l: nat | l < n :: IsPrefill(g, xs[l], l, layers[l])
  {
    if n == 0 {
      xs := [];
    } else {
      var before := PrefillFlat(g, layers, n - 1);
      PrefillIs(g, n - 1, layers[n-1]);
      xs := before + [PrefillDrafts(g, n - 1, layers[n-1])];
      FlatNext(before, PrefillDrafts(g, n - 1, layers[n-1]));
    }
  }

  lemma {:induction false} StepFlat<T>(g: Geometry, sel: Selector<T>, step: nat, layers: seq<seq<Block<T>>>, n: nat)
    returns (xs: seq<seq<Event>>)
    requires n <= |layers|
    ensures |xs| == n && Flat(xs) == StepAll(g, sel, step, layers, n)
    ensures forall l: nat | l < n :: IsDecode(g, sel, xs[l], step, l, layers[l])
  {
    if n == 0 {
      xs := [];
    } else {
      var before := StepFlat(g, sel, step, layers, n - 1);
      DecodeIs(g, sel, step, n - 1, layers[n-1]);
      xs := before + [DecodeDrafts(g, sel, step, n - 1, layers[n-1])];
      FlatNext(before, DecodeDrafts(g, sel, step, n - 1, layers[n-1]));
    }
  }

  lemma {:induction false} DecodeFlat<T>(g: Geometry, sel: Selector<T>, steps: nat, layers: seq<seq<Block<T>>>)
    returns (xs: seq<seq<seq<Event>>>)
    ensures |xs| == steps && FlatSteps(xs) == DecodeAll(g, sel, steps, layers)
    ensures forall s: nat | s < steps :: IsStep(g, sel, s + 1, layers, xs[s])
  {
    if steps == 0 {
      xs := [];
    } else {
      var before := DecodeFlat(g, sel, steps - 1, layers);
      var last := StepFlat(g, sel, steps, layers, |layers|);
      xs := before + [last];
      FlatStepsNext(before, last);
    }
  }

  /**
   A trace consists of the writing of all blocks, layer by layer, and then for every step and layer of what
   decoding logs, with ids counted up from 0 and timestamps by 100 from the base.
   */
  lemma TraceIs<T>(g: Geometry, sel: Selector<T>, steps: nat, layers: seq<seq<Block<T>>>, base: int)
    returns (x: Parts)
    ensures AreParts(g, sel, steps, layers, x)
    ensures var trace, drafts := Trace(g, sel, steps, layers, base), Flat(x.prefill) + FlatSteps(x.decode);
      && |trace| == |drafts|
      && forall i :: 0 <= i < |trace| ==> trace[i] == drafts[i].(eventId := i, timestamp := base + 100 * i)
  {
    var prefill := PrefillFlat(g, layers, |layers|);
    var decode := DecodeFlat(g, sel, steps, layers);
    x := Parts(prefill, decode);
  }
}

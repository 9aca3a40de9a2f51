/** `KVBlockAdapter`: the blockization loops, specified by module Blockize. */
module BlockAdapter {
  import opened Options
  import opened Arithmetic
  import opened Sequences
  import opened Blockize

  /** The KV tensors of one layer, with the element sizes of keys and values. */
  datatype LayerKv<R> = LayerKv(layer: int, cells: seq<seq<R>>, seqLen: nat, dim: nat, itemK: nat, itemV: nat) {
    predicate Valid() { Tensor(cells, seqLen) }
  }

  predicate LayerAccepted<R>(a: Adapter, x: LayerKv<R>)
    requires a.headsPerBlock > 0
  {
    Accepts(a, |x.cells|, x.seqLen, x.dim, x.itemK, x.itemV)
  }

  function LayerBlocks<R>(a: Adapter, x: LayerKv<R>, id: nat, pad: R): seq<Block<R>>
    requires a.tokensPerBlock > 0 && a.headsPerBlock > 0 && x.Valid()
  {
    BlocksFrom(a, x.layer, id, x.cells, x.seqLen, 0, pad)
  }

  /** The blocks of the layers in order, numbered through. */
  function AllBlocks<R>(a: Adapter, xs: seq<LayerKv<R>>, id: nat, pad: R): (r: seq<seq<Block<R>>>)
    requires a.tokensPerBlock > 0 && a.headsPerBlock > 0 && forall i :: 0 <= i < |xs| ==> xs[i].Valid()
    ensures |r| == |xs|
  {
    if xs == [] then []
    else
      var first := LayerBlocks(a, xs[0], id, pad);
      [first] + AllBlocks(a, xs[1..], id + |first|, pad)
  }

  /** The number of blocks in the layers before `l`. */
  function Before<R>(r: seq<seq<Block<R>>>, l: nat): nat
    requires l <= |r|
  {
    if l == 0 then 0 else |r[0]| + Before(r[1..], l - 1)
  }

  /** Over all layers the ids are 0, 1, 2, ... without a gap, and every block knows its layer. */
  lemma {:induction false} IdsContiguous<R>(a: Adapter, xs: seq<LayerKv<R>>, id: nat, pad: R, l: nat, i: nat)
    requires a.tokensPerBlock > 0 && a.headsPerBlock > 0 && forall j :: 0 <= j < |xs| ==> xs[j].Valid()
    requires l < |xs| && i < |AllBlocks(a, xs, id, pad)[l]|
    ensures var r := AllBlocks(a, xs, id, pad);
      && r[l][i].id == id + Before(r, l) + i && r[l][i].layer == xs[l].layer
      && |r[l]| == Times(NumBlocks(|xs[l].cells|, a.headsPerBlock), NumBlocks(xs[l].seqLen, a.tokensPerBlock))
  {
    var first := LayerBlocks(a, xs[0], id, pad);
    BlockIds(a, xs[0].layer, id, xs[0].cells, xs[0].seqLen, 0, pad);
    var rest := AllBlocks(a, xs[1..], id + |first|, pad);
    assert AllBlocks(a, xs, id, pad)[1..] == rest;
    if l > 0 {
      IdsContiguous(a, xs[1..], id + |first|, pad, l - 1, i);
    }
  }

  lemma NextGroup<R>(a: Adapter, layer: int, x: seq<seq<R>>, seqLen: nat, id: nat, h: nat, pad: R)
    requires a.tokensPerBlock > 0 && a.headsPerBlock > 0 && Tensor(x, seqLen) && h < |x|
    ensures var group := GroupFrom(a, layer, id, x, seqLen, h, 0, pad);
      BlocksFrom(a, layer, id, x, seqLen, h, pad)
      == group + BlocksFrom(a, layer, id + |group|, x, seqLen, Min(h + a.headsPerBlock, |x|), pad)
  {
  }

  lemma GroupAppended<R>(a: Adapter, layer: int, x: seq<seq<R>>, seqLen: nat, before: seq<Block<R>>, id: nat, h: nat,
                         pad: R)
    requires a.tokensPerBlock > 0 && a.headsPerBlock > 0 && Tensor(x, seqLen) && h < |x|
    ensures var group := GroupFrom(a, layer, id, x, seqLen, h, 0, pad);
      before + BlocksFrom(a, layer, id, x, seqLen, h, pad)
      == (before + group) + BlocksFrom(a, layer, id + |group|, x, seqLen, Min(h + a.headsPerBlock, |x|), pad)
  {
    var group := GroupFrom(a, layer, id, x, seqLen, h, 0, pad);
    NextGroup(a, layer, x, seqLen, id, h, pad);
    Regroup(before, group, BlocksFrom(a, layer, id + |group|, x, seqLen, Min(h + a.headsPerBlock, |x|), pad));
  }

  class KVBlockAdapter {
    const a: Adapter

    constructor (a: Adapter)
      ensures this.a == a
    {
      this.a := a;
    }

    /** `blockize_layer`: fails on a head dimension or a slice size that does not match the declared geometry. */
    method BlockizeLayer<R>(x: LayerKv<R>, offset: nat, pad: R) returns (r: Option<seq<Block<R>>>)
      requires a.tokensPerBlock > 0 && a.headsPerBlock > 0 && x.Valid()
      ensures r.Some? <==> LayerAccepted(a, x)
      ensures r.Some? ==> r.value == LayerBlocks(a, x, offset, pad)
    {
      if x.dim != a.headDim { return None; }
      var blocks: seq<Block<R>> := [];
      var h := 0;
      while h < |x.cells|
        invariant blocks + BlocksFrom(a, x.layer, offset + |blocks|, x.cells, x.seqLen, Min(h, |x.cells|), pad)
               == LayerBlocks(a, x, offset, pad)
        invariant LayerAccepted(a, x) <==> x.seqLen == 0 || GroupsFit(a, |x.cells|, h, x.itemK, x.itemV)
      {
        var hCount := Min(a.headsPerBlock, |x.cells| - h);
        if x.seqLen > 0 && !Fits(a, hCount, x.itemK, x.itemV) { return None; }
        var more := BlockizeGroup(x, h, offset + |blocks|, pad);
        GroupAppended(a, x.layer, x.cells, x.seqLen, blocks, offset + |blocks|, h, pad);
        blocks := blocks + more;
        h := h + a.headsPerBlock;
      }
      assert blocks + [] == blocks;
      r := Some(blocks);
    }

    /** The inner loop: one head group, stretch by stretch. */
    method BlockizeGroup<R>(x: LayerKv<R>, h: nat, offset: nat, pad: R) returns (blocks: seq<Block<R>>)
      requires a.tokensPerBlock > 0 && a.headsPerBlock > 0 && x.Valid() && h <= |x.cells|
      ensures blocks == GroupFrom(a, x.layer, offset, x.cells, x.seqLen, h, 0, pad)
    {
      blocks := [];
      var tStart := 0;
      while tStart < x.seqLen
        invariant blocks + GroupFrom(a, x.layer, offset + |blocks|, x.cells, x.seqLen, h, Min(tStart, x.seqLen), pad)
               == GroupFrom(a, x.layer, offset, x.cells, x.seqLen, h, 0, pad)
      {
        var block := MakeBlock(a, x.layer, offset + |blocks|, x.cells, x.seqLen, h, tStart, pad);
        ghost var rest := GroupFrom(a, x.layer, offset + |blocks| + 1, x.cells, x.seqLen, h,
                                    Min(tStart + a.tokensPerBlock, x.seqLen), pad);
        assert blocks + ([block] + rest) == (blocks + [block]) + rest;
        blocks := blocks + [block];
        tStart := tStart + a.tokensPerBlock;
      }
      assert blocks + [] == blocks;
    }

    /** `blockize_all_layers`, the layers in ascending order. */
    method BlockizeAllLayers<R>(xs: seq<LayerKv<R>>, pad: R) returns (r: Option<seq<seq<Block<R>>>>)
      requires a.tokensPerBlock > 0 && a.headsPerBlock > 0 && forall i :: 0 <= i < |xs| ==> xs[i].Valid()
      ensures r.Some? <==> forall i :: 0 <= i < |xs| ==> LayerAccepted(a, xs[i])
      ensures r.Some? ==> r.value == AllBlocks(a, xs, 0, pad)
    {
      var all: seq<seq<Block<R>>> := [];
      var currId: nat := 0;
      for i := 0 to |xs|
        invariant forall j :: 0 <= j < i ==> LayerAccepted(a, xs[j])
        invariant all + AllBlocks(a, xs[i..], currId, pad) == AllBlocks(a, xs, 0, pad)
      {
        var blocks := BlockizeLayer(xs[i], currId, pad);
        if blocks == None { return None; }
        assert xs[i..][0] == xs[i] && xs[i..][1..] == xs[i+1..];
        ghost var rest := AllBlocks(a, xs[i+1..], currId + |blocks.value|, pad);
        assert all + ([blocks.value] + rest) == (all + [blocks.value]) + rest;
        all := all + [blocks.value];
        currId := currId + |blocks.value|;
      }
      assert all + [] == all;
      r := Some(all);
    }
  }
}

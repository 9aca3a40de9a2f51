/**
 Blockization of a layer's KV tensors, as values: groups of heads by stretches of tokens, the last
 stretch padded.  A cell stands for the key row and the value row of one head and one token.
 */
module Blockize {
  import opened Arithmetic

  datatype Adapter = Adapter(tokensPerBlock: nat, headsPerBlock: nat, headDim: nat, bytesPerElem: nat, sink: nat,
                             recent: nat)

  /** Tokens by heads by coordinates by bytes. */
  function SliceBytes(tokens: nat, heads: nat, dim: nat, bytes: nat): nat { tokens * heads * dim * bytes }

  function KeySize(a: Adapter): nat { SliceBytes(a.tokensPerBlock, a.headsPerBlock, a.headDim, a.bytesPerElem) }

  datatype Block<R> = Block(id: nat, layer: int, tokenStart: nat, headStart: nat, headCount: nat,
                            dram: bool, hotness: real, payload: seq<seq<R>>)

  function MaxReal(a: real, b: real): real { if a > b then a else b }

  /** [heads][tokens] */
  predicate Tensor<R>(x: seq<seq<R>>, seqLen: nat) {
    forall h :: 0 <= h < |x| ==> |x[h]| == seqLen
  }

  function Pads<R>(n: nat, pad: R): (r: seq<R>)
    ensures |r| == n
  {
    seq(n, _ => pad)
  }

  function Payload<R>(a: Adapter, x: seq<seq<R>>, seqLen: nat, h: nat, hCount: nat, t: nat, pad: R): (rows: seq<seq<R>>)
    requires Tensor(x, seqLen) && h + hCount <= |x| && t <= seqLen
    ensures |rows| == hCount
  {
    var end := Min(t + a.tokensPerBlock, seqLen);
    seq(hCount, i requires 0 <= i < hCount => x[h + i][t..end] + Pads(a.tokensPerBlock - (end - t), pad))
  }

  /** An attention sink, or reaching into the recent window. */
  predicate IsDram(a: Adapter, t: nat, end: nat, seqLen: nat) {
    t < a.sink || end > seqLen as int - a.recent
  }

  function Hotness(a: Adapter, t: nat, end: nat, seqLen: nat): real {
    if t < a.sink then 1.0
    else if end > seqLen as int - a.recent then 0.9
    else MaxReal(0.05, 0.5 * (1.0 - t as real / MaxReal(1.0, seqLen as real)))
  }

  function MakeBlock<R>(a: Adapter, layer: int, id: nat, x: seq<seq<R>>, seqLen: nat, h: nat, t: nat, pad: R): Block<R>
    requires Tensor(x, seqLen) && h <= |x| && t <= seqLen
  {
    var hCount, end := Min(a.headsPerBlock, |x| - h), Min(t + a.tokensPerBlock, seqLen);
    Block(id, layer, t, h, hCount, IsDram(a, t, end, seqLen), Hotness(a, t, end, seqLen),
          Payload(a, x, seqLen, h, hCount, t, pad))
  }

  /** The blocks of the head group at `h`, from the token `t` on, numbered from `id`. */
  function GroupFrom<R>(a: Adapter, layer: int, id: nat, x: seq<seq<R>>, seqLen: nat, h: nat, t: nat,
                        pad: R): seq<Block<R>>
    requires a.tokensPerBlock > 0 && Tensor(x, seqLen) && h <= |x| && t <= seqLen
    decreases seqLen - t
  {
    if t == seqLen then []
    else [MakeBlock(a, layer, id, x, seqLen, h, t, pad)]
         + GroupFrom(a, layer, id + 1, x, seqLen, h, Min(t + a.tokensPerBlock, seqLen), pad)
  }

  /** The blocks of all head groups from `h` on. */
  function BlocksFrom<R>(a: Adapter, layer: int, id: nat, x: seq<seq<R>>, seqLen: nat, h: nat, pad: R): seq<Block<R>>
    requires a.tokensPerBlock > 0 && a.headsPerBlock > 0 && Tensor(x, seqLen) && h <= |x|
    decreases |x| - h
  {
    if h == |x| then []
    else
      var group := GroupFrom(a, layer, id, x, seqLen, h, 0, pad);
      group + BlocksFrom(a, layer, id + |group|, x, seqLen, Min(h + a.headsPerBlock, |x|), pad)
  }

  // ------------------------------------------------------------------ geometry

  /** `validate_geometry` on a slice of `hCount` heads. */
  predicate Fits(a: Adapter, hCount: nat, itemK: nat, itemV: nat) {
    && SliceBytes(a.tokensPerBlock, hCount, a.headDim, itemK) == KeySize(a)
    && SliceBytes(a.tokensPerBlock, hCount, a.headDim, itemV) == KeySize(a)
  }

  /** All head groups from `h` on fit. */
  predicate GroupsFit(a: Adapter, heads: nat, h: nat, itemK: nat, itemV: nat)
    requires a.headsPerBlock > 0
    decreases heads - h
  {
    h >= heads || (Fits(a, Min(a.headsPerBlock, heads - h), itemK, itemV)
                   && GroupsFit(a, heads, h + a.headsPerBlock, itemK, itemV))
  }

  /** `blockize_layer` accepts a tensor without tokens, and one whose head groups all have the block's size. */
  predicate Accepts(a: Adapter, heads: nat, seqLen: nat, dim: nat, itemK: nat, itemV: nat)
    requires a.headsPerBlock > 0
  {
    dim == a.headDim && (seqLen == 0 || GroupsFit(a, heads, 0, itemK, itemV))
  }

  lemma BytesGrow(tokens: nat, heads: nat, more: nat, dim: nat, bytes: nat)
    requires tokens > 0 && dim > 0 && bytes > 0 && heads < more
    ensures SliceBytes(tokens, heads, dim, bytes) < SliceBytes(tokens, more, dim, bytes)
  {
    MulMonotone(heads + 1, more, tokens);
    MulStep(heads, tokens);
    MulMonotone(tokens * heads + 1, tokens * more, dim);
    MulStep(tokens * heads, dim);
    MulMonotone(tokens * heads * dim + 1, tokens * more * dim, bytes);
    MulStep(tokens * heads * dim, bytes);
  }

  /** With elements of the declared size, a group fits exactly when it is not cut short. */
  lemma FitsIff(a: Adapter, hCount: nat)
    requires a.tokensPerBlock > 0 && a.headDim > 0 && a.bytesPerElem > 0 && hCount <= a.headsPerBlock
    ensures Fits(a, hCount, a.bytesPerElem, a.bytesPerElem) <==> hCount == a.headsPerBlock
  {
    if hCount < a.headsPerBlock { BytesGrow(a.tokensPerBlock, hCount, a.headsPerBlock, a.headDim, a.bytesPerElem); }
  }

  lemma {:induction false} GroupsFitIff(a: Adapter, heads: nat, h: nat, q: nat)
    requires a.tokensPerBlock > 0 && a.headDim > 0 && a.bytesPerElem > 0 && a.headsPerBlock > 0
    requires h == q * a.headsPerBlock && h <= heads
    ensures GroupsFit(a, heads, h, a.bytesPerElem, a.bytesPerElem) <==> heads % a.headsPerBlock == 0
    decreases heads - h
  {
    var m := a.headsPerBlock;
    if heads - h >= m {
      FitsIff(a, m);
      MulStep(q, m);
      GroupsFitIff(a, heads, h + m, q + 1);
    } else {
      QuotientUnique(heads, m, q, heads - h);
      FitsIff(a, heads - h);
    }
  }

  /**
   With elements of the declared size, a layer with heads and tokens is accepted exactly when the
   heads of a block divide its KV heads: a remainder group fails the byte check.
   */
  lemma AcceptsIff(a: Adapter, heads: nat, seqLen: nat)
    requires a.tokensPerBlock > 0 && a.headDim > 0 && a.bytesPerElem > 0 && a.headsPerBlock > 0
    requires heads > 0 && seqLen > 0
    ensures Accepts(a, heads, seqLen, a.headDim, a.bytesPerElem, a.bytesPerElem) <==> heads % a.headsPerBlock == 0
  {
    GroupsFitIff(a, heads, 0, 0);
  }

  // ------------------------------------------------------------------ residency

  predicate InSinkOrWindow(a: Adapter, i: nat, seqLen: nat) {
    i < a.sink || i + a.recent >= seqLen
  }

  /** A block is in DRAM exactly when one of its tokens is a sink or in the recent window. */
  lemma DramIff(a: Adapter, t: nat, end: nat, seqLen: nat)
    requires t < end <= seqLen
    ensures IsDram(a, t, end, seqLen) <==> exists i: nat :: InSinkOrWindow(a, i, seqLen) && t <= i < end
    ensures 0.05 <= Hotness(a, t, end, seqLen) <= 1.0
  {
    if t < a.sink { assert InSinkOrWindow(a, t, seqLen); }
    if end > seqLen as int - a.recent { assert InSinkOrWindow(a, end - 1, seqLen); }
    Ratio(t as real, MaxReal(1.0, seqLen as real));
  }

  lemma Ratio(x: real, y: real)
    requires 0.0 <= x && 1.0 <= y
    ensures x / y >= 0.0
  {
  }

  /**
   A block of a layer: a stretch of tokens of a group of heads, row by row, padded behind the last token, in DRAM
   exactly when one of its tokens is a sink or in the recent window.
   */
  ghost predicate IsBlock<R>(a: Adapter, layer: int, x: seq<seq<R>>, seqLen: nat, pad: R, b: Block<R>) {
    var end := Min(b.tokenStart + a.tokensPerBlock, seqLen);
    && b.layer == layer && b.tokenStart < seqLen && b.headStart < |x|
    && b.headCount == |b.payload| == Min(a.headsPerBlock, |x| - b.headStart)
    && (b.dram <==> exists i: nat :: InSinkOrWindow(a, i, seqLen) && b.tokenStart <= i < end)
    && b.hotness == (if b.tokenStart < a.sink then 1.0 else if end + a.recent > seqLen then 0.9
                     else MaxReal(0.05, 0.5 * (1.0 - b.tokenStart as real / MaxReal(1.0, seqLen as real))))
    && forall j :: 0 <= j < |b.payload| ==> IsStretch(a, x[b.headStart + j], seqLen, b.tokenStart, pad, b.payload[j])
  }

  predicate IsStretch<R(==)>(a: Adapter, row: seq<R>, seqLen: nat, t: nat, pad: R, stretch: seq<R>) {
    && |stretch| == a.tokensPerBlock && |row| == seqLen
    && forall r :: 0 <= r < |stretch| ==> stretch[r] == if t + r < seqLen then row[t + r] else pad
  }

  lemma MadeIsBlock<R>(a: Adapter, layer: int, id: nat, x: seq<seq<R>>, seqLen: nat, g: nat, t: nat, pad: R)
    requires a.tokensPerBlock > 0 && Tensor(x, seqLen) && g < |x| && t < seqLen
    ensures IsBlock(a, layer, x, seqLen, pad, MakeBlock(a, layer, id, x, seqLen, g, t, pad))
  {
    DramIff(a, t, Min(t + a.tokensPerBlock, seqLen), seqLen);
    var b := MakeBlock(a, layer, id, x, seqLen, g, t, pad);
    forall j | 0 <= j < |b.payload| ensures IsStretch(a, x[g + j], seqLen, t, pad, b.payload[j]) {
      StretchIs(a, x[g + j], seqLen, t, pad);
    }
  }

  lemma StretchIs<R>(a: Adapter, row: seq<R>, seqLen: nat, t: nat, pad: R)
    requires a.tokensPerBlock > 0 && |row| == seqLen && t < seqLen
    ensures var end := Min(t + a.tokensPerBlock, seqLen);
      IsStretch(a, row, seqLen, t, pad, row[t..end] + Pads(a.tokensPerBlock - (end - t), pad))
  {
  }

  lemma {:induction false} GroupIsBlocks<R>(a: Adapter, layer: int, id: nat, x: seq<seq<R>>, seqLen: nat, g: nat,
                                            t: nat, pad: R, b: Block<R>)
    requires a.tokensPerBlock > 0 && Tensor(x, seqLen) && g < |x| && t <= seqLen
    requires b in GroupFrom(a, layer, id, x, seqLen, g, t, pad)
    ensures IsBlock(a, layer, x, seqLen, pad, b)
    decreases seqLen - t
  {
    if t < seqLen {
      GroupUnfolds(a, layer, id, x, seqLen, g, t, pad);
      if b == MakeBlock(a, layer, id, x, seqLen, g, t, pad) {
        MadeIsBlock(a, layer, id, x, seqLen, g, t, pad);
      } else {
        GroupIsBlocks(a, layer, id + 1, x, seqLen, g, Min(t + a.tokensPerBlock, seqLen), pad, b);
      }
    }
  }

  /** Every block of a layer is one. */
  lemma {:induction false} LayerIsBlocks<R>(a: Adapter, layer: int, id: nat, x: seq<seq<R>>, seqLen: nat, g: nat,
                                            pad: R, b: Block<R>)
    requires a.tokensPerBlock > 0 && a.headsPerBlock > 0 && Tensor(x, seqLen) && g <= |x|
    requires b in BlocksFrom(a, layer, id, x, seqLen, g, pad)
    ensures IsBlock(a, layer, x, seqLen, pad, b)
    decreases |x| - g
  {
    if g < |x| {
      var group := GroupFrom(a, layer, id, x, seqLen, g, 0, pad);
      if b in group {
        GroupIsBlocks(a, layer, id, x, seqLen, g, 0, pad, b);
      } else {
        LayerIsBlocks(a, layer, id + |group|, x, seqLen, Min(g + a.headsPerBlock, |x|), pad, b);
      }
    }
  }

  // ------------------------------------------------------------------ identity and number

  lemma {:induction false} GroupIds<R>(a: Adapter, layer: int, id: nat, x: seq<seq<R>>, seqLen: nat, h: nat, t: nat,
                                       pad: R)
    requires a.tokensPerBlock > 0 && Tensor(x, seqLen) && h <= |x| && t <= seqLen
    ensures var bs := GroupFrom(a, layer, id, x, seqLen, h, t, pad);
      && |bs| == NumBlocks(seqLen - t, a.tokensPerBlock)
      && forall i :: 0 <= i < |bs| ==> bs[i].id == id + i && bs[i].layer == layer && bs[i].headStart == h
    decreases seqLen - t
  {
    if t == seqLen {
      SmallQuotient(a.tokensPerBlock - 1, a.tokensPerBlock);
    } else {
      GroupIds(a, layer, id + 1, x, seqLen, h, Min(t + a.tokensPerBlock, seqLen), pad);
      NumBlocksStep(seqLen - t, a.tokensPerBlock);
    }
  }

  /** Block ids count up without gaps; there is one block for every head group and stretch of tokens. */
  lemma {:induction false} BlockIds<R>(a: Adapter, layer: int, id: nat, x: seq<seq<R>>, seqLen: nat, h: nat, pad: R)
    requires a.tokensPerBlock > 0 && a.headsPerBlock > 0 && Tensor(x, seqLen) && h <= |x|
    ensures var bs := BlocksFrom(a, layer, id, x, seqLen, h, pad);
      && |bs| == Times(NumBlocks(|x| - h, a.headsPerBlock), NumBlocks(seqLen, a.tokensPerBlock))
      && forall i :: 0 <= i < |bs| ==> bs[i].id == id + i && bs[i].layer == layer
    decreases |x| - h
  {
    if h == |x| {
      SmallQuotient(a.headsPerBlock - 1, a.headsPerBlock);
    } else {
      var group := GroupFrom(a, layer, id, x, seqLen, h, 0, pad);
      GroupIds(a, layer, id, x, seqLen, h, 0, pad);
      BlockIds(a, layer, id + |group|, x, seqLen, Min(h + a.headsPerBlock, |x|), pad);
      NumBlocksStep(|x| - h, a.headsPerBlock);
      MulStep(NumBlocks(|x| - Min(h + a.headsPerBlock, |x|), a.headsPerBlock), NumBlocks(seqLen, a.tokensPerBlock));
    }
  }

  // ------------------------------------------------------------------ round trip

  predicate Covers<R>(b: Block<R>, h: nat) {
    b.headStart <= h < b.headStart + b.headCount && |b.payload| == b.headCount
  }

  /** The rows that the blocks hold for head `h`, one block after the other. */
  function HeadRow<R>(bs: seq<Block<R>>, h: nat): seq<R> {
    if bs == [] then []
    else (if Covers(bs[0], h) then bs[0].payload[h - bs[0].headStart] else []) + HeadRow(bs[1..], h)
  }

  /** Without the padding. */
  function Restored<R>(bs: seq<Block<R>>, h: nat, seqLen: nat): seq<R> {
    var row := HeadRow(bs, h);
    if seqLen <= |row| then row[..seqLen] else row
  }

  lemma {:induction false} HeadRowConcat<R>(a: seq<Block<R>>, b: seq<Block<R>>, h: nat)
    ensures HeadRow(a + b, h) == HeadRow(a, h) + HeadRow(b, h)
  {
    if a == [] {
      assert a + b == b;
    } else {
      assert (a + b)[1..] == a[1..] + b;
      HeadRowConcat(a[1..], b, h);
    }
  }

  /** The row starts with the tokens of `full` from `t` on. */
  ghost predicate Begins<R>(row: seq<R>, full: seq<R>, t: nat) {
    t <= |full| <= t + |row| && forall i :: 0 <= i < |full| - t ==> row[i] == full[t + i]
  }

  lemma BeginsJoin<R>(full: seq<R>, t: nat, end: nat, pads: seq<R>, rest: seq<R>)
    requires t <= end <= |full| && (end < |full| ==> pads == [])
    requires Begins(rest, full, end)
    ensures Begins(full[t..end] + pads + rest, full, t)
  {
    var all := full[t..end] + pads + rest;
    forall i | 0 <= i < |full| - t ensures all[i] == full[t + i] {
      if i >= end - t { assert all[i] == rest[i - (end - t)]; }
    }
  }

  ghost predicate GroupHolds<R>(a: Adapter, layer: int, id: nat, x: seq<seq<R>>, seqLen: nat, g: nat, t: nat, pad: R,
                                h: nat)
    requires a.tokensPerBlock > 0 && Tensor(x, seqLen) && g <= h < |x| && t <= seqLen
  {
    Begins(HeadRow(GroupFrom(a, layer, id, x, seqLen, g, t, pad), h), x[h], t)
  }

  lemma MadeExtends<R>(a: Adapter, layer: int, id: nat, x: seq<seq<R>>, seqLen: nat, g: nat, t: nat, pad: R, h: nat,
                       rest: seq<Block<R>>)
    requires a.tokensPerBlock > 0 && Tensor(x, seqLen) && g <= h < |x| && t < seqLen && h < g + a.headsPerBlock
    requires Begins(HeadRow(rest, h), x[h], Min(t + a.tokensPerBlock, seqLen))
    ensures Begins(HeadRow([MakeBlock(a, layer, id, x, seqLen, g, t, pad)] + rest, h), x[h], t)
  {
    var end := Min(t + a.tokensPerBlock, seqLen);
    MadeBlockRow(a, layer, id, x, seqLen, g, t, pad, h);
    RowExtends(MakeBlock(a, layer, id, x, seqLen, g, t, pad), rest, x[h], t, end,
               Pads(a.tokensPerBlock - (end - t), pad), h);
  }

  lemma GroupUnfolds<R>(a: Adapter, layer: int, id: nat, x: seq<seq<R>>, seqLen: nat, g: nat, t: nat, pad: R)
    requires a.tokensPerBlock > 0 && Tensor(x, seqLen) && g <= |x| && t < seqLen
    ensures GroupFrom(a, layer, id, x, seqLen, g, t, pad)
         == [MakeBlock(a, layer, id, x, seqLen, g, t, pad)]
            + GroupFrom(a, layer, id + 1, x, seqLen, g, Min(t + a.tokensPerBlock, seqLen), pad)
  {
  }

  lemma GroupNext<R>(a: Adapter, layer: int, id: nat, x: seq<seq<R>>, seqLen: nat, g: nat, t: nat, pad: R, h: nat)
    requires a.tokensPerBlock > 0 && Tensor(x, seqLen) && g <= h < |x| && t < seqLen && h < g + a.headsPerBlock
    requires GroupHolds(a, layer, id + 1, x, seqLen, g, Min(t + a.tokensPerBlock, seqLen), pad, h)
    ensures GroupHolds(a, layer, id, x, seqLen, g, t, pad, h)
  {
    GroupUnfolds(a, layer, id, x, seqLen, g, t, pad);
    MadeExtends(a, layer, id, x, seqLen, g, t, pad, h,
                GroupFrom(a, layer, id + 1, x, seqLen, g, Min(t + a.tokensPerBlock, seqLen), pad));
  }

  lemma GroupEnds<R>(a: Adapter, layer: int, id: nat, x: seq<seq<R>>, seqLen: nat, g: nat, pad: R, h: nat)
    requires a.tokensPerBlock > 0 && Tensor(x, seqLen) && g <= h < |x|
    ensures GroupHolds(a, layer, id, x, seqLen, g, seqLen, pad, h)
  {
  }

  /** The group's blocks from `t` on hold the head's tokens from `t` on, then padding. */
  lemma {:induction false} GroupRow<R>(a: Adapter, layer: int, id: nat, x: seq<seq<R>>, seqLen: nat, g: nat, t: nat,
                                       pad: R, h: nat)
    requires a.tokensPerBlock > 0 && Tensor(x, seqLen) && g <= h < |x| && t <= seqLen && h < g + a.headsPerBlock
    ensures GroupHolds(a, layer, id, x, seqLen, g, t, pad, h)
    decreases seqLen - t
  {
    if t < seqLen {
      GroupRow(a, layer, id + 1, x, seqLen, g, Min(t + a.tokensPerBlock, seqLen), pad, h);
      GroupNext(a, layer, id, x, seqLen, g, t, pad, h);
    } else {
      GroupEnds(a, layer, id, x, seqLen, g, pad, h);
    }
  }

  /** They hold nothing for the heads of other groups. */
  lemma {:induction false} OtherRow<R>(a: Adapter, layer: int, id: nat, x: seq<seq<R>>, seqLen: nat, g: nat, t: nat,
                                       pad: R, h: nat)
    requires a.tokensPerBlock > 0 && Tensor(x, seqLen) && g <= |x| && h < |x| && t <= seqLen
    requires h < g || h >= g + a.headsPerBlock
    ensures HeadRow(GroupFrom(a, layer, id, x, seqLen, g, t, pad), h) == []
    decreases seqLen - t
  {
    if t < seqLen {
      var end := Min(t + a.tokensPerBlock, seqLen);
      OtherRow(a, layer, id + 1, x, seqLen, g, end, pad, h);
      MadeBlockRow(a, layer, id, x, seqLen, g, t, pad, h);
      FirstRow(MakeBlock(a, layer, id, x, seqLen, g, t, pad), GroupFrom(a, layer, id + 1, x, seqLen, g, end, pad), h);
    }
  }

  lemma RowExtends<R>(b: Block<R>, rest: seq<Block<R>>, row: seq<R>, t: nat, end: nat, pads: seq<R>, h: nat)
    requires t <= end <= |row| && (end < |row| ==> pads == [])
    requires Covers(b, h) && b.payload[h - b.headStart] == row[t..end] + pads
    requires Begins(HeadRow(rest, h), row, end)
    ensures Begins(HeadRow([b] + rest, h), row, t)
  {
    FirstRow(b, rest, h);
    BeginsJoin(row, t, end, pads, HeadRow(rest, h));
  }

  lemma FirstRow<R>(b: Block<R>, rest: seq<Block<R>>, h: nat)
    ensures HeadRow([b] + rest, h) == (if Covers(b, h) then b.payload[h - b.headStart] else []) + HeadRow(rest, h)
  {
    assert ([b] + rest)[1..] == rest;
  }

  lemma MadeBlockRow<R>(a: Adapter, layer: int, id: nat, x: seq<seq<R>>, seqLen: nat, g: nat, t: nat, pad: R, h: nat)
    requires Tensor(x, seqLen) && g <= |x| && t <= seqLen && h < |x|
    ensures var b, end := MakeBlock(a, layer, id, x, seqLen, g, t, pad), Min(t + a.tokensPerBlock, seqLen);
      && b.headStart == g && (Covers(b, h) <==> g <= h < g + a.headsPerBlock)
      && (Covers(b, h) ==> b.payload[h - g] == x[h][t..end] + Pads(a.tokensPerBlock - (end - t), pad))
  {
  }

  lemma BeginsLonger<R>(row: seq<R>, more: seq<R>, full: seq<R>)
    ensures Begins(row, full, 0) ==> Begins(row + more, full, 0)
    ensures [] + more == more
  {
  }

  /** Blocks from the head `g` on hold all of head `h`, or nothing if it lies before them. */
  ghost predicate HoldsRow<R>(bs: seq<Block<R>>, x: seq<seq<R>>, g: nat, h: nat)
    requires h < |x|
  {
    if g <= h then Begins(HeadRow(bs, h), x[h], 0) else HeadRow(bs, h) == []
  }

  lemma HoldsJoin<R>(group: seq<Block<R>>, rest: seq<Block<R>>, x: seq<seq<R>>, g: nat, next: nat, h: nat)
    requires h < |x| && g <= next
    requires if g <= h < next then Begins(HeadRow(group, h), x[h], 0) else HeadRow(group, h) == []
    requires HoldsRow(rest, x, next, h)
    ensures HoldsRow(group + rest, x, g, h)
  {
    HeadRowConcat(group, rest, h);
    BeginsLonger(HeadRow(group, h), HeadRow(rest, h), x[h]);
  }

  lemma {:induction false} BlocksRow<R>(a: Adapter, layer: int, id: nat, x: seq<seq<R>>, seqLen: nat, g: nat, pad: R,
                                        h: nat)
    requires a.tokensPerBlock > 0 && a.headsPerBlock > 0 && Tensor(x, seqLen) && g <= |x| && h < |x|
    ensures HoldsRow(BlocksFrom(a, layer, id, x, seqLen, g, pad), x, g, h)
    decreases |x| - g
  {
    if g < |x| {
      var group := GroupFrom(a, layer, id, x, seqLen, g, 0, pad);
      var next := Min(g + a.headsPerBlock, |x|);
      if g <= h < next {
        GroupRow(a, layer, id, x, seqLen, g, 0, pad, h);
      } else {
        OtherRow(a, layer, id, x, seqLen, g, 0, pad, h);
      }
      BlocksRow(a, layer, id + |group|, x, seqLen, next, pad, h);
      HoldsJoin(group, BlocksFrom(a, layer, id + |group|, x, seqLen, next, pad), x, g, next, h);
    }
  }

  /** Reassembling the blocks of a layer by head and token, without the padding, restores the tensor. */
  lemma RoundTrip<R>(a: Adapter, layer: int, id: nat, x: seq<seq<R>>, seqLen: nat, pad: R, h: nat)
    requires a.tokensPerBlock > 0 && a.headsPerBlock > 0 && Tensor(x, seqLen) && h < |x|
    ensures Restored(BlocksFrom(a, layer, id, x, seqLen, 0, pad), h, seqLen) == x[h]
  {
    BlocksRow(a, layer, id, x, seqLen, 0, pad, h);
    var row := HeadRow(BlocksFrom(a, layer, id, x, seqLen, 0, pad), h);
    assert row[..seqLen] == x[h];
  }
}

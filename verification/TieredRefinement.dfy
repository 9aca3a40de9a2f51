/**
 The tiered cache refines the flat baseline cache, over whole runs: blocks tile the sequence, a
 block is resident exactly when it is hot, cold blocks are full and are exactly what the flash
 store holds, and joining a layer's data in block order gives the baseline's keys and values.
 */
module TieredRefinement {
  import opened Options
  import opened Arithmetic
  import opened Accumulator
  import opened TieredCache

  // ------------------------------------------------------------------ the invariant

  /** The blocks tile [0, n): contiguous, all but the last one full. */
  predicate Tiles(p: Policy, bs: seq<Block>, n: nat) {
    && (bs == [] <==> n == 0)
    && (bs != [] ==> bs[0].start == 0 && bs[|bs|-1].start + bs[|bs|-1].count == n)
    && (forall i :: 0 <= i < |bs| ==> 1 <= bs[i].count <= p.perBlock && bs[i].start + bs[i].count <= n)
    && (forall i :: 0 <= i < |bs| - 1 ==> bs[i].count == p.perBlock && bs[i+1].start == bs[i].start + p.perBlock)
  }

  /** What the baseline holds at the block's place. */
  function Slice(b: Block, ks: seq<Matrix>, vs: seq<Matrix>): Payload
    requires b.start + b.count <= |ks| == |vs|
  {
    Payload(ks[b.start..b.start + b.count], vs[b.start..b.start + b.count])
  }

  /** The block is where the policy wants it, and its data is where the block is. */
  predicate BlockOk(p: Policy, b: Block, l: int, flash: Flash, ks: seq<Matrix>, vs: seq<Matrix>)
    requires b.start + b.count <= |ks| == |vs|
  {
    && b.layer == l
    && (b.pinned ==> b.start < p.sink)
    && (b.inRam <==> IsHot(p, b.start, b.count, |ks|))
    && (b.inRam ==> b.tier == HotRam && b.k == Some(Slice(b, ks, vs).k) && b.v == Some(Slice(b, ks, vs).v))
    && (!b.inRam ==> b.tier == ColdSsd && b.k == None && b.v == None
                     && (l, b.id) in flash && flash[(l, b.id)] == Slice(b, ks, vs))
  }

  predicate IdsAscend(bs: seq<Block>, bound: nat) {
    && (forall i, j :: 0 <= i < j < |bs| ==> bs[i].id < bs[j].id)
    && (forall i :: 0 <= i < |bs| ==> bs[i].id < bound)
  }

  /** The flash store holds exactly the layer's cold blocks. */
  ghost predicate FlashExact(bs: seq<Block>, l: int, flash: Flash) {
    forall id :: (l, id) in flash ==> exists i :: 0 <= i < |bs| && bs[i].id == id && !bs[i].inRam
  }

  ghost predicate BlocksOk(p: Policy, bs: seq<Block>, bound: nat, flash: Flash, l: int, ks: seq<Matrix>,
                           vs: seq<Matrix>) {
    && |ks| == |vs|
    && Tiles(p, bs, |ks|)
    && IdsAscend(bs, bound)
    && (forall i :: 0 <= i < |bs| ==> BlockOk(p, bs[i], l, flash, ks, vs))
    && FlashExact(bs, l, flash)
  }

  ghost predicate LayerOk(p: Policy, c: Cache, l: int, ks: seq<Matrix>, vs: seq<Matrix>) {
    BlocksOk(p, LayerBlocks(c, l), c.nextId, c.flash, l, ks, vs)
  }

  /**
   The policies under which the refinement holds: a partly filled last block is always in the
   window, or blocks are never partly filled.
   */
  predicate WindowOk(p: Policy) {
    p.perBlock > 0 && (p.window >= 1 || p.perBlock == 1)
  }

  /** Under such a policy every cold block is full, and the last block is resident unless blocks hold one token. */
  lemma ColdIsFull(p: Policy, bs: seq<Block>, bound: nat, flash: Flash, l: int, ks: seq<Matrix>, vs: seq<Matrix>)
    requires WindowOk(p) && BlocksOk(p, bs, bound, flash, l, ks, vs)
    ensures forall i :: 0 <= i < |bs| && !bs[i].inRam ==> bs[i].count == p.perBlock
    ensures bs != [] && p.window >= 1 ==> bs[|bs|-1].inRam
  {
    if bs != [] { assert BlockOk(p, bs[|bs|-1], l, flash, ks, vs); }
    forall i | 0 <= i < |bs| && !bs[i].inRam ensures bs[i].count == p.perBlock {
      assert BlockOk(p, bs[i], l, flash, ks, vs);
    }
  }

  // ------------------------------------------------------------------ one eviction pass

  /** Flushing writes the leaving blocks of the layer and nothing else. */
  lemma {:induction false} FlushOnly(p: Policy, bs: seq<Block>, n: nat, total: nat, decode: bool, flash: Flash, l: int,
                                     x: (int, nat))
    requires n <= |bs| && CanFlush(p, bs, total, decode)
    requires forall i :: 0 <= i < |bs| ==> bs[i].layer == l
    requires forall i :: 0 <= i < n && Leaves(p, bs[i], total, decode) ==> x != (l, bs[i].id)
    ensures var f := Flush(p, bs, n, total, decode, flash);
      (x in f <==> x in flash) && (x in f ==> f[x] == flash[x])
  {
    if n > 0 { FlushOnly(p, bs, n - 1, total, decode, flash, l, x); }
  }

  lemma {:induction false} FlushWrites(p: Policy, bs: seq<Block>, n: nat, total: nat, decode: bool, flash: Flash,
                                       l: int, i: nat, bound: nat)
    requires i < n <= |bs| && CanFlush(p, bs, total, decode)
    requires forall j :: 0 <= j < |bs| ==> bs[j].layer == l
    requires IdsAscend(bs, bound)
    requires Leaves(p, bs[i], total, decode)
    ensures var f := Flush(p, bs, n, total, decode, flash);
      (l, bs[i].id) in f && f[(l, bs[i].id)] == Payload(bs[i].k.value, bs[i].v.value)
  {
    if i < n - 1 { FlushWrites(p, bs, n - 1, total, decode, flash, l, i, bound); }
  }

  /** Before an eviction pass: resident blocks hold their data, blocks that are not resident are cold and stored. */
  predicate BlockReady(p: Policy, b: Block, l: int, flash: Flash, ks: seq<Matrix>, vs: seq<Matrix>, decode: bool)
    requires b.start + b.count <= |ks| == |vs|
  {
    && b.layer == l
    && (b.pinned ==> b.start < p.sink)
    && (b.inRam ==> b.tier == HotRam && b.k == Some(Slice(b, ks, vs).k) && b.v == Some(Slice(b, ks, vs).v))
    && (!b.inRam ==> decode && !IsHot(p, b.start, b.count, |ks|) && BlockOk(p, b, l, flash, ks, vs))
  }

  ghost predicate ReadyToSettle(p: Policy, bs: seq<Block>, bound: nat, flash: Flash, l: int, ks: seq<Matrix>,
                                vs: seq<Matrix>, decode: bool) {
    && |ks| == |vs|
    && Tiles(p, bs, |ks|)
    && IdsAscend(bs, bound)
    && (forall i :: 0 <= i < |bs| ==> BlockReady(p, bs[i], l, flash, ks, vs, decode))
    && FlashExact(bs, l, flash)
  }

  lemma SettleBlock(p: Policy, bs: seq<Block>, bound: nat, flash: Flash, l: int, ks: seq<Matrix>, vs: seq<Matrix>,
                    decode: bool, i: nat)
    requires ReadyToSettle(p, bs, bound, flash, l, ks, vs, decode)
    requires CanFlush(p, bs, |ks|, decode)
    requires i < |bs|
    ensures BlockOk(p, Settle(p, bs, |ks|, decode)[i], l, Flush(p, bs, |bs|, |ks|, decode, flash), ks, vs)
  {
    assert BlockReady(p, bs[i], l, flash, ks, vs, decode);
    forall j | 0 <= j < |bs| ensures bs[j].layer == l { assert BlockReady(p, bs[j], l, flash, ks, vs, decode); }
    var f := Flush(p, bs, |bs|, |ks|, decode, flash);
    if Leaves(p, bs[i], |ks|, decode) {
      FlushWrites(p, bs, |bs|, |ks|, decode, flash, l, i, bound);
      MovedOk(p, bs[i], l, f, ks, vs);
    } else {
      FlushSpares(p, bs, |ks|, decode, flash, l, i, bound);
      SparedOk(p, bs[i], l, flash, f, ks, vs, decode);
    }
  }

  lemma FlushSpares(p: Policy, bs: seq<Block>, total: nat, decode: bool, flash: Flash, l: int, i: nat, bound: nat)
    requires i < |bs| && CanFlush(p, bs, total, decode) && IdsAscend(bs, bound) && !Leaves(p, bs[i], total, decode)
    requires forall j :: 0 <= j < |bs| ==> bs[j].layer == l
    ensures var f, x := Flush(p, bs, |bs|, total, decode, flash), (l, bs[i].id);
      (x in f <==> x in flash) && (x in f ==> f[x] == flash[x])
  {
    forall j | 0 <= j < |bs| && Leaves(p, bs[j], total, decode) ensures bs[j].id != bs[i].id {
      assert j < i || i < j;
    }
    FlushOnly(p, bs, |bs|, total, decode, flash, l, (l, bs[i].id));
  }

  lemma MovedOk(p: Policy, b: Block, l: int, f: Flash, ks: seq<Matrix>, vs: seq<Matrix>)
    requires b.start + b.count <= |ks| == |vs| && BlockReady(p, b, l, f, ks, vs, true) && b.inRam
    requires !IsHot(p, b.start, b.count, |ks|)
    requires (l, b.id) in f && f[(l, b.id)] == Payload(b.k.value, b.v.value)
    ensures BlockOk(p, Evict(b), l, f, ks, vs)
  {
  }

  lemma SparedOk(p: Policy, b: Block, l: int, flash: Flash, f: Flash, ks: seq<Matrix>, vs: seq<Matrix>, decode: bool)
    requires b.start + b.count <= |ks| == |vs| && BlockReady(p, b, l, flash, ks, vs, decode)
    requires !Leaves(p, b, |ks|, decode)
    requires ((l, b.id) in f <==> (l, b.id) in flash) && ((l, b.id) in f ==> f[(l, b.id)] == flash[(l, b.id)])
    ensures BlockOk(p, b, l, f, ks, vs)
  {
  }

  lemma SettleFlashExact(p: Policy, bs: seq<Block>, bound: nat, flash: Flash, l: int, ks: seq<Matrix>, vs: seq<Matrix>,
                         decode: bool)
    requires ReadyToSettle(p, bs, bound, flash, l, ks, vs, decode)
    requires CanFlush(p, bs, |ks|, decode)
    ensures FlashExact(Settle(p, bs, |ks|, decode), l, Flush(p, bs, |bs|, |ks|, decode, flash))
  {
    var f, settled := Flush(p, bs, |bs|, |ks|, decode, flash), Settle(p, bs, |ks|, decode);
    forall id | (l, id) in f
      ensures exists i :: 0 <= i < |settled| && settled[i].id == id && !settled[i].inRam
    {
      if i :| 0 <= i < |bs| && Leaves(p, bs[i], |ks|, decode) && bs[i].id == id {
        assert settled[i].id == id && !settled[i].inRam;
      } else {
        FlushOnly(p, bs, |bs|, |ks|, decode, flash, l, (l, id));
        var i :| 0 <= i < |bs| && bs[i].id == id && !bs[i].inRam;
        assert settled[i].id == id && !settled[i].inRam;
      }
    }
  }

  lemma SettleShape(p: Policy, bs: seq<Block>, bound: nat, total: nat, decode: bool, n: nat)
    requires Tiles(p, bs, n) && IdsAscend(bs, bound)
    ensures Tiles(p, Settle(p, bs, total, decode), n) && IdsAscend(Settle(p, bs, total, decode), bound)
  {
    var settled := Settle(p, bs, total, decode);
    forall i | 0 <= i < |bs|
      ensures settled[i].id == bs[i].id && settled[i].start == bs[i].start && settled[i].count == bs[i].count
    {
    }
  }

  /** An eviction pass puts every block where the policy wants it. */
  lemma SettleOk(p: Policy, bs: seq<Block>, bound: nat, flash: Flash, l: int, ks: seq<Matrix>, vs: seq<Matrix>,
                 decode: bool)
    requires ReadyToSettle(p, bs, bound, flash, l, ks, vs, decode)
    requires CanFlush(p, bs, |ks|, decode)
    ensures BlocksOk(p, Settle(p, bs, |ks|, decode), bound, Flush(p, bs, |bs|, |ks|, decode, flash), l, ks, vs)
  {
    var settled := Settle(p, bs, |ks|, decode);
    forall i | 0 <= i < |settled|
      ensures BlockOk(p, settled[i], l, Flush(p, bs, |bs|, |ks|, decode, flash), ks, vs)
    {
      SettleBlock(p, bs, bound, flash, l, ks, vs, decode, i);
    }
    SettleFlashExact(p, bs, bound, flash, l, ks, vs, decode);
    SettleShape(p, bs, bound, |ks|, decode, |ks|);
  }

  // ------------------------------------------------------------------ prefill

  /** `Tiles`, for the part of the sequence from `start` on. */
  predicate TilesFrom(p: Policy, bs: seq<Block>, start: nat, n: nat) {
    && (bs == [] <==> start == n)
    && (bs != [] ==> bs[0].start == start && bs[|bs|-1].start + bs[|bs|-1].count == n)
    && (forall i :: 0 <= i < |bs| ==> 1 <= bs[i].count <= p.perBlock && bs[i].start + bs[i].count <= n)
    && (forall i :: 0 <= i < |bs| - 1 ==> bs[i].count == p.perBlock && bs[i+1].start == bs[i].start + p.perBlock)
  }

  lemma {:induction false} ChunksTile(p: Policy, l: int, id: nat, start: nat, ks: seq<Matrix>, vs: seq<Matrix>)
    requires start <= |ks| == |vs| && p.perBlock > 0
    ensures TilesFrom(p, Chunks(p, l, id, start, ks, vs), start, |ks|)
    decreases |ks| - start
  {
    if start < |ks| {
      ChunksTile(p, l, id + 1, Min(start + p.perBlock, |ks|), ks, vs);
    }
  }

  lemma {:induction false} ChunksIds(p: Policy, l: int, id: nat, start: nat, ks: seq<Matrix>, vs: seq<Matrix>)
    requires start <= |ks| == |vs| && p.perBlock > 0
    ensures var bs := Chunks(p, l, id, start, ks, vs);
      && (forall i :: 0 <= i < |bs| ==> bs[i].id == id + i)
      && IdsAscend(bs, id + |bs|)
    decreases |ks| - start
  {
    if start < |ks| {
      var rest := Chunks(p, l, id + 1, Min(start + p.perBlock, |ks|), ks, vs);
      ChunksIds(p, l, id + 1, Min(start + p.perBlock, |ks|), ks, vs);
      assert forall i :: 1 <= i <= |rest| ==> Chunks(p, l, id, start, ks, vs)[i] == rest[i-1];
    }
  }

  lemma ChunkReady(p: Policy, l: int, id: nat, start: nat, ks: seq<Matrix>, vs: seq<Matrix>, flash: Flash)
    requires start < |ks| == |vs| && p.perBlock > 0
    ensures var b := Chunk(p, l, id, start, ks, vs);
      b.start + b.count <= |ks| && BlockReady(p, b, l, flash, ks, vs, false)
  {
  }

  lemma {:induction false} ChunksReady(p: Policy, l: int, id: nat, start: nat, ks: seq<Matrix>, vs: seq<Matrix>,
                                       flash: Flash, i: nat)
    requires start <= |ks| == |vs| && p.perBlock > 0
    requires i < |Chunks(p, l, id, start, ks, vs)|
    ensures var b := Chunks(p, l, id, start, ks, vs)[i];
      b.start + b.count <= |ks| && BlockReady(p, b, l, flash, ks, vs, false)
    decreases |ks| - start
  {
    if i == 0 {
      ChunkReady(p, l, id, start, ks, vs, flash);
    } else {
      ChunksReady(p, l, id + 1, Min(start + p.perBlock, |ks|), ks, vs, flash, i - 1);
    }
  }

  lemma ChunksReadyToSettle(p: Policy, l: int, id: nat, ks: seq<Matrix>, vs: seq<Matrix>, flash: Flash)
    requires |ks| == |vs| && p.perBlock > 0
    requires forall x :: (l, x) !in flash
    ensures var bs := Chunks(p, l, id, 0, ks, vs);
      ReadyToSettle(p, bs, id + |bs|, flash, l, ks, vs, false)
  {
    ChunksTile(p, l, id, 0, ks, vs);
    ChunksIds(p, l, id, 0, ks, vs);
    AllChunksReady(p, l, id, ks, vs, flash);
    ReadyFrom(p, Chunks(p, l, id, 0, ks, vs), id + |Chunks(p, l, id, 0, ks, vs)|, flash, l, ks, vs);
  }

  lemma ReadyFrom(p: Policy, bs: seq<Block>, bound: nat, flash: Flash, l: int, ks: seq<Matrix>, vs: seq<Matrix>)
    requires |ks| == |vs| && TilesFrom(p, bs, 0, |ks|) && IdsAscend(bs, bound)
    requires AllReady(p, bs, flash, l, ks, vs) && forall x :: (l, x) !in flash
    ensures ReadyToSettle(p, bs, bound, flash, l, ks, vs, false)
  {
  }

  predicate AllReady(p: Policy, bs: seq<Block>, flash: Flash, l: int, ks: seq<Matrix>, vs: seq<Matrix>)
    requires |ks| == |vs|
  {
    forall i :: 0 <= i < |bs| ==> bs[i].start + bs[i].count <= |ks| && BlockReady(p, bs[i], l, flash, ks, vs, false)
  }

  lemma AllChunksReady(p: Policy, l: int, id: nat, ks: seq<Matrix>, vs: seq<Matrix>, flash: Flash)
    requires |ks| == |vs| && p.perBlock > 0
    ensures AllReady(p, Chunks(p, l, id, 0, ks, vs), flash, l, ks, vs)
  {
    var bs := Chunks(p, l, id, 0, ks, vs);
    forall i | 0 <= i < |bs|
      ensures bs[i].start + bs[i].count <= |ks| && BlockReady(p, bs[i], l, flash, ks, vs, false)
    {
      ChunksReady(p, l, id, 0, ks, vs, flash, i);
    }
  }

  lemma ChunksSettled(p: Policy, l: int, id: nat, ks: seq<Matrix>, vs: seq<Matrix>, flash: Flash)
    requires |ks| == |vs| && p.perBlock > 0
    requires forall x :: (l, x) !in flash
    ensures var bs := Chunks(p, l, id, 0, ks, vs);
      && CanFlush(p, bs, |ks|, false)
      && BlocksOk(p, Settle(p, bs, |ks|, false), id + |bs|, Flush(p, bs, |bs|, |ks|, false, flash), l, ks, vs)
  {
    var bs := Chunks(p, l, id, 0, ks, vs);
    ChunksReadyToSettle(p, l, id, ks, vs, flash);
    ChunksCanFlush(p, l, id, 0, ks, vs, |ks|, false);
    SettleOk(p, bs, id + |bs|, flash, l, ks, vs, false);
  }

  lemma PrefilledBlocks(p: Policy, c: Cache, l: int, ks: seq<Matrix>, vs: seq<Matrix>)
    requires p.perBlock > 0 && |ks| == |vs|
    requires LayerBlocks(c, l) == [] && Chunks(p, l, c.nextId, 0, ks, vs) != []
    ensures var bs, after := Chunks(p, l, c.nextId, 0, ks, vs), Prefill(p, c, l, ks, vs);
      && CanFlush(p, bs, |ks|, false)
      && LayerBlocks(after, l) == Settle(p, bs, |ks|, false) && after.nextId == c.nextId + |bs|
      && after.flash == Flush(p, bs, |bs|, |ks|, false, c.flash)
  {
    var settled := Settle(p, Chunks(p, l, c.nextId, 0, ks, vs), |ks|, false);
    ChunksCanFlush(p, l, c.nextId, 0, ks, vs, |ks|, false);
    assert LayerBlocks(c, l) + settled == settled;
  }

  /** Prefilling a layer that holds no tokens establishes the invariant for it. */
  lemma PrefillOk(p: Policy, c: Cache, l: int, ks: seq<Matrix>, vs: seq<Matrix>)
    requires p.perBlock > 0 && |ks| == |vs|
    requires LayerOk(p, c, l, [], [])
    ensures LayerOk(p, Prefill(p, c, l, ks, vs), l, ks, vs)
  {
    EmptyLayer(p, c, l);
    if |ks| == 0 {
      assert ks == [] && vs == [];
      assert Prefill(p, c, l, ks, vs) == c;
    } else {
      PrefillEmpty(p, c, l, ks, vs);
    }
  }

  lemma PrefillEmpty(p: Policy, c: Cache, l: int, ks: seq<Matrix>, vs: seq<Matrix>)
    requires p.perBlock > 0 && |ks| == |vs| > 0
    requires LayerBlocks(c, l) == [] && forall x :: (l, x) !in c.flash
    ensures LayerOk(p, Prefill(p, c, l, ks, vs), l, ks, vs)
  {
    var bs, after := Chunks(p, l, c.nextId, 0, ks, vs), Prefill(p, c, l, ks, vs);
    assert bs != [];
    PrefilledBlocks(p, c, l, ks, vs);
    ChunksSettled(p, l, c.nextId, ks, vs, c.flash);
    AreLayer(p, after, l, Settle(p, bs, |ks|, false), c.nextId + |bs|, Flush(p, bs, |bs|, |ks|, false, c.flash),
             ks, vs);
  }

  lemma AreLayer(p: Policy, c: Cache, l: int, bs: seq<Block>, bound: nat, flash: Flash, ks: seq<Matrix>,
                 vs: seq<Matrix>)
    requires BlocksOk(p, bs, bound, flash, l, ks, vs)
    requires LayerBlocks(c, l) == bs && c.nextId == bound && c.flash == flash
    ensures LayerOk(p, c, l, ks, vs)
  {
  }

  lemma EmptyLayer(p: Policy, c: Cache, l: int)
    requires LayerOk(p, c, l, [], [])
    ensures LayerBlocks(c, l) == [] && forall x :: (l, x) !in c.flash
  {
  }

  // ------------------------------------------------------------------ append

  lemma {:induction false} PrefixTokens(p: Policy, bs: seq<Block>, n: nat, i: nat)
    requires Tiles(p, bs, n) && i < |bs|
    ensures TotalTokens(bs[..i]) == bs[i].start
  {
    if i > 0 {
      PrefixTokens(p, bs, n, i - 1);
      assert bs[..i][..i-1] == bs[..i-1];
    }
  }

  /** The token counts of a layer sum to the length of the sequence. */
  lemma TilesTotal(p: Policy, bs: seq<Block>, n: nat)
    requires Tiles(p, bs, n)
    ensures TotalTokens(bs) == n
  {
    if bs != [] { PrefixTokens(p, bs, n, |bs| - 1); }
  }

  lemma SliceOfLonger(b: Block, ks: seq<Matrix>, vs: seq<Matrix>, k: Matrix, v: Matrix)
    requires b.start + b.count <= |ks| == |vs|
    ensures Slice(b, ks + [k], vs + [v]) == Slice(b, ks, vs)
  {
  }

  /** A block that the append did not touch is ready for the eviction pass at the new length. */
  lemma UntouchedReady(p: Policy, b: Block, l: int, flash: Flash, ks: seq<Matrix>, vs: seq<Matrix>, k: Matrix,
                       v: Matrix)
    requires b.start + b.count <= |ks| == |vs|
    requires BlockOk(p, b, l, flash, ks, vs)
    ensures BlockReady(p, b, l, flash, ks + [k], vs + [v], true)
  {
    SliceOfLonger(b, ks, vs, k, v);
  }

  lemma GrownTiles(p: Policy, c: Cache, l: int, ks: seq<Matrix>, vs: seq<Matrix>, k: Matrix, v: Matrix)
    requires p.perBlock > 0 && LayerOk(p, c, l, ks, vs)
    ensures Tiles(p, Grown(p, c, l, k, v), |ks| + 1)
    ensures IdsAscend(Grown(p, c, l, k, v), if HasRoom(p, LayerBlocks(c, l)) then c.nextId else c.nextId + 1)
  {
    LayerTiles(p, c, l, ks, vs);
    GrownTilesOf(p, c, l, |ks|, k, v);
    GrownAscends(p, c, l, k, v);
  }

  lemma LayerTiles(p: Policy, c: Cache, l: int, ks: seq<Matrix>, vs: seq<Matrix>)
    requires LayerOk(p, c, l, ks, vs)
    ensures Tiles(p, LayerBlocks(c, l), |ks|) && IdsAscend(LayerBlocks(c, l), c.nextId)
    ensures TotalTokens(LayerBlocks(c, l)) == |ks|
  {
    TilesTotal(p, LayerBlocks(c, l), |ks|);
  }

  lemma GrownTilesOf(p: Policy, c: Cache, l: int, n: nat, k: Matrix, v: Matrix)
    requires p.perBlock > 0 && Tiles(p, LayerBlocks(c, l), n) && TotalTokens(LayerBlocks(c, l)) == n
    ensures Tiles(p, Grown(p, c, l, k, v), n + 1)
  {
    var bs := LayerBlocks(c, l);
    if HasRoom(p, bs) {
      TilesExtend(p, bs, n, Extend(bs[|bs|-1], k, v));
    } else {
      TilesAdd(p, bs, n, Block(c.nextId, l, n, 1, false, true, HotRam, Some([k]), Some([v])));
    }
  }

  lemma GrownAscends(p: Policy, c: Cache, l: int, k: Matrix, v: Matrix)
    requires IdsAscend(LayerBlocks(c, l), c.nextId)
    ensures IdsAscend(Grown(p, c, l, k, v), if HasRoom(p, LayerBlocks(c, l)) then c.nextId else c.nextId + 1)
  {
  }

  lemma TilesExtend(p: Policy, bs: seq<Block>, n: nat, e: Block)
    requires Tiles(p, bs, n) && HasRoom(p, bs)
    requires e.start == bs[|bs|-1].start && e.count == bs[|bs|-1].count + 1
    ensures Tiles(p, bs[|bs|-1 := e], n + 1)
  {
  }

  lemma TilesAdd(p: Policy, bs: seq<Block>, n: nat, e: Block)
    requires Tiles(p, bs, n) && !HasRoom(p, bs) && p.perBlock > 0 && e.start == n && e.count == 1
    ensures Tiles(p, bs + [e], n + 1)
  {
  }

  lemma ExtendedReady(p: Policy, b: Block, l: int, flash: Flash, ks: seq<Matrix>, vs: seq<Matrix>, k: Matrix, v: Matrix)
    requires b.start + b.count == |ks| == |vs|
    requires BlockOk(p, b, l, flash, ks, vs) && b.inRam
    ensures BlockReady(p, Extend(b, k, v), l, flash, ks + [k], vs + [v], true)
  {
    var e := Extend(b, k, v);
    assert (ks + [k])[e.start..e.start + e.count] == ks[b.start..b.start + b.count] + [k];
    assert (vs + [v])[e.start..e.start + e.count] == vs[b.start..b.start + b.count] + [v];
  }

  lemma GrownReady(p: Policy, c: Cache, l: int, ks: seq<Matrix>, vs: seq<Matrix>, k: Matrix, v: Matrix)
    requires WindowOk(p) && LayerOk(p, c, l, ks, vs)
    ensures var bs := Grown(p, c, l, k, v);
      forall i :: 0 <= i < |bs| ==>
        bs[i].start + bs[i].count <= |ks| + 1 && BlockReady(p, bs[i], l, c.flash, ks + [k], vs + [v], true)
  {
    GrownTiles(p, c, l, ks, vs, k, v);
    var bs := Grown(p, c, l, k, v);
    forall i | 0 <= i < |bs| ensures BlockReady(p, bs[i], l, c.flash, ks + [k], vs + [v], true) {
      GrownReadyAt(p, c, l, ks, vs, k, v, i);
    }
  }

  lemma GrownReadyAt(p: Policy, c: Cache, l: int, ks: seq<Matrix>, vs: seq<Matrix>, k: Matrix, v: Matrix, i: nat)
    requires WindowOk(p) && LayerOk(p, c, l, ks, vs) && i < |Grown(p, c, l, k, v)|
    ensures var b := Grown(p, c, l, k, v)[i];
      b.start + b.count <= |ks| + 1 && BlockReady(p, b, l, c.flash, ks + [k], vs + [v], true)
  {
    var was := LayerBlocks(c, l);
    LayerTiles(p, c, l, ks, vs);
    if i == |was| {
      NewReady(p, l, c.nextId, c.flash, ks, vs, k, v);
    } else {
      assert BlockOk(p, was[i], l, c.flash, ks, vs);
      if HasRoom(p, was) && i == |was| - 1 {
        ColdIsFull(p, was, c.nextId, c.flash, l, ks, vs);
        ExtendedReady(p, was[i], l, c.flash, ks, vs, k, v);
      } else {
        UntouchedReady(p, was[i], l, c.flash, ks, vs, k, v);
      }
    }
  }

  lemma NewReady(p: Policy, l: int, id: nat, flash: Flash, ks: seq<Matrix>, vs: seq<Matrix>, k: Matrix, v: Matrix)
    requires |ks| == |vs|
    ensures var b := Block(id, l, |ks|, 1, false, true, HotRam, Some([k]), Some([v]));
      BlockReady(p, b, l, flash, ks + [k], vs + [v], true)
  {
    assert (ks + [k])[|ks|..|ks| + 1] == [k] && (vs + [v])[|ks|..|ks| + 1] == [v];
  }

  lemma GrownFlashExact(p: Policy, c: Cache, l: int, ks: seq<Matrix>, vs: seq<Matrix>, k: Matrix, v: Matrix)
    requires LayerOk(p, c, l, ks, vs)
    ensures FlashExact(Grown(p, c, l, k, v), l, c.flash)
  {
    var was, bs := LayerBlocks(c, l), Grown(p, c, l, k, v);
    forall id | (l, id) in c.flash
      ensures exists i :: 0 <= i < |bs| && bs[i].id == id && !bs[i].inRam
    {
      var i :| 0 <= i < |was| && was[i].id == id && !was[i].inRam;
      GrownKeeps(p, c, l, k, v, i);
    }
  }

  lemma GrownKeeps(p: Policy, c: Cache, l: int, k: Matrix, v: Matrix, i: nat)
    requires i < |LayerBlocks(c, l)|
    ensures var bs, was := Grown(p, c, l, k, v), LayerBlocks(c, l);
      i < |bs| && bs[i].id == was[i].id && bs[i].inRam == was[i].inRam
  {
  }

  function NextBound(p: Policy, c: Cache, l: int): nat {
    if HasRoom(p, LayerBlocks(c, l)) then c.nextId else c.nextId + 1
  }

  lemma GrownSettles(p: Policy, c: Cache, l: int, ks: seq<Matrix>, vs: seq<Matrix>, k: Matrix, v: Matrix)
    requires WindowOk(p) && Wellformed(c) && LayerOk(p, c, l, ks, vs)
    ensures var bs, n := Grown(p, c, l, k, v), |ks| + 1;
      && TotalTokens(bs) == n && CanFlush(p, bs, n, true)
      && BlocksOk(p, Settle(p, bs, n, true), NextBound(p, c, l), Flush(p, bs, |bs|, n, true, c.flash), l,
                  ks + [k], vs + [v])
  {
    var bs := Grown(p, c, l, k, v);
    GrownTiles(p, c, l, ks, vs, k, v);
    TilesTotal(p, bs, |ks| + 1);
    GrownReady(p, c, l, ks, vs, k, v);
    GrownFlashExact(p, c, l, ks, vs, k, v);
    GrownCanFlush(p, c, l, k, v, |ks| + 1);
    SettleOk(p, bs, NextBound(p, c, l), c.flash, l, ks + [k], vs + [v], true);
  }

  lemma AppendedBlocks(p: Policy, c: Cache, l: int, k: Matrix, v: Matrix, n: nat)
    requires Wellformed(c) && TotalTokens(Grown(p, c, l, k, v)) == n && CanFlush(p, Grown(p, c, l, k, v), n, true)
    ensures var bs, after := Grown(p, c, l, k, v), Append(p, c, l, k, v);
      && LayerBlocks(after, l) == Settle(p, bs, n, true) && after.nextId == NextBound(p, c, l)
      && after.flash == Flush(p, bs, |bs|, n, true, c.flash)
  {
  }

  /** Appending a token keeps the invariant, for the extended sequence. */
  lemma AppendOk(p: Policy, c: Cache, l: int, ks: seq<Matrix>, vs: seq<Matrix>, k: Matrix, v: Matrix)
    requires WindowOk(p) && Wellformed(c) && LayerOk(p, c, l, ks, vs)
    ensures LayerOk(p, Append(p, c, l, k, v), l, ks + [k], vs + [v])
  {
    var bs, n := Grown(p, c, l, k, v), |ks| + 1;
    GrownSettles(p, c, l, ks, vs, k, v);
    AppendedBlocks(p, c, l, k, v, n);
    AreLayer(p, Append(p, c, l, k, v), l, Settle(p, bs, n, true), NextBound(p, c, l),
             Flush(p, bs, |bs|, n, true, c.flash), ks + [k], vs + [v]);
  }

  // ------------------------------------------------------------------ joined data

  /** A block's data, from RAM if it is resident, else from the flash store. */
  function Held(b: Block, flash: Flash): Payload {
    if b.inRam then (if Loaded(b) then Payload(b.k.value, b.v.value) else Payload([], []))
    else if (b.layer, b.id) in flash then flash[(b.layer, b.id)] else Payload([], [])
  }

  /** The data of the blocks joined in order. */
  function Joined(bs: seq<Block>, flash: Flash): Payload {
    if bs == [] then Payload([], [])
    else
      var init, last := Joined(bs[..|bs|-1], flash), Held(bs[|bs|-1], flash);
      Payload(init.k + last.k, init.v + last.v)
  }

  lemma {:induction false} JoinedPrefix(p: Policy, bs: seq<Block>, bound: nat, flash: Flash, l: int, ks: seq<Matrix>,
                                        vs: seq<Matrix>, i: nat)
    requires BlocksOk(p, bs, bound, flash, l, ks, vs) && 0 < i <= |bs|
    ensures var end := bs[i-1].start + bs[i-1].count;
      Joined(bs[..i], flash) == Payload(ks[..end], vs[..end])
  {
    var b := bs[i-1];
    HeldIsSlice(p, b, l, flash, ks, vs);
    JoinedNext(bs, flash, i);
    SliceExtends(b, ks, vs);
    if i > 1 {
      JoinedPrefix(p, bs, bound, flash, l, ks, vs, i - 1);
      assert bs[i-2].start + bs[i-2].count == b.start;
    }
  }

  lemma HeldIsSlice(p: Policy, b: Block, l: int, flash: Flash, ks: seq<Matrix>, vs: seq<Matrix>)
    requires b.start + b.count <= |ks| == |vs| && BlockOk(p, b, l, flash, ks, vs)
    ensures Held(b, flash) == Slice(b, ks, vs)
  {
  }

  lemma JoinedNext(bs: seq<Block>, flash: Flash, i: nat)
    requires 0 < i <= |bs|
    ensures var init, last := Joined(bs[..i-1], flash), Held(bs[i-1], flash);
      Joined(bs[..i], flash) == Payload(init.k + last.k, init.v + last.v)
  {
    assert bs[..i][..i-1] == bs[..i-1];
  }

  lemma SliceExtends(b: Block, ks: seq<Matrix>, vs: seq<Matrix>)
    requires b.start + b.count <= |ks| == |vs|
    ensures ks[..b.start] + Slice(b, ks, vs).k == ks[..b.start + b.count]
    ensures vs[..b.start] + Slice(b, ks, vs).v == vs[..b.start + b.count]
  {
  }

  /** Joining a layer's data in block order gives exactly the baseline's keys and values. */
  lemma JoinedIsBaseline(p: Policy, bs: seq<Block>, bound: nat, flash: Flash, l: int, ks: seq<Matrix>, vs: seq<Matrix>)
    requires BlocksOk(p, bs, bound, flash, l, ks, vs)
    ensures Joined(bs, flash) == Payload(ks, vs)
  {
    if bs != [] {
      JoinedPrefix(p, bs, bound, flash, l, ks, vs, |bs|);
      assert bs[..|bs|] == bs && ks[..|ks|] == ks && vs[..|vs|] == vs;
    }
  }

  lemma {:induction false} JoinedSame(xs: seq<Block>, bs: seq<Block>, f: Flash, g: Flash)
    requires |xs| == |bs|
    requires forall i :: 0 <= i < |xs| ==> Held(xs[i], f) == Held(bs[i], g)
    ensures Joined(xs, f) == Joined(bs, g)
  {
    if xs != [] { JoinedSame(xs[..|xs|-1], bs[..|bs|-1], f, g); }
  }
}

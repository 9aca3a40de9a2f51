/** The mutable objects of the tiered cache: blocks, pool and manager, specified by module TieredCache. */
module TieredManager {
  import opened Options
  import opened Arithmetic
  import opened Sequences
  import opened Accumulator
  import opened TieredCache
  import opened TieredRuns
  import opened HybridAttention
  import opened TieredFetch
  import opened FlashController

  class KVBlock {
    const blockId: nat
    const layerId: int
    const tokenStart: nat
    const isPinned: bool
    var tokenCount: nat
    var isInRam: bool
    var tier: Tier
    var kData: Option<seq<Matrix>>
    var vData: Option<seq<Matrix>>

    constructor (blockId: nat, layerId: int, tokenStart: nat, tokenCount: nat, k: seq<Matrix>, v: seq<Matrix>,
                 isPinned: bool)
      ensures View() == Block(blockId, layerId, tokenStart, tokenCount, isPinned, true, HotRam, Some(k), Some(v))
    {
      this.blockId, this.layerId, this.tokenStart, this.isPinned := blockId, layerId, tokenStart, isPinned;
      this.tokenCount, isInRam, tier := tokenCount, true, HotRam;
      kData, vData := Some(k), Some(v);
    }

    function View(): Block
      reads this
    {
      Block(blockId, layerId, tokenStart, tokenCount, isPinned, isInRam, tier, kData, vData)
    }
  }

  function Views(bs: seq<KVBlock>): (vs: seq<Block>)
    reads bs
    ensures |vs| == |bs|
  {
    seq(|bs|, i requires 0 <= i < |bs| reads bs => bs[i].View())
  }

  /** The blocks that are not resident, in the order of the list. */
  function ColdOf(bs: seq<KVBlock>): seq<KVBlock>
    reads bs
  {
    if bs == [] then [] else ColdOf(bs[..|bs|-1]) + if bs[|bs|-1].isInRam then [] else [bs[|bs|-1]]
  }

  lemma ViewsConcat(a: seq<KVBlock>, b: seq<KVBlock>)
    ensures Views(a + b) == Views(a) + Views(b)
  {
  }

  lemma OneMoreView(a: seq<KVBlock>, b: KVBlock)
    ensures Views(a + [b]) == Views(a) + [b.View()]
  {
  }

  /** The positions of the resident blocks, in block order. */
  function Positions(bs: seq<Block>): seq<nat> {
    if bs == [] then []
    else
      var b := bs[|bs|-1];
      Positions(bs[..|bs|-1]) + if b.inRam && Loaded(b) then Range(b.start, b.start + b.count) else []
  }

  lemma OneMoreBlock(bs: seq<Block>, b: Block)
    ensures JoinPayloads(Residents(bs + [b])) ==
      var joined := JoinPayloads(Residents(bs));
      if b.inRam && Loaded(b) then Payload(joined.k + b.k.value, joined.v + b.v.value) else joined
    ensures Positions(bs + [b])
         == Positions(bs) + if b.inRam && Loaded(b) then Range(b.start, b.start + b.count) else []
  {
    assert (bs + [b])[..|bs|] == bs;
    var xs := Residents(bs);
    if b.inRam && Loaded(b) {
      assert (xs + [Payload(b.k.value, b.v.value)])[..|xs|] == xs;
    } else {
      assert xs + [] == xs;
    }
  }

  function Bytes(tokens: nat, row: nat): nat { tokens * row }

  /** The bytes of the resident data, at `row` bytes a token for keys and as many for values. */
  function RamBytes(bs: seq<Block>, row: nat): nat {
    if bs == [] then 0
    else
      var b := bs[|bs|-1];
      RamBytes(bs[..|bs|-1], row) + if b.inRam && Loaded(b) then Bytes(|b.k.value| + |b.v.value|, row) else 0
  }

  function OffloadedBytes(bs: seq<Block>, row: nat): nat {
    if bs == [] then 0
    else
      var b := bs[|bs|-1];
      OffloadedBytes(bs[..|bs|-1], row) + if !b.inRam then Bytes(2 * b.count, row) else 0
  }

  /** Ids are handed out in order, every block is known by its id, and layers list theirs in that order. */
  ghost predicate PoolOk(nextId: nat, blocks: map<nat, KVBlock>, layerBlocks: map<int, seq<KVBlock>>) {
    && (forall id: nat :: id in blocks <==> id < nextId)
    && (forall id :: id in blocks ==> blocks[id].blockId == id)
    && (forall l :: l in layerBlocks ==> layerBlocks[l] != [])
    && (forall l, i :: l in layerBlocks && 0 <= i < |layerBlocks[l]| ==>
         var b := layerBlocks[l][i]; b.layerId == l && b.blockId in blocks && blocks[b.blockId] == b)
    && (forall l, i, j :: l in layerBlocks && 0 <= i < j < |layerBlocks[l]| ==>
         layerBlocks[l][i].blockId < layerBlocks[l][j].blockId)
  }

  lemma PoolGrows(nextId: nat, blocks: map<nat, KVBlock>, layerBlocks: map<int, seq<KVBlock>>, b: KVBlock)
    requires PoolOk(nextId, blocks, layerBlocks) && b.blockId == nextId
    ensures var was := if b.layerId in layerBlocks then layerBlocks[b.layerId] else [];
      PoolOk(nextId + 1, blocks[nextId := b], layerBlocks[b.layerId := was + [b]])
  {
  }

  class KVBlockPool {
    var nextId: nat
    var blocks: map<nat, KVBlock>
    var layerBlocks: map<int, seq<KVBlock>>

    ghost predicate Valid()
      reads this
    {
      PoolOk(nextId, blocks, layerBlocks)
    }

    constructor ()
      ensures Valid() && nextId == 0 && blocks == map[] && layerBlocks == map[]
    {
      nextId, blocks, layerBlocks := 0, map[], map[];
    }

    /** Blocks stay, and only newly allocated ones are added. */
    twostate predicate Grew()
      reads this
    {
      && (forall id :: id in old(blocks) ==> id in blocks && blocks[id] == old(blocks)[id])
      && (forall id :: id in blocks && id !in old(blocks) ==> fresh(blocks[id]))
    }

    /** `get_layer_blocks` */
    function GetLayerBlocks(l: int): seq<KVBlock>
      reads this
    {
      if l in layerBlocks then layerBlocks[l] else []
    }

    /** `all_blocks`: in the order of allocation, which is the order of ids. */
    function AllBlocks(): (bs: seq<KVBlock>)
      requires Valid()
      reads this
      ensures |bs| == nextId
    {
      seq(nextId, id requires 0 <= id < nextId reads this requires Valid() => blocks[id])
    }

    /** `allocate_block`: registers a fresh resident block as the last one of its layer. */
    method AllocateBlock(layerId: int, tokenStart: nat, tokenCount: nat, k: seq<Matrix>, v: seq<Matrix>, isPinned: bool)
      returns (b: KVBlock)
      requires Valid()
      modifies this
      ensures Valid() && fresh(b) && Grew()
      ensures b.View() == Block(old(nextId), layerId, tokenStart, tokenCount, isPinned, true, HotRam, Some(k), Some(v))
      ensures nextId == old(nextId) + 1
      ensures blocks == old(blocks)[b.blockId := b]
      ensures layerBlocks == old(layerBlocks)[layerId := old(GetLayerBlocks(layerId)) + [b]]
    {
      b := new KVBlock(nextId, layerId, tokenStart, tokenCount, k, v, isPinned);
      PoolGrows(nextId, blocks, layerBlocks, b);
      nextId := nextId + 1;
      blocks := blocks[b.blockId := b];
      if layerId !in layerBlocks {
        layerBlocks := layerBlocks[layerId := []];
      }
      layerBlocks := layerBlocks[layerId := layerBlocks[layerId] + [b]];
      assert layerBlocks == old(layerBlocks)[layerId := old(GetLayerBlocks(layerId)) + [b]];
    }
  }

  class TieredKVManager {
    const policy: Policy
    const rowBytes: nat       // bytes of one token's keys in one layer: heads * head_dim * element size
    const pool: KVBlockPool
    const storage: MockSSDController

    /** The value of the whole cache. */
    ghost function View(): Cache
      reads pool, pool.blocks.Values, storage
      requires pool.Valid()
    {
      Cache(pool.nextId, map l | l in pool.layerBlocks :: LayerView(l), storage.flashStore)
    }

    ghost function LayerView(l: int): seq<Block>
      reads pool, pool.blocks.Values
      requires pool.Valid()
    {
      var bs := pool.GetLayerBlocks(l);
      assert forall i :: 0 <= i < |bs| ==> bs[i] == pool.blocks[bs[i].blockId];
      Views(bs)
    }

    ghost predicate Valid()
      reads pool, pool.blocks.Values, storage
    {
      policy.perBlock > 0 && pool.Valid() && Wellformed(View())
    }

    constructor (policy: Policy, rowBytes: nat, storage: MockSSDController)
      requires policy.perBlock > 0
      ensures this.policy == policy && this.rowBytes == rowBytes && this.storage == storage && fresh(pool)
      ensures Valid() && View() == Cache(0, map[], storage.flashStore)
    {
      this.policy, this.rowBytes, this.storage := policy, rowBytes, storage;
      pool := new KVBlockPool();
    }

    /** The eviction pass over the given blocks of layer `l`, as both prefill and append run it. */
    method EvictCold(l: int, layerBlocks: seq<KVBlock>, total: nat, decode: bool)
      requires forall i, j :: 0 <= i < j < |layerBlocks| ==> layerBlocks[i] != layerBlocks[j]
      requires forall i :: 0 <= i < |layerBlocks| ==> layerBlocks[i].layerId == l
      requires CanFlush(policy, Views(layerBlocks), total, decode)
      modifies layerBlocks, storage
      ensures Views(layerBlocks) == Settle(policy, old(Views(layerBlocks)), total, decode)
      ensures CanFlush(policy, old(Views(layerBlocks)), total, decode)
      ensures storage.flashStore
           == Flush(policy, old(Views(layerBlocks)), |layerBlocks|, total, decode, old(storage.flashStore))
    {
      ghost var was := Views(layerBlocks);
      ghost var settled := Settle(policy, was, total, decode);
      for i := 0 to |layerBlocks|
        invariant forall j :: 0 <= j < i ==> layerBlocks[j].View() == settled[j]
        invariant forall j :: i <= j < |layerBlocks| ==> layerBlocks[j].View() == was[j]
        invariant storage.flashStore == Flush(policy, was, i, total, decode, old(storage.flashStore))
      {
        var block := layerBlocks[i];
        assert block.View() == was[i];
        if (!decode || (block.isInRam && !block.isPinned))
            && !IsHot(policy, block.tokenStart, block.tokenCount, total) {
          MoveToStorage(block, l);
        }
      }
    }

    /** A block's data goes to storage. */
    method MoveToStorage(block: KVBlock, l: int)
      requires Loaded(block.View())
      modifies block, storage
      ensures block.View() == Evict(old(block.View()))
      ensures storage.flashStore
           == old(storage.flashStore)[(l, block.blockId) := Payload(old(block.kData).value, old(block.vData).value)]
    {
      storage.StoreKv(block.blockId, l, block.kData.value, block.vData.value);
      block.isInRam := false;
      block.tier := ColdSsd;
      block.kData := None;
      block.vData := None;
    }

    /** The layers of the pool once `added` blocks have been appended to layer `l`. */
    ghost function WithBlocks(layers: map<int, seq<KVBlock>>, l: int, added: seq<KVBlock>): map<int, seq<KVBlock>> {
      if added == [] then layers else layers[l := (if l in layers then layers[l] else []) + added]
    }

    lemma WithOneMore(layers: map<int, seq<KVBlock>>, l: int, added: seq<KVBlock>, b: KVBlock)
      ensures var was := WithBlocks(layers, l, added);
        was[l := (if l in was then was[l] else []) + [b]] == WithBlocks(layers, l, added + [b])
    {
      var before := if l in layers then layers[l] else [];
      assert before + added + [b] == before + (added + [b]);
      assert added == [] ==> before + added == before;
    }

    /** One turn of that loop: the block of the tokens from `tStart` on. */
    method AllocateChunk(l: int, tStart: nat, kSeq: seq<Matrix>, vSeq: seq<Matrix>) returns (block: KVBlock)
      requires pool.Valid() && tStart <= |kSeq| == |vSeq|
      modifies pool
      ensures pool.Valid() && pool.nextId == old(pool.nextId) + 1 && pool.Grew()
      ensures fresh(block) && block.View() == Chunk(policy, l, old(pool.nextId), tStart, kSeq, vSeq)
      ensures pool.layerBlocks == old(pool.layerBlocks)[l := old(pool.GetLayerBlocks(l)) + [block]]
    {
      var tEnd := Min(tStart + policy.perBlock, |kSeq|);
      var isSink := tStart < policy.sink;
      block := pool.AllocateBlock(l, tStart, tEnd - tStart, kSeq[tStart..tEnd], vSeq[tStart..tEnd], isSink);
    }

    /** The first loop of `prefill_sequence`: slices the sequence into resident blocks. */
    method AllocateChunks(l: int, kSeq: seq<Matrix>, vSeq: seq<Matrix>) returns (layerBlocks: seq<KVBlock>)
      requires policy.perBlock > 0 && pool.Valid() && |kSeq| == |vSeq|
      modifies pool
      ensures pool.Valid() && pool.nextId == old(pool.nextId) + |layerBlocks| && pool.Grew()
      ensures forall i :: 0 <= i < |layerBlocks| ==> fresh(layerBlocks[i]) && layerBlocks[i].layerId == l
      ensures forall i :: 0 <= i < |layerBlocks| ==> layerBlocks[i].blockId == old(pool.nextId) + i
      ensures Views(layerBlocks) == Chunks(policy, l, old(pool.nextId), 0, kSeq, vSeq)
      ensures pool.layerBlocks == WithBlocks(old(pool.layerBlocks), l, layerBlocks)
    {
      ghost var id0, chunks := pool.nextId, Chunks(policy, l, pool.nextId, 0, kSeq, vSeq);
      var numBlocks := NumBlocks(|kSeq|, policy.perBlock);
      ChunkCount(policy, l, id0, kSeq, vSeq);
      layerBlocks := [];
      for bIdx := 0 to numBlocks
        invariant |layerBlocks| == bIdx
        invariant pool.Valid() && pool.nextId == id0 + bIdx && pool.Grew()
        invariant forall i :: 0 <= i < bIdx ==> fresh(layerBlocks[i]) && layerBlocks[i].View() == chunks[i]
        invariant forall i :: 0 <= i < bIdx ==> layerBlocks[i].blockId == id0 + i && layerBlocks[i].layerId == l
        invariant pool.layerBlocks == WithBlocks(old(pool.layerBlocks), l, layerBlocks)
      {
        ChunkAt(policy, l, id0, kSeq, vSeq, bIdx);
        var block := AllocateChunk(l, bIdx * policy.perBlock, kSeq, vSeq);
        WithOneMore(old(pool.layerBlocks), l, layerBlocks, block);
        layerBlocks := layerBlocks + [block];
      }
      assert Views(layerBlocks) == chunks;
    }

    /** Both loops of `prefill_sequence`, over the new blocks. */
    method PlaceChunks(l: int, kSeq: seq<Matrix>, vSeq: seq<Matrix>) returns (layerBlocks: seq<KVBlock>)
      requires policy.perBlock > 0 && pool.Valid() && |kSeq| == |vSeq|
      modifies pool, storage
      ensures pool.Valid() && pool.nextId == old(pool.nextId) + |layerBlocks| && pool.Grew()
      ensures pool.layerBlocks == WithBlocks(old(pool.layerBlocks), l, layerBlocks)
      ensures var added := Chunks(policy, l, old(pool.nextId), 0, kSeq, vSeq);
        && CanFlush(policy, added, |kSeq|, false) && Views(layerBlocks) == Settle(policy, added, |kSeq|, false)
        && storage.flashStore == Flush(policy, added, |added|, |kSeq|, false, old(storage.flashStore))
    {
      ChunksCanFlush(policy, l, pool.nextId, 0, kSeq, vSeq, |kSeq|, false);
      layerBlocks := AllocateChunks(l, kSeq, vSeq);
      EvictCold(l, layerBlocks, |kSeq|, false);
    }

    /** `prefill_sequence`: slices the sequence into blocks, then moves the cold ones to storage. */
    method PrefillSequence(l: int, kSeq: seq<Matrix>, vSeq: seq<Matrix>)
      requires Valid() && |kSeq| == |vSeq|
      modifies pool, storage
      ensures Valid() && View() == Prefill(policy, old(View()), l, kSeq, vSeq) && pool.Grew()
    {
      ghost var c0 := View();
      var layerBlocks := PlaceChunks(l, kSeq, vSeq);
      LayersWithBlocks(old(pool.layerBlocks), c0, l, layerBlocks);
      IsPrefill(policy, c0, l, kSeq, vSeq, View());
      PrefillWellformed(policy, c0, l, kSeq, vSeq);
    }

    /** The layers of a pool whose other blocks are as they were. */
    lemma LayersWithBlocks(was: map<int, seq<KVBlock>>, c0: Cache, l: int, added: seq<KVBlock>)
      requires pool.Valid() && pool.layerBlocks == WithBlocks(was, l, added)
      requires was.Keys == c0.layers.Keys && forall m | m in was :: Views(was[m]) == c0.layers[m]
      ensures forall m | m in pool.layerBlocks ::
        LayerView(m) == LayerBlocks(c0, m) + if m == l then Views(added) else []
    {
      ViewsConcat(if l in was then was[l] else [], added);
      forall m | m in pool.layerBlocks
        ensures LayerView(m) == LayerBlocks(c0, m) + if m == l then Views(added) else []
      {
        assert LayerBlocks(c0, m) + [] == LayerBlocks(c0, m);
        if m == l && added == [] { assert Views(added) == []; }
      }
    }

    /** The second part of `append_token`: counts the layer's tokens and moves its cold blocks to storage. */
    method EvictLayer(l: int)
      requires pool.Valid() && CanFlush(policy, LayerView(l), TotalTokens(LayerView(l)), true)
      modifies pool.GetLayerBlocks(l), storage
      ensures pool.Valid()
      ensures LayerView(l) == Settle(policy, old(LayerView(l)), TotalTokens(old(LayerView(l))), true)
      ensures forall m | m != l :: LayerView(m) == old(LayerView(m))
      ensures CanFlush(policy, old(LayerView(l)), TotalTokens(old(LayerView(l))), true)
      ensures storage.flashStore
           == Flush(policy, old(LayerView(l)), |old(LayerView(l))|, TotalTokens(old(LayerView(l))), true,
                    old(storage.flashStore))
    {
      var layerBlocks := pool.GetLayerBlocks(l);
      assert LayerView(l) == Views(layerBlocks);
      var total := SumTokens(layerBlocks);
      EvictCold(l, layerBlocks, total, true);
      forall m | m != l
        ensures LayerView(m) == old(LayerView(m))
      {
        assert forall i :: 0 <= i < |pool.GetLayerBlocks(m)| ==> pool.GetLayerBlocks(m)[i] !in layerBlocks;
      }
    }

    /** `append_token`: into the last block while it has room, else into a new one; then an eviction pass. */
    method AppendToken(l: int, kToken: Matrix, vToken: Matrix)
      requires Valid()
      modifies pool, pool.blocks.Values, storage
      ensures Valid() && View() == Append(policy, old(View()), l, kToken, vToken) && pool.Grew()
    {
      ghost var c0 := View();
      GrowLayer(l, kToken, vToken);
      ghost var grown := Grown(policy, c0, l, kToken, vToken);
      assert LayerView(l) == grown;
      GrownCanFlush(policy, c0, l, kToken, vToken, TotalTokens(grown));
      EvictLayer(l);
      LayersUpdated(c0.layers, l, Settle(policy, grown, TotalTokens(grown), true));
      IsAppend(policy, c0, l, kToken, vToken, View());
    }

    lemma IsAppend(p: Policy, c: Cache, l: int, k: Matrix, v: Matrix, d: Cache)
      requires Wellformed(c)
      requires d.nextId == if HasRoom(p, LayerBlocks(c, l)) then c.nextId else c.nextId + 1
      requires var bs := Grown(p, c, l, k, v);
        && CanFlush(p, bs, TotalTokens(bs), true)
        && d.layers == c.layers[l := Settle(p, bs, TotalTokens(bs), true)]
        && d.flash == Flush(p, bs, |bs|, TotalTokens(bs), true, c.flash)
      ensures d == Append(p, c, l, k, v) && Wellformed(d)
    {
      AppendWellformed(p, c, l, k, v);
    }

    /** The view of the layers, once every layer but `l` is known to be what it was. */
    lemma LayersUpdated(was: map<int, seq<Block>>, l: int, bs: seq<Block>)
      requires pool.Valid()
      requires pool.layerBlocks.Keys == was.Keys + {l}
      requires LayerView(l) == bs
      requires forall m | m in was && m != l :: LayerView(m) == was[m]
      ensures View().layers == was[l := bs]
    {
    }

    /** `get_hot_kv`: the resident data joined in block order, and the positions it stands for. */
    method GetHotKv(l: int) returns (hotK: seq<Matrix>, hotV: seq<Matrix>, hotIndices: seq<nat>)
      requires Valid()
      ensures Payload(hotK, hotV) == JoinPayloads(Residents(LayerView(l)))
      ensures hotIndices == Positions(LayerView(l))
    {
      var layerBlocks := pool.GetLayerBlocks(l);
      ghost var view := LayerView(l);
      assert view == Views(layerBlocks);
      hotK, hotV, hotIndices := [], [], [];
      for i := 0 to |layerBlocks|
        invariant Payload(hotK, hotV) == JoinPayloads(Residents(view[..i]))
        invariant hotIndices == Positions(view[..i])
      {
        var b := layerBlocks[i];
        assert view[..i+1] == view[..i] + [b.View()];
        OneMoreBlock(view[..i], b.View());
        if b.isInRam && b.kData.Some? && b.vData.Some? {
          hotK := hotK + b.kData.value;
          hotV := hotV + b.vData.value;
          hotIndices := hotIndices + Range(b.tokenStart, b.tokenStart + b.tokenCount);
        }
      }
      assert view[..|layerBlocks|] == view;
    }

    /** `get_cold_blocks`: exactly the blocks of the layer that are not resident, in block order. */
    method GetColdBlocks(l: int) returns (cold: seq<KVBlock>)
      requires Valid()
      ensures cold == ColdOf(pool.GetLayerBlocks(l))
      ensures forall b :: b in cold <==> b in pool.GetLayerBlocks(l) && !b.isInRam
      ensures cold != [] <==> AnyCold(LayerView(l))
    {
      var layerBlocks := pool.GetLayerBlocks(l);
      assert LayerView(l) == Views(layerBlocks);
      cold := [];
      for i := 0 to |layerBlocks|
        invariant cold == ColdOf(layerBlocks[..i])
        invariant forall b :: b in cold <==> b in layerBlocks[..i] && !b.isInRam
      {
        assert layerBlocks[..i+1][..i] == layerBlocks[..i];
        if !layerBlocks[i].isInRam { cold := cold + [layerBlocks[i]]; }
      }
      assert layerBlocks[..|layerBlocks|] == layerBlocks;
      if cold != [] {
        assert cold[0] in layerBlocks;
        var i :| 0 <= i < |layerBlocks| && layerBlocks[i] == cold[0];
        assert !LayerView(l)[i].inRam;
      }
      if AnyCold(LayerView(l)) {
        var i :| 0 <= i < |layerBlocks| && !LayerView(l)[i].inRam;
        assert layerBlocks[i] in cold;
      }
    }

    lemma FetchedView(c0: Cache, was: Block, blockId: nat, layerId: int)
      requires pool.Valid() && blockId in pool.blocks && c0.flash == storage.flashStore && c0.nextId == pool.nextId
      requires c0.layers.Keys == pool.layerBlocks.Keys
      requires Fetchable(was, layerId, c0.flash) && pool.blocks[blockId].View() == Fetched(was, layerId, c0.flash)
      requires forall m | m in c0.layers :: |c0.layers[m]| == |pool.layerBlocks[m]|
      requires forall m, i | m in c0.layers && 0 <= i < |c0.layers[m]| :: var b := pool.layerBlocks[m][i];
        c0.layers[m][i] == if b == pool.blocks[blockId] then was else b.View()
      ensures CacheFetchable(c0, blockId, layerId) && View() == Fetch(c0, blockId, layerId)
    {
      forall m, i | m in c0.layers && 0 <= i < |c0.layers[m]|
        ensures c0.layers[m][i].id == blockId ==> c0.layers[m][i] == was
        ensures LayerView(m)[i] == if c0.layers[m][i].id == blockId then Fetched(was, layerId, c0.flash)
            else c0.layers[m][i]
      {
        assert pool.blocks[pool.layerBlocks[m][i].blockId] == pool.layerBlocks[m][i];
      }
      assert CacheFetchable(c0, blockId, layerId);
      forall m | m in c0.layers
        ensures LayerView(m) == FetchLayer(c0.layers[m], blockId, layerId, c0.flash)
      {
      }
    }

    /** The block is resident again, with what was loaded. */
    method Restore(block: KVBlock, loaded: Payload, ghost layerId: int)
      requires !block.isInRam && (layerId, block.blockId) in storage.flashStore
      requires loaded == storage.flashStore[(layerId, block.blockId)]
      modifies block
      ensures block.View() == Fetched(old(block.View()), layerId, storage.flashStore)
    {
      block.kData := Some(loaded.k);
      block.vData := Some(loaded.v);
      block.isInRam := true;
      block.tier := HotRam;
    }

    /**
     `fetch_cold_block`: fails when there is no such block, and when the block is cold but nothing is
     stored under the given layer and block ids.
     */
    method FetchColdBlock(blockId: nat, layerId: int) returns (r: Option<KVBlock>)
      requires Valid()
      modifies pool.blocks.Values
      ensures r.Some? <==>
          blockId in pool.blocks && Fetchable(old(pool.blocks[blockId].View()), layerId, storage.flashStore)
      ensures r.Some? ==> Valid() && CacheFetchable(old(View()), blockId, layerId)
      ensures r.Some? ==> View() == Fetch(old(View()), blockId, layerId) && r.value == pool.blocks[blockId]
      ensures r.None? ==> Valid() && View() == old(View())
    {
      if blockId !in pool.blocks { return None; }
      var block := pool.blocks[blockId];
      ghost var c0, was := View(), block.View();
      if !block.isInRam {
        var loaded := storage.LoadKv(blockId, layerId);
        if loaded == None { return None; }
        Restore(block, loaded.value, layerId);
      }
      assert forall m, i | m in c0.layers && 0 <= i < |c0.layers[m]| :: var b := pool.layerBlocks[m][i];
        c0.layers[m][i] == if b == block then was else b.View();
      FetchedView(c0, was, blockId, layerId);
      FetchWellformed(c0, blockId, layerId);
      r := Some(block);
    }

    /** `get_host_ram_usage_bytes`: over all blocks of the pool, in id order. */
    method GetHostRamUsageBytes() returns (ramBytes: nat)
      requires Valid()
      ensures ramBytes == RamBytes(Views(pool.AllBlocks()), rowBytes)
    {
      var all := pool.AllBlocks();
      ramBytes := 0;
      for i := 0 to |all|
        invariant ramBytes == RamBytes(Views(all)[..i], rowBytes)
      {
        var b := all[i];
        assert Views(all)[..i+1][..i] == Views(all)[..i];
        if b.isInRam && b.kData.Some? && b.vData.Some? {
          ramBytes := ramBytes + Bytes(|b.kData.value| + |b.vData.value|, rowBytes);
        }
      }
      assert Views(all)[..|all|] == Views(all);
    }

    /** `get_offloaded_storage_bytes` */
    method GetOffloadedStorageBytes() returns (ssdBytes: nat)
      requires Valid()
      ensures ssdBytes == OffloadedBytes(Views(pool.AllBlocks()), rowBytes)
    {
      var all := pool.AllBlocks();
      ssdBytes := 0;
      for i := 0 to |all|
        invariant ssdBytes == OffloadedBytes(Views(all)[..i], rowBytes)
      {
        var b := all[i];
        assert Views(all)[..i+1][..i] == Views(all)[..i];
        if !b.isInRam {
          ssdBytes := ssdBytes + Bytes(2 * b.tokenCount, rowBytes);
        }
      }
      assert Views(all)[..|all|] == Views(all);
    }

    /** `sum(b.token_count for b in layer_blocks)` */
    method SumTokens(layerBlocks: seq<KVBlock>) returns (total: nat)
      ensures total == TotalTokens(Views(layerBlocks))
    {
      total := 0;
      for i := 0 to |layerBlocks|
        invariant total == TotalTokens(Views(layerBlocks)[..i])
      {
        total := total + layerBlocks[i].tokenCount;
        assert Views(layerBlocks)[..i+1][..i] == Views(layerBlocks)[..i];
      }
      assert Views(layerBlocks)[..|layerBlocks|] == Views(layerBlocks);
    }

    /** The first part of `append_token`: the token's block is extended or allocated. */
    method GrowLayer(l: int, kToken: Matrix, vToken: Matrix)
      requires Valid()
      modifies pool, pool.blocks.Values
      ensures pool.Valid() && pool.Grew()
      ensures Views(pool.GetLayerBlocks(l)) == Grown(policy, old(View()), l, kToken, vToken)
      ensures pool.nextId == if HasRoom(policy, LayerBlocks(old(View()), l)) then old(pool.nextId)
          else old(pool.nextId) + 1
      ensures pool.layerBlocks.Keys == old(pool.layerBlocks.Keys) + {l}
      ensures forall m | m in old(pool.layerBlocks) && m != l ::
        m in pool.layerBlocks && pool.layerBlocks[m] == old(pool.layerBlocks[m]) && LayerView(m) == old(LayerView(m))
      ensures forall b | b in pool.GetLayerBlocks(l) :: b in old(pool.blocks.Values) || fresh(b)
    {
      ghost var c0 := View();
      var layerBlocks := pool.GetLayerBlocks(l);
      assert Views(layerBlocks) == LayerView(l) == LayerBlocks(c0, l);
      if layerBlocks != [] && layerBlocks[|layerBlocks|-1].tokenCount < policy.perBlock {
        ExtendLast(layerBlocks, kToken, vToken);
        OthersApart(l);
      } else {
        OpenBlock(l, kToken, vToken);
      }
    }

    /** Different layers have different blocks. */
    lemma OthersApart(l: int)
      requires pool.Valid()
      ensures forall m, i, j :: m != l && 0 <= i < |pool.GetLayerBlocks(m)| && 0 <= j < |pool.GetLayerBlocks(l)| ==>
        pool.GetLayerBlocks(m)[i] != pool.GetLayerBlocks(l)[j]
    {
    }

    /** The token opens a block of its own. */
    method OpenBlock(l: int, kToken: Matrix, vToken: Matrix)
      requires pool.Valid()
      modifies pool
      ensures pool.Valid() && pool.nextId == old(pool.nextId) + 1 && pool.Grew()
      ensures Views(pool.GetLayerBlocks(l)) == old(LayerView(l)) +
        [Block(old(pool.nextId), l, TotalTokens(old(LayerView(l))), 1, false, true, HotRam, Some([kToken]),
               Some([vToken]))]
      ensures pool.layerBlocks.Keys == old(pool.layerBlocks.Keys) + {l}
      ensures forall m | m in old(pool.layerBlocks) && m != l ::
        m in pool.layerBlocks && pool.layerBlocks[m] == old(pool.layerBlocks[m]) && LayerView(m) == old(LayerView(m))
      ensures forall b | b in pool.GetLayerBlocks(l) :: b in old(pool.blocks.Values) || fresh(b)
    {
      var layerBlocks := pool.GetLayerBlocks(l);
      ghost var view := LayerView(l);
      assert Views(layerBlocks) == view;
      var total := SumTokens(layerBlocks);
      var newBlock := pool.AllocateBlock(l, total, 1, [kToken], [vToken], false);
      assert pool.GetLayerBlocks(l) == layerBlocks + [newBlock] && Views(layerBlocks) == view;
      OneMoreView(layerBlocks, newBlock);
    }

    /** The token goes into the last block: appended to its data, or on its own if the block has none. */
    method ExtendLast(layerBlocks: seq<KVBlock>, kToken: Matrix, vToken: Matrix)
      requires layerBlocks != []
      requires forall i :: 0 <= i < |layerBlocks| - 1 ==> layerBlocks[i] != layerBlocks[|layerBlocks|-1]
      modifies layerBlocks[|layerBlocks|-1]
      ensures var was, n := old(Views(layerBlocks)), |layerBlocks| - 1;
        Views(layerBlocks) == was[n := Extend(was[n], kToken, vToken)]
    {
      var lastBlock := layerBlocks[|layerBlocks|-1];
      if lastBlock.kData.Some? && lastBlock.vData.Some? {
        lastBlock.kData := Some(lastBlock.kData.value + [kToken]);
        lastBlock.vData := Some(lastBlock.vData.value + [vToken]);
      } else {
        lastBlock.kData := Some([kToken]);
        lastBlock.vData := Some([vToken]);
      }
      lastBlock.tokenCount := lastBlock.tokenCount + 1;
    }
  }

  lemma {:induction false} ChunksFrom(p: Policy, l: int, id: nat, start: nat, ks: seq<Matrix>, vs: seq<Matrix>, q: nat,
                                      i: nat)
    requires start <= |ks| == |vs| && p.perBlock > 0
    requires start < |ks| ==> start == q * p.perBlock
    requires i < |Chunks(p, l, id, start, ks, vs)|
    ensures (q + i) * p.perBlock < |ks|
    ensures Chunks(p, l, id, start, ks, vs)[i] == Chunk(p, l, id + i, (q + i) * p.perBlock, ks, vs)
    decreases i
  {
    if i > 0 {
      assert (q + 1) * p.perBlock == q * p.perBlock + p.perBlock;
      ChunksFrom(p, l, id + 1, Min(start + p.perBlock, |ks|), ks, vs, q + 1, i - 1);
      assert (q + 1) + (i - 1) == q + i;
    }
  }

  /** The chunk that the loop makes at `b_idx` is the `b_idx`-th chunk of the sequence. */
  lemma ChunkAt(p: Policy, l: int, id: nat, ks: seq<Matrix>, vs: seq<Matrix>, b: nat)
    requires |ks| == |vs| && p.perBlock > 0
    requires b < |Chunks(p, l, id, 0, ks, vs)|
    ensures b * p.perBlock <= |ks|
    ensures Chunks(p, l, id, 0, ks, vs)[b] == Chunk(p, l, id + b, b * p.perBlock, ks, vs)
  {
    ChunksFrom(p, l, id, 0, ks, vs, 0, b);
    assert 0 + b == b;
  }

  lemma {:induction false} ChunkCountFrom(p: Policy, l: int, id: nat, start: nat, ks: seq<Matrix>, vs: seq<Matrix>)
    requires start <= |ks| == |vs| && p.perBlock > 0
    ensures |Chunks(p, l, id, start, ks, vs)| == NumBlocks(|ks| - start, p.perBlock)
    decreases |ks| - start
  {
    var n, m := |ks| - start, p.perBlock;
    if n == 0 {
      SmallQuotient(m - 1, m);
    } else {
      ChunkCountFrom(p, l, id + 1, Min(start + m, |ks|), ks, vs);
      NumBlocksStep(n, m);
    }
  }

  /** There are as many chunks as the loop has turns. */
  lemma ChunkCount(p: Policy, l: int, id: nat, ks: seq<Matrix>, vs: seq<Matrix>)
    requires |ks| == |vs| && p.perBlock > 0
    ensures |Chunks(p, l, id, 0, ks, vs)| == NumBlocks(|ks|, p.perBlock)
  {
    ChunkCountFrom(p, l, id, 0, ks, vs);
  }
}

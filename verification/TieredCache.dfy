/**
 The tiered KV cache as values: what prefill and append do to the blocks of a layer and to
 the flash store, and the refinement of the flat baseline cache.
 Module TieredManager has the mutable objects; their methods are specified by `Prefill` and `Append`.
 */
module TieredCache {
  import opened Options
  import opened Arithmetic
  import opened Accumulator

  datatype Policy = Policy(sink: nat, window: nat, perBlock: nat)

  datatype Tier = HotRam | ColdSsd

  /** The value of a KVBlock object. */
  datatype Block = Block(id: nat, layer: int, start: nat, count: nat, pinned: bool,
                         inRam: bool, tier: Tier, k: Option<seq<Matrix>>, v: Option<seq<Matrix>>)

  /** Keys and values of consecutive tokens. */
  datatype Payload = Payload(k: seq<Matrix>, v: seq<Matrix>)

  /** The controller's flash store: (layer, block id) to payload. */
  type Flash = map<(int, nat), Payload>

  datatype Cache = Cache(nextId: nat, layers: map<int, seq<Block>>, flash: Flash)

  const EMPTY := Cache(0, map[], map[])

  function LayerBlocks(c: Cache, l: int): seq<Block> {
    if l in c.layers then c.layers[l] else []
  }

  // ------------------------------------------------------------------ classifier

  /** `HotColdClassifier.is_hot`: an attention sink, or reaching into the sliding window. */
  predicate IsHot(p: Policy, start: nat, count: nat, total: nat) {
    start < p.sink || start + count > (if total > p.window then total - p.window else 0)
  }

  /** A token is needed in RAM: it is a sink or in the window. */
  predicate Needed(p: Policy, t: nat, total: nat) {
    t < p.sink || t + p.window >= total
  }

  ghost predicate HoldsNeeded(p: Policy, start: nat, count: nat, total: nat) {
    exists t: nat :: start <= t < start + count && Needed(p, t, total)
  }

  /** A block is hot exactly when one of its tokens is a sink or in the window. */
  lemma HotIff(p: Policy, start: nat, count: nat, total: nat)
    requires count >= 1 && start + count <= total
    ensures IsHot(p, start, count, total)
       <==> HoldsNeeded(p, start, count, total)
  {
    if start < p.sink { assert Needed(p, start, total); }
    if start + count > (if total > p.window then total - p.window else 0) {
      var last: nat := start + count - 1;
      assert Needed(p, last, total);
    }
  }

  /** A cold block stays cold as the sequence grows. */
  lemma ColdStaysCold(p: Policy, start: nat, count: nat, total: nat, later: nat)
    requires !IsHot(p, start, count, total) && total <= later
    ensures !IsHot(p, start, count, later)
  {
  }

  // ------------------------------------------------------------------ operations

  /** The resident block that holds the tokens from `start` on, at most `perBlock` of them. */
  function Chunk(p: Policy, l: int, id: nat, start: nat, ks: seq<Matrix>, vs: seq<Matrix>): Block
    requires start <= |ks| == |vs|
  {
    var end := Min(start + p.perBlock, |ks|);
    Block(id, l, start, end - start, start < p.sink, true, HotRam, Some(ks[start..end]), Some(vs[start..end]))
  }

  /** The chunks of a sequence from `start` on, numbered from `id`. */
  function Chunks(p: Policy, l: int, id: nat, start: nat, ks: seq<Matrix>, vs: seq<Matrix>): seq<Block>
    requires start <= |ks| == |vs| && p.perBlock > 0
    decreases |ks| - start
  {
    if start == |ks| then []
    else [Chunk(p, l, id, start, ks, vs)] + Chunks(p, l, id + 1, Min(start + p.perBlock, |ks|), ks, vs)
  }

  /** Which resident blocks an eviction pass moves out.  The decode pass also spares pinned blocks. */
  predicate Leaves(p: Policy, b: Block, total: nat, decode: bool) {
    (decode ==> b.inRam && !b.pinned) && !IsHot(p, b.start, b.count, total)
  }

  function Evict(b: Block): Block {
    b.(inRam := false, tier := ColdSsd, k := None, v := None)
  }

  /** The blocks after an eviction pass. */
  function Settle(p: Policy, bs: seq<Block>, total: nat, decode: bool): (r: seq<Block>)
    ensures |r| == |bs|
  {
    seq(|bs|, i requires 0 <= i < |bs| => if Leaves(p, bs[i], total, decode) then Evict(bs[i]) else bs[i])
  }

  predicate Loaded(b: Block) {
    b.k.Some? && b.v.Some?
  }

  /** Whatever leaves has its data at hand. */
  predicate CanFlush(p: Policy, bs: seq<Block>, total: nat, decode: bool) {
    forall i :: 0 <= i < |bs| && Leaves(p, bs[i], total, decode) ==> Loaded(bs[i])
  }

  /** The flash store after the eviction pass has treated the first `n` blocks. */
  function Flush(p: Policy, bs: seq<Block>, n: nat, total: nat, decode: bool, flash: Flash): Flash
    requires n <= |bs| && CanFlush(p, bs, total, decode)
  {
    if n == 0 then flash
    else
      var before := Flush(p, bs, n - 1, total, decode, flash);
      var b := bs[n-1];
      if Leaves(p, b, total, decode) then before[(b.layer, b.id) := Payload(b.k.value, b.v.value)] else before
  }

  lemma {:induction false} ChunksCanFlush(p: Policy, l: int, id: nat, start: nat, ks: seq<Matrix>, vs: seq<Matrix>,
                                          total: nat, decode: bool)
    requires start <= |ks| == |vs| && p.perBlock > 0
    ensures CanFlush(p, Chunks(p, l, id, start, ks, vs), total, decode)
    decreases |ks| - start
  {
    if start < |ks| { ChunksCanFlush(p, l, id + 1, Min(start + p.perBlock, |ks|), ks, vs, total, decode); }
  }

  /** `prefill_sequence` */
  function Prefill(p: Policy, c: Cache, l: int, ks: seq<Matrix>, vs: seq<Matrix>): Cache
    requires p.perBlock > 0 && |ks| == |vs|
  {
    var added := Chunks(p, l, c.nextId, 0, ks, vs);
    ChunksCanFlush(p, l, c.nextId, 0, ks, vs, |ks|, false);
    if added == [] then c
    else Cache(c.nextId + |added|,
               c.layers[l := LayerBlocks(c, l) + Settle(p, added, |ks|, false)],
               Flush(p, added, |added|, |ks|, false, c.flash))
  }

  /** A cache with those ids, blocks and stored data is the prefilled one. */
  lemma IsPrefill(p: Policy, c: Cache, l: int, ks: seq<Matrix>, vs: seq<Matrix>, d: Cache)
    requires p.perBlock > 0 && |ks| == |vs|
    requires var added := Chunks(p, l, c.nextId, 0, ks, vs);
      && CanFlush(p, added, |ks|, false)
      && d.nextId == c.nextId + |added| && d.flash == Flush(p, added, |added|, |ks|, false, c.flash)
      && d.layers.Keys == (if added == [] then c.layers.Keys else c.layers.Keys + {l})
      && forall m :: m in d.layers ==>
           d.layers[m] == LayerBlocks(c, m) + if m == l then Settle(p, added, |ks|, false) else []
    ensures d == Prefill(p, c, l, ks, vs)
  {
    var want := Prefill(p, c, l, ks, vs);
    assert d.layers.Keys == want.layers.Keys;
    forall m | m in d.layers ensures d.layers[m] == want.layers[m] {
      assert LayerBlocks(c, m) + [] == LayerBlocks(c, m);
    }
    assert d.layers == want.layers;
  }

  function TotalTokens(bs: seq<Block>): nat {
    if bs == [] then 0 else TotalTokens(bs[..|bs|-1]) + bs[|bs|-1].count
  }

  /** The last block with one more token: appended to its resident data, or on its own if there is none. */
  function Extend(b: Block, k: Matrix, v: Matrix): Block {
    b.(count := b.count + 1,
       k := if Loaded(b) then Some(b.k.value + [k]) else Some([k]),
       v := if Loaded(b) then Some(b.v.value + [v]) else Some([v]))
  }

  predicate HasRoom(p: Policy, bs: seq<Block>) {
    bs != [] && bs[|bs|-1].count < p.perBlock
  }

  /** The blocks of the layer once the token is in, before eviction. */
  function Grown(p: Policy, c: Cache, l: int, k: Matrix, v: Matrix): (bs: seq<Block>)
    ensures bs != []
  {
    var bs := LayerBlocks(c, l);
    if HasRoom(p, bs)
    then bs[|bs|-1 := Extend(bs[|bs|-1], k, v)]
    else bs + [Block(c.nextId, l, TotalTokens(bs), 1, false, true, HotRam, Some([k]), Some([v]))]
  }

  predicate BlockWellformed(b: Block, l: int, bound: nat) {
    b.layer == l && b.id < bound && b.count >= 1 && (b.inRam ==> Loaded(b))
  }

  /** No block is empty and every resident block has data: the structural invariant the objects keep. */
  predicate Wellformed(c: Cache) {
    && (forall l :: l in c.layers ==> c.layers[l] != [])
    && (forall l, i :: l in c.layers && 0 <= i < |c.layers[l]| ==> BlockWellformed(c.layers[l][i], l, c.nextId))
  }

  lemma GrownCanFlush(p: Policy, c: Cache, l: int, k: Matrix, v: Matrix, total: nat)
    requires Wellformed(c)
    ensures CanFlush(p, Grown(p, c, l, k, v), total, true)
  {
  }

  /** `append_token` */
  function Append(p: Policy, c: Cache, l: int, k: Matrix, v: Matrix): Cache
    requires Wellformed(c)
  {
    var bs := Grown(p, c, l, k, v);
    var total := TotalTokens(bs);
    GrownCanFlush(p, c, l, k, v, total);
    Cache(if HasRoom(p, LayerBlocks(c, l)) then c.nextId else c.nextId + 1,
          c.layers[l := Settle(p, bs, total, true)],
          Flush(p, bs, |bs|, total, true, c.flash))
  }
}

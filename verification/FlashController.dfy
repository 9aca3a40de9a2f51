/** `MockSSDController`: the flash store behind the tiered cache, and its in-storage filter. */
module FlashController {
  import opened Options
  import opened Sums
  import opened Softmax
  import opened Accumulator
  import opened DenseReference
  import R = Ranking
  import opened Kernel
  import opened Selection
  import opened Binding
  import opened TieredCache
  import opened HybridAttention
  import opened HybridExact

  /** What the device streams back: block ids, their values, per-token logits [heads][tokens], block scores. */
  datatype Reply = Reply(ids: seq<nat>, values: seq<seq<Matrix>>, logits: Matrix, scores: Vector)

  datatype Outcome = Returned(reply: Reply) | Failed

  /** The logits of head `h` with the given keys. */
  function HeadLogits(query: Query, ks: seq<Matrix>, h: nat): (r: Vector)
    requires query.Valid() && ShapedRows(ks, query.heads, query.dim) && h < query.heads
    ensures |r| == |ks|
  {
    seq(|ks|, t requires 0 <= t < |ks| => Scaled(Dot(query.q[h], ks[t][h]), query.scale))
  }

  /** The logits of all heads: [heads][tokens]. */
  function Logits(query: Query, ks: seq<Matrix>): (m: Matrix)
    requires query.Valid() && ShapedRows(ks, query.heads, query.dim)
    ensures Shape(m, query.heads, |ks|)
  {
    seq(query.heads, h requires 0 <= h < query.heads => HeadLogits(query, ks, h))
  }

  /** What an update sees of logits and values that both come from the payload, in the same order. */
  lemma ColumnIsTokens(query: Query, x: Payload, h: nat, d: nat)
    requires query.Valid() && ShapedPayload(x, query.heads, query.dim) && h < query.heads && d < query.dim
    ensures Column(Logits(query, x.k), x.v, h, d) == TokensOf(query, x, h, d)
  {
  }

  /** All stored payloads of the layer hold `tokens` tokens. */
  predicate Uniform(xs: seq<Payload>, tokens: nat) {
    forall i :: 0 <= i < |xs| ==> |xs[i].k| == tokens
  }

  function Keys(xs: seq<Payload>): (ks: seq<seq<Matrix>>)
    ensures |ks| == |xs| && forall i :: 0 <= i < |xs| ==> ks[i] == xs[i].k
  {
    seq(|xs|, i requires 0 <= i < |xs| => xs[i].k)
  }

  function Values(xs: seq<Payload>): (vs: seq<seq<Matrix>>)
    ensures |vs| == |xs| && forall i :: 0 <= i < |xs| ==> vs[i] == xs[i].v
  {
    seq(|xs|, i requires 0 <= i < |xs| => xs[i].v)
  }

  lemma {:induction false} JoinedSides(xs: seq<Payload>)
    ensures JoinPayloads(xs) == Payload(Join(Keys(xs)), Join(Values(xs)))
  {
    if xs != [] {
      var n := |xs| - 1;
      JoinedSides(xs[..n]);
      assert Keys(xs) == Keys(xs[..n]) + [xs[n].k] && Values(xs) == Values(xs[..n]) + [xs[n].v];
      JoinConcat(Keys(xs[..n]), [xs[n].k]);
      JoinConcat(Values(xs[..n]), [xs[n].v]);
      assert Join([xs[n].k]) == xs[n].k && Join([xs[n].v]) == xs[n].v;
    }
  }

  lemma CandidateScores(query: Query, xs: seq<Payload>)
    requires query.Valid() && ShapedPayloads(xs, query.heads, query.dim)
    ensures forall b :: 0 <= b < |xs| ==> MatchingBlock(query.q, Keys(xs)[b], 1)
    ensures R.Scores(Candidates(query.q, Keys(xs), 1, query.scale)) == BlockScores(query, xs)
  {
  }

  /** The blocks picked from the stored blocks of the layer. */
  predicate PicksWithin(flash: Flash, l: int, picks: seq<nat>) {
    forall i :: 0 <= i < |picks| ==> picks[i] < |StoredBlocks(flash, l)|
  }

  function PickedIds(flash: Flash, l: int, picks: seq<nat>): (ids: seq<nat>)
    requires PicksWithin(flash, l, picks)
    ensures |ids| == |picks|
    ensures forall i :: 0 <= i < |ids| ==>
        (l, ids[i]) in flash && flash[(l, ids[i])] == StoredBlocks(flash, l)[picks[i]]
  {
    var ids := SortedIds(StoredIdSet(flash, l));
    seq(|picks|, i requires 0 <= i < |picks| => ids[picks[i]])
  }

  /** Keys read back from the store, block by block. */
  function KeysById(flash: Flash, l: int, ids: seq<nat>): (ks: seq<seq<Matrix>>)
    requires forall i :: 0 <= i < |ids| ==> (l, ids[i]) in flash
    ensures |ks| == |ids|
  {
    seq(|ids|, i requires 0 <= i < |ids| => flash[(l, ids[i])].k)
  }

  /** Reading the keys back by id gives the keys of the picked entries. */
  lemma ReadBackKeys(query: Query, flash: Flash, l: int, picks: seq<nat>)
    requires query.Valid() && ShapedPayloads(StoredBlocks(flash, l), query.heads, query.dim)
    requires PicksWithin(flash, l, picks)
    ensures var picked := Gather(StoredBlocks(flash, l), picks);
      && Join(KeysById(flash, l, PickedIds(flash, l, picks))) == JoinPayloads(picked).k
      && ShapedPayload(JoinPayloads(picked), query.heads, query.dim)
  {
    var picked := Gather(StoredBlocks(flash, l), picks);
    assert KeysById(flash, l, PickedIds(flash, l, picks)) == Keys(picked);
    JoinedSides(picked);
    JoinShaped(picked, query.heads, query.dim);
  }

  /**
   The reply for the given picks: values from the picked entries, logits read back from the store
   block by block under the picked ids.
   */
  function ReplyFor(query: Query, flash: Flash, l: int, picks: seq<nat>, scores: Vector): Reply
    requires query.Valid() && ShapedPayloads(StoredBlocks(flash, l), query.heads, query.dim)
    requires PicksWithin(flash, l, picks)
  {
    var ids, blocks := PickedIds(flash, l, picks), StoredBlocks(flash, l);
    ReadBackKeys(query, flash, l, picks);
    Reply(ids, Values(Gather(blocks, picks)), Logits(query, Join(KeysById(flash, l, ids))), scores)
  }

  /** In the reply, logit column `t` and value `t` belong to the same token. */
  lemma ReplyAligned(query: Query, flash: Flash, l: int, picks: seq<nat>, scores: Vector)
    requires query.Valid() && ShapedPayloads(StoredBlocks(flash, l), query.heads, query.dim)
    requires PicksWithin(flash, l, picks)
    ensures var reply, joined :=
      ReplyFor(query, flash, l, picks, scores), JoinPayloads(Gather(StoredBlocks(flash, l), picks));
      && ShapedPayload(joined, query.heads, query.dim)
      && reply.logits == Logits(query, joined.k)
      && Join(reply.values) == joined.v
  {
    ReadBackKeys(query, flash, l, picks);
    JoinedSides(Gather(StoredBlocks(flash, l), picks));
  }

  /** Entry [h][t] is the logit of head `h` with token `t`: the scaled inner product of its query and key vector. */
  ghost predicate AreLogits(query: Query, K: seq<Matrix>, m: Matrix)
    requires query.Valid() && ShapedRows(K, query.heads, query.dim)
  {
    && Shape(m, query.heads, |K|)
    && forall h: nat, t: nat | h < query.heads && t < |K| :: m[h][t] == LogitAt(query.q, query.scale, K, h, t)
  }

  lemma LogitsAre(query: Query, K: seq<Matrix>)
    requires query.Valid() && ShapedRows(K, query.heads, query.dim)
    ensures AreLogits(query, K, Logits(query, K))
  {
    forall h: nat, t: nat | h < query.heads && t < |K|
      ensures Logits(query, K)[h][t] == LogitAt(query.q, query.scale, K, h, t)
    {
      DotIsInner(query.q[h], K[t][h]);
    }
  }

  /** The reply holds the values stored under its ids, and the logits of the keys stored under them. */
  ghost predicate AnswersFrom(query: Query, flash: Flash, l: int, reply: Reply)
    requires query.Valid()
  {
    && (forall i :: 0 <= i < |reply.ids| ==> (l, reply.ids[i]) in flash)
    && |reply.values| == |reply.ids|
    && (forall i :: 0 <= i < |reply.ids| ==> reply.values[i] == flash[(l, reply.ids[i])].v)
    && ShapedRows(Join(KeysById(flash, l, reply.ids)), query.heads, query.dim)
    && AreLogits(query, Join(KeysById(flash, l, reply.ids)), reply.logits)
  }

  lemma ReplyAnswers(query: Query, flash: Flash, l: int, picks: seq<nat>, scores: Vector)
    requires query.Valid() && ShapedPayloads(StoredBlocks(flash, l), query.heads, query.dim)
    requires PicksWithin(flash, l, picks)
    ensures AnswersFrom(query, flash, l, ReplyFor(query, flash, l, picks, scores))
  {
    ReadBackKeys(query, flash, l, picks);
    LogitsAre(query, Join(KeysById(flash, l, PickedIds(flash, l, picks))));
  }

  class MockSSDController {
    var flashStore: Flash

    constructor ()
      ensures flashStore == map[]
    {
      flashStore := map[];
    }

    /** `store_kv` */
    method StoreKv(blockId: nat, layerId: int, keyData: seq<Matrix>, valueData: seq<Matrix>)
      modifies this
      ensures flashStore == old(flashStore)[(layerId, blockId) := Payload(keyData, valueData)]
    {
      flashStore := flashStore[(layerId, blockId) := Payload(keyData, valueData)];
    }

    /** `load_kv`: fails with a KeyError for a block that is not stored. */
    method LoadKv(blockId: nat, layerId: int) returns (r: Option<Payload>)
      ensures r == if (layerId, blockId) in flashStore then Some(flashStore[(layerId, blockId)]) else None
    {
      r := if (layerId, blockId) in flashStore then Some(flashStore[(layerId, blockId)]) else None;
    }

    /**
     `in_storage_topk_attention` with the native kernel: scans the layer's blocks in id order and
     replies with the picked ones, best first.  It fails when nothing is stored for the layer (the
     caller cannot unpack the short reply), when the blocks cannot be stacked, and when the kernel
     reports an error.
     */
    method InStorageTopkAttention(query: Query, layerId: int, topK: int) returns (r: Outcome)
      requires query.Valid() && ShapedPayloads(StoredBlocks(flashStore, layerId), query.heads, query.dim)
      ensures r.Returned? <==>
        var xs := StoredBlocks(flashStore, layerId);
        xs != [] && Uniform(xs, |xs[0].k|) && |xs[0].k| > 0 && query.heads > 0 && query.dim > 0 && topK > 0
      ensures r.Returned? ==> var s := BlockScores(query, StoredBlocks(flashStore, layerId));
        r.reply == ReplyFor(query, flashStore, layerId, Picks(s, topK), PickScores(s, topK))
      ensures r.Returned? ==> AnswersFrom(query, flashStore, layerId, r.reply)
    {
      var layerBlocks := StoredBlocks(flashStore, layerId);
      if layerBlocks == [] { return Failed; }
      var tokens := |layerBlocks[0].k|;
      if exists i :: 0 <= i < |layerBlocks| && |layerBlocks[i].k| != tokens { return Failed; }
      var effectiveK := if topK < |layerBlocks| then topK else |layerBlocks|;
      CandidateScores(query, layerBlocks);
      var ok, picks, scores :=
        ComputeTopk(query.q, query.heads, query.dim, Keys(layerBlocks), tokens, effectiveK, query.scale);
      if !ok { return Failed; }
      assert picks == Picks(BlockScores(query, layerBlocks), topK);
      assert scores == PickScores(BlockScores(query, layerBlocks), topK);
      ReplyAnswers(query, flashStore, layerId, picks, scores);
      r := Returned(ReplyFor(query, flashStore, layerId, picks, scores));
    }
  }
}

/**
 Fetching a cold block back: the block becomes resident and stays in the flash store, so that a
 scan of the store sees it a second time.
 */
module TieredFetch {
  import opened Options
  import opened Accumulator
  import opened TieredCache
  import opened TieredRefinement
  import opened HybridAttention
  import opened HybridExact

  /** Can the block be fetched under this layer id?  If it is cold, its data must be stored under that id. */
  predicate Fetchable(b: Block, l: int, flash: Flash) {
    b.inRam || (l, b.id) in flash
  }

  function Fetched(b: Block, l: int, flash: Flash): Block
    requires Fetchable(b, l, flash)
  {
    if b.inRam then b
    else b.(inRam := true, tier := HotRam, k := Some(flash[(l, b.id)].k), v := Some(flash[(l, b.id)].v))
  }

  predicate LayerFetchable(bs: seq<Block>, id: nat, l: int, flash: Flash) {
    forall i :: 0 <= i < |bs| && bs[i].id == id ==> Fetchable(bs[i], l, flash)
  }

  /** The blocks of a layer once block `id` has been fetched. */
  function FetchLayer(bs: seq<Block>, id: nat, l: int, flash: Flash): (r: seq<Block>)
    requires LayerFetchable(bs, id, l, flash)
    ensures |r| == |bs|
  {
    seq(|bs|, i requires 0 <= i < |bs| => if bs[i].id == id then Fetched(bs[i], l, flash) else bs[i])
  }

  predicate CacheFetchable(c: Cache, id: nat, l: int) {
    forall m :: m in c.layers ==> LayerFetchable(c.layers[m], id, l, c.flash)
  }

  /** `fetch_cold_block`, when it succeeds. */
  function Fetch(c: Cache, id: nat, l: int): Cache
    requires CacheFetchable(c, id, l)
  {
    c.(layers := map m | m in c.layers :: FetchLayer(c.layers[m], id, l, c.flash))
  }

  lemma FetchWellformed(c: Cache, id: nat, l: int)
    requires Wellformed(c) && CacheFetchable(c, id, l)
    ensures Wellformed(Fetch(c, id, l))
  {
    var d := Fetch(c, id, l);
    forall m, i | m in d.layers && 0 <= i < |d.layers[m]|
      ensures var b := d.layers[m][i]; b.layer == m && b.id < d.nextId && b.count >= 1 && (b.inRam ==> Loaded(b))
    {
      assert c.layers[m][i].layer == m;
    }
  }

  /** A fetch moves no data: every block still holds its part of the sequence. */
  lemma FetchKeepsData(p: Policy, bs: seq<Block>, bound: nat, flash: Flash, l: int, ks: seq<Matrix>, vs: seq<Matrix>,
                       id: nat)
    requires DataOk(p, bs, bound, flash, l, ks, vs)
    ensures LayerFetchable(bs, id, l, flash)
    ensures DataOk(p, FetchLayer(bs, id, l, flash), bound, flash, l, ks, vs)
  {
    forall i | 0 <= i < |bs| && bs[i].id == id ensures Fetchable(bs[i], l, flash) {
      assert BlockData(bs[i], l, flash, ks, vs);
    }
    var r := FetchLayer(bs, id, l, flash);
    forall i | 0 <= i < |bs| ensures SamePlace(r[i], bs[i]) && BlockData(r[i], l, flash, ks, vs) {
      assert BlockData(bs[i], l, flash, ks, vs);
      if bs[i].id == id { FetchedData(bs[i], l, flash, ks, vs); }
    }
    SamePlaces(p, bs, r, |ks|, bound);
    SameIds(bs, r, l, flash);
  }

  predicate SamePlace(a: Block, b: Block) {
    a.id == b.id && a.start == b.start && a.count == b.count
  }

  lemma SamePlaces(p: Policy, bs: seq<Block>, r: seq<Block>, total: nat, bound: nat)
    requires Tiles(p, bs, total) && IdsAscend(bs, bound)
    requires |r| == |bs| && forall i :: 0 <= i < |bs| ==> SamePlace(r[i], bs[i])
    ensures Tiles(p, r, total) && IdsAscend(r, bound)
  {
  }

  lemma FetchedData(b: Block, l: int, flash: Flash, ks: seq<Matrix>, vs: seq<Matrix>)
    requires b.start + b.count <= |ks| == |vs| && BlockData(b, l, flash, ks, vs)
    ensures Fetchable(b, l, flash) && SamePlace(Fetched(b, l, flash), b)
    ensures BlockData(Fetched(b, l, flash), l, flash, ks, vs)
  {
  }

  lemma SameIds(bs: seq<Block>, r: seq<Block>, l: int, flash: Flash)
    requires StoredAreBlocks(bs, l, flash) && |r| == |bs| && forall i :: 0 <= i < |bs| ==> r[i].id == bs[i].id
    ensures StoredAreBlocks(r, l, flash)
  {
    forall x | (l, x) in flash ensures exists i :: 0 <= i < |r| && r[i].id == x {
      var i :| 0 <= i < |bs| && bs[i].id == x;
      assert r[i].id == x;
    }
  }

  /** Fetching the cold block `i` leaves a layer that is still scanned once exactly when no other block is cold. */
  lemma FetchScannedOnce(p: Policy, bs: seq<Block>, bound: nat, flash: Flash, l: int, ks: seq<Matrix>, vs: seq<Matrix>,
                         i: nat)
    requires BlocksOk(p, bs, bound, flash, l, ks, vs)
    requires i < |bs| && !bs[i].inRam
    ensures LayerFetchable(bs, bs[i].id, l, flash)
    ensures ScannedOnce(FetchLayer(bs, bs[i].id, l, flash), flash, l)
       <==> forall j :: 0 <= j < |bs| && j != i ==> bs[j].inRam
  {
    BlocksOkData(p, bs, bound, flash, l, ks, vs);
    FetchKeepsData(p, bs, bound, flash, l, ks, vs, bs[i].id);
    FetchChangesOne(bs, bound, flash, l, i);
    assert BlockData(bs[i], l, flash, ks, vs);
    OnlyOneTwice(bs, FetchLayer(bs, bs[i].id, l, flash), flash, l, i);
  }

  lemma OnlyOneTwice(bs: seq<Block>, r: seq<Block>, flash: Flash, l: int, i: nat)
    requires i < |bs| == |r| && Twice(r[i], l, flash)
    requires forall j :: 0 <= j < |bs| && j != i ==> r[j] == bs[j] && r[j].id != r[i].id
    requires forall j :: 0 <= j < |bs| && !bs[j].inRam ==> (l, bs[j].id) in flash
    ensures ScannedOnce(r, flash, l) <==> forall j :: 0 <= j < |bs| && j != i ==> bs[j].inRam
  {
  }

  lemma FetchChangesOne(bs: seq<Block>, bound: nat, flash: Flash, l: int, i: nat)
    requires IdsAscend(bs, bound) && i < |bs| && LayerFetchable(bs, bs[i].id, l, flash)
    ensures var r := FetchLayer(bs, bs[i].id, l, flash);
      && r[i] == Fetched(bs[i], l, flash)
      && forall j :: 0 <= j < |bs| && j != i ==> r[j] == bs[j] && r[j].id != bs[i].id
  {
    forall j | 0 <= j < |bs| && j != i ensures bs[j].id != bs[i].id {
      assert i < j || j < i;
    }
  }

  /**
   After a fetch, decode attention with a complete scan still attends to every block exactly once
   if and only if the fetched block was the only cold one; otherwise it is counted twice.
   */
  lemma FetchAttendsOnceIff(p: Policy, query: Query, bs: seq<Block>, bound: nat, flash: Flash, l: int, topK: nat,
                            ks: seq<Matrix>, vs: seq<Matrix>, i: nat)
    requires BlocksOk(p, bs, bound, flash, l, ks, vs)
    requires i < |bs| && !bs[i].inRam
    requires query.Valid() && ShapedPayload(Payload(ks, vs), query.heads, query.dim)
    ensures LayerFetchable(bs, bs[i].id, l, flash)
    ensures var r := FetchLayer(bs, bs[i].id, l, flash);
      && ShapedStore(query, r, flash, l)
      && Fits(r, |ks|)
      && (topK >= |StoredBlocks(flash, l)| && ScoresOk(query, StoredBlocks(flash, l)) ==>
            (multiset(Attended(query, r, flash, l, topK)) == multiset(Slices(r, ks, vs))
             <==> forall j :: 0 <= j < |bs| && j != i ==> bs[j].inRam))
  {
    BlocksOkData(p, bs, bound, flash, l, ks, vs);
    FetchKeepsData(p, bs, bound, flash, l, ks, vs, bs[i].id);
    var r := FetchLayer(bs, bs[i].id, l, flash);
    LayerShaped(p, query, r, bound, flash, l, ks, vs);
    FetchScannedOnce(p, bs, bound, flash, l, ks, vs, i);
    if topK >= |StoredBlocks(flash, l)| && ScoresOk(query, StoredBlocks(flash, l)) {
      AttendedOnceIff(p, query, r, bound, flash, l, topK, ks, vs);
    }
  }
}

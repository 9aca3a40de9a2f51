/** `TransformerKVStateProvider` and `SlidingWindowKVStateProvider` as objects over a block backend. */
module TransformerKv {
  import opened Options
  import opened Arithmetic
  import opened Selection
  import opened TransformerState
  import opened TransformerReach
  import opened WindowFilter

  /** The scores of the candidate blocks under a query, which is a function of the block. */
  function Scores(query: Block -> real, cands: seq<Block>): (s: seq<real>)
    ensures |s| == |cands|
  {
    seq(|cands|, i requires 0 <= i < |cands| => query(cands[i]))
  }

  /** The maps agree on the key. */
  predicate SameAt<K, V(==)>(a: map<K, V>, b: map<K, V>, key: K) {
    (key in a <==> key in b) && (key in a && key in b ==> a[key] == b[key])
  }

  class TransformerKVStateProvider<T> {
    const p: Params
    const pad: T
    const topKPct: real
    var layerData: map<int, Layer<T>>
    var stored: Store<T>             // what the backend returns for (layer, block)

    constructor (p: Params, pad: T, topKPct: real)
      requires p.perBlock > 0
      ensures this.p == p && this.pad == pad && this.topKPct == topKPct
      ensures layerData == map[] && stored == map[]
    {
      this.p, this.pad, this.topKPct := p, pad, topKPct;
      layerData, stored := map[], map[];
    }

    /** `init_from_prefill`, for one layer of the cache. */
    method InitLayer(l: int, toks: seq<T>)
      requires p.perBlock > 0
      modifies this
      ensures layerData == old(layerData)[l := Init(p, toks)]
      ensures stored == InitStore(p, l, toks, pad, old(stored))
    {
      var sinkPart, recentPart, candBids := toks, [], [];
      if |toks| > p.sink + p.recent {
        sinkPart, recentPart := toks[..p.sink], Tail(toks, p.recent);
        candBids := OffloadHistory(l, toks[p.sink..|toks| - p.recent]);
      }
      layerData := layerData[l := Layer(sinkPart, recentPart, candBids, |toks|)];
    }

    /** Listing the blocks from the token `start` on completes the list. */
    predicate Listing(candBids: seq<Block>, bid: nat, start: nat, len: nat)
      requires p.perBlock > 0 && start <= len
    {
      candBids + BlocksFrom(p, bid, start, len) == BlocksFrom(p, 0, 0, len)
    }

    lemma NextBlock(candBids: seq<Block>, bid: nat, start: nat, len: nat)
      requires p.perBlock > 0 && start < len && Listing(candBids, bid, start, len)
      ensures var end := Min(start + p.perBlock, len);
        Listing(candBids + [Block(bid, end - start)], bid + 1, end, len)
    {
    }

    /** Writing the history from the token `start` on completes what was begun on `was`. */
    ghost predicate Writing(l: int, hist: seq<T>, bid: nat, start: nat, now: Store<T>, was: Store<T>)
      requires p.perBlock > 0 && start <= |hist|
    {
      WriteFrom(p, l, bid, hist, start, pad, now) == WriteFrom(p, l, 0, hist, 0, pad, was)
    }

    lemma NextWrite(l: int, hist: seq<T>, bid: nat, start: nat, now: Store<T>, was: Store<T>)
      requires p.perBlock > 0 && start < |hist| && Writing(l, hist, bid, start, now, was)
      ensures var end := Min(start + p.perBlock, |hist|);
        Writing(l, hist, bid + 1, end, now[(l, bid) := Padded(p, hist, start, end, pad)], was)
    {
    }

    /** The block-writing loop of prefill. */
    method OffloadHistory(l: int, hist: seq<T>) returns (candBids: seq<Block>)
      requires p.perBlock > 0
      modifies this`stored
      ensures candBids == BlocksFrom(p, 0, 0, |hist|)
      ensures stored == WriteFrom(p, l, 0, hist, 0, pad, old(stored))
    {
      candBids := [];
      var bid, bStart := 0, 0;
      while bStart < |hist|
        invariant Listing(candBids, bid, Min(bStart, |hist|), |hist|)
        invariant Writing(l, hist, bid, Min(bStart, |hist|), stored, old(stored))
      {
        var bEnd := Min(bStart + p.perBlock, |hist|);
        NextBlock(candBids, bid, bStart, |hist|);
        NextWrite(l, hist, bid, bStart, stored, old(stored));
        stored := stored[(l, bid) := Padded(p, hist, bStart, bEnd, pad)];
        candBids := candBids + [Block(bid, bEnd - bStart)];
        bid := bid + 1;
        bStart := bStart + p.perBlock;
      }
      assert candBids + [] == candBids;
    }

    /** Is the layer among the first `n` given ones? */
    ghost predicate Given(layers: seq<(int, seq<T>)>, n: nat, m: int)
      requires n <= |layers|
    {
      exists i :: 0 <= i < n && layers[i].0 == m
    }

    lemma GivenNext(layers: seq<(int, seq<T>)>, n: nat, m: int)
      requires n < |layers|
      ensures Given(layers, n + 1, m) <==> Given(layers, n, m) || m == layers[n].0
    {
    }

    lemma StoreElsewhere(l: int, toks: seq<T>, before: Store<T>, key: (int, nat))
      requires p.perBlock > 0 && key.0 != l
      ensures SameAt(InitStore(p, l, toks, pad, before), before, key)
    {
      if !Short(p, |toks|) { WriteFromOnly(p, l, 0, History(p, toks), 0, pad, before, key); }
    }

    /** `init_from_prefill`: layer by layer; layers that are not given stay as they are. */
    method InitFromPrefill(layers: seq<(int, seq<T>)>)
      requires p.perBlock > 0
      requires forall i, j :: 0 <= i < j < |layers| ==> layers[i].0 != layers[j].0
      modifies this
      ensures forall i :: 0 <= i < |layers| ==>
        && layers[i].0 in layerData && layerData[layers[i].0] == Init(p, layers[i].1)
        && (forall bid: nat :: !Short(p, |layers[i].1|) && bid < |layerData[layers[i].0].cands| ==>
              (layers[i].0, bid) in stored
              && stored[(layers[i].0, bid)]
                  == PageOf(p, InitStore(p, layers[i].0, layers[i].1, pad, map[]), layers[i].0, bid, pad))
      ensures forall m :: !Given(layers, |layers|, m) ==> SameAt(layerData, old(layerData), m)
      ensures forall m, bid :: !Given(layers, |layers|, m) ==> SameAt(stored, old(stored), (m, bid))
    {
      for n := 0 to |layers|
        invariant forall i :: 0 <= i < n ==> LayerReady(layers[i].0, layers[i].1)
        invariant forall m :: !Given(layers, n, m) ==> SameAt(layerData, old(layerData), m)
        invariant forall m, bid :: !Given(layers, n, m) ==> SameAt(stored, old(stored), (m, bid))
      {
        ghost var before, data := stored, layerData;
        InitLayer(layers[n].0, layers[n].1);
        forall i | 0 <= i < n ensures LayerReady(layers[i].0, layers[i].1) {
          OthersStay(layers[n].0, layers[n].1, before, layers[i].0, layers[i].1);
        }
        NewIsReady(layers[n].0, layers[n].1, before);
        forall m | !Given(layers, n + 1, m) ensures SameAt(layerData, old(layerData), m) {
          GivenNext(layers, n, m);
          assert SameAt(data, old(layerData), m);
        }
        forall m: int, bid: nat | !Given(layers, n + 1, m) ensures SameAt(stored, old(stored), (m, bid)) {
          GivenNext(layers, n, m);
          assert SameAt(before, old(stored), (m, bid));
          StoreElsewhere(layers[n].0, layers[n].1, before, (m, bid));
        }
      }
      forall i | 0 <= i < |layers| ensures LayerReady(layers[i].0, layers[i].1) {}
    }

    /** The layer has its data, and its blocks are stored. */
    ghost predicate LayerReady(l: int, toks: seq<T>)
      requires p.perBlock > 0
      reads this
    {
      && l in layerData && layerData[l] == Init(p, toks)
      && BlocksReady(l, toks, stored)
    }

    ghost predicate BlocksReady(l: int, toks: seq<T>, s: Store<T>)
      requires p.perBlock > 0
    {
      forall bid: nat :: !Short(p, |toks|) && bid < |Init(p, toks).cands| ==>
        (l, bid) in s && s[(l, bid)] == PageOf(p, InitStore(p, l, toks, pad, map[]), l, bid, pad)
    }

    lemma NewIsReady(l: int, toks: seq<T>, before: Store<T>)
      requires p.perBlock > 0
      ensures BlocksReady(l, toks, InitStore(p, l, toks, pad, before))
    {
      if !Short(p, |toks|) {
        var hist := History(p, toks);
        forall bid: nat | bid < |BlocksFrom(p, 0, 0, |hist|)|
          ensures var s := WriteFrom(p, l, 0, hist, 0, pad, before);
            (l, bid) in s && s[(l, bid)] == PageOf(p, InitStore(p, l, toks, pad, map[]), l, bid, pad)
        {
          assert Start(p, 0) == 0 && 0 + bid == bid;
          WriteFromAt(p, l, 0, hist, 0, pad, before, bid);
          WriteFromAt(p, l, 0, hist, 0, pad, map[], bid);
        }
      }
    }

    lemma OthersStay(l: int, toks: seq<T>, before: Store<T>, m: int, others: seq<T>)
      requires p.perBlock > 0 && l != m && BlocksReady(m, others, before)
      ensures BlocksReady(m, others, InitStore(p, l, toks, pad, before))
    {
      forall bid: nat | !Short(p, |others|) && bid < |Init(p, others).cands|
        ensures var s := InitStore(p, l, toks, pad, before);
          (m, bid) in s && s[(m, bid)] == PageOf(p, InitStore(p, m, others, pad, map[]), m, bid, pad)
      {
        StoreElsewhere(l, toks, before, (m, bid));
      }
    }

    /** `append_new_token`: fails for a layer without data. */
    method AppendNewToken(l: int, tok: T) returns (ok: bool)
      modifies this`layerData
      ensures ok <==> l in old(layerData)
      ensures layerData == if ok then old(layerData)[l := Append(old(layerData)[l], tok)] else old(layerData)
    {
      if l !in layerData { return false; }
      var ld := layerData[l];
      var recent := (if ld.recent == [] then [] else ld.recent[1..]) + [tok];
      layerData := layerData[l := ld.(recent := recent, total := ld.total + 1)];
      ok := true;
    }

    /** The active state of a layer, with the blocks that score best under the query. */
    function ActiveOf(store: Store<T>, l: int, ld: Layer<T>, query: Block -> real): seq<T> {
      Active(p, store, l, ld, Scores(query, ld.cands), KVal(|ld.cands|, topKPct), pad)
    }

    /** `select_and_fetch_active_state`: fails without a query and for a layer without data. */
    method SelectAndFetchActiveState(l: int, query: Option<Block -> real>) returns (r: Option<seq<T>>)
      ensures r.Some? <==> query.Some? && l in layerData
      ensures r.Some? ==>
        var ld := layerData[l];
        r.value == ActiveOf(stored, l, ld, query.value)
    {
      if query == None || l !in layerData { return None; }
      var ld := layerData[l];
      var topBids := [];
      if |ld.cands| > 0 {
        topBids := Winners(ld.cands, Picks(Scores(query.value, ld.cands), KVal(|ld.cands|, topKPct)));
      }
      var selected := FetchRows(l, SortById(topBids));
      r := Some(ld.sink + selected + ld.recent);
    }

    /** What is returned holds the least number of blocks, at least one, that reaches the share, or all of them. */
    lemma SelectionHoldsShare(ld: Layer<T>, l: int, query: Block -> real)
      ensures HoldsShare(p, stored, l, ld, Scores(query, ld.cands), topKPct, pad, ActiveOf(stored, l, ld, query))
    {
      ActiveHoldsShare(p, stored, l, ld, Scores(query, ld.cands), topKPct, pad);
    }

    /** The valid rows of the selected blocks. */
    method FetchRows(l: int, sortedTopBids: seq<Block>) returns (selected: seq<T>)
      ensures selected == Rows(p, stored, l, sortedTopBids, pad)
    {
      selected := [];
      for i := 0 to |sortedTopBids|
        invariant selected == Rows(p, stored, l, sortedTopBids[..i], pad)
      {
        assert sortedTopBids[..i+1][..i] == sortedTopBids[..i];
        var b := sortedTopBids[i];
        var page := PageOf(p, stored, l, b.bid, pad);
        selected := selected + page[..Min(b.count, |page|)];
      }
      assert sortedTopBids[..|sortedTopBids|] == sortedTopBids;
    }
  }

  class SlidingWindowKVStateProvider<T> {
    const inner: TransformerKVStateProvider<T>
    const slidingWindow: nat

    /** A model without a window, or with one of zero, gets 4096 tokens. */
    constructor (inner: TransformerKVStateProvider<T>, configured: Option<nat>)
      ensures this.inner == inner
      ensures slidingWindow == if configured == None || configured == Some(0) then 4096 else configured.value
    {
      this.inner := inner;
      slidingWindow := if configured == None || configured == Some(0) then 4096 else configured.value;
    }

    /**
     The same selection among the candidates that reach into the window.  The full candidate list is
     in place again on every exit, failures included.
     */
    method SelectAndFetchActiveState(l: int, query: Option<Block -> real>) returns (r: Option<seq<T>>)
      modifies inner`layerData
      ensures inner.layerData == old(inner.layerData)
      ensures r.Some? <==> query.Some? && l in old(inner.layerData)
      ensures r.Some? ==>
        var ld := old(inner.layerData)[l];
        var kept := InWindow(inner.p, slidingWindow, ld.total, ld.cands);
        r.value == inner.ActiveOf(inner.stored, l, ld.(cands := kept), query.value)
    {
      if l !in inner.layerData { return None; }
      var ld := inner.layerData[l];
      Narrow(l, ld);
      r := inner.SelectAndFetchActiveState(l, query);
      inner.layerData := inner.layerData[l := ld];
    }

    /** What is returned holds that many of the candidates that reach into the window, or all of those. */
    lemma SelectionHoldsShare(ld: Layer<T>, l: int, query: Block -> real)
      ensures var kept := InWindow(inner.p, slidingWindow, ld.total, ld.cands);
        HoldsShare(inner.p, inner.stored, l, ld.(cands := kept), Scores(query, kept), inner.topKPct, inner.pad,
                   inner.ActiveOf(inner.stored, l, ld.(cands := kept), query))
    {
      var kept := InWindow(inner.p, slidingWindow, ld.total, ld.cands);
      ActiveHoldsShare(inner.p, inner.stored, l, ld.(cands := kept), Scores(query, kept), inner.topKPct, inner.pad);
    }

    /** Leaves the candidates that reach into the window. */
    method Narrow(l: int, ld: Layer<T>)
      requires l in inner.layerData && inner.layerData[l] == ld
      modifies inner`layerData
      ensures inner.layerData
           == old(inner.layerData)[l := ld.(cands := InWindow(inner.p, slidingWindow, ld.total, ld.cands))]
    {
      AllInWindow(inner.p, slidingWindow, ld.total, ld.cands);
      if ld.total > slidingWindow {
        var validCands := FilterCands(ld.cands, ld.total);
        inner.layerData := inner.layerData[l := ld.(cands := validCands)];
      }
    }

    /** The filter loop, for a sequence longer than the window. */
    method FilterCands(cands: seq<Block>, total: nat) returns (validCands: seq<Block>)
      requires total > slidingWindow
      ensures validCands == InWindow(inner.p, slidingWindow, total, cands)
    {
      var windowStart := total - slidingWindow;
      validCands := [];
      for i := 0 to |cands|
        invariant validCands == InWindow(inner.p, slidingWindow, total, cands[..i])
      {
        FilterNext(inner.p, slidingWindow, total, cands, i + 1);
        var b := cands[i];
        var bTokStart := inner.p.sink + Start(inner.p, b.bid);
        var bTokEnd := bTokStart + b.count;
        if bTokEnd > windowStart { validCands := validCands + [b]; }
      }
      assert cands[..|cands|] == cands;
    }
  }
}

/**
 The per-layer state of the transformer KV provider, as values: attention sinks and a recent window
 in memory, everything between them in padded blocks.  A token stands for its keys and values over
 all heads.
 */
module TransformerState {
  import opened Arithmetic
  import R = Ranking
  import opened Selection
  import opened Softmax

  datatype Params = Params(sink: nat, recent: nat, perBlock: nat)

  datatype Block = Block(bid: nat, count: nat)

  datatype Layer<T> = Layer(sink: seq<T>, recent: seq<T>, cands: seq<Block>, total: nat)

  /** The blocks of a layer in the backend, by layer and block id. */
  type Store<T> = map<(int, nat), seq<T>>

  /** A Python slice `[-k:]`, which for `k == 0` is the whole sequence. */
  function Tail<T>(xs: seq<T>, k: nat): seq<T> {
    if k == 0 || k > |xs| then xs else xs[|xs| - k..]
  }

  predicate Short(p: Params, n: nat) {
    n <= p.sink + p.recent
  }

  // ------------------------------------------------------------------ prefill

  /** The candidate blocks of `len` historical tokens, from the token `start` and the id `bid` on. */
  function BlocksFrom(p: Params, bid: nat, start: nat, len: nat): seq<Block>
    requires p.perBlock > 0 && start <= len
    decreases len - start
  {
    if start == len then []
    else
      var end := Min(start + p.perBlock, len);
      [Block(bid, end - start)] + BlocksFrom(p, bid + 1, end, len)
  }

  /** The block's tokens, padded to the block size. */
  function Padded<T>(p: Params, hist: seq<T>, start: nat, end: nat, pad: T): (page: seq<T>)
    requires start <= end <= |hist| && end - start <= p.perBlock
    ensures |page| == p.perBlock
  {
    hist[start..end] + seq(p.perBlock - (end - start), _ => pad)
  }

  function WriteFrom<T>(p: Params, l: int, bid: nat, hist: seq<T>, start: nat, pad: T, store: Store<T>): Store<T>
    requires p.perBlock > 0 && start <= |hist|
    decreases |hist| - start
  {
    if start == |hist| then store
    else
      var end := Min(start + p.perBlock, |hist|);
      WriteFrom(p, l, bid + 1, hist, end, pad, store[(l, bid) := Padded(p, hist, start, end, pad)])
  }

  /** What lies between the sinks and the recent window. */
  function History<T>(p: Params, toks: seq<T>): seq<T>
    requires !Short(p, |toks|)
  {
    toks[p.sink..|toks| - p.recent]
  }

  /** `init_from_prefill`, for one layer. */
  function Init<T>(p: Params, toks: seq<T>): Layer<T>
    requires p.perBlock > 0
  {
    if Short(p, |toks|) then Layer(toks, [], [], |toks|)
    else Layer(toks[..p.sink], Tail(toks, p.recent), BlocksFrom(p, 0, 0, |History(p, toks)|), |toks|)
  }

  function InitStore<T>(p: Params, l: int, toks: seq<T>, pad: T, store: Store<T>): Store<T>
    requires p.perBlock > 0
  {
    if Short(p, |toks|) then store else WriteFrom(p, l, 0, History(p, toks), 0, pad, store)
  }

  // ------------------------------------------------------------------ append

  /** `append_new_token`: the window slides by one; the token that leaves it is not offloaded. */
  function Append<T>(ld: Layer<T>, tok: T): Layer<T> {
    ld.(recent := (if ld.recent == [] then [] else ld.recent[1..]) + [tok], total := ld.total + 1)
  }

  function AppendAll<T>(ld: Layer<T>, ts: seq<T>): Layer<T> {
    if ts == [] then ld else Append(AppendAll(ld, ts[..|ts|-1]), ts[|ts|-1])
  }

  // ------------------------------------------------------------------ select and fetch

  function Ceil(x: real): int { -(-x).Floor }

  /** How many blocks are retrieved out of `n`. */
  function KVal(n: nat, pct: real): (k: nat)
    ensures k >= 1
  {
    var c := Ceil(n as real * (pct / 100.0));
    if c > 1 then c else 1
  }

  /** `k` is the least positive integer that is at least `pct` percent of `n`. */
  predicate IsShare(k: nat, n: nat, pct: real) {
    && k >= 1 && 100.0 * k as real >= n as real * pct
    && (k > 1 ==> 100.0 * (k - 1) as real < n as real * pct)
  }

  /** That is how many blocks are retrieved. */
  lemma KValIsShare(n: nat, pct: real)
    ensures IsShare(KVal(n, pct), n, pct)
  {
    var x := n as real * (pct / 100.0);
    assert 100.0 * x == n as real * pct;
    var c := Ceil(x);
    assert c as real >= x && (c - 1) as real < x;
  }

  lemma ShareUnique(j: nat, k: nat, n: nat, pct: real)
    requires IsShare(j, n, pct) && IsShare(k, n, pct)
    ensures j == k
  {
  }

  function Winners(cands: seq<Block>, picks: seq<nat>): (ws: seq<Block>)
    requires forall i :: 0 <= i < |picks| ==> picks[i] < |cands|
    ensures |ws| == |picks|
  {
    seq(|picks|, i requires 0 <= i < |picks| => cands[picks[i]])
  }

  function InsertById(ws: seq<Block>, w: Block): seq<Block> {
    if ws == [] || ws[|ws|-1].bid <= w.bid then ws + [w]
    else InsertById(ws[..|ws|-1], w) + [ws[|ws|-1]]
  }

  /** `sorted(top_bids, key=bid)` */
  function SortById(ws: seq<Block>): seq<Block> {
    if ws == [] then [] else InsertById(SortById(ws[..|ws|-1]), ws[|ws|-1])
  }

  function PageOf<T>(p: Params, store: Store<T>, l: int, bid: nat, pad: T): seq<T> {
    if (l, bid) in store then store[(l, bid)] else seq(p.perBlock, _ => pad)
  }

  /** The valid rows of the blocks, one block after the other. */
  function Rows<T>(p: Params, store: Store<T>, l: int, bs: seq<Block>, pad: T): seq<T> {
    if bs == [] then []
    else
      var b := bs[|bs|-1];
      var page := PageOf(p, store, l, b.bid, pad);
      Rows(p, store, l, bs[..|bs|-1], pad) + page[..Min(b.count, |page|)]
  }

  /** `select_and_fetch_active_state`: sinks, the selected blocks in id order, the recent window. */
  function Active<T>(p: Params, store: Store<T>, l: int, ld: Layer<T>, scores: seq<real>, k: nat, pad: T): seq<T>
    requires |scores| == |ld.cands|
  {
    ld.sink + Rows(p, store, l, SortById(Winners(ld.cands, Picks(scores, k))), pad) + ld.recent
  }

  // ------------------------------------------------------------------ blocks in the store

  /** The block `i` of a history of `len` tokens. */
  function BlockAt(p: Params, len: nat, i: nat): Block
    requires p.perBlock > 0 && Start(p, i) <= len
  {
    Block(i, Min(p.perBlock, len - Start(p, i)))
  }

  function Start(p: Params, bid: nat): nat { bid * p.perBlock }

  lemma StartNext(p: Params, bid: nat)
    ensures Start(p, bid + 1) == Start(p, bid) + p.perBlock
  {
  }

  lemma {:induction false} BlocksFromAt(p: Params, bid: nat, start: nat, len: nat, i: nat)
    requires p.perBlock > 0 && start <= len && (start < len ==> start == Start(p, bid))
    requires i < |BlocksFrom(p, bid, start, len)|
    ensures Start(p, bid + i) < len && BlocksFrom(p, bid, start, len)[i] == BlockAt(p, len, bid + i)
    decreases i
  {
    if i > 0 {
      StartNext(p, bid);
      BlocksFromAt(p, bid + 1, Min(start + p.perBlock, len), len, i - 1);
    }
  }

  /** The last block reaches exactly to the end. */
  lemma {:induction false} BlocksFromEnd(p: Params, bid: nat, start: nat, len: nat)
    requires p.perBlock > 0 && start < len && start == Start(p, bid)
    ensures var bs := BlocksFrom(p, bid, start, len);
      bs != [] && Start(p, bid + |bs| - 1) + bs[|bs|-1].count == len
    decreases len - start
  {
    var end := Min(start + p.perBlock, len);
    StartNext(p, bid);
    if end < len {
      BlocksFromEnd(p, bid + 1, end, len);
    }
  }

  lemma {:induction false} WriteFromOnly<T>(p: Params, l: int, bid: nat, hist: seq<T>, start: nat, pad: T,
                                            store: Store<T>, key: (int, nat))
    requires p.perBlock > 0 && start <= |hist|
    requires key.0 != l || key.1 < bid
    ensures var s := WriteFrom(p, l, bid, hist, start, pad, store);
      (key in s <==> key in store) && (key in s ==> s[key] == store[key])
    decreases |hist| - start
  {
    if start < |hist| {
      var end := Min(start + p.perBlock, |hist|);
      WriteFromOnly(p, l, bid + 1, hist, end, pad, store[(l, bid) := Padded(p, hist, start, end, pad)], key);
    }
  }

  /** Every block is stored under its id, padded. */
  lemma {:induction false} WriteFromAt<T>(p: Params, l: int, bid: nat, hist: seq<T>, start: nat, pad: T,
                                          store: Store<T>, i: nat)
    requires p.perBlock > 0 && start <= |hist| && (start < |hist| ==> start == Start(p, bid))
    requires i < |BlocksFrom(p, bid, start, |hist|)|
    ensures var s, from := WriteFrom(p, l, bid, hist, start, pad, store), Start(p, bid + i);
      && from < |hist|
      && (l, bid + i) in s
      && s[(l, bid + i)] == Padded(p, hist, from, Min(from + p.perBlock, |hist|), pad)
    decreases i
  {
    var end := Min(start + p.perBlock, |hist|);
    var next := store[(l, bid) := Padded(p, hist, start, end, pad)];
    if i == 0 {
      WriteFromOnly(p, l, bid + 1, hist, end, pad, next, (l, bid));
    } else {
      StartNext(p, bid);
      WriteFromAt(p, l, bid + 1, hist, end, pad, next, i - 1);
    }
  }
}

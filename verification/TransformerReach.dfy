/**
 Which positions the active state of the transformer KV provider holds, after prefill and any number
 of appended tokens: exactly which ones are out of reach, in which order the others come, and when
 a full selection gives back the whole sequence.
 */
module TransformerReach {
  import opened Arithmetic
  import opened Sequences
  import opened Sums
  import R = Ranking
  import opened Selection
  import opened Softmax
  import opened TransformerState

  // ------------------------------------------------------------------ positions

  /** The positions of the valid rows of the blocks, after `sink` tokens. */
  function BlockPositions(p: Params, bs: seq<Block>): seq<nat> {
    if bs == [] then []
    else
      var b := bs[|bs|-1];
      BlockPositions(p, bs[..|bs|-1]) + Range(p.sink + Start(p, b.bid), p.sink + Start(p, b.bid) + b.count)
  }

  /**
   How many tokens the recent window holds, after a prefill of `n` and `m` appended tokens: a slice
   `[-0:]` has made it the whole prefill.
   */
  function Window(p: Params, n: nat, m: nat): nat {
    if Short(p, n) then (if m == 0 then 0 else 1) else if p.recent == 0 then n else p.recent
  }

  function SinkSize(p: Params, n: nat): nat {
    if Short(p, n) then n else p.sink
  }

  /** The positions of the active state with the blocks `ws` selected. */
  function ActivePositions(p: Params, n: nat, m: nat, ws: seq<Block>): seq<nat> {
    Range(0, SinkSize(p, n)) + BlockPositions(p, ws) + Range(n + m - Window(p, n, m), n + m)
  }

  predicate Inside(pos: seq<nat>, n: nat) {
    forall i :: 0 <= i < |pos| ==> pos[i] < n
  }

  function Gather<T>(xs: seq<T>, pos: seq<nat>): (r: seq<T>)
    requires Inside(pos, |xs|)
    ensures |r| == |pos|
  {
    seq(|pos|, i requires 0 <= i < |pos| => xs[pos[i]])
  }

  lemma GatherConcat<T>(xs: seq<T>, a: seq<nat>, b: seq<nat>)
    requires Inside(a, |xs|) && Inside(b, |xs|)
    ensures Inside(a + b, |xs|) && Gather(xs, a + b) == Gather(xs, a) + Gather(xs, b)
  {
  }

  lemma GatherRange<T>(xs: seq<T>, from: nat, to: nat)
    requires from <= to <= |xs|
    ensures Inside(Range(from, to), |xs|) && Gather(xs, Range(from, to)) == xs[from..to]
  {
  }

  // ------------------------------------------------------------------ blocks of a history

  /** A block as prefill makes it out of `h` historical tokens. */
  predicate OfHistory(p: Params, h: nat, b: Block)
    requires p.perBlock > 0
  {
    Start(p, b.bid) < h && b == BlockAt(p, h, b.bid)
  }

  predicate AllOfHistory(p: Params, h: nat, bs: seq<Block>)
    requires p.perBlock > 0
  {
    forall i :: 0 <= i < |bs| ==> OfHistory(p, h, bs[i])
  }

  predicate IdsAscend(bs: seq<Block>) {
    forall i, j :: 0 <= i < j < |bs| ==> bs[i].bid < bs[j].bid
  }

  lemma CandsOfHistory(p: Params, h: nat)
    requires p.perBlock > 0
    ensures var bs := BlocksFrom(p, 0, 0, h);
      AllOfHistory(p, h, bs) && IdsAscend(bs) && forall i :: 0 <= i < |bs| ==> bs[i].bid == i
  {
    var bs := BlocksFrom(p, 0, 0, h);
    assert Start(p, 0) == 0;
    forall i | 0 <= i < |bs| ensures OfHistory(p, h, bs[i]) && bs[i].bid == i {
      BlocksFromAt(p, 0, 0, h, i);
      assert 0 + i == i;
    }
  }

  /** The stored page of a block, cut to its valid rows, is the block's part of the history. */
  lemma PageIsSlice<T>(p: Params, l: int, hist: seq<T>, pad: T, store: Store<T>, b: Block)
    requires p.perBlock > 0 && OfHistory(p, |hist|, b) && b in BlocksFrom(p, 0, 0, |hist|)
    ensures var page := PageOf(p, WriteFrom(p, l, 0, hist, 0, pad, store), l, b.bid, pad);
      && Start(p, b.bid) + b.count <= |hist|
      && page[..Min(b.count, |page|)] == hist[Start(p, b.bid)..Start(p, b.bid) + b.count]
      && |page| == p.perBlock && forall r :: b.count <= r < |page| ==> page[r] == pad
  {
    CandsOfHistory(p, |hist|);
    var i :| 0 <= i < |BlocksFrom(p, 0, 0, |hist|)| && BlocksFrom(p, 0, 0, |hist|)[i] == b;
    assert Start(p, 0) == 0 && 0 + i == i == b.bid;
    WriteFromAt(p, l, 0, hist, 0, pad, store, i);
  }

  lemma FromHistory(p: Params, h: nat, b: Block)
    requires p.perBlock > 0 && b in BlocksFrom(p, 0, 0, h)
    ensures OfHistory(p, h, b)
  {
    CandsOfHistory(p, h);
    var i :| 0 <= i < |BlocksFrom(p, 0, 0, h)| && BlocksFrom(p, 0, 0, h)[i] == b;
  }

  /** The valid rows of one block are the tokens of the stream at its positions. */
  lemma BlockIsGathered<T>(p: Params, l: int, toks: seq<T>, more: seq<T>, pad: T, store: Store<T>, b: Block)
    requires p.perBlock > 0 && !Short(p, |toks|)
    requires b in BlocksFrom(p, 0, 0, |History(p, toks)|)
    ensures var page, pos := PageOf(p, InitStore(p, l, toks, pad, store), l, b.bid, pad),
                             Range(p.sink + Start(p, b.bid), p.sink + Start(p, b.bid) + b.count);
      && Inside(pos, |toks + more|)
      && page[..Min(b.count, |page|)] == Gather(toks + more, pos)
  {
    var hist := History(p, toks);
    FromHistory(p, |hist|, b);
    PageIsSlice(p, l, hist, pad, store, b);
    assert InitStore(p, l, toks, pad, store) == WriteFrom(p, l, 0, hist, 0, pad, store);
    var from, to := Start(p, b.bid), Start(p, b.bid) + b.count;
    SliceIsGathered(toks, more, p.sink, |toks| - p.recent, from, to);
  }

  lemma SliceIsGathered<T>(toks: seq<T>, more: seq<T>, lo: nat, hi: nat, from: nat, to: nat)
    requires lo <= hi <= |toks| && from <= to <= hi - lo
    ensures Inside(Range(lo + from, lo + to), |toks + more|)
    ensures toks[lo..hi][from..to] == Gather(toks + more, Range(lo + from, lo + to))
  {
    SliceOfSlice(toks, more, lo, hi, from, to);
    GatherRange(toks + more, lo + from, lo + to);
  }

  lemma SliceOfSlice<T>(toks: seq<T>, more: seq<T>, lo: nat, hi: nat, from: nat, to: nat)
    requires lo <= hi <= |toks| && from <= to <= hi - lo
    ensures toks[lo..hi][from..to] == (toks + more)[lo + from..lo + to]
  {
    forall i | 0 <= i < to - from ensures toks[lo..hi][from..to][i] == (toks + more)[lo + from..lo + to][i] {
      assert toks[lo..hi][from + i] == toks[lo + from + i];
    }
  }

  lemma {:induction false} RowsAreGathered<T>(p: Params, l: int, toks: seq<T>, more: seq<T>, pad: T, store: Store<T>,
                                              ws: seq<Block>)
    requires p.perBlock > 0 && !Short(p, |toks|)
    requires forall i :: 0 <= i < |ws| ==> ws[i] in BlocksFrom(p, 0, 0, |History(p, toks)|)
    ensures Gathered(p, InitStore(p, l, toks, pad, store), l, toks + more, pad, ws)
  {
    if ws != [] {
      var b := ws[|ws|-1];
      RowsAreGathered(p, l, toks, more, pad, store, ws[..|ws|-1]);
      BlockIsGathered(p, l, toks, more, pad, store, b);
      GatheredNext(p, InitStore(p, l, toks, pad, store), l, toks + more, pad, ws);
    }
  }

  /** The pages of the blocks hold the stream at the blocks' positions. */
  predicate Gathered<T(==)>(p: Params, store: Store<T>, l: int, stream: seq<T>, pad: T, ws: seq<Block>) {
    Inside(BlockPositions(p, ws), |stream|) && Rows(p, store, l, ws, pad) == Gather(stream, BlockPositions(p, ws))
  }

  lemma GatheredNext<T>(p: Params, store: Store<T>, l: int, stream: seq<T>, pad: T, ws: seq<Block>)
    requires ws != [] && Gathered(p, store, l, stream, pad, ws[..|ws|-1])
    requires var b := ws[|ws|-1];
      var page, pos := PageOf(p, store, l, b.bid, pad),
                       Range(p.sink + Start(p, b.bid), p.sink + Start(p, b.bid) + b.count);
      Inside(pos, |stream|) && page[..Min(b.count, |page|)] == Gather(stream, pos)
    ensures Gathered(p, store, l, stream, pad, ws)
  {
    var b := ws[|ws|-1];
    GatherConcat(stream, BlockPositions(p, ws[..|ws|-1]),
                 Range(p.sink + Start(p, b.bid), p.sink + Start(p, b.bid) + b.count));
  }

  // ------------------------------------------------------------------ appends

  /** The recent window after appends: the last tokens of the old window and the new ones, at least one. */
  lemma {:induction false} RecentAfter<T>(ld: Layer<T>, ts: seq<T>)
    ensures var r, all := AppendAll(ld, ts), ld.recent + ts;
      && r.sink == ld.sink && r.cands == ld.cands && r.total == ld.total + |ts|
      && var w := if ts == [] || |ld.recent| >= 1 then |ld.recent| else 1;
      && w <= |all|
      && r.recent == all[|all| - w..]
  {
    if ts == [] {
      assert ld.recent + [] == ld.recent;
    } else {
      var n := |ts| - 1;
      RecentAfter(ld, ts[..n]);
      assert ld.recent + ts == ld.recent + ts[..n] + [ts[n]];
    }
  }

  /**
   The recent window is the end of the stream: after a long prefill the last `recent` tokens, or as many
   as were prefilled if that is none; after a short one only the last appended token.
   */
  lemma RecentIsTail<T>(p: Params, toks: seq<T>, ts: seq<T>)
    requires p.perBlock > 0
    ensures var ld, stream, w := AppendAll(Init(p, toks), ts), toks + ts, Window(p, |toks|, |ts|);
      && w <= |stream| && ld.recent == stream[|stream| - w..]
      && ld.sink == toks[..SinkSize(p, |toks|)] && ld.cands == Init(p, toks).cands && ld.total == |stream|
  {
    RecentAfter(Init(p, toks), ts);
    if Short(p, |toks|) {
      assert toks[..|toks|] == toks;
      assert Init(p, toks).recent == [];
      TailOfStream(toks, [], ts, toks + ts, Window(p, |toks|, |ts|));
    } else {
      LongTail(p, toks, ts);
    }
  }

  lemma LongTail<T>(p: Params, toks: seq<T>, ts: seq<T>)
    requires p.perBlock > 0 && !Short(p, |toks|)
    ensures var recent, w := Init(p, toks).recent, Window(p, |toks|, |ts|);
      w == |recent| > 0 && EndsAlike(recent + ts, toks + ts, w)
  {
    var recent := Init(p, toks).recent;
    var before := toks[..|toks| - |recent|];
    assert toks == before + recent;
    TailOfStream(before, recent, ts, toks + ts, |recent|);
  }

  predicate EndsAlike<T(==)>(all: seq<T>, stream: seq<T>, w: nat) {
    w <= |all| && w <= |stream| && all[|all| - w..] == stream[|stream| - w..]
  }

  lemma TailOfStream<T>(before: seq<T>, recent: seq<T>, ts: seq<T>, stream: seq<T>, w: nat)
    requires w <= |recent + ts| && stream == before + recent + ts
    ensures EndsAlike(recent + ts, stream, w)
  {
    assert stream == before + (recent + ts);
  }

  // ------------------------------------------------------------------ sorting by id

  lemma {:induction false} InsertByIdMultiset(ws: seq<Block>, w: Block)
    ensures multiset(InsertById(ws, w)) == multiset(ws) + multiset{w}
  {
    if ws != [] && ws[|ws|-1].bid > w.bid {
      var n := |ws| - 1;
      InsertByIdMultiset(ws[..n], w);
      assert ws == ws[..n] + [ws[n]];
    }
  }

  lemma {:induction false} InsertByIdAscends(ws: seq<Block>, w: Block)
    requires IdsAscend(ws) && forall i :: 0 <= i < |ws| ==> ws[i].bid != w.bid
    ensures IdsAscend(InsertById(ws, w))
  {
    if ws != [] && ws[|ws|-1].bid > w.bid {
      var n := |ws| - 1;
      InsertByIdAscends(ws[..n], w);
      InsertedBelow(ws[..n], w, ws[n].bid);
    }
  }

  lemma InsertedBelow(ws: seq<Block>, w: Block, bound: nat)
    requires w.bid < bound && forall i :: 0 <= i < |ws| ==> ws[i].bid < bound
    ensures forall i :: 0 <= i < |InsertById(ws, w)| ==> InsertById(ws, w)[i].bid < bound
  {
    var r := InsertById(ws, w);
    InsertByIdMultiset(ws, w);
    forall i | 0 <= i < |r| ensures r[i].bid < bound {
      assert r[i] in multiset(r);
    }
  }

  predicate DistinctIds(ws: seq<Block>) {
    forall i, j :: 0 <= i < j < |ws| ==> ws[i].bid != ws[j].bid
  }

  lemma {:induction false} SortByIdFacts(ws: seq<Block>)
    ensures multiset(SortById(ws)) == multiset(ws)
    ensures DistinctIds(ws) ==> IdsAscend(SortById(ws))
  {
    if ws != [] {
      var n := |ws| - 1;
      SortByIdFacts(ws[..n]);
      var s := SortById(ws[..n]);
      InsertByIdMultiset(s, ws[n]);
      assert ws == ws[..n] + [ws[n]];
      if DistinctIds(ws) {
        LastIsNew(ws, s);
        InsertByIdAscends(s, ws[n]);
      }
    }
  }

  lemma LastIsNew(ws: seq<Block>, s: seq<Block>)
    requires ws != [] && DistinctIds(ws) && multiset(s) == multiset(ws[..|ws|-1])
    ensures forall i :: 0 <= i < |s| ==> s[i].bid != ws[|ws|-1].bid
  {
    var n := |ws| - 1;
    forall i | 0 <= i < |s| ensures s[i].bid != ws[n].bid {
      assert s[i] in multiset(ws[..n]);
      var j :| 0 <= j < n && ws[..n][j] == s[i];
    }
  }

  lemma SameLast(a: seq<Block>, b: seq<Block>)
    requires IdsAscend(a) && IdsAscend(b) && |a| == |b| > 0
    requires forall x :: x in a <==> x in b
    ensures a[|a|-1] == b[|b|-1]
  {
    var n := |a| - 1;
    assert a[n] in b && b[n] in a;
    var i :| 0 <= i <= n && b[i] == a[n];
    var j :| 0 <= j <= n && a[j] == b[n];
  }

  /** Ids in ascending order and the same blocks: the same list. */
  lemma {:induction false} AscendUnique(a: seq<Block>, b: seq<Block>)
    requires IdsAscend(a) && IdsAscend(b) && |a| == |b|
    requires forall x :: x in a <==> x in b
    ensures a == b
  {
    if a != [] {
      var n := |a| - 1;
      SameLast(a, b);
      forall x ensures x in a[..n] <==> x in b[..n] {
        InitMember(a, x);
        InitMember(b, x);
      }
      AscendUnique(a[..n], b[..n]);
      assert a == a[..n] + [a[n]] && b == b[..n] + [b[n]];
    }
  }

  lemma InitMember(a: seq<Block>, x: Block)
    requires IdsAscend(a) && a != []
    ensures x in a[..|a|-1] <==> x in a && x != a[|a|-1]
  {
    if x in a && x != a[|a|-1] {
      var i :| 0 <= i < |a| && a[i] == x;
      assert a[..|a|-1][i] == x;
    }
  }

  /** With scores above -1e30 the winners are different blocks. */
  lemma WinnersDistinct(cands: seq<Block>, scores: seq<real>, k: nat)
    requires IdsAscend(cands) && |scores| == |cands|
    requires forall i :: 0 <= i < |scores| ==> scores[i] > MIN_LOGIT
    ensures DistinctIds(Winners(cands, Picks(scores, k)))
  {
    PicksAreBest(scores, k);
    var picks, ws := Picks(scores, k), Winners(cands, Picks(scores, k));
    forall i, j | 0 <= i < j < |ws| ensures ws[i].bid != ws[j].bid {
      assert R.Precedes(scores, picks[i], picks[j]);
    }
  }

  lemma WinnersMultiset(cands: seq<Block>, a: seq<nat>, b: seq<nat>)
    requires forall i :: 0 <= i < |a| ==> a[i] < |cands|
    requires forall i :: 0 <= i < |b| ==> b[i] < |cands|
    requires multiset(a) == multiset(b)
    ensures multiset(Winners(cands, a)) == multiset(Winners(cands, b))
  {
    var f := (i: nat) => if i < |cands| then cands[i] else Block(0, 0);
    assert Winners(cands, a) == Map(f, a) && Winners(cands, b) == Map(f, b);
    MapMultiset(f, a, b);
  }

  /** A complete pick rearranges the candidate list. */
  lemma FullPick(cands: seq<Block>, scores: seq<real>, k: nat)
    requires |scores| == |cands| && k >= |cands|
    requires forall i :: 0 <= i < |scores| - 1 ==> scores[i] > MIN_LOGIT
    ensures multiset(Winners(cands, Picks(scores, k))) == multiset(cands)
  {
    var n := |cands|;
    if n > 0 {
      PicksCompleteIff(scores, k);
      WinnersMultiset(cands, Picks(scores, k), R.Indices(n));
    }
    assert Winners(cands, R.Indices(n)) == cands;
  }

  /** A complete selection, sorted by id, is the candidate list. */
  lemma FullSelection(cands: seq<Block>, scores: seq<real>, k: nat)
    requires IdsAscend(cands) && |scores| == |cands| && k >= |cands|
    requires forall i :: 0 <= i < |scores| - 1 ==> scores[i] > MIN_LOGIT
    ensures SortById(Winners(cands, Picks(scores, k))) == cands
  {
    FullPick(cands, scores, k);
    SortRearranged(Winners(cands, Picks(scores, k)), cands);
  }

  lemma SortRearranged(ws: seq<Block>, cands: seq<Block>)
    requires multiset(ws) == multiset(cands) && IdsAscend(cands)
    ensures SortById(ws) == cands
  {
    SortByIdFacts(ws);
    SameIdsDistinct(ws, cands);
    var sorted := SortById(ws);
    assert forall x :: x in sorted <==> x in multiset(sorted);
    assert forall x :: x in cands <==> x in multiset(cands);
    assert |sorted| == |multiset(sorted)| == |multiset(cands)| == |cands|;
    AscendUnique(sorted, cands);
  }

  /** A rearrangement of blocks with different ids has different ids. */
  lemma SameIdsDistinct(ws: seq<Block>, cands: seq<Block>)
    requires multiset(ws) == multiset(cands) && IdsAscend(cands)
    ensures DistinctIds(ws)
  {
    forall i, j | 0 <= i < j < |ws| ensures ws[i].bid != ws[j].bid {
      assert ws[i] in multiset(cands) && ws[j] in multiset(cands);
      var a :| 0 <= a < |cands| && cands[a] == ws[i];
      var b :| 0 <= b < |cands| && cands[b] == ws[j];
      if a == b {
        TwiceInSeq(ws, i, j);
        OnceInAscending(cands, a);
        assert false;
      }
      assert a < b || b < a;
    }
  }

  lemma TwiceInSeq(ws: seq<Block>, i: nat, j: nat)
    requires i < j < |ws| && ws[i] == ws[j]
    ensures multiset(ws)[ws[i]] >= 2
  {
    assert ws == ws[..i] + [ws[i]] + ws[i+1..j] + [ws[j]] + ws[j+1..];
  }

  lemma OnceInAscending(cands: seq<Block>, a: nat)
    requires IdsAscend(cands) && a < |cands|
    ensures multiset(cands)[cands[a]] == 1
  {
    assert cands == cands[..a] + [cands[a]] + cands[a+1..];
    assert cands[a] !in cands[..a] && cands[a] !in cands[a+1..];
  }

  // ------------------------------------------------------------------ the active state

  lemma {:induction false} SortedMembers(ws: seq<Block>, cands: seq<Block>)
    requires forall i :: 0 <= i < |ws| ==> ws[i] in cands
    ensures forall i :: 0 <= i < |SortById(ws)| ==> SortById(ws)[i] in cands
  {
    SortByIdFacts(ws);
    var r := SortById(ws);
    forall i | 0 <= i < |r| ensures r[i] in cands {
      assert r[i] in multiset(ws);
    }
  }

  /** The candidate blocks after a prefill of `n` tokens. */
  function Cands(p: Params, n: nat): seq<Block>
    requires p.perBlock > 0
  {
    if Short(p, n) then [] else BlocksFrom(p, 0, 0, n - p.sink - p.recent)
  }

  /** Blocks as a selection returns them. */
  predicate FromCands(p: Params, n: nat, ws: seq<Block>)
    requires p.perBlock > 0
  {
    forall i :: 0 <= i < |ws| ==> ws[i] in Cands(p, n)
  }

  function Selected(cands: seq<Block>, scores: seq<real>, k: nat): seq<Block>
    requires |scores| == |cands|
  {
    SortById(Winners(cands, Picks(scores, k)))
  }

  lemma SelectedMembers(cands: seq<Block>, scores: seq<real>, k: nat)
    requires |scores| == |cands|
    ensures forall i :: 0 <= i < |Selected(cands, scores, k)| ==> Selected(cands, scores, k)[i] in cands
    ensures |Selected(cands, scores, k)| <= k
  {
    var won := Winners(cands, Picks(scores, k));
    SortedMembers(won, cands);
    SortByIdFacts(won);
    assert |SortById(won)| == |multiset(SortById(won))| == |multiset(won)| == |won|;
  }

  /** What is selected goes before what is not: by score, and among equal scores the earlier candidate. */
  lemma BestAreSelected(cands: seq<Block>, scores: seq<real>, k: nat, i: nat, j: nat)
    requires |scores| == |cands| && IdsAscend(cands) && forall x :: 0 <= x < |scores| ==> scores[x] > MIN_LOGIT
    requires i < |cands| && j < |cands|
    requires cands[i] in Selected(cands, scores, k) && cands[j] !in Selected(cands, scores, k)
    ensures scores[i] > scores[j] || (scores[i] == scores[j] && i < j)
  {
    var picks := Picks(scores, k);
    var won := Winners(cands, picks);
    SortByIdFacts(won);
    SameMembers(SortById(won), won);
    var a :| 0 <= a < |won| && won[a] == cands[i];
    SameBlock(cands, picks[a], i);
    NotPicked(cands, picks, j);
    PickedBeatUnpicked(scores, k, a, j);
  }

  lemma SameBlock(cands: seq<Block>, i: nat, j: nat)
    requires IdsAscend(cands) && i < |cands| && j < |cands| && cands[i] == cands[j]
    ensures i == j
  {
  }

  lemma NotPicked(cands: seq<Block>, picks: seq<nat>, j: nat)
    requires forall i :: 0 <= i < |picks| ==> picks[i] < |cands|
    requires j < |cands| && cands[j] !in Winners(cands, picks)
    ensures j !in picks
  {
    forall b | 0 <= b < |picks| ensures picks[b] != j {
      assert Winners(cands, picks)[b] == cands[picks[b]];
    }
  }

  lemma SameMembers(a: seq<Block>, b: seq<Block>)
    requires multiset(a) == multiset(b)
    ensures forall x :: x in a <==> x in b
  {
    forall x ensures x in a <==> x in b {
      assert x in a <==> x in multiset(a);
    }
  }

  lemma SelectedCount(cands: seq<Block>, scores: seq<real>, k: nat)
    requires |scores| == |cands|
    ensures |Selected(cands, scores, k)| == Min(k, |cands|)
  {
    var won := Winners(cands, Picks(scores, k));
    SortByIdFacts(won);
    assert |SortById(won)| == |multiset(SortById(won))| == |multiset(won)| == |won|;
  }

  /**
   The active state holds the sinks, the rows of the selected blocks and the window, where as many blocks are
   selected as the share asks for, or all of them.
   */
  ghost predicate HoldsShare<T>(p: Params, store: Store<T>, l: int, ld: Layer<T>, scores: seq<real>, pct: real, pad: T,
                                active: seq<T>) {
    && |scores| == |ld.cands|
    && exists k: nat ::
         && IsShare(k, |ld.cands|, pct) && |Selected(ld.cands, scores, k)| == Min(k, |ld.cands|)
         && active == ld.sink + Rows(p, store, l, Selected(ld.cands, scores, k), pad) + ld.recent
  }

  lemma ActiveHoldsShare<T>(p: Params, store: Store<T>, l: int, ld: Layer<T>, scores: seq<real>, pct: real, pad: T)
    requires |scores| == |ld.cands|
    ensures HoldsShare(p, store, l, ld, scores, pct, pad,
                       Active(p, store, l, ld, scores, KVal(|ld.cands|, pct), pad))
  {
    KValIsShare(|ld.cands|, pct);
    SelectedCount(ld.cands, scores, KVal(|ld.cands|, pct));
  }

  lemma SelectedAscends(cands: seq<Block>, scores: seq<real>, k: nat)
    requires |scores| == |cands| && IdsAscend(cands)
    requires forall i :: 0 <= i < |scores| ==> scores[i] > MIN_LOGIT
    ensures IdsAscend(Selected(cands, scores, k))
  {
    WinnersDistinct(cands, scores, k);
    SortByIdFacts(Winners(cands, Picks(scores, k)));
  }

  lemma CandsAscend(p: Params, n: nat)
    requires p.perBlock > 0
    ensures IdsAscend(Cands(p, n))
  {
    if !Short(p, n) { CandsOfHistory(p, n - p.sink - p.recent); }
  }

  lemma FromCandsOfHistory(p: Params, n: nat, ws: seq<Block>)
    requires p.perBlock > 0 && FromCands(p, n, ws)
    ensures if Short(p, n) then ws == [] else AllOfHistory(p, n - p.sink - p.recent, ws)
  {
    assert ws == [] || ws[0] in Cands(p, n);
    if !Short(p, n) {
      var h, cands := n - p.sink - p.recent, Cands(p, n);
      CandsOfHistory(p, h);
      forall i | 0 <= i < |ws| ensures OfHistory(p, h, ws[i]) {
        assert ws[i] in cands;
        var j :| 0 <= j < |cands| && cands[j] == ws[i];
      }
    }
  }

  /** Sinks, the rows of any blocks and the recent window are the tokens of the stream at `ActivePositions`. */
  lemma PartsAreGathered<T>(p: Params, l: int, toks: seq<T>, ts: seq<T>, store: Store<T>, ws: seq<Block>, pad: T)
    requires p.perBlock > 0
    requires FromCands(p, |toks|, ws)
    ensures var ld, stream, pos := AppendAll(Init(p, toks), ts), toks + ts, ActivePositions(p, |toks|, |ts|, ws);
      && Inside(pos, |stream|)
      && ld.sink + Rows(p, InitStore(p, l, toks, pad, store), l, ws, pad) + ld.recent == Gather(stream, pos)
  {
    var stream, n, m := toks + ts, |toks|, |ts|;
    EndsAreGathered(p, toks, ts);
    MiddleIsGathered(p, l, toks, ts, store, ws, pad);
    var ld := AppendAll(Init(p, toks), ts);
    Assemble(p, n, m, ws, stream, ld.sink, Rows(p, InitStore(p, l, toks, pad, store), l, ws, pad), ld.recent);
  }

  lemma Assemble<T>(p: Params, n: nat, m: nat, ws: seq<Block>, xs: seq<T>, x: seq<T>, y: seq<T>, z: seq<T>)
    requires Window(p, n, m) <= n + m
    requires var a, b, c := Range(0, SinkSize(p, n)), BlockPositions(p, ws), Range(n + m - Window(p, n, m), n + m);
      && Inside(a, |xs|) && Inside(b, |xs|) && Inside(c, |xs|)
      && x == Gather(xs, a) && y == Gather(xs, b) && z == Gather(xs, c)
    ensures var pos := ActivePositions(p, n, m, ws); Inside(pos, |xs|) && x + y + z == Gather(xs, pos)
  {
    GatherThree(xs, Range(0, SinkSize(p, n)), BlockPositions(p, ws), Range(n + m - Window(p, n, m), n + m));
  }

  lemma EndsAreGathered<T>(p: Params, toks: seq<T>, ts: seq<T>)
    requires p.perBlock > 0
    ensures var ld, stream, n, m := AppendAll(Init(p, toks), ts), toks + ts, |toks|, |ts|;
      var w := Window(p, n, m);
      && Inside(Range(0, SinkSize(p, n)), |stream|) && ld.sink == Gather(stream, Range(0, SinkSize(p, n)))
      && w <= n + m
      && Inside(Range(n + m - w, n + m), |stream|) && ld.recent == Gather(stream, Range(n + m - w, n + m))
  {
    RecentIsTail(p, toks, ts);
    StartIsGathered(toks, ts, SinkSize(p, |toks|));
    EndIsGathered(toks + ts, Window(p, |toks|, |ts|));
  }

  lemma StartIsGathered<T>(toks: seq<T>, ts: seq<T>, s: nat)
    requires s <= |toks|
    ensures Inside(Range(0, s), |toks + ts|) && toks[..s] == Gather(toks + ts, Range(0, s))
  {
    GatherRange(toks + ts, 0, s);
    assert (toks + ts)[0..s] == toks[..s];
  }

  lemma EndIsGathered<T>(xs: seq<T>, w: nat)
    requires w <= |xs|
    ensures Inside(Range(|xs| - w, |xs|), |xs|) && xs[|xs| - w..] == Gather(xs, Range(|xs| - w, |xs|))
  {
    GatherRange(xs, |xs| - w, |xs|);
    assert xs[|xs| - w..|xs|] == xs[|xs| - w..];
  }

  lemma MiddleIsGathered<T>(p: Params, l: int, toks: seq<T>, ts: seq<T>, store: Store<T>, ws: seq<Block>, pad: T)
    requires p.perBlock > 0 && FromCands(p, |toks|, ws)
    ensures Inside(BlockPositions(p, ws), |toks + ts|)
    ensures Rows(p, InitStore(p, l, toks, pad, store), l, ws, pad) == Gather(toks + ts, BlockPositions(p, ws))
  {
    if Short(p, |toks|) {
      FromCandsOfHistory(p, |toks|, ws);
    } else {
      RowsAreGathered(p, l, toks, ts, pad, store, ws);
    }
  }

  lemma GatherThree<T>(xs: seq<T>, a: seq<nat>, b: seq<nat>, c: seq<nat>)
    requires Inside(a, |xs|) && Inside(b, |xs|) && Inside(c, |xs|)
    ensures Inside(a + b + c, |xs|) && Gather(xs, a + b + c) == Gather(xs, a) + Gather(xs, b) + Gather(xs, c)
  {
    GatherConcat(xs, a, b);
    GatherConcat(xs, a + b, c);
  }

  /** So it is for the active state, whatever the scores and the number of blocks asked for. */
  lemma ActiveIsGathered<T>(p: Params, l: int, toks: seq<T>, ts: seq<T>, store: Store<T>, scores: seq<real>, k: nat,
                            pad: T)
    requires p.perBlock > 0
    requires |scores| == |Cands(p, |toks|)|
    ensures var ld, stream := AppendAll(Init(p, toks), ts), toks + ts;
      var pos := ActivePositions(p, |toks|, |ts|, Selected(Cands(p, |toks|), scores, k));
      && ld.cands == Cands(p, |toks|)
      && Inside(pos, |stream|)
      && Active(p, InitStore(p, l, toks, pad, store), l, ld, scores, k, pad) == Gather(stream, pos)
  {
    RecentIsTail(p, toks, ts);
    InitCands(p, toks);
    SelectedMembers(Cands(p, |toks|), scores, k);
    PartsAreGathered(p, l, toks, ts, store, Selected(Cands(p, |toks|), scores, k), pad);
  }

  lemma InitCands<T>(p: Params, toks: seq<T>)
    requires p.perBlock > 0
    ensures Init(p, toks).cands == Cands(p, |toks|)
  {
  }

  predicate Ascending(pos: seq<nat>) {
    forall i, j :: 0 <= i < j < |pos| ==> pos[i] < pos[j]
  }

  predicate Between(pos: seq<nat>, lo: nat, hi: nat) {
    forall i :: 0 <= i < |pos| ==> lo <= pos[i] < hi
  }

  lemma AscendingJoin(a: seq<nat>, b: seq<nat>, lo: nat, mid: nat, hi: nat)
    requires lo <= mid <= hi
    requires Ascending(a) && Ascending(b) && Between(a, lo, mid) && Between(b, mid, hi)
    ensures Ascending(a + b) && Between(a + b, lo, hi)
  {
  }

  lemma StartsAscend(p: Params, a: nat, b: nat)
    requires a < b
    ensures Start(p, a) + p.perBlock <= Start(p, b)
  {
    StartNext(p, a);
    MulMonotone(a + 1, b, p.perBlock);
  }

  /** The first position after the sinks and those blocks. */
  function EndOf(p: Params, ws: seq<Block>): nat {
    p.sink + if ws == [] then 0 else Start(p, ws[|ws|-1].bid) + ws[|ws|-1].count
  }

  /** The next block starts where the ones before have ended, or later. */
  lemma NextBlock(p: Params, h: nat, bs: seq<Block>)
    requires p.perBlock > 0 && AllOfHistory(p, h, bs) && IdsAscend(bs) && bs != []
    ensures EndOf(p, bs[..|bs|-1]) <= p.sink + Start(p, bs[|bs|-1].bid) <= EndOf(p, bs) <= p.sink + h
  {
    var n := |bs| - 1;
    assert OfHistory(p, h, bs[n]);
    if n > 0 {
      assert OfHistory(p, h, bs[n-1]);
      StartsAscend(p, bs[n-1].bid, bs[n].bid);
    }
  }

  /** Blocks in id order cover ascending positions, up to the end of the last one. */
  lemma {:induction false} BlocksAscend(p: Params, h: nat, bs: seq<Block>)
    requires p.perBlock > 0 && AllOfHistory(p, h, bs) && IdsAscend(bs)
    ensures EndOf(p, bs) <= p.sink + h
    ensures Ascending(BlockPositions(p, bs)) && Between(BlockPositions(p, bs), p.sink, EndOf(p, bs))
  {
    if bs != [] {
      var n := |bs| - 1;
      BlocksAscend(p, h, bs[..n]);
      NextBlock(p, h, bs);
      var from := p.sink + Start(p, bs[n].bid);
      AscendingJoin(BlockPositions(p, bs[..n]), Range(from, from + bs[n].count), p.sink, from, EndOf(p, bs));
    }
  }

  lemma LastPosition(p: Params, h: nat, ws: seq<Block>)
    requires p.perBlock > 0 && AllOfHistory(p, h, ws) && EndOf(p, ws) > 0
    ensures var front := Range(0, p.sink) + BlockPositions(p, ws); front != [] && front[|front|-1] == EndOf(p, ws) - 1
  {
    if ws == [] {
      assert Range(0, p.sink) + [] == Range(0, p.sink);
    } else {
      assert OfHistory(p, h, ws[|ws|-1]);
    }
  }

  lemma FrontAscends(p: Params, h: nat, ws: seq<Block>)
    requires p.perBlock > 0 && AllOfHistory(p, h, ws) && IdsAscend(ws)
    ensures var front := Range(0, p.sink) + BlockPositions(p, ws);
      Ascending(front) && Between(front, 0, EndOf(p, ws)) && EndOf(p, ws) <= p.sink + h
  {
    BlocksAscend(p, h, ws);
    AscendingJoin(Range(0, p.sink), BlockPositions(p, ws), 0, p.sink, EndOf(p, ws));
  }

  /** Ascending positions below `end` and then a range: ascending unless the range starts below `end`. */
  lemma RangeAfter(front: seq<nat>, end: nat, from: nat, to: nat)
    requires Ascending(front) && Between(front, 0, end) && from < to
    requires end > 0 ==> front != [] && front[|front|-1] == end - 1
    ensures Ascending(front + Range(from, to)) <==> end <= from
  {
    if end <= from {
      AscendingJoin(front, Range(from, to), 0, from, to);
    } else {
      var all := front + Range(from, to);
      assert all[|front| - 1] == end - 1 && all[|front|] == from;
    }
  }

  lemma FrontThenRange(p: Params, h: nat, ws: seq<Block>, from: nat, to: nat)
    requires p.perBlock > 0 && AllOfHistory(p, h, ws) && IdsAscend(ws) && from < to
    ensures EndOf(p, ws) <= p.sink + h
    ensures Ascending(Range(0, p.sink) + BlockPositions(p, ws) + Range(from, to)) <==> EndOf(p, ws) <= from
  {
    FrontAscends(p, h, ws);
    if EndOf(p, ws) > 0 { LastPosition(p, h, ws); }
    RangeAfter(Range(0, p.sink) + BlockPositions(p, ws), EndOf(p, ws), from, to);
  }

  /** Sinks and blocks before the window, if the blocks ascend: the window must not reach back over them. */
  lemma LongAscends(p: Params, n: nat, m: nat, ws: seq<Block>)
    requires p.perBlock > 0 && !Short(p, n) && AllOfHistory(p, n - p.sink - p.recent, ws) && IdsAscend(ws)
    ensures EndOf(p, ws) <= n - p.recent
    ensures Ascending(ActivePositions(p, n, m, ws)) <==> EndOf(p, ws) <= n + m - Window(p, n, m)
  {
    LongWindow(p, n, m);
    FrontThenRange(p, n - p.sink - p.recent, ws, n + m - Window(p, n, m), n + m);
  }

  lemma LongWindow(p: Params, n: nat, m: nat)
    requires p.perBlock > 0 && !Short(p, n)
    ensures 0 < Window(p, n, m) <= n && SinkSize(p, n) == p.sink
  {
  }

  /** The positions ascend if the blocks do, unless the window reaches back over them. */
  lemma PositionsAscend(p: Params, n: nat, m: nat, ws: seq<Block>)
    requires p.perBlock > 0 && FromCands(p, n, ws) && IdsAscend(ws)
    ensures Ascending(ActivePositions(p, n, m, ws)) <==> Short(p, n) || p.recent >= 1 || EndOf(p, ws) <= m
  {
    if Short(p, n) {
      var s, w := SinkSize(p, n), Window(p, n, m);
      FromCandsOfHistory(p, n, ws);
      assert BlockPositions(p, ws) == [];
      assert Range(0, s) + [] == Range(0, s);
      AscendingJoin(Range(0, s), Range(n + m - w, n + m), 0, n + m - w, n + m);
    } else {
      FromCandsOfHistory(p, n, ws);
      LongAscends(p, n, m, ws);
    }
  }

  /**
   With scores above -1e30 the active state is in strictly increasing position order for any selection
   and any number of appends, except when a window of none has become the whole prefill: then exactly
   from as many appends on as there are positions up to the last selected block.
   */
  lemma ActiveAscends(p: Params, n: nat, m: nat, scores: seq<real>, k: nat)
    requires p.perBlock > 0
    requires |scores| == |Cands(p, n)| && forall i :: 0 <= i < |scores| ==> scores[i] > MIN_LOGIT
    ensures var ws := Selected(Cands(p, n), scores, k);
      Ascending(ActivePositions(p, n, m, ws)) <==> Short(p, n) || p.recent >= 1 || EndOf(p, ws) <= m
  {
    CandsAscend(p, n);
    SelectedMembers(Cands(p, n), scores, k);
    SelectedAscends(Cands(p, n), scores, k);
    PositionsAscend(p, n, m, Selected(Cands(p, n), scores, k));
  }

  // ------------------------------------------------------------------ what is out of reach

  /** All blocks together cover the whole history. */
  lemma {:induction false} CandsCover(p: Params, h: nat, n: nat)
    requires p.perBlock > 0 && n <= |BlocksFrom(p, 0, 0, h)|
    ensures BlockPositions(p, BlocksFrom(p, 0, 0, h)[..n]) == Range(p.sink, p.sink + Min(Start(p, n), h))
  {
    var bs := BlocksFrom(p, 0, 0, h);
    if n > 0 {
      CandsCover(p, h, n - 1);
      CandsOfHistory(p, h);
      assert OfHistory(p, h, bs[n-1]);
      NextCovers(p, h, bs, n);
    }
  }

  lemma NextCovers(p: Params, h: nat, bs: seq<Block>, n: nat)
    requires p.perBlock > 0 && 0 < n <= |bs| && OfHistory(p, h, bs[n-1]) && bs[n-1].bid == n - 1
    requires BlockPositions(p, bs[..n-1]) == Range(p.sink, p.sink + Min(Start(p, n - 1), h))
    ensures BlockPositions(p, bs[..n]) == Range(p.sink, p.sink + Min(Start(p, n), h))
  {
    assert bs[..n][..n-1] == bs[..n-1];
    StartNext(p, n - 1);
  }

  lemma AllCandsCover(p: Params, h: nat)
    requires p.perBlock > 0
    ensures BlockPositions(p, BlocksFrom(p, 0, 0, h)) == Range(p.sink, p.sink + h)
  {
    var bs := BlocksFrom(p, 0, 0, h);
    CandsCover(p, h, |bs|);
    assert bs[..|bs|] == bs;
    EndCoversAll(p, h);
  }

  lemma EndCoversAll(p: Params, h: nat)
    requires p.perBlock > 0
    ensures Start(p, |BlocksFrom(p, 0, 0, h)|) >= h
  {
    var bs := BlocksFrom(p, 0, 0, h);
    assert Start(p, 0) == 0;
    if h > 0 {
      BlocksFromEnd(p, 0, 0, h);
      CandsOfHistory(p, h);
      assert OfHistory(p, h, bs[|bs|-1]);
      StartNext(p, |bs| - 1);
    }
  }

  /** The first position after those that prefill put away for good. */
  function Kept(p: Params, n: nat): nat {
    if Short(p, n) then n else n - p.recent
  }

  /**
   With every block selected, the positions out of reach are exactly those between what prefill
   kept and the recent window: one more for every token appended, after the first that a short
   prefill leaves room for.  A window that holds the whole prefill postpones this by as many appends.
   */
  lemma ReachableIff(p: Params, n: nat, m: nat, t: nat)
    requires p.perBlock > 0 && t < n + m
    ensures t in ActivePositions(p, n, m, Cands(p, n)) <==> !(Kept(p, n) <= t < n + m - Window(p, n, m))
  {
    var s, w := SinkSize(p, n), Window(p, n, m);
    CandsPositions(p, n);
    InRange(0, s, t);
    InRange(s, Kept(p, n), t);
    InRange(n + m - w, n + m, t);
    InThree(Range(0, s), Range(s, Kept(p, n)), Range(n + m - w, n + m), t);
  }

  lemma CandsPositions(p: Params, n: nat)
    requires p.perBlock > 0
    ensures BlockPositions(p, Cands(p, n)) == Range(SinkSize(p, n), Kept(p, n))
  {
    if !Short(p, n) { AllCandsCover(p, n - p.sink - p.recent); }
  }

  lemma InThree(a: seq<nat>, b: seq<nat>, c: seq<nat>, t: nat)
    ensures t in a + b + c <==> t in a || t in b || t in c
  {
  }

  lemma InRange(from: nat, to: nat, t: nat)
    ensures t in Range(from, to) <==> from <= t < to
  {
    if from <= t < to { assert Range(from, to)[t - from] == t; }
  }

  /** The positions that no selection can reach. */
  function Lost(p: Params, n: nat, m: nat): set<nat>
    requires p.perBlock > 0
  {
    set t: nat | t < n + m && t !in ActivePositions(p, n, m, Cands(p, n))
  }

  function Interval(from: nat, to: nat): (s: set<nat>)
    requires from <= to
    ensures |s| == to - from && forall t :: t in s <==> from <= t < to
  {
    if from == to then {} else Interval(from, to - 1) + {to - 1}
  }

  function Over(a: nat, b: nat): nat { if a > b then a - b else 0 }

  /**
   How many tokens have been lost: none before the first append, then one with each; a short prefill
   leaves room for one append, a window that holds the whole prefill for as many as were prefilled.
   */
  lemma LostCount(p: Params, n: nat, m: nat)
    requires p.perBlock > 0
    ensures |Lost(p, n, m)| == Over(m, if Short(p, n) then 1 else if p.recent == 0 then n else 0)
  {
    var from, to := Kept(p, n), n + m - Window(p, n, m);
    forall t: nat | t < n + m ensures t in Lost(p, n, m) <==> from <= t < to {
      ReachableIff(p, n, m, t);
    }
    if from <= to {
      assert Lost(p, n, m) == Interval(from, to);
    } else {
      assert Lost(p, n, m) == {};
    }
  }

  /** No selection reaches more than all blocks together. */
  lemma LostForAll(p: Params, n: nat, m: nat, ws: seq<Block>, t: nat)
    requires p.perBlock > 0 && FromCands(p, n, ws) && t in Lost(p, n, m)
    ensures t !in ActivePositions(p, n, m, ws)
  {
    CandsPositions(p, n);
    if t in BlockPositions(p, ws) { PositionsWithin(p, n, ws, t); }
    InThree(Range(0, SinkSize(p, n)), BlockPositions(p, ws), Range(n + m - Window(p, n, m), n + m), t);
    InThree(Range(0, SinkSize(p, n)), BlockPositions(p, Cands(p, n)), Range(n + m - Window(p, n, m), n + m), t);
  }

  lemma {:induction false} PositionsWithin(p: Params, n: nat, ws: seq<Block>, t: nat)
    requires p.perBlock > 0 && FromCands(p, n, ws) && t in BlockPositions(p, ws)
    ensures t in BlockPositions(p, Cands(p, n))
  {
    FromCandsOfHistory(p, n, ws);
    var b, rest := ws[|ws|-1], BlockPositions(p, ws[..|ws|-1]);
    var rows := Range(p.sink + Start(p, b.bid), p.sink + Start(p, b.bid) + b.count);
    assert t in rest || t in rows;
    if t in rest {
      PositionsWithin(p, n, ws[..|ws|-1], t);
    } else {
      assert OfHistory(p, n - p.sink - p.recent, b);
      CandsPositions(p, n);
      InRange(SinkSize(p, n), Kept(p, n), t);
    }
  }

  /**
   Before any append, a complete selection gives back the prefilled sequence exactly when the window
   holds at least one token or the prefill was short: a window of none slices the whole sequence.
   */
  lemma ReconstructIff<T>(p: Params, l: int, toks: seq<T>, store: Store<T>, scores: seq<real>, k: nat, pad: T)
    requires p.perBlock > 0 && |scores| == |Init(p, toks).cands| && k >= |scores|
    requires forall i :: 0 <= i < |scores| - 1 ==> scores[i] > MIN_LOGIT
    ensures Active(p, InitStore(p, l, toks, pad, store), l, Init(p, toks), scores, k, pad) == toks
       <==> Short(p, |toks|) || p.recent >= 1
  {
    var n := |toks|;
    InitCands(p, toks);
    if !Short(p, n) { CandsOfHistory(p, n - p.sink - p.recent); }
    FullSelection(Cands(p, n), scores, k);
    if Short(p, n) || p.recent >= 1 {
      AllPartsAreAll(p, l, toks, store, pad);
    } else {
      WholeTwice(p, l, toks, store, pad);
    }
  }

  lemma AllPartsAreAll<T>(p: Params, l: int, toks: seq<T>, store: Store<T>, pad: T)
    requires p.perBlock > 0 && (Short(p, |toks|) || p.recent >= 1)
    ensures var ld := Init(p, toks);
      ld.sink + Rows(p, InitStore(p, l, toks, pad, store), l, Cands(p, |toks|), pad) + ld.recent == toks
  {
    var n := |toks|;
    PartsAreGathered(p, l, toks, [], store, Cands(p, n), pad);
    AllPositions(p, n);
    GatherAll(toks);
  }

  lemma AllPositions(p: Params, n: nat)
    requires p.perBlock > 0 && (Short(p, n) || p.recent >= 1)
    ensures ActivePositions(p, n, 0, Cands(p, n)) == Range(0, n)
  {
    CandsPositions(p, n);
    RangesJoin(0, SinkSize(p, n), Kept(p, n), n);
  }

  lemma RangesJoin(a: nat, b: nat, c: nat, d: nat)
    requires a <= b <= c <= d
    ensures Range(a, b) + Range(b, c) + Range(c, d) == Range(a, d)
  {
  }

  lemma GatherAll<T>(xs: seq<T>)
    ensures Inside(Range(0, |xs|), |xs + []|) && Gather(xs + [], Range(0, |xs|)) == xs
  {
  }

  lemma WholeTwice<T>(p: Params, l: int, toks: seq<T>, store: Store<T>, pad: T)
    requires p.perBlock > 0 && !Short(p, |toks|) && p.recent == 0
    ensures var ld := Init(p, toks);
      |ld.sink + Rows(p, InitStore(p, l, toks, pad, store), l, Cands(p, |toks|), pad) + ld.recent|
          == 2 * |toks| > |toks|
  {
    RowsAreGathered(p, l, toks, [], pad, store, Cands(p, |toks|));
    CandsPositions(p, |toks|);
  }

  /** A 100% selection is complete. */
  lemma FullPercent(n: nat)
    ensures KVal(n, 100.0) >= n
  {
    assert 100.0 / 100.0 == 1.0;
    var x: real, i: int := n as real, n;
    assert x * 1.0 == x;
    assert (-x).Floor == -i;
  }

  // ------------------------------------------------------------------ reported memory

  /** `active_tokens` of `get_memory_stats`. */
  function Reported(p: Params, cands: seq<Block>, pct: real): nat {
    p.sink + p.recent + (if cands == [] then 0 else KVal(|cands|, pct)) * p.perBlock
  }

  /** The sinks, the window and as many whole blocks as the share asks for. */
  lemma ReportedIs(p: Params, cands: seq<Block>, pct: real) returns (k: nat)
    ensures IsShare(k, |cands|, pct)
    ensures Reported(p, cands, pct) == p.sink + p.recent + if cands == [] then 0 else k * p.perBlock
  {
    KValIsShare(|cands|, pct);
    k := KVal(|cands|, pct);
  }

  lemma {:induction false} RowsBound(p: Params, h: nat, ws: seq<Block>)
    requires p.perBlock > 0 && AllOfHistory(p, h, ws)
    ensures |BlockPositions(p, ws)| <= |ws| * p.perBlock
  {
    if ws != [] {
      RowsBound(p, h, ws[..|ws|-1]);
      assert OfHistory(p, h, ws[|ws|-1]);
      MulStep(|ws| - 1, p.perBlock);
    }
  }

  lemma {:induction false} RowsOfAll(p: Params, h: nat, scores: seq<real>, k: nat)
    requires p.perBlock > 0 && |scores| == |BlocksFrom(p, 0, 0, h)| <= k
    requires forall i :: 0 <= i < |scores| - 1 ==> scores[i] > MIN_LOGIT
    ensures |BlockPositions(p, Selected(BlocksFrom(p, 0, 0, h), scores, k))| == h
  {
    CandsOfHistory(p, h);
    FullSelection(BlocksFrom(p, 0, 0, h), scores, k);
    AllCandsCover(p, h);
  }

  /** The last block starts within the history. */
  lemma BlocksWithin(p: Params, h: nat, k: nat)
    requires p.perBlock > 0 && k < |BlocksFrom(p, 0, 0, h)|
    ensures Times(k, p.perBlock) < h
  {
    assert Start(p, 0) == 0;
    BlocksFromAt(p, 0, 0, h, k);
    assert 0 + k == k;
  }

  /** When a window of none has become the whole prefill. */
  lemma WindowlessBound(p: Params, n: nat, m: nat, scores: seq<real>, k: nat)
    requires p.perBlock > 0 && !Short(p, n) && p.recent == 0 && |scores| == |Cands(p, n)|
    requires forall i :: 0 <= i < |scores| - 1 ==> scores[i] > MIN_LOGIT
    ensures |ActivePositions(p, n, m, Selected(Cands(p, n), scores, k))| <= p.sink + Times(k, p.perBlock)
       <==> n + (n - p.sink) <= Times(k, p.perBlock)
  {
    var h := n - p.sink;
    if k < |scores| {
      BlocksWithin(p, h, k);
    } else {
      RowsOfAll(p, h, scores, k);
    }
  }

  /**
   The reported number of active tokens bounds the real one, except for a full short prefill that has
   grown and for a window that holds the whole prefill besides its blocks.
   */
  lemma ReportedBoundsIff(p: Params, n: nat, m: nat, scores: seq<real>, pct: real)
    requires p.perBlock > 0 && |scores| == |Cands(p, n)|
    requires Short(p, n) || p.recent >= 1 || forall i :: 0 <= i < |scores| - 1 ==> scores[i] > MIN_LOGIT
    ensures |ActivePositions(p, n, m, Selected(Cands(p, n), scores, KVal(|scores|, pct)))|
         <= Reported(p, Cands(p, n), pct)
       <==> if Short(p, n) then !(n == p.sink + p.recent && m > 0)
            else p.recent >= 1 || n + (n - p.sink) <= Times(KVal(|scores|, pct), p.perBlock)
  {
    var k := KVal(|scores|, pct);
    var ws := Selected(Cands(p, n), scores, k);
    SelectedMembers(Cands(p, n), scores, k);
    FromCandsOfHistory(p, n, ws);
    if !Short(p, n) {
      var h := n - p.sink - p.recent;
      RowsBound(p, h, ws);
      MulMonotone(|ws|, k, p.perBlock);
      assert Start(p, 0) == 0;
      BlocksFromEnd(p, 0, 0, h);
      if p.recent == 0 { WindowlessBound(p, n, m, scores, k); }
    }
  }
}

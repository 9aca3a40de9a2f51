/** The sliding-window filter: which candidate blocks it keeps, and how that changes as tokens come in. */
module WindowFilter {
  import opened Arithmetic
  import opened TransformerState
  import opened TransformerReach

  function BlockEnd(p: Params, b: Block): nat { p.sink + Start(p, b.bid) + b.count }

  predicate Reaches(p: Params, window: nat, total: nat, b: Block) {
    total > window ==> BlockEnd(p, b) > total - window
  }

  /** The candidates kept: all of them while the sequence fits the window. */
  function InWindow(p: Params, window: nat, total: nat, cands: seq<Block>): seq<Block> {
    if cands == [] then []
    else
      var b := cands[|cands|-1];
      InWindow(p, window, total, cands[..|cands|-1]) + if Reaches(p, window, total, b) then [b] else []
  }

  lemma {:induction false} AllInWindow(p: Params, window: nat, total: nat, cands: seq<Block>)
    ensures total <= window ==> InWindow(p, window, total, cands) == cands
  {
    if cands != [] { AllInWindow(p, window, total, cands[..|cands|-1]); }
  }

  predicate Holds(p: Params, b: Block, t: nat) {
    p.sink + b.bid * p.perBlock <= t < p.sink + b.bid * p.perBlock + b.count
  }

  /** A block is kept exactly when one of its positions is in the window. */
  lemma {:induction false} KeptIff(p: Params, window: nat, total: nat, cands: seq<Block>, b: Block)
    requires forall i :: 0 <= i < |cands| ==> cands[i].count >= 1
    ensures b in InWindow(p, window, total, cands)
       <==> b in cands && exists t: nat :: Holds(p, b, t) && t + window >= total
  {
    if cands != [] {
      var n := |cands| - 1;
      KeptIff(p, window, total, cands[..n], b);
      assert b in cands <==> b in cands[..n] || b == cands[n];
      if b == cands[n] && Reaches(p, window, total, b) {
        assert Holds(p, b, BlockEnd(p, b) - 1);
      }
    }
  }

  lemma ReachesLater(p: Params, h: nat, window: nat, total: nat, cands: seq<Block>, i: nat, j: nat)
    requires p.perBlock > 0 && AllOfHistory(p, h, cands) && IdsAscend(cands) && i < j < |cands|
    requires Reaches(p, window, total, cands[i])
    ensures Reaches(p, window, total, cands[j])
  {
    assert OfHistory(p, h, cands[i]) && OfHistory(p, h, cands[j]);
    StartsAscend(p, cands[i].bid, cands[j].bid);
  }

  /** How many of the first candidates are dropped. */
  function Dropped(p: Params, window: nat, total: nat, cands: seq<Block>): (d: nat)
    ensures d <= |cands|
  {
    if cands == [] || Reaches(p, window, total, cands[0]) then 0 else 1 + Dropped(p, window, total, cands[1..])
  }

  lemma {:induction false} DroppedIs(p: Params, window: nat, total: nat, cands: seq<Block>)
    ensures var d := Dropped(p, window, total, cands);
      && (forall i :: 0 <= i < d ==> !Reaches(p, window, total, cands[i]))
      && (d < |cands| ==> Reaches(p, window, total, cands[d]))
  {
    if cands != [] && !Reaches(p, window, total, cands[0]) { DroppedIs(p, window, total, cands[1..]); }
  }

  lemma FilterNext(p: Params, window: nat, total: nat, cands: seq<Block>, n: nat)
    requires 0 < n <= |cands|
    ensures InWindow(p, window, total, cands[..n])
         == InWindow(p, window, total, cands[..n-1])
          + if Reaches(p, window, total, cands[n-1]) then [cands[n-1]] else []
  {
    assert cands[..n][..n-1] == cands[..n-1] && cands[..n][n-1] == cands[n-1];
  }

  lemma Longer(cands: seq<Block>, d: nat, n: nat)
    requires d < n <= |cands|
    ensures cands[d..n] == (if n - 1 <= d then [] else cands[d..n-1]) + [cands[n-1]]
  {
  }

  lemma {:induction false} FilterSplit(p: Params, window: nat, total: nat, cands: seq<Block>, d: nat, n: nat)
    requires d <= |cands| && n <= |cands|
    requires forall i :: 0 <= i < |cands| ==> (Reaches(p, window, total, cands[i]) <==> i >= d)
    ensures InWindow(p, window, total, cands[..n]) == if n <= d then [] else cands[d..n]
  {
    if n > 0 {
      FilterSplit(p, window, total, cands, d, n - 1);
      FilterNext(p, window, total, cands, n);
      if n > d { Longer(cands, d, n); }
    }
  }

  /** The kept blocks are a suffix of the candidates. */
  lemma KeptIsSuffix(p: Params, h: nat, window: nat, total: nat, cands: seq<Block>)
    requires p.perBlock > 0 && AllOfHistory(p, h, cands) && IdsAscend(cands)
    ensures InWindow(p, window, total, cands) == cands[Dropped(p, window, total, cands)..]
  {
    var d := Dropped(p, window, total, cands);
    DroppedIs(p, window, total, cands);
    forall i | 0 <= i < |cands| ensures Reaches(p, window, total, cands[i]) <==> i >= d {
      if d < i { ReachesLater(p, h, window, total, cands, d, i); }
    }
    FilterSplit(p, window, total, cands, d, |cands|);
    assert cands[..|cands|] == cands;
  }

  /** As tokens come in, blocks only ever drop out of the window. */
  lemma {:induction false} DroppedGrows(p: Params, window: nat, total: nat, later: nat, cands: seq<Block>)
    requires total <= later
    ensures Dropped(p, window, total, cands) <= Dropped(p, window, later, cands)
  {
    if cands != [] && !Reaches(p, window, total, cands[0]) { DroppedGrows(p, window, total, later, cands[1..]); }
  }
}

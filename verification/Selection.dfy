/**
 The blocks that in-storage filtering picks, as positions in the candidate list, and when the
 pick is a permutation of the candidates.
 */
module Selection {
  import opened Arithmetic
  import opened Sums
  import opened Softmax
  import opened Ranking
  import opened Kernel

  /**
   The positions that the host binding reads out of the kernel's index buffer.  A slot that was
   never filled holds -1, which as a Python index is the last position.
   */
  function Picks(s: seq<real>, k: nat): (picks: seq<nat>)
    ensures |picks| == Min(k, |s|)
    ensures forall i :: 0 <= i < |picks| ==> picks[i] < |s|
  {
    Slots(RankedAbove(s, MIN_LOGIT, |s|), Min(k, |s|), |s|)
  }

  /** The scores that stand beside the picks: each picked block's own, or -1e30 in a slot never filled. */
  function PickScores(s: seq<real>, k: nat): (scores: seq<real>)
    ensures |scores| == Min(k, |s|)
    ensures forall i :: 0 <= i < |scores| ==> scores[i] == MIN_LOGIT || scores[i] == s[Picks(s, k)[i]]
  {
    var r := RankedAbove(s, MIN_LOGIT, |s|);
    seq(Min(k, |s|), i requires 0 <= i < Min(k, |s|) => if i < |r| then s[r[i]] else MIN_LOGIT)
  }

  /** `m` slots filled from `r`; a slot that stays unfilled stands for the last of `n` positions. */
  function Slots(r: seq<nat>, m: nat, n: nat): (picks: seq<nat>)
    requires m <= n
    requires forall i :: 0 <= i < |r| ==> r[i] < n
    ensures |picks| == m
    ensures forall i :: 0 <= i < m ==> picks[i] == (if i < |r| then r[i] else n - 1) && picks[i] < n
  {
    seq(m, i requires 0 <= i < m => if i < |r| then r[i] else n - 1)
  }

  /** A Python list index. */
  function PyIndex(i: int, n: nat): int {
    if i < 0 then n + i else i
  }

  /**
   The kernel's index buffer, read as Python indices, gives exactly the picks; its score buffer gives their scores.
   */
  lemma BufferGivesPicks(items: seq<Entry<int>>, k: nat, i: nat)
    requires forall b :: 0 <= b < |items| ==> items[b].payload == b
    requires i < Min(k, |items|)
    ensures PyIndex(Offered(items, |items|, Min(k, |items|), BLANK)[i].payload, |items|) == Picks(Scores(items), k)[i]
    ensures Offered(items, |items|, Min(k, |items|), BLANK)[i].score == PickScores(Scores(items), k)[i]
  {
    BufferIsSortedPrefix(items, |items|, Min(k, |items|), BLANK);
    WindowAt(items, RankedAbove(Scores(items), MIN_LOGIT, |items|), Min(k, |items|), BLANK, i);
  }

  /** The picks are the first `k` positions of the stable descending sort when every score exceeds -1e30. */
  lemma PicksAreBest(s: seq<real>, k: nat)
    requires forall b :: 0 <= b < |s| ==> s[b] > MIN_LOGIT
    ensures IsRanking(s, Indices(|s|), Sorted(s, Indices(|s|))) && |Sorted(s, Indices(|s|))| == |s|
    ensures Picks(s, k) == Sorted(s, Indices(|s|))[..Min(k, |s|)]
  {
    AllAbove(s, MIN_LOGIT, |s|);
    SortedIsRanking(s, Indices(|s|));
    SortedMultiset(s, Indices(|s|));
  }

  /** What is not picked is ranked below everything that is. */
  lemma PickedBeatUnpicked(s: seq<real>, k: nat, i: nat, b: nat)
    requires forall x :: 0 <= x < |s| ==> s[x] > MIN_LOGIT
    requires i < Min(k, |s|) && b < |s| && b !in Picks(s, k)
    ensures Precedes(s, Picks(s, k)[i], b)
  {
    var ids, m, picks := Indices(|s|), Min(k, |s|), Picks(s, k);
    PicksAreBest(s, k);
    var r := Sorted(s, ids);
    assert ids[b] == b;
    assert picks == r[..m] && picks[i] == r[i];
    PrefixBeatsRest(s, ids, r, m, i, b);
  }

  lemma PrefixHolds(r: seq<nat>, m: nat, j: nat)
    requires j < |r| && m <= |r|
    ensures r[j] in r[..m] || m <= j
  {
    if j < m { assert r[..m][j] == r[j]; }
  }

  lemma PrefixBeatsRest(s: seq<real>, ids: seq<nat>, r: seq<nat>, m: nat, i: nat, b: nat)
    requires IsRanking(s, ids, r) && m <= |r|
    requires i < m && b in ids && b !in r[..m]
    ensures b < |s| && Precedes(s, r[i], b)
  {
    assert b in multiset(r);
    var j :| 0 <= j < |r| && r[j] == b;
    PrefixHolds(r, m, j);
  }

  lemma {:induction false} AboveAllButLast(s: seq<real>, n: nat)
    requires n < |s| && (forall i :: 0 <= i < n ==> s[i] > MIN_LOGIT)
    ensures Above(s, MIN_LOGIT, n + 1) == if s[n] > MIN_LOGIT then Indices(n + 1) else Indices(n)
  {
    AllAbove(s, MIN_LOGIT, n);
    if s[n] > MIN_LOGIT { AllAbove(s, MIN_LOGIT, n + 1); }
  }

  /** Slots filled by a permutation of all positions, or of all but the last one, give all positions. */
  lemma CompleteSlots(r: seq<nat>, n: nat)
    requires n > 0 && (forall i :: 0 <= i < |r| ==> r[i] < n)
    requires multiset(r) == multiset(Indices(n)) || multiset(r) == multiset(Indices(n - 1))
    ensures multiset(Slots(r, n, n)) == multiset(Indices(n))
  {
    if multiset(r) == multiset(Indices(n)) {
      assert |r| == |multiset(r)| == n;
      assert Slots(r, n, n) == r;
    } else {
      assert |r| == |multiset(r)| == |multiset(Indices(n - 1))| == n - 1;
      assert Slots(r, n, n) == r + [n - 1];
      assert Indices(n) == Indices(n - 1) + [n - 1];
    }
  }

  lemma CompletePicks(s: seq<real>)
    requires s != []
    requires forall b :: 0 <= b < |s| - 1 ==> s[b] > MIN_LOGIT
    ensures multiset(Picks(s, |s|)) == multiset(Indices(|s|))
  {
    AboveAllButLast(s, |s| - 1);
    SortedMultiset(s, Above(s, MIN_LOGIT, |s|));
    CompleteSlots(RankedAbove(s, MIN_LOGIT, |s|), |s|);
  }

  /** A score at or below -1e30, other than the last one, is never picked. */
  lemma NeverPicked(s: seq<real>, k: nat, b: nat)
    requires b < |s| - 1 && s[b] <= MIN_LOGIT
    ensures b !in Picks(s, k)
  {
    RankedAboveFacts(s, MIN_LOGIT, |s|);
  }

  /**
   With `top_k` at least the number of candidates, the pick is a permutation of them exactly when
   every candidate but the last scores above -1e30.
   */
  lemma PicksCompleteIff(s: seq<real>, k: nat)
    requires s != [] && k >= |s|
    ensures multiset(Picks(s, k)) == multiset(Indices(|s|)) <==> forall b :: 0 <= b < |s| - 1 ==> s[b] > MIN_LOGIT
  {
    assert Picks(s, k) == Picks(s, |s|);
    if forall b :: 0 <= b < |s| - 1 ==> s[b] > MIN_LOGIT {
      CompletePicks(s);
    } else {
      var b :| 0 <= b < |s| - 1 && s[b] <= MIN_LOGIT;
      NeverPicked(s, k, b);
      assert Indices(|s|)[b] == b;
      assert b in multiset(Indices(|s|)) && b !in multiset(Picks(s, k));
    }
  }
}

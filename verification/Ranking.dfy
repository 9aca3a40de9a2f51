/**
 Bounded top-k selection: the insertion buffer of the C kernels, and the stable descending
 sort that the Python fallback performs literally.
 */
module Ranking {
  import opened Arithmetic

  datatype Entry<+P> = Entry(payload: P, score: real)

  // ------------------------------------------------------------------ the insertion buffer

  /** Inserts `e` before the trailing entries that it strictly exceeds. */
  function Place<P>(buffer: seq<Entry<P>>, e: Entry<P>): (r: seq<Entry<P>>)
    ensures |r| == |buffer| + 1
  {
    if buffer == [] then [e]
    else
      var last := |buffer| - 1;
      if e.score > buffer[last].score then Place(buffer[..last], e) + [buffer[last]] else buffer + [e]
  }

  /** One candidate offered to a full buffer: it enters only if it strictly exceeds the smallest entry. */
  function Offer<P>(buffer: seq<Entry<P>>, e: Entry<P>): (r: seq<Entry<P>>)
    ensures |r| == |buffer|
  {
    if buffer == [] || e.score <= buffer[|buffer|-1].score then buffer else Place(buffer[..|buffer|-1], e)
  }

  function Blanks<P>(k: nat, blank: Entry<P>): (w: seq<Entry<P>>)
    ensures |w| == k
  {
    seq(k, _ => blank)
  }

  /** The buffer of size `k` after the first `n` candidates. */
  function Offered<P>(items: seq<Entry<P>>, n: nat, k: nat, blank: Entry<P>): (w: seq<Entry<P>>)
    requires n <= |items|
    ensures |w| == k
  {
    if n == 0 then Blanks(k, blank) else Offer(Offered(items, n - 1, k, blank), items[n-1])
  }

  lemma {:induction false} PlaceAt<P>(buffer: seq<Entry<P>>, e: Entry<P>, p: nat)
    requires p <= |buffer|
    requires p == 0 || e.score <= buffer[p-1].score
    requires forall j :: p <= j < |buffer| ==> e.score > buffer[j].score
    ensures Place(buffer, e) == buffer[..p] + [e] + buffer[p..]
  {
    var n := |buffer|;
    if p == n {
      assert buffer[..p] == buffer && buffer[p..] == [];
    } else {
      PlaceAt(buffer[..n-1], e, p);
      assert buffer[..n-1][..p] == buffer[..p] && buffer[..n-1][p..] + [buffer[n-1]] == buffer[p..];
    }
  }

  /** When the scores from `p` on are smaller, `Offer` inserts at `p` and drops the last entry. */
  lemma OfferAt<P>(w: seq<Entry<P>>, e: Entry<P>, p: nat)
    requires 0 < p <= |w| ==> e.score <= w[p-1].score
    requires p >= |w| > 0 ==> e.score <= w[|w|-1].score
    requires forall j :: p <= j < |w| ==> e.score > w[j].score
    ensures Offer(w, e) == if p < |w| then InsertedAt(w, p, e)[..|w|] else w
  {
    if p < |w| {
      PlaceAt(w[..|w|-1], e, p);
    }
  }

  // ------------------------------------------------------------------ rankings

  /** `i` is ranked before `j`: a higher score, or the same score at a lower index. */
  predicate Precedes(s: seq<real>, i: nat, j: nat)
    requires i < |s| && j < |s|
  {
    s[i] > s[j] || (s[i] == s[j] && i < j)
  }

  predicate Within(s: seq<real>, r: seq<nat>) {
    forall a :: 0 <= a < |r| ==> r[a] < |s|
  }

  /** `r` lists exactly the indices `ids`, each once, in ranking order. */
  ghost predicate IsRanking(s: seq<real>, ids: seq<nat>, r: seq<nat>) {
    && Within(s, r)
    && multiset(r) == multiset(ids)
    && forall a, b :: 0 <= a < b < |r| ==> Precedes(s, r[a], r[b])
  }

  /** Stable insertion of one more index: after every score that is not smaller. */
  function Insert(s: seq<real>, r: seq<nat>, i: nat): (q: seq<nat>)
    requires Within(s, r) && i < |s|
    ensures Within(s, q)
  {
    if r == [] then [i]
    else
      var last := |r| - 1;
      if s[r[last]] < s[i] then Insert(s, r[..last], i) + [r[last]] else r + [i]
  }

  /** The stable descending sort of the indices `ids`: `sort(key=score, reverse=True)`. */
  function Sorted(s: seq<real>, ids: seq<nat>): (r: seq<nat>)
    requires Within(s, ids)
    ensures Within(s, r)
  {
    if ids == [] then [] else Insert(s, Sorted(s, ids[..|ids|-1]), ids[|ids|-1])
  }

  predicate Ascending(ids: seq<nat>) {
    forall a, b :: 0 <= a < b < |ids| ==> ids[a] < ids[b]
  }

  predicate Descending(s: seq<real>, r: seq<nat>)
    requires Within(s, r)
  {
    forall a, b :: 0 <= a < b < |r| ==> s[r[a]] >= s[r[b]]
  }

  /** Where `Insert` puts the index `i`. */
  function InsertPosition(s: seq<real>, r: seq<nat>, i: nat): (p: nat)
    requires Within(s, r) && i < |s|
    ensures p <= |r|
    ensures forall j :: p <= j < |r| ==> s[r[j]] < s[i]
    ensures p > 0 ==> s[r[p-1]] >= s[i]
  {
    if r == [] || s[r[|r|-1]] >= s[i] then |r| else InsertPosition(s, r[..|r|-1], i)
  }

  lemma {:induction false} InsertAt(s: seq<real>, r: seq<nat>, i: nat)
    requires Within(s, r) && i < |s|
    ensures var p := InsertPosition(s, r, i);
      Insert(s, r, i) == InsertedAt(r, p, i)
  {
    var n, p := |r|, InsertPosition(s, r, i);
    if n == 0 || s[r[n-1]] >= s[i] {
      assert r[..p] == r && r[p..] == [];
    } else {
      InsertAt(s, r[..n-1], i);
      InsertedSnoc(r, p, i);
    }
  }

  lemma InsertedSnoc<T>(xs: seq<T>, p: nat, x: T)
    requires p < |xs|
    ensures InsertedAt(xs, p, x) == InsertedAt(xs[..|xs|-1], p, x) + [xs[|xs|-1]]
  {
  }

  function InsertedAt<T>(xs: seq<T>, p: nat, x: T): seq<T>
    requires p <= |xs|
  {
    xs[..p] + [x] + xs[p..]
  }

  /** Shifting the entries from `p` on down by one and storing `x` there is an insertion that drops the last entry. */
  lemma ShiftedIn<T>(was: seq<T>, now: seq<T>, p: nat, x: T)
    requires p < |was| == |now| && now[p] == x
    requires forall i :: 0 <= i < p ==> now[i] == was[i]
    requires forall i :: p < i < |was| ==> now[i] == was[i-1]
    ensures now == InsertedAt(was, p, x)[..|was|]
  {
  }

  /** So the loops of an in-place insertion make the offer, at the place where the entry belongs. */
  lemma OfferedInPlace<P>(was: seq<Entry<P>>, now: seq<Entry<P>>, p: nat, e: Entry<P>)
    requires p < |was| == |now| && now[p] == e
    requires p > 0 ==> e.score <= was[p-1].score
    requires forall j :: p <= j < |was| ==> e.score > was[j].score
    requires forall i :: 0 <= i < p ==> now[i] == was[i]
    requires forall i :: p < i < |was| ==> now[i] == was[i-1]
    ensures now == Offer(was, e)
  {
    OfferAt(was, e, p);
    ShiftedIn(was, now, p, e);
  }

  lemma InsertedMultiset<T>(xs: seq<T>, p: nat, x: T)
    requires p <= |xs|
    ensures multiset(InsertedAt(xs, p, x)) == multiset(xs) + multiset{x}
  {
    assert xs == xs[..p] + xs[p..];
  }

  lemma InsertMultiset(s: seq<real>, r: seq<nat>, i: nat)
    requires Within(s, r) && i < |s|
    ensures multiset(Insert(s, r, i)) == multiset(r) + multiset{i}
  {
    InsertAt(s, r, i);
    InsertedMultiset(r, InsertPosition(s, r, i), i);
  }

  lemma {:induction false} SortedMultiset(s: seq<real>, ids: seq<nat>)
    requires Within(s, ids)
    ensures multiset(Sorted(s, ids)) == multiset(ids)
    ensures |Sorted(s, ids)| == |ids|
  {
    if ids != [] {
      var rest := ids[..|ids|-1];
      SortedMultiset(s, rest);
      InsertMultiset(s, Sorted(s, rest), ids[|ids|-1]);
      assert ids == rest + [ids[|ids|-1]];
    }
    assert |Sorted(s, ids)| == |multiset(Sorted(s, ids))| == |ids|;
  }

  /** Everything a property says of all indices it also says of all ranked indices. */
  lemma SortedMember(s: seq<real>, ids: seq<nat>, a: nat) returns (b: nat)
    requires Within(s, ids) && a < |Sorted(s, ids)|
    ensures b < |ids| && Sorted(s, ids)[a] == ids[b]
  {
    SortedMultiset(s, ids);
    assert Sorted(s, ids)[a] in multiset(ids);
    b :| 0 <= b < |ids| && Sorted(s, ids)[a] == ids[b];
  }

  lemma InsertOrdered(s: seq<real>, r: seq<nat>, i: nat)
    requires Within(s, r) && i < |s|
    requires forall a, b :: 0 <= a < b < |r| ==> Precedes(s, r[a], r[b])
    requires forall a :: 0 <= a < |r| ==> r[a] < i
    ensures forall a, b :: 0 <= a < b < |Insert(s, r, i)| ==> Precedes(s, Insert(s, r, i)[a], Insert(s, r, i)[b])
  {
    var p := InsertPosition(s, r, i);
    InsertAt(s, r, i);
    forall j | 0 <= j < p ensures s[r[j]] >= s[i] {
      if j < p - 1 { assert Precedes(s, r[j], r[p-1]); }
    }
  }

  lemma {:induction false} SortedIsRanking(s: seq<real>, ids: seq<nat>)
    requires Within(s, ids) && Ascending(ids)
    ensures IsRanking(s, ids, Sorted(s, ids))
  {
    SortedMultiset(s, ids);
    if ids != [] {
      var rest, i := ids[..|ids|-1], ids[|ids|-1];
      SortedIsRanking(s, rest);
      forall j | 0 <= j < |Sorted(s, rest)| ensures Sorted(s, rest)[j] < i {
        var b := SortedMember(s, rest, j);
      }
      SortedMultiset(s, rest);
      InsertOrdered(s, Sorted(s, rest), i);
    }
  }

  lemma RankingDescends(s: seq<real>, ids: seq<nat>, r: seq<nat>)
    requires IsRanking(s, ids, r)
    ensures Descending(s, r)
  {
    forall a, b | 0 <= a < b < |r| ensures s[r[a]] >= s[r[b]] {
      assert Precedes(s, r[a], r[b]);
    }
  }

  /** Two rankings of the same indices start with the same one. */
  lemma SameHead(s: seq<real>, ids: seq<nat>, q: seq<nat>, r: seq<nat>)
    requires IsRanking(s, ids, q) && IsRanking(s, ids, r) && ids != []
    ensures q != [] && r != [] && q[0] == r[0]
  {
    assert |q| == |multiset(q)| == |multiset(ids)| == |multiset(r)| == |r|;
    assert q[0] in multiset(r) && r[0] in multiset(q);
  }

  /** Without its head a ranking is a ranking of the other indices. */
  lemma RankingTail(s: seq<real>, ids: seq<nat>, r: seq<nat>)
    requires IsRanking(s, ids, r) && r != []
    ensures IsRanking(s, r[1..], r[1..])
    ensures multiset(r[1..]) == multiset(ids) - multiset{r[0]}
  {
    assert r == [r[0]] + r[1..];
  }

  /** A ranking is determined by the scores. */
  lemma {:induction false} RankingUnique(s: seq<real>, ids: seq<nat>, q: seq<nat>, r: seq<nat>)
    requires IsRanking(s, ids, q) && IsRanking(s, ids, r)
    ensures q == r
    decreases |q|
  {
    if ids == [] {
      assert |q| == |multiset(q)| == 0 && |r| == |multiset(r)| == 0;
    } else {
      SameHead(s, ids, q, r);
      RankingTail(s, ids, q);
      RankingTail(s, ids, r);
      RankingUnique(s, q[1..], q[1..], r[1..]);
    }
  }

  /** The stable sort is the ranking, and nothing else is. */
  lemma RankingIffSorted(s: seq<real>, ids: seq<nat>, r: seq<nat>)
    requires Within(s, ids) && Ascending(ids)
    ensures IsRanking(s, ids, r) <==> r == Sorted(s, ids)
  {
    SortedIsRanking(s, ids);
    if IsRanking(s, ids, r) { RankingUnique(s, ids, r, Sorted(s, ids)); }
  }

  // ------------------------------------------------------------------ buffer = prefix of the ranking

  function Scores<P>(items: seq<Entry<P>>): (s: seq<real>)
    ensures |s| == |items|
  {
    seq(|items|, i requires 0 <= i < |items| => items[i].score)
  }

  /** Indices below `n` whose score exceeds `floor`, in ascending order. */
  function Above(s: seq<real>, floor: real, n: nat): (ids: seq<nat>)
    requires n <= |s|
    ensures Within(s, ids) && |ids| <= n
  {
    if n == 0 then []
    else if s[n-1] > floor then Above(s, floor, n - 1) + [n - 1]
    else Above(s, floor, n - 1)
  }

  lemma {:induction false} AboveIs(s: seq<real>, floor: real, n: nat)
    requires n <= |s|
    ensures var ids := Above(s, floor, n);
      && Ascending(ids)
      && (forall a :: 0 <= a < |ids| ==> ids[a] < n && s[ids[a]] > floor)
      && (forall i :: 0 <= i < n && s[i] > floor ==> i in ids)
  {
    if n > 0 {
      AboveIs(s, floor, n - 1);
      if s[n-1] > floor { assert Above(s, floor, n)[|Above(s, floor, n - 1)|] == n - 1; }
    }
  }

  /** The first `k` entries of the ranking `r`, padded with `blank`. */
  function Window<P>(items: seq<Entry<P>>, r: seq<nat>, k: nat, blank: Entry<P>): (w: seq<Entry<P>>)
    requires Within(Scores(items), r)
    ensures |w| == k
  {
    seq(k, i requires 0 <= i < k => if i < |r| then items[r[i]] else blank)
  }

  predicate AboveFloor(s: seq<real>, r: seq<nat>, floor: real)
    requires Within(s, r)
  {
    forall a :: 0 <= a < |r| ==> s[r[a]] > floor
  }

  lemma SortedAboveFloor(s: seq<real>, ids: seq<nat>, floor: real)
    requires Within(s, ids) && AboveFloor(s, ids, floor)
    ensures AboveFloor(s, Sorted(s, ids), floor)
  {
    var r := Sorted(s, ids);
    forall a | 0 <= a < |r| ensures s[r[a]] > floor {
      var b := SortedMember(s, ids, a);
    }
  }

  /** Inserting into the ranking inserts into its window, and pushes out the last entry. */
  lemma WindowInserted<P>(items: seq<Entry<P>>, r: seq<nat>, k: nat, blank: Entry<P>, b: nat, p: nat)
    requires b < |items| && p <= |r|
    requires Within(Scores(items), r)
    ensures Within(Scores(items), InsertedAt(r, p, b))
    ensures var w := Window(items, r, k, blank);
      Window(items, InsertedAt(r, p, b), k, blank) == if p < k then InsertedAt(w, p, items[b])[..k] else w
  {
    var q := InsertedAt(r, p, b);
    forall a | 0 <= a < |q| ensures q[a] == if a < p then r[a] else if a == p then b else r[a-1] {
    }
  }

  /** Offering one more candidate to the window of a ranking gives the window of the next ranking. */
  lemma OfferStep<P>(items: seq<Entry<P>>, r: seq<nat>, k: nat, blank: Entry<P>, b: nat)
    requires b < |items| && k > 0
    requires Within(Scores(items), r) && Descending(Scores(items), r)
    requires AboveFloor(Scores(items), r, blank.score)
    requires items[b].score > blank.score
    ensures Offer(Window(items, r, k, blank), items[b]) == Window(items, Insert(Scores(items), r, b), k, blank)
  {
    var s, w := Scores(items), Window(items, r, k, blank);
    var p := InsertPosition(s, r, b);
    InsertAt(s, r, b);
    WindowInserted(items, r, k, blank, b, p);
    WindowSplit(items, r, k, blank, b);
    OfferAt(w, items[b], p);
  }

  /** In the window, the entries from the insertion position on are the smaller ones. */
  lemma WindowSplit<P>(items: seq<Entry<P>>, r: seq<nat>, k: nat, blank: Entry<P>, b: nat)
    requires b < |items| && k > 0
    requires Within(Scores(items), r) && Descending(Scores(items), r)
    requires items[b].score > blank.score
    ensures var p, w := InsertPosition(Scores(items), r, b), Window(items, r, k, blank);
      && (0 < p <= k ==> items[b].score <= w[p-1].score)
      && (p >= k ==> items[b].score <= w[k-1].score)
      && (forall j :: p <= j < k ==> items[b].score > w[j].score)
  {
    var p := InsertPosition(Scores(items), r, b);
    if p > 0 { WindowBefore(items, r, k, blank, b, if p <= k then p - 1 else k - 1); }
    forall j | p <= j < k ensures items[b].score > Window(items, r, k, blank)[j].score {
      WindowBehind(items, r, k, blank, b, j);
    }
  }

  lemma WindowBefore<P>(items: seq<Entry<P>>, r: seq<nat>, k: nat, blank: Entry<P>, b: nat, j: nat)
    requires b < |items| && Within(Scores(items), r) && Descending(Scores(items), r)
    requires j < k && j < InsertPosition(Scores(items), r, b)
    ensures items[b].score <= Window(items, r, k, blank)[j].score
  {
    BeforePosition(Scores(items), r, b, j);
    WindowAt(items, r, k, blank, j);
  }

  lemma WindowAt<P>(items: seq<Entry<P>>, r: seq<nat>, k: nat, blank: Entry<P>, j: nat)
    requires Within(Scores(items), r) && j < k
    ensures Window(items, r, k, blank)[j].score == if j < |r| then Scores(items)[r[j]] else blank.score
  {
  }

  lemma BeforePosition(s: seq<real>, r: seq<nat>, i: nat, j: nat)
    requires Within(s, r) && Descending(s, r) && i < |s| && j < InsertPosition(s, r, i)
    ensures s[r[j]] >= s[i]
  {
    NotBelow(s, r, j, InsertPosition(s, r, i) - 1);
  }

  lemma NotBelow(s: seq<real>, r: seq<nat>, a: nat, b: nat)
    requires Within(s, r) && Descending(s, r) && a <= b < |r|
    ensures s[r[a]] >= s[r[b]]
  {
  }

  lemma WindowBehind<P>(items: seq<Entry<P>>, r: seq<nat>, k: nat, blank: Entry<P>, b: nat, j: nat)
    requires b < |items| && Within(Scores(items), r) && Descending(Scores(items), r)
    requires InsertPosition(Scores(items), r, b) <= j < k && items[b].score > blank.score
    ensures items[b].score > Window(items, r, k, blank)[j].score
  {
    WindowAt(items, r, k, blank, j);
  }

  /** A candidate at or below the blank score leaves the buffer alone. */
  lemma OfferIgnored<P>(items: seq<Entry<P>>, r: seq<nat>, k: nat, blank: Entry<P>, e: Entry<P>)
    requires Within(Scores(items), r)
    requires AboveFloor(Scores(items), r, blank.score)
    requires e.score <= blank.score
    ensures Offer(Window(items, r, k, blank), e) == Window(items, r, k, blank)
  {
  }

  /** The ranking of the first `n` items that exceed the floor. */
  function RankedAbove(s: seq<real>, floor: real, n: nat): (r: seq<nat>)
    requires n <= |s|
    ensures Within(s, r)
  {
    Sorted(s, Above(s, floor, n))
  }

  lemma RankedAboveFacts(s: seq<real>, floor: real, n: nat)
    requires n <= |s|
    ensures AboveFloor(s, RankedAbove(s, floor, n), floor)
    ensures Descending(s, RankedAbove(s, floor, n))
  {
    var ids := Above(s, floor, n);
    AboveIs(s, floor, n);
    SortedIsRanking(s, ids);
    RankingDescends(s, ids, Sorted(s, ids));
    SortedAboveFloor(s, ids, floor);
  }

  lemma RankedAboveStep(s: seq<real>, floor: real, n: nat)
    requires n < |s| && s[n] > floor
    ensures RankedAbove(s, floor, n + 1) == Insert(s, RankedAbove(s, floor, n), n)
  {
    var ids := Above(s, floor, n);
    AboveIs(s, floor, n);
    assert (ids + [n])[..|ids|] == ids;
  }

  lemma BufferStep<P>(items: seq<Entry<P>>, k: nat, blank: Entry<P>, b: nat)
    requires b < |items|
    ensures Offer(Window(items, RankedAbove(Scores(items), blank.score, b), k, blank), items[b])
         == Window(items, RankedAbove(Scores(items), blank.score, b + 1), k, blank)
  {
    var s := Scores(items);
    var r := RankedAbove(s, blank.score, b);
    RankedAboveFacts(s, blank.score, b);
    if items[b].score > blank.score {
      RankedAboveStep(s, blank.score, b);
      if k > 0 { OfferStep(items, r, k, blank, b); }
    } else {
      OfferIgnored(items, r, k, blank, items[b]);
    }
  }

  function Windows<P>(items: seq<Entry<P>>, n: nat, k: nat, blank: Entry<P>): (windows: seq<seq<Entry<P>>>)
    requires n <= |items|
    ensures |windows| == n + 1
    ensures forall b :: 0 <= b <= n ==>
        windows[b] == Window(items, RankedAbove(Scores(items), blank.score, b), k, blank)
  {
    seq(n + 1, b requires 0 <= b <= n => Window(items, RankedAbove(Scores(items), blank.score, b), k, blank))
  }

  lemma FirstWindow<P>(items: seq<Entry<P>>, k: nat, blank: Entry<P>)
    ensures Window(items, RankedAbove(Scores(items), blank.score, 0), k, blank) == Blanks(k, blank)
  {
  }

  /**
   The insertion buffer is exact: after any candidates, in any order, it holds the first `k`
   entries of the stable descending sort of those that exceed the blank score, then blanks.
   */
  lemma BufferIsSortedPrefix<P>(items: seq<Entry<P>>, n: nat, k: nat, blank: Entry<P>)
    requires n <= |items|
    ensures Offered(items, n, k, blank) == Window(items, RankedAbove(Scores(items), blank.score, n), k, blank)
  {
    var windows := Windows(items, n, k, blank);
    FirstWindow(items, k, blank);
    forall b | 0 <= b < n ensures windows[b+1] == Offer(windows[b], items[b]) {
      BufferStep(items, k, blank, b);
    }
    OfferedUnique(items, n, k, blank, windows);
  }

  /** `Offered` is the only sequence of buffers that starts blank and is offered the items in turn. */
  lemma {:induction false} OfferedUnique<P>(items: seq<Entry<P>>, n: nat, k: nat, blank: Entry<P>,
                                            buffers: seq<seq<Entry<P>>>)
    requires n <= |items| && n < |buffers|
    requires buffers[0] == Blanks(k, blank)
    requires forall b :: 0 <= b < n ==> buffers[b+1] == Offer(buffers[b], items[b])
    ensures Offered(items, n, k, blank) == buffers[n]
  {
    if n > 0 {
      OfferedUnique(items, n - 1, k, blank, buffers);
      assert buffers[n-1+1] == Offer(buffers[n-1], items[n-1]);
    }
  }

  function Indices(n: nat): (ids: seq<nat>)
    ensures |ids| == n && Ascending(ids)
    ensures forall i :: 0 <= i < n ==> ids[i] == i
  {
    seq(n, i => i)
  }

  lemma {:induction false} AllAbove(s: seq<real>, floor: real, n: nat)
    requires n <= |s| && forall i :: 0 <= i < n ==> s[i] > floor
    ensures Above(s, floor, n) == Indices(n)
  {
    if n > 0 { AllAbove(s, floor, n - 1); }
  }

  /** `scores.sort(key=score, reverse=True)`, as entries. */
  function PythonSort<P>(items: seq<Entry<P>>): (sorted: seq<Entry<P>>)
    ensures |sorted| == |items|
  {
    SortedMultiset(Scores(items), Indices(|items|));
    var r := Sorted(Scores(items), Indices(|items|));
    seq(|items|, i requires 0 <= i < |items| => items[r[i]])
  }

  predicate AllExceed<P>(items: seq<Entry<P>>, floor: real) {
    forall j :: 0 <= j < |items| ==> items[j].score > floor
  }

  /** With all scores above the blank score, kernel and fallback agree: `sort(reverse=True)[:k]`. */
  lemma KernelAgreesWithFallback<P>(items: seq<Entry<P>>, k: nat, blank: Entry<P>)
    requires AllExceed(items, blank.score)
    ensures var effective := Min(k, |items|);
      Offered(items, |items|, effective, blank) == PythonSort(items)[..effective]
  {
    var s, effective := Scores(items), Min(k, |items|);
    AllAbove(s, blank.score, |s|);
    BufferIsSortedPrefix(items, |items|, effective, blank);
    PythonSortWindow(items, effective, blank);
  }

  lemma PythonSortWindow<P>(items: seq<Entry<P>>, k: nat, blank: Entry<P>)
    requires k <= |items|
    ensures PythonSort(items)[..k] == Window(items, Sorted(Scores(items), Indices(|items|)), k, blank)
  {
    SortedMultiset(Scores(items), Indices(|items|));
  }

  /** A buffer larger than the number of items holds their whole stable sort, then blanks. */
  lemma BufferEntry<P>(items: seq<Entry<P>>, k: nat, blank: Entry<P>, i: nat)
    requires i < k && AllExceed(items, blank.score)
    ensures Offered(items, |items|, k, blank)[i] == if i < |items| then PythonSort(items)[i] else blank
  {
    var s := Scores(items);
    AllAbove(s, blank.score, |s|);
    BufferIsSortedPrefix(items, |items|, k, blank);
    SortedMultiset(s, Indices(|items|));
  }
}

/** What in-storage filtering selects: the scores of the pages that it scans, and the best candidates by them. */
module BackendTopk {
  import opened Options
  import opened Arithmetic
  import opened Wire
  import opened Softmax
  import R = Ranking
  import opened Selection
  import opened BackendStore
  import opened BackendRuns

  /** The score of a page's bytes, under a shape and for a number of tokens. */
  datatype Scorer = Scorer(of: (Bytes, Option<Shape>, int) -> real)

  datatype Hit = Hit(score: real, block: int, tokens: int)

  /** The bytes scanned for a candidate: its keys, or the start of the file if it is not stored. */
  function ScannedPage(cfg: Config, s: Store, key: Key): Bytes
    requires StoreOk(cfg, s)
  {
    if key in s.table then Stored(cfg, s, key).k else s.file[..Min(|s.file|, MISSING_PAGE)]
  }

  function PageScores(cfg: Config, s: Store, l: int, cands: Cands, scorer: Scorer): (scores: seq<real>)
    requires StoreOk(cfg, s)
    ensures |scores| == |cands|
  {
    seq(|cands|, i requires 0 <= i < |cands| => PageScore(cfg, s, l, cands[i], scorer))
  }

  function PageScore(cfg: Config, s: Store, l: int, cand: (int, int), scorer: Scorer): real
    requires StoreOk(cfg, s)
  {
    scorer.of(ScannedPage(cfg, s, (l, cand.0)), PageShape(cfg, s, (l, cand.0)), cand.1)
  }

  function HitAt(scores: seq<real>, cands: Cands, i: nat): Hit
    requires i < |scores| == |cands|
  {
    Hit(scores[i], cands[i].0, cands[i].1)
  }

  /** The kernel's picks, with the scores it puts beside them. */
  function NativeHits(scores: seq<real>, topK: nat, cands: Cands): (hits: seq<Hit>)
    requires |scores| == |cands|
    ensures |hits| == Min(topK, |cands|)
  {
    var picks, beside := Picks(scores, topK), PickScores(scores, topK);
    seq(|picks|, i requires 0 <= i < |picks| => HitAt(scores, cands, picks[i]).(score := beside[i]))
  }

  lemma SortedLength(scores: seq<real>)
    ensures |R.Sorted(scores, R.Indices(|scores|))| == |scores|
  {
    R.SortedMultiset(scores, R.Indices(|scores|));
    assert |R.Sorted(scores, R.Indices(|scores|))| == |multiset(R.Sorted(scores, R.Indices(|scores|)))|;
    assert |R.Indices(|scores|)| == |multiset(R.Indices(|scores|))|;
  }

  /** The candidates in sorted order: `sort(reverse=True)`. */
  function SortedHits(scores: seq<real>, cands: Cands): (hits: seq<Hit>)
    requires |scores| == |cands|
    ensures |hits| == |cands|
  {
    SortedLength(scores);
    var order := R.Sorted(scores, R.Indices(|scores|));
    seq(|order|, i requires 0 <= i < |order| => HitAt(scores, cands, order[i]))
  }

  /** The result of a filter: what the kernel picks, or the sorted list cut at `top_k` as Python cuts it. */
  function Hits(native: bool, scores: seq<real>, topK: int, cands: Cands): seq<Hit>
    requires |scores| == |cands|
  {
    if native then NativeHits(scores, if topK > 0 then topK else 0, cands)
    else SortedHits(scores, cands)[..SliceLength(|cands|, topK)]
  }

  /** The hits are the first of `order`, which ranks all candidates, earlier ones first among equals. */
  ghost predicate AreFirst(hits: seq<Hit>, scores: seq<real>, cands: Cands, order: seq<nat>)
    requires |scores| == |cands|
  {
    && R.IsRanking(scores, R.Indices(|scores|), order) && |hits| <= |order|
    && forall i :: 0 <= i < |hits| ==>
         hits[i] == Hit(scores[order[i]], cands[order[i]].0, cands[order[i]].1)
  }

  lemma SortedHitsAreFirst(scores: seq<real>, cands: Cands, n: nat)
    requires |scores| == |cands| && n <= |cands|
    ensures AreFirst(SortedHits(scores, cands)[..n], scores, cands, R.Sorted(scores, R.Indices(|scores|)))
  {
    R.SortedIsRanking(scores, R.Indices(|scores|));
    SortedLength(scores);
  }

  /** If every score exceeds -1e30, the kernel selects what the sorted list does. */
  lemma NativeAgrees(scores: seq<real>, topK: nat, cands: Cands)
    requires |scores| == |cands| && forall b :: 0 <= b < |scores| ==> scores[b] > MIN_LOGIT
    ensures NativeHits(scores, topK, cands) == SortedHits(scores, cands)[..Min(topK, |cands|)]
  {
    forall i | 0 <= i < Min(topK, |cands|) ensures NativeHits(scores, topK, cands)[i] == SortedHits(scores, cands)[i] {
      PickedScore(scores, topK, i);
      PicksAreBest(scores, topK);
    }
  }

  lemma PickedScore(scores: seq<real>, topK: nat, i: nat)
    requires (forall b :: 0 <= b < |scores| ==> scores[b] > MIN_LOGIT) && i < Min(topK, |scores|)
    ensures PickScores(scores, topK)[i] == scores[Picks(scores, topK)[i]]
  {
    R.AllAbove(scores, MIN_LOGIT, |scores|);
    SortedLength(scores);
  }

  /**
   What a filter returns is the best candidates by score, in order, earlier ones first among equals: with
   the NumPy fallback always, with the native kernel if every score exceeds -1e30.
   */
  lemma HitsAreBest(native: bool, scores: seq<real>, topK: int, cands: Cands)
    requires |scores| == |cands|
    requires native ==> topK > 0 && forall b :: 0 <= b < |scores| ==> scores[b] > MIN_LOGIT
    ensures var hits := Hits(native, scores, topK, cands);
      && |hits| == (if topK >= 0 then Min(topK, |cands|) else if |cands| + topK > 0 then |cands| + topK else 0)
      && exists order :: AreFirst(hits, scores, cands, order)
  {
    if native { NativeAgrees(scores, topK, cands); }
    SortedHitsAreFirst(scores, cands, SliceLength(|cands|, topK));
  }

  /** After every run a stored candidate is scored by its latest keys. */
  lemma LatestIsScored(cfg: Config, ops: seq<Op>, l: int, cands: Cands, scorer: Scorer, i: nat)
    requires ConfigOk(cfg) && i < |cands| && (l, cands[i].0) in Contents(ops)
    ensures var x := Contents(ops)[(l, cands[i].0)];
      PageScores(cfg, Run(cfg, ops), l, cands, scorer)[i] == scorer.of(x.k.bytes, ShapeOf(cfg, x.k), cands[i].1)
  {
    RunMaps(cfg, ops);
    LatestIsScanned(cfg, Run(cfg, ops), Contents(ops), (l, cands[i].0));
  }

  lemma LatestIsScanned(cfg: Config, s: Store, blocks: map<Key, Block>, key: Key)
    requires Refines(cfg, s, blocks) && key in blocks
    ensures ScannedPage(cfg, s, key) == blocks[key].k.bytes && PageShape(cfg, s, key) == ShapeOf(cfg, blocks[key].k)
  {
    assert Stored(cfg, s, key) == PageOf(blocks[key]) && EntryFits(cfg, s.table[key], blocks[key]);
  }
}

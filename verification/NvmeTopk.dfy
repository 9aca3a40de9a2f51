/**
 What an in-storage top-k answers: the readable candidates with the best scores, each under its id, where a
 score is that of the page's bytes in the precision that flags and page length call for.
 */
module NvmeTopk {
  import opened Options
  import opened Arithmetic
  import opened Wire
  import opened NvmeProtocol
  import opened NvmeScoring
  import opened NvmeKernel
  import R = Ranking

  /** The environment in which pages are scored by the kernel and scores rounded to words. */
  function KernelScoring(n: Numbers): Scoring {
    Scoring((half, h, query, page, tokens) => ScoreWord(n, half, h, query, page, tokens),
            (word: Word) => WordValue(n, word))
  }

  function WordValue(n: Numbers, word: Word): real { n.value(LE(word, 4)) }

  function ScoreWord(n: Numbers, half: bool, h: TopkHeader, query: Bytes, page: Bytes, tokens: nat): Word {
    var d := DimsOf(h, Candidate(0, 0, 0, tokens));
    if d.tokens > 0 && d.qHeads > 0 ==> Ratio(d) > 0
    then n.round(PageScore(n, half, d, n.value(LE(h.scale, 4)), query, page)) else 0
  }

  // ------------------------------------------------------------------ what the answer must be

  /** The page, as far as the buffer takes it, lies on the device. */
  predicate Readable(dev: Bytes, c: Candidate) {
    var len := Min(c.length, BUFFER_SIZE);
    c.offset + len < MAX_OFFSET && (len == 0 || c.offset + len <= |dev|)
  }

  function PageBytes(dev: Bytes, c: Candidate): Bytes
    requires Readable(dev, c)
  {
    var len := Min(c.length, BUFFER_SIZE);
    if len == 0 then [] else dev[c.offset..c.offset + len]
  }

  /** Every readable candidate has the score of its page. */
  ghost predicate AreScores(n: Numbers, half: bool, h: TopkHeader, query: Bytes, dev: Bytes, cands: seq<Candidate>,
                            scores: seq<real>) {
    && |scores| == |cands|
    && forall j :: 0 <= j < |cands| && Readable(dev, cands[j]) ==>
         IsPageScore(n, half, DimsOf(h, cands[j]), n.value(LE(h.scale, 4)), query, PageBytes(dev, cands[j]), scores[j])
  }

  /** Does the candidate compete for a place?  Its page must be readable and its score exceed -1e30. */
  predicate Competes(n: Numbers, dev: Bytes, c: Candidate, score: real) {
    Readable(dev, c) && WordValue(n, n.round(score)) > WordValue(n, BLANK_WORD)
  }

  /** The higher score goes first, and among equal ones the earlier candidate. */
  predicate Before(n: Numbers, scores: seq<real>, i: nat, j: nat)
    requires i < |scores| && j < |scores|
  {
    var a, b := WordValue(n, n.round(scores[i])), WordValue(n, n.round(scores[j]));
    a > b || (a == b && i < j)
  }

  /** `order` lists the candidates that compete, each once, best first. */
  ghost predicate IsOrder(n: Numbers, dev: Bytes, cands: seq<Candidate>, scores: seq<real>, order: seq<nat>)
    requires |scores| == |cands|
  {
    && (forall a :: 0 <= a < |order| ==>
          order[a] < |cands| && Competes(n, dev, cands[order[a]], scores[order[a]]))
    && (forall j :: 0 <= j < |cands| && Competes(n, dev, cands[j], scores[j]) ==> j in order)
    && (forall a, b :: 0 <= a < b < |order| ==> Before(n, scores, order[a], order[b]))
  }

  /** The first places go to the best candidates, with id, rounded score and token count; what is left is blank. */
  ghost predicate IsAnswer(n: Numbers, half: bool, h: TopkHeader, query: Bytes, dev: Bytes, cands: seq<Candidate>,
                           items: seq<TopItem>, scores: seq<real>, order: seq<nat>) {
    && AreScores(n, half, h, query, dev, cands, scores)
    && IsOrder(n, dev, cands, scores, order)
    && |items| == Min(h.topK, h.candidates)
    && forall i :: 0 <= i < |items| ==>
         items[i] == if i < |order| then TopItem(cands[order[i]].id, n.round(scores[order[i]]), cands[order[i]].tokens)
                     else TopItem(0, BLANK_WORD, 0)
  }

  // ------------------------------------------------------------------ pages and scores

  lemma ReadableIsPage(dev: Bytes, c: Candidate)
    ensures Page(dev, c).Some? <==> Readable(dev, c)
    ensures Readable(dev, c) ==>
      Page(dev, c).value == PageBytes(dev, c) && |PageBytes(dev, c)| == Min(c.length, BUFFER_SIZE)
  {
  }

  /** The scores that the kernel computes. */
  function KernelScores(n: Numbers, half: bool, h: TopkHeader, query: Bytes, dev: Bytes,
                        cands: seq<Candidate>): (scores: seq<real>)
    ensures |scores| == |cands|
  {
    seq(|cands|, j requires 0 <= j < |cands| => KernelScore(n, half, h, query, dev, cands[j]))
  }

  function KernelScore(n: Numbers, half: bool, h: TopkHeader, query: Bytes, dev: Bytes, c: Candidate): real {
    var d := DimsOf(h, c);
    if Readable(dev, c) && (d.tokens > 0 && d.qHeads > 0 ==> Ratio(d) > 0)
    then PageScore(n, half, d, n.value(LE(h.scale, 4)), query, PageBytes(dev, c)) else 0.0
  }

  lemma KernelScoreIs(n: Numbers, half: bool, h: TopkHeader, query: Bytes, dev: Bytes, c: Candidate)
    requires Readable(dev, c) && Scorable(half, h, c) && |query| == QueryBytes(h)
    ensures IsPageScore(n, half, DimsOf(h, c), n.value(LE(h.scale, 4)), query, PageBytes(dev, c),
                        KernelScore(n, half, h, query, dev, c))
    ensures n.round(KernelScore(n, half, h, query, dev, c))
         == ScoreWord(n, half, h, query, PageBytes(dev, c), c.tokens)
  {
    ReadableIsPage(dev, c);
    ScorableIsInside(half, h, c, query, PageBytes(dev, c));
    PageScoreIs(n, half, DimsOf(h, c), n.value(LE(h.scale, 4)), query, PageBytes(dev, c));
  }

  /** The readable candidates, in order. */
  function ReadableOnes(dev: Bytes, cands: seq<Candidate>): (ids: seq<nat>)
    ensures ListsReadable(dev, cands, ids)
  {
    if cands == [] then []
    else
      var n := |cands| - 1;
      ReadableOnes(dev, cands[..n]) + if Readable(dev, cands[n]) then [n] else []
  }

  function EntryOf(n: Numbers, c: Candidate, score: real): R.Entry<TopItem> {
    R.Entry(TopItem(c.id, n.round(score), c.tokens), WordValue(n, n.round(score)))
  }

  /** The daemon's list of scored candidates is the list of the readable ones. */
  lemma {:induction false} ScoredAreReadable(n: Numbers, half: bool, h: TopkHeader, query: Bytes, dev: Bytes,
                                             cands: seq<Candidate>)
    requires |query| == QueryBytes(h)
    requires forall j :: 0 <= j < |cands| && Readable(dev, cands[j]) ==> Scorable(half, h, cands[j])
    ensures Matches(n, cands, KernelScores(n, half, h, query, dev, cands), ReadableOnes(dev, cands),
                    Scored(KernelScoring(n), half, h, query, dev, cands))
  {
    if cands != [] {
      var m := |cands| - 1;
      ScoredAreReadable(n, half, h, query, dev, cands[..m]);
      LastIsScored(n, half, h, query, dev, cands);
      MatchesMore(n, cands, KernelScores(n, half, h, query, dev, cands), ReadableOnes(dev, cands[..m]),
                  Scored(KernelScoring(n), half, h, query, dev, cands[..m]));
      assert KernelScores(n, half, h, query, dev, cands)[..m] == KernelScores(n, half, h, query, dev, cands[..m]);
    }
  }

  /** The entries are those of the candidates `ids`. */
  predicate Matches(n: Numbers, cands: seq<Candidate>, scores: seq<real>, ids: seq<nat>, items: seq<R.Entry<TopItem>>) {
    && |items| == |ids| && |scores| == |cands|
    && forall a :: 0 <= a < |ids| ==> ids[a] < |cands| && items[a] == EntryOf(n, cands[ids[a]], scores[ids[a]])
  }

  lemma MatchesMore(n: Numbers, cands: seq<Candidate>, scores: seq<real>, ids: seq<nat>, items: seq<R.Entry<TopItem>>)
    requires cands != [] && |scores| == |cands| && Matches(n, cands[..|cands|-1], scores[..|cands|-1], ids, items)
    ensures Matches(n, cands, scores, ids, items)
    ensures Matches(n, cands, scores, ids + [|cands| - 1],
                    items + [EntryOf(n, cands[|cands|-1], scores[|cands|-1])])
  {
  }

  lemma LastIsScored(n: Numbers, half: bool, h: TopkHeader, query: Bytes, dev: Bytes, cands: seq<Candidate>)
    requires |query| == QueryBytes(h) && cands != []
    requires Readable(dev, cands[|cands|-1]) ==> Scorable(half, h, cands[|cands|-1])
    ensures var m, env := |cands| - 1, KernelScoring(n);
      Scored(env, half, h, query, dev, cands)
      == Scored(env, half, h, query, dev, cands[..m])
         + if Readable(dev, cands[m])
           then [EntryOf(n, cands[m], KernelScore(n, half, h, query, dev, cands[m]))] else []
  {
    var c := cands[|cands|-1];
    ReadableIsPage(dev, c);
    if Readable(dev, c) { KernelScoreIs(n, half, h, query, dev, c); }
  }

  // ------------------------------------------------------------------ the order

  /** `ids` lists the readable candidates in order. */
  predicate ListsReadable(dev: Bytes, cands: seq<Candidate>, ids: seq<nat>) {
    && R.Ascending(ids)
    && (forall a :: 0 <= a < |ids| ==> ids[a] < |cands| && Readable(dev, cands[ids[a]]))
    && (forall j :: 0 <= j < |cands| && Readable(dev, cands[j]) ==> j in ids)
  }

  function OrderOf(ids: seq<nat>, r: seq<nat>): (order: seq<nat>)
    requires forall i :: 0 <= i < |r| ==> r[i] < |ids|
    ensures |order| == |r|
  {
    seq(|r|, i requires 0 <= i < |r| => ids[r[i]])
  }

  /** A ranking of the listed entries above the blank one orders the candidates. */
  lemma RankingOrders(n: Numbers, dev: Bytes, cands: seq<Candidate>, scores: seq<real>, ids: seq<nat>,
                      items: seq<R.Entry<TopItem>>, r: seq<nat>)
    requires ListsReadable(dev, cands, ids) && Matches(n, cands, scores, ids, items)
    requires r == R.RankedAbove(R.Scores(items), WordValue(n, BLANK_WORD), |items|)
    ensures forall i :: 0 <= i < |r| ==> r[i] < |ids|
    ensures IsOrder(n, dev, cands, scores, OrderOf(ids, r))
  {
    var s, floor := R.Scores(items), WordValue(n, BLANK_WORD);
    R.AboveIs(s, floor, |items|);
    R.SortedIsRanking(s, R.Above(s, floor, |items|));
    RankedMembers(s, R.Above(s, floor, |items|), r);
    RankedAreAbove(s, floor, |items|, r);
    ScoresOfEntries(n, cands, scores, ids, items);
    OrderCompetes(n, dev, cands, scores, ids, s, r);
    OrderComplete(n, dev, cands, scores, ids, s, r);
    OrderSorted(n, dev, cands, scores, ids, s, r);
  }

  /** The scores that are ranked are the values of the rounded ones. */
  predicate RanksValues(n: Numbers, cands: seq<Candidate>, scores: seq<real>, ids: seq<nat>, s: seq<real>) {
    && |s| == |ids| && |scores| == |cands|
    && forall a :: 0 <= a < |ids| ==> ids[a] < |cands| && s[a] == WordValue(n, n.round(scores[ids[a]]))
  }

  lemma ScoresOfEntries(n: Numbers, cands: seq<Candidate>, scores: seq<real>, ids: seq<nat>,
                        items: seq<R.Entry<TopItem>>)
    requires Matches(n, cands, scores, ids, items)
    ensures RanksValues(n, cands, scores, ids, R.Scores(items))
  {
  }

  lemma RankedAreAbove(s: seq<real>, floor: real, m: nat, r: seq<nat>)
    requires m == |s| && forall x :: x in r <==> x in R.Above(s, floor, m)
    ensures forall i :: 0 <= i < |r| ==> r[i] < |s| && s[r[i]] > floor
    ensures forall a :: 0 <= a < |s| && s[a] > floor ==> a in r
  {
    R.AboveIs(s, floor, m);
    forall i | 0 <= i < |r| ensures r[i] < |s| && s[r[i]] > floor {
      assert r[i] in R.Above(s, floor, m);
    }
  }

  lemma OrderCompetes(n: Numbers, dev: Bytes, cands: seq<Candidate>, scores: seq<real>, ids: seq<nat>, s: seq<real>,
                      r: seq<nat>)
    requires ListsReadable(dev, cands, ids) && RanksValues(n, cands, scores, ids, s)
    requires forall i :: 0 <= i < |r| ==> r[i] < |s| && s[r[i]] > WordValue(n, BLANK_WORD)
    ensures var order := OrderOf(ids, r);
      forall i :: 0 <= i < |order| ==> order[i] < |cands| && Competes(n, dev, cands[order[i]], scores[order[i]])
  {
  }

  lemma OrderComplete(n: Numbers, dev: Bytes, cands: seq<Candidate>, scores: seq<real>, ids: seq<nat>, s: seq<real>,
                      r: seq<nat>)
    requires ListsReadable(dev, cands, ids) && RanksValues(n, cands, scores, ids, s)
    requires forall i :: 0 <= i < |r| ==> r[i] < |s|
    requires forall a :: 0 <= a < |s| && s[a] > WordValue(n, BLANK_WORD) ==> a in r
    ensures forall j :: 0 <= j < |cands| && Competes(n, dev, cands[j], scores[j]) ==> j in OrderOf(ids, r)
  {
    forall j | 0 <= j < |cands| && Competes(n, dev, cands[j], scores[j]) ensures j in OrderOf(ids, r) {
      var a :| 0 <= a < |ids| && ids[a] == j;
      var i :| 0 <= i < |r| && r[i] == a;
      assert OrderOf(ids, r)[i] == j;
    }
  }

  lemma OrderSorted(n: Numbers, dev: Bytes, cands: seq<Candidate>, scores: seq<real>, ids: seq<nat>, s: seq<real>,
                    r: seq<nat>)
    requires ListsReadable(dev, cands, ids) && RanksValues(n, cands, scores, ids, s)
    requires R.Within(s, r) && forall a, b :: 0 <= a < b < |r| ==> R.Precedes(s, r[a], r[b])
    ensures var order := OrderOf(ids, r);
      forall a, b :: 0 <= a < b < |order| ==> Before(n, scores, order[a], order[b])
  {
    var order := OrderOf(ids, r);
    forall a, b | 0 <= a < b < |order| ensures Before(n, scores, order[a], order[b]) {
      assert R.Precedes(s, r[a], r[b]);
    }
  }

  lemma RankedMembers(s: seq<real>, above: seq<nat>, r: seq<nat>)
    requires multiset(r) == multiset(above)
    ensures forall x :: x in r <==> x in above
  {
    forall x ensures x in r <==> x in above {
      assert x in r <==> x in multiset(r);
    }
  }

  /**
   The daemon's answer to a top-k request, whatever its flags: pages are read as half precision if the
   flags are 1 or the first page has the length of 16 tokens of two-byte floats, and the places go to the
   best readable candidates.
   */
  lemma TopItemsAnswer(n: Numbers, flags: nat, h: TopkHeader, query: Bytes, dev: Bytes, cands: seq<Candidate>,
                       half: bool) returns (scores: seq<real>, order: seq<nat>)
    requires half <==> flags == 1
                       || (cands != [] && cands[0].length == (16 * h.kvHeads * h.headDim * 2) % 0x1_0000_0000)
    requires |query| == QueryBytes(h) && AllScorable(flags, h, dev, cands)
    ensures IsAnswer(n, half, h, query, dev, cands, TopItems(KernelScoring(n), flags, h, query, dev, cands), scores,
                     order)
  {
    ReadableAreScorable(flags, h, dev, cands, half);
    scores := KernelScores(n, half, h, query, dev, cands);
    order := ScoredAnswer(n, half, h, query, dev, cands);
  }

  lemma ReadableAreScorable(flags: nat, h: TopkHeader, dev: Bytes, cands: seq<Candidate>, half: bool)
    requires half == IsFp16(flags, h, cands) && AllScorable(flags, h, dev, cands)
    ensures forall j :: 0 <= j < |cands| && Readable(dev, cands[j]) ==> Scorable(half, h, cands[j])
  {
    forall j | 0 <= j < |cands| && Readable(dev, cands[j]) ensures Scorable(half, h, cands[j]) {
      ReadableIsPage(dev, cands[j]);
      assert CandidateOk(half, h, dev, cands[j]);
    }
  }

  lemma ScoredAnswer(n: Numbers, half: bool, h: TopkHeader, query: Bytes, dev: Bytes, cands: seq<Candidate>)
    returns (order: seq<nat>)
    requires |query| == QueryBytes(h)
    requires forall j :: 0 <= j < |cands| && Readable(dev, cands[j]) ==> Scorable(half, h, cands[j])
    ensures var items := Scored(KernelScoring(n), half, h, query, dev, cands);
      IsAnswer(n, half, h, query, dev, cands,
               Payloads(R.Offered(items, |items|, Min(h.topK, h.candidates), Blank(KernelScoring(n)))),
               KernelScores(n, half, h, query, dev, cands), order)
  {
    KernelScoresAre(n, half, h, query, dev, cands);
    ScoredAreReadable(n, half, h, query, dev, cands);
    order := EntriesAnswer(n, half, h, query, dev, cands, KernelScores(n, half, h, query, dev, cands),
                           ReadableOnes(dev, cands), Scored(KernelScoring(n), half, h, query, dev, cands));
  }

  lemma EntriesAnswer(n: Numbers, half: bool, h: TopkHeader, query: Bytes, dev: Bytes, cands: seq<Candidate>,
                      scores: seq<real>, ids: seq<nat>, items: seq<R.Entry<TopItem>>) returns (order: seq<nat>)
    requires AreScores(n, half, h, query, dev, cands, scores)
    requires ListsReadable(dev, cands, ids) && Matches(n, cands, scores, ids, items)
    ensures IsAnswer(n, half, h, query, dev, cands,
                     Payloads(R.Offered(items, |items|, Min(h.topK, h.candidates), Blank(KernelScoring(n)))), scores,
                     order)
  {
    var r := R.RankedAbove(R.Scores(items), WordValue(n, BLANK_WORD), |items|);
    RankingOrders(n, dev, cands, scores, ids, items, r);
    order := OrderOf(ids, r);
    PlacesAre(n, cands, scores, ids, items, r, Min(h.topK, h.candidates));
    R.BufferIsSortedPrefix(items, |items|, Min(h.topK, h.candidates), Blank(KernelScoring(n)));
  }

  lemma KernelScoresAre(n: Numbers, half: bool, h: TopkHeader, query: Bytes, dev: Bytes, cands: seq<Candidate>)
    requires |query| == QueryBytes(h)
    requires forall j :: 0 <= j < |cands| && Readable(dev, cands[j]) ==> Scorable(half, h, cands[j])
    ensures AreScores(n, half, h, query, dev, cands, KernelScores(n, half, h, query, dev, cands))
  {
    forall j | 0 <= j < |cands| && Readable(dev, cands[j])
      ensures IsPageScore(n, half, DimsOf(h, cands[j]), n.value(LE(h.scale, 4)), query, PageBytes(dev, cands[j]),
                          KernelScores(n, half, h, query, dev, cands)[j])
    {
      KernelScoreIs(n, half, h, query, dev, cands[j]);
    }
  }

  /** The places of the insertion buffer. */
  lemma PlacesAre(n: Numbers, cands: seq<Candidate>, scores: seq<real>, ids: seq<nat>, items: seq<R.Entry<TopItem>>,
                  r: seq<nat>, k: nat)
    requires Matches(n, cands, scores, ids, items) && forall i :: 0 <= i < |r| ==> r[i] < |ids|
    requires r == R.RankedAbove(R.Scores(items), WordValue(n, BLANK_WORD), |items|)
    ensures var places := Payloads(R.Offered(items, |items|, k, Blank(KernelScoring(n))));
      forall i :: 0 <= i < k ==>
        places[i] == if i < |r| then EntryOf(n, cands[ids[r[i]]], scores[ids[r[i]]]).payload
                     else TopItem(0, BLANK_WORD, 0)
  {
    R.BufferIsSortedPrefix(items, |items|, k, Blank(KernelScoring(n)));
  }

  /**
   The outcome of the client's call: single precision unless the client asked for half precision, or the
   first page has the length of 16 tokens of two-byte floats.
   */
  lemma TopkOutcome(n: Numbers, fp16: bool, h: TopkHeader, query: Bytes, cands: seq<Candidate>, dev: Bytes, half: bool)
    returns (scores: seq<real>, order: seq<nat>)
    requires var req := Topk(fp16, h, query, cands); Sendable(req) && InFrame(req, dev)
    requires half <==> fp16 || cands[0].length == (16 * h.kvHeads * h.headDim * 2) % 0x1_0000_0000
    ensures var outcome := Direct(KernelScoring(n), Topk(fp16, h, query, cands), dev);
      outcome.Top? && IsAnswer(n, half, h, query, dev, cands, outcome.items, scores, order)
  {
    scores, order := TopItemsAnswer(n, if fp16 then 1 else 0, h, query, dev, cands, half);
  }
}

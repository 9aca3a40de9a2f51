/**
 Which candidates of an in-storage top-k the daemon can score: its loops read a page that was sized
 by the client, with head counts and token counts that the client names.
 */
module NvmeScoring {
  import opened Arithmetic
  import opened Wire
  import opened NvmeProtocol

  /** All numbers are positive ints, there is a query head per key head, and the query can be indexed. */
  predicate Ordinary(h: TopkHeader, c: Candidate) {
    && 0 < c.tokens < I32 && 0 < h.kvHeads <= h.qHeads < I32 && 0 < h.headDim < I32
    && Product(h.qHeads, h.headDim) < I32
  }

  /** The elements up to the end of the last key vector that the loops read. */
  function Reach(h: TopkHeader, c: Candidate): int
    requires Ordinary(h, c)
  {
    RatioPositive(h.qHeads, h.kvHeads);
    Product(c.tokens - 1, Product(h.kvHeads, h.headDim)) + Product((h.qHeads - 1) / (h.qHeads / h.kvHeads), h.headDim)
        + h.headDim
  }

  lemma RatioPositive(qHeads: nat, kvHeads: nat)
    requires kvHeads > 0
    ensures qHeads / kvHeads > 0 <==> kvHeads <= qHeads
  {
    QuotientBelow(qHeads, kvHeads, 1);
  }

  lemma StrideFits(h: TopkHeader, c: Candidate)
    requires Ordinary(h, c)
    ensures 0 < Product(h.kvHeads, h.headDim) < I32
  {
    MulMonotone(h.kvHeads, h.qHeads, h.headDim);
    MulMonotone(1, h.kvHeads, h.headDim);
  }

  lemma QueryInside(h: TopkHeader, c: Candidate, qh: nat)
    requires Ordinary(h, c) && qh < h.qHeads
    ensures 0 <= Product(qh, h.headDim) && Product(qh, h.headDim) + h.headDim <= QueryWords(h) < I32
  {
    MulMonotone(qh + 1, h.qHeads, h.headDim);
    MulStep(qh, h.headDim);
    SmallQuotient(Product(h.qHeads, h.headDim), U32);
  }

  lemma SumMonotone(t: nat, last: nat, stride: nat, k: nat, lastHead: nat, headDim: nat)
    requires t <= last && k <= lastHead
    ensures 0 <= Product(t, stride) + Product(k, headDim) <= Product(last, stride) + Product(lastHead, headDim)
  {
    MulMonotone(t, last, stride);
    MulMonotone(k, lastHead, headDim);
  }

  /** The reads at `t` and `qh` end no later than the last ones. */
  lemma ReadsEnd(h: TopkHeader, c: Candidate, t: nat, qh: nat)
    requires Ordinary(h, c) && t < c.tokens && qh < h.qHeads
    ensures h.qHeads / h.kvHeads > 0
    ensures 0 <= Product(t, Product(h.kvHeads, h.headDim)) + Product(qh / (h.qHeads / h.kvHeads), h.headDim)
         <= Reach(h, c) - h.headDim
  {
    RatioPositive(h.qHeads, h.kvHeads);
    StrideFits(h, c);
    var ratio := h.qHeads / h.kvHeads;
    QuotientMonotone(qh, h.qHeads - 1, ratio);
    SumMonotone(t, c.tokens - 1, Product(h.kvHeads, h.headDim), qh / ratio, (h.qHeads - 1) / ratio, h.headDim);
  }

  lemma InsideBelow(fp16: bool, h: TopkHeader, c: Candidate, t: nat, qh: nat)
    requires Ordinary(h, c) && t < c.tokens && qh < h.qHeads
    requires Product(Reach(h, c), Width(fp16)) <= Min(c.length, BUFFER_SIZE)
    ensures h.qHeads / h.kvHeads > 0
    ensures ReadsInside(Min(c.length, BUFFER_SIZE), Width(fp16), QueryWords(h), h.kvHeads, h.headDim,
                        h.qHeads / h.kvHeads, t, qh)
  {
    ReadsEnd(h, c, t, qh);
    QueryInside(h, c, qh);
    var key := Product(t, Product(h.kvHeads, h.headDim)) + Product(qh / (h.qHeads / h.kvHeads), h.headDim);
    MulMonotone(key + h.headDim, Reach(h, c), Width(fp16));
  }

  lemma LastOutside(fp16: bool, h: TopkHeader, c: Candidate)
    requires Ordinary(h, c)
    requires Product(Reach(h, c), Width(fp16)) > Min(c.length, BUFFER_SIZE)
    ensures h.qHeads / h.kvHeads > 0
    ensures !ReadsInside(Min(c.length, BUFFER_SIZE), Width(fp16), QueryWords(h), h.kvHeads, h.headDim,
                         h.qHeads / h.kvHeads, c.tokens - 1, h.qHeads - 1)
  {
    RatioPositive(h.qHeads, h.kvHeads);
  }

  lemma ScorableIfInside(fp16: bool, h: TopkHeader, c: Candidate)
    requires Ordinary(h, c)
    ensures h.qHeads / h.kvHeads > 0
    ensures Scorable(fp16, h, c)
       <==> LoopsInside(Min(c.length, BUFFER_SIZE), Width(fp16), QueryWords(h), c.tokens, h.qHeads, h.kvHeads,
                        h.headDim, h.qHeads / h.kvHeads)
  {
    RatioPositive(h.qHeads, h.kvHeads);
    StrideFits(h, c);
    assert Signed(c.tokens) == c.tokens && Signed(h.qHeads) == h.qHeads;
    assert Signed(h.kvHeads) == h.kvHeads && Signed(h.headDim) == h.headDim;
  }

  /**
   A candidate of ordinary numbers can be scored exactly when its page holds the last key vector that the loops read.
   */
  lemma ScorableIff(fp16: bool, h: TopkHeader, c: Candidate)
    requires Ordinary(h, c)
    ensures Scorable(fp16, h, c) <==> Product(Reach(h, c), Width(fp16)) <= Min(c.length, BUFFER_SIZE)
  {
    ScorableIfInside(fp16, h, c);
    if Product(Reach(h, c), Width(fp16)) <= Min(c.length, BUFFER_SIZE) {
      forall t: int, qh: int | 0 <= t < c.tokens && 0 <= qh < h.qHeads
        ensures ReadsInside(Min(c.length, BUFFER_SIZE), Width(fp16), QueryWords(h), h.kvHeads, h.headDim,
                            h.qHeads / h.kvHeads, t, qh)
      {
        InsideBelow(fp16, h, c, t, qh);
      }
    } else {
      LastOutside(fp16, h, c);
    }
  }

  /** If the key heads divide the query heads, the loops read exactly the candidate's tokens. */
  lemma ReachIsTokens(h: TopkHeader, c: Candidate)
    requires Ordinary(h, c) && h.qHeads % h.kvHeads == 0
    ensures Reach(h, c) == Product(c.tokens, Product(h.kvHeads, h.headDim))
  {
    RatioPositive(h.qHeads, h.kvHeads);
    Divided(h.qHeads, h.kvHeads);
    LastHead(h.kvHeads, h.qHeads / h.kvHeads);
    OneMore(h.kvHeads, h.headDim);
    OneMore(c.tokens, Product(h.kvHeads, h.headDim));
  }

  lemma Divided(q: nat, m: nat)
    requires m > 0 && q % m == 0
    ensures q == m * (q / m)
  {
  }

  lemma OneMore(n: nat, m: int)
    requires n > 0
    ensures Product(n - 1, m) + m == Product(n, m)
  {
  }

  lemma LastHead(kvHeads: nat, ratio: nat)
    requires kvHeads > 0 && ratio > 0
    ensures (kvHeads * ratio - 1) / ratio == kvHeads - 1
  {
    MulStep(kvHeads - 1, ratio);
    QuotientUnique(kvHeads * ratio - 1, ratio, kvHeads - 1, ratio - 1);
  }

  /** So such a candidate can be scored exactly when its page holds its tokens. */
  lemma PageHoldsTokensIff(fp16: bool, h: TopkHeader, c: Candidate)
    requires Ordinary(h, c) && h.qHeads % h.kvHeads == 0
    ensures Scorable(fp16, h, c)
       <==> Product(Product(c.tokens, Product(h.kvHeads, h.headDim)), Width(fp16)) <= Min(c.length, BUFFER_SIZE)
  {
    ScorableIff(fp16, h, c);
    ReachIsTokens(h, c);
  }

  /** With fewer query heads than key heads the head ratio is zero, and the loops divide by it. */
  lemma ZeroRatio(fp16: bool, h: TopkHeader, c: Candidate)
    requires 0 < c.tokens < I32 && 0 < h.qHeads < h.kvHeads < I32
    ensures !Scorable(fp16, h, c)
  {
    RatioPositive(h.qHeads, h.kvHeads);
  }
}

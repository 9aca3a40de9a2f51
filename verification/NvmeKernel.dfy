/**
 What the daemon scores: the elements of the page that it has read, laid out as the scoring kernel
 expects a block's keys, and the floats of the request as its query.
 */
module NvmeKernel {
  import opened Arithmetic
  import opened Sums
  import opened Softmax
  import opened Accumulator
  import opened Wire
  import opened NvmeProtocol
  import opened NvmeScoring
  import opened Kernel

  // ------------------------------------------------------------------ elements

  lemma ElementInside(bytes: nat, width: nat, i: nat)
    requires width > 0 && i < bytes / width
    ensures Times(i, width) + width <= bytes
  {
    QuotientBelow(bytes, width, i + 1);
    MulStep(i, width);
  }

  /** The values of a buffer's elements; a half-precision element is converted when it is loaded. */
  function Elements(buffer: Bytes, width: nat, value: Bytes -> real): (es: Vector)
    requires width > 0
    ensures |es| == |buffer| / width
  {
    seq(|buffer| / width, i requires 0 <= i < |buffer| / width =>
      ElementInside(|buffer|, width, i); value(buffer[Times(i, width)..Times(i, width) + width]))
  }

  /** `n` elements from the position `o` on; beyond the end there is nothing to be read. */
  function Part(es: Vector, o: nat, n: nat): (part: Vector)
    ensures |part| == n
  {
    if o + n <= |es| then es[o..o + n] else seq(n, _ => 0.0)
  }

  /** The key vectors of one token. */
  function KeyRows(es: Vector, o: nat, rows: nat, dim: nat): (row: Matrix)
    ensures Shape(row, rows, dim)
  {
    seq(rows, k requires 0 <= k < rows => Part(es, o + Times(k, dim), dim))
  }

  /** For each token the key vectors that the loops reach from its first one on. */
  function PageKeys(es: Vector, tokens: nat, kvHeads: nat, rows: nat, dim: nat): (K: seq<Matrix>)
    ensures |K| == tokens
  {
    seq(tokens, t requires 0 <= t < tokens => KeyRows(es, Times(t, Times(kvHeads, dim)), rows, dim))
  }

  // ------------------------------------------------------------------ layout

  lemma RowLiesIff(es: Vector, o: nat, x: Matrix, dim: nat, k: nat)
    requires k < |x|
    ensures RowLies(es, o, x, dim, k) <==> o + Times(k, dim) + dim <= |es| && x[k] == Part(es, o + Times(k, dim), dim)
  {
  }

  /** A matrix lies in the buffer exactly if it is what the buffer holds there, and its last row is inside. */
  lemma RowsLieIff(es: Vector, o: nat, x: Matrix, rows: nat, dim: nat)
    ensures FlatMatrix(es, o, x, rows, dim)
       <==> x == KeyRows(es, o, rows, dim) && (rows > 0 ==> o + Times(rows - 1, dim) + dim <= |es|)
  {
    if FlatMatrix(es, o, x, rows, dim) {
      forall k | 0 <= k < rows
        ensures x[k] == KeyRows(es, o, rows, dim)[k] && o + Times(k, dim) + dim <= |es|
      {
        assert RowLies(es, o, x, dim, k);
        RowLiesIff(es, o, x, dim, k);
      }
    } else if x == KeyRows(es, o, rows, dim) && (rows > 0 ==> o + Times(rows - 1, dim) + dim <= |es|) {
      forall k | 0 <= k < rows ensures RowLies(es, o, x, dim, k) {
        MulMonotone(k, rows - 1, dim);
        RowLiesIff(es, o, x, dim, k);
      }
      assert false;
    }
  }

  /** Where the last key vector of the page ends. */
  function End(tokens: nat, kvHeads: nat, rows: nat, dim: nat): nat
    requires tokens > 0 && rows > 0
  {
    Times(tokens - 1, Times(kvHeads, dim)) + Times(rows - 1, dim) + dim
  }

  lemma TokenLiesIff(es: Vector, K: seq<Matrix>, kvHeads: nat, rows: nat, dim: nat, t: nat)
    requires t < |K| && rows > 0
    ensures TokenLies(es, 0, K, kvHeads, rows, dim, t)
       <==> K[t] == PageKeys(es, |K|, kvHeads, rows, dim)[t] && End(t + 1, kvHeads, rows, dim) <= |es|
  {
    RowsLieIff(es, Times(t, Times(kvHeads, dim)), K[t], rows, dim);
  }

  lemma KeysLieIff(es: Vector, K: seq<Matrix>, tokens: nat, kvHeads: nat, rows: nat, dim: nat)
    requires tokens > 0 && rows > 0
    ensures FlatRows(es, 0, K, tokens, kvHeads, rows, dim)
       <==> K == PageKeys(es, tokens, kvHeads, rows, dim) && End(tokens, kvHeads, rows, dim) <= |es|
  {
    if FlatRows(es, 0, K, tokens, kvHeads, rows, dim) {
      forall t | 0 <= t < tokens
        ensures K[t] == PageKeys(es, tokens, kvHeads, rows, dim)[t] && End(t + 1, kvHeads, rows, dim) <= |es|
      {
        assert TokenLies(es, 0, K, kvHeads, rows, dim, t);
        TokenLiesIff(es, K, kvHeads, rows, dim, t);
      }
      assert K[tokens-1] == PageKeys(es, tokens, kvHeads, rows, dim)[tokens-1];
    }
    if K == PageKeys(es, tokens, kvHeads, rows, dim) && End(tokens, kvHeads, rows, dim) <= |es| {
      forall t | 0 <= t < tokens ensures TokenLies(es, 0, K, kvHeads, rows, dim, t) {
        MulMonotone(t, tokens - 1, Times(kvHeads, dim));
        TokenLiesIff(es, K, kvHeads, rows, dim, t);
      }
    }
  }

  // ------------------------------------------------------------------ a candidate's page

  /** The key vectors of a token that the loops reach. */
  function RowsOf(h: TopkHeader): nat
    requires h.kvHeads > 0
  {
    Reached(h.qHeads, h.qHeads / h.kvHeads)
  }

  lemma ReachIsEnd(h: TopkHeader, c: Candidate)
    requires Ordinary(h, c)
    ensures RowsOf(h) > 0 && Reach(h, c) == End(c.tokens, h.kvHeads, RowsOf(h), h.headDim)
  {
    RatioPositive(h.qHeads, h.kvHeads);
  }

  /** So many elements are inside exactly when their bytes are. */
  lemma BytesHold(bytes: nat, width: nat, n: nat)
    requires width > 0
    ensures Product(n, width) <= bytes <==> n <= bytes / width
  {
    QuotientBelow(bytes, width, n);
  }

  /**
   The daemon can score a candidate exactly when the page's elements hold a block's keys as the scoring
   kernel expects them, and then they hold one block only.
   */
  lemma ScorableIffKeysLie(fp16: bool, h: TopkHeader, c: Candidate, page: Bytes, value: Bytes -> real, K: seq<Matrix>)
    requires Ordinary(h, c) && |page| == Min(c.length, BUFFER_SIZE)
    ensures var es := Elements(page, Width(fp16), value);
      FlatRows(es, 0, K, c.tokens, h.kvHeads, RowsOf(h), h.headDim)
      <==> Scorable(fp16, h, c) && K == PageKeys(es, c.tokens, h.kvHeads, RowsOf(h), h.headDim)
  {
    ScorableIff(fp16, h, c);
    ReachIsEnd(h, c);
    BytesHold(|page|, Width(fp16), Reach(h, c));
    KeysLieIff(Elements(page, Width(fp16), value), K, c.tokens, h.kvHeads, RowsOf(h), h.headDim);
  }

  /** The floats of the request are the query, one head after the other. */
  lemma QueryLies(h: TopkHeader, c: Candidate, query: Bytes, value: Bytes -> real)
    requires Ordinary(h, c) && |query| == Product(QueryWords(h), 4)
    ensures var es := Elements(query, 4, value);
      FlatMatrix(es, 0, KeyRows(es, 0, h.qHeads, h.headDim), h.qHeads, h.headDim)
  {
    var es := Elements(query, 4, value);
    QueryInside(h, c, h.qHeads - 1);
    BytesHold(|query|, 4, QueryWords(h));
    RowsLieIff(es, 0, KeyRows(es, 0, h.qHeads, h.headDim), h.qHeads, h.headDim);
  }

  // ------------------------------------------------------------------ the score of a page, byte by byte

  /** The real numbers that 4-byte and 2-byte floats stand for, and the word that a score is rounded to. */
  datatype Numbers = Numbers(value: Bytes -> real, half: Bytes -> real, round: real -> Word)

  /** The C ints that the scoring loops run over; none that is negative runs at all. */
  datatype Dims = Dims(tokens: nat, qHeads: nat, kvHeads: nat, dim: nat)

  function DimsOf(h: TopkHeader, c: Candidate): Dims {
    Dims(Positive(Signed(c.tokens)), Positive(Signed(h.qHeads)), Positive(Signed(h.kvHeads)),
         Positive(Signed(h.headDim)))
  }

  function Ratio(d: Dims): nat { if d.kvHeads > 0 then d.qHeads / d.kvHeads else 1 }

  /** Float `j` of a buffer of `width`-byte floats. */
  function Float(buffer: Bytes, width: nat, j: nat, value: Bytes -> real): real {
    if Times(j, width) + width <= |buffer| then value(buffer[Times(j, width)..Times(j, width) + width]) else 0.0
  }

  /** A key float of the page: two bytes in half precision, four otherwise. */
  function KeyFloat(n: Numbers, half: bool, page: Bytes, j: nat): real {
    if half then Float(page, 2, j, n.half) else Float(page, 4, j, n.value)
  }

  /** Where the vector of a query head starts, and that of its key head in token `t`. */
  function QueryAt(d: Dims, qh: nat): nat { Times(qh, d.dim) }

  function KeyAt(d: Dims, t: nat, qh: nat): nat
    requires Ratio(d) > 0
  {
    Times(t, Times(d.kvHeads, d.dim)) + Times(qh / Ratio(d), d.dim)
  }

  /** One term of the inner product of query head `qh` with its key vector in token `t`. */
  function ByteProduct(n: Numbers, half: bool, query: Bytes, page: Bytes, q: nat, k: nat): nat -> real {
    (i: nat) => Float(query, 4, q + i, n.value) * KeyFloat(n, half, page, k + i)
  }

  function ByteLogit(n: Numbers, half: bool, d: Dims, scale: real, query: Bytes, page: Bytes, t: nat, qh: nat): real
    requires Ratio(d) > 0
  {
    scale * SumTo(ByteProduct(n, half, query, page, QueryAt(d, qh), KeyAt(d, t, qh)), d.dim)
  }

  /** `s` is the greatest logit of all tokens and query heads, or -1e30 if that is greater. */
  ghost predicate IsPageScore(n: Numbers, half: bool, d: Dims, scale: real, query: Bytes, page: Bytes, s: real) {
    && s >= MIN_LOGIT
    && (d.tokens > 0 && d.qHeads > 0 ==> Ratio(d) > 0)
    && (forall t: nat, qh: nat | t < d.tokens && qh < d.qHeads :: ByteLogit(n, half, d, scale, query, page, t, qh) <= s)
    && (s == MIN_LOGIT || exists t: nat, qh: nat ::
          t < d.tokens && qh < d.qHeads && s == ByteLogit(n, half, d, scale, query, page, t, qh))
  }

  function QueryOf(n: Numbers, d: Dims, query: Bytes): (Q: Matrix)
    ensures Shape(Q, d.qHeads, d.dim)
  {
    KeyRows(Elements(query, 4, n.value), 0, d.qHeads, d.dim)
  }

  function KeysOf(n: Numbers, half: bool, d: Dims, page: Bytes): (K: seq<Matrix>)
    ensures |K| == d.tokens
  {
    PageKeys(Elements(page, Width(half), if half then n.half else n.value), d.tokens, d.kvHeads,
             Reached(d.qHeads, Ratio(d)), d.dim)
  }

  lemma DimsMatch(n: Numbers, half: bool, d: Dims, query: Bytes, page: Bytes)
    requires d.tokens > 0 && d.qHeads > 0 ==> Ratio(d) > 0
    ensures MatchingBlock(QueryOf(n, d, query), KeysOf(n, half, d, page), Ratio(d))
  {
    if d.tokens > 0 && d.qHeads > 0 {
      ReachedFits(d.qHeads, Ratio(d));
      assert GroupsFit(d.qHeads, Reached(d.qHeads, Ratio(d)), Ratio(d));
    }
    forall t | 0 <= t < d.tokens ensures Matching(QueryOf(n, d, query), KeysOf(n, half, d, page)[t], Ratio(d)) {
      ShapesMatch(QueryOf(n, d, query), KeysOf(n, half, d, page)[t], d.qHeads, Reached(d.qHeads, Ratio(d)), d.dim,
                  Ratio(d));
    }
  }

  lemma ShapesMatch(Q: Matrix, row: Matrix, qHeads: nat, rows: nat, dim: nat, ratio: nat)
    requires Shape(Q, qHeads, dim) && Shape(row, rows, dim) && GroupsFit(qHeads, rows, ratio)
    ensures Matching(Q, row, ratio)
  {
  }

  /** What the scoring kernel computes on those numbers. */
  function PageScore(n: Numbers, half: bool, d: Dims, scale: real, query: Bytes, page: Bytes): real
    requires d.tokens > 0 && d.qHeads > 0 ==> Ratio(d) > 0
  {
    DimsMatch(n, half, d, query, page);
    BlockScore(QueryOf(n, d, query), KeysOf(n, half, d, page), Ratio(d), scale)
  }

  lemma ElementIs(buffer: Bytes, width: nat, value: Bytes -> real, j: nat)
    requires width > 0 && j < |buffer| / width
    ensures Elements(buffer, width, value)[j] == Float(buffer, width, j, value)
  {
    ElementInside(|buffer|, width, j);
  }

  /** The reads at `t` and `qh` stay inside, in numbers of elements. */
  predicate Inside(half: bool, d: Dims, query: Bytes, page: Bytes, t: nat, qh: nat)
    requires Ratio(d) > 0
  {
    QueryAt(d, qh) + d.dim <= |query| / 4 && KeyAt(d, t, qh) + d.dim <= |page| / Width(half)
  }

  lemma KeyFound(Q: Matrix, K: seq<Matrix>, ratio: nat, t: nat, qh: nat)
    requires MatchingBlock(Q, K, ratio) && t < |K| && qh < |Q|
    ensures ratio > 0 && qh / ratio < |K[t]| && |K[t][qh / ratio]| == |Q[qh]|
  {
    assert Matching(Q, K[t], ratio);
  }

  lemma LogitOfFloats(n: Numbers, half: bool, scale: real, query: Bytes, page: Bytes, Q: Matrix, K: seq<Matrix>,
                      ratio: nat, t: nat, qh: nat, qAt: nat, kAt: nat)
    requires MatchingBlock(Q, K, ratio) && t < |K| && qh < |Q| && ratio > 0 && qh / ratio < |K[t]|
    requires HoldsQuery(n, query, Q[qh], qAt) && HoldsKey(n, half, page, K[t][qh / ratio], kAt)
    ensures Logit(Q, K, ratio, scale, t, qh)
         == scale * SumTo(ByteProduct(n, half, query, page, qAt, kAt), |Q[qh]|)
  {
    KeyFound(Q, K, ratio, t, qh);
    TermsAgree(n, half, query, page, Q[qh], K[t][qh / ratio], qAt, kAt);
  }

  /** The vector holds the floats of the request from there on. */
  predicate HoldsQuery(n: Numbers, query: Bytes, q: Vector, at: nat) {
    forall i :: 0 <= i < |q| ==> q[i] == Float(query, 4, at + i, n.value)
  }

  predicate HoldsKey(n: Numbers, half: bool, page: Bytes, k: Vector, at: nat) {
    forall i :: 0 <= i < |k| ==> k[i] == KeyFloat(n, half, page, at + i)
  }

  lemma TermsAgree(n: Numbers, half: bool, query: Bytes, page: Bytes, q: Vector, k: Vector, qAt: nat, kAt: nat)
    requires |q| == |k| && HoldsQuery(n, query, q, qAt) && HoldsKey(n, half, page, k, kAt)
    ensures SumTo(Products(q, k), |q|) == SumTo(ByteProduct(n, half, query, page, qAt, kAt), |q|)
  {
    SumToSame(Products(q, k), ByteProduct(n, half, query, page, qAt, kAt), |q|);
  }

  lemma PartIsFloats(buffer: Bytes, width: nat, value: Bytes -> real, o: nat, dim: nat, i: nat)
    requires width > 0 && o + dim <= |buffer| / width && i < dim
    ensures Part(Elements(buffer, width, value), o, dim)[i] == Float(buffer, width, o + i, value)
  {
    ElementIs(buffer, width, value, o + i);
  }

  /** All query vectors are those of the request. */
  predicate QueryHeld(n: Numbers, d: Dims, query: Bytes, Q: Matrix) {
    |Q| == d.qHeads && forall qh :: 0 <= qh < |Q| ==> |Q[qh]| == d.dim && HoldsQuery(n, query, Q[qh], QueryAt(d, qh))
  }

  /** Every query head finds its key vector of the page. */
  predicate KeysHeld(n: Numbers, half: bool, d: Dims, page: Bytes, K: seq<Matrix>) {
    && |K| == d.tokens
    && forall t, qh :: 0 <= t < d.tokens && 0 <= qh < d.qHeads ==> KeyHeld(n, half, d, page, K[t], t, qh)
  }

  predicate KeyHeld(n: Numbers, half: bool, d: Dims, page: Bytes, row: Matrix, t: nat, qh: nat) {
    Ratio(d) > 0 && qh / Ratio(d) < |row| && HoldsKey(n, half, page, row[qh / Ratio(d)], KeyAt(d, t, qh))
  }

  /** All reads stay inside. */
  predicate AllInside(half: bool, d: Dims, query: Bytes, page: Bytes) {
    forall t: nat, qh: nat | t < d.tokens && qh < d.qHeads :: InsideAt(half, d, query, page, t, qh)
  }

  predicate InsideAt(half: bool, d: Dims, query: Bytes, page: Bytes, t: nat, qh: nat) {
    Ratio(d) > 0 && (d.dim > 0 ==> Inside(half, d, query, page, t, qh))
  }

  lemma QueryIsHeld(n: Numbers, half: bool, d: Dims, query: Bytes, page: Bytes)
    requires d.tokens > 0 && AllInside(half, d, query, page)
    ensures QueryHeld(n, d, query, QueryOf(n, d, query))
  {
    forall qh: nat | qh < d.qHeads ensures HoldsQuery(n, query, QueryOf(n, d, query)[qh], QueryAt(d, qh)) {
      assert InsideAt(half, d, query, page, 0, qh);
      RowIsFloats(n, query, QueryAt(d, qh), d.dim);
    }
  }

  lemma RowIsFloats(n: Numbers, query: Bytes, at: nat, dim: nat)
    requires dim > 0 ==> at + dim <= |query| / 4
    ensures HoldsQuery(n, query, Part(Elements(query, 4, n.value), at, dim), at)
  {
    forall i | 0 <= i < dim ensures Part(Elements(query, 4, n.value), at, dim)[i] == Float(query, 4, at + i, n.value) {
      PartIsFloats(query, 4, n.value, at, dim, i);
    }
  }

  lemma KeysAreHeld(n: Numbers, half: bool, d: Dims, query: Bytes, page: Bytes)
    requires AllInside(half, d, query, page)
    ensures KeysHeld(n, half, d, page, KeysOf(n, half, d, page))
  {
    forall t: nat, qh: nat | t < d.tokens && qh < d.qHeads
      ensures KeyHeld(n, half, d, page, KeysOf(n, half, d, page)[t], t, qh)
    {
      assert InsideAt(half, d, query, page, t, qh);
      ReachedFits(d.qHeads, Ratio(d));
      assert GroupsFit(d.qHeads, Reached(d.qHeads, Ratio(d)), Ratio(d));
      KeyIsFloats(n, half, page, KeyAt(d, t, qh), d.dim);
    }
  }

  lemma KeyIsFloats(n: Numbers, half: bool, page: Bytes, at: nat, dim: nat)
    requires dim > 0 ==> at + dim <= |page| / Width(half)
    ensures var es := Elements(page, Width(half), if half then n.half else n.value);
      HoldsKey(n, half, page, Part(es, at, dim), at)
  {
    var value := if half then n.half else n.value;
    forall i | 0 <= i < dim
      ensures Part(Elements(page, Width(half), value), at, dim)[i] == KeyFloat(n, half, page, at + i)
    {
      PartIsFloats(page, Width(half), value, at, dim, i);
    }
  }

  ghost predicate SameLogit(n: Numbers, half: bool, d: Dims, scale: real, query: Bytes, page: Bytes, Q: Matrix,
                            K: seq<Matrix>, t: nat, qh: nat)
    requires MatchingBlock(Q, K, Ratio(d)) && t < |K| && qh < |Q|
  {
    Ratio(d) > 0 && Logit(Q, K, Ratio(d), scale, t, qh) == ByteLogit(n, half, d, scale, query, page, t, qh)
  }

  lemma LogitsAgree(n: Numbers, half: bool, d: Dims, scale: real, query: Bytes, page: Bytes, Q: Matrix,
                    K: seq<Matrix>, t: nat, qh: nat)
    requires MatchingBlock(Q, K, Ratio(d)) && t < |K| && qh < |Q|
    requires |Q[qh]| == d.dim && HoldsQuery(n, query, Q[qh], QueryAt(d, qh)) && KeyHeld(n, half, d, page, K[t], t, qh)
    ensures SameLogit(n, half, d, scale, query, page, Q, K, t, qh)
  {
    LogitOfFloats(n, half, scale, query, page, Q, K, Ratio(d), t, qh, QueryAt(d, qh), KeyAt(d, t, qh));
  }

  /** The greatest logit is the score of the page. */
  lemma MaxIsPageScore(n: Numbers, half: bool, d: Dims, scale: real, query: Bytes, page: Bytes, Q: Matrix,
                       K: seq<Matrix>, s: real)
    requires MatchingBlock(Q, K, Ratio(d)) && |Q| == d.qHeads && |K| == d.tokens
    requires d.tokens > 0 && d.qHeads > 0 ==> Ratio(d) > 0
    requires forall t: nat, qh: nat | t < |K| && qh < |Q| :: SameLogit(n, half, d, scale, query, page, Q, K, t, qh)
    requires forall t: nat, qh: nat | t < |K| && qh < |Q| :: Logit(Q, K, Ratio(d), scale, t, qh) <= s
    requires s >= MIN_LOGIT && (s == MIN_LOGIT || SomeLogit(Q, K, Ratio(d), scale, s))
    ensures IsPageScore(n, half, d, scale, query, page, s)
  {
    forall t: nat, qh: nat | t < d.tokens && qh < d.qHeads
      ensures ByteLogit(n, half, d, scale, query, page, t, qh) <= s
    {
      assert SameLogit(n, half, d, scale, query, page, Q, K, t, qh);
    }
    if s != MIN_LOGIT {
      var t, qh :| 0 <= t < |K| && 0 <= qh < |Q| && s == Logit(Q, K, Ratio(d), scale, t, qh);
      assert SameLogit(n, half, d, scale, query, page, Q, K, t, qh);
    }
  }

  /** The block score of such vectors is the score of the page. */
  lemma BlockScoreIsPageScore(n: Numbers, half: bool, d: Dims, scale: real, query: Bytes, page: Bytes, Q: Matrix,
                              K: seq<Matrix>)
    requires MatchingBlock(Q, K, Ratio(d)) && (d.tokens > 0 && d.qHeads > 0 ==> Ratio(d) > 0)
    requires |Q| == d.qHeads && |K| == d.tokens
    requires d.tokens > 0 ==> QueryHeld(n, d, query, Q) && KeysHeld(n, half, d, page, K)
    ensures IsPageScore(n, half, d, scale, query, page, BlockScore(Q, K, Ratio(d), scale))
  {
    BlockScoreIsMax(Q, K, Ratio(d), scale);
    forall t: nat, qh: nat | t < |K| && qh < |Q| ensures SameLogit(n, half, d, scale, query, page, Q, K, t, qh) {
      assert HoldsQuery(n, query, Q[qh], QueryAt(d, qh)) && KeyHeld(n, half, d, page, K[t], t, qh);
      LogitsAgree(n, half, d, scale, query, page, Q, K, t, qh);
    }
    MaxIsPageScore(n, half, d, scale, query, page, Q, K, BlockScore(Q, K, Ratio(d), scale));
  }

  /** If all reads stay inside, the kernel computes the score of the page. */
  lemma PageScoreIs(n: Numbers, half: bool, d: Dims, scale: real, query: Bytes, page: Bytes)
    requires AllInside(half, d, query, page)
    ensures d.tokens > 0 && d.qHeads > 0 ==> Ratio(d) > 0
    ensures IsPageScore(n, half, d, scale, query, page, PageScore(n, half, d, scale, query, page))
  {
    if d.tokens > 0 && d.qHeads > 0 { assert InsideAt(half, d, query, page, 0, 0); }
    DimsMatch(n, half, d, query, page);
    if d.tokens > 0 {
      QueryIsHeld(n, half, d, query, page);
      KeysAreHeld(n, half, d, query, page);
    }
    BlockScoreIsPageScore(n, half, d, scale, query, page, QueryOf(n, d, query), KeysOf(n, half, d, page));
  }

  /** What the daemon calls a candidate that can be scored is one whose reads stay inside. */
  lemma ScorableIsInside(half: bool, h: TopkHeader, c: Candidate, query: Bytes, page: Bytes)
    requires Scorable(half, h, c) && |query| == QueryBytes(h) && |page| == Min(c.length, BUFFER_SIZE)
    ensures AllInside(half, DimsOf(h, c), query, page)
  {
    var d := DimsOf(h, c);
    forall t: nat, qh: nat | t < d.tokens && qh < d.qHeads ensures InsideAt(half, d, query, page, t, qh) {
      if d.dim > 0 { ReadsAreInside(half, h, c, query, page, t, qh); }
    }
  }

  lemma ReadsAreInside(half: bool, h: TopkHeader, c: Candidate, query: Bytes, page: Bytes, t: nat, qh: nat)
    requires Scorable(half, h, c) && |query| == QueryBytes(h) && |page| == Min(c.length, BUFFER_SIZE)
    requires t < DimsOf(h, c).tokens && qh < DimsOf(h, c).qHeads && DimsOf(h, c).dim > 0
    ensures Ratio(DimsOf(h, c)) > 0 && Inside(half, DimsOf(h, c), query, page, t, qh)
  {
    var d, kv := DimsOf(h, c), Signed(h.kvHeads);
    assert ReadsInside(|page|, Width(half), QueryWords(h), kv, d.dim, Ratio(d), t, qh);
    assert ReadsInside(|page|, Width(half), QueryWords(h), kv, d.dim, Ratio(d), t, 0);
    SignedStride(kv, d.dim, t);
    BytesHold(|page|, Width(half), KeyAt(d, t, qh) + d.dim);
    BytesHold(|query|, 4, QueryWords(h));
  }

  /** A negative stride leaves the page at once, so that only the first token is read. */
  lemma SignedStride(kv: int, dim: nat, t: nat)
    requires dim > 0 && Product(t, Product(kv, dim)) >= 0
    ensures Product(t, Product(kv, dim)) == Times(t, Times(Positive(kv), dim))
  {
    if kv < 0 {
      NegativeProduct(dim, kv);
      if t > 0 { NegativeProduct(t, Product(kv, dim)); }
    }
  }

  lemma NegativeProduct(a: nat, x: int)
    requires a > 0 && x < 0
    ensures Product(a, x) < 0 && Product(x, a) < 0
  {
  }

  /**
   The scoring call of the top-k branch: on the page of a candidate that can be scored, the kernel
   computes the score of the page's bytes against the request's.
   */
  method ScorePage(half: bool, h: TopkHeader, c: Candidate, query: Bytes, page: Bytes, n: Numbers, scale: real)
    returns (score: real)
    requires Ordinary(h, c) && Scorable(half, h, c)
    requires |query| == QueryBytes(h) && |page| == Min(c.length, BUFFER_SIZE)
    ensures var d := DimsOf(h, c);
      && d == Dims(c.tokens, h.qHeads, h.kvHeads, h.headDim) && Ratio(d) == h.qHeads / h.kvHeads > 0
      && score == PageScore(n, half, d, scale, query, page)
      && IsPageScore(n, half, d, scale, query, page, score)
  {
    ghost var d := DimsOf(h, c);
    RatioPositive(h.qHeads, h.kvHeads);
    var value := if half then n.half else n.value;
    var floats, keys := Elements(query, 4, n.value), Elements(page, Width(half), value);
    ghost var Q, K := QueryOf(n, d, query), KeysOf(n, half, d, page);
    QueryLies(h, c, query, n.value);
    ScorableIffKeysLie(half, h, c, page, value, K);
    ScorableIsInside(half, h, c, query, page);
    PageScoreIs(n, half, d, scale, query, page);
    var queryBuf := new real[|floats|](i requires 0 <= i < |floats| => floats[i]);
    var ioBuf := new real[|keys|](i requires 0 <= i < |keys| => keys[i]);
    assert queryBuf[..] == floats && ioBuf[..] == keys;
    score := ComputeBlockScoreGqa(queryBuf, ioBuf, c.tokens, h.qHeads, h.kvHeads, h.headDim, scale, true, Q, K);
  }
}

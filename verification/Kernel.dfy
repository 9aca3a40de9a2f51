/**
 The native in-storage kernels: block scoring over flat buffers and in-place top-k filtering.

 Null pointers are modelled by nullable arrays, the C status codes are returned as such.
 `Q` and `K` are ghost views of the flat buffers as matrices.
 */
module Kernel {
  import opened Options
  import opened Arithmetic
  import opened Sequences
  import opened Sums
  import opened Softmax
  import opened Accumulator
  import opened DotKernels
  import opened Ranking

  // ------------------------------------------------------------------ specification of a score

  function Scaled(dot: real, scale: real): real {
    dot * scale
  }

  /** Folds the scaled dot products of the first `h` query heads with one token's keys into `floor`. */
  function TokenScore(Q: Matrix, row: Matrix, ratio: nat, scale: real, h: nat, floor: real): real
    requires Matching(Q, row, ratio) && h <= |Q|
  {
    if h == 0 then floor
    else Max(Scaled(Dot(Q[h-1], row[(h-1) / ratio]), scale), TokenScore(Q, row, ratio, scale, h - 1, floor))
  }

  /** Every query head has a key head of its own length in the token's row. */
  predicate Matching(Q: Matrix, row: Matrix, ratio: nat) {
    && (Q != [] ==> ratio > 0)
    && forall h :: 0 <= h < |Q| ==> h / ratio < |row| && |row[h / ratio]| == |Q[h]|
  }

  predicate MatchingBlock(Q: Matrix, K: seq<Matrix>, ratio: nat) {
    forall t :: 0 <= t < |K| ==> Matching(Q, K[t], ratio)
  }

  /** The score of a block: folds its tokens' scores, starting from -1e30. */
  function BlockScore(Q: Matrix, K: seq<Matrix>, ratio: nat, scale: real): real
    requires MatchingBlock(Q, K, ratio)
  {
    if K == [] then MIN_LOGIT
    else TokenScore(Q, K[|K|-1], ratio, scale, |Q|, BlockScore(Q, K[..|K|-1], ratio, scale))
  }

  /** The scale times the sum over i of q[i] * k[i], for query head `h` and its key head in a token's row. */
  function TokenLogit(Q: Matrix, row: Matrix, ratio: nat, scale: real, h: nat): real
    requires Matching(Q, row, ratio) && h < |Q|
  {
    scale * Inner(Q[h], row[h / ratio])
  }

  /** The same in token `t` of a block. */
  function Logit(Q: Matrix, K: seq<Matrix>, ratio: nat, scale: real, t: nat, h: nat): real
    requires MatchingBlock(Q, K, ratio) && t < |K| && h < |Q|
  {
    TokenLogit(Q, K[t], ratio, scale, h)
  }

  /** The logits of one token. */
  function TokenLogits(Q: Matrix, row: Matrix, ratio: nat, scale: real): (xs: seq<real>)
    requires Matching(Q, row, ratio)
    ensures |xs| == |Q| && forall h :: 0 <= h < |Q| ==> xs[h] == TokenLogit(Q, row, ratio, scale, h)
  {
    seq(|Q|, h requires 0 <= h < |Q| => TokenLogit(Q, row, ratio, scale, h))
  }

  function Best(floor: real, xs: seq<real>): real {
    if xs == [] then floor else Max(xs[|xs|-1], Best(floor, xs[..|xs|-1]))
  }

  /** `s` is the greatest of the floor and the entries. */
  predicate IsBest(s: real, floor: real, xs: seq<real>) {
    && s >= floor
    && (forall i :: 0 <= i < |xs| ==> xs[i] <= s)
    && (s == floor || s in xs)
  }

  lemma {:induction false} BestIsBest(floor: real, xs: seq<real>)
    ensures IsBest(Best(floor, xs), floor, xs)
  {
    if xs != [] {
      BestIsBest(floor, xs[..|xs|-1]);
      assert xs == xs[..|xs|-1] + [xs[|xs|-1]];
    }
  }

  lemma ScaledIsLogit(Q: Matrix, row: Matrix, ratio: nat, scale: real, h: nat)
    requires Matching(Q, row, ratio) && h < |Q|
    ensures Scaled(Dot(Q[h], row[h / ratio]), scale) == TokenLogit(Q, row, ratio, scale, h)
  {
    DotIsInner(Q[h], row[h / ratio]);
  }

  lemma {:induction false} TokenScoreIsBest(Q: Matrix, row: Matrix, ratio: nat, scale: real, h: nat, floor: real)
    requires Matching(Q, row, ratio) && h <= |Q|
    ensures TokenScore(Q, row, ratio, scale, h, floor) == Best(floor, TokenLogits(Q, row, ratio, scale)[..h])
  {
    if h > 0 {
      TokenScoreIsBest(Q, row, ratio, scale, h - 1, floor);
      var xs := TokenLogits(Q, row, ratio, scale);
      assert xs[..h][..h-1] == xs[..h-1];
      ScaledIsLogit(Q, row, ratio, scale, h - 1);
      assert xs[h-1] == TokenLogit(Q, row, ratio, scale, h - 1);
    }
  }

  /** The logits of all tokens, one token after the other. */
  function BlockLogits(Q: Matrix, K: seq<Matrix>, ratio: nat, scale: real): seq<real>
    requires MatchingBlock(Q, K, ratio)
  {
    if K == [] then []
    else
      assert Matching(Q, K[|K|-1], ratio);
      BlockLogits(Q, K[..|K|-1], ratio, scale) + TokenLogits(Q, K[|K|-1], ratio, scale)
  }

  lemma {:induction false} BestConcat(floor: real, a: seq<real>, b: seq<real>)
    ensures Best(floor, a + b) == Best(Best(floor, a), b)
  {
    if b == [] {
      assert a + b == a;
    } else {
      BestConcat(floor, a, b[..|b|-1]);
      assert (a + b)[..|a + b|-1] == a + b[..|b|-1];
    }
  }

  lemma {:induction false} BlockScoreIsBest(Q: Matrix, K: seq<Matrix>, ratio: nat, scale: real)
    requires MatchingBlock(Q, K, ratio)
    ensures BlockScore(Q, K, ratio, scale) == Best(MIN_LOGIT, BlockLogits(Q, K, ratio, scale))
  {
    if K != [] {
      var n := |K| - 1;
      BlockScoreIsBest(Q, K[..n], ratio, scale);
      assert Matching(Q, K[n], ratio);
      var xs := TokenLogits(Q, K[n], ratio, scale);
      TokenScoreIsBest(Q, K[n], ratio, scale, |Q|, BlockScore(Q, K[..n], ratio, scale));
      assert xs[..|Q|] == xs;
      BestConcat(MIN_LOGIT, BlockLogits(Q, K[..n], ratio, scale), xs);
    }
  }

  /** `x` is the logit of some token and query head. */
  ghost predicate SomeLogit(Q: Matrix, K: seq<Matrix>, ratio: nat, scale: real, x: real)
    requires MatchingBlock(Q, K, ratio)
  {
    exists t, h :: 0 <= t < |K| && 0 <= h < |Q| && x == Logit(Q, K, ratio, scale, t, h)
  }

  /** The listed logits are those of all tokens and query heads. */
  lemma {:induction false} BlockLogitsAre(Q: Matrix, K: seq<Matrix>, ratio: nat, scale: real, x: real)
    requires MatchingBlock(Q, K, ratio)
    ensures x in BlockLogits(Q, K, ratio, scale) <==> SomeLogit(Q, K, ratio, scale, x)
  {
    if K != [] {
      var n := |K| - 1;
      var init := K[..n];
      BlockLogitsAre(Q, init, ratio, scale, x);
      assert Matching(Q, K[n], ratio);
      var xs := TokenLogits(Q, K[n], ratio, scale);
      if x in BlockLogits(Q, init, ratio, scale) {
        var t, h :| 0 <= t < n && 0 <= h < |Q| && x == Logit(Q, init, ratio, scale, t, h);
        assert x == Logit(Q, K, ratio, scale, t, h);
      } else if x in xs {
        var h :| 0 <= h < |Q| && xs[h] == x;
        assert x == Logit(Q, K, ratio, scale, n, h);
      }
      if SomeLogit(Q, K, ratio, scale, x) {
        var t, h :| 0 <= t < |K| && 0 <= h < |Q| && x == Logit(Q, K, ratio, scale, t, h);
        if t < n {
          assert x == Logit(Q, init, ratio, scale, t, h);
        } else {
          assert xs[h] == x;
        }
      }
    }
  }

  /** The block score is the exact maximum over all tokens and query heads, floored at -1e30. */
  lemma BlockScoreIsMax(Q: Matrix, K: seq<Matrix>, ratio: nat, scale: real)
    requires MatchingBlock(Q, K, ratio)
    ensures var s := BlockScore(Q, K, ratio, scale);
      && s >= MIN_LOGIT
      && (forall t, h :: 0 <= t < |K| && 0 <= h < |Q| ==> Logit(Q, K, ratio, scale, t, h) <= s)
      && (s == MIN_LOGIT || SomeLogit(Q, K, ratio, scale, s))
  {
    var s, xs := BlockScore(Q, K, ratio, scale), BlockLogits(Q, K, ratio, scale);
    BlockScoreIsBest(Q, K, ratio, scale);
    BestIsBest(MIN_LOGIT, xs);
    BlockLogitsAre(Q, K, ratio, scale, s);
    forall t, h | 0 <= t < |K| && 0 <= h < |Q|
      ensures Logit(Q, K, ratio, scale, t, h) <= s
    {
      var x := Logit(Q, K, ratio, scale, t, h);
      BlockLogitsAre(Q, K, ratio, scale, x);
      var i :| 0 <= i < |xs| && xs[i] == x;
    }
  }

  /** Every query head finds its key head: `h / ratio` is one of the first `rows`. */
  predicate GroupsFit(qHeads: nat, rows: nat, ratio: nat) {
    && (qHeads > 0 ==> ratio > 0)
    && forall h :: 0 <= h < qHeads ==> h / ratio < rows
  }

  /**
   Grouped-query head mapping: `qh / (q_heads / kv_heads)` is defined and a key head for every query
   head exactly when the key heads divide the query heads.
   */
  lemma GroupedHeadsInRange(qHeads: nat, kvHeads: nat)
    requires kvHeads > 0
    ensures GroupsFit(qHeads, kvHeads, qHeads / kvHeads) <==> qHeads % kvHeads == 0
  {
    var r, rest := qHeads / kvHeads, qHeads % kvHeads;
    assert qHeads == kvHeads * r + rest;
    if qHeads > 0 {
      QuotientPositive(qHeads, kvHeads);
      if r > 0 {
        ReachedFits(qHeads, r);
        QuotientBelow(qHeads - 1, r, kvHeads);
        if rest == 0 {
          forall h | 0 <= h < qHeads ensures h / r < kvHeads {
            QuotientBelow(h, r, kvHeads);
          }
        }
      }
    }
  }

  lemma QuotientPositive(a: nat, b: nat)
    requires b > 0
    ensures a / b > 0 <==> b <= a
  {
    QuotientBelow(a, b, 1);
  }

  /** How many key vectors a token's row must have for `qHeads` query heads. */
  function Reached(qHeads: nat, ratio: nat): nat {
    if qHeads == 0 || ratio == 0 then 0 else (qHeads - 1) / ratio + 1
  }

  lemma ReachedFits(qHeads: nat, ratio: nat)
    requires qHeads > 0 ==> ratio > 0
    ensures forall rows :: GroupsFit(qHeads, rows, ratio) <==> Reached(qHeads, ratio) <= rows
  {
    forall rows: nat ensures GroupsFit(qHeads, rows, ratio) <==> Reached(qHeads, ratio) <= rows {
      if qHeads > 0 {
        forall h | 0 <= h < qHeads ensures h / ratio <= (qHeads - 1) / ratio {
          QuotientMonotone(h, qHeads - 1, ratio);
        }
        if GroupsFit(qHeads, rows, ratio) { assert 0 <= qHeads - 1 < qHeads; }
      }
    }
  }

  /** If the key heads divide the query heads, the kernel reads exactly the token's own key vectors. */
  lemma ReachedIsHeads(qHeads: nat, kvHeads: nat)
    requires kvHeads > 0 && qHeads > 0 && qHeads % kvHeads == 0
    ensures Reached(qHeads, qHeads / kvHeads) == kvHeads
  {
    var r := qHeads / kvHeads;
    QuotientPositive(qHeads, kvHeads);
    assert qHeads == kvHeads * r;
    MulStep(kvHeads - 1, r);
    QuotientUnique(qHeads - 1, r, kvHeads - 1, r - 1);
  }

  // ------------------------------------------------------------------ flat buffers

  /** Row `i` of `x` lies at its place in a buffer that holds `x` from offset `o`. */
  predicate RowLies(buffer: seq<real>, o: nat, x: Matrix, columns: nat, i: nat)
    requires i < |x|
  {
    && |x[i]| == columns
    && o + i * columns + columns <= |buffer|
    && buffer[o + i * columns..o + i * columns + columns] == x[i]
  }

  /** `x` lies row by row at offset `o` of the buffer. */
  predicate FlatMatrix(buffer: seq<real>, o: nat, x: Matrix, rows: nat, columns: nat) {
    && |x| == rows
    && forall i :: 0 <= i < rows ==> RowLies(buffer, o, x, columns, i)
  }

  predicate TokenLies(buffer: seq<real>, o: nat, K: seq<Matrix>, heads: nat, rows: nat, dim: nat, t: nat)
    requires t < |K|
  {
    FlatMatrix(buffer, o + t * (heads * dim), K[t], rows, dim)
  }

  /**
   Tokens of `heads` key vectors lie one after the other at offset `o` of the buffer; `K` has for each
   token the `rows` key vectors from its first one on, which may reach into the tokens behind it.
   */
  predicate FlatRows(buffer: seq<real>, o: nat, K: seq<Matrix>, tokens: nat, heads: nat, rows: nat, dim: nat) {
    && |K| == tokens
    && forall t :: 0 <= t < tokens ==> TokenLies(buffer, o, K, heads, rows, dim, t)
  }

  /** `K` lies token by token at offset `o` of the buffer. */
  predicate FlatBlock(buffer: seq<real>, o: nat, K: seq<Matrix>, tokens: nat, heads: nat, dim: nat) {
    FlatRows(buffer, o, K, tokens, heads, heads, dim)
  }

  predicate BlockLies(buffer: seq<real>, Ks: seq<seq<Matrix>>, tokens: nat, heads: nat, dim: nat, b: nat)
    requires b < |Ks|
  {
    FlatBlock(buffer, b * (tokens * (heads * dim)), Ks[b], tokens, heads, dim)
  }

  /** The blocks lie one after the other. */
  predicate FlatBlocks(buffer: seq<real>, Ks: seq<seq<Matrix>>, tokens: nat, heads: nat, dim: nat) {
    forall b :: 0 <= b < |Ks| ==> BlockLies(buffer, Ks, tokens, heads, dim, b)
  }

  lemma FlatShape(buffer: seq<real>, o: nat, x: Matrix, rows: nat, columns: nat)
    requires FlatMatrix(buffer, o, x, rows, columns)
    ensures Shape(x, rows, columns)
  {
    forall i | 0 <= i < rows ensures |x[i]| == columns {
      assert RowLies(buffer, o, x, columns, i);
    }
  }

  lemma TokenMatches(q: seq<real>, k: seq<real>, ko: nat, Q: Matrix, row: Matrix, qHeads: nat, rows: nat, dim: nat,
                     ratio: nat)
    requires GroupsFit(qHeads, rows, ratio)
    requires FlatMatrix(q, 0, Q, qHeads, dim) && FlatMatrix(k, ko, row, rows, dim)
    ensures Matching(Q, row, ratio)
  {
    FlatShape(q, 0, Q, qHeads, dim);
    FlatShape(k, ko, row, rows, dim);
  }

  lemma BlockMatches(q: seq<real>, k: seq<real>, o: nat, Q: Matrix, K: seq<Matrix>, tokens: nat, qHeads: nat,
                     kvHeads: nat, rows: nat, dim: nat, ratio: nat)
    requires tokens > 0 ==> GroupsFit(qHeads, rows, ratio)
    requires FlatMatrix(q, 0, Q, qHeads, dim) && FlatRows(k, o, K, tokens, kvHeads, rows, dim)
    ensures MatchingBlock(Q, K, ratio)
  {
    forall t | 0 <= t < |K| ensures Matching(Q, K[t], ratio) {
      assert TokenLies(k, o, K, kvHeads, rows, dim, t);
      TokenMatches(q, k, o + t * (kvHeads * dim), Q, K[t], qHeads, rows, dim, ratio);
    }
  }

  /** What a block needs for its query heads to find their key vectors. */
  lemma GqaMatches(q: seq<real>, k: seq<real>, Q: Matrix, K: seq<Matrix>, tokens: nat, qHeads: nat, kvHeads: nat,
                   dim: nat)
    requires kvHeads > 0 && (kvHeads <= qHeads || tokens == 0 || qHeads == 0)
    requires FlatMatrix(q, 0, Q, qHeads, dim)
    requires FlatRows(k, 0, K, tokens, kvHeads, Reached(qHeads, qHeads / kvHeads), dim)
    ensures MatchingBlock(Q, K, qHeads / kvHeads)
    ensures tokens > 0 ==> GroupsFit(qHeads, Reached(qHeads, qHeads / kvHeads), qHeads / kvHeads)
  {
    QuotientPositive(qHeads, kvHeads);
    if tokens > 0 { ReachedFits(qHeads, qHeads / kvHeads); }
    BlockMatches(q, k, 0, Q, K, tokens, qHeads, kvHeads, Reached(qHeads, qHeads / kvHeads), dim, qHeads / kvHeads);
  }

  // ------------------------------------------------------------------ scoring

  /** The score over the first `t` tokens. */
  predicate ScoresFirst(Q: Matrix, K: seq<Matrix>, ratio: nat, scale: real, t: nat, score: real)
    requires MatchingBlock(Q, K, ratio) && t <= |K|
  {
    score == BlockScore(Q, K[..t], ratio, scale)
  }

  lemma ScoresNext(Q: Matrix, K: seq<Matrix>, ratio: nat, scale: real, t: nat)
    requires MatchingBlock(Q, K, ratio) && t < |K|
    ensures var before := BlockScore(Q, K[..t], ratio, scale);
      ScoresFirst(Q, K, ratio, scale, t + 1, TokenScore(Q, K[t], ratio, scale, |Q|, before))
  {
    assert K[..t+1][..t] == K[..t];
  }

  /** The head loop of `compute_block_score`, for the token whose keys start at `ko`. */
  method ScoreToken(query: array<real>, kBlock: array<real>, ko: nat, heads: nat, headDim: nat, scale: real,
                    floor: real, ghost Q: Matrix, ghost row: Matrix) returns (score: real)
    requires Matching(Q, row, 1)
    requires FlatMatrix(query[..], 0, Q, heads, headDim)
    requires FlatMatrix(kBlock[..], ko, row, heads, headDim)
    ensures score == TokenScore(Q, row, 1, scale, heads, floor)
  {
    score := floor;
    for h := 0 to heads
      invariant score == TokenScore(Q, row, 1, scale, h, floor)
    {
      assert RowLies(query[..], 0, Q, headDim, h) && RowLies(kBlock[..], ko, row, headDim, h);
      var qh, kh := 0 + h * headDim, ko + h * headDim;
      assert query[qh..qh + headDim] == query[..][qh..qh + headDim] == Q[h];
      assert kBlock[kh..kh + headDim] == kBlock[..][kh..kh + headDim] == row[h];
      var dot := DotUnrolled(query, qh, kBlock, kh, headDim);
      var scaledDot := Scaled(dot, scale);
      if scaledDot > score {
        score := scaledDot;
      }
    }
  }

  /** `compute_block_score`: as many key heads as query heads, unrolled dot product. */
  method ComputeBlockScore(query: array<real>, kBlock: array<real>, ko: nat, tokens: nat, heads: nat, headDim: nat,
                           scale: real, ghost Q: Matrix, ghost K: seq<Matrix>) returns (score: real)
    requires FlatMatrix(query[..], 0, Q, heads, headDim)
    requires FlatBlock(kBlock[..], ko, K, tokens, heads, headDim)
    ensures MatchingBlock(Q, K, 1)
    ensures score == BlockScore(Q, K, 1, scale)
  {
    BlockMatches(query[..], kBlock[..], ko, Q, K, tokens, heads, heads, heads, headDim, 1);
    score := MIN_LOGIT;
    for t := 0 to tokens
      invariant ScoresFirst(Q, K, 1, scale, t, score)
    {
      assert TokenLies(kBlock[..], ko, K, heads, heads, headDim, t);
      score := ScoreToken(query, kBlock, ko + t * (heads * headDim), heads, headDim, scale, score, Q, K[t]);
      ScoresNext(Q, K, 1, scale, t);
    }
    assert K[..tokens] == K;
  }

  /** The head loop of the grouped-query kernels: query head `qh` reads key head `qh / gqa_ratio`. */
  method ScoreTokenGqa(query: array<real>, kBlock: array<real>, ko: nat, qHeads: nat, gqaRatio: nat, headDim: nat,
                       scale: real, fourAccumulators: bool, floor: real, ghost rows: nat, ghost Q: Matrix,
                       ghost row: Matrix)
    returns (score: real)
    requires GroupsFit(qHeads, rows, gqaRatio) && Matching(Q, row, gqaRatio)
    requires FlatMatrix(query[..], 0, Q, qHeads, headDim)
    requires FlatMatrix(kBlock[..], ko, row, rows, headDim)
    ensures score == TokenScore(Q, row, gqaRatio, scale, qHeads, floor)
  {
    score := floor;
    for qh := 0 to qHeads
      invariant score == TokenScore(Q, row, gqaRatio, scale, qh, floor)
    {
      var kh := qh / gqaRatio;
      assert RowLies(query[..], 0, Q, headDim, qh) && RowLies(kBlock[..], ko, row, headDim, kh);
      var qo, o := 0 + qh * headDim, ko + kh * headDim;
      var qVec, kVec := query[qo..qo + headDim], kBlock[o..o + headDim];
      assert qVec == query[..][qo..qo + headDim] == Q[qh] && kVec == kBlock[..][o..o + headDim] == row[kh];
      var dot := DotByDim(qVec, kVec, fourAccumulators);
      DotByDimIsDot(qVec, kVec, fourAccumulators);
      var scaledDot := Scaled(dot, scale);
      if scaledDot > score {
        score := scaledDot;
      }
    }
  }

  /**
   `compute_block_score_gqa` and its AVX2 form: query heads share key heads, dot product chosen by
   `head_dim`.  The caller's buffer must hold the key vectors that the loops reach; if there is a token,
   there must be a query head per key head, or the head ratio is zero.
   */
  method ComputeBlockScoreGqa(query: array<real>, kBlock: array<real>, actualTokens: nat, qHeads: nat, kvHeads: nat,
                              headDim: nat, scale: real, fourAccumulators: bool, ghost Q: Matrix, ghost K: seq<Matrix>)
    returns (score: real)
    requires kvHeads > 0 && (kvHeads <= qHeads || actualTokens == 0 || qHeads == 0)
    requires FlatMatrix(query[..], 0, Q, qHeads, headDim)
    requires FlatRows(kBlock[..], 0, K, actualTokens, kvHeads, Reached(qHeads, qHeads / kvHeads), headDim)
    ensures MatchingBlock(Q, K, qHeads / kvHeads)
    ensures score == BlockScore(Q, K, qHeads / kvHeads, scale)
  {
    var gqaRatio := qHeads / kvHeads;
    ghost var rows := Reached(qHeads, gqaRatio);
    GqaMatches(query[..], kBlock[..], Q, K, actualTokens, qHeads, kvHeads, headDim);
    score := MIN_LOGIT;
    for t := 0 to actualTokens
      invariant ScoresFirst(Q, K, gqaRatio, scale, t, score)
    {
      assert TokenLies(kBlock[..], 0, K, kvHeads, rows, headDim, t);
      score := ScoreTokenGqa(query, kBlock, 0 + t * (kvHeads * headDim), qHeads, gqaRatio, headDim, scale,
                             fourAccumulators, score, rows, Q, K[t]);
      ScoresNext(Q, K, gqaRatio, scale, t);
    }
    assert K[..actualTokens] == K;
  }

  // ------------------------------------------------------------------ top-k filtering

  const BLANK: Entry<int> := Entry(-1, MIN_LOGIT)

  /** The output buffers as the entries they hold. */
  function Buffer(indices: array<int>, scores: array<real>, k: nat): (w: seq<Entry<int>>)
    requires k <= indices.Length && k <= scores.Length
    reads indices, scores
    ensures |w| == k
  {
    seq(k, i requires 0 <= i < k reads indices, scores => Entry(indices[i], scores[i]))
  }

  /** Where the score belongs: behind the last entry that is not smaller. */
  method FindPosition(scores: array<real>, k: nat, score: real) returns (insertPos: nat)
    requires 0 < k <= scores.Length && score > scores[k - 1]
    ensures insertPos < k && (insertPos > 0 ==> score <= scores[insertPos - 1])
    ensures forall j :: insertPos <= j < k ==> score > scores[j]
  {
    insertPos := k - 1;
    while insertPos > 0 && score > scores[insertPos - 1]
      invariant insertPos < k
      invariant forall j :: insertPos <= j < k ==> score > scores[j]
    {
      insertPos := insertPos - 1;
    }
  }

  /** The in-place insertion: find the position from the tail, shift the lower scores down, store. */
  method OfferInPlace(indices: array<int>, scores: array<real>, k: nat, b: int, score: real)
    requires 0 < k <= indices.Length && k <= scores.Length
    modifies indices, scores
    ensures Buffer(indices, scores, k) == Offer(old(Buffer(indices, scores, k)), Entry(b, score))
    ensures indices[k..] == old(indices[k..]) && scores[k..] == old(scores[k..])
  {
    ghost var was := Buffer(indices, scores, k);
    if score > scores[k - 1] {
      var insertPos := FindPosition(scores, k, score);
      ShiftIn(scores, k, insertPos, score);
      ShiftIn(indices, k, insertPos, b);
      OfferedInPlace(was, Buffer(indices, scores, k), insertPos, Entry(b, score));
    }
  }

  /** The candidates as the kernel numbers them. */
  function Candidates(Q: Matrix, Ks: seq<seq<Matrix>>, ratio: nat, scale: real): (items: seq<Entry<int>>)
    requires forall b :: 0 <= b < |Ks| ==> MatchingBlock(Q, Ks[b], ratio)
    ensures |items| == |Ks|
  {
    seq(|Ks|, b requires 0 <= b < |Ks| => Entry(b, BlockScore(Q, Ks[b], ratio, scale)))
  }

  /**
   `instorage_topk_filter`.  Status -1 for a null pointer, -2 for a non-positive dimension; otherwise
   0, and the buffers hold the first `min(top_k, num_blocks)` entries of the bounded insertion buffer.
   */
  method InstorageTopkFilter(query: array?<real>, kBlocks: array?<real>, numBlocks: int, tokens: int, heads: int,
                             headDim: int, topK: int, scale: real, outIndices: array?<int>, outScores: array?<real>,
                             ghost Q: Matrix, ghost Ks: seq<seq<Matrix>>) returns (status: int)
    requires query != null && kBlocks != null && outIndices != null && outScores != null &&
             numBlocks > 0 && tokens > 0 && heads > 0 && headDim > 0 && topK > 0 ==>
      && |Ks| == numBlocks
      && FlatMatrix(query[..], 0, Q, heads, headDim)
      && FlatBlocks(kBlocks[..], Ks, tokens, heads, headDim)
      && Min(topK, numBlocks) <= outIndices.Length && Min(topK, numBlocks) <= outScores.Length
      && outScores != query && outScores != kBlocks
    modifies if outIndices != null then {outIndices} else {}, if outScores != null then {outScores} else {}
    ensures status == -1 <==> query == null || kBlocks == null || outIndices == null || outScores == null
    ensures status == -2 <==> status != -1 && (numBlocks <= 0 || tokens <= 0 || heads <= 0 || headDim <= 0 || topK <= 0)
    ensures status == -1 || status == -2 || status == 0
    ensures status == 0 ==>
      && (forall b :: 0 <= b < |Ks| ==> MatchingBlock(Q, Ks[b], 1))
      && Buffer(outIndices, outScores, Min(topK, numBlocks))
         == Offered(Candidates(Q, Ks, 1, scale), numBlocks, Min(topK, numBlocks), BLANK)
  {
    if query == null || kBlocks == null || outIndices == null || outScores == null {
      return -1;
    }
    if numBlocks <= 0 || tokens <= 0 || heads <= 0 || headDim <= 0 || topK <= 0 {
      return -2;
    }
    Select(query, kBlocks, numBlocks, tokens, heads, headDim, topK, scale, outIndices, outScores, Q, Ks);
    status := 0;
  }

  lemma StackedMatches(q: seq<real>, k: seq<real>, Q: Matrix, Ks: seq<seq<Matrix>>, tokens: nat, heads: nat, dim: nat)
    requires heads > 0 && FlatMatrix(q, 0, Q, heads, dim) && FlatBlocks(k, Ks, tokens, heads, dim)
    ensures forall b :: 0 <= b < |Ks| ==> MatchingBlock(Q, Ks[b], 1)
  {
    forall b | 0 <= b < |Ks| ensures MatchingBlock(Q, Ks[b], 1) {
      StackedAt(k, Ks, tokens, heads, dim, b);
      BlockMatches(q, k, b * (tokens * (heads * dim)), Q, Ks[b], tokens, heads, heads, heads, dim, 1);
    }
  }

  /** The loop over the blocks of one contiguous buffer. */
  method Select(query: array<real>, kBlocks: array<real>, numBlocks: nat, tokens: nat, heads: nat, headDim: nat,
                topK: nat, scale: real, outIndices: array<int>, outScores: array<real>, ghost Q: Matrix,
                ghost Ks: seq<seq<Matrix>>)
    requires 0 < numBlocks == |Ks| && heads > 0 && topK > 0
    requires FlatMatrix(query[..], 0, Q, heads, headDim) && FlatBlocks(kBlocks[..], Ks, tokens, heads, headDim)
    requires Min(topK, numBlocks) <= outIndices.Length && Min(topK, numBlocks) <= outScores.Length
    requires outScores != query && outScores != kBlocks
    modifies outIndices, outScores
    ensures forall b :: 0 <= b < |Ks| ==> MatchingBlock(Q, Ks[b], 1)
    ensures Buffer(outIndices, outScores, Min(topK, numBlocks))
         == Offered(Candidates(Q, Ks, 1, scale), numBlocks, Min(topK, numBlocks), BLANK)
  {
    var effectiveK := if topK < numBlocks then topK else numBlocks;
    var blockElements := tokens * (heads * headDim);
    StackedMatches(query[..], kBlocks[..], Q, Ks, tokens, heads, headDim);
    ghost var items := Candidates(Q, Ks, 1, scale);
    BlankBuffers(outIndices, outScores, effectiveK);
    for b := 0 to numBlocks
      invariant Buffer(outIndices, outScores, effectiveK) == Offered(items, b, effectiveK, BLANK)
    {
      StackedAt(kBlocks[..], Ks, tokens, heads, headDim, b);
      OfferBlock(query, kBlocks, b * blockElements, tokens, heads, headDim, scale, outIndices, outScores, effectiveK, b,
                 Q, Ks[b]);
    }
  }

  /** One turn of that loop. */
  method OfferBlock(query: array<real>, kBlocks: array<real>, ko: nat, tokens: nat, heads: nat, headDim: nat,
                    scale: real, indices: array<int>, scores: array<real>, k: nat, b: nat, ghost Q: Matrix,
                    ghost K: seq<Matrix>)
    requires FlatMatrix(query[..], 0, Q, heads, headDim) && FlatBlock(kBlocks[..], ko, K, tokens, heads, headDim)
    requires 0 < k <= indices.Length && k <= scores.Length
    modifies indices, scores
    ensures MatchingBlock(Q, K, 1)
    ensures Buffer(indices, scores, k) == Offer(old(Buffer(indices, scores, k)), Entry(b, BlockScore(Q, K, 1, scale)))
  {
    var score := ComputeBlockScore(query, kBlocks, ko, tokens, heads, headDim, scale, Q, K);
    OfferInPlace(indices, scores, k, b, score);
  }

  lemma StackedAt(k: seq<real>, Ks: seq<seq<Matrix>>, tokens: nat, heads: nat, dim: nat, b: nat)
    requires FlatBlocks(k, Ks, tokens, heads, dim) && b < |Ks|
    ensures b * (tokens * (heads * dim)) >= 0
    ensures FlatBlock(k, b * (tokens * (heads * dim)), Ks[b], tokens, heads, dim)
  {
    assert BlockLies(k, Ks, tokens, heads, dim, b);
  }

  /** The keys of every block lie at the start of its own buffer. */
  predicate BlocksLie(buffers: seq<array<real>>, tokens: seq<nat>, Ks: seq<seq<Matrix>>, kvHeads: nat, rows: nat,
                      dim: nat)
    reads buffers
  {
    && |buffers| == |tokens| == |Ks|
    && forall b :: 0 <= b < |Ks| ==> FlatRows(buffers[b][..], 0, Ks[b], tokens[b], kvHeads, rows, dim)
  }

  /** What the callers of the grouped-query filter provide once all arguments are present and positive. */
  ghost predicate GqaArguments(query: array<real>, kBlocks: seq<array<real>>, tokens: seq<nat>, numBlocks: int,
                               qHeads: int, kvHeads: int, headDim: int, topK: int, outIndices: array<int>,
                               outScores: array<real>, Q: Matrix, Ks: seq<seq<Matrix>>)
    reads query, kBlocks
  {
    && 0 < numBlocks == |Ks| && 0 < kvHeads && 0 < qHeads && headDim > 0 && topK > 0
    && (kvHeads <= qHeads || forall b :: 0 <= b < |tokens| ==> tokens[b] == 0)
    && FlatMatrix(query[..], 0, Q, qHeads, headDim)
    && BlocksLie(kBlocks, tokens, Ks, kvHeads, Reached(qHeads, qHeads / kvHeads), headDim)
    && Min(topK, numBlocks) <= outIndices.Length && Min(topK, numBlocks) <= outScores.Length
    && outScores != query && outScores !in kBlocks
  }

  /**
   `instorage_topk_filter_gqa_avx2`: one buffer and one token count a block, query heads sharing key
   heads.  Same status codes, same selection.
   */
  method InstorageTopkFilterGqa(query: array?<real>, kBlocks: Option<seq<array<real>>>, actualTokens: Option<seq<nat>>,
                                numBlocks: int, qHeads: int, kvHeads: int, headDim: int, topK: int, scale: real,
                                outIndices: array?<int>, outScores: array?<real>, ghost Q: Matrix,
                                ghost Ks: seq<seq<Matrix>>)
    returns (status: int)
    requires query != null && kBlocks.Some? && actualTokens.Some? && outIndices != null && outScores != null &&
             numBlocks > 0 && qHeads > 0 && kvHeads > 0 && headDim > 0 && topK > 0 ==>
      GqaArguments(query, kBlocks.value, actualTokens.value, numBlocks, qHeads, kvHeads, headDim, topK, outIndices,
                   outScores, Q, Ks)
    modifies if outIndices != null then {outIndices} else {}, if outScores != null then {outScores} else {}
    ensures status == -1 <==>
      query == null || kBlocks.None? || actualTokens.None? || outIndices == null || outScores == null
    ensures status == -2 <==>
      status != -1 && (numBlocks <= 0 || qHeads <= 0 || kvHeads <= 0 || headDim <= 0 || topK <= 0)
    ensures status == -1 || status == -2 || status == 0
    ensures status == 0 ==>
      && (forall b :: 0 <= b < |Ks| ==> MatchingBlock(Q, Ks[b], qHeads / kvHeads))
      && Buffer(outIndices, outScores, Min(topK, numBlocks))
         == Offered(Candidates(Q, Ks, qHeads / kvHeads, scale), numBlocks, Min(topK, numBlocks), BLANK)
  {
    if query == null || kBlocks.None? || actualTokens.None? || outIndices == null || outScores == null {
      return -1;
    }
    if numBlocks <= 0 || qHeads <= 0 || kvHeads <= 0 || headDim <= 0 || topK <= 0 {
      return -2;
    }
    SelectGqa(query, kBlocks.value, actualTokens.value, numBlocks, qHeads, kvHeads, headDim, topK, scale, outIndices,
              outScores, Q, Ks);
    status := 0;
  }

  /** What these arguments say of one block. */
  lemma ArgumentsAt(query: array<real>, kBlocks: seq<array<real>>, tokens: seq<nat>, numBlocks: int, qHeads: int,
                    kvHeads: int, headDim: int, topK: int, outIndices: array<int>, outScores: array<real>, Q: Matrix,
                    Ks: seq<seq<Matrix>>, b: nat)
    requires GqaArguments(query, kBlocks, tokens, numBlocks, qHeads, kvHeads, headDim, topK, outIndices, outScores,
                          Q, Ks)
    requires b < |Ks|
    ensures |kBlocks| == |tokens| == |Ks| && (kvHeads <= qHeads || tokens[b] == 0)
    ensures FlatRows(kBlocks[b][..], 0, Ks[b], tokens[b], kvHeads, Reached(qHeads, qHeads / kvHeads), headDim)
    ensures MatchingBlock(Q, Ks[b], qHeads / kvHeads)
  {
    assert FlatRows(kBlocks[b][..], 0, Ks[b], tokens[b], kvHeads, Reached(qHeads, qHeads / kvHeads), headDim);
    GqaMatches(query[..], kBlocks[b][..], Q, Ks[b], tokens[b], qHeads, kvHeads, headDim);
  }

  lemma ArgumentsMatch(query: array<real>, kBlocks: seq<array<real>>, tokens: seq<nat>, numBlocks: int, qHeads: int,
                       kvHeads: int, headDim: int, topK: int, outIndices: array<int>, outScores: array<real>,
                       Q: Matrix, Ks: seq<seq<Matrix>>)
    requires GqaArguments(query, kBlocks, tokens, numBlocks, qHeads, kvHeads, headDim, topK, outIndices, outScores,
                          Q, Ks)
    ensures forall b :: 0 <= b < |Ks| ==> MatchingBlock(Q, Ks[b], qHeads / kvHeads)
  {
    forall b | 0 <= b < |Ks| ensures MatchingBlock(Q, Ks[b], qHeads / kvHeads) {
      ArgumentsAt(query, kBlocks, tokens, numBlocks, qHeads, kvHeads, headDim, topK, outIndices, outScores, Q, Ks, b);
    }
  }

  /** Both loops of the grouped-query filter. */
  method SelectGqa(query: array<real>, kBlocks: seq<array<real>>, tokens: seq<nat>, numBlocks: nat, qHeads: nat,
                   kvHeads: nat, headDim: nat, topK: nat, scale: real, outIndices: array<int>, outScores: array<real>,
                   ghost Q: Matrix, ghost Ks: seq<seq<Matrix>>)
    requires GqaArguments(query, kBlocks, tokens, numBlocks, qHeads, kvHeads, headDim, topK, outIndices,
                          outScores, Q, Ks)
    modifies outIndices, outScores
    ensures forall b :: 0 <= b < |Ks| ==> MatchingBlock(Q, Ks[b], qHeads / kvHeads)
    ensures Buffer(outIndices, outScores, Min(topK, numBlocks))
         == Offered(Candidates(Q, Ks, qHeads / kvHeads, scale), numBlocks, Min(topK, numBlocks), BLANK)
  {
    var effectiveK := if topK < numBlocks then topK else numBlocks;
    ArgumentsMatch(query, kBlocks, tokens, numBlocks, qHeads, kvHeads, headDim, topK, outIndices, outScores, Q, Ks);
    ghost var items := Candidates(Q, Ks, qHeads / kvHeads, scale);
    BlankBuffers(outIndices, outScores, effectiveK);
    for b := 0 to numBlocks
      invariant GqaArguments(query, kBlocks, tokens, numBlocks, qHeads, kvHeads, headDim, topK, outIndices, outScores,
                             Q, Ks)
      invariant Buffer(outIndices, outScores, effectiveK) == Offered(items, b, effectiveK, BLANK)
    {
      ArgumentsAt(query, kBlocks, tokens, numBlocks, qHeads, kvHeads, headDim, topK, outIndices, outScores, Q, Ks, b);
      ScoreAndOffer(query, kBlocks[b], tokens[b], qHeads, kvHeads, headDim, scale, outIndices, outScores, effectiveK, b,
                    Q, Ks[b]);
    }
  }

  /** One turn of that loop. */
  method ScoreAndOffer(query: array<real>, kBlock: array<real>, tokens: nat, qHeads: nat, kvHeads: nat, headDim: nat,
                       scale: real, indices: array<int>, scores: array<real>, k: nat, b: nat, ghost Q: Matrix,
                       ghost K: seq<Matrix>)
    requires kvHeads > 0 && (kvHeads <= qHeads || tokens == 0 || qHeads == 0)
    requires FlatMatrix(query[..], 0, Q, qHeads, headDim)
    requires FlatRows(kBlock[..], 0, K, tokens, kvHeads, Reached(qHeads, qHeads / kvHeads), headDim)
    requires 0 < k <= indices.Length && k <= scores.Length
    modifies indices, scores
    ensures MatchingBlock(Q, K, qHeads / kvHeads)
    ensures Buffer(indices, scores, k)
         == Offer(old(Buffer(indices, scores, k)), Entry(b, BlockScore(Q, K, qHeads / kvHeads, scale)))
  {
    var score := ComputeBlockScoreGqa(query, kBlock, tokens, qHeads, kvHeads, headDim, scale, false, Q, K);
    OfferInPlace(indices, scores, k, b, score);
  }

  /** Fills the output buffers with index -1 and score -1e30. */
  method BlankBuffers(indices: array<int>, scores: array<real>, k: nat)
    requires k <= indices.Length && k <= scores.Length
    modifies indices, scores
    ensures Buffer(indices, scores, k) == Blanks(k, BLANK)
  {
    for i := 0 to k
      invariant forall j :: 0 <= j < i ==> indices[j] == -1 && scores[j] == MIN_LOGIT
    {
      indices[i] := -1;
      scores[i] := MIN_LOGIT;
    }
  }
}

/** `NativeCKernel.compute_topk`: lays the blocks out contiguously, runs the kernel, reads the picks back. */
module Binding {
  import opened Arithmetic
  import opened Accumulator
  import opened Softmax
  import R = Ranking
  import opened Kernel
  import opened Selection

  // ------------------------------------------------------------------ contiguous layout

  function Flatten(m: Matrix): Vector {
    if m == [] then [] else m[0] + Flatten(m[1..])
  }

  function FlattenBlock(K: seq<Matrix>): Vector {
    if K == [] then [] else Flatten(K[0]) + FlattenBlock(K[1..])
  }

  function FlattenBlocks(Ks: seq<seq<Matrix>>): Vector {
    if Ks == [] then [] else FlattenBlock(Ks[0]) + FlattenBlocks(Ks[1..])
  }

  lemma StepOffset(o: nat, i: nat, n: nat)
    requires i > 0
    ensures o + i * n == (o + n) + (i - 1) * n
  {
  }

  lemma {:induction false} FlattenLength(m: Matrix, rows: nat, columns: nat)
    requires Shape(m, rows, columns)
    ensures |Flatten(m)| == rows * columns
  {
    if m != [] {
      FlattenLength(m[1..], rows - 1, columns);
      StepOffset(0, rows, columns);
    }
  }

  lemma RowShift(buffer: Vector, o: nat, m: Matrix, columns: nat, i: nat)
    requires 0 < i < |m| && RowLies(buffer, o + columns, m[1..], columns, i - 1)
    ensures RowLies(buffer, o, m, columns, i)
  {
    StepOffset(o, i, columns);
  }

  lemma RowHere(before: Vector, m: Matrix, after: Vector, columns: nat)
    requires m != [] && |m[0]| == columns
    ensures RowLies(before + m[0] + after, |before|, m, columns, 0)
  {
    assert |before| + 0 * columns == |before|;
  }

  lemma Reassociate(a: Vector, b: Vector, c: Vector, d: Vector)
    ensures a + (b + c) + d == a + b + (c + d) == (a + b) + c + d
  {
  }

  /** A flattened matrix lies wherever it is placed. */
  lemma {:induction false} FlattenLies(before: Vector, m: Matrix, after: Vector, rows: nat, columns: nat, i: nat)
    requires Shape(m, rows, columns) && i < rows
    ensures RowLies(before + Flatten(m) + after, |before|, m, columns, i)
    decreases i
  {
    var rest := Flatten(m[1..]);
    Reassociate(before, m[0], rest, after);
    if i == 0 {
      RowHere(before, m, rest + after, columns);
    } else {
      FlattenLies(before + m[0], m[1..], after, rows - 1, columns, i - 1);
      RowShift(before + Flatten(m) + after, |before|, m, columns, i);
    }
  }

  lemma {:induction false} FlattenBlockLength(K: seq<Matrix>, heads: nat, dim: nat)
    requires forall t :: 0 <= t < |K| ==> Shape(K[t], heads, dim)
    ensures |FlattenBlock(K)| == |K| * (heads * dim)
  {
    if K != [] {
      FlattenLength(K[0], heads, dim);
      FlattenBlockLength(K[1..], heads, dim);
      StepOffset(0, |K|, heads * dim);
    }
  }

  lemma TokenShift(buffer: Vector, o: nat, K: seq<Matrix>, heads: nat, dim: nat, t: nat)
    requires 0 < t < |K| && TokenLies(buffer, o + heads * dim, K[1..], heads, heads, dim, t - 1)
    ensures TokenLies(buffer, o, K, heads, heads, dim, t)
  {
    StepOffset(o, t, heads * dim);
  }

  lemma TokenHere(before: Vector, K: seq<Matrix>, after: Vector, heads: nat, dim: nat)
    requires K != [] && Shape(K[0], heads, dim)
    ensures TokenLies(before + Flatten(K[0]) + after, |before|, K, heads, heads, dim, 0)
  {
    forall i | 0 <= i < heads ensures RowLies(before + Flatten(K[0]) + after, |before|, K[0], dim, i) {
      FlattenLies(before, K[0], after, heads, dim, i);
    }
    assert |before| + 0 * (heads * dim) == |before|;
  }

  lemma {:induction false} FlattenBlockLies(before: Vector, K: seq<Matrix>, after: Vector, heads: nat, dim: nat, t: nat)
    requires forall i :: 0 <= i < |K| ==> Shape(K[i], heads, dim)
    requires t < |K|
    ensures TokenLies(before + FlattenBlock(K) + after, |before|, K, heads, heads, dim, t)
    decreases t
  {
    var first, rest := Flatten(K[0]), FlattenBlock(K[1..]);
    if t == 0 {
      TokenHere(before, K, rest + after, heads, dim);
      assert before + FlattenBlock(K) + after == before + first + (rest + after);
    } else {
      FlattenBlockLies(before + first, K[1..], after, heads, dim, t - 1);
      assert before + FlattenBlock(K) + after == (before + first) + rest + after;
      FlattenLength(K[0], heads, dim);
      TokenShift(before + FlattenBlock(K) + after, |before|, K, heads, dim, t);
    }
  }

  /** All blocks hold the same number of tokens, each [heads][dim]: what stacking them demands. */
  predicate Stackable(Ks: seq<seq<Matrix>>, tokens: nat, heads: nat, dim: nat) {
    forall b :: 0 <= b < |Ks| ==> |Ks[b]| == tokens && forall t :: 0 <= t < tokens ==> Shape(Ks[b][t], heads, dim)
  }

  lemma {:induction false} FlattenBlocksLies(before: Vector, Ks: seq<seq<Matrix>>, tokens: nat, heads: nat, dim: nat,
                                             b: nat)
    requires Stackable(Ks, tokens, heads, dim) && b < |Ks|
    ensures FlatBlock(before + FlattenBlocks(Ks), |before| + b * (tokens * (heads * dim)), Ks[b], tokens, heads, dim)
    decreases b
  {
    FlattenBlockLength(Ks[0], heads, dim);
    if b == 0 {
      assert before + FlattenBlocks(Ks) == before + FlattenBlock(Ks[0]) + FlattenBlocks(Ks[1..]);
      forall t | 0 <= t < tokens ensures TokenLies(before + FlattenBlocks(Ks), |before|, Ks[0], heads, heads, dim, t) {
        FlattenBlockLies(before, Ks[0], FlattenBlocks(Ks[1..]), heads, dim, t);
      }
      assert |before| + 0 * (tokens * (heads * dim)) == |before|;
    } else {
      assert before + FlattenBlocks(Ks) == (before + FlattenBlock(Ks[0])) + FlattenBlocks(Ks[1..]);
      FlattenBlocksLies(before + FlattenBlock(Ks[0]), Ks[1..], tokens, heads, dim, b - 1);
      StepOffset(|before|, b, tokens * (heads * dim));
    }
  }

  lemma StackedBlocks(Ks: seq<seq<Matrix>>, tokens: nat, heads: nat, dim: nat)
    requires Stackable(Ks, tokens, heads, dim)
    ensures FlatBlocks(FlattenBlocks(Ks), Ks, tokens, heads, dim)
  {
    forall b | 0 <= b < |Ks| ensures BlockLies(FlattenBlocks(Ks), Ks, tokens, heads, dim, b) {
      StackedBlock(Ks, tokens, heads, dim, b);
    }
  }

  lemma StackedBlock(Ks: seq<seq<Matrix>>, tokens: nat, heads: nat, dim: nat, b: nat)
    requires Stackable(Ks, tokens, heads, dim) && b < |Ks|
    ensures BlockLies(FlattenBlocks(Ks), Ks, tokens, heads, dim, b)
  {
    var none: Vector := [];
    FlattenBlocksLies(none, Ks, tokens, heads, dim, b);
    UnprefixedBlock(none, FlattenBlocks(Ks), Ks, tokens, heads, dim, b);
  }

  lemma UnprefixedBlock(none: Vector, flat: Vector, Ks: seq<seq<Matrix>>, tokens: nat, heads: nat, dim: nat, b: nat)
    requires |none| == 0 && b < |Ks|
    requires FlatBlock(none + flat, |none| + b * (tokens * (heads * dim)), Ks[b], tokens, heads, dim)
    ensures BlockLies(flat, Ks, tokens, heads, dim, b)
  {
    assert none + flat == flat;
  }

  lemma FlatQuery(Q: Matrix, heads: nat, dim: nat)
    requires Shape(Q, heads, dim)
    ensures FlatMatrix(Flatten(Q), 0, Q, heads, dim)
  {
    forall i | 0 <= i < heads ensures RowLies(Flatten(Q), 0, Q, dim, i) {
      FlattenLies([], Q, [], heads, dim, i);
      assert [] + Flatten(Q) + [] == Flatten(Q);
    }
  }

  /** A contiguous copy. */
  method Contiguous(s: Vector) returns (a: array<real>)
    ensures fresh(a) && a[..] == s
  {
    a := new real[|s|](i requires 0 <= i < |s| => s[i]);
  }

  /**
   `compute_topk`.  Fails when the kernel does: on a non-positive `top_k` or an empty dimension.
   Otherwise returns the positions picked, best first, and their scores.
   */
  method ComputeTopk(Q: Matrix, heads: nat, dim: nat, Ks: seq<seq<Matrix>>, tokens: nat, topK: int, scale: real)
    returns (ok: bool, picks: seq<nat>, scores: Vector)
    requires Ks != [] && Shape(Q, heads, dim) && Stackable(Ks, tokens, heads, dim)
    ensures ok <==> tokens > 0 && heads > 0 && dim > 0 && topK > 0
    ensures ok ==>
      && (forall b :: 0 <= b < |Ks| ==> MatchingBlock(Q, Ks[b], 1))
      && picks == Picks(R.Scores(Candidates(Q, Ks, 1, scale)), topK)
      && scores == PickScores(R.Scores(Candidates(Q, Ks, 1, scale)), topK)
  {
    var n := |Ks|;
    var effectiveK := if topK < n then topK else n;
    if effectiveK < 0 { return false, [], []; }
    var queryC := Contiguous(Flatten(Q));
    var kContiguous := Contiguous(FlattenBlocks(Ks));
    FlatQuery(Q, heads, dim);
    StackedBlocks(Ks, tokens, heads, dim);
    var outIndices := new int[effectiveK];
    var outScores := new real[effectiveK];
    var status := InstorageTopkFilter(queryC, kContiguous, n, tokens, heads, dim, effectiveK, scale, outIndices,
                                      outScores, Q, Ks);
    ok := status == 0;
    picks, scores := [], [];
    if ok {
      picks, scores := ReadBack(outIndices, outScores, n, topK, Candidates(Q, Ks, 1, scale));
    }
  }

  /** Reads the output buffers: the scores as they are, the indices as Python indices. */
  method ReadBack(indices: array<int>, scores: array<real>, n: nat, topK: nat, ghost items: seq<R.Entry<int>>)
    returns (picks: seq<nat>, pickScores: Vector)
    requires n == |items| && indices.Length == scores.Length == Min(topK, n)
    requires forall b :: 0 <= b < |items| ==> items[b].payload == b
    requires Buffer(indices, scores, Min(topK, n)) == R.Offered(items, n, Min(topK, n), BLANK)
    ensures picks == Picks(R.Scores(items), topK) && pickScores == PickScores(R.Scores(items), topK)
  {
    var k := indices.Length;
    ghost var buffer := Buffer(indices, scores, k);
    forall i | 0 <= i < k
      ensures PyIndex(indices[i], n) == Picks(R.Scores(items), topK)[i]
      ensures scores[i] == PickScores(R.Scores(items), topK)[i]
    {
      BufferGivesPicks(items, topK, i);
      assert indices[i] == buffer[i].payload && scores[i] == buffer[i].score;
    }
    pickScores := scores[..];
    picks := seq(k, i requires 0 <= i < k reads indices => PyIndex(indices[i], n));
  }
}

/** The selection that a trace generator simulates: the kernel's pick of a share of the candidates. */
module TraceSelection {
  import opened Arithmetic
  import opened Softmax
  import R = Ranking
  import opened Selection
  import opened Blockize
  import opened TraceEvents

  /** The scores of blocks under the query of a step and layer. */
  type Scorer<!T> = (nat, nat, Block<T>) -> real

  /** How many of `n` candidates are selected, at a share of `pct` percent. */
  function KVal(n: nat, pct: real): nat {
    if n == 0 then 0
    else
      var k := (n as real * (pct / 100.0)).Floor;
      if k > 1 then k else 1
  }

  /** That is the greatest integer that is at most `pct` percent of `n`, but at least one. */
  lemma KValIsShare(n: nat, pct: real)
    requires n > 0
    ensures var k := KVal(n, pct);
      && k >= 1 && (k > 1 ==> 100.0 * k as real <= n as real * pct) && n as real * pct < 100.0 * (k + 1) as real
  {
    var x := n as real * (pct / 100.0);
    assert 100.0 * x == n as real * pct;
    assert x.Floor as real <= x < (x.Floor + 1) as real;
  }

  function ScoresOf<T>(score: Scorer<T>, step: nat, l: nat, bs: seq<Block<T>>): (s: seq<real>)
    ensures |s| == |bs|
  {
    seq(|bs|, i requires 0 <= i < |bs| => score(step, l, bs[i]))
  }

  /** The blocks selected among the candidates, best first. */
  function Chosen<T>(score: Scorer<T>, step: nat, l: nat, ssd: seq<Block<T>>, k: nat): (r: seq<Block<T>>)
    ensures ChoiceOk(ssd, r, k)
  {
    var picks := Picks(ScoresOf(score, step, l, ssd), k);
    seq(|picks|, i requires 0 <= i < |picks| => ssd[picks[i]])
  }

  /** With scores above -1e30 the chosen blocks are the first of all candidates ranked by score. */
  lemma ChosenAreBest<T>(score: Scorer<T>, step: nat, l: nat, ssd: seq<Block<T>>, k: nat)
    requires forall i :: 0 <= i < |ssd| ==> score(step, l, ssd[i]) > MIN_LOGIT
    ensures exists order: seq<nat> ::
      && R.IsRanking(ScoresOf(score, step, l, ssd), R.Indices(|ssd|), order) && |order| == |ssd|
      && |Chosen(score, step, l, ssd, k)| == Min(k, |ssd|)
      && forall i :: 0 <= i < Min(k, |ssd|) ==>
           order[i] < |ssd| && Chosen(score, step, l, ssd, k)[i] == ssd[order[i]]
  {
    PicksAreBest(ScoresOf(score, step, l, ssd), k);
  }

  function KernelSelector<T>(score: Scorer<T>, pct: real): Selector<T> {
    Selector((step, l, ssd) => Chosen(score, step, l, ssd, KVal(|ssd|, pct)), n => KVal(n, pct))
  }

  /** Whatever the scores and the share, something is selected where there is something to select. */
  lemma KernelSelectorOk<T(!new)>(score: Scorer<T>, pct: real)
    ensures SelectorOk(KernelSelector(score, pct))
  {
  }
}

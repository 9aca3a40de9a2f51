/** What the validator counts over the whole trace once every record has passed. */
module TraceTallies {
  import opened Blockize
  import opened TraceEvents

  const EXPECTED_EVENTS := 7872

  /** Some record is about that part of a page. */
  ghost predicate Shows(es: seq<Event>, sub: SubPage) {
    exists i :: 0 <= i < |es| && es[i].subPage == sub
  }

  /** Filters, fetches and whole-block accesses all occur. */
  ghost predicate ShowsAll(es: seq<Event>) {
    Shows(es, KEY) && Shows(es, VALUE) && Shows(es, BOTH)
  }

  /** The checks on the records, on their number, on the parts of pages they show and on their heads pass. */
  ghost predicate Validated(es: seq<Event>) {
    Accepted(es) && |es| == EXPECTED_EVENTS && ShowsAll(es) && HeadsOk(es)
  }

  lemma ShowsJoin(x: seq<Event>, y: seq<Event>, sub: SubPage)
    ensures Shows(x + y, sub) <==> Shows(x, sub) || Shows(y, sub)
  {
    var xy := x + y;
    if Shows(x, sub) {
      var i :| 0 <= i < |x| && x[i].subPage == sub;
      assert xy[i] == x[i];
    }
    if Shows(y, sub) {
      var i :| 0 <= i < |y| && y[i].subPage == sub;
      assert xy[|x| + i] == y[i];
    }
  }

  lemma ShowsNumbered(base: int, es: seq<Event>, sub: SubPage)
    ensures Shows(Numbered(base, es), sub) <==> Shows(es, sub)
  {
    var r := Numbered(base, es);
    if Shows(es, sub) {
      var i :| 0 <= i < |es| && es[i].subPage == sub;
      assert r[i] == Placed(es[i], base, i);
    }
    if Shows(r, sub) {
      var i :| 0 <= i < |r| && r[i].subPage == sub;
      assert r[i] == Placed(es[i], base, i);
    }
  }

  lemma {:induction false} PrefillShows<T>(g: Geometry, layers: seq<seq<Block<T>>>, n: nat, sub: SubPage)
    requires n <= |layers|
    ensures Shows(PrefillAll(g, layers, n), sub) <==> sub == BOTH && exists l :: 0 <= l < n && layers[l] != []
  {
    if n > 0 {
      var bs := layers[n-1];
      PrefillShows(g, layers, n - 1, sub);
      ShowsJoin(PrefillAll(g, layers, n - 1), PrefillDrafts(g, n - 1, bs), sub);
      assert Shows(PrefillDrafts(g, n - 1, bs), sub) <==> sub == BOTH && bs != [] by {
        if bs != [] { assert PrefillDrafts(g, n - 1, bs)[0].subPage == BOTH; }
      }
    }
  }

  lemma DraftsShow<T>(g: Geometry, step: nat, l: nat, dram: seq<Block<T>>, ssd: seq<Block<T>>, chosen: seq<Block<T>>,
                      k: nat, sub: SubPage)
    requires sub != BOTH && (ssd != [] ==> chosen != [])
    ensures Shows(LayerDrafts(g, step, l, dram, ssd, chosen, k), sub) <==> ssd != []
  {
    var hits, es := ReadDrafts(g, step, l, dram), LayerDrafts(g, step, l, dram, ssd, chosen, k);
    assert forall i :: 0 <= i < |dram| ==> es[i] == hits[i] && hits[i].subPage == BOTH;
    if ssd != [] {
      assert es[|dram|] == FilterEvent(g, step, l, Ids(ssd), Ids(chosen), k);
      assert es[|dram| + 1] == FetchDrafts(g, step, l, chosen, Ids(ssd), Ids(chosen))[0];
    }
  }

  /** Filtering and fetching occur in a layer exactly when it has a candidate. */
  lemma DecodeShows<T(!new)>(g: Geometry, sel: Selector<T>, step: nat, l: nat, bs: seq<Block<T>>, sub: SubPage)
    requires SelectorOk(sel) && sub != BOTH
    ensures Shows(DecodeDrafts(g, sel, step, l, bs), sub) <==> Where(bs, false) != []
  {
    var ssd := Where(bs, false);
    var chosen, k := sel.choose(step, l, ssd), sel.kOf(|ssd|);
    assert ChoiceOk(ssd, chosen, k);
    DraftsShow(g, step, l, Where(bs, true), ssd, chosen, k, sub);
  }

  ghost predicate Candidate<T>(layers: seq<seq<Block<T>>>, l: nat) {
    l < |layers| && Where(layers[l], false) != []
  }

  lemma LayerShows<T(!new)>(g: Geometry, sel: Selector<T>, step: nat, layers: seq<seq<Block<T>>>, l: nat, sub: SubPage)
    requires SelectorOk(sel) && sub != BOTH && l < |layers|
    ensures Shows(DecodeDrafts(g, sel, step, l, layers[l]), sub) <==> Candidate(layers, l)
  {
    DecodeShows(g, sel, step, l, layers[l], sub);
  }

  ghost predicate CandidateBelow<T>(layers: seq<seq<Block<T>>>, n: nat) {
    exists l: nat :: l < n && Candidate(layers, l)
  }

  lemma CandidateNext<T>(layers: seq<seq<Block<T>>>, n: nat)
    requires n > 0
    ensures CandidateBelow(layers, n) <==> CandidateBelow(layers, n - 1) || Candidate(layers, n - 1)
  {
  }

  ghost predicate StepIsShown<T>(g: Geometry, sel: Selector<T>, step: nat, layers: seq<seq<Block<T>>>, n: nat,
                                 sub: SubPage)
    requires n <= |layers|
  {
    Shows(StepAll(g, sel, step, layers, n), sub) <==> CandidateBelow(layers, n)
  }

  lemma StepJoin<T>(g: Geometry, sel: Selector<T>, step: nat, layers: seq<seq<Block<T>>>, n: nat, sub: SubPage)
    requires 0 < n <= |layers|
    requires LayerIsShown(g, sel, step, layers, n - 1, sub)
    requires StepIsShown(g, sel, step, layers, n - 1, sub)
    ensures StepIsShown(g, sel, step, layers, n, sub)
  {
    var before, last := StepAll(g, sel, step, layers, n - 1), DecodeDrafts(g, sel, step, n - 1, layers[n-1]);
    assert StepAll(g, sel, step, layers, n) == before + last;
    CandidateNext(layers, n);
    ShowsJoin(before, last, sub);
  }

  ghost predicate LayerIsShown<T>(g: Geometry, sel: Selector<T>, step: nat, layers: seq<seq<Block<T>>>, l: nat,
                                  sub: SubPage)
    requires l < |layers|
  {
    Shows(DecodeDrafts(g, sel, step, l, layers[l]), sub) <==> Candidate(layers, l)
  }

  ghost predicate LayersShow<T>(g: Geometry, sel: Selector<T>, step: nat, layers: seq<seq<Block<T>>>, sub: SubPage) {
    forall l: nat | l < |layers| :: LayerIsShown(g, sel, step, layers, l, sub)
  }

  lemma {:induction false} StepShows<T>(g: Geometry, sel: Selector<T>, step: nat, layers: seq<seq<Block<T>>>, n: nat,
                                        sub: SubPage)
    requires LayersShow(g, sel, step, layers, sub) && n <= |layers|
    ensures StepIsShown(g, sel, step, layers, n, sub)
  {
    if n > 0 {
      StepShows(g, sel, step, layers, n - 1, sub);
      assert LayerIsShown(g, sel, step, layers, n - 1, sub);
      StepJoin(g, sel, step, layers, n, sub);
    }
  }

  /** Some layer has a block outside of DRAM. */
  ghost predicate HasCandidate<T>(layers: seq<seq<Block<T>>>) {
    CandidateBelow(layers, |layers|)
  }

  lemma {:induction false} DecodeAllShows<T>(g: Geometry, sel: Selector<T>, steps: nat, layers: seq<seq<Block<T>>>,
                                             sub: SubPage)
    requires forall n :: 1 <= n <= steps ==>
      StepIsShown(g, sel, n, layers, |layers|, sub)
    ensures Shows(DecodeAll(g, sel, steps, layers), sub) <==> steps >= 1 && HasCandidate(layers)
  {
    if steps > 0 {
      DecodeAllShows(g, sel, steps - 1, layers, sub);
      assert StepIsShown(g, sel, steps, layers, |layers|, sub);
      ShowsJoin(DecodeAll(g, sel, steps - 1, layers), StepAll(g, sel, steps, layers, |layers|), sub);
    }
  }

  lemma DecodingShows<T(!new)>(g: Geometry, sel: Selector<T>, steps: nat, layers: seq<seq<Block<T>>>, sub: SubPage)
    requires SelectorOk(sel) && sub != BOTH
    ensures Shows(DecodeAll(g, sel, steps, layers), sub) <==> steps >= 1 && HasCandidate(layers)
  {
    forall n | 1 <= n <= steps ensures StepIsShown(g, sel, n, layers, |layers|, sub) {
      forall l: nat | l < |layers|
        ensures LayerIsShown(g, sel, n, layers, l, sub)
      {
        LayerShows(g, sel, n, layers, l, sub);
      }
      StepShows(g, sel, n, layers, |layers|, sub);
    }
    DecodeAllShows(g, sel, steps, layers, sub);
  }

  /** All three parts of a page occur in a trace exactly when something is decoded and some layer has a candidate. */
  lemma ShowsAllIff<T(!new)>(g: Geometry, sel: Selector<T>, steps: nat, layers: seq<seq<Block<T>>>, base: int)
    requires SelectorOk(sel)
    ensures ShowsAll(Trace(g, sel, steps, layers, base)) <==> steps >= 1 && HasCandidate(layers)
  {
    var prefill, decode := PrefillAll(g, layers, |layers|), DecodeAll(g, sel, steps, layers);
    forall sub ensures Shows(Trace(g, sel, steps, layers, base), sub) <==> Shows(prefill, sub) || Shows(decode, sub) {
      ShowsNumbered(base, prefill + decode, sub);
      ShowsJoin(prefill, decode, sub);
    }
    PrefillShows(g, layers, |layers|, KEY);
    PrefillShows(g, layers, |layers|, VALUE);
    PrefillShows(g, layers, |layers|, BOTH);
    DecodingShows(g, sel, steps, layers, KEY);
    DecodingShows(g, sel, steps, layers, VALUE);
    if HasCandidate(layers) {
      var l: nat :| l < |layers| && Candidate(layers, l);
      assert layers[l] != [];
    }
  }

  /**
   A generated trace passes the checks exactly when the blocks are standard, something is decoded, some
   layer has a candidate and the number of events is the expected one.
   */
  lemma ValidatedIff<T(!new)>(g: Geometry, sel: Selector<T>, steps: nat, layers: seq<seq<Block<T>>>, base: int)
    requires base >= 0 && SelectorOk(sel)
    ensures Validated(Trace(g, sel, steps, layers, base)) <==>
      && AllStandard(g, layers, |layers|) && steps >= 1 && HasCandidate(layers)
      && |Trace(g, sel, steps, layers, base)| == EXPECTED_EVENTS
  {
    AcceptedIff(g, sel, steps, layers, base);
    ShowsAllIff(g, sel, steps, layers, base);
  }
}

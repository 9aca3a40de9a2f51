/**
 Storage traces of a model run, as values: the events a generator writes for blockized layers, and
 the checks a validator makes record by record.
 */
module TraceEvents {
  import opened Options
  import opened Arithmetic
  import R = Ranking
  import opened Blockize

  datatype Operation = PREFILL_WRITE | DECODE_READ | TOPK_FILTER | TOPK_FETCH
  datatype SubPage = BOTH | KEY | VALUE
  datatype Tier = DRAM | SSD

  datatype Event = Event(
    eventId: nat, queryId: nat, step: nat, layer: nat, head: nat, operation: Operation, block: nat,
    tokenStart: nat, tokenEnd: nat, subPage: SubPage, bytes: nat, tier: Tier, hotness: real,
    candidates: seq<nat>, selected: seq<nat>, topkK: Option<nat>, timestamp: int)

  /** The tokens of a block and the bytes of its key page, which are also those of its value page. */
  datatype Geometry = Geometry(tokensPerBlock: nat, keySize: nat)

  // ------------------------------------------------------------------ what is logged

  function TierOf<T>(b: Block<T>): Tier { if b.dram then DRAM else SSD }

  /** An event about one block; its place in the trace is filled in later. */
  function OnBlock<T>(g: Geometry, step: nat, l: nat, b: Block<T>, op: Operation, sub: SubPage, bytes: nat, tier: Tier,
                      candidates: seq<nat>, selected: seq<nat>): Event {
    Event(0, step, step, l, b.headStart, op, b.id, b.tokenStart, b.tokenStart + g.tokensPerBlock, sub, bytes, tier,
          b.hotness, candidates, selected, None, 0)
  }

  function PrefillEvent<T>(g: Geometry, l: nat, b: Block<T>): Event {
    OnBlock(g, 0, l, b, PREFILL_WRITE, BOTH, 2 * g.keySize, TierOf(b), [], [b.id])
  }

  function ReadEvent<T>(g: Geometry, step: nat, l: nat, b: Block<T>): Event {
    OnBlock(g, step, l, b, DECODE_READ, BOTH, 2 * g.keySize, DRAM, [], [b.id])
  }

  function FilterEvent(g: Geometry, step: nat, l: nat, candidates: seq<nat>, selected: seq<nat>, k: nat): Event
    requires candidates != []
  {
    Event(0, step, step, l, 0, TOPK_FILTER, candidates[0], 0, 0, KEY, Times(|candidates|, g.keySize), SSD, 0.5,
          candidates, selected, Some(k), 0)
  }

  function FetchEvent<T>(g: Geometry, step: nat, l: nat, b: Block<T>, candidates: seq<nat>, selected: seq<nat>): Event {
    OnBlock(g, step, l, b, TOPK_FETCH, VALUE, g.keySize, SSD, candidates, selected)
  }

  function Where<T>(bs: seq<Block<T>>, dram: bool): (r: seq<Block<T>>)
    ensures |r| <= |bs|
  {
    if bs == [] then []
    else Where(bs[..|bs|-1], dram) + if bs[|bs|-1].dram == dram then [bs[|bs|-1]] else []
  }

  lemma {:induction false} WhereAmong<T>(bs: seq<Block<T>>, dram: bool)
    ensures forall i :: 0 <= i < |Where(bs, dram)| ==> Where(bs, dram)[i].dram == dram
    ensures forall i :: 0 <= i < |Where(bs, dram)| ==> Where(bs, dram)[i] in multiset(bs)
  {
    if bs != [] {
      WhereAmong(bs[..|bs|-1], dram);
      assert bs == bs[..|bs|-1] + [bs[|bs|-1]];
    }
  }

  function Ids<T>(bs: seq<Block<T>>): (ids: seq<nat>)
    ensures |ids| == |bs|
  {
    seq(|bs|, i requires 0 <= i < |bs| => bs[i].id)
  }

  /** How the blocks of a step and layer are selected among the candidates, and how many are asked for. */
  datatype Selector<!T> = Selector(choose: (nat, nat, seq<Block<T>>) -> seq<Block<T>>, kOf: nat -> nat)

  /** Of the candidates as many are chosen as asked for, at least one if there is any. */
  ghost predicate SelectorOk<T(!new)>(sel: Selector<T>) {
    && (forall n: nat :: n > 0 ==> sel.kOf(n) >= 1)
    && (forall step, l, ssd :: ChoiceOk(ssd, sel.choose(step, l, ssd), sel.kOf(|ssd|)))
  }

  ghost predicate ChoiceOk<T>(ssd: seq<Block<T>>, chosen: seq<Block<T>>, k: nat) {
    |chosen| == Min(k, |ssd|) && forall i :: 0 <= i < |chosen| ==> chosen[i] in multiset(ssd)
  }

  function PrefillDrafts<T>(g: Geometry, l: nat, bs: seq<Block<T>>): (es: seq<Event>)
    ensures |es| == |bs|
  {
    seq(|bs|, i requires 0 <= i < |bs| => PrefillEvent(g, l, bs[i]))
  }

  function ReadDrafts<T>(g: Geometry, step: nat, l: nat, bs: seq<Block<T>>): (es: seq<Event>)
    ensures |es| == |bs|
  {
    seq(|bs|, i requires 0 <= i < |bs| => ReadEvent(g, step, l, bs[i]))
  }

  function FetchDrafts<T>(g: Geometry, step: nat, l: nat, bs: seq<Block<T>>, candidates: seq<nat>,
                          selected: seq<nat>): (es: seq<Event>)
    ensures |es| == |bs|
  {
    seq(|bs|, i requires 0 <= i < |bs| => FetchEvent(g, step, l, bs[i], candidates, selected))
  }

  /** Reads of the resident blocks, one filter over the candidates, fetches of the chosen ones. */
  function LayerDrafts<T>(g: Geometry, step: nat, l: nat, dram: seq<Block<T>>, ssd: seq<Block<T>>,
                          chosen: seq<Block<T>>, k: nat): (es: seq<Event>)
    ensures |es| == |dram| + if ssd == [] then 0 else 1 + |chosen|
  {
    ReadDrafts(g, step, l, dram) +
    if ssd == [] then []
    else [FilterEvent(g, step, l, Ids(ssd), Ids(chosen), k)] + FetchDrafts(g, step, l, chosen, Ids(ssd), Ids(chosen))
  }

  /** What one decode step logs for one layer. */
  function DecodeDrafts<T>(g: Geometry, sel: Selector<T>, step: nat, l: nat, bs: seq<Block<T>>): seq<Event> {
    var ssd := Where(bs, false);
    LayerDrafts(g, step, l, Where(bs, true), ssd, sel.choose(step, l, ssd), sel.kOf(|ssd|))
  }

  /** Layers 0 to `n - 1`. */
  function PrefillAll<T>(g: Geometry, layers: seq<seq<Block<T>>>, n: nat): seq<Event>
    requires n <= |layers|
  {
    if n == 0 then [] else PrefillAll(g, layers, n - 1) + PrefillDrafts(g, n - 1, layers[n-1])
  }

  function StepAll<T>(g: Geometry, sel: Selector<T>, step: nat, layers: seq<seq<Block<T>>>, n: nat): seq<Event>
    requires n <= |layers|
  {
    if n == 0 then [] else StepAll(g, sel, step, layers, n - 1) + DecodeDrafts(g, sel, step, n - 1, layers[n-1])
  }

  /** Decode steps 1 to `steps`. */
  function DecodeAll<T>(g: Geometry, sel: Selector<T>, steps: nat, layers: seq<seq<Block<T>>>): seq<Event> {
    if steps == 0 then []
    else DecodeAll(g, sel, steps - 1, layers) + StepAll(g, sel, steps, layers, |layers|)
  }

  function Drafts<T>(g: Geometry, sel: Selector<T>, steps: nat, layers: seq<seq<Block<T>>>): seq<Event> {
    PrefillAll(g, layers, |layers|) + DecodeAll(g, sel, steps, layers)
  }

  /** Event ids count up from 0, timestamps by 100 from the base. */
  function Placed(e: Event, base: int, i: nat): Event {
    e.(eventId := i, timestamp := base + i * 100)
  }

  function Numbered(base: int, es: seq<Event>): (r: seq<Event>)
    ensures |r| == |es|
  {
    seq(|es|, i requires 0 <= i < |es| => Placed(es[i], base, i))
  }

  /** The trace of a run. */
  function Trace<T>(g: Geometry, sel: Selector<T>, steps: nat, layers: seq<seq<Block<T>>>, base: int): seq<Event> {
    Numbered(base, Drafts(g, sel, steps, layers))
  }

  // ------------------------------------------------------------------ the validator's checks

  predicate HeadOk(e: Event) {
    e.head in {0, 1}
  }

  /** What the record loop asks of one record, apart from its place. */
  predicate RecordOk(e: Event) {
    match e.operation
    case PREFILL_WRITE =>
      e.step == 0 && e.subPage == BOTH && e.bytes == 8192 && HeadOk(e) && e.selected == [e.block]
    case DECODE_READ => e.step >= 1 && e.tier == DRAM && e.subPage == BOTH && e.bytes == 8192
    case TOPK_FILTER =>
      && e.step >= 1 && e.tier == SSD && e.subPage == KEY
      && |e.candidates| > 0 && e.bytes == Times(|e.candidates|, 4096) && |e.selected| > 0
    case TOPK_FETCH =>
      e.step >= 1 && e.tier == SSD && e.subPage == VALUE && e.bytes == 4096 && e.block in e.selected
  }

  /** The record loop's checks, and the head check made over all records afterwards. */
  predicate Clean(e: Event) {
    RecordOk(e) && HeadOk(e)
  }

  /** Ids are contiguous, timestamps do not go back, every record is in order. */
  predicate Accepted(es: seq<Event>) {
    forall i :: 0 <= i < |es| ==> AcceptedAt(es, i)
  }

  predicate AcceptedAt(es: seq<Event>, i: nat)
    requires i < |es|
  {
    es[i].eventId == i && es[i].timestamp >= (if i == 0 then 0 else es[i-1].timestamp) && RecordOk(es[i])
  }

  /** The head check over all records, which follows the loop. */
  predicate HeadsOk(es: seq<Event>) {
    forall i :: 0 <= i < |es| ==> HeadOk(es[i])
  }

  predicate AllOk(es: seq<Event>) {
    forall i :: 0 <= i < |es| ==> Clean(es[i])
  }

  lemma PlacedRecord(e: Event, base: int, i: nat)
    ensures RecordOk(Placed(e, base, i)) <==> RecordOk(e)
    ensures HeadOk(Placed(e, base, i)) <==> HeadOk(e)
  {
  }

  lemma NumberedAccepted(base: int, es: seq<Event>)
    requires base >= 0 && AllOk(es)
    ensures Accepted(Numbered(base, es)) && HeadsOk(Numbered(base, es))
  {
    var r := Numbered(base, es);
    forall i | 0 <= i < |es| ensures AcceptedAt(r, i) && HeadOk(r[i]) {
      assert Clean(es[i]);
      PlacedRecord(es[i], base, i);
    }
  }

  /** The loop alone checks everything that is asked of the prefill records. */
  lemma {:induction false} PrefillOperation<T>(g: Geometry, layers: seq<seq<Block<T>>>, n: nat, i: nat)
    requires n <= |layers| && i < |PrefillAll(g, layers, n)|
    ensures PrefillAll(g, layers, n)[i].operation == PREFILL_WRITE
  {
    var m := |PrefillAll(g, layers, n - 1)|;
    if i < m { PrefillOperation(g, layers, n - 1, i); }
  }

  lemma AcceptedPrefill<T>(g: Geometry, sel: Selector<T>, steps: nat, layers: seq<seq<Block<T>>>, base: int)
    requires Accepted(Trace(g, sel, steps, layers, base))
    ensures AllOk(PrefillAll(g, layers, |layers|))
  {
    var es, trace := PrefillAll(g, layers, |layers|), Trace(g, sel, steps, layers, base);
    forall i | 0 <= i < |es| ensures Clean(es[i]) {
      assert AcceptedAt(trace, i);
      PlacedRecord(es[i], base, i);
      PrefillOperation(g, layers, |layers|, i);
    }
  }

  /** The blocks have pages of 4096 bytes and belong to the KV heads 0 and 1. */
  predicate Standard<T>(g: Geometry, bs: seq<Block<T>>) {
    forall i :: 0 <= i < |bs| ==> StandardBlock(g, bs[i])
  }

  predicate StandardBlock<T>(g: Geometry, b: Block<T>) {
    g.keySize == 4096 && b.headStart <= 1
  }

  lemma PrefillOkIff<T>(g: Geometry, l: nat, bs: seq<Block<T>>)
    ensures AllOk(PrefillDrafts(g, l, bs)) <==> Standard(g, bs)
  {
    var es := PrefillDrafts(g, l, bs);
    if AllOk(es) {
      forall i | 0 <= i < |bs| ensures StandardBlock(g, bs[i]) {
        assert Clean(es[i]);
        PrefillRecord(g, l, bs[i]);
      }
    }
    if Standard(g, bs) {
      forall i | 0 <= i < |es| ensures Clean(es[i]) {
        PrefillRecord(g, l, bs[i]);
      }
    }
  }

  lemma PrefillRecord<T>(g: Geometry, l: nat, b: Block<T>)
    ensures Clean(PrefillEvent(g, l, b)) <==> StandardBlock(g, b)
  {
    var e := PrefillEvent(g, l, b);
    assert e.selected == [e.block] && e.bytes == 2 * g.keySize;
  }

  lemma MemberStandard<T>(g: Geometry, bs: seq<Block<T>>, b: Block<T>)
    requires Standard(g, bs) && b in multiset(bs)
    ensures StandardBlock(g, b)
  {
    var i :| 0 <= i < |bs| && bs[i] == b;
  }

  lemma ReadsOk<T>(g: Geometry, step: nat, l: nat, bs: seq<Block<T>>, dram: seq<Block<T>>)
    requires Standard(g, bs) && step >= 1 && forall i :: 0 <= i < |dram| ==> dram[i] in multiset(bs)
    ensures AllOk(ReadDrafts(g, step, l, dram))
  {
    forall i | 0 <= i < |dram| ensures Clean(ReadDrafts(g, step, l, dram)[i]) {
      MemberStandard(g, bs, dram[i]);
    }
  }

  lemma FetchesOk<T>(g: Geometry, step: nat, l: nat, bs: seq<Block<T>>, chosen: seq<Block<T>>, candidates: seq<nat>)
    requires Standard(g, bs) && step >= 1 && forall i :: 0 <= i < |chosen| ==> chosen[i] in multiset(bs)
    ensures AllOk(FetchDrafts(g, step, l, chosen, candidates, Ids(chosen)))
  {
    var fetches := FetchDrafts(g, step, l, chosen, candidates, Ids(chosen));
    forall i | 0 <= i < |chosen| ensures Clean(fetches[i]) {
      MemberStandard(g, bs, chosen[i]);
      assert Ids(chosen)[i] == chosen[i].id;
    }
  }

  lemma LayerDraftsOk<T>(g: Geometry, step: nat, l: nat, bs: seq<Block<T>>, dram: seq<Block<T>>, ssd: seq<Block<T>>,
                         chosen: seq<Block<T>>, k: nat)
    requires Standard(g, bs) && step >= 1
    requires forall i :: 0 <= i < |dram| ==> dram[i] in multiset(bs)
    requires forall i :: 0 <= i < |ssd| ==> ssd[i] in multiset(bs)
    requires forall i :: 0 <= i < |chosen| ==> chosen[i] in multiset(ssd)
    requires ssd != [] ==> chosen != []
    ensures AllOk(LayerDrafts(g, step, l, dram, ssd, chosen, k))
  {
    ReadsOk(g, step, l, bs, dram);
    if ssd != [] {
      MemberStandard(g, bs, ssd[0]);
      ChosenAmong(bs, ssd, chosen);
      FetchesOk(g, step, l, bs, chosen, Ids(ssd));
      var filter := FilterEvent(g, step, l, Ids(ssd), Ids(chosen), k);
      var fetches := FetchDrafts(g, step, l, chosen, Ids(ssd), Ids(chosen));
      AllOkJoin([filter], fetches);
      AllOkJoin(ReadDrafts(g, step, l, dram), [filter] + fetches);
    } else {
      assert ReadDrafts(g, step, l, dram) + [] == ReadDrafts(g, step, l, dram);
    }
  }

  /** What decoding logs for standard blocks passes. */
  lemma DecodeOk<T(!new)>(g: Geometry, sel: Selector<T>, step: nat, l: nat, bs: seq<Block<T>>)
    requires Standard(g, bs) && step >= 1 && SelectorOk(sel)
    ensures AllOk(DecodeDrafts(g, sel, step, l, bs))
  {
    var ssd := Where(bs, false);
    WhereAmong(bs, true);
    WhereAmong(bs, false);
    assert ChoiceOk(ssd, sel.choose(step, l, ssd), sel.kOf(|ssd|));
    LayerDraftsOk(g, step, l, bs, Where(bs, true), ssd, sel.choose(step, l, ssd), sel.kOf(|ssd|));
  }

  lemma ChosenAmong<T>(bs: seq<Block<T>>, ssd: seq<Block<T>>, chosen: seq<Block<T>>)
    requires forall i :: 0 <= i < |ssd| ==> ssd[i] in multiset(bs)
    requires forall i :: 0 <= i < |chosen| ==> chosen[i] in multiset(ssd)
    ensures forall i :: 0 <= i < |chosen| ==> chosen[i] in multiset(bs)
  {
    forall i | 0 <= i < |chosen| ensures chosen[i] in multiset(bs) {
      var j :| 0 <= j < |ssd| && ssd[j] == chosen[i];
    }
  }

  lemma AllOkJoin(x: seq<Event>, y: seq<Event>)
    ensures AllOk(x + y) <==> AllOk(x) && AllOk(y)
  {
    if AllOk(x + y) {
      forall i | 0 <= i < |x| ensures Clean(x[i]) { assert (x + y)[i] == x[i]; }
      forall i | 0 <= i < |y| ensures Clean(y[i]) { assert (x + y)[|x| + i] == y[i]; }
    }
  }

  predicate AllStandard<T>(g: Geometry, layers: seq<seq<Block<T>>>, n: nat)
    requires n <= |layers|
  {
    forall l :: 0 <= l < n ==> Standard(g, layers[l])
  }

  lemma {:induction false} PrefillAllOkIff<T>(g: Geometry, layers: seq<seq<Block<T>>>, n: nat)
    requires n <= |layers|
    ensures AllOk(PrefillAll(g, layers, n)) <==> AllStandard(g, layers, n)
  {
    if n > 0 {
      PrefillAllOkIff(g, layers, n - 1);
      PrefillOkIff(g, n - 1, layers[n-1]);
      AllOkJoin(PrefillAll(g, layers, n - 1), PrefillDrafts(g, n - 1, layers[n-1]));
    }
  }

  predicate DecodesOk<T>(g: Geometry, sel: Selector<T>, step: nat, layers: seq<seq<Block<T>>>, l: nat)
    requires l < |layers|
  {
    AllOk(DecodeDrafts(g, sel, step, l, layers[l]))
  }

  lemma {:induction false} StepAllOk<T>(g: Geometry, sel: Selector<T>, step: nat, layers: seq<seq<Block<T>>>, n: nat)
    requires n <= |layers| && LayersOk(g, sel, step, layers)
    ensures StepOk(g, sel, step, layers, n)
  {
    if n > 0 {
      StepAllOk(g, sel, step, layers, n - 1);
      StepOkNext(g, sel, step, layers, n);
    }
  }

  predicate LayersOk<T>(g: Geometry, sel: Selector<T>, step: nat, layers: seq<seq<Block<T>>>) {
    forall l: nat | l < |layers| :: DecodesOk(g, sel, step, layers, l)
  }

  predicate StepOk<T>(g: Geometry, sel: Selector<T>, step: nat, layers: seq<seq<Block<T>>>, n: nat)
    requires n <= |layers|
  {
    AllOk(StepAll(g, sel, step, layers, n))
  }

  lemma StepOkNext<T>(g: Geometry, sel: Selector<T>, step: nat, layers: seq<seq<Block<T>>>, n: nat)
    requires 0 < n <= |layers| && StepOk(g, sel, step, layers, n - 1) && LayersOk(g, sel, step, layers)
    ensures StepOk(g, sel, step, layers, n)
  {
    assert DecodesOk(g, sel, step, layers, n - 1);
    AllOkJoin(StepAll(g, sel, step, layers, n - 1), DecodeDrafts(g, sel, step, n - 1, layers[n-1]));
  }

  lemma WholeStepOk<T(!new)>(g: Geometry, sel: Selector<T>, step: nat, layers: seq<seq<Block<T>>>)
    requires AllStandard(g, layers, |layers|) && SelectorOk(sel) && step >= 1
    ensures AllOk(StepAll(g, sel, step, layers, |layers|))
  {
    forall l: nat | l < |layers| ensures DecodesOk(g, sel, step, layers, l) {
      DecodeOk(g, sel, step, l, layers[l]);
    }
    StepAllOk(g, sel, step, layers, |layers|);
  }

  lemma {:induction false} DecodeAllOk<T(!new)>(g: Geometry, sel: Selector<T>, steps: nat, layers: seq<seq<Block<T>>>)
    requires AllStandard(g, layers, |layers|) && SelectorOk(sel)
    ensures AllOk(DecodeAll(g, sel, steps, layers))
  {
    if steps > 0 {
      DecodeAllOk(g, sel, steps - 1, layers);
      WholeStepOk(g, sel, steps, layers);
      AllOkJoin(DecodeAll(g, sel, steps - 1, layers), StepAll(g, sel, steps, layers, |layers|));
    }
  }

  /**
   The record loop accepts a generated trace exactly when all blocks have 4096-byte pages and KV heads
   0 and 1, for any scores, any selection share and any number of steps; the head check over all
   records never rejects what the loop has accepted.
   */
  lemma AcceptedIff<T(!new)>(g: Geometry, sel: Selector<T>, steps: nat, layers: seq<seq<Block<T>>>, base: int)
    requires base >= 0 && SelectorOk(sel)
    ensures Accepted(Trace(g, sel, steps, layers, base)) <==> AllStandard(g, layers, |layers|)
    ensures Accepted(Trace(g, sel, steps, layers, base)) ==> HeadsOk(Trace(g, sel, steps, layers, base))
  {
    PrefillAllOkIff(g, layers, |layers|);
    if Accepted(Trace(g, sel, steps, layers, base)) { AcceptedPrefill(g, sel, steps, layers, base); }
    if AllStandard(g, layers, |layers|) {
      DecodeAllOk(g, sel, steps, layers);
      AllOkJoin(PrefillAll(g, layers, |layers|), DecodeAll(g, sel, steps, layers));
      NumberedAccepted(base, Drafts(g, sel, steps, layers));
    }
  }

  // ------------------------------------------------------------------ how many events

  /** What one step logs for a layer of `dram` resident blocks and `ssd` candidates. */
  function PerLayer(dram: nat, ssd: nat, kOf: nat -> nat): nat {
    dram + if ssd == 0 then 0 else 1 + Min(kOf(ssd), ssd)
  }

  /** All layers have as many blocks, and as many of them resident. */
  predicate Even<T>(layers: seq<seq<Block<T>>>, blocks: nat, dram: nat) {
    forall l :: 0 <= l < |layers| ==> |layers[l]| == blocks && |Where(layers[l], true)| == dram
  }

  lemma {:induction false} WhereSplits<T>(bs: seq<Block<T>>)
    ensures |Where(bs, true)| + |Where(bs, false)| == |bs|
  {
    if bs != [] { WhereSplits(bs[..|bs|-1]); }
  }

  lemma {:induction false} PrefillCount<T>(g: Geometry, layers: seq<seq<Block<T>>>, n: nat, blocks: nat, dram: nat)
    requires n <= |layers| && Even(layers, blocks, dram)
    ensures |PrefillAll(g, layers, n)| == Times(n, blocks)
  {
    if n > 0 {
      PrefillCount(g, layers, n - 1, blocks, dram);
      MulStep(n - 1, blocks);
    }
  }

  lemma LayerCount<T(!new)>(g: Geometry, sel: Selector<T>, step: nat, l: nat, bs: seq<Block<T>>)
    requires SelectorOk(sel)
    ensures |DecodeDrafts(g, sel, step, l, bs)| == PerLayer(|Where(bs, true)|, |bs| - |Where(bs, true)|, sel.kOf)
  {
    var ssd := Where(bs, false);
    WhereSplits(bs);
    assert ChoiceOk(ssd, sel.choose(step, l, ssd), sel.kOf(|ssd|));
  }

  /** One step logs `each` events for the layer. */
  predicate Logs<T>(g: Geometry, sel: Selector<T>, step: nat, l: nat, bs: seq<Block<T>>, each: nat) {
    |DecodeDrafts(g, sel, step, l, bs)| == each
  }

  lemma StepLength<T>(g: Geometry, sel: Selector<T>, step: nat, layers: seq<seq<Block<T>>>, n: nat)
    requires 0 < n <= |layers|
    ensures |StepAll(g, sel, step, layers, n)|
         == |StepAll(g, sel, step, layers, n - 1)| + |DecodeDrafts(g, sel, step, n - 1, layers[n-1])|
  {
  }

  lemma {:induction false} StepCount<T>(g: Geometry, sel: Selector<T>, step: nat, layers: seq<seq<Block<T>>>, n: nat,
                                        each: nat)
    requires n <= |layers| && AllLog(g, sel, step, layers, each)
    ensures LogsInAll(g, sel, step, layers, n, each)
  {
    if n > 0 {
      StepCount(g, sel, step, layers, n - 1, each);
      OneLayerMore(g, sel, step, layers, n, each);
    }
  }

  predicate AllLog<T>(g: Geometry, sel: Selector<T>, step: nat, layers: seq<seq<Block<T>>>, each: nat) {
    forall l {:trigger Logs(g, sel, step, l, layers[l], each)} :: 0 <= l < |layers| ==>
      Logs(g, sel, step, l, layers[l], each)
  }

  predicate LogsInAll<T>(g: Geometry, sel: Selector<T>, step: nat, layers: seq<seq<Block<T>>>, n: nat, each: nat)
    requires n <= |layers|
  {
    |StepAll(g, sel, step, layers, n)| == Times(n, each)
  }

  lemma OneLayerMore<T>(g: Geometry, sel: Selector<T>, step: nat, layers: seq<seq<Block<T>>>, n: nat, each: nat)
    requires 0 < n <= |layers| && LogsInAll(g, sel, step, layers, n - 1, each)
    requires AllLog(g, sel, step, layers, each)
    ensures LogsInAll(g, sel, step, layers, n, each)
  {
    LogsAt(g, sel, step, layers, each, n - 1);
    StepLength(g, sel, step, layers, n);
    TimesNext(n - 1, each);
  }

  lemma LogsAt<T>(g: Geometry, sel: Selector<T>, step: nat, layers: seq<seq<Block<T>>>, each: nat, l: nat)
    requires AllLog(g, sel, step, layers, each) && l < |layers|
    ensures |DecodeDrafts(g, sel, step, l, layers[l])| == each
  {
    assert Logs(g, sel, step, l, layers[l], each);
  }

  lemma EachLayerLogs<T(!new)>(g: Geometry, sel: Selector<T>, step: nat, layers: seq<seq<Block<T>>>, blocks: nat,
                               dram: nat)
    requires Even(layers, blocks, dram) && dram <= blocks && SelectorOk(sel)
    ensures AllLog(g, sel, step, layers, PerLayer(dram, blocks - dram, sel.kOf))
  {
    forall l | 0 <= l < |layers| ensures Logs(g, sel, step, l, layers[l], PerLayer(dram, blocks - dram, sel.kOf)) {
      LayerCount(g, sel, step, l, layers[l]);
    }
  }

  lemma StepTotal<T(!new)>(g: Geometry, sel: Selector<T>, step: nat, layers: seq<seq<Block<T>>>, blocks: nat, dram: nat)
    requires Even(layers, blocks, dram) && dram <= blocks && SelectorOk(sel)
    ensures |StepAll(g, sel, step, layers, |layers|)| == Times(|layers|, PerLayer(dram, blocks - dram, sel.kOf))
  {
    EachLayerLogs(g, sel, step, layers, blocks, dram);
    StepCount(g, sel, step, layers, |layers|, PerLayer(dram, blocks - dram, sel.kOf));
  }

  lemma {:induction false} DecodeCount<T>(g: Geometry, sel: Selector<T>, steps: nat, layers: seq<seq<Block<T>>>,
                                          each: nat)
    requires forall step :: 1 <= step <= steps ==> |StepAll(g, sel, step, layers, |layers|)| == each
    ensures |DecodeAll(g, sel, steps, layers)| == Times(steps, each)
  {
    if steps > 0 {
      DecodeCount(g, sel, steps - 1, layers, each);
      MulStep(steps - 1, each);
    }
  }

  /**
   One event per block at prefill; per step and layer the resident reads, one filter and one fetch per selected
   block.
   */
  lemma EventCount<T(!new)>(g: Geometry, sel: Selector<T>, steps: nat, layers: seq<seq<Block<T>>>, base: int,
                            blocks: nat, dram: nat)
    requires Even(layers, blocks, dram) && dram <= blocks && SelectorOk(sel)
    ensures |Trace(g, sel, steps, layers, base)|
         == Times(|layers|, blocks) + Times(steps, Times(|layers|, PerLayer(dram, blocks - dram, sel.kOf)))
  {
    PrefillCount(g, layers, |layers|, blocks, dram);
    var each := Times(|layers|, PerLayer(dram, blocks - dram, sel.kOf));
    forall step | 1 <= step <= steps ensures |StepAll(g, sel, step, layers, |layers|)| == each {
      StepTotal(g, sel, step, layers, blocks, dram);
    }
    DecodeCount(g, sel, steps, layers, each);
  }
}

/** The loops of the trace generator and of the validator. */
module TraceGenerator {
  import opened Sequences
  import opened Blockize
  import opened TraceEvents
  import opened TraceTallies

  /** The events written so far, for the drafts so far. */
  method Log(events: seq<Event>, base: int, e: Event, ghost drafts: seq<Event>) returns (r: seq<Event>)
    requires events == Numbered(base, drafts)
    ensures r == Numbered(base, drafts + [e])
  {
    r := events + [e.(eventId := |events|, timestamp := base + |events| * 100)];
  }

  /** The event construction of `generate_trace_from_run`. */
  method GenerateTrace<T>(g: Geometry, layerBlocks: seq<seq<Block<T>>>, sel: Selector<T>, totalSteps: nat, base: int)
    returns (events: seq<Event>)
    ensures events == Trace(g, sel, totalSteps, layerBlocks, base)
  {
    events := [];
    ghost var drafts := [];
    for l := 0 to |layerBlocks|
      invariant drafts == PrefillAll(g, layerBlocks, l) && events == Numbered(base, drafts)
    {
      events := LogPrefill(g, l, layerBlocks[l], events, base, drafts);
      drafts := drafts + PrefillDrafts(g, l, layerBlocks[l]);
    }
    ghost var prefill := drafts;
    assert prefill + [] == prefill;
    for stepIdx := 0 to totalSteps
      invariant drafts == prefill + DecodeAll(g, sel, stepIdx, layerBlocks) && events == Numbered(base, drafts)
    {
      events := LogStep(g, layerBlocks, sel, stepIdx + 1, events, base, drafts);
      drafts := drafts + StepAll(g, sel, stepIdx + 1, layerBlocks, |layerBlocks|);
      Regroup(prefill, DecodeAll(g, sel, stepIdx, layerBlocks),
              StepAll(g, sel, stepIdx + 1, layerBlocks, |layerBlocks|));
    }
  }

  /** The layer loop of one decode step. */
  method LogStep<T>(g: Geometry, layerBlocks: seq<seq<Block<T>>>, sel: Selector<T>, step: nat, before: seq<Event>,
                    base: int, ghost drafts: seq<Event>) returns (events: seq<Event>)
    requires before == Numbered(base, drafts)
    ensures events == Numbered(base, drafts + StepAll(g, sel, step, layerBlocks, |layerBlocks|))
  {
    events := before;
    ghost var all := drafts;
    assert drafts + [] == drafts;
    for l := 0 to |layerBlocks|
      invariant all == drafts + StepAll(g, sel, step, layerBlocks, l) && events == Numbered(base, all)
    {
      events := LogDecode(g, sel, step, l, layerBlocks[l], events, base, all);
      all := all + DecodeDrafts(g, sel, step, l, layerBlocks[l]);
      Regroup(drafts, StepAll(g, sel, step, layerBlocks, l), DecodeDrafts(g, sel, step, l, layerBlocks[l]));
    }
  }

  method LogPrefill<T>(g: Geometry, l: nat, blocks: seq<Block<T>>, before: seq<Event>, base: int,
                       ghost drafts: seq<Event>)
    returns (events: seq<Event>)
    requires before == Numbered(base, drafts)
    ensures events == Numbered(base, drafts + PrefillDrafts(g, l, blocks))
  {
    events := before;
    ghost var es := PrefillDrafts(g, l, blocks);
    assert drafts + es[..0] == drafts;
    for i := 0 to |blocks|
      invariant events == Numbered(base, drafts + es[..i])
    {
      events := Log(events, base, PrefillEvent(g, l, blocks[i]), drafts + es[..i]);
      assert drafts + es[..i] + [es[i]] == drafts + es[..i+1];
    }
    assert es[..|blocks|] == es;
  }

  method LogReads<T>(g: Geometry, step: nat, l: nat, blocks: seq<Block<T>>, before: seq<Event>, base: int,
                     ghost drafts: seq<Event>)
    returns (events: seq<Event>)
    requires before == Numbered(base, drafts)
    ensures events == Numbered(base, drafts + ReadDrafts(g, step, l, blocks))
  {
    events := before;
    ghost var es := ReadDrafts(g, step, l, blocks);
    assert drafts + es[..0] == drafts;
    for i := 0 to |blocks|
      invariant events == Numbered(base, drafts + es[..i])
    {
      events := Log(events, base, ReadEvent(g, step, l, blocks[i]), drafts + es[..i]);
      assert drafts + es[..i] + [es[i]] == drafts + es[..i+1];
    }
    assert es[..|blocks|] == es;
  }

  method LogFetches<T>(g: Geometry, step: nat, l: nat, chosen: seq<Block<T>>, candidates: seq<nat>, before: seq<Event>,
                       base: int, ghost drafts: seq<Event>) returns (events: seq<Event>)
    requires before == Numbered(base, drafts)
    ensures events == Numbered(base, drafts + FetchDrafts(g, step, l, chosen, candidates, Ids(chosen)))
  {
    events := before;
    ghost var es := FetchDrafts(g, step, l, chosen, candidates, Ids(chosen));
    assert drafts + es[..0] == drafts;
    for i := 0 to |chosen|
      invariant events == Numbered(base, drafts + es[..i])
    {
      events := Log(events, base, FetchEvent(g, step, l, chosen[i], candidates, Ids(chosen)), drafts + es[..i]);
      assert drafts + es[..i] + [es[i]] == drafts + es[..i+1];
    }
    assert es[..|chosen|] == es;
  }

  /** One layer of one decode step: resident reads, then the filter and the fetches if there are candidates. */
  method LogDecode<T>(g: Geometry, sel: Selector<T>, step: nat, l: nat, blocks: seq<Block<T>>, before: seq<Event>,
                      base: int, ghost drafts: seq<Event>) returns (events: seq<Event>)
    requires before == Numbered(base, drafts)
    ensures events == Numbered(base, drafts + DecodeDrafts(g, sel, step, l, blocks))
  {
    var dramBlocks, ssdEntries := Where(blocks, true), Where(blocks, false);
    events := LogReads(g, step, l, dramBlocks, before, base, drafts);
    ghost var hits := ReadDrafts(g, step, l, dramBlocks);
    if |ssdEntries| > 0 {
      var chosen := sel.choose(step, l, ssdEntries);
      var filter := FilterEvent(g, step, l, Ids(ssdEntries), Ids(chosen), sel.kOf(|ssdEntries|));
      events := Log(events, base, filter, drafts + hits);
      events := LogFetches(g, step, l, chosen, Ids(ssdEntries), events, base, drafts + hits + [filter]);
      ghost var fetches := FetchDrafts(g, step, l, chosen, Ids(ssdEntries), Ids(chosen));
      assert drafts + hits + [filter] + fetches == drafts + (hits + ([filter] + fetches));
    } else {
      assert hits + [] == hits;
    }
  }

  function Tallied<K>(counts: map<K, nat>, key: K): (r: map<K, nat>) {
    counts[key := 1 + if key in counts then counts[key] else 0]
  }

  /** The tallies of the records seen so far. */
  ghost predicate TalliesOk(es: seq<Event>, subPageCounts: map<SubPage, nat>, headCounts: map<nat, nat>) {
    && (forall s :: s in subPageCounts <==> Shows(es, s))
    && (forall s :: s in subPageCounts ==> subPageCounts[s] > 0)
    && (forall h :: h in headCounts <==> exists i :: 0 <= i < |es| && es[i].head == h)
  }

  lemma TallyOne(es: seq<Event>, e: Event, subPageCounts: map<SubPage, nat>, headCounts: map<nat, nat>)
    requires TalliesOk(es, subPageCounts, headCounts)
    ensures TalliesOk(es + [e], Tallied(subPageCounts, e.subPage), Tallied(headCounts, e.head))
  {
    var now := es + [e];
    assert now[|es|] == e;
    forall s ensures s in Tallied(subPageCounts, e.subPage) <==> Shows(now, s) {
      ShowsJoin(es, [e], s);
      assert Shows([e], s) <==> [e][0].subPage == s;
    }
    forall h ensures h in Tallied(headCounts, e.head) <==> exists i :: 0 <= i < |now| && now[i].head == h {
      if h in headCounts {
        var i :| 0 <= i < |es| && es[i].head == h;
        assert now[i].head == h;
      }
    }
  }

  /** The record loop of `validate_trace`: stops at the first record that fails a check, and tallies the others. */
  method ValidateRecords(events: seq<Event>)
    returns (ok: bool, subPageCounts: map<SubPage, nat>, headCounts: map<nat, nat>)
    ensures ok <==> Accepted(events)
    ensures ok ==> TalliesOk(events, subPageCounts, headCounts)
  {
    subPageCounts, headCounts := map[], map[];
    var prevEventId: int, prevTimestamp: int := -1, 0;
    for i := 0 to |events|
      invariant prevEventId == i - 1 && prevTimestamp == if i == 0 then 0 else events[i-1].timestamp
      invariant forall j :: 0 <= j < i ==> AcceptedAt(events, j)
      invariant TalliesOk(events[..i], subPageCounts, headCounts)
    {
      var rec := events[i];
      TallyOne(events[..i], rec, subPageCounts, headCounts);
      assert events[..i+1] == events[..i] + [rec];
      subPageCounts, headCounts := Tallied(subPageCounts, rec.subPage), Tallied(headCounts, rec.head);
      if rec.eventId != prevEventId + 1 || rec.timestamp < prevTimestamp || !RecordOk(rec) {
        assert !AcceptedAt(events, i);
        return false, subPageCounts, headCounts;
      }
      prevEventId, prevTimestamp := rec.eventId, rec.timestamp;
    }
    assert events[..|events|] == events;
    ok := true;
  }

  /** `validate_trace` up to the head check: the record loop, the number of events, then the tallies. */
  method ValidateTrace(events: seq<Event>) returns (ok: bool)
    ensures ok <==> Validated(events)
  {
    var subPageCounts: map<SubPage, nat>, headCounts: map<nat, nat>;
    ok, subPageCounts, headCounts := ValidateRecords(events);
    if !ok || |events| != EXPECTED_EVENTS { return false; }
    if KEY !in subPageCounts || VALUE !in subPageCounts || BOTH !in subPageCounts { return false; }
    assert forall i :: 0 <= i < |events| ==> events[i].head in headCounts;
    ok := headCounts.Keys <= {0, 1};
    if !ok {
      var h :| h in headCounts && h !in {0, 1};
      var i :| 0 <= i < |events| && events[i].head == h;
      assert !HeadOk(events[i]);
    }
  }
}

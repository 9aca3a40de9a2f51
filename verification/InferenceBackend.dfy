/** `RealInferenceStorageBackend` over a backing file; its methods are specified by module BackendStore. */
module InferenceBackend {
  import opened Options
  import opened Arithmetic
  import opened Wire
  import opened BackendStore
  import opened BackendCharges
  import opened BackendTopk

  class RealInferenceStorageBackend {
    const cfg: Config
    const enableBatching: bool
    var file: Bytes
    var fileOffset: nat
    var storage: map<Key, Entry>
    var stats: Stats                // the telemetry counters

    function View(): Store
      reads this
    {
      Store(file, fileOffset, storage, stats)
    }

    ghost predicate Valid()
      reads this
    {
      ConfigOk(cfg) && StoreOk(cfg, View())
    }

    constructor (cfg: Config, enableBatching: bool)
      requires ConfigOk(cfg)
      ensures Valid() && this.cfg == cfg && this.enableBatching == enableBatching && View() == Empty(cfg)
    {
      this.cfg, this.enableBatching := cfg, enableBatching;
      file, fileOffset, storage, stats := [], 0, map[], NoStats(cfg.channels);
    }

    /** `pwrite` on the backing file, at or before its end. */
    method PWrite(data: Bytes, offset: nat)
      requires offset <= |file|
      modifies this`file
      ensures offset == old(|file|) ==> file == old(file) + data
    {
      var end := offset + |data|;
      file := file[..offset] + data + if end < |file| then file[end..] else [];
    }

    function PRead(size: nat, offset: nat): Bytes
      requires offset + size <= |file|
      reads this
    {
      file[offset..offset + size]
    }

    /** Both pages to the end of the file. */
    method AppendPages(k: Bytes, v: Bytes) returns (kOffset: nat)
      requires fileOffset == |file|
      modifies this`file, this`fileOffset
      ensures file == old(file) + k + v && fileOffset == old(fileOffset) + (|k| + |v|)
      ensures kOffset == old(fileOffset)
    {
      kOffset := fileOffset;
      var vOffset := kOffset + |k|;
      PWrite(k, kOffset);
      PWrite(v, vOffset);
      fileOffset := fileOffset + (|k| + |v|);
    }

    lemma IsWrite(s: Store, t: Store, l: int, b: int, k: Tensor, v: Tensor, head: int, token: int)
      requires ConfigOk(cfg) && StoreOk(cfg, s)
      requires t.file == s.file + k.bytes + v.bytes && t.fileOffset == s.fileOffset + (|k.bytes| + |v.bytes|)
      requires var primary := PrimaryChannel(cfg, s.stats, l, b, head, token, HeadsOf(k));
        t.table == s.table[(l, b) := EntryFor(cfg, s.fileOffset, k, v, primary)]
      requires var total := |k.bytes| + |v.bytes|;
        var placed := PlaceHeads(cfg, s.stats, l, b, head, token, HeadsOf(k), Share(total, HeadsOf(k)));
        t.stats == CountWrite(placed, total)
      ensures t == Write(cfg, s, l, b, k, v, head, token) && StoreOk(cfg, t)
    {
    }

    /** `write_block`: every head goes to a channel, the bytes to the end of the file, the metadata to the table. */
    method WriteBlock(l: int, b: int, kBlock: Tensor, vBlock: Tensor, head: int, token: int)
      requires Valid()
      modifies this
      ensures Valid() && View() == Write(cfg, old(View()), l, b, kBlock, vBlock, head, token)
      ensures (l, b) in storage
      ensures WriteShows(cfg, old(stats), stats, storage[(l, b)].channel, l, b, kBlock, head, token,
                         |kBlock.bytes| + |vBlock.bytes|)
    {
      ghost var s := View();
      var total := |kBlock.bytes| + |vBlock.bytes|;
      var primary := PlaceAll(l, b, head, token, HeadsOf(kBlock), total);
      var kOffset := AppendPages(kBlock.bytes, vBlock.bytes);
      storage := storage[(l, b) := EntryFor(cfg, kOffset, kBlock, vBlock, primary)];
      stats := CountWrite(stats, total);
      IsWrite(s, View(), l, b, kBlock, vBlock, head, token);
      ghost var channels := WriteIsCharged(cfg, s, l, b, kBlock, vBlock, head, token);
    }

    /** The loop over the heads of a block; returns the channel of the first one. */
    method PlaceAll(l: int, b: int, head: int, token: int, heads: nat, total: nat) returns (primary: nat)
      requires Valid()
      modifies this`stats
      ensures StatsOk(cfg, stats) && stats == PlaceHeads(cfg, old(stats), l, b, head, token, heads, Share(total, heads))
      ensures primary == PrimaryChannel(cfg, old(stats), l, b, head, token, heads)
    {
      primary := 0;
      ghost var t0, share := stats, Share(total, heads);
      for i := 0 to heads
        invariant StatsOk(cfg, stats) && stats == PlaceHeads(cfg, t0, l, b, head, token, i, share)
        invariant i > 0 ==> primary == PrimaryChannel(cfg, t0, l, b, head, token, heads)
        invariant i == 0 ==> primary == 0
      {
        var ch := cfg.place(Coord(l, head + i, token, b), Some(stats.counters));
        if i == 0 { primary := ch; }
        stats := PlaceHead(stats, ch, total / heads);
      }
    }

    /** What a read answers: the bytes of a page, zeros for a block that is not stored, nothing if it raises. */
    function Answer(kind: Kind, key: Key): Option<Page>
      requires Valid()
      reads this
    {
      if Loads(View(), kind, key) then Some(Fetch(cfg, View(), kind, key)) else None
    }

    /** The pages of a block, each given its shape. */
    method Load(kind: Kind, key: Key) returns (page: Option<Page>)
      requires Valid()
      ensures page == Answer(kind, key)
    {
      if key !in storage {
        var zeros := seq(cfg.zeroPage, _ => 0);
        return Some(Part(kind, Page(zeros, zeros)));
      }
      var e := storage[key];
      assert EntryOk(cfg, View(), e);
      match kind
      case KeyPage => page := if e.kLoads then Some(Page(PRead(e.kSize, e.kOffset), [])) else None;
      case ValuePage => page := if e.vLoads then Some(Page([], PRead(e.vSize, e.vOffset))) else None;
      case WholeBlock =>
        page := if e.kLoads && e.vLoads then Some(Page(PRead(e.kSize, e.kOffset), PRead(e.vSize, e.vOffset))) else None;
    }

    /** The same, with the keys and values of a whole block in a single read that is split afterwards. */
    method LoadAdjacent(kind: Kind, key: Key) returns (page: Option<Page>)
      requires Valid()
      ensures page == Answer(kind, key)
    {
      if key in storage && kind == WholeBlock {
        var e := storage[key];
        assert EntryOk(cfg, View(), e);
        var raw := PRead(e.kSize + e.vSize, e.kOffset);
        page := if e.kLoads && e.vLoads then Some(Page(raw[..e.kSize], raw[e.kSize..])) else None;
        assert raw[..e.kSize] == file[e.kOffset..e.kOffset + e.kSize];
        assert raw[e.kSize..] == file[e.vOffset..e.vOffset + e.vSize];
      } else {
        page := Load(kind, key);
      }
    }

    /** `read_key_page`, `read_value_page`, `read_block` */
    method ReadPage(kind: Kind, l: int, b: int, head: int, token: int) returns (page: Option<Page>)
      requires Valid()
      modifies this`stats
      ensures Valid() && View() == Read(cfg, old(View()), kind, l, b, head, token)
      ensures page == old(Answer(kind, (l, b)))
      ensures if page.None? then stats == old(stats)
              else ReadCharges(cfg, old(stats), stats, kind, cfg.place(Coord(l, head, token, b), None),
                               Size(page.value))
    {
      var ch := cfg.place(Coord(l, head, token, b), None);
      page := Load(kind, (l, b));
      if page == None { return; }
      stats := Charge(stats, ch, Size(page.value));
      stats := Tally(stats, kind, 1, Size(page.value));
      ReadIsCharged(cfg, old(View()), kind, l, b, head, token);
    }

    /**
     `read_key_page_batch`, `read_value_page_batch`, `read_block_batch`: nothing if a page cannot be given its shape.
     */
    method ReadPageBatch(kind: Kind, l: int, ids: seq<int>, head: int, token: int)
      returns (results: Option<map<int, Page>>)
      requires Valid()
      modifies this`stats
      ensures Valid()
      ensures View() == if enableBatching then ReadBatch(cfg, old(View()), kind, l, ids)
                        else ReadEach(cfg, old(View()), kind, l, Loaded(old(View()), kind, l, ids), head, token)
      ensures results
           == if AllLoad(old(View()), kind, l, ids) then Some(Pages(cfg, old(View()), kind, l, ids)) else None
    {
      if ids == [] { return Some(map[]); }
      if enableBatching {
        results := ReadTogether(kind, l, ids);
      } else {
        results := ReadSingly(kind, l, ids, head, token);
      }
    }

    method ReadSingly(kind: Kind, l: int, ids: seq<int>, head: int, token: int)
      returns (results: Option<map<int, Page>>)
      requires Valid()
      modifies this`stats
      ensures Valid() && View() == ReadEach(cfg, old(View()), kind, l, Loaded(old(View()), kind, l, ids), head, token)
      ensures results
           == if AllLoad(old(View()), kind, l, ids) then Some(Pages(cfg, old(View()), kind, l, ids)) else None
    {
      var pages: map<int, Page> := map[];
      ghost var s := View();
      for i := 0 to |ids|
        invariant Valid() && View() == ReadEach(cfg, s, kind, l, ids[..i], head, token)
        invariant AllLoad(s, kind, l, ids[..i]) && pages == Pages(cfg, s, kind, l, ids[..i])
      {
        assert ids[..i+1][..i] == ids[..i];
        PagesNext(cfg, s, kind, l, ids, i);
        SameFetch(s, View(), kind, (l, ids[i]));
        var page := ReadPage(kind, l, ids[i], head, token);
        if page == None {
          LoadedUpTo(s, kind, l, ids, i);
          return None;
        }
        AllLoadNext(s, kind, l, ids, i);
        pages := pages[ids[i] := page.value];
      }
      assert ids[..|ids|] == ids;
      results := Some(pages);
    }

    lemma SameFetch(s: Store, t: Store, kind: Kind, key: Key)
      requires StoreOk(cfg, s) && StoreOk(cfg, t) && s.file == t.file && s.table == t.table
      ensures Fetch(cfg, s, kind, key) == Fetch(cfg, t, kind, key) && Loads(s, kind, key) == Loads(t, kind, key)
    {
    }

    lemma AllLoadNext(s: Store, kind: Kind, l: int, ids: seq<int>, i: nat)
      requires i < |ids| && AllLoad(s, kind, l, ids[..i]) && Loads(s, kind, (l, ids[i]))
      ensures AllLoad(s, kind, l, ids[..i+1])
    {
      assert ids[..i+1] == ids[..i] + [ids[i]];
    }

    lemma LoadedUpTo(s: Store, kind: Kind, l: int, ids: seq<int>, i: nat)
      requires i < |ids| && AllLoad(s, kind, l, ids[..i]) && !Loads(s, kind, (l, ids[i]))
      ensures !AllLoad(s, kind, l, ids) && Loaded(s, kind, l, ids) == ids[..i]
    {
      var r := Loaded(s, kind, l, ids);
      assert forall j :: 0 <= j < i ==> ids[..i][j] == ids[j];
      assert forall j :: 0 <= j < |r| ==> r[j] == ids[j];
    }

    method ReadTogether(kind: Kind, l: int, ids: seq<int>) returns (results: Option<map<int, Page>>)
      requires Valid() && ids != []
      modifies this`stats
      ensures Valid() && View() == ReadBatch(cfg, old(View()), kind, l, ids)
      ensures results
           == if AllLoad(old(View()), kind, l, ids) then Some(Pages(cfg, old(View()), kind, l, ids)) else None
    {
      var pages: map<int, Page> := map[];
      var totalBytes := 0;
      ghost var s := View();
      for i := 0 to |ids|
        invariant Valid() && stats == BatchCharges(cfg, s, kind, l, ids[..i])
        invariant totalBytes == BatchBytes(cfg, s, kind, l, ids[..i])
        invariant AllLoad(s, kind, l, ids[..i]) && pages == Pages(cfg, s, kind, l, ids[..i])
      {
        PagesNext(cfg, s, kind, l, ids, i);
        ChargesAt(s, kind, l, ids, i);
        var page := LoadAndCharge(kind, (l, ids[i]), s);
        if page == None {
          LoadedUpTo(s, kind, l, ids, i);
          return None;
        }
        AllLoadNext(s, kind, l, ids, i);
        totalBytes := totalBytes + Size(page.value);
        pages := pages[ids[i] := page.value];
      }
      assert ids[..|ids|] == ids;
      stats := CountBatch(Tally(stats, kind, |ids|, totalBytes), |ids|);
      results := Some(pages);
    }

    /** One turn of that loop, in a store that so far has only been charged. */
    method LoadAndCharge(kind: Kind, key: Key, ghost s: Store) returns (page: Option<Page>)
      requires Valid() && StoreOk(cfg, s) && s.file == file && s.table == storage && s.fileOffset == fileOffset
      modifies this`stats
      ensures Valid() && page == if Loads(s, kind, key) then Some(Fetch(cfg, s, kind, key)) else None
      ensures Recorded(s, key) < cfg.channels
      ensures stats == if page == None then old(stats)
                       else Charge(old(stats), Recorded(s, key), Size(Fetch(cfg, s, kind, key)))
    {
      SameFetch(s, View(), kind, key);
      RecordedOk(cfg, s, key);
      page := LoadAdjacent(kind, key);
      if page == None { return; }
      stats := Charge(stats, if key in storage then storage[key].channel else 0, Size(page.value));
    }

    lemma ChargesAt(s: Store, kind: Kind, l: int, ids: seq<int>, i: nat)
      requires ConfigOk(cfg) && StoreOk(cfg, s) && i < |ids|
      ensures var key, u := (l, ids[i]), BatchCharges(cfg, s, kind, l, ids[..i]);
        && Recorded(s, key) < cfg.channels
        && BatchCharges(cfg, s, kind, l, ids[..i+1]) == Charge(u, Recorded(s, key), Size(Fetch(cfg, s, kind, key)))
        && BatchBytes(cfg, s, kind, l, ids[..i+1])
           == BatchBytes(cfg, s, kind, l, ids[..i]) + Size(Fetch(cfg, s, kind, key))
    {
      assert ids[..i+1][..i] == ids[..i] && ids[..i+1][i] == ids[i];
      RecordedOk(cfg, s, (l, ids[i]));
    }

    /** `evict_block` */
    method EvictBlock(l: int, b: int) returns (erased: bool)
      requires Valid()
      modifies this`storage
      ensures Valid() && View() == Evict(old(View()), (l, b))
      ensures erased <==> (l, b) in old(storage)
    {
      erased := (l, b) in storage;
      if erased { storage := storage - {(l, b)}; }
      assert View().table == old(storage) - {(l, b)};
    }

    /**
     `compute_topk_filter` in file mode: charges the stored candidates, loads and scores every page, selects
     and counts.  None stands for the exceptions of loading and scoring.
     */
    method ComputeTopkFilter(l: int, cands: Cands, ask: Ask, scorer: Scorer) returns (r: Option<seq<Hit>>)
      requires Valid()
      modifies this`stats
      ensures Valid() && View() == Scan(cfg, old(View()), l, cands, ask)
      ensures r.Some? <==> cands == [] || ScanReturns(cfg, old(View()), l, cands, ask)
      ensures r.Some? ==>
        r.value == if cands == [] then []
                   else Hits(cfg.native, PageScores(cfg, old(View()), l, cands, scorer), ask.topK, cands)
    {
      if cands == [] { return Some([]); }
      ghost var s := View();
      var totalBytes := ChargeCandidates(l, cands);
      SameScan(s, View(), l, cands, ask, scorer);
      r := SelectHits(l, cands, ask, scorer);
      if r == None { return; }
      stats := stats.(batches := stats.batches + 1, requests := stats.requests + 1, topkCalls := stats.topkCalls + 1,
                      topkBlocks := stats.topkBlocks + |cands|, topkBytes := stats.topkBytes + totalBytes,
                      bytesRead := stats.bytesRead + totalBytes);
    }

    /** Loads the pages, scores them and selects. */
    method SelectHits(l: int, cands: Cands, ask: Ask, scorer: Scorer) returns (r: Option<seq<Hit>>)
      requires Valid()
      ensures r.Some? <==> ScanReturns(cfg, View(), l, cands, ask)
      ensures r.Some? ==> r.value == Hits(cfg.native, PageScores(cfg, View(), l, cands, scorer), ask.topK, cands)
    {
      var pages := LoadCandidates(l, cands);
      if pages == None { return None; }
      var scorable := CanScore(l, cands, ask);
      if !scorable { return None; }
      var scores := Scores(l, cands, pages.value, scorer);
      r := Some(Hits(cfg.native, scores, ask.topK, cands));
    }

    lemma SameScan(s: Store, t: Store, l: int, cands: Cands, ask: Ask, scorer: Scorer)
      requires StoreOk(cfg, s) && StoreOk(cfg, t) && s.file == t.file && s.table == t.table
      ensures ScanReturns(cfg, s, l, cands, ask) == ScanReturns(cfg, t, l, cands, ask)
      ensures PageScores(cfg, s, l, cands, scorer) == PageScores(cfg, t, l, cands, scorer)
    {
      assert forall key :: ScannedPage(cfg, s, key) == ScannedPage(cfg, t, key);
      forall key: Key
        ensures PageLoads(cfg, s, key) == PageLoads(cfg, t, key) && PageShape(cfg, s, key) == PageShape(cfg, t, key)
      {
      }
    }

    /** The first loop: where the candidates are, with the stored ones charged to their channels. */
    method ChargeCandidates(l: int, cands: Cands) returns (totalBytes: nat)
      requires Valid()
      modifies this`stats
      ensures Valid() && stats == ScanCharges(cfg, old(View()), l, Ids(cands))
      ensures totalBytes == ScanBytes(old(View()), l, Ids(cands))
    {
      totalBytes := 0;
      ghost var s, ids := View(), Ids(cands);
      for i := 0 to |cands|
        invariant Valid() && stats == ScanCharges(cfg, s, l, ids[..i])
        invariant totalBytes == ScanBytes(s, l, ids[..i])
      {
        assert ids[..i+1][..i] == ids[..i];
        var key := (l, cands[i].0);
        if key in storage {
          RecordedOk(cfg, s, key);
          stats := Charge(stats, storage[key].channel, storage[key].kSize);
          totalBytes := totalBytes + storage[key].kSize;
        } else {
          totalBytes := totalBytes + MISSING_PAGE;
        }
      }
      assert ids[..|cands|] == ids;
    }

    /** The second loop: every page is read and given its shape. */
    method LoadCandidates(l: int, cands: Cands) returns (r: Option<seq<Bytes>>)
      requires Valid()
      ensures r.Some? <==> forall i :: 0 <= i < |cands| ==> PageLoads(cfg, View(), (l, cands[i].0))
      ensures r.Some? ==> Scanned(l, cands, r.value, |cands|)
    {
      var pages: seq<Bytes> := [];
      for i := 0 to |cands|
        invariant forall j :: 0 <= j < i ==> PageLoads(cfg, View(), (l, cands[j].0))
        invariant Scanned(l, cands, pages, i)
      {
        var page := LoadPage((l, cands[i].0));
        if page == None { return None; }
        pages := pages + [page.value];
      }
      r := Some(pages);
    }

    /** One of the pages. */
    method LoadPage(key: Key) returns (r: Option<Bytes>)
      requires Valid()
      ensures r == if PageLoads(cfg, View(), key) then Some(ScannedPage(cfg, View(), key)) else None
    {
      if key in storage {
        assert EntryOk(cfg, View(), storage[key]);
        return if storage[key].kLoads then Some(PRead(storage[key].kSize, storage[key].kOffset)) else None;
      }
      var raw := PRead(Min(|file|, MISSING_PAGE), 0);
      r := if |raw| == cfg.zeroPage then Some(raw) else None;
    }

    /** The pages of the first `n` candidates. */
    ghost predicate Scanned(l: int, cands: Cands, pages: seq<Bytes>, n: nat)
      requires Valid() && n <= |cands|
      reads this
    {
      |pages| == n && forall i :: 0 <= i < n ==> pages[i] == ScannedPage(cfg, View(), (l, cands[i].0))
    }

    /** Whether scoring goes through: the arguments of the native kernel, or page by page in NumPy. */
    method CanScore(l: int, cands: Cands, ask: Ask) returns (ok: bool)
      requires Valid()
      ensures ok <==> if cfg.native then NativeScores(ask, cands)
                      else forall i :: 0 <= i < |cands| ==>
                          NumpyScores(ask, PageShape(cfg, View(), (l, cands[i].0)), cands[i].1)
    {
      if cfg.native { return NativeScores(ask, cands); }
      for i := 0 to |cands|
        invariant forall j :: 0 <= j < i ==> NumpyScores(ask, PageShape(cfg, View(), (l, cands[j].0)), cands[j].1)
      {
        if !NumpyScores(ask, ShapeOfPage((l, cands[i].0)), cands[i].1) { return false; }
      }
      ok := true;
    }

    function ShapeOfPage(key: Key): (shape: Option<Shape>)
      reads this
      ensures shape == PageShape(cfg, View(), key)
    {
      if key in storage then storage[key].kShape else Some(cfg.shape)
    }

    /** The scores of the pages. */
    method Scores(l: int, cands: Cands, pages: seq<Bytes>, scorer: Scorer) returns (scores: seq<real>)
      requires Valid() && Scanned(l, cands, pages, |cands|)
      ensures scores == PageScores(cfg, View(), l, cands, scorer)
    {
      scores := [];
      for i := 0 to |cands|
        invariant |scores| == i
        invariant forall j :: 0 <= j < i ==> scores[j] == PageScore(cfg, View(), l, cands[j], scorer)
      {
        scores := scores + [scorer.of(pages[i], ShapeOfPage((l, cands[i].0)), cands[i].1)];
      }
    }

    /** `reset_stats` */
    method ResetStats()
      requires Valid()
      modifies this`stats
      ensures Valid() && View() == Reset(cfg, old(View()))
    {
      stats := NoStats(cfg.channels);
    }
  }
}

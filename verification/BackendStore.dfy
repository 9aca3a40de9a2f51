/**
 The append-only block store behind the inference backend, as values: extents in a backing file,
 a metadata table, and the telemetry counters.  Module InferenceBackend has the mutable object.
 */
module BackendStore {
  import opened Options
  import opened Wire

  type Key = (int, int)          // layer, block id

  datatype Page = Page(k: Bytes, v: Bytes)

  /** [tokens][heads][dim] */
  datatype Shape = Shape(tokens: nat, heads: nat, dim: nat)

  /** What a block is written from: an array, whose shape matters if it has three dimensions, or a byte buffer. */
  datatype Tensor = Array(bytes: Bytes, shape: Option<Shape>) | Raw(bytes: Bytes)

  /** Where a block is, whether its pages can be given their shapes, the shape of its keys, and its channel. */
  datatype Entry = Entry(kOffset: nat, kSize: nat, vOffset: nat, vSize: nat, kLoads: bool, vLoads: bool,
                         kShape: Option<Shape>, channel: nat)

  datatype Coord = Coord(layer: int, head: int, token: int, block: int)

  /**
   The channels, the declared shape of a page and its bytes, whether the native kernel is loaded, and
   the channel mapper (which sees its counters on writes only).
   */
  datatype Config = Config(channels: nat, shape: Shape, zeroPage: nat, native: bool,
                           place: (Coord, Option<seq<nat>>) -> nat)

  function PageBytes(s: Shape): nat { s.tokens * s.heads * s.dim * 4 }

  ghost predicate ConfigOk(cfg: Config) {
    && cfg.channels > 0 && (forall c, counters :: cfg.place(c, counters) < cfg.channels)
    && cfg.zeroPage == PageBytes(cfg.shape)
  }

  /** The sequences are by channel. */
  datatype Stats = Stats(
    counters: seq<nat>, readCounts: seq<nat>, writeCounts: seq<nat>, readBytes: seq<nat>, writeBytes: seq<nat>,
    bytesRead: nat, bytesWritten: nat, blocksRead: nat, blocksWritten: nat, requests: nat,
    keyReads: nat, valueReads: nat, blockReads: nat, batches: nat, batched: nat,
    topkCalls: nat, topkBlocks: nat, topkBytes: nat)

  datatype Store = Store(file: Bytes, fileOffset: nat, table: map<Key, Entry>, stats: Stats)

  function Zeros(n: nat): (xs: seq<Byte>)
    ensures |xs| == n
  {
    seq(n, _ => 0)
  }

  function NoStats(channels: nat): Stats {
    Stats(Zeros(channels), Zeros(channels), Zeros(channels), Zeros(channels), Zeros(channels),
          0, 0, 0, 0, 0, 0, 0, 0, 0, 0, 0, 0, 0)
  }

  function Empty(cfg: Config): Store {
    Store([], 0, map[], NoStats(cfg.channels))
  }

  predicate StatsOk(cfg: Config, t: Stats) {
    |t.counters| == |t.readCounts| == |t.writeCounts| == |t.readBytes| == |t.writeBytes| == cfg.channels
  }

  /** The file ends at the append offset, and every entry names two adjacent extents inside it. */
  predicate StoreOk(cfg: Config, s: Store) {
    && |s.file| == s.fileOffset
    && StatsOk(cfg, s.stats)
    && forall key :: key in s.table ==> EntryOk(cfg, s, s.table[key])
  }

  predicate EntryOk(cfg: Config, s: Store, e: Entry) {
    e.vOffset == e.kOffset + e.kSize && e.vOffset + e.vSize <= s.fileOffset && e.channel < cfg.channels
  }

  function Add(xs: seq<nat>, i: nat, n: nat): (r: seq<nat>)
    requires i < |xs|
    ensures |r| == |xs|
  {
    xs[i := xs[i] + n]
  }

  // ------------------------------------------------------------------ write

  /** One head of a block: placed by the mapper, and charged its share of the block's bytes. */
  function PlaceHead(t: Stats, ch: nat, share: nat): Stats
    requires ch < |t.counters| == |t.writeCounts| == |t.writeBytes|
  {
    t.(counters := Add(t.counters, ch, 1), writeCounts := Add(t.writeCounts, ch, 1),
       writeBytes := Add(t.writeBytes, ch, share))
  }

  ghost function PlaceHeads(cfg: Config, t: Stats, l: int, b: int, head: int, token: int, n: nat,
                            share: nat): (r: Stats)
    requires ConfigOk(cfg) && StatsOk(cfg, t)
    ensures StatsOk(cfg, r)
  {
    if n == 0 then t
    else
      var before := PlaceHeads(cfg, t, l, b, head, token, n - 1, share);
      PlaceHead(before, cfg.place(Coord(l, head + n - 1, token, b), Some(before.counters)), share)
  }

  /** The channel of the first head, channel 0 for a block without heads. */
  function PrimaryChannel(cfg: Config, t: Stats, l: int, b: int, head: int, token: int, heads: nat): nat {
    if heads == 0 then 0 else cfg.place(Coord(l, head, token, b), Some(t.counters))
  }

  function Share(total: nat, heads: nat): nat {
    if heads == 0 then 0 else total / heads
  }

  /** How many heads a block stands for. */
  function HeadsOf(k: Tensor): nat {
    if k.Array? && k.shape.Some? then k.shape.value.heads else 1
  }

  function ShapeOf(cfg: Config, k: Tensor): Option<Shape> {
    if k.Array? then k.shape else Some(cfg.shape)
  }

  /** A block whose pages lie one behind the other from that offset on. */
  function EntryFor(cfg: Config, offset: nat, k: Tensor, v: Tensor, channel: nat): Entry {
    Entry(offset, |k.bytes|, offset + |k.bytes|, |v.bytes|, Loadable(cfg, k), Loadable(cfg, v), ShapeOf(cfg, k),
          channel)
  }

  function CountWrite(t: Stats, total: nat): Stats {
    t.(blocksWritten := t.blocksWritten + 1, bytesWritten := t.bytesWritten + total, requests := t.requests + 1)
  }

  /** `write_block` */
  ghost function Write(cfg: Config, s: Store, l: int, b: int, k: Tensor, v: Tensor, head: int, token: int): (r: Store)
    requires ConfigOk(cfg) && StoreOk(cfg, s)
    ensures StoreOk(cfg, r)
  {
    var total, heads := |k.bytes| + |v.bytes|, HeadsOf(k);
    var t := PlaceHeads(cfg, s.stats, l, b, head, token, heads, Share(total, heads));
    var entry := EntryFor(cfg, s.fileOffset, k, v, PrimaryChannel(cfg, s.stats, l, b, head, token, heads));
    Store(s.file + k.bytes + v.bytes, s.fileOffset + total, s.table[(l, b) := entry], CountWrite(t, total))
  }

  // ------------------------------------------------------------------ read

  datatype Kind = KeyPage | ValuePage | WholeBlock

  /** What the entry's extents hold. */
  function Stored(cfg: Config, s: Store, key: Key): Page
    requires StoreOk(cfg, s) && key in s.table
  {
    var e := s.table[key];
    assert EntryOk(cfg, s, e);
    Page(s.file[e.kOffset..e.kOffset + e.kSize], s.file[e.vOffset..e.vOffset + e.vSize])
  }

  function Part(kind: Kind, page: Page): Page {
    match kind
    case KeyPage => Page(page.k, [])
    case ValuePage => Page([], page.v)
    case WholeBlock => page
  }

  /** What a read returns: the stored data, zeros for a block that is not stored. */
  function Fetch(cfg: Config, s: Store, kind: Kind, key: Key): Page
    requires StoreOk(cfg, s)
  {
    Part(kind, if key in s.table then Stored(cfg, s, key) else ZeroPage(cfg))
  }

  function ZeroPage(cfg: Config): Page {
    Page(Zeros(cfg.zeroPage), Zeros(cfg.zeroPage))
  }

  /** Can the page be given its shape?  A byte buffer must have the bytes of the declared shape. */
  predicate Loadable(cfg: Config, x: Tensor) {
    x.Array? || |x.bytes| == cfg.zeroPage
  }

  /** Does a read return?  It raises when a page cannot be given its shape. */
  predicate Loads(s: Store, kind: Kind, key: Key) {
    key in s.table ==> (kind.ValuePage? || s.table[key].kLoads) && (kind.KeyPage? || s.table[key].vLoads)
  }

  function Size(page: Page): nat { |page.k| + |page.v| }

  /** One read on channel `ch`. */
  function Charge(t: Stats, ch: nat, bytes: nat): Stats
    requires ch < |t.readCounts| == |t.readBytes|
  {
    t.(readCounts := Add(t.readCounts, ch, 1), readBytes := Add(t.readBytes, ch, bytes))
  }

  /** The totals after `n` reads of `bytes` bytes together. */
  function Tally(t: Stats, kind: Kind, n: nat, bytes: nat): Stats {
    t.(requests := t.requests + n, bytesRead := t.bytesRead + bytes,
       blocksRead := t.blocksRead + (if kind.KeyPage? then 0 else n),
       keyReads := t.keyReads + (if kind.KeyPage? then n else 0),
       valueReads := t.valueReads + (if kind.ValuePage? then n else 0),
       blockReads := t.blockReads + (if kind.WholeBlock? then n else 0))
  }

  /** `read_key_page`, `read_value_page`, `read_block`: if it returns, charged to the channel the mapper gives now. */
  ghost function Read(cfg: Config, s: Store, kind: Kind, l: int, b: int, head: int, token: int): (r: Store)
    requires ConfigOk(cfg) && StoreOk(cfg, s)
    ensures StoreOk(cfg, r) && r.table == s.table && r.file == s.file
  {
    var bytes := Size(Fetch(cfg, s, kind, (l, b)));
    if !Loads(s, kind, (l, b)) then s
    else s.(stats := Tally(Charge(s.stats, cfg.place(Coord(l, head, token, b), None), bytes), kind, 1, bytes))
  }

  /** The channel a batched read is charged to: the entry's, channel 0 for a block that is not stored. */
  function Recorded(s: Store, key: Key): nat {
    if key in s.table then s.table[key].channel else 0
  }

  function BatchBytes(cfg: Config, s: Store, kind: Kind, l: int, ids: seq<int>): nat
    requires StoreOk(cfg, s)
  {
    if ids == [] then 0
    else BatchBytes(cfg, s, kind, l, ids[..|ids|-1]) + Size(Fetch(cfg, s, kind, (l, ids[|ids|-1])))
  }

  ghost function BatchCharges(cfg: Config, s: Store, kind: Kind, l: int, ids: seq<int>): (t: Stats)
    requires ConfigOk(cfg) && StoreOk(cfg, s)
    ensures StatsOk(cfg, t)
  {
    if ids == [] then s.stats
    else
      var key := (l, ids[|ids|-1]);
      RecordedOk(cfg, s, key);
      Charge(BatchCharges(cfg, s, kind, l, ids[..|ids|-1]), Recorded(s, key), Size(Fetch(cfg, s, kind, key)))
  }

  lemma RecordedOk(cfg: Config, s: Store, key: Key)
    requires cfg.channels > 0 && StoreOk(cfg, s)
    ensures Recorded(s, key) < cfg.channels
  {
    if key in s.table { assert EntryOk(cfg, s, s.table[key]); }
  }

  /** The pages of a batch, by block id. */
  function Pages(cfg: Config, s: Store, kind: Kind, l: int, ids: seq<int>): map<int, Page>
    requires StoreOk(cfg, s)
  {
    map b | b in ids :: Fetch(cfg, s, kind, (l, b))
  }

  lemma PagesNext(cfg: Config, s: Store, kind: Kind, l: int, ids: seq<int>, i: nat)
    requires StoreOk(cfg, s) && i < |ids|
    ensures Pages(cfg, s, kind, l, ids[..i+1])
        == Pages(cfg, s, kind, l, ids[..i])[ids[i] := Fetch(cfg, s, kind, (l, ids[i]))]
  {
    assert ids[..i+1] == ids[..i] + [ids[i]];
  }

  predicate AllLoad(s: Store, kind: Kind, l: int, ids: seq<int>) {
    forall i :: 0 <= i < |ids| ==> Loads(s, kind, (l, ids[i]))
  }

  /** The blocks of a batch before the first one whose read raises. */
  function Loaded(s: Store, kind: Kind, l: int, ids: seq<int>): (r: seq<int>)
    ensures |r| <= |ids| && r == ids[..|r|] && AllLoad(s, kind, l, r)
    ensures |r| < |ids| ==> !Loads(s, kind, (l, ids[|r|]))
    ensures r == ids <==> AllLoad(s, kind, l, ids)
  {
    if ids == [] then []
    else
      var n := |ids| - 1;
      var before := Loaded(s, kind, l, ids[..n]);
      assert before == ids[..n][..|before|] == ids[..|before|];
      assert |before| < n ==> ids[..n][|before|] == ids[|before|];
      assert ids == ids[..n] + [ids[n]];
      if before == ids[..n] && Loads(s, kind, (l, ids[n])) then ids else before
  }

  function CountBatch(t: Stats, n: nat): Stats {
    t.(batches := t.batches + 1, batched := t.batched + n)
  }

  /**
   `read_key_page_batch`, `read_value_page_batch`, `read_block_batch`, with batching enabled.  A batch
   that raises has charged the channels for the blocks before, and nothing else.
   */
  ghost function ReadBatch(cfg: Config, s: Store, kind: Kind, l: int, ids: seq<int>): (r: Store)
    requires ConfigOk(cfg) && StoreOk(cfg, s)
    ensures StoreOk(cfg, r)
  {
    if ids == [] then s
    else if !AllLoad(s, kind, l, ids) then s.(stats := BatchCharges(cfg, s, kind, l, Loaded(s, kind, l, ids)))
    else
      s.(stats := CountBatch(Tally(BatchCharges(cfg, s, kind, l, ids), kind, |ids|, BatchBytes(cfg, s, kind, l, ids)),
                             |ids|))
  }

  /** Blocks read one by one. */
  ghost function ReadEach(cfg: Config, s: Store, kind: Kind, l: int, ids: seq<int>, head: int, token: int): (r: Store)
    requires ConfigOk(cfg) && StoreOk(cfg, s)
    ensures StoreOk(cfg, r) && r.table == s.table && r.file == s.file
  {
    if ids == [] then s
    else Read(cfg, ReadEach(cfg, s, kind, l, ids[..|ids|-1], head, token), kind, l, ids[|ids|-1], head, token)
  }

  // ------------------------------------------------------------------ evict, top-k, reset

  function Evict(s: Store, key: Key): Store {
    s.(table := s.table - {key})
  }

  const MISSING_PAGE := 4096     // what a candidate that is not stored counts for

  /** What a filter asks for: the size of the result, the heads, the head size, and the shape of the query. */
  datatype Ask = Ask(topK: int, qHeads: int, kvHeads: int, headDim: int, queryHeads: nat, queryDim: nat)

  /** Candidates of a filter: block ids and token counts. */
  type Cands = seq<(int, int)>

  function Ids(cands: Cands): (ids: seq<int>)
    ensures |ids| == |cands|
    ensures forall i :: 0 <= i < |ids| ==> ids[i] == cands[i].0
  {
    seq(|cands|, i requires 0 <= i < |cands| => cands[i].0)
  }

  /**
   Can a candidate's page be given its shape?  For one that is not stored the first 4096 bytes of the
   file are read, and must be as many as the declared shape has.
   */
  predicate PageLoads(cfg: Config, s: Store, key: Key) {
    if key in s.table then s.table[key].kLoads
    else (if |s.file| < MISSING_PAGE then |s.file| else MISSING_PAGE) == cfg.zeroPage
  }

  function PageShape(cfg: Config, s: Store, key: Key): Option<Shape> {
    if key in s.table then s.table[key].kShape else Some(cfg.shape)
  }

  /** The length of a Python slice `[:n]` of `len` rows. */
  function SliceLength(len: nat, n: int): nat {
    if n >= 0 then (if n < len then n else len) else if len + n > 0 then len + n else 0
  }

  /** May two dimensions be multiplied?  A dimension of one is repeated. */
  predicate Broadcasts(a: nat, b: nat) { a == b || a == 1 || b == 1 }

  /** Python's floor division by a positive number. */
  function GqaRatio(ask: Ask): int { if ask.kvHeads > 0 then ask.qHeads / ask.kvHeads else 1 }

  /** Does NumPy score a page of that shape, with at least one row left to take the maximum of? */
  predicate NumpyScores(ask: Ask, shape: Option<Shape>, tokens: int) {
    && shape.Some? && ask.qHeads > 0 && GqaRatio(ask) > 0
    && (ask.qHeads - 1) / GqaRatio(ask) < shape.value.heads
    && Broadcasts(ask.queryHeads, ask.qHeads) && ask.queryHeads > 0
    && Broadcasts(ask.queryDim, shape.value.dim)
    && SliceLength(shape.value.tokens, tokens) > 0
  }

  /** Does the native kernel accept its arguments, and get past its head ratio? */
  predicate NativeScores(ask: Ask, cands: Cands) {
    && ask.topK > 0 && ask.qHeads > 0 && ask.kvHeads > 0 && ask.headDim > 0
    && (ask.kvHeads <= ask.qHeads || forall i :: 0 <= i < |cands| ==> cands[i].1 <= 0)
  }

  /** Does `compute_topk_filter` return?  Every page must load and the selection must go through. */
  predicate ScanReturns(cfg: Config, s: Store, l: int, cands: Cands, ask: Ask) {
    && (forall i :: 0 <= i < |cands| ==> PageLoads(cfg, s, (l, cands[i].0)))
    && if cfg.native then NativeScores(ask, cands)
       else forall i :: 0 <= i < |cands| ==> NumpyScores(ask, PageShape(cfg, s, (l, cands[i].0)), cands[i].1)
  }

  function ScanBytes(s: Store, l: int, ids: seq<int>): nat {
    if ids == [] then 0
    else
      var key := (l, ids[|ids|-1]);
      ScanBytes(s, l, ids[..|ids|-1]) + if key in s.table then s.table[key].kSize else MISSING_PAGE
  }

  ghost function ScanCharges(cfg: Config, s: Store, l: int, ids: seq<int>): (t: Stats)
    requires ConfigOk(cfg) && StoreOk(cfg, s)
    ensures StatsOk(cfg, t)
  {
    if ids == [] then s.stats
    else
      var key := (l, ids[|ids|-1]);
      RecordedOk(cfg, s, key);
      var before := ScanCharges(cfg, s, l, ids[..|ids|-1]);
      if key in s.table then Charge(before, Recorded(s, key), s.table[key].kSize) else before
  }

  /**
   The bookkeeping of `compute_topk_filter`: it charges the channels of the stored candidates first,
   and everything else only if it returns.
   */
  ghost function Scan(cfg: Config, s: Store, l: int, cands: Cands, ask: Ask): (r: Store)
    requires ConfigOk(cfg) && StoreOk(cfg, s)
    ensures StoreOk(cfg, r)
  {
    var ids := Ids(cands);
    if cands == [] then s
    else if !ScanReturns(cfg, s, l, cands, ask) then s.(stats := ScanCharges(cfg, s, l, ids))
    else
      var t, bytes := ScanCharges(cfg, s, l, ids), ScanBytes(s, l, ids);
      s.(stats := t.(batches := t.batches + 1, requests := t.requests + 1, topkCalls := t.topkCalls + 1,
                     topkBlocks := t.topkBlocks + |ids|, topkBytes := t.topkBytes + bytes,
                     bytesRead := t.bytesRead + bytes))
  }

  /** `reset_stats`: all counters, not the stored blocks. */
  function Reset(cfg: Config, s: Store): Store {
    s.(stats := NoStats(cfg.channels))
  }
}

/**
 Runs of the block store: it refines a map of pages, writes never overlap, batches agree with single
 reads, and the channel counters add up to the totals exactly when nothing was rounded or missing.
 */
module BackendRuns {
  import opened Options
  import opened Arithmetic
  import opened Sequences
  import opened Sums
  import opened Wire
  import opened BackendStore

  datatype Op =
    | WriteOp(l: int, b: int, k: Tensor, v: Tensor, head: int, token: int)
    | ReadOp(kind: Kind, l: int, b: int, head: int, token: int)
    | BatchOp(kind: Kind, l: int, ids: seq<int>)
    | EvictOp(l: int, b: int)
    | ScanOp(l: int, cands: Cands, ask: Ask)
    | ResetOp

  ghost function Step(cfg: Config, s: Store, op: Op): (r: Store)
    requires ConfigOk(cfg) && StoreOk(cfg, s)
    ensures StoreOk(cfg, r)
  {
    match op
    case WriteOp(l, b, k, v, head, token) => Write(cfg, s, l, b, k, v, head, token)
    case ReadOp(kind, l, b, head, token) => Read(cfg, s, kind, l, b, head, token)
    case BatchOp(kind, l, ids) => ReadBatch(cfg, s, kind, l, ids)
    case EvictOp(l, b) => Evict(s, (l, b))
    case ScanOp(l, cands, ask) => Scan(cfg, s, l, cands, ask)
    case ResetOp => Reset(cfg, s)
  }

  ghost function Run(cfg: Config, ops: seq<Op>): (r: Store)
    requires ConfigOk(cfg)
    ensures StoreOk(cfg, r)
  {
    if ops == [] then Empty(cfg) else Step(cfg, Run(cfg, ops[..|ops|-1]), ops[|ops|-1])
  }

  // ------------------------------------------------------------------ refinement of a map

  /** What was written to a block. */
  datatype Block = Block(k: Tensor, v: Tensor)

  function PageOf(x: Block): Page { Page(x.k.bytes, x.v.bytes) }

  /** The blocks a map would hold after the same operations. */
  function Contents(ops: seq<Op>): map<Key, Block> {
    if ops == [] then map[]
    else
      var before := Contents(ops[..|ops|-1]);
      match ops[|ops|-1]
      case WriteOp(l, b, k, v, _, _) => before[(l, b) := Block(k, v)]
      case EvictOp(l, b) => before - {(l, b)}
      case _ => before
  }

  ghost predicate Refines(cfg: Config, s: Store, blocks: map<Key, Block>) {
    && StoreOk(cfg, s)
    && s.table.Keys == blocks.Keys
    && forall key :: key in blocks ==>
         Stored(cfg, s, key) == PageOf(blocks[key]) && EntryFits(cfg, s.table[key], blocks[key])
  }

  predicate EntryFits(cfg: Config, e: Entry, x: Block) {
    && e.kSize == |x.k.bytes| && e.vSize == |x.v.bytes|
    && e.kLoads == Loadable(cfg, x.k) && e.vLoads == Loadable(cfg, x.v) && e.kShape == ShapeOf(cfg, x.k)
  }

  /** What a read answers: the latest write, zeros if there is none, nothing if it raises. */
  function Answer(cfg: Config, s: Store, kind: Kind, key: Key): Option<Page>
    requires StoreOk(cfg, s)
  {
    if Loads(s, kind, key) then Some(Fetch(cfg, s, kind, key)) else None
  }

  function Expected(cfg: Config, blocks: map<Key, Block>, kind: Kind, key: Key): Option<Page> {
    var zeros := Zeros(cfg.shape.tokens * cfg.shape.heads * cfg.shape.dim * 4);
    var k := if key in blocks then blocks[key].k else Raw(zeros);
    var v := if key in blocks then blocks[key].v else Raw(zeros);
    match kind
    case KeyPage => if IsPage(cfg, k) then Some(Page(k.bytes, [])) else None
    case ValuePage => if IsPage(cfg, v) then Some(Page([], v.bytes)) else None
    case WholeBlock => if IsPage(cfg, k) && IsPage(cfg, v) then Some(Page(k.bytes, v.bytes)) else None
  }

  /** An array, or a byte buffer with four bytes for each of the declared shape's numbers. */
  predicate IsPage(cfg: Config, x: Tensor) {
    x.Array? || |x.bytes| == cfg.shape.tokens * cfg.shape.heads * cfg.shape.dim * 4
  }

  /** A longer file holds the same bytes at the old extents. */
  lemma StoredStays(cfg: Config, s: Store, t: Store, key: Key, more: Bytes)
    requires StoreOk(cfg, s) && StoreOk(cfg, t) && t.file == s.file + more
    requires key in s.table && key in t.table && t.table[key] == s.table[key]
    ensures Stored(cfg, t, key) == Stored(cfg, s, key)
  {
    assert EntryOk(cfg, s, s.table[key]);
  }

  lemma WriteRefines(cfg: Config, s: Store, blocks: map<Key, Block>, op: Op)
    requires ConfigOk(cfg) && Refines(cfg, s, blocks) && op.WriteOp?
    ensures Refines(cfg, Step(cfg, s, op), blocks[(op.l, op.b) := Block(op.k, op.v)])
  {
    WriteAppends(cfg, s, op);
    WrittenPage(cfg, s, op);
    AppendRefines(cfg, s, Step(cfg, s, op), blocks, (op.l, op.b), Block(op.k, op.v), Data(op));
  }

  lemma AppendRefines(cfg: Config, s: Store, t: Store, blocks: map<Key, Block>, at: Key, x: Block, more: Bytes)
    requires Refines(cfg, s, blocks) && StoreOk(cfg, t) && t.file == s.file + more
    requires forall key :: key in t.table <==> key in s.table || key == at
    requires forall key :: key in s.table && key != at ==> t.table[key] == s.table[key]
    requires Stored(cfg, t, at) == PageOf(x) && EntryFits(cfg, t.table[at], x)
    ensures Refines(cfg, t, blocks[at := x])
  {
    var now := blocks[at := x];
    forall key | key in now ensures Stored(cfg, t, key) == PageOf(now[key]) && EntryFits(cfg, t.table[key], now[key]) {
      if key != at { StoredStays(cfg, s, t, key, more); }
    }
  }

  /** The bytes of a write, keys first. */
  function Data(op: Op): Bytes
    requires op.WriteOp?
  {
    op.k.bytes + op.v.bytes
  }

  lemma WriteAppends(cfg: Config, s: Store, op: Op)
    requires ConfigOk(cfg) && StoreOk(cfg, s) && op.WriteOp?
    ensures var t := Step(cfg, s, op); StoreOk(cfg, t) && t.file == s.file + Data(op)
    ensures forall key :: key in Step(cfg, s, op).table <==> key in s.table || key == (op.l, op.b)
    ensures forall key :: key in s.table && key != (op.l, op.b) ==> Step(cfg, s, op).table[key] == s.table[key]
  {
    Regroup(s.file, op.k.bytes, op.v.bytes);
  }

  lemma WrittenPage(cfg: Config, s: Store, op: Op)
    requires ConfigOk(cfg) && StoreOk(cfg, s) && op.WriteOp?
    ensures var t, key := Step(cfg, s, op), (op.l, op.b);
      Stored(cfg, t, key) == Page(op.k.bytes, op.v.bytes) && EntryFits(cfg, t.table[key], Block(op.k, op.v))
  {
    ThreeParts(s.file, op.k.bytes, op.v.bytes);
  }

  lemma ThreeParts(a: Bytes, b: Bytes, c: Bytes)
    ensures (a + b + c)[|a|..|a| + |b|] == b && (a + b + c)[|a| + |b|..|a| + |b| + |c|] == c
  {
  }

  lemma OnlyWritesAppend(cfg: Config, s: Store, op: Op)
    requires ConfigOk(cfg) && StoreOk(cfg, s) && !op.WriteOp?
    ensures var t := Step(cfg, s, op);
      t.file == s.file && t.table == if op.EvictOp? then s.table - {(op.l, op.b)} else s.table
  {
  }

  lemma SameFile(cfg: Config, s: Store, blocks: map<Key, Block>, op: Op)
    requires ConfigOk(cfg) && Refines(cfg, s, blocks) && !op.WriteOp?
    ensures Step(cfg, s, op).file == s.file
    ensures Refines(cfg, Step(cfg, s, op), if op.EvictOp? then blocks - {(op.l, op.b)} else blocks)
  {
    OnlyWritesAppend(cfg, s, op);
    FewerRefine(cfg, s, Step(cfg, s, op), blocks, if op.EvictOp? then blocks - {(op.l, op.b)} else blocks);
  }

  lemma FewerRefine(cfg: Config, s: Store, t: Store, blocks: map<Key, Block>, now: map<Key, Block>)
    requires Refines(cfg, s, blocks) && StoreOk(cfg, t) && t.file == s.file
    requires t.table.Keys == now.Keys
    requires forall key :: key in now ==> key in blocks && now[key] == blocks[key] && t.table[key] == s.table[key]
    ensures Refines(cfg, t, now)
  {
    assert s.file + [] == s.file;
    forall key | key in now ensures Stored(cfg, t, key) == PageOf(now[key]) && EntryFits(cfg, t.table[key], now[key]) {
      StoredStays(cfg, s, t, key, []);
    }
  }

  /** A store that refines a map answers reads from it. */
  lemma RefiningAnswers(cfg: Config, s: Store, blocks: map<Key, Block>, kind: Kind, key: Key)
    requires ConfigOk(cfg) && Refines(cfg, s, blocks)
    ensures Answer(cfg, s, kind, key) == Expected(cfg, blocks, kind, key)
  {
    if key in blocks {
      StoredAnswers(cfg, s, blocks, kind, key);
    } else {
      MissingAnswers(cfg, s, blocks, kind, key);
    }
  }

  lemma StoredAnswers(cfg: Config, s: Store, blocks: map<Key, Block>, kind: Kind, key: Key)
    requires ConfigOk(cfg) && Refines(cfg, s, blocks) && key in blocks
    ensures Answer(cfg, s, kind, key) == Expected(cfg, blocks, kind, key)
  {
    LoadableIffPage(cfg, blocks[key].k);
    LoadableIffPage(cfg, blocks[key].v);
    assert Stored(cfg, s, key) == PageOf(blocks[key]) && EntryFits(cfg, s.table[key], blocks[key]);
  }

  lemma MissingAnswers(cfg: Config, s: Store, blocks: map<Key, Block>, kind: Kind, key: Key)
    requires ConfigOk(cfg) && Refines(cfg, s, blocks) && key !in blocks
    ensures Answer(cfg, s, kind, key) == Expected(cfg, blocks, kind, key)
  {
    LoadableIffPage(cfg, Raw(Zeros(cfg.zeroPage)));
    assert cfg.zeroPage == cfg.shape.tokens * cfg.shape.heads * cfg.shape.dim * 4;
  }

  lemma LoadableIffPage(cfg: Config, x: Tensor)
    requires ConfigOk(cfg)
    ensures Loadable(cfg, x) <==> IsPage(cfg, x)
  {
  }

  /**
   In every run the store refines the map: a read returns the latest write, zeros if there is none,
   and raises exactly when the latest write was a byte buffer that has not the bytes of a page.
   */
  lemma RunRefines(cfg: Config, ops: seq<Op>)
    requires ConfigOk(cfg)
    ensures Refines(cfg, Run(cfg, ops), Contents(ops))
    ensures forall kind, key :: Answer(cfg, Run(cfg, ops), kind, key) == Expected(cfg, Contents(ops), kind, key)
  {
    RunMaps(cfg, ops);
    forall kind, key ensures Answer(cfg, Run(cfg, ops), kind, key) == Expected(cfg, Contents(ops), kind, key) {
      RefiningAnswers(cfg, Run(cfg, ops), Contents(ops), kind, key);
    }
  }

  /** A block that is not stored reads as zeros, as many as the declared shape has of four bytes each. */
  lemma MissingIsZeros(cfg: Config, ops: seq<Op>, kind: Kind, key: Key)
    requires ConfigOk(cfg) && key !in Contents(ops)
    ensures var page := Answer(cfg, Run(cfg, ops), kind, key);
      var bytes := cfg.shape.tokens * cfg.shape.heads * cfg.shape.dim * 4;
      && page.Some?
      && |page.value.k| == (if kind == ValuePage then 0 else bytes)
      && |page.value.v| == (if kind == KeyPage then 0 else bytes)
      && (forall i :: 0 <= i < |page.value.k| ==> page.value.k[i] == 0)
      && (forall i :: 0 <= i < |page.value.v| ==> page.value.v[i] == 0)
  {
    RunRefines(cfg, ops);
  }

  lemma {:induction false} RunMaps(cfg: Config, ops: seq<Op>)
    requires ConfigOk(cfg)
    ensures Refines(cfg, Run(cfg, ops), Contents(ops))
  {
    if ops != [] {
      var before, op := ops[..|ops|-1], ops[|ops|-1];
      RunMaps(cfg, before);
      if op.WriteOp? {
        WriteRefines(cfg, Run(cfg, before), Contents(before), op);
      } else {
        SameFile(cfg, Run(cfg, before), Contents(before), op);
      }
    }
  }

  // ------------------------------------------------------------------ extents

  /** Where a write put its K and V, and what it wrote. */
  datatype Extent = Extent(start: nat, data: Bytes)

  function Extents(ops: seq<Op>): seq<Extent> {
    if ops == [] then []
    else
      var before, op := Extents(ops[..|ops|-1]), ops[|ops|-1];
      if op.WriteOp? then before + [Extent(End(before), Data(op))] else before
  }

  function End(xs: seq<Extent>): nat {
    if xs == [] then 0 else xs[|xs|-1].start + |xs[|xs|-1].data|
  }

  predicate Holds(file: Bytes, x: Extent) {
    x.start + |x.data| <= |file| && file[x.start..x.start + |x.data|] == x.data
  }

  /** The extents lie one behind the other up to the end of the file, which holds their data. */
  predicate Tiled(file: Bytes, xs: seq<Extent>) {
    && End(xs) == |file|
    && (forall i, j :: 0 <= i < j < |xs| ==> xs[i].start + |xs[i].data| <= xs[j].start)
    && (forall i :: 0 <= i < |xs| ==> Holds(file, xs[i]))
  }

  lemma TiledAppend(file: Bytes, data: Bytes, xs: seq<Extent>)
    requires Tiled(file, xs)
    ensures Tiled(file + data, xs + [Extent(End(xs), data)])
  {
    var ys := xs + [Extent(End(xs), data)];
    forall i | 0 <= i < |ys| ensures Holds(file + data, ys[i]) {
      if i < |xs| { assert Holds(file, xs[i]); }
    }
    forall i, j | 0 <= i < j < |ys| ensures ys[i].start + |ys[i].data| <= ys[j].start {
      if j == |xs| { assert Holds(file, xs[i]); }
    }
  }

  /**
   All extents ever written lie one behind the other and end at the append offset, and the file
   still holds the data of every one of them, rewritten and evicted blocks included.
   */
  lemma {:induction false} ExtentsTile(cfg: Config, ops: seq<Op>)
    requires ConfigOk(cfg)
    ensures Tiled(Run(cfg, ops).file, Extents(ops)) && End(Extents(ops)) == Run(cfg, ops).fileOffset
  {
    if ops != [] {
      var before, op := ops[..|ops|-1], ops[|ops|-1];
      ExtentsTile(cfg, before);
      var s := Run(cfg, before);
      if op.WriteOp? {
        WriteAppends(cfg, s, op);
        TiledAppend(s.file, Data(op), Extents(before));
      } else {
        RunRefines(cfg, before);
        SameFile(cfg, s, Contents(before), op);
      }
    }
  }

  /** The block's keys are directly followed by its values, and together they are one of the extents. */
  predicate IsExtent(cfg: Config, s: Store, key: Key, xs: seq<Extent>)
    requires StoreOk(cfg, s) && key in s.table
  {
    var e, page := s.table[key], Stored(cfg, s, key);
    e.vOffset == e.kOffset + e.kSize && Extent(e.kOffset, page.k + page.v) in xs
  }

  lemma WrittenIsExtent(cfg: Config, s: Store, op: Op, blocks: map<Key, Block>, xs: seq<Extent>)
    requires ConfigOk(cfg) && op.WriteOp? && Refines(cfg, s, blocks) && End(xs) == s.fileOffset
    ensures IsExtent(cfg, Step(cfg, s, op), (op.l, op.b), xs + [Extent(End(xs), Data(op))])
  {
    var ys := xs + [Extent(End(xs), Data(op))];
    WrittenPage(cfg, s, op);
    assert ys[|xs|] == Extent(s.fileOffset, Data(op));
  }

  lemma OtherStaysExtent(cfg: Config, s: Store, t: Store, key: Key, xs: seq<Extent>, more: Bytes, ys: seq<Extent>)
    requires StoreOk(cfg, s) && StoreOk(cfg, t) && t.file == s.file + more
    requires key in s.table && key in t.table && t.table[key] == s.table[key]
    requires IsExtent(cfg, s, key, xs)
    ensures IsExtent(cfg, t, key, xs + ys)
  {
    StoredStays(cfg, s, t, key, more);
  }

  /** So it is for every block in the table, after every run. */
  lemma {:induction false} EntriesAreExtents(cfg: Config, ops: seq<Op>, key: Key)
    requires ConfigOk(cfg) && key in Run(cfg, ops).table
    ensures IsExtent(cfg, Run(cfg, ops), key, Extents(ops))
  {
    var before, op := ops[..|ops|-1], ops[|ops|-1];
    var s, xs := Run(cfg, before), Extents(before);
    if op.WriteOp? && key == (op.l, op.b) {
      RunMaps(cfg, before);
      ExtentsTile(cfg, before);
      WrittenIsExtent(cfg, s, op, Contents(before), xs);
    } else if op.WriteOp? {
      WriteAppends(cfg, s, op);
      EntriesAreExtents(cfg, before, key);
      OtherStaysExtent(cfg, s, Step(cfg, s, op), key, xs, Data(op), [Extent(End(xs), Data(op))]);
    } else {
      OnlyWritesAppend(cfg, s, op);
      EntriesAreExtents(cfg, before, key);
      assert s.file + [] == s.file && xs + [] == xs;
      OtherStaysExtent(cfg, s, Step(cfg, s, op), key, xs, [], []);
    }
  }

  // ------------------------------------------------------------------ batches

  /** The counters that do not tell channels or batches apart. */
  function Totals(t: Stats): Stats {
    t.(readCounts := [], readBytes := [], batches := 0, batched := 0)
  }

  lemma {:induction false} EachTotals(cfg: Config, s: Store, kind: Kind, l: int, ids: seq<int>, head: int, token: int)
    requires ConfigOk(cfg) && StoreOk(cfg, s) && AllLoad(s, kind, l, ids)
    ensures var r := ReadEach(cfg, s, kind, l, ids, head, token);
      && Totals(r.stats) == Totals(Tally(s.stats, kind, |ids|, BatchBytes(cfg, s, kind, l, ids)))
  {
    if ids != [] {
      var n := |ids| - 1;
      FewerLoad(s, kind, l, ids);
      EachTotals(cfg, s, kind, l, ids[..n], head, token);
      EachNext(cfg, s, kind, l, ids, head, token);
      TallyNext(ReadEach(cfg, s, kind, l, ids[..n], head, token).stats, s.stats, kind, n,
                BatchBytes(cfg, s, kind, l, ids[..n]), Size(Fetch(cfg, s, kind, (l, ids[n]))));
    }
  }

  lemma TallyNext(t: Stats, u: Stats, kind: Kind, n: nat, bytes: nat, more: nat)
    requires Totals(t) == Totals(Tally(u, kind, n, bytes))
    ensures Totals(Tally(t, kind, 1, more)) == Totals(Tally(u, kind, n + 1, bytes + more))
  {
  }

  lemma ReadTotals(cfg: Config, s: Store, before: Store, kind: Kind, l: int, b: int, head: int, token: int)
    requires ConfigOk(cfg) && StoreOk(cfg, s) && StoreOk(cfg, before) && before.file == s.file
        && before.table == s.table
    requires Loads(s, kind, (l, b))
    ensures Totals(Read(cfg, before, kind, l, b, head, token).stats)
         == Totals(Tally(before.stats, kind, 1, Size(Fetch(cfg, s, kind, (l, b)))))
  {
    assert Fetch(cfg, before, kind, (l, b)) == Fetch(cfg, s, kind, (l, b));
  }

  lemma {:induction false} ChargesTotals(cfg: Config, s: Store, kind: Kind, l: int, ids: seq<int>)
    requires ConfigOk(cfg) && StoreOk(cfg, s)
    ensures Totals(BatchCharges(cfg, s, kind, l, ids)) == Totals(s.stats)
  {
    if ids != [] { ChargesTotals(cfg, s, kind, l, ids[..|ids|-1]); }
  }

  /**
   A batch makes the same request, block and byte totals as reading its blocks one by one, exactly when
   it returns or its first block raises: reading one by one counts the blocks before the one that raises.
   */
  lemma BatchIsEachIff(cfg: Config, s: Store, kind: Kind, l: int, ids: seq<int>, head: int, token: int)
    requires ConfigOk(cfg) && StoreOk(cfg, s)
    ensures Totals(ReadBatch(cfg, s, kind, l, ids).stats)
            == Totals(ReadEach(cfg, s, kind, l, Loaded(s, kind, l, ids), head, token).stats)
       <==> AllLoad(s, kind, l, ids) || !Loads(s, kind, (l, ids[0]))
  {
    var before := Loaded(s, kind, l, ids);
    EachTotals(cfg, s, kind, l, before, head, token);
    BatchTotals(cfg, s, kind, l, ids);
    if before != ids {
      LoadedNone(s, kind, l, ids);
      TallyIsNone(s.stats, kind, |before|, BatchBytes(cfg, s, kind, l, before));
    }
  }

  lemma BatchTotals(cfg: Config, s: Store, kind: Kind, l: int, ids: seq<int>)
    requires ConfigOk(cfg) && StoreOk(cfg, s)
    ensures Totals(ReadBatch(cfg, s, kind, l, ids).stats)
         == if AllLoad(s, kind, l, ids) then Totals(Tally(s.stats, kind, |ids|, BatchBytes(cfg, s, kind, l, ids)))
            else Totals(s.stats)
  {
    ChargesTotals(cfg, s, kind, l, ids);
    ChargesTotals(cfg, s, kind, l, Loaded(s, kind, l, ids));
  }

  lemma LoadedNone(s: Store, kind: Kind, l: int, ids: seq<int>)
    requires !AllLoad(s, kind, l, ids)
    ensures ids != [] && (Loaded(s, kind, l, ids) == [] <==> !Loads(s, kind, (l, ids[0])))
  {
    var before := Loaded(s, kind, l, ids);
    assert before != [] ==> before[0] == ids[0];
  }

  lemma TallyIsNone(t: Stats, kind: Kind, n: nat, bytes: nat)
    requires n == 0 ==> bytes == 0
    ensures Totals(Tally(t, kind, n, bytes)) == Totals(t) <==> n == 0
  {
    assert Totals(Tally(t, kind, n, bytes)).requests == Totals(t).requests + n;
  }

  /** `n` added at every channel of the list. */
  function Spread(xs: seq<nat>, chs: seq<nat>, n: nat): (r: seq<nat>)
    requires forall i :: 0 <= i < |chs| ==> chs[i] < |xs|
    ensures |r| == |xs|
  {
    if chs == [] then xs else Add(Spread(xs, chs[..|chs|-1], n), chs[|chs|-1], n)
  }

  lemma {:induction false} SpreadAt(xs: seq<nat>, chs: seq<nat>, n: nat, c: nat)
    requires (forall i :: 0 <= i < |chs| ==> chs[i] < |xs|) && c < |xs|
    ensures Spread(xs, chs, n)[c] == xs[c] + Times(multiset(chs)[c], n)
  {
    if chs != [] {
      var m := |chs| - 1;
      SpreadAt(xs, chs[..m], n, c);
      assert chs == chs[..m] + [chs[m]];
      OneMoreTime(multiset(chs[..m])[c], n);
    }
  }

  lemma OneMoreTime(count: nat, n: nat)
    ensures Times(count + 1, n) == Times(count, n) + n && Times(0, n) == 0
  {
  }

  lemma SameCount(a: nat, b: nat, n: nat)
    requires n > 0 && Times(a, n) == Times(b, n)
    ensures a == b
  {
  }

  /** Two lists of channels spread alike exactly if they hold the same channels as often. */
  lemma SpreadIff(xs: seq<nat>, a: seq<nat>, b: seq<nat>, n: nat)
    requires n > 0
    requires (forall i :: 0 <= i < |a| ==> a[i] < |xs|) && (forall i :: 0 <= i < |b| ==> b[i] < |xs|)
    ensures Spread(xs, a, n) == Spread(xs, b, n) <==> multiset(a) == multiset(b)
  {
    if multiset(a) == multiset(b) {
      forall c: nat | c < |xs| ensures Spread(xs, a, n)[c] == Spread(xs, b, n)[c] {
        SpreadAtIff(xs, a, b, n, c);
      }
    } else if Spread(xs, a, n) == Spread(xs, b, n) {
      forall c: nat ensures multiset(a)[c] == multiset(b)[c] {
        if c < |xs| { SpreadAtIff(xs, a, b, n, c); } else { assert c !in a && c !in b; }
      }
    }
  }

  lemma SpreadAtIff(xs: seq<nat>, a: seq<nat>, b: seq<nat>, n: nat, c: nat)
    requires n > 0 && c < |xs|
    requires (forall i :: 0 <= i < |a| ==> a[i] < |xs|) && (forall i :: 0 <= i < |b| ==> b[i] < |xs|)
    ensures Spread(xs, a, n)[c] == Spread(xs, b, n)[c] <==> multiset(a)[c] == multiset(b)[c]
  {
    SpreadAt(xs, a, n, c);
    SpreadAt(xs, b, n, c);
    if Times(multiset(a)[c], n) == Times(multiset(b)[c], n) { SameCount(multiset(a)[c], multiset(b)[c], n); }
  }

  /** The channels on which a batch is charged: those recorded when its blocks were written. */
  function RecordedChannels(s: Store, l: int, ids: seq<int>): (chs: seq<nat>)
    ensures |chs| == |ids|
  {
    seq(|ids|, i requires 0 <= i < |ids| => Recorded(s, (l, ids[i])))
  }

  /** Those on which single reads are charged: where the mapper places the coordinates of the read. */
  function MappedChannels(cfg: Config, l: int, ids: seq<int>, head: int, token: int): (chs: seq<nat>)
    ensures |chs| == |ids|
  {
    seq(|ids|, i requires 0 <= i < |ids| => Mapped(cfg, l, ids[i], head, token))
  }

  function Mapped(cfg: Config, l: int, b: int, head: int, token: int): nat {
    cfg.place(Coord(l, head, token, b), None)
  }

  lemma ReadCharges(cfg: Config, s: Store, before: Store, kind: Kind, l: int, b: int, head: int, token: int)
    requires ConfigOk(cfg) && StoreOk(cfg, s) && StoreOk(cfg, before) && before.file == s.file
        && before.table == s.table
    requires Loads(s, kind, (l, b))
    ensures var ch, t := Mapped(cfg, l, b, head, token), Read(cfg, before, kind, l, b, head, token).stats;
      && ch < cfg.channels && t.readCounts == Add(before.stats.readCounts, ch, 1)
      && t.readBytes == Add(before.stats.readBytes, ch, Size(Fetch(cfg, s, kind, (l, b))))
  {
    assert Fetch(cfg, before, kind, (l, b)) == Fetch(cfg, s, kind, (l, b));
  }

  lemma {:induction false} BatchSpreads(cfg: Config, s: Store, kind: Kind, l: int, ids: seq<int>, n: nat)
    requires ConfigOk(cfg) && StoreOk(cfg, s)
    ensures forall c :: c in RecordedChannels(s, l, ids) ==> c < cfg.channels
    ensures BatchCharges(cfg, s, kind, l, ids).readCounts == Spread(s.stats.readCounts, RecordedChannels(s, l, ids), 1)
    ensures Uniform(cfg, s, kind, l, ids, n) ==>
      BatchCharges(cfg, s, kind, l, ids).readBytes == Spread(s.stats.readBytes, RecordedChannels(s, l, ids), n)
  {
    forall i | 0 <= i < |ids| ensures RecordedChannels(s, l, ids)[i] < cfg.channels { RecordedOk(cfg, s, (l, ids[i])); }
    if ids != [] {
      var m, chs := |ids| - 1, RecordedChannels(s, l, ids);
      BatchSpreads(cfg, s, kind, l, ids[..m], n);
      assert chs[..m] == RecordedChannels(s, l, ids[..m]);
      ChargesNext(cfg, s, kind, l, ids);
      SpreadNext(s.stats.readCounts, chs, 1, Spread(s.stats.readCounts, chs[..m], 1));
      if Uniform(cfg, s, kind, l, ids, n) {
        FewerUniform(cfg, s, kind, l, ids, n);
        SpreadNext(s.stats.readBytes, chs, n, Spread(s.stats.readBytes, chs[..m], n));
      }
    }
  }

  /** What the last block of a batch adds. */
  lemma ChargesNext(cfg: Config, s: Store, kind: Kind, l: int, ids: seq<int>)
    requires ConfigOk(cfg) && StoreOk(cfg, s) && ids != []
    ensures var m, t := |ids| - 1, BatchCharges(cfg, s, kind, l, ids);
      var u, ch := BatchCharges(cfg, s, kind, l, ids[..m]), Recorded(s, (l, ids[m]));
      && ch < cfg.channels && t.readCounts == Add(u.readCounts, ch, 1)
      && t.readBytes == Add(u.readBytes, ch, Size(Fetch(cfg, s, kind, (l, ids[m]))))
  {
    RecordedOk(cfg, s, (l, ids[|ids|-1]));
  }

  lemma MappedOk(cfg: Config, l: int, ids: seq<int>, head: int, token: int)
    requires ConfigOk(cfg)
    ensures forall i :: 0 <= i < |ids| ==> MappedChannels(cfg, l, ids, head, token)[i] < cfg.channels
  {
  }

  /** All blocks of the list have pages of `n` bytes together. */
  predicate Uniform(cfg: Config, s: Store, kind: Kind, l: int, ids: seq<int>, n: nat)
    requires StoreOk(cfg, s)
  {
    forall i :: 0 <= i < |ids| ==> Size(Fetch(cfg, s, kind, (l, ids[i]))) == n
  }

  lemma FewerUniform(cfg: Config, s: Store, kind: Kind, l: int, ids: seq<int>, n: nat)
    requires StoreOk(cfg, s) && Uniform(cfg, s, kind, l, ids, n) && ids != []
    ensures Uniform(cfg, s, kind, l, ids[..|ids|-1], n) && Size(Fetch(cfg, s, kind, (l, ids[|ids|-1]))) == n
  {
  }

  lemma FewerLoad(s: Store, kind: Kind, l: int, ids: seq<int>)
    requires AllLoad(s, kind, l, ids) && ids != []
    ensures AllLoad(s, kind, l, ids[..|ids|-1]) && Loads(s, kind, (l, ids[|ids|-1]))
  {
    var m := |ids| - 1;
    assert forall i :: 0 <= i < m ==> ids[..m][i] == ids[i];
  }

  /** What the last of several single reads adds. */
  lemma EachNext(cfg: Config, s: Store, kind: Kind, l: int, ids: seq<int>, head: int, token: int)
    requires ConfigOk(cfg) && StoreOk(cfg, s) && ids != [] && Loads(s, kind, (l, ids[|ids|-1]))
    ensures var m, t := |ids| - 1, ReadEach(cfg, s, kind, l, ids, head, token).stats;
      var u, ch := ReadEach(cfg, s, kind, l, ids[..m], head, token).stats, Mapped(cfg, l, ids[m], head, token);
      && ch < cfg.channels && t.readCounts == Add(u.readCounts, ch, 1)
      && t.readBytes == Add(u.readBytes, ch, Size(Fetch(cfg, s, kind, (l, ids[m]))))
      && Totals(t) == Totals(Tally(u, kind, 1, Size(Fetch(cfg, s, kind, (l, ids[m])))))
  {
    var m := |ids| - 1;
    ReadCharges(cfg, s, ReadEach(cfg, s, kind, l, ids[..m], head, token), kind, l, ids[m], head, token);
    ReadTotals(cfg, s, ReadEach(cfg, s, kind, l, ids[..m], head, token), kind, l, ids[m], head, token);
  }

  lemma SpreadNext(xs: seq<nat>, chs: seq<nat>, n: nat, before: seq<nat>)
    requires chs != [] && forall i :: 0 <= i < |chs| ==> chs[i] < |xs|
    requires before == Spread(xs, chs[..|chs|-1], n)
    ensures Spread(xs, chs, n) == Add(before, chs[|chs|-1], n)
  {
  }

  lemma MappedNext(cfg: Config, l: int, ids: seq<int>, head: int, token: int)
    requires ConfigOk(cfg) && ids != []
    ensures var m, chs := |ids| - 1, MappedChannels(cfg, l, ids, head, token);
      && (forall i :: 0 <= i < |chs| ==> chs[i] < cfg.channels)
      && chs[..m] == MappedChannels(cfg, l, ids[..m], head, token) && chs[m] == Mapped(cfg, l, ids[m], head, token)
  {
    MappedOk(cfg, l, ids, head, token);
  }

  lemma {:induction false} EachSpreads(cfg: Config, s: Store, kind: Kind, l: int, ids: seq<int>, head: int, token: int,
                                       n: nat)
    requires ConfigOk(cfg) && StoreOk(cfg, s) && AllLoad(s, kind, l, ids)
    ensures forall i :: 0 <= i < |ids| ==> MappedChannels(cfg, l, ids, head, token)[i] < cfg.channels
    ensures var t, chs := ReadEach(cfg, s, kind, l, ids, head, token).stats, MappedChannels(cfg, l, ids, head, token);
      && t.readCounts == Spread(s.stats.readCounts, chs, 1)
      && (Uniform(cfg, s, kind, l, ids, n) ==> t.readBytes == Spread(s.stats.readBytes, chs, n))
  {
    if ids != [] {
      var m, chs := |ids| - 1, MappedChannels(cfg, l, ids, head, token);
      FewerLoad(s, kind, l, ids);
      EachSpreads(cfg, s, kind, l, ids[..m], head, token, n);
      EachNext(cfg, s, kind, l, ids, head, token);
      MappedNext(cfg, l, ids, head, token);
      SpreadNext(s.stats.readCounts, chs, 1, Spread(s.stats.readCounts, chs[..m], 1));
      if Uniform(cfg, s, kind, l, ids, n) {
        FewerUniform(cfg, s, kind, l, ids, n);
        SpreadNext(s.stats.readBytes, chs, n, Spread(s.stats.readBytes, chs[..m], n));
      }
    }
  }

  /**
   The channel counters of a batch and of single reads agree exactly if the recorded channels are, in
   some order, those that the mapper gives: the read counts always, the read bytes for pages of one size.
   */
  lemma ChannelsAgreeIff(cfg: Config, s: Store, kind: Kind, l: int, ids: seq<int>, head: int, token: int, n: nat)
    requires ConfigOk(cfg) && StoreOk(cfg, s) && AllLoad(s, kind, l, ids)
    ensures var t, u := ReadBatch(cfg, s, kind, l, ids).stats, ReadEach(cfg, s, kind, l, ids, head, token).stats;
      var same := multiset(RecordedChannels(s, l, ids)) == multiset(MappedChannels(cfg, l, ids, head, token));
      && (t.readCounts == u.readCounts <==> same)
      && (n > 0 && Uniform(cfg, s, kind, l, ids, n) ==> (t.readBytes == u.readBytes <==> same))
  {
    var recorded, mapped := RecordedChannels(s, l, ids), MappedChannels(cfg, l, ids, head, token);
    ReadBatchSpreads(cfg, s, kind, l, ids, n);
    EachSpreads(cfg, s, kind, l, ids, head, token, n);
    SpreadIff(s.stats.readCounts, recorded, mapped, 1);
    if n > 0 { SpreadIff(s.stats.readBytes, recorded, mapped, n); }
  }

  lemma ReadBatchSpreads(cfg: Config, s: Store, kind: Kind, l: int, ids: seq<int>, n: nat)
    requires ConfigOk(cfg) && StoreOk(cfg, s) && AllLoad(s, kind, l, ids)
    ensures forall i :: 0 <= i < |ids| ==> RecordedChannels(s, l, ids)[i] < cfg.channels
    ensures var t, chs := ReadBatch(cfg, s, kind, l, ids).stats, RecordedChannels(s, l, ids);
      && t.readCounts == Spread(s.stats.readCounts, chs, 1)
      && (Uniform(cfg, s, kind, l, ids, n) ==> t.readBytes == Spread(s.stats.readBytes, chs, n))
  {
    BatchSpreads(cfg, s, kind, l, ids, n);
    forall i | 0 <= i < |ids| ensures RecordedChannels(s, l, ids)[i] < cfg.channels { RecordedOk(cfg, s, (l, ids[i])); }
  }

  // ------------------------------------------------------------------ conservation

  lemma {:induction false} SumAdd(xs: seq<nat>, i: nat, n: nat)
    requires i < |xs|
    ensures NatSum(Add(xs, i, n)) == NatSum(xs) + n
  {
    var m := |xs| - 1;
    if i < m {
      SumAdd(xs[..m], i, n);
      assert Add(xs, i, n)[..m] == Add(xs[..m], i, n);
    } else {
      assert Add(xs, i, n)[..m] == xs[..m];
    }
  }

  lemma {:induction false} SumZeros(n: nat)
    ensures NatSum(Zeros(n)) == 0
  {
    if n > 0 {
      SumZeros(n - 1);
      assert Zeros(n)[..n-1] == Zeros(n - 1);
    }
  }

  /** How far the channels fall short of the total. */
  function WriteGap(t: Stats): int { t.bytesWritten - NatSum(t.writeBytes) }

  function ReadGap(t: Stats): int { t.bytesRead - NatSum(t.readBytes) }

  lemma {:induction false} PlaceHeadsSums(cfg: Config, t: Stats, l: int, b: int, head: int, token: int, n: nat,
                                          share: nat)
    requires ConfigOk(cfg) && StatsOk(cfg, t)
    ensures var r := PlaceHeads(cfg, t, l, b, head, token, n, share);
      && NatSum(r.writeBytes) == NatSum(t.writeBytes) + Times(n, share)
      && NatSum(r.writeCounts) == NatSum(t.writeCounts) + n
      && r.(counters := [], writeCounts := [], writeBytes := [])
          == t.(counters := [], writeCounts := [], writeBytes := [])
  {
    if n > 0 {
      PlaceHeadsSums(cfg, t, l, b, head, token, n - 1, share);
      var before := PlaceHeads(cfg, t, l, b, head, token, n - 1, share);
      var ch := cfg.place(Coord(l, head + n - 1, token, b), Some(before.counters));
      SumAdd(before.writeBytes, ch, share);
      SumAdd(before.writeCounts, ch, 1);
      assert Times(n, share) == Times(n - 1, share) + share by { OneMoreTime(n - 1, share); }
    }
  }

  /** The bytes of a write that no head is charged for. */
  function Lost(total: nat, heads: nat): int { total - Times(heads, Share(total, heads)) }

  predicate Divides(heads: nat, total: nat) {
    if heads == 0 then total == 0 else total % heads == 0
  }

  lemma LostIff(total: nat, heads: nat)
    ensures 0 <= Lost(total, heads)
    ensures Lost(total, heads) == 0 <==> Divides(heads, total)
  {
    if heads > 0 { assert total == heads * (total / heads) + total % heads; }
  }

  /** What a write holds. */
  function Total(op: Op): nat
    requires op.WriteOp?
  {
    |op.k.bytes| + |op.v.bytes|
  }

  lemma WriteGaps(cfg: Config, s: Store, op: Op)
    requires ConfigOk(cfg) && StoreOk(cfg, s) && op.WriteOp?
    ensures var t := Step(cfg, s, op).stats;
      && WriteGap(t) == WriteGap(s.stats) + Lost(Total(op), HeadsOf(op.k))
      && ReadGap(t) == ReadGap(s.stats)
  {
    PlaceHeadsSums(cfg, s.stats, op.l, op.b, op.head, op.token, HeadsOf(op.k), Share(Total(op), HeadsOf(op.k)));
  }

  lemma ReadGaps(cfg: Config, s: Store, op: Op)
    requires ConfigOk(cfg) && StoreOk(cfg, s) && op.ReadOp?
    ensures var t := Step(cfg, s, op).stats; WriteGap(t) == WriteGap(s.stats) && ReadGap(t) == ReadGap(s.stats)
  {
    var ch := cfg.place(Coord(op.l, op.head, op.token, op.b), None);
    SumAdd(s.stats.readBytes, ch, Size(Fetch(cfg, s, op.kind, (op.l, op.b))));
  }

  lemma {:induction false} BatchSums(cfg: Config, s: Store, kind: Kind, l: int, ids: seq<int>)
    requires ConfigOk(cfg) && StoreOk(cfg, s)
    ensures var t := BatchCharges(cfg, s, kind, l, ids);
      && NatSum(t.readBytes) == NatSum(s.stats.readBytes) + BatchBytes(cfg, s, kind, l, ids)
      && t.writeBytes == s.stats.writeBytes && Totals(t) == Totals(s.stats)
  {
    if ids != [] {
      var earlier, key := ids[..|ids|-1], (l, ids[|ids|-1]);
      BatchSums(cfg, s, kind, l, earlier);
      RecordedOk(cfg, s, key);
      SumAdd(BatchCharges(cfg, s, kind, l, earlier).readBytes, Recorded(s, key), Size(Fetch(cfg, s, kind, key)));
    }
  }

  /** The candidates that are not stored. */
  function Missing(s: Store, l: int, ids: seq<int>): nat {
    if ids == [] then 0
    else Missing(s, l, ids[..|ids|-1]) + if (l, ids[|ids|-1]) in s.table then 0 else 1
  }

  /** The key bytes of the candidates that are stored. */
  function StoredBytes(s: Store, l: int, ids: seq<int>): nat {
    if ids == [] then 0
    else StoredBytes(s, l, ids[..|ids|-1]) + KeyBytes(s, (l, ids[|ids|-1]))
  }

  function KeyBytes(s: Store, key: Key): nat { if key in s.table then s.table[key].kSize else 0 }

  lemma {:induction false} ScanSums(cfg: Config, s: Store, l: int, ids: seq<int>)
    requires ConfigOk(cfg) && StoreOk(cfg, s)
    ensures ScanBytes(s, l, ids) == StoredBytes(s, l, ids) + MISSING_PAGE * Missing(s, l, ids)
    ensures var t := ScanCharges(cfg, s, l, ids);
      && NatSum(t.readBytes) == NatSum(s.stats.readBytes) + StoredBytes(s, l, ids)
      && t.writeBytes == s.stats.writeBytes && Totals(t) == Totals(s.stats)
  {
    if ids != [] {
      var earlier, key := ids[..|ids|-1], (l, ids[|ids|-1]);
      ScanSums(cfg, s, l, earlier);
      if key in s.table {
        RecordedOk(cfg, s, key);
        SumAdd(ScanCharges(cfg, s, l, earlier).readBytes, Recorded(s, key), s.table[key].kSize);
      }
    }
  }

  /**
   What one operation adds to the read gap: a filter that returns counts 4096 bytes for every missing
   candidate and charges them to no channel, a filter or batch that raises has charged channels for
   bytes that it never counts.
   */
  function ReadDelta(cfg: Config, s: Store, op: Op): int
    requires StoreOk(cfg, s)
  {
    match op
    case ScanOp(l, cands, ask) =>
      var missing: int, charged: int := MISSING_PAGE * Missing(s, l, Ids(cands)), StoredBytes(s, l, Ids(cands));
      if ScanReturns(cfg, s, l, cands, ask) then missing else -charged
    case BatchOp(kind, l, ids) =>
      var charged: int := BatchBytes(cfg, s, kind, l, Loaded(s, kind, l, ids));
      if AllLoad(s, kind, l, ids) then 0 else -charged
    case _ => 0
  }

  lemma StepGaps(cfg: Config, s: Store, op: Op)
    requires ConfigOk(cfg) && StoreOk(cfg, s) && !op.ResetOp?
    ensures var t := Step(cfg, s, op).stats;
      && WriteGap(t) == WriteGap(s.stats) + (if op.WriteOp? then Lost(Total(op), HeadsOf(op.k)) else 0)
      && ReadGap(t) == ReadGap(s.stats) + ReadDelta(cfg, s, op)
  {
    match op
    case WriteOp(_, _, _, _, _, _) => WriteGaps(cfg, s, op);
    case ReadOp(_, _, _, _, _) => ReadGaps(cfg, s, op);
    case BatchOp(kind, l, ids) => BatchSums(cfg, s, kind, l, Loaded(s, kind, l, ids));
    case ScanOp(l, cands, _) =>
      ScanSums(cfg, s, l, Ids(cands));
      if cands == [] { assert Ids(cands) == []; }
    case EvictOp(_, _) =>
  }

  /**
   Does the operation keep channels and total in step?  A filter that returns must find every
   candidate stored; a filter or batch that raises must not have charged a byte before.
   */
  predicate InStep(cfg: Config, s: Store, op: Op)
    requires StoreOk(cfg, s)
  {
    match op
    case ScanOp(l, cands, ask) =>
      if ScanReturns(cfg, s, l, cands, ask) then forall b :: b in Ids(cands) ==> (l, b) in s.table
      else forall b :: b in Ids(cands) ==> KeyBytes(s, (l, b)) == 0
    case BatchOp(kind, l, ids) =>
      AllLoad(s, kind, l, ids) || forall b :: b in Loaded(s, kind, l, ids) ==> NoBytes(cfg, s, kind, (l, b))
    case _ => true
  }

  lemma Members(ids: seq<int>, b: int)
    requires ids != []
    ensures b in ids <==> b in ids[..|ids|-1] || b == ids[|ids|-1]
  {
    assert ids == ids[..|ids|-1] + [ids[|ids|-1]];
  }

  lemma {:induction false} NoneMissing(s: Store, l: int, ids: seq<int>)
    ensures Missing(s, l, ids) == 0 <==> forall b :: b in ids ==> (l, b) in s.table
  {
    if ids != [] {
      var n := |ids| - 1;
      NoneMissing(s, l, ids[..n]);
      forall b ensures b in ids <==> b in ids[..n] || b == ids[n] { Members(ids, b); }
    }
  }

  lemma {:induction false} NoneStored(s: Store, l: int, ids: seq<int>)
    ensures StoredBytes(s, l, ids) == 0 <==> forall b :: b in ids ==> KeyBytes(s, (l, b)) == 0
  {
    if ids != [] {
      var n := |ids| - 1;
      NoneStored(s, l, ids[..n]);
      forall b ensures b in ids <==> b in ids[..n] || b == ids[n] { Members(ids, b); }
    }
  }

  predicate NoBytes(cfg: Config, s: Store, kind: Kind, key: Key)
    requires StoreOk(cfg, s)
  {
    Size(Fetch(cfg, s, kind, key)) == 0
  }

  lemma {:induction false} NothingRead(cfg: Config, s: Store, kind: Kind, l: int, ids: seq<int>)
    requires StoreOk(cfg, s)
    ensures BatchBytes(cfg, s, kind, l, ids) == 0 <==> forall b :: b in ids ==> NoBytes(cfg, s, kind, (l, b))
  {
    if ids != [] {
      var n := |ids| - 1;
      NothingRead(cfg, s, kind, l, ids[..n]);
      forall b ensures b in ids <==> b in ids[..n] || b == ids[n] { Members(ids, b); }
    }
  }

  /** One operation leaves the read gap alone exactly if it is in step. */
  lemma InStepIff(cfg: Config, s: Store, op: Op)
    requires ConfigOk(cfg) && StoreOk(cfg, s) && !op.ResetOp?
    ensures ReadGap(Step(cfg, s, op).stats) == ReadGap(s.stats) <==> InStep(cfg, s, op)
  {
    StepGaps(cfg, s, op);
    match op
    case ScanOp(l, cands, _) =>
      NoneMissing(s, l, Ids(cands));
      NoneStored(s, l, Ids(cands));
    case BatchOp(kind, l, ids) => NothingRead(cfg, s, kind, l, Loaded(s, kind, l, ids));
    case _ =>
  }

  /** Since the last reset, the heads of every block divided its bytes. */
  predicate WritesEven(ops: seq<Op>) {
    ops == [] ||
    var op := ops[|ops|-1];
    op.ResetOp? || (WritesEven(ops[..|ops|-1]) && (op.WriteOp? ==> Divides(HeadsOf(op.k), Total(op))))
  }

  /** What the operations since the last reset add to the read gap. */
  ghost function Owed(cfg: Config, ops: seq<Op>): int
    requires ConfigOk(cfg)
  {
    if ops == [] || ops[|ops|-1].ResetOp? then 0
    else Owed(cfg, ops[..|ops|-1]) + ReadDelta(cfg, Run(cfg, ops[..|ops|-1]), ops[|ops|-1])
  }

  /** Since the last reset, every filter and every batch returned. */
  ghost predicate AllReturn(cfg: Config, ops: seq<Op>)
    requires ConfigOk(cfg)
  {
    ops == [] ||
    var before, op := ops[..|ops|-1], ops[|ops|-1];
    op.ResetOp? || (
      && AllReturn(cfg, before)
      && (op.ScanOp? ==> ScanReturns(cfg, Run(cfg, before), op.l, op.cands, op.ask))
      && (op.BatchOp? ==> AllLoad(Run(cfg, before), op.kind, op.l, op.ids)))
  }

  /** Since the last reset, every candidate of every filter was stored when it was scanned. */
  ghost predicate ScansComplete(ops: seq<Op>) {
    ops == [] ||
    var op := ops[|ops|-1];
    op.ResetOp? || (
      && ScansComplete(ops[..|ops|-1])
      && (op.ScanOp? ==> forall b :: b in Ids(op.cands) ==> (op.l, b) in Contents(ops[..|ops|-1])))
  }

  /**
   Over every run: the channels' write bytes sum to the bytes written exactly when, since the last
   reset, the heads of every block divided its size.  Their read bytes fall short of the bytes read by
   exactly what the filters and batches since the last reset owe; while these all return, the sums
   agree exactly when every scanned candidate was stored.
   */
  lemma {:induction false} ConservedIff(cfg: Config, ops: seq<Op>)
    requires ConfigOk(cfg)
    ensures var t := Run(cfg, ops).stats;
      && WriteGap(t) >= 0 && (NatSum(t.writeBytes) == t.bytesWritten <==> WritesEven(ops))
      && ReadGap(t) == Owed(cfg, ops) && (NatSum(t.readBytes) == t.bytesRead <==> Owed(cfg, ops) == 0)
      && (AllReturn(cfg, ops) ==> ReadGap(t) >= 0 && (NatSum(t.readBytes) == t.bytesRead <==> ScansComplete(ops)))
  {
    if ops == [] {
      SumZeros(cfg.channels);
    } else {
      var before, op := ops[..|ops|-1], ops[|ops|-1];
      var s := Run(cfg, before);
      if op.ResetOp? {
        SumZeros(cfg.channels);
      } else {
        ConservedIff(cfg, before);
        StepGaps(cfg, s, op);
        if op.WriteOp? { LostIff(Total(op), HeadsOf(op.k)); }
        if op.ScanOp? {
          NoneMissing(s, op.l, Ids(op.cands));
          RunRefines(cfg, before);
        }
      }
    }
  }

  /** If a page is larger than 4096 bytes, a filter returns only if every candidate is stored. */
  lemma LargePagesComplete(cfg: Config, s: Store, l: int, cands: Cands, ask: Ask)
    requires StoreOk(cfg, s) && cfg.zeroPage > MISSING_PAGE && ScanReturns(cfg, s, l, cands, ask)
    ensures forall b :: b in Ids(cands) ==> (l, b) in s.table
  {
    forall b | b in Ids(cands) ensures (l, b) in s.table {
      var i :| 0 <= i < |Ids(cands)| && Ids(cands)[i] == b;
      assert PageLoads(cfg, s, (l, cands[i].0));
    }
  }

  /** So with such pages the read bytes are conserved over every run whose filters and batches return. */
  lemma {:induction false} LargePagesConserve(cfg: Config, ops: seq<Op>)
    requires ConfigOk(cfg) && cfg.zeroPage > MISSING_PAGE && AllReturn(cfg, ops)
    ensures var t := Run(cfg, ops).stats; NatSum(t.readBytes) == t.bytesRead
  {
    AllComplete(cfg, ops);
    ConservedIff(cfg, ops);
  }

  lemma {:induction false} AllComplete(cfg: Config, ops: seq<Op>)
    requires ConfigOk(cfg) && cfg.zeroPage > MISSING_PAGE && AllReturn(cfg, ops)
    ensures ScansComplete(ops)
  {
    if ops != [] && !ops[|ops|-1].ResetOp? {
      var before, op := ops[..|ops|-1], ops[|ops|-1];
      AllComplete(cfg, before);
      RunRefines(cfg, before);
      if op.ScanOp? { LargePagesComplete(cfg, Run(cfg, before), op.l, op.cands, op.ask); }
    }
  }

  // ------------------------------------------------------------------ where the sums part

  const NOTHING := Ask(0, 1, 1, 1, 1, 1)
  const ONE := Ask(1, 1, 1, 1, 1, 1)

  /** One block written, then a filter that asks for no result, then one for a block that was never written. */
  function PartingRun(k: Bytes): seq<Op> {
    [WriteOp(0, 0, Array(k, None), Array([], None), 0, 0), ScanOp(0, [(0, 1)], NOTHING), ScanOp(0, [(1, 1)], ONE)]
  }

  /**
   With pages of 4096 bytes and the native kernel: after the first filter, which raises, the channels
   count more than the total; the second one, which returns, closes the gap again.
   */
  lemma GapsCancel(cfg: Config, k: Bytes)
    requires ConfigOk(cfg) && cfg.native && cfg.zeroPage == MISSING_PAGE == |k|
    ensures ReadGap(Run(cfg, PartingRun(k)[..2]).stats) == -MISSING_PAGE
    ensures ReadGap(Run(cfg, PartingRun(k)).stats) == 0
    ensures !InStep(cfg, Run(cfg, PartingRun(k)[..1]), PartingRun(k)[1])
    ensures !InStep(cfg, Run(cfg, PartingRun(k)[..2]), PartingRun(k)[2])
  {
    var ops := PartingRun(k);
    RunNext(cfg, ops, 1);
    RunNext(cfg, ops, 2);
    RunNext(cfg, ops, 3);
    assert ops[..3] == ops && ops[..0] == [];
    var s1, s2 := Run(cfg, ops[..1]), Run(cfg, ops[..2]);
    PartingWrite(cfg, k);
    RaisingScan(cfg, s1, k);
    MissingScan(cfg, s2);
    InStepIff(cfg, s1, ops[1]);
    InStepIff(cfg, s2, ops[2]);
  }

  lemma PartingWrite(cfg: Config, k: Bytes)
    requires ConfigOk(cfg) && cfg.zeroPage == |k|
    ensures var s := Step(cfg, Empty(cfg), PartingRun(k)[0]);
      && ReadGap(s.stats) == 0 && s.file == k && s.table.Keys == {(0, 0)} && s.table[(0, 0)].kSize == |k|
  {
    SumZeros(cfg.channels);
    StepGaps(cfg, Empty(cfg), PartingRun(k)[0]);
    assert [] + k + [] == k;
  }

  /** The first filter is charged for the stored block and raises. */
  lemma RaisingScan(cfg: Config, s: Store, k: Bytes)
    requires ConfigOk(cfg) && StoreOk(cfg, s) && cfg.native && (0, 0) in s.table && s.table[(0, 0)].kSize == |k|
    ensures var t := Step(cfg, s, PartingRun(k)[1]);
      && ReadGap(t.stats) == ReadGap(s.stats) - |k| && t.file == s.file && t.table == s.table
  {
    StepGaps(cfg, s, PartingRun(k)[1]);
    OneStored(s, PartingRun(k)[1]);
  }

  /** The second one counts a page for a block that is not there. */
  lemma MissingScan(cfg: Config, s: Store)
    requires ConfigOk(cfg) && StoreOk(cfg, s) && cfg.native && cfg.zeroPage == MISSING_PAGE == |s.file|
    requires (0, 1) !in s.table
    ensures ReadGap(Step(cfg, s, PartingRun(s.file)[2]).stats) == ReadGap(s.stats) + MISSING_PAGE
  {
    StepGaps(cfg, s, PartingRun(s.file)[2]);
    OneMissing(s, PartingRun(s.file)[2]);
    NoneIn(s, PartingRun(s.file)[2]);
  }

  lemma NoneIn(s: Store, op: Op)
    requires op.ScanOp? && |op.cands| == 1 && (op.l, op.cands[0].0) !in s.table
    ensures StoredBytes(s, op.l, Ids(op.cands)) == 0
  {
    assert Ids(op.cands)[..0] == [];
  }

  lemma RunNext(cfg: Config, ops: seq<Op>, n: nat)
    requires ConfigOk(cfg) && 0 < n <= |ops|
    ensures Run(cfg, ops[..n]) == Step(cfg, Run(cfg, ops[..n-1]), ops[n-1])
  {
    assert ops[..n][..n-1] == ops[..n-1];
  }

  lemma OneStored(s: Store, op: Op)
    requires op.ScanOp? && |op.cands| == 1 && (op.l, op.cands[0].0) in s.table
    ensures StoredBytes(s, op.l, Ids(op.cands)) == s.table[(op.l, op.cands[0].0)].kSize
  {
    assert Ids(op.cands)[..0] == [];
  }

  lemma OneMissing(s: Store, op: Op)
    requires op.ScanOp? && |op.cands| == 1 && (op.l, op.cands[0].0) !in s.table
    ensures Missing(s, op.l, Ids(op.cands)) == 1
  {
    assert Ids(op.cands)[..0] == [];
  }
}

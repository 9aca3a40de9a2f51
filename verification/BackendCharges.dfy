/**
 Which channels the block store charges, and how much: one channel a head on a write, the mapper's channel
 on a read, the recorded channels on a batch and on a filter.
 */
module BackendCharges {
  import opened Options
  import opened Sums
  import opened Wire
  import opened BackendStore

  // ------------------------------------------------------------------ counters after a list of channels

  /** The counters, each counted up as often as its channel is listed. */
  function Counted(counters: seq<nat>, channels: seq<nat>): (r: seq<nat>)
    ensures |r| == |counters|
  {
    seq(|counters|, c requires 0 <= c < |counters| => counters[c] + multiset(channels)[c])
  }

  /** The sum of what is listed beside the channel. */
  function BytesOn(channels: seq<nat>, bytes: seq<nat>, c: nat): nat
    requires |channels| == |bytes|
  {
    if channels == [] then 0
    else
      var n := |channels| - 1;
      BytesOn(channels[..n], bytes[..n], c) + if channels[n] == c then bytes[n] else 0
  }

  function Charged(counters: seq<nat>, channels: seq<nat>, bytes: seq<nat>): (r: seq<nat>)
    requires |channels| == |bytes|
    ensures |r| == |counters|
  {
    seq(|counters|, c requires 0 <= c < |counters| => counters[c] + BytesOn(channels, bytes, c))
  }

  lemma CountedNext(counters: seq<nat>, channels: seq<nat>, ch: nat)
    requires ch < |counters|
    ensures Counted(counters, channels + [ch]) == Add(Counted(counters, channels), ch, 1)
  {
  }

  lemma ChargedNext(counters: seq<nat>, channels: seq<nat>, bytes: seq<nat>, ch: nat, n: nat)
    requires ch < |counters| && |channels| == |bytes|
    ensures Charged(counters, channels + [ch], bytes + [n]) == Add(Charged(counters, channels, bytes), ch, n)
  {
    assert (channels + [ch])[..|channels|] == channels && (bytes + [n])[..|bytes|] == bytes;
  }

  lemma NothingCharged(counters: seq<nat>)
    ensures Counted(counters, []) == counters && Charged(counters, [], []) == counters
  {
  }

  // ------------------------------------------------------------------ writes

  /** Head after head, the mapper's answer for that head, under the counters that include the heads before. */
  ghost predicate ArePlaced(cfg: Config, counters: seq<nat>, l: int, b: int, head: int, token: int,
                            channels: seq<nat>) {
    forall h :: 0 <= h < |channels| ==>
      channels[h] == cfg.place(Coord(l, head + h, token, b), Some(Counted(counters, channels[..h])))
  }

  /** What a write does to the counters: one count and one share of the bytes on every channel listed. */
  ghost predicate WriteCharges(was: Stats, now: Stats, channels: seq<nat>, total: nat) {
    now == was.(counters := Counted(was.counters, channels), writeCounts := Counted(was.writeCounts, channels),
                writeBytes := Charged(was.writeBytes, channels, seq(|channels|, i requires 0 <= i < |channels| =>
                                                                                 total / |channels|)),
                blocksWritten := was.blocksWritten + 1, bytesWritten := was.bytesWritten + total,
                requests := was.requests + 1)
  }

  function Shares(n: nat, share: nat): (r: seq<nat>)
    ensures |r| == n
  {
    seq(n, _ => share)
  }

  lemma {:induction false} PlacedHeads(cfg: Config, t: Stats, l: int, b: int, head: int, token: int, n: nat, share: nat)
    returns (channels: seq<nat>)
    requires ConfigOk(cfg) && StatsOk(cfg, t)
    ensures |channels| == n && ArePlaced(cfg, t.counters, l, b, head, token, channels)
    ensures PlaceHeads(cfg, t, l, b, head, token, n, share)
         == t.(counters := Counted(t.counters, channels), writeCounts := Counted(t.writeCounts, channels),
               writeBytes := Charged(t.writeBytes, channels, Shares(n, share)))
  {
    if n == 0 {
      channels := [];
      NothingCharged(t.counters);
      NothingCharged(t.writeCounts);
      NothingCharged(t.writeBytes);
    } else {
      var before := PlacedHeads(cfg, t, l, b, head, token, n - 1, share);
      var ch := cfg.place(Coord(l, head + n - 1, token, b), Some(Counted(t.counters, before)));
      channels := before + [ch];
      CountedNext(t.counters, before, ch);
      CountedNext(t.writeCounts, before, ch);
      ChargedNext(t.writeBytes, before, Shares(n - 1, share), ch, share);
      assert Shares(n, share) == Shares(n - 1, share) + [share];
      OneMorePlaced(cfg, t.counters, l, b, head, token, before, ch);
    }
  }

  lemma OneMorePlaced(cfg: Config, counters: seq<nat>, l: int, b: int, head: int, token: int, before: seq<nat>, ch: nat)
    requires ArePlaced(cfg, counters, l, b, head, token, before)
    requires ch == cfg.place(Coord(l, head + |before|, token, b), Some(Counted(counters, before)))
    ensures ArePlaced(cfg, counters, l, b, head, token, before + [ch])
  {
    var channels := before + [ch];
    forall h | 0 <= h < |channels|
      ensures channels[h] == cfg.place(Coord(l, head + h, token, b), Some(Counted(counters, channels[..h])))
    {
      assert channels[..h] == before[..h];
      if h == |before| { assert before[..h] == before; }
    }
  }

  /**
   A write charges one channel a head: there is a list of channels, the mapper's answers head after head, every
   channel is counted and charged a share as often as it is listed, and the entry records the first one.
   */
  lemma WriteIsCharged(cfg: Config, s: Store, l: int, b: int, k: Tensor, v: Tensor, head: int, token: int)
    returns (channels: seq<nat>)
    requires ConfigOk(cfg) && StoreOk(cfg, s)
    ensures |channels| == if k.Array? && k.shape.Some? then k.shape.value.heads else 1
    ensures ArePlaced(cfg, s.stats.counters, l, b, head, token, channels)
    ensures var t := Write(cfg, s, l, b, k, v, head, token);
      && WriteCharges(s.stats, t.stats, channels, |k.bytes| + |v.bytes|)
      && (l, b) in t.table && t.table[(l, b)].channel == if channels == [] then 0 else channels[0]
  {
    var total, heads := |k.bytes| + |v.bytes|, HeadsOf(k);
    channels := PlacedHeads(cfg, s.stats, l, b, head, token, heads, Share(total, heads));
    if heads > 0 {
      assert channels[..0] == [];
      NothingCharged(s.stats.counters);
    }
    assert Shares(heads, Share(total, heads))
        == seq(|channels|, i requires 0 <= i < |channels| => total / |channels|);
  }

  // ------------------------------------------------------------------ reads

  /** A read that returns charges the mapper's channel for the page's bytes, and one that raises nothing. */
  ghost predicate ReadCharges(cfg: Config, was: Stats, now: Stats, kind: Kind, ch: nat, size: nat) {
    && now.readCounts == Counted(was.readCounts, [ch]) && now.readBytes == Charged(was.readBytes, [ch], [size])
    && now.counters == was.counters && now.writeCounts == was.writeCounts && now.writeBytes == was.writeBytes
    && now.requests == was.requests + 1 && now.bytesRead == was.bytesRead + size
    && now.bytesWritten == was.bytesWritten && now.blocksWritten == was.blocksWritten
    && now.blocksRead == was.blocksRead + (if kind == KeyPage then 0 else 1)
    && (kind == KeyPage ==> now.keyReads == was.keyReads + 1 && now.valueReads == was.valueReads
                            && now.blockReads == was.blockReads)
    && (kind == ValuePage ==> now.keyReads == was.keyReads && now.valueReads == was.valueReads + 1
                              && now.blockReads == was.blockReads)
    && (kind == WholeBlock ==> now.keyReads == was.keyReads && now.valueReads == was.valueReads
                               && now.blockReads == was.blockReads + 1)
  }

  lemma ReadIsCharged(cfg: Config, s: Store, kind: Kind, l: int, b: int, head: int, token: int)
    requires ConfigOk(cfg) && StoreOk(cfg, s)
    ensures var t := Read(cfg, s, kind, l, b, head, token);
      if Loads(s, kind, (l, b))
      then ReadCharges(cfg, s.stats, t.stats, kind, cfg.place(Coord(l, head, token, b), None),
                       Size(Fetch(cfg, s, kind, (l, b))))
      else t == s
  {
    var ch, size := cfg.place(Coord(l, head, token, b), None), Size(Fetch(cfg, s, kind, (l, b)));
    NothingCharged(s.stats.readCounts);
    NothingCharged(s.stats.readBytes);
    CountedNext(s.stats.readCounts, [], ch);
    ChargedNext(s.stats.readBytes, [], [], ch, size);
    assert [] + [ch] == [ch] && [] + [size] == [size];
  }

  /** The channels recorded for the blocks, channel 0 for those that are not stored. */
  function RecordedChannels(s: Store, l: int, ids: seq<int>): (channels: seq<nat>)
    ensures |channels| == |ids|
  {
    seq(|ids|, i requires 0 <= i < |ids| => if (l, ids[i]) in s.table then s.table[(l, ids[i])].channel else 0)
  }

  function Sizes(cfg: Config, s: Store, kind: Kind, l: int, ids: seq<int>): (sizes: seq<nat>)
    requires StoreOk(cfg, s)
    ensures |sizes| == |ids|
  {
    seq(|ids|, i requires 0 <= i < |ids| => Size(Fetch(cfg, s, kind, (l, ids[i]))))
  }

  ghost predicate BatchRecorded(cfg: Config, s: Store, kind: Kind, l: int, ids: seq<int>)
    requires ConfigOk(cfg) && StoreOk(cfg, s)
  {
    && ChargesReads(s.stats, BatchCharges(cfg, s, kind, l, ids), RecordedChannels(s, l, ids),
                    Sizes(cfg, s, kind, l, ids))
    && BatchBytes(cfg, s, kind, l, ids) == NatSum(Sizes(cfg, s, kind, l, ids))
  }

  lemma {:induction false} ChargesAreRecorded(cfg: Config, s: Store, kind: Kind, l: int, ids: seq<int>)
    requires ConfigOk(cfg) && StoreOk(cfg, s)
    ensures BatchRecorded(cfg, s, kind, l, ids)
  {
    if ids == [] {
      NothingCharged(s.stats.readCounts);
      NothingCharged(s.stats.readBytes);
    } else {
      ChargesAreRecorded(cfg, s, kind, l, ids[..|ids|-1]);
      OneMoreRecorded(cfg, s, kind, l, ids);
    }
  }

  lemma OneMoreRecorded(cfg: Config, s: Store, kind: Kind, l: int, ids: seq<int>)
    requires ConfigOk(cfg) && StoreOk(cfg, s) && ids != [] && BatchRecorded(cfg, s, kind, l, ids[..|ids|-1])
    ensures BatchRecorded(cfg, s, kind, l, ids)
  {
    var before, key := ids[..|ids|-1], (l, ids[|ids|-1]);
    RecordedOk(cfg, s, key);
    ListsNext(cfg, s, kind, l, ids);
    OneMoreRead(s.stats, BatchCharges(cfg, s, kind, l, before), RecordedChannels(s, l, before),
                Sizes(cfg, s, kind, l, before), Recorded(s, key), Size(Fetch(cfg, s, kind, key)));
  }

  lemma ListsNext(cfg: Config, s: Store, kind: Kind, l: int, ids: seq<int>)
    requires StoreOk(cfg, s) && ids != []
    ensures var before, key := ids[..|ids|-1], (l, ids[|ids|-1]);
      && RecordedChannels(s, l, ids) == RecordedChannels(s, l, before) + [Recorded(s, key)]
      && Sizes(cfg, s, kind, l, ids) == Sizes(cfg, s, kind, l, before) + [Size(Fetch(cfg, s, kind, key))]
  {
  }

  /** Every channel listed is counted and charged, and nothing else changes. */
  ghost predicate ChargesReads(was: Stats, now: Stats, channels: seq<nat>, sizes: seq<nat>) {
    && |channels| == |sizes|
    && now == was.(readCounts := Counted(was.readCounts, channels),
                   readBytes := Charged(was.readBytes, channels, sizes))
  }

  lemma OneMoreRead(was: Stats, now: Stats, channels: seq<nat>, sizes: seq<nat>, ch: nat, size: nat)
    requires ch < |was.readCounts| == |was.readBytes| && ChargesReads(was, now, channels, sizes)
    ensures ChargesReads(was, Charge(now, ch, size), channels + [ch], sizes + [size])
  {
    CountedNext(was.readCounts, channels, ch);
    ChargedNext(was.readBytes, channels, sizes, ch, size);
  }

  /**
   A batch charges the recorded channel of every block, up to the first that raises, for the block's bytes; the
   totals count all blocks, if it returns.
   */
  lemma BatchIsCharged(cfg: Config, s: Store, kind: Kind, l: int, ids: seq<int>)
    requires ConfigOk(cfg) && StoreOk(cfg, s)
    ensures var was, now, read := s.stats, ReadBatch(cfg, s, kind, l, ids).stats, Loaded(s, kind, l, ids);
      && now.readCounts == Counted(was.readCounts, RecordedChannels(s, l, read))
      && now.readBytes == Charged(was.readBytes, RecordedChannels(s, l, read), Sizes(cfg, s, kind, l, read))
      && (AllLoad(s, kind, l, ids) ==>
            && now.bytesRead == was.bytesRead + NatSum(Sizes(cfg, s, kind, l, ids))
            && now.requests == was.requests + |ids|)
      && (!AllLoad(s, kind, l, ids) ==> now.bytesRead == was.bytesRead && now.requests == was.requests)
  {
    ChargesAreRecorded(cfg, s, kind, l, Loaded(s, kind, l, ids));
    NothingCharged(s.stats.readCounts);
    NothingCharged(s.stats.readBytes);
  }

  /** The candidates of a filter that are stored. */
  function StoredIds(s: Store, l: int, ids: seq<int>): (r: seq<int>) {
    if ids == [] then []
    else StoredIds(s, l, ids[..|ids|-1]) + if (l, ids[|ids|-1]) in s.table then [ids[|ids|-1]] else []
  }

  function KeySizes(s: Store, l: int, ids: seq<int>): (sizes: seq<nat>)
    ensures |sizes| == |ids|
  {
    seq(|ids|, i requires 0 <= i < |ids| => if (l, ids[i]) in s.table then s.table[(l, ids[i])].kSize else 4096)
  }

  lemma {:induction false} ScanIsRecorded(cfg: Config, s: Store, l: int, ids: seq<int>)
    requires ConfigOk(cfg) && StoreOk(cfg, s)
    ensures var stored := StoredIds(s, l, ids);
      ChargesReads(s.stats, ScanCharges(cfg, s, l, ids), RecordedChannels(s, l, stored), KeySizes(s, l, stored))
    ensures ScanBytes(s, l, ids) == NatSum(KeySizes(s, l, ids))
  {
    NothingCharged(s.stats.readCounts);
    NothingCharged(s.stats.readBytes);
    if ids != [] {
      var n := |ids| - 1;
      ScanIsRecorded(cfg, s, l, ids[..n]);
      assert KeySizes(s, l, ids) == KeySizes(s, l, ids[..n]) + [KeySizes(s, l, ids)[n]];
      var key, stored := (l, ids[n]), StoredIds(s, l, ids[..n]);
      if key in s.table {
        RecordedOk(cfg, s, key);
        var ch, size := s.table[key].channel, s.table[key].kSize;
        OneMoreRead(s.stats, ScanCharges(cfg, s, l, ids[..n]), RecordedChannels(s, l, stored), KeySizes(s, l, stored),
                    ch, size);
        assert RecordedChannels(s, l, stored + [ids[n]]) == RecordedChannels(s, l, stored) + [ch];
        assert KeySizes(s, l, stored + [ids[n]]) == KeySizes(s, l, stored) + [size];
      } else {
        assert stored + [] == stored;
      }
    }
  }

  /**
   A filter charges the recorded channel of every stored candidate for its keys, whether it returns or not; if
   it returns, the totals count 4096 bytes for each of the others besides.
   */
  lemma FilterIsCharged(cfg: Config, s: Store, l: int, cands: Cands, ask: Ask)
    requires ConfigOk(cfg) && StoreOk(cfg, s)
    ensures var was, now := s.stats, Scan(cfg, s, l, cands, ask).stats;
      var ids, stored := Ids(cands), StoredIds(s, l, Ids(cands));
      && now.readCounts == Counted(was.readCounts, RecordedChannels(s, l, stored))
      && now.readBytes == Charged(was.readBytes, RecordedChannels(s, l, stored), KeySizes(s, l, stored))
      && now.bytesRead == was.bytesRead
           + (if ScanReturns(cfg, s, l, cands, ask) then NatSum(KeySizes(s, l, ids)) else 0)
  {
    ScanIsRecorded(cfg, s, l, Ids(cands));
    NothingCharged(s.stats.readCounts);
    NothingCharged(s.stats.readBytes);
  }

  /** What a write shows on the counters: a channel for every head, and the entry's channel is the first. */
  ghost predicate WriteShows(cfg: Config, was: Stats, now: Stats, primary: nat, l: int, b: int, k: Tensor, head: int,
                             token: int, total: nat) {
    exists channels: seq<nat> ::
      && |channels| == (if k.Array? && k.shape.Some? then k.shape.value.heads else 1)
      && ArePlaced(cfg, was.counters, l, b, head, token, channels)
      && WriteCharges(was, now, channels, total)
      && primary == if channels == [] then 0 else channels[0]
  }
}

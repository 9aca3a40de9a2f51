/** Little-endian packed structures: the byte formats that the NVMe client and the guest daemon share. */
module Wire {

  type Byte = x: int | 0 <= x < 256
  type Bytes = seq<Byte>

  const U8 := 0x100
  const U16 := 0x1_0000
  const U32 := 0x1_0000_0000
  const U64 := 0x1_0000_0000_0000_0000

  // ------------------------------------------------------------------ little-endian integers

  function LE(n: nat, w: nat): (bs: Bytes)
    ensures |bs| == w
  {
    if w == 0 then [] else [n % 256] + LE(n / 256, w - 1)
  }

  function FromLE(bs: Bytes): nat {
    if bs == [] then 0 else bs[0] + 256 * FromLE(bs[1..])
  }

  function Radix(w: nat): nat {
    if w == 0 then 1 else 256 * Radix(w - 1)
  }

  lemma Radixes()
    ensures Radix(1) == U8 && Radix(2) == U16 && Radix(4) == U32 && Radix(8) == U64
  {
    assert Radix(3) == 0x100_0000;
    assert Radix(5) == 0x100_0000_0000 && Radix(6) == 0x1_0000_0000_0000 && Radix(7) == 0x100_0000_0000_0000;
  }

  /** An integer that fits the width survives packing. */
  lemma {:induction false} FromPacked(n: nat, w: nat)
    requires n < Radix(w)
    ensures FromLE(LE(n, w)) == n
  {
    if w > 0 {
      FromPacked(n / 256, w - 1);
      assert LE(n, w)[1..] == LE(n / 256, w - 1);
    }
  }

  lemma Digit(b: Byte, n: nat)
    ensures (b + 256 * n) % 256 == b && (b + 256 * n) / 256 == n
  {
  }

  /** Every byte string is the encoding of the integer it stands for. */
  lemma {:induction false} PackedFrom(bs: Bytes)
    ensures FromLE(bs) < Radix(|bs|) && LE(FromLE(bs), |bs|) == bs
  {
    if bs != [] {
      PackedFrom(bs[1..]);
      var n := FromLE(bs[1..]);
      Digit(bs[0], n);
      assert bs == [bs[0]] + bs[1..];
    }
  }

  lemma From4(n: nat)
    requires n < U32
    ensures FromLE(LE(n, 4)) == n
  {
    Radixes();
    FromPacked(n, 4);
  }

  lemma From8(n: nat)
    requires n < U64
    ensures FromLE(LE(n, 8)) == n
  {
    Radixes();
    FromPacked(n, 8);
  }

  lemma From1(n: nat)
    requires n < U8
    ensures LE(n, 1) == [n] && FromLE([n]) == n
  {
    assert LE(n, 1) == [n % 256] + LE(n / 256, 0);
    assert [n][1..] == [];
  }

  lemma From2(n: nat)
    requires n < U16
    ensures FromLE(LE(n, 2)) == n
  {
    Radixes();
    FromPacked(n, 2);
  }

  // ------------------------------------------------------------------ structures

  /** `<IBBHQI`: of a request (operation, flags) and of a response (status, operation). */
  datatype Header = Header(magic: nat, first: nat, second: nat, reserved: nat, offset: nat, length: nat)

  const HEADER_SIZE := 20

  predicate HeaderFits(h: Header) {
    h.magic < U32 && h.first < U8 && h.second < U8 && h.reserved < U16 && h.offset < U64 && h.length < U32
  }

  function PackHeader(h: Header): (bs: Bytes)
    ensures |bs| == HEADER_SIZE
  {
    LE(h.magic, 4) + LE(h.first, 1) + LE(h.second, 1) + LE(h.reserved, 2) + LE(h.offset, 8) + LE(h.length, 4)
  }

  function UnpackHeader(bs: Bytes): Header
    requires |bs| == HEADER_SIZE
  {
    Header(FromLE(bs[0..4]), FromLE(bs[4..5]), FromLE(bs[5..6]), FromLE(bs[6..8]), FromLE(bs[8..16]),
           FromLE(bs[16..20]))
  }

  lemma HeaderRoundTrip(h: Header)
    requires HeaderFits(h)
    ensures UnpackHeader(PackHeader(h)) == h
  {
    var bs := PackHeader(h);
    assert bs[0..4] == LE(h.magic, 4);
    assert bs[4..5] == LE(h.first, 1);
    assert bs[5..6] == LE(h.second, 1);
    assert bs[6..8] == LE(h.reserved, 2);
    assert bs[8..16] == LE(h.offset, 8);
    assert bs[16..20] == LE(h.length, 4);
    From4(h.magic);
    From1(h.first);
    From1(h.second);
    From2(h.reserved);
    From8(h.offset);
    From4(h.length);
  }

  /** `<QII`: one item of a batch read. */
  datatype Item = Item(offset: nat, length: nat, id: nat)

  const ITEM_SIZE := 16

  predicate ItemFits(i: Item) {
    i.offset < U64 && i.length < U32 && i.id < U32
  }

  function PackItem(i: Item): (bs: Bytes)
    ensures |bs| == ITEM_SIZE
  {
    LE(i.offset, 8) + LE(i.length, 4) + LE(i.id, 4)
  }

  function UnpackItem(bs: Bytes): Item
    requires |bs| == ITEM_SIZE
  {
    Item(FromLE(bs[0..8]), FromLE(bs[8..12]), FromLE(bs[12..16]))
  }

  lemma ItemRoundTrip(i: Item)
    requires ItemFits(i)
    ensures UnpackItem(PackItem(i)) == i
  {
    var bs := PackItem(i);
    assert bs[0..8] == LE(i.offset, 8);
    assert bs[8..12] == LE(i.length, 4);
    assert bs[12..16] == LE(i.id, 4);
    From8(i.offset);
    From4(i.length);
    From4(i.id);
  }

  /** `<QIII`: one candidate of an in-storage top-k. */
  datatype Candidate = Candidate(offset: nat, length: nat, id: nat, tokens: nat)

  const CANDIDATE_SIZE := 20

  predicate CandidateFits(c: Candidate) {
    c.offset < U64 && c.length < U32 && c.id < U32 && c.tokens < U32
  }

  function PackCandidate(c: Candidate): (bs: Bytes)
    ensures |bs| == CANDIDATE_SIZE
  {
    LE(c.offset, 8) + LE(c.length, 4) + LE(c.id, 4) + LE(c.tokens, 4)
  }

  function UnpackCandidate(bs: Bytes): Candidate
    requires |bs| == CANDIDATE_SIZE
  {
    Candidate(FromLE(bs[0..8]), FromLE(bs[8..12]), FromLE(bs[12..16]), FromLE(bs[16..20]))
  }

  lemma CandidateRoundTrip(c: Candidate)
    requires CandidateFits(c)
    ensures UnpackCandidate(PackCandidate(c)) == c
  {
    var bs := PackCandidate(c);
    assert bs[0..8] == LE(c.offset, 8);
    assert bs[8..12] == LE(c.length, 4);
    assert bs[12..16] == LE(c.id, 4);
    assert bs[16..20] == LE(c.tokens, 4);
    From8(c.offset);
    From4(c.length);
    From4(c.id);
    From4(c.tokens);
  }

  /** `<IIIIIf`: the parameters of an in-storage top-k.  The float is carried as its 32-bit word. */
  datatype TopkHeader = TopkHeader(candidates: nat, topK: nat, qHeads: nat, kvHeads: nat, headDim: nat, scale: nat)

  const TOPK_HEADER_SIZE := 24

  predicate TopkHeaderFits(h: TopkHeader) {
    h.candidates < U32 && h.topK < U32 && h.qHeads < U32 && h.kvHeads < U32 && h.headDim < U32 && h.scale < U32
  }

  function PackTopkHeader(h: TopkHeader): (bs: Bytes)
    ensures |bs| == TOPK_HEADER_SIZE
  {
    LE(h.candidates, 4) + LE(h.topK, 4) + LE(h.qHeads, 4) + LE(h.kvHeads, 4) + LE(h.headDim, 4) + LE(h.scale, 4)
  }

  function UnpackTopkHeader(bs: Bytes): TopkHeader
    requires |bs| == TOPK_HEADER_SIZE
  {
    TopkHeader(FromLE(bs[0..4]), FromLE(bs[4..8]), FromLE(bs[8..12]), FromLE(bs[12..16]), FromLE(bs[16..20]),
               FromLE(bs[20..24]))
  }

  lemma TopkHeaderRoundTrip(h: TopkHeader)
    requires TopkHeaderFits(h)
    ensures UnpackTopkHeader(PackTopkHeader(h)) == h
  {
    var bs := PackTopkHeader(h);
    assert bs[0..4] == LE(h.candidates, 4);
    assert bs[4..8] == LE(h.topK, 4);
    assert bs[8..12] == LE(h.qHeads, 4);
    assert bs[12..16] == LE(h.kvHeads, 4);
    assert bs[16..20] == LE(h.headDim, 4);
    assert bs[20..24] == LE(h.scale, 4);
    From4(h.candidates);
    From4(h.topK);
    From4(h.qHeads);
    From4(h.kvHeads);
    From4(h.headDim);
    From4(h.scale);
  }

  /** `<IfI`: one entry of a top-k reply. */
  datatype TopItem = TopItem(id: nat, score: nat, tokens: nat)

  const TOP_ITEM_SIZE := 12

  predicate TopItemFits(t: TopItem) {
    t.id < U32 && t.score < U32 && t.tokens < U32
  }

  function PackTopItem(t: TopItem): (bs: Bytes)
    ensures |bs| == TOP_ITEM_SIZE
  {
    LE(t.id, 4) + LE(t.score, 4) + LE(t.tokens, 4)
  }

  function UnpackTopItem(bs: Bytes): TopItem
    requires |bs| == TOP_ITEM_SIZE
  {
    TopItem(FromLE(bs[0..4]), FromLE(bs[4..8]), FromLE(bs[8..12]))
  }

  lemma TopItemRoundTrip(t: TopItem)
    requires TopItemFits(t)
    ensures UnpackTopItem(PackTopItem(t)) == t
  {
    var bs := PackTopItem(t);
    assert bs[0..4] == LE(t.id, 4);
    assert bs[4..8] == LE(t.score, 4);
    assert bs[8..12] == LE(t.tokens, 4);
    From4(t.id);
    From4(t.score);
    From4(t.tokens);
  }

  /** `<BII`: what precedes the data of one item in a batch reply. */
  datatype ItemHead = ItemHead(status: nat, id: nat, length: nat)

  const ITEM_HEAD_SIZE := 9

  predicate ItemHeadFits(h: ItemHead) {
    h.status < U8 && h.id < U32 && h.length < U32
  }

  function PackItemHead(h: ItemHead): (bs: Bytes)
    ensures |bs| == ITEM_HEAD_SIZE
  {
    LE(h.status, 1) + LE(h.id, 4) + LE(h.length, 4)
  }

  function UnpackItemHead(bs: Bytes): ItemHead
    requires |bs| == ITEM_HEAD_SIZE
  {
    ItemHead(FromLE(bs[0..1]), FromLE(bs[1..5]), FromLE(bs[5..9]))
  }

  lemma ItemHeadRoundTrip(h: ItemHead)
    requires ItemHeadFits(h)
    ensures UnpackItemHead(PackItemHead(h)) == h
  {
    var bs := PackItemHead(h);
    assert bs[0..1] == LE(h.status, 1);
    assert bs[1..5] == LE(h.id, 4);
    assert bs[5..9] == LE(h.length, 4);
    From1(h.status);
    From4(h.id);
    From4(h.length);
  }

  // ------------------------------------------------------------------ arrays of structures

  function PackAll<T>(pack: T -> Bytes, xs: seq<T>): Bytes {
    if xs == [] then [] else pack(xs[0]) + PackAll(pack, xs[1..])
  }

  /** `n` structures of `size` bytes, in the length a C array of them has. */
  function Span(n: nat, size: nat): nat {
    if n == 0 then 0 else size + Span(n - 1, size)
  }

  /** The first `n` structures of `size` bytes in the stream. */
  function UnpackAll<T>(unpack: Bytes --> T, size: nat, n: nat, s: Bytes): (xs: seq<T>)
    requires |s| >= Span(n, size)
    requires forall b: Bytes | |b| == size :: unpack.requires(b)
    ensures |xs| == n
    decreases n
  {
    if n == 0 then []
    else [unpack(s[..size])] + UnpackAll(unpack, size, n - 1, s[size..])
  }

  lemma HeadOfStream(a: Bytes, b: Bytes, rest: Bytes)
    ensures (a + b + rest)[..|a|] == a && (a + b + rest)[|a|..] == b + rest
  {
  }

  /** Packed structures at the head of a stream are read back, whatever follows them. */
  lemma {:induction false} AllRoundTrip<T>(pack: T -> Bytes, unpack: Bytes --> T, size: nat, xs: seq<T>, rest: Bytes)
    requires forall b: Bytes | |b| == size :: unpack.requires(b)
    requires forall x | x in xs :: |pack(x)| == size && unpack(pack(x)) == x
    ensures |PackAll(pack, xs)| == Span(|xs|, size)
    ensures UnpackAll(unpack, size, |xs|, PackAll(pack, xs) + rest) == xs
  {
    if xs != [] {
      assert xs[0] in xs;
      AllRoundTrip(pack, unpack, size, xs[1..], rest);
      HeadOfStream(pack(xs[0]), PackAll(pack, xs[1..]), rest);
    }
  }

  /** What is read does not depend on what comes after it in the stream. */
  lemma {:induction false} UnpackAllLocal<T>(unpack: Bytes --> T, size: nat, n: nat, s: Bytes, more: Bytes)
    requires |s| >= Span(n, size)
    requires forall b: Bytes | |b| == size :: unpack.requires(b)
    ensures UnpackAll(unpack, size, n, s + more) == UnpackAll(unpack, size, n, s)
    decreases n
  {
    if n > 0 {
      assert (s + more)[..size] == s[..size] && (s + more)[size..] == s[size..] + more;
      UnpackAllLocal(unpack, size, n - 1, s[size..], more);
    }
  }
}

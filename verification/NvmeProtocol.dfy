/**
 The request/response protocol between the NVMe client and the guest daemon: what the daemon does
 with the bytes it reads, what the client makes of the bytes it gets back, and the exact
 conditions under which the two stay in frame and act as one byte array accessed directly.
 */
module NvmeProtocol {
  import opened Options
  import opened Arithmetic
  import opened Wire
  import R = Ranking

  const MAGIC := 0x4E564D45
  const OP_WRITE := 1
  const OP_READ := 2
  const OP_PING := 3
  const OP_FLUSH := 4
  const OP_SHUTDOWN := 5
  const OP_BATCH_READ := 6
  const OP_COMPUTE_TOPK := 7
  const BUFFER_SIZE := 1024 * 1024

  // ------------------------------------------------------------------ the device

  const MAX_OFFSET := 0x8000_0000_0000_0000   // from it on a 64-bit offset is negative

  /** `pread`: up to `len` bytes, fewer at the end of the device; fails if offset and length pass the last offset. */
  function PRead(dev: Bytes, offset: nat, len: nat): (r: Option<Bytes>)
    ensures r.Some? ==> |r.value| <= len
  {
    if offset + len >= MAX_OFFSET then None
    else Some(dev[Min(offset, |dev|)..Min(offset + len, |dev|)])
  }

  /** `pwrite`: how many bytes reach the device, -1 when none can. */
  function Writable(dev: Bytes, offset: nat, len: nat): (n: int)
    ensures -1 <= n <= len && (n > 0 ==> offset + n <= |dev|)
  {
    if offset + len >= MAX_OFFSET then -1
    else if len == 0 then 0
    else if offset >= |dev| then -1
    else Min(len, |dev| - offset)
  }

  /** The device once those bytes are written. */
  function PWrite(dev: Bytes, offset: nat, data: Bytes): (r: Bytes)
    ensures |r| == |dev|
  {
    var n := Writable(dev, offset, |data|);
    if n <= 0 then dev else dev[..offset] + data[..n] + dev[offset + n..]
  }

  /** Would reading the item write past the end of the daemon's buffer?  It reads there without a check. */
  predicate Overruns(dev: Bytes, i: Item) {
    var r := PRead(dev, i.offset, i.length);
    r.Some? && |r.value| > BUFFER_SIZE
  }

  predicate NoOverrun(dev: Bytes, items: seq<Item>) {
    forall i :: 0 <= i < |items| ==> !Overruns(dev, items[i])
  }

  /** All of the item's bytes exist. */
  predicate Full(dev: Bytes, offset: nat, len: nat) {
    var r := PRead(dev, offset, len);
    r.Some? && |r.value| == len
  }

  // ------------------------------------------------------------------ in-storage top-k

  const I32 := 0x8000_0000                    // beyond it a 32-bit word is a negative int

  type Word = x: int | 0 <= x < U32

  const BLANK_WORD: Word := 0xF149F2CA        // -1e30f

  /** The scoring kernel on a candidate's page, and the value of a float word. */
  datatype Scoring = Scoring(score: (bool, TopkHeader, Bytes, Bytes, nat) -> Word, float: Word -> real)

  function Page(dev: Bytes, c: Candidate): Option<Bytes> {
    var len := Min(c.length, BUFFER_SIZE);
    if Full(dev, c.offset, len) then PRead(dev, c.offset, len) else None
  }

  /** The C int that a 32-bit word is cast to. */
  function Signed(n: nat): int { if n < I32 then n else n - U32 }

  function Positive(n: int): nat { if n > 0 then n else 0 }

  function Product(a: int, b: int): int { a * b }

  /**
   The scoring loops at token `t` and query head `qh`: the key vector lies within the page, which has
   elements of `width` bytes, and the query vector within the query buffer.
   */
  predicate ReadsInside(pageBytes: nat, width: nat, words: nat, kvHeads: int, headDim: int, ratio: int, t: int, qh: int)
    requires ratio > 0
  {
    var key, query := Product(t, Product(kvHeads, headDim)) + Product(qh / ratio, headDim), Product(qh, headDim);
    && 0 <= key && Product(key + Positive(headDim), width) <= pageBytes
    && 0 <= query < I32 && query + Positive(headDim) <= words
  }

  predicate LoopsInside(pageBytes: nat, width: nat, words: nat, tokens: int, qHeads: int, kvHeads: int, headDim: int,
                        ratio: int)
    requires ratio > 0
  {
    forall t, qh :: 0 <= t < tokens && 0 <= qh < qHeads ==>
        ReadsInside(pageBytes, width, words, kvHeads, headDim, ratio, t, qh)
  }

  /** The width of an element of a page. */
  function Width(fp16: bool): nat { if fp16 then 2 else 4 }

  /** The floats of the query buffer, from a 32-bit product. */
  function QueryWords(h: TopkHeader): nat {
    Product(h.qHeads, h.headDim) % U32
  }

  /**
   Is the score of the candidate's page determined?  The stride is an int, no head ratio is zero, and
   the loops read nothing but the page and the query: neither what earlier requests left in the buffer
   nor what lies behind it.
   */
  predicate Scorable(fp16: bool, h: TopkHeader, c: Candidate) {
    var tokens, qHeads := Signed(c.tokens), Signed(h.qHeads);
    var kvHeads, headDim := Signed(h.kvHeads), Signed(h.headDim);
    && -I32 <= Product(kvHeads, headDim) < I32
    && (tokens > 0 && qHeads > 0 ==>
          var ratio := if kvHeads > 0 then qHeads / kvHeads else 1;
          ratio > 0 && LoopsInside(Min(c.length, BUFFER_SIZE), Width(fp16), QueryWords(h), tokens, qHeads, kvHeads,
                                   headDim, ratio))
  }

  /** Every candidate whose page is read can be scored, and the result slots can be counted by an int. */
  predicate AllScorable(flags: nat, h: TopkHeader, dev: Bytes, cands: seq<Candidate>) {
    forall i :: 0 <= i < |cands| ==> CandidateOk(IsFp16(flags, h, cands), h, dev, cands[i])
  }

  predicate CandidateOk(fp16: bool, h: TopkHeader, dev: Bytes, c: Candidate) {
    Page(dev, c).Some? ==> Scorable(fp16, h, c) && Min(h.topK, h.candidates) < I32
  }

  predicate IsFp16(flags: nat, h: TopkHeader, cands: seq<Candidate>) {
    flags == 1 || (cands != [] && cands[0].length == (16 * h.kvHeads * h.headDim * 2) % U32)
  }

  function Entry(env: Scoring, fp16: bool, h: TopkHeader, query: Bytes, c: Candidate, page: Bytes): R.Entry<TopItem> {
    var word := env.score(fp16, h, query, page, c.tokens);
    R.Entry(TopItem(c.id, word, c.tokens), env.float(word))
  }

  /** The scored candidates in order; those whose page cannot be read are skipped. */
  function Scored(env: Scoring, fp16: bool, h: TopkHeader, query: Bytes, dev: Bytes,
                  cands: seq<Candidate>): seq<R.Entry<TopItem>> {
    if cands == [] then []
    else
      var c := cands[|cands|-1];
      var page := Page(dev, c);
      Scored(env, fp16, h, query, dev, cands[..|cands|-1])
      + if page.Some? then [Entry(env, fp16, h, query, c, page.value)] else []
  }

  function Blank(env: Scoring): R.Entry<TopItem> {
    R.Entry(TopItem(0, BLANK_WORD, 0), env.float(BLANK_WORD))
  }

  function Payloads(w: seq<R.Entry<TopItem>>): (r: seq<TopItem>)
    ensures |r| == |w|
  {
    seq(|w|, i requires 0 <= i < |w| => w[i].payload)
  }

  /** The reply of an in-storage top-k: the insertion buffer after all readable candidates. */
  function TopItems(env: Scoring, flags: nat, h: TopkHeader, query: Bytes, dev: Bytes,
                    cands: seq<Candidate>): (r: seq<TopItem>)
    ensures |r| == Min(h.topK, h.candidates)
  {
    var items := Scored(env, IsFp16(flags, h, cands), h, query, dev, cands);
    Payloads(R.Offered(items, |items|, Min(h.topK, h.candidates), Blank(env)))
  }

  // ------------------------------------------------------------------ the daemon

  /** What the daemon does with the bytes that reach it. */
  datatype Turn =
    | Starved                                           // it waits for more bytes
    | Undefined                                         // it leaves its buffers; what follows is not determined
    | Hangup                                            // it drops the connection
    | Replied(rest: Bytes, reply: Bytes, dev: Bytes)    // bytes it has not consumed, bytes it sends, the device
    | Stopped(reply: Bytes)                             // it shuts down

  function Respond(h: Header, status: nat, length: nat): (bs: Bytes)
    ensures |bs| == HEADER_SIZE
  {
    PackHeader(Header(MAGIC, status, h.first, 0, h.offset, length))
  }

  function ServeWrite(h: Header, body: Bytes, dev: Bytes): Turn {
    if h.length > BUFFER_SIZE then Replied(body, Respond(h, 1, 0), dev)
    else if |body| < h.length then Starved
    else
      var data := body[..h.length];
      var n := Writable(dev, h.offset, h.length);
      var reply := if n != h.length then Respond(h, 1, if n > 0 then n else 0) else Respond(h, 0, n);
      Replied(body[h.length..], reply, PWrite(dev, h.offset, data))
  }

  function ServeRead(h: Header, body: Bytes, dev: Bytes): Turn {
    if h.length > BUFFER_SIZE then Replied(body, Respond(h, 1, 0), dev)
    else
      var r := PRead(dev, h.offset, h.length);
      if r.None? then Replied(body, Respond(h, 1, 0), dev)
      else Replied(body, Respond(h, 0, |r.value|) + r.value, dev)
  }

  function ItemReply(dev: Bytes, i: Item): Bytes {
    if Full(dev, i.offset, i.length)
    then PackItemHead(ItemHead(0, i.id, i.length)) + PRead(dev, i.offset, i.length).value
    else PackItemHead(ItemHead(1, i.id, i.length))
  }

  function ItemReplies(dev: Bytes, items: seq<Item>): Bytes {
    if items == [] then [] else ItemReply(dev, items[0]) + ItemReplies(dev, items[1..])
  }

  function ServeBatch(h: Header, body: Bytes, dev: Bytes): Turn {
    var size := Span(h.length, ITEM_SIZE);
    if |body| < size then Starved
    else
      var items := UnpackAll(UnpackItem, ITEM_SIZE, h.length, body);
      if !NoOverrun(dev, items) then Undefined
      else Replied(body[size..], Respond(h, 0, h.length) + ItemReplies(dev, items), dev)
  }

  /** The bytes the daemon reads as the query, from a 32-bit product. */
  function QueryBytes(h: TopkHeader): nat {
    4 * QueryWords(h)
  }

  function ServeTopk(env: Scoring, h: Header, body: Bytes, dev: Bytes): Turn {
    if |body| < TOPK_HEADER_SIZE then Starved
    else
      var th := UnpackTopkHeader(body[..TOPK_HEADER_SIZE]);
      var afterHeader := body[TOPK_HEADER_SIZE..];
      if |afterHeader| < QueryBytes(th) then Starved
      else
        var query, afterQuery := afterHeader[..QueryBytes(th)], afterHeader[QueryBytes(th)..];
        var size := Span(th.candidates, CANDIDATE_SIZE);
        if |afterQuery| < size then Starved
        else
          var cands := UnpackAll(UnpackCandidate, CANDIDATE_SIZE, th.candidates, afterQuery);
          var top := TopItems(env, h.second, th, query, dev, cands);
          if !AllScorable(h.second, th, dev, cands) then Undefined
          else Replied(afterQuery[size..], Respond(h, 0, |top|) + PackAll(PackTopItem, top), dev)
  }

  /** The branch for the operation of the header. */
  function Dispatch(env: Scoring, h: Header, body: Bytes, dev: Bytes): Turn {
    if h.magic != MAGIC then Hangup
    else if h.first == OP_PING then Replied(body, Respond(h, 0, 0), dev)
    else if h.first == OP_WRITE then ServeWrite(h, body, dev)
    else if h.first == OP_READ then ServeRead(h, body, dev)
    else if h.first == OP_BATCH_READ then ServeBatch(h, body, dev)
    else if h.first == OP_COMPUTE_TOPK then ServeTopk(env, h, body, dev)
    else if h.first == OP_FLUSH then Replied(body, Respond(h, 0, 0), dev)
    else if h.first == OP_SHUTDOWN then Stopped(Respond(h, 0, 0))
    else Replied(body, [], dev)
  }

  /** One turn of the daemon's request loop. */
  function Serve(env: Scoring, s: Bytes, dev: Bytes): Turn {
    if |s| < HEADER_SIZE then Starved
    else Dispatch(env, UnpackHeader(s[..HEADER_SIZE]), s[HEADER_SIZE..], dev)
  }

  // ------------------------------------------------------------------ the client

  datatype Request =
    | Ping
    | Flush
    | Write(offset: nat, data: Bytes)
    | Read(offset: nat, length: nat)
    | Batch(items: seq<Item>)
    | Topk(fp16: bool, header: TopkHeader, query: Bytes, cands: seq<Candidate>)

  /** What a call returns; `Failed` is the client's IOError. */
  datatype Outcome =
    | Alive(ok: bool)
    | Flushed
    | Wrote(count: nat)
    | Data(bytes: Bytes)
    | Blocks(blocks: map<nat, Bytes>)
    | Top(items: seq<TopItem>)
    | Failed

  /** The client packs fields within their widths and sends nothing for an empty batch or no candidates. */
  predicate Sendable(req: Request) {
    match req
    case Ping => true
    case Flush => true
    case Write(offset, data) => offset < U64 && |data| < U32
    case Read(offset, length) => offset < U64 && length < U32
    case Batch(items) => 0 < |items| < U32 && forall i :: i in items ==> ItemFits(i)
    case Topk(_, h, _, cands) =>
      0 < |cands| < U32 && h.candidates == |cands| && TopkHeaderFits(h) && forall c :: c in cands ==> CandidateFits(c)
  }

  function RequestHeader(req: Request): Header {
    match req
    case Ping => Header(MAGIC, OP_PING, 0, 0, 0, 0)
    case Flush => Header(MAGIC, OP_FLUSH, 0, 0, 0, 0)
    case Write(offset, data) => Header(MAGIC, OP_WRITE, 0, 0, offset, |data|)
    case Read(offset, length) => Header(MAGIC, OP_READ, 0, 0, offset, length)
    case Batch(items) => Header(MAGIC, OP_BATCH_READ, 0, 0, 0, |items|)
    case Topk(fp16, _, _, cands) => Header(MAGIC, OP_COMPUTE_TOPK, if fp16 then 1 else 0, 0, 0, |cands|)
  }

  function Body(req: Request): Bytes {
    match req
    case Ping => []
    case Flush => []
    case Write(_, data) => data
    case Read(_, _) => []
    case Batch(items) => PackAll(PackItem, items)
    case Topk(_, h, query, cands) => PackTopkHeader(h) + query + PackAll(PackCandidate, cands)
  }

  /** The bytes of a request. */
  function Encode(req: Request): Bytes {
    PackHeader(RequestHeader(req)) + Body(req)
  }

  /** What the client makes of the bytes that reach it. */
  datatype Receipt = Waiting | Received(outcome: Outcome, rest: Bytes)

  predicate Good(h: Header) {
    h.magic == MAGIC && h.first == 0
  }

  function ReceiveData(h: Header, body: Bytes): Receipt {
    if |body| < h.length then Waiting else Received(Data(body[..h.length]), body[h.length..])
  }

  function ReceiveItems(body: Bytes, n: nat, got: map<nat, Bytes>): Receipt
    decreases n
  {
    if n == 0 then Received(Blocks(got), body)
    else if |body| < ITEM_HEAD_SIZE then Waiting
    else
      var h, afterHead := UnpackItemHead(body[..ITEM_HEAD_SIZE]), body[ITEM_HEAD_SIZE..];
      if h.status != 0 then Received(Failed, afterHead)
      else if |afterHead| < h.length then Waiting
      else ReceiveItems(afterHead[h.length..], n - 1, got[h.id := afterHead[..h.length]])
  }

  function ReceiveTop(h: Header, body: Bytes): Receipt {
    var size := Span(h.length, TOP_ITEM_SIZE);
    if |body| < size then Waiting
    else Received(Top(UnpackAll(UnpackTopItem, TOP_ITEM_SIZE, h.length, body)), body[size..])
  }

  function Receive(req: Request, s: Bytes): Receipt {
    if |s| < HEADER_SIZE then Waiting
    else
      var h, body := UnpackHeader(s[..HEADER_SIZE]), s[HEADER_SIZE..];
      if req.Ping? then Received(Alive(Good(h)), body)
      else if req.Flush? then Received(Flushed, body)
      else if !Good(h) then Received(Failed, body)
      else if req.Write? then Received(Wrote(h.length), body)
      else if req.Read? then ReceiveData(h, body)
      else if req.Batch? then ReceiveItems(body, h.length, map[])
      else ReceiveTop(h, body)
  }

  // ------------------------------------------------------------------ one byte array, accessed directly

  function DirectBatch(dev: Bytes, items: seq<Item>, got: map<nat, Bytes>): Outcome {
    if items == [] then Blocks(got)
    else
      var i := items[0];
      if !Full(dev, i.offset, i.length) then Failed
      else DirectBatch(dev, items[1..], got[i.id := PRead(dev, i.offset, i.length).value])
  }

  /** What the call returns when it acts on the byte array itself. */
  function Direct(env: Scoring, req: Request, dev: Bytes): Outcome {
    match req
    case Ping => Alive(true)
    case Flush => Flushed
    case Write(offset, data) => if Writable(dev, offset, |data|) == |data| then Wrote(|data|) else Failed
    case Read(offset, length) =>
      var r := PRead(dev, offset, length);
      if length > BUFFER_SIZE || r.None? then Failed else Data(r.value)
    case Batch(items) => DirectBatch(dev, items, map[])
    case Topk(fp16, h, query, cands) => Top(TopItems(env, if fp16 then 1 else 0, h, query, dev, cands))
  }

  /** And what it leaves on the array. */
  function After(req: Request, dev: Bytes): (r: Bytes)
    ensures |r| == |dev|
  {
    if req.Write? then PWrite(dev, req.offset, req.data) else dev
  }

  /** What keeps the daemon within its buffers, for a request that it reads as it was meant. */
  predicate Defined(req: Request, dev: Bytes) {
    match req
    case Batch(items) => NoOverrun(dev, items)
    case Topk(fp16, h, _, cands) => AllScorable(if fp16 then 1 else 0, h, dev, cands)
    case _ => true
  }

  /**
   What keeps the two sides in frame: the daemon stays within its buffers, a write is no longer than
   the daemon's buffer, no item of a batch but perhaps the last one fails, a query is as long as its
   header says.
   */
  predicate InFrame(req: Request, dev: Bytes) {
    Defined(req, dev) &&
    match req
    case Write(_, data) => |data| <= BUFFER_SIZE
    case Batch(items) => forall i :: 0 <= i < |items| - 1 ==> Full(dev, items[i].offset, items[i].length)
    case Topk(_, h, query, _) => |query| == QueryBytes(h)
    case _ => true
  }
}

/**
 Framing: what one request and its reply consume and produce, on streams with anything behind
 them; and that staying in frame is equivalent to a condition on the request and the device.
 */
module NvmeFraming {
  import opened Options
  import opened Sequences
  import opened Arithmetic
  import opened Wire
  import opened NvmeProtocol
  import R = Ranking

  // ------------------------------------------------------------------ streams

  lemma Cut(s: Bytes, more: Bytes, n: nat)
    requires n <= |s|
    ensures (s + more)[..n] == s[..n] && (s + more)[n..] == s[n..] + more
  {
  }

  lemma Parts(a: Bytes, b: Bytes)
    ensures (a + b)[..|a|] == a && (a + b)[|a|..] == b
  {
  }

  lemma WriteLocal(h: Header, body: Bytes, more: Bytes, dev: Bytes)
    requires ServeWrite(h, body, dev).Replied?
    ensures ServeWrite(h, body + more, dev) == ServeWrite(h, body, dev).(rest := ServeWrite(h, body, dev).rest + more)
  {
    if h.length <= BUFFER_SIZE { Cut(body, more, h.length); }
  }

  lemma BatchLocal(h: Header, body: Bytes, more: Bytes, dev: Bytes)
    requires ServeBatch(h, body, dev).Replied?
    ensures ServeBatch(h, body + more, dev) == ServeBatch(h, body, dev).(rest := ServeBatch(h, body, dev).rest + more)
  {
    Cut(body, more, Span(h.length, ITEM_SIZE));
    UnpackAllLocal(UnpackItem, ITEM_SIZE, h.length, body, more);
  }

  lemma TopkLocal(env: Scoring, h: Header, body: Bytes, more: Bytes, dev: Bytes)
    requires ServeTopk(env, h, body, dev).Replied?
    ensures ServeTopk(env, h, body + more, dev)
        == ServeTopk(env, h, body, dev).(rest := ServeTopk(env, h, body, dev).rest + more)
  {
    var th := UnpackTopkHeader(body[..TOPK_HEADER_SIZE]);
    var afterHeader := body[TOPK_HEADER_SIZE..];
    var afterQuery := afterHeader[QueryBytes(th)..];
    Cut(body, more, TOPK_HEADER_SIZE);
    Cut(afterHeader, more, QueryBytes(th));
    Cut(afterQuery, more, Span(th.candidates, CANDIDATE_SIZE));
    UnpackAllLocal(UnpackCandidate, CANDIDATE_SIZE, th.candidates, afterQuery, more);
  }

  /** The daemon's reaction to a message does not depend on what follows the message. */
  lemma ServeLocal(env: Scoring, s: Bytes, more: Bytes, dev: Bytes)
    requires Serve(env, s, dev).Replied?
    ensures Serve(env, s + more, dev) == Serve(env, s, dev).(rest := Serve(env, s, dev).rest + more)
  {
    var h, body := UnpackHeader(s[..HEADER_SIZE]), s[HEADER_SIZE..];
    Cut(s, more, HEADER_SIZE);
    if h.first == OP_WRITE {
      WriteLocal(h, body, more, dev);
    } else if h.first == OP_BATCH_READ {
      BatchLocal(h, body, more, dev);
    } else if h.first == OP_COMPUTE_TOPK {
      TopkLocal(env, h, body, more, dev);
    }
  }

  lemma {:induction false} ItemsLocal(body: Bytes, n: nat, got: map<nat, Bytes>, more: Bytes)
    requires ReceiveItems(body, n, got).Received?
    ensures ReceiveItems(body + more, n, got)
         == ReceiveItems(body, n, got).(rest := ReceiveItems(body, n, got).rest + more)
    decreases n
  {
    if n > 0 {
      var h, afterHead := UnpackItemHead(body[..ITEM_HEAD_SIZE]), body[ITEM_HEAD_SIZE..];
      Cut(body, more, ITEM_HEAD_SIZE);
      if h.status == 0 {
        Cut(afterHead, more, h.length);
        ItemsLocal(afterHead[h.length..], n - 1, got[h.id := afterHead[..h.length]], more);
      }
    }
  }

  /** Nor does what the client makes of a reply. */
  lemma ReceiveLocal(req: Request, s: Bytes, more: Bytes)
    requires Receive(req, s).Received?
    ensures Receive(req, s + more) == Receive(req, s).(rest := Receive(req, s).rest + more)
  {
    var h, body := UnpackHeader(s[..HEADER_SIZE]), s[HEADER_SIZE..];
    Cut(s, more, HEADER_SIZE);
    if Good(h) {
      match req
      case Read(_, _) => Cut(body, more, h.length);
      case Batch(_) => ItemsLocal(body, h.length, map[], more);
      case Topk(_, _, _, _) =>
        Cut(body, more, Span(h.length, TOP_ITEM_SIZE));
        UnpackAllLocal(UnpackTopItem, TOP_ITEM_SIZE, h.length, body, more);
      case _ =>
    }
  }

  // ------------------------------------------------------------------ one message

  /** The header arrives as it was packed, whatever follows. */
  lemma HeaderArrives(h: Header, body: Bytes)
    requires HeaderFits(h)
    ensures var s := PackHeader(h) + body;
      && |s| >= HEADER_SIZE
      && UnpackHeader(s[..HEADER_SIZE]) == h && s[HEADER_SIZE..] == body
  {
    Parts(PackHeader(h), body);
    HeaderRoundTrip(h);
  }

  lemma ResponseArrives(h: Header, status: nat, length: nat, body: Bytes)
    requires HeaderFits(h) && status < U8 && length < U32
    ensures var s := Respond(h, status, length) + body;
      && |s| >= HEADER_SIZE
      && UnpackHeader(s[..HEADER_SIZE]) == Header(MAGIC, status, h.first, 0, h.offset, length)
      && s[HEADER_SIZE..] == body
  {
    HeaderArrives(Header(MAGIC, status, h.first, 0, h.offset, length), body);
  }

  /** What the daemon sends back for a request that it reads in full. */
  function Reply(env: Scoring, req: Request, dev: Bytes): Bytes {
    var h := RequestHeader(req);
    match req
    case Ping => Respond(h, 0, 0)
    case Flush => Respond(h, 0, 0)
    case Write(offset, data) =>
      var n := Writable(dev, offset, |data|);
      if |data| > BUFFER_SIZE then Respond(h, 1, 0)
      else if n != |data| then Respond(h, 1, if n > 0 then n else 0)
      else Respond(h, 0, n)
    case Read(offset, length) =>
      var r := PRead(dev, offset, length);
      if length > BUFFER_SIZE || r.None? then Respond(h, 1, 0) else Respond(h, 0, |r.value|) + r.value
    case Batch(items) => Respond(h, 0, |items|) + ItemReplies(dev, items)
    case Topk(_, th, query, cands) =>
      var top := TopItems(env, h.second, th, query, dev, cands);
      Respond(h, 0, |top|) + PackAll(PackTopItem, top)
  }

  /** The bytes of a request that the daemon leaves unread. */
  function Unread(req: Request): Bytes {
    if req.Write? && |req.data| > BUFFER_SIZE then req.data else []
  }

  /** A packed header brings the daemon to the branch for its operation. */
  lemma ServeArrives(env: Scoring, h: Header, body: Bytes, dev: Bytes)
    requires HeaderFits(h)
    ensures Serve(env, PackHeader(h) + body, dev) == Dispatch(env, h, body, dev)
  {
    HeaderArrives(h, body);
  }

  lemma RequestArrives(env: Scoring, req: Request, rest: Bytes, dev: Bytes)
    requires Sendable(req)
    ensures Serve(env, Encode(req) + rest, dev) == Dispatch(env, RequestHeader(req), Body(req) + rest, dev)
  {
    Regroup(PackHeader(RequestHeader(req)), Body(req), rest);
    ServeArrives(env, RequestHeader(req), Body(req) + rest, dev);
  }

  /** What the daemon is to do with a request: read it, reply, and leave what comes after it. */
  function TurnFor(env: Scoring, req: Request, rest: Bytes, dev: Bytes): Turn {
    if Defined(req, dev)
    then Replied(Unread(req) + rest, Reply(env, req, dev), if Unread(req) == [] then After(req, dev) else dev)
    else Undefined
  }

  lemma ServesEmpty(env: Scoring, req: Request, rest: Bytes, dev: Bytes)
    requires req.Ping? || req.Flush?
    ensures Dispatch(env, RequestHeader(req), Body(req) + rest, dev) == TurnFor(env, req, rest, dev)
  {
    assert [] + rest == rest;
  }

  lemma ServesRead(env: Scoring, req: Request, rest: Bytes, dev: Bytes)
    requires req.Read?
    ensures Dispatch(env, RequestHeader(req), Body(req) + rest, dev) == TurnFor(env, req, rest, dev)
  {
    assert [] + rest == rest;
  }

  lemma ServesWrite(env: Scoring, req: Request, rest: Bytes, dev: Bytes)
    requires req.Write?
    ensures Dispatch(env, RequestHeader(req), Body(req) + rest, dev) == TurnFor(env, req, rest, dev)
  {
    Parts(req.data, rest);
    assert [] + rest == rest;
  }

  lemma ItemsArrive(items: seq<Item>, rest: Bytes)
    requires forall i :: i in items ==> ItemFits(i)
    ensures var body := PackAll(PackItem, items) + rest;
      && |body| >= Span(|items|, ITEM_SIZE) && body[Span(|items|, ITEM_SIZE)..] == rest
      && UnpackAll(UnpackItem, ITEM_SIZE, |items|, body) == items
  {
    forall i | i in items ensures |PackItem(i)| == ITEM_SIZE && UnpackItem(PackItem(i)) == i {
      ItemRoundTrip(i);
    }
    AllRoundTrip(PackItem, UnpackItem, ITEM_SIZE, items, rest);
  }

  lemma ServesBatch(env: Scoring, req: Request, rest: Bytes, dev: Bytes)
    requires Sendable(req) && req.Batch?
    ensures Dispatch(env, RequestHeader(req), Body(req) + rest, dev) == TurnFor(env, req, rest, dev)
  {
    ItemsArrive(req.items, rest);
    assert [] + rest == rest;
  }

  lemma CandidatesArrive(cands: seq<Candidate>, rest: Bytes)
    requires forall c :: c in cands ==> CandidateFits(c)
    ensures |PackAll(PackCandidate, cands)| == Span(|cands|, CANDIDATE_SIZE)
    ensures var tail := PackAll(PackCandidate, cands) + rest;
      && tail[Span(|cands|, CANDIDATE_SIZE)..] == rest
      && UnpackAll(UnpackCandidate, CANDIDATE_SIZE, |cands|, tail) == cands
  {
    forall c | c in cands ensures |PackCandidate(c)| == CANDIDATE_SIZE && UnpackCandidate(PackCandidate(c)) == c {
      CandidateRoundTrip(c);
    }
    AllRoundTrip(PackCandidate, UnpackCandidate, CANDIDATE_SIZE, cands, rest);
  }

  lemma TopkHeaderArrives(th: TopkHeader, tail: Bytes)
    requires TopkHeaderFits(th)
    ensures var body := PackTopkHeader(th) + tail;
      && |body| >= TOPK_HEADER_SIZE && UnpackTopkHeader(body[..TOPK_HEADER_SIZE]) == th
      && body[TOPK_HEADER_SIZE..] == tail
  {
    Parts(PackTopkHeader(th), tail);
    TopkHeaderRoundTrip(th);
  }

  lemma ServeTopkMessage(env: Scoring, th: TopkHeader, query: Bytes, cands: seq<Candidate>, h: Header, rest: Bytes,
                         dev: Bytes)
    requires TopkHeaderFits(th) && th.candidates == |cands| && forall c :: c in cands ==> CandidateFits(c)
    requires |query| == QueryBytes(th)
    ensures var top := TopItems(env, h.second, th, query, dev, cands);
      ServeTopk(env, h, PackTopkHeader(th) + (query + (PackAll(PackCandidate, cands) + rest)), dev)
      == if AllScorable(h.second, th, dev, cands)
         then Replied(rest, Respond(h, 0, |top|) + PackAll(PackTopItem, top), dev)
         else Undefined
  {
    var tail := PackAll(PackCandidate, cands) + rest;
    TopkHeaderArrives(th, query + tail);
    Parts(query, tail);
    CandidatesArrive(cands, rest);
  }

  lemma FourParts(a: Bytes, b: Bytes, c: Bytes, d: Bytes)
    ensures a + b + c + d == a + (b + (c + d))
  {
  }

  lemma ServesTopk(env: Scoring, req: Request, rest: Bytes, dev: Bytes)
    requires Sendable(req) && req.Topk? && |req.query| == QueryBytes(req.header)
    ensures Dispatch(env, RequestHeader(req), Body(req) + rest, dev) == TurnFor(env, req, rest, dev)
  {
    TopkBranch(env, req, rest, dev);
    ServeTopkMessage(env, req.header, req.query, req.cands, RequestHeader(req), rest, dev);
    assert [] + rest == rest;
  }

  lemma TopkDispatch(env: Scoring, h: Header, body: Bytes, dev: Bytes)
    requires h.magic == MAGIC && h.first == OP_COMPUTE_TOPK
    ensures Dispatch(env, h, body, dev) == ServeTopk(env, h, body, dev)
  {
  }

  lemma TopkBranch(env: Scoring, req: Request, rest: Bytes, dev: Bytes)
    requires req.Topk?
    ensures Dispatch(env, RequestHeader(req), Body(req) + rest, dev)
         == ServeTopk(env, RequestHeader(req),
                      PackTopkHeader(req.header) + (req.query + (PackAll(PackCandidate, req.cands) + rest)), dev)
  {
    FourParts(PackTopkHeader(req.header), req.query, PackAll(PackCandidate, req.cands), rest);
    TopkDispatch(env, RequestHeader(req), Body(req) + rest, dev);
  }

  /**
   The daemon reads the request, replies, and leaves what comes after it, as long as it stays within
   its buffers.
   */
  lemma Serves(env: Scoring, req: Request, rest: Bytes, dev: Bytes)
    requires Sendable(req) && (req.Topk? ==> |req.query| == QueryBytes(req.header))
    ensures Serve(env, Encode(req) + rest, dev) == TurnFor(env, req, rest, dev)
  {
    RequestArrives(env, req, rest, dev);
    match req
    case Ping => ServesEmpty(env, req, rest, dev);
    case Flush => ServesEmpty(env, req, rest, dev);
    case Write(_, _) => ServesWrite(env, req, rest, dev);
    case Read(_, _) => ServesRead(env, req, rest, dev);
    case Batch(_) => ServesBatch(env, req, rest, dev);
    case Topk(_, _, _, _) => ServesTopk(env, req, rest, dev);
  }

  // ------------------------------------------------------------------ one reply

  lemma ItemReplyArrives(dev: Bytes, i: Item, more: Bytes)
    requires ItemFits(i)
    ensures var s, full := ItemReply(dev, i) + more, Full(dev, i.offset, i.length);
      && |s| >= ITEM_HEAD_SIZE
      && UnpackItemHead(s[..ITEM_HEAD_SIZE]) == ItemHead(if full then 0 else 1, i.id, i.length)
      && s[ITEM_HEAD_SIZE..] == (if full then PRead(dev, i.offset, i.length).value else []) + more
  {
    var full := Full(dev, i.offset, i.length);
    var head := ItemHead(if full then 0 else 1, i.id, i.length);
    var data := if full then PRead(dev, i.offset, i.length).value else [];
    assert full ==> ItemReply(dev, i) == PackItemHead(head) + data;
    assert !full ==> ItemReply(dev, i) == PackItemHead(head) + [];
    HeadOfStream(PackItemHead(head), data, more);
    ItemHeadRoundTrip(head);
  }

  /** The client collects the items up to the first failed one; the replies to the others stay unread. */
  function UnreadReplies(dev: Bytes, items: seq<Item>): Bytes {
    if items == [] then []
    else if !Full(dev, items[0].offset, items[0].length) then ItemReplies(dev, items[1..])
    else UnreadReplies(dev, items[1..])
  }

  lemma {:induction false} ReceivesItems(dev: Bytes, items: seq<Item>, got: map<nat, Bytes>, more: Bytes)
    requires forall i :: i in items ==> ItemFits(i)
    ensures ReceiveItems(ItemReplies(dev, items) + more, |items|, got)
         == Received(DirectBatch(dev, items, got), UnreadReplies(dev, items) + more)
  {
    if items == [] {
      assert [] + more == more;
    } else {
      var i, rest := items[0], ItemReplies(dev, items[1..]) + more;
      assert i in items;
      Regroup(ItemReply(dev, i), ItemReplies(dev, items[1..]), more);
      ItemReplyArrives(dev, i, rest);
      if Full(dev, i.offset, i.length) {
        var data := PRead(dev, i.offset, i.length).value;
        Parts(data, rest);
        ReceivesItems(dev, items[1..], got[i.id := data], more);
      } else {
        assert [] + rest == rest;
      }
    }
  }

  lemma {:induction false} UnreadRepliesIff(dev: Bytes, items: seq<Item>)
    ensures UnreadReplies(dev, items) == [] <==> forall i :: 0 <= i < |items| - 1 ==>
        Full(dev, items[i].offset, items[i].length)
  {
    if |items| > 1 {
      UnreadRepliesIff(dev, items[1..]);
      assert |ItemReplies(dev, items[1..])| >= |ItemReply(dev, items[1])| >= ITEM_HEAD_SIZE;
      if forall i :: 0 <= i < |items[1..]| - 1 ==> Full(dev, items[1..][i].offset, items[1..][i].length) {
        forall i | 1 <= i < |items| - 1 ensures Full(dev, items[i].offset, items[i].length) {
          assert items[i] == items[1..][i-1];
        }
      } else {
        var i :| 0 <= i < |items[1..]| - 1 && !Full(dev, items[1..][i].offset, items[1..][i].length);
        assert items[i + 1] == items[1..][i];
      }
    }
  }

  lemma {:induction false} ScoredFit(env: Scoring, fp16: bool, h: TopkHeader, query: Bytes, dev: Bytes,
                                     cands: seq<Candidate>)
    requires forall c :: c in cands ==> CandidateFits(c)
    ensures forall e :: e in Scored(env, fp16, h, query, dev, cands) ==> TopItemFits(e.payload)
  {
    if cands != [] {
      ScoredFit(env, fp16, h, query, dev, cands[..|cands|-1]);
      assert CandidateFits(cands[|cands|-1]);
    }
  }

  predicate EntriesFit(w: seq<R.Entry<TopItem>>) {
    forall e :: e in w ==> TopItemFits(e.payload)
  }

  lemma {:induction false} PlaceFits(w: seq<R.Entry<TopItem>>, e: R.Entry<TopItem>)
    requires EntriesFit(w) && TopItemFits(e.payload)
    ensures EntriesFit(R.Place(w, e))
  {
    if w != [] { PlaceFits(w[..|w|-1], e); }
  }

  lemma {:induction false} OfferedFit(items: seq<R.Entry<TopItem>>, n: nat, k: nat, blank: R.Entry<TopItem>)
    requires n <= |items| && EntriesFit(items) && TopItemFits(blank.payload)
    ensures EntriesFit(R.Offered(items, n, k, blank))
  {
    if n > 0 {
      OfferedFit(items, n - 1, k, blank);
      var w := R.Offered(items, n - 1, k, blank);
      if k > 0 { PlaceFits(w[..k-1], items[n-1]); }
    }
  }

  lemma TopItemsFit(env: Scoring, flags: nat, h: TopkHeader, query: Bytes, dev: Bytes, cands: seq<Candidate>)
    requires forall c :: c in cands ==> CandidateFits(c)
    ensures forall t :: t in TopItems(env, flags, h, query, dev, cands) ==> TopItemFits(t)
  {
    var items := Scored(env, IsFp16(flags, h, cands), h, query, dev, cands);
    ScoredFit(env, IsFp16(flags, h, cands), h, query, dev, cands);
    OfferedFit(items, |items|, Min(h.topK, h.candidates), Blank(env));
  }

  lemma ReceivesTop(env: Scoring, h: Header, th: TopkHeader, query: Bytes, dev: Bytes, cands: seq<Candidate>,
                    flags: nat, more: Bytes)
    requires forall c :: c in cands ==> CandidateFits(c)
    requires h.length == |TopItems(env, flags, th, query, dev, cands)|
    ensures var top := TopItems(env, flags, th, query, dev, cands);
      ReceiveTop(h, PackAll(PackTopItem, top) + more) == Received(Top(top), more)
  {
    var top := TopItems(env, flags, th, query, dev, cands);
    TopItemsFit(env, flags, th, query, dev, cands);
    forall t | t in top ensures |PackTopItem(t)| == TOP_ITEM_SIZE && UnpackTopItem(PackTopItem(t)) == t {
      TopItemRoundTrip(t);
    }
    AllRoundTrip(PackTopItem, UnpackTopItem, TOP_ITEM_SIZE, top, more);
  }

  /** The bytes of a reply that the client leaves unread. */
  function Unclaimed(req: Request, dev: Bytes): Bytes {
    if req.Batch? then UnreadReplies(dev, req.items) else []
  }

  /** The client reads the reply: the outcome is that of acting on the byte array directly. */
  lemma Receives(env: Scoring, req: Request, more: Bytes, dev: Bytes)
    requires Sendable(req) && Defined(req, dev)
    ensures Receive(req, Reply(env, req, dev) + more)
         == Received(if Unread(req) == [] then Direct(env, req, dev) else Failed, Unclaimed(req, dev) + more)
  {
    match req
    case Ping => ResponseArrives(RequestHeader(req), 0, 0, more);
    case Flush => ResponseArrives(RequestHeader(req), 0, 0, more);
    case Write(_, _) => ReceivesCount(env, req, more, dev);
    case Read(offset, length) => ReceivesData(RequestHeader(req), offset, length, dev, more, env);
    case Batch(_) => ReceivesBatch(env, req, more, dev);
    case Topk(_, _, _, _) => ReceivesTopk(env, req, more, dev);
  }

  lemma ReceivesCount(env: Scoring, req: Request, more: Bytes, dev: Bytes)
    requires Sendable(req) && req.Write?
    ensures Receive(req, Reply(env, req, dev) + more)
         == Received(if Unread(req) == [] then Direct(env, req, dev) else Failed, more)
  {
    var h, n := RequestHeader(req), Writable(dev, req.offset, |req.data|);
    ResponseArrives(h, 1, 0, more);
    if n > 0 { ResponseArrives(h, 1, n, more); }
    if n >= 0 { ResponseArrives(h, 0, n, more); }
  }

  lemma ReceivesBatch(env: Scoring, req: Request, more: Bytes, dev: Bytes)
    requires Sendable(req) && req.Batch?
    ensures Receive(req, Reply(env, req, dev) + more)
        == Received(Direct(env, req, dev), UnreadReplies(dev, req.items) + more)
  {
    var h, replies := RequestHeader(req), ItemReplies(dev, req.items);
    ReceivesItems(dev, req.items, map[], more);
    Regroup(Respond(h, 0, |req.items|), replies, more);
    ResponseArrives(h, 0, |req.items|, replies + more);
  }

  lemma ReceivesTopk(env: Scoring, req: Request, more: Bytes, dev: Bytes)
    requires Sendable(req) && req.Topk?
    ensures Receive(req, Reply(env, req, dev) + more) == Received(Direct(env, req, dev), more)
  {
    var h := RequestHeader(req);
    var top := TopItems(env, h.second, req.header, req.query, dev, req.cands);
    var packed := PackAll(PackTopItem, top);
    Regroup(Respond(h, 0, |top|), packed, more);
    ResponseArrives(h, 0, |top|, packed + more);
    ReceivesTop(env, Header(MAGIC, 0, h.first, 0, h.offset, |top|), req.header, req.query, dev, req.cands,
                h.second, more);
  }

  lemma ReceivesData(h: Header, offset: nat, length: nat, dev: Bytes, more: Bytes, env: Scoring)
    requires h == RequestHeader(Read(offset, length)) && Sendable(Read(offset, length))
    ensures Receive(Read(offset, length), Reply(env, Read(offset, length), dev) + more)
         == Received(Direct(env, Read(offset, length), dev), more)
  {
    var r := PRead(dev, offset, length);
    if length > BUFFER_SIZE || r.None? {
      ResponseArrives(h, 1, 0, more);
    } else {
      var data := r.value;
      Regroup(Respond(h, 0, |data|), data, more);
      ResponseArrives(h, 0, |data|, data + more);
      Parts(data, more);
    }
  }

  // ------------------------------------------------------------------ in frame

  /**
   One call: the daemon consumes exactly the request and the client exactly the reply, whatever
   follows either; the outcome and the device are those of one byte array accessed directly.
   */
  lemma CallIsDirect(env: Scoring, req: Request, dev: Bytes, rest: Bytes, more: Bytes)
    requires Sendable(req) && InFrame(req, dev)
    ensures Serve(env, Encode(req) + rest, dev) == Replied(rest, Reply(env, req, dev), After(req, dev))
    ensures Receive(req, Reply(env, req, dev) + more) == Received(Direct(env, req, dev), more)
  {
    Serves(env, req, rest, dev);
    Receives(env, req, more, dev);
    assert [] + rest == rest && [] + more == more;
    if req.Batch? { UnreadRepliesIff(dev, req.items); }
  }

  /** Both sides are left with nothing: the daemon has read the whole request and the client the whole reply. */
  predicate KeepsFrame(env: Scoring, req: Request, dev: Bytes) {
    var turn := Serve(env, Encode(req), dev);
    turn.Replied? && turn.rest == [] &&
    var receipt := Receive(req, turn.reply);
    receipt.Received? && receipt.rest == []
  }

  /** How many bytes the daemon reads after the header of a top-k request. */
  lemma ServeTopkReads(env: Scoring, h: Header, th: TopkHeader, tail: Bytes, dev: Bytes)
    requires TopkHeaderFits(th)
    ensures var turn := ServeTopk(env, h, PackTopkHeader(th) + tail, dev);
      turn.Replied? ==> |turn.rest| + QueryBytes(th) + Span(th.candidates, CANDIDATE_SIZE) == |tail|
  {
    TopkHeaderArrives(th, tail);
  }

  /** A query of another length than announced shifts everything behind it. */
  lemma QueryShifts(env: Scoring, req: Request, dev: Bytes)
    requires Sendable(req) && req.Topk? && |req.query| != QueryBytes(req.header)
    ensures var turn := Serve(env, Encode(req), dev); !turn.Replied? || turn.rest != []
  {
    TopkIsServed(env, req, dev);
    CandidatesArrive(req.cands, []);
    ServeTopkReads(env, RequestHeader(req), req.header, req.query + PackAll(PackCandidate, req.cands), dev);
  }

  lemma TopkIsServed(env: Scoring, req: Request, dev: Bytes)
    requires Sendable(req) && req.Topk?
    ensures Serve(env, Encode(req), dev)
         == ServeTopk(env, RequestHeader(req),
                      PackTopkHeader(req.header) + (req.query + PackAll(PackCandidate, req.cands)), dev)
  {
    TopkBody(req);
    ServeArrives(env, RequestHeader(req), Body(req), dev);
    TopkDispatch(env, RequestHeader(req), Body(req), dev);
  }

  lemma TopkBody(req: Request)
    requires req.Topk?
    ensures Body(req) == PackTopkHeader(req.header) + (req.query + PackAll(PackCandidate, req.cands))
  {
    Regroup(PackTopkHeader(req.header), req.query, PackAll(PackCandidate, req.cands));
  }

  /** The call leaves both streams empty exactly under `InFrame`. */
  lemma KeepsFrameIff(env: Scoring, req: Request, dev: Bytes)
    requires Sendable(req)
    ensures KeepsFrame(env, req, dev) <==> InFrame(req, dev)
  {
    assert Encode(req) + [] == Encode(req);
    assert Reply(env, req, dev) + [] == Reply(env, req, dev);
    if InFrame(req, dev) {
      CallIsDirect(env, req, dev, [], []);
    } else if req.Topk? && |req.query| != QueryBytes(req.header) {
      QueryShifts(env, req, dev);
    } else {
      Serves(env, req, [], dev);
      if Defined(req, dev) { Receives(env, req, [], dev); }
      if req.Batch? { UnreadRepliesIff(dev, req.items); }
    }
  }

  // ------------------------------------------------------------------ what the byte array gives back

  /** A read of what was just written returns it, and a read elsewhere returns what was there. */
  lemma WriteThenRead(env: Scoring, dev: Bytes, offset: nat, data: Bytes, at: nat, length: nat)
    requires offset + |data| <= |dev| < MAX_OFFSET && at + length <= |dev|
    requires |data| <= BUFFER_SIZE && length <= BUFFER_SIZE
    ensures Direct(env, Write(offset, data), dev) == Wrote(|data|)
    ensures Direct(env, Read(offset, |data|), After(Write(offset, data), dev)) == Data(data)
    ensures at + length <= offset || offset + |data| <= at ==>
      Direct(env, Read(at, length), After(Write(offset, data), dev)) == Direct(env, Read(at, length), dev)
  {
    Written(dev, offset, data);
    Overwritten(dev[..offset], data, dev[offset + |data|..]);
    if at + length <= offset || offset + |data| <= at { Elsewhere(dev, offset, data, at, length); }
  }

  lemma Written(dev: Bytes, offset: nat, data: Bytes)
    requires offset + |data| <= |dev| < MAX_OFFSET
    ensures PWrite(dev, offset, data) == dev[..offset] + data + dev[offset + |data|..]
    ensures Writable(dev, offset, |data|) == |data| || (data == [] && Writable(dev, offset, 0) == 0)
  {
    if data == [] { assert dev == dev[..offset] + [] + dev[offset..]; }
  }

  lemma Overwritten(a: Bytes, b: Bytes, c: Bytes)
    ensures (a + b + c)[|a|..|a| + |b|] == b
  {
  }

  lemma Elsewhere(dev: Bytes, offset: nat, data: Bytes, at: nat, length: nat)
    requires offset + |data| <= |dev| && at + length <= |dev| && (at + length <= offset || offset + |data| <= at)
    ensures (dev[..offset] + data + dev[offset + |data|..])[at..at + length] == dev[at..at + length]
  {
  }

  /**
   A top-k reply is the stable descending sort of the readable candidates, scored in half precision if the
   flags or the first page's length call for it; places that the unreadable ones leave over hold block id 0.
   */
  lemma TopIsSorted(env: Scoring, flags: nat, h: TopkHeader, query: Bytes, dev: Bytes, cands: seq<Candidate>,
                    half: bool, i: nat)
    requires half <==> flags == 1
                       || (cands != [] && cands[0].length == (16 * h.kvHeads * h.headDim * 2) % 0x1_0000_0000)
    requires i < Min(h.topK, h.candidates)
    requires R.AllExceed(Scored(env, half, h, query, dev, cands), Blank(env).score)
    ensures var items := Scored(env, half, h, query, dev, cands);
      TopItems(env, flags, h, query, dev, cands)[i]
      == if i < |items| then R.PythonSort(items)[i].payload else TopItem(0, BLANK_WORD, 0)
  {
    var items := Scored(env, half, h, query, dev, cands);
    R.BufferEntry(items, Min(h.topK, h.candidates), Blank(env), i);
  }
}

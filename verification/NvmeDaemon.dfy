/** The guest daemon: its request loop over a socket, a device and a static buffer. */
module NvmeDaemon {
  import opened Options
  import opened Arithmetic
  import opened Sequences
  import opened Wire
  import R = Ranking
  import opened NvmeProtocol
  import opened NvmeStreams

  /** A top-k entry as the ranking sees it. */
  function Ranked(env: Scoring, t: TopItem): R.Entry<TopItem>
    requires t.score < U32
  {
    R.Entry(t, env.float(t.score))
  }

  predicate WordsFit(top: seq<TopItem>) {
    forall i :: 0 <= i < |top| ==> top[i].score < U32
  }

  function RankedAll(env: Scoring, top: seq<TopItem>): (w: seq<R.Entry<TopItem>>)
    requires WordsFit(top)
    ensures |w| == |top|
  {
    seq(|top|, i requires 0 <= i < |top| => Ranked(env, top[i]))
  }

  lemma {:induction false} OfferedPrefix<P>(a: seq<R.Entry<P>>, b: seq<R.Entry<P>>, n: nat, k: nat, blank: R.Entry<P>)
    requires n <= |a| && n <= |b| && a[..n] == b[..n]
    ensures R.Offered(a, n, k, blank) == R.Offered(b, n, k, blank)
  {
    if n > 0 {
      assert a[n-1] == a[..n][n-1] == b[..n][n-1] == b[n-1];
      assert a[..n-1] == a[..n][..n-1] == b[..n][..n-1] == b[..n-1];
      OfferedPrefix(a, b, n - 1, k, blank);
    }
  }

  lemma OfferedNext<P>(items: seq<R.Entry<P>>, e: R.Entry<P>, k: nat, blank: R.Entry<P>)
    ensures R.Offered(items + [e], |items| + 1, k, blank) == R.Offer(R.Offered(items, |items|, k, blank), e)
  {
    OfferedPrefix(items + [e], items, |items|, k, blank);
  }

  /** One scored candidate into the array of the best: find the place from the tail, shift, store. */
  method OfferItem(env: Scoring, top: array<TopItem>, item: TopItem)
    requires item.score < U32 && WordsFit(top[..])
    modifies top
    ensures WordsFit(top[..])
    ensures RankedAll(env, top[..]) == R.Offer(RankedAll(env, old(top[..])), Ranked(env, item))
  {
    var k := top.Length;
    ghost var was := top[..];
    if k > 0 && env.float(item.score) > env.float(top[k-1].score) {
      var insertPos := FindPosition(env, top, item);
      ShiftIn(top, k, insertPos, item);
      InsertedItem(env, was, top[..], insertPos, item);
    } else {
      assert k == 0 || RankedAll(env, was)[k-1] == Ranked(env, was[k-1]);
    }
  }

  method FindPosition(env: Scoring, top: array<TopItem>, item: TopItem) returns (insertPos: nat)
    requires item.score < U32 && WordsFit(top[..])
    requires top.Length > 0 && env.float(item.score) > env.float(top[top.Length-1].score)
    ensures insertPos < top.Length && (insertPos > 0 ==> env.float(item.score) <= env.float(top[insertPos-1].score))
    ensures forall j :: insertPos <= j < top.Length ==> env.float(item.score) > env.float(top[j].score)
  {
    insertPos := top.Length - 1;
    while insertPos > 0 && env.float(item.score) > env.float(top[insertPos-1].score)
      invariant insertPos < top.Length
      invariant forall j :: insertPos <= j < top.Length ==> env.float(item.score) > env.float(top[j].score)
    {
      insertPos := insertPos - 1;
    }
  }

  lemma InsertedItem(env: Scoring, was: seq<TopItem>, now: seq<TopItem>, p: nat, item: TopItem)
    requires item.score < U32 && WordsFit(was)
    requires p < |was| == |now| && now[p] == item
    requires p > 0 ==> env.float(item.score) <= env.float(was[p-1].score)
    requires forall j :: p <= j < |was| ==> env.float(item.score) > env.float(was[j].score)
    requires forall i :: 0 <= i < p ==> now[i] == was[i]
    requires forall i :: p < i < |was| ==> now[i] == was[i-1]
    ensures WordsFit(now) && RankedAll(env, now) == R.Offer(RankedAll(env, was), Ranked(env, item))
  {
    R.OfferedInPlace(RankedAll(env, was), RankedAll(env, now), p, Ranked(env, item));
  }

  /** Everything the daemon sends on a connection, the device it leaves, and whether it stays within its buffers. */
  datatype Served = Served(reply: Bytes, dev: Bytes, defined: bool)

  lemma ServeShrinks(env: Scoring, s: Bytes, dev: Bytes)
    ensures var turn := Serve(env, s, dev); turn.Replied? ==> |turn.rest| < |s|
  {
  }

  /** The request loop on a whole stream. */
  function Connection(env: Scoring, s: Bytes, dev: Bytes): Served
    decreases |s|
  {
    ServeShrinks(env, s, dev);
    match Serve(env, s, dev)
    case Replied(rest, reply, d) =>
      var later := Connection(env, rest, d);
      Served(reply + later.reply, later.dev, later.defined)
    case Stopped(reply) => Served(reply, dev, true)
    case Undefined => Served([], dev, false)
    case _ => Served([], dev, true)
  }

  /** How a handler ends: with its reply sent, with the stream at its end, or about to leave its buffers. */
  datatype Handling = Handled | Ended | Astray

  /** A top-k request as the daemon reads it. */
  datatype TopkQuery = TopkQuery(header: TopkHeader, query: Bytes, cands: seq<Candidate>)

  function TopkSize(th: TopkHeader): nat {
    TOPK_HEADER_SIZE + QueryBytes(th) + Span(th.candidates, CANDIDATE_SIZE)
  }

  /** What a stream asks for, if it holds the whole request. */
  function TopkAsked(s: Bytes): (r: Option<TopkQuery>)
    ensures r.Some? ==> |s| >= TopkSize(r.value.header) && |r.value.cands| == r.value.header.candidates
  {
    if |s| < TOPK_HEADER_SIZE then None
    else
      var th := UnpackTopkHeader(s[..TOPK_HEADER_SIZE]);
      var afterHeader := s[TOPK_HEADER_SIZE..];
      if |afterHeader| < QueryBytes(th) then None
      else
        var afterQuery := afterHeader[QueryBytes(th)..];
        if |afterQuery| < Span(th.candidates, CANDIDATE_SIZE) then None
        else Some(TopkQuery(th, afterHeader[..QueryBytes(th)],
                            UnpackAll(UnpackCandidate, CANDIDATE_SIZE, th.candidates, afterQuery)))
  }

  class NvmeDaemon {
    const env: Scoring
    const device: array<Byte>
    const ioBuf: array<Byte>

    ghost predicate Valid() {
      ioBuf.Length == BUFFER_SIZE && ioBuf != device
    }

    constructor (env: Scoring, device: array<Byte>)
      ensures Valid() && this.env == env && this.device == device && fresh(ioBuf)
    {
      this.env, this.device := env, device;
      ioBuf := new Byte[BUFFER_SIZE];
    }

    /** `pread` into the buffer, which must hold what can be read; -1 when it fails. */
    method PReadInto(offset: nat, len: nat) returns (n: int)
      requires Valid()
      requires var r := PRead(device[..], offset, len); r.Some? ==> |r.value| <= BUFFER_SIZE
      modifies ioBuf
      ensures device[..] == old(device[..])
      ensures var r := PRead(device[..], offset, len);
        if r.None? then n == -1 else n == |r.value| && ioBuf[..n] == r.value
    {
      if offset + len >= MAX_OFFSET { return -1; }
      var from, to := Min(offset, device.Length), Min(offset + len, device.Length);
      n := to - from;
      forall i | 0 <= i < n {
        ioBuf[i] := device[from + i];
      }
      assert ioBuf[..n] == device[from..to];
    }

    /** `pwrite` of the first `len` cells of the buffer. */
    method PWriteFrom(offset: nat, len: nat) returns (n: int)
      requires Valid() && len <= BUFFER_SIZE
      modifies device
      ensures n == Writable(old(device[..]), offset, len)
      ensures device[..] == PWrite(old(device[..]), offset, old(ioBuf[..len]))
    {
      ghost var was, data := device[..], ioBuf[..len];
      n := Writable(device[..], offset, len);
      if n > 0 {
        forall i | 0 <= i < n {
          device[offset + i] := ioBuf[i];
        }
        assert device[..] == was[..offset] + data[..n] + was[offset + n..];
      }
    }

    method HandleWrite(sock: Socket, h: Header) returns (ok: bool)
      requires Valid()
      modifies sock, ioBuf, device
      ensures var turn := ServeWrite(h, old(sock.inbound), old(device[..]));
        && (ok <==> turn.Replied?)
        && (!ok ==> sock.outbound == old(sock.outbound) && device[..] == old(device[..]))
        && (ok ==>
            sock.inbound == turn.rest && sock.outbound == old(sock.outbound) + turn.reply && device[..] == turn.dev)
    {
      if h.length > BUFFER_SIZE {
        WriteAll(sock, Respond(h, 1, 0));
        return true;
      }
      ok := ReadAll(sock, ioBuf, h.length);
      if !ok { return false; }
      var pw := PWriteFrom(h.offset, h.length);
      if pw < 0 || pw != h.length {
        WriteAll(sock, Respond(h, 1, if pw > 0 then pw else 0));
      } else {
        WriteAll(sock, Respond(h, 0, pw));
      }
    }

    method HandleRead(sock: Socket, h: Header)
      requires Valid()
      modifies sock, ioBuf
      ensures var turn := ServeRead(h, old(sock.inbound), old(device[..]));
        && turn.Replied? && sock.inbound == turn.rest && sock.outbound == old(sock.outbound) + turn.reply
        && device[..] == old(device[..])
    {
      if h.length > BUFFER_SIZE {
        WriteAll(sock, Respond(h, 1, 0));
        return;
      }
      var pr := PReadInto(h.offset, h.length);
      if pr < 0 {
        WriteAll(sock, Respond(h, 1, 0));
      } else {
        WriteAll(sock, Respond(h, 0, pr));
        if pr > 0 { WriteAll(sock, ioBuf[..pr]); }
        assert sock.outbound == old(sock.outbound) + (Respond(h, 0, pr) + PRead(device[..], h.offset, h.length).value);
      }
    }

    /** A block of memory for `n` structures, filled from the socket. */
    method ReadBytes(sock: Socket, size: nat) returns (r: Option<Bytes>)
      modifies sock
      ensures sock.outbound == old(sock.outbound)
      ensures r.Some? <==> size <= |old(sock.inbound)|
      ensures r.Some? ==> r.value == old(sock.inbound)[..size] && sock.inbound == old(sock.inbound)[size..]
    {
      var buf := new Byte[size];
      var ok := ReadAll(sock, buf, size);
      r := if ok then Some(buf[..size]) else None;
    }

    /** `OP_BATCH_READ` */
    method HandleBatch(sock: Socket, h: Header) returns (r: Handling)
      requires Valid()
      modifies sock, ioBuf
      ensures var turn := ServeBatch(h, old(sock.inbound), old(device[..]));
        && (r.Handled? <==> turn.Replied?) && (r.Astray? <==> turn.Undefined?)
        && (r.Ended? ==> sock.outbound == old(sock.outbound))
        && (r.Handled? ==> sock.inbound == turn.rest && sock.outbound == old(sock.outbound) + turn.reply)
        && device[..] == old(device[..])
    {
      var size := Span(h.length, ITEM_SIZE);
      var buf := ReadBytes(sock, size);
      if buf == None { return Ended; }
      var items := UnpackAll(UnpackItem, ITEM_SIZE, h.length, buf.value);
      SameItems(h.length, old(sock.inbound), size);
      WriteAll(sock, Respond(h, 0, h.length));
      var ok := SendItems(sock, items);
      if !ok { return Astray; }
      Associates(old(sock.outbound), Respond(h, 0, h.length), ItemReplies(device[..], items));
      r := Handled;
    }

    /** The items of a batch in order, up to the first that does not fit the buffer. */
    method SendItems(sock: Socket, items: seq<Item>) returns (ok: bool)
      requires Valid()
      modifies sock, ioBuf
      ensures device[..] == old(device[..]) && sock.inbound == old(sock.inbound)
      ensures ok <==> NoOverrun(device[..], items)
      ensures ok ==> sock.outbound == old(sock.outbound) + ItemReplies(device[..], items)
    {
      ghost var dev, start := device[..], sock.outbound;
      for i := 0 to |items|
        invariant device[..] == dev && sock.inbound == old(sock.inbound)
        invariant forall j :: 0 <= j < i ==> !Overruns(dev, items[j])
        invariant sock.outbound + ItemReplies(dev, items[i..]) == start + ItemReplies(dev, items)
      {
        assert items[i..][0] == items[i] && items[i..][1..] == items[i+1..];
        ghost var sent := sock.outbound;
        if Overruns(device[..], items[i]) { return false; }
        SendItem(sock, items[i]);
        Associates(sent, ItemReply(dev, items[i]), ItemReplies(dev, items[i+1..]));
      }
      assert items[|items|..] == [];
      assert sock.outbound + [] == sock.outbound;
      ok := true;
    }

    lemma Associates(a: Bytes, b: Bytes, c: Bytes)
      ensures a + (b + c) == (a + b) + c
    {
    }

    lemma SameItems(n: nat, s: Bytes, size: nat)
      requires size == Span(n, ITEM_SIZE) <= |s|
      ensures UnpackAll(UnpackItem, ITEM_SIZE, n, s) == UnpackAll(UnpackItem, ITEM_SIZE, n, s[..size])
    {
      UnpackAllLocal(UnpackItem, ITEM_SIZE, n, s[..size], s[size..]);
      assert s[..size] + s[size..] == s;
    }

    /** One item of a batch: status, id, length, and the data if all of it was read. */
    method SendItem(sock: Socket, item: Item)
      requires Valid() && !Overruns(device[..], item)
      modifies sock, ioBuf
      ensures device[..] == old(device[..]) && sock.inbound == old(sock.inbound)
      ensures sock.outbound == old(sock.outbound) + ItemReply(device[..], item)
    {
      var pr := PReadInto(item.offset, item.length);
      var status := if pr == item.length then 0 else 1;
      WriteAll(sock, LE(status, 1));
      WriteAll(sock, LE(item.id, 4));
      WriteAll(sock, LE(item.length, 4));
      assert sock.outbound == old(sock.outbound) + PackItemHead(ItemHead(status, item.id, item.length));
      if status == 0 {
        WriteAll(sock, ioBuf[..item.length]);
        Associates(old(sock.outbound), PackItemHead(ItemHead(status, item.id, item.length)), ioBuf[..item.length]);
      }
    }

    /** `OP_COMPUTE_TOPK` */
    method HandleTopk(sock: Socket, h: Header) returns (r: Handling)
      requires Valid()
      modifies sock, ioBuf
      ensures var turn := ServeTopk(env, h, old(sock.inbound), old(device[..]));
        && (r.Handled? <==> turn.Replied?) && (r.Astray? <==> turn.Undefined?)
        && (r.Ended? ==> sock.outbound == old(sock.outbound))
        && (r.Handled? ==> sock.inbound == turn.rest && sock.outbound == old(sock.outbound) + turn.reply)
        && device[..] == old(device[..])
    {
      var asked := ReadTopk(sock);
      if asked == None { return Ended; }
      var th, query, cands := asked.value.header, asked.value.query, asked.value.cands;
      var answer := SelectTop(h.second, th, query, cands);
      if answer == None { return Astray; }
      var top := answer.value;
      WriteAll(sock, Respond(h, 0, |top|));
      if |top| > 0 {
        WriteAll(sock, PackAll(PackTopItem, top));
      }
      Associates(old(sock.outbound), Respond(h, 0, |top|), PackAll(PackTopItem, top));
      r := Handled;
    }

    /** The three reads of a top-k request: parameters, query, candidates. */
    method ReadTopk(sock: Socket) returns (r: Option<TopkQuery>)
      modifies sock
      ensures sock.outbound == old(sock.outbound)
      ensures r == TopkAsked(old(sock.inbound))
          && (r.Some? ==> sock.inbound == old(sock.inbound)[TopkSize(r.value.header)..])
    {
      ghost var body := sock.inbound;
      var head := ReadBytes(sock, TOPK_HEADER_SIZE);
      if head == None { return None; }
      var th := UnpackTopkHeader(head.value);
      var query := ReadBytes(sock, QueryBytes(th));
      if query == None { return None; }
      ghost var tail := sock.inbound;
      var size := Span(th.candidates, CANDIDATE_SIZE);
      var buf := ReadBytes(sock, size);
      if buf == None { return None; }
      SameCandidates(th.candidates, tail, size);
      r := Some(TopkQuery(th, query.value, UnpackAll(UnpackCandidate, CANDIDATE_SIZE, th.candidates, buf.value)));
      assert sock.inbound == body[TopkSize(th)..];
    }

    lemma SameCandidates(n: nat, s: Bytes, size: nat)
      requires size == Span(n, CANDIDATE_SIZE) <= |s|
      ensures UnpackAll(UnpackCandidate, CANDIDATE_SIZE, n, s)
          == UnpackAll(UnpackCandidate, CANDIDATE_SIZE, n, s[..size])
    {
      UnpackAllLocal(UnpackCandidate, CANDIDATE_SIZE, n, s[..size], s[size..]);
      assert s[..size] + s[size..] == s;
    }

    /** Scores the candidates one after the other and keeps the best in place; none if a score is not determined. */
    method SelectTop(flags: nat, th: TopkHeader, query: Bytes, cands: seq<Candidate>) returns (r: Option<seq<TopItem>>)
      requires Valid() && |cands| == th.candidates
      modifies ioBuf
      ensures device[..] == old(device[..])
      ensures r == if AllScorable(flags, th, device[..], cands)
          then Some(TopItems(env, flags, th, query, device[..], cands)) else None
    {
      var effectiveK := Min(th.topK, th.candidates);
      var topItems := new TopItem[effectiveK](_ => TopItem(0, BLANK_WORD, 0));
      var fp16 := IsFp16(flags, th, cands);
      ghost var dev := device[..];
      assert RankedAll(env, topItems[..]) == R.Blanks(effectiveK, Blank(env));
      for i := 0 to |cands|
        invariant device[..] == dev
        invariant forall j :: 0 <= j < i ==> CandidateOk(fp16, th, dev, cands[j])
        invariant Keeps(topItems[..], Scored(env, fp16, th, query, dev, cands[..i]))
      {
        assert cands[..i+1][..i] == cands[..i];
        if !CandidateOk(fp16, th, device[..], cands[i]) {
          assert !AllScorable(flags, th, dev, cands);
          return None;
        }
        ScoreCandidate(topItems, fp16, th, query, cands[i], Scored(env, fp16, th, query, dev, cands[..i]));
      }
      assert cands[..|cands|] == cands;
      r := Some(topItems[..]);
      PayloadsOfRanked(topItems[..]);
    }

    lemma PayloadsOfRanked(top: seq<TopItem>)
      requires WordsFit(top)
      ensures Payloads(RankedAll(env, top)) == top
    {
    }

    /** The array holds what the insertion buffer holds after these entries. */
    ghost predicate Keeps(top: seq<TopItem>, items: seq<R.Entry<TopItem>>) {
      WordsFit(top) && RankedAll(env, top) == R.Offered(items, |items|, |top|, Blank(env))
    }

    /** One candidate: its page is read and scored, unless it cannot be read in full. */
    method ScoreCandidate(topItems: array<TopItem>, fp16: bool, th: TopkHeader, query: Bytes, c: Candidate,
                          ghost items: seq<R.Entry<TopItem>>)
      requires Valid() && Keeps(topItems[..], items)
      modifies ioBuf, topItems
      ensures device[..] == old(device[..])
      ensures var page := Page(device[..], c);
        Keeps(topItems[..], items + if page.Some? then [Entry(env, fp16, th, query, c, page.value)] else [])
    {
      var itemLen := Min(c.length, BUFFER_SIZE);
      var pr := PReadInto(c.offset, itemLen);
      if pr == itemLen {
        var word := env.score(fp16, th, query, ioBuf[..itemLen], c.tokens);
        var item := TopItem(c.id, word, c.tokens);
        OfferItem(env, topItems, item);
        OfferedNext(items, Ranked(env, item), topItems.Length, Blank(env));
      } else {
        assert items + [] == items;
      }
    }

    /** One turn of the request loop: goes on after a reply, ends with the connection, or leaves its buffers. */
    method ServeRequest(sock: Socket) returns (r: Handling)
      requires Valid()
      modifies sock, ioBuf, device
      ensures match Serve(env, old(sock.inbound), old(device[..]))
        case Replied(rest, reply, dev) =>
          r == Handled && sock.inbound == rest && sock.outbound == old(sock.outbound) + reply && device[..] == dev
        case Stopped(reply) => r == Ended && sock.outbound == old(sock.outbound) + reply
            && device[..] == old(device[..])
        case Undefined => r == Astray && device[..] == old(device[..])
        case _ => r == Ended && sock.outbound == old(sock.outbound) && device[..] == old(device[..])
    {
      var head := ReadBytes(sock, HEADER_SIZE);
      if head == None { return Ended; }
      var h := UnpackHeader(head.value);
      if h.magic != MAGIC { return Ended; }
      r := Handled;
      if h.first == OP_PING {
        WriteAll(sock, Respond(h, 0, 0));
      } else if h.first == OP_WRITE {
        var ok := HandleWrite(sock, h);
        if !ok { r := Ended; }
      } else if h.first == OP_READ {
        HandleRead(sock, h);
      } else if h.first == OP_BATCH_READ {
        r := HandleBatch(sock, h);
      } else if h.first == OP_COMPUTE_TOPK {
        r := HandleTopk(sock, h);
      } else if h.first == OP_FLUSH {
        WriteAll(sock, Respond(h, 0, 0));
      } else if h.first == OP_SHUTDOWN {
        WriteAll(sock, Respond(h, 0, 0));
        r := Ended;
      }
    }

    /** The request loop of one connection, until the stream ends, the daemon gives up, or it leaves its buffers. */
    method ServeConnection(sock: Socket) returns (defined: bool)
      requires Valid()
      modifies sock, ioBuf, device
      ensures var c := Connection(env, old(sock.inbound), old(device[..]));
        && defined == c.defined && device[..] == c.dev
        && (defined ==> sock.outbound == old(sock.outbound) + c.reply)
    {
      ghost var whole, start := Connection(env, sock.inbound, device[..]), sock.outbound;
      var go := true;
      defined := true;
      while go
        invariant go ==> defined && Connection(env, sock.inbound, device[..]).defined == whole.defined
        invariant go ==> sock.outbound + Connection(env, sock.inbound, device[..]).reply == start + whole.reply
        invariant go ==> Connection(env, sock.inbound, device[..]).dev == whole.dev
        invariant !go ==> defined == whole.defined && device[..] == whole.dev
        invariant !go && defined ==> sock.outbound == start + whole.reply
        decreases go, |sock.inbound|
      {
        ghost var s, d, sent := sock.inbound, device[..], sock.outbound;
        if |s| >= HEADER_SIZE { ServeShrinks(env, s, d); }
        var r := ServeRequest(sock);
        go, defined := r == Handled, r != Astray;
        if go {
          Associates(sent, Serve(env, s, d).reply, Connection(env, sock.inbound, device[..]).reply);
        } else {
          assert sent + [] == sent;
        }
      }
    }
  }
}

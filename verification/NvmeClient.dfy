/** `QemuNvmeClient`: one method a request, each sending its message and reading the reply. */
module NvmeClient {
  import opened Options
  import opened Sums
  import opened Wire
  import opened NvmeProtocol
  import opened NvmeStreams

  /** How a call ends: with an outcome, with a reset connection, or because its fields do not pack. */
  datatype Result = Returned(outcome: Outcome) | Reset | Unpackable

  /** What the call returns if the peer sends `s`. */
  function ResultOf(req: Request, s: Bytes): Result {
    if !Sendable(req) then Unpackable
    else match Receive(req, s)
      case Waiting => Reset
      case Received(outcome, _) => Returned(outcome)
  }

  /** And what it leaves unread. */
  function LeftOver(req: Request, s: Bytes): Bytes {
    if !Sendable(req) then s
    else match Receive(req, s)
      case Waiting => []
      case Received(_, rest) => rest
  }

  /** And what it sends. */
  function Sent(req: Request): Bytes {
    if Sendable(req) then Encode(req) else []
  }

  class QemuNvmeClient {
    const sock: Socket
    var totalReadBytes: nat
    var totalWriteBytes: nat
    var readOps: nat
    var writeOps: nat

    constructor (sock: Socket)
      ensures this.sock == sock && totalReadBytes == totalWriteBytes == readOps == writeOps == 0
    {
      this.sock := sock;
      totalReadBytes, totalWriteBytes, readOps, writeOps := 0, 0, 0, 0;
    }

    /** Sends the header and body of a request and receives the header of its reply. */
    method Exchange(req: Request) returns (h: Option<Header>)
      requires Sendable(req)
      modifies sock
      ensures sock.outbound == old(sock.outbound) + Encode(req)
      ensures var s := old(sock.inbound);
        if |s| < HEADER_SIZE then h == None && sock.inbound == []
        else h == Some(UnpackHeader(s[..HEADER_SIZE])) && sock.inbound == s[HEADER_SIZE..]
    {
      WriteAll(sock, Encode(req));
      var resp := RecvExact(sock, HEADER_SIZE);
      h := if resp.Some? then Some(UnpackHeader(resp.value)) else None;
    }

    /** `is_alive`, on a connected client: a reset connection counts as not alive. */
    method IsAlive() returns (alive: bool)
      modifies sock
      ensures alive <==> ResultOf(Ping, old(sock.inbound)) == Returned(Alive(true))
      ensures sock.inbound == LeftOver(Ping, old(sock.inbound)) && sock.outbound == old(sock.outbound) + Sent(Ping)
    {
      var h := Exchange(Ping);
      alive := h.Some? && Good(h.value);
    }

    /** `flush`, on a connected client. */
    method Flush() returns (r: Result)
      modifies sock
      ensures r == ResultOf(Request.Flush, old(sock.inbound))
      ensures sock.inbound == LeftOver(Request.Flush, old(sock.inbound))
      ensures sock.outbound == old(sock.outbound) + Sent(Request.Flush)
    {
      var h := Exchange(Request.Flush);
      r := if h == None then Reset else Returned(Flushed);
    }

    /** `write`: counts what the reply says was written. */
    method Write(offset: nat, data: Bytes) returns (r: Result)
      modifies this, sock
      ensures r == ResultOf(Request.Write(offset, data), old(sock.inbound))
      ensures sock.inbound == LeftOver(Request.Write(offset, data), old(sock.inbound))
      ensures sock.outbound == old(sock.outbound) + Sent(Request.Write(offset, data))
      ensures var wrote := r.Returned? && r.outcome.Wrote?;
        && writeOps == old(writeOps) + (if wrote then 1 else 0)
        && totalWriteBytes == old(totalWriteBytes) + (if wrote then r.outcome.count else 0)
      ensures readOps == old(readOps) && totalReadBytes == old(totalReadBytes)
    {
      var req := Request.Write(offset, data);
      if !Sendable(req) { return Unpackable; }
      var h := Exchange(req);
      if h == None { return Reset; }
      if !Good(h.value) { return Returned(Failed); }
      writeOps := writeOps + 1;
      totalWriteBytes := totalWriteBytes + h.value.length;
      r := Returned(Wrote(h.value.length));
    }

    /** `read`: counts the bytes received. */
    method Read(offset: nat, length: nat) returns (r: Result)
      modifies this, sock
      ensures r == ResultOf(Request.Read(offset, length), old(sock.inbound))
      ensures sock.inbound == LeftOver(Request.Read(offset, length), old(sock.inbound))
      ensures sock.outbound == old(sock.outbound) + Sent(Request.Read(offset, length))
      ensures var got := r.Returned? && r.outcome.Data?;
        && readOps == old(readOps) + (if got then 1 else 0)
        && totalReadBytes == old(totalReadBytes) + (if got then |r.outcome.bytes| else 0)
      ensures writeOps == old(writeOps) && totalWriteBytes == old(totalWriteBytes)
    {
      var req := Request.Read(offset, length);
      if !Sendable(req) { return Unpackable; }
      var h := Exchange(req);
      if h == None { return Reset; }
      if !Good(h.value) { return Returned(Failed); }
      var data := RecvExact(sock, h.value.length);
      if data == None { return Reset; }
      readOps := readOps + 1;
      totalReadBytes := totalReadBytes + h.value.length;
      r := Returned(Data(data.value));
    }

    /** The reply items of a batch, one by one, up to the first that failed. */
    method ReceiveBlocks(n: nat) returns (r: Result)
      modifies sock
      ensures sock.outbound == old(sock.outbound)
      ensures match ReceiveItems(old(sock.inbound), n, map[])
        case Waiting => r == Reset && sock.inbound == []
        case Received(outcome, rest) => r == Returned(outcome) && sock.inbound == rest
    {
      ghost var s := sock.inbound;
      var results: map<nat, Bytes> := map[];
      for i := 0 to n
        invariant sock.outbound == old(sock.outbound)
        invariant ReceiveItems(s, n, map[]) == ReceiveItems(sock.inbound, n - i, results)
      {
        var head := RecvExact(sock, ITEM_HEAD_SIZE);
        if head == None { return Reset; }
        var h := UnpackItemHead(head.value);
        if h.status != 0 { return Returned(Failed); }
        var data := RecvExact(sock, h.length);
        if data == None { return Reset; }
        results := results[h.id := data.value];
      }
      r := Returned(Blocks(results));
    }

    /** `read_batch`: sends nothing for an empty list; counts what was asked for. */
    method ReadBatch(items: seq<Item>) returns (r: Result)
      modifies this, sock
      ensures items == [] ==>
          r == Returned(Blocks(map[])) && sock.inbound == old(sock.inbound) && sock.outbound == old(sock.outbound)
      ensures items != [] ==>
        && r == ResultOf(Batch(items), old(sock.inbound))
        && sock.inbound == LeftOver(Batch(items), old(sock.inbound))
        && sock.outbound == old(sock.outbound) + Sent(Batch(items))
      ensures var got := items != [] && r.Returned? && r.outcome.Blocks?;
        && readOps == old(readOps) + (if got then |items| else 0)
        && totalReadBytes == old(totalReadBytes) + (if got then TotalLength(items) else 0)
      ensures writeOps == old(writeOps) && totalWriteBytes == old(totalWriteBytes)
    {
      if items == [] { return Returned(Blocks(map[])); }
      var req := Batch(items);
      if !Sendable(req) { return Unpackable; }
      var h := Exchange(req);
      if h == None { return Reset; }
      if !Good(h.value) { return Returned(Failed); }
      r := ReceiveBlocks(h.value.length);
      if r.Returned? && r.outcome.Blocks? {
        readOps := readOps + |items|;
        totalReadBytes := totalReadBytes + TotalLength(items);
      }
    }

    /** `compute_topk`: sends nothing for no candidates; counts the candidates and their bytes. */
    method ComputeTopk(fp16: bool, header: TopkHeader, query: Bytes, cands: seq<Candidate>) returns (r: Result)
      modifies this, sock
      ensures cands == [] ==>
          r == Returned(Top([])) && sock.inbound == old(sock.inbound) && sock.outbound == old(sock.outbound)
      ensures cands != [] ==>
        var req := Topk(fp16, header, query, cands);
        && r == ResultOf(req, old(sock.inbound))
        && sock.inbound == LeftOver(req, old(sock.inbound))
        && sock.outbound == old(sock.outbound) + Sent(req)
      ensures var got := cands != [] && r.Returned? && r.outcome.Top?;
        && readOps == old(readOps) + (if got then |cands| else 0)
        && totalReadBytes == old(totalReadBytes) + (if got then TotalPages(cands) else 0)
      ensures writeOps == old(writeOps) && totalWriteBytes == old(totalWriteBytes)
    {
      if cands == [] { return Returned(Top([])); }
      var req := Topk(fp16, header, query, cands);
      if !Sendable(req) { return Unpackable; }
      var h := Exchange(req);
      if h == None { return Reset; }
      if !Good(h.value) { return Returned(Failed); }
      r := ReceiveTopItems(h.value);
      if r.Returned? {
        readOps := readOps + |cands|;
        totalReadBytes := totalReadBytes + TotalPages(cands);
      }
    }

    /** The entries of a top-k reply, in one piece. */
    method ReceiveTopItems(h: Header) returns (r: Result)
      modifies sock
      ensures sock.outbound == old(sock.outbound)
      ensures match ReceiveTop(h, old(sock.inbound))
        case Waiting => r == Reset && sock.inbound == []
        case Received(outcome, rest) => outcome.Top? && r == Returned(outcome) && sock.inbound == rest
    {
      ghost var body := sock.inbound;
      var bytes := RecvExact(sock, Span(h.length, TOP_ITEM_SIZE));
      if bytes == None { return Reset; }
      var items := UnpackAll(UnpackTopItem, TOP_ITEM_SIZE, h.length, bytes.value);
      UnpackAllLocal(UnpackTopItem, TOP_ITEM_SIZE, h.length, bytes.value, sock.inbound);
      assert bytes.value + sock.inbound == body;
      r := Returned(Top(items));
    }
  }

  function TotalPages(cands: seq<Candidate>): nat {
    NatSum(seq(|cands|, i requires 0 <= i < |cands| => cands[i].length))
  }

  function TotalLength(items: seq<Item>): nat {
    NatSum(seq(|items|, i requires 0 <= i < |items| => items[i].length))
  }
}

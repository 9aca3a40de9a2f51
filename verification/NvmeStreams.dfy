/** The loops that move whole messages over a byte stream whose chunks are arbitrary. */
module NvmeStreams {
  import opened Options
  import opened Wire

  /** One end of a connection.  How many bytes a call moves is not determined. */
  class Socket {
    var inbound: Bytes      // what the peer has sent or will send, not yet received
    var outbound: Bytes     // what has been sent

    constructor (inbound: Bytes)
      ensures this.inbound == inbound && outbound == []
    {
      this.inbound, outbound := inbound, [];
    }

    /** `recv`: a nonempty chunk of at most `max` bytes; empty once the peer has closed. */
    method Recv(max: nat) returns (chunk: Bytes)
      requires max > 0
      modifies this
      ensures outbound == old(outbound)
      ensures |chunk| <= max && old(inbound) == chunk + inbound
      ensures chunk == [] ==> old(inbound) == []
    {
      if inbound == [] { return []; }
      var n: nat :| 1 <= n <= |inbound| && n <= max;
      chunk := inbound[..n];
      inbound := inbound[n..];
    }

    /** `send`: some of the bytes, at least one. */
    method Send(data: Bytes) returns (n: nat)
      requires data != []
      modifies this
      ensures 1 <= n <= |data| && inbound == old(inbound) && outbound == old(outbound) + data[..n]
    {
      n :| 1 <= n <= |data|;
      outbound := outbound + data[..n];
    }
  }

  /** The client's `_recv_exact`: exactly `n` bytes, or a connection reset if the stream ends before. */
  method RecvExact(sock: Socket, n: nat) returns (r: Option<Bytes>)
    modifies sock
    ensures sock.outbound == old(sock.outbound)
    ensures r == if n <= |old(sock.inbound)| then Some(old(sock.inbound)[..n]) else None
    ensures sock.inbound == if n <= |old(sock.inbound)| then old(sock.inbound)[n..] else []
  {
    var data := [];
    while |data| < n
      invariant |data| <= n
      invariant sock.outbound == old(sock.outbound)
      invariant old(sock.inbound) == data + sock.inbound
    {
      var chunk := sock.Recv(n - |data|);
      if chunk == [] { return None; }
      data := data + chunk;
    }
    r := Some(data);
  }

  /** The daemon's `read_all`: fills the first `len` cells of the buffer, or fails if the stream ends before. */
  method ReadAll(sock: Socket, buf: array<Byte>, len: nat) returns (ok: bool)
    requires len <= buf.Length
    modifies sock, buf
    ensures sock.outbound == old(sock.outbound)
    ensures ok <==> len <= |old(sock.inbound)|
    ensures ok ==> buf[..len] == old(sock.inbound)[..len] && sock.inbound == old(sock.inbound)[len..]
  {
    var total := 0;
    while total < len
      invariant 0 <= total <= len
      invariant sock.outbound == old(sock.outbound)
      invariant old(sock.inbound) == buf[..total] + sock.inbound
    {
      var chunk := sock.Recv(len - total);
      if chunk == [] { return false; }
      ghost var before := buf[..total];
      forall i | 0 <= i < |chunk| {
        buf[total + i] := chunk[i];
      }
      assert buf[..total + |chunk|] == before + chunk;
      total := total + |chunk|;
    }
    ok := true;
  }

  /** The daemon's `write_all`, and the client's `sendall`. */
  method WriteAll(sock: Socket, data: Bytes)
    modifies sock
    ensures sock.inbound == old(sock.inbound) && sock.outbound == old(sock.outbound) + data
  {
    var total := 0;
    while total < |data|
      invariant 0 <= total <= |data|
      invariant sock.inbound == old(sock.inbound) && sock.outbound == old(sock.outbound) + data[..total]
    {
      var n := sock.Send(data[total..]);
      assert data[..total] + data[total..][..n] == data[..total + n];
      total := total + n;
    }
    assert data[..total] == data;
  }
}

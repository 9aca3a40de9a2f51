/** What the daemon's loop does with a whole session: with all the requests of a run, one behind the other. */
module NvmeSessions {
  import opened Wire
  import opened NvmeProtocol
  import opened NvmeFraming
  import opened NvmeRuns
  import opened NvmeDaemon

  /** Every call keeps in frame on the device that the earlier ones left. */
  predicate InFrameAll(calls: seq<Request>, dev: Bytes) {
    forall i :: 0 <= i < |calls| ==> InFrameAt(calls, dev, i)
  }

  predicate InFrameAt(calls: seq<Request>, dev: Bytes, i: nat)
    requires i < |calls|
  {
    Sendable(calls[i]) && InFrame(calls[i], DirectDevice(calls[..i], dev))
  }

  function EncodeAll(calls: seq<Request>): Bytes {
    if calls == [] then [] else Encode(calls[0]) + EncodeAll(calls[1..])
  }

  function ReplyAll(env: Scoring, calls: seq<Request>, dev: Bytes): Bytes {
    if calls == [] then [] else Reply(env, calls[0], dev) + ReplyAll(env, calls[1..], After(calls[0], dev))
  }

  lemma {:induction false} DeviceFromHead(calls: seq<Request>, dev: Bytes)
    requires calls != []
    ensures DirectDevice(calls, dev) == DirectDevice(calls[1..], After(calls[0], dev))
  {
    var n := |calls| - 1;
    if n == 0 {
      assert calls[..0] == [] && calls[1..] == [];
    } else {
      DeviceFromHead(calls[..n], dev);
      assert calls[..n][1..] == calls[1..][..n-1];
      assert calls[1..][n-1] == calls[n];
    }
  }

  lemma RestInFrame(calls: seq<Request>, dev: Bytes)
    requires calls != [] && InFrameAll(calls, dev)
    ensures Sendable(calls[0]) && InFrame(calls[0], dev)
    ensures InFrameAll(calls[1..], After(calls[0], dev))
  {
    assert InFrameAt(calls, dev, 0) && calls[..0] == [];
    forall i | 0 <= i < |calls[1..]| ensures InFrameAt(calls[1..], After(calls[0], dev), i) {
      assert InFrameAt(calls, dev, i + 1);
      DeviceFromHead(calls[..i+1], dev);
      assert calls[..i+1][1..] == calls[1..][..i];
    }
  }

  /**
   On the requests of a session that keeps in frame the daemon stays within its buffers, sends exactly
   the replies and leaves the device of one byte array accessed directly.
   */
  lemma {:induction false} SessionIsDirect(env: Scoring, calls: seq<Request>, dev: Bytes)
    requires InFrameAll(calls, dev)
    ensures Connection(env, EncodeAll(calls), dev) == Served(ReplyAll(env, calls, dev), DirectDevice(calls, dev), true)
    decreases |calls|
  {
    if calls != [] {
      RestInFrame(calls, dev);
      CallIsDirect(env, calls[0], dev, EncodeAll(calls[1..]), []);
      SessionIsDirect(env, calls[1..], After(calls[0], dev));
      DeviceFromHead(calls, dev);
    }
  }

  lemma BegunInFrame(calls: seq<Request>, req: Request, dev: Bytes)
    requires InFrameAll(calls, dev) && Sendable(req) && InFrame(req, DirectDevice(calls, dev))
    ensures InFrameAll(calls + [req], dev)
  {
    var all := calls + [req];
    forall i | 0 <= i < |all| ensures InFrameAt(all, dev, i) {
      if i < |calls| {
        assert InFrameAt(calls, dev, i);
        assert all[..i] == calls[..i];
      } else {
        assert all[..i] == calls;
      }
    }
  }

  lemma {:induction false} CallsInFrame(env: Scoring, dev: Bytes, steps: seq<Step>)
    requires Possible(env, dev, steps)
    ensures InFrameAll(Run(env, dev, steps).calls, dev)
  {
    if steps != [] {
      var before, step := steps[..|steps|-1], steps[|steps|-1];
      CallsInFrame(env, dev, before);
      RunsLikeByteArray(env, dev, before);
      if step.Begin? { BegunInFrame(Run(env, dev, before).calls, step.req, dev); }
    }
  }

  /** The calls of every possible run are a session on which the daemon's loop stays within its buffers. */
  lemma RunIsSession(env: Scoring, dev: Bytes, steps: seq<Step>)
    requires Possible(env, dev, steps)
    ensures var calls := Run(env, dev, steps).calls;
      Connection(env, EncodeAll(calls), dev) == Served(ReplyAll(env, calls, dev), DirectDevice(calls, dev), true)
  {
    CallsInFrame(env, dev, steps);
    SessionIsDirect(env, Run(env, dev, steps).calls, dev);
  }
}

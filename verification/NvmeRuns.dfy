/**
 Client and daemon as one state machine over byte queues: bytes move in chunks of any size, in any
 interleaving.  Every run of calls that keep in frame behaves like one byte array accessed
 directly, never gets stuck, and finishes every call.
 */
module NvmeRuns {
  import opened Options
  import opened Sequences
  import opened Wire
  import opened NvmeProtocol
  import opened NvmeFraming

  /** Both parties and the two streams between them. */
  datatype Net = Net(
    calls: seq<Request>,        // begun so far
    active: bool,               // the last of them is under way
    outcomes: seq<Outcome>,     // of the finished ones
    toSend: Bytes,              // the client's request, not yet on the wire
    uplink: Bytes,              // on the wire to the daemon
    inbox: Bytes,               // read by the daemon, not yet served
    dev: Bytes,                 // the device
    outbox: Bytes,              // the daemon's reply, not yet on the wire
    downlink: Bytes,            // on the wire to the client
    received: Bytes)            // read by the client

  datatype Step =
    | Begin(req: Request)
    | ClientSends(n: nat)
    | DaemonReads(n: nat)
    | DaemonServes
    | DaemonSends(n: nat)
    | ClientReads(n: nat)
    | Finish

  function Start(dev: Bytes): Net {
    Net([], false, [], [], [], [], dev, [], [], [])
  }

  /** Calls are begun one at a time, and only such as keep in frame. */
  predicate Enabled(env: Scoring, net: Net, step: Step) {
    match step
    case Begin(req) => !net.active && Sendable(req) && InFrame(req, net.dev)
    case ClientSends(n) => 0 < n <= |net.toSend|
    case DaemonReads(n) => 0 < n <= |net.uplink|
    case DaemonServes => Serve(env, net.inbox, net.dev).Replied?
    case DaemonSends(n) => 0 < n <= |net.outbox|
    case ClientReads(n) => 0 < n <= |net.downlink|
    case Finish => net.active && net.calls != [] && Receive(net.calls[|net.calls|-1], net.received).Received?
  }

  function Next(env: Scoring, net: Net, step: Step): Net
    requires Enabled(env, net, step)
  {
    match step
    case Begin(req) => net.(calls := net.calls + [req], active := true, toSend := net.toSend + Encode(req))
    case ClientSends(n) => net.(toSend := net.toSend[n..], uplink := net.uplink + net.toSend[..n])
    case DaemonReads(n) => net.(uplink := net.uplink[n..], inbox := net.inbox + net.uplink[..n])
    case DaemonServes =>
      var turn := Serve(env, net.inbox, net.dev);
      net.(inbox := turn.rest, outbox := net.outbox + turn.reply, dev := turn.dev)
    case DaemonSends(n) => net.(outbox := net.outbox[n..], downlink := net.downlink + net.outbox[..n])
    case ClientReads(n) => net.(downlink := net.downlink[n..], received := net.received + net.downlink[..n])
    case Finish =>
      var receipt := Receive(net.calls[|net.calls|-1], net.received);
      net.(active := false, outcomes := net.outcomes + [receipt.outcome], received := receipt.rest)
  }

  predicate Possible(env: Scoring, dev: Bytes, steps: seq<Step>)
    decreases |steps|, 0
  {
    steps == [] || (
      && Possible(env, dev, steps[..|steps|-1])
      && Enabled(env, Run(env, dev, steps[..|steps|-1]), steps[|steps|-1]))
  }

  function Run(env: Scoring, dev: Bytes, steps: seq<Step>): Net
    requires Possible(env, dev, steps)
    decreases |steps|, 1
  {
    if steps == [] then Start(dev)
    else Next(env, Run(env, dev, steps[..|steps|-1]), steps[|steps|-1])
  }

  // ------------------------------------------------------------------ the byte array accessed directly

  function DirectDevice(calls: seq<Request>, dev: Bytes): Bytes {
    if calls == [] then dev else After(calls[|calls|-1], DirectDevice(calls[..|calls|-1], dev))
  }

  function DirectOutcomes(env: Scoring, calls: seq<Request>, dev: Bytes): seq<Outcome> {
    if calls == [] then []
    else
      var earlier := calls[..|calls|-1];
      DirectOutcomes(env, earlier, dev) + [Direct(env, calls[|calls|-1], DirectDevice(earlier, dev))]
  }

  // ------------------------------------------------------------------ the invariant

  predicate Quiet(net: Net) {
    net.toSend == net.uplink == net.inbox == net.outbox == net.downlink == net.received == []
  }

  /** The request is on its way: the daemon has not served it. */
  predicate Outward(net: Net, req: Request, d: Bytes) {
    && net.inbox + net.uplink + net.toSend == Encode(req)
    && net.outbox == net.downlink == net.received == []
    && net.dev == d
  }

  /** The reply is on its way. */
  predicate Homeward(env: Scoring, net: Net, req: Request, d: Bytes) {
    && net.inbox == net.uplink == net.toSend == []
    && net.received + net.downlink + net.outbox == Reply(env, req, d)
    && net.dev == After(req, d)
  }

  predicate Idle(env: Scoring, net: Net, dev: Bytes) {
    && !net.active && Quiet(net)
    && net.outcomes == DirectOutcomes(env, net.calls, dev)
    && net.dev == DirectDevice(net.calls, dev)
  }

  predicate Busy(env: Scoring, net: Net, dev: Bytes) {
    && net.active && net.calls != []
    && var earlier, req := net.calls[..|net.calls|-1], net.calls[|net.calls|-1];
    && var d := DirectDevice(earlier, dev);
    && net.outcomes == DirectOutcomes(env, earlier, dev)
    && Sendable(req) && InFrame(req, d)
    && (Outward(net, req, d) || Homeward(env, net, req, d))
  }

  predicate Ok(env: Scoring, net: Net, dev: Bytes) {
    Idle(env, net, dev) || Busy(env, net, dev)
  }

  /** A daemon that would consume the message exactly cannot be served by less than all of it. */
  lemma ServedWhole(env: Scoring, part: Bytes, coming: Bytes, d: Bytes)
    requires Serve(env, part + coming, d).Replied? && Serve(env, part + coming, d).rest == []
    requires Serve(env, part, d).Replied?
    ensures coming == [] && Serve(env, part, d) == Serve(env, part + coming, d)
  {
    ServeLocal(env, part, coming, d);
    assert |coming| == 0;
    assert part + coming == part;
  }

  /** Nor can a client that would consume the reply exactly. */
  lemma ReceivedWhole(req: Request, part: Bytes, coming: Bytes)
    requires Receive(req, part + coming).Received? && Receive(req, part + coming).rest == []
    requires Receive(req, part).Received?
    ensures coming == [] && Receive(req, part) == Receive(req, part + coming)
  {
    ReceiveLocal(req, part, coming);
    assert |coming| == 0;
    assert part + coming == part;
  }

  /** The daemon can only serve once the whole request is in, and then leaves nothing. */
  lemma ServesWhole(env: Scoring, net: Net, req: Request, d: Bytes)
    requires Sendable(req) && InFrame(req, d) && Outward(net, req, d)
    requires Serve(env, net.inbox, d).Replied?
    ensures net.uplink == net.toSend == []
    ensures Serve(env, net.inbox, d) == Replied([], Reply(env, req, d), After(req, d))
  {
    var coming := net.uplink + net.toSend;
    Regroup(net.inbox, net.uplink, net.toSend);
    CallIsDirect(env, req, d, [], []);
    Trailing(Encode(req));
    ServedWhole(env, net.inbox, coming, d);
  }

  /** The client can only finish once the whole reply is in, and then leaves nothing. */
  lemma ReceivesWhole(env: Scoring, net: Net, req: Request, d: Bytes)
    requires Sendable(req) && InFrame(req, d) && Homeward(env, net, req, d)
    requires Receive(req, net.received).Received?
    ensures net.downlink == net.outbox == []
    ensures Receive(req, net.received) == Received(Direct(env, req, d), [])
  {
    var coming := net.downlink + net.outbox;
    Regroup(net.received, net.downlink, net.outbox);
    CallIsDirect(env, req, d, [], []);
    Trailing(Reply(env, req, d));
    ReceivedWhole(req, net.received, coming);
  }

  lemma Trailing(a: Bytes)
    ensures a + [] == a
  {
  }

  /** Moving `n` bytes from one queue to the next keeps what the queues hold together. */
  lemma Moved(a: Bytes, b: Bytes, c: Bytes, n: nat)
    ensures n <= |c| ==> a + (b + c[..n]) + c[n..] == a + b + c
    ensures n <= |b| ==> (a + b[..n]) + b[n..] + c == a + b + c
  {
    if n <= |c| { assert c[..n] + c[n..] == c; }
    if n <= |b| { assert b[..n] + b[n..] == b; }
  }

  /** Bytes move from one queue to the next. */
  predicate Moves(step: Step) {
    step.ClientSends? || step.DaemonReads? || step.DaemonSends? || step.ClientReads?
  }

  lemma MovesOutward(net: Net, step: Step, req: Request, d: Bytes, env: Scoring)
    requires Outward(net, req, d) && Enabled(env, net, step)
    requires Moves(step)
    ensures Outward(Next(env, net, step), req, d)
  {
    Moved(net.inbox, net.uplink, net.toSend, step.n);
  }

  lemma MovesHomeward(net: Net, step: Step, req: Request, d: Bytes, env: Scoring)
    requires Homeward(env, net, req, d) && Enabled(env, net, step)
    requires Moves(step)
    ensures Homeward(env, Next(env, net, step), req, d)
  {
    Moved(net.received, net.downlink, net.outbox, step.n);
  }

  /** While the request or the reply is on its way, moving bytes keeps it whole. */
  lemma MovesOk(env: Scoring, net: Net, step: Step, dev: Bytes)
    requires Busy(env, net, dev) && Enabled(env, net, step)
    requires Moves(step)
    ensures Busy(env, Next(env, net, step), dev)
  {
    var req, d := net.calls[|net.calls|-1], DirectDevice(net.calls[..|net.calls|-1], dev);
    if Outward(net, req, d) { MovesOutward(net, step, req, d, env); } else { MovesHomeward(net, step, req, d, env); }
  }

  lemma StepOk(env: Scoring, net: Net, step: Step, dev: Bytes)
    requires Ok(env, net, dev) && Enabled(env, net, step)
    ensures Ok(env, Next(env, net, step), dev)
  {
    match step
    case Begin(req) => BeginOk(env, net, req, dev);
    case DaemonServes => ServesOk(env, net, dev);
    case Finish => FinishOk(env, net, dev);
    case _ => MovesOk(env, net, step, dev);
  }

  lemma BeginOk(env: Scoring, net: Net, req: Request, dev: Bytes)
    requires Ok(env, net, dev) && Enabled(env, net, Begin(req))
    ensures Ok(env, Next(env, net, Begin(req)), dev)
  {
    var next := Next(env, net, Begin(req));
    assert next.calls[..|next.calls|-1] == net.calls;
    assert [] + Encode(req) == Encode(req) && [] + [] + Encode(req) == Encode(req);
    assert Outward(next, req, net.dev);
  }

  lemma ServesOk(env: Scoring, net: Net, dev: Bytes)
    requires Ok(env, net, dev) && Enabled(env, net, DaemonServes)
    ensures Ok(env, Next(env, net, DaemonServes), dev)
  {
    if Busy(env, net, dev) {
      var req, d := net.calls[|net.calls|-1], DirectDevice(net.calls[..|net.calls|-1], dev);
      if Outward(net, req, d) {
        ServesWhole(env, net, req, d);
        Leading(Reply(env, req, d));
        assert Homeward(env, Next(env, net, DaemonServes), req, d);
      }
    }
  }

  lemma FinishOk(env: Scoring, net: Net, dev: Bytes)
    requires Ok(env, net, dev) && Enabled(env, net, Finish)
    ensures Ok(env, Next(env, net, Finish), dev)
  {
    var req, d := net.calls[|net.calls|-1], DirectDevice(net.calls[..|net.calls|-1], dev);
    NothingReceived(req);
    Finished(env, net, req, d);
    IdleAgain(env, net, Next(env, net, Finish), dev);
  }

  lemma NothingReceived(req: Request)
    ensures Receive(req, []).Waiting?
  {
  }

  lemma IdleAgain(env: Scoring, net: Net, next: Net, dev: Bytes)
    requires net.calls != [] && next.calls == net.calls && !next.active && Quiet(next)
    requires var earlier, req := net.calls[..|net.calls|-1], net.calls[|net.calls|-1];
      var d := DirectDevice(earlier, dev);
      && net.outcomes == DirectOutcomes(env, earlier, dev)
      && next.outcomes == net.outcomes + [Direct(env, req, d)] && next.dev == After(req, d)
    ensures Idle(env, next, dev)
  {
  }

  lemma Finished(env: Scoring, net: Net, req: Request, d: Bytes)
    requires Sendable(req) && InFrame(req, d) && Homeward(env, net, req, d)
    requires Enabled(env, net, Finish) && net.calls[|net.calls|-1] == req
    ensures var next := Next(env, net, Finish);
      && !next.active && Quiet(next) && next.calls == net.calls && next.dev == After(req, d)
      && next.outcomes == net.outcomes + [Direct(env, req, d)]
  {
    ReceivesWhole(env, net, req, d);
  }

  /**
   Over every run, whatever the chunks and the interleaving: the device and the outcomes are those
   of one byte array accessed directly, and between calls nothing is left in any queue.
   */
  lemma {:induction false} RunsLikeByteArray(env: Scoring, dev: Bytes, steps: seq<Step>)
    requires Possible(env, dev, steps)
    ensures Ok(env, Run(env, dev, steps), dev)
  {
    if steps != [] {
      RunsLikeByteArray(env, dev, steps[..|steps|-1]);
      StepOk(env, Run(env, dev, steps[..|steps|-1]), steps[|steps|-1], dev);
    }
  }

  // ------------------------------------------------------------------ progress

  /** A call under way can always take a step. */
  lemma NeverStuck(env: Scoring, net: Net, dev: Bytes) returns (step: Step)
    requires Busy(env, net, dev)
    ensures !step.Begin? && Enabled(env, net, step)
  {
    var req, d := net.calls[|net.calls|-1], DirectDevice(net.calls[..|net.calls|-1], dev);
    if Outward(net, req, d) { step := OutwardStep(env, net, req, d); } else { step := HomewardStep(env, net, req, d); }
  }

  lemma OutwardStep(env: Scoring, net: Net, req: Request, d: Bytes) returns (step: Step)
    requires Sendable(req) && InFrame(req, d) && Outward(net, req, d)
    ensures !step.Begin? && Enabled(env, net, step)
  {
    if net.toSend != [] { return ClientSends(1); }
    if net.uplink != [] { return DaemonReads(1); }
    Trailing(net.inbox);
    CallIsDirect(env, req, d, [], []);
    Trailing(Encode(req));
    return DaemonServes;
  }

  lemma HomewardStep(env: Scoring, net: Net, req: Request, d: Bytes) returns (step: Step)
    requires Sendable(req) && InFrame(req, d) && Homeward(env, net, req, d)
    requires net.active && net.calls != [] && net.calls[|net.calls|-1] == req
    ensures !step.Begin? && Enabled(env, net, step)
  {
    if net.outbox != [] { return DaemonSends(1); }
    if net.downlink != [] { return ClientReads(1); }
    Trailing(net.received);
    CallIsDirect(env, req, d, [], []);
    Trailing(Reply(env, req, d));
    return Finish;
  }

  /** A bound on the steps that a call can still take. */
  function StepsLeft(env: Scoring, net: Net, dev: Bytes): nat
    requires Busy(env, net, dev)
  {
    Left(env, net, net.calls[|net.calls|-1], DirectDevice(net.calls[..|net.calls|-1], dev))
  }

  function Left(env: Scoring, net: Net, req: Request, d: Bytes): nat {
    if Outward(net, req, d) then 2 * |net.toSend| + |net.uplink| + 2 * |Reply(env, req, d)| + 2
    else 2 * |net.outbox| + |net.downlink| + 1
  }

  /** A request is never empty, so it cannot be on its way while its reply is. */
  lemma NotBoth(env: Scoring, net: Net, req: Request, d: Bytes)
    requires Homeward(env, net, req, d)
    ensures !Outward(net, req, d)
  {
    assert |Encode(req)| >= HEADER_SIZE;
  }

  lemma OutwardMoves(env: Scoring, net: Net, step: Step, req: Request, d: Bytes)
    requires Outward(net, req, d) && Enabled(env, net, step) && Moves(step)
    ensures Left(env, Next(env, net, step), req, d) < Left(env, net, req, d)
  {
    MovesOutward(net, step, req, d, env);
  }

  lemma HomewardMoves(env: Scoring, net: Net, step: Step, req: Request, d: Bytes)
    requires Homeward(env, net, req, d) && Enabled(env, net, step) && Moves(step)
    ensures Left(env, Next(env, net, step), req, d) < Left(env, net, req, d)
  {
    MovesHomeward(net, step, req, d, env);
    NotBoth(env, net, req, d);
    NotBoth(env, Next(env, net, step), req, d);
  }

  lemma ServingMoves(env: Scoring, net: Net, req: Request, d: Bytes)
    requires Sendable(req) && InFrame(req, d) && (Outward(net, req, d) || Homeward(env, net, req, d))
    requires Enabled(env, net, DaemonServes)
    ensures Left(env, Next(env, net, DaemonServes), req, d) < Left(env, net, req, d)
  {
    if Outward(net, req, d) {
      ServesWhole(env, net, req, d);
      Leading(Reply(env, req, d));
      NotBoth(env, Next(env, net, DaemonServes), req, d);
    }
  }

  lemma Leading(a: Bytes)
    ensures [] + a == a
  {
  }

  lemma Closer(env: Scoring, net: Net, step: Step, req: Request, d: Bytes)
    requires Sendable(req) && InFrame(req, d) && (Outward(net, req, d) || Homeward(env, net, req, d))
    requires net.active && Enabled(env, net, step) && !step.Finish?
    ensures Next(env, net, step).calls == net.calls && Next(env, net, step).active
    ensures Left(env, Next(env, net, step), req, d) < Left(env, net, req, d)
  {
    if step.DaemonServes? {
      ServingMoves(env, net, req, d);
    } else if Outward(net, req, d) {
      OutwardMoves(env, net, step, req, d);
    } else {
      HomewardMoves(env, net, step, req, d);
    }
  }

  /** Every step brings the call closer to its end: it finishes after finitely many. */
  lemma StepsFinish(env: Scoring, net: Net, step: Step, dev: Bytes)
    requires Busy(env, net, dev) && Enabled(env, net, step)
    ensures var next := Next(env, net, step);
      && (step.Finish? ==> Idle(env, next, dev))
      && (!step.Finish? ==> Busy(env, next, dev) && StepsLeft(env, next, dev) < StepsLeft(env, net, dev))
  {
    StepOk(env, net, step, dev);
    if step.Finish? {
      Over(env, net, step, dev);
    } else {
      CloserStill(env, net, step, dev);
    }
  }

  lemma Over(env: Scoring, net: Net, step: Step, dev: Bytes)
    requires Enabled(env, net, step) && step.Finish? && Ok(env, Next(env, net, step), dev)
    ensures Idle(env, Next(env, net, step), dev)
  {
  }

  lemma CloserStill(env: Scoring, net: Net, step: Step, dev: Bytes)
    requires Busy(env, net, dev) && Enabled(env, net, step) && !step.Finish? && Ok(env, Next(env, net, step), dev)
    ensures var next := Next(env, net, step);
      Busy(env, next, dev) && StepsLeft(env, next, dev) < StepsLeft(env, net, dev)
  {
    Closer(env, net, step, net.calls[|net.calls|-1], DirectDevice(net.calls[..|net.calls|-1], dev));
  }
}

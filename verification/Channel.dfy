/** `FlashChannel`, `FlashDie` and their requests as objects; timing is that of module ChannelSchedule. */
module Channel {
  import opened Options
  import opened ChannelSchedule

  class FlashDie {
    var busyUntil: real

    constructor ()
      ensures busyUntil == 0.0
    {
      busyUntil := 0.0;
    }

    /** `schedule_read`, `schedule_program` and `schedule_erase`, which differ in the duration. */
    method Schedule(start: real, duration: real) returns (finish: real)
      modifies this
      ensures finish == busyUntil == Max(start, old(busyUntil)) + duration
    {
      busyUntil := Max(start, busyUntil) + duration;
      finish := busyUntil;
    }
  }

  class ChannelTransferRequest {
    const die: int
    const op: OpType
    const arrival: real
    const transfer: real
    var start: real
    var completion: real

    constructor (die: int, op: OpType, arrival: real, transfer: real)
      ensures View() == Request(die, op, arrival, transfer)
    {
      this.die, this.op, this.arrival, this.transfer := die, op, arrival, transfer;
      start, completion := 0.0, 0.0;
    }

    function View(): Request {
      Request(die, op, arrival, transfer)
    }
  }

  function Views(rs: seq<ChannelTransferRequest>): (vs: seq<Request>)
    ensures |vs| == |rs| && forall i :: 0 <= i < |rs| ==> vs[i] == rs[i].View()
  {
    seq(|rs|, i requires 0 <= i < |rs| => rs[i].View())
  }

  /** The first `i` requests lead to that state and those slots. */
  predicate Leads(s: State, vs: seq<Request>, base: real, i: nat, t: State, slots: seq<Slot>)
    requires i <= |vs|
  {
    |slots| == i && (t, slots) == Process(s, vs[..i], base)
  }

  lemma LeadsNext(s: State, vs: seq<Request>, base: real, i: nat, t: State, slots: seq<Slot>)
    requires i < |vs| && Leads(s, vs, base, i, t, slots)
    ensures var (u, slot) := Serve(t, vs[i], base); Leads(s, vs, base, i + 1, u, slots + [slot])
  {
    assert vs[..i+1][..i] == vs[..i];
  }

  /** Is turn `i` the last of the first `n` for its request? */
  predicate LastTurn<R(==)>(rs: seq<R>, n: nat, i: nat)
    requires i < n <= |rs|
  {
    forall j :: i < j < n ==> rs[j] != rs[i]
  }

  /** The times that the requests hold. */
  function Stamps(rs: seq<ChannelTransferRequest>): (stamps: seq<(real, real)>)
    reads rs
    ensures |stamps| == |rs|
  {
    seq(|rs|, i requires 0 <= i < |rs| reads rs => (rs[i].start, rs[i].completion))
  }

  /** After the first `n` turns every request holds the times of its last turn. */
  predicate Reported<R(==)>(rs: seq<R>, stamps: seq<(real, real)>, slots: seq<Slot>, n: nat)
    requires |slots| == n <= |rs| == |stamps|
  {
    forall i: nat | i < n && LastTurn(rs, n, i) :: stamps[i] == (slots[i].start, slots[i].finish)
  }

  /** A turn sets the times of its request, wherever it stands in the queue, and no others. */
  lemma ReportedNext<R>(rs: seq<R>, was: seq<(real, real)>, now: seq<(real, real)>, slots: seq<Slot>, n: nat,
                        slot: Slot)
    requires |slots| == n < |rs| == |was| == |now| && Reported(rs, was, slots, n)
    requires forall j :: 0 <= j < |rs| ==> now[j] == if rs[j] == rs[n] then (slot.start, slot.finish) else was[j]
    ensures Reported(rs, now, slots + [slot], n + 1)
  {
    forall i: nat | i < n && LastTurn(rs, n + 1, i) ensures now[i] == (slots[i].start, slots[i].finish) {
      assert rs[n] != rs[i];
      assert LastTurn(rs, n, i);
    }
  }

  class FlashChannel {
    const dies: seq<FlashDie>
    const planesPerDie: nat
    var busBusyUntil: real
    var queue: seq<ChannelTransferRequest>
    var completed: seq<ChannelTransferRequest>

    /** Dies are separate objects. */
    ghost predicate Valid() {
      forall i, j :: 0 <= i < j < |dies| ==> dies[i] != dies[j]
    }

    /** The dies that count: a die has the length of its planes, and without any it is false in a condition. */
    function Present(): seq<FlashDie> {
      if planesPerDie == 0 then [] else dies
    }

    /** When the dies become free. */
    ghost function DieTimes(): (times: seq<real>)
      reads dies
      ensures |times| == |Present()|
    {
      seq(|Present()|, i requires 0 <= i < |Present()| reads dies => Present()[i].busyUntil)
    }

    ghost function View(): State
      reads this`busBusyUntil, dies
    {
      State(busBusyUntil, DieTimes())
    }

    constructor (dies: seq<FlashDie>, planesPerDie: nat)
      ensures this.dies == dies && this.planesPerDie == planesPerDie && busBusyUntil == 0.0 && queue == []
          && completed == []
    {
      this.dies, this.planesPerDie := dies, planesPerDie;
      busBusyUntil, queue, completed := 0.0, [], [];
    }

    /** `schedule_transfer` */
    method ScheduleTransfer(now: real, transfer: real) returns (finish: real)
      modifies this`busBusyUntil
      ensures var (t, slot) := Transfer(old(View()), now, transfer); View() == t && finish == slot.finish
    {
      var start := Max(now, busBusyUntil);
      finish := start + transfer;
      busBusyUntil := finish;
    }

    /** `enqueue_request` */
    method EnqueueRequest(r: ChannelTransferRequest)
      modifies this`queue
      ensures queue == old(queue) + [r]
    {
      queue := queue + [r];
    }

    /** Schedules an operation on one of the dies. */
    method OnDie(d: int, start: real, duration: real) returns (finish: real)
      requires Valid() && 0 <= d < |Present()|
      modifies dies
      ensures finish == Max(start, old(DieTimes())[d]) + duration
      ensures DieTimes() == old(DieTimes())[d := finish]
    {
      finish := dies[d].Schedule(start, duration);
    }

    /** Where a turn of the loop places a request on the bus; its die is occupied meanwhile. */
    method Reserve(r: ChannelTransferRequest, base: real) returns (busStart: real, busFinish: real)
      requires Valid()
      modifies dies
      ensures var (t, slot) := Serve(old(View()), r.View(), base);
        DieTimes() == t.dies && Max(busBusyUntil, busFinish) == t.bus
        && busStart == slot.start && busFinish == slot.finish
    {
      var arrival := r.arrival + base;
      var hasDie := 0 <= r.die < |dies| && planesPerDie > 0;
      if r.op == READ {
        var sensed := arrival + T_R;
        if hasDie { sensed := OnDie(r.die, arrival, T_R); }
        busStart := Max(sensed, busBusyUntil);
        busFinish := busStart + r.transfer;
      } else if r.op == PROGRAM {
        busStart := Max(arrival, busBusyUntil);
        busFinish := busStart + r.transfer;
        if hasDie { var programmed := OnDie(r.die, busFinish, T_PROG); }
      } else if r.op == ERASE {
        if hasDie { var erased := OnDie(r.die, arrival, T_BERS); }
        busStart := Max(arrival, busBusyUntil);
        busFinish := busStart;
      } else {
        busStart := Max(arrival, busBusyUntil);
        busFinish := busStart + r.transfer;
      }
    }

    /** One turn of the loop over the queue. */
    method ServeRequest(r: ChannelTransferRequest, base: real)
      requires Valid()
      modifies this`busBusyUntil, dies, r
      ensures var (t, slot) := Serve(old(View()), r.View(), base);
        View() == t && r.start == slot.start && r.completion == slot.finish
    {
      var busStart, busFinish := Reserve(r, base);
      ghost var times := DieTimes();
      busBusyUntil := Max(busBusyUntil, busFinish);
      r.start := busStart;
      r.completion := busFinish;
      assert DieTimes() == times;
    }

    /** The turn of request `i` of the queue, given what the turns before it have left. */
    method ServeQueued(rs: seq<ChannelTransferRequest>, i: nat, base: real, ghost slots: seq<Slot>)
      requires Valid() && |slots| == i < |rs| && Reported(rs, Stamps(rs), slots, i)
      modifies this`busBusyUntil, dies, rs
      ensures var (t, slot) := Serve(old(View()), rs[i].View(), base);
        View() == t && Reported(rs, Stamps(rs), slots + [slot], i + 1)
    {
      ghost var was, slot := Stamps(rs), Serve(View(), rs[i].View(), base).1;
      ServeRequest(rs[i], base);
      ReportedNext(rs, was, Stamps(rs), slots, i, slot);
    }

    /**
     `process_queue`: serves the queue in order, moves every request to the completed ones once, and
     leaves the queue empty.  A request queued several times keeps the times of its last turn.
     */
    method ProcessQueue(base: real) returns (finish: real)
      requires Valid()
      modifies this, dies, queue
      ensures queue == [] && completed == old(completed) + old(queue)
      ensures var (t, slots) := Process(old(View()), Views(old(queue)), base);
        View() == t && finish == t.bus && Reported(old(queue), Stamps(old(queue)), slots, |slots|)
    {
      ghost var s, rs, vs := View(), queue, Views(queue);
      ghost var slots: seq<Slot> := [];
      var i := 0;
      while i < |queue|
        invariant 0 <= i <= |queue| && queue == rs
        invariant completed == old(completed) + rs[..i]
        invariant Leads(s, vs, base, i, View(), slots)
        invariant Reported(rs, Stamps(rs), slots, i)
      {
        LeadsNext(s, vs, base, i, View(), slots);
        ghost var slot := Serve(View(), vs[i], base).1;
        ServeQueued(queue, i, base, slots);
        slots := slots + [slot];
        completed := completed + [queue[i]];
        i := i + 1;
      }
      assert vs[..|rs|] == vs && rs[..|rs|] == rs;
      queue := [];
      finish := busBusyUntil;
    }
  }
}

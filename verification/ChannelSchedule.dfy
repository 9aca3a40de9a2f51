/**
 The timing of one flash channel as values: dies sense, program and erase on their own, and share
 one bus that serves requests in arrival order.
 */
module ChannelSchedule {
  import opened Options

  const T_R := 25.0
  const T_PROG := 200.0
  const T_BERS := 2000.0

  datatype OpType = READ | PROGRAM | ERASE | OTHER

  datatype Request = Request(die: int, op: OpType, arrival: real, transfer: real)

  /** When the bus and every die become free. */
  datatype State = State(bus: real, dies: seq<real>)

  /** What a request occupies the bus for, and when its data was sensed. */
  datatype Slot = Slot(start: real, finish: real, sensed: Option<real>)

  function Max(a: real, b: real): real { if a > b then a else b }

  /** The die that a request addresses, if there is one. */
  predicate HasDie(s: State, r: Request) {
    0 <= r.die < |s.dies|
  }

  function WithDie(s: State, d: int, until: real): (t: State)
    requires 0 <= d < |s.dies|
    ensures |t.dies| == |s.dies|
  {
    s.(dies := s.dies[d := until])
  }

  /** One request: the new state and its bus slot. */
  function Serve(s: State, r: Request, base: real): (out: (State, Slot))
    ensures |out.0.dies| == |s.dies|
  {
    var arrival := r.arrival + base;
    match r.op
    case READ =>
      var sensed := if HasDie(s, r) then Max(arrival, s.dies[r.die]) + T_R else arrival + T_R;
      var t := if HasDie(s, r) then WithDie(s, r.die, sensed) else s;
      var start := Max(sensed, s.bus);
      (t.(bus := Max(s.bus, start + r.transfer)), Slot(start, start + r.transfer, Some(sensed)))
    case PROGRAM =>
      var start := Max(arrival, s.bus);
      var finish := start + r.transfer;
      var t := if HasDie(s, r) then WithDie(s, r.die, Max(finish, s.dies[r.die]) + T_PROG) else s;
      (t.(bus := Max(s.bus, finish)), Slot(start, finish, None))
    case ERASE =>
      var t := if HasDie(s, r) then WithDie(s, r.die, Max(arrival, s.dies[r.die]) + T_BERS) else s;
      var start := Max(arrival, s.bus);
      (t.(bus := Max(s.bus, start)), Slot(start, start, None))
    case OTHER =>
      var start := Max(arrival, s.bus);
      (s.(bus := Max(s.bus, start + r.transfer)), Slot(start, start + r.transfer, None))
  }

  /** A whole queue, in order. */
  function Process(s: State, rs: seq<Request>, base: real): (out: (State, seq<Slot>))
    ensures |out.1| == |rs| && |out.0.dies| == |s.dies|
  {
    if rs == [] then (s, [])
    else
      var (t, slots) := Process(s, rs[..|rs|-1], base);
      var (u, slot) := Serve(t, rs[|rs|-1], base);
      (u, slots + [slot])
  }

  /** A transfer scheduled directly on the bus. */
  function Transfer(s: State, now: real, transfer: real): (State, Slot) {
    var start := Max(now, s.bus);
    (s.(bus := start + transfer), Slot(start, start + transfer, None))
  }

  // ------------------------------------------------------------------ any interleaving

  datatype Event = ProcessQueue(rs: seq<Request>, base: real) | DirectTransfer(now: real, transfer: real)

  predicate Timely(e: Event) {
    match e
    case ProcessQueue(rs, _) => forall i :: 0 <= i < |rs| ==> rs[i].transfer >= 0.0
    case DirectTransfer(_, transfer) => transfer >= 0.0
  }

  function Happen(s: State, e: Event): (out: (State, seq<Slot>)) {
    match e
    case ProcessQueue(rs, base) => Process(s, rs, base)
    case DirectTransfer(now, transfer) => var (t, slot) := Transfer(s, now, transfer); (t, [slot])
  }

  function Run(s: State, es: seq<Event>): (State, seq<Slot>) {
    if es == [] then (s, [])
    else
      var (t, slots) := Run(s, es[..|es|-1]);
      var (u, more) := Happen(t, es[|es|-1]);
      (u, slots + more)
  }

  /** Slots follow one another without overlap, from `from` on and up to `to`. */
  predicate Serial(slots: seq<Slot>, from: real, to: real) {
    && from <= to
    && (forall i :: 0 <= i < |slots| ==> from <= slots[i].start <= slots[i].finish <= to)
    && (forall i, j :: 0 <= i < j < |slots| ==> slots[i].finish <= slots[j].start)
  }

  lemma SerialJoin(a: seq<Slot>, b: seq<Slot>, from: real, mid: real, to: real)
    requires Serial(a, from, mid) && Serial(b, mid, to)
    ensures Serial(a + b, from, to)
  {
    var ab := a + b;
    forall i, j | 0 <= i < j < |ab| ensures ab[i].finish <= ab[j].start {
      if i < |a| <= j { assert a[i].finish <= mid <= b[j - |a|].start; }
    }
  }

  lemma {:induction false} ProcessSerial(s: State, rs: seq<Request>, base: real)
    requires forall i :: 0 <= i < |rs| ==> rs[i].transfer >= 0.0
    ensures Serial(Process(s, rs, base).1, s.bus, Process(s, rs, base).0.bus)
  {
    if rs != [] {
      var n := |rs| - 1;
      ProcessSerial(s, rs[..n], base);
      var (t, slots) := Process(s, rs[..n], base);
      var (u, slot) := Serve(t, rs[n], base);
      assert Serial([slot], t.bus, u.bus);
      SerialJoin(slots, [slot], s.bus, t.bus, u.bus);
    }
  }

  /**
   Across any interleaving of queue runs and direct transfers: bus slots never overlap, they are in
   the order of the requests, and the time at which the bus becomes free never goes back.
   */
  lemma {:induction false} BusIsSerial(s: State, es: seq<Event>)
    requires forall i :: 0 <= i < |es| ==> Timely(es[i])
    ensures Serial(Run(s, es).1, s.bus, Run(s, es).0.bus)
  {
    if es != [] {
      var n := |es| - 1;
      BusIsSerial(s, es[..n]);
      var (t, slots) := Run(s, es[..n]);
      var (u, more) := Happen(t, es[n]);
      assert Timely(es[n]);
      if es[n].ProcessQueue? { ProcessSerial(t, es[n].rs, es[n].base); }
      SerialJoin(slots, more, s.bus, t.bus, u.bus);
    }
  }

  // ------------------------------------------------------------------ reads

  /** No read goes on the bus before its die has sensed the page, which takes `T_R` from its arrival on. */
  lemma {:induction false} ReadsSenseFirst(s: State, rs: seq<Request>, base: real, i: nat)
    requires i < |rs| && rs[i].op == READ
    ensures var slot := Process(s, rs, base).1[i];
      slot.sensed.Some? && rs[i].arrival + base + T_R <= slot.sensed.value <= slot.start
  {
    if i < |rs| - 1 { ReadsSenseFirst(s, rs[..|rs|-1], base, i); }
  }

  /** Two reads of one queue on one die are sensed one after the other. */
  lemma {:induction false} SensingInQueue(s: State, rs: seq<Request>, base: real, i: nat, j: nat)
    requires i < j < |rs| && rs[i].op == rs[j].op == READ && rs[i].die == rs[j].die && HasDie(s, rs[i])
    ensures var slots := Process(s, rs, base).1;
      slots[i].sensed.Some? && slots[j].sensed.Some? && slots[i].sensed.value + T_R <= slots[j].sensed.value
  {
    var n := |rs| - 1;
    if j < n {
      SensingInQueue(s, rs[..n], base, i, j);
    } else {
      SensedBeforeFree(s, rs[..n], base, i);
    }
  }

  /** After a read the die stays busy at least until it has sensed. */
  lemma {:induction false} SensedBeforeFree(s: State, rs: seq<Request>, base: real, i: nat)
    requires i < |rs| && rs[i].op == READ && HasDie(s, rs[i])
    ensures var (t, slots) := Process(s, rs, base);
      slots[i].sensed.Some? && slots[i].sensed.value <= t.dies[rs[i].die]
  {
    if i < |rs| - 1 { SensedBeforeFree(s, rs[..|rs|-1], base, i); }
  }

  /** A die never becomes free earlier. */
  lemma {:induction false} DieStaysBusy(s: State, rs: seq<Request>, base: real, d: nat)
    requires d < |s.dies|
    ensures s.dies[d] <= Process(s, rs, base).0.dies[d]
  {
    if rs != [] { DieStaysBusy(s, rs[..|rs|-1], base, d); }
  }

  /** A read starts sensing no earlier than its die is free. */
  lemma SensedAfterFree(s: State, rs: seq<Request>, base: real, i: nat)
    requires i < |rs| && rs[i].op == READ && HasDie(s, rs[i])
    ensures var slot := Process(s, rs, base).1[i];
      slot.sensed.Some? && s.dies[rs[i].die] + T_R <= slot.sensed.value
  {
    ServedAt(s, rs, base, i);
    DieStaysBusy(s, rs[..i], base, rs[i].die);
  }

  lemma {:induction false} ServedAt(s: State, rs: seq<Request>, base: real, i: nat)
    requires i < |rs|
    ensures Process(s, rs, base).1[i] == Serve(Process(s, rs[..i], base).0, rs[i], base).1
  {
    if i < |rs| - 1 {
      ServedAt(s, rs[..|rs|-1], base, i);
      assert rs[..|rs|-1][..i] == rs[..i];
    }
  }

  /** The requests that the slots of an event belong to. */
  function Asked(e: Event): seq<Option<Request>> {
    match e
    case ProcessQueue(rs, _) => seq(|rs|, i requires 0 <= i < |rs| => Some(rs[i]))
    case DirectTransfer(_, _) => [None]
  }

  function AllAsked(es: seq<Event>): seq<Option<Request>> {
    if es == [] then [] else AllAsked(es[..|es|-1]) + Asked(es[|es|-1])
  }

  lemma {:induction false} SlotsAreAsked(s: State, es: seq<Event>)
    ensures |Run(s, es).1| == |AllAsked(es)| && |Run(s, es).0.dies| == |s.dies|
  {
    if es != [] { SlotsAreAsked(s, es[..|es|-1]); }
  }

  predicate ReadOn(o: Option<Request>, d: nat) {
    o.Some? && o.value.op == READ && o.value.die == d
  }

  lemma HappenRead(t: State, e: Event, i: nat, d: nat)
    requires i < |Asked(e)| && ReadOn(Asked(e)[i], d) && d < |t.dies|
    ensures var (u, more) := Happen(t, e);
      && |u.dies| == |t.dies| && i < |more| && more[i].sensed.Some?
      && t.dies[d] + T_R <= more[i].sensed.value <= u.dies[d]
  {
    SensedAfterFree(t, e.rs, e.base, i);
    SensedBeforeFree(t, e.rs, e.base, i);
  }

  /** Whatever happens after a read, its die does not become free before the read has sensed. */
  lemma {:induction false} BusySinceRead(s: State, es: seq<Event>, i: nat, d: nat)
    requires i < |AllAsked(es)| && ReadOn(AllAsked(es)[i], d) && d < |s.dies|
    ensures var (t, slots) := Run(s, es);
      i < |slots| && slots[i].sensed.Some? && |t.dies| == |s.dies| && slots[i].sensed.value <= t.dies[d]
  {
    var n := |es| - 1;
    var m := |AllAsked(es[..n])|;
    SlotsAreAsked(s, es[..n]);
    var t := Run(s, es[..n]).0;
    if i < m {
      BusySinceRead(s, es[..n], i, d);
      if es[n].ProcessQueue? { DieStaysBusy(t, es[n].rs, es[n].base, d); }
    } else {
      HappenRead(t, es[n], i - m, d);
    }
  }

  /** Across any interleaving, two reads on one die are sensed one after the other, though the bus is shared. */
  lemma {:induction false} SensingIsSerial(s: State, es: seq<Event>, i: nat, j: nat, d: nat)
    requires i < j < |AllAsked(es)| && ReadOn(AllAsked(es)[i], d) && ReadOn(AllAsked(es)[j], d) && d < |s.dies|
    ensures var slots := Run(s, es).1;
      && j < |slots| && slots[i].sensed.Some? && slots[j].sensed.Some?
      && slots[i].sensed.value + T_R <= slots[j].sensed.value
  {
    var n := |es| - 1;
    var m := |AllAsked(es[..n])|;
    SlotsAreAsked(s, es[..n]);
    var t := Run(s, es[..n]).0;
    if j < m {
      SensingIsSerial(s, es[..n], i, j, d);
    } else if i < m {
      BusySinceRead(s, es[..n], i, d);
      HappenRead(t, es[n], j - m, d);
    } else {
      SensingInQueue(t, es[n].rs, es[n].base, i - m, j - m);
    }
  }

  function TransferSum(rs: seq<Request>): real {
    if rs == [] then 0.0 else TransferSum(rs[..|rs|-1]) + rs[|rs|-1].transfer
  }

  predicate BusyUntil(s: State, bus: real, dies: real) {
    s.bus <= bus && forall d :: 0 <= d < |s.dies| ==> s.dies[d] <= dies
  }

  function Times(n: nat, x: real): real { n as real * x }

  lemma TimesStep(n: nat, x: real)
    requires n > 0
    ensures Times(n, x) == Times(n - 1, x) + x
  {
    assert n as real == (n - 1) as real + 1.0;
  }

  /** `n` reads are through at most `n` sensings and their transfers after everything was ready. */
  lemma {:induction false} ReadBound(s: State, rs: seq<Request>, base: real, ready: real)
    requires forall i :: 0 <= i < |rs| ==> rs[i].op == READ && rs[i].transfer >= 0.0 && rs[i].arrival + base <= ready
    requires BusyUntil(s, ready, ready)
    ensures BusyUntil(Process(s, rs, base).0, ready + Times(|rs|, T_R) + TransferSum(rs), ready + Times(|rs|, T_R))
    ensures TransferSum(rs) >= 0.0
  {
    if rs != [] {
      var n := |rs|;
      ReadBound(s, rs[..n-1], base, ready);
      TimesStep(n, T_R);
      var t := Process(s, rs[..n-1], base).0;
      var u := Serve(t, rs[n-1], base).0;
      TimesNonNegative(n - 1);
      assert BusyUntil(u, ready + Times(n, T_R) + TransferSum(rs), ready + Times(n, T_R));
    }
  }

  lemma TimesNonNegative(n: nat)
    ensures Times(n, T_R) >= 0.0
  {
    if n > 0 {
      TimesNonNegative(n - 1);
      TimesStep(n, T_R);
    }
  }

  // ------------------------------------------------------------------ no anomalies

  predicate NoLater(s: State, t: State) {
    && s.bus <= t.bus && |s.dies| == |t.dies|
    && forall d :: 0 <= d < |s.dies| ==> s.dies[d] <= t.dies[d]
  }

  lemma ServeLater(s: State, t: State, r: Request, base: real)
    requires NoLater(s, t)
    ensures var (s', a), (t', b) := Serve(s, r, base), Serve(t, r, base);
      NoLater(s', t') && a.start <= b.start && a.finish <= b.finish
  {
  }

  /** Starting from a busier channel, no request of the queue gets an earlier slot. */
  lemma {:induction false} BusierIsLater(s: State, t: State, rs: seq<Request>, base: real)
    requires NoLater(s, t)
    ensures NoLater(Process(s, rs, base).0, Process(t, rs, base).0)
    ensures forall i :: 0 <= i < |rs| ==>
      && Process(s, rs, base).1[i].start <= Process(t, rs, base).1[i].start
      && Process(s, rs, base).1[i].finish <= Process(t, rs, base).1[i].finish
  {
    if rs != [] {
      var before, r := rs[..|rs|-1], rs[|rs|-1];
      BusierIsLater(s, t, before, base);
      ServeLater(Process(s, before, base).0, Process(t, before, base).0, r, base);
    }
  }
}

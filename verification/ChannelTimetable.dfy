/**
 The timetable of a flash channel, stated over events and bus slots: on every die the reads, programs and
 erases occupy it one after the other, and every bus slot starts as soon as bus and data allow.
 */
module ChannelTimetable {
  import opened Options
  import opened Sequences
  import opened ChannelSchedule

  /** A request, arriving at an absolute time, or a transfer scheduled directly. */
  datatype Job = Queued(r: Request) | Direct(now: real, transfer: real)

  function Jobs(e: Event): seq<Job> {
    match e
    case ProcessQueue(rs, base) =>
      seq(|rs|, i requires 0 <= i < |rs| => Queued(rs[i].(arrival := rs[i].arrival + base)))
    case DirectTransfer(now, transfer) => [Direct(now, transfer)]
  }

  function AllJobs(es: seq<Event>): seq<Job> {
    if es == [] then [] else AllJobs(es[..|es|-1]) + Jobs(es[|es|-1])
  }

  // ------------------------------------------------------------------ what a timetable is

  /** Does the job occupy that die? */
  predicate Occupies(j: Job, d: nat) {
    j.Queued? && j.r.die == d && j.r.op != OTHER
  }

  /** For how long. */
  function Duration(j: Job): real {
    if j.Direct? then 0.0
    else
      match j.r.op
      case READ => T_R
      case PROGRAM => T_PROG
      case ERASE => T_BERS
      case OTHER => 0.0
  }

  /** From when on the die can work on it: a program has to be transferred first. */
  function Ready(j: Job, slot: Slot): real
    requires j.Queued?
  {
    if j.r.op == PROGRAM then slot.finish else j.r.arrival
  }

  /** The job on the die ends at `end`: it starts once it is ready and the die is free, and no later. */
  ghost predicate DieOk(s: State, js: seq<Job>, slots: seq<Slot>, ends: seq<real>, i: nat, d: nat)
    requires i < |js| == |slots| == |ends| && js[i].Queued? && d < |s.dies|
  {
    var begin := ends[i] - Duration(js[i]);
    && begin >= Ready(js[i], slots[i]) && begin >= s.dies[d]
    && (forall h :: 0 <= h < i && Occupies(js[h], d) ==> ends[h] <= begin)
    && (begin == Ready(js[i], slots[i]) || begin == s.dies[d]
        || exists h :: 0 <= h < i && Occupies(js[h], d) && ends[h] == begin)
  }

  /** From when on the job can have the bus: a read has to be sensed first. */
  function BusReady(j: Job, end: real): real {
    if j.Direct? then j.now else if j.r.op == READ then end else j.r.arrival
  }

  function BusTime(j: Job): real {
    if j.Direct? then j.transfer else if j.r.op == ERASE then 0.0 else j.r.transfer
  }

  /** The job takes the bus once it is ready and the slot before is over, and no later. */
  predicate BusOk(s: State, js: seq<Job>, slots: seq<Slot>, ends: seq<real>, i: nat)
    requires i < |js| == |slots| == |ends|
  {
    var before := if i == 0 then s.bus else slots[i-1].finish;
    && slots[i].start == Max(BusReady(js[i], ends[i]), before)
    && slots[i].finish == slots[i].start + BusTime(js[i])
    && slots[i].sensed == if js[i].Queued? && js[i].r.op == READ then Some(ends[i]) else None
  }

  ghost predicate JobOk(s: State, js: seq<Job>, slots: seq<Slot>, ends: seq<real>, i: nat)
    requires i < |js| == |slots| == |ends|
  {
    && BusOk(s, js, slots, ends, i)
    && (forall d: nat | d < |s.dies| && Occupies(js[i], d) :: DieOk(s, js, slots, ends, i, d))
    && (js[i].Queued? && js[i].r.op == READ && !(0 <= js[i].r.die < |s.dies|) ==> ends[i] == js[i].r.arrival + T_R)
  }

  ghost predicate IsTimetable(s: State, js: seq<Job>, slots: seq<Slot>, ends: seq<real>) {
    |js| == |slots| == |ends| && forall i: nat | i < |js| :: JobOk(s, js, slots, ends, i)
  }

  // ------------------------------------------------------------------ one job after the other

  function Do(s: State, j: Job): (out: (State, Slot))
    ensures |out.0.dies| == |s.dies|
  {
    match j
    case Queued(r) => Serve(s, r, 0.0)
    case Direct(now, transfer) => Transfer(s, now, transfer)
  }

  function DoAll(s: State, js: seq<Job>): (out: (State, seq<Slot>))
    ensures |out.1| == |js| && |out.0.dies| == |s.dies|
  {
    if js == [] then (s, [])
    else
      var (t, slots) := DoAll(s, js[..|js|-1]);
      var (u, slot) := Do(t, js[|js|-1]);
      (u, slots + [slot])
  }

  lemma {:induction false} DoAllJoin(s: State, a: seq<Job>, b: seq<Job>)
    ensures DoAll(s, a + b) == (DoAll(DoAll(s, a).0, b).0, DoAll(s, a).1 + DoAll(DoAll(s, a).0, b).1)
  {
    if b == [] {
      assert a + b == a && DoAll(s, a).1 + [] == DoAll(s, a).1;
    } else {
      var n := |b| - 1;
      DoAllJoin(s, a, b[..n]);
      assert (a + b)[..|a + b|-1] == a + b[..n] && (a + b)[|a + b|-1] == b[n];
      var t := DoAll(s, a).0;
      Regroup(DoAll(s, a).1, DoAll(t, b[..n]).1, [Do(DoAll(t, b[..n]).0, b[n]).1]);
    }
  }

  lemma {:induction false} QueueIsFlat(s: State, rs: seq<Request>, base: real)
    ensures Process(s, rs, base) == DoAll(s, Jobs(ProcessQueue(rs, base)))
  {
    if rs != [] {
      QueueIsFlat(s, rs[..|rs|-1], base);
      var js := Jobs(ProcessQueue(rs, base));
      assert js[..|js|-1] == Jobs(ProcessQueue(rs[..|rs|-1], base));
    }
  }

  lemma {:induction false} RunIsFlat(s: State, es: seq<Event>)
    ensures Run(s, es) == DoAll(s, AllJobs(es))
  {
    if es != [] {
      var before, e := es[..|es|-1], es[|es|-1];
      RunIsFlat(s, before);
      DoAllJoin(s, AllJobs(before), Jobs(e));
      EventIsFlat(DoAll(s, AllJobs(before)).0, e);
    }
  }

  lemma EventIsFlat(t: State, e: Event)
    ensures Happen(t, e) == DoAll(t, Jobs(e))
  {
    if e.ProcessQueue? {
      QueueIsFlat(t, e.rs, e.base);
    } else {
      var js, slot := Jobs(e), Do(t, Jobs(e)[0]).1;
      assert js == [Direct(e.now, e.transfer)] && js[..0] == [];
      assert DoAll(t, js[..0]) == (t, []);
      assert [] + [slot] == [slot];
    }
  }

  // ------------------------------------------------------------------ the run has a timetable

  /** The die is free at `x`: when the last of its jobs ends. */
  ghost predicate FreeAt(s: State, js: seq<Job>, ends: seq<real>, d: nat, x: real)
    requires |ends| == |js| && d < |s.dies|
  {
    && x >= s.dies[d]
    && (forall h :: 0 <= h < |js| && Occupies(js[h], d) ==> ends[h] <= x)
    && (x == s.dies[d] || exists h :: 0 <= h < |js| && Occupies(js[h], d) && ends[h] == x)
  }

  /** What the state says of the jobs so far. */
  ghost predicate Reflects(s: State, js: seq<Job>, slots: seq<Slot>, ends: seq<real>, t: State)
    requires |js| == |slots| == |ends|
  {
    && t.bus == (if slots == [] then s.bus else slots[|slots|-1].finish)
    && |t.dies| == |s.dies|
    && forall d: nat | d < |s.dies| :: FreeAt(s, js, ends, d, t.dies[d])
  }

  predicate TimelyJob(j: Job) {
    BusTime(j) >= 0.0
  }

  /** When the job is done with its die. */
  function EndOf(t: State, j: Job): real {
    if j.Direct? then 0.0
    else if 0 <= j.r.die < |t.dies| then t.dies[j.r.die]
    else j.r.arrival + T_R
  }

  lemma NextBus(s: State, js: seq<Job>, slots: seq<Slot>, ends: seq<real>, t: State, j: Job)
    requires |js| == |slots| == |ends| && Reflects(s, js, slots, ends, t) && TimelyJob(j)
    ensures var (u, slot) := Do(t, j);
      BusOk(s, js + [j], slots + [slot], ends + [EndOf(u, j)], |js|) && u.bus == slot.finish
  {
  }

  lemma NextDie(s: State, js: seq<Job>, slots: seq<Slot>, ends: seq<real>, t: State, j: Job, d: nat)
    requires |js| == |slots| == |ends| && Reflects(s, js, slots, ends, t) && Occupies(j, d) && d < |s.dies|
    ensures var (u, slot) := Do(t, j);
      DieOk(s, js + [j], slots + [slot], ends + [EndOf(u, j)], |js|, d)
  {
    var (u, slot) := Do(t, j);
    var all, ends' := js + [j], ends + [EndOf(u, j)];
    assert FreeAt(s, js, ends, d, t.dies[d]);
    assert EndOf(u, j) == Max(Ready(j, slot), t.dies[d]) + Duration(j);
    if t.dies[d] != s.dies[d] {
      var h :| 0 <= h < |js| && Occupies(js[h], d) && ends[h] == t.dies[d];
      assert all[h] == js[h] && ends'[h] == ends[h];
    }
  }

  lemma EarlierJob(s: State, js: seq<Job>, slots: seq<Slot>, ends: seq<real>, j: Job, slot: Slot, end: real, i: nat)
    requires |js| == |slots| == |ends| && i < |js| && JobOk(s, js, slots, ends, i)
    ensures JobOk(s, js + [j], slots + [slot], ends + [end], i)
  {
    var all, slots', ends' := js + [j], slots + [slot], ends + [end];
    assert forall h :: 0 <= h <= i ==> all[h] == js[h] && slots'[h] == slots[h] && ends'[h] == ends[h];
    forall d: nat | d < |s.dies| && Occupies(all[i], d) ensures DieOk(s, all, slots', ends', i, d) {
      assert DieOk(s, js, slots, ends, i, d);
    }
  }

  lemma StillFree(s: State, js: seq<Job>, ends: seq<real>, d: nat, x: real, j: Job, end: real)
    requires |ends| == |js| && d < |s.dies| && FreeAt(s, js, ends, d, x)
    requires Occupies(j, d) ==> end >= x
    ensures FreeAt(s, js + [j], ends + [end], d, if Occupies(j, d) then end else x)
  {
    var all, ends' := js + [j], ends + [end];
    if Occupies(j, d) {
      assert Occupies(all[|js|], d) && ends'[|js|] == end;
    } else if x != s.dies[d] {
      var h :| 0 <= h < |js| && Occupies(js[h], d) && ends[h] == x;
      assert Occupies(all[h], d) && ends'[h] == x;
    }
  }

  lemma DieAfter(t: State, j: Job, d: nat)
    requires d < |t.dies|
    ensures var u := Do(t, j).0;
      && (Occupies(j, d) ==> u.dies[d] == EndOf(u, j) >= t.dies[d])
      && (!Occupies(j, d) ==> u.dies[d] == t.dies[d])
  {
  }

  lemma NextReflects(s: State, js: seq<Job>, slots: seq<Slot>, ends: seq<real>, t: State, j: Job)
    requires |js| == |slots| == |ends| && Reflects(s, js, slots, ends, t) && TimelyJob(j)
    ensures var (u, slot) := Do(t, j); Reflects(s, js + [j], slots + [slot], ends + [EndOf(u, j)], u)
  {
    var (u, slot) := Do(t, j);
    NextBus(s, js, slots, ends, t, j);
    forall d: nat | d < |s.dies| ensures FreeAt(s, js + [j], ends + [EndOf(u, j)], d, u.dies[d]) {
      DieAfter(t, j, d);
      StillFree(s, js, ends, d, t.dies[d], j, EndOf(u, j));
    }
  }

  lemma NextJob(s: State, js: seq<Job>, slots: seq<Slot>, ends: seq<real>, t: State, j: Job)
    requires IsTimetable(s, js, slots, ends) && Reflects(s, js, slots, ends, t) && TimelyJob(j)
    ensures var (u, slot) := Do(t, j); IsTimetable(s, js + [j], slots + [slot], ends + [EndOf(u, j)])
  {
    var (u, slot) := Do(t, j);
    var all, slots', ends' := js + [j], slots + [slot], ends + [EndOf(u, j)];
    forall i: nat | i < |all| ensures JobOk(s, all, slots', ends', i) {
      if i < |js| {
        EarlierJob(s, js, slots, ends, j, slot, EndOf(u, j), i);
      } else {
        LastJob(s, js, slots, ends, t, j);
      }
    }
  }

  lemma LastJob(s: State, js: seq<Job>, slots: seq<Slot>, ends: seq<real>, t: State, j: Job)
    requires |js| == |slots| == |ends| && Reflects(s, js, slots, ends, t) && TimelyJob(j)
    ensures var (u, slot) := Do(t, j); JobOk(s, js + [j], slots + [slot], ends + [EndOf(u, j)], |js|)
  {
    NextBus(s, js, slots, ends, t, j);
    forall d: nat | d < |s.dies| && Occupies(j, d)
      ensures var (u, slot) := Do(t, j); DieOk(s, js + [j], slots + [slot], ends + [EndOf(u, j)], |js|, d)
    {
      NextDie(s, js, slots, ends, t, j, d);
    }
  }

  lemma {:induction false} JobsHaveTimetable(s: State, js: seq<Job>) returns (ends: seq<real>)
    requires forall i :: 0 <= i < |js| ==> TimelyJob(js[i])
    ensures IsTimetable(s, js, DoAll(s, js).1, ends) && Reflects(s, js, DoAll(s, js).1, ends, DoAll(s, js).0)
  {
    if js == [] {
      ends := [];
    } else {
      var n := |js| - 1;
      var before := JobsHaveTimetable(s, js[..n]);
      var (t, slots) := DoAll(s, js[..n]);
      NextJob(s, js[..n], slots, before, t, js[n]);
      NextReflects(s, js[..n], slots, before, t, js[n]);
      ends := before + [EndOf(Do(t, js[n]).0, js[n])];
      assert js == js[..n] + [js[n]];
    }
  }

  lemma {:induction false} TimelyJobs(es: seq<Event>)
    requires forall i :: 0 <= i < |es| ==> Timely(es[i])
    ensures forall i :: 0 <= i < |AllJobs(es)| ==> TimelyJob(AllJobs(es)[i])
  {
    if es != [] {
      TimelyJobs(es[..|es|-1]);
      assert Timely(es[|es|-1]);
    }
  }

  /** Every interleaving of queue runs and direct transfers keeps a timetable. */
  lemma RunKeepsTimetable(s: State, es: seq<Event>) returns (ends: seq<real>)
    requires forall i :: 0 <= i < |es| ==> Timely(es[i])
    ensures IsTimetable(s, AllJobs(es), Run(s, es).1, ends)
  {
    TimelyJobs(es);
    RunIsFlat(s, es);
    ends := JobsHaveTimetable(s, AllJobs(es));
  }

  // ------------------------------------------------------------------ what follows

  /** A timetable leaves no choice: jobs and initial state determine the slots. */
  lemma {:induction false} TimetableUnique(s: State, js: seq<Job>, a: seq<Slot>, x: seq<real>, b: seq<Slot>,
                                           y: seq<real>, n: nat)
    requires IsTimetable(s, js, a, x) && IsTimetable(s, js, b, y) && n <= |js|
    ensures a[..n] == b[..n]
    ensures forall i: nat, d: nat | i < n && d < |s.dies| && Occupies(js[i], d) :: x[i] == y[i]
  {
    if n > 0 {
      TimetableUnique(s, js, a, x, b, y, n - 1);
      SameSlot(s, js, a, x, b, y, n - 1);
      assert a[..n] == a[..n-1] + [a[n-1]] && b[..n] == b[..n-1] + [b[n-1]];
    }
  }

  lemma SameSlot(s: State, js: seq<Job>, a: seq<Slot>, x: seq<real>, b: seq<Slot>, y: seq<real>, i: nat)
    requires IsTimetable(s, js, a, x) && IsTimetable(s, js, b, y) && i < |js|
    requires a[..i] == b[..i]
    requires forall h: nat, d: nat | h < i && d < |s.dies| && Occupies(js[h], d) :: x[h] == y[h]
    ensures a[i] == b[i] && forall d: nat | d < |s.dies| && Occupies(js[i], d) :: x[i] == y[i]
  {
    assert JobOk(s, js, a, x, i) && JobOk(s, js, b, y, i);
    if i > 0 { assert a[i-1] == a[..i][i-1] == b[..i][i-1] == b[i-1]; }
    if js[i].Queued? && 0 <= js[i].r.die < |s.dies| && js[i].r.op != OTHER {
      SameEnd(s, js, a, x, b, y, i, js[i].r.die);
    }
  }

  lemma SameEnd(s: State, js: seq<Job>, a: seq<Slot>, x: seq<real>, b: seq<Slot>, y: seq<real>, i: nat, d: nat)
    requires IsTimetable(s, js, a, x) && IsTimetable(s, js, b, y) && i < |js| && d < |s.dies| && Occupies(js[i], d)
    requires js[i].r.op == PROGRAM ==> a[i].finish == b[i].finish
    requires forall h: nat | h < i && Occupies(js[h], d) :: x[h] == y[h]
    ensures x[i] == y[i]
  {
    assert JobOk(s, js, a, x, i) && JobOk(s, js, b, y, i);
    assert DieOk(s, js, a, x, i, d) && DieOk(s, js, b, y, i, d);
  }

  /** Two operations on one die occupy it one after the other. */
  lemma DieIsSerial(s: State, es: seq<Event>, ends: seq<real>, i: nat, j: nat, d: nat)
    requires IsTimetable(s, AllJobs(es), Run(s, es).1, ends) && i < j < |AllJobs(es)|
    requires d < |s.dies| && Occupies(AllJobs(es)[i], d) && Occupies(AllJobs(es)[j], d)
    ensures ends[i] <= ends[j] - Duration(AllJobs(es)[j])
    ensures ends[j] - Duration(AllJobs(es)[j]) >= s.dies[d]
  {
    assert JobOk(s, AllJobs(es), Run(s, es).1, ends, j);
    assert DieOk(s, AllJobs(es), Run(s, es).1, ends, j, d);
  }

  /** A read is sensed only after the programs and erases that came before it on its die. */
  lemma ReadWaits(s: State, es: seq<Event>, i: nat, j: nat, d: nat)
    requires forall e :: 0 <= e < |es| ==> Timely(es[e])
    requires i < j < |AllJobs(es)| && d < |s.dies|
    requires Occupies(AllJobs(es)[i], d) && Occupies(AllJobs(es)[j], d) && AllJobs(es)[j].r.op == READ
    ensures var slots, before := Run(s, es).1, AllJobs(es)[i].r;
      && j < |slots| && slots[j].sensed.Some? && slots[j].start >= slots[j].sensed.value
      && (before.op == PROGRAM ==> slots[j].sensed.value >= slots[i].finish + T_PROG + T_R)
      && (before.op == ERASE ==> slots[j].sensed.value >= before.arrival + T_BERS + T_R)
      && (before.op == READ ==> slots[j].sensed.value >= before.arrival + T_R + T_R)
  {
    var ends := RunKeepsTimetable(s, es);
    DieIsSerial(s, es, ends, i, j, d);
    assert JobOk(s, AllJobs(es), Run(s, es).1, ends, i) && JobOk(s, AllJobs(es), Run(s, es).1, ends, j);
    assert DieOk(s, AllJobs(es), Run(s, es).1, ends, i, d);
  }
}

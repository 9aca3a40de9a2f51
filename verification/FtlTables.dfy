/** The forward and reverse maps of the flash translation layer, over every sequence of allocations. */
module FtlTables {
  import opened Options
  import opened FlashAddress

  datatype Tables = Tables(counter: nat, forward: map<int, string>, reverse: map<string, int>)

  const NO_TABLES := Tables(0, map[], map[])

  /** The location of the page number. */
  function Place(g: Geometry, idx: nat): string
    requires idx < TotalPages(g)
  {
    DecomposeThenCompose(g, idx);
    Location(Decompose(g, idx))
  }

  /** `_record_mapping`: the block's old location, if any, is forgotten. */
  function Record(t: Tables, id: int, loc: string): Tables {
    var kept := if id in t.forward then t.reverse - {t.forward[id]} else t.reverse;
    t.(forward := t.forward[id := loc], reverse := kept[loc := id])
  }

  /** `allocate`: the next page, or nothing once the capacity is used up. */
  function Allocate(g: Geometry, t: Tables, id: int): Option<Tables> {
    if t.counter >= TotalPages(g) then None
    else Some(Record(t, id, Place(g, t.counter)).(counter := t.counter + 1))
  }

  /** A sequence of allocations; one that fails changes nothing. */
  function Run(g: Geometry, ids: seq<int>): Tables {
    if ids == [] then NO_TABLES
    else
      var t := Run(g, ids[..|ids|-1]);
      var r := Allocate(g, t, ids[|ids|-1]);
      if r.Some? then r.value else t
  }

  ghost predicate Inverse(t: Tables) {
    && (forall id :: id in t.forward ==> t.forward[id] in t.reverse && t.reverse[t.forward[id]] == id)
    && (forall loc :: loc in t.reverse ==> t.reverse[loc] in t.forward && t.forward[t.reverse[loc]] == loc)
  }

  /** Only pages below the counter are in use. */
  ghost predicate UsesBelow(g: Geometry, t: Tables) {
    && t.counter <= TotalPages(g)
    && forall loc :: loc in t.reverse ==> exists idx: nat :: idx < t.counter && Place(g, idx) == loc
  }

  /** Different pages have different locations. */
  lemma PlaceInjective(g: Geometry, i: nat, j: nat)
    requires i < TotalPages(g) && j < TotalPages(g) && Place(g, i) == Place(g, j)
    ensures i == j
  {
    DecomposeThenCompose(g, i);
    DecomposeThenCompose(g, j);
    LocationInjective(Decompose(g, i), Decompose(g, j));
  }

  /** Page `idx` is the one whose numbers its location prints, channels first. */
  lemma PlaceIsAt(g: Geometry, idx: nat) returns (a: Address, numbers: seq<string>)
    requires idx < TotalPages(g)
    ensures InRange(g, a)
    ensures idx == (((a.channel * g.dies + a.die) * g.planes + a.plane) * g.blocks + a.block) * g.pages + a.page
    ensures IsPrinted(Place(g, idx), numbers)
    ensures Prints(numbers[0], a.channel) && Prints(numbers[1], a.die) && Prints(numbers[2], a.plane)
    ensures Prints(numbers[3], a.block) && Prints(numbers[4], a.page)
  {
    a, numbers := PageIsAt(g, idx);
  }

  lemma RecordInverse(t: Tables, id: int, loc: string)
    requires Inverse(t) && loc !in t.reverse
    ensures Inverse(Record(t, id, loc))
  {
    var u := Record(t, id, loc);
    forall other | other in u.forward
      ensures u.forward[other] in u.reverse && u.reverse[u.forward[other]] == other
    {
      if other != id { assert t.reverse[t.forward[other]] == other; }
    }
  }

  lemma AllocateOk(g: Geometry, t: Tables, id: int)
    requires Inverse(t) && UsesBelow(g, t) && t.counter < TotalPages(g)
    ensures var u := Allocate(g, t, id).value; Inverse(u) && UsesBelow(g, u)
  {
    var loc := Place(g, t.counter);
    var u := Allocate(g, t, id).value;
    assert loc !in t.reverse by {
      if loc in t.reverse {
        var idx: nat :| idx < t.counter && Place(g, idx) == loc;
        PlaceInjective(g, idx, t.counter);
      }
    }
    RecordInverse(t, id, loc);
    forall l | l in u.reverse ensures exists idx: nat :: idx < u.counter && Place(g, idx) == l {
      if l == loc {
        assert Place(g, t.counter) == l;
      } else {
        var idx: nat :| idx < t.counter && Place(g, idx) == l;
        assert idx < u.counter;
      }
    }
  }

  /** `ids[i]` is the last of the first `m` requests for its block. */
  predicate LastRequest(ids: seq<int>, m: nat, i: nat)
    requires m <= |ids| && i < m
  {
    forall j :: i < j < m ==> ids[j] != ids[i]
  }

  function Served(g: Geometry, ids: seq<int>): (m: nat)
    ensures m <= |ids| && m <= TotalPages(g)
  {
    if |ids| < TotalPages(g) then |ids| else TotalPages(g)
  }

  /** Is the block among the first `m` requests? */
  ghost predicate Requested(ids: seq<int>, m: nat, id: int)
    requires m <= |ids|
  {
    exists i: nat :: i < m && ids[i] == id
  }

  /** The blocks that have a location, and which one it is. */
  ghost predicate MapsLatest(g: Geometry, t: Tables, ids: seq<int>, m: nat)
    requires m <= |ids| && m <= TotalPages(g)
  {
    MapsRequested(t.forward, ids, m) && PlacesLatest(g, t.forward, ids, m)
  }

  ghost predicate MapsRequested(forward: map<int, string>, ids: seq<int>, m: nat)
    requires m <= |ids|
  {
    forall id :: id in forward <==> Requested(ids, m, id)
  }

  ghost predicate PlacesLatest(g: Geometry, forward: map<int, string>, ids: seq<int>, m: nat)
    requires m <= |ids| && m <= TotalPages(g)
  {
    forall i: nat :: i < m && LastRequest(ids, m, i) ==> ids[i] in forward && forward[ids[i]] == Place(g, i)
  }

  lemma RequestedSoFar(was: map<int, string>, now: map<int, string>, ids: seq<int>, m: nat)
    requires m < |ids| && now.Keys == was.Keys + {ids[m]}
    requires MapsRequested(was, ids, m)
    ensures MapsRequested(now, ids, m + 1)
  {
    forall id ensures id in now <==> Requested(ids, m + 1, id) {
      if Requested(ids, m, id) {
        var i: nat :| i < m && ids[i] == id;
        assert i < m + 1 && ids[i] == id;
      }
    }
  }

  lemma AllocateMapsLatest(g: Geometry, t: Tables, ids: seq<int>, m: nat)
    requires m < |ids| && m < TotalPages(g) && t.counter == m && MapsLatest(g, t, ids, m)
    ensures MapsLatest(g, Allocate(g, t, ids[m]).value, ids, m + 1)
  {
    var u := Allocate(g, t, ids[m]).value;
    assert u.forward == t.forward[ids[m] := Place(g, m)];
    RequestedSoFar(t.forward, u.forward, ids, m);
    LatestPlaced(g, t.forward, ids, m);
  }

  lemma LatestPlaced(g: Geometry, was: map<int, string>, ids: seq<int>, m: nat)
    requires m < |ids| && m < TotalPages(g) && PlacesLatest(g, was, ids, m)
    ensures PlacesLatest(g, was[ids[m] := Place(g, m)], ids, m + 1)
  {
    forall i: nat | i < m && LastRequest(ids, m + 1, i)
      ensures ids[i] != ids[m] && ids[i] in was && was[ids[i]] == Place(g, i)
    {
      assert LastRequest(ids, m, i);
    }
  }

  lemma {:induction false} MapsLatestOfPrefix(g: Geometry, t: Tables, ids: seq<int>, more: seq<int>, m: nat)
    requires m <= |ids| && m <= TotalPages(g) && MapsLatest(g, t, ids, m)
    ensures MapsLatest(g, t, ids + more, m)
  {
    var all := ids + more;
    forall id ensures id in t.forward <==> Requested(all, m, id) {
      if id in t.forward {
        var i: nat :| i < m && ids[i] == id;
        assert all[i] == id;
      }
      if i: nat :| i < m && all[i] == id { assert ids[i] == id; }
    }
    forall i: nat | i < m && LastRequest(all, m, i) ensures all[i] in t.forward && t.forward[all[i]] == Place(g, i) {
      forall j | i < j < m ensures ids[j] != ids[i] { assert all[j] != all[i]; }
      assert LastRequest(ids, m, i);
    }
  }

  /**
   After any sequence of allocations, repeated blocks included: exactly the first `total_pages`
   requests were served, every block requested among them maps to the page of its last request, and
   the forward and reverse maps are mutual inverses.
   */
  lemma {:induction false} RunIsLatest(g: Geometry, ids: seq<int>)
    ensures var t, m := Run(g, ids), Served(g, ids);
      && t.counter == m && MapsLatest(g, t, ids, m)
      && Inverse(t) && UsesBelow(g, t)
  {
    if ids != [] {
      var n := |ids| - 1;
      RunIsLatest(g, ids[..n]);
      var t, m := Run(g, ids[..n]), Served(g, ids[..n]);
      assert ids == ids[..n] + ids[n..];
      MapsLatestOfPrefix(g, t, ids[..n], ids[n..], m);
      if t.counter < TotalPages(g) {
        AllocateMapsLatest(g, t, ids, n);
        AllocateOk(g, t, ids[n]);
      }
    }
  }
}

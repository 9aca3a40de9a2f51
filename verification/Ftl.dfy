/** `ConventionalFTL` over its mapping table; its methods are specified by module FtlTables. */
module Ftl {
  import opened Options
  import opened FlashAddress
  import opened FtlTables

  class MappingTable {
    var entries: map<int, string>

    constructor ()
      ensures entries == map[]
    {
      entries := map[];
    }

    method SetMapping(blockId: int, loc: string)
      modifies this
      ensures entries == old(entries)[blockId := loc]
    {
      entries := entries[blockId := loc];
    }

    function GetMapping(blockId: int): Option<string>
      reads this
    {
      if blockId in entries then Some(entries[blockId]) else None
    }

    method Clear()
      modifies this
      ensures entries == map[]
    {
      entries := map[];
    }
  }

  class KVBlock {
    const blockId: int
    var physicalLocation: Option<string>

    constructor (blockId: int)
      ensures this.blockId == blockId && physicalLocation == None
    {
      this.blockId, physicalLocation := blockId, None;
    }
  }

  function Ids(blocks: seq<KVBlock>): (ids: seq<int>)
    ensures |ids| == |blocks|
  {
    seq(|blocks|, i requires 0 <= i < |blocks| => blocks[i].blockId)
  }

  /** The results of a batch: the requested blocks, with the locations the mapping table has for them. */
  ghost predicate Reports(results: map<int, string>, entries: map<int, string>, ids: seq<int>) {
    && (forall id :: id in results <==> id in ids)
    && (forall id :: id in results ==> id in entries && results[id] == entries[id])
  }

  lemma ReportsNext(results: map<int, string>, entries: map<int, string>, ids: seq<int>, i: nat, loc: string)
    requires i < |ids| && Reports(results, entries, ids[..i])
    ensures Reports(results[ids[i] := loc], entries[ids[i] := loc], ids[..i+1])
  {
    assert ids[..i+1] == ids[..i] + [ids[i]];
  }

  class ConventionalFTL {
    const geometry: Geometry
    const mappingTable: MappingTable
    var linearCounter: nat
    var reverseMap: map<string, int>

    function View(): Tables
      reads this, mappingTable
    {
      Tables(linearCounter, mappingTable.entries, reverseMap)
    }

    constructor (geometry: Geometry)
      ensures this.geometry == geometry && fresh(mappingTable) && View() == NO_TABLES
    {
      this.geometry := geometry;
      mappingTable := new MappingTable();
      linearCounter, reverseMap := 0, map[];
    }

    /** `_record_mapping` */
    method RecordMapping(blockId: int, loc: string)
      modifies this`reverseMap, mappingTable
      ensures View() == Record(old(View()), blockId, loc)
    {
      var oldLoc := mappingTable.GetMapping(blockId);
      if oldLoc.Some? {
        reverseMap := reverseMap - {oldLoc.value};
      }
      mappingTable.SetMapping(blockId, loc);
      reverseMap := reverseMap[loc := blockId];
    }

    /** `allocate`: nothing stands for the RuntimeError at the end of the capacity. */
    method Allocate(block: KVBlock) returns (r: Option<string>)
      modifies this, mappingTable, block
      ensures var a := FtlTables.Allocate(geometry, old(View()), block.blockId);
        && View() == (if a.Some? then a.value else old(View()))
        && (r.Some? <==> a.Some?)
        && (r.Some? ==> mappingTable.entries == old(mappingTable.entries)[block.blockId := r.value])
        && (r.Some? ==> r.value == Place(geometry, old(linearCounter)) && block.physicalLocation == r)
        && (r.None? ==> block.physicalLocation == old(block.physicalLocation))
    {
      if linearCounter >= TotalPages(geometry) { return None; }
      NoZeroFactor(geometry);
      DecomposeThenCompose(geometry, linearCounter);
      var idx := linearCounter;
      var pg := idx % geometry.pages;
      idx := idx / geometry.pages;
      var blk := idx % geometry.blocks;
      idx := idx / geometry.blocks;
      var pl := idx % geometry.planes;
      idx := idx / geometry.planes;
      var die := idx % geometry.dies;
      var ch := idx / geometry.dies;
      var loc := Location(Address(ch, die, pl, blk, pg));
      assert loc == Place(geometry, linearCounter);
      linearCounter := linearCounter + 1;
      RecordMapping(block.blockId, loc);
      block.physicalLocation := Some(loc);
      r := Some(loc);
    }

    /** `allocate_batch`: one after the other, up to the first that fails. */
    method AllocateBatch(blocks: seq<KVBlock>) returns (r: Option<map<int, string>>)
      modifies this, mappingTable, blocks
      ensures r.Some? <==> old(linearCounter) + |blocks| <= TotalPages(geometry) || blocks == []
      ensures View() == AllocateAll(geometry, old(View()), Ids(blocks))
      ensures r.Some? ==> Reports(r.value, mappingTable.entries, Ids(blocks))
    {
      var results: map<int, string> := map[];
      ghost var t, ids := View(), Ids(blocks);
      for i := 0 to |blocks|
        invariant linearCounter == t.counter + i && (i > 0 ==> linearCounter <= TotalPages(geometry))
        invariant AllocatesTo(geometry, t, ids, i, View())
        invariant Reports(results, mappingTable.entries, ids[..i])
      {
        AllocatesNext(geometry, t, ids, i, View());
        ghost var entries := mappingTable.entries;
        var loc := Allocate(blocks[i]);
        if loc == None {
          StuckOnceFull(geometry, t, ids, i);
          return None;
        }
        ReportsNext(results, entries, ids, i, loc.value);
        results := results[blocks[i].blockId := loc.value];
      }
      assert ids[..|blocks|] == ids;
      r := Some(results);
    }

    /** `translate` and `reverse_translate` */
    method Translate(blockId: int) returns (r: Option<string>)
      ensures r == if blockId in View().forward then Some(View().forward[blockId]) else None
    {
      r := mappingTable.GetMapping(blockId);
    }

    method ReverseTranslate(loc: string) returns (r: Option<int>)
      ensures r == if loc in View().reverse then Some(View().reverse[loc]) else None
    {
      r := if loc in reverseMap then Some(reverseMap[loc]) else None;
    }

    /** `reset` */
    method Reset()
      modifies this, mappingTable
      ensures View() == NO_TABLES
    {
      linearCounter := 0;
      mappingTable.Clear();
      reverseMap := map[];
    }
  }

  /** Allocations one after the other from given tables; one that fails changes nothing. */
  function AllocateAll(g: Geometry, t: Tables, ids: seq<int>): Tables {
    if ids == [] then t
    else
      var u := AllocateAll(g, t, ids[..|ids|-1]);
      var r := FtlTables.Allocate(g, u, ids[|ids|-1]);
      if r.Some? then r.value else u
  }

  lemma {:induction false} AllocateAllIsRun(g: Geometry, before: seq<int>, ids: seq<int>)
    ensures AllocateAll(g, Run(g, before), ids) == Run(g, before + ids)
  {
    if ids == [] {
      assert before + ids == before;
    } else {
      AllocateAllIsRun(g, before, ids[..|ids|-1]);
      assert (before + ids)[..|before + ids|-1] == before + ids[..|ids|-1];
    }
  }

  /** Allocating the first `i` blocks leads to those tables. */
  ghost predicate AllocatesTo(g: Geometry, t: Tables, ids: seq<int>, i: nat, u: Tables)
    requires i <= |ids|
  {
    u == AllocateAll(g, t, ids[..i])
  }

  lemma AllocatesNext(g: Geometry, t: Tables, ids: seq<int>, i: nat, u: Tables)
    requires i < |ids| && AllocatesTo(g, t, ids, i, u)
    ensures var r := FtlTables.Allocate(g, u, ids[i]); AllocatesTo(g, t, ids, i + 1, if r.Some? then r.value else u)
  {
    assert ids[..i+1][..i] == ids[..i];
  }

  lemma {:induction false} StuckOnceFull(g: Geometry, t: Tables, ids: seq<int>, i: nat)
    requires i <= |ids| && AllocateAll(g, t, ids[..i]).counter >= TotalPages(g)
    ensures AllocateAll(g, t, ids) == AllocateAll(g, t, ids[..i])
    decreases |ids|
  {
    if i == |ids| {
      assert ids[..i] == ids;
    } else {
      assert ids[..|ids|-1][..i] == ids[..i];
      StuckOnceFull(g, t, ids[..|ids|-1], i);
    }
  }
}

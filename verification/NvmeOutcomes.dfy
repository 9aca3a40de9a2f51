/** What direct access to the device returns and leaves, byte by byte. */
module NvmeOutcomes {
  import opened Options
  import opened Arithmetic
  import opened Wire
  import opened NvmeProtocol

  /** A write changes exactly the bytes it names, as far as the device reaches, and succeeds if it reaches that far. */
  lemma WriteBytes(env: Scoring, offset: nat, data: Bytes, dev: Bytes)
    ensures var after := After(Write(offset, data), dev);
      && |after| == |dev|
      && forall i: nat | i < |dev| ::
           after[i] == if offset + |data| < 0x8000_0000_0000_0000 && offset <= i < offset + |data|
                       then data[i - offset] else dev[i]
    ensures Direct(env, Write(offset, data), dev)
         == if offset + |data| < 0x8000_0000_0000_0000 && (data == [] || offset + |data| <= |dev|)
            then Wrote(|data|) else Failed
  {
  }

  /** A read returns the bytes it names, as far as the device reaches, if they fit the daemon's buffer. */
  lemma ReadBytes(env: Scoring, offset: nat, length: nat, dev: Bytes)
    ensures var outcome := Direct(env, Read(offset, length), dev);
      if offset + length < 0x8000_0000_0000_0000 && length <= 1024 * 1024 then
        && outcome.Data?
        && |outcome.bytes| == (if offset >= |dev| then 0 else Min(length, |dev| - offset))
        && forall i: nat | i < |outcome.bytes| :: outcome.bytes[i] == dev[offset + i]
      else outcome == Failed
  {
  }

  /** The item's bytes lie on the device. */
  predicate Inside(dev: Bytes, i: Item) {
    i.offset + i.length < 0x8000_0000_0000_0000 && (i.length == 0 || i.offset + i.length <= |dev|)
  }

  function ItemBytes(dev: Bytes, i: Item): Bytes
    requires Inside(dev, i)
  {
    if i.length == 0 then [] else dev[i.offset..i.offset + i.length]
  }

  lemma FullIffInside(dev: Bytes, i: Item)
    ensures Full(dev, i.offset, i.length) <==> Inside(dev, i)
    ensures Inside(dev, i) ==> PRead(dev, i.offset, i.length) == Some(ItemBytes(dev, i))
  {
  }

  /** Item `j` is the last with its id. */
  predicate LastWithId(items: seq<Item>, j: nat)
    requires j < |items|
  {
    forall m :: j < m < |items| ==> items[m].id != items[j].id
  }

  predicate HasId(items: seq<Item>, id: nat) {
    exists j :: 0 <= j < |items| && items[j].id == id
  }

  /** The blocks hold what the items name, the last item of an id, and for other ids what was there. */
  ghost predicate Holds(dev: Bytes, items: seq<Item>, got: map<nat, Bytes>, blocks: map<nat, Bytes>) {
    && (forall id :: id in blocks <==> id in got || HasId(items, id))
    && (forall j: nat | j < |items| && LastWithId(items, j) ::
          items[j].id in blocks && Inside(dev, items[j]) && blocks[items[j].id] == ItemBytes(dev, items[j]))
    && (forall id :: id in got && !HasId(items, id) ==> id in blocks && blocks[id] == got[id])
  }

  lemma {:induction false} BatchFrom(dev: Bytes, items: seq<Item>, got: map<nat, Bytes>)
    ensures var outcome := DirectBatch(dev, items, got);
      if forall i :: 0 <= i < |items| ==> Inside(dev, items[i])
      then outcome.Blocks? && Holds(dev, items, got, outcome.blocks)
      else outcome == Failed
    decreases |items|
  {
    if items != [] {
      FullIffInside(dev, items[0]);
      if Inside(dev, items[0]) {
        var more := got[items[0].id := ItemBytes(dev, items[0])];
        BatchFrom(dev, items[1..], more);
        if forall i :: 0 <= i < |items| ==> Inside(dev, items[i]) {
          HoldsFirst(dev, items, got, DirectBatch(dev, items[1..], more).blocks);
        } else {
          var i :| 0 <= i < |items| && !Inside(dev, items[i]);
          assert items[1..][i-1] == items[i];
        }
      }
    }
  }

  lemma FirstOrRest(items: seq<Item>, id: nat)
    requires items != []
    ensures HasId(items, id) <==> id == items[0].id || HasId(items[1..], id)
  {
    if j :| 0 <= j < |items| && items[j].id == id && j > 0 { assert items[1..][j-1].id == id; }
    if j :| 0 <= j < |items| - 1 && items[1..][j].id == id { assert items[j+1].id == id; }
  }

  lemma HoldsFirst(dev: Bytes, items: seq<Item>, got: map<nat, Bytes>, blocks: map<nat, Bytes>)
    requires items != [] && Inside(dev, items[0])
    requires Holds(dev, items[1..], got[items[0].id := ItemBytes(dev, items[0])], blocks)
    ensures Holds(dev, items, got, blocks)
  {
    var rest := items[1..];
    forall id ensures HasId(items, id) <==> id == items[0].id || HasId(rest, id) {
      FirstOrRest(items, id);
    }
    forall j: nat | j < |items| && LastWithId(items, j)
      ensures items[j].id in blocks && Inside(dev, items[j]) && blocks[items[j].id] == ItemBytes(dev, items[j])
    {
      if j > 0 {
        assert rest[j-1] == items[j];
        assert LastWithId(rest, j - 1);
      } else {
        assert !HasId(rest, items[0].id);
      }
    }
  }

  /**
   A batch returns, for every id, the bytes that its last item names, and fails if some item does not lie on the
   device.
   */
  lemma BatchBytes(env: Scoring, items: seq<Item>, dev: Bytes)
    ensures var outcome := Direct(env, Batch(items), dev);
      if forall i :: 0 <= i < |items| ==> Inside(dev, items[i])
      then outcome.Blocks? && Holds(dev, items, map[], outcome.blocks)
      else outcome == Failed
  {
    BatchFrom(dev, items, map[]);
  }
}

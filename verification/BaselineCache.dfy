/** `BaselineKVCache`: the flat cache that the tiered cache is measured against. */
module BaselineCache {
  import opened Options
  import opened Accumulator
  import opened TieredCache
  import opened TieredRuns

  /** The bytes of a token's keys in one layer. */
  function RowBytes(heads: nat, dim: nat, elemBytes: nat): nat { heads * dim * elemBytes }

  /** Keys and values of that many tokens in every layer. */
  function UsageBytes(tokens: nat, layers: nat, row: nat): nat { 2 * layers * tokens * row }

  lemma Reorder(tokens: nat, layers: nat, heads: nat, dim: nat, elemBytes: nat)
    ensures tokens * (2 * layers * heads * dim * elemBytes)
        == UsageBytes(tokens, layers, RowBytes(heads, dim, elemBytes))
  {
    var row := RowBytes(heads, dim, elemBytes);
    assert 2 * layers * heads * dim * elemBytes == 2 * layers * row;
  }

  class BaselineKVCache {
    const layers: nat
    const heads: nat
    const dim: nat
    const elemBytes: nat
    var currentTokens: nat
    var keys: seq<Option<seq<Matrix>>>
    var values: seq<Option<seq<Matrix>>>

    ghost predicate Valid()
      reads this
    {
      && |keys| == |values| == layers
      && forall l :: 0 <= l < layers ==> (keys[l].Some? <==> values[l].Some?)
    }

    /** The keys and values of every layer that has been written to. */
    ghost function View(): Baseline
      requires Valid()
      reads this
    {
      map l | 0 <= l < layers && keys[l].Some? :: Payload(keys[l].value, values[l].value)
    }

    constructor (layers: nat, heads: nat, dim: nat, elemBytes: nat)
      ensures Valid() && View() == map[] && currentTokens == 0
      ensures this.layers == layers && this.heads == heads && this.dim == dim && this.elemBytes == elemBytes
    {
      this.layers, this.heads, this.dim, this.elemBytes := layers, heads, dim, elemBytes;
      currentTokens := 0;
      keys, values := seq(layers, _ => None), seq(layers, _ => None);
    }

    /** `prefill`: replaces the layer; layer 0 sets the token count. */
    method Prefill(layerId: nat, kSeq: seq<Matrix>, vSeq: seq<Matrix>)
      requires Valid() && layerId < layers
      modifies this
      ensures Valid() && View() == BaseStep(old(View()), PrefillOp(layerId, kSeq, vSeq))
      ensures currentTokens == if layerId == 0 then |kSeq| else old(currentTokens)
    {
      keys := keys[layerId := Some(kSeq)];
      values := values[layerId := Some(vSeq)];
      if layerId == 0 { currentTokens := |kSeq|; }
    }

    /** `append_token`: extends the layer; the last layer advances the token count. */
    method AppendToken(layerId: nat, kToken: Matrix, vToken: Matrix)
      requires Valid() && layerId < layers
      modifies this
      ensures Valid() && View() == BaseStep(old(View()), AppendOp(layerId, kToken, vToken))
      ensures currentTokens == if layerId == layers - 1 then old(currentTokens) + 1 else old(currentTokens)
    {
      ghost var was := View();
      assert [] + [kToken] == [kToken] && [] + [vToken] == [vToken];
      if keys[layerId] == None {
        keys := keys[layerId := Some([kToken])];
        values := values[layerId := Some([vToken])];
      } else {
        keys := keys[layerId := Some(keys[layerId].value + [kToken])];
        values := values[layerId := Some(values[layerId].value + [vToken])];
      }
      assert View()[layerId] == Payload(Kv(was, layerId).k + [kToken], Kv(was, layerId).v + [vToken]);
      if layerId == layers - 1 { currentTokens := currentTokens + 1; }
    }

    /** `get_kv` */
    method GetKv(layerId: nat) returns (k: seq<Matrix>, v: seq<Matrix>)
      requires Valid() && layerId < layers
      ensures Payload(k, v) == Kv(View(), layerId)
    {
      if keys[layerId] == None || values[layerId] == None { return [], []; }
      k, v := keys[layerId].value, values[layerId].value;
    }

    /** `get_memory_usage_bytes`: from the token count, not from the tensors. */
    method GetMemoryUsageBytes() returns (bytes: nat)
      ensures bytes == UsageBytes(currentTokens, layers, RowBytes(heads, dim, elemBytes))
    {
      Reorder(currentTokens, layers, heads, dim, elemBytes);
      bytes := currentTokens * (2 * layers * heads * dim * elemBytes);
    }
  }
}

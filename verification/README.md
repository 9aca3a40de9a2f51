# Verification model of the tiered KV cache and its in-storage attention

This project models the storage-offloaded KV cache of a transformer decoder and proves what its parts
promise to each other. Nothing in it runs the original program; everything is checked by the Dafny
verifier (`dafny verify dfyconfig.toml`).

## What is modelled

**Hybrid attention.** A tiered cache cuts a growing token stream into blocks, keeps the attention
sinks and a sliding window in RAM and moves the other blocks to storage. A decode step attends to the
resident tokens on the host, asks the device for the best stored blocks, and merges both results with
an online softmax. `TieredCache`, `TieredRefinement` and `TieredRuns` give the cache as values and show
that it refines the flat baseline cache over every run; `TieredManager`, `BaselineCache` and
`FlashController` are the mutable objects, proved against those values. `Softmax` and `Accumulator`
are the streaming merge, `HybridAttention`, `HybridExact` and `Pruner` the composition. The end result
is `HybridExact.EndToEnd` and, for the objects, `Pruner.InStorageAttentionPruner.DecodeIsDense`: after any run of
prefills and appends, decode attention is exactly dense softmax attention over the baseline sequence, as
`DenseReference` writes it out over queries, keys and values.
`HybridSession` drives the objects of both caches through such a run and takes the decode step.
The exponential is a parameter that satisfies `exp(0) = 1`, `exp(a + b) = exp(a) exp(b)` and
positivity; nothing else is assumed of it except, for the upper bound on `l`, that it does not exceed
one on non-positive arguments.

**Selection kernel.** `Ranking` defines the stable descending sort and shows that an insertion buffer
with strict comparisons is its prefix. `Kernel` has the C loops over arrays, `DotKernels` the unrolled
and the vector dot products, `Binding` and `Selection` what the host reads out of the buffers.

**NVMe protocol.** `Wire` is the little-endian format of packed structures, `NvmeProtocol` both ends as
functions on byte strings, `NvmeStreams`, `NvmeDaemon` and `NvmeClient` the loops over sockets that deliver
bytes in arbitrary chunks. `NvmeScoring` says which candidates the daemon can score without leaving its
buffers, `NvmeKernel` that their pages are then what the scoring kernel expects, `NvmeFraming` what one call
does to the two streams, `NvmeTopk` and `NvmeOutcomes` what it answers byte by byte, and `WireLayout` where
each field lies; `NvmeRuns` interleaves partial sends and receives of both sides over whole runs, and
`NvmeSessions` takes the requests of a run to the daemon's loop.

**Storage state machines.** `BackendStore`, `BackendRuns`, `BackendCharges`, `BackendTopk` and
`InferenceBackend` are the append-only extent store with its counters and its filter; `FlashAddress`,
`FtlTables` and `Ftl` the conventional translation layer; `ChannelSchedule`, `ChannelTimetable` and `Channel`
the flash channel.

**State providers and traces.** `TransformerState`, `TransformerReach`, `WindowFilter` and `TransformerKv`
are the transformer and sliding-window providers; `Blockize` and `BlockAdapter` the padding blockization;
`TraceEvents`, `TraceContents`, `TraceSelection`, `TraceTallies`, `TraceGenerator` and `KnownRun` the trace
generator and its validator.

## Exact conditions

Several laws hold only under a condition. In each case the condition is proved to be exact.

- The tiered cache agrees with the baseline over every run if and only if the sliding window is at least
  one token or blocks hold a single token (`TieredRuns.RefinesIffWindowOk`). With no window and larger
  blocks an append reaches a block that is already in storage, and the token is lost
  (`TieredRuns.LosingRunDisagrees`).
- After `fetch_cold_block` the fetched block is both resident and stored. A complete decode step attends to every
  block once if and only if the fetched block was the only cold one (`TieredFetch.FetchAttendsOnceIff`).
- A pick of all candidates is a permutation of them if and only if every candidate but the last scores
  above -1e30; an unfilled slot is read as Python index -1 (`Selection.PicksCompleteIff`).
- Every query head maps to a key head of its own token if and only if the number of key heads divides that of
  query heads (`Kernel.GroupedHeadsInRange`). With other head counts the scoring kernels read key vectors of the
  tokens behind, and score the same as long as the caller's buffer holds what they read
  (`Kernel.ComputeBlockScoreGqa`); that a page does is the condition under which the daemon can score it
  (`NvmeKernel.ScorableIffKeysLie`).
- A call leaves both streams empty if and only if the daemon stays within its buffers, a write fits the
  buffer, no item of a batch but perhaps the last fails, and a query is as long as its header says
  (`NvmeFraming.KeepsFrameIff`). The daemon leaves its buffers in two ways: it reads a batch item longer
  than its buffer, or it scores a candidate whose page is shorter than what its loops read, or with a
  head ratio of zero (`NvmeScoring.ScorableIff`, `NvmeScoring.ZeroRatio`). Such a request has the outcome
  `Undefined`, which no run of `NvmeRuns` contains (`NvmeSessions.RunIsSession`).
- Per-channel write bytes sum to the bytes written if and only if, since the last reset, the heads of every
  block divided its size. Per-channel read bytes differ from the bytes read by exactly what the filters and
  batches since the last reset owe: 4096 bytes for every missing candidate of a filter that returns, and
  the charges of one that raises. While all of them return, the sums agree if and only if every filter
  candidate was stored (`BackendRuns.ConservedIff`); one operation keeps them in step under an exact
  condition of its own (`BackendRuns.InStepIff`), and debts of either sign can cancel
  (`BackendRuns.GapsCancel`).
- A batched read counts like single reads if and only if it returns or its first block raises
  (`BackendRuns.BatchIsEachIff`); its channels agree if and only if the recorded ones are those that the
  mapper gives, in some order (`BackendRuns.ChannelsAgreeIff`).
- RAM plus offloaded bytes are what the baseline reports if and only if its layers hold `current_tokens`
  tokens on average (`Residency.UsageReportedIff`): not while a token is on its way through the layers
  (`Residency.ReportedBetweenTokensIff`).
- A complete selection restores the prefilled sequence if and only if `recent_tokens` is at least one or
  the prefill is short: a slice `[-0:]` is the whole tensor (`TransformerReach.ReconstructIff`). Each append
  puts one more token out of reach for good (`TransformerReach.ReachableIff`, `TransformerReach.LostCount`),
  after a long prefill without a window only once the copied prefill has slid out.
- The reported number of active tokens bounds the real one unless the prefill was exactly as long as sink
  and window together and has grown since, or was long with `recent_tokens` 0 and does not fit the selected
  blocks twice over (`TransformerReach.ReportedBoundsIff`).
- A layer is blockized if and only if the heads of a block divide its KV heads (`Blockize.AcceptsIff`).
- The validator's record loop accepts a generated trace if and only if pages have 4096 bytes and KV heads
  are 0 and 1 (`TraceEvents.AcceptedIff`); its checks of lines 88-180 all pass if, besides, something is decoded,
  some layer has a candidate and the number of events is 7872 (`TraceTallies.ValidatedIff`).

Where documentation and code disagree the model follows the code: `append_token` is documented to
maintain the tiering boundaries, but it neither enforces `max_hot_blocks_per_layer` nor counts a token that goes
into an offloaded block; `append_new_token` slides its window without offloading the token that
leaves it; and `get_memory_stats` reports a bound that a grown short prefill exceeds.

## Model

| member | source | states |
|---|---|---|
| `Softmax.UpdateTracks` | person1_kv_engine/computational_storage/streaming_softmax.py:27-60 | one update keeps m the running maximum (floored at -1e30), l the exponential sum and acc the weighted sum of exactly the tokens seen so far, relative to the new m |
| `Softmax.UpdateAllTracks` | person1_kv_engine/computational_storage/streaming_softmax.py:27-60 | the same after any list of partitions, empty ones included |
| `Softmax.FinalizeTracked` | person1_kv_engine/computational_storage/streaming_softmax.py:62-65 | finalizing gives the softmax average of all tokens seen, and zero before the first token |
| `Softmax.StreamingEqualsOneShot` | person1_kv_engine/computational_storage/streaming_softmax.py:27-65 | tokens fed in any partitioning and any order finalize to the one-shot softmax average of the whole multiset |
| `Softmax.AccumulatorBounds` | person1_kv_engine/computational_storage/streaming_softmax.py:37-65 | with no logit below -1e30 and n >= 1 tokens, 1 <= l <= n and the output lies between the least and the greatest value seen |
| `Softmax.AverageAnyReference` | person1_kv_engine/computational_storage/streaming_softmax.py:43-60 | the ratio of weighted sum and exponential sum does not depend on the logit they are taken relative to |
| `Softmax.AveragePermute` | person1_kv_engine/computational_storage/streaming_softmax.py:27-65 | softmax attention does not depend on the order of its tokens |
| `Softmax.MergeSummarizes` | person1_kv_engine/computational_storage/streaming_softmax.py:68-99 | merging two normalized results gives the normalized result over all their tokens together |
| `Softmax.TrackedSummarizes` | person1_kv_engine/computational_storage/streaming_softmax.py:27-99 | a finalized accumulator is a summary that the pairwise merge accepts: both forms interoperate |
| `Softmax.MergeCommutes` | person1_kv_engine/computational_storage/streaming_softmax.py:68-99 | merging is commutative, all three components |
| `Softmax.MergeAssociates` | person1_kv_engine/computational_storage/streaming_softmax.py:68-99 | merging is associative, all three components, on results with positive l |
| `Softmax.DenseIsAverage` | person1_kv_engine/attention/attention.py:93-114 | the dense decode step, which normalizes weights before applying them, is the same average |
| `DenseReference.AverageIsAttention` | person1_kv_engine/attention/attention.py:93-114 | the softmax average over tokens that carry the logits and values of a head and coordinate is dense attention written out over q, K and V: the sum over t of exp(x(t) - m) V[t][h][d] over the sum of exp(x(t) - m), x(t) being the scale times the sum over i of q[h][i] K[t][h][i], for every m |
| `DenseReference.AttentionUnique` | person1_kv_engine/attention/attention.py:93-114 | that determines the number |
| `HybridAttention.TokensCarry` | person1_kv_engine/computational_storage/instorage_pruner.py:62-67 | what head h and coordinate d see of a payload are the logits of that head's own query and key vectors, and the values at that coordinate |
| `Accumulator.VectorUpdate` | person1_kv_engine/computational_storage/streaming_softmax.py:37-60 | the row-wise vector arithmetic of an update, at one head and one value coordinate, is the scalar update |
| `Accumulator.OnlineSoftmaxAccumulator.constructor` | person1_kv_engine/computational_storage/streaming_softmax.py:15-25 | the running triples start at (-1e30, 0, 0) at every head and coordinate |
| `Accumulator.OnlineSoftmaxAccumulator.UpdateWithPartition` | person1_kv_engine/computational_storage/streaming_softmax.py:27-60 | every head and coordinate advances by the scalar update over its own logits and values; nothing changes for zero tokens |
| `Accumulator.OnlineSoftmaxAccumulator.FinalizeContext` | person1_kv_engine/computational_storage/streaming_softmax.py:62-65 | the context holds the finalized value at every head and coordinate and the state stays |
| `DotKernels.DotUnrolled` | person1_kv_engine/c_kernel/instorage_attention.c:44-54 | the 4-way unrolled loop with its remainder loop computes the plain dot product, for every length |
| `DotKernels.Dot64IsDot` | person1_kv_engine/c_kernel/instorage_attention.c:122-138 | the 64-element vector form is the plain dot product |
| `DotKernels.Dot128OneIsDot` | person1_kv_engine/c_kernel/instorage_attention.c:140-165 | the one-accumulator 128-element form is the plain dot product |
| `DotKernels.Dot128FourIsDot` | scripts/nvme_guest_daemon.c:93-124 | the four-accumulator 128-element form is the plain dot product |
| `DotKernels.DotByDimIsDot` | scripts/nvme_guest_daemon.c:145-155 | whichever form the head dimension selects, in either file, it is the plain dot product |
| `Ranking.SortedIsRanking` | person1_kv_engine/adapters/transformer_kv.py:331-332 | the stable descending sort lists every index once, by score, ties to the lower index |
| `Ranking.RankingUnique` | person1_kv_engine/adapters/transformer_kv.py:331-332 | there is only one such listing |
| `Ranking.RankingIffSorted` | person1_kv_engine/adapters/transformer_kv.py:331-332 | a list is that ranking if and only if it is the sort result |
| `Ranking.OfferAt` | person1_kv_engine/c_kernel/instorage_attention.c:99-116 | when the scores from a position on are smaller, offering inserts there and pushes the last entry out |
| `Ranking.BufferIsSortedPrefix` | person1_kv_engine/c_kernel/instorage_attention.c:94-117 | after any candidates the insertion buffer holds the first k entries of the stable sort of those above the blank score, then blanks |
| `Ranking.BufferEntry` | person1_kv_engine/c_kernel/instorage_attention.c:94-117 | entry by entry, for a buffer of any size and all scores above the blank one |
| `Ranking.KernelAgreesWithFallback` | person1_kv_engine/adapters/transformer_kv.py:306-332 | with all scores above -1e30 the kernel buffer equals the Python fallback sort(reverse=True)[:k] |
| `Kernel.BlockScoreIsMax` | person1_kv_engine/c_kernel/instorage_attention.c:34-64 | the block score is the exact maximum of -1e30 and, over all tokens and query heads, the scale times the sum over i of Q[h][i] K[t][h / ratio][i] |
| `Kernel.GroupedHeadsInRange` | scripts/nvme_guest_daemon.c:136-142 | for any number of query heads, qh / (q_heads / kv_heads) is defined and a key head for every query head exactly when kv_heads divides q_heads |
| `Kernel.ReachedIsHeads` | scripts/nvme_guest_daemon.c:136-142 | with a dividing number of key heads the loops read exactly the key vectors of the token itself |
| `Kernel.ComputeBlockScore` | person1_kv_engine/c_kernel/instorage_attention.c:26-64 | over flat buffers the loops compute the block score of the tensors laid out in them |
| `Kernel.ComputeBlockScoreGqa` | person1_kv_engine/c_kernel/instorage_attention.c:167-204 | the same for query heads that share key heads, with any head counts: the key vectors are those the loops reach, which may be those of tokens behind |
| `Kernel.OfferInPlace` | person1_kv_engine/c_kernel/instorage_attention.c:99-116 | search, shift and store in the two parallel arrays insert one entry into the ranked buffer and leave the rest of the arrays alone |
| `Kernel.InstorageTopkFilter` | person1_kv_engine/c_kernel/instorage_attention.c:66-120 | status -1 and -2 exactly on missing arguments and non-positive dimensions, else 0 with the buffers holding the insertion buffer after all blocks |
| `Kernel.InstorageTopkFilterGqa` | person1_kv_engine/c_kernel/instorage_attention.c:206-252 | the same for the grouped-query filter over separate block buffers, with any positive head counts for which the buffers hold what is read |
| `Kernel.SelectGqa` | person1_kv_engine/c_kernel/instorage_attention.c:226-250 | both loops of that filter: initialize, then score and offer every block |
| `Binding.StackedBlocks` | person1_kv_engine/c_kernel/kernel_binding.py:117-118 | stacking blocks of equal shape puts every row of every block where the kernel looks for it |
| `Binding.ComputeTopk` | person1_kv_engine/c_kernel/kernel_binding.py:99-146 | fails exactly when the kernel rejects its arguments; else returns the picked positions and their scores, unfilled slots read as Python index -1 |
| `Selection.BufferGivesPicks` | person1_kv_engine/c_kernel/kernel_binding.py:143-146 | reading the kernel buffers as list indices gives the picks and their scores |
| `Selection.PicksAreBest` | person1_kv_engine/storage_backend/mock_ssd.py:258-265 | with scores above -1e30 the picks are the first k positions of the stable descending sort |
| `Selection.PickedBeatUnpicked` | person1_kv_engine/storage_backend/mock_ssd.py:258-265 | every picked block ranks before every block that was not picked |
| `Selection.NeverPicked` | person1_kv_engine/c_kernel/instorage_attention.c:99-100 | a score at or below -1e30 is never picked, except in the last position |
| `Selection.PicksCompleteIff` | person1_kv_engine/c_kernel/kernel_binding.py:143-146 | with top_k at least the number of candidates the pick is a permutation of them if and only if all but the last score above -1e30 |
| `TieredCache.ColdStaysCold` | person1_kv_engine/tiering/hot_cold_classifier.py:20-32 | a block that is cold stays cold as the sequence grows |
| `TieredCache.HotIff` | person1_kv_engine/tiering/hot_cold_classifier.py:20-32 | a block is hot exactly when one of its tokens is a sink or in the window |
| `TieredRefinement.ColdIsFull` | person1_kv_engine/tiering/tiered_kv_manager.py:72-116 | cold blocks are full, and the last block is resident unless blocks hold a single token |
| `TieredRefinement.SettleOk` | person1_kv_engine/tiering/tiered_kv_manager.py:55-70 | an eviction pass leaves a block resident exactly when it is hot, and the store with exactly the cold blocks and their data |
| `TieredRefinement.PrefillOk` | person1_kv_engine/tiering/tiered_kv_manager.py:27-70 | prefilling a layer without tokens establishes the layer invariant against the baseline sequence |
| `TieredRefinement.AppendOk` | person1_kv_engine/tiering/tiered_kv_manager.py:72-116 | appending a token keeps the invariant for the extended sequence |
| `TieredRefinement.TilesTotal` | person1_kv_engine/tiering/tiered_kv_manager.py:100-101 | token counts of a layer sum to the length of the sequence |
| `TieredRefinement.JoinedIsBaseline` | person1_kv_engine/tiering/tiered_kv_manager.py:139-156 | joining the data of a layer's blocks in order, from RAM or from storage, gives exactly the baseline keys and values |
| `TieredRuns.RunsOk` | person1_kv_engine/tiering/tiered_kv_manager.py:27-116 | the layer invariant holds for every layer after every run of prefills and appends |
| `TieredRuns.RefinesIffWindowOk` | person1_kv_engine/tiering/tiered_kv_manager.py:72-116 | the tiered cache agrees with the baseline over every run, and over every run of a model of any fixed dimensions, if and only if the window is at least one token or blocks hold one token |
| `TieredRuns.LosingRunDisagrees` | person1_kv_engine/tiering/tiered_kv_manager.py:79-87 | without a window a concrete run, of tokens of any shape, appends to an offloaded block and loses that token |
| `HybridAttention.Accounting` | person1_kv_engine/tiering/tiered_kv_manager.py:139-161 | resident blocks plus stored blocks are all blocks once, plus once more those held twice |
| `HybridAttention.SlicesAreAll` | person1_kv_engine/tiering/tiered_kv_manager.py:139-156 | the slices of all blocks join to the whole sequence |
| `HybridAttention.StoredInBlockOrder` | person1_kv_engine/storage_backend/mock_ssd.py:208-216 | sorting the stored blocks by id puts them in block order |
| `HybridAttention.SortedIdsUnique` | person1_kv_engine/storage_backend/mock_ssd.py:215-216 | the sorted list of a set of ids is its only ascending listing |
| `HybridExact.HybridIsAverage` | person1_kv_engine/computational_storage/instorage_pruner.py:50-93 | in any state and for any top_k, the hybrid result is the softmax average over exactly the tokens attended to: dense attention written out over their keys and values |
| `HybridExact.AttendedOnceIff` | person1_kv_engine/computational_storage/instorage_pruner.py:57-90 | a complete scan attends to every block exactly once if and only if no block is held twice while another is cold |
| `HybridExact.HybridIsDense` | person1_kv_engine/computational_storage/instorage_pruner.py:32-106 | under that condition, with top_k at least the number of stored blocks and scores above -1e30, the hybrid result is dense attention written out over the keys and values of the sequence |
| `HybridExact.EndToEnd` | person1_kv_engine/computational_storage/instorage_pruner.py:32-106 | after any run of prefills and appends, hybrid decode attention is dense attention written out over the baseline's keys and values, at every head and coordinate |
| `FlashController.ColumnIsTokens` | person1_kv_engine/computational_storage/instorage_pruner.py:62-67 | the logits and values passed to an update come from the same token at the same place |
| `FlashController.ReplyAligned` | person1_kv_engine/storage_backend/mock_ssd.py:195-341 | in the device's reply logit column t and value t belong to the same token |
| `FlashController.MockSSDController.StoreKv` | person1_kv_engine/storage_backend/mock_ssd.py:62-119 | stores the pair under (layer, block) and leaves every other entry |
| `FlashController.MockSSDController.LoadKv` | person1_kv_engine/storage_backend/mock_ssd.py:121-166 | returns what was stored, or fails if nothing was |
| `FlashController.MockSSDController.InStorageTopkAttention` | person1_kv_engine/storage_backend/mock_ssd.py:195-341 | replies with ids, values, logits and scores of the picked blocks: under its ids lie the values, and entry [h][t] of the logits is the scaled inner product of head h's query with its key vector in token t; fails exactly where the caller or the native kernel would |
| `FlashController.LogitsAre` | person1_kv_engine/storage_backend/mock_ssd.py:310-321 | entry [h][t] is the scale times the sum over i of q[h][i] K[t][h][i] |
| `TieredFetch.FetchKeepsData` | person1_kv_engine/tiering/tiered_kv_manager.py:118-137 | fetching moves no data: every block still holds its part of the sequence |
| `TieredFetch.FetchScannedOnce` | person1_kv_engine/tiering/tiered_kv_manager.py:118-137 | after fetching a cold block the layer is scanned once exactly when no other block is cold |
| `TieredFetch.FetchAttendsOnceIff` | person1_kv_engine/tiering/tiered_kv_manager.py:118-137 | after a fetch a complete decode attends to every block once if and only if the fetched block was the only cold one |
| `TieredManager.KVBlockPool.AllocateBlock` | person1_kv_engine/tiering/kv_block.py:37-64 | a fresh resident block with the next id becomes the last of its layer; all other blocks stay |
| `TieredManager.KVBlockPool.AllBlocks` | person1_kv_engine/tiering/kv_block.py:72-73 | lists the blocks in the order of their ids |
| `TieredManager.TieredKVManager.constructor` | person1_kv_engine/tiering/tiered_kv_manager.py:27-30 | starts with an empty pool |
| `TieredManager.TieredKVManager.EvictCold` | person1_kv_engine/tiering/tiered_kv_manager.py:55-70 | the loop moves exactly the blocks of the settled view to storage and changes no other block |
| `TieredManager.TieredKVManager.AllocateChunks` | person1_kv_engine/tiering/tiered_kv_manager.py:32-53 | the allocation loop adds exactly the chunks of the sequence, with fresh ids |
| `TieredManager.ChunkAt` | person1_kv_engine/tiering/tiered_kv_manager.py:35-43 | the slice that the loop takes at each index is that chunk of the sequence |
| `TieredManager.ChunkCount` | person1_kv_engine/tiering/tiered_kv_manager.py:32 | the rounded-up division is the number of chunks |
| `TieredManager.TieredKVManager.PrefillSequence` | person1_kv_engine/tiering/tiered_kv_manager.py:27-70 | the objects end up representing exactly the prefilled cache value |
| `TieredManager.TieredKVManager.AppendToken` | person1_kv_engine/tiering/tiered_kv_manager.py:72-116 | the objects end up representing exactly the appended cache value |
| `TieredManager.TieredKVManager.GetHotKv` | person1_kv_engine/tiering/tiered_kv_manager.py:139-156 | returns the joined data of the resident blocks in block order, and the positions of those blocks |
| `TieredManager.TieredKVManager.GetColdBlocks` | person1_kv_engine/tiering/tiered_kv_manager.py:158-161 | returns exactly the blocks of the layer that are not resident, in block order |
| `TieredManager.TieredKVManager.FetchColdBlock` | person1_kv_engine/tiering/tiered_kv_manager.py:118-137 | fails exactly on an unknown block or missing data; else the objects represent the fetched cache value |
| `TieredManager.TieredKVManager.GetHostRamUsageBytes` | person1_kv_engine/tiering/tiered_kv_manager.py:163-169 | sums the bytes of resident data over all blocks |
| `TieredManager.TieredKVManager.GetOffloadedStorageBytes` | person1_kv_engine/tiering/tiered_kv_manager.py:174-181 | sums the bytes of all blocks that are not resident |
| `BaselineCache.BaselineKVCache.Prefill` | person1_kv_engine/baseline/kv_cache_baseline.py:22-27 | replaces the layer; layer 0 sets the token count |
| `BaselineCache.BaselineKVCache.AppendToken` | person1_kv_engine/baseline/kv_cache_baseline.py:29-40 | extends the layer; the last layer advances the token count |
| `BaselineCache.BaselineKVCache.GetKv` | person1_kv_engine/baseline/kv_cache_baseline.py:42-46 | returns the layer's keys and values, empty for a layer never written |
| `BaselineCache.BaselineKVCache.GetMemoryUsageBytes` | person1_kv_engine/baseline/kv_cache_baseline.py:48-52 | the token count times the bytes of one token's keys and values over all layers |
| `Pruner.StoredUniform` | person1_kv_engine/computational_storage/instorage_pruner.py:75-87 | after every run all stored blocks are full, so the device can stack them, and something is stored exactly when some block is cold |
| `Pruner.InStorageAttentionPruner.ComputeDecodeAttention` | person1_kv_engine/computational_storage/instorage_pruner.py:32-106 | the object computation returns hybrid attention at every head and coordinate, which is dense attention written out over the tokens attended to, and fails exactly when a block is cold and the device cannot reply |
| `Pruner.InStorageAttentionPruner.HybridAttends` | person1_kv_engine/computational_storage/instorage_pruner.py:32-106 | with however few blocks asked for, the context is dense attention over the tokens attended to |
| `Pruner.InStorageAttentionPruner.DecodeIsDense` | person1_kv_engine/computational_storage/instorage_pruner.py:32-106 | over every run, with top_k at least the number of stored blocks and scores above -1e30, the device can reply and the context is dense attention written out over the baseline's keys and values |
| `HybridSession.DecodeAfter` | person1_kv_engine/computational_storage/instorage_pruner.py:32-106 | the objects driven through any run and then one decode step: the context is dense attention written out over the keys and values that the baseline object returns, at every head and coordinate |
| `Residency.ListedIffResident` | person1_kv_engine/tiering/tiered_kv_manager.py:146-150 | a position is among the hot indices exactly when a resident block covers it |
| `Residency.HotCoversSinkAndWindow` | person1_kv_engine/tiering/hot_cold_classifier.py:20-32 | the attention sinks and the sliding window are always among the hot indices |
| `Residency.ResidentIff` | person1_kv_engine/tiering/hot_cold_classifier.py:20-32 | after every run a block is resident exactly when one of its tokens is a sink or in the window |
| `Residency.HotRowsAreBaseline` | person1_kv_engine/tiering/tiered_kv_manager.py:139-156 | after every run the resident rows are the baseline's rows at the listed positions |
| `Residency.ResidentBound` | person1_kv_engine/tiering/tiered_kv_manager.py:100-116 | at any sequence length a layer keeps at most ceil(sink/tpb) + ceil(window/tpb) + 1 blocks in RAM |
| `Residency.ColdForever` | person1_kv_engine/tiering/tiered_kv_manager.py:100-116 | over every run, a block once in storage stays there with the same data |
| `Residency.UsageConserved` | person1_kv_engine/tiering/tiered_kv_manager.py:163-181 | over every run, RAM bytes plus offloaded bytes, each counted over the pool, equal the bytes of the baseline keys and values |
| `Residency.UsageSplit` | person1_kv_engine/tiering/tiered_kv_manager.py:163-181 | over every run, RAM bytes are those of the resident blocks' tokens and offloaded bytes those of the others |
| `Residency.UsageReportedIff` | person1_kv_engine/baseline/kv_cache_baseline.py:48-52 | over every run, RAM plus offloaded bytes are what get_memory_usage_bytes reports if and only if the layers hold current_tokens tokens on average or a token has no bytes |
| `Residency.ReportedBetweenTokensIff` | person1_kv_engine/baseline/kv_cache_baseline.py:29-52 | while one more token goes through the layers, the reported usage is right before the first and after the last layer and nowhere in between |
| `HybridSession.UsageAfter` | person1_kv_engine/tiering/tiered_kv_manager.py:163-181 | the three usage counters of the objects after any run, compared with the same exact condition |
| `Residency.PoolEnumerates` | person1_kv_engine/tiering/kv_block.py:60-73 | the pool's list of blocks enumerates every layer's blocks |
| `Wire.FromPacked` | scripts/nvme_guest_daemon.c:27-73 | an integer that fits its width survives little-endian packing |
| `Wire.PackedFrom` | scripts/nvme_guest_daemon.c:27-73 | every byte string is the encoding of the integer it stands for |
| `Wire.HeaderRoundTrip` | scripts/nvme_guest_daemon.c:28-44 | every packed request or response header decodes to its fields |
| `Wire.ItemRoundTrip` | scripts/nvme_guest_daemon.c:46-50 | every packed batch item decodes to its fields |
| `Wire.CandidateRoundTrip` | scripts/nvme_guest_daemon.c:61-66 | every packed top-k candidate decodes to its fields |
| `Wire.TopkHeaderRoundTrip` | scripts/nvme_guest_daemon.c:52-59 | every packed top-k parameter header decodes to its fields |
| `Wire.TopItemRoundTrip` | scripts/nvme_guest_daemon.c:68-72 | every packed top-k result decodes to its fields |
| `Wire.ItemHeadRoundTrip` | scripts/nvme_guest_daemon.c:451-453 | every packed batch reply item head decodes to its status, block id and length |
| `WireLayout.HeaderLayout` | scripts/nvme_guest_daemon.c:28-44 | byte by byte, little-endian: magic at 0, operation or status at 4, flags or operation at 5, reserved at 6, offset at 8, length at 16 |
| `WireLayout.ItemLayout` | scripts/nvme_guest_daemon.c:46-50 | offset at 0, length at 8, id at 12 |
| `WireLayout.CandidateLayout` | scripts/nvme_guest_daemon.c:61-66 | offset at 0, length at 8, id at 12, tokens at 16 |
| `WireLayout.TopkHeaderLayout` | scripts/nvme_guest_daemon.c:52-59 | candidates, top_k, query heads, key heads, head dimension and scale at 0, 4, 8, 12, 16 and 20 |
| `WireLayout.TopItemLayout` | scripts/nvme_guest_daemon.c:68-72 | id at 0, score at 4, tokens at 8 |
| `WireLayout.ItemHeadLayout` | scripts/nvme_guest_daemon.c:451-453 | status at 0, id at 1, length at 5 |
| `Wire.AllRoundTrip` | person2_ssd/nvme_client.py:221-225 | packed structures at the head of a stream are read back, whatever follows them |
| `NvmeFraming.ServeLocal` | scripts/nvme_guest_daemon.c:374-545 | how the daemon reacts to a message does not depend on what follows it in the stream |
| `NvmeFraming.ReceiveLocal` | person2_ssd/nvme_client.py:138-358 | nor does what the client makes of a reply |
| `NvmeFraming.Serves` | scripts/nvme_guest_daemon.c:374-545 | on every request the client can pack, with a query of the announced length, the daemon reads the request, replies and leaves exactly what comes after, except for the payload of an oversize write; or it leaves its buffers, exactly where the request is not defined |
| `NvmeFraming.Receives` | person2_ssd/nvme_client.py:147-358 | for a defined request the client's outcome is that of acting on the byte array directly, and it leaves exactly the unclaimed part of the reply |
| `NvmeFraming.CallIsDirect` | scripts/nvme_guest_daemon.c:374-545 | a call that keeps in frame consumes exactly its request and its reply; outcome and device are those of direct access |
| `NvmeFraming.KeepsFrameIff` | scripts/nvme_guest_daemon.c:374-545 | a call leaves both streams empty if and only if the daemon stays within its buffers (batch items fit its buffer, pages hold what the scoring loops read, no head ratio of zero), a write fits the buffer, no batch item but the last fails, and a query has the announced length |
| `NvmeFraming.WriteThenRead` | scripts/nvme_guest_daemon.c:395-433 | a read returns what was last written there, and other bytes are unchanged |
| `NvmeFraming.TopIsSorted` | scripts/nvme_guest_daemon.c:479-532 | a top-k reply is the stable descending sort of the readable candidates, then blank entries with block id 0 |
| `NvmeTopk.TopItemsAnswer` | scripts/nvme_guest_daemon.c:479-532 | for any flags: pages are read as half precision if flags are 1 or the first page has 16 * kv_heads * head_dim * 2 bytes, modulo 2^32, else as single precision; the places go to the readable candidates that exceed -1e30, best first and earlier first among equals, with id, rounded page score and token count, and what is left is blank |
| `NvmeTopk.TopkOutcome` | person2_ssd/nvme_client.py:287-340 | the same for the outcome of the client's call, which sets the flag if it asks for half precision |
| `NvmeOutcomes.WriteBytes` | scripts/nvme_guest_daemon.c:395-413 | a write changes exactly the bytes it names, as far as the device reaches, and succeeds if it reaches that far |
| `NvmeOutcomes.ReadBytes` | scripts/nvme_guest_daemon.c:414-433 | a read returns the bytes it names, as far as the device reaches, if they fit the buffer |
| `NvmeOutcomes.BatchBytes` | scripts/nvme_guest_daemon.c:434-458 | a batch returns, for every id, the bytes that its last item names, and fails if some item does not lie on the device |
| `NvmeScoring.ScorableIff` | scripts/nvme_guest_daemon.c:126-164 | with positive dimensions and a query head per key head, the scoring loops stay inside exactly when the page holds the last key vector that they read |
| `NvmeScoring.PageHoldsTokensIff` | scripts/nvme_guest_daemon.c:126-164 | if key heads divide query heads, exactly when the page holds all the candidate's tokens |
| `NvmeScoring.ZeroRatio` | scripts/nvme_guest_daemon.c:136-142 | with fewer query heads than key heads a candidate with tokens cannot be scored: the head ratio is zero |
| `NvmeKernel.ScorableIffKeysLie` | scripts/nvme_guest_daemon.c:490-507 | the daemon can score a candidate exactly when the elements of the page it has read are a block of keys in the layout of the scoring kernel, and they are one block only |
| `NvmeKernel.QueryLies` | scripts/nvme_guest_daemon.c:467-473 | the floats of a request are a query in the layout of the scoring kernel |
| `NvmeKernel.ScorePage` | scripts/nvme_guest_daemon.c:490-507 | on the page of a candidate that can be scored, in single or half precision, the kernel computes the score of the page's bytes against the request's |
| `NvmeKernel.PageScoreIs` | scripts/nvme_guest_daemon.c:126-164 | that score is the greatest, over all tokens and query heads, of the scale times the inner product of four-byte query floats and two-byte or four-byte key floats at their byte positions, or -1e30 |
| `NvmeRuns.RunsLikeByteArray` | scripts/nvme_guest_daemon.c:374-545 | over every interleaving of partial sends and receives the outcomes and the device are those of one byte array, and between calls all queues are empty |
| `NvmeRuns.NeverStuck` | person2_ssd/nvme_client.py:138-145 | a call under way can always take a step |
| `NvmeRuns.StepsFinish` | person2_ssd/nvme_client.py:138-145 | every step brings the call closer to its end |
| `NvmeStreams.RecvExact` | person2_ssd/nvme_client.py:138-145 | returns exactly n bytes off the stream whatever the chunks, or fails if it ends before |
| `NvmeStreams.ReadAll` | scripts/nvme_guest_daemon.c:288-299 | fills exactly the first len cells of the buffer from the stream, or fails if it ends before |
| `NvmeStreams.WriteAll` | scripts/nvme_guest_daemon.c:301-312 | puts exactly the given bytes on the stream, whatever the chunks |
| `NvmeDaemon.OfferItem` | scripts/nvme_guest_daemon.c:509-520 | search, shift and store in the result array insert one scored candidate into the ranked buffer |
| `NvmeDaemon.NvmeDaemon.PReadInto` | scripts/nvme_guest_daemon.c:421 | reads up to the end of the device into the buffer and reports how much, -1 on a negative offset |
| `NvmeDaemon.NvmeDaemon.PWriteFrom` | scripts/nvme_guest_daemon.c:405 | writes the buffer's bytes to the device up to its end and changes nothing else |
| `NvmeDaemon.NvmeDaemon.HandleWrite` | scripts/nvme_guest_daemon.c:395-413 | replies, drains and changes the device as the write branch of the protocol says |
| `NvmeDaemon.NvmeDaemon.HandleRead` | scripts/nvme_guest_daemon.c:414-433 | replies as the read branch of the protocol says |
| `NvmeDaemon.NvmeDaemon.HandleBatch` | scripts/nvme_guest_daemon.c:434-458 | replies item by item as the batch branch of the protocol says, and goes astray exactly where an item does not fit the buffer |
| `NvmeDaemon.NvmeDaemon.SelectTop` | scripts/nvme_guest_daemon.c:479-521 | the result array ends up as the insertion buffer after all readable candidates, if all of them can be scored |
| `NvmeDaemon.NvmeDaemon.HandleTopk` | scripts/nvme_guest_daemon.c:459-532 | replies as the top-k branch of the protocol says, and goes astray exactly where a page does not hold what is read of it |
| `NvmeDaemon.NvmeDaemon.ServeRequest` | scripts/nvme_guest_daemon.c:374-546 | one turn of the loop, on any stream: rest, replies and device are those of the protocol function |
| `NvmeDaemon.NvmeDaemon.ServeConnection` | scripts/nvme_guest_daemon.c:374-546 | the whole loop, on any stream: all replies, the final device, and whether the daemon stayed within its buffers |
| `NvmeSessions.SessionIsDirect` | scripts/nvme_guest_daemon.c:374-546 | on the requests of a session that keeps in frame the daemon's loop stays within its buffers, and its replies and device are those of direct access |
| `NvmeSessions.RunIsSession` | scripts/nvme_guest_daemon.c:374-546 | the calls of every possible interleaved run are such a session: the loop and the run theorem speak of the same calls |
| `NvmeClient.QemuNvmeClient.IsAlive` | person2_ssd/nvme_client.py:121-136 | sends exactly its packed ping and decides by the reply header; a reset connection is not alive |
| `NvmeClient.QemuNvmeClient.Flush` | person2_ssd/nvme_client.py:351-358 | sends exactly its packed flush and consumes the reply header |
| `NvmeClient.QemuNvmeClient.Write` | person2_ssd/nvme_client.py:147-169 | sends exactly its packed request; result, leftover and counters follow from the reply bytes |
| `NvmeClient.QemuNvmeClient.Read` | person2_ssd/nvme_client.py:171-203 | the same for a read |
| `NvmeClient.QemuNvmeClient.ReadBatch` | person2_ssd/nvme_client.py:205-262 | the same for a batch; sends nothing for an empty list |
| `NvmeClient.QemuNvmeClient.ComputeTopk` | person2_ssd/nvme_client.py:264-349 | the same for a top-k; sends nothing without candidates |
| `BackendRuns.RunRefines` | person2_ssd/inference_backend.py:209-335 | in every run of writes, rewrites, evictions, reads, batches, filters and resets, reads return the latest write of the block, zeros if it is not stored, and raise exactly on a buffer of the wrong size |
| `BackendRuns.MissingIsZeros` | person2_ssd/inference_backend.py:385-389 | after any run a block that is not stored reads as zeros, four bytes for each number of the declared shape |
| `BackendRuns.ExtentsTile` | person2_ssd/inference_backend.py:288-301 | all extents ever written lie one behind the other below the append offset and the file still holds every one of them |
| `BackendRuns.EntriesAreExtents` | person2_ssd/inference_backend.py:303-319 | every stored block's keys are directly followed by its values and together they are one of those extents |
| `BackendRuns.BatchIsEachIff` | person2_ssd/inference_backend.py:546-801 | a batched read makes the same request, block and byte totals as reading its blocks one by one, exactly when it returns or its first block raises |
| `BackendRuns.ChannelsAgreeIff` | person2_ssd/inference_backend.py:546-801 | the channel counters of a batch and of single reads agree exactly if the recorded channels are, in some order, those the mapper gives |
| `BackendRuns.LostIff` | person2_ssd/inference_backend.py:280 | integer division loses no bytes of a write exactly when its heads divide its size |
| `BackendRuns.ConservedIff` | person2_ssd/inference_backend.py:838-905 | over every run the channels' write bytes sum to the total exactly when heads divided every block's size since the last reset; their read bytes differ by exactly what filters and batches owe: while all return, they agree exactly when every filter candidate was stored |
| `BackendRuns.InStepIff` | person2_ssd/inference_backend.py:822-918 | one operation keeps channels and total in step exactly if a filter that returns found every candidate stored, and a filter or batch that raises charged no byte before |
| `BackendRuns.LargePagesConserve` | person2_ssd/inference_backend.py:838-905 | with pages larger than 4096 bytes the read bytes are conserved over every run whose filters and batches return |
| `BackendRuns.GapsCancel` | person2_ssd/inference_backend.py:838-905 | a filter that raises after charging and one that counts a missing candidate can cancel out: equal sums do not mean that every step kept them equal |
| `InferenceBackend.RealInferenceStorageBackend.WriteBlock` | person2_ssd/inference_backend.py:209-335 | appends both pages, records the block and charges a channel for every head: the mapper's answers head after head, each counted up once and charged one share of the bytes as often as it is listed, the first of them recorded |
| `BackendCharges.WriteIsCharged` | person2_ssd/inference_backend.py:249-280 | the channels of a write are the mapper's answers for heads head_id, head_id + 1, ... under the counters that include the heads before, and every counter grows by the channel's occurrences among them |
| `BackendCharges.ReadIsCharged` | person2_ssd/inference_backend.py:362-540 | a read that returns charges the mapper's channel for its page's bytes and counts one request of its kind |
| `BackendCharges.BatchIsCharged` | person2_ssd/inference_backend.py:546-801 | a batch charges the recorded channel of every block for its bytes, up to the first that raises |
| `BackendCharges.FilterIsCharged` | person2_ssd/inference_backend.py:838-905 | a filter charges the recorded channel of every stored candidate for its keys, and counts 4096 bytes for each of the others if it returns |
| `InferenceBackend.RealInferenceStorageBackend.ReadPage` | person2_ssd/inference_backend.py:362-540 | returns the stored page, zeros for a missing block, charged to the channel the mapper gives; raises, uncharged, exactly on a buffer of the wrong size |
| `InferenceBackend.RealInferenceStorageBackend.ReadPageBatch` | person2_ssd/inference_backend.py:546-801 | returns every block's page by id, with one batch charge, or one by one if batching is off; a batch that raises has charged the blocks before |
| `InferenceBackend.RealInferenceStorageBackend.EvictBlock` | person2_ssd/inference_backend.py:803-808 | removes the entry and reports whether there was one; the file stays |
| `InferenceBackend.RealInferenceStorageBackend.ComputeTopkFilter` | person2_ssd/inference_backend.py:822-918 | charges the stored candidates, loads and scores every page, counts, and returns the selection by those scores; returns exactly when every page has its shape and the scoring accepts its arguments |
| `BackendTopk.HitsAreBest` | person2_ssd/inference_backend.py:877-897 | the selection is the first of a ranking of all candidates by score, earlier ones first among equals: with NumPy always, with the native kernel if every score exceeds -1e30 |
| `BackendTopk.NativeAgrees` | person2_ssd/inference_backend.py:877-897 | under that condition both paths select the same blocks with the same scores |
| `BackendTopk.LatestIsScored` | person2_ssd/inference_backend.py:868-875 | after every run a stored candidate is scored by the keys of its latest write |
| `InferenceBackend.RealInferenceStorageBackend.ResetStats` | person2_ssd/inference_backend.py:1010-1032 | zeroes every counter and keeps every block |
| `ChannelSchedule.BusIsSerial` | person2_ssd/channels/channel.py:49-99 | across any interleaving of queue runs and direct transfers bus intervals do not overlap, follow request order, and the busy time never decreases |
| `ChannelSchedule.ReadsSenseFirst` | person2_ssd/channels/channel.py:70-78 | no read goes on the bus before its die has sensed the page, at least one sensing time after its arrival |
| `ChannelSchedule.SensingIsSerial` | person2_ssd/channels/channel.py:69-95 | across any interleaving of queue runs and direct transfers, two reads on one die are sensed one after the other |
| `ChannelTimetable.RunKeepsTimetable` | person2_ssd/channels/channel.py:69-99 | across any interleaving of queue runs and direct transfers there is a timetable: every read, program and erase occupies its die for 25, 200 or 2000 us from when it is ready (a program once transferred) and the die is free, no later; every bus slot starts as soon as its data is ready (a read once sensed) and the slot before is over |
| `ChannelTimetable.TimetableUnique` | person2_ssd/channels/channel.py:69-99 | requests and initial state leave only one timetable |
| `ChannelTimetable.DieIsSerial` | person2_ssd/nand/nand.py:64-80 | any two operations on one existing die occupy it one after the other |
| `ChannelTimetable.ReadWaits` | person2_ssd/channels/channel.py:69-95 | a read is sensed no earlier than T_PROG + T_R after the bus slot of a program before it on its die, and than T_BERS + T_R after the arrival of an erase |
| `ChannelSchedule.ReadBound` | person2_ssd/channels/channel.py:64-99 | n reads finish within the latest start plus n sensing times plus their transfers |
| `ChannelSchedule.BusierIsLater` | person2_ssd/channels/channel.py:64-99 | starting from a busier channel no request gets an earlier slot |
| `Channel.FlashDie.Schedule` | person2_ssd/nand/nand.py:64-80 | busy time becomes the later of start and busy time plus the duration |
| `Channel.FlashChannel.ScheduleTransfer` | person2_ssd/channels/channel.py:49-58 | the transfer takes the next bus slot |
| `Channel.FlashChannel.EnqueueRequest` | person2_ssd/channels/channel.py:60-62 | the request joins the end of the queue |
| `Channel.FlashChannel.ServeRequest` | person2_ssd/channels/channel.py:69-95 | one turn of the loop gives the request its slot and advances bus and die as the schedule says |
| `Channel.FlashChannel.ProcessQueue` | person2_ssd/channels/channel.py:64-99 | every queued request gets the slot of the schedule and completes once for each time it is queued, in order, one queued several times keeps the times of its last turn, and the queue is empty |
| `FlashAddress.DecomposeThenCompose` | person2_ssd/ftl/conventional.py:53-64 | every page number below the capacity has an in-range address, and is the number of that address |
| `FlashAddress.ComposeThenDecompose` | person2_ssd/ftl/conventional.py:53-64 | every in-range address is that of its page number: the decomposition is a bijection |
| `FlashAddress.LocationInjective` | person2_ssd/ftl/conventional.py:68 | the printed location determines the address |
| `FlashAddress.PageIsAt` | person2_ssd/ftl/conventional.py:54-68 | page idx is at the channel, die, plane, block and page whose numbers are its digits in the geometry's mixed radix, channels first, and the location prints them in that order, in decimal |
| `FtlTables.PlaceInjective` | person2_ssd/ftl/conventional.py:53-68 | different pages print different locations |
| `FtlTables.PlaceIsAt` | person2_ssd/ftl/conventional.py:54-68 | so is the location that an allocation hands out |
| `FtlTables.AllocateOk` | person2_ssd/ftl/base.py:42-48 | an allocation below the capacity keeps forward and reverse map mutually inverse and uses only pages below the counter |
| `FtlTables.RunIsLatest` | person2_ssd/ftl/conventional.py:42-71 | after any allocations, repeated blocks included, the first total_pages requests were served, every block maps to its latest page and the maps are mutual inverses |
| `Ftl.MappingTable.SetMapping` | person2_ssd/ftl/mapping.py:13-14 | sets one entry and keeps the others |
| `Ftl.ConventionalFTL.RecordMapping` | person2_ssd/ftl/base.py:42-48 | forgets the block's old location and records the new one in both maps |
| `Ftl.ConventionalFTL.Allocate` | person2_ssd/ftl/conventional.py:42-71 | returns the next page's location, recorded in both maps and on the block, or nothing at the capacity |
| `Ftl.ConventionalFTL.AllocateBatch` | person2_ssd/ftl/base.py:60-65 | serves the blocks in order up to the first failure and reports the final location of every requested block |
| `Ftl.ConventionalFTL.Translate` | person2_ssd/ftl/base.py:67-69 | looks the block up in the forward map |
| `Ftl.ConventionalFTL.ReverseTranslate` | person2_ssd/ftl/base.py:71-73 | looks the location up in the reverse map |
| `Ftl.ConventionalFTL.Reset` | person2_ssd/ftl/conventional.py:73-76 | empties both maps and starts again at page 0 |
| `Ftl.AllocateAllIsRun` | person2_ssd/ftl/base.py:60-65 | batched allocation from empty tables is the allocation run |
| `TransformerReach.PageIsSlice` | person1_kv_engine/adapters/transformer_kv.py:180-189 | the stored page of a block, cut to its valid rows, is the block's part of the history |
| `TransformerReach.RecentIsTail` | person1_kv_engine/adapters/transformer_kv.py:152-206 | after any appends the window is the end of the stream: recent_tokens long after a long prefill (as long as the prefill if that is 0), one token after a short one |
| `TransformerReach.ActiveIsGathered` | person1_kv_engine/adapters/transformer_kv.py:208-372 | the active state is exactly the tokens of the stream at sink, selected-block and window positions |
| `TransformerReach.ActiveAscends` | person1_kv_engine/adapters/transformer_kv.py:351-360 | with scores above -1e30 the active state is in strictly increasing position order, for any selection and any number of appends, except with recent_tokens 0 after a long prefill, then exactly once as many tokens are appended as precede the end of the last selected block |
| `TransformerReach.ReachableIff` | person1_kv_engine/adapters/transformer_kv.py:201-206 | with every block selected, a position is out of reach exactly when it lies between what prefill kept and the window |
| `TransformerReach.LostCount` | person1_kv_engine/adapters/transformer_kv.py:201-206 | the set of positions that no selection reaches has one member per appended token; a short prefill leaves room for one append, recent_tokens 0 after a long one for as many as were prefilled |
| `TransformerReach.LostForAll` | person1_kv_engine/adapters/transformer_kv.py:201-206 | what all blocks together do not reach, no selection reaches |
| `TransformerReach.ReconstructIff` | person1_kv_engine/adapters/transformer_kv.py:152-206 | before any append a complete selection gives back the prefilled sequence if and only if the window holds a token or the prefill was short |
| `TransformerReach.FullSelection` | person1_kv_engine/adapters/transformer_kv.py:351-360 | a complete selection sorted by id is the candidate list |
| `TransformerReach.FullPercent` | person1_kv_engine/adapters/transformer_kv.py:226 | a 100% selection is complete |
| `TransformerState.KValIsShare` | person1_kv_engine/adapters/transformer_kv.py:226 | the number of blocks retrieved out of n is the least k >= 1 with 100 k >= n * top_k_pct |
| `TransformerReach.ActiveHoldsShare` | person1_kv_engine/adapters/transformer_kv.py:208-372 | the active state holds the sinks, the rows of min(k, n) selected blocks for that k, and the window |
| `TransformerReach.BestAreSelected` | person1_kv_engine/adapters/transformer_kv.py:226-250 | with scores above -1e30, what is selected goes before what is not, by score, and among equal scores the earlier candidate |
| `TransformerReach.ReportedIs` | person1_kv_engine/adapters/transformer_kv.py:382-384 | the reported number of active tokens is sinks plus window plus k whole blocks for that k |
| `TransformerReach.ReportedBoundsIff` | person1_kv_engine/adapters/transformer_kv.py:374-401 | the reported number of active tokens bounds the real one except for a full short prefill that has grown and, with recent_tokens 0 after a long prefill, unless prefill and history together fit the selected blocks |
| `TransformerKv.TransformerKVStateProvider.InitLayer` | person1_kv_engine/adapters/transformer_kv.py:152-198 | one layer's entry and stored blocks are those of the initial state |
| `TransformerKv.TransformerKVStateProvider.OffloadHistory` | person1_kv_engine/adapters/transformer_kv.py:168-189 | the loop writes exactly the padded blocks of the history and lists them as candidates |
| `TransformerKv.TransformerKVStateProvider.InitFromPrefill` | person1_kv_engine/adapters/transformer_kv.py:119-199 | every layer given is initialized; layers and stored blocks of others stay |
| `TransformerKv.TransformerKVStateProvider.AppendNewToken` | person1_kv_engine/adapters/transformer_kv.py:201-206 | slides the window by one token and counts it; fails for a layer without data |
| `TransformerKv.TransformerKVStateProvider.SelectAndFetchActiveState` | person1_kv_engine/adapters/transformer_kv.py:208-372 | returns sink, selected blocks in id order and window; fails without a query or layer |
| `TransformerKv.TransformerKVStateProvider.SelectionHoldsShare` | person1_kv_engine/adapters/transformer_kv.py:226 | what it returns holds min(k, n) selected blocks, k being the least positive integer with 100 k >= n * top_k_pct |
| `TransformerKv.SlidingWindowKVStateProvider.constructor` | person1_kv_engine/adapters/sliding_window_kv.py:40-51 | a model without a window, or with a window of zero, gets 4096 tokens |
| `TransformerKv.SlidingWindowKVStateProvider.SelectAndFetchActiveState` | person1_kv_engine/adapters/sliding_window_kv.py:60-86 | selects among the candidates reaching into the window; the full candidate list is back in place on every exit |
| `TransformerKv.SlidingWindowKVStateProvider.SelectionHoldsShare` | person1_kv_engine/adapters/sliding_window_kv.py:60-86 | what it returns holds min(k, n) of the n candidates that reach into the window, with that k |
| `WindowFilter.KeptIff` | person1_kv_engine/adapters/sliding_window_kv.py:71-81 | a candidate is kept exactly when one of its positions is in the window |
| `WindowFilter.KeptIsSuffix` | person1_kv_engine/adapters/sliding_window_kv.py:71-81 | the kept blocks are a suffix of the candidates |
| `WindowFilter.DroppedGrows` | person1_kv_engine/adapters/sliding_window_kv.py:71-81 | as tokens come in blocks only ever drop out |
| `Blockize.AcceptsIff` | person1_kv_engine/real_llm/block_adapter.py:59-72 | with elements of the declared size a layer with heads and tokens is accepted exactly when heads per block divides its KV heads |
| `Blockize.DramIff` | person1_kv_engine/real_llm/block_adapter.py:117-128 | a block is DRAM exactly when one of its tokens is a sink or in the recent window |
| `Blockize.BlockIds` | person1_kv_engine/real_llm/block_adapter.py:95-154 | block ids count up without gaps, one block for every head group and stretch of tokens |
| `Blockize.RoundTrip` | person1_kv_engine/real_llm/block_adapter.py:98-156 | reassembling the blocks by head and token without padding restores the tensor, for every sequence length |
| `Blockize.LayerIsBlocks` | person1_kv_engine/real_llm/block_adapter.py:98-156 | every block holds a stretch of tokens of a group of heads row by row, padded behind the last token, is DRAM exactly on overlap with sink or window, and has the hotness of its place |
| `BlockAdapter.IdsContiguous` | person1_kv_engine/real_llm/block_adapter.py:158-171 | over all layers the ids are 0, 1, 2, ... without a gap and every block knows its layer |
| `BlockAdapter.KVBlockAdapter.BlockizeLayer` | person1_kv_engine/real_llm/block_adapter.py:74-156 | returns the layer's blocks of keys and values, or fails exactly on a geometry that does not match |
| `BlockAdapter.KVBlockAdapter.BlockizeGroup` | person1_kv_engine/real_llm/block_adapter.py:101-154 | the inner loop: one head group, stretch by stretch |
| `BlockAdapter.KVBlockAdapter.BlockizeAllLayers` | person1_kv_engine/real_llm/block_adapter.py:158-171 | the layers in ascending order, numbered through |
| `TraceEvents.AcceptedIff` | scripts/validate_real_trace.py:88-180 | the record loop accepts a generated trace if and only if all blocks have 4096-byte pages and KV heads 0 and 1, and the head check over all records never rejects what the loop accepted |
| `TraceTallies.ShowsAllIff` | scripts/validate_real_trace.py:171-175 | key, value and whole-block accesses all occur in a generated trace exactly when something is decoded and some layer has a candidate |
| `TraceTallies.ValidatedIff` | scripts/validate_real_trace.py:88-180 | the checks of lines 88-180 pass on a generated trace exactly under those conditions and with the expected number of events |
| `TraceEvents.EventCount` | person1_kv_engine/real_llm/trace_generator.py:68-199 | the number of events is layers * blocks + steps * layers * (dram + 1 + k) with candidates, without them layers * blocks + steps * layers * dram |
| `TraceSelection.KernelSelectorOk` | person1_kv_engine/real_llm/trace_generator.py:106-127 | whatever the scores and the share, something is selected where there is something to select |
| `TraceSelection.KValIsShare` | person1_kv_engine/real_llm/trace_generator.py:106 | the number selected is the greatest integer at most top_k_percent of the candidates, but at least one |
| `TraceSelection.ChosenAreBest` | person1_kv_engine/real_llm/trace_generator.py:108-127 | with scores above -1e30 the chosen blocks are the first of all candidates ranked by score |
| `TraceGenerator.GenerateTrace` | person1_kv_engine/real_llm/trace_generator.py:68-199 | the nested loops write exactly the trace of the run, ids and timestamps counted up |
| `TraceContents.TraceIs` | person1_kv_engine/real_llm/trace_generator.py:68-199 | a trace is the writing of all blocks, layer by layer, then for every step and layer the reads of the resident blocks, one filter and the fetches, every event with all its fields, ids from 0 and timestamps by 100 from the base |
| `TraceContents.WhereIs` | person1_kv_engine/real_llm/trace_generator.py:101-103 | resident blocks and candidates are listed in the order of the blocks |
| `TraceGenerator.LogStep` | person1_kv_engine/real_llm/trace_generator.py:94-199 | one decode step over all layers |
| `TraceGenerator.LogDecode` | person1_kv_engine/real_llm/trace_generator.py:97-199 | one layer of a step: reads of resident blocks, then one filter and the fetches |
| `TraceGenerator.ValidateRecords` | scripts/validate_real_trace.py:88-154 | the record loop accepts exactly the sequences in which every record passes its checks at its place, and tallies parts of pages and heads |
| `TraceGenerator.ValidateTrace` | scripts/validate_real_trace.py:88-180 | record loop, event count, parts of pages and heads together pass exactly when the trace is validated |
| `KnownRun.ExpectedEvents` | scripts/validate_real_trace.py:88-180 | on the reference run the checks of lines 88-180 pass, and there are 7872 events |

## Left out

- Floating-point rounding, NaN, half precision and single SIMD instructions: scores, logits and values are exact reals, lanes are sequences.
- The constant 1e-12 in the denominator of the dense decode step: the reference is the plain softmax quotient.
- The square root in the attention scale: the scale is a parameter, the same for both sides.
- A second prefill of a layer that already holds tokens: the tiered cache would append it while the baseline replaces the layer, so runs prefill a layer only while it holds none.
- `max_hot_blocks_per_layer`: no code enforces it.
- MockSSDController: the NumPy selection path with its unspecified tie order, the DRAM cache, byte counters, energy and latency totals, trace log and listeners.
- FlashController.MockSSDController.InStorageTopkAttention: models the path with the native kernel installed; the empty three-part reply for an empty layer counts as a failure because the caller unpacks four parts.
- KVBlock: access counts, hotness and size estimates of the block records.
- Array copies and dtype conversions of tensors, and aliasing between a caller's tensor and a stored block.
- NvmeProtocol: what the daemon does after it has left its buffers. The outcome is `Undefined`, and nothing is said of stream, reply or device from then on.
- Kernel.ComputeBlockScoreGqa: buffers that end before what the loops read, and a head ratio of zero where there is a token to score, since the C code then reads out of bounds or divides by zero.
- Kernel.SelectGqa: the same buffers and head ratios.
- Kernel.InstorageTopkFilterGqa: the same buffers and head ratios.
- NvmeProtocol: the word of a score in a reply is a parameter over the candidate's page, since it is a rounded float; `NvmeKernel.ScorePage` says which real number it stands for.
- Interrupted system calls, failing sends, failing allocations and the truncation of 64-bit lengths to C int.
- Sockets, threads, locks, timeouts, process control, file descriptors, `posix_fadvise` and all timing counters.
- NvmeClient.QemuNvmeClient.ComputeTopk: the byte counters of the top-k statistics and the list of batch sizes are not part of the model.
- Offsets and fields beyond the width of their struct field: the client's packing rejects them, and the model's requests are those it accepts.
- Accepting further connections after one ends: the daemon is modelled per connection.
- InferenceBackend: the `nvme_qemu` storage mode (the NVMe modules cover what goes over the wire), numpy shapes and dtypes, telemetry, prefetching, and the bounded access log.
- InferenceBackend.RealInferenceStorageBackend.ComputeTopkFilter: the score of a page is a parameter over its bytes, shape and token count (how a block is scored is the kernel's part); reads of the native kernel past a stored page, numbers beyond a C int, and queries that are not two-dimensional arrays.
- DeterministicTensorMapper: an arbitrary function into the channels, one for placement and one for reads.
- TensorAwareFTL, StorageSimulator, garbage collection and wear: not part of this model.
- TransformerKv: traffic counters, timings, prefetching and tensor layouts; the backend is a map from layer and block to its page, and keys and values are one tensor of rows.
- TransformerKv.SlidingWindowKVStateProvider.SelectAndFetchActiveState: inheritance is modelled as delegation to the inner provider.
- The paths by which a cache object is unpacked into layers at prefill, and descriptors of `inspect_state`.
- BlockAdapter: string dtypes; the declared element size is a number.
- TraceGenerator.GenerateTrace: the shape in which a block's first KV head is handed to the kernel; the score of a block is a parameter.
- Trace files, manifests, checksums and the second pass of the validator, which parses every record again into another record type.
- Negative Python layer indices of the baseline cache.
- Model loading, tokenizers, rotary embeddings, benchmarks, dashboards, schemas and the model registry: library code, configuration and scripts.

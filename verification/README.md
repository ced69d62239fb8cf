# A verified model of the inference engine's CPU cores

The engine runs language and vision models. This project models the parts of it whose correctness
is not visible from one function: a thread-pool protocol, a batched forward pass, an incremental
chat parser, quantised kernels, multimodal index arithmetic, a memory planner. Each is stated in
Dafny with the source's own branches, constants and error cases, and the properties below are
proved for all inputs, all runs or all interleavings.

How values are modelled:

- Where a result must be the same because the same operations run in the same order (the MoE layer,
  the forward pass, the linear layers, attention in the forward pass), floats are an abstract type
  and every operation on them is a parameter. The theorems hold for any such operations.
- Where a result is a bound or an algebraic identity (softmax, quantisation, the delta rule,
  resizing), floats are exact reals.
- Machine integers are bounded where that matters: the INT4 dot products run in a 32-bit `newtype`,
  the vector lanes wrap, the arena's counter wraps at 64 bits, float bit patterns are 32-bit.

The modules, by component:

- Worker pool: `PoolShard` (the split of the job range), `PoolProtocol` (the step system and its
  invariant), `PoolSafety` (the invariant is kept; the safety results), `PoolProgress` (no deadlock),
  `PersistentPool` (the shared words as a class, one method a shared access), `PoolSchedule` (what
  a region of jobs may assume of the pool).
- MoE layer: `MoeLayer` (meaning, job tables, scratch), `MoeMatrix` (the meaning over exact operations,
  by matrix entries), `MoeDispatch` (the two regions, in place).
- Arena: `Arena` (interleavings and safety), `ArenaAccuracy` (when the counter is accurate).
- Forward pass: `Linear`, `Attention`, `Interchange` (a generic loop interchange), `Forward` (the
  specification and the batching results), `Transformer` (what a run computes, coordinate by
  coordinate), `BatchRows` and `CpuLlama` (the loops on the caches).
- Softmax over reals: `Softmax`, on the same definitions as `Attention`.
- Chat parser: `Trimming`, `Strings`, `ChatParse` (both parsers and the incremental one),
  `ChatMarkers`, `ChatTranscript` (what the parsers see of a transcript), `ChatStreaming`, `JsonText`,
  `ChatCalls` (calls written and read back), `ChatTurns` (whole turns, from what was said to the events).
- INT4 kernel: `Int4`, `Int4Accuracy`. NVFP4 input quantiser: `Ue4m3`, `Nvfp4Input`.
- Index arithmetic: `Nested` (four nested loops as one list), `Packer`, `MRope`, `SmartResize`.
- Planner, recurrence, fusion: `Placement`, `Gdn`, `Fusion`.
- Shared: `Floats`, `Flat`, `Packing`, `Magnitude`, `Sums`, `Wrappers`.

Where the code does not do what its comments or documentation say, the code is modelled, an input
that shows it is given, and the exact condition is proved:

- `reserve` stores the old counter back "so capacity reporting stays accurate". With concurrent
  calls it can stay past the capacity for good (`ArenaAccuracy.StuckRun`). It is accurate in every
  interleaving if and only if, whichever thread's last call is left out, its other calls on their
  own and all the others' calls fit together (`ArenaAccuracy.IsAccurateIff`).
- The streaming parser keeps its reasoning "prefix-monotonic". A chunk that ends inside a
  `</think>` leaks the marker's beginning into the reasoning, which is never taken back. The
  reasoning adds up if and only if no boundary splits that marker (`ChatStreaming.ReasoningAddsUpIff`,
  `SplitCloserShows`).
- `qwen2vl_smart_resize` documents an area in `[min_pixels, max_pixels]`. Both bounds can be missed
  (`SmartResize.ClampExceedsMaximum`, `EnlargingOvershoots`, `NearBoundsMissMinimum`); when they are
  met is `MaximumMetIff` and `MinimumMetIff`, in integers by `BlocksOnInputs`.
- `position_delta` continues a sequence, except when a video has more frames than the positions that
  follow its start (`MRope.ContinuationIff`, `MRope.VideoSkipsAPosition`).
- `fuse` compares neighbours after sorting by start. For empty spans the outcome can depend on the
  order of the list (`Fusion.FusesIffOrdered`, `Fusion.EmptySpanDependsOnOrder`).
- The batched and the single matvec treat an input scale that is not a number differently, unless
  the quantiser declines or the input is all zero (`Linear.ViewsAgreeIff`, `NanScaleDiffers`, and
  `Nvfp4Input.NanScaleBlanks` for the law they rest on); the prefill theorem therefore asks for ordered input scales.
- The spill planner's reported total is wrong when the spill store is the device being trimmed and
  that device is over budget (`Placement.ReportedIsTrueIff`, `SelfSpillMisreports`).

`dafny verify dfyconfig.toml` checks the whole project.

## Model

| member | source | states |
|---|---|---|
| `PoolShard.ShardsTile` | crates/aegisllm-cpu/src/persistent_pool.rs:285-297 | every index below the job count lies in exactly one lane's shard, and no other index in any |
| `PoolShard.ShardsAdjoin` | crates/aegisllm-cpu/src/persistent_pool.rs:285-297 | consecutive shards touch, the first starts at 0 and the last ends at the job count |
| `PoolShard.RunShard` | crates/aegisllm-cpu/src/persistent_pool.rs:285-297 | the shard loop hands over exactly the shard's indices, in order |
| `PersistentPool.Shared.constructor` | crates/aegisllm-cpu/src/persistent_pool.rs:158-169 | a new pool satisfies the protocol's invariant |
| `PersistentPool.Shared.Dispatch` | crates/aegisllm-cpu/src/persistent_pool.rs:211-228 | entering `dispatch` is the step system's call step: nothing for 0 jobs, the inline loop on one lane |
| `PersistentPool.Shared.StepPublish` | crates/aegisllm-cpu/src/persistent_pool.rs:229-235 | each store that publishes a job, up to the generation bump, is one step and keeps the invariant |
| `PersistentPool.Shared.StepInline` | crates/aegisllm-cpu/src/persistent_pool.rs:219-224 | the one-lane inline loop, one index a step |
| `PersistentPool.Shared.StepWake` | crates/aegisllm-cpu/src/persistent_pool.rs:243-263 | the `parked` load, each `unpark` and the wait on `pending` |
| `PersistentPool.Shared.StepOwnShard` | crates/aegisllm-cpu/src/persistent_pool.rs:251-252 | the dispatching thread's own shard |
| `PersistentPool.Shared.Drop` | crates/aegisllm-cpu/src/persistent_pool.rs:267-268 | entering `drop` |
| `PersistentPool.Shared.StepDrop` | crates/aegisllm-cpu/src/persistent_pool.rs:268-280 | the steps of `drop`, joins included |
| `PersistentPool.Shared.StepWorker` | crates/aegisllm-cpu/src/persistent_pool.rs:301-367 | one shared access of a worker's loop changes the fields as its step does and keeps the invariant |
| `PoolSafety.StepInv` | crates/aegisllm-cpu/src/persistent_pool.rs:211-382 | every step of any thread, spurious park timeouts included, keeps the invariant |
| `PoolSafety.ReachableInv` | crates/aegisllm-cpu/src/persistent_pool.rs:211-382 | the invariant holds in every state of every run, for any number of lanes and dispatches |
| `PoolSafety.DispatchRunsEachIndexOnce` | crates/aegisllm-cpu/src/persistent_pool.rs:208-264 | once a dispatch has returned, each index below its count has run exactly once with its own closure, and no other index has |
| `PoolSafety.ClosureOutlivesWorkers` | crates/aegisllm-cpu/src/persistent_pool.rs:356-363 | while a worker may call through the job pointer, that dispatch has not returned, and the worker's copies are that dispatch's |
| `PoolSafety.NoGenerationSkipped` | crates/aegisllm-cpu/src/persistent_pool.rs:303-310 | no worker is more than one generation behind, and none is behind when the next one is posted |
| `PoolSafety.NoLostWakeup` | crates/aegisllm-cpu/src/persistent_pool.rs:235-250 | a worker blocked in park without a token and behind the generation still has an unpark ahead of it |
| `PoolProgress.ProductiveStepExists` | crates/aegisllm-cpu/src/persistent_pool.rs:243-280 | until the caller can return, some thread can take a productive step without the park timeout |
| `PoolProgress.BoundedWork` | crates/aegisllm-cpu/src/persistent_pool.rs:211-382 | in any interleaving a posted dispatch or shutdown takes boundedly many productive steps |
| `PoolProgress.DispatchCanReturn` | crates/aegisllm-cpu/src/persistent_pool.rs:254-263 | a posted dispatch can always run on to `pending` 0: no deadlock |
| `PoolProgress.ShutdownCanComplete` | crates/aegisllm-cpu/src/persistent_pool.rs:267-281 | after shutdown every worker can reach its exit and the joins end |
| `PoolSchedule.PoolRunsASchedule` | crates/aegisllm-cpu/src/nvfp4_gemv.rs:526-530 | whatever the interleaving, a returned dispatch has run its jobs as a permutation of their indices |
| `PoolSchedule.LayerOnPool` | crates/aegisllm-cpu/src/nvfp4_gemv.rs:451-586 | a layer whose regions the pool has run, in whatever interleaving, as any two of its dispatches: the output is the sequential definition and, over exact operations, the weighted sum of matrix products |
| `MoeLayer.MoeLayerScratch.Ensure` | crates/aegisllm-cpu/src/nvfp4_gemv.rs:612-625 | the slabs end long enough and keep what they held in front |
| `MoeLayer.BuildGateUpJobs` | crates/aegisllm-cpu/src/nvfp4_gemv.rs:487-497 | the table holds every (expert, projection, row) exactly once |
| `MoeLayer.BuildDownJobs` | crates/aegisllm-cpu/src/nvfp4_gemv.rs:543-549 | the table holds every (expert, row) exactly once |
| `MoeLayer.SameCell` | crates/aegisllm-cpu/src/nvfp4_gemv.rs:522-524 | two jobs that write one slab cell are the same (expert, row) |
| `MoeDispatch.GateUpWrite` | crates/aegisllm-cpu/src/nvfp4_gemv.rs:508-525 | a job's write finishes that job and undoes no other |
| `MoeDispatch.DownWrite` | crates/aegisllm-cpu/src/nvfp4_gemv.rs:554-567 | the same for a down job |
| `MoeDispatch.RunGateUp` | crates/aegisllm-cpu/src/nvfp4_gemv.rs:479-531 | for every order of the jobs and any earlier slab contents, all gate and up rows end correct |
| `MoeDispatch.RunActivation` | crates/aegisllm-cpu/src/nvfp4_gemv.rs:533-539 | each expert's slab ends as its activated vector |
| `MoeDispatch.RunDown` | crates/aegisllm-cpu/src/nvfp4_gemv.rs:541-573 | for every order of the jobs, all down rows end correct |
| `MoeDispatch.Combine` | crates/aegisllm-cpu/src/nvfp4_gemv.rs:575-585 | the accumulator is overwritten by the ascending-order weighted fold |
| `MoeDispatch.MoeLayerExpertsInto` | crates/aegisllm-cpu/src/nvfp4_gemv.rs:451-586 | for every order of the two regions' jobs and any stale scratch, the output is the ascending fold of the experts and, over exact operations, the sum of weight times down(gelu(gate x) times up x) |
| `MoeMatrix.LayerIsMixture` | crates/aegisllm-cpu/src/nvfp4_gemv.rs:479-585 | over any exact operations, output r is the sum over experts of weight times sum over k of D[r][k] gelu(sum of G[k][c] x[c]) (sum of U[k][c] x[c]), each entry a code times its block scale times the output scale |
| `MoeMatrix.FusedRowDot` | crates/aegisllm-cpu/src/nvfp4_gemv.rs:226-241 | the block-by-block kernel is the sum over columns of code times block scale times element |
| `Packing.CodeIsE2M1` | crates/aegisllm-base/src/tensor/quant.rs:373-376 | the sixteen codes are the E2M1 floats, doubled |
| `Arena.PinnedArena.Create` | crates/aegisllm-cuda/src/cuda/host_arena.rs:59-75 | a new arena is empty; one of no bytes is refused |
| `Arena.PinnedArena.Reserve` | crates/aegisllm-cuda/src/cuda/host_arena.rs:155-166 | alone, `reserve` grants the next bytes exactly when they fit and otherwise leaves `used` as it was |
| `Arena.StepInv` | crates/aegisllm-cuda/src/cuda/host_arena.rs:155-166 | each access of any thread keeps: grants tile a prefix, at most one rollback within the capacity is outstanding, and `used` exceeds the capacity meanwhile |
| `Arena.GrantsAreSafe` | crates/aegisllm-cuda/src/cuda/host_arena.rs:148-166 | in every interleaving whose lengths do not wrap, granted ranges are disjoint, inside the capacity and tile a prefix |
| `Arena.WrappedCounterOverlaps` | crates/aegisllm-cuda/src/cuda/host_arena.rs:156-159 | lengths that wrap the counter hand out bytes already granted |
| `ArenaAccuracy.LoneThreadIsAccurate` | crates/aegisllm-cuda/src/cuda/host_arena.rs:157-159 | with one thread `used` is the sum of the grants between calls, wrapping lengths included |
| `ArenaAccuracy.StuckRun` | crates/aegisllm-cuda/src/cuda/host_arena.rs:157-159 | if some thread's calls but the last, on their own, and all the other threads' calls do not fit together, an interleaving is built that leaves `used` past the capacity for good |
| `ArenaAccuracy.IsAccurateIff` | crates/aegisllm-cuda/src/cuda/host_arena.rs:157-159 | for any number of threads and of calls each, the comment's claim that rollback keeps `used` accurate holds in every interleaving if and only if, whichever thread's last call is left out, its other calls on their own and all the others' calls fit together |
| `ArenaAccuracy.BatchIsAccurateIff` | crates/aegisllm-cuda/src/cuda/host_arena.rs:157-159 | with one call each that is: leaving out any one call, the rest fit |
| `Attention.HeadInto` | crates/aegisllm-cpu/src/attention.rs:200-236 | one head's loop, in place, writes the head's output and nothing else |
| `Attention.DecodeInto` | crates/aegisllm-cpu/src/attention.rs:127-140 | succeeds exactly on the shapes `validate` accepts, writes the attention over the cached positions, and leaves the output alone on error |
| `Attention.PrefillInto` | crates/aegisllm-cpu/src/attention.rs:143-175 | row `i` of a prefill is decode over the first `start + i + 1` positions; succeeds exactly on the accepted shapes |
| `Attention.AttendIsCausal` | crates/aegisllm-cpu/src/attention.rs:153-173 | attention over `n` positions ignores every later key and value |
| `Attention.KvHeadBound` | crates/aegisllm-cpu/src/attention.rs:132-137 | every query head maps to an existing kv head |
| `Attention.ReadsOne` | crates/aegisllm-cpu/src/attention.rs:184 | query head h reads the one kv head g with g * group <= h < (g + 1) * group |
| `Softmax.AbsorbTracks` | crates/aegisllm-cpu/src/attention.rs:215-230 | one step of the loop keeps: the maximum is the largest score so far and the sums are the two-pass sums at it |
| `Softmax.OnlineSoftmaxIsTwoPass` | crates/aegisllm-cpu/src/attention.rs:200-236 | over reals, each output coordinate is the softmax average of the values, for every length of at least 1 |
| `Softmax.AttendIsTwoPass` | crates/aegisllm-cpu/src/attention.rs:127-236 | over reals, output j of query head h is the softmax average of coordinate j of the values of the kv head whose group holds h, weighted by the scaled products of h's own query slice with that head's keys |
| `Softmax.OutputWithinValues` | crates/aegisllm-cpu/src/attention.rs:200-236 | no output coordinate leaves the range of the values it averages |
| `Linear.DequantPacked` | crates/aegisllm-cpu/src/cpu/runtime_linear.rs:195-211 | the loop fills scratch with the dequantised packed row |
| `Linear.DequantUnpacked` | crates/aegisllm-cpu/src/cpu/runtime_linear.rs:233-240 | the same for unpacked codes |
| `Linear.MatvecInto` | crates/aegisllm-cpu/src/cpu/runtime_linear.rs:156-247 | writes the matrix-vector product, with each error exactly on its shapes and no write on error |
| `Linear.MatVecAt` | crates/aegisllm-cpu/src/cpu/runtime_linear.rs:156-247 | output r is the product of row r, each weight its own code times its own block scale, with the input quantised as the layer asks, times the output scale |
| `Linear.MatmulAt` | crates/aegisllm-cpu/src/cpu/runtime_linear.rs:36-154 | the same for every token of a batch, with an ordered input scale |
| `Linear.QuantizeBatch` | crates/aegisllm-cpu/src/cpu/runtime_linear.rs:53-67 | each token's row is quantised on its own when the scale is positive |
| `Linear.Scatter` | crates/aegisllm-cpu/src/cpu/runtime_linear.rs:113-118 | row-major results land token-major, every cell once |
| `Linear.MatmulInto` | crates/aegisllm-cpu/src/cpu/runtime_linear.rs:36-154 | each token's outputs are the products of its own input view; an empty batch is accepted and writes nothing |
| `Linear.BatchIsPerToken` | crates/aegisllm-cpu/src/cpu/runtime_linear.rs:32-35 | with an ordered input scale, a token's batched outputs are what `matvec_into` gives it |
| `Linear.ViewsAgreeIff` | crates/aegisllm-cpu/src/cpu/runtime_linear.rs:55-167 | the two paths quantise alike if and only if the scale is ordered (not NaN), the quantiser declines, or every input is 0 |
| `Linear.NanScaleDiffers` | crates/aegisllm-cpu/src/cpu/runtime_linear.rs:55-167 | at a NaN scale, a block with one nonzero element: the batched path keeps it, the single one blanks it |
| `Linear.UnpackNvfp4Linear` | crates/aegisllm-cpu/src/cpu/runtime_loader.rs:190-224 | unpacks to one code per column and one decoded scale per block, and refuses other byte counts |
| `Linear.UnpackingKeepsMatVec` | crates/aegisllm-cpu/src/cpu/runtime_loader.rs:190-224 | a packed layer and its unpacked form compute the same product |
| `Interchange.LastTokenLast` | crates/aegisllm-cpu/src/cpu/forward.rs:81-194 | the last token of a chunk may go through all layers after the others have |
| `Interchange.LayerOuterIsTokenOuter` | crates/aegisllm-cpu/src/cpu/forward.rs:70-197 | running layer by layer over a chunk gives the rows and layer states of running token by token |
| `Forward.BatchIsSequential` | crates/aegisllm-cpu/src/cpu/forward.rs:122-144 | within a layer, pushing all keys first and attending causally equals one token after another |
| `Forward.ChunkIsRun` | crates/aegisllm-cpu/src/cpu/forward.rs:70-197 | a chunk leaves exactly what feeding its tokens one at a time leaves |
| `Forward.RunConcat` | crates/aegisllm-cpu/src/cpu/forward.rs:68-70 | cutting a prompt into chunks does not change where it leads |
| `Forward.RunInStep` | crates/aegisllm-cpu/src/cpu/forward.rs:201-282 | every layer's cache length stays equal to the position |
| `Forward.AdvanceInStep` | crates/aegisllm-cpu/src/cpu/forward.rs:206-212 | a token fails exactly when the context is exhausted or it is outside the vocabulary |
| `Transformer.StepTraced` | crates/aegisllm-cpu/src/cpu/forward.rs:213-278 | one token through one layer, coordinate by coordinate: norm, three projections, rotation at its position, attention over its own and all earlier positions, residual, norm, silu(gate) times up, residual |
| `Transformer.RunTraced` | crates/aegisllm-cpu/src/cpu/forward.rs:68-282 | in every run, each token's embedding goes through every layer so, and in every layer's cache the key at position n is the rotation to n of one projected row, beside its value |
| `BatchRows.Matmul` | crates/aegisllm-cpu/src/cpu/runtime_linear.rs:36-154 | a batched projection is the projection of each row |
| `CpuLlama.CpuLlamaState.constructor` | crates/aegisllm-cpu/src/cpu/state.rs:65-78 | a new state is empty and in step |
| `CpuLlama.CpuLlamaState.Push` | crates/aegisllm-cpu/src/cpu/state.rs:49-61 | appends one key and value, or refuses a wrong width and changes nothing |
| `CpuLlama.CpuLlamaState.LayerToken` | crates/aegisllm-cpu/src/cpu/forward.rs:213-278 | one token through one layer, on the cache |
| `CpuLlama.CpuLlamaState.ForwardHidden` | crates/aegisllm-cpu/src/cpu/forward.rs:201-282 | one token through all layers, as specified and coordinate by coordinate, failing before any change |
| `CpuLlama.CpuLlamaState.PushBatch` | crates/aegisllm-cpu/src/cpu/forward.rs:122-128 | the chunk's keys and values, pushed in token order |
| `CpuLlama.CpuLlamaState.LayerBatch` | crates/aegisllm-cpu/src/cpu/forward.rs:81-194 | a chunk through one layer |
| `CpuLlama.CpuLlamaState.PrefillChunk` | crates/aegisllm-cpu/src/cpu/forward.rs:71-196 | a chunk through all layers; an unknown token fails before the caches are touched |
| `CpuLlama.CpuLlamaState.PrefillNext` | crates/aegisllm-cpu/src/cpu/forward.rs:54-69 | the next chunk takes the run from `tokens[..at]` to `tokens[..at + size]` |
| `CpuLlama.CpuLlamaState.PrefillBatched` | crates/aegisllm-cpu/src/cpu/forward.rs:54-199 | equals feeding the tokens one at a time; on failure the state is where some prefix leads |
| `CpuLlama.CpuLlamaState.PrefillTokens` | crates/aegisllm-cpu/src/cpu/forward.rs:43-47 | the token-by-token fallback for short prompts |
| `CpuLlama.CpuLlamaState.PrefillPrompt` | crates/aegisllm-cpu/src/cpu/forward.rs:20-48 | succeeds exactly on a non-empty prompt that fits the context and the vocabulary, and then leaves the caches, position and logits of folding `forward_hidden` over it: every token traced through every layer, the logits from the normalised last row |
| `ChatParse.ParseQwen` | crates/aegisllm-base/src/chat_parse.rs:636-714 | the batch parser equals its two-pass definition |
| `ChatParse.ParseQwenStreaming` | crates/aegisllm-base/src/chat_parse.rs:535-610 | the streaming-tolerant parser equals its definition |
| `ChatParse.ParseQwenToolCall` | crates/aegisllm-base/src/chat_parse.rs:727-771 | a call block's name and arguments |
| `ChatCalls.ReadBack` | crates/aegisllm-base/src/chat_parse.rs:727-819 | a call written from a name and trimmed pairs without markers, in any whitespace, reads back as that name and the JSON object of those pairs in order: scalars and valid JSON verbatim, the rest quoted |
| `ChatCalls.DecimalSpells` | crates/aegisllm-base/src/chat_parse.rs:764 | the index in a call's id spells its number |
| `JsonText.JsonEscape` | crates/aegisllm-base/src/chat_parse.rs:973-988 | the loop escapes every character |
| `JsonText.EscapedReads` | crates/aegisllm-base/src/chat_parse.rs:973-988 | an escaped string reads back, by section 7 of RFC 8259, as the string it came from |
| `ChatTurns.ReadTurn` | crates/aegisllm-base/src/chat_parse.rs:636-714 | a turn of words, thoughts and calls parses to the trimmed words, the thoughts one a line, and the calls numbered in order with their names and JSON arguments |
| `ChatTurns.TurnStreams` | crates/aegisllm-base/src/chat_parse.rs:35-160 | fed in chunks that split no closing think marker, the events tell the same words, thoughts and calls |
| `ChatTurns.StrayCloser` | crates/aegisllm-base/src/chat_parse.rs:693-703 | a closing marker nobody opened is dropped from the content |
| `ChatTurns.LeftOpen` | crates/aegisllm-base/src/chat_parse.rs:645-692 | a call left open is dropped, a thought left open runs to the end |
| `ChatParse.TrimQwenPartialMarkerSuffix` | crates/aegisllm-base/src/chat_parse.rs:615-628 | trims the longest suffix that begins a marker, and only that |
| `ChatParse.LongestPartial` | crates/aegisllm-base/src/chat_parse.rs:615-628 | the trimmed length is a partial marker and no longer one is |
| `ChatParse.StreamingParser.constructor` | crates/aegisllm-base/src/chat_parse.rs:57-64 | a fresh parser |
| `ChatParse.StreamingParser.Push` | crates/aegisllm-base/src/chat_parse.rs:66-160 | the new state and the events of one delta, for the Qwen parser and for no parser |
| `ChatTranscript.StreamingSees` | crates/aegisllm-base/src/chat_parse.rs:535-610 | on any prefix of a transcript, cut anywhere, the streaming parser reports the prose, thoughts and finished calls so far |
| `ChatTranscript.BatchSees` | crates/aegisllm-base/src/chat_parse.rs:636-714 | on a whole transcript the batch parser reports the trimmed prose, the thoughts and the calls |
| `ChatTranscript.TrimsDangling` | crates/aegisllm-base/src/chat_parse.rs:612-614 | only the beginning of a marker at the end is held back |
| `ChatStreaming.DiffIs` | crates/aegisllm-base/src/chat_parse.rs:92-155 | the events of one push are exactly what the parse has grown by |
| `ChatStreaming.SeenGrows` | crates/aegisllm-base/src/chat_parse.rs:553-555 | between cuts that split no closing think marker the streaming parse only grows |
| `ChatStreaming.StreamingEqualsBatch` | crates/aegisllm-base/src/chat_parse.rs:35-44 | the events of any such chunking add up to the batch parse: text up to surrounding whitespace, reasoning exactly, each call begun, given its arguments and ended once, in order |
| `ChatStreaming.ReasoningAddsUpIff` | crates/aegisllm-base/src/chat_parse.rs:104-113 | the reasoning adds up if and only if no chunk boundary splits a `</think>` |
| `ChatStreaming.SplitCloserShows` | crates/aegisllm-base/src/chat_parse.rs:104-113 | the chunks `<think>a<` and `/think>`: the batch reasoning is `a`, the events have sent `a<` |
| `ChatStreaming.QwenStreamingEqualsBatch` | crates/aegisllm-base/src/chat_parse.rs:66-160 | the same with the Qwen markers: text, reasoning and each call's triple of events |
| `Trimming.StripGrows` | crates/aegisllm-base/src/chat_parse.rs:553-556 | trimming a longer text extends the trimmed shorter one |
| `Int4.ZeroPoint` | crates/aegisllm-cpu/src/int4_gptq_gemv.rs:230-231 | subtracting 7 times the code sum gives the sum of (nibble - 7) times code |
| `Int4.SplitNibbles` | crates/aegisllm-cpu/src/int4_gptq_gemv.rs:342-344 | the 16-bit shift and mask give the odd columns' nibbles, the mask alone the even ones |
| `Int4.SplitCodes` | crates/aegisllm-cpu/src/int4_gptq_gemv.rs:318-353 | the two-register permute gathers the even and odd codes |
| `Int4.LaneIs` | crates/aegisllm-cpu/src/int4_gptq_gemv.rs:357-359 | neither 32-bit accumulation wraps |
| `Int4.VnniIsExact` | crates/aegisllm-cpu/src/int4_gptq_gemv.rs:339-361 | the vector path's group sum is the plain sum |
| `Int4.ReferenceRowDot` | crates/aegisllm-cpu/src/int4_gptq_gemv.rs:217-235 | the reference row, every intermediate within i32 |
| `Int4.FusedRowDotScalar` | crates/aegisllm-cpu/src/int4_gptq_gemv.rs:263-285 | the scalar fused row equals the reference row |
| `Int4.FusedRowDotVnni` | crates/aegisllm-cpu/src/int4_gptq_gemv.rs:303-370 | the vector row equals the reference row |
| `Int4Accuracy.QuantizeActivation` | crates/aegisllm-cpu/src/int4_gptq_gemv.rs:147-171 | the quantised activation: codes, scale and group sums |
| `Int4Accuracy.CodeIsAccurate` | crates/aegisllm-cpu/src/int4_gptq_gemv.rs:149-165 | codes stay in [-127, 127] and within half a step of the element |
| `Int4Accuracy.RowError` | crates/aegisllm-cpu/src/int4_gptq_gemv.rs:179-236 | over reals, the W4A8 row is within 512 times scale times the sum of absolute group scales of the W4A16 row |
| `Int4Accuracy.RowDotByColumns` | crates/aegisllm-cpu/src/int4_gptq_gemv.rs:217-285 | the row is the sum over all columns of (nibble - 7) times code times the column's group scale, times the activation's scale |
| `Int4Accuracy.RowErrorByColumns` | crates/aegisllm-cpu/src/int4_gptq_gemv.rs:179-236 | the bound, stated on the columns |
| `Int4Accuracy.ZeroRow` | crates/aegisllm-cpu/src/int4_gptq_gemv.rs:150-152 | the zero activation is exact |
| `Packer.OrderIsRowIndex` | crates/aegisllm-base/src/modalities/image_preprocess.rs:519-542 | packed rows and patches correspond one to one |
| `Packer.PackQwen2vlChw` | crates/aegisllm-base/src/modalities/image_preprocess.rs:482-558 | accepts exactly whole patches, whole merge blocks and the right length, and copies the pixels in the specified order |
| `Packer.PackedAt` | crates/aegisllm-base/src/modalities/image_preprocess.rs:523-540 | a column of row `r` reads its pixel of the patch of that row, whatever the temporal copy |
| `Packer.PackedCell` | crates/aegisllm-base/src/modalities/image_preprocess.rs:516-545 | every cell of the matrix by its index formula, from the pixel by its |
| `Packer.CellIsSome` | crates/aegisllm-base/src/modalities/image_preprocess.rs:516-545 | every packed cell is a copy of some pixel of the image |
| `Packer.PixelAppears` | crates/aegisllm-base/src/modalities/image_preprocess.rs:475-478 | every pixel appears in exactly `tp` cells |
| `Packer.UnpackRecovers` | crates/aegisllm-base/src/modalities/image_preprocess.rs:471-478 | reading one temporal copy back recovers the image |
| `Packer.QwenVisionPositionIds` | crates/aegisllm-base/src/modalities/mrope.rs:220-241 | two ids for every patch: (row, col) pairs in merge-block order, zeros after the last whole block |
| `Packer.PackerAgreesWithIds` | crates/aegisllm-base/src/modalities/mrope.rs:211-215 | packed row `r` holds the patch whose (row, col) is entry `r` of the position ids |
| `MRope.VisionPositionIds` | crates/aegisllm-base/src/modalities/mrope.rs:87-122 | the three component lists are frame, row and column of each merged cell, column fastest |
| `MRope.MergedTokenIsBlock` | crates/aegisllm-base/src/modalities/mrope.rs:83-86 | packed rows k*m*m to (k+1)*m*m - 1 are the merge block at merged token `k`'s ids |
| `MRope.GetRopeIndex` | crates/aegisllm-base/src/modalities/mrope.rs:135-209 | the loop fills the specified ids, or fails with the specified error |
| `MRope.PlacedIff` | crates/aegisllm-base/src/modalities/mrope.rs:169-206 | succeeds exactly when the image runs match the grids in number and lengths |
| `MRope.IdsAre` | crates/aegisllm-base/src/modalities/mrope.rs:135-209 | a text token's id is the counter before it three times; an image token's is frame, row and column of its cell past the counter before its image |
| `MRope.PositionsAreDistinct` | crates/aegisllm-base/src/modalities/mrope.rs:135-209 | no two tokens share a (T, H, W) triple |
| `MRope.MaxComponent` | crates/aegisllm-base/src/modalities/mrope.rs:49-55 | the largest component, or -1 for an empty sequence |
| `MRope.ContinuationIff` | crates/aegisllm-base/src/modalities/mrope.rs:47-57 | an appended text token gets the counter's end position, earlier ids unchanged; `seq_len + position_delta` is that position if and only if no image has more frames than the text and strides from its start to the end move the counter |
| `MRope.StillImagesContinue` | crates/aegisllm-base/src/modalities/mrope.rs:47-57 | so it does for still images and any image with no more frames than its stride |
| `MRope.VideoSkipsAPosition` | crates/aegisllm-base/src/modalities/mrope.rs:47-57 | a two-frame single-patch video where the delta is one too far |
| `SmartResize.SidesAreMultiples` | crates/aegisllm-base/src/modalities/image_preprocess.rs:52-53 | both sides are multiples of the factor |
| `SmartResize.RoundsToNearest` | crates/aegisllm-base/src/modalities/image_preprocess.rs:29-43 | rounding takes the nearest multiple, the even one within 1e-9 of a tie |
| `SmartResize.AreaInBounds` | crates/aegisllm-base/src/modalities/image_preprocess.rs:54-59 | the minimum is met unless shrinking between bounds closer than a factor of four; the maximum unless a rescaled side falls below one factor or enlarging does so between such bounds |
| `SmartResize.MaximumMetIff` | crates/aegisllm-base/src/modalities/image_preprocess.rs:54-75 | for any bounds, exactly when the documented maximum is met, by the number of blocks along each ideal side |
| `SmartResize.MinimumMetIff` | crates/aegisllm-base/src/modalities/image_preprocess.rs:54-75 | for any bounds, exactly when the documented minimum is met |
| `SmartResize.BlocksOnInputs` | crates/aegisllm-base/src/modalities/image_preprocess.rs:71-79 | those numbers of blocks by integer comparisons of the image and the limits, without the root |
| `SmartResize.EnlargingOvershoots` | crates/aegisllm-base/src/modalities/image_preprocess.rs:76-80 | 14 by 14 between 121 and 300 gives 20 by 20 |
| `SmartResize.ClampExceedsMaximum` | crates/aegisllm-base/src/modalities/image_preprocess.rs:72-75 | 8 by 500 against a limit of 1000 gives 10 by 250 |
| `SmartResize.NearBoundsMissMinimum` | crates/aegisllm-base/src/modalities/image_preprocess.rs:72-75 | 19 by 19 between 200 and 361 gives 10 by 10 |
| `Ue4m3.EncodeAgrees` | crates/aegisllm-base/src/tensor/quant.rs:460-494 | for every finite float the bit-level encoder equals the encoder on its value |
| `Ue4m3.EncodeMonotone` | crates/aegisllm-base/src/tensor/quant.rs:379-494 | encoding then decoding is monotone over all finite floats |
| `Ue4m3.ThroughError` | crates/aegisllm-base/src/tensor/quant.rs:460-494 | in the normal range below 248 the round trip is within a sixteenth |
| `Nvfp4Input.BestIndexMxfp4` | crates/aegisllm-base/src/tensor/quant.rs:443-458 | the first nearest code; code 0 for a zero scale |
| `Nvfp4Input.QuantizeInputNvfp4` | crates/aegisllm-base/src/tensor/quant.rs:408-441 | declines exactly bad scales, empty and partial inputs, and otherwise quantises block by block |
| `Nvfp4Input.NanScaleBlanks` | crates/aegisllm-base/src/tensor/quant.rs:417-434 | at a NaN scale the running maximum never rises, and every block becomes zeros |
| `Nvfp4Input.PositiveScaleIsOrdinary` | crates/aegisllm-base/src/tensor/quant.rs:417-441 | the definition that admits NaN agrees with the ordinary one at a positive scale |
| `Nvfp4Input.BlockIsAccurate` | crates/aegisllm-base/src/tensor/quant.rs:417-441 | for a block maximum in range, each element is within 17/96 of it and never of the opposite sign |
| `Nvfp4Input.BlockIsNear` | crates/aegisllm-base/src/tensor/quant.rs:417-441 | for a block maximum in range, each value handed back is a code times one E4M3 scale of the block times the input scale, and within 17/96 of the block's maximum of the value put in |
| `Nvfp4Input.SameSign` | crates/aegisllm-base/src/tensor/quant.rs:443-458 | a nearest code never has the opposite sign |
| `Placement.TrimDevice` | crates/aegisllm-base/src/planning/placement.rs:513-547 | one device's turn: the regions after it, the reported total and whether it was over |
| `Placement.TrimVramToBudget` | crates/aegisllm-base/src/planning/placement.rs:506-548 | all pools in order, with one warning for each found over budget |
| `Placement.Cut` | crates/aegisllm-base/src/planning/placement.rs:532-542 | the spilled suffix is the shortest sufficient one, or everything |
| `Placement.TrimFits` | crates/aegisllm-base/src/planning/placement.rs:532-542 | off-device spilling makes the device fit or leaves nothing on it, and the reported total is true |
| `Placement.ReportedIsTrueIff` | crates/aegisllm-base/src/planning/placement.rs:522-546 | the reported total is true if and only if the spill store is off the device, the device was within budget, or its regions weigh nothing |
| `Placement.SelfSpillMisreports` | crates/aegisllm-base/src/planning/placement.rs:522-546 | 7 bytes spilled from a device onto itself, against a budget of 5, are reported as none |
| `Placement.LastSpilledWasNeeded` | crates/aegisllm-base/src/planning/placement.rs:532-541 | putting the last spilled region back would exceed the budget |
| `Placement.EveryPoolFits` | crates/aegisllm-base/src/planning/placement.rs:506-548 | after all turns, with a host spill store and distinct devices, every pool fits or is empty and its regions are settled by its own cut |
| `Placement.TransfersKept` | crates/aegisllm-base/src/planning/placement.rs:449-472 | every region's transfer still follows from where it is stored and computed |
| `Placement.TransferPolicy` | crates/aegisllm-base/src/planning/placement.rs:449-472 | nothing moves exactly when weights are where they are computed; otherwise the transfer is named by where they come from and go |
| `Placement.PoolOutcome` | crates/aegisllm-base/src/planning/placement.rs:506-548 | of one pool, exactly the regions from some index on are moved to the host, with store, compute and transfer set; the KV cache and what stays fit, or nothing stays; one region more would not fit |
| `Placement.OthersStay` | crates/aegisllm-base/src/planning/placement.rs:532-542 | regions on no pool's device stay as they are |
| `Placement.RegionsKept` | crates/aegisllm-base/src/planning/placement.rs:506-548 | no region is lost or changes weight |
| `Gdn.DecayHead` | crates/aegisllm-cpu/src/cpu/gdn.rs:107-111 | the decay loop scales the head's matrix and nothing else |
| `Gdn.UpdateHead` | crates/aegisllm-cpu/src/cpu/gdn.rs:112-124 | the in-place column loop is the rank-one update of the whole matrix |
| `Gdn.ReadHead` | crates/aegisllm-cpu/src/cpu/gdn.rs:125-133 | the read-out is the transposed product with the query |
| `Gdn.DecodeStep` | crates/aegisllm-cpu/src/cpu/gdn.rs:88-135 | every head takes S' = e^g S + k (x) beta (v - (e^g S)^T k) and writes y = S'^T q; in flat cells, with the key and query rows of the one key head that serves it |
| `Gdn.OtherHeads` | crates/aegisllm-cpu/src/cpu/gdn.rs:99-105 | work on one head leaves every other head's state |
| `Gdn.KeyHeadOf` | crates/aegisllm-cpu/src/cpu/gdn.rs:70-78 | value head h is one of the consecutive heads kh * expand to (kh + 1) * expand - 1 of its key head |
| `Gdn.ServedByOne` | crates/aegisllm-cpu/src/cpu/gdn.rs:70-78 | no other key head serves it |
| `Gdn.Recall` | crates/aegisllm-cpu/src/cpu/gdn.rs:112-124 | S'^T k blends the decayed recall and v with weight beta |k|^2, exact at 1 |
| `Fusion.Fuse` | crates/aegisllm-base/src/modalities/fusion.rs:64-142 | the checks in order and the fused tokens, positions and embeddings |
| `Fusion.NeighboursSuffice` | crates/aegisllm-base/src/modalities/fusion.rs:97-105 | among sorted non-empty spans, comparing neighbours is enough |
| `Fusion.FusesIff` | crates/aegisllm-base/src/modalities/fusion.rs:64-105 | for non-empty spans, succeeds exactly when counts and kinds match and spans are in bounds and pairwise disjoint |
| `Fusion.FusesIffOrdered` | crates/aegisllm-base/src/modalities/fusion.rs:64-105 | for any spans, the exact condition: of any two, the one that comes first ends before the other starts |
| `Fusion.EmptySpanDependsOnOrder` | crates/aegisllm-base/src/modalities/fusion.rs:82-105 | an empty span at another's start is accepted or refused by list order alone |
| `Fusion.FusedIsFaithful` | crates/aegisllm-base/src/modalities/fusion.rs:107-141 | with slots erased the result is the text with the spans cut out, positions count up from 0, and the embeddings come back in the caller's order |
| `Fusion.FusedSlots` | crates/aegisllm-base/src/modalities/fusion.rs:114-129 | in a fused result, each span in start order owns a run of slots of its encoder's length, right after the text before it |

## Left out

- PoolSafety.ReachableInv: models sequential consistency; the code's Release/Acquire orderings are weaker and are not modelled.
- PoolSafety.NoLostWakeup: the 10 ms park timeout appears only as a wakeup that may happen at any time; nothing relies on it.
- PersistentPool.Shared.Dispatch: concurrent calls of `dispatch` on one pool are outside its intended use and are not modelled; neither is the wrap of the 64-bit generation.
- PersistentPool.Shared.constructor: thread spawning, pinning and the publication of the thread handles are not modelled; workers exist from the start.
- MoeDispatch.RunGateUp: a job is one read of data the region never writes and one write of its cell; the memory model below that is not modelled. The rayon fallback is the same statement.
- MoeDispatch.MoeLayerExpertsInto: row and expert numbers are unbounded, not `u32`; a width of 0, on which slicing a slab into chunks panics, is accepted. The shapes the debug assertions and slab indexing rely on are preconditions.
- Arena.PinnedArena.Create: a capacity within one of the largest `usize`, which no allocation reaches, is excluded.
- Arena.GrantsAreSafe: asks that the lengths ever requested add up to less than the `usize` range; `WrappedCounterOverlaps` shows why. `ArenaAccuracy.IsAccurateIff` asks the same.
- Softmax.OnlineSoftmaxIsTwoPass: over exact reals with an abstract exponential; rounding and overflow are not modelled.
- Attention.DecodeInto: heads run one after another, not in parallel; the checked multiplications of `validate` cannot overflow here.
- Linear.MatmulInto: rows run one after another; each writes only its own result. Weight buffers shorter than the shape, on which the source panics, are excluded by a precondition.
- Linear.ViewsAgreeIff: rests on the law that at a NaN scale the quantiser gives zeros, since its floats are abstract; `Nvfp4Input.NanScaleBlanks` shows that law for the quantiser over reals with a NaN.
- Transformer.StepTraced: the normalisation, the rotation at a position and silu are primitive operations, not the arithmetic inside them.
- MoeMatrix.LayerIsMixture: the operations are exact under some reading of floats as reals; with rounding the statement is the fold in `MoeLayer.Layer`. The kernel's AVX-512 form is not modelled.
- CpuLlama.CpuLlamaState.PrefillPrompt: asks for ordered (not NaN) input scales and consistent shapes; sampling after the logits is not modelled. Scratch buffers reused between tokens are fresh values here.
- Forward.AdvanceInStep: the embedding table is a sequence of rows and the final norm and output head are one abstract operation.
- ChatStreaming.StreamingEqualsBatch: transcripts are prose and thoughts without `<`, and calls with a function name, no think marker and no closing marker inside. The JSON number and validity tests are parameters.
- ChatParse.StreamingParser.Push: only the Qwen parser and no parser; the Gemma parsers are not part of this model.
- Int4.FusedRowDotVnni: the vector instructions are modelled lane by lane; group scales are given values, so the decoding of half floats (its subnormals included) is not modelled.
- Int4Accuracy.RowError: over exact reals.
- Packer.PackQwen2vlChw: the output is built by appending instead of indexed writes into a zeroed buffer; overflow of the index products is not modelled.
- MRope.VisionPositionIds: ids are unbounded integers.
- Packer.QwenVisionPositionIds: ids are unbounded integers, not `i32`.
- SmartResize.MaximumMetIff: exact reals with a square root given by its law; `f64` rounding is not modelled. Sides, factor and maximum are positive.
- Nvfp4Input.BlockIsAccurate: exact reals except that the encoder itself is proved on bits (`Ue4m3.EncodeAgrees`).
- Ue4m3.EncodeAgrees: the rounding of `x * 512.0 + 0.5` is exact here.
- Placement.TrimVramToBudget: byte counts are unbounded naturals, warnings are values instead of text; applying rules and estimating the KV cache are not part of this model.
- Gdn.DecodeStep: over exact reals with an abstract exponential; the gates, norms and convolution around the recurrence are not part of this model.
- Fusion.Fuse: `u32` overflow of positions is not modelled.
- Not modelled at all: GPU, wgpu and CUTLASS code, memory mapping, probing of devices, tokenizers, chat templates, HTTP, the command line, `load_submatrix`, image decoding and resampling, bilinear position interpolation, and the tables of formats and architectures. They are foreign calls, I/O, or case tables that one reading settles.

# mlx-llm: a verified model of the decode engine

This project models the inference engine of mlx-llm in Dafny and proves the promise its fast paths make: every one of
them produces what one simple loop produces.

The simple loop is `Stream.Solo`: no cache, a full recompute of the logits over prompt and generated tokens at every
step, one token sampled, then stop tokens, host stop, budget and cancel in the source's order. A model is a stack of
layers whose projections, norms, rotary embedding, attention kernel and feed-forward are arbitrary functions; attention
is a function of the keys a mask leaves visible. Nothing else is assumed of them, so each theorem holds for every model.

| file | what it is about | main result |
|---|---|---|
| `Attention`, `KvCache`, `Llama`, `CausalLm` | masks, the growing cache, the decoder stack | feeding a sequence in pieces over the cache is the full recompute; truncation leaves the cache of the shorter sequence |
| `PagedKv`, `PagedLlama`, `PagedLanes`, `PagedShare` | block pool, block tables, copy-on-write prefix sharing, many sequences on one pool | a paged cache answers every operation as a contiguous one; opening, seeding, stepping or dropping one sequence changes no other's content, and the pool counts exactly the sequences' references; decoding over it is the full recompute, and a request seeded with another's blocks runs as if cold |
| `Stream` | `decode_loop` and its two entry points | cached decoding is `Solo`, and leaves exactly the kept tokens cached; constraint, host stop and cancel do to a run what they promise |
| `Speculative` | prompt-lookup and draft-model speculation with rollback | greedy speculation is `Solo`; in both modes, under any flag, the whole run is the cache-free one that proposes, accepts one by one and commits; both caches hold the history less one token at every step |
| `Prefix` | shared-prefix reuse | exact reuse over any sequence of calls, exactly as far as the stored rows reach (see below) |
| `Scheduler`, `Lanes`, `Timing`, `Continuous`, `PerSeq` | iteration-level batching over one block pool, both exactness modes | every request's events and output are its solo run's under the same cancel flag, started at the pass a first-come-first-served schedule gives it; no block is left held |
| `Batch` | left-padded lockstep batching with compaction | the same, through masks, positions and row compaction |
| `Hybrid` | linear-attention layers with conv tail and recurrent state | chunked equals whole for the mixed schedule; attention layers alone are the plain decoder |
| `Moe` | routing by inversion and scatter-add | every token gets the weighted sum over its own experts, in any expert order |
| `SmartResize` | the shape an image or video is resized to | both sides without a square root, and exactly when the pixel count lies within the bounds |
| `Expand`, `Mrope`, `Splice`, `Provider`, `Vision`, `Preprocess`, `Alignment` | placeholders, positions, patches, features | the whole returned pixel buffer follows the returned position ids, merged rows meet their placeholders' positions, and every run gets the rows of its own image or frame |
| `Resize` | fixed-point bicubic resize | every read in range, weights sum to one for all sizes, both passes together stay within 4.7 of the exact separable bicubic, lines and parabolas reproduced, solid colours and the own shape exact |
| `Gguf`, `GgufBytes`, `Dequant`, `Convert` | container, k-quants, q/k row order | round trips, and the format's own numbers byte by byte |

`Prelude`, `Arith`, `Tables` and `Sampler` hold shared vocabulary. `dafny verify dfyconfig.toml` checks everything.

Methods keep the source's loops, in-place updates and branches; each is proved against a function or a predicate, and
the lemmas say what that function or predicate means.

## Where the code and its documentation part

- Prefix reuse is documented as exact. `store` (src/decode/prefix.rs:118-131) keys the full sequence, but a run that
  ends by its budget (or by a host stop) never feeds its last token back, so the stored rows are one short of the key.
  A prompt that extends the whole key then reads a row that was never stored. `Prefix.OutOfRangeIffShortEntryExtended`
  says exactly when, `Prefix.ShortEntryBreaksReuse` gives a prompt whose output changes, and
  `Prefix.SliceIsExactIffInRange` and `Prefix.GenerateCached` prove exactness on everything else.
- `Qwen35Cache::offset` (src/models/qwen35.rs:512-521) reads the first full-attention slot. On a stack shallower than
  `full_attention_interval` it stays 0: `Hybrid.OffsetCountsTokensIffAttention`.
- `smart_resize` is documented to keep the pixel count within `[min_pixels, max_pixels]` (src/image.rs:236-240). It
  tests each bound once, before it grows or shrinks (src/image.rs:273-283), so the result can pass either.
  `SmartResize.KeepsBounds` is the condition a caller can check beforehand, and `SmartResize.WithinBoundsIff` proves
  it exact: growing may pass the upper bound; shrinking passes it when both sides are clamped to one block, or one is
  and the other has too little room; shrinking may fall below the lower bound, but never to a quarter of the upper
  one. `GrowthCanOvershoot`, `StripCanOvershoot`, `LongVideoOvershoots` and `ShrinkingCanUndershoot` are such inputs.
  The shipped image bounds are kept for every accepted shape (`ImageDefaultsHold`), the shipped video bounds for up to
  122 frames (`VideoDefaultsHold`).

## Modelling choices

- Arithmetic is exact: `real` for floats, unbounded `int` for indices. The 8-bit resize and the quantised formats keep
  their integer and bit-vector arithmetic. Rounding of the float kernels, which the source itself names as a caveat
  (src/decode/speculative.rs:15-24, src/decode/continuous.rs:11-23), is outside.
- The fused attention kernel is asked only for the shapes on which src/primitives/attention.rs:21-26 says it is right: a
  precondition, not a promise about its results elsewhere.
- A blocked key has weight zero in an additive mask. The source adds -1e30 (src/primitives/attention.rs:17-19), whose
  exponential is zero after rounding but not in exact arithmetic.
- A key/value entry carries all heads of one position; batch rows are an explicit axis.
- `core_llm` is represented by small contracts. The scheduler hands out ids in order and on `record` checks the stop
  tokens, then pushes, then checks the length. The prefix index returns a longest common prefix, touches it, and evicts
  the least recently used entry. `ngram_propose` proposes at most `k` tokens; an accepted token is the draft. A cancel
  flag, once tripped, stays tripped; polls are counted in program order.
- Out-of-range gathers read an arbitrary value (`unread` in `Prefix`), as the array library leaves them unspecified.
- Sampling parameters carry the sampler as functions of logits, history, constraint mask and generator state. Greedy
  sampling never touches the generator. Seeds are explicit.
- In `PagedKv` the ghost parameter `others` counts the block references the other sequences hold;
  `KeptFor(before, after, others)` is the promise each operation makes to them. Where the source drops a cache and so
  returns its blocks, the model calls `Drop`.

## Model

| member | source | states |
|---|---|---|
| Attention.SdpaChunkedPrefill | src/primitives/attention.rs:132-172 | chunks of at most eight query rows, each over its own key prefix, concatenate to the one unchunked attention call, for causal, unmasked and additive-mask input |
| Attention.CausalChunk | src/primitives/attention.rs:132-172 | rows `c0..c1` of a causal call are the causal call of those rows over the keys they may see |
| Attention.SdpaDispatch | src/primitives/attention.rs:68-84 | whatever head size and query length choose, the result is the single attention call |
| Attention.SdpaFused | src/primitives/attention.rs:86-103 | the fused kernel is only ever called where it is right: at most eight query rows, or a head count or head size it does not break on |
| Attention.CausalMask | src/primitives/attention.rs:263-274 | the flat buffer is the row-major causal keep matrix |
| Attention.CausalMaskIsCausal | src/primitives/attention.rs:263-274 | attending under that matrix equals the fused kernel's implicit causal convention |
| Attention.MaskedSoftmaxSeesOnlyVisible | src/primitives/attention.rs:209-248 | for any score function, numerator and denominator of the masked softmax are those over the visible keys alone |
| KvCache.ContiguousKvCache.Update | src/primitives/kv_cache.rs:109-119 | each row becomes what it held followed by the new step; no other layer changes; the result is what is now held |
| KvCache.ContiguousKvCache.RetainSequences | src/primitives/kv_cache.rs:141-149 | row `i` afterwards is row `keep[i]` before, in every layer |
| KvCache.ContiguousKvCache.Truncate | src/primitives/kv_cache.rs:151-168 | a negative length is an error that changes nothing; otherwise every row keeps exactly its first `len` positions |
| KvCache.ContiguousKvCache.Seeded | src/primitives/kv_cache.rs:92-100 | a seeded cache holds one row per layer, the given keys and values |
| KvCache.ContiguousKvCache.Export | src/primitives/kv_cache.rs:103-106 | a snapshot exists exactly when every layer is filled, and is the contents |
| PagedKv.PagedKvCache.Update | src/primitives/paged_kv_cache.rs:379-394 | a batch other than one is an error that changes nothing; otherwise the layer's content grows by exactly the step, every other layer's is untouched (also through freezing), and the gathered result is that content; the length advances with the last layer |
| PagedKv.PagedKvCache.FreezeFullBlocks | src/primitives/paged_kv_cache.rs:315-342 | moving whole blocks out of the tails changes no layer's content, leaves less than a block in each tail, and touches no block another sequence holds |
| PagedKv.PagedKvCache.Truncate | src/primitives/paged_kv_cache.rs:422-485 | every layer keeps exactly its first `len` positions, in the tail case and in the block-dropping case; shared blocks are released, never written |
| PagedKv.PagedKvCache.TruncateBlocks | src/primitives/paged_kv_cache.rs:448-484 | dropping whole blocks with the remainder put back into a private tail keeps exactly the first `len` positions of each layer |
| PagedKv.PagedKvCache.Reset | src/primitives/paged_kv_cache.rs:487-500 | nothing is held any more, all references go back, other sequences' blocks are as they were |
| PagedKv.PagedKvCache.Drop | src/primitives/paged_kv_cache.rs:507-516 | a dropped sequence returns one reference per table entry; blocks of others are as they were |
| PagedKv.PagedKvCache.RetainSequences | src/primitives/paged_kv_cache.rs:408-420 | `[0]` keeps, `[]` drops, anything else is an error that changes nothing |
| PagedKv.PagedKvCache.Seeded | src/primitives/paged_kv_cache.rs:221-235 | a seeded sequence starts with the shared blocks' content, adds one reference to each, copies and writes none |
| PagedKv.PagedKvCache.ShareablePrefixBlocks | src/primitives/paged_kv_cache.rs:250-275 | as many whole blocks as fit in `tokens`; afterwards the pool holds their data and joining them gives the beginning of this sequence's own content in every layer; its content is unchanged |
| PagedKv.PagedKvCache.Gather | src/primitives/paged_kv_cache.rs:349-354 | the gathered tensor is the layer's whole content in position order; building the missing half changes nothing |
| PagedKv.PagedKvCache.ReservedTokens | src/primitives/paged_kv_cache.rs:284-291 | a whole number of blocks, less than one block above the true length |
| PagedKv.ChunkOfJoined | src/primitives/paged_kv_cache.rs:362-375 | cutting the concatenation of the table's blocks back into blocks gives each block |
| PagedKv.LayerFrozen | src/primitives/paged_kv_cache.rs:325-334 | after a freeze, frozen run plus remaining tail is what the layer held before |
| PagedKv.OthersKeepTheirView | src/primitives/paged_kv_cache.rs:18-27 | copy on write: if an operation keeps the blocks a sequence holds, that sequence stays consistent and caches what it did |
| PagedKv.SameAsContiguous | src/primitives/paged_kv_cache.rs:22-27 | from equal contents, an update or a truncation of the contiguous cache gives the contents the paged one then has |
| PagedKv.BlockPool.AllocEmpty | src/primitives/paged_kv_cache.rs:119-128 | the id was held by nobody, now counts one reference and carries no data; a free id is used again exactly when there is one, and then the least; no held block changes |
| PagedKv.BlockPool.ReleaseAll | src/primitives/paged_kv_cache.rs:487-493 | one reference each is dropped; a block somebody still holds is unchanged |
| Llama.LayerForward | src/models/llama.rs:689-701 | over a batch, each row gets the single-row layer result over its own cached row; only this layer's slot changes |
| Llama.RunDecoderStack | src/models/llama.rs:578-592 | rows do not interact: states and cache of row `r` are the single-row stack's |
| Llama.StackSplit | src/models/llama.rs:578-592 | for every stack, feeding `x` then `y` over the cache gives the states and the cache of feeding `x + y` |
| Llama.IncrementalIsFull | src/models/llama.rs:560-592 | stepping `s` over the cache of `p` gives the tail of the full recompute over `p + s` and exactly its cache |
| Llama.CachePrefix | src/models/llama.rs:837-852 | cutting the cache of a sequence to `n` positions is the cache of its first `n` tokens |
| CausalLm.StepIsRecompute | src/models/llama.rs:351-360 | a cached step reports at every fed position the logits of a full recompute up to there |
| CausalLm.TruncateHolds | src/primitives/kv_cache.rs:151-168 | a cache that holds `toks`, rolled back to `n`, holds `toks[..n]` |
| CausalLm.ExtendAll | src/models/llama.rs:501-514 | position `i` of the all-positions pass has the logits of history plus the first `i + 1` fed tokens, and the cache then holds all of them |
| CausalLm.OffsetIsHeld | src/primitives/kv_cache.rs:121-127 | the offset of a cache is the number of tokens it holds |
| Stream.DecodeLoop | src/decode/stream.rs:259-327 | the loop over any cache is the recursive cached run, with one `Token` per kept token in order and one final `Done` |
| Stream.CachedRunIsSolo | src/decode/stream.rs:259-327 | over a cache that really holds the history the loop is `Solo`, and it leaves prompt plus generated cached, without the last token exactly when a non-empty run ended by budget or host stop |
| Stream.SoloWithinBudget | src/decode/stream.rs:274-317 | nothing generated is dropped, the budget is never exceeded, and ending by budget means it was filled |
| Stream.GenerateWith | src/decode/stream.rs:135-172 | typed cancel before any work, an error on an empty prompt, otherwise output and events of the cache-free run; every token is allowed by the mask that follows the tokens before it, the host's condition stops the run at once and nothing else reports it, no stop token is returned, and a cancel flag cuts the uncancelled run at its poll |
| Stream.SoloIsConstrained | src/decode/stream.rs:281-298 | for a sampler that respects its mask, every token of a constrained run is allowed by the mask that follows the tokens before it, as long as that mask allows any |
| Stream.SoloStopsAtHost | src/decode/stream.rs:300-307 | a run is `Stopped` exactly when the host's condition holds of the returned tokens, and of no shorter non-empty prefix |
| Stream.SoloExcludesStops | src/decode/stream.rs:290-293 | no stop token is ever returned |
| Stream.CancelledIsCut | src/decode/stream.rs:274-281 | a run under a flag that trips at poll n is the uncancelled run if its last draw came before, and otherwise the tokens drawn before, reported as cancelled |
| Stream.SoloIsGreedy | src/decode/stream.rs:259-327 | every token of a greedy run is the argmax over the full recompute of what comes before it |
| Stream.GenerateWithCache | src/decode/stream.rs:179-222 | resuming over a caller's cache that holds a proper prefix of the prompt is the cold run; a cache not shorter than the prompt is an error that leaves it alone |
| Speculative.DecideGreedy | src/decode/speculative.rs:308-330 | the accepted drafts are the longest agreeing prefix, every committed token is the argmax after the tokens before it, and the token after the prefix differs from the rejected draft |
| Speculative.DecideStochastic | src/decode/speculative.rs:336-373 | over the rows of one batched pass: accepted count, bonus token and generator are those of the one-by-one rejection sampler that recomputes the target after each accepted token |
| Speculative.AcceptsWhilePassing | src/decode/speculative.rs:336-373 | under the usual acceptance rule, draft i is accepted while the 2i-th uniform times its proposal probability is at most its target probability; the first that fails ends the round, and the generator has advanced by exactly the uniforms used |
| Speculative.VerifyAndRollBack | src/decode/speculative.rs:134-150 | the cache goes from the history less its last token to the new history less its last token; greedy rounds are greedy chains, stochastic rounds are the one-by-one sampler's |
| Speculative.RollBack | src/decode/speculative.rs:149-150 | cutting a cache fed the last token and all drafts after the accepted ones leaves the new history less its last token |
| Speculative.GreedyRoundIsSolo | src/decode/speculative.rs:153-166 | committing a greedy chain moves the reference run forward by exactly those tokens, or ends it as the commit loop does |
| Speculative.Commit | src/decode/speculative.rs:153-166 | tokens are kept until a stop token or the budget; history and events grow by exactly the kept ones |
| Speculative.RoundStep | src/decode/speculative.rs:118-167 | generated equals forwards plus accepted at every loop head; leaving by a round meets the run's promise |
| Speculative.GeneratePromptLookup | src/decode/speculative.rs:73-171 | in both modes and under any flag, tokens, finish reason and statistics are those of the cache-free run that proposes from the history, accepts one by one and commits; an uncancelled greedy run has the tokens, finish reason and events of `Solo` for any proposer (a prefix when cancelled); tokens equal forwards plus accepted unless a stop token ended the run |
| Speculative.ProposeDrafts | src/decode/speculative.rs:247-264 | `k` drafts with the draft cache covering all of them: they and the generator are the draft model's own run over full recomputes, and when sampling each comes with the shaped distribution it was drawn from |
| Speculative.GenerateDraftSpeculative | src/decode/speculative.rs:183-303 | the same for any draft model, with both caches in step through every rollback and the draft model's own distributions handed to the acceptance test; a vocabulary mismatch or empty prompt is an error |
| Speculative.RoundTaken | src/decode/speculative.rs:118-166 | one round over caches and a batched pass is one round of the cache-free run |
| Speculative.GreedyDecides | src/decode/speculative.rs:308-330 | the longest agreeing prefix over the batched rows is what deciding one position at a time gives |
| Prefix.PrefixCache.SeedFor | src/decode/prefix.rs:92-113 | a hit seeds a cache with the slice of the best entry and counts lookups, hits, reused and computed tokens; ids of keys and tensors stay equal |
| Prefix.PrefixCache.Store | src/decode/prefix.rs:118-131 | the new entry is kept with the cache's rows under the full sequence, evicted tensors go, every other entry keeps its key and tensors; exactness is kept when the new entry is exact |
| Prefix.PrefixIndex.LongestMatch | src/decode/prefix.rs:95-100 | the best match is returned, and on a hit its entry becomes the most recent one |
| Prefix.PrefixIndex.Insert | src/decode/prefix.rs:118-131 | the key gets a fresh id and is the most recent entry; the least recently used ones beyond the capacity are evicted |
| Prefix.SliceIsExactIffInRange | src/decode/prefix.rs:192-203 | slicing a stored entry gives the cache of that prefix for every possible out-of-range read if and only if the length is within the stored rows |
| Prefix.OutOfRangeIffShortEntryExtended | src/decode/prefix.rs:92-131 | a lookup reads past the stored rows if and only if the best entry lacks its last token and its whole key is a proper prefix of the prompt |
| Prefix.ShortEntryBreaksReuse | src/decode/prefix.rs:118-131 | a concrete model and prompt on which reuse changes the output |
| Prefix.HitIsExact | src/decode/prefix.rs:92-113 | on an exact cache, a lookup in range seeds exactly the cache of the prompt's own prefix |
| Prefix.KeptIsExact | src/decode/stream.rs:274-317 | what a finished run leaves cached is the cache of a prefix of the sequence it is stored under, at most one token short |
| Prefix.GenerateCached | src/decode/prefix.rs:144-188 | from an exact cache, a call in range gives the cold run event for event and leaves the cache exact, with the new entry's rows named; statistics follow the best match of the lookup, and reused plus computed tokens grow by the prompt |
| Scheduler.RecordIsSolo | src/decode/continuous.rs:306-340 | recording the next solo token either finishes the request with its solo output and events or keeps it on the solo path |
| Scheduler.EventsForTagged | src/decode/continuous.rs:306-340 | appending one request's events extends its own projection and no other |
| PagedLlama.PagedStack | src/models/llama.rs:578-592 | over a paged cache, states and cached content of the stack are those of the same stack over a contiguous view; blocks of other sequences are kept |
| PagedLlama.PagedDecodeLogits | src/models/llama.rs:351-359 | stepping a paged cache that holds a sequence gives the full recompute's logits, and the cache then holds the longer sequence |
| PagedLlama.ExtendLane | src/decode/continuous.rs:275-301 | many lanes over one pool: feeding one gives the logits of its own history, and every other lane holds what it held |
| PagedLlama.OneLaneStepped | src/primitives/paged_kv_cache.rs:18-27 | with the pool counting exactly the lanes' references, a step of one lane that keeps the others' blocks leaves every other lane where it was, mid-step or not, and the pool counting exactly |
| PagedLanes.OpenLane | src/decode/continuous.rs:235-260 | a fresh cache joins the pool holding nothing; the other lanes hold what they held |
| PagedLanes.DropLane | src/primitives/paged_kv_cache.rs:507-516 | a lane's references go back, every other lane is where it was, and the pool counts exactly the rest |
| PagedLanes.UpdateLane | src/models/llama.rs:854-873 | one layer's update of one lane's cache, in the middle of a step: its layer grows by the step, all other lanes are where they were |
| PagedShare.OfferPrefix | src/primitives/paged_kv_cache.rs:250-275 | a lane offers its whole blocks within the first `tokens` positions; every lane, the donor included, still holds what it held |
| PagedShare.SeedLane | src/primitives/paged_kv_cache.rs:221-235 | a new lane adopts the offered blocks: none is written, each has one reference more, and it holds the donor's tokens up to there |
| PagedShare.OfferedIsPrefix | src/primitives/paged_kv_cache.rs:18-27 | offered blocks hold exactly the keys and values of the donor's first tokens |
| PagedShare.LaneLoop | src/decode/stream.rs:259-327 | `decode_loop` over one lane of a shared pool is the cache-free run, and leaves exactly the kept tokens in that lane |
| PagedShare.GenerateWithLane | src/decode/stream.rs:179-222 | resuming over a paged lane that holds a proper prefix of the prompt is the cold run; a lane that leaves no suffix is refused and left alone |
| PagedShare.GenerateShared | src/primitives/paged_kv_cache.rs:18-27 | a request seeded with another's blocks feeds only the rest of its prompt and yields the cold run's output and events, while the donor and all other lanes hold what they held |
| Lanes.RecordToken | src/decode/continuous.rs:306-340 | one request's record changes, the emitted events say so, the lane goes on exactly when it is unfinished, and the total work left shrinks |
| Lanes.BooksRecord | src/decode/continuous.rs:174-181 | recording a lane's next token keeps the partition into retired, live and queued and every request's place on its solo path, with the lane advanced or gone |
| Lanes.BooksAdmit | src/decode/continuous.rs:184-189 | taking the next request off the queue keeps the partition, whether it got a lane or retired at once |
| Lanes.RecordRows | src/decode/continuous.rs:174-181 | the pass over the logits keeps the books and draws exactly once for every lane; survivors keep their order and slots |
| Lanes.AllRetired | src/decode/continuous.rs:216-228 | no lane and no queue left means every request was delivered its solo run |
| Timing.EndsExactly | src/decode/continuous.rs:162-228 | a run that is through, or stopped at the first poll at which the flag is tripped, has for every request its solo run under that flag, started at the pass the schedule gives it |
| Timing.ScheduleAdmits | src/decode/continuous.rs:184-189 | taking the next request while a slot is free is the first-come-first-served schedule |
| Timing.ScheduleTicks | src/decode/continuous.rs:172-181 | a pass keeps the schedule: every lane has drawn once at its admission and once in every pass since |
| Timing.OccupiedIsLanes | src/decode/continuous.rs:160-190 | the slots the schedule counts as taken, from the lengths of the solo runs, are the lanes |
| Timing.FirstAtOnce | src/decode/continuous.rs:154-160 | as many requests as there are slots are admitted before any pass |
| Timing.AdmissionsGrow | src/decode/continuous.rs:184-189 | nobody is admitted before an earlier request |
| Timing.UnderFlagIsCut | src/decode/continuous.rs:165-170 | under a flag a request is its uncancelled solo run, cut at the flag |
| PerSeq.LayerForwardPerSeq | src/models/llama.rs:854-873 | over one pool, each row attends its own paged cache only and moves that cache alone one layer on |
| PerSeq.DecodeLogitsPerSeq | src/models/llama.rs:530-558 | row `r` of the batched step is sequence `r`'s own batch-1 step, and afterwards each cache has exactly its own sequence's step appended; a length mismatch is an error that touches no cache |
| Continuous.AdmitLane | src/decode/continuous.rs:235-270 | a queued request gets a fresh paged cache holding its prompt and its first token recorded, or retires with its solo output and its blocks go back; the other lanes hold what they held |
| Continuous.StepLanes | src/decode/continuous.rs:275-301 | in either mode every lane gets the logits of its own history and its cache then holds that history |
| Continuous.StepExact | src/decode/continuous.rs:277-285 | batch-1 steps one after the other, each on its own lane of the shared pool |
| Continuous.StepThroughput | src/decode/continuous.rs:286-300 | one batched forward with per-sequence attention gives the same logits and the same caches |
| Continuous.DropRetired | src/decode/continuous.rs:174-181 | the caches of retired lanes are returned to the pool and the survivors hold what they held |
| Continuous.DecodeStep | src/decode/continuous.rs:172-181 | one pass keeps the books and each survivor's cache, and makes progress |
| Continuous.Refill | src/decode/continuous.rs:184-189 | afterwards every slot is taken or the queue is empty; never more than `max_batch` lanes |
| Continuous.CancelRest | src/decode/continuous.rs:192-214 | after a cancel every request has exactly one `Done`, last, matching its output |
| Continuous.GenerateContinuous | src/decode/continuous.rs:117-229 | each request's projected events are those of its returned output, which is its solo run under the same flag, started at the pass in which it got its slot: the whole solo run if it finished before the flag tripped, cut there otherwise, empty if it still waited; bad arguments are errors without events |
| Continuous.NothingLeft | src/decode/continuous.rs:146-190 | with the last lane gone the pool counts no reference: an uncancelled run holds no block at the end |
| Batch.PaddedStackPrefill | src/decode/batch.rs:217-247 | through any number of masked layers, state and cache at column pad + i are the unpadded stack's at i |
| Batch.PaddedStackDecode | src/decode/batch.rs:250-262 | a masked decode step over a padded row is the unpadded causal step at position width - pad, for states and caches of every layer |
| Batch.PaddedPrefillIsSolo | src/decode/batch.rs:217-247 | the last column of the padded prefill has the prompt's own logits |
| Batch.BuildPrefill | src/decode/batch.rs:217-247 | ids, positions and mask of each row: padding in front, positions counting from the first real token, keep exactly the real columns up to the diagonal |
| Batch.DecodeMask | src/decode/batch.rs:250-262 | each row keeps exactly the columns from its own padding on |
| Batch.GatheredRow | src/decode/batch.rs:194-196 | after compaction, cache row `i` is the row that was `keep[i]` |
| Batch.Compact | src/decode/batch.rs:194-196 | every active lane's row is again padding followed by that lane's own tokens |
| Batch.LockStep | src/decode/batch.rs:160-198 | one pass keeps the books, the row-to-lane alignment and the widths, and makes progress |
| Batch.GenerateBatch | src/decode/batch.rs:88-212 | each request's events and output are its solo run's under the same flag, whatever it was batched with; one `Done` each, last and matching |
| Hybrid.FoldSplit | src/primitives/gated_delta.rs:59-122 | running the recurrence over a chunk in two pieces gives the same outputs and state |
| Hybrid.DeltaSplit | src/models/qwen35.rs:231-283 | a linear layer's conv tail and recurrent state carry everything over a chunk boundary |
| Hybrid.HybridIncrementalIsFull | src/models/qwen35.rs:583-596 | for the mixed schedule, feeding `a` then `b` gives the states, conv tails, recurrent states and keys of feeding `a + b` |
| Hybrid.LayerForward | src/models/qwen35.rs:455-471 | an error exactly when the slot is of the other kind |
| Hybrid.HiddenFromEmbeds | src/models/qwen35.rs:583-595 | the loop over the layers is the mixed-schedule stack, in states and in slots |
| Hybrid.AttnSees | src/models/qwen35.rs:326-332 | token i of an attention layer attends to the cached positions, the tokens before it and itself |
| Hybrid.AllAttentionIsPlain | src/models/qwen35.rs:583-595 | a stack of attention layers alone gives the states and keys of the plain causal decoder stack |
| Hybrid.FreshSlotsFit | src/models/qwen35.rs:558-571 | the cache built from the schedule fits every scheduled stack, so that error cannot occur |
| Hybrid.OffsetCountsTokensIffAttention | src/models/qwen35.rs:512-521 | the reported offset counts the tokens if and only if the stack is deep enough to contain a full-attention layer |
| Moe.SoftmaxIsDistribution | src/models/llama.rs:1086-1089 | router probabilities are positive and sum to one |
| Moe.ShiftCancels | src/models/llama.rs:1086-1089 | the shift by the maximum cancels: each probability is its exponential over the sum of the plain exponentials |
| Moe.SoftmaxKeepsOrder | src/models/llama.rs:1086-1089 | a larger score never has the smaller probability |
| Moe.SortedPrefixIsTopK | src/models/llama.rs:1090-1092 | the first `k` of any descending sort are a top-k choice, whatever the ties |
| Moe.NormalisedWeightsSumToOne | src/models/llama.rs:1094-1101 | renormalised weights sum to one for every router row; the smallest-positive guard never bites |
| Moe.WeightIs | src/models/llama.rs:1094-1101 | each weight is the expert's share of the chosen probabilities, or its probability times the routing factor |
| Moe.RoutedIff | src/models/llama.rs:1083-1102 | a token is in an expert's list exactly if it chose it, exactly once, with its weight |
| Moe.ListLengthsSum | src/models/llama.rs:1083-1102 | list lengths add up to tokens times k |
| Moe.AnyExpertOrder | src/models/llama.rs:1104-1120 | visiting the experts in any order gives a token the direct sum over its own |
| Moe.Forward | src/models/llama.rs:1069-1133 | every token gets its direct weighted sum plus the shared branch |
| Mrope.MropePositionsMm | src/models/deepstack.rs:84-156 | accepted exactly when the stream parses, with the first fault's error; three rows as long as the input, the layout of its blocks; delta is cursor minus length, at most zero |
| Mrope.ParseIsSound | src/models/deepstack.rs:107-152 | the blocks of an accepted stream spell exactly the tokens |
| Mrope.ParseOfRendered | src/models/deepstack.rs:107-152 | the tokens of rendered blocks parse back to those blocks |
| Mrope.LayoutRange | src/models/deepstack.rs:136-154 | the cursor is one more than the largest position so far and never outruns the tokens |
| Mrope.LaterBlocksExceedEarlier | src/models/deepstack.rs:136-150 | every position of a block exceeds every earlier position, across all three axes |
| Mrope.TextOnly | src/models/deepstack.rs:84-156 | text counts one per token on all axes |
| Mrope.VideoFrames | src/models/deepstack.rs:93-101 | a video grid becomes one single-frame grid per frame; a non-positive count is the error |
| Expand.ExpandVisionPlaceholders | src/models/qwen35.rs:1156-1181 | refused exactly on a count mismatch |
| Expand.ExpandImageTokens | src/joycaption.rs:121-131 | the loop expands every image token to the fixed number of copies |
| Expand.ExpandedCounts | src/models/qwen35.rs:1156-1181 | expansion leaves exactly the promised copies and every other token's count alone |
| Expand.ExpandedKeepsTheRest | src/joycaption.rs:121-131 | all other tokens stay, in order |
| Expand.ExpansionsCommute | src/models/qwen35.rs:1156-1181 | image and video expansion commute |
| Expand.ExpansionSpellsBlocks | src/provider.rs:445-453 | expanding both placeholders by their grids' counts spells the prompt's blocks |
| Expand.ExpandedPromptIsAccepted | src/provider.rs:445-483 | a prompt with matching grids and separated placeholders is always accepted by the position parser |
| Splice.SpliceVisionFeatures | src/models/deepstack.rs:30-73 | refused exactly when placeholders and features differ in number; otherwise feature rank(p) stands at placeholder p and nothing else changes |
| Splice.ImageGatherIndex | src/joycaption.rs:135-158 | text position p maps to p, the k-th image token to the k-th appended feature |
| Splice.SpliceByGather | src/joycaption.rs:163-183 | the gather form is the same splice |
| Splice.SpliceIsUnique | src/models/deepstack.rs:30-73 | there is only one spliced sequence, so the two forms agree |
| Splice.AddVisualFeatures | src/models/deepstack.rs:178-237 | feature rank(p) is added at visual position p, the rest is left alone |
| Splice.FusionMatchesSplice | src/models/deepstack.rs:178-237 | adding onto rows that are zero at the visual positions is the splice |
| Splice.FusedDecoderLayers | src/models/deepstack.rs:158-176 | tap i is added right after layer i; refused exactly when a tap that is reached does not fit |
| Provider.MergedFrameTimestamps | src/provider.rs:199-212 | exactly grid_t timestamps, each the mean of its temporal patch's ends |
| Provider.FrameCountsAreGridCounts | src/provider.rs:428-435 | counting placeholders per frame while walking the conversation is counting per frame grid |
| Provider.RowsAddUp | src/provider.rs:418-461 | as many feature rows as placeholders after expansion |
| Provider.TapsAddUp | src/provider.rs:462-474 | every tap has as many rows as there are feature rows |
| Provider.PrepareMultimodal | src/provider.rs:379-492 | a fitting prompt is never refused; ids, embeddings, masks and positions returned line up, and every DeepStack tap has exactly one row per visual position; an image count that differs is refused |
| Provider.FusionAccepts | src/models/deepstack.rs:158-176 | the fused decoder never refuses the taps of such a prefill |
| Provider.PromptFollowsRuns | src/provider.rs:418-483 | a prompt whose placeholders have the kinds of the conversation's runs in order gives each run its own grid |
| Provider.SpliceByBlocks | src/provider.rs:475-480 | the splice gives every run its own rows in order and every text token its embedding |
| Provider.AssembledByDocument | src/provider.rs:379-492 | when the k-th placeholder has the kind of the k-th image or frame of the conversation and equal placeholders are apart, the prompt fits and each run gets the rows of its own image or frame |
| Vision.PatchOrderAt | src/models/qwen35_vision.rs:410-429 | the four nested loops put cell (a·m + b, c·m + d) at its block-major place |
| Vision.PlaceOfPatch | src/models/qwen35_vision.rs:410-429 | with `EveryCellOnce`: the order is a permutation of the frame |
| Vision.EveryCellOnce | src/models/qwen35_vision.rs:410-429 | every cell of the frame appears, at its own place |
| Vision.MergedRowMatchesMrope | src/models/qwen35_vision.rs:218-229 | merged row q is one spatial block whose coordinates are the (h, w) offsets its placeholder gets from the position rows |
| Vision.VisionPositionIds | src/models/qwen35_vision.rs:410-429 | each frame in merge-block order, once per frame of each grid |
| Vision.PositionIdsFillFrames | src/models/qwen35_vision.rs:395-429 | as many positions as the cumulative lengths count |
| Vision.ReorderTable | src/models/qwen35_vision.rs:485-504 | a row-major table is gathered into the same order, per frame |
| Vision.VisionCuSeqlens | src/models/qwen35_vision.rs:395-408 | strictly framed cumulative boundaries ending at the total |
| Vision.BlockDiagMask | src/models/qwen35_vision.rs:551-571 | no mask for a single frame, otherwise a pair is visible exactly when both lie in one frame |
| SmartResize.SmartResizeWith | src/image.rs:248-285 | refused exactly for a zero side or an aspect ratio over 200; otherwise the shape `Chosen` describes: the rounded sides within the bounds, the greatest multiples within the scaled sides (at least one block) above them, the least that reach the scaled sides below them; the pixel count lies within the bounds if and only if `KeepsBounds` holds of the inputs |
| SmartResize.RoundFactorIsNearest | src/image.rs:267-270 | a rounded side is the nearest number of whole blocks, the even one of two equally near, and there is no other |
| SmartResize.WithinBoundsIff | src/image.rs:236-284 | the pixel count of the chosen shape is within both bounds if and only if `KeepsBounds` holds; shrunk shapes keep more than a quarter of the upper bound, all others reach the lower one |
| SmartResize.ShrunkFitsIff | src/image.rs:275-278 | a shrunk shape meets the upper bound if and only if not both scaled sides are shorter than a block and, beside a single clamped one, the other scaled side ends before the first block without room |
| SmartResize.ShrunkReachesIff | src/image.rs:275-278 | a shrunk shape meets the lower bound if and only if some pair of allowed sides does |
| SmartResize.GrownFitsIff | src/image.rs:279-283 | a grown shape always meets the lower bound, and the upper one if and only if some pair of long enough sides does |
| SmartResize.ShrunkAboveQuarter | src/image.rs:275-278 | shrinking leaves more than a quarter of the upper bound |
| SmartResize.ChosenIsUnique | src/image.rs:248-285 | the inputs determine the chosen shape |
| SmartResize.SafeBounds | src/image.rs:248-285 | bounds far enough apart for the block size and the aspect limit are kept for every accepted shape |
| SmartResize.ImageDefaultsHold | src/image.rs:217-242 | with the shipped image bounds every accepted shape lies within both |
| SmartResize.VideoDefaultsHold | src/image.rs:217-242 | with the shipped video bounds so does every accepted shape of up to 122 frames |
| SmartResize.LeastIsUnique | src/image.rs:279-283 | there is at most one grown side |
| SmartResize.GreatestIsUnique | src/image.rs:275-278 | there is at most one shrunk side |
| SmartResize.GrowthCanOvershoot | src/image.rs:279-283 | one pixel with an upper budget of 100 grows to 1024 pixels |
| SmartResize.StripCanOvershoot | src/image.rs:275-278 | 32 by 6400 with an upper bound of 1000 shrinks to 32 by 416, 13312 pixels |
| SmartResize.LongVideoOvershoots | src/image.rs:275-278 | 100000 frames of 720 by 1280 shrink to one block each and pass the shipped upper bound |
| SmartResize.ShrinkingCanUndershoot | src/image.rs:275-278 | 63 by 63 with both bounds 3969 shrinks to 1024 pixels |
| Preprocess.PatchKIsCellK | src/image.rs:313-330 | within one temporal patch, patch k holds exactly the pixels of the k-th cell the position ids list |
| Preprocess.PatchPixel | src/image.rs:313-330 | every pixel a patch inside the frames reads is there |
| Preprocess.NormUndone | src/image.rs:323-328 | undoing the normalisation gives the byte in 255ths; black and white have their own values |
| Preprocess.OrderInside | src/image.rs:313-330 | every cell of a covered frame lies inside it |
| Preprocess.MultiplesAreCovered | src/image.rs:267-284 | a smart-resized shape is covered by whole merged blocks |
| Preprocess.PreprocessImage | src/image.rs:288-336 | refused exactly for a wrong buffer or an unresizable shape; the single frame fills every temporal slot |
| Preprocess.PreprocessVideo | src/image.rs:354-442 | frames of one shape fill the temporal slots in order, the last one repeated to a whole temporal patch; there is at least one temporal patch |
| Alignment.EveryPatchAligned | src/image.rs:411-436 | the whole returned buffer against the whole list of position ids: row k holds exactly the pixels of the k-th position, read from its own temporal patch's frames, and there are no other rows |
| Alignment.ReturnedGridIsGood | src/image.rs:437-441 | a returned grid consists of whole merged blocks, is accepted by the expansion, the position ids and the mask, and has one position id per patch |
| Alignment.MergedRowMeetsItsPlaceholder | src/models/deepstack.rs:129-145 | merged row q of temporal patch f of the returned buffer gets, from the position rows, exactly the height and width of the block its patches come from, wherever its run stands in the prompt |
| Resize.WindowInRange | src/image.rs:31-45 | for all sizes every window is non-empty and inside the source |
| Resize.TotalPositive | src/image.rs:46-55 | the weights of a window never cancel, for all sizes, so the normalising division is defined; their sizes sum to at most 3.7 times their total |
| Resize.WeightsSumToOne | src/image.rs:46-55 | normalised weights sum to one, for all sizes |
| Resize.PrecomputeCoeffs | src/image.rs:31-55 | per output pixel, its window start and exactly those weights |
| Resize.PassError | src/image.rs:63-89 | with 255 times the taps below 2^22, a byte is less than one away from the exact weighted sum clamped to a byte |
| Resize.TwoPassError | src/image.rs:93-139 | after both passes a byte is less than 4.7 away from the exact separable bicubic, for all shapes whose axes shrink by at most 4096 |
| Resize.WeightsStaySmall | src/image.rs:46-55 | the sizes of the weights of an output pixel, negative lobes included, sum to at most 3.7, for all sizes |
| Resize.RowIsReadable | src/image.rs:112-122 | every source value the horizontal pass reads exists |
| Resize.ColumnIsReadable | src/image.rs:127-137 | every intermediate value the vertical pass reads exists |
| Resize.FewTaps | src/image.rs:31-55 | that holds whenever an axis shrinks by at most 4096 |
| Resize.SolidExact | src/image.rs:63-89 | a constant line is reproduced exactly |
| Resize.ResizeBicubicU8 | src/image.rs:93-139 | refused exactly for a zero dimension or a short buffer; otherwise one value per output channel; a solid channel passes unchanged through both passes, and a resize to the own shape changes no byte |
| Resize.OwnShape | src/image.rs:93-139 | a resize to the own shape changes no byte |
| Resize.KeepsParabolas | src/image.rs:17-55 | without shrinking and away from the borders the four weights reproduce constants, lines and parabolas at the exact source position |
| Resize.HalvingWeights | src/image.rs:17-55 | halving away from the borders has the eight weights -3, -9, 29, 111, 111, 29, -9, -3 in 256ths |
| Convert.RowsAreInverse | src/gguf/convert.rs:232-256 | the gather's row map and the forward permutation's are inverse bijections |
| Convert.PermuteInverseQk | src/gguf/convert.rs:232-256 | refused exactly when the rows do not divide into heads of even width; otherwise every row comes from its source row |
| Convert.PermutationsCancel | src/gguf/convert.rs:391-423 | un-permuting after permuting, or the other way round, restores every matrix |
| Gguf.Cursor.Take | src/gguf/reader.rs:316-327 | past the end is an error that does not move; otherwise exactly the next bytes |
| Gguf.Cursor.Value | src/gguf/reader.rs:352-383 | one tagged value, advancing by exactly its bytes |
| Gguf.LeRoundTrip | src/gguf/reader.rs:329-343 | little-endian integers read back |
| Gguf.ValueRead | src/gguf/reader.rs:352-383 | every scalar, string and flat array reads back as written |
| Gguf.NestedArraysRefused | src/gguf/reader.rs:352-383 | an array of arrays is an error wherever it appears |
| Gguf.DataStartIsLeast | src/gguf/reader.rs:239-241 | the data section starts at the least aligned offset at or after the header |
| Gguf.ParseOfSerialized | src/gguf/reader.rs:182-258 | parsing a written image recovers its table, its tensors with dimensions reversed, alignment and data start |
| Gguf.DistinctKeysSurvive | src/gguf/reader.rs:200-206 | with distinct keys the table holds exactly the written entries |
| Gguf.TensorDataOfSerialized | src/gguf/reader.rs:282-298 | a tensor within the data reads back its bytes; one beyond it is the range error |
| GgufBytes.IntegerTags | src/gguf/reader.rs:352-383 | the integer tags, by number, read their bytes as the format says |
| GgufBytes.OtherTags | src/gguf/reader.rs:352-383 | floats, booleans, strings and arrays have their numbers, and nothing else is known |
| GgufBytes.Header | src/gguf/reader.rs:182-198 | the four letters, the version, the two counts |
| GgufBytes.SmallFileParses | src/gguf/reader.rs:182-258 | a small file, byte by byte, parses to its entry and its tensor, dimensions reversed, with the data at the next multiple of 32 |
| GgufBytes.DeclaredAlignment | src/gguf/reader.rs:72-84 | a declared alignment is its own number whatever its integer type, and at least one; a negative number or another type leaves the default of 32 |
| GgufBytes.KQuantSizes | src/gguf/dequant.rs:108-135 | the block sizes of the k-quant tags are those of the packed layouts |
| GgufBytes.GridSizes | src/gguf/dequant.rs:108-135 | the block sizes of the grid formats, from their parts |
| GgufBytes.LegacySizes | src/gguf/dequant.rs:108-135 | the block sizes of the plain and legacy formats, from their parts |
| GgufBytes.UnknownTypes | src/gguf/dequant.rs:80-113 | no other type tag is known |
| GgufBytes.ElementsMultiply | src/gguf/reader.rs:150-155 | the number of elements is the product of the dimensions |
| Dequant.WordParallelIsPerByte | src/gguf/dequant.rs:320-372 | the 32-bit masked unpack of the Q3_K scales gives each scale its own per-byte formula |
| Dequant.ScaleMinBack | src/gguf/dequant.rs:375-384 | packed six-bit scales and minima read back |
| Dequant.DequantQ2K | src/gguf/dequant.rs:288-318 | every one of the 256 outputs is written with its own element, and nothing outside the window is touched |
| Dequant.DequantQ3K | src/gguf/dequant.rs:320-372 | the same for the Q3_K running counters, masks and shifts |
| Dequant.DequantQ4K | src/gguf/dequant.rs:385-410 | the same for Q4_K |
| Dequant.DequantQ5K | src/gguf/dequant.rs:412-444 | the same for Q5_K |
| Dequant.DequantQ6K | src/gguf/dequant.rs:446-470 | the same for the four interleaved columns of Q6_K |
| Dequant.BlockRoundTrip | src/gguf/dequant.rs:288-470 | packing in-range quants and scales and unpacking gives scale times quant less the minimum at every index, in all five layouts |
| Dequant.ElementWithMin | src/gguf/dequant.rs:288-444 | what an element is worth in the layouts with minima: one scale and one minimum for 16 quants of two bits, or for 32 of four or five |
| Dequant.ElementWithoutMin | src/gguf/dequant.rs:320-470 | and in the two without: one scale for 16 quants, the three-bit layout counting scales from 32 and quants from 4, the six-bit one with signed bytes as scales and quants from 32 |
| Dequant.Arithmetic | src/gguf/dequant.rs:288-470 | scale times scale times quant, less minimum times minimum |
| Dequant.Dequantize | src/gguf/dequant.rs:156-218 | refused exactly for a count that is not whole blocks or too few bytes; every weight comes from its own block |
| Dequant.TensorRoundTrip | src/gguf/dequant.rs:156-218 | the round trip for tensors of any number of blocks |

## Left out

- Float rounding, dtype casts, the numerics of softmax, RoPE and norms, and errors the array library can raise.
- `core_llm` internals beyond the contracts above. That `accept_token` preserves the target distribution is its claim;
  here a stochastic round is shown to be the one-by-one sampler.
- A stochastic speculative run is not compared with a stochastic plain run: the two draw differently from the generator.
- MLA layers in Throughput mode, which the source refuses with an error.
- `default_seed`: every request carries a seed.
- The choice between the fused and the eager kernel in `sdpa_capped` (score soft-cap, unequal head sizes): the kernel is
  an arbitrary function of a query and its visible keys.
- The interpolation weights and rotary angles of the vision tower (`vision_bilinear`, `vision_rotary`), beyond the order
  their tables are gathered in.
- The SigLIP preprocessing (`image.rs:165`) and the value range after normalisation.
- The legacy quantisation formats (Q4_0 to Q8_0) and the IQ grids: element-wise formulas and tables.
- Metadata accessors, tensor-name remapping, config reconstruction, snapshot writing, tokenizers, chat templates, tool
  calls, HTTP: table lookups and I/O.
- Overflow of 32-bit position arithmetic.
- The unspecified order of equal probabilities in the expert sort: an arbitrary descending sort stands for it.
- PagedKv.BlockPool.AllocEmpty: the least free id is reused; the order in which the allocator hands freed ids out again
  is internal to `core_llm` and not part of this model.
- SmartResize.SmartResizeWith: the square root is an arbitrary function with the defining property of one, and the
  infinite ratio the source computes for a zero pixel maximum is taken as the smallest shape.
- Moe.NormalisedWeightsSumToOne: for at most 2^126 experts, where the smallest-positive guard cannot bite.

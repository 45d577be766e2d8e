# Paged KV-cache scheduler

A model of the serving core of mini-sglang: the radix prefix cache, the page allocator, the scheduler with both of its
loops, the abort protocol around it, and the block order of the mixture-of-experts kernel.

The files build on each other:

- `Paging`, `Sums`, `Tables`, `Requests`: page arithmetic, counting, the two-dimensional device tables, requests and
  messages.
- `PrefixStore`, `RadixTree`, `RadixOps`, `RadixStore`, `RadixUse`, `RadixCache`: the prefix cache. `RadixPrefixCache` is
  the tree in place - nodes with parent pointers, counts and times, split, locked and evicted as the original does - and is
  specified against `PrefixStore.Store`, a map from page-aligned token prefixes to slots, and against the time each stored
  prefix was last matched or inserted.
- `CacheSpec`, `CacheManagement`: the cache manager, as a value and in place.
- `SchedSpec`: the scheduler as functions on its whole state, one tick of each loop. `SchedInv` to `SchedRun` prove page
  and row conservation over runs of the normal loop; `SchedSound`, `SchedProgress`, `SchedChunks`, `SchedIsolation`,
  `SchedMirror`, `SchedReplies`, `NormalAborts` and `PageSlack` prove admission soundness, progress, chunked prefill, write
  isolation, the device mirror, the reply streams and the handling of aborts.
- `Overlap`, `OverlapRun`, `OverlapReplies`, `OverlapStream`, `DoubleRelease`: the overlap loop's batches,
  acknowledgements, releases and replies. `OverlapLag` compares the loop's state with the one in which the tokens of the
  batch in flight are appended already; on that `OverlapOwn`, `OverlapPages`, `OverlapSound`, `OverlapProgress`,
  `OverlapChunks`, `OverlapMirror` and `OverlapIsolation` carry conservation, admission soundness, progress, chunked
  prefill, the device mirror and write isolation over to the overlap loop.
- For both loops: `Admission` says which batch comes next, `SchedEntries`, `SchedSettings` and `SampledTokens` follow one
  request's settings and tokens, `CachedPrefixes` what it leaves in the cache, and `Liveness` that it is answered to its end.
- `KvCells`, `KvSlots`, `KvSteps`, `KvRuns`, `KvLoop`, `Twins`: what the slots hold and what attention reads. What the
  forward pass computes for a position is a `Cell`, a term of the position's token and all cells it attends to.
- `Scheduling`, `Serving`: the scheduler in place, one tick of either loop, and any number of ticks.
- `Tokenizer`, `Frontend`, `Arrivals`, `AbortChain`, `AbortFair`, `AbortDoors`, `Delivery`: the abort protocol from the API
  server through the tokenizers to the scheduler and back, its completion under every fair schedule, its fence, and the
  delivery of requests and replies.
- `Swizzle`: program ids and blocks of the grid.

A run is a sequence of inputs, one for each tick: the messages received, the tokens sampled, and the eviction the cache made
if it had to. The functions on values take that eviction as an input, and `LegalEviction` says which ones the cache may
make; the class `RadixPrefixCache` makes one of them. Requests are identified by their uids, which are distinct; a submitted
prompt has at least one token. Tokens and slots are integers, tensors are sequences or arrays, and the clock of the prefix
cache ticks once for each operation that reads the time.

## Findings

Properties that do not hold as one would expect, each with its input and its exact condition:

- A request can be released twice under the overlap loop (python/minisgl/scheduler/scheduler.py:348-356, 389-415, 480-504):
  when its abort arrives after it finished and while it sits in the batch in flight. `DoubleRelease.ReleasedTwice` is such a
  run. Over every run, `OverlapRun.LoopReleasesOnce` and `OverlapPages.OwnedExactly` show that no request is released twice,
  and every page and row keeps exactly one owner, if and only if no abort is late in this sense. The second release also
  unlocks the request's stale handle once more (python/minisgl/scheduler/cache.py:138), which can fail the assertion that a
  count is not negative (python/minisgl/kvcache/radix_cache.py:118-119); in the functions of `CacheSpec` an unlock without a
  lock changes nothing, so of such a tick the model shows the row given back twice and not the failed assertion.
- Under the overlap loop a reply is marked finished one token early when the request was launched again before the reply
  was processed and just one more token was asked for (python/minisgl/scheduler/scheduler.py:335 reads the limit after the
  launch): `DoubleRelease.EarlyMark` is such a run, and `OverlapStream.MarkedEarly` says that this is exactly when.
- So a token of a request can be sent after its finished one (python/minisgl/scheduler/scheduler.py:330-346):
  `DoubleRelease.TokenAfterFinish` is such a run. `OverlapReplies.AfterFinish` says over every run that it is at most one,
  in the next tick, exactly if the request is in flight again and no abort names it by then.
- A request that goes on can read pages that are free (python/minisgl/scheduler/cache.py:140). When it hands its computed
  tokens over after its prefill and others have stored more of them meanwhile than it has locked, its own copies are freed,
  but its row of the page table still names them, so its next batch attends to slots that any allocation may have handed out
  again. `Twins.TwinsUnsafe`: two equal prompts of one page in one prefill batch, for every page size, prompt and sampled
  tokens. `KvRuns.SafeExactly` and `KvLoop.LoopSafeExactly` say over every run that some running request reads a free page
  if and only if such a hand-over happened; without one, `KvRuns.CacheTransparent`, `KvRuns.BatchTransparent` and their
  counterparts in `KvLoop` show that sharing prefixes, cutting prompts and reusing pages change nothing any request reads.
- When the API server uses more than one tokenizer queue an abort can overtake its request
  (python/minisgl/tokenizer/server.py:98-123): it is acknowledged and forgotten, and then the request is launched and its
  tokens are sent. `AbortDoors.AbortOvertakes` and `AbortDoors.OvertakenRuns` are such runs, for any number of workers;
  `AbortDoors.FencedExactly`: the fence holds over all runs if and only if at most one queue takes requests and aborts.
- Rows of the page table are as wide as the longest sequence rounded up to 32 (python/minisgl/engine/engine.py:102-108). The
  pages of a row fit for all lengths exactly when the page size divides 32 (`SchedInv.WidthHoldsPages`), and for one length
  exactly when its padding to pages is no longer than that to 32 (`SchedInv.SettingHoldsPages`); with pages of 64 slots,
  which one attention backend asks for (python/minisgl/engine/engine.py:330-331), and 70 tokens they do not
  (`SchedInv.PagesOverrun`).
- Admission adds up tokens without rounding each request up to pages (python/minisgl/scheduler/prefill.py:47, 77), so with
  pages of several slots a batch can need more pages than there are, and the allocation fails. `PageSlack.SoundExactly`:
  admission is sound over all runs exactly when a page holds one slot.
- A request that asks for no token still gets one (python/minisgl/scheduler/scheduler.py:330-346): `SchedReplies.RepliesShape`
  says that a request past prefill has at least one reply, and `SchedReplies.RepliesOnce` that this is all it gets.

## Model

| member | source | states |
|---|---|---|
| Paging.FirstMismatch | python/minisgl/kernel/csrc/src/radix.cpp:19-42 | the position of the first difference of two token sequences, or the shorter length: everything before it agrees, and at it, if inside both, they differ |
| Paging.AlignDownIsDivision | python/minisgl/utils/misc.py:39-41 | rounding down to whole pages is dividing and multiplying by the page size |
| Paging.DivCeilIsDivision | python/minisgl/utils/misc.py:29-36 | the page count of a length is its division rounded up, and rounding the length up is that many pages |
| RadixTree.RadixTreeNode.SplitAt | python/minisgl/kvcache/radix_cache.py:69-81 | a new node takes the first part of the key, the count and the time; the old one keeps the rest under it; ends of both, and the slots along them, do not move |
| RadixTree.Down | python/minisgl/kvcache/radix_cache.py:205-231 | if any stored node lies below a node along some tokens, the child filed under their next page exists and leads to it: the walk never misses a longer match |
| RadixCache.RadixPrefixCache.TreeWalk | python/minisgl/kvcache/radix_cache.py:205-231 | the walk ends at a node on the path of the input below which nothing longer is stored, whatever it split on the way; the prefix map, the sizes and the locks do not change |
| RadixCache.RadixPrefixCache.MatchPrefix | python/minisgl/kvcache/radix_cache.py:132-134 | the handle is that of the longest stored page-aligned prefix; prefix map, sizes and locks are unchanged; every prefix along it was last used now, every other one when it was |
| RadixCache.RadixPrefixCache.InsertPrefix | python/minisgl/kvcache/radix_cache.py:136-146 | whole pages of the input are stored: the part already stored keeps its slots, the missing run takes the new ones, nothing else changes; the old matched length is returned; every prefix of the input was last used now, every other one when it was |
| RadixCache.RadixPrefixCache.Lock | python/minisgl/kvcache/radix_cache.py:113-130 | locking keeps the whole invariant: each node counts exactly the outstanding locks in its subtree, and the two running sizes are the lengths of the unlocked and the locked nodes |
| RadixCache.RadixPrefixCache.Unlock | python/minisgl/kvcache/radix_cache.py:113-130 | the same for unlocking; no count goes below zero |
| RadixOps.RefMonotone | python/minisgl/kvcache/radix_cache.py:113-130 | a node without locks has no locked descendant |
| RadixStore.SizesCountPages | python/minisgl/kvcache/radix_cache.py:113-130 | the running evictable and protected sizes are the page size times the number of unprotected and protected stored prefixes |
| RadixCache.RadixPrefixCache.GetMatchedIndices | python/minisgl/kvcache/radix_cache.py:91-98 | the slots along a handle are a constant of its node: they do not change by any split, insertion or eviction while the node is in the tree, as every locked node is |
| RadixCache.RadixPrefixCache.CollectLeaves | python/minisgl/kvcache/radix_cache.py:190-203 | the stack walk lists exactly the unlocked leaves, each once |
| RadixCache.RadixPrefixCache.Evict | python/minisgl/kvcache/radix_cache.py:148-175 | for every size up to the evictable size the loop ends without its assertions failing; the slots returned are at least as many as asked for and are those of the prefixes removed; nothing locked is touched; no prefix removed was used later than an unlocked one that stays; without the last node removed it would not have been enough |
| RadixStore.NoNewerLeaf | python/minisgl/kvcache/radix_cache.py:155-173 | a heap that holds all unlocked leaves holds one that is no newer than any unlocked node: popping the oldest evicts in the order of last use |
| RadixUse.EvictedUses | python/minisgl/kvcache/radix_cache.py:155-173 | if no node removed is newer than an unlocked one that stays, then no prefix removed was last used later than an unlocked prefix that stays, and what stays keeps its uses |
| PrefixStore.EvictAll | python/minisgl/kvcache/radix_cache.py:148-175 | there is always an eviction that returns everything unprotected |
| CacheSpec.CacheReqBalance | python/minisgl/scheduler/cache.py:121-145 | handing a request's tokens over moves exactly its own pages into cache and free list: duplicates are freed once, the unaligned tail is freed or kept, no page is lost or doubled |
| CacheSpec.CacheReqAvail | python/minisgl/scheduler/cache.py:121-145 | a hand-over never lowers the number of pages that are free or evictable |
| CacheSpec.MatchCoversLock | python/minisgl/scheduler/cache.py:133-145 | the new prefix is never shorter than the one the request has locked |
| CacheSpec.AllocBalance | python/minisgl/scheduler/cache.py:172-179 | an allocation hands out exactly as many pages as asked for, all of them taken from the free list or the evicted prefixes |
| CacheSpec.AllocAvail | python/minisgl/scheduler/cache.py:172-179 | an allocation lowers the number of free or evictable pages by exactly what it hands out |
| CacheSpec.CanAllocate | python/minisgl/scheduler/cache.py:172-179 | whatever does not exceed the free and evictable pages can be allocated |
| CacheManagement.CacheManager.AvailableSize | python/minisgl/scheduler/cache.py:55-57 | the running sizes give the free pages and the unprotected stored prefixes, in slots |
| CacheManagement.CacheManager.CheckIntegrity | python/minisgl/scheduler/cache.py:147-157 | the idle check passes exactly when free pages and stored prefixes together are all pages and every free slot starts a page |
| CacheManagement.CacheManager.MatchReq | python/minisgl/scheduler/cache.py:50-53 | the longest cached prefix of all tokens but the last; it was used now, all others when they were |
| CacheManagement.CacheManager.UsesPast | python/minisgl/kvcache/radix_cache.py:205-231 | the last use of every stored prefix, as kept beside the cache over all its operations, is no later than now: what the next operation uses becomes the latest |
| CacheManagement.CacheManager.CacheReq | python/minisgl/scheduler/cache.py:121-145 | tree, locks and free list change as the hand-over on values says, in both modes and inside a lazy region; the whole pages handed over were used now, all others when they were |
| CacheManagement.CacheManager.Allocate | python/minisgl/scheduler/cache.py:172-179 | pages come from the front of the free list after evicting what is missing; neither the size check of the eviction nor the final check can fail; no prefix evicted was last matched or inserted later than an unlocked one that stays, over any sequence of operations; without the last node evicted there would have been too few |
| CacheManagement.CacheManager.LeaveLazyRegion | python/minisgl/scheduler/cache.py:159-170 | everything freed in the region joins the free list once, in order |
| CacheManagement.CacheManager.PageToToken | python/minisgl/scheduler/cache.py:185-190 | the slots of the pages, page by page |
| CacheManagement.CacheManager.AllocatePaged | python/minisgl/scheduler/cache.py:65-100 | the pages are written into the rows of the requests in order, through the flat index lists; the token remembers what was there |
| CacheManagement.CacheManager.RollbackAllocation | python/minisgl/scheduler/cache.py:102-119 | every stretch gets back what the token remembers and every page handed out is free again |
| CacheManagement.WrittenIsAssigned | python/minisgl/scheduler/cache.py:193-213 | writing the slots of the allocated pages through the info list gives each request its own pages, from the end of its last page on |
| CacheManagement.RollbackRestores | python/minisgl/scheduler/cache.py:102-119 | allocating and rolling back leaves the page table exactly as it was, whatever pages were handed out |
| CacheManagement.RollbackBalances | python/minisgl/scheduler/cache.py:102-119 | allocating and rolling back restores the available size, loses no page, leaves the free list as it was but for the pages evicted meanwhile, and changes no locked prefix |
| CacheManagement.CacheManager.Refill | python/minisgl/scheduler/cache.py:172-179 | the same of the eviction by itself, for any number of pages that can be evicted |
| Tables.MakePositions | python/minisgl/scheduler/scheduler.py:580-593 | the buffer filled at a running offset is the positions of all requests, one behind the other |
| Tables.MakeRows | python/minisgl/scheduler/scheduler.py:596-603 | the buffer of row numbers, likewise |
| Tables.GatherFlat | python/minisgl/scheduler/scheduler.py:519-525 | gathering through the two flat lists reads each request's stretch of its row, one behind the other |
| Tables.ScatterFlat | python/minisgl/scheduler/cache.py:193-213 | scattering through them writes each request's stretch into its row and nothing else |
| SchedInv.WidthHoldsPages | python/minisgl/engine/engine.py:102-108 | rows of the engine's width hold the pages of every longest sequence exactly when the page size divides 32 |
| SchedInv.SettingHoldsPages | python/minisgl/engine/engine.py:102-108 | for one setting of the engine, the pages of the longest sequence fit its row exactly when padding that length to whole pages adds no more than padding it to 32 |
| SchedInv.PagesOverrun | python/minisgl/engine/engine.py:102-108 | an instance where they do not: pages of 64 slots and sequences of up to 70 tokens |
| SchedAdmit.MsgKeeps | python/minisgl/scheduler/scheduler.py:444-507 | every fresh message keeps the invariant of the state between ticks |
| SchedRound.AddAllKeeps | python/minisgl/scheduler/prefill.py:39-113 | an admission round keeps the invariant, spends exactly the budget it hands out, and cuts at most its last prompt |
| SchedForward.PrepareKeeps | python/minisgl/scheduler/scheduler.py:513-543 | preparing a batch gives each of its requests the pages it will write and takes nothing from any other |
| SchedPost.ProcessKeeps | python/minisgl/scheduler/scheduler.py:312-357 | post-processing leads back to the state between ticks and never lowers the available size |
| SchedRun.TickKeeps | python/minisgl/scheduler/scheduler.py:185-201 | a whole tick of the normal loop keeps the invariant |
| SchedRun.OneOwner | python/minisgl/scheduler/scheduler.py:185-201 | page conservation: in every reachable state each page is in exactly one of free list, prefix cache and one request's own part of its row, and each row is free or held by one request |
| SchedRun.FreePagesAligned | python/minisgl/scheduler/cache.py:181-183 | only page starts are ever free |
| SchedRun.IdleIntegrity | python/minisgl/scheduler/scheduler.py:130-133 | in every reachable idle state free and cached pages are all pages, every row is free and nothing is locked: the idle check never fails |
| SchedSound.AdmissionSound | python/minisgl/scheduler/prefill.py:39-54 | with one-slot pages, every batch that any reachable state schedules after any fresh messages needs no more pages than are free or evictable |
| PageSlack.SoundExactly | python/minisgl/scheduler/prefill.py:39-54 | admission is sound over all runs if and only if a page holds one slot |
| PageSlack.RunsShort | python/minisgl/scheduler/prefill.py:39-54 | with larger pages, two short requests pass admission and need two pages where there is one |
| Admission.NextBatchExactly | python/minisgl/scheduler/scheduler.py:545-559 | over every run: the next batch is as many requests from the front of the queue as have room - budget left and, for a new one, a row and slots for all that it, those before it and the running ones may need, beside everything locked by then; with room for none it is everything that runs, in the order of uids |
| Admission.LoopBatchExactly | python/minisgl/scheduler/prefill.py:126-151 | the same over every run of the overlap loop without a late abort |
| SchedSound.NeverStuck | python/minisgl/scheduler/cache.py:172-179 | hence every reachable state can take any fresh messages and tick on |
| SchedProgress.HeadAdmitted | python/minisgl/scheduler/prefill.py:126-151 | with no running request the head of the queue is always admitted |
| SchedProgress.TickShrinks | python/minisgl/scheduler/scheduler.py:545-559 | with nothing new arriving, each tick that has work makes the measure of work left smaller |
| SchedProgress.AllFinish | python/minisgl/scheduler/scheduler.py:185-201 | hence every accepted request finishes after a bounded number of ticks, and all pages and rows are back |
| Liveness.NobodyForgotten | python/minisgl/scheduler/scheduler.py:185-201 | over every run, a request that was accepted and never aborted is queued or running, or was sent a reply marked finished |
| Liveness.LoopForgetsNobody | python/minisgl/scheduler/scheduler.py:135-183 | the same under overlap, where its last token may still be on its way |
| Liveness.EverybodyAnswered | python/minisgl/scheduler/scheduler.py:545-559 | with nothing new arriving for a tick per unit of the measure, every request accepted and never aborted was answered to its end |
| Liveness.LoopAnswersEverybody | python/minisgl/scheduler/scheduler.py:545-559 | the same under overlap, after any run without a late abort |
| SchedChunks.PrefillShape | python/minisgl/scheduler/prefill.py:126-151 | a prefill batch takes the queue from the front in order, its chunks sum to at most the budget, only the last prompt may be cut, and its rest then heads the queue |
| SchedChunks.FirstStart | python/minisgl/scheduler/prefill.py:39-63 | a new request is computed from the end of its longest cached prefix on |
| SchedChunks.ChunksTile | python/minisgl/scheduler/prefill.py:65-113 | over every run, the stretches of a request's prompt that are computed lie end to end, begin where the prefix matched at its admission ends, and once it is past prefill end where the submitted prompt does |
| SchedChunks.PrefillComputesOnce | python/minisgl/scheduler/prefill.py:65-113 | of a request past prefill, each prompt position behind the matched prefix was computed in exactly one batch and no other position in any |
| CachedPrefixes.PrefixKept | python/minisgl/scheduler/scheduler.py:348-354 | over every run, when the token of a request is processed: after its prefill the whole pages of its prompt are stored and are what it has locked; once it is finished the whole pages of prompt and replies but for the last are stored |
| CachedPrefixes.PrefixKeptLater | python/minisgl/scheduler/scheduler.py:348-354 | the same over every run of the overlap loop without a late abort, one tick after the launch |
| SchedIsolation.WriteIsolation | python/minisgl/scheduler/scheduler.py:519-525 | the slots a prepared batch writes are pairwise distinct, none is free or cached, and each lies in its own request's part of its row |
| SchedMirror.DeviceMirror | python/minisgl/scheduler/scheduler.py:606-611 | after every tick the device row of each running request holds its host tokens, and that of a half-computed prompt the computed part |
| KvRuns.CacheTransparent | python/minisgl/kvcache/mha_pool.py:51-76 | over every run in which no hand-over of a request that goes on finds more stored than it has locked: each stored prefix holds just what computing its tokens alone would give, and so does the computed part of every running request's row, whatever was shared, cut, evicted or reused |
| KvRuns.BatchTransparent | python/minisgl/attention/torch_native.py:88-98 | and in each such tick every request of the batch attends to just that, for its own tokens |
| KvRuns.SafeExactly | python/minisgl/scheduler/cache.py:133-145 | over every run, no running request ever reads a page that is free, if and only if no hand-over of a request that goes on finds more stored than it has locked |
| KvLoop.LoopTransparent | python/minisgl/kvcache/mha_pool.py:51-76 | under overlap: the same of stored prefixes and rows, over every run without a late abort |
| KvLoop.LoopBatchTransparent | python/minisgl/attention/torch_native.py:88-98 | under overlap: the same of what each batch attends to |
| KvLoop.LoopSafeExactly | python/minisgl/scheduler/cache.py:133-145 | under overlap: the same exact condition |
| KvSteps.HandOverRight | python/minisgl/scheduler/cache.py:121-145 | a hand-over keeps what is stored right; the row goes on holding the stored slots of its lock unless more was stored meanwhile |
| Twins.TwinsUnsafe | python/minisgl/scheduler/cache.py:139-140 | for every page size, every prompt of one page and whatever is sampled: two equal prompts in one prefill batch are such a case, and after that one tick a running request reads a free page |
| SchedSettings.RunSettles | python/minisgl/scheduler/scheduler.py:452-463 | over every run: the queue entry and the request of a uid have the end-token and stop settings submitted, and as limit the lesser of the one submitted and what fits behind the prompt |
| SchedSettings.LoopSettles | python/minisgl/scheduler/scheduler.py:452-463 | the same over every run of the overlap loop |
| SampledTokens.OwnToken | python/minisgl/scheduler/scheduler.py:330-346 | over every run: the request at each place of a batch, unless it is cut, is answered in the same tick with the token sampled at that place, which is its last on the host and, while it goes on, in its device row |
| SampledTokens.OwnTokenLater | python/minisgl/scheduler/scheduler.py:330-346 | under overlap it is answered so in the next tick, unless it is aborted by then |
| SampledTokens.OwnTokenAhead | python/minisgl/scheduler/scheduler.py:561-567 | and under overlap that token is in its device row already in the tick of the launch |
| NormalAborts.AbortedAtOnce | python/minisgl/scheduler/scheduler.py:465-504 | over every run of the normal loop: from the tick on that handles an abort, the request is neither queued nor running, holds no row, lock or page and gets no token, as long as its uid is not submitted again |
| NormalAborts.EachAcknowledged | python/minisgl/scheduler/scheduler.py:417-442 | over every run of the normal loop: each tick acknowledges each abort message it handles, once |
| SchedReplies.RepliesShape | python/minisgl/scheduler/scheduler.py:330-346 | over every run, the tokens replied to a request follow its prompt on the host; a reply is marked finished exactly when the limit, the end token or a stop token says so, and only the last one can be |
| SchedReplies.RepliesOnce | python/minisgl/scheduler/scheduler.py:330-346 | for the settings submitted and the limit that fits: a request's replies number at most its limit, or one if the limit is zero, and after the finished one it does not run |
| OverlapRun.Fence | python/minisgl/scheduler/scheduler.py:135-183 | the tick that handles an abort sends no token for the request, keeps it out of the batch it launches, sends its acknowledgement, and has released whatever it held |
| OverlapRun.FenceHolds | python/minisgl/scheduler/scheduler.py:465-504 | over every run, no later tick sends a token for it or computes it, as long as its uid is not submitted again |
| OverlapRun.AcksCounted | python/minisgl/scheduler/scheduler.py:389-442 | one acknowledgement for each request whose abort hit the batch in flight, one for each abort message of any other |
| OverlapRun.ReleasedOnce | python/minisgl/scheduler/scheduler.py:348-356 | a tick leaves every request released at most once if and only if none of its aborts hits a request already finished and still in the batch in flight |
| OverlapRun.LoopReleasesOnce | python/minisgl/scheduler/scheduler.py:389-415 | over every run, no request is released twice if and only if no abort came too late in that sense |
| OverlapReplies.SentExactly | python/minisgl/scheduler/scheduler.py:330-346 | a tick sends one token of a request if the request is in the batch in flight, past prefill, and no abort of the tick names it, whether or not it was finished before, and none otherwise |
| OverlapReplies.AfterFinish | python/minisgl/scheduler/scheduler.py:330-356 | over every run: once a reply is marked finished the request is never computed again, the next tick sends one more token exactly if the request is in flight again and not aborted by then, and no later tick sends any |
| OverlapStream.LoopReplies | python/minisgl/scheduler/scheduler.py:330-346 | over every run: the tokens replied to a request follow its prompt on the host and number at most its limit, or one; a reply is marked finished exactly when the limit, counting the batch launched before it, the end token or a stop token says so; a marked reply is the last, or the last but one if the request was launched again |
| OverlapStream.MarkedEarly | python/minisgl/scheduler/scheduler.py:330-346 | a reply that the count of tokens, the end token and the stop tokens do not make the last one is marked finished exactly when one more token was asked for and the request was launched again already |
| OverlapLag.ForwardSame | python/minisgl/scheduler/scheduler.py:561-567 | preparing and running a batch does the same to the state and to the one in which the tokens of the batch in flight are appended already |
| OverlapOwn.MsgHears | python/minisgl/scheduler/scheduler.py:444-507 | with a batch in flight, every fresh message keeps each page and row with its owner; an abort of a request in flight only puts its release off |
| OverlapOwn.StartProcessing | python/minisgl/scheduler/scheduler.py:153-163 | launching the next batch before the last one is processed keeps every page and row with its owner |
| OverlapOwn.EntriesProcessing | python/minisgl/scheduler/scheduler.py:312-357 | post-processing the last batch, part of which is in flight again or finished already, keeps them so and never lowers the available size |
| OverlapOwn.ApplyAll | python/minisgl/scheduler/scheduler.py:389-415 | so does releasing every deferred request once |
| OverlapOwn.OwnKeeps | python/minisgl/scheduler/scheduler.py:135-183 | a tick of the overlap loop in which no abort comes too late keeps the ownership invariant for the batch it launches |
| OverlapPages.LateBreaks | python/minisgl/scheduler/scheduler.py:389-415 | a tick with a late abort leaves a row of the tables used twice |
| OverlapPages.OwnedExactly | python/minisgl/scheduler/scheduler.py:135-183 | page conservation under overlap: in all states of a run every page and every row has exactly one owner, if and only if no abort of the run came too late |
| OverlapPages.LoopFreeAligned | python/minisgl/scheduler/cache.py:181-183 | under overlap too only page starts are ever free, while aborts come in time |
| OverlapPages.LoopIdleIntegrity | python/minisgl/scheduler/scheduler.py:130-133 | with nothing queued, running or in flight, free and cached pages are all pages: the idle check of the overlap loop never fails while aborts come in time |
| OverlapSound.OverlapAdmission | python/minisgl/scheduler/prefill.py:39-54 | admission is sound under overlap: with one-slot pages and aborts in time, every batch scheduled after any fresh messages needs no more pages than are free or evictable |
| OverlapSound.OverlapGoesOn | python/minisgl/scheduler/cache.py:172-179 | hence the overlap loop can always take any fresh messages and tick on |
| OverlapProgress.OverlapShrinks | python/minisgl/scheduler/scheduler.py:135-183 | with nothing new arriving, each tick of the overlap loop that finds work or a batch in flight makes its measure of work smaller |
| OverlapProgress.LoopFinishes | python/minisgl/scheduler/scheduler.py:135-183 | hence under overlap too every accepted request finishes after a bounded number of ticks, and all pages and rows are back |
| OverlapChunks.LoopPrefillShape | python/minisgl/scheduler/prefill.py:126-151 | a prefill batch launched under overlap has the shape of one of the normal loop: queue order, budget, one prompt cut at most |
| OverlapChunks.LoopChunksTile | python/minisgl/scheduler/prefill.py:65-113 | over every run of the overlap loop without a late abort the stretches of a prompt lie end to end, from the matched prefix to the end of the submitted prompt |
| OverlapChunks.LoopComputesOnce | python/minisgl/scheduler/prefill.py:65-113 | and each prompt position behind the matched prefix is computed in exactly one batch, and no other position in any |
| OverlapMirror.LoopDeviceMirror | python/minisgl/scheduler/scheduler.py:606-611 | over those runs the device row of a running request holds its host tokens followed by the sampled token that is still to be appended, if there is one |
| OverlapIsolation.OverlapIsolated | python/minisgl/scheduler/scheduler.py:519-525 | under overlap too the slots a batch writes are pairwise distinct, neither free nor cached, each in its own request's part of its row |
| DoubleRelease.EarlyMark | python/minisgl/scheduler/scheduler.py:330-346 | a run in which the first of two tokens asked for, whatever it is, is marked as the last one |
| DoubleRelease.TokenAfterFinish | python/minisgl/scheduler/scheduler.py:330-346 | its next tick, in which the second token is sent all the same |
| DoubleRelease.ReleasedTwice | python/minisgl/scheduler/scheduler.py:480-504 | or, if the abort of the request arrives in that tick, the request is released twice |
| Scheduling.TableManager.Allocate | python/minisgl/scheduler/table.py:17-18 | the last free row is handed out |
| Scheduling.Scheduler.FreeReqResources | python/minisgl/scheduler/scheduler.py:509-511 | in place: the row goes back and the computed tokens are handed over |
| Scheduling.Scheduler.ProcessOneMsg | python/minisgl/scheduler/scheduler.py:444-507 | in place: a message does what the function on the whole state says, in each of its cases |
| Scheduling.Scheduler.TryAllocateOne | python/minisgl/scheduler/prefill.py:39-63 | in place: the two checks of the estimate, the lock taken between them and given up on failure, the row and the cached prefix copied |
| Scheduling.Scheduler.AddOneReq | python/minisgl/scheduler/prefill.py:65-90 | in place: the request's next chunk and its tokens on the device |
| Scheduling.Scheduler.FillBatch | python/minisgl/scheduler/prefill.py:126-151 | in place: the loop over the queue is the admission round |
| Scheduling.Scheduler.SchedulePrefillBatch | python/minisgl/scheduler/prefill.py:126-151 | in place: the batch and the queue after it |
| Scheduling.Scheduler.CountInflight | python/minisgl/scheduler/decode.py:27-30 | the tokens running requests may still need, with a page of slack for each |
| Scheduling.Scheduler.AllocateBatch | python/minisgl/scheduler/cache.py:65-100 | in place: pages as the function on the state assigns them; evictions by last use |
| Scheduling.Scheduler.PrepareBatch | python/minisgl/scheduler/scheduler.py:513-543 | in place: the gathered slots are those the batch will write; when the preparation fails, everything but the eviction is undone |
| Scheduling.CommitIs | python/minisgl/engine/engine.py:280-281 | advancing all requests first and writing all sampled tokens afterwards, through the tuple made before, is the commit request by request |
| Scheduling.Scheduler.RunForward | python/minisgl/scheduler/scheduler.py:561-567 | in place: commit, token write and the new running set |
| Scheduling.Scheduler.ProcessLastData | python/minisgl/scheduler/scheduler.py:312-357 | in place: tokens appended, replies sent, finished requests released, prefixes cached, inside one lazy region |
| Scheduling.Scheduler.NormalLoop | python/minisgl/scheduler/scheduler.py:185-201 | in place: one tick gives exactly the state and replies of the function on the whole state, and keeps the invariant |
| Scheduling.Scheduler.LaunchNext | python/minisgl/scheduler/scheduler.py:545-567 | in place: schedule, prepare and run, in either loop |
| Scheduling.Scheduler.ApplyDeferredAborts | python/minisgl/scheduler/scheduler.py:389-415 | in place: every deferred request of the last batch is released once and acknowledged |
| Scheduling.Scheduler.OverlapLoop | python/minisgl/scheduler/scheduler.py:135-183 | in place: one tick gives exactly the state, the flight and the replies of the function on the whole state, and keeps its invariants; no check fails on the way |
| Serving.Serve | python/minisgl/scheduler/scheduler.py:185-204 | a scheduler started from nothing serves any sequence of ticks whose requests have uids of their own, for every page size, as long as the runs on them stay within the pages there are: no check of scheduler, cache manager or prefix cache fails, and the replies are those of the specified run |
| Serving.OneSlotAfforded | python/minisgl/scheduler/prefill.py:39-54 | with one-slot pages they always do |
| Serving.ServeOverlap | python/minisgl/scheduler/scheduler.py:135-183 | the same for the overlap loop, for all arrivals and sampled tokens for which no abort comes too late |
| Serving.OneSlotFitting | python/minisgl/scheduler/prefill.py:39-54 | under overlap too the pages always suffice when they hold one slot |
| Serving.NothingAborted | python/minisgl/scheduler/scheduler.py:135-183 | that holds, for one, where nothing is aborted |
| Serving.RunWhenIdle | python/minisgl/scheduler/scheduler.py:130-133 | the check made before blocking succeeds |
| Tokenizer.Collect | python/minisgl/tokenizer/server.py:69-71 | the batch is one unit, and more while it is short and the queue holds any |
| Tokenizer.Dispatch | python/minisgl/tokenizer/server.py:75-131 | each kind is forwarded in order as one unit: requests before aborts to the scheduler, replies before acknowledgements to the API server |
| Tokenizer.AbortsForwarded | python/minisgl/tokenizer/server.py:75-131 | a batch forwards every abort and every acknowledgement and makes none up |
| Frontend.FrontendManager.NewUser | python/minisgl/server/api_server.py:131-136 | a new uid with an empty list of replies and a fresh event |
| Frontend.FrontendManager.Hear | python/minisgl/server/api_server.py:138-189 | one message of the listener |
| Frontend.FrontendManager.HearAck | python/minisgl/server/api_server.py:162-174 | an acknowledgement removes the request from all four maps and wakes its reader and its waiter |
| Frontend.FrontendManager.HearReply | python/minisgl/server/api_server.py:176-189 | a reply for an unknown request, or for one whose abort is pending, is dropped; any other is appended and wakes the reader |
| Frontend.FrontendManager.MarkAbort | python/minisgl/server/api_server.py:299-308 | the uid is marked before the abort is sent; a second abort keeps the waiter's event |
| Frontend.FrontendManager.TakeReplies | python/minisgl/server/api_server.py:203-219 | the reader takes what waits for it, or learns that the request is gone |
| Frontend.AckClears | python/minisgl/server/api_server.py:162-174 | an acknowledgement clears one uid and touches no other; a second one changes nothing |
| Delivery.RepliesDelivered | python/minisgl/server/api_server.py:176-219 | over every run of the whole system: what the reader of a known request without a pending abort took, then what waits for it, is what the listener heard for it, in order and each once, and followed by what is on its way it is what the scheduler sent; whenever something waits the reader's event is set |
| Delivery.AskedArrives | python/minisgl/tokenizer/server.py:75-131 | over every run of the whole system: of each uid handed out there is exactly one submission, on its way or taken by the scheduler, and while it waits it has the prompt and the settings asked for |
| AbortChain.NoReplyAfterAbort | python/minisgl/server/api_server.py:279-309 | once an abort is marked, no step of any part of the system ever adds a reply to the request's list |
| AbortChain.PendingTravels | python/minisgl/server/api_server.py:117-128 | while an abort is pending, it or its acknowledgement is in some queue, in every reachable state of the whole system |
| AbortChain.AbortsComplete | python/minisgl/scheduler/scheduler.py:417-442 | from every reachable state, moving messages along leads to one with no abort pending |
| AbortFair.AbortsCompleteFairly | python/minisgl/scheduler/scheduler.py:417-442 | under every endless schedule that leaves no waiting queue unserved for ever, whatever else it does, a pending abort does not stay pending |
| AbortDoors.FenceEndToEnd | python/minisgl/scheduler/scheduler.py:465-504 | if the API server uses one queue for requests and aborts, once the scheduler took an abort no submission of the request is on its way and no tick sends a token for it |
| AbortDoors.FencedExactly | python/minisgl/tokenizer/server.py:98-123 | over all runs that holds if and only if at most one queue takes requests and aborts |
| AbortDoors.AbortOvertakes | python/minisgl/tokenizer/server.py:98-123 | with any number of workers and any two queues an abort can be handled before its request arrives |
| AbortDoors.OvertakenRuns | python/minisgl/tokenizer/server.py:98-123 | and then the abort is acknowledged and forgotten, the request is launched, and the next tick sends a token for it |
| Swizzle.GridOf | python/minisgl/kernel/triton/fused_moe.py:117-119 | the grid is the smallest whose blocks cover the output, in both directions |
| Swizzle.PidOfBlock | python/minisgl/kernel/triton/fused_moe.py:116-124 | every program computes a block of the grid, and the block tells its id |
| Swizzle.BlockOfPid | python/minisgl/kernel/triton/fused_moe.py:116-124 | every block of the grid is computed, in a short last group too |
| Swizzle.Bijection | python/minisgl/kernel/triton/fused_moe.py:116-124 | programs and blocks correspond one to one, for all positive sizes |
| Swizzle.GroupedOrder | python/minisgl/kernel/triton/fused_moe.py:116-124 | programs take the groups of rows one after the other, and inside a group go down its rows before the column changes |

## Left out

- Serving.Serve: is for arrivals whose runs stay within the pages there are; an allocation that fails raises out of the tick
  in the code (python/minisgl/scheduler/cache.py:172-179), and what is left behind then is not part of this model.
- Serving.ServeOverlap: likewise, and for arrivals and tokens for which no abort comes too late; what the code does after a
  late abort is not followed beyond the tick that handles it.
- Scheduling.Scheduler.OverlapLoop: leaves out a tick with a late abort, because the second unlock of the stale handle can
  fail an assertion of the prefix cache; on values `OverlapPages.LateBreaks` says what such a tick does to rows.
- Scheduling.Scheduler.PrepareBatch: does not model the padding of a batch for graph replay, and the scratch attributes
  removed when a preparation fails are local variables here.
- Page sizes and lengths whose pages do not fit a row: `SchedInv.CfgOk` excludes them.
- SchedRun.OneOwner: says nothing of what the row of a running request holds before its locked prefix ends; after an
  overtaken hand-over that may be free pages, as the findings say.
- KvRuns.CacheTransparent: what is computed for a position is a term of its token and the cells it attends to, one request of
  a batch after the other; layers, numbers, rounding and the kernels are not modelled, and after an overtaken hand-over
  what the request reads is not followed.
- Liveness.EverybodyAnswered: with one-slot pages, a positive budget and rows, as `SchedProgress.AllFinish`.
- `_drain_requests` at shutdown: it treats the positions from cached_len to device_len as allocated, which they need not be.
- Request objects: a record by uid stands for the object, so aliasing of one object between queue, batch and running set is
  the same key in several containers; the prefill and decode managers are fields of `Scheduler`.
- The heap of the eviction loop: any oldest element may be popped; ties are not broken as the original's heap does.
- Wall-clock time: a logical tick per operation; a new node's own reading of the clock, which the original takes a moment
  later (python/minisgl/kvcache/radix_cache.py:27), is that of its operation.
- The row of the dummy request.
- Forward pass and sampler: the sampled tokens are an input; a sampler that returns the wrong number of tokens is not part
  of this model.
- Text and its detokenization: a reply carries its token.
- wait_for_abort_ack, and the clean-up after a finished stream (python/minisgl/server/api_server.py:226-227), which callers
  leave before it runs; events that a reader still holds after its request is gone.
- A send of acknowledgements that fails: the queues are lossless.
- The naive prefix cache, tensor parallelism, model layers, attention kernels, sockets, HTTP and logging.

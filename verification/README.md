# LiteServe, modelled and proved

LiteServe serves language-model requests: a scheduler forms batches, an inference engine decodes a whole batch in
one padded forward pass, a paged KV-cache hands out fixed-size blocks, and a server loop ties them together and
streams tokens to clients. This project models these four pieces and proves that they do together what each
promises alone. Run `dafny verify dfyconfig.toml` to check it.

**Main result.** On every run of the server — any arrivals, batches, preemptions, resumptions, scheduling steps that
raise, collections and aborts — every request's tokens are at all times a prefix of what sequential generation yields
for it alone, and exactly that once it is complete or handed out (`ServerRuns.ServesSequentialTokens`). A client that
streams a request while the server runs, looking also in the middle of inference steps, receives those tokens once
each, in order, and one closing "stop" event; if the request is aborted, a prefix and one closing "error"
(`ServedStreams.ClientReceivesBaseline`).

**Nobody starves.** With NORMAL requests whose estimates fit the free blocks, every pass of the generation loop returns,
and a request is complete with all its tokens after as many passes as it and those in front of it have tokens to come,
and one more each, whatever arrives, is collected or is aborted meanwhile (`ServerProgress.EverybodyServed`); its
client's stream can then be read to the end (`ServedStreams.EveryClientServed`).

## How it is laid out

| files | what they hold |
|---|---|
| `Types`, `Tensors`, `Arithmetic` | requests and results, opaque tensors, page arithmetic by repeated subtraction (`DivMod` says it is `/` and `%`) |
| `KvModel`, `KvInvariants`, `KvRefinement`, `KvHistory`, `KvLaws` | the paged cache as a value, its invariants, its refinement to a map from positions to last stores, swapping and room |
| `PagedKvCache` | the cache object: arrays and dictionaries updated in place, loop by loop |
| `KvLedger`, `KvBudget` | the block counts the scheduler sees, and that the real cache moves them as the scheduler's model says |
| `SchedModel`, `SchedLists`, `SchedAdmission`, `SchedClosedForm`, `SchedPhases`, `SchedForced` | the scheduling step as a value, and each of its phases in closed form |
| `SchedAhead`, `SchedStep`, `SchedRaise` | the admission phase read off the state before it, and exactly when a step returns, hangs or raises |
| `SchedPolicy` | for whom, and under which policies, a step preempts |
| `SchedRuns`, `SchedLeaks`, `SchedClosure`, `SchedSwap`, `SchedUnbacked`, `SchedFifo` | whole runs: conservation, nothing left behind by those who leave, what a step can do to a request, life with and without clients that allocate blocks, and the order of arrival |
| `SchedInputs` | runs from an empty scheduler to states in which a step hangs, raises or overfills the batch |
| `Requests`, `Scheduler` | the batch and scheduler objects, over a real cache object |
| `EngineModel`, `Batching`, `InferenceEngine` | one request decoded alone, the padded batch, and the engine object |
| `ServerModel`, `ServerRuns`, `ServerProgress`, `LiteServe` | engines behind the scheduler, whole server runs, progress, and the server object |
| `TokenStream`, `ServedStreams` | the polling stream against any producer, and against the server |

Each class method is proved equal to a function or event of the value-level model; the laws are proved of that model.
The transformer is a pair of functions nobody looks into: a prompt's logits and cache, and, for one row, the output
computed from the unmasked cached entries, the new position's mask bit, the position id and the token. A pass over a
batch applies it row by row. Sampling is the greedy branch.

## What the proofs found

- **The admission loop can run for ever**: a HIGH request that fits the blocks everybody's eviction would free, but
  not beside what this step has reserved, with nobody left to preempt. `SchedAhead.HangsExactly` says exactly which
  pending request does it, in sums over the state before admission, and `SchedStep.StepHangsExactly` that the step then
  hangs unless a victim raises first; `SchedInputs.FreshServerHangs` reaches it on a new server with two HIGH requests
  that fit one at a time. Where the source hangs, `Scheduler.AdmitPhase` stops and reports `Hung`.
- **A step can raise half way**: `torch.stack` refuses a victim whose table exists and is empty. `SchedAhead.RaisesAt` names,
  again in sums, the victim and the pending request it would go for, and these decide what the step leaves
  (`RaisesOnce`); the object raises if and only if they exist (`Scheduler.ScheduleStep`). `SchedInputs.EmptyAllocationRaises`
  reaches it by an allocation for no tokens, and there no later step gets any further either. Every invariant survives
  (`SchedRuns.ScheduleInv`).
- **The batch exceeds its maximum** after a step if and only if swapping in left it above (`SchedForced.OverfullExactly`).
  `SchedInputs.BatchOverfills` is a run to three requests in a batch of at most two; with a maximum of one it cannot
  happen (`SchedInputs.SingleNeverPreempts`).
- **What a step lets in exceeds the free blocks** if and only if the forced admissions need more than phase 3 left
  unreserved (`SchedForced.OverdrawsExactly`, reached in `SchedInputs.LateOverdraws`).
- **Victims are newest first.** The comment at the sort key says oldest first within a priority; the key
  `-arrival_time` sorts the newest first. The model follows the code.
- **As the server is wired preemption is total, useless and for good.** Nothing under `liteserve/` allocates blocks for
  requests. So a phase that preempts anyone preempts every non-PREFILL request, frees nothing, and does not admit the
  request it did it for (`SchedUnbacked.PreemptsAllOrNone`); nobody preempted ever runs again
  (`SchedUnbacked.StaysPreempted`). With clients that give running requests blocks, the laws of `SchedSwap` hold.
- **Aborting leaks and loses.** `abort_request` never frees the engine's cache: it stays for good if and only if the
  request had been prefilled and was unfinished (`ServerRuns.AbortLeaksCache`); aborting a request that is complete but not reaped yet
  discards its whole output (`AbortDiscardsComplete`); the callback stays registered and never fires
  (`SchedRuns.CancelledNeverCalled`).
- **A swap-in leaks the blocks of the table it overwrites**, so the cache stays valid if and only if that table is
  empty (`KvInvariants.SwapInValidExactly`, input `AllocateWhileSwappedLeaks`).
- **`extend(r, k)` makes room for k > 1 tokens only sometimes**: exactly when is `KvLaws.ExtendRoom`, an input without
  room is `ExtendFallsShort`.
- **Swapping marks every block full**, so a read after the round trip is longer than before, by zeros
  (`KvLaws.SwapRoundTripRead`, `PaddedInOrder`).

## Model

| member | source | states |
|---|---|---|
| Arithmetic.CeilLeast | liteserve/engine/kv_cache.py:125-125 | the block count for t tokens is the least number of blocks whose slots hold them |
| Arithmetic.CeilExact | liteserve/engine/kv_cache.py:123-126 | the block count of n * block_size tokens is n, so the forced-admission test asks for exactly the estimate |
| KvModel.PutAt | liteserve/engine/kv_cache.py:328-330 | a store changes one slot of one layer, key in the key plane and value in the value plane, and no other |
| KvInvariants.InitValid | liteserve/engine/kv_cache.py:70-86 | a new cache is all free, all zero and satisfies every invariant |
| KvInvariants.AllocateValid | liteserve/engine/kv_cache.py:148-156 | handing free blocks to a table keeps the partition of block ids, exact metadata and no stale data |
| KvInvariants.FreeValid | liteserve/engine/kv_cache.py:190-207 | freeing keeps them, in particular freed blocks are zero again |
| KvInvariants.SwapOutValid | liteserve/engine/kv_cache.py:216-233 | swapping out keeps them |
| KvInvariants.SwapInValidExactly | liteserve/engine/kv_cache.py:242-259 | swapping in keeps them if and only if the overwritten table was empty |
| KvInvariants.SwapInLoses | liteserve/engine/kv_cache.py:258-258 | each block of an overwritten table ends up neither owned nor free |
| KvInvariants.AllocateWhileSwappedLeaks | liteserve/engine/kv_cache.py:154-156 | a concrete leak: allocate one block for a swapped-out request, then swap it in |
| KvInvariants.StoreValid | liteserve/engine/kv_cache.py:314-334 | every outcome of a store keeps the invariants, including the ones that allocate and then fail |
| KvInvariants.StepValidExactly | liteserve/engine/kv_cache.py:128-334 | any operation keeps the invariants if and only if it does not swap in over blocks |
| KvInvariants.ReachableValid | liteserve/engine/kv_cache.py:148-259 | after any run without allocation for swapped-out requests: free set and tables partition 0..num_blocks-1, metadata is exact with reference count 1, free blocks and unfilled slots are zero |
| KvInvariants.LegalRuns | liteserve/engine/kv_cache.py:128-334 | every enabled sequence without allocation for swapped-out requests is a run: validity in between is not assumed but follows |
| KvRefinement.OthersUntouched | liteserve/engine/kv_cache.py:128-334 | no operation changes the table, pages or swapped data of another request |
| KvRefinement.PagesRefined | liteserve/engine/kv_cache.py:128-334 | on its own request each operation acts on logical pages only: physical addresses do not matter |
| KvHistory.ReadAt | liteserve/engine/kv_cache.py:282-295 | with pages filled in order, index p of a gathered read is slot p mod block_size of page p div block_size |
| KvHistory.CacheIsMap | liteserve/engine/kv_cache.py:264-334 | under any interleaving, a read returns at each position the last pair stored there, zero if none, and every store of a resident request is visible |
| KvHistory.ReadsUntouched | liteserve/engine/kv_cache.py:264-295 | an operation on one request never changes what another reads |
| KvLaws.SwapRoundTrip | liteserve/engine/kv_cache.py:216-262 | out, any work of others, and back in: the same block contents in logical order on whatever blocks were free |
| KvLaws.SwapRoundTripRead | liteserve/engine/kv_cache.py:252-255 | the later read is each block's filled data followed by zeros up to block_size |
| KvLaws.PaddedInOrder | liteserve/engine/kv_cache.py:282-295 | for data filled in order that is the old read followed by zeros |
| KvLaws.ExtendRoom | liteserve/engine/kv_cache.py:168-188 | extend(r, k) leaves room for k more tokens if and only if the last block had it, or all was full and k fits one block, or there was no block |
| KvLaws.ExtendFallsShort | liteserve/engine/kv_cache.py:180-185 | a reachable input where it does not: one block of two slots with one token, asked for two more |
| KvLaws.ExtendOneRoom | liteserve/engine/kv_cache.py:180-188 | extend(r, 1) always leaves a slot for the next position |
| KvLaws.StoreNextFits | liteserve/engine/kv_cache.py:317-334 | a store up to the next position takes at most one block and fails only for lack of memory |
| KvLaws.ReachableInOrder | liteserve/engine/kv_cache.py:328-334 | every reachable resident request filled in order meets the hypothesis of the two laws above |
| PagedKvCache.PagedKVCache.constructor | liteserve/engine/kv_cache.py:50-86 | builds the initial cache and its invariants |
| PagedKvCache.PagedKVCache.CanAllocate | liteserve/engine/kv_cache.py:123-126 | true exactly when an allocation of that many tokens would not fail |
| PagedKvCache.PagedKVCache.TakeBlocks | liteserve/engine/kv_cache.py:148-152 | pops that many distinct blocks from the free set and gives each fresh metadata |
| PagedKvCache.PagedKVCache.Allocate | liteserve/engine/kv_cache.py:128-166 | succeeds exactly when enough blocks are free and appends them to the table; a failure changes nothing |
| PagedKvCache.PagedKVCache.Extend | liteserve/engine/kv_cache.py:168-188 | allocates what the last block's fill mark asks for, and fails exactly when that cannot be had |
| PagedKvCache.PagedKVCache.DropReferences | liteserve/engine/kv_cache.py:196-204 | counting references down one block at a time clears and returns exactly the listed blocks |
| PagedKvCache.PagedKVCache.Free | liteserve/engine/kv_cache.py:190-207 | clears and returns all blocks of a table, drops the table and the swap entry; without a table nothing happens |
| PagedKvCache.PagedKVCache.SwapOut | liteserve/engine/kv_cache.py:216-235 | saves the block contents in order, clears and returns the blocks; an empty table is an error and changes nothing |
| PagedKvCache.PagedKVCache.SwapIn | liteserve/engine/kv_cache.py:237-262 | succeeds exactly when the data is there and fits, on freshly picked blocks marked full; invariants kept iff the table was empty |
| PagedKvCache.PagedKVCache.GetKvForRequest | liteserve/engine/kv_cache.py:264-295 | the gathered filled parts of the blocks, nothing without blocks |
| PagedKvCache.PagedKVCache.StoreKv | liteserve/engine/kv_cache.py:297-334 | the new state and which of success, out of memory and index error it is |
| KvLedger.FreeLedger | liteserve/engine/kv_cache.py:190-207 | freeing moves the block counts as the scheduler's ledger says |
| KvLedger.SwapOutLedger | liteserve/engine/kv_cache.py:216-233 | so does swapping out |
| KvLedger.SwapInLedger | liteserve/engine/kv_cache.py:242-259 | so does swapping in |
| KvLedger.LedgerBalanced | liteserve/engine/kv_cache.py:111-117 | free blocks and table lengths add up to the pool |
| Requests.Batch.AddRequest | liteserve/engine/types.py:96-97 | appends |
| Requests.Batch.RemoveRequest | liteserve/engine/types.py:99-103 | removes and returns the first entry with the id, nothing if there is none |
| Requests.Batch.GetCompleted | liteserve/engine/types.py:105-106 | exactly the COMPLETE and FAILED requests, in batch order |
| SchedLists.EvictionOrderIs | liteserve/scheduler/scheduler.py:211-218 | the eviction order holds exactly the non-PREFILL members, sorted by its key |
| SchedLists.OrderByPriority | liteserve/scheduler/scheduler.py:211-214 | in the eviction order a HIGH request never comes before a NORMAL one, and of one priority no request comes before one that arrived later |
| SchedLists.OrderIsStable | liteserve/scheduler/scheduler.py:211-214 | requests with the same priority and arrival keep the order they have in the batch |
| SchedLists.SortedRemove | liteserve/scheduler/scheduler.py:211-214 | the stable sort commutes with removal, so re-sorting after an eviction continues the same order |
| SchedAdmission.TryPreemptPrefix | liteserve/scheduler/scheduler.py:198-238 | one call evicts a prefix of the order and stops at the first non-empty one that frees enough |
| SchedAdmission.IterationProgress | liteserve/scheduler/scheduler.py:146-168 | every iteration exits, shrinks (pending, evictable) lexicographically, or is in the one spinning state and changes nothing |
| SchedClosedForm.LoopOutcome | liteserve/scheduler/scheduler.py:146-168 | the loop never leaves if and only if the model says so, and then it is spinning; otherwise it leaves with the model's state |
| SchedClosedForm.AdmitsByReference | liteserve/scheduler/scheduler.py:146-168 | the loop equals a reference without retries: head by head, the fewest victims that make room beside the reservations |
| SchedClosedForm.OneHighReturns | liteserve/scheduler/scheduler.py:159-168 | with at most one HIGH request waiting the phase always ends |
| SchedClosedForm.TwoHighHang | liteserve/scheduler/scheduler.py:145-168 | two HIGH requests on an idle server, each fitting but not both: the phase never ends |
| SchedAhead.PhaseInSums | liteserve/scheduler/scheduler.py:145-168 | the loop, however many rounds of preemption it takes, ends as sums over the queue and the eviction order say: k admitted with k the first pending request not let in, preempted the fewest that make room for these or everybody if request k may preempt and does not fit even so, and whether it ends at all |
| SchedAhead.HangsExactly | liteserve/scheduler/scheduler.py:145-168 | where no victim raises, the phase never ends if and only if some HIGH pending request fits the blocks of everybody's eviction but not beside the estimates before it, all before it are let in below the batch limit, and somebody in PREFILL stays |
| SchedAhead.VictimsExactly | liteserve/scheduler/scheduler.py:159-168 | victim m is preempted if and only if some HIGH pending request is reached whose estimate, beside those before it, exceeds what m victims free |
| SchedAhead.RaisesOnce | liteserve/scheduler/scheduler.py:216-225 | the victim that raises and the number admitted by then are determined by the state before admission |
| SchedStep.StepHangsExactly | liteserve/scheduler/scheduler.py:100-168 | the step never returns if and only if, after reaping and swap-in, some pending request hangs the phase and no victim with an empty table comes up before |
| SchedInputs.FreshServerHangs | liteserve/scheduler/scheduler.py:71-168 | a run from an empty scheduler, two arrivals long, after which the step hangs |
| SchedInputs.EmptyAllocationRaises | liteserve/scheduler/scheduler.py:159-225 | a run of four events, one of them a client allocating for no tokens, after which the step raises and changes nothing |
| SchedInputs.BatchOverfills | liteserve/scheduler/scheduler.py:133-188 | a run of six events after which a step takes a batch of two, the maximum, to three |
| SchedInputs.SwapInOverfills | liteserve/scheduler/scheduler.py:132-139 | whoever is in swap space and fits comes back into a full batch |
| SchedInputs.SingleNeverPreempts | liteserve/scheduler/scheduler.py:146-165 | with a maximum of one nobody is preempted on any run |
| SchedInputs.LateOverdraws | liteserve/scheduler/scheduler.py:171-186 | a run of two arrivals after which a step lets in more than the free blocks |
| SchedPhases.ReapIs | liteserve/scheduler/scheduler.py:113-123 | reaping keeps exactly the unfinished in order, frees, records and announces the others |
| SchedPhases.ResumesLongestPrefix | liteserve/scheduler/scheduler.py:133-141 | swap-in resumes exactly the longest FIFO prefix that is in swap space and fits together |
| SchedPhases.AdmissionShape | liteserve/scheduler/scheduler.py:144-168 | over a whole phase: a FIFO prefix is admitted, a prefix of the eviction order preempted, reservations are the admitted total and never exceed the free blocks |
| SchedPhases.VictimsNeverOutrank | liteserve/scheduler/scheduler.py:211-218 | no phase preempts a HIGH request and leaves a NORMAL one, or preempts a request and leaves one of its priority that arrived later |
| SchedPhases.NeedCovers | liteserve/scheduler/scheduler.py:190-196 | the estimate is the least number of blocks with slots for all prompt and new tokens |
| SchedPolicy.PreemptsForHigh | liteserve/scheduler/scheduler.py:159-168 | under "fcfs" and "priority" a HIGH head that needs more than is free, and no more than everybody's eviction frees, is let in and somebody is preempted for it |
| SchedPolicy.NeverPreempts | liteserve/scheduler/scheduler.py:159-168 | under any other policy, or with no HIGH request waiting, a step returns and preempts nobody |
| SchedStep.StepShape | liteserve/scheduler/scheduler.py:100-188 | the step is its four phases, the third given by two numbers, however it ends, and the ids in the queues are conserved |
| SchedStep.StepServesLate | liteserve/scheduler/scheduler.py:170-186 | a request that has waited more than max_waiting_time_ms and is left pending by a step faces a full batch or too few free blocks |
| SchedForced.ForceAllCloses | liteserve/scheduler/scheduler.py:178-186 | phase 4 lets in exactly the first of the given requests that fit on their own, as many as the batch has room for |
| SchedForced.ForcedAre | liteserve/scheduler/scheduler.py:170-186 | those were pending for more than max_waiting_time_ms, come in queue order, and are all such requests that fit if room is left |
| SchedForced.EntrantsLate | liteserve/scheduler/scheduler.py:170-186 | so whoever phase 4 adds to the batch has waited that long and fits the free blocks on its own |
| SchedForced.OverfullExactly | liteserve/scheduler/scheduler.py:133-188 | after a step the batch exceeds its maximum if and only if it did after swap-in |
| SchedForced.OverdrawsExactly | liteserve/scheduler/scheduler.py:145-186 | the whole step read off the state before admission: who is admitted, preempted and forced in; what it lets in exceeds the free blocks if and only if the forced part exceeds what phase 3 left unreserved |
| SchedForced.ForcedOverdraws | liteserve/scheduler/scheduler.py:178-186 | an input where it does: two that fit one at a time, the second late |
| SchedStep.StepInSums | liteserve/scheduler/scheduler.py:145-168 | a step that returns, with the sums' numbers of admitted and preempted; the admitted requests' total estimate is within the blocks free at the end of the phase, and they do not overfill the batch |
| SchedRuns.ScheduleInv | liteserve/scheduler/scheduler.py:100-188 | a step keeps conservation, statuses, counters, callbacks and queue order, even if it raises half way or hangs |
| SchedRuns.ReapTakesDone | liteserve/scheduler/scheduler.py:113-117 | a step keeps a running request past its first phase if and only if it is neither COMPLETE nor FAILED, and records it with its output otherwise |
| SchedRuns.ArriveInv | liteserve/scheduler/scheduler.py:71-92 | so does adding at either end |
| SchedRuns.CancelInv | liteserve/scheduler/scheduler.py:240-264 | so does aborting from any queue |
| SchedRuns.TakeInv | liteserve/scheduler/scheduler.py:266-268 | so does collecting |
| SchedRuns.Conservation | liteserve/scheduler/scheduler.py:38-268 | on every run each added request is in exactly one place with a matching status, scheduled - completed - cancelled = active + preempted, callbacks fire once per reaped request, pending is HIGH newest-first then NORMAL oldest-first |
| SchedRuns.CancelledNeverCalled | liteserve/scheduler/scheduler.py:240-264 | the callback of a cancelled request stays registered and never fires |
| SchedLeaks.AbortFrees | liteserve/scheduler/scheduler.py:240-264 | aborting a running or preempted request drops its table and swap entry and returns exactly its blocks |
| SchedLeaks.NothingLeaks | liteserve/scheduler/scheduler.py:113-264 | on every run with clients that allocate for running requests only, a table belongs to a running request or is the empty one of a preempted request, a swap entry belongs to a preempted request, and whoever was aborted, reaped or collected holds neither |
| SchedSwap.StepBacked | liteserve/scheduler/scheduler.py:220-224 | if running requests own blocks before a step, every preempted request is in swap space after it |
| SchedSwap.RunBacked | liteserve/scheduler/scheduler.py:132-141 | the same over whole runs |
| SchedSwap.ResumesWhatFits | liteserve/scheduler/scheduler.py:132-141 | then the resumed prefix is exactly the longest whose blocks fit |
| SchedSwap.EmptyBatchResumes | liteserve/scheduler/scheduler.py:132-141 | then an empty batch after reaping resumes at least the head |
| SchedSwap.ClientsNeverRaise | liteserve/scheduler/scheduler.py:220-221 | with such clients no step raises |
| SchedUnbacked.PreemptsAllOrNone | liteserve/scheduler/scheduler.py:144-168 | without allocating clients a phase preempts every non-PREFILL request or none, and admits nobody after that |
| SchedUnbacked.PreemptedForGood | liteserve/scheduler/scheduler.py:132-141 | no step resumes anyone or changes a block count |
| SchedUnbacked.StaysPreempted | liteserve/scheduler/scheduler.py:100-264 | on a whole run whoever is preempted stays so unless cancelled |
| SchedUnbacked.UnbackedNeverRaises | liteserve/scheduler/scheduler.py:220-221 | and no step raises |
| SchedClosure.StepClosed | liteserve/scheduler/scheduler.py:100-188 | a step, also one that raises, changes nothing about a request but three kinds of status changes, and hands over only finished ones |
| SchedRaise.PassLeads | liteserve/scheduler/scheduler.py:146-168 | each pass of the loop either goes on with something smaller, or ends the phase where the model does, or raises for the request and at the victim that the sums name |
| SchedRaise.PreemptingSpares | liteserve/scheduler/scheduler.py:198-238 | a call of the preemption, also one that raises half way, leaves no NORMAL request running beside a HIGH one it evicted, and none of the same priority that arrived later than one it evicted |
| SchedClosure.NobodyStranded | liteserve/server/app.py:168-175 | with obliging clients, a step that leaves the loop idle leaves no one preempted |
| Scheduling.Scheduler.AddRequest | liteserve/scheduler/scheduler.py:71-92 | the object adds as the model does |
| Scheduling.Scheduler.EstimateBlocksNeeded | liteserve/scheduler/scheduler.py:190-196 | the least number of blocks that hold prompt + max_new_tokens positions |
| Scheduling.Scheduler.ReapPhase | liteserve/scheduler/scheduler.py:113-123 | the first loop is the model's phase 1, on the real cache |
| Scheduling.Scheduler.ResumePhase | liteserve/scheduler/scheduler.py:133-141 | the second loop is phase 2 |
| Scheduling.Scheduler.TryPreemption | liteserve/scheduler/scheduler.py:198-238 | evicts what the model evicts, NORMAL before HIGH and newest first, and succeeds exactly when enough is free, or raises at the first victim with an empty table, all before it evicted |
| Scheduling.Scheduler.AdmitPhase | liteserve/scheduler/scheduler.py:145-168 | the admission loop: the model's end, or Hung exactly where the model never ends, or Raised with exactly those admitted and evicted that the sums name; preempts for a HIGH head under "fcfs" and "priority", and never under another policy |
| Scheduling.Scheduler.ForcePhase | liteserve/scheduler/scheduler.py:171-186 | the forced admissions are the model's, all of them waiting for more than max_waiting_time_ms |
| Scheduling.Scheduler.ScheduleStep | liteserve/scheduler/scheduler.py:100-188 | from any state: returns, hangs or raises exactly where the model does and leaves what it leaves, with the sums' conditions for hanging and raising; what it did to the cache is a legal run of cache operations |
| Scheduling.Scheduler.AbortRequest | liteserve/scheduler/scheduler.py:240-264 | removes from the first queue that has the id; out of the batch or the preempted queue, its table and swap entry go and exactly its blocks join the free set, otherwise the cache is unchanged; reports whether it was found |
| Scheduling.Scheduler.GetCompleted | liteserve/scheduler/scheduler.py:266-268 | hands out and forgets a completed request |
| Batching.MaskHidesPadding | liteserve/engine/inference.py:143-164 | the mask row lets through exactly the unpadded entries, in order |
| Batching.SliceDropsPadding | liteserve/engine/inference.py:186-192 | the slice of the last real_len entries drops exactly the padding |
| Batching.RowIsAlone | liteserve/engine/inference.py:134-178 | a row of the padded pass is computed from what the request's own pass is computed from |
| Batching.SplitIsExtended | liteserve/engine/inference.py:186-193 | what is sliced back is the request's cache with its new entries |
| EngineModel.SerialDecodes | liteserve/engine/inference.py:199-203 | decoding one by one moves each request as alone and touches nothing else |
| EngineModel.BatchIsSerialInAnyOrder | liteserve/engine/inference.py:118-203 | a batched decode leaves every cache, length, token and status as decoding one by one in any order does |
| EngineModel.InFlightIsPrefix | liteserve/engine/inference.py:223-266 | tokens on the sequential path are a proper prefix of what generate_sequential yields |
| EngineModel.SequentialStops | liteserve/engine/inference.py:223-266 | what generate_sequential yields ends with the first end-of-sequence token or at max_new_tokens, whichever comes first, and is at least one token |
| EngineModel.PrefillFollows | liteserve/engine/inference.py:88-113 | prefill puts a request on the sequential path or completes it with the whole of it |
| EngineModel.MoveFollows | liteserve/engine/inference.py:180-197 | a decode keeps it on the path or completes it with the whole of it |
| Inference.InferenceEngine.PrefillRequest | liteserve/engine/inference.py:88-113 | first token, cache and length, freed again if that was the last token |
| Inference.MaxLen | liteserve/engine/inference.py:134-135 | the maximum of the cache lengths |
| Inference.StackCache | liteserve/engine/inference.py:139-150 | every layer holds each request's row, left-padded with zeros |
| Inference.Inputs | liteserve/engine/inference.py:154-166 | last token, mask row and position id per request |
| Inference.PaddedPass | liteserve/engine/inference.py:134-178 | each row of the pass gives its request what its own move gives it |
| Inference.InferenceEngine.DecodeBatch | liteserve/engine/inference.py:117-197 | every request of the call and its cache move as alone, nothing else changes; one pass and one token per mover are counted |
| Inference.InferenceEngine.DecodeStep | liteserve/engine/inference.py:199-203 | the single-request call is the request's own move |
| Inference.InferenceEngine.GenerateSequential | liteserve/engine/inference.py:222-266 | yields tokens up to the first end-of-sequence token or the limit on generated tokens, not one more, and completes the request |
| ServerModel.EngineFor | liteserve/server/app.py:196-200 | the assigned model if loaded, else the first, else none |
| ServerRuns.PrefillRight | liteserve/server/app.py:220-221 | prefill takes a correct request to a correct request |
| ServerRuns.DecodeRight | liteserve/server/app.py:225-237 | so does a decode |
| ServerRuns.InferAllowed | liteserve/server/app.py:202-237 | in every reachable state the batch can take an inference step, and the result is the same batch with changed tokens and statuses |
| ServerRuns.ActCorrect | liteserve/server/app.py:155-243 | every action, aborts and steps that raise included, keeps all requests on their sequential path, wherever they are |
| ServerRuns.ServesSequentialTokens | liteserve/server/app.py:202-243 | on every run every request, aborted ones included, has a prefix of its sequential tokens, and completed or collected ones exactly those |
| ServerRuns.CachesExactly | liteserve/engine/inference.py:100-101 | of the requests not aborted an engine caches exactly its prefilled unfinished ones, preempted ones included, at prompt + generated - 1 positions in every layer |
| ServerRuns.EstimateCoversCache | liteserve/scheduler/scheduler.py:190-196 | on every run, the cache an engine holds for a request that was not aborted has fewer positions than the blocks of its estimate have slots |
| ServerRuns.AbortLeaksCache | liteserve/scheduler/scheduler.py:240-264 | after an abort and whatever happens later an engine holds a cache of the request if and only if it had prefilled the request and not finished it, and then the cache of that moment |
| ServerRuns.AbortDiscardsComplete | liteserve/scheduler/scheduler.py:243-247 | aborting a complete request before it is reaped discards its whole output |
| ServerRuns.PassRuns | liteserve/server/app.py:166-194 | one pass of the generation loop is a run of the server, also if the step raises |
| LiteServe.LiteServeApp.RunInferenceStep | liteserve/server/app.py:202-237 | prefills and per-engine batched decodes give every request its own step and change nothing else |
| LiteServe.LiteServeApp.GenerationPass | liteserve/server/app.py:166-194 | nothing while the loop sees no work, else a scheduling step and then an inference step if there is a batch; a step that raises ends the pass |
| SchedFifo.StepPlain | liteserve/scheduler/scheduler.py:100-188 | with nobody waiting who may preempt or does not fit, a step returns, the finished leave, the head of the queue enters in order, and the batch is empty only if nothing is left |
| ServerProgress.InferPays | liteserve/server/app.py:202-237 | an inference step takes each running request exactly one token nearer to the end of its sequential tokens |
| ServerProgress.PassPays | liteserve/server/app.py:166-194 | a pass brings everybody in line at least one pass nearer |
| ServerProgress.CallPays | liteserve/scheduler/scheduler.py:71-268 | submitting behind, collecting, aborting others and cache clients that leave enough free make nobody wait longer |
| ServerProgress.EverybodyServed | liteserve/server/app.py:155-194 | once there were as many passes as a request and those in front have tokens to come and one more each, it is complete with exactly its sequential tokens, collected with them, or aborted |
| ServerProgress.CostWithin | liteserve/engine/inference.py:207-208 | that is at most max_new_tokens + 1 passes a request (2 if the limit is 0) |
| LiteServe.LiteServeApp.GenerationLoop | liteserve/server/app.py:155-194 | any number of passes of the object compose into one run of the server, so its requests are all on track; started with NORMAL requests that fit it never hangs and whoever had no more passes to wait for is settled |
| TokenStream.PollFaithful | liteserve/server/app.py:390-427 | each step of the consumer keeps what went out a prefix of the tokens and never reads past their end |
| TokenStream.LaterFaithful | liteserve/server/app.py:390-403 | so does anything the producer does |
| TokenStream.StreamsEveryToken | liteserve/server/app.py:379-427 | however they interleave, an ended stream has sent every token once in order and one closing event, "stop" just in case the request was complete when it closed; if the request ends complete the event tells so |
| TokenStream.StreamEnds | liteserve/server/app.py:390-427 | once the request is COMPLETE or FAILED the stream ends after boundedly many of its own steps |
| TokenStream.KeepsUp | liteserve/server/app.py:390-403 | whatever the producer does meanwhile, the tokens that are there now are out, in order, after as many of the stream's own steps as there are tokens still to send and three more: it streams while the request runs |
| ServedStreams.ServerIsProducer | liteserve/server/app.py:202-243 | from before to after any action of the server a request's tokens only grow, and a finished request gets no more |
| ServedStreams.ServeInference | liteserve/server/app.py:181-186 | the stream may also look at any moments in the middle of an inference step and keeps its promise |
| ServedStreams.ClientReceivesBaseline | liteserve/server/app.py:379-427 | a stream opened on a submitted request sends exactly its sequential tokens and one "stop", or, only if it is aborted, a prefix and one "error" |
| ServedStreams.ClientKeepsUp | liteserve/server/app.py:390-403 | the same beside the running server, with looks in the middle of inference steps |
| ServedStreams.RunsAsBeats | liteserve/server/app.py:155-194 | every run of the server is one beside a stream that does not look |
| ServedStreams.StreamReadToEnd | liteserve/server/app.py:390-427 | once the server has settled a request its stream can be read to the closing event |
| ServedStreams.EveryClientServed | liteserve/server/app.py:379-427 | with NORMAL requests that fit, that is so after the passes that the request and those in front of it need |

## Left out

- Request objects: one request is a record, not a shared object; where the source's scheduler, engine and stream see each other's writes through the shared object, the model writes the new record back (`HandOver`, `RunInferenceStep`). Aliasing beyond that is not modelled.
- Inference errors: a request whose inference failed has no promised tokens.
- Aborts in the middle of an inference step: an abort is one event between steps.
- Scheduling.Scheduler.AdmitPhase: where the source loops for ever, the method returns and says so.
- ServerProgress.EverybodyServed: for NORMAL requests whose estimates fit the free blocks, with nobody preempted at the start; with HIGH requests a step may hang, and without clients a preempted request never comes back.
- ServerRuns.ServesSequentialTokens: for at least one loaded model, as startup demands, and for requests submitted with no generated tokens; a step that hangs ends the run.
- Temperature above zero: sampling is random; the greedy branch is modelled.
- The transformer, floating point, tensor shapes beyond the sequence axis, `cache_position`, devices and dtypes: row independence and respect for the mask are the definition of a forward pass here.
- `generate_sequential` tokenizing an empty prompt list first, consumers that stop the generator early, and a negative `max_new_tokens`.
- Clocks, completion and first-token times, metrics, logging: `now` is an input, except that the model reads one clock per step.
- Callbacks: firing is recorded by id; what a callback does or raises is not modelled.
- Copy-on-write sharing: the reference count exists and is proved to be always 1.
- Cache positions below zero and layers out of range.
- `free` for a request that has a swap entry but no table keeps the entry in the source; no reachable cache has such an entry, as the invariant says.
- SchedLeaks.NothingLeaks: for clients that give blocks to running requests only and leave swap space alone; `allocate` itself takes any id.
- SchedSwap.RunBacked: holds for clients that keep the stated obligations; the server itself has none.
- Router, HTTP endpoints, event formatting, configuration, model loading, tokenizers, statistics, benchmarks: I/O and plumbing with only easy members.
- `Batch.prefill_requests`, `generate_requests` and the size properties: one-line filters that nothing here depends on.

# A verified model of the mini-vllm engine

This project models the continuous-batching engine of mini-vllm together with the paged KV cache
it drives, and proves what the two promise jointly: that batching, chunking, scheduling order,
block reuse and cancellation are invisible in the generated tokens; that the block pool is never
corrupted; that no admitted request stalls; and that the driving loop comes to an end exactly when
it can. `dafny verify dfyconfig.toml` checks everything.

## How it is organised

The model has two layers that meet in the contracts of the methods.

*Values and laws.* `Base`, `BlockSpec`, `BlockCoverage` (pool, tables, prefix cache), `Requests`,
`ScheduleSpec` (one scheduling iteration), `EngineSpec`, `EngineLaws`, `StepLaws` (one engine step
and its invariant), `Fairness` (who is admitted, and why anybody still waits), `Runs`, `Lifecycle`,
`Termination` (whole runs), `PrefixLaws`, `PrefixRuns` (what the prefix cache finds),
`PrefixHonesty` (when a hit is worth something), `Transformer` (the cache-free reference semantics
of generation), `BatchSpec`, `Forward` (rows, slots, scatter, gather, the forward pass),
`PagedEngine`, `PagedRuns` (the paged cache as a refinement of per-sequence logs),
`AdmissionControl`, `AdmissionLaws`, `Attention` (softmax over the reals), `AttentionFormula`,
`AttentionLaws` (the explicit weighted mean that every attention here computes),
`ChunkedAttention` (causal attention as a function, and why a prompt may be cut anywhere).

*Objects.* `BlockManager`, `RequestQueue`, `Sweeps`, `Scheduler`, `Reaper` (cancel and timeout),
`Preparation` (block allocation of a step), `InputBuilder`, `PagedCache`, `PagedAttention`,
`FlatWrite`, `ChunkedPrefill`, `ModelRunner`, `GpuBackend`, `GpuRunner` (the same runner on the GPU
kernels), `Executor`, `Delivery`, `EngineCore`, `LLMEngine`. Their methods are the loops and
in-place updates of the program; each is proved to leave exactly the state the value layer defines,
so the laws hold of the objects. The chain ends in `LLMEngine.RunUntilDone`: under every clock that
lets each waiting request be taken or time out the loop terminates, and unless the pool runs dry
every request is finished or rejected and every text is recorded, with prefix caching off the
decoding of the tokens the request would generate alone.

*The fake executor.* `FakeModel` (its arithmetic and the closed text of a request),
`FakeCallbacks` (what the allocator's callbacks make of its dictionary), `FakeExecution`,
`FakeServing` (one step over a batch), `FakeEngine`, `FakeRuns` (whole runs), and the object
`FakeExecutor`.

The transformer is a record of uninterpreted functions, layer by layer: embedding, projection to
keys and values, attention with everything after it, sampling. Time is a set of expired ids per
step. Running out of blocks is an error outcome that keeps the state reached, as the exception
does.

## What turned out to depend on a condition

* `run_until_done` ends if and only if every waiting request can be admitted or rejected by an idle
  engine or times out at some step, whatever the clock (`DrainsIffAllLeave`, without prefix
  caching). With the default timeout every waiting request leaves sooner or later; when none fires,
  a first chunk above the budgets whose prompt is within the token budget is passed over in every
  step (`DrainsIffSchedulable`; `TightConfigStarves` is such a request).
* The pools are a partition except after the cancel of a rejected request, which then is in the
  finished pool too (`PoolsStayDisjoint`, both directions; `CancelBreaksThePartition` is such a run).
* `AdmissionControl.check` protects a lone request from running out of blocks for every limit of at
  least zero. A negative limit lowers the estimate below the prompt itself: `NegativeLimitSlipsThrough`
  is such a request, and `NeverRunsOutIff` is the exact condition.
* A prefix hit is accepted on a reference count alone, so it may lead to a block that was freed and
  taken over for other tokens: `StaleHit` is such a case. The cache stays honest under everything
  but claiming a free block, and under that exactly when no other hash is left over for the claimed
  block (`GrowthHonestIff`).
* A request with a limit below one is retired by the finish check of the step after its admission,
  even in the middle of its prompt; statements about exact token counts therefore ask for a limit
  of at least one.
* `BlockAllocator.allocate(0)` takes every free block; the manager only ever asks for one.
* The comment list above `check` in `serving/admission_control.py` promises a fourth check against
  the token budget; the code has none, and the model follows the code.

## Model

| member | source | states |
|---|---|---|
| `BlockManagement.BlockAllocator.FindFree` | mini_vllm/cache/allocator.py:59-64 | the scan returns exactly the n lowest free blocks, and with n = 0 it never stops early and returns every free block |
| `BlockSpec.FreeIdsLaw` | mini_vllm/cache/allocator.py:59-64 | the scan of the free list meets every free block once, in increasing order, and nothing else |
| `BlockSpec.ClaimLaw` | mini_vllm/cache/allocator.py:66-72 | claimed blocks leave the pool with one reference each; every other flag and count is untouched |
| `BlockSpec.AllocateOne` | mini_vllm/cache/allocator.py:50-72 | asking for one block fails exactly when no block is free and otherwise yields the lowest free one |
| `BlockManagement.BlockAllocator.Allocate` | mini_vllm/cache/allocator.py:50-72 | None and no change when too few blocks are free, otherwise the picked blocks and the pool of the specification |
| `BlockSpec.ReleaseLaw` | mini_vllm/cache/allocator.py:74-88 | releasing a list drops one reference per occurrence, saturates at zero, and frees a block exactly with its last reference |
| `BlockManagement.BlockAllocator.Free` | mini_vllm/cache/allocator.py:74-88 | the loop over the list, duplicates included, leaves the pool ReleaseLaw speaks of |
| `BlockManagement.BlockAllocator.CheckInvariants` | mini_vllm/cache/allocator.py:102-131 | no violation is reported exactly when free flags and zero counts coincide for every block |
| `BlockManagement.ComputeBlockHashes` | mini_vllm/cache/prefix_cache.py:38-51 | the loop leaves one hash per logical block of the prompt, those BlockHashesAt describes |
| `BlockManagement.BlockManager.ProbePrefixCache` | mini_vllm/cache/manager.py:68-113 | read-only: the longest run of usable cached blocks from block 0 on, and its token count capped at the prompt length |
| `BlockManagement.BlockManager.AllocateForSeq` | mini_vllm/cache/manager.py:119-161 | a fresh sequence gets a table holding the shared usable prefix; all other tables stay; the books stay balanced |
| `BlockManagement.BlockManager.EnsureBlock` | mini_vllm/cache/manager.py:163-231 | the growth loop leaves the specified state also when the pool runs dry on the way, and the returned block is the one at the position |
| `BlockManagement.BlockManager.Free` | mini_vllm/cache/manager.py:246-266 | forgets exactly this sequence and gives back one reference per table entry; unknown ids change nothing |
| `BlockManagement.BlockManager.GetBlockTable` | mini_vllm/cache/manager.py:275-285 | the physical ids in logical order, empty without a table |
| `BlockSpec.AllocateForSeqConserves` | mini_vllm/cache/manager.py:119-161 | registering and sharing keeps: each count equals the live occurrences, free means zero, at most one owner per block |
| `BlockSpec.EnsureBlockConserves` | mini_vllm/cache/manager.py:163-231 | growing keeps the same conservation law, whether it succeeds or runs out of blocks |
| `BlockSpec.FreeSeqConserves` | mini_vllm/cache/manager.py:246-266 | releasing a sequence keeps the same conservation law, also when a block occurs twice in its table |
| `BlockSpec.NoTablesAllFree` | mini_vllm/cache/allocator.py:28-31 | balanced books without any table mean that every block is free |
| `BlockCoverage.EnsureBlockLaw` | mini_vllm/cache/manager.py:183-231 | when all earlier positions are covered one call adds at most one block, only to this table, and covers the position |
| `BlockCoverage.EnsureRangeLaw` | mini_vllm/engine/engine_core.py:113-128 | the loop over a chunk ends with exactly as many blocks as its last position needs, or out of blocks with tables only grown |
| `BlockCoverage.ProbeAgreesWithAllocation` | mini_vllm/cache/manager.py:68-113 | what the probe reports is exactly what registration shares next, and the start position is covered by that table |
| `BlockCoverage.EntriesDistinct` | mini_vllm/cache/manager.py:203-214 | without prefix caching no physical block occurs at two places of the live tables |
| `BlockCoverage.OneTableOom` | mini_vllm/cache/manager.py:203-212 | with a single live table a growth can only fail when that table is as long as the pool |
| `PrefixLaws.BlockHashesAt` | mini_vllm/cache/prefix_cache.py:38-51 | hash i is the hash of all tokens of logical block i, a partial last block included, and of nothing else |
| `PrefixLaws.HashesAgree` | mini_vllm/cache/prefix_cache.py:28-51 | without collisions two prompts agree on their first k hashes if and only if they agree on the tokens of those k blocks |
| `PrefixLaws.ProbeIsLongest` | mini_vllm/cache/manager.py:91-113 | the probe reports the block of each hash up to, and not including, the first one that is unknown or stale |
| `PrefixLaws.GrownIsRegistered` | mini_vllm/cache/manager.py:183-226 | a block grown for a prompt position is cached under the hash of its tokens and usable by everybody, shared or newly claimed |
| `PrefixLaws.EnsuredIsUsable` | mini_vllm/cache/manager.py:163-231 | after a prompt position has been ensured the hash of its block is usable, also when the block was there before |
| `PrefixLaws.UsableIsFound` | mini_vllm/cache/manager.py:95-109 | a prompt whose first k hashes are usable finds at least these tokens cached, and the whole prompt when all its hashes are usable |
| `PrefixLaws.CommonPrefixIsFound` | mini_vllm/cache/manager.py:91-109 | a prompt that begins with the tokens of the first k blocks a registered sequence holds finds at least these tokens cached |
| `PrefixLaws.EqualHashesShare` | mini_vllm/cache/manager.py:137-152 | where the prompts of two registered sequences hash alike they hold the same physical block |
| `PrefixRuns.ApplyRemembers` | mini_vllm/cache/manager.py:119-266 | with prefix caching on every event keeps every running request registered: the cache leads from each hash of its prompt to the block that holds it |
| `PrefixRuns.ProcessedPromptsHit` | mini_vllm/cache/manager.py:68-113 | in every run, whatever has been processed of a running prompt is found cached by every prompt that begins with the same blocks |
| `PrefixRuns.DecodedPromptIsCached` | mini_vllm/cache/manager.py:68-113 | in every run the whole prompt of a decoding request is found cached |
| `PrefixRuns.CommonPrefixIsShared` | mini_vllm/cache/manager.py:183-226 | in every run two running requests hold one and the same physical block wherever their prompts have the same block |
| `PrefixRuns.HashesFollowTables` | mini_vllm/cache/manager.py:246-266 | in every run hash lists exist for exactly the running requests, and for nobody with prefix caching off |
| `PrefixHonesty.HonestHit` | mini_vllm/cache/manager.py:95-100 | while the cache is honest, a hit leads to a block that a live sequence holds under the very hash asked for, and nobody holds it under another |
| `PrefixHonesty.ArrivalStaysHonest` | mini_vllm/cache/manager.py:119-161 | registering a sequence keeps the cache honest |
| `PrefixHonesty.GrowthHonestIff` | mini_vllm/cache/manager.py:183-226 | growth keeps the cache honest if and only if it shares a usable block, fails, or claims a block that no other hash is left over for |
| `PrefixHonesty.StaleHit` | mini_vllm/cache/manager.py:95-100 | a concrete case of the opposite: a prompt is found cached on a block that a later sequence took over for other tokens |
| `RequestQueues.WithoutAt` | mini_vllm/sequence/sequence_group.py:80-93 | popping a key removes exactly the one place that has it and keeps the order of the rest |
| `RequestQueues.FindId` | mini_vllm/sequence/sequence_group.py:133-138 | a lookup finds a request with the id when there is one and nothing otherwise |
| `RequestQueues.PutLaw` | mini_vllm/sequence/sequence_group.py:76-93 | assigning an entry keeps the ids distinct, names exactly this request by its id and leaves every other id alone, whether the key was there or not |
| `RequestQueues.MoveLaw` | mini_vllm/sequence/sequence_group.py:80-93 | popping from one pool and assigning in another keeps both free of duplicates, loses no id and never leaves the request in both |
| `RequestQueues.RequestQueue.Add` | mini_vllm/sequence/sequence_group.py:76-78 | a new id enters the waiting pool at its end, a known one is overwritten in place |
| `RequestQueues.RequestQueue.MarkRunning` | mini_vllm/sequence/sequence_group.py:80-83 | leaves the waiting pool and enters the running one; with MoveLaw no id is lost or doubled |
| `RequestQueues.RequestQueue.MarkFinished` | mini_vllm/sequence/sequence_group.py:85-88 | leaves the running pool and enters the finished one; with MoveLaw no id is lost or doubled |
| `RequestQueues.RequestQueue.MarkRejected` | mini_vllm/sequence/sequence_group.py:90-93 | leaves the waiting pool and enters the rejected one; with MoveLaw no id is lost or doubled |
| `Sweeps.SweepTurn` | mini_vllm/scheduler/scheduler.py:90-104 | one turn of a retiring loop over a copy of the running pool keeps: swept part filtered, rest untouched, blocks of the retired released |
| `Scheduling.Scheduler.FinishPhase` | mini_vllm/scheduler/scheduler.py:86-104 | exactly the requests at their limit move to the finished pool, in order, and give back their blocks |
| `Scheduling.Scheduler.Categorize` | mini_vllm/scheduler/scheduler.py:107-120 | the running requests split by status, order kept, none lost |
| `Scheduling.Scheduler.DeductDecodes` | mini_vllm/scheduler/scheduler.py:123-140 | every decode is paid one token and one place before any prefill |
| `Scheduling.Scheduler.ContinuePrefills` | mini_vllm/scheduler/scheduler.py:143-166 | the loop with its two ignore branches leaves the plan of the specification |
| `Scheduling.Scheduler.Weigh` | mini_vllm/scheduler/scheduler.py:184-220 | the first charge of a waiting request under prefix hits, and where its cursor starts, full hits included |
| `Scheduling.Scheduler.AdmitNext` | mini_vllm/scheduler/scheduler.py:177-230 | one turn of the admission loop: pass over, reject, wait, or admit with its table, cursor and charge |
| `Scheduling.Scheduler.AdmitPhase` | mini_vllm/scheduler/scheduler.py:169-230 | the whole admission loop over a copy of the waiting pool leaves pools, blocks, budgets and lists of the specification |
| `Scheduling.Scheduler.Schedule` | mini_vllm/scheduler/scheduler.py:79-248 | all phases together: new pools, new blocks and the reported schedule are those of the specification |
| `Fairness.FirstComeFirstServed` | mini_vllm/scheduler/scheduler.py:172-230 | for every place in the waiting pool: taken, rejected or left, each if and only if the seats and tokens that the ones taken before it leave say so |
| `Fairness.WaitsOnlyForRoom` | mini_vllm/scheduler/scheduler.py:172-208 | nobody is left waiting unless every seat is taken or its first chunk exceeds what is left of the prefill budget; the reported reasons are true |
| `Fairness.PoolsKeepTheOrder` | mini_vllm/scheduler/scheduler.py:176-226 | requests stay, are rejected and enter in the order they waited in, with nothing changed but status and start cursor |
| `Fairness.StaticBatchIsClosed` | mini_vllm/scheduler/scheduler.py:169-175 | in static mode, while anybody runs on, nobody is admitted, rejected or looked at |
| `Reaping.Reaper.CheckTimeouts` | mini_vllm/engine/engine_core.py:258-288 | expired running requests, then expired waiting ones, leave their pools for the finished one; only the former had blocks to free |
| `Reaping.Reaper.CancelRequest` | mini_vllm/engine/engine_core.py:229-256 | true exactly for known ids; live requests are freed and filed as cancelled, finished ones stay, rejected ones are filed once more |
| `Preparation.EnsureBlocks` | mini_vllm/engine/engine_core.py:108-128 | the allocation loops of a step, prefills first, stop at the first position without a block in the state reached so far |
| `EngineSpec.InitInv` | mini_vllm/engine/engine.py:38-69 | a new engine satisfies the engine invariant |
| `EngineSpec.AddInv` | mini_vllm/engine/engine.py:87-106 | adding a request with a non-empty prompt keeps the engine invariant |
| `EngineSpec.CancelInv` | mini_vllm/engine/engine_core.py:229-256 | every cancel keeps the engine invariant, also that of a rejected request |
| `EngineSpec.DropInv` | mini_vllm/engine/engine_core.py:258-288 | taking out any set of live requests keeps the engine invariant |
| `Lifecycle.DropTakesOut` | mini_vllm/engine/engine_core.py:258-288 | a timeout files exactly the named requests, running ones with status and output, frees their tables, and moves nobody else |
| `Lifecycle.CancelTakesOut` | mini_vllm/engine/engine_core.py:229-256 | a cancel takes out exactly the named live request; for any other id everything waiting, running and allocated stays |
| `Lifecycle.TimeoutsComeFirst` | mini_vllm/engine/engine_core.py:66-80 | a step finishes a request whose time is over with the output it had and computes nothing for it: it neither waits, runs nor is in the batch |
| `Lifecycle.RequestsKeepTheirIdentity` | mini_vllm/engine/engine.py:87-106 | in every run the request with id k carries the prompt and the limit of the k-th addition |
| `EngineLaws.ContinueNeverIgnores` | mini_vllm/scheduler/scheduler.py:143-166 | under the invariant both ignore branches for running prefills are unreachable: every running prefill continues |
| `StepLaws.ScheduleLaw` | mini_vllm/scheduler/scheduler.py:79-248 | after scheduling every running request is in the batch and the next-step costs again fit all three budgets |
| `StepLaws.AdvanceLaw` | mini_vllm/engine/engine_core.py:140-147 | a processed request never costs more in its next step than it was charged in this one |
| `StepLaws.PrepareLaw` | mini_vllm/engine/engine_core.py:80-128 | when blocks suffice every table is exactly as long as the positions of the step need; tables only grow |
| `StepLaws.FinishLaw` | mini_vllm/engine/engine_core.py:130-147 | after a step every running table has ceil(cached / block size) blocks |
| `StepLaws.StepInv` | mini_vllm/engine/engine_core.py:66-173 | every step, finished or abandoned for lack of blocks, keeps the engine invariant |
| `StepLaws.ScheduleKeepsIds` | mini_vllm/scheduler/scheduler.py:79-248 | scheduling moves requests between pools and loses none |
| `Runs.RunInv` | mini_vllm/engine/engine_core.py:66-288 | every state of every run of additions, cancels, timeouts and steps satisfies the invariant |
| `Runs.EveryRunKeepsTheBooks` | mini_vllm/cache/allocator.py:50-93 | in every run: counts are live occurrences, free means zero, one owner at most; tables exist exactly for running sequences; an idle engine holds no block; no request is lost |
| `Runs.PoolsStayDisjoint` | mini_vllm/sequence/sequence_group.py:76-138 | the four pools stay disjoint under an event if and only if it is not the cancel of a rejected request |
| `Runs.CancelBreaksThePartition` | mini_vllm/engine/engine_core.py:248-256 | a concrete run: an oversized prompt is rejected by the first step, and cancelling it then puts it in two pools |
| `Runs.NobodyStalls` | mini_vllm/scheduler/scheduler.py:126-166 | in every step of every run each running request is in the batch, within the token, prefill and sequence budgets |
| `Runs.StepMoves` | mini_vllm/engine/engine_core.py:140-147 | where one step takes a running request: finished at its limit, advanced otherwise |
| `Runs.MovedByClosedForm` | mini_vllm/engine/engine_core.py:140-147 | the closed form of cursor, generated tokens and status after k steps, for the request by itself |
| `Runs.ExactProgress` | mini_vllm/scheduler/scheduler.py:88-104 | whatever happens around it, an undisturbed running request follows that closed form and finishes at step K + M with exactly M tokens |
| `Runs.ExactProgressFromAdmission` | mini_vllm/scheduler/scheduler.py:205-226 | the same counted from admission: a request a step admits at cursor c0 follows the closed form with c0, that step being the first |
| `Runs.DropFinishes` | mini_vllm/engine/engine_core.py:258-288 | a timeout never files a request under the status of a finished one |
| `Termination.SmallChunksSuffice` | mini_vllm/engine/engine.py:130-139 | chunks within both budgets make every request schedulable |
| `Termination.StepDecreases` | mini_vllm/engine/engine.py:130-139 | every step with enough blocks strictly lowers the explicit measure of a busy engine, in continuous and static batch mode |
| `Termination.DrainsAfterDeadline` | mini_vllm/engine/engine.py:130-139 | under any clock, with prefix caching on or off: once everybody who cannot be taken has timed out the loop drains within Measure further steps |
| `Termination.DrainsIffAllLeave` | mini_vllm/engine/engine_core.py:258-288 | without prefix caching and under any clock the loop drains if and only if every waiting request can be taken by an idle engine or times out at some step |
| `Termination.DrainsIffSchedulable` | mini_vllm/engine/engine.py:130-139 | when no timeout ever fires it drains if and only if every waiting request can be taken, and then within Measure steps |
| `Termination.TightConfigStarves` | mini_vllm/scheduler/scheduler.py:202-208 | a concrete request that is passed over in every step: first chunk above the prefill budget, prompt within the token budget |
| `Transformer.HiddenPrefix` | mini_vllm/model_runner/qwen_runner.py:150-197 | causality of the reference: later tokens do not change earlier hidden states or entries |
| `BatchSpec.SlotFormula` | mini_vllm/engine/input_builder.py:202-222 | a slot is block id times block size plus offset |
| `BatchSpec.SlotMappingInjective` | mini_vllm/attention/paged_attention_gpu.py:126-135 | without prefix caching every slot mapping is duplicate-free and inside the pool, so the duplicate assertion never fires |
| `BatchSpec.RowsComplete` | mini_vllm/engine/input_builder.py:71-101 | every position a request has to process gets its row |
| `BatchSpec.RowsBelong` | mini_vllm/engine/input_builder.py:71-101 | every row belongs to a request of the batch, with its token, position, slot and table |
| `BatchSpec.RowsOrdered` | mini_vllm/engine/input_builder.py:71-101 | rows of one request are ordered by position, none twice |
| `BatchSpec.ScatterLaw` | mini_vllm/cache/cache_write.py:55-74 | with distinct slots every entry lands where it was sent and nothing else changes |
| `Forward.ScatterLogs` | mini_vllm/model_runner/qwen_runner.py:158-170 | after the write of a layer the cache holds every batch request's log up to the end of its step, old positions untouched |
| `Forward.GatherIsLog` | mini_vllm/cache/cache_read.py:56-84 | reading a logged sequence through its table gives its contiguous log in order |
| `Forward.PassIsReference` | mini_vllm/model_runner/qwen_runner.py:146-201 | the batched forward pass computes for every row the hidden state of the cache-free reference |
| `PagedEngine.PrepareRefines` | mini_vllm/engine/engine_core.py:80-128 | timeouts, scheduling and allocation keep every running sequence's log readable, reused blocks included |
| `PagedEngine.ForwardRefines` | mini_vllm/engine/engine_core.py:130-147 | running the model keeps the refinement and keeps every output a prefix of its own generation |
| `PagedRuns.PagedStepFaithful` | mini_vllm/engine/engine_core.py:66-173 | every paged step keeps the cache refinement and the honesty of all outputs |
| `PagedRuns.BatchingIsInvisible` | mini_vllm/engine/engine_core.py:95-147 | for every interleaving, budget and chunk size a finished output is the one-at-a-time generation from its own prompt, and any other output is a prefix of it |
| `PagedRuns.GatherYieldsLog` | mini_vllm/cache/pool.py:8-13 | after every run gathering through a running table yields exactly the entries of the sequence's own tokens, whatever the memory held before |
| `InputBuilding.SamplesAreRouted` | mini_vllm/engine/input_builder.py:67-101 | sample indices strictly increase and the k-th is the last row of the k-th sampling sequence |
| `InputBuilding.InfosNameSamplers` | mini_vllm/engine/input_builder.py:118-147 | sample output indices number the sampling sequences 0, 1, 2, ... in batch order |
| `InputBuilding.PaddingIsInvertible` | mini_vllm/engine/input_builder.py:239-258 | dropping the -1 entries of a padded table row gives the table back |
| `InputBuilding.ModelInputBuilder.SlotComputed` | mini_vllm/engine/input_builder.py:202-222 | for every position of a covered request the slot computation succeeds with the specified slot |
| `InputBuilding.ModelInputBuilder.PrefillRows` | mini_vllm/engine/input_builder.py:71-87 | the chunk loop spells out exactly the rows of the request |
| `InputBuilding.ModelInputBuilder.CollectDecodes` | mini_vllm/engine/input_builder.py:283-307 | under the invariant the three decode assertions hold and the metadata is the request's own |
| `InputBuilding.ModelInputBuilder.CollectInfo` | mini_vllm/engine/input_builder.py:118-147 | the running counter gives the infos of the specification |
| `InputBuilding.ModelInputBuilder.BlockTableTensor` | mini_vllm/engine/input_builder.py:239-258 | row i is the table of sequence i padded to the common width |
| `InputBuilding.ModelInputBuilder.Build` | mini_vllm/engine/input_builder.py:48-196 | the whole input: rows, samples, infos, groups and tables of both halves; no position is without a block |
| `PagedCache.WriteToPagedCache` | mini_vllm/cache/cache_write.py:55-74 | the loop writes the sequential scatter with -1 skipped; it stops at the first slot outside the pool, and only there, with the writes before it done |
| `PagedCache.WriteAllIsScatter` | mini_vllm/cache/cache_write.py:55-74 | without padding the reference loop is the scatter of the forward pass |
| `PagedCache.LastWriteWins` | mini_vllm/cache/cache_write.py:55-74 | also with repeated slots a slot holds the entry of the last token that names it, and a slot nobody names keeps its own |
| `PagedCache.GatherPagedKv` | mini_vllm/cache/cache_read.py:47-84 | fails exactly when the table does not cover the tokens; otherwise position p is offset p mod bs of block p div bs |
| `PagedCache.GatheredIsGather` | mini_vllm/cache/cache_read.py:56-84 | reading block by block is reading slot by slot |
| `ChunkedPrefill.RowsSlice` | mini_vllm/attention/paged_attention_ref.py:189-239 | the rows of the k-th sequence are the slice that starts at the token offset |
| `ChunkedPrefill.WriteFirst` | mini_vllm/attention/paged_attention_gpu.py:612-630 | after the write, gathering everything equals the gathered cached prefix followed by the current chunk's own entries |
| `Attention.AnyShiftIsSoftmax` | mini_vllm/attention/paged_attention_gpu.py:233-243 | numerator over denominator is the softmax-weighted sum whatever the exponents are taken relative to |
| `Attention.OnlineStep` | mini_vllm/attention/paged_attention_gpu.py:233-240 | one rescaling update keeps maximum, denominator and numerators of the positions seen |
| `Attention.FoldIsOnline` | mini_vllm/attention/paged_attention_gpu.py:204-240 | after n positions the three registers are the maximum and the two shifted sums of the first n |
| `PagedAttention.WalkPartitions` | mini_vllm/attention/paged_attention_gpu.py:209-221 | full blocks and then the partial one visit positions 0 to len - 1 in order and each once |
| `PagedAttention.OnePassIsSdpa` | mini_vllm/attention/paged_attention_gpu.py:204-243 | accumulator over sum at the end of the loop is plain softmax attention |
| `PagedAttention.WalkBlocks` | mini_vllm/attention/paged_attention_gpu.py:209-240 | the walk over the padded block table folds the one-pass update over exactly the gathered sequence |
| `PagedAttention.DecodeHead` | mini_vllm/attention/paged_attention_gpu.py:163-249 | one kernel program yields softmax attention of its query head over the gathered sequence with kv head h div REPEATS |
| `PagedAttention.KernelDecode` | mini_vllm/attention/paged_attention_gpu.py:297-321 | the grid over the heads of one sequence: every head holds what the reference defines |
| `PagedAttention.RepeatInterleaveAt` | mini_vllm/attention/paged_attention_ref.py:146-147 | expanding kv heads by repetition puts kv head h div n at place h |
| `PagedAttention.ExpansionIsDivision` | mini_vllm/attention/paged_attention_ref.py:146-157 | attention over the expanded heads is attention over kv head h div n |
| `PagedAttention.ReferenceDecode` | mini_vllm/attention/paged_attention_ref.py:131-161 | gather, expand, attend: fails only on a short table, otherwise the same outputs the kernel is proved to give |
| `PagedAttention.MaskedSdpa` | mini_vllm/attention/paged_attention_ref.py:214-233 | attention under a causal mask is attention over the visible prefix |
| `PagedAttention.PrefillSequence` | mini_vllm/attention/paged_attention_ref.py:196-239 | row q of a chunk attends to exactly keys 0 to cached + q |
| `PagedAttention.ReferencePrefill` | mini_vllm/attention/paged_attention_ref.py:196-239 | the same with everything gathered from the cache |
| `PagedAttention.FastPrefill` | mini_vllm/attention/paged_attention_gpu.py:602-656 | row q attends to exactly the first cached + q + 1 entries of gathered prefix followed by chunk |
| `AttentionLaws.LogitIsLinear` | mini_vllm/attention/paged_attention_gpu.py:228-230 | the logit is additive and homogeneous in the key |
| `AttentionLaws.LogitOfUnit` | mini_vllm/attention/paged_attention_gpu.py:228-230 | on the i-th unit key it is scale times coordinate i of the query, and with a unit query scale times coordinate i of the key |
| `AttentionLaws.HeadOutputIsMean` | mini_vllm/attention/paged_attention_ref.py:149-159 | a head yields the mean of the values weighted by e(scale * query . key), with the sums written out |
| `AttentionLaws.AttendsIsMean` | mini_vllm/attention/paged_attention_gpu.py:204-243 | so does every head of whatever attends: decode kernel, reference and the prefills |
| `AttentionLaws.AttendsToTwo` | mini_vllm/attention/paged_attention_gpu.py:230-243 | with a unit query along i over two entries the values are weighed as e(scale * ka[i]) to e(scale * kb[i]) |
| `ChunkedAttention.ChunkIsSlice` | mini_vllm/attention/paged_attention_ref.py:196-239 | one chunk behind its cached positions computes exactly its rows of one call over the whole prompt |
| `ChunkedAttention.AnyChunking` | mini_vllm/attention/paged_attention_ref.py:196-239 | for every list of chunk boundaries the concatenated outputs of the chunk calls are the rows of one call, up to the last boundary |
| `ChunkedAttention.ChunkingIsInvisible` | mini_vllm/attention/paged_attention_ref.py:214-218 | when the boundaries end at the prompt's end the concatenation is one-shot causal attention |
| `GpuBackend.FastPrefillMayRun` | mini_vllm/attention/paged_attention_gpu.py:608-630 | after the layer's write, for every request of the batch, gathering everything is the cached prefix followed by this step's own entries |
| `GpuBackend.PrefillBothWays` | mini_vllm/attention/paged_attention_gpu.py:602-656 | after the write, prefix plus current chunk and gathering everything give the same outputs, the causal attention over prefix and chunk |
| `GpuRunning.ChunkOfRunIsOneShot` | mini_vllm/model_runner/qwen_runner.py:158-190 | in any step of a run a request's chunk gets exactly its rows of one-shot attention over its own tokens, computed without a cache |
| `GpuRunning.DecodeBatch` | mini_vllm/attention/paged_attention_gpu.py:289-321 | the launch is refused exactly when some length of the batch is below one; otherwise every sequence attends to its own entries |
| `GpuRunning.GpuModelRunner.PrefillAttention` | mini_vllm/attention/paged_attention_gpu.py:577-661 | the batch-wide loop with its token offset: every prefill row attends to its own sequence up to its own position |
| `GpuRunning.GpuModelRunner.DecodeAttention` | mini_vllm/attention/paged_attention_gpu.py:540-568 | the decode half is never refused and every decode row attends to its own sequence up to its own position |
| `GpuRunning.GpuModelRunner.RunLayer` | mini_vllm/model_runner/qwen_runner.py:150-197 | a layer on the GPU kernels leaves the cache and the hidden states that the reference layer leaves |
| `GpuRunning.GpuModelRunner.ExecuteModel` | mini_vllm/model_runner/qwen_runner.py:116-207 | the whole forward pass on the GPU kernels is the forward pass PassIsReference speaks of |
| `FlatWrite.CellFormula` | mini_vllm/attention/paged_attention_gpu.py:70-86 | the flat offset as the kernel multiplies it out |
| `FlatWrite.CellInjective` | mini_vllm/attention/paged_attention_gpu.py:70-86 | no two elements of the four-dimensional cache share a cell |
| `FlatWrite.OrderDoesNotMatter` | mini_vllm/attention/paged_attention_gpu.py:93-135 | any order of the same consistent stores leaves the same memory |
| `FlatWrite.GridConsistent` | mini_vllm/attention/paged_attention_gpu.py:126-135 | with duplicate-free slots different programs never disagree about a cell and stay inside the buffer |
| `FlatWrite.ParallelWriteIsReference` | mini_vllm/attention/paged_attention_gpu.py:49-87 | however the element stores of the grid are interleaved, the buffer lays out exactly the cache the sequential reference leaves |
| `FlatWrite.WriteProgram` | mini_vllm/attention/paged_attention_gpu.py:49-87 | one program stores key and value, head by head, into the two buffers; slot -1 stores nothing |
| `FlatWrite.HasDuplicates` | mini_vllm/attention/paged_attention_gpu.py:126-135 | detects a repeated slot other than -1, both ways |
| `FlatWrite.AllProgramsAreReference` | mini_vllm/attention/paged_attention_gpu.py:150-158 | the programs run in whatever order, the buffer lays out what the sequential loop leaves |
| `FlatWrite.CacheWrite` | mini_vllm/attention/paged_attention_gpu.py:90-158 | refused without effect exactly on duplicates; otherwise both buffers lay out the cache the sequential reference leaves, for every order of the programs |
| `ModelRunning.ModelRunner.AttendSequence` | mini_vllm/attention/paged_attention_ref.py:190-237 | one gather per sequence; row q sees its first cached + q + 1 entries |
| `ModelRunning.ModelRunner.Attend` | mini_vllm/model_runner/qwen_runner.py:172-190 | prefill rows through the prefill tables, decode rows through the renumbered decode tables, each row once and in order |
| `ModelRunning.ModelRunner.RunLayer` | mini_vllm/model_runner/qwen_runner.py:150-197 | one layer on the arrays: project, write first, then attend |
| `ModelRunning.ModelRunner.ExecuteModel` | mini_vllm/model_runner/qwen_runner.py:116-207 | the layer loop on the arrays is the forward pass PassIsReference speaks of |
| `Executing.PagedExecutor.NameSamples` | mini_vllm/executor/paged_executor.py:123-134 | the order assertion never fails and the ids are those with a sample index, in order |
| `Executing.PagedExecutor.Sample` | mini_vllm/model_runner/qwen_runner.py:203-207 | token k is sampled at sample index k; without any index every row is sampled |
| `Executing.PagedExecutor.Execute` | mini_vllm/executor/paged_executor.py:106-141 | each sampling sequence is paired with the one token sampled at its own last row |
| `Delivery.ApplyModelOutput` | mini_vllm/engine/engine_core.py:180-215 | each named sequence receives exactly its own token, first tokens end the prefill, nobody else changes |
| `Delivery.AdvanceCursors` | mini_vllm/engine/engine_core.py:140-147 | every prefill of the batch moves its cursor, also one that just got its first token |
| `Delivery.DeliveryIsAdvance` | mini_vllm/engine/engine_core.py:134-147 | both loops together are the advance of the specification for every running request |
| `EngineCores.EngineCore.PrepareStep` | mini_vllm/engine/engine_core.py:76-128 | timeouts, scheduling and allocation on the objects are the prepared step of the specification, out-of-blocks included |
| `EngineCores.EngineCore.RunModel` | mini_vllm/engine/engine_core.py:130-135 | building and executing the input computes the forward pass and routes every token |
| `EngineCores.EngineCore.Deliver` | mini_vllm/engine/engine_core.py:136-147 | the running pool after delivery is the advanced pool |
| `EngineCores.EngineCore.Step` | mini_vllm/engine/engine_core.py:66-173 | one step on the objects, with prefix caching on or off, is the paged step whose runs BatchingIsInvisible speaks of |
| `LLMEngines.LLMEngine.AddRequest` | mini_vllm/engine/engine.py:87-106 | ids count up; everything served so far stays served |
| `LLMEngines.LLMEngine.CancelRequest` | mini_vllm/engine/engine.py:141-143 | true exactly for known ids; everything served so far stays served |
| `LLMEngines.LLMEngine.Step` | mini_vllm/engine/engine.py:108-128 | after a step with enough blocks every finished request has its text recorded; with prefix caching off all outputs are those of lone generation |
| `LLMEngines.StepServes` | mini_vllm/engine/engine.py:121-126 | recording the reported requests misses no finished request and overwrites none |
| `LLMEngines.LLMEngine.RunUntilDone` | mini_vllm/engine/engine.py:130-139 | the loop ends for every clock under which each waiting request can be taken or times out; it fails only for lack of blocks; otherwise every request is finished or rejected and has its text recorded, with prefix caching off that of its own one-at-a-time generation |
| `LLMEngines.CreateEngine` | mini_vllm/engine/engine.py:38-69 | a newly built engine satisfies what the loop relies on |
| `AdmissionControl.AcceptedFits` | serving/admission_control.py:77-84 | accepting a limit of at least zero leaves a pool that spans every position the request can reach |
| `AdmissionControl.NeverOutOfBlocks` | mini_vllm/cache/manager.py:203-212 | alone, with a pool that spans its peak, no step of a request runs out of blocks, with prefix caching on or off |
| `AdmissionControl.AcceptedNeverOutOfBlocks` | serving/admission_control.py:61-86 | a request with a limit of at least zero accepted on an idle engine never runs out of blocks while it is alone |
| `AdmissionControl.FinishesIffPoolSpansPeak` | serving/admission_control.py:80-84 | without prefix caching a lone running request, given enough steps, finishes if and only if the pool spans its peak |
| `AdmissionControl.NeverRunsOutIff` | serving/admission_control.py:80-84 | without prefix caching and with chunks inside the budgets, a request submitted to an idle engine never runs out of blocks if and only if the pool spans its peak |
| `AdmissionControl.NegativeLimitSlipsThrough` | serving/admission_control.py:81-84 | a concrete accepted request with a negative limit that does run out of blocks |
| `AdmissionLaws.VerdictNamesTheBreach` | serving/admission_control.py:61-86 | each code is answered if and only if its promise is the first that adding the request would break, and None if and only if it would break none |
| `AdmissionLaws.AcceptedLeavesReserve` | serving/admission_control.py:77-84 | once an accepted request has taken blocks for all it asks for, a fifth of the pool, rounded down, is still free |
| `AdmissionLaws.GatedRunsAreBounded` | serving/admission_control.py:64-75 | in every run whose additions were all accepted the queue is within its limit, every prompt in every pool has between one token and the model's length, and every event is legal |
| `FakeModels.FakeTextPrefix` | mini_vllm/model/fake_model.py:17-34 | the closed text of a shorter limit is a prefix of that of a longer one |
| `FakeModels.AccumulatedSum` | mini_vllm/executor/executor.py:246-248 | summing reduced keys and values and summing unreduced ones differ by a multiple of the vocabulary size |
| `FakeModels.DecodeIsNext` | mini_vllm/executor/executor.py:197-207 | a decode that reads the last block of its own log produces the next token of the closed text |
| `FakeCallbacks.ReleaseAnnounces` | mini_vllm/cache/allocator.py:82-88 | calling back at each last reference drops exactly the lists of the blocks the release returns |
| `FakeCallbacks.ClaimAnnounces` | mini_vllm/cache/allocator.py:66-70 | calling back at each claimed block opens exactly the lists of the blocks taken |
| `FakeCallbacks.FreeAllReturns` | mini_vllm/cache/manager.py:246-266 | the callbacks of retiring requests, one reference after the other, come to the net effect on the pool |
| `FakeCallbacks.EnsureAllTakes` | mini_vllm/cache/manager.py:183-231 | the callbacks of allocating for a batch, up to the first failure, come to the net effect on the pool |
| `FakeEngine.HeardIsNet` | mini_vllm/engine/engine.py:60-64 | the callbacks of a whole step in their order come to the net effects of its three phases |
| `FakeExecution.WriteKvLaw` | mini_vllm/executor/executor.py:219-236 | writing the next position extends the log of its own sequence and touches no other sequence's lists |
| `FakeServing.ServeLaw` | mini_vllm/executor/executor.py:181-210 | serving one sequence writes its own blocks only and hands it the next token of its closed text |
| `FakeServing.AnswerLaw` | mini_vllm/executor/executor.py:169-217 | serving a batch gives every sequence the next token of its text whatever else is in it, names the due ones in order and counts every token once |
| `FakeExecuting.FakeModelExecutor.Execute` | mini_vllm/executor/executor.py:169-217 | the loop over the sequence infos leaves dictionary, last tokens, counter and answer of the specification |
| `FakeExecuting.FakeModelExecutor.SimulateKvWrite` | mini_vllm/executor/executor.py:219-228 | for a covered position no block is allocated and two numbers are appended to the list of its block |
| `FakeExecuting.FakeModelExecutor.SimulateReadKvBias` | mini_vllm/executor/executor.py:238-250 | the sum of the block of a position, zero when the table does not reach it |
| `FakeEngine.PrepareMirrors` | mini_vllm/engine/engine_core.py:76-128 | timeouts, scheduling and allocation keep every list the one-time writes of its own sequence; new blocks start empty |
| `FakeRuns.FakeRunFaked` | mini_vllm/executor/executor.py:43-47 | in every run each list is exactly what its own sequence wrote since the block was allocated, and the dictionary has one list per block in use |
| `FakeRuns.TokensCounted` | mini_vllm/executor/executor.py:226-227 | a step adds exactly the tokens of its batch to the counter |
| `FakeRuns.FakeOutputIsClosed` | mini_vllm/executor/executor.py:169-217 | after any run a finished request with a positive limit holds the closed text of its prompt length, limit, block size and vocabulary; any other request a prefix of it |
| `FakeRuns.OnlyLengthsMatter` | mini_vllm/executor/executor.py:183-207 | two requests finished in different runs under different budgets, chunk and pool sizes hold the same output when these four agree |

## Left out

- PagedRuns.BatchingIsInvisible: asks for prefix caching off: the code does not promise the content of a prefix hit, since a hit is accepted on a reference count alone (`PrefixHonesty.StaleHit`). With it on, the objects are proved to do the same steps, and pools, budgets, reference counts, tables and recorded texts are those of the specification, but the tokens need not be those of lone generation.
- GpuRunning.GpuModelRunner.RunLayer: asks for prefix caching off, because with it on two sequences may write one slot, which the kernel refuses; keys and values of a slot are one entry of one array here, written by the reference loop that CacheWrite is proved to come to.
- AdmissionControl.NeverRunsOutIff: its converse half asks for prefix caching off, since repeated blocks of one prompt may share memory otherwise, and for chunks inside the budgets, since otherwise the request may never be scheduled at all; NeverOutOfBlocks needs neither.
- Termination.DrainsIffAllLeave: its converse half asks for prefix caching off, since with it on what is cached may change while a request waits; DrainsAfterDeadline, the other half, holds with it on as well.
- EngineSpec.AddInv: asks for a non-empty prompt, which the engine does not check; `serving/admission_control.py:65-67` does, and GatedRunsAreBounded proves that every run behind it is legal.
- LLMEngines.LLMEngine.AddRequest: the same.
- RequestQueues.RequestQueue.Add: sequences and their groups are values stored in the pools, one sequence per group as the scheduler creates it, so aliasing between a group, its sequence and the pools is not captured.
- Scheduling.Scheduler.Schedule: the reporting fields of the result (cached tokens, matched blocks, uncached prefill tokens, debug reason) are not modelled.
- PagedAttention.DecodeHead: works over the reals with an exponential of which only positivity and multiplicativity are used; floating-point rounding and the type conversions of the kernel are not modelled.
- PagedAttention.FastPrefill: the gather kernel behind it is represented by the block-wise gather, which reads the same positions.
- FlatWrite.CacheWrite: shape, type and device assertions of the wrapper are preconditions here.
- PagedCache.WriteToPagedCache: the same for the validation of tensor shapes.
- BlockManagement.BlockManager.AllocateForSeq: asks for an id without a table; the engine's request ids are unique, so an existing table is never overwritten.
- FakeExecuting.FakeModelExecutor.SimulateKvWrite: asks for a position that the table covers, which the engine ensures before it calls the executor, so `ensure_block_by_ids` never allocates; its allocating path and the mode without a block manager are not modelled.
- FakeRuns.FakeOutputIsClosed: asks for prefix caching off, since with it on a block's list may hold the writes of several sequences. The allocator objects carry no callbacks; the callbacks of a step are the functions FreeAllHeard and EnsureAllHeard.
- The prefix hash: Python's built-in hash of a token tuple is an uninterpreted function, so nothing depends on its collisions.
- The legacy `prefill` and `decode` methods, `QwenExecutor`, tokenizers, weight loading, RoPE, normalisation and MLP, which are inside the uninterpreted model functions.
- `_shared_prefix_blocks`, trace records, metrics, profiler and printing: reporting only.
- `compute_num_gpu_blocks`: a memory query and one product.
- The HTTP and streaming layer, rate limiter and stream manager.

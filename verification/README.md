# KVTide: paged KV memory, replication and work lifecycle

KVTide's engine keeps the authoritative metadata of the paged K/V memory on every executor: block tables, reference
counts, a prefix cache indexed by hash, and transfers of blocks between executors. The executors hold the pages. This
project models both sides, and what connects them, and proves that they agree.

## The model

* **Block metadata.** `BlockManager.Manager` is the Go block manager as a class: an array of blocks with an intrusive
  doubly linked free list, the request tables, the cache index and the pending allocations. Each method is proved equal
  to a function on a value (`BlockSpec.State`). `BlockRegistry.Registry` is the registry over the managers of all
  executors, whose values it keeps as ghost state (`Managers`), and `Coordination.Coordinator` the coordinator.
* **The engine.** `Engine` and `EngineRuns` are the registry's operations as steps, with who holds which block as ghost
  state; `Undo`, `Offers`, `Resubmission` and `TableRuns` add failed submissions and block tables. `Publishing`, `Titles`
  and `PrefixReuse` say what a commit makes available and that the next request finds it, without naming how.
* **The executors.** `PagedCache.PagedKVCache` (three arrays over layer, block and offset), `Batch.BatchBuilder`,
  `Runner.Runner`, `KVTransfer.KVTransferRuntime` and `ExecutorService.ExecuteService` are the executor's classes;
  `WireFormat` is the byte layout of a payload, and `KVPush` a push from end to end.
* **The system.** `Replication` and `ReplicationRuns` put the engine next to the pages of every executor. Pushes are
  messages that may be late, duplicated or lost, executors fail and restart, and prefill and decode go on meanwhile.
  A position's K/V is a term built from the terms before it and its token, so equal terms mean equal token prefixes.
  `LayerView` and `ShownPages` prove that the runner and the transfers, layer by layer, do what the system model does.
* **Work.** `Lifecycle`, `LifeRuns`, `Queues`, `Scheduler`, `WorkItems`, `Prefixes` and `EventHandling` are requests, their
  work items, the scheduler's queues and budgets, and what a result does to all of them. `Picks` and `Rounds` are one
  scheduling round as values: the order of its offers and where it ends. `ServingState`, `ServingRuns` and
  `RequestEffects` put requests and queues next to the engine: their runs are runs of the engine. `Results` and
  `HandledActs` close the circle: the runner's result of a work item is the report of those runs, and handling it is their step.

## How the proofs hide what they do not need

Some invariants are long conjunctions of quantifiers. Where a proof only passes one on, it uses a predicate that holds
the invariant behind a recursive call, such as `NodeSteps.Sound` for `BlockInv.Inv`: with a depth that is not a
literal, the verifier does not unfold it. A lemma proves the two equivalent (`NodeSteps.SoundIsInv`) and is called where
the contents matter. The predicates whose names end in `Behind` exist for this alone.

## Premises

These are what the code relies on. They appear as `Enabled`, `EnabledAt`, `MayAllocate`, `Allowed`, `Possible`,
`CleanChain`, `CollisionFree` or a `requires`; the run theorems are about runs that keep them.

* MatchPrefix is called for a request that is not live.
* AllocateBlocks runs after the match and before FreeRequest, with at most one pending allocation for a request, and
  never asks for fewer tokens than the request has matched or committed. `ServingRuns.ServingIsEngineRun` proves this and
  the premise before it of every run of the scheduler and the request state machine whose request and work ids are new,
  except for the items that the first two findings are about.
* A work is committed, rolled back or freed only while it is not at an executor, and a batch takes effect at the
  executor before its result reaches the engine.
* CanSchedule gives the same answer throughout a scheduling round.
* An executor reports `computed_tokens = num_new_tokens` for a prefill and one generated token for a sampled item, as the
  Transformers runner does (`Results.ResultIsReport`), and a PrefillFinished event is not done (see Findings).
* An event that carries an error is of type RequestFailed, as internal/executor/executor.go:149-152 and
  internal/executor/manager.go:161-187 make it.
* SHA-256 (FIPS 180-4, section 6.2) is an arbitrary function to 32 bytes; no two different inputs that occur in the
  chains in question have the same digest.
* Counters do not reach the limits of uint32 and int32.

## Findings

* **A done prefill event leaves work behind.** A PrefillFinished event that is done (an end-of-text token as the first
  token) still queues a decode step, and the request's blocks are then freed (`LifeRuns.DoneLeavesWork`,
  `LifeRuns.DoneAfterPrefill`, `EventHandling.EventHandler.HandleEvent`).
* **Allocating for a request that is gone does not count references.** AllocateBlocks then takes the matched blocks of
  the work item as they are. Conservation survives exactly when the item carries no matched blocks, whether the
  allocation is then granted or refused (`Prefixes.AllocationConservesIff`). `Uncounted.AllocatedAfterFree` is a run to a
  state in which a granted allocation loses a count, and `Uncounted.RefusedAfterFree` one for a refused allocation. Of
  what the scheduler offers, exactly the items that a done prefill event has left behind are of this kind
  (`ServingRuns.OffersMayAllocate`, `ServingRuns.DonePrefillOrphans`). A Cancel between the choice of a work item and its allocation leads to it as well.
* **MaxTokens below two still yields two tokens** (`LifeRuns.TokensAtLengthLimit`): the token of the prefill is followed by
  a decode step whatever MaxTokens says, and MaxTokens comes from the request as it is (internal/model/transfer.go:27).
  `LifeRuns.TwoTokensForOne` is the life of a request for one token that ends with two.
* The engine never calls ReleaseBlocks. A freed block stays physically valid until it is allocated and executed again,
  and a transfer to it is refused until then; safety does not suffer.
* A Prepare that fails for lack of destination blocks moves unreferenced source blocks to the end of the free queue
  (`EngineRuns.FailedPrepareRestores` is about everything else).
* The remainder that splitPrefillChunk computes is never used; the rest of a prompt is rebuilt from ComputedTokens.

## Model

| member | source | states |
|---|---|---|
| FreeList.WalkVisitsFreeQueue | internal/block/queue.go:3-68 | following NextFree from the head visits the free sequence in order in freeCount steps, PrevFree from the tail visits it backwards, and the walk ends at both ends |
| FreeList.LinkedAppend | internal/block/queue.go:53-68 | appending at the tail keeps the links of the whole list and appends to the sequence |
| FreeList.UnlinkEffect | internal/block/block.go:419-440 | unlinking a block from the middle keeps the list linked and removes exactly that block |
| BlockManager.Manager.constructor | internal/block/block.go:38-80 | a new manager is valid and has every block free, in order, and nothing cached or pending |
| BlockManager.Manager.AppendFreeBlock | internal/block/queue.go:53-68 | the block becomes the last free block with no references; all other metadata stays |
| BlockManager.Manager.RemoveFreeBlock | internal/block/block.go:419-440 | exactly this block leaves the free sequence, wherever it is; no metadata changes |
| BlockManager.Manager.PushFree | internal/block/queue.go:3-14 | one reference less; the block is queued exactly when that was the last one; a block without references is left alone |
| BlockManager.Manager.PopFree | internal/block/queue.go:16-51 | takes the oldest free block, evicts it from the cache index, and leaves it blank with one reference; fails exactly when none is free |
| BlockManager.Manager.AllocateIds | internal/block/block.go:361-380 | returns the oldest n free blocks, or changes nothing when there are fewer; the branch that would undo a partial allocation is unreachable |
| BlockManager.Manager.BlockHashes | internal/block/block.go:382-395 | the loop computes the hash chain of all full blocks |
| BlockManager.Manager.MatchableBlockHashes | internal/block/block.go:397-407 | the hashes that may be matched leave at least the last prompt token to be computed |
| Hashing.MaxMatchedIs | internal/block/block.go:397-407 | as many blocks may be matched as leave a token to compute, and no fewer |
| BlockManager.Manager.Touch | internal/block/block.go:409-417 | each block gains a reference and leaves the free queue if it was there |
| BlockManager.Manager.MatchPrefix | internal/block/block.go:82-115 | references and returns the longest run of indexed hashes and makes it the request's table |
| BlockManager.Manager.ProbePrefix | internal/block/block.go:117-140 | reads only; reports the longest run of hashes whose blocks are coherent and full |
| BlockManager.Manager.AllocateBlocks | internal/block/block.go:142-186 | reserves exactly the missing blocks and records the allocation, or fails when too few are free; then at most the matched table has been adopted (how many that is: the two rows that follow) |
| Publishing.GrantedIff | internal/block/block.go:154-165 | an allocation is granted exactly when the tokens fit the blocks the request has and the free ones |
| Publishing.AllocationIsShortest | internal/block/block.go:154-185 | a granted allocation takes the oldest free blocks, none when the table suffices, and otherwise so many that one less would not hold the tokens |
| BlockManager.Manager.Commit | internal/block/block.go:188-235 | sets every block's token count, then publishes full prefill blocks whose hash has no block yet; an unknown work changes nothing (what that makes of index and counts: the three rows that follow) |
| Publishing.CommitPublishes | internal/block/block.go:215-232 | every entry of a prefill that the committed tokens fill has its hash in the index afterwards |
| Publishing.CommitIndex | internal/block/block.go:215-232 | a hash is in the index after a commit exactly when it was before or a completed entry has it; no hash moves |
| Publishing.CommitCounts | internal/block/block.go:198-213 | an unpublished block of the table holds exactly those of its positions that are among the committed tokens |
| PrefixReuse.RunTraces | internal/block/block.go:188-235 | in every run what is published of a request's table is published under the hashes of its own prompt |
| PrefixReuse.CommittedPromptIsFound | internal/block/block.go:82-115 | in every run, directly after the report that ends a request's prefill, a match of the same prompt leaves at most one block of tokens to compute, and never none |
| BlockManager.Manager.Rollback | internal/block/block.go:237-261 | the allocation's blocks leave the table and return to the queue; an unknown work changes nothing |
| BlockManager.Manager.FreeRequest | internal/block/block.go:263-278 | the request's table and pending works go, and each of its blocks loses one reference |
| BlockManager.Manager.PinCachedBlocks | internal/block/block.go:280-300 | pins all blocks, or none when some hash is not coherently cached |
| BlockManager.Manager.ReserveTransferBlocks | internal/block/block.go:302-309 | reserves the oldest free blocks, or changes nothing |
| BlockManager.Manager.CommitImportedBlocks | internal/block/block.go:311-343 | succeeds exactly on reserved blocks, one for each hash; an existing copy wins, and every reservation ends |
| BlockManager.Manager.ReleaseTransferBlocks | internal/block/block.go:345-352 | each block loses one reference |
| Publishing.ReleasedInOrder | internal/block/queue.go:3-14 | released blocks go to the end of the free queue in their own order; whatever was free before is taken first |
| Hashing.EncodeTokensInjective | internal/block/block.go:442-452 | the four-byte big-endian encoding of tokens loses nothing |
| Hashing.SaltIsNoHash | internal/model/transfer.go:13-17 | a salt is never the hexadecimal name of a hash |
| Hashing.NextLink | internal/block/block.go:442-452 | hashing a block after the previous name gives the next hash of the chain |
| Hashing.ChainIdentifiesPrefix | internal/block/block.go:382-395 | equal hashes name the same block index, the same salt and the same whole token prefix |
| RequestInv.MatchInv | internal/block/block.go:82-115 | MatchPrefix keeps the invariant: counts are holders, index and metadata are inverse, uncommitted blocks are exclusive |
| RequestInv.AllocateInv | internal/block/block.go:142-186 | AllocateBlocks keeps the invariant, with or without enough free blocks |
| CommitInv.CommitKeepsInv | internal/block/block.go:188-235 | Commit keeps the invariant, also when another request has published the same hash meanwhile |
| ReleaseInv.RollbackInv | internal/block/block.go:237-261 | Rollback keeps the invariant |
| ReleaseInv.FreeInv | internal/block/block.go:263-278 | FreeRequest keeps the invariant |
| TransferInv.PinInv | internal/block/block.go:280-300 | pinning keeps the invariant |
| TransferInv.ReserveInv | internal/block/block.go:302-309 | reserving keeps the invariant |
| TransferInv.ImportInv | internal/block/block.go:311-343 | committing an import keeps the invariant |
| EngineRuns.ApplyInv | internal/block/registry.go:99-225 | every operation of the registry keeps the invariant of all executors, plans, pins and reservations |
| EngineRuns.RunConservesReferences | internal/block/queue.go:3-51 | after every run a block's count is its occurrences in tables, pins and reservations; it is free exactly when that is zero; free and referenced blocks are the pool |
| EngineRuns.NothingLeaks | internal/block/block.go:263-278 | once all requests and transfers have ended every block is free |
| EngineRuns.LateOperationsDoNothing | internal/block/block.go:188-278 | a late Commit or Rollback and a repeated FreeRequest change nothing |
| EngineRuns.IndexIsInverse | internal/block/block.go:188-235 | in every reachable state index[h] = b exactly when b is cached with hash h, and then b is full |
| EngineRuns.PinsHold | internal/block/registry.go:142-194 | through any run until its commit or rollback a transfer's hashes stay at their planned source blocks, and its reserved blocks stay distinct, unpublished and in no table |
| EngineRuns.CommitPublishesAll | internal/block/registry.go:196-211 | CommitTransfer of a pending plan never fails, moves no published hash, and leaves every hash of the plan transferable |
| EngineRuns.FailedPrepareRestores | internal/block/registry.go:174-182 | a Prepare that fails at the destination restores counts, tables, index and the number of free blocks everywhere |
| EngineRuns.RolledBackPrepareRestores | internal/block/registry.go:213-225 | Prepare then Rollback restores counts, tables and the number of free blocks and publishes nothing |
| EngineRuns.RolledBackPrepareEvicts | internal/block/queue.go:16-51 | Prepare then Rollback loses exactly the hashes of the destination blocks that were reserved; every other index is as before |
| TableRuns.ChainHasNoRepeats | internal/block/block.go:397-407 | the hashes a prompt may match are all different |
| TableRuns.TablesHaveNoRepeats | internal/block/block.go:82-115 | in every run no request's table holds a block twice |
| BlockRegistry.NewRegistry | internal/block/registry.go:34-77 | succeeds exactly when every executor reports a usable runtime under its own id, and then starts with all blocks free |
| BlockRegistry.Registry.ProbePrefixes | internal/block/registry.go:91-97 | one candidate for every executor, in order, each its own transferable run |
| BlockRegistry.Registry.MatchPrefix | internal/block/registry.go:99-105 | the match at the request's executor only; an unknown executor is an error without effect |
| BlockRegistry.Registry.AllocateBlocks | internal/block/registry.go:107-113 | the allocation at the work's executor only; whether it succeeded |
| BlockRegistry.Registry.Commit | internal/block/registry.go:115-122 | the commit at this executor only |
| BlockRegistry.Registry.Rollback | internal/block/registry.go:124-131 | the rollback at this executor only |
| BlockRegistry.Registry.FreeRequest | internal/block/registry.go:133-140 | the release at this executor only |
| BlockRegistry.Registry.PrepareTransfer | internal/block/registry.go:142-194 | begins exactly when the checks hold, all hashes can be pinned and enough blocks are free; what each failure leaves behind |
| BlockRegistry.Registry.CommitTransfer | internal/block/registry.go:196-211 | imports and unpins, or changes nothing when the plan is unknown or its blocks are not reserved |
| BlockRegistry.Registry.RollbackTransfer | internal/block/registry.go:213-225 | gives both sides back and forgets the plan; an unknown plan changes nothing |
| Managers.PinAndReserve | internal/block/registry.go:168-194 | pins at one manager and reserves at another, or gives the pins back; every other manager keeps its metadata |
| BlockRegistry.RequestStepsRefine | internal/block/registry.go:99-140 | the registry's operations on one executor are the engine's steps |
| BlockRegistry.PrepareRefines | internal/block/registry.go:142-194 | PrepareTransfer is the engine's step, whether or not the reservation succeeds |
| BlockRegistry.CommitTransferRefines | internal/block/registry.go:196-211 | in a reachable state CommitTransfer of a pending plan succeeds and is the engine's step |
| BlockRegistry.RollbackTransferRefines | internal/block/registry.go:213-225 | RollbackTransfer of a pending plan is the engine's step |
| Coordination.Coordinator.Begin | internal/placement/coordinator.go:30-75 | prepares exactly when both executors are known, compatible and reachable and the registry can; the order carries the plan and both epochs; what every outcome leaves in the block metadata |
| Coordination.FleetError | internal/placement/coordinator.go:30-54 | nothing is wrong exactly when both executors report under their own ids with the same nonempty compatibility and the destination has an endpoint |
| Coordination.ResponseError | internal/placement/coordinator.go:111-127 | only a response that names this transfer, both executors and both epochs is a confirmation |
| Coordination.Coordinator.Finish | internal/placement/coordinator.go:76-94 | commits exactly on a confirmation of a plan that can be imported, rolls back otherwise, and reports a failed rollback; the transfer is never left pending |
| Coordination.FinishIsAStep | internal/placement/coordinator.go:76-94 | in a reachable state Finish of a pending transfer is the engine's commit step or its rollback step |
| HostRequests.MatchKeepsHost | internal/block/block.go:82-115 | a match gives a request pages that hold its own leading tokens under its own salt |
| HostRequests.CommitKeepsHost | internal/block/block.go:188-235 | Commit publishes only pages that hold what their hash stands for |
| HostPages.ExecuteKeepsHost | executor/runner/transformers.py:136-173 | a batch never reads an unwritten slot, touches only its own works' slots, and leaves every work's positions in place |
| HostPages.FailedExecuteKeepsHost | executor/runner/transformers.py:136-173 | a batch that fails anywhere leaves everything published and committed as it was |
| ReplicationRuns.NextInv | internal/placement/coordinator.go:55-87 | every event, including late, duplicated and lost pushes and crashes, keeps metadata and pages in agreement |
| ReplicationRuns.BatchSucceeds | executor/runner/transformers.py:136-173 | in every reachable state a batch at a healthy executor can be executed |
| ReplicationRuns.PublishedIsHeld | executor/executor_service.py:158-212 | after any run every hash published for a healthy executor names a page that is fully written with exactly the K/V of that block of the prompt |
| ReplicationRuns.IndexedIsHeld | executor/executor_service.py:158-212 | after any run every entry of a healthy executor's index is the hash of a full block of a prompt that was seen, and its page holds exactly that block's K/V |
| ReplicationRuns.GatherReturnsOwnTokens | executor/runtime/kv_cache.py:100-169 | every live request reads back exactly the K/V of its own committed tokens, in order |
| ReplicationRuns.WritesArePrivate | executor/runtime/batch.py:62-89 | a slot that a work writes lies in an unpublished block with one holder, and no other work writes to that block |
| CacheSpec.SlotsApart | executor/runtime/batch.py:85-89 | different positions have different slots when the written blocks occur once in the table |
| CacheSpec.PlacesWrite | executor/runtime/kv_cache.py:82-98 | writing through the slot mapping puts each position where the table says |
| CacheSpec.GatherIsStored | executor/runtime/kv_cache.py:49-169 | after any run of chunks through any tables, gather returns exactly what was stored, in order |
| CacheSpec.CopyKeepsPositions | executor/runtime/kv_cache.py:186-270 | export then import into other empty blocks copies positions for every context length; all other blocks stay |
| PagedCache.PagedKVCache.Write | executor/runtime/kv_cache.py:49-98 | succeeds exactly on a valid layer, existing distinct slots and fitting shapes; writes those slots of that layer and nothing else |
| PagedCache.PagedKVCache.Gather | executor/runtime/kv_cache.py:100-169 | returns the first n positions of the table, or the first failing check |
| PagedCache.PagedKVCache.Release | executor/runtime/kv_cache.py:171-184 | empties exactly the named blocks in every layer, or changes nothing |
| PagedCache.PagedKVCache.ExportBlocks | executor/runtime/kv_cache.py:186-216 | succeeds exactly on distinct, existing, fully written blocks and returns their contents for every layer |
| PagedCache.PagedKVCache.ImportBlocks | executor/runtime/kv_cache.py:218-270 | succeeds exactly on distinct, existing, empty blocks and a fitting payload; wherever a device fault stops its copies, no other block changes |
| KVTransfer.KVTransferRuntime.ValidateDestination | executor/runtime/kv_transfer.py:119-126 | accepts exactly distinct, existing blocks that are empty in every layer |
| KVTransfer.KVTransferRuntime.ExportBlocks | executor/runtime/kv_transfer.py:128-130 | succeeds exactly on distinct, existing, fully written blocks; the bytes have the announced size and decode to exactly these blocks |
| KVTransfer.KVTransferRuntime.ImportBlocks | executor/runtime/kv_transfer.py:132-159 | imports exactly when the blocks are acceptable, the sizes fit and the device works; wherever it fails the cache reads as before if the clean-up works, and no other block changes in any case |
| KVTransfer.KVTransferRuntime.ClearAll | executor/runtime/kv_transfer.py:161-164 | a clean-up that works restores the cache as it was before an import into empty blocks, whatever that import left; one that stops midway changes no other block |
| WireFormat.DecodeEncode | executor/runtime/kv_transfer.py:27-38 | the tensor read back from its bytes is the tensor |
| WireFormat.EncodeDecode | executor/runtime/kv_transfer.py:140-147 | every payload of the right size is the encoding of the tensor read from it |
| WireFormat.PartPosition | executor/runtime/kv_transfer.py:140-147 | the bytes are row by row: a head's vector starts after all earlier layers, heads, blocks and offsets |
| WireFormat.WireSize | executor/runtime/kv_transfer.py:105-117 | the payload's size is the product of layers, heads, blocks, block size and bytes of a head's vector |
| ExecutorService.ExecuteService.PushKV | executor/executor_service.py:158-212 | exactly three outcomes wherever the device fails: confirmed with the payload in place, refused with the cache as before, or latched, exactly when the last clean-up of a failed import failed too, with no other block changed; a confirmed push has equal compatibility, this executor's id and epoch, one well-formed hash for each block and a payload within the limit |
| ExecutorService.ExecuteService.ExecuteBatch | executor/executor_service.py:37-48 | under a wrong epoch or after the latch it fails and changes nothing; otherwise it does what the runner does |
| ExecutorService.ExecuteService.Snapshot | executor/executor_service.py:92-122 | which triggers are accepted, by the fields of the request, and that the push carries exactly the source blocks; nothing after the latch |
| ExecutorService.ExecuteService.Confirmed | executor/executor_service.py:128-143 | only the destination's own confirmation is passed on |
| KVPush.TriggerKVPush | executor/executor_service.py:92-143 | end to end, when the call arrives and is answered: succeeds exactly when the source can send and a healthy destination with that id, epoch, compatibility and limit has the blocks empty; then each destination block holds in every layer what its source block held |
| KVPush.EngineHashIsBlockHash | executor/executor_service.py:318-324 | what the engine computes as a block's hash is what the executors accept as one |
| ExecutorService.ExecuteService.ReleaseBlocks | executor/executor_service.py:83-90 | empties exactly the named blocks when healthy and of this epoch, or changes nothing |
| Batch.BatchBuilder.Build | executor/runtime/batch.py:38-119 | fails with the first item's first error, or returns flat lists, tables and samples that describe the items |
| Batch.SlicesAreOwn | executor/runner/transformers.py:156-162 | the slices of item i are its own tokens, positions and slots |
| Runner.Runner.Past | executor/adapter/dynamic_cache.py:16-43 | every layer's past, exactly when every layer can give it |
| Runner.Runner.WriteNew | executor/adapter/dynamic_cache.py:45-75 | when it succeeds, and which layers have been written when it does not |
| Runner.Runner.ExecuteOne | executor/runner/transformers.py:175-247 | succeeds exactly when the past is written and the slots take the result; writes only the item's slots |
| Runner.Runner.Execute | executor/runner/transformers.py:136-173 | the new blocks are emptied first, each item runs on what the items before it left, and it stops at the first item that cannot run |
| LayerView.WriteInView | executor/adapter/dynamic_cache.py:57-75 | writing a chunk layer by layer fills its slots across all layers |
| LayerView.GatherInView | executor/adapter/dynamic_cache.py:26-39 | what the slots give across layers is what each layer gives |
| LayerView.ImportInView | executor/runtime/kv_cache.py:266-270 | importing in every layer imports the pages slot by slot |
| LayerView.ReleaseInView | executor/runtime/kv_cache.py:171-184 | releasing in every layer empties the slots |
| ShownPages.ItemShown | executor/runner/transformers.py:175-247 | an item that the system model executes leaves the cache showing the model's next pages |
| ShownPages.BatchShown | executor/runner/transformers.py:136-173 | for works in flight the runner never stops at an item, and after the batch the cache shows the pages the system model goes to |
| ShownPages.ExecutionIsItem | internal/executor/transfer.go:13-46 | what BatchToExecute sends for a work is the item the system model has in flight |
| ShownPages.SlotsOfBatchDiffer | executor/runtime/batch.py:85-89 | no two items of a batch write the same slot, nor one item twice |
| ShownPages.SlotsOfBatchArePrivate | executor/runtime/batch.py:85-89 | a slot of an item in flight lies in an unpublished block with one holder |
| ShownPages.VacancyShown | executor/runtime/kv_transfer.py:119-126 | the executor finds a block empty in every layer exactly when its page is empty |
| ShownPages.SnapshotCarries | executor/executor_service.py:92-117 | the wire of a snapshot carries the K/V of the source's pages |
| ShownPages.LandedShows | executor/executor_service.py:158-212 | after push_kv has landed such a wire the cache shows the pages with that K/V imported |
| ShownPages.CopyShown | executor/runtime/kv_transfer.py:128-159 | export at one executor and import at another is the copy of pages that the system model makes |
| WorkItems.SplitTiles | internal/scheduler/budget.go:38-59 | the chunk and the rest continue each other and together are the work |
| WorkItems.BatchToExecute | internal/executor/transfer.go:8-50 | one item for each work, with its tokens, position, table and new blocks |
| WorkItems.SampleMeansToken | internal/executor/executor.go:149-164 | the executor samples exactly when the engine will read a token out of the event |
| Results.ResultIsReport | internal/executor/executor.go:99-135 | the event made of the runner's result of a work item is the report of one move of the request's life: the model's token when the work samples, done exactly when that token ends the text |
| WorkItems.ExecutionFitsAllocation | internal/executor/transfer.go:13-46 | an item asks for positions up to exactly what its allocation has room for, and passes the batch checks |
| Lifecycle.RequestStateManager.Create | internal/state/state_machine.go:55-110 | which requests are accepted; the stored request and its first work; an error leaves nothing behind |
| Lifecycle.RequestStateManager.OnEvent | internal/state/state_machine.go:168-294 | the request after each kind of event, and the work that follows; a late event changes nothing |
| Lifecycle.RequestStateManager.CanSchedule | internal/state/state_machine.go:130-166 | in a ready or running phase and not past the deadline; an expired request is dropped and its blocks released |
| Lifecycle.RequestStateManager.Close | internal/state/state_machine.go:296-353 | Cancel, Fail and Finish forget the request and release its blocks once |
| LifeRuns.ChunksTilePrompt | internal/scheduler/budget.go:115-142 | however a prompt is split or requeued, executed chunks tile the uncached part without gap or overlap; exactly the last one samples, and its event is the only PrefillFinished |
| LifeRuns.ExecutionsBounded | internal/state/state_machine.go:168-270 | a request runs at most its uncached prompt tokens plus max(1, MaxTokens - 1) executions |
| LifeRuns.RunsComeToAnEnd | internal/state/state_machine.go:168-270 | each handled result brings the end nearer, and decoding never goes back to prefill |
| LifeRuns.TextIsPromptAndSamples | internal/state/state_machine.go:205-241 | after every run a request's text is its prompt and then, in order, the tokens that were sampled for it |
| LifeRuns.UsageIsAccurate | internal/state/state_machine.go:179-240 | after every run the usage counts what has been computed of the prompt and what has been generated |
| LifeRuns.EndsWithReason | internal/state/state_machine.go:236-270 | a result is followed by a work item exactly while the request can be scheduled; a request that ends has the reported reason, or its length |
| LifeRuns.TokensAtLengthLimit | internal/state/state_machine.go:236-250 | a request stopped by length has max(2, MaxTokens) tokens: MaxTokens is exceeded exactly when it is below two |
| LifeRuns.TwoTokensForOne | internal/state/state_machine.go:236-250 | a life with MaxTokens 1 that ends with two tokens |
| LifeRuns.DoneLeavesWork | internal/state/state_machine.go:205-235 | a done event leaves a work item behind exactly when it is a prefill event |
| LifeRuns.DoneAfterPrefill | internal/state/state_machine.go:205-235 | a concrete request and done event that leave a decode step queued |
| EventHandling.EventHandler.HandleEvent | internal/scheduler/scheduler.go:187-233 | commit or rollback of the work, the request's next state, its next work as the last of its queue or, exactly when that queue is full, the request failed, and its blocks freed when it is done, even though a next work may be queued (what that leaves: the five rows that follow) |
| HandledActs.HandledIsReport | internal/scheduler/scheduler.go:187-233 | in every reachable state, handling the result of a submitted chunk leaves the block metadata, the request and its next work as the run's step Report does; with a full queue the request's blocks are released |
| HandledActs.HandledIsFail | internal/scheduler/scheduler.go:192-211 | handling a failure, or a result from another executor, is the run's step Fail |
| HandledActs.SuccessIsProgress | internal/scheduler/scheduler.go:203-227 | afterwards the chunk's end is the request's progress, or, when the result is done, reaches MaxTokens or cannot be followed up, its table is gone |
| HandledActs.SuccessPublishes | internal/scheduler/scheduler.go:203-205 | after a prefill chunk every full block of the prompt up to the chunk's end is in the index |
| HandledActs.FailurePublishesNothing | internal/scheduler/scheduler.go:192-211 | after a failure the index is as before, nothing of the request is pending, and it keeps the blocks it had before the chunk, or none when the event is done |
| Prefixes.ProbeAgreesWithMatch | internal/block/block.go:117-140 | in every reachable state the probe reports exactly the run that a match would take |
| Prefixes.PinnableIff | internal/block/block.go:280-300 | in every reachable state the hashes that can be pinned are those that are published |
| Prefixes.MatchLeavesWork | internal/block/block.go:397-407 | the cached tokens are whole blocks and fewer than the tokens of a nonempty prompt |
| Prefixes.CreateStartsWithPrefill | internal/state/state_machine.go:104-108 | the branch that goes straight to decoding is dead for nonempty prompts |
| Prefixes.QueuedItemContinues | internal/state/state_machine.go:181-204 | a queued item starts exactly where the last commit ended |
| Prefixes.ChunkContinues | internal/scheduler/budget.go:115-142 | so does the chunk the scheduler takes of it |
| Prefixes.AllocationConservesIff | internal/block/block.go:142-186 | allocating for a request that is gone, granted or refused, keeps counts equal to holders exactly when the item has no matched blocks |
| Uncounted.AllocatedAfterFree | internal/scheduler/scheduler.go:223-227 | a run to a state in which such an allocation loses the count of a matched block |
| Uncounted.RefusedAfterFree | internal/block/block.go:147-165 | a run to a state in which a refused allocation does |
| ServingRuns.ServingIsEngineRun | internal/scheduler/scheduler.go:187-286 | every run of requests, offers, reports, failed submissions, ends and transfers is a run of the engine's steps, each enabled when it is taken, unless it offers an item that a done prefill event left behind |
| ServingRuns.OffersMayAllocate | internal/scheduler/budget.go:61-142 | in every run, what the scheduler offers of a queued item is what AllocateBlocks counts on exactly when the item is not such a leftover; the request's progress is what it has committed |
| ServingRuns.DonePrefillOrphans | internal/scheduler/scheduler.go:213-227 | every done report of a prefill whose request had matched blocks leaves such an item in the queue |
| ServingRuns.BatchMayAllocate | internal/scheduler/scheduler.go:279-286 | so is every work of a batch of one executor |
| Queues.PrefillQueue.Pop | internal/scheduler/prefill_queue.go:58-69 | the first work that can be scheduled; those before it that cannot are dropped |
| Queues.PrefillQueue.Peek | internal/scheduler/prefill_queue.go:71-83 | the work that Pop would return, left in the queue |
| Queues.PrefillQueue.Enqueue | internal/scheduler/prefill_queue.go:41-50 | appends, or refuses when the queue is full |
| Queues.DecodeQueue.Dequeue | internal/scheduler/decode_queue.go:60-78 | the schedulable ones among the first works, in order |
| Queues.CountFinds | internal/scheduler/prefill_queue.go:41-83 | the count by which conservation is stated is zero exactly when the work is not in the list |
| Scheduler.Scheduler.Enqueue | internal/scheduler/scheduler.go:107-148 | the work is the last of the queue of its kind, unless exactly that queue is full |
| Scheduler.Scheduler.PickDecode | internal/scheduler/budget.go:61-82 | blocks are asked for exactly the schedulable works among the first min(seqs, tokens) of the queue, in order, and those refused are at its end; one token each within the budget; without decode work the caps on prefills are lifted; nothing is lost |
| Scheduler.Scheduler.PickSmallPrefill | internal/scheduler/budget.go:84-113 | whole short prefills, offered in order within the budget until none is left, the next one costs too much, a budget is used up or each has had its turn; nothing is lost |
| Scheduler.Scheduler.PickLargePrefill | internal/scheduler/budget.go:115-142 | long prefills, cut to the tokens left, offered in order within the budget until none is left, a budget is used up or each has had its turn; nothing is lost |
| Scheduler.Scheduler.PickBatch | internal/scheduler/scheduler.go:279-286 | within all limits and caps; every schedulable work ends in exactly one of queue, batch and failed; each queue is tried in order to its end; a first offer that fits the budget is made and, when it can be granted, heads the batch; the metadata is that of the works asked for, and the batch is what was granted |
| Picks.CostIsNewTokens | internal/scheduler/budget.go:24-36 | the cost that the token limit bounds is the number of tokens the batch computes |
| Scheduler.Scheduler.PatchExecute | internal/scheduler/scheduler.go:241-277 | a batch that is not accepted is queued again, and the metadata is undone: counts, tables and free blocks are as before |
| Undo.FailedSubmitUndoes | internal/scheduler/scheduler.go:261-273 | rolling a batch's allocations back in order restores counts, tables and the number of free blocks and publishes nothing |
| Resubmission.TriedIsAllocated | internal/scheduler/budget.go:61-142 | the state after all offers of a round is that of the granted works allocated one after the other |
| Resubmission.FailedSubmitRestores | internal/scheduler/scheduler.go:261-273 | the loop of rollbacks restores what was there before the batch was picked |

## Left out

* Counters are unbounded: wrap-around of uint32 token counts, block ids and epochs is not modelled.
* A probe, a match and every other handler is one atomic step. Channel blocking, closing races and the order in which
  goroutines take locks are not modelled; Replicate is two atomic steps around the call to the executors.
* The scheduler class holds the value of its executor's block manager (`BlockSpec.State`) in place of the registry, whose
  methods are proved to compute these values.
* Connect and HTTP clients and servers, protobuf, configuration, metrics, logging, timing and UUIDs.
* Tensor dtypes and devices: a layer's key or value of one token is an uninterpreted value, and how one head's vector of
  it becomes bytes is a parameter that loses nothing in either direction. The checks of dtype, device and host byte
  order are not modelled.
* Compatibility fingerprints and endpoint parsing: an opaque string and an opaque flag.
* The model's forward pass is a total function. An exception inside it is a failed batch of the system model, not of
  `Runner.Runner`.
* A slot that only some layers hold, or whose layers come from different executions, is Partial in the system model and is
  not exported there; the executor would export it if every layer is marked valid.
* The order in which NewRegistry sorts executor ids is a parameter, and AssignExecutor's round robin is not modelled.
* The events that subscribers receive, and prefill_queue's Dequeue, which nothing calls.
* Progress over many rounds: a round makes its first offer, but that every queued work is served at some time is not proved.
* Liveness of transfers: a reserved block that is still physically valid is refused.
* internal/scheduler/queue_lock_free.go, the mock runner, tokenizers, `plan_kv_cache`, benchmarks and dashboards.

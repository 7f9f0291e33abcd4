# Verified model of the TokenSim KV-cache hierarchy

TokenSim simulates LLM serving over three levels of KV-cache storage: GPU blocks (HBM), the memory tier of a
Mooncake store (PCM) and its offload tier (HBF). This project models that hierarchy, the scheduler that drives it and
the connector that ties the levels together, and proves what the simulator's documentation and counters take for
granted about whole runs.

Each component appears twice: as a state machine of pure functions on values, on which the theorems about runs are
proved, and as a class whose methods update their fields in place as the program does and are proved to move the
object's view exactly as the state machine says. `dafny verify dfyconfig.toml` checks everything.

| files | component |
|---|---|
| `Keys`, `Containers` | prefix-cache keys and their hash chain; the containers Python supplies |
| `OffloadTier` | the offload tier, an LRU of keys with block counts |
| `StoreModel`, `MooncakeStore` | the two-tier store as state machine and as object |
| `StoreInvariant`, `StoreIdentities`, `StoreProvenance`, `StoreAccounts`, `StoreOffloadCounts`, `StoreRankCounts` | what every reachable store satisfies: coherence, write and eviction identities, admission sources, read credit, call counters, offload evictions, rank counters |
| `StoreLaws` | what one eviction, put, get and lookup do to objects, orders and counters |
| `StoreReadGate`, `StoreSimulation`, `StoreInclusion`, `StorePartition`, `PerRankLaws` | two stores on the same calls: read gate, write policy, capacity mode, rank counting, memory size, per-rank split |
| `FreeQueue`, `BlockPool` | the free-block queue with lazy deletion; the lazily materialised pool |
| `BlockModel`, `BlockManager` | reference-counted blocks, prefix index and block tables as state machine and as object |
| `BlockLanes`, `BlockInvariants`, `BlockLists`, `BlockTables`, `BlockRuns`, `BlockSafety`, `BlockHistory`, `BlockRecency`, `BlockWitnesses` | what every reachable block manager satisfies, from one block up to whole runs; least-recently-used eviction; a short run followed call by call |
| `RequestTokens`, `Capacity`, `SchedulerModel`, `Scheduler` | a request's logical blocks; the capacity check; scheduler and worker STEP as state machine and as object |
| `SchedulerBlocks`, `SchedulerSafety`, `Termination`, `WorkerRuns` | what every STEP keeps, arrival order, progress, termination |
| `WorkerRows`, `WorkerBatches` | in every worker state: how many blocks each request has, what stops admission, how many requests run, when one is preempted |
| `WorkerKeys`, `WorkerInputs` | what a request's keys name, which are registered and on which block |
| `WorkerBlocks`, `WorkerWitnesses` | the worker's block manager as a run of calls, so that what holds of such runs holds of the worker; short worker runs and the exact conditions they mark out |
| `Connector`, `StoreConnector`, `Hierarchy` | store lookup behind the HBM hit, load span, eviction hook, conservation over the three levels |

Units and assumptions. Every store object is one block, as the store's put creates it, so blocks stand for bytes
(`ByteTestIsBlockTest`); a capacity given in bytes is its number of whole blocks, and sharing it out over ranks before
or after that rounding gives the same share. SHA-256 digests are terms of a free datatype, so equal digests come from equal
contents. Latencies, clocks and the simulator's event queue are not part of this model. A store configuration gives
every offload partition room for a block, so the configuration error of a zero-capacity write cannot arise; meeting
more ranks than a per-rank store was configured for is modelled, as a failed store that stops. A worker has at least
one block, a positive occupancy ratio and, when set, a positive batch limit.

## What turned out different from the documentation or the expectation

- Write-through costs `2 * write_back + resident` offload blocks exactly in those runs in which the memory tier can
  evict or all keys put fit in it (`WriteThroughHalvesIff`; rank by rank, `PerRankHalvesIff`). Otherwise the bypassed
  blocks are to be subtracted (`WriteThroughCostsTwice`); the shortest such run is one put to a memory of no blocks
  (`BypassBreaksHalving`).
- Memory writes can grow with memory capacity, exactly when the smaller capacity is zero, the larger is not and
  something is put (`WritesNeverGrowIff`).
- The suffix form of LRU inclusion holds for puts and lookups. A get keeps it exactly when each key it names that only
  the larger memory holds is followed in the call by all the smaller memory's keys (`GetKeepsSuffixIff`): for one key,
  when the smaller memory holds it, or neither does, or the smaller has no capacity (`SingleGetHarmless`). The shortest
  run that loses it is two puts and a get (`GetBreaksSuffix`); the subsequence form holds always.
- A write to the offload tier reports its own key as evicted, and stores it all the same, exactly when the tier holds the
  key and evicting everything ahead of it would not make room (`WriteReportsItselfIff`): with one block to a key, when
  the tier is full and the key its least recent (`OneBlockWriteReportsItselfIff`, `RewriteCanReportItself`).
- Block signatures are `str(id)`, so the integer id 5 and the string id "5" are one block
  (`IntegerAndStringIdsCollide`). An id is mistaken for no other exactly when it is a string that does not read as an
  integer (`UnmistakableIff`, `CanonicalIffInteger`), and cache hits can be trusted over a set of ids exactly when no
  string in it spells an integer in it (`HitsTrustedIff`, and of whole workers `WorkerHitsTrustedIff`).
- A per-rank store raises on too many ranks, but only a put that reaches the tiers counts: a rank that only reads, or
  whose puts are empty or not admitted, takes no partition (`FailsIffTooManyRanksPut`).
- A request with no output to generate is never done: completion is an equality test, and the prefill step already
  generates a token (`ZeroOutputOvershoots`, `ZeroOutputNeverFinishes`). The workload loaders refuse such a length, so
  this is a remark on the scheduler alone; with a positive length every request finishes (`AllRequestsFinish`).
- With load_span "from_start" and a lookup from block zero, the load reads the first keys and not those missing from
  HBM; the two agree exactly when nothing hit in HBM (`FromStartLoadsTheHead`).
- The comment on the eviction hook says it sees prompt blocks only. A request's hashed output blocks are cached too when
  it finishes, and the next request can evict them (`OutputKeyEvicted`). The comment holds exactly where no output is
  hashed (`OnlyPromptsEvictedIff`). That every eviction carries a key holds always (`PrefixIndexCoherent`).
- A finishing request has blocks for all its tokens but the last. So with a block size of one, an output of one token is
  hashed but never registered: an output key is registered exactly when the prompt fills whole blocks, all hashed, and
  the output is hashed, fills a block and is more than one token (`FinishedOutputs`).

## Model

| member | source | states |
|---|---|---|
| Keys.BuildPrefixKeys | TokenSim/TokenSim/block/prefix_cache.py:56-69 | the key list threads the parent hash so that key i is the chain key of the first i + 1 block signatures |
| Keys.ChainKeyInjective | TokenSim/TokenSim/block/prefix_cache.py:34-69 | equal chain keys come from the same scope and the same whole prefix |
| Keys.PrefixKeysMeet | TokenSim/TokenSim/block/prefix_cache.py:56-69 | two prompts share a key exactly when scope, position and all signatures up to it agree |
| Keys.PrefixKeysDistinct | TokenSim/TokenSim/block/prefix_cache.py:56-69 | the keys of one prompt never repeat |
| Keys.IntegerAndStringIdsCollide | TokenSim/TokenSim/block/prefix_cache.py:34-43 | integer 5 and string "5" give the same key |
| Keys.SignatureInjective | TokenSim/TokenSim/block/prefix_cache.py:34-43 | among ids of one kind the signature determines the id |
| Keys.CanonicalIffInteger | TokenSim/TokenSim/block/prefix_cache.py:34-43 | the strings that collide with an integer are exactly the canonical decimals |
| Keys.UnmistakableIff | TokenSim/TokenSim/block/prefix_cache.py:34-43 | no other id shares an id's signature exactly when it is a string that is no canonical decimal |
| Keys.ApartIffFaithful | TokenSim/TokenSim/block/prefix_cache.py:34-43 | over a set of ids the signature determines the id exactly when no string in it spells an integer in it |
| OffloadTiers.OffloadTier.Read | TokenSim/TokenSim/mooncake/ssd.py:57-67 | reports the blocks held, makes a held key most recent and keeps the order of the others, holdings, used count and consistency |
| OffloadTiers.OffloadTier.EvictOldest | TokenSim/TokenSim/mooncake/ssd.py:118-121 | the head of the order and its entry go, every other key keeps its place and count, and a consistent tier stays consistent |
| OffloadTiers.OffloadTier.StoreKey | TokenSim/TokenSim/mooncake/ssd.py:98-125 | the key ends last with the new count, the used count changes by that less what the key held, every other key keeps place and count, and a consistent tier stays consistent |
| OffloadTiers.OffloadTier.Write | TokenSim/TokenSim/mooncake/ssd.py:69-96 | the evicting write loop computes the specified state and report |
| OffloadTiers.EvictUntilFitsPrefix | TokenSim/TokenSim/mooncake/ssd.py:86-88 | eviction removes a prefix of the LRU order and stops with room or with nothing left |
| OffloadTiers.EvictUntilFitsMinimal | TokenSim/TokenSim/mooncake/ssd.py:86-88 | no shorter prefix of the order would have made room |
| OffloadTiers.WriteContract | TokenSim/TokenSim/mooncake/ssd.py:69-96 | a write is refused exactly when it exceeds a finite capacity; else the key is held, last, and the reported keys are a prefix of the old order, gone unless rewritten |
| OffloadTiers.WriteValid | TokenSim/TokenSim/mooncake/ssd.py:69-125 | a write keeps order and table in agreement, the used count exact and a finite tier within capacity |
| OffloadTiers.WriteReportsItselfIff | TokenSim/TokenSim/mooncake/ssd.py:69-96 | an accepted write lists its own key as evicted exactly when the key is held and evicting all keys ahead of it makes no room; the key is stored either way |
| OffloadTiers.OneBlockWriteReportsItselfIff | TokenSim/TokenSim/mooncake/ssd.py:69-96 | with one block to a key: exactly when the tier is full and the key its least recent |
| OffloadTiers.RewriteCanReportItself | TokenSim/TokenSim/mooncake/ssd.py:69-96 | the smallest such tier |
| StoreModel.ByteTestIsBlockTest | TokenSim/TokenSim/mooncake/store.py:335-341 | the byte comparison of the capacity loop is a comparison of block counts |
| StoreModel.TouchMeans | TokenSim/TokenSim/mooncake/store.py:427-433 | a touched memory object ends both its pool order and its rank's, every other key keeps its place among the rest, other ranks and all else stay |
| MooncakeStores.MooncakeStore.LookupPrefix | TokenSim/TokenSim/mooncake/store.py:118-151 | returns the longest stored prefix and the slowest tier in it, credits reads and counts hit or miss |
| MooncakeStores.MooncakeStore.MissingIndices | TokenSim/TokenSim/mooncake/store.py:153-170 | exactly the positions of absent keys, ascending, with no state changed |
| MooncakeStores.MooncakeStore.GetObject | TokenSim/TokenSim/mooncake/store.py:182-196 | one key of a get: touch, credit, and a read served by the tier that holds it (what that does: `GetMeans`) |
| MooncakeStores.MooncakeStore.GetAll | TokenSim/TokenSim/mooncake/store.py:172-197 | a get serves its keys in order (what that does: `GetCallMeans`) |
| MooncakeStores.MooncakeStore.PutWithTiming | TokenSim/TokenSim/mooncake/store.py:214-235 | a put admits its keys in order, or rejects them all, and stops at a rank too many |
| MooncakeStores.MooncakeStore.PutObject | TokenSim/TokenSim/mooncake/store.py:237-318 | touches a stored key, else makes room and admits, bypasses or rejects (what that does: `PutMeans`) |
| MooncakeStores.MooncakeStore.EnsureMemoryCapacity | TokenSim/TokenSim/mooncake/store.py:320-342 | the loop evicts until a block fits, or says it cannot |
| MooncakeStores.MooncakeStore.EvictMemoryLru | TokenSim/TokenSim/mooncake/store.py:344-403 | evicts the oldest memory block of the pool or rank and drops or demotes it (which, and what then: `EvictMeans`) |
| MooncakeStores.MooncakeStore.DropUnread | TokenSim/TokenSim/mooncake/store.py:372-382 | an unread block under if_read is dropped, or left to its offload copy |
| MooncakeStores.MooncakeStore.Demote | TokenSim/TokenSim/mooncake/store.py:383-398 | a demoted block is written to the offload tier and its victims forgotten |
| MooncakeStores.MooncakeStore.Release | TokenSim/TokenSim/mooncake/store.py:359-368 | an eviction gives back memory and rank usage and is classified by reads and by rank |
| MooncakeStores.MooncakeStore.RecordMemoryEviction | TokenSim/TokenSim/mooncake/metrics.py:225-239 | an eviction adds one to the total and to exactly one of useful (the block was read) and wasted |
| MooncakeStores.MooncakeStore.RecordOffload | TokenSim/TokenSim/mooncake/store.py:575-590 | an offload write counts its blocks and the stored victims other than its owner |
| MooncakeStores.MooncakeStore.DropOffloadVictims | TokenSim/TokenSim/mooncake/store.py:595-616 | objects living only on the offload tier are forgotten when it evicts them; the owner is spared |
| MooncakeStores.MooncakeStore.AssignOwner | TokenSim/TokenSim/mooncake/store.py:456-471 | a new rank gets the next index and the key its owner |
| MooncakeStores.MooncakeStore.Admit | TokenSim/TokenSim/mooncake/store.py:289-318 | an admission enters memory and, write-through, the offload tier |
| MooncakeStores.MooncakeStore.Bypass | TokenSim/TokenSim/mooncake/store.py:263-288 | what memory cannot hold goes to the offload tier or is rejected |
| StoreLaws.EvictMeans | TokenSim/TokenSim/mooncake/store.py:344-403 | the oldest memory block leaves memory; read, or under "always", it becomes an offload object the tier holds as most recent; unread under if_read it leaves the tier as it was and stays exactly if the tier holds it; without an offload tier it goes; no other object changes but those the tier let go |
| StoreLaws.GetMeans | TokenSim/TokenSim/mooncake/store.py:182-196 | a stored key served by HBF counts an ssd read and ends last in the tier's order, one served by memory counts a memory read and a served read and ends last in memory's order; the other order, the other counters and every other object stay; an absent key changes nothing |
| StoreLaws.GetCallMeans | TokenSim/TokenSim/mooncake/store.py:172-197 | after any run a whole get counts each key on the tier that serves it and moves the keys to the end of that tier's order, one after the other; every object gains its reads by occurrences |
| StoreLaws.LookupMeans | TokenSim/TokenSim/mooncake/store.py:118-151 | a lookup finds the longest prefix of stored keys, counts a miss, or a hit on the offload tier if one of them is an offload object, else on memory, credits each key found per occurrence unless credit waits for the read, and moves nothing |
| StoreLaws.PutMeans | TokenSim/TokenSim/mooncake/store.py:237-318 | a put of an absent key: a new unread object, most recent in memory if that can take it, the oldest making way when it was full, with an offload copy under write-through; else on the offload tier; else nothing; objects that stay keep their read counts |
| StoreInvariant.RunCoherent | TokenSim/TokenSim/mooncake/store.py:237-403 | every reachable store: memory order and memory objects agree, offload table and objects agree, both tiers within capacity with exact counts, finite HBF included |
| StoreInvariant.StalenessNeverFires | TokenSim/TokenSim/mooncake/store.py:121-130 | lookup's staleness break never fires: a stored key is always present |
| StoreInvariant.EnsureRoomOnce | TokenSim/TokenSim/mooncake/store.py:337-341 | from a coherent state the evicting loop runs at most once |
| StoreIdentities.RunBalanced | TokenSim/TokenSim/mooncake/metrics.py:225-239 | offload writes = admissions (or bypasses) + demotions; evictions = dropped + demoted = useful + wasted; memory writes = evictions + resident; under if_read useful = demoted and wasted = dropped; rank counters sum to the evictions; over every run |
| StoreIdentities.GateServesTheRead | TokenSim/TokenSim/mooncake/store.py:372-398 | over every run under if_read the blocks demoted are exactly those evicted after a read, the blocks dropped those evicted without one, and the gate counter is the demotions |
| StoreAccounts.EveryKeyAccounted | TokenSim/TokenSim/mooncake/store.py:118-235 | over every run, per-rank stores included, that met no rank too many: keys offered = stored already + admitted + rejected; puts, gets and lookups are counted, each lookup as one hit on one tier or one miss |
| StoreAccounts.NoAdmissionRejectsAll | TokenSim/TokenSim/mooncake/store.py:214-235 | a store that admits nothing stays empty, writes nothing and rejects every key offered |
| StoreOffloadCounts.RunOnePlaceEach | TokenSim/TokenSim/mooncake/store.py:575-590 | over every run of a write-back store the tier holds offload objects only, no copy of a memory object, and the counted offload evictions are the keys the tier evicted |
| StoreOffloadCounts.EvictLosesCounted | TokenSim/TokenSim/mooncake/store.py:575-590 | under either write policy an eviction counts as offload evictions the keys the tier lost, the key rewritten not among them |
| StoreRankCounts.EvictionsCountByRank | TokenSim/TokenSim/mooncake/store.py:456-510 | with store_partition = count, after any run, a put of one key counts one eviction exactly when it evicts: "same" if the oldest key has the put key's rank, else "cross" |
| StoreProvenance.RunSourcesKnown | TokenSim/TokenSim/mooncake/store.py:409-421 | the four source counters sum to the memory writes; "other" stays zero with an offload tier, "after a drop" without one or without if_read, "after HBF eviction" without one or with an unlimited one |
| StoreProvenance.RunCreditsHonest | TokenSim/TokenSim/mooncake/store.py:183-196 | with read_credit = served a memory object's read count is its served reads, so both gate counters agree |
| StoreProvenance.CountSourceMeans | TokenSim/TokenSim/mooncake/store.py:409-421 | an admission raises exactly one source counter, the one its history names; the key is then seen and its departure spent |
| StoreReadGate.GateSavesExactlyTheMissing | TokenSim/TokenSim/mooncake/store.py:372-398 | offload writes saved by if_read = keys ever put that the gated store lacks |
| StoreReadGate.GateCostsExactlyTheReadmissions | TokenSim/TokenSim/mooncake/store.py:409-421 | memory writes added by if_read = its re-admissions after a drop |
| StoreReadGate.MemoryWritesSplit | TokenSim/TokenSim/mooncake/store.py:237-318 | memory writes = keys ever put - bypasses + re-admissions after a drop, with the exact number of bypasses |
| StoreSimulation.RunTwin | TokenSim/TokenSim/mooncake/store.py:237-403 | stores differing in write policy, capacity mode or rank counting stay in step on the same calls |
| StoreSimulation.WriteThroughCostsTwice | TokenSim/TokenSim/mooncake/store.py:302-318 | same objects and memory order, and offload writes(through) = 2 * writes(back) + resident - bypassed |
| StoreSimulation.WriteThroughHalvesIff | TokenSim/TokenSim/mooncake/store.py:263-318 | offload writes(through) = 2 * writes(back) + resident exactly when memory can evict or holds all keys put |
| StoreSimulation.BypassBreaksHalving | TokenSim/TokenSim/mooncake/store.py:263-288 | a memory of no blocks and one put: the plain identity fails |
| StoreSimulation.FiniteTierUnnoticed | TokenSim/TokenSim/mooncake/ssd.py:69-112 | a finite tier that never evicts gives the state and counters of an unlimited one |
| StoreSimulation.CountingRanksIsInert | TokenSim/TokenSim/mooncake/store.py:505-510 | store_partition = count agrees with global on every call sequence |
| StoreInclusion.LargerMemoryIncludesSmaller | TokenSim/TokenSim/mooncake/store.py:320-354 | with offload off a smaller memory holds a subsequence of a larger one's order and writes at least as much, over any puts, gets and lookups |
| StoreInclusion.SmallerOrderIsSuffix | TokenSim/TokenSim/mooncake/store.py:427-433 | over puts and lookups the smaller memory's order is the tail of the larger one's |
| StoreInclusion.GetKeepsSuffixIff | TokenSim/TokenSim/mooncake/store.py:182-187 | a get after any run keeps the suffix form exactly when each key got that only the larger memory holds is followed by gets of all keys of the smaller |
| StoreInclusion.SingleGetHarmless | TokenSim/TokenSim/mooncake/store.py:182-187 | for one key: exactly when the smaller memory holds it, or the larger does not, or the smaller has no capacity |
| StoreInclusion.WritesNeverGrowIff | TokenSim/TokenSim/mooncake/store.py:320-342 | memory writes do not grow with capacity exactly when the smaller capacity is positive, the larger zero, or nothing is put |
| StoreInclusion.GetBreaksSuffix | TokenSim/TokenSim/mooncake/store.py:427-433 | put a, put b, get a on memories of one and two blocks: the smaller order is no longer the larger one's tail |
| StorePartition.RunDecomposes | TokenSim/TokenSim/mooncake/store.py:435-510 | while no more ranks put than were configured, readers not counted, a per-rank store holds for each rank the objects, LRU order, offload contents and history of an independent store of the rank's share run on that rank's calls |
| StorePartition.FailsIffTooManyRanksPut | TokenSim/TokenSim/mooncake/store.py:456-471 | a run fails exactly when more ranks than configured make an admitted non-empty put |
| StorePartition.CountersSumOverRanks | TokenSim/TokenSim/mooncake/store.py:505-510 | its counters are the sums of the independent stores' counters and every eviction counts as same-rank |
| StorePartition.PerRankCoherent | TokenSim/TokenSim/mooncake/ssd.py:147-192 | a per-rank store is coherent too: no stale object, each rank's memory and offload partition within its share and counted exactly, the partition holding only that rank's objects |
| StorePartition.PerRankIdentities | TokenSim/TokenSim/mooncake/metrics.py:225-239 | the write, eviction, source and gate identities hold of a per-rank store, under if_read useful = demoted and wasted = dropped |
| PerRankLaws.PerRankWriteThroughCostsTwice | TokenSim/TokenSim/mooncake/store.py:302-318 | per-rank stores of either write policy hold the same objects, and the write identity holds with resident blocks summed over the ranks |
| PerRankLaws.PerRankHalvesIff | TokenSim/TokenSim/mooncake/store.py:263-318 | the plain identity holds exactly when each rank's memory can evict or holds all the rank puts |
| PerRankLaws.PerRankGateSaves | TokenSim/TokenSim/mooncake/store.py:372-398 | of a per-rank store too, offload writes saved by if_read = keys ever put that the gated store lacks |
| PerRankLaws.PerRankGateCosts | TokenSim/TokenSim/mooncake/store.py:409-421 | and memory writes added by if_read = its re-admissions after a drop |
| FreeQueues.FreeBlockQueue.Append | TokenSim/TokenSim/block/free_queue.py:53-58 | the block leaves its place and joins the end of the uncached lane |
| FreeQueues.FreeBlockQueue.AppendUnique | TokenSim/TokenSim/block/free_queue.py:60-62 | a queued block stays where it is |
| FreeQueues.FreeBlockQueue.AppendCached | TokenSim/TokenSim/block/free_queue.py:64-70 | the block joins the cached lane behind every entry with the same or an earlier stamp |
| FreeQueues.FreeBlockQueue.PopLeft | TokenSim/TokenSim/block/free_queue.py:72-81 | pops the front of the two-lane list: stale deque and heap entries are skipped and never returned |
| FreeQueues.FreeBlockQueue.Invalidate | TokenSim/TokenSim/block/free_queue.py:83-90 | lazy deletion removes the block from the list the queue stands for |
| FreeQueues.FreeBlockQueue.CountExact | TokenSim/TokenSim/block/free_queue.py:40-47 | length and membership read off the table are those of the list |
| FreeQueues.FreeBlockQueue.HeapPop | TokenSim/TokenSim/block/free_queue.py:77-78 | the least item by stamp, then insertion number, leaves the heap |
| FreeQueues.PopSorts | TokenSim/TokenSim/block/free_queue.py:77-80 | a live minimum is the head of the sorted lane; a stale one changes nothing |
| BlockPools.LazyRefinesEager | TokenSim/TokenSim/block/block_pool.py:11-42 | for every call sequence the lazy pool replies as a pool that queues all ids at the start, and its free count is that queue's length |
| BlockPools.CachedLaneSorted | TokenSim/TokenSim/block/free_queue.py:64-70 | the cached lane is always in order of access |
| BlockRecency.StampsAreLastUses | TokenSim/TokenSim/block/block_manager.py:51-57 | in every reachable state a cached block's access stamp is the place of its last use, a hit or a registration, in the history of all uses |
| BlockRecency.AllocTakesOldest | TokenSim/TokenSim/block/block_manager.py:32-49 | a block is taken with cached content exactly when no blank block is left, and then the one whose last use lies furthest back |
| BlockRecency.AdmissionEvicts | TokenSim/TokenSim/block/block_manager.py:121-144 | an admission evicts as many cached blocks as its misses exceed the blank blocks, each used before every idle block that stays cached |
| BlockRecency.LeastRecentlyUsedGoes | TokenSim/TokenSim/block/free_queue.py:64-81 | over every run, a block whose content any call evicts was last used before every idle block whose content stays |
| BlockManagers.BlockManager.AllocateBlock | TokenSim/TokenSim/block/block_manager.py:32-49 | takes a free block, evicts what it cached and references it once; fails exactly when none is free |
| BlockManagers.BlockManager.Acquire | TokenSim/TokenSim/block/block_manager.py:51-57 | an acquired block leaves the free queue, gains a reference and a fresh stamp |
| BlockManagers.BlockManager.ReleaseBlock | TokenSim/TokenSim/block/kv_cache_manager.py:148-165 | a last reference given back queues the block: blank if uncached, by stamp if cached |
| BlockManagers.BlockManager.EvictFromCache | TokenSim/TokenSim/block/kv_cache_manager.py:179-193 | the eviction is announced with the block's key, only that key can leave the index and none under it points at the block, references stay |
| BlockManagers.BlockManager.RegisterBlock | TokenSim/TokenSim/block/kv_cache_manager.py:97-111 | the key's index entry is the block, no other entry moves, only the block's former key can leave, references stay |
| BlockManagers.BlockManager.PlanReuse | TokenSim/TokenSim/block/kv_cache_manager.py:61-71 | the plan's hits are the longest prefix of keys indexed by cached, full blocks |
| BlockManagers.BlockManager.CanAllocateFor | TokenSim/TokenSim/block/block_manager.py:121-128 | the admission check, zero-reference hits not counted as room |
| BlockManagers.BlockManager.Allocate | TokenSim/TokenSim/block/block_manager.py:130-144 | hits are acquired before misses are allocated; table, claim and pending marks are set |
| BlockManagers.BlockManager.AppendBlock | TokenSim/TokenSim/block/block_manager.py:180-188 | a block is added exactly when the table is shorter than the logical blocks |
| BlockManagers.BlockManager.CanAppendSlot | TokenSim/TokenSim/block/block_manager.py:173-178 | whether a block is free when one is needed |
| BlockManagers.BlockManager.CommitInputCache | TokenSim/TokenSim/block/block_manager.py:266-276 | input blocks are registered under the input keys, once per allocation |
| BlockManagers.BlockManager.RegisterOutputBlocks | TokenSim/TokenSim/block/kv_cache_manager.py:113-146 | the keys it is given are registered on the blocks behind the input, as far as the table goes (which keys a request has: `OutputKeysIff`, and which it registers: `FinishedOutputs`) |
| BlockManagers.BlockManager.ReleaseRequestBlocks | TokenSim/TokenSim/block/block_manager.py:166-171 | the table goes and each of its entries gives back one reference |
| BlockManagers.BlockManager.FreeRequest | TokenSim/TokenSim/block/block_manager.py:155-164 | commit, register outputs, release |
| BlockManagers.BlockManager.ReserveGpuBlocks | TokenSim/TokenSim/block/block_manager.py:193-203 | all blocks are reserved, or none and the partial ones are given back |
| BlockManagers.BlockManager.ReleaseReservedBlocks | TokenSim/TokenSim/block/block_manager.py:205-218 | the oldest reserved blocks are freed; asking for too many changes nothing |
| BlockRuns.AdmissionSound | TokenSim/TokenSim/block/block_manager.py:121-144 | if the check passes allocation succeeds, fills the request's table and leaves the watermark free; for keys without repeats it passes exactly then |
| BlockRuns.HitsSurvive | TokenSim/TokenSim/block/block_manager.py:130-144 | no miss allocation evicts a block the plan hit, even one that sat in the free queue |
| BlockLists.AllocManyMeans | TokenSim/TokenSim/block/block_manager.py:138-140 | allocation succeeds exactly when enough blocks are free, and never touches a held block |
| BlockLists.FreePlusHeld | TokenSim/TokenSim/block/block_pool.py:41-42 | free blocks and referenced blocks make up the pool |
| BlockInvariants.AllocForm | TokenSim/TokenSim/block/block_manager.py:32-49 | the block allocated had no reference, comes out blank with one, and takes only its own key from the index |
| BlockSafety.ReserveKeeps | TokenSim/TokenSim/block/block_manager.py:193-203 | reserving succeeds exactly when enough blocks are free, and keeps the invariant either way |
| BlockSafety.ReservedLeaveInOrder | TokenSim/TokenSim/block/block_manager.py:193-218 | releasing as many blocks as were reserved before leaves exactly the blocks reserved last |
| BlockSafety.ReferenceCountsConserved | TokenSim/TokenSim/block/block_manager.py:32-75 | in every reachable state a block's count is its occurrences over tables and reserve, it is queued exactly at zero, and fresh + queued + referenced = all |
| BlockSafety.PrefixIndexCoherent | TokenSim/TokenSim/block/kv_cache_manager.py:97-146 | index and metadata agree, block i of a live request carries input key i, no eviction is a rekey or unkeyed |
| BlockHistory.RunTraced | TokenSim/TokenSim/block/kv_cache_manager.py:97-193 | a key ever registered is indexed or its eviction was announced, and no other key is either |
| BlockHistory.HitSound | TokenSim/TokenSim/block/kv_cache_manager.py:61-71 | a hit on block i means a request with the same scope and the same first i + 1 block signatures |
| BlockHistory.HitSoundOnIds | TokenSim/TokenSim/block/kv_cache_manager.py:61-71 | where no string id spells an integer id, a hit on block i means a request with the same scope and the same first i + 1 hash ids |
| BlockWitnesses.HitsTrustedIff | TokenSim/TokenSim/block/kv_cache_manager.py:61-71 | over a set of ids every hit in every run means its ids were seen before, exactly when no string in the set spells an integer in it |
| RequestTokens.LogicalTokenBlock.AppendTokens | TokenSim/TokenSim/block/block.py:40-46 | tokens are added exactly when they fit |
| RequestTokens.TokenBlocks.AppendTokens | TokenSim/TokenSim/llm/llm_request.py:300-313 | n tokens are added, overshooting cursor included, and the blocks are ceil(tokens / block size) |
| RequestTokens.TokenBlocks.BlocksNeeded | TokenSim/TokenSim/llm/llm_request.py:286-313 | blocks filled left to right are as many as the tokens need |
| RequestTokens.LogicalBlocks | TokenSim/TokenSim/llm/llm_request.py:274-327 | the token blocks of a request, its prompt appended at once and then a token at a time, are as many as the scheduler asks for, and just enough for prefill + gen tokens |
| Capacity.CheckRole | TokenSim/TokenSim/llm/llm_engine.py:549-569 | names the first request a role cannot hold, or none when all fit |
| Capacity.ValidateRequestCapacity | TokenSim/TokenSim/llm/llm_engine.py:535-569 | new requests pass both roles exactly when each fits beside the watermark with its whole output; the one reported is the first that fails for prefill, or if none does the first that fails for decode |
| Schedulers.PagedAttnScheduler.AdmitWaiting | TokenSim/TokenSim/llm/llm_scheduler.py:204-253 | the admission loop admits the specified batch |
| Schedulers.PagedAttnScheduler.MayAdmit | TokenSim/TokenSim/llm/llm_scheduler.py:205-226 | occupancy, batch limit, phase and room decide the head's admission (in plain terms: `WorkerAdmitsUntilBlocked`, `RunningWithinLimit`) |
| Schedulers.PagedAttnScheduler.GrowOrPreempt | TokenSim/TokenSim/llm/llm_scheduler.py:264-279 | the inner loop appends a slot or preempts from the back until it can, or preempts the request itself (rows that result: `BatchHasItsBlocks`; when it preempts: `PreemptsOnlyWithoutBlocks`) |
| Schedulers.PagedAttnScheduler.DecodeRunning | TokenSim/TokenSim/llm/llm_scheduler.py:255-281 | the decode loop over the sorted running list keeps and preempts the specified requests |
| Schedulers.PagedAttnScheduler.PreemptRequest | TokenSim/TokenSim/llm/llm_scheduler.py:328-334 | a preempted request loses its blocks, is flagged for recompute and heads the waiting list |
| Schedulers.PagedAttnScheduler.ScheduleBatch | TokenSim/TokenSim/llm/llm_scheduler.py:192-281 | an admitted batch if there is one, else a decode batch |
| Schedulers.PagedAttnScheduler.FinishRecomputes | TokenSim/TokenSim/llm/llm_scheduler.py:336-339 | a recomputed batch is committed and its flags cleared |
| Schedulers.PagedAttnScheduler.UpdateBatch | TokenSim/TokenSim/llm/llm_scheduler.py:309-313 | generated requests are committed, done ones freed and dropped from running |
| Schedulers.PagedAttnScheduler.WorkerStepOnce | TokenSim/TokenSim/llm/llm_engine.py:374-422 | one STEP: schedule, then finish a recompute or generate a token each and update |
| SchedulerBlocks.EmptyAdmits | TokenSim/TokenSim/llm/llm_engine.py:535-569 | an idle worker admits exactly the requests the capacity check lets through |
| SchedulerBlocks.AloneHasRoom | TokenSim/TokenSim/llm/llm_scheduler.py:264-279 | a request alone on the worker leaves free what its own row does not fill |
| SchedulerSafety.SortIsStable | TokenSim/TokenSim/llm/llm_scheduler.py:256-256 | the arrival sort is an ordered permutation that keeps the order of equal arrivals |
| SchedulerSafety.DecodeAllKeeps | TokenSim/TokenSim/llm/llm_scheduler.py:258-281 | decoding keeps the invariant and arrival order and never empties a nonempty running list |
| Termination.UpdateMeans | TokenSim/TokenSim/llm/llm_scheduler.py:65-72 | after an update exactly the unfinished requests run, and only they hold blocks |
| WorkerRuns.PreemptionRespectsArrival | TokenSim/TokenSim/llm/llm_scheduler.py:255-281 | kept ++ reverse(preempted) is the stable arrival sort of the old running list, waiting is reverse(preempted) ++ old waiting, and the oldest request is kept |
| WorkerRuns.BatchHasOnePhase | TokenSim/TokenSim/llm/llm_scheduler.py:213-222 | a batch never mixes prefill with recompute |
| WorkerRows.BatchHasItsBlocks | TokenSim/TokenSim/llm/llm_scheduler.py:204-281 | in every run, when schedule returns, each request of the batch has |row| * block size >= prefill + gen > (|row| - 1) * block size |
| WorkerRows.RunningHasItsBlocks | TokenSim/TokenSim/block/block_manager.py:180-188 | between STEPs each running request's row holds all its tokens but at most the last one generated, and has no block more than they fill |
| WorkerBatches.WorkerAdmitsUntilBlocked | TokenSim/TokenSim/llm/llm_scheduler.py:204-253 | in every run admission stops exactly when nothing waits, the batch limit is reached, used blocks / all blocks reaches the occupancy, the head is of another phase, or free blocks less idle hits less misses fall below the watermark; none of these held before any admission |
| WorkerBatches.RunningWithinLimit | TokenSim/TokenSim/llm/llm_scheduler.py:207-211 | in every run no more requests run than the batch limit |
| WorkerBatches.PreemptsOnlyWithoutBlocks | TokenSim/TokenSim/llm/llm_scheduler.py:255-281 | in every run a decoding STEP preempts nobody exactly when the free blocks suffice for the running requests whose rows lack one |
| WorkerRuns.IdleWorkerAdmits | TokenSim/TokenSim/llm/llm_scheduler.py:204-226 | with nothing running the waiting head is always admitted |
| WorkerRuns.StepMakesProgress | TokenSim/TokenSim/llm/llm_engine.py:374-422 | every STEP with work keeps the invariant and decreases (tokens left, waiting) lexicographically |
| WorkerRuns.AllRequestsFinish | TokenSim/TokenSim/llm/llm_engine.py:374-422 | once arrivals stop the worker goes idle with every request finished and every block free |
| WorkerRuns.EveryRunKeepsRequests | TokenSim/TokenSim/llm/llm_scheduler.py:39-42 | whatever the interleaving of arrivals and steps, no request is lost or listed twice and exactly the running ones hold blocks |
| WorkerRuns.ZeroOutputNeverFinishes | TokenSim/TokenSim/llm/llm_request.py:277-279 | a request of output length zero is never done after its first token |
| WorkerRuns.ZeroOutputOvershoots | TokenSim/TokenSim/llm/llm_request.py:323-326 | any worker that puts such a request in a generating batch never sees it done again |
| WorkerRuns.ZeroOutputIsAdmitted | TokenSim/TokenSim/llm/llm_scheduler.py:204-226 | an idle worker admits such a request and generates a token for it |
| WorkerBlocks.WorkerMakesCalls | TokenSim/TokenSim/llm/llm_engine.py:374-422 | after any arrivals and steps the worker's block manager is where a sequence of calls takes a new one: admissions with the input keys and blocks of added requests, finishes with their output keys and a row filled up to the last token |
| WorkerKeys.InputKeysAre | TokenSim/TokenSim/block/kv_cache_manager.py:97-111 | input keys are the keys of all hashed blocks the prompt fills, in order |
| WorkerKeys.OutputKeysIff | TokenSim/TokenSim/block/kv_cache_manager.py:113-146 | a request has output keys exactly when its prompt fills whole blocks, all hashed, and its output is hashed and fills a block |
| WorkerKeys.IndexedKeysNameTheirBlocks | TokenSim/TokenSim/block/kv_cache_manager.py:97-146 | in every worker run an indexed key is the n-th of the chain of an added request, with n blocks filled by its prompt or, behind a prompt of whole blocks, by its output; the block indexed was entry n - 1 of that request's row when it was registered |
| WorkerKeys.RegisteredKeysNameBlocks | TokenSim/TokenSim/block/kv_cache_manager.py:97-146 | so is every key ever registered in a worker run, indexed still or not |
| WorkerKeys.FinishRegisters | TokenSim/TokenSim/block/block_manager.py:155-164 | a finishing request registers its input keys, unless that was done, and the output keys of the blocks its row has, and no other key |
| WorkerKeys.FinishedOutputs | TokenSim/TokenSim/block/kv_cache_manager.py:113-146 | in every worker run a finishing request registers an output key exactly when its prompt fills whole blocks, all hashed, and its output is hashed, fills a block and is more than one token |
| WorkerInputs.RunningInputsRegistered | TokenSim/TokenSim/block/block_manager.py:266-276 | in every worker run, between STEPs, every key of a block that a running request's prompt fills has been registered |
| WorkerBlocks.WorkerBlocksSound | TokenSim/TokenSim/block/block_manager.py:32-75 | so in every worker state counts are table occurrences, blocks are queued exactly at zero, the parts make up the pool, index and history are coherent |
| WorkerBlocks.WorkerHitSound | TokenSim/TokenSim/block/kv_cache_manager.py:61-71 | a hit in a worker's cache on block i means an added request with the same scope and first i + 1 hash ids, where no string id spells an integer id |
| WorkerBlocks.WorkerLosesNothing | TokenSim/TokenSim/kv_transfer/connectors/mooncake_store.py:208-272 | with a worker's evictions spilled, every key it ever registered is indexed or found in the store |
| WorkerWitnesses.OutputKeyEvicted | TokenSim/TokenSim/block/kv_cache_manager.py:113-193 | a worker run in which the observer hears the eviction of an output key that no prompt has |
| WorkerWitnesses.OnlyPromptKeysEvicted | TokenSim/TokenSim/block/kv_cache_manager.py:113-193 | a worker none of whose requests has output keys evicts only input keys of added requests |
| WorkerWitnesses.OnlyPromptsEvictedIff | TokenSim/TokenSim/kv_transfer/connectors/mooncake_store.py:208-221 | the hook sees prompt blocks alone, in every run of every worker, exactly when no output is hashed |
| WorkerWitnesses.WorkerHitsTrustedIff | TokenSim/TokenSim/block/kv_cache_manager.py:61-71 | over a set of ids every hit in every worker run means its ids were added before, exactly when no string in the set spells an integer in it |
| Connectors.AfterHbmNeverFindsLess | TokenSim/TokenSim/kv_transfer/connectors/mooncake_store.py:88-108 | "after_hbm" never finds fewer tokens than "zero", and as many exactly when the HBM-hit head is fully stored or nothing is found |
| Connectors.MissingSpanIsContiguous | TokenSim/TokenSim/kv_transfer/connectors/mooncake_store.py:566-570 | with load_span = missing both lookups load exactly the stored keys just behind the HBM hit |
| Connectors.FromStartLoadsTheHead | TokenSim/TokenSim/kv_transfer/connectors/mooncake_store.py:571-574 | with from_start the lookup from zero loads the first keys, the missing ones only when HBM had no hit |
| Connectors.AlignedLeavesAToken | TokenSim/TokenSim/kv_transfer/connectors/mooncake_store.py:99-106 | under the aligned policy a load leaves a prompt token to compute |
| Connectors.AlignedLoadsAllItMay | TokenSim/TokenSim/kv_transfer/connectors/mooncake_store.py:94-108 | and otherwise a load stops only where storage does, or where one block more would reach the end of the prompt |
| Connectors.TierIsSlowest | TokenSim/TokenSim/kv_transfer/connectors/mooncake_store.py:110-139 | a load is from the offload tier exactly when one of the keys it loads (load_span missing), or of all the keys found, is an offload object, else from memory |
| Connectors.LookupCounted | TokenSim/TokenSim/kv_transfer/connectors/mooncake_store.py:141-162 | a request's lookup counts one hit or miss, but none when a lookup behind the HBM hit has nothing left to look up |
| Connectors.SpanTierMeans | TokenSim/TokenSim/kv_transfer/connectors/mooncake_store.py:130-139 | a span's tier is offload exactly when one of its keys is an offload object, and none exactly when no key is stored |
| StoreConnectors.MooncakeStoreConnector.GetNumNewMatchedTokens | TokenSim/TokenSim/kv_transfer/connectors/mooncake_store.py:77-128 | returns the external tokens, remembers the load, counts tokens by tier and leaves the store as its lookup does |
| StoreConnectors.MooncakeStoreConnector.LookUpFromZero | TokenSim/TokenSim/kv_transfer/connectors/mooncake_store.py:94-108 | the lookup over all keys, capped and offset by the HBM hit |
| StoreConnectors.MooncakeStoreConnector.LookUpAfterHbm | TokenSim/TokenSim/kv_transfer/connectors/mooncake_store.py:141-162 | the lookup of the keys behind the HBM hit, none when it covers them all |
| StoreConnectors.MooncakeStoreConnector.FindSpanTier | TokenSim/TokenSim/kv_transfer/connectors/mooncake_store.py:130-139 | the slowest tier among the span's known keys |
| StoreConnectors.MooncakeStoreConnector.BuildLoadPlans | TokenSim/TokenSim/kv_transfer/connectors/mooncake_store.py:369-378 | each scheduled request's pending load is planned once and is pending no more, those of others stay; under spill_only, or in a role that cannot save, no request goes on to the save policy |
| StoreConnectors.PlansMean | TokenSim/TokenSim/kv_transfer/connectors/mooncake_store.py:369-378 | planning makes one plan for each scheduled request with a pending load, none for another, and leaves exactly the loads of the others pending |
| StoreConnectors.PlannedOnce | TokenSim/TokenSim/kv_transfer/connectors/mooncake_store.py:369-378 | over consecutive STEPs a pending load is planned once at most |
| StoreConnectors.MooncakeStoreConnector.OnHbmEvict | TokenSim/TokenSim/kv_transfer/connectors/mooncake_store.py:208-272 | the hook counts every eviction and puts keyed capacity ones into the store under on_evict and spill_only |
| Hierarchies.CountOnlyPutsNothing | TokenSim/TokenSim/kv_transfer/connectors/mooncake_store.py:208-272 | under "count" the store never changes and nothing is put; every eviction is counted once, as a rekey or a block, a block as keyed or not, a keyed one as present or absent |
| Hierarchies.EvictionsArePut | TokenSim/TokenSim/kv_transfer/connectors/mooncake_store.py:208-272 | under on_evict as under spill_only every keyed block that capacity evicts is put, each put writing or refreshing |
| StoreConnectors.MooncakeStoreConnector.FinalizeRunStats | TokenSim/TokenSim/kv_transfer/connectors/mooncake_store.py:178-191 | the residue and its absent part are counted once |
| StoreConnectors.ResidueCompletesTheStore | TokenSim/TokenSim/kv_transfer/connectors/mooncake_store.py:178-191 | under spill_only distinct registered keys = store objects + absent residue |
| Hierarchies.PutRetains | TokenSim/TokenSim/mooncake/store.py:237-318 | with always demotion and unlimited HBF a put adds its key, loses none, and writes exactly when the key was absent |
| Hierarchies.NothingIsLost | TokenSim/TokenSim/kv_transfer/connectors/mooncake_store.py:208-272 | under spill_only a prefix key ever registered is at all times in the GPU index or found in the store, however that is partitioned |
| Hierarchies.RegisteredKeysConserved | TokenSim/TokenSim/kv_transfer/connectors/mooncake_store.py:178-272 | distinct registered keys = store objects + indexed keys absent from the store |
| Hierarchies.HookCountersHonest | TokenSim/TokenSim/kv_transfer/connectors/mooncake_store.py:225-266 | no rekey or unkeyed eviction, one put for each, bytes written exactly for absent blocks |

## Left out

- Time: latencies, timing objects, simulated clocks, transfer engine, communicator and roofline formulas.
- Counters without a decision behind them: peaks, residency histogram, percentiles, HBF read-back counters, byte counters
  (blocks times block size), per-request timing aggregates, sampled batch state.
- Store object fields nothing here reads: last access, persisted flag, segment, replicas, rank (the index of the key's
  own rank). The `blocks` argument of put, which every caller modelled sets to the number of keys.
- The prefill save path and `save_policy` beyond its effect on lookups; asynchronous saves and delayed release, with the
  requests waiting for them; prefill and decode roles on separate workers; message queues and worker pools.
- `update_state_after_alloc` and the recompute token count, which feed only latency estimates.
- The dynamic, static and prefill schedulers, which keep no block accounts.
- `set_num_free_blocks` and the CPU allocator, neither of which the worker's STEP uses.
- A request's own copy of its block list, which mirrors the block table.
- Key memos (the per-request key caches), which only save recomputation.
- The binary-heap layout of heapq: the heap is a bag with a minimum-extracting pop.
- Blocks and requests as objects: metadata of physical blocks and requests are records in a table their owner reassigns,
  so two references to one block are two uses of its number. Pool, allocator, prefix index, block table and manager are
  one class.
- WorkerRuns.AllRequestsFinish: is about a worker with a no-op connector, because a connector with asynchronous saves
  removes requests from the running list that are not finished.
- Hierarchies.NothingIsLost: is about one worker that writes the store only when HBM evicts, because other saves add
  keys that were never registered as evicted.
- SchedulerSafety.SortIsStable: models the sort by insertion, because sorted() is Python's own; the lemma states all that
  is used of it.

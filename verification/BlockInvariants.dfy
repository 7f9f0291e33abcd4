/** Reference counts, the free queue and the prefix index, kept by every single-block operation. */
module BlockInvariants {
  import opened Containers
  import opened Keys
  import opened FreeQueues
  import opened BlockPools
  import opened BlockModel
  import opened BlockLanes

  ghost predicate PoolOk(pool: Pool, blocks: map<nat, Block>) {
    && pool.nextFresh <= pool.numBlocks
    && (forall b: nat :: b in blocks <==> b < pool.nextFresh)
    && LanesListIdle(pool.lanes, IdlePlain(blocks), IdleCached(blocks))
  }

  predicate BlockOk(block: Block) {
    && block.refCount >= 0
    && (block.cached ==> block.hash.Some? && block.isFull)
    && (!block.cached ==> block.refCount <= 1)
    && (!block.cached && block.refCount == 0 ==> block == NEW_BLOCK)
  }

  ghost predicate MetaOk(blocks: map<nat, Block>) {
    forall b :: b in blocks ==> BlockOk(blocks[b])
  }

  /** An indexed key leads to a cached block carrying that key. */
  ghost predicate CacheOk(blocks: map<nat, Block>, cache: map<PrefixCacheKey, nat>) {
    forall k :: k in cache ==> cache[k] in blocks && blocks[cache[k]].cached && blocks[cache[k]].hash == Some(k)
  }

  /** `refs` are the references held from anywhere. */
  ghost predicate Counted(blocks: map<nat, Block>, refs: multiset<nat>) {
    && (forall b :: b in blocks ==> blocks[b].refCount == refs[b])
    && (forall b :: b in refs ==> b in blocks)
  }

  ghost predicate Core(g: Gpu, refs: multiset<nat>) {
    PoolOk(g.pool, g.blocks) && MetaOk(g.blocks) && CacheOk(g.blocks, g.cache) && Counted(g.blocks, refs)
  }

  lemma {:induction false} FreeMeansHasFree(g: Gpu, refs: multiset<nat>)
    requires Core(g, refs)
    ensures HasFree(g.pool) <==> FreeCount(g.pool) > 0
  {
  }

  // ----- changing one block

  lemma {:induction false} MetaSet(blocks: map<nat, Block>, b: nat, block: Block)
    requires MetaOk(blocks) && BlockOk(block)
    ensures MetaOk(blocks[b := block])
  {
  }

  lemma {:induction false} CountedSet(blocks: map<nat, Block>, refs: multiset<nat>, b: nat, block: Block,
                                      refs': multiset<nat>)
    requires Counted(blocks, refs) && block.refCount == refs'[b]
    requires forall x :: x != b ==> refs'[x] == refs[x]
    ensures Counted(blocks[b := block], refs')
  {
  }

  /** What `lanes` must list after block b becomes `block`. */
  lemma {:induction false} LanesAfter(lanes: Lanes, blocks: map<nat, Block>, b: nat, block: Block)
    requires LanesListIdle(lanes, IdlePlain(blocks) - {b}, IdleCached(blocks) - {b})
    requires block.refCount != 0
    ensures LanesListIdle(lanes, IdlePlain(blocks[b := block]), IdleCached(blocks[b := block]))
  {
    IdleUpdate(blocks, b, block);
  }

  lemma {:induction false} DequeueLanes(lanes: Lanes, plain: set<nat>, cached: map<nat, nat>, b: nat)
    requires LanesListIdle(lanes, plain, cached)
    ensures LanesListIdle(Dequeue(lanes, b), plain - {b}, cached - {b})
  {
    FifoDrop(lanes.fifo, plain, b);
    CachedDrop(lanes.cached, cached, b);
  }

  lemma {:induction false} IdleAbsent(blocks: map<nat, Block>, b: nat)
    requires b in blocks ==> blocks[b].refCount != 0
    ensures IdlePlain(blocks) - {b} == IdlePlain(blocks) && IdleCached(blocks) - {b} == IdleCached(blocks)
  {
  }

  // ----- allocate

  lemma {:induction false} PopLanes(lanes: Lanes, blocks: map<nat, Block>)
    requires LanesListIdle(lanes, IdlePlain(blocks), IdleCached(blocks)) && lanes != NO_LANES
    ensures var (b, lanes') := PopFront(lanes);
            && b in blocks && blocks[b].refCount == 0 && Size(lanes') == Size(lanes) - 1
            && LanesListIdle(lanes', IdlePlain(blocks) - {b}, IdleCached(blocks) - {b})
  {
    var plain, cached := IdlePlain(blocks), IdleCached(blocks);
    if lanes.fifo != [] {
      FifoPop(lanes.fifo, plain);
      assert cached - {lanes.fifo[0]} == cached;
    } else {
      CachedPop(lanes.cached, cached);
      assert plain - {lanes.cached[0].block} == plain;
    }
  }

  lemma {:induction false} TakeFreeIdle(g: Gpu, refs: multiset<nat>)
    requires Core(g, refs) && HasFree(g.pool)
    ensures var (b, g1) := TakeFree(g);
            && g1 == g.(pool := g1.pool, blocks := if b in g.blocks then g.blocks else g.blocks[b := NEW_BLOCK])
            && (b in g.blocks ==> g.blocks[b].refCount == 0) && refs[b] == 0
            && g1.pool.nextFresh <= g1.pool.numBlocks == g.pool.numBlocks
            && (forall x: nat :: x in g1.blocks <==> x < g1.pool.nextFresh)
            && LanesListIdle(g1.pool.lanes, IdlePlain(g.blocks) - {b}, IdleCached(g.blocks) - {b})
            && FreeCount(g1.pool) == FreeCount(g.pool) - 1
  {
    hide LanesListIdle;
    if g.pool.nextFresh == g.pool.numBlocks {
      PopLanes(g.pool.lanes, g.blocks);
    } else {
      IdleAbsent(g.blocks, g.pool.nextFresh);
    }
  }

  const TAKEN_BLOCK := Block(1, None, false, false, 0)

  ghost function KeysOn(cache: map<PrefixCacheKey, nat>, b: nat): set<PrefixCacheKey> {
    set k | k in cache && cache[k] == b
  }

  lemma {:induction false} EvictForm(g: Gpu, b: nat, why: Reason)
    requires CacheOk(g.blocks, g.cache) && b in g.blocks
    ensures EvictBlock(g, b, why) == g.(blocks := g.blocks[b := ClearMetadata(g.blocks[b])],
                                        cache := g.cache - KeysOn(g.cache, b),
                                        trace := g.trace + [Evicted(g.blocks[b].hash, why)])
  {
    var hash := g.blocks[b].hash;
    if hash.Some? && hash.value in g.cache && g.cache[hash.value] == b {
      assert KeysOn(g.cache, b) == {hash.value};
    } else {
      assert KeysOn(g.cache, b) == {};
      assert g.cache - {} == g.cache;
    }
  }

  ghost function AllocEvents(g: Gpu, b: nat): seq<Event> {
    if b in g.blocks && g.blocks[b].cached then [Evicted(g.blocks[b].hash, Capacity)] else []
  }

  lemma {:induction false} EvictIfCached(g: Gpu, b: nat)
    requires CacheOk(g.blocks, g.cache) && b in g.blocks
    ensures (if g.blocks[b].cached then EvictBlock(g, b, Capacity) else g)
         == g.(blocks := g.blocks[b := if g.blocks[b].cached then ClearMetadata(g.blocks[b]) else g.blocks[b]],
               cache := g.cache - KeysOn(g.cache, b), trace := g.trace + AllocEvents(g, b))
  {
    EvictForm(g, b, Capacity);
    hide EvictBlock;
    if !g.blocks[b].cached {
      assert KeysOn(g.cache, b) == {};
      assert g.cache - {} == g.cache && g.trace + [] == g.trace && g.blocks[b := g.blocks[b]] == g.blocks;
    }
  }

  /** An idle block, once its metadata is gone, is blank. */
  lemma {:induction false} IdleBlank(g: Gpu, b: nat)
    requires MetaOk(g.blocks) && b in g.blocks && g.blocks[b].refCount == 0
    ensures var block := if g.blocks[b].cached then ClearMetadata(g.blocks[b]) else g.blocks[b];
            block.(refCount := 1) == TAKEN_BLOCK
  {
    assert BlockOk(g.blocks[b]);
  }

  lemma {:induction false} TakenMeta(g: Gpu, b: nat)
    requires MetaOk(g.blocks) && CacheOk(g.blocks, g.cache)
    ensures b !in g.blocks ==> MetaOk(g.blocks[b := NEW_BLOCK]) && CacheOk(g.blocks[b := NEW_BLOCK], g.cache)
  {
  }

  lemma {:induction false} TakenForm(g: Gpu, g1: Gpu, b: nat)
    requires g1 == g.(pool := g1.pool, blocks := if b in g.blocks then g.blocks else g.blocks[b := NEW_BLOCK])
    requires MetaOk(g1.blocks) && CacheOk(g1.blocks, g1.cache) && g1.blocks[b].refCount == 0
    ensures AddRef(if BlockAt(g1, b).cached then EvictBlock(g1, b, Capacity) else g1, b)
         == g.(pool := g1.pool, blocks := g.blocks[b := TAKEN_BLOCK], cache := g.cache - KeysOn(g.cache, b),
               trace := g.trace + AllocEvents(g, b))
  {
    hide MetaOk, CacheOk, KeysOn, EvictBlock;
    EvictIfCached(g1, b);
    IdleBlank(g1, b);
    var block := if g1.blocks[b].cached then ClearMetadata(g1.blocks[b]) else g1.blocks[b];
    assert AllocEvents(g1, b) == AllocEvents(g, b);
    assert g.blocks[b := NEW_BLOCK][b := TAKEN_BLOCK] == g.blocks[b := TAKEN_BLOCK];
    assert g1.blocks[b := block][b := TAKEN_BLOCK] == g1.blocks[b := TAKEN_BLOCK];
  }

  /** Allocation takes one idle block, blank and referenced once; if it was cached, its key and
      nothing else leaves the index. */
  lemma {:induction false} AllocForm(g: Gpu, refs: multiset<nat>)
    requires Core(g, refs) && HasFree(g.pool)
    ensures var (b, g') := AllocBlock(g);
            && g' == g.(pool := g'.pool, blocks := g.blocks[b := TAKEN_BLOCK], cache := g.cache - KeysOn(g.cache, b),
                        trace := g.trace + AllocEvents(g, b))
            && (b in g.blocks ==> g.blocks[b].refCount == 0) && refs[b] == 0
            && g'.pool.nextFresh <= g'.pool.numBlocks == g.pool.numBlocks
            && (forall x: nat :: x in g'.blocks <==> x < g'.pool.nextFresh)
            && LanesListIdle(g'.pool.lanes, IdlePlain(g.blocks) - {b}, IdleCached(g.blocks) - {b})
            && FreeCount(g'.pool) == FreeCount(g.pool) - 1
  {
    TakeFreeIdle(g, refs);
    var (b, g1) := TakeFree(g);
    TakenMeta(g, b);
    hide PoolOk, MetaOk, CacheOk, Counted, LanesListIdle, FreeCount, TakeFree, IdlePlain, IdleCached, KeysOn,
         EvictBlock, AddRef, AllocEvents;
    assert b in g1.blocks && (b !in g.blocks ==> g1.blocks[b] == NEW_BLOCK);
    TakenForm(g, g1, b);
  }

  lemma {:induction false} AllocCore(g: Gpu, refs: multiset<nat>)
    requires Core(g, refs) && HasFree(g.pool)
    ensures Core(AllocBlock(g).1, refs + multiset{AllocBlock(g).0})
  {
    AllocForm(g, refs);
    var (b, g') := AllocBlock(g);
    hide AllocBlock, LanesListIdle;
    LanesAfter(g'.pool.lanes, g.blocks, b, TAKEN_BLOCK);
    hide IdlePlain, IdleCached;
    MetaSet(g.blocks, b, TAKEN_BLOCK);
    CountedSet(g.blocks, refs, b, TAKEN_BLOCK, refs + multiset{b});
  }

  // ----- acquire

  lemma {:induction false} AcquireForm(g: Gpu, b: nat)
    ensures var block, g' := BlockAt(g, b), AcquireBlock(g, b);
            g' == g.(pool := g.pool.(lanes := if block.refCount == 0 then Dequeue(g.pool.lanes, b) else g.pool.lanes),
                     blocks := g.blocks[b := block.(refCount := block.refCount + 1, lastAccessed := g.clock + 1)],
                     clock := g.clock + 1)
  {
    var block := BlockAt(g, b);
    assert g.blocks[b := block.(refCount := block.refCount + 1)]
                   [b := block.(refCount := block.refCount + 1, lastAccessed := g.clock + 1)]
        == g.blocks[b := block.(refCount := block.refCount + 1, lastAccessed := g.clock + 1)];
  }

  lemma {:induction false} DropSize(cached: map<nat, nat>, b: nat)
    ensures |cached - {b}| == |cached| - (if b in cached then 1 else 0)
  {
    if b in cached {
      assert cached.Keys == (cached - {b}).Keys + {b};
    } else {
      assert cached - {b} == cached;
    }
  }

  lemma {:induction false} DequeueSize(g: Gpu, refs: multiset<nat>, b: nat)
    requires Core(g, refs) && b in g.blocks && g.blocks[b].refCount == 0
    ensures Size(Dequeue(g.pool.lanes, b)) == Size(g.pool.lanes) - 1
  {
    var plain: set<nat>, cached: map<nat, nat> := IdlePlain(g.blocks), IdleCached(g.blocks);
    DequeueLanes(g.pool.lanes, plain, cached, b);
    assert b in plain <==> b !in cached;
    hide CachedLaneOk, IdlePlain, IdleCached, Without, DropRanked;
    WithoutDistinct(g.pool.lanes.fifo, b);
    CachedSize(g.pool.lanes.cached, cached);
    CachedSize(DropRanked(g.pool.lanes.cached, b), cached - {b});
    DropSize(cached, b);
  }

  lemma {:induction false} AcquireLanes(g: Gpu, refs: multiset<nat>, b: nat)
    requires Core(g, refs) && b in g.blocks
    ensures var lanes := if g.blocks[b].refCount == 0 then Dequeue(g.pool.lanes, b) else g.pool.lanes;
            && LanesListIdle(lanes, IdlePlain(g.blocks) - {b}, IdleCached(g.blocks) - {b})
            && Size(lanes) == Size(g.pool.lanes) - (if g.blocks[b].refCount == 0 then 1 else 0)
  {
    hide LanesListIdle, Dequeue, Size;
    if g.blocks[b].refCount == 0 {
      DequeueSize(g, refs, b);
      DequeueLanes(g.pool.lanes, IdlePlain(g.blocks), IdleCached(g.blocks), b);
    } else {
      IdleAbsent(g.blocks, b);
    }
  }

  lemma {:induction false} AcquireCore(g: Gpu, refs: multiset<nat>, b: nat)
    requires Core(g, refs) && b in g.blocks && g.blocks[b].cached
    ensures Core(AcquireBlock(g, b), refs + multiset{b})
    ensures FreeCount(AcquireBlock(g, b).pool) == FreeCount(g.pool) - (if g.blocks[b].refCount == 0 then 1 else 0)
  {
    hide AcquireBlock, LanesListIdle, Dequeue, Size, IdlePlain, IdleCached;
    AcquireForm(g, b);
    var block, g' := g.blocks[b], AcquireBlock(g, b);
    var block' := block.(refCount := block.refCount + 1, lastAccessed := g.clock + 1);
    AcquireLanes(g, refs, b);
    assert BlockOk(block') by { assert BlockOk(block); }
    LanesAfter(g'.pool.lanes, g.blocks, b, block');
    MetaSet(g.blocks, b, block');
    CountedSet(g.blocks, refs, b, block', refs + multiset{b});
    assert CacheOk(g'.blocks, g'.cache);
    hide MetaOk, CacheOk, Counted;
  }

  // ----- free

  function Released(block: Block): Block {
    var less := block.(refCount := block.refCount - 1);
    if less.refCount == 0 && !less.cached then ClearMetadata(less) else less
  }

  function LanesFreed(lanes: Lanes, block: Block, b: nat): Lanes {
    if block.refCount != 1 then lanes
    else if block.cached then EnqueueCached(lanes, block.lastAccessed, b)
    else EnqueueUnique(lanes, b)
  }

  lemma {:induction false} FreeForm(g: Gpu, b: nat)
    ensures FreeBlock(g, b) == g.(pool := g.pool.(lanes := LanesFreed(g.pool.lanes, BlockAt(g, b), b)),
                                  blocks := g.blocks[b := Released(BlockAt(g, b))])
  {
  }

  lemma {:induction false} InsertRankedSize(lane: seq<Ranked>, r: Ranked)
    ensures |InsertRanked(lane, r)| == |lane| + 1
  {
    if !(lane == [] || r.stamp < lane[0].stamp) {
      InsertRankedSize(lane[1..], r);
    }
  }

  lemma {:induction false} DropRankedAbsent(lane: seq<Ranked>, b: nat)
    requires forall i :: 0 <= i < |lane| ==> lane[i].block != b
    ensures DropRanked(lane, b) == lane
  {
    if lane != [] {
      DropRankedAbsent(lane[1..], b);
    }
  }

  lemma {:induction false} NotQueued(lanes: Lanes, plain: set<nat>, cached: map<nat, nat>, b: nat)
    requires LanesListIdle(lanes, plain, cached) && b !in plain && b !in cached
    ensures !IsQueued(lanes, b) && Dequeue(lanes, b) == lanes
  {
    CachedMember(lanes.cached, cached, b);
    DropRankedAbsent(lanes.cached, b);
  }

  lemma {:induction false} FreeLanes(g: Gpu, refs: multiset<nat>, b: nat)
    requires Core(g, refs) && b in g.blocks && g.blocks[b].refCount > 0
    ensures var block := g.blocks[b]; var lanes := LanesFreed(g.pool.lanes, block, b);
            && LanesListIdle(lanes, IdlePlain(g.blocks[b := Released(block)]), IdleCached(g.blocks[b := Released(block)]))
            && Size(lanes) == Size(g.pool.lanes) + (if block.refCount == 1 then 1 else 0)
  {
    var block, lanes := g.blocks[b], g.pool.lanes;
    IdleUpdate(g.blocks, b, Released(block));
    IdleAbsent(g.blocks, b);
    NotQueued(lanes, IdlePlain(g.blocks), IdleCached(g.blocks), b);
    if block.refCount == 1 {
      FifoAdd(lanes.fifo, IdlePlain(g.blocks), b);
      CachedAdd(lanes.cached, IdleCached(g.blocks), b, block.lastAccessed);
      InsertRankedSize(lanes.cached, Ranked(block.lastAccessed, b));
    }
  }

  lemma {:induction false} FreeCore(g: Gpu, refs: multiset<nat>, b: nat)
    requires Core(g, refs) && b in refs
    ensures Core(FreeBlock(g, b), refs - multiset{b})
    ensures FreeCount(FreeBlock(g, b).pool) == FreeCount(g.pool) + (if refs[b] == 1 then 1 else 0)
  {
    hide FreeBlock, LanesListIdle, LanesFreed, Size, IdlePlain, IdleCached;
    FreeForm(g, b);
    FreeLanes(g, refs, b);
    var block, block' := g.blocks[b], Released(g.blocks[b]);
    assert BlockOk(block') by { assert BlockOk(block); }
    MetaSet(g.blocks, b, block');
    CountedSet(g.blocks, refs, b, block', refs - multiset{b});
    assert CacheOk(g.blocks[b := block'], g.cache);
    hide MetaOk, CacheOk, Counted;
  }

  // ----- register and mark

  /** Registering a block under its own key, or a blank block under any, moves no other key. */
  lemma {:induction false} RegisterForm(g: Gpu, b: nat, key: PrefixCacheKey)
    requires BlockAt(g, b).hash == None || BlockAt(g, b).hash == Some(key)
    ensures RegisterOne(g, b, key)
         == g.(blocks := g.blocks[b := Block(BlockAt(g, b).refCount, Some(key), true, true, g.clock + 1)],
               cache := g.cache[key := b],
               clock := g.clock + 1,
               trace := g.trace + [Registered(key)])
  {
    var block := BlockAt(g, b);
    assert g.blocks[b := block.(hash := Some(key), isFull := true, cached := true)]
                   [b := Block(block.refCount, Some(key), true, true, g.clock + 1)]
        == g.blocks[b := Block(block.refCount, Some(key), true, true, g.clock + 1)];
  }

  lemma {:induction false} RegisterCore(g: Gpu, refs: multiset<nat>, b: nat, key: PrefixCacheKey)
    requires Core(g, refs) && b in refs && (BlockAt(g, b).hash == None || BlockAt(g, b).hash == Some(key))
    ensures Core(RegisterOne(g, b, key), refs)
  {
    hide RegisterOne, LanesListIdle, IdlePlain, IdleCached;
    RegisterForm(g, b, key);
    var block := g.blocks[b];
    var block' := Block(block.refCount, Some(key), true, true, g.clock + 1);
    IdleAbsent(g.blocks, b);
    LanesAfter(g.pool.lanes, g.blocks, b, block');
    assert BlockOk(block') by { assert BlockOk(block); }
    MetaSet(g.blocks, b, block');
    CountedSet(g.blocks, refs, b, block', refs);
    assert CacheOk(g.blocks[b := block'], g.cache[key := b]);
    hide MetaOk, CacheOk, Counted;
  }

  lemma {:induction false} MarkCore(g: Gpu, refs: multiset<nat>, b: nat, key: PrefixCacheKey)
    requires Core(g, refs) && b in refs && !BlockAt(g, b).cached
    ensures Core(MarkOne(g, b, key), refs)
  {
    hide LanesListIdle, IdlePlain, IdleCached;
    var block := g.blocks[b];
    var block' := block.(hash := Some(key), isFull := true);
    assert MarkOne(g, b, key) == g.(blocks := g.blocks[b := block']);
    IdleAbsent(g.blocks, b);
    LanesAfter(g.pool.lanes, g.blocks, b, block');
    assert BlockOk(block') by { assert BlockOk(block); }
    MetaSet(g.blocks, b, block');
    CountedSet(g.blocks, refs, b, block', refs);
    assert CacheOk(g.blocks[b := block'], g.cache);
    hide MetaOk, CacheOk, Counted;
  }
}

/** The operations on lists of blocks: what they keep, what they change, what they cost. */
module BlockLists {
  import opened Containers
  import opened Keys
  import opened FreeQueues
  import opened BlockPools
  import opened BlockModel
  import opened BlockLanes
  import opened BlockInvariants

  // ----- the free count

  ghost function Held(refs: multiset<nat>): set<nat> {
    set b | b in refs
  }

  lemma {:induction false} MaterialisedCount(blocks: map<nat, Block>, n: nat)
    requires forall x: nat :: x in blocks <==> x < n
    ensures |blocks.Keys| == n
  {
    var ids := Range(0, n);
    forall x: nat ensures x in blocks.Keys <==> x in ids {
      if x < n {
        assert ids[x] == x;
      }
    }
    CardinalityOfList(blocks.Keys, ids);
  }

  lemma {:induction false} ThreeSets(all: set<nat>, a: set<nat>, b: set<nat>, c: set<nat>)
    requires all == a + b + c && a !! b && (a + b) !! c
    ensures |all| == |a| + |b| + |c|
  {
  }

  lemma {:induction false} LanesSize(lanes: Lanes, plain: set<nat>, cached: map<nat, nat>)
    requires LanesListIdle(lanes, plain, cached)
    ensures Size(lanes) == |plain| + |cached.Keys|
  {
    CardinalityOfList(plain, lanes.fifo);
    CachedSize(lanes.cached, cached);
  }

  lemma {:induction false} IdleOrHeld(blocks: map<nat, Block>, refs: multiset<nat>)
    requires Counted(blocks, refs)
    ensures blocks.Keys == IdlePlain(blocks) + IdleCached(blocks).Keys + Held(refs)
    ensures IdlePlain(blocks) !! IdleCached(blocks).Keys && (IdlePlain(blocks) + IdleCached(blocks).Keys) !! Held(refs)
  {
    var plain: set<nat>, cached: set<nat> := IdlePlain(blocks), IdleCached(blocks).Keys;
    forall b: nat ensures b in blocks.Keys <==> b in plain + cached + Held(refs) {
    }
    forall b: nat ensures !(b in plain + cached && b in Held(refs)) {
    }
  }

  /** Every block is fresh, queued, or referenced: never two of these, never none. */
  lemma {:induction false} FreePlusHeld(g: Gpu, refs: multiset<nat>)
    requires Core(g, refs)
    ensures FreeCount(g.pool) + |Held(refs)| == g.pool.numBlocks
  {
    hide LanesListIdle, MetaOk, CacheOk, Counted, IdlePlain, IdleCached;
    var plain: set<nat>, cached: map<nat, nat> := IdlePlain(g.blocks), IdleCached(g.blocks);
    LanesSize(g.pool.lanes, plain, cached);
    MaterialisedCount(g.blocks, g.pool.nextFresh);
    IdleOrHeld(g.blocks, refs);
    ThreeSets(g.blocks.Keys, plain, cached.Keys, Held(refs));
  }

  // ----- allocate

  /** Observer events of a run without rekeying: every evicted block carries a key. */
  predicate Keyed(event: Event) {
    event.Evicted? ==> event.lost.Some? && event.why.Capacity?
  }

  /** The index only loses keys, and none of a block somebody holds. */
  ghost predicate IndexShrinks(cache: map<PrefixCacheKey, nat>, cache': map<PrefixCacheKey, nat>, refs: multiset<nat>) {
    && (forall k :: k in cache' ==> k in cache && cache'[k] == cache[k])
    && (forall k :: k in cache && cache[k] in refs ==> k in cache')
  }

  /** Keys that leave the index are announced, and no others are. */
  ghost predicate Announced(g: Gpu, g': Gpu) {
    && |g.trace| <= |g'.trace| && g'.trace[..|g.trace|] == g.trace
    && (forall i :: |g.trace| <= i < |g'.trace| ==> g'.trace[i].Evicted? && Keyed(g'.trace[i]))
    && (forall k :: k in g.cache && k !in g'.cache ==> Evicted(Some(k), Capacity) in g'.trace[|g.trace|..])
  }

  /** The blocks handed out are new to their holders, and those already held are untouched. */
  ghost predicate Handed(blocks: map<nat, Block>, blocks': map<nat, Block>, refs: multiset<nat>, bs: seq<nat>) {
    && Distinct(bs)
    && (forall b :: b in bs ==> b !in refs && b in blocks' && blocks'[b] == TAKEN_BLOCK)
    && (forall b :: b in refs ==> b in blocks && b in blocks' && blocks'[b] == blocks[b])
  }

  ghost predicate Allocated(g: Gpu, g': Gpu, refs: multiset<nat>, bs: seq<nat>) {
    && g' == g.(pool := g'.pool, blocks := g'.blocks, cache := g'.cache, trace := g'.trace)
    && g'.pool.numBlocks == g.pool.numBlocks
    && FreeCount(g'.pool) == FreeCount(g.pool) - |bs|
    && Handed(g.blocks, g'.blocks, refs, bs)
    && IndexShrinks(g.cache, g'.cache, refs)
    && Announced(g, g')
  }

  lemma {:induction false} HandedSnoc(blocks: map<nat, Block>, blocks1: map<nat, Block>, refs: multiset<nat>,
                                      bs: seq<nat>, b: nat)
    requires Handed(blocks, blocks1, refs, bs) && (refs + multiset(bs))[b] == 0
    ensures Handed(blocks, blocks1[b := TAKEN_BLOCK], refs, bs + [b])
  {
    assert b !in multiset(bs) && b !in bs;
  }

  lemma {:induction false} ShrinksThen(a: map<PrefixCacheKey, nat>, b: map<PrefixCacheKey, nat>,
                                       c: map<PrefixCacheKey, nat>, refs: multiset<nat>, more: multiset<nat>)
    requires IndexShrinks(a, b, refs) && IndexShrinks(b, c, refs + more)
    ensures IndexShrinks(a, c, refs)
  {
  }

  lemma {:induction false} AllocatedNothing(g: Gpu, refs: multiset<nat>)
    requires Core(g, refs)
    ensures Allocated(g, g, refs, [])
  {
  }

  lemma {:induction false} AllocAnnounced(g: Gpu, refs: multiset<nat>)
    requires Core(g, refs) && HasFree(g.pool)
    ensures Announced(g, AllocBlock(g).1) && IndexShrinks(g.cache, AllocBlock(g).1.cache, refs)
  {
    AllocForm(g, refs);
    var (b, g') := AllocBlock(g);
    hide AllocBlock, PoolOk, LanesListIdle;
    var more := AllocEvents(g, b);
    assert g'.trace[|g.trace|..] == more;
    assert b in g.blocks && g.blocks[b].cached ==> BlockOk(g.blocks[b]);
    forall k | k in g.cache && k !in g'.cache ensures Evicted(Some(k), Capacity) in more {
      assert g.cache[k] == b && more == [Evicted(Some(k), Capacity)];
    }
  }

  lemma {:induction false} AllocSnoc(g: Gpu, g1: Gpu, refs: multiset<nat>, bs: seq<nat>)
    requires Core(g, refs) && Core(g1, refs + multiset(bs)) && Allocated(g, g1, refs, bs) && HasFree(g1.pool)
    ensures var (b, g2) := AllocBlock(g1);
            Allocated(g, g2, refs, bs + [b]) && Core(g2, refs + multiset(bs + [b]))
  {
    var refs1 := refs + multiset(bs);
    AllocForm(g1, refs1);
    AllocCore(g1, refs1);
    AllocAnnounced(g1, refs1);
    var (b, g2) := AllocBlock(g1);
    assert refs1 + multiset{b} == refs + multiset(bs + [b]) by { MultisetSnoc(refs, bs, b); }
    hide AllocBlock, Core, LanesListIdle, IdlePlain, IdleCached, AllocEvents, Announced, Handed, IndexShrinks;
    HandedSnoc(g.blocks, g1.blocks, refs, bs, b);
    ShrinksThen(g.cache, g1.cache, g2.cache, refs, multiset(bs));
    AnnouncedThen(g, g1, g2);
  }

  lemma {:induction false} MultisetSnoc(refs: multiset<nat>, bs: seq<nat>, b: nat)
    ensures refs + multiset(bs) + multiset{b} == refs + multiset(bs + [b])
  {
    assert multiset(bs + [b]) == multiset(bs) + multiset{b};
  }

  lemma {:induction false} AnnouncedThen(g: Gpu, g1: Gpu, g2: Gpu)
    requires Announced(g, g1) && Announced(g1, g2)
    ensures Announced(g, g2)
  {
    var n, n1 := |g.trace|, |g1.trace|;
    assert g2.trace[..n1][..n] == g2.trace[..n];
    assert g2.trace[n..] == g1.trace[n..] + g2.trace[n1..];
    forall i | n <= i < |g2.trace| ensures g2.trace[i].Evicted? && Keyed(g2.trace[i]) {
      if i < n1 {
        assert g2.trace[i] == g1.trace[i];
      }
    }
  }

  /** Allocation succeeds exactly when enough blocks are free, and never touches a held block. */
  lemma {:induction false} AllocManyMeans(g: Gpu, refs: multiset<nat>, n: nat)
    requires Core(g, refs)
    ensures var (ok, bs, g') := AllocMany(g, n);
            && Core(g', refs + multiset(bs)) && Allocated(g, g', refs, bs)
            && (ok <==> FreeCount(g.pool) >= n) && |bs| == (if ok then n else FreeCount(g.pool))
  {
    if n == 0 {
      AllocatedNothing(g, refs);
      assert refs + multiset([]) == refs;
    } else {
      AllocManyMeans(g, refs, n - 1);
      var (ok, bs, g1) := AllocMany(g, n - 1);
      FreeMeansHasFree(g1, refs + multiset(bs));
      assert FreeCount(g1.pool) >= 0;
      hide Core, HasFree, AllocBlock, Announced, Handed, IndexShrinks;
      if ok && HasFree(g1.pool) {
        AllocSnoc(g, g1, refs, bs);
      }
    }
  }

  lemma {:induction false} MultisetDrop(refs: multiset<nat>, bs: seq<nat>, b: nat)
    requires multiset(bs + [b]) <= refs
    ensures multiset(bs) <= refs && b in refs - multiset(bs)
    ensures refs - multiset(bs) - multiset{b} == refs - multiset(bs + [b])
  {
    assert multiset(bs + [b]) == multiset(bs) + multiset{b};
  }

  lemma {:induction false} CountIs(g: Gpu, refs: multiset<nat>, b: nat)
    requires Core(g, refs)
    ensures b in refs ==> b in g.blocks
    ensures b in g.blocks ==> g.blocks[b].refCount == refs[b]
  {
  }

  lemma {:induction false} Snoc<T>(s: seq<T>)
    requires s != []
    ensures s == s[..|s| - 1] + [s[|s| - 1]]
    ensures Distinct(s) ==> Distinct(s[..|s| - 1]) && s[|s| - 1] !in s[..|s| - 1]
    ensures forall x :: x in s[..|s| - 1] ==> x in s
  {
  }

  // ----- acquire

  predicate SameMark(x: Block, y: Block) {
    x.hash == y.hash && x.isFull == y.isFull && x.cached == y.cached
  }

  ghost predicate SameMarks(blocks: map<nat, Block>, blocks': map<nat, Block>) {
    blocks'.Keys == blocks.Keys && forall b :: b in blocks ==> SameMark(blocks[b], blocks'[b])
  }

  ghost predicate Acquired(g: Gpu, g': Gpu) {
    && g' == g.(pool := g'.pool, blocks := g'.blocks, clock := g'.clock)
    && g'.pool.numBlocks == g.pool.numBlocks
    && SameMarks(g.blocks, g'.blocks)
  }

  lemma {:induction false} AcquireOne(g: Gpu, g1: Gpu, refs: multiset<nat>, b: nat)
    requires Acquired(g, g1) && Core(g1, refs) && b in g.blocks && g.blocks[b].cached
    ensures Acquired(g, AcquireBlock(g1, b)) && Core(AcquireBlock(g1, b), refs + multiset{b})
    ensures FreeCount(AcquireBlock(g1, b).pool) == FreeCount(g1.pool) - (if refs[b] == 0 then 1 else 0)
  {
    AcquireForm(g1, b);
    AcquireCore(g1, refs, b);
    hide AcquireBlock, LanesListIdle, MetaOk, CacheOk, PoolOk;
  }

  /** Acquiring hits costs at most as many free blocks as the plan counted, exactly as many when
      no hit repeats. */
  lemma {:induction false} AcquireAllMeans(g: Gpu, refs: multiset<nat>, bs: seq<nat>)
    requires Core(g, refs) && forall b :: b in bs ==> b in g.blocks && g.blocks[b].cached
    ensures var g' := AcquireAll(g, bs);
            && Core(g', refs + multiset(bs)) && Acquired(g, g')
            && FreeCount(g'.pool) >= FreeCount(g.pool) - ZeroRefs(g, bs)
            && (Distinct(bs) ==> FreeCount(g'.pool) == FreeCount(g.pool) - ZeroRefs(g, bs))
  {
    hide Core, Acquired, AcquireBlock, Distinct;
    if bs == [] {
      assert refs + multiset(bs) == refs;
      AcquiredNothing(g);
    } else {
      var front, b := bs[..|bs| - 1], bs[|bs| - 1];
      Snoc(bs);
      AcquireAllMeans(g, refs, front);
      AcquireOne(g, AcquireAll(g, front), refs + multiset(front), b);
      MultisetSnoc(refs, front, b);
      CountIs(g, refs, b);
    }
  }

  lemma {:induction false} AcquiredNothing(g: Gpu)
    ensures Acquired(g, g)
  {
  }

  // ----- free

  /** Blocks somebody still holds keep everything but their count. */
  ghost predicate Freed(g: Gpu, g': Gpu, refs': multiset<nat>) {
    && g' == g.(pool := g'.pool, blocks := g'.blocks)
    && g'.pool.numBlocks == g.pool.numBlocks
    && FreeCount(g'.pool) >= FreeCount(g.pool)
    && (forall b :: b in g.blocks ==> b in g'.blocks)
    && (forall b :: b in refs' ==> b in g.blocks && SameMark(g.blocks[b], g'.blocks[b]))
    && (forall b :: b in g.blocks && g.blocks[b].cached ==> SameMark(g.blocks[b], g'.blocks[b]))
  }

  lemma {:induction false} FreeOne(g: Gpu, g1: Gpu, refs: multiset<nat>, b: nat)
    requires Freed(g, g1, refs) && Core(g1, refs) && b in refs
    ensures Freed(g, FreeBlock(g1, b), refs - multiset{b}) && Core(FreeBlock(g1, b), refs - multiset{b})
  {
    FreeForm(g1, b);
    FreeCore(g1, refs, b);
    hide FreeBlock, LanesListIdle, MetaOk, CacheOk, PoolOk, LanesFreed;
  }

  lemma {:induction false} FreeAllMeans(g: Gpu, refs: multiset<nat>, bs: seq<nat>)
    requires Core(g, refs) && multiset(bs) <= refs
    ensures var g' := FreeAll(g, bs); Core(g', refs - multiset(bs)) && Freed(g, g', refs - multiset(bs))
  {
    hide Core, Freed, FreeBlock;
    if bs == [] {
      assert refs - multiset(bs) == refs;
      FreedNothing(g, refs);
    } else {
      var front, b := bs[..|bs| - 1], bs[|bs| - 1];
      Snoc(bs);
      MultisetDrop(refs, front, b);
      FreeAllMeans(g, refs, front);
      FreeOne(g, FreeAll(g, front), refs - multiset(front), b);
    }
  }

  lemma {:induction false} FreedNothing(g: Gpu, refs: multiset<nat>)
    requires Core(g, refs)
    ensures Freed(g, g, refs)
  {
    hide PoolOk, MetaOk, CacheOk;
  }

  // ----- mark

  /** Only the named blocks change, and only in their key and mark. */
  ghost predicate Marked(g: Gpu, g': Gpu, bs: seq<nat>, keys: seq<PrefixCacheKey>)
    requires |bs| == |keys|
  {
    && g' == g.(blocks := g'.blocks)
    && g'.blocks.Keys == g.blocks.Keys
    && (forall b :: b in g.blocks && b !in bs ==> g'.blocks[b] == g.blocks[b])
    && (forall i :: 0 <= i < |bs| ==> bs[i] in g.blocks
                                      && g'.blocks[bs[i]] == g.blocks[bs[i]].(hash := Some(keys[i]), isFull := true))
  }

  lemma {:induction false} MarkSnoc(g: Gpu, g1: Gpu, bs: seq<nat>, keys: seq<PrefixCacheKey>, b: nat,
                                    key: PrefixCacheKey)
    requires |bs| == |keys| && Marked(g, g1, bs, keys) && b in g.blocks && b !in bs && !g.blocks[b].cached
    ensures Marked(g, MarkOne(g1, b, key), bs + [b], keys + [key])
  {
    var g2 := MarkOne(g1, b, key);
    assert g1.blocks[b] == g.blocks[b];
    assert g2 == g1.(blocks := g1.blocks[b := g.blocks[b].(hash := Some(key), isFull := true)]);
    assert forall i :: 0 <= i < |bs| ==> bs[i] != b;
  }

  lemma {:induction false} MarkedOther(g: Gpu, g1: Gpu, bs: seq<nat>, keys: seq<PrefixCacheKey>, b: nat)
    requires |bs| == |keys| && Marked(g, g1, bs, keys) && b in g.blocks && b !in bs
    ensures BlockAt(g1, b) == BlockAt(g, b)
  {
  }

  lemma {:induction false} MarkAllMeans(g: Gpu, refs: multiset<nat>, bs: seq<nat>, keys: seq<PrefixCacheKey>)
    requires |bs| == |keys| && Core(g, refs) && Distinct(bs)
    requires forall b :: b in bs ==> b in refs && !BlockAt(g, b).cached
    ensures Core(MarkAll(g, bs, keys), refs) && Marked(g, MarkAll(g, bs, keys), bs, keys)
  {
    hide Core, Marked, MarkOne, Distinct;
    if bs == [] {
      MarkedNothing(g);
    } else {
      var n := |bs| - 1;
      var front, b := bs[..n], bs[n];
      Snoc(bs);
      Snoc(keys);
      MarkAllMeans(g, refs, front, keys[..n]);
      CountIs(g, refs, b);
      MarkedOther(g, MarkAll(g, front, keys[..n]), front, keys[..n], b);
      MarkCore(MarkAll(g, front, keys[..n]), refs, b, keys[n]);
      MarkSnoc(g, MarkAll(g, front, keys[..n]), front, keys[..n], b, keys[n]);
    }
  }

  lemma {:induction false} MarkedNothing(g: Gpu)
    ensures Marked(g, g, [], [])
  {
  }

  // ----- register

  /** A block may be registered under the key it carries already, or if blank, under one key. */
  ghost predicate Registrable(g: Gpu, bs: seq<nat>, keys: seq<PrefixCacheKey>)
    requires |bs| == |keys|
  {
    forall i :: 0 <= i < |bs| ==>
      || BlockAt(g, bs[i]).hash == Some(keys[i])
      || (BlockAt(g, bs[i]).hash == None && forall j :: 0 <= j < |bs| && j != i ==> bs[j] != bs[i])
  }

  ghost function RegisterEvents(keys: seq<PrefixCacheKey>): (r: seq<Event>)
    ensures |r| == |keys|
  {
    seq(|keys|, i requires 0 <= i < |keys| => Registered(keys[i]))
  }

  ghost predicate Indexed(cache: map<PrefixCacheKey, nat>, cache': map<PrefixCacheKey, nat>,
                          keys: seq<PrefixCacheKey>) {
    forall k :: k in cache' <==> k in cache || k in keys
  }

  ghost predicate Stamped(blocks: map<nat, Block>, blocks': map<nat, Block>, bs: seq<nat>, keys: seq<PrefixCacheKey>)
    requires |bs| == |keys|
  {
    && blocks'.Keys == blocks.Keys
    && (forall b :: b in blocks ==> blocks'[b].refCount == blocks[b].refCount)
    && (forall b :: b in blocks && b !in bs ==> blocks'[b] == blocks[b])
    && (forall i :: 0 <= i < |bs| ==> bs[i] in blocks && blocks'[bs[i]].hash == Some(keys[i])
                                      && blocks'[bs[i]].isFull && blocks'[bs[i]].cached)
  }

  ghost predicate AllRegistered(g: Gpu, g': Gpu, bs: seq<nat>, keys: seq<PrefixCacheKey>)
    requires |bs| == |keys|
  {
    && g' == g.(blocks := g'.blocks, cache := g'.cache, clock := g'.clock, trace := g'.trace)
    && Stamped(g.blocks, g'.blocks, bs, keys)
    && Indexed(g.cache, g'.cache, keys)
    && g'.trace == g.trace + RegisterEvents(keys)
  }

  lemma {:induction false} StampedSnoc(blocks: map<nat, Block>, blocks1: map<nat, Block>, bs: seq<nat>,
                                       keys: seq<PrefixCacheKey>, b: nat, key: PrefixCacheKey, stamp: nat)
    requires |bs| == |keys| && Stamped(blocks, blocks1, bs, keys) && b in blocks
    requires blocks1[b].hash == None || blocks1[b].hash == Some(key)
    ensures Stamped(blocks, blocks1[b := Block(blocks1[b].refCount, Some(key), true, true, stamp)], bs + [b], keys + [key])
  {
    var blocks' := blocks1[b := Block(blocks1[b].refCount, Some(key), true, true, stamp)];
    forall i | 0 <= i < |bs| ensures blocks'[bs[i]].hash == Some(keys[i]) {
    }
  }

  lemma {:induction false} RegisterSnoc(g: Gpu, g1: Gpu, bs: seq<nat>, keys: seq<PrefixCacheKey>, b: nat,
                                        key: PrefixCacheKey)
    requires |bs| == |keys| && AllRegistered(g, g1, bs, keys) && b in g.blocks
    requires b in g1.blocks && (g1.blocks[b].hash == None || g1.blocks[b].hash == Some(key))
    ensures AllRegistered(g, RegisterOne(g1, b, key), bs + [b], keys + [key])
  {
    RegisterForm(g1, b, key);
    StampedSnoc(g.blocks, g1.blocks, bs, keys, b, key, g1.clock + 1);
    hide RegisterOne, Stamped;
    assert RegisterEvents(keys + [key]) == RegisterEvents(keys) + [Registered(key)];
  }

  lemma {:induction false} RegistrableFront(g: Gpu, bs: seq<nat>, keys: seq<PrefixCacheKey>)
    requires |bs| == |keys| && bs != [] && Registrable(g, bs, keys)
    ensures Registrable(g, bs[..|bs| - 1], keys[..|bs| - 1])
  {
  }

  lemma {:induction false} RegistrableLast(g: Gpu, g1: Gpu, bs: seq<nat>, keys: seq<PrefixCacheKey>)
    requires |bs| == |keys| && bs != [] && Registrable(g, bs, keys) && bs[|bs| - 1] in g.blocks
    requires AllRegistered(g, g1, bs[..|bs| - 1], keys[..|bs| - 1])
    ensures BlockAt(g1, bs[|bs| - 1]).hash == None || BlockAt(g1, bs[|bs| - 1]).hash == Some(keys[|bs| - 1])
    ensures bs[|bs| - 1] in g1.blocks
  {
    var n := |bs| - 1;
    if bs[n] in bs[..n] {
      var i :| 0 <= i < n && bs[..n][i] == bs[n];
      assert bs[i] == bs[n];
    }
  }

  lemma {:induction false} RegisterAllMeans(g: Gpu, refs: multiset<nat>, bs: seq<nat>, keys: seq<PrefixCacheKey>)
    requires |bs| == |keys| && Core(g, refs) && Registrable(g, bs, keys)
    requires forall b :: b in bs ==> b in refs
    ensures Core(RegisterAll(g, bs, keys), refs) && AllRegistered(g, RegisterAll(g, bs, keys), bs, keys)
  {
    hide Core, AllRegistered, RegisterOne, Registrable;
    if bs == [] {
      RegisteredNothing(g);
    } else {
      var n := |bs| - 1;
      var front, b, key := bs[..n], bs[n], keys[n];
      Snoc(bs);
      Snoc(keys);
      RegistrableFront(g, bs, keys);
      RegisterAllMeans(g, refs, front, keys[..n]);
      CountIs(g, refs, b);
      RegistrableLast(g, RegisterAll(g, front, keys[..n]), bs, keys);
      RegisterCore(RegisterAll(g, front, keys[..n]), refs, b, key);
      RegisterSnoc(g, RegisterAll(g, front, keys[..n]), front, keys[..n], b, key);
    }
  }

  lemma {:induction false} RegisteredNothing(g: Gpu)
    ensures AllRegistered(g, g, [], [])
  {
    assert g.trace + RegisterEvents([]) == g.trace;
  }
}

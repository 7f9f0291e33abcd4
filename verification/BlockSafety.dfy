/** What holds in every reachable state of the block manager. */
module BlockSafety {
  import opened Containers
  import opened Keys
  import opened FreeQueues
  import opened BlockPools
  import opened BlockModel
  import opened BlockLanes
  import opened BlockInvariants
  import opened BlockLists
  import opened BlockTables
  import opened BlockRuns

  // ----- reserved blocks

  lemma {:induction false} ReservedRefs(g: Gpu, bs: seq<nat>)
    ensures AllRefs(g.(reserved := g.reserved + bs)) == AllRefs(g) + multiset(bs)
  {
    assert multiset(g.reserved + bs) == multiset(g.reserved) + multiset(bs);
  }

  lemma {:induction false} AddThenDrop(refs: multiset<nat>, more: multiset<nat>)
    ensures refs + more - more == refs && more <= refs + more
  {
  }

  lemma {:induction false} ReserveKeeps(g: Gpu, n: nat)
    requires Inv(g)
    ensures Inv(Reserve(g, n).1) && Reserve(g, n).1.tables == g.tables
    ensures Reserve(g, n).0 <==> FreeCount(g.pool) >= n
  {
    hide Core, Allocated, AllRefs, Kept, AllKeyed, Announced, Freed, RowOk;
    var refs := AllRefs(g);
    AllocManyMeans(g, refs, n);
    var (ok, bs, g1) := AllocMany(g, n);
    AllocatedFacts(g, g1, refs, bs);
    KeptByAlloc(g, g1, refs, bs);
    KeyedThen(g, g1);
    RefsInclude(g);
    if ok {
      RowsFrame(g.tables, g.claims, g.claims, g.blocks, g1.blocks, refs);
      RefsSame(g, g1);
      ReservedRefs(g1, bs);
      CoreSame(g1, g1.(reserved := g1.reserved + bs), refs + multiset(bs));
    } else {
      AddThenDrop(refs, multiset(bs));
      FreeAllMeans(g1, refs + multiset(bs), bs);
      var g' := FreeAll(g1, bs);
      KeptByFree(g1, g', refs);
      KeptThen(g.blocks, g1.blocks, g'.blocks, refs);
      RowsFrame(g.tables, g.claims, g.claims, g.blocks, g'.blocks, refs);
      RefsSame(g, g');
    }
  }

  lemma {:induction false} ReservedSplit(g: Gpu, n: nat)
    requires n <= |g.reserved|
    ensures multiset(g.reserved[..n]) <= AllRefs(g)
    ensures AllRefs(g) - multiset(g.reserved[..n]) == AllRefs(g.(reserved := g.reserved[n..]))
  {
    assert g.reserved == g.reserved[..n] + g.reserved[n..];
  }

  lemma {:induction false} ReleaseReservedKeeps(g: Gpu, n: nat)
    requires Inv(g)
    ensures Inv(ReleaseReserved(g, n).1) && ReleaseReserved(g, n).1.tables == g.tables
  {
    hide Core, AllRefs, Kept, AllKeyed, Freed, RowOk;
    if n <= |g.reserved| {
      var g0 := g.(reserved := g.reserved[n..]);
      ReservedSplit(g, n);
      CoreSame(g, g0, AllRefs(g));
      FreeAllMeans(g0, AllRefs(g), g.reserved[..n]);
      var g' := FreeAll(g0, g.reserved[..n]);
      KeptByFree(g0, g', AllRefs(g0));
      RefsSame(g0, g');
      RefsInclude(g0);
      RowsFrame(g.tables, g.claims, g.claims, g.blocks, g'.blocks, AllRefs(g0));
    }
  }

  /** Reservations are given back in the order they were made: releasing as many as were reserved before
      leaves exactly the latest ones. */
  lemma {:induction false} ReservedLeaveInOrder(g: Gpu, n: nat)
    requires Reserve(g, n).0
    ensures var g1 := Reserve(g, n).1;
            var (ok, g2) := ReleaseReserved(g1, |g.reserved|);
            && |g1.reserved| == |g.reserved| + n && g1.reserved[..|g.reserved|] == g.reserved
            && ok && g2.reserved == g1.reserved[|g.reserved|..]
  {
    AllocManyReserves(g, n);
    var (_, bs, g1) := AllocMany(g, n);
    hide AllocMany, FreeAll;
    var g2 := g1.(reserved := g1.reserved + bs);
    assert g2.reserved[..|g.reserved|] == g.reserved;
    FreeAllReserves(g2.(reserved := g2.reserved[|g.reserved|..]), g.reserved);
  }

  lemma {:induction false} AllocManyReserves(g: Gpu, n: nat)
    ensures var (ok, bs, g1) := AllocMany(g, n); g1.reserved == g.reserved && (ok ==> |bs| == n)
  {
    if n > 0 {
      AllocManyReserves(g, n - 1);
      hide PopFree;
    }
  }

  lemma {:induction false} FreeAllReserves(g: Gpu, bs: seq<nat>)
    ensures FreeAll(g, bs).reserved == g.reserved
  {
    if bs != [] {
      FreeAllReserves(g, bs[..|bs| - 1]);
    }
  }

  // ----- every step, every run

  lemma {:induction false} StepKeeps(g: Gpu, watermark: nat, call: GpuCall)
    requires Inv(g)
    ensures Inv(GpuStep(g, watermark, call))
  {
    hide Inv, CanAllocate, AllocateAsk, AppendSlot, CommitInput, Finish, Release, Reserve, ReleaseReserved;
    if Sensible(g, call) {
      match call
      case AdmitCall(ask) =>
        if CanAllocate(g, ask, watermark) {
          AdmissionSound(g, ask, watermark);
          AllocateKeeps(g, ask);
        }
      case AppendCall(id, logical) => SlotKeeps(g, id, logical);
      case CommitCall(id) => CommitKeeps(g, id);
      case FinishCall(id, start, keys) =>
        InvClaims(g, id);
        FinishKeeps(g, id, start, keys);
      case ReleaseCall(id) =>
        InvIsInvBut(g, id);
        ReleaseKeeps(g, id);
      case ReserveCall(n) => ReserveKeeps(g, n);
      case ReleaseReservedCall(n) => ReleaseReservedKeeps(g, n);
    }
  }

  lemma {:induction false} NewInv(numBlocks: nat)
    ensures Inv(NewGpu(numBlocks))
  {
    var g := NewGpu(numBlocks);
    assert AllRefs(g) == multiset{};
    assert IdlePlain(g.blocks) == {} && IdleCached(g.blocks) == map[];
  }

  lemma {:induction false} RunInv(numBlocks: nat, watermark: nat, calls: seq<GpuCall>)
    ensures Inv(GpuRun(numBlocks, watermark, calls))
  {
    hide Inv;
    if calls == [] {
      NewInv(numBlocks);
    } else {
      RunInv(numBlocks, watermark, calls[..|calls| - 1]);
      StepKeeps(GpuRun(numBlocks, watermark, calls[..|calls| - 1]), watermark, calls[|calls| - 1]);
    }
  }

  lemma {:induction false} StepSize(g: Gpu, watermark: nat, call: GpuCall)
    requires Inv(g)
    ensures GpuStep(g, watermark, call).pool.numBlocks == g.pool.numBlocks
  {
    hide Inv, Core, PopFree;
    if Sensible(g, call) {
      match call
      case AdmitCall(ask) =>
        if CanAllocate(g, ask, watermark) {
          AdmissionSound(g, ask, watermark);
          InvCore(g);
          AllocSteps(g, ask);
          AllocateMeans(g, ask);
        }
      case AppendCall(id, logical) =>
        if |TableOf(g, id)| < logical && HasFree(g.pool) {
          InvCore(g);
          AllocOne(g, AllRefs(g));
        }
      case CommitCall(id) => CommitKeeps(g, id);
      case FinishCall(id, start, keys) => FinishSize(g, id, start, keys);
      case ReleaseCall(id) => FreeAllSize(g.(tables := g.tables - {id}), TableOf(g, id));
      case ReserveCall(n) =>
        InvCore(g);
        AllocManyMeans(g, AllRefs(g), n);
        FreeAllSize(AllocMany(g, n).2, AllocMany(g, n).1);
      case ReleaseReservedCall(n) =>
        if n <= |g.reserved| {
          FreeAllSize(g.(reserved := g.reserved[n..]), g.reserved[..n]);
        }
    }
  }

  lemma {:induction false} FreeAllSize(g: Gpu, bs: seq<nat>)
    ensures FreeAll(g, bs).pool.numBlocks == g.pool.numBlocks
  {
    if bs != [] {
      FreeAllSize(g, bs[..|bs| - 1]);
    }
  }

  lemma {:induction false} FinishSize(g: Gpu, id: nat, start: nat, keys: seq<PrefixCacheKey>)
    requires Inv(g) && id in g.tables && |ClaimOf(g, id).keys| <= start
    ensures Finish(g, id, start, keys).pool.numBlocks == g.pool.numBlocks
  {
    hide Inv, CommitInput, RegisterOutput, FreeAll;
    InvClaims(g, id);
    CommitKeeps(g, id);
    var g1 := CommitInput(g, id);
    InvClaims(g1, id);
    OutputKeeps(g1, id, start, keys);
    var g2 := RegisterOutput(g1, id, start, keys);
    FreeAllSize(g2.(tables := g2.tables - {id}), TableOf(g2, id));
  }

  lemma {:induction false} RunSize(numBlocks: nat, watermark: nat, calls: seq<GpuCall>)
    ensures GpuRun(numBlocks, watermark, calls).pool.numBlocks == numBlocks
  {
    if calls != [] {
      RunSize(numBlocks, watermark, calls[..|calls| - 1]);
      RunInv(numBlocks, watermark, calls[..|calls| - 1]);
      StepSize(GpuRun(numBlocks, watermark, calls[..|calls| - 1]), watermark, calls[|calls| - 1]);
    }
  }

  /** Reference counts are conserved: a block is counted once per place that lists it, it waits
      in the free queue exactly when nothing does, and fresh, queued and referenced blocks make
      up the pool. */
  lemma {:induction false} ReferenceCountsConserved(numBlocks: nat, watermark: nat, calls: seq<GpuCall>)
    ensures var g := GpuRun(numBlocks, watermark, calls);
            && (forall b :: b in g.blocks ==> g.blocks[b].refCount == TableRefs(g.tables)[b] + multiset(g.reserved)[b])
            && (forall b: nat :: IsQueued(g.pool.lanes, b) <==> b in g.blocks && g.blocks[b].refCount == 0)
            && (g.pool.numBlocks - g.pool.nextFresh) + Size(g.pool.lanes) + |Held(AllRefs(g))| == numBlocks
  {
    RunInv(numBlocks, watermark, calls);
    RunSize(numBlocks, watermark, calls);
    var g := GpuRun(numBlocks, watermark, calls);
    hide GpuRun;
    FreePlusHeld(g, AllRefs(g));
    QueuedIffIdle(g, AllRefs(g));
  }

  lemma {:induction false} QueuedIffIdle(g: Gpu, refs: multiset<nat>)
    requires Core(g, refs)
    ensures forall b: nat :: IsQueued(g.pool.lanes, b) <==> b in g.blocks && g.blocks[b].refCount == 0
  {
    forall b: nat ensures IsQueued(g.pool.lanes, b) <==> b in g.blocks && g.blocks[b].refCount == 0 {
      CachedMember(g.pool.lanes.cached, IdleCached(g.blocks), b);
    }
  }

  /** The index and the block metadata agree; a live request's block i carries its key i; and no
      eviction is ever a rekey or without a key. */
  lemma {:induction false} PrefixIndexCoherent(numBlocks: nat, watermark: nat, calls: seq<GpuCall>)
    ensures var g := GpuRun(numBlocks, watermark, calls);
            && (forall k :: k in g.cache ==> g.cache[k] in g.blocks && g.blocks[g.cache[k]].cached
                                             && g.blocks[g.cache[k]].isFull && g.blocks[g.cache[k]].hash == Some(k))
            && (forall id, i :: id in g.tables && id in g.claims && 0 <= i < |g.claims[id].keys| && i < |g.tables[id]|
                                && g.tables[id][i] in g.blocks
                                ==> g.blocks[g.tables[id][i]].hash == Some(g.claims[id].keys[i]))
            && (forall id :: id in g.tables ==> id in g.claims && |g.claims[id].keys| <= |g.tables[id]|)
            && AllKeyed(g.trace)
  {
    RunInv(numBlocks, watermark, calls);
    var g := GpuRun(numBlocks, watermark, calls);
    hide GpuRun, PoolOk, Counted, AllRefs;
    forall k | k in g.cache ensures g.cache[k] in g.blocks && BlockOk(g.blocks[g.cache[k]]) {
    }
    forall id | id in g.tables ensures id in g.claims && RowOk(g.tables[id], g.claims[id], g.blocks) {
    }
  }
}

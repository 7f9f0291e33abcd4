/** Least recently used: access stamps are the places of a block's last use, and cached content goes
    oldest first, only when no blank block is left. */
module BlockRecency {
  import opened Containers
  import opened Keys
  import opened FreeQueues
  import opened BlockPools
  import opened BlockModel
  import opened BlockLanes
  import opened BlockInvariants
  import opened BlockLists
  import opened BlockTables
  import opened BlockRuns
  import opened BlockSafety

  // ----- what a use is

  function CommitRow(g: Gpu, id: nat): seq<nat> {
    var keys, table := ClaimOf(g, id).keys, TableOf(g, id);
    if ClaimOf(g, id).committed then [] else table[..if |keys| <= |table| then |keys| else |table|]
  }

  function OutputRow(g: Gpu, id: nat, start: nat, n: nat): seq<nat> {
    var table := TableOf(g, id);
    var end := if start + n <= |table| then start + n else |table|;
    if start >= end then [] else table[start..end]
  }

  /** The blocks a call uses, in order: an admission the blocks it hits, a commit or a finish those it
      registers. */
  function Uses(g: Gpu, watermark: nat, call: GpuCall): seq<nat> {
    if !Sensible(g, call) then [] else
    match call
    case AdmitCall(ask) => if CanAllocate(g, ask, watermark) then Hits(g, ask.keys) else []
    case CommitCall(id) => CommitRow(g, id)
    case FinishCall(id, start, keys) => CommitRow(g, id) + OutputRow(g, id, start, |keys|)
    case _ => []
  }

  function History(numBlocks: nat, watermark: nat, calls: seq<GpuCall>): seq<nat> {
    if calls == [] then []
    else
      var front, last := calls[..|calls| - 1], calls[|calls| - 1];
      History(numBlocks, watermark, front) + Uses(GpuRun(numBlocks, watermark, front), watermark, last)
  }

  /** One more than the place of the last use of `b`; 0 if there is none. */
  function LastUse(uses: seq<nat>, b: nat): nat {
    if uses == [] then 0
    else if uses[|uses| - 1] == b then |uses|
    else LastUse(uses[..|uses| - 1], b)
  }

  lemma {:induction false} LastUseSnoc(uses: seq<nat>, x: nat, b: nat)
    ensures LastUse(uses + [x], b) == if x == b then |uses| + 1 else LastUse(uses, b)
  {
    assert (uses + [x])[..|uses|] == uses;
  }

  lemma {:induction false} LastUseIs(uses: seq<nat>, b: nat)
    ensures LastUse(uses, b) <= |uses|
    ensures LastUse(uses, b) > 0 ==> uses[LastUse(uses, b) - 1] == b
    ensures forall i :: LastUse(uses, b) <= i < |uses| ==> uses[i] != b
  {
    if uses != [] && uses[|uses| - 1] != b {
      var front := uses[..|uses| - 1];
      LastUseIs(front, b);
      forall i | LastUse(uses, b) <= i < |uses| ensures uses[i] != b {
        if i < |front| {
          assert front[i] == uses[i];
        }
      }
    }
  }

  // ----- stamps are last uses

  ghost predicate Stamp(uses: seq<nat>, b: nat, block: Block) {
    block.cached ==> block.lastAccessed == LastUse(uses, b) > 0
  }

  ghost predicate AllStamped(blocks: map<nat, Block>, uses: seq<nat>) {
    forall b :: b in blocks ==> Stamp(uses, b, blocks[b])
  }

  ghost predicate Tracks(g: Gpu, uses: seq<nat>) {
    g.clock == |uses| && StampsAscend(g.pool.lanes.cached) && AllStamped(g.blocks, uses)
  }

  lemma {:induction false} StampSet(blocks: map<nat, Block>, uses: seq<nat>, b: nat, block: Block)
    requires AllStamped(blocks, uses) && Stamp(uses, b, block)
    ensures AllStamped(blocks[b := block], uses)
  {
  }

  lemma {:induction false} StampUse(blocks: map<nat, Block>, uses: seq<nat>, b: nat, block: Block)
    requires AllStamped(blocks, uses) && block.lastAccessed == |uses| + 1
    ensures AllStamped(blocks[b := block], uses + [b])
  {
    var blocks' := blocks[b := block];
    forall x | x in blocks' ensures Stamp(uses + [b], x, blocks'[x]) {
      LastUseSnoc(uses, b, x);
    }
  }

  lemma {:induction false} TakeTracks(g: Gpu, uses: seq<nat>)
    requires Tracks(g, uses) && HasFree(g.pool)
    ensures Tracks(TakeFree(g).1, uses)
  {
    hide AllStamped;
    StampSet(g.blocks, uses, g.pool.nextFresh, NEW_BLOCK);
  }

  lemma {:induction false} EvictTracks(g: Gpu, uses: seq<nat>, b: nat, why: Reason)
    requires Tracks(g, uses)
    ensures Tracks(EvictBlock(g, b, why), uses)
  {
    hide AllStamped;
    StampSet(g.blocks, uses, b, ClearMetadata(BlockAt(g, b)));
  }

  lemma {:induction false} RefTracks(g: Gpu, uses: seq<nat>, b: nat)
    requires Tracks(g, uses)
    ensures Tracks(AddRef(g, b), uses)
  {
    assert Stamp(uses, b, BlockAt(g, b));
    hide AllStamped;
    StampSet(g.blocks, uses, b, BlockAt(g, b).(refCount := BlockAt(g, b).refCount + 1));
  }

  lemma {:induction false} AllocTracks(g: Gpu, uses: seq<nat>)
    requires Tracks(g, uses) && HasFree(g.pool)
    ensures Tracks(AllocBlock(g).1, uses)
  {
    hide Tracks, TakeFree, EvictBlock, AddRef;
    var (b, g1) := TakeFree(g);
    TakeTracks(g, uses);
    EvictTracks(g1, uses, b, Capacity);
    RefTracks(if BlockAt(g1, b).cached then EvictBlock(g1, b, Capacity) else g1, uses, b);
  }

  lemma {:induction false} AcquireTracks(g: Gpu, uses: seq<nat>, b: nat)
    requires Tracks(g, uses)
    ensures Tracks(AcquireBlock(g, b), uses + [b])
  {
    hide AcquireBlock, AllStamped;
    AcquireForm(g, b);
    DropRankedAscends(g.pool.lanes.cached, b);
    var block := BlockAt(g, b);
    StampUse(g.blocks, uses, b, block.(refCount := block.refCount + 1, lastAccessed := g.clock + 1));
  }

  lemma {:induction false} FreeTracks(g: Gpu, uses: seq<nat>, b: nat)
    requires Tracks(g, uses)
    ensures Tracks(FreeBlock(g, b), uses)
  {
    assert Stamp(uses, b, BlockAt(g, b));
    hide FreeBlock, AllStamped;
    FreeForm(g, b);
    var lanes, block := g.pool.lanes, BlockAt(g, b);
    DropRankedAscends(lanes.cached, b);
    InsertRankedAscends(Dequeue(lanes, b).cached, Ranked(block.lastAccessed, b));
    StampSet(g.blocks, uses, b, Released(block));
  }

  lemma {:induction false} MarkTracks(g: Gpu, uses: seq<nat>, b: nat, key: PrefixCacheKey)
    requires Tracks(g, uses)
    ensures Tracks(MarkOne(g, b, key), uses)
  {
    hide AllStamped;
    StampSet(g.blocks, uses, b, BlockAt(g, b).(hash := Some(key), isFull := true, cached := false));
  }

  lemma {:induction false} RegisterTracks(g: Gpu, uses: seq<nat>, b: nat, key: PrefixCacheKey)
    requires Tracks(g, uses)
    ensures Tracks(RegisterOne(g, b, key), uses + [b])
  {
    EvictTracks(g, uses, b, Rekey);
    var g1 := if BlockAt(g, b).hash.Some? && BlockAt(g, b).hash != Some(key) then EvictBlock(g, b, Rekey) else g;
    assert EvictBlock(g, b, Rekey).clock == g.clock && EvictBlock(g, b, Rekey).pool == g.pool;
    hide EvictBlock, AllStamped;
    var block := BlockAt(g1, b).(hash := Some(key), isFull := true, cached := true);
    StampUse(g1.blocks, uses, b, block.(lastAccessed := g.clock + 1));
    assert g1.blocks[b := block][b := block.(lastAccessed := g.clock + 1)]
        == g1.blocks[b := block.(lastAccessed := g.clock + 1)];
  }

  // ----- lists of blocks

  lemma {:induction false} AcquireAllTracks(g: Gpu, uses: seq<nat>, bs: seq<nat>)
    requires Tracks(g, uses)
    ensures Tracks(AcquireAll(g, bs), uses + bs)
  {
    hide Tracks, AcquireBlock;
    if bs == [] {
      assert uses + bs == uses;
    } else {
      var front, b := bs[..|bs| - 1], bs[|bs| - 1];
      AcquireAllTracks(g, uses, front);
      AcquireTracks(AcquireAll(g, front), uses + front, b);
      assert uses + front + [b] == uses + bs;
    }
  }

  lemma {:induction false} AllocManyTracks(g: Gpu, uses: seq<nat>, n: nat)
    requires Tracks(g, uses)
    ensures Tracks(AllocMany(g, n).2, uses)
  {
    hide Tracks, AllocBlock;
    if n > 0 {
      AllocManyTracks(g, uses, n - 1);
      var (ok, _, g1) := AllocMany(g, n - 1);
      if ok && HasFree(g1.pool) {
        AllocTracks(g1, uses);
      }
    }
  }

  lemma {:induction false} FreeAllTracks(g: Gpu, uses: seq<nat>, bs: seq<nat>)
    requires Tracks(g, uses)
    ensures Tracks(FreeAll(g, bs), uses)
  {
    hide Tracks, FreeBlock;
    if bs != [] {
      FreeAllTracks(g, uses, bs[..|bs| - 1]);
      FreeTracks(FreeAll(g, bs[..|bs| - 1]), uses, bs[|bs| - 1]);
    }
  }

  lemma {:induction false} MarkAllTracks(g: Gpu, uses: seq<nat>, bs: seq<nat>, keys: seq<PrefixCacheKey>)
    requires |bs| == |keys| && Tracks(g, uses)
    ensures Tracks(MarkAll(g, bs, keys), uses)
  {
    hide Tracks, MarkOne;
    if bs != [] {
      var n := |bs| - 1;
      MarkAllTracks(g, uses, bs[..n], keys[..n]);
      MarkTracks(MarkAll(g, bs[..n], keys[..n]), uses, bs[n], keys[n]);
    }
  }

  lemma {:induction false} RegisterAllTracks(g: Gpu, uses: seq<nat>, bs: seq<nat>, keys: seq<PrefixCacheKey>)
    requires |bs| == |keys| && Tracks(g, uses)
    ensures Tracks(RegisterAll(g, bs, keys), uses + bs)
  {
    hide Tracks, RegisterOne;
    if bs == [] {
      assert uses + bs == uses;
    } else {
      var n := |bs| - 1;
      RegisterAllTracks(g, uses, bs[..n], keys[..n]);
      RegisterTracks(RegisterAll(g, bs[..n], keys[..n]), uses + bs[..n], bs[n], keys[n]);
      assert uses + bs[..n] + [bs[n]] == uses + bs;
    }
  }

  // ----- every run

  lemma {:induction false} TracksSame(g: Gpu, g': Gpu, uses: seq<nat>)
    requires Tracks(g, uses) && g'.blocks == g.blocks && g'.pool == g.pool && g'.clock == g.clock
    ensures Tracks(g', uses)
  {
  }

  lemma {:induction false} MarkMissesTracks(g: Gpu, uses: seq<nat>, ask: Ask, hits: seq<nat>, more: seq<nat>)
    requires Tracks(g, uses)
    ensures var blocks := hits + more;
            var g3, n := SetTable(g, ask.id, TableOf(g, ask.id) + blocks), AskLength(ask, blocks);
            Tracks(if n <= |hits| then g3 else MarkAll(g3, blocks[|hits|..n], ask.keys[|hits|..n]), uses)
  {
    var blocks := hits + more;
    var g3, n := SetTable(g, ask.id, TableOf(g, ask.id) + blocks), AskLength(ask, blocks);
    TracksSame(g, g3, uses);
    hide Tracks, MarkAll;
    if n > |hits| {
      MarkAllTracks(g3, uses, blocks[|hits|..n], ask.keys[|hits|..n]);
    }
  }

  lemma {:induction false} AllocateTracks(g: Gpu, uses: seq<nat>, ask: Ask)
    requires Tracks(g, uses)
    ensures Tracks(AllocateAsk(g, ask).1, uses + Hits(g, ask.keys))
  {
    var g0, hits := SetClaim(g, ask.id, Claim(ask.keys, false)), Hits(g, ask.keys);
    TracksSame(g, g0, uses);
    hide Tracks, Hits, AcquireAll, AllocMany, MarkAll, SetTable, SetClaim, AskLength, TableOf;
    AcquireAllTracks(g0, uses, hits);
    var g1, n := AcquireAll(g0, hits), MissCount(g, ask);
    AllocManyTracks(g1, uses + hits, n);
    MarkMissesTracks(AllocMany(g1, n).2, uses + hits, ask, hits, AllocMany(g1, n).1);
  }

  lemma {:induction false} AppendTracks(g: Gpu, uses: seq<nat>, id: nat, logical: nat)
    requires Tracks(g, uses)
    ensures Tracks(AppendSlot(g, id, logical).1, uses)
  {
    hide Tracks, AllocBlock, HasFree;
    if |TableOf(g, id)| < logical && HasFree(g.pool) {
      AllocTracks(g, uses);
      var (b, g1) := AllocBlock(g);
      TracksSame(g1, SetTable(g1, id, TableOf(g1, id) + [b]), uses);
    }
  }

  lemma {:induction false} CommitTracks(g: Gpu, uses: seq<nat>, id: nat)
    requires Tracks(g, uses)
    ensures Tracks(CommitInput(g, id), uses + CommitRow(g, id))
    ensures CommitInput(g, id).tables == g.tables
  {
    hide Tracks, RegisterAll;
    var claim, row := ClaimOf(g, id), CommitRow(g, id);
    if claim.committed {
      assert uses + row == uses;
    } else {
      RegisterAllTracks(g, uses, row, claim.keys[..|row|]);
      RegisterAllTables(g, row, claim.keys[..|row|]);
      var g1 := RegisterAll(g, row, claim.keys[..|row|]);
      TracksSame(g1, SetClaim(g1, id, claim.(committed := true)), uses + row);
    }
  }

  lemma {:induction false} RegisterAllTables(g: Gpu, bs: seq<nat>, keys: seq<PrefixCacheKey>)
    requires |bs| == |keys|
    ensures RegisterAll(g, bs, keys).tables == g.tables
  {
    if bs != [] {
      RegisterAllTables(g, bs[..|bs| - 1], keys[..|bs| - 1]);
    }
  }

  lemma {:induction false} OutputTracks(g: Gpu, uses: seq<nat>, id: nat, start: nat, keys: seq<PrefixCacheKey>)
    requires Tracks(g, uses)
    ensures Tracks(RegisterOutput(g, id, start, keys), uses + OutputRow(g, id, start, |keys|))
  {
    hide Tracks, RegisterAll;
    var row := OutputRow(g, id, start, |keys|);
    if row == [] {
      assert uses + row == uses;
    } else {
      RegisterAllTracks(g, uses, row, keys[..|row|]);
    }
  }

  lemma {:induction false} ReleaseTracks(g: Gpu, uses: seq<nat>, id: nat)
    requires Tracks(g, uses)
    ensures Tracks(Release(g, id), uses)
  {
    TracksSame(g, g.(tables := g.tables - {id}), uses);
    hide Tracks, FreeAll;
    FreeAllTracks(g.(tables := g.tables - {id}), uses, TableOf(g, id));
  }

  lemma {:induction false} FinishTracks(g: Gpu, uses: seq<nat>, id: nat, start: nat, keys: seq<PrefixCacheKey>)
    requires Tracks(g, uses)
    ensures Tracks(Finish(g, id, start, keys), uses + (CommitRow(g, id) + OutputRow(g, id, start, |keys|)))
  {
    hide Tracks, CommitInput, RegisterOutput, Release, CommitRow;
    var g1, uses1 := CommitInput(g, id), uses + CommitRow(g, id);
    CommitTracks(g, uses, id);
    OutputTracks(g1, uses1, id, start, keys);
    var output := OutputRow(g, id, start, |keys|);
    assert OutputRow(g1, id, start, |keys|) == output;
    assert uses1 + output == uses + (CommitRow(g, id) + output);
    ReleaseTracks(RegisterOutput(g1, id, start, keys), uses1 + output, id);
  }

  lemma {:induction false} ReserveTracks(g: Gpu, uses: seq<nat>, n: nat)
    requires Tracks(g, uses)
    ensures Tracks(Reserve(g, n).1, uses)
  {
    AllocManyTracks(g, uses, n);
    var (ok, bs, g1) := AllocMany(g, n);
    TracksSame(g1, g1.(reserved := g1.reserved + bs), uses);
    hide Tracks, AllocMany, FreeAll;
    FreeAllTracks(g1, uses, bs);
  }

  lemma {:induction false} ReleaseReservedTracks(g: Gpu, uses: seq<nat>, n: nat)
    requires Tracks(g, uses)
    ensures Tracks(ReleaseReserved(g, n).1, uses)
  {
    if n <= |g.reserved| {
      var g0 := g.(reserved := g.reserved[n..]);
      TracksSame(g, g0, uses);
      hide Tracks, FreeAll;
      FreeAllTracks(g0, uses, g.reserved[..n]);
    }
  }

  lemma {:induction false} StepTracks(g: Gpu, uses: seq<nat>, watermark: nat, call: GpuCall)
    requires Tracks(g, uses)
    ensures Tracks(GpuStep(g, watermark, call), uses + Uses(g, watermark, call))
  {
    hide Tracks, CanAllocate, AllocateAsk, AppendSlot, CommitInput, Finish, Release, Reserve, ReleaseReserved, Hits,
         CommitRow, OutputRow;
    assert uses + [] == uses;
    if Sensible(g, call) {
      match call
      case AdmitCall(ask) => AllocateTracks(g, uses, ask);
      case AppendCall(id, logical) => AppendTracks(g, uses, id, logical);
      case CommitCall(id) => CommitTracks(g, uses, id);
      case FinishCall(id, start, keys) => FinishTracks(g, uses, id, start, keys);
      case ReleaseCall(id) => ReleaseTracks(g, uses, id);
      case ReserveCall(n) => ReserveTracks(g, uses, n);
      case ReleaseReservedCall(n) => ReleaseReservedTracks(g, uses, n);
    }
  }

  lemma {:induction false} RunTracks(numBlocks: nat, watermark: nat, calls: seq<GpuCall>)
    ensures Tracks(GpuRun(numBlocks, watermark, calls), History(numBlocks, watermark, calls))
  {
    if calls != [] {
      hide Tracks, GpuStep, Uses;
      var front := calls[..|calls| - 1];
      RunTracks(numBlocks, watermark, front);
      StepTracks(GpuRun(numBlocks, watermark, front), History(numBlocks, watermark, front), watermark,
                 calls[|calls| - 1]);
    }
  }

  /** In every reachable state a cached block's stamp is the place of its last use in the history of
      all uses. */
  lemma {:induction false} StampsAreLastUses(numBlocks: nat, watermark: nat, calls: seq<GpuCall>, b: nat)
    ensures var g, uses := GpuRun(numBlocks, watermark, calls), History(numBlocks, watermark, calls);
            && g.clock == |uses|
            && (b in g.blocks && g.blocks[b].cached ==>
                  && 1 <= g.blocks[b].lastAccessed <= |uses| && uses[g.blocks[b].lastAccessed - 1] == b
                  && forall i :: g.blocks[b].lastAccessed <= i < |uses| ==> uses[i] != b)
  {
    RunTracks(numBlocks, watermark, calls);
    LastUseIs(History(numBlocks, watermark, calls), b);
    hide GpuRun, History, LastUse;
  }

  // ----- what is evicted

  predicate IsCached(g: Gpu, b: nat) {
    b in g.blocks && g.blocks[b].cached
  }

  predicate IdleInCache(g: Gpu, b: nat) {
    IsCached(g, b) && g.blocks[b].refCount == 0
  }

  /** Blocks nobody references and whose content nobody can reuse. */
  ghost function Blank(g: Gpu): int {
    g.pool.numBlocks - g.pool.nextFresh + |IdlePlain(g.blocks)|
  }

  /** Whatever was evicted was used before anything idle that is still cached. */
  ghost predicate OldestGone(g: Gpu, g': Gpu, uses: seq<nat>) {
    forall x, y :: IsCached(g, x) && !IsCached(g', x) && IdleInCache(g', y) ==> LastUse(uses, x) < LastUse(uses, y)
  }

  ghost predicate StillCached(g: Gpu, g': Gpu) {
    forall b :: IsCached(g', b) ==> IsCached(g, b) && g'.blocks[b] == g.blocks[b]
  }

  lemma {:induction false} LastUseApart(uses: seq<nat>, x: nat, y: nat)
    requires LastUse(uses, x) == LastUse(uses, y) > 0
    ensures x == y
  {
    LastUseIs(uses, x);
    LastUseIs(uses, y);
  }

  /** A block is taken with its content only when no blank one is left, and then the one whose last use
      lies furthest back. */
  lemma {:induction false} AllocTakesOldest(g: Gpu, refs: multiset<nat>, uses: seq<nat>, x: nat)
    requires Core(g, refs) && Tracks(g, uses) && HasFree(g.pool)
    ensures var b := AllocBlock(g).0;
            IsCached(g, b) ==>
              && Blank(g) == 0
              && (IdleInCache(g, x) && x != b ==> LastUse(uses, b) < LastUse(uses, x))
    ensures IsCached(g, AllocBlock(g).0) <==> Blank(g) == 0
  {
    var b, lanes := AllocBlock(g).0, g.pool.lanes;
    hide AllocBlock, LastUse, MetaOk, CacheOk, Counted;
    AllocTakes(g);
    if g.pool.nextFresh == g.pool.numBlocks {
      if lanes.fifo != [] {
        assert lanes.fifo[0] in IdlePlain(g.blocks);
      } else {
        assert IdlePlain(g.blocks) == {};
        if IdleInCache(g, x) && x != b {
          OldestFirst(lanes.cached, g.blocks, uses, x);
        }
      }
    }
  }

  lemma {:induction false} AllocTakes(g: Gpu)
    requires HasFree(g.pool)
    ensures AllocBlock(g).0 == PopFree(g.pool).0
  {
  }

  lemma {:induction false} OldestFirst(lane: seq<Ranked>, blocks: map<nat, Block>, uses: seq<nat>, x: nat)
    requires CachedLaneOk(lane, IdleCached(blocks)) && StampsAscend(lane) && AllStamped(blocks, uses) && lane != []
    requires x in IdleCached(blocks) && x != lane[0].block
    ensures LastUse(uses, lane[0].block) < LastUse(uses, x)
  {
    var b, idle := lane[0].block, IdleCached(blocks);
    assert b in idle && Listed(lane, x, idle[x]);
    var i :| 0 <= i < |lane| && lane[i] == Ranked(idle[x], x);
    assert Stamp(uses, b, blocks[b]) && Stamp(uses, x, blocks[x]);
    if LastUse(uses, b) == LastUse(uses, x) {
      LastUseApart(uses, b, x);
    }
  }

  lemma {:induction false} AllocEffect(g: Gpu, refs: multiset<nat>, uses: seq<nat>)
    requires Core(g, refs) && Tracks(g, uses) && HasFree(g.pool)
    ensures var g' := AllocBlock(g).1;
            && StillCached(g, g') && OldestGone(g, g', uses)
            && |g'.trace| - |g.trace| == (if Blank(g) > 0 then 0 else 1)
  {
    AllocForm(g, refs);
    var (b, g') := AllocBlock(g);
    hide AllocBlock, Core, Tracks, HasFree, LanesListIdle, LastUse, Blank;
    forall x, y | IsCached(g, x) && !IsCached(g', x) && IdleInCache(g', y)
      ensures LastUse(uses, x) < LastUse(uses, y)
    {
      AllocTakesOldest(g, refs, uses, y);
    }
    AllocTakesOldest(g, refs, uses, b);
    BlankNat(g, refs);
  }

  lemma {:induction false} BlankNat(g: Gpu, refs: multiset<nat>)
    requires Core(g, refs)
    ensures Blank(g) >= 0
  {
  }

  lemma {:induction false} PlainHead(lanes: Lanes, blocks: map<nat, Block>)
    requires LanesListIdle(lanes, IdlePlain(blocks), IdleCached(blocks))
    ensures lanes.fifo != [] ==> lanes.fifo[0] in IdlePlain(blocks)
    ensures lanes.fifo == [] ==> IdlePlain(blocks) == {}
  {
    var plain: set<nat> := IdlePlain(blocks);
    hide IdlePlain, IdleCached, CachedLaneOk;
    if lanes.fifo == [] {
      assert forall b :: b !in plain;
    }
  }

  lemma {:induction false} PlainTaken(blocks: map<nat, Block>, b: nat)
    ensures |IdlePlain(blocks[b := TAKEN_BLOCK])| == |IdlePlain(blocks)| - (if b in IdlePlain(blocks) then 1 else 0)
  {
    assert IdlePlain(blocks[b := TAKEN_BLOCK]) == IdlePlain(blocks) - {b};
  }

  lemma {:induction false} AllocBlank(g: Gpu, refs: multiset<nat>)
    requires Core(g, refs) && HasFree(g.pool)
    ensures Blank(AllocBlock(g).1) == if Blank(g) > 0 then Blank(g) - 1 else 0
  {
    hide AllocBlock, MetaOk, CacheOk, Counted, LanesListIdle, IdlePlain, IdleCached;
    AllocForm(g, refs);
    AllocTakes(g);
    AllocMaterialises(g);
    PlainTaken(g.blocks, AllocBlock(g).0);
    PlainHead(g.pool.lanes, g.blocks);
    if g.pool.nextFresh < g.pool.numBlocks {
      FreshNotPlain(g, g.pool.nextFresh);
    }
  }

  lemma {:induction false} FreshNotPlain(g: Gpu, b: nat)
    requires b !in g.blocks
    ensures b !in IdlePlain(g.blocks)
  {
  }

  lemma {:induction false} AllocMaterialises(g: Gpu)
    requires HasFree(g.pool)
    ensures AllocBlock(g).1.pool.nextFresh == g.pool.nextFresh + if g.pool.nextFresh < g.pool.numBlocks then 1 else 0
  {
  }

  lemma {:induction false} GoneThen(g: Gpu, g1: Gpu, g2: Gpu, uses: seq<nat>)
    requires StillCached(g, g1) && OldestGone(g, g1, uses) && StillCached(g1, g2) && OldestGone(g1, g2, uses)
    ensures StillCached(g, g2) && OldestGone(g, g2, uses)
  {
    hide LastUse;
  }

  /** n blocks are taken oldest first, with as few evictions as the blank blocks allow. */
  lemma {:induction false} AllocManyEvicts(g: Gpu, refs: multiset<nat>, uses: seq<nat>, n: nat)
    requires Core(g, refs) && Tracks(g, uses)
    ensures var (_, bs, g') := AllocMany(g, n);
            && StillCached(g, g') && OldestGone(g, g', uses)
            && |g'.trace| - |g.trace| == (if |bs| > Blank(g) then |bs| - Blank(g) else 0)
            && Blank(g') == (if |bs| > Blank(g) then 0 else Blank(g) - |bs|)
  {
    hide Core, Tracks, HasFree, AllocBlock, Blank, StillCached, OldestGone, Allocated;
    BlankNat(g, refs);
    if n == 0 {
      NothingGone(g, uses);
    } else {
      AllocManyEvicts(g, refs, uses, n - 1);
      AllocManyMeans(g, refs, n - 1);
      AllocManyTracks(g, uses, n - 1);
      var (ok, bs, g1) := AllocMany(g, n - 1);
      if ok && HasFree(g1.pool) {
        AllocEffect(g1, refs + multiset(bs), uses);
        AllocBlank(g1, refs + multiset(bs));
        GoneThen(g, g1, AllocBlock(g1).1, uses);
      }
    }
  }

  lemma {:induction false} NothingGone(g: Gpu, uses: seq<nat>)
    ensures StillCached(g, g) && OldestGone(g, g, uses)
  {
  }

  // ----- every call of every run

  /** The same, for idle blocks the call itself does not touch. */
  ghost predicate OldestEvicted(g: Gpu, g': Gpu, uses: seq<nat>) {
    forall x, y :: IsCached(g, x) && !IsCached(g', x) && IdleInCache(g, y) && IdleInCache(g', y)
                   ==> LastUse(uses, x) < LastUse(uses, y)
  }

  ghost predicate CacheKept(g: Gpu, g': Gpu) {
    forall b :: IsCached(g, b) ==> IsCached(g', b)
  }

  lemma {:induction false} LastUseMore(uses: seq<nat>, more: seq<nat>, b: nat)
    ensures LastUse(uses + more, b) >= LastUse(uses, b)
    ensures b !in more ==> LastUse(uses + more, b) == LastUse(uses, b)
  {
    if more == [] {
      assert uses + more == uses;
    } else {
      var front, last := more[..|more| - 1], more[|more| - 1];
      assert uses + more == uses + front + [last];
      LastUseMore(uses, front, b);
      LastUseSnoc(uses + front, last, b);
      LastUseIs(uses, b);
    }
  }

  lemma {:induction false} FreeCached(g: Gpu, b: nat, x: nat)
    ensures IsCached(FreeBlock(g, b), x) == IsCached(g, x)
  {
  }

  lemma {:induction false} FreeAllCached(g: Gpu, bs: seq<nat>, x: nat)
    ensures IsCached(FreeAll(g, bs), x) == IsCached(g, x)
  {
    hide FreeBlock, IsCached;
    if bs != [] {
      FreeAllCached(g, bs[..|bs| - 1], x);
      FreeCached(FreeAll(g, bs[..|bs| - 1]), bs[|bs| - 1], x);
    }
  }

  lemma {:induction false} RegisterCached(g: Gpu, b: nat, key: PrefixCacheKey, x: nat)
    ensures IsCached(g, x) ==> IsCached(RegisterOne(g, b, key), x)
  {
  }

  lemma {:induction false} RegisterAllCached(g: Gpu, bs: seq<nat>, keys: seq<PrefixCacheKey>, x: nat)
    requires |bs| == |keys|
    ensures IsCached(g, x) ==> IsCached(RegisterAll(g, bs, keys), x)
  {
    hide RegisterOne, IsCached;
    if bs != [] {
      var n := |bs| - 1;
      RegisterAllCached(g, bs[..n], keys[..n], x);
      RegisterCached(RegisterAll(g, bs[..n], keys[..n]), bs[n], keys[n], x);
    }
  }

  lemma {:induction false} CommitCached(g: Gpu, id: nat)
    ensures CacheKept(g, CommitInput(g, id))
  {
    hide RegisterAll;
    var claim, row := ClaimOf(g, id), CommitRow(g, id);
    if !claim.committed {
      forall x ensures IsCached(g, x) ==> IsCached(RegisterAll(g, row, claim.keys[..|row|]), x) {
        RegisterAllCached(g, row, claim.keys[..|row|], x);
      }
    }
  }

  lemma {:induction false} FinishCached(g: Gpu, id: nat, start: nat, keys: seq<PrefixCacheKey>)
    ensures CacheKept(g, Finish(g, id, start, keys))
  {
    hide CommitInput, RegisterAll, FreeAll;
    CommitCached(g, id);
    var g1 := CommitInput(g, id);
    var row := OutputRow(g1, id, start, |keys|);
    var g2 := RegisterOutput(g1, id, start, keys);
    forall x ensures IsCached(g1, x) ==> IsCached(g2, x) {
      if row != [] {
        RegisterAllCached(g1, row, keys[..|row|], x);
      }
    }
    ReleaseCached(g2, id);
  }

  lemma {:induction false} ReleaseCached(g: Gpu, id: nat)
    ensures CacheKept(g, Release(g, id))
  {
    hide FreeAll;
    forall x ensures IsCached(g, x) ==> IsCached(Release(g, id), x) {
      FreeAllCached(g.(tables := g.tables - {id}), TableOf(g, id), x);
    }
  }

  lemma {:induction false} ReleaseReservedCached(g: Gpu, n: nat)
    ensures CacheKept(g, ReleaseReserved(g, n).1)
  {
    hide FreeAll;
    if n <= |g.reserved| {
      forall x ensures IsCached(g, x) ==> IsCached(ReleaseReserved(g, n).1, x) {
        FreeAllCached(g.(reserved := g.reserved[n..]), g.reserved[..n], x);
      }
    }
  }

  lemma {:induction false} ReserveEvicts(g: Gpu, uses: seq<nat>, n: nat)
    requires Inv(g) && Tracks(g, uses)
    ensures OldestEvicted(g, Reserve(g, n).1, uses)
  {
    AllocManyEvicts(g, AllRefs(g), uses, n);
    var (ok, bs, g1) := AllocMany(g, n);
    var g' := Reserve(g, n).1;
    hide AllocMany, FreeAll, LastUse, Inv, Tracks;
    forall x ensures IsCached(g', x) == IsCached(g1, x) {
      FreeAllCached(g1, bs, x);
    }
  }

  lemma {:induction false} AppendEvicts(g: Gpu, uses: seq<nat>, id: nat, logical: nat)
    requires Inv(g) && Tracks(g, uses)
    ensures OldestEvicted(g, AppendSlot(g, id, logical).1, uses)
  {
    hide AllocBlock, LastUse, Tracks, HasFree, Core;
    if |TableOf(g, id)| < logical && HasFree(g.pool) {
      AllocEffect(g, AllRefs(g), uses);
    }
  }

  lemma {:induction false} HitsBlank(g: Gpu, g1: Gpu, refs: multiset<nat>, hits: seq<nat>)
    requires Core(g, refs) && Core(g1, refs + multiset(hits)) && SameMarks(g.blocks, g1.blocks)
    requires g1.pool.numBlocks == g.pool.numBlocks && forall b :: b in hits ==> IsCached(g, b)
    ensures Blank(g1) == Blank(g)
  {
    forall b ensures b in IdlePlain(g1.blocks) <==> b in IdlePlain(g.blocks) {
      assert b in multiset(hits) <==> b in hits;
      assert b in g.blocks <==> b in g.blocks.Keys;
      assert b in g1.blocks <==> b in g1.blocks.Keys;
    }
    assert g.pool.nextFresh in g1.blocks.Keys <==> g.pool.nextFresh in g.blocks.Keys;
    assert g1.pool.nextFresh in g1.blocks.Keys <==> g1.pool.nextFresh in g.blocks.Keys;
    assert IdlePlain(g1.blocks) == IdlePlain(g.blocks);
  }

  lemma {:induction false} MarkedCached(g: Gpu, g': Gpu, bs: seq<nat>, keys: seq<PrefixCacheKey>, x: nat)
    requires |bs| == |keys| && Marked(g, g', bs, keys)
    ensures IsCached(g', x) == IsCached(g, x) && IdleInCache(g', x) == IdleInCache(g, x)
  {
    assert x in g.blocks <==> x in g.blocks.Keys;
    assert x in g'.blocks <==> x in g'.blocks.Keys;
    if x in bs {
      var i :| 0 <= i < |bs| && bs[i] == x;
    }
  }

  /** An admission evicts the oldest idle content, and only for the misses blank blocks do not cover. */
  lemma {:induction false} AdmissionEvicts(g: Gpu, uses: seq<nat>, ask: Ask, watermark: nat)
    requires Inv(g) && Tracks(g, uses) && |ask.keys| <= ask.logical && ask.id !in g.tables
    requires CanAllocate(g, ask, watermark)
    ensures var g' := AllocateAsk(g, ask).1;
            && OldestEvicted(g, g', uses)
            && |g'.trace| - |g.trace| == if Misses(g, ask) > Blank(g) then Misses(g, ask) - Blank(g) else 0
  {
    AdmissionSound(g, ask, watermark);
    assert AllocMany(AfterHits(g, ask), MissCount(g, ask)).0;
    InvCore(g);
    AllocSteps(g, ask);
    AllocateMeans(g, ask);
    AllocateTables(g, ask);
    HitsStep(g, ask);
    TracksSame(g, SetClaim(g, ask.id, Claim(ask.keys, false)), uses);
    AcquireAllTracks(SetClaim(g, ask.id, Claim(ask.keys, false)), uses, Hits(g, ask.keys));
    assert forall b :: b in Hits(g, ask.keys) ==> IsCached(g, b) by { HitsInCache(g, ask.keys); }
    hide Inv, Core, AcquireAll, Hits, AllocMany, AllocateAsk, AllRefs, CanAllocate, Tracks, LastUse, MissCount, Allocated,
         Marked, Blank, IdleInCache, IsCached, SameMarks;
    var hits, g1 := Hits(g, ask.keys), AfterHits(g, ask);
    var (_, more, g2) := AllocMany(g1, MissCount(g, ask));
    HitsBlank(g, g1, AllRefs(g), hits);
    AllocManyEvicts(g1, AllRefs(g) + multiset(hits), uses + hits, MissCount(g, ask));
    forall x ensures IsCached(AllocateAsk(g, ask).1, x) == IsCached(g2, x)
             ensures IdleInCache(AllocateAsk(g, ask).1, x) == IdleInCache(g2, x)
    {
      MarkedCached(SetTable(g2, ask.id, hits + more), AllocateAsk(g, ask).1, ToMark(ask, hits, more).0,
                   ToMark(ask, hits, more).1, x);
      TableCached(g2, ask.id, hits + more, x);
    }
    OldestThroughHits(g, g1, g2, AllRefs(g), hits, uses);
  }

  lemma {:induction false} TableCached(g: Gpu, id: nat, row: seq<nat>, x: nat)
    ensures IsCached(SetTable(g, id, row), x) == IsCached(g, x) && IdleInCache(SetTable(g, id, row), x) == IdleInCache(g, x)
  {
  }

  lemma {:induction false} HitsInCache(g: Gpu, keys: seq<PrefixCacheKey>)
    requires CacheOk(g.blocks, g.cache) && MetaOk(g.blocks)
    ensures forall b :: b in Hits(g, keys) ==> IsCached(g, b)
  {
    HitsCached(g, keys);
  }

  lemma {:induction false} OldestThroughHits(g: Gpu, g1: Gpu, g2: Gpu, refs: multiset<nat>, hits: seq<nat>,
                                             uses: seq<nat>)
    requires SameMarks(g.blocks, g1.blocks) && Core(g1, refs + multiset(hits))
    requires StillCached(g1, g2) && OldestGone(g1, g2, uses + hits)
    ensures OldestEvicted(g, g2, uses)
  {
    hide LastUse, PoolOk, MetaOk, CacheOk;
    forall x, y | IsCached(g, x) && !IsCached(g2, x) && IdleInCache(g, y) && IdleInCache(g2, y)
      ensures LastUse(uses, x) < LastUse(uses, y)
    {
      assert x in g1.blocks.Keys && IsCached(g1, x);
      assert (refs + multiset(hits))[y] == 0;
      assert y !in multiset(hits);
      LastUseMore(uses, hits, x);
      LastUseMore(uses, hits, y);
    }
  }

  lemma {:induction false} KeptEvictsNothing(g: Gpu, g': Gpu, uses: seq<nat>)
    requires CacheKept(g, g')
    ensures OldestEvicted(g, g', uses)
  {
    hide LastUse;
  }

  lemma {:induction false} StepEvictsOldest(g: Gpu, uses: seq<nat>, watermark: nat, call: GpuCall)
    requires Inv(g) && Tracks(g, uses)
    ensures OldestEvicted(g, GpuStep(g, watermark, call), uses)
  {
    hide Inv, Tracks, CanAllocate, AllocateAsk, AppendSlot, CommitInput, Finish, Release, Reserve, ReleaseReserved,
         OldestEvicted, CacheKept;
    if Sensible(g, call) && !(call.AdmitCall? && !CanAllocate(g, call.ask, watermark)) {
      match call
      case AdmitCall(ask) => AdmissionEvicts(g, uses, ask, watermark);
      case AppendCall(id, logical) => AppendEvicts(g, uses, id, logical);
      case CommitCall(id) => CommitCached(g, id); KeptEvictsNothing(g, CommitInput(g, id), uses);
      case FinishCall(id, start, keys) =>
        FinishCached(g, id, start, keys);
        KeptEvictsNothing(g, Finish(g, id, start, keys), uses);
      case ReleaseCall(id) => ReleaseCached(g, id); KeptEvictsNothing(g, Release(g, id), uses);
      case ReserveCall(n) => ReserveEvicts(g, uses, n);
      case ReleaseReservedCall(n) =>
        ReleaseReservedCached(g, n);
        KeptEvictsNothing(g, ReleaseReserved(g, n).1, uses);
    } else {
      SameEvictsNothing(g, uses);
    }
  }

  lemma {:induction false} SameEvictsNothing(g: Gpu, uses: seq<nat>)
    ensures OldestEvicted(g, g, uses)
  {
    hide LastUse;
  }

  /** Over every run: a block whose content a call evicts was last used before every idle block whose
      content stays. */
  lemma {:induction false} LeastRecentlyUsedGoes(numBlocks: nat, watermark: nat, calls: seq<GpuCall>, call: GpuCall,
                                                 x: nat, y: nat)
    ensures var g, uses := GpuRun(numBlocks, watermark, calls), History(numBlocks, watermark, calls);
            var g' := GpuStep(g, watermark, call);
            IsCached(g, x) && !IsCached(g', x) && IdleInCache(g, y) && IdleInCache(g', y)
            ==> LastUse(uses, x) < LastUse(uses, y)
  {
    hide Inv, Tracks, GpuRun, GpuStep, LastUse;
    RunInv(numBlocks, watermark, calls);
    RunTracks(numBlocks, watermark, calls);
    StepEvictsOldest(GpuRun(numBlocks, watermark, calls), History(numBlocks, watermark, calls), watermark, call);
  }
}

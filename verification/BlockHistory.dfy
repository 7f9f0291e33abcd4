/** The prefix cache's history: every key ever registered is indexed or was announced as evicted,
    and an indexed key was asked for by a request with the same prompt prefix. */
module BlockHistory {
  import opened Containers
  import opened Keys
  import opened FreeQueues
  import opened BlockPools
  import opened BlockModel
  import opened BlockLanes
  import opened BlockInvariants
  import opened BlockLists
  import opened BlockTables
  import opened BlockRuns
  import opened BlockSafety

  ghost predicate WasRegistered(trace: seq<Event>, k: PrefixCacheKey) {
    Registered(k) in trace
  }

  ghost predicate WasEvicted(trace: seq<Event>, k: PrefixCacheKey) {
    Evicted(Some(k), Capacity) in trace
  }

  ghost predicate CachedTraced(blocks: map<nat, Block>, trace: seq<Event>) {
    forall b :: b in blocks && blocks[b].cached && blocks[b].hash.Some? ==> WasRegistered(trace, blocks[b].hash.value)
  }

  /** Whatever was registered is still indexed or its eviction was announced; and only what was
      registered can be indexed or evicted. */
  ghost predicate IndexTraced(cache: map<PrefixCacheKey, nat>, trace: seq<Event>) {
    && (forall k :: WasRegistered(trace, k) ==> k in cache || WasEvicted(trace, k))
    && (forall k :: k in cache || WasEvicted(trace, k) ==> WasRegistered(trace, k))
  }

  ghost predicate Traced(g: Gpu) {
    CachedTraced(g.blocks, g.trace) && IndexTraced(g.cache, g.trace)
  }

  // ----- steps that leave index and trace alone

  ghost predicate CachedFrom(blocks: map<nat, Block>, blocks': map<nat, Block>) {
    forall b :: b in blocks' && blocks'[b].cached ==>
      b in blocks && blocks[b].cached && blocks[b].hash == blocks'[b].hash
  }

  lemma {:induction false} QuietTraced(g: Gpu, g': Gpu)
    requires Traced(g) && CachedFrom(g.blocks, g'.blocks) && g'.cache == g.cache && g'.trace == g.trace
    ensures Traced(g')
  {
    hide IndexTraced, WasRegistered;
  }

  lemma {:induction false} AcquiredTraced(g: Gpu, g': Gpu)
    requires Traced(g) && Acquired(g, g')
    ensures Traced(g')
  {
    hide IndexTraced, WasRegistered;
  }

  lemma {:induction false} MarkedTraced(g: Gpu, g': Gpu, bs: seq<nat>, keys: seq<PrefixCacheKey>)
    requires |bs| == |keys| && Traced(g) && Marked(g, g', bs, keys)
    requires forall b :: b in bs ==> !BlockAt(g, b).cached
    ensures Traced(g')
  {
    hide IndexTraced, WasRegistered;
    forall i | 0 <= i < |bs| ensures !g'.blocks[bs[i]].cached {
      assert bs[i] in bs && !BlockAt(g, bs[i]).cached;
    }
    assert forall b :: b in bs ==> !g'.blocks[b].cached;
  }

  lemma {:induction false} FreeCachedFrom(g: Gpu, b: nat)
    ensures CachedFrom(g.blocks, FreeBlock(g, b).blocks)
  {
    FreeForm(g, b);
    hide FreeBlock;
  }

  lemma {:induction false} FreeAllTraced(g: Gpu, bs: seq<nat>)
    requires Traced(g)
    ensures Traced(FreeAll(g, bs)) && FreeAll(g, bs).trace == g.trace && FreeAll(g, bs).claims == g.claims
    ensures FreeAll(g, bs).cache == g.cache
  {
    hide Traced;
    if bs != [] {
      var front, b := bs[..|bs| - 1], bs[|bs| - 1];
      FreeAllTraced(g, front);
      FreeCachedFrom(FreeAll(g, front), b);
      FreeForm(FreeAll(g, front), b);
      hide FreeBlock;
      QuietTraced(FreeAll(g, front), FreeBlock(FreeAll(g, front), b));
    }
  }

  // ----- allocation announces what it evicts

  lemma {:induction false} EvictionTraced(cache: map<PrefixCacheKey, nat>, cache': map<PrefixCacheKey, nat>,
                                          trace: seq<Event>, k: PrefixCacheKey)
    requires IndexTraced(cache, trace) && WasRegistered(trace, k)
    requires forall x :: x in cache' ==> x in cache
    requires forall x :: x in cache && x !in cache' ==> x == k
    ensures IndexTraced(cache', trace + [Evicted(Some(k), Capacity)])
  {
    var trace' := trace + [Evicted(Some(k), Capacity)];
    assert trace'[|trace|] == Evicted(Some(k), Capacity);
    forall x ensures WasRegistered(trace', x) <==> WasRegistered(trace, x)
             ensures WasEvicted(trace', x) <==> WasEvicted(trace, x) || x == k
    {
    }
    hide WasRegistered, WasEvicted;
  }

  lemma {:induction false} CachedStillTraced(blocks: map<nat, Block>, b: nat, trace: seq<Event>, more: seq<Event>)
    requires CachedTraced(blocks, trace)
    ensures CachedTraced(blocks[b := TAKEN_BLOCK], trace + more)
  {
  }

  lemma {:induction false} AllocTraced(g: Gpu, refs: multiset<nat>)
    requires Core(g, refs) && HasFree(g.pool) && Traced(g)
    ensures Traced(AllocBlock(g).1)
  {
    AllocForm(g, refs);
    var (b, g') := AllocBlock(g);
    hide AllocBlock, PoolOk, Counted, LanesListIdle;
    var more := AllocEvents(g, b);
    CachedStillTraced(g.blocks, b, g.trace, more);
    if b in g.blocks && g.blocks[b].cached {
      assert BlockOk(g.blocks[b]);
      EvictionTraced(g.cache, g'.cache, g.trace, g.blocks[b].hash.value);
    } else {
      assert KeysOn(g.cache, b) == {};
      assert g'.cache == g.cache && g'.trace == g.trace;
    }
  }

  lemma {:induction false} AllocManyTraced(g: Gpu, refs: multiset<nat>, n: nat)
    requires Core(g, refs) && Traced(g)
    ensures Traced(AllocMany(g, n).2)
  {
    hide Core, Traced, Allocated, AllocBlock, HasFree;
    if n > 0 {
      AllocManyTraced(g, refs, n - 1);
      AllocManyMeans(g, refs, n - 1);
      var (ok, bs, g1) := AllocMany(g, n - 1);
      if ok && HasFree(g1.pool) {
        AllocTraced(g1, refs + multiset(bs));
      }
    }
  }

  // ----- registration

  lemma {:induction false} RegisterEventsIn(trace: seq<Event>, keys: seq<PrefixCacheKey>, k: PrefixCacheKey)
    ensures WasRegistered(trace + RegisterEvents(keys), k) <==> WasRegistered(trace, k) || k in keys
    ensures WasEvicted(trace + RegisterEvents(keys), k) <==> WasEvicted(trace, k)
  {
    var events := RegisterEvents(keys);
    if k in keys {
      var i :| 0 <= i < |keys| && keys[i] == k;
      assert events[i] == Registered(k);
    }
    assert forall i :: 0 <= i < |events| ==> events[i] == Registered(keys[i]);
  }

  lemma {:induction false} RegisteredTraced(g: Gpu, g': Gpu, bs: seq<nat>, keys: seq<PrefixCacheKey>)
    requires |bs| == |keys| && Traced(g) && AllRegistered(g, g', bs, keys)
    ensures Traced(g')
  {
    forall k ensures WasRegistered(g'.trace, k) <==> WasRegistered(g.trace, k) || k in keys
             ensures WasEvicted(g'.trace, k) <==> WasEvicted(g.trace, k)
    {
      RegisterEventsIn(g.trace, keys, k);
    }
    hide WasRegistered, WasEvicted;
    forall b | b in g'.blocks && g'.blocks[b].cached && g'.blocks[b].hash.Some?
      ensures WasRegistered(g'.trace, g'.blocks[b].hash.value)
    {
      if b in bs {
        var i :| 0 <= i < |bs| && bs[i] == b;
        assert keys[i] in keys;
      }
    }
  }

  // ----- steps

  lemma {:induction false} HitsTraced(g: Gpu, ask: Ask)
    requires Inv(g) && Traced(g)
    ensures Traced(AfterHits(g, ask))
  {
    var g0 := SetClaim(g, ask.id, Claim(ask.keys, false));
    InvCore(g);
    HitsStep(g, ask);
    hide Inv, Core, AllRefs, Hits, AcquireAll, AfterHits, Acquired;
    QuietTraced(g, g0);
    AcquiredTraced(g0, AfterHits(g, ask));
  }

  lemma {:induction false} MissesTraced(g: Gpu, ask: Ask)
    requires Inv(g) && Traced(g)
    ensures Traced(AllocMany(AfterHits(g, ask), MissCount(g, ask)).2)
  {
    HitsTraced(g, ask);
    InvCore(g);
    HitsStep(g, ask);
    hide Inv, Core, AllRefs, Traced, Hits, AfterHits, AllocMany, MissCount;
    AllocManyTraced(AfterHits(g, ask), AllRefs(g) + multiset(Hits(g, ask.keys)), MissCount(g, ask));
  }

  lemma {:induction false} RowTraced(g: Gpu, id: nat, row: seq<nat>)
    requires Traced(g)
    ensures Traced(SetTable(g, id, row))
  {
    QuietTraced(g, SetTable(g, id, row));
  }

  lemma {:induction false} AllocateTraced(g: Gpu, ask: Ask)
    requires Inv(g) && Traced(g) && |ask.keys| <= ask.logical && ask.id !in g.tables && AllocateAsk(g, ask).0
    ensures Traced(AllocateAsk(g, ask).1)
  {
    MissesTraced(g, ask);
    assert AllocMany(AfterHits(g, ask), MissCount(g, ask)).0;
    InvCore(g);
    hide Inv, Traced, Core, AllRefs, Hits, AfterHits, AllocMany, AllocateAsk, Marked, Allocated, Acquired, SetTable,
         ToMark;
    AllocSteps(g, ask);
    AllocateMeans(g, ask);
    var hits, g1 := Hits(g, ask.keys), AfterHits(g, ask);
    var (_, more, g2) := AllocMany(g1, MissCount(g, ask));
    RowTraced(g2, ask.id, hits + more);
    AllocateMarks(g, ask, hits, g1, more, g2);
  }

  /** The last step of an allocation: the missed input blocks are marked. */
  lemma {:induction false} AllocateMarks(g: Gpu, ask: Ask, hits: seq<nat>, g1: Gpu, more: seq<nat>, g2: Gpu)
    requires |hits| <= |ask.keys| <= |hits| + |more|
    requires Allocated(g1, g2, AllRefs(g) + multiset(hits), more)
    requires var g3 := SetTable(g2, ask.id, hits + more);
             && Traced(g3)
             && Marked(g3, AllocateAsk(g, ask).1, ToMark(ask, hits, more).0, ToMark(ask, hits, more).1)
    ensures Traced(AllocateAsk(g, ask).1)
  {
    hide Traced, AllRefs, Allocated, AllocateAsk, Marked;
    var n := |ask.keys| - |hits|;
    FreshMarkable(g1, g2, AllRefs(g) + multiset(hits), more, n);
    var g3 := SetTable(g2, ask.id, hits + more);
    assert forall b :: BlockAt(g3, b) == BlockAt(g2, b);
    MarkedTraced(g3, AllocateAsk(g, ask).1, ToMark(ask, hits, more).0, ToMark(ask, hits, more).1);
  }

  lemma {:induction false} CommitTraced(g: Gpu, id: nat)
    requires Inv(g) && Traced(g) && id in g.tables
    ensures Traced(CommitInput(g, id))
  {
    hide Core, AllRegistered, Traced, RegisterAll;
    if !ClaimOf(g, id).committed {
      assert RowOk(g.tables[id], g.claims[id], g.blocks);
      var keys := g.claims[id].keys;
      CommitMeans(g, id);
      hide Inv;
      var bs := g.tables[id][..|keys|];
      RegisteredTraced(g, RegisterAll(g, bs, keys), bs, keys);
      QuietTraced(RegisterAll(g, bs, keys), CommitInput(g, id));
    }
  }

  lemma {:induction false} OutputTraced(g: Gpu, id: nat, start: nat, keys: seq<PrefixCacheKey>)
    requires Inv(g) && Traced(g) && id in g.tables && |ClaimOf(g, id).keys| <= start
    ensures Traced(RegisterOutput(g, id, start, keys))
  {
    hide Core, AllRegistered, Traced, RegisterAll, Registrable, Inv;
    InvClaims(g, id);
    InvCore(g);
    var row := g.tables[id];
    var end := if start + |keys| <= |row| then start + |keys| else |row|;
    if start < end {
      var bs, named := row[start..end], keys[..end - start];
      OutputRegistrable(g, id, start, end, named);
      RegisterAllMeans(g, AllRefs(g), bs, named);
      RegisteredTraced(g, RegisterAll(g, bs, named), bs, named);
    }
  }

  lemma {:induction false} ReleaseTraced(g: Gpu, id: nat)
    requires Traced(g)
    ensures Traced(Release(g, id)) && Release(g, id).trace == g.trace && Release(g, id).claims == g.claims
    ensures Release(g, id).cache == g.cache
  {
    hide Traced;
    QuietTraced(g, g.(tables := g.tables - {id}));
    FreeAllTraced(g.(tables := g.tables - {id}), TableOf(g, id));
  }

  lemma {:induction false} FinishTraced(g: Gpu, id: nat, start: nat, keys: seq<PrefixCacheKey>)
    requires Inv(g) && Traced(g) && id in g.tables && |ClaimOf(g, id).keys| <= start
    ensures Traced(Finish(g, id, start, keys))
  {
    hide Inv, Traced, CommitInput, RegisterOutput, Release;
    InvClaims(g, id);
    CommitKeeps(g, id);
    CommitTraced(g, id);
    OutputTraced(CommitInput(g, id), id, start, keys);
    ReleaseTraced(RegisterOutput(CommitInput(g, id), id, start, keys), id);
  }

  lemma {:induction false} ReserveTraced(g: Gpu, n: nat)
    requires Inv(g) && Traced(g)
    ensures Traced(Reserve(g, n).1)
  {
    InvCore(g);
    AllocManyTraced(g, AllRefs(g), n);
    hide Inv, Core, Traced, AllocMany;
    var (ok, bs, g1) := AllocMany(g, n);
    if ok {
      QuietTraced(g1, g1.(reserved := g1.reserved + bs));
    } else {
      FreeAllTraced(g1, bs);
    }
  }

  lemma {:induction false} StepTraced(g: Gpu, watermark: nat, call: GpuCall)
    requires Inv(g) && Traced(g)
    ensures Traced(GpuStep(g, watermark, call))
  {
    hide Inv, Traced, CanAllocate, AllocateAsk, CommitInput, Finish, Release, Reserve;
    if Sensible(g, call) {
      match call
      case AdmitCall(ask) =>
        if CanAllocate(g, ask, watermark) {
          AdmissionSound(g, ask, watermark);
          AllocateTraced(g, ask);
        }
      case AppendCall(id, logical) =>
        if |TableOf(g, id)| < logical && HasFree(g.pool) {
          InvCore(g);
          AllocTraced(g, AllRefs(g));
          hide AllocBlock;
          QuietTraced(AllocBlock(g).1, AppendSlot(g, id, logical).1);
        }
      case CommitCall(id) => CommitTraced(g, id);
      case FinishCall(id, start, keys) => FinishTraced(g, id, start, keys);
      case ReleaseCall(id) => ReleaseTraced(g, id);
      case ReserveCall(n) => ReserveTraced(g, n);
      case ReleaseReservedCall(n) =>
        if n <= |g.reserved| {
          QuietTraced(g, g.(reserved := g.reserved[n..]));
          FreeAllTraced(g.(reserved := g.reserved[n..]), g.reserved[..n]);
        }
    }
  }

  /** In every reachable state, a key ever registered is indexed or was announced as evicted by
      capacity, and no other key is either. */
  lemma {:induction false} RunTraced(numBlocks: nat, watermark: nat, calls: seq<GpuCall>)
    ensures Traced(GpuRun(numBlocks, watermark, calls))
  {
    hide Inv;
    if calls != [] {
      var g := GpuRun(numBlocks, watermark, calls[..|calls| - 1]);
      RunTraced(numBlocks, watermark, calls[..|calls| - 1]);
      RunInv(numBlocks, watermark, calls[..|calls| - 1]);
      hide Traced;
      StepTraced(g, watermark, calls[|calls| - 1]);
    }
  }

  // ----- where registered keys come from

  /** The keys a call brings: a prompt's input keys, or its output keys. */
  function CallKeys(call: GpuCall): seq<PrefixCacheKey> {
    match call
    case AdmitCall(ask) => ask.keys
    case FinishCall(_, _, keys) => keys
    case _ => []
  }

  ghost predicate Asked(calls: seq<GpuCall>, k: PrefixCacheKey) {
    exists i :: 0 <= i < |calls| && k in CallKeys(calls[i])
  }

  ghost predicate KeysAsked(g: Gpu, calls: seq<GpuCall>) {
    && (forall k :: WasRegistered(g.trace, k) ==> Asked(calls, k))
    && (forall id, i :: id in g.claims && 0 <= i < |g.claims[id].keys| ==> Asked(calls, g.claims[id].keys[i]))
  }

  /** A step registers only keys it brings or keys already claimed. */
  ghost predicate BringsOnly(g: Gpu, g': Gpu, call: GpuCall) {
    && (forall k :: WasRegistered(g'.trace, k) ==>
          || WasRegistered(g.trace, k) || k in CallKeys(call)
          || exists id :: id in g.claims && k in g.claims[id].keys)
    && (forall id :: id in g'.claims ==>
          g'.claims[id].keys == CallKeys(call) || (id in g.claims && g'.claims[id].keys == g.claims[id].keys))
  }

  lemma {:induction false} AskedMore(calls: seq<GpuCall>, call: GpuCall, k: PrefixCacheKey)
    requires Asked(calls, k) || k in CallKeys(call)
    ensures Asked(calls + [call], k)
  {
    var all := calls + [call];
    if Asked(calls, k) {
      var i :| 0 <= i < |calls| && k in CallKeys(calls[i]);
      assert all[i] == calls[i];
    } else {
      assert all[|calls|] == call;
    }
  }

  lemma {:induction false} AskedThen(g: Gpu, g': Gpu, calls: seq<GpuCall>, call: GpuCall)
    requires KeysAsked(g, calls) && BringsOnly(g, g', call)
    ensures KeysAsked(g', calls + [call])
  {
    hide Asked, CallKeys, WasRegistered;
    forall k | WasRegistered(g'.trace, k) ensures Asked(calls + [call], k) {
      if exists id :: id in g.claims && k in g.claims[id].keys {
        var id :| id in g.claims && k in g.claims[id].keys;
        var i :| 0 <= i < |g.claims[id].keys| && g.claims[id].keys[i] == k;
        assert Asked(calls, g.claims[id].keys[i]);
      }
      AskedMore(calls, call, k);
    }
    forall id, i | id in g'.claims && 0 <= i < |g'.claims[id].keys| ensures Asked(calls + [call], g'.claims[id].keys[i]) {
      AskedMore(calls, call, g'.claims[id].keys[i]);
    }
  }

  lemma {:induction false} AnnouncedBrings(g: Gpu, g': Gpu, k: PrefixCacheKey)
    requires Announced(g, g')
    ensures WasRegistered(g'.trace, k) ==> WasRegistered(g.trace, k)
  {
    if WasRegistered(g'.trace, k) {
      var i :| 0 <= i < |g'.trace| && g'.trace[i] == Registered(k);
      assert g'.trace[..|g.trace|][i] == g.trace[i];
    }
  }

  lemma {:induction false} RegisteredBrings(g: Gpu, g': Gpu, bs: seq<nat>, keys: seq<PrefixCacheKey>, call: GpuCall)
    requires |bs| == |keys| && AllRegistered(g, g', bs, keys)
    requires forall k :: k in keys ==> k in CallKeys(call) || exists id :: id in g.claims && k in g.claims[id].keys
    ensures BringsOnly(g, g', call)
  {
    forall k ensures WasRegistered(g'.trace, k) <==> WasRegistered(g.trace, k) || k in keys {
      RegisterEventsIn(g.trace, keys, k);
    }
    hide WasRegistered, Stamped, CallKeys;
  }

  lemma {:induction false} SameKeysBrings(g: Gpu, id: nat, call: GpuCall)
    requires id in g.claims
    ensures BringsOnly(g, SetClaim(g, id, g.claims[id].(committed := true)), call)
  {
  }

  lemma {:induction false} CommitBrings(g: Gpu, id: nat, call: GpuCall)
    requires Inv(g) && id in g.tables
    ensures BringsOnly(g, CommitInput(g, id), call)
  {
    InvClaims(g, id);
    if ClaimOf(g, id).committed {
      StillBrings(g, g, call);
    } else {
      var keys := g.claims[id].keys;
      assert RowOk(g.tables[id], g.claims[id], g.blocks);
      CommitMeans(g, id);
      hide Inv, Core, RowOk, AllRegistered, RegisterAll, BringsOnly;
      var bs := g.tables[id][..|keys|];
      var g1 := RegisterAll(g, bs, keys);
      RegisteredBrings(g, g1, bs, keys, call);
      RegisteredFacts(g, g1, bs, keys);
      SameKeysBrings(g1, id, call);
      BringsThen(g, g1, CommitInput(g, id), call);
    }
  }

  lemma {:induction false} OutputBrings(g: Gpu, id: nat, start: nat, keys: seq<PrefixCacheKey>, call: GpuCall)
    requires Inv(g) && id in g.tables && |ClaimOf(g, id).keys| <= start && CallKeys(call) == keys
    ensures BringsOnly(g, RegisterOutput(g, id, start, keys), call)
  {
    hide Core, RegisterAll, Registrable, Inv;
    InvClaims(g, id);
    InvCore(g);
    var row := g.tables[id];
    var end := if start + |keys| <= |row| then start + |keys| else |row|;
    if start < end {
      var bs, named := row[start..end], keys[..end - start];
      OutputRegistrable(g, id, start, end, named);
      hide AllRegistered, BringsOnly;
      RegisterAllMeans(g, AllRefs(g), bs, named);
      RegisteredBrings(g, RegisterAll(g, bs, named), bs, named, call);
    } else {
      StillBrings(g, g, call);
    }
  }

  lemma {:induction false} BringsThen(g: Gpu, g1: Gpu, g2: Gpu, call: GpuCall)
    requires BringsOnly(g, g1, call) && BringsOnly(g1, g2, call)
    ensures BringsOnly(g, g2, call)
  {
    hide CallKeys, WasRegistered;
    forall k | WasRegistered(g2.trace, k)
      ensures WasRegistered(g.trace, k) || k in CallKeys(call) || exists id :: id in g.claims && k in g.claims[id].keys
    {
      if !WasRegistered(g1.trace, k) && k !in CallKeys(call) {
        var id :| id in g1.claims && k in g1.claims[id].keys;
        assert id in g.claims && g.claims[id].keys == g1.claims[id].keys;
      }
    }
  }

  lemma {:induction false} StillBrings(g: Gpu, g': Gpu, call: GpuCall)
    requires g'.trace == g.trace && g'.claims == g.claims
    ensures BringsOnly(g, g', call)
  {
  }

  lemma {:induction false} AnnouncedOnly(g: Gpu, g': Gpu, call: GpuCall)
    requires Announced(g, g')
    requires forall id :: id in g'.claims ==>
               g'.claims[id].keys == CallKeys(call) || (id in g.claims && g'.claims[id].keys == g.claims[id].keys)
    ensures BringsOnly(g, g', call)
  {
    forall k ensures WasRegistered(g'.trace, k) ==> WasRegistered(g.trace, k) {
      AnnouncedBrings(g, g', k);
    }
  }

  lemma {:induction false} AllocateRegistersNothing(g: Gpu, ask: Ask)
    requires Inv(g) && |ask.keys| <= ask.logical && ask.id !in g.tables && AllocateAsk(g, ask).0
    ensures forall k :: WasRegistered(AllocateAsk(g, ask).1.trace, k) ==> WasRegistered(g.trace, k)
  {
    assert AllocMany(AfterHits(g, ask), MissCount(g, ask)).0;
    InvCore(g);
    hide Inv, Core, AllRefs, Hits, AllocMany, AllocateAsk, AfterHits, Allocated, Announced, WasRegistered;
    AllocSteps(g, ask);
    AllocateTables(g, ask);
    var g1, g' := AfterHits(g, ask), AllocateAsk(g, ask).1;
    var (_, more, g2) := AllocMany(g1, MissCount(g, ask));
    AllocatedFacts(g1, g2, AllRefs(g) + multiset(Hits(g, ask.keys)), more);
    forall k ensures WasRegistered(g'.trace, k) ==> WasRegistered(g.trace, k) {
      AnnouncedBrings(g1, g2, k);
    }
  }

  lemma {:induction false} AllocateBrings(g: Gpu, ask: Ask)
    requires Inv(g) && |ask.keys| <= ask.logical && ask.id !in g.tables && AllocateAsk(g, ask).0
    ensures BringsOnly(g, AllocateAsk(g, ask).1, AdmitCall(ask))
  {
    assert AllocMany(AfterHits(g, ask), MissCount(g, ask)).0;
    InvCore(g);
    hide Inv, Core, AllRefs, AllocMany, AllocateAsk, AfterHits, WasRegistered;
    AllocateRegistersNothing(g, ask);
    AllocateTables(g, ask);
  }

  lemma {:induction false} FinishBrings(g: Gpu, id: nat, start: nat, keys: seq<PrefixCacheKey>)
    requires Inv(g) && id in g.tables && |ClaimOf(g, id).keys| <= start
    ensures BringsOnly(g, Finish(g, id, start, keys), FinishCall(id, start, keys))
  {
    hide Inv, CommitInput, RegisterOutput, BringsOnly, FreeAll;
    var call := FinishCall(id, start, keys);
    InvClaims(g, id);
    CommitKeeps(g, id);
    CommitBrings(g, id, call);
    var g1 := CommitInput(g, id);
    OutputBrings(g1, id, start, keys, call);
    var g2 := RegisterOutput(g1, id, start, keys);
    BringsThen(g, g1, g2, call);
    FreeAllFrame(g2.(tables := g2.tables - {id}), TableOf(g2, id));
    StillBrings(g2, Finish(g, id, start, keys), call);
    BringsThen(g, g2, Finish(g, id, start, keys), call);
  }

  lemma {:induction false} FreeAllFrame(g: Gpu, bs: seq<nat>)
    ensures FreeAll(g, bs).trace == g.trace && FreeAll(g, bs).claims == g.claims
  {
    if bs != [] {
      FreeAllFrame(g, bs[..|bs| - 1]);
    }
  }

  lemma {:induction false} StepBrings(g: Gpu, watermark: nat, call: GpuCall)
    requires Inv(g)
    ensures BringsOnly(g, GpuStep(g, watermark, call), call)
  {
    hide Inv, CanAllocate, AllocateAsk, CommitInput, Finish, BringsOnly, FreeAll, AllocMany, AllocBlock;
    StillBrings(g, g, call);
    if Sensible(g, call) {
      match call
      case AdmitCall(ask) =>
        if CanAllocate(g, ask, watermark) {
          AdmissionSound(g, ask, watermark);
          AllocateBrings(g, ask);
        }
      case AppendCall(id, logical) =>
        if |TableOf(g, id)| < logical && HasFree(g.pool) {
          InvCore(g);
          AllocOne(g, AllRefs(g));
          AllocatedFacts(g, AllocBlock(g).1, AllRefs(g), [AllocBlock(g).0]);
          AnnouncedOnly(g, GpuStep(g, watermark, call), call);
        }
      case CommitCall(id) => CommitBrings(g, id, call);
      case FinishCall(id, start, keys) => FinishBrings(g, id, start, keys);
      case ReleaseCall(id) =>
        FreeAllFrame(g.(tables := g.tables - {id}), TableOf(g, id));
        StillBrings(g, Release(g, id), call);
      case ReserveCall(n) => ReserveBrings(g, n, call);
      case ReleaseReservedCall(n) =>
        if n <= |g.reserved| {
          FreeAllFrame(g.(reserved := g.reserved[n..]), g.reserved[..n]);
          StillBrings(g, ReleaseReserved(g, n).1, call);
        }
    }
  }

  lemma {:induction false} ReserveBrings(g: Gpu, n: nat, call: GpuCall)
    requires Inv(g)
    ensures BringsOnly(g, Reserve(g, n).1, call)
  {
    hide Inv, BringsOnly, FreeAll, AllocMany, Core, Allocated;
    InvCore(g);
    AllocManyMeans(g, AllRefs(g), n);
    var (ok, bs, g1) := AllocMany(g, n);
    AllocatedFacts(g, g1, AllRefs(g), bs);
    AnnouncedOnly(g, g1, call);
    FreeAllFrame(g1, bs);
    StillBrings(g1, Reserve(g, n).1, call);
    BringsThen(g, g1, Reserve(g, n).1, call);
  }

  lemma {:induction false} RunAsked(numBlocks: nat, watermark: nat, calls: seq<GpuCall>)
    ensures KeysAsked(GpuRun(numBlocks, watermark, calls), calls)
  {
    hide Inv, KeysAsked, BringsOnly, GpuStep;
    if calls == [] {
      NothingAsked(numBlocks);
    } else {
      var front, last := calls[..|calls| - 1], calls[|calls| - 1];
      RunAsked(numBlocks, watermark, front);
      RunInv(numBlocks, watermark, front);
      StepBrings(GpuRun(numBlocks, watermark, front), watermark, last);
      AskedThen(GpuRun(numBlocks, watermark, front), GpuRun(numBlocks, watermark, calls), front, last);
      assert calls == front + [last];
    }
  }

  lemma {:induction false} NothingAsked(numBlocks: nat)
    ensures KeysAsked(NewGpu(numBlocks), [])
  {
  }

  lemma {:induction false} IndexedAsked(g: Gpu, calls: seq<GpuCall>, k: PrefixCacheKey)
    requires Traced(g) && KeysAsked(g, calls) && k in g.cache
    ensures Asked(calls, k)
  {
    hide WasRegistered, Asked;
  }

  /** Every evicted key was an input key or an output key of some call. */
  lemma {:induction false} EvictedAsked(numBlocks: nat, watermark: nat, calls: seq<GpuCall>, k: PrefixCacheKey)
    requires WasEvicted(GpuRun(numBlocks, watermark, calls).trace, k)
    ensures Asked(calls, k)
  {
    RunTraced(numBlocks, watermark, calls);
    RunAsked(numBlocks, watermark, calls);
    hide GpuRun, Asked, WasRegistered, WasEvicted;
  }

  // ----- hit soundness

  datatype Prompt = Prompt(scope: Scope, ids: seq<HashId>)

  /** Call i is made for prompt i: input keys are its key chain, output keys the chain's tail. */
  ghost predicate KeyedByPrompts(calls: seq<GpuCall>, prompts: seq<Prompt>) {
    && |calls| == |prompts|
    && forall i :: 0 <= i < |calls| ==>
         var chain := PrefixKeys(prompts[i].scope, prompts[i].ids);
         match calls[i]
         case AdmitCall(ask) => ask.keys == chain
         case FinishCall(_, start, keys) => keys != [] ==> start <= |chain| && keys == chain[start..]
         case _ => true
  }

  lemma {:induction false} ChainPosition(calls: seq<GpuCall>, prompts: seq<Prompt>, n: nat, k: PrefixCacheKey)
    requires KeyedByPrompts(calls, prompts) && n < |calls| && k in CallKeys(calls[n])
    ensures k in PrefixKeys(prompts[n].scope, prompts[n].ids)
  {
  }

  /** A hit on block i of a prompt means that some request seen before had the same scope and the
      same block signatures from the first block through block i. */
  lemma {:induction false} HitSound(numBlocks: nat, watermark: nat, calls: seq<GpuCall>, prompts: seq<Prompt>,
                                    prompt: Prompt, i: nat)
    requires KeyedByPrompts(calls, prompts)
    requires i < |Hits(GpuRun(numBlocks, watermark, calls), PrefixKeys(prompt.scope, prompt.ids))|
    ensures exists n :: 0 <= n < |prompts| && prompts[n].scope == prompt.scope && i < |prompts[n].ids|
                        && Signatures(prompts[n].ids)[..i + 1] == Signatures(prompt.ids)[..i + 1]
  {
    var g, keys := GpuRun(numBlocks, watermark, calls), PrefixKeys(prompt.scope, prompt.ids);
    hide GpuRun, Traced, KeysAsked, PrefixKeys;
    RunTraced(numBlocks, watermark, calls);
    RunAsked(numBlocks, watermark, calls);
    IndexedAsked(g, calls, keys[i]);
    var n :| 0 <= n < |calls| && keys[i] in CallKeys(calls[n]);
    ChainPosition(calls, prompts, n, keys[i]);
    var chain := PrefixKeys(prompts[n].scope, prompts[n].ids);
    var j :| 0 <= j < |chain| && chain[j] == keys[i];
    PrefixKeysMeet(prompt.scope, prompt.ids, i, prompts[n].scope, prompts[n].ids, j);
  }

  ghost predicate IdsIn(ids: iset<HashId>, prompt: Prompt) {
    forall a :: a in prompt.ids ==> a in ids
  }

  /** Some prompt has the same scope and the same first i + 1 hash ids. */
  ghost predicate SeenBefore(prompts: seq<Prompt>, prompt: Prompt, i: nat) {
    && i < |prompt.ids|
    && exists n :: 0 <= n < |prompts| && prompts[n].scope == prompt.scope && i < |prompts[n].ids|
                   && prompts[n].ids[..i + 1] == prompt.ids[..i + 1]
  }

  /** Where no string id spells an integer id in use, a hit on block i means that some request seen
      before had the same scope and the same first i + 1 hash ids. */
  lemma {:induction false} HitSoundOnIds(numBlocks: nat, watermark: nat, calls: seq<GpuCall>, prompts: seq<Prompt>,
                                         prompt: Prompt, i: nat, ids: iset<HashId>)
    requires KeyedByPrompts(calls, prompts)
    requires i < |Hits(GpuRun(numBlocks, watermark, calls), PrefixKeys(prompt.scope, prompt.ids))|
    requires Apart(ids) && IdsIn(ids, prompt) && forall n :: 0 <= n < |prompts| ==> IdsIn(ids, prompts[n])
    ensures SeenBefore(prompts, prompt, i)
  {
    HitSound(numBlocks, watermark, calls, prompts, prompt, i);
    hide GpuRun, Hits, Apart;
    var n :| 0 <= n < |prompts| && prompts[n].scope == prompt.scope && i < |prompts[n].ids|
             && Signatures(prompts[n].ids)[..i + 1] == Signatures(prompt.ids)[..i + 1];
    var a, b := prompts[n].ids, prompt.ids;
    assert |Signatures(b)[..i + 1]| == i + 1;
    ApartIffFaithful(ids);
    forall j | 0 <= j <= i ensures a[j] == b[j] {
      assert Signatures(a)[..i + 1][j] == Signatures(b)[..i + 1][j];
      assert a[j] in a && b[j] in b && IdsIn(ids, prompts[n]);
    }
    assert a[..i + 1] == b[..i + 1];
  }
}

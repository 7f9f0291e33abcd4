/** Admission, and every reachable state of the block manager. */
module BlockRuns {
  import opened Containers
  import opened Keys
  import opened FreeQueues
  import opened BlockPools
  import opened BlockModel
  import opened BlockLanes
  import opened BlockInvariants
  import opened BlockLists
  import opened BlockTables

  // ----- the steps of an allocation

  lemma {:induction false} HitsCached(g: Gpu, keys: seq<PrefixCacheKey>)
    requires CacheOk(g.blocks, g.cache) && MetaOk(g.blocks)
    ensures forall i :: 0 <= i < |Hits(g, keys)| ==>
              && Hits(g, keys)[i] in g.blocks && g.blocks[Hits(g, keys)[i]].cached
              && g.blocks[Hits(g, keys)[i]].isFull && g.blocks[Hits(g, keys)[i]].hash == Some(keys[i])
  {
  }

  lemma {:induction false} HitsDistinct(g: Gpu, keys: seq<PrefixCacheKey>)
    requires CacheOk(g.blocks, g.cache) && Distinct(keys)
    ensures Distinct(Hits(g, keys))
  {
    var hits := Hits(g, keys);
    forall i, j | 0 <= i < j < |hits| ensures hits[i] != hits[j] {
      assert g.blocks[hits[i]].hash == Some(keys[i]) && g.blocks[hits[j]].hash == Some(keys[j]);
    }
  }

  function MissCount(g: Gpu, ask: Ask): (n: nat)
    ensures |ask.keys| <= ask.logical ==> n == Misses(g, ask) && |Hits(g, ask.keys)| + n == ask.logical
  {
    if |Hits(g, ask.keys)| <= ask.logical then ask.logical - |Hits(g, ask.keys)| else 0
  }

  /** The state after the hits have been acquired. */
  function AfterHits(g: Gpu, ask: Ask): Gpu {
    AcquireAll(SetClaim(g, ask.id, Claim(ask.keys, false)), Hits(g, ask.keys))
  }

  lemma {:induction false} ZeroRefsSame(g: Gpu, g': Gpu, bs: seq<nat>)
    requires g'.blocks == g.blocks
    ensures ZeroRefs(g', bs) == ZeroRefs(g, bs)
  {
    if bs != [] {
      ZeroRefsSame(g, g', bs[..|bs| - 1]);
    }
  }

  lemma {:induction false} HitsStep(g: Gpu, ask: Ask)
    requires Core(g, AllRefs(g))
    ensures var hits, g1 := Hits(g, ask.keys), AfterHits(g, ask);
            && Core(g1, AllRefs(g) + multiset(hits)) && Acquired(SetClaim(g, ask.id, Claim(ask.keys, false)), g1)
            && FreeCount(g1.pool) >= FreeCount(g.pool) - ZeroRefs(g, hits)
            && (Distinct(ask.keys) ==> FreeCount(g1.pool) == FreeCount(g.pool) - ZeroRefs(g, hits))
  {
    var hits, g0 := Hits(g, ask.keys), SetClaim(g, ask.id, Claim(ask.keys, false));
    HitsCached(g, ask.keys);
    if Distinct(ask.keys) {
      HitsDistinct(g, ask.keys);
    }
    hide Core, Acquired, AllRefs, Distinct;
    CoreSame(g, g0, AllRefs(g));
    ZeroRefsSame(g, g0, hits);
    AcquireAllMeans(g0, AllRefs(g), hits);
  }

  /** Everything an allocation does before it marks the missed input blocks. */
  lemma {:induction false} AllocSteps(g: Gpu, ask: Ask)
    requires Core(g, AllRefs(g)) && |ask.keys| <= ask.logical
    ensures var hits, g1 := Hits(g, ask.keys), AfterHits(g, ask);
            var (ok, more, g2) := AllocMany(g1, MissCount(g, ask));
            && Acquired(SetClaim(g, ask.id, Claim(ask.keys, false)), g1)
            && Allocated(g1, g2, AllRefs(g) + multiset(hits), more)
            && Core(g2, AllRefs(g) + multiset(hits) + multiset(more))
            && (ok <==> FreeCount(g1.pool) >= MissCount(g, ask))
            && (ok ==> |more| == MissCount(g, ask) && FreeCount(g2.pool) == FreeCount(g1.pool) - |more|)
  {
    hide Core, Acquired, Allocated, AllRefs, AcquireAll, Hits;
    HitsStep(g, ask);
    AllocManyMeans(AfterHits(g, ask), AllRefs(g) + multiset(Hits(g, ask.keys)), MissCount(g, ask));
    var (ok, more, g2) := AllocMany(AfterHits(g, ask), MissCount(g, ask));
    AllocatedFacts(AfterHits(g, ask), g2, AllRefs(g) + multiset(Hits(g, ask.keys)), more);
  }

  /** The blocks and the keys an allocation marks. */
  function ToMark(ask: Ask, hits: seq<nat>, more: seq<nat>): (r: (seq<nat>, seq<PrefixCacheKey>))
    requires |hits| <= |ask.keys| <= |hits| + |more|
    ensures |r.0| == |r.1|
  {
    (more[..|ask.keys| - |hits|], ask.keys[|hits|..])
  }

  lemma {:induction false} AllocateForm(g: Gpu, ask: Ask)
    requires |ask.keys| <= ask.logical && ask.id !in g.tables
    requires AllocMany(AfterHits(g, ask), MissCount(g, ask)).0
    requires |AllocMany(AfterHits(g, ask), MissCount(g, ask)).1| == MissCount(g, ask)
    requires ask.id !in AllocMany(AfterHits(g, ask), MissCount(g, ask)).2.tables
    ensures var hits, more := Hits(g, ask.keys), AllocMany(AfterHits(g, ask), MissCount(g, ask)).1;
            var g3 := SetTable(AllocMany(AfterHits(g, ask), MissCount(g, ask)).2, ask.id, hits + more);
            AllocateAsk(g, ask) == (true, MarkAll(g3, ToMark(ask, hits, more).0, ToMark(ask, hits, more).1))
  {
    hide AllocMany, Hits, AcquireAll;
    var hits := Hits(g, ask.keys);
    var (ok, more, g2) := AllocMany(AfterHits(g, ask), MissCount(g, ask));
    var n := |ask.keys|;
    assert [] + (hits + more) == hits + more;
    assert (hits + more)[|hits|..n] == more[..n - |hits|];
    assert ask.keys[|hits|..n] == ask.keys[|hits|..];
  }

  // ----- admission is sound

  lemma {:induction false} FreshMarkable(g: Gpu, g1: Gpu, refs: multiset<nat>, more: seq<nat>, n: nat)
    requires Allocated(g, g1, refs, more) && n <= |more|
    ensures Distinct(more[..n])
    ensures forall b :: b in more[..n] ==> b in refs + multiset(more) && !BlockAt(g1, b).cached && b !in refs
  {
    forall b | b in more[..n] ensures b in more && b in multiset(more) {
    }
  }

  /** The blocks of the new request. */
  function NewRow(g: Gpu, ask: Ask): seq<nat> {
    Hits(g, ask.keys) + AllocMany(AfterHits(g, ask), MissCount(g, ask)).1
  }

  ghost function RefsAfter(g: Gpu, ask: Ask): multiset<nat> {
    AllRefs(g) + multiset(Hits(g, ask.keys)) + multiset(AllocMany(AfterHits(g, ask), MissCount(g, ask)).1)
  }

  lemma {:induction false} AllocateMeans(g: Gpu, ask: Ask)
    requires Core(g, AllRefs(g)) && |ask.keys| <= ask.logical && ask.id !in g.tables
    requires AllocMany(AfterHits(g, ask), MissCount(g, ask)).0
    ensures var (ok, g') := AllocateAsk(g, ask);
            var hits := Hits(g, ask.keys);
            var (_, more, g2) := AllocMany(AfterHits(g, ask), MissCount(g, ask));
            var g3 := SetTable(g2, ask.id, hits + more);
            && ok && |more| == MissCount(g, ask)
            && Core(g', RefsAfter(g, ask))
            && Marked(g3, g', ToMark(ask, hits, more).0, ToMark(ask, hits, more).1)
            && g'.pool == g2.pool && g'.cache == g2.cache
  {
    var hits, g1 := Hits(g, ask.keys), AfterHits(g, ask);
    AllocSteps(g, ask);
    var (_, more, g2) := AllocMany(g1, MissCount(g, ask));
    var g3 := SetTable(g2, ask.id, hits + more);
    assert g2.tables == g.tables by {
      AllocatedFacts(g1, g2, AllRefs(g) + multiset(hits), more);
    }
    hide Core, AcquireAll, Hits, AllocMany, AllocateAsk, Allocated, AllRefs, Marked;
    CoreSame(g2, g3, RefsAfter(g, ask));
    AllocateForm(g, ask);
    var (bs, ks) := ToMark(ask, hits, more);
    FreshMarkable(g1, g2, AllRefs(g) + multiset(hits), more, |ks|);
    MarkAllMeans(g3, RefsAfter(g, ask), bs, ks);
    MarkedFacts(g3, MarkAll(g3, bs, ks), bs, ks);
  }

  lemma {:induction false} MarkedFacts(g: Gpu, g': Gpu, bs: seq<nat>, keys: seq<PrefixCacheKey>)
    requires |bs| == |keys| && Marked(g, g', bs, keys)
    ensures g' == g.(blocks := g'.blocks)
  {
  }

  /** When the check passes, allocation succeeds and leaves at least the watermark; for a prompt
      whose keys do not repeat the check passes exactly then. */
  lemma {:induction false} AdmissionSound(g: Gpu, ask: Ask, watermark: nat)
    requires Inv(g) && |ask.keys| <= ask.logical && ask.id !in g.tables
    ensures CanAllocate(g, ask, watermark) ==>
              AllocateAsk(g, ask).0 && FreeCount(AllocateAsk(g, ask).1.pool) >= watermark
    ensures Distinct(ask.keys) && AllocateAsk(g, ask).0 && FreeCount(AllocateAsk(g, ask).1.pool) >= watermark
            ==> CanAllocate(g, ask, watermark)
    ensures CanAllocate(g, ask, watermark) ==>
              AllocateAsk(g, ask).1.tables == g.tables[ask.id := NewRow(g, ask)] && |NewRow(g, ask)| == ask.logical
  {
    HitsStep(g, ask);
    AllocSteps(g, ask);
    assert AllocateAsk(g, ask).0 ==> AllocMany(AfterHits(g, ask), MissCount(g, ask)).0;
    hide Inv, Core, AcquireAll, Hits, AllocMany, AllocateAsk, Allocated, AllRefs, Marked, Acquired, AfterHits;
    if AllocMany(AfterHits(g, ask), MissCount(g, ask)).0 {
      assert Core(g, AllRefs(g)) by { InvCore(g); }
      AllocateMeans(g, ask);
      assert CanAllocate(g, ask, watermark) ==>
          AllocateAsk(g, ask).1.tables == g.tables[ask.id := NewRow(g, ask)] by { AllocateTables(g, ask); }
    }
  }

  lemma {:induction false} InvCore(g: Gpu)
    requires Inv(g)
    ensures Core(g, AllRefs(g)) && RowsOk(g.tables, g.claims, g.blocks) && AllKeyed(g.trace)
  {
  }

  lemma {:induction false} AllocateTables(g: Gpu, ask: Ask)
    requires Core(g, AllRefs(g)) && |ask.keys| <= ask.logical && ask.id !in g.tables
    requires AllocMany(AfterHits(g, ask), MissCount(g, ask)).0
    ensures var g' := AllocateAsk(g, ask).1;
            && g'.tables == g.tables[ask.id := NewRow(g, ask)] && g'.reserved == g.reserved
            && g'.claims == g.claims[ask.id := Claim(ask.keys, false)]
            && g'.trace == AllocMany(AfterHits(g, ask), MissCount(g, ask)).2.trace
            && AfterHits(g, ask).trace == g.trace && AfterHits(g, ask).cache == g.cache
  {
    AllocateMeans(g, ask);
    AllocSteps(g, ask);
    var hits, g1 := Hits(g, ask.keys), AfterHits(g, ask);
    var (_, more, g2) := AllocMany(g1, MissCount(g, ask));
    hide Core, AcquireAll, Hits, AllocMany, AllocateAsk, AllRefs;
    AllocatedFacts(g1, g2, AllRefs(g) + multiset(hits), more);
    hide Allocated;
  }

  // ----- hits survive, and the new row is in order

  lemma {:induction false} HitKept(g: Gpu, g1: Gpu, g2: Gpu, refs: multiset<nat>, more: seq<nat>, b: nat,
                                   key: PrefixCacheKey)
    requires Allocated(g1, g2, refs, more) && b in refs && b in g.blocks
    requires SameMarks(g.blocks, g1.blocks) && g1.cache == g.cache && key in g.cache && g.cache[key] == b
    ensures b in g2.blocks && SameMark(g.blocks[b], g2.blocks[b]) && b !in more
    ensures key in g2.cache && g2.cache[key] == b
  {
    hide Announced;
  }

  lemma {:induction false} HitsKept(g: Gpu, g1: Gpu, g2: Gpu, refs: multiset<nat>, keys: seq<PrefixCacheKey>,
                                    more: seq<nat>)
    requires CacheOk(g.blocks, g.cache) && MetaOk(g.blocks)
    requires SameMarks(g.blocks, g1.blocks) && g1.cache == g.cache
    requires Allocated(g1, g2, refs + multiset(Hits(g, keys)), more)
    ensures forall i :: 0 <= i < |Hits(g, keys)| ==>
              && Hits(g, keys)[i] in g2.blocks && g2.blocks[Hits(g, keys)[i]].cached
              && g2.blocks[Hits(g, keys)[i]].isFull && g2.blocks[Hits(g, keys)[i]].hash == Some(keys[i])
              && keys[i] in g2.cache && g2.cache[keys[i]] == Hits(g, keys)[i]
              && Hits(g, keys)[i] !in more
  {
    hide CacheOk, MetaOk, Allocated, SameMarks, Hits, IsHit;
    HitsCached(g, keys);
    var hits := Hits(g, keys);
    forall i | 0 <= i < |hits|
      ensures hits[i] in g2.blocks && SameMark(g.blocks[hits[i]], g2.blocks[hits[i]]) && hits[i] !in more
      ensures keys[i] in g2.cache && g2.cache[keys[i]] == hits[i]
    {
      HitIndexed(g, keys, i);
      assert hits[i] in multiset(hits);
      HitKept(g, g1, g2, refs + multiset(hits), more, hits[i], keys[i]);
    }
  }

  lemma {:induction false} HitIndexed(g: Gpu, keys: seq<PrefixCacheKey>, i: nat)
    requires i < |Hits(g, keys)|
    ensures keys[i] in g.cache && g.cache[keys[i]] == Hits(g, keys)[i]
  {
    assert IsHit(g, keys[i]);
  }

  /** None of the blocks the plan hit is evicted by its own miss allocations, even those that sat
      in the free queue: every hit is still a hit, on the same block, afterwards. */
  lemma {:induction false} HitsSurvive(g: Gpu, ask: Ask, i: nat)
    requires Inv(g) && |ask.keys| <= ask.logical && ask.id !in g.tables && AllocateAsk(g, ask).0
    requires i < |Hits(g, ask.keys)|
    ensures var g' := AllocateAsk(g, ask).1;
            && IsHit(g', ask.keys[i]) && g'.cache[ask.keys[i]] == Hits(g, ask.keys)[i]
            && ask.id in g'.tables && i < |g'.tables[ask.id]| && g'.tables[ask.id][i] == Hits(g, ask.keys)[i]
  {
    assert AllocMany(AfterHits(g, ask), MissCount(g, ask)).0;
    InvCore(g);
    AllocSteps(g, ask);
    AllocateMeans(g, ask);
    AllocateTables(g, ask);
    var hits, g1 := Hits(g, ask.keys), AfterHits(g, ask);
    var (_, more, g2) := AllocMany(g1, MissCount(g, ask));
    assert CacheOk(g.blocks, g.cache) && MetaOk(g.blocks);
    hide Inv, Core, AcquireAll, Hits, AllocMany, AllocateAsk, AllRefs, CacheOk, MetaOk, Allocated;
    HitsKept(g, g1, g2, AllRefs(g), ask.keys, more);
    assert NewRow(g, ask)[i] == hits[i];
  }

  lemma {:induction false} NewRowOk(ask: Ask, hits: seq<nat>, more: seq<nat>, g3: Gpu, g': Gpu)
    requires |hits| <= |ask.keys| <= |hits| + |more|
    requires Marked(g3, g', ToMark(ask, hits, more).0, ToMark(ask, hits, more).1)
    requires forall i :: 0 <= i < |hits| ==> hits[i] in g3.blocks && g3.blocks[hits[i]].isFull && hits[i] !in more
                                             && g3.blocks[hits[i]].hash == Some(ask.keys[i])
    requires Distinct(more) && forall i :: 0 <= i < |more| ==> more[i] in g3.blocks && g3.blocks[more[i]] == TAKEN_BLOCK
    ensures RowOk(hits + more, Claim(ask.keys, false), g'.blocks)
  {
    var row := hits + more;
    var (bs, ks) := ToMark(ask, hits, more);
    forall i | 0 <= i < |row|
      ensures row[i] in g'.blocks
      ensures i < |ask.keys| ==> g'.blocks[row[i]].hash == Some(ask.keys[i]) && g'.blocks[row[i]].isFull
      ensures i >= |ask.keys| ==> g'.blocks[row[i]].hash == None
    {
      if i < |hits| {
        assert hits[i] !in bs;
      } else if i < |ask.keys| {
        assert row[i] == bs[i - |hits|] && ks[i - |hits|] == ask.keys[i];
      } else {
        assert row[i] == more[i - |hits|];
        assert row[i] !in bs;
      }
    }
  }

  lemma {:induction false} KeptByMark(g: Gpu, g': Gpu, bs: seq<nat>, keys: seq<PrefixCacheKey>, refs: multiset<nat>)
    requires |bs| == |keys| && Marked(g, g', bs, keys)
    requires forall b :: b in refs ==> b in g.blocks && b !in bs
    ensures Kept(g.blocks, g'.blocks, refs)
  {
  }

  lemma {:induction false} KeptByAcquire(g: Gpu, g': Gpu, refs: multiset<nat>)
    requires Acquired(g, g') && forall b :: b in refs ==> b in g.blocks
    ensures Kept(g.blocks, g'.blocks, refs)
  {
  }

  lemma {:induction false} KeptThen(a: map<nat, Block>, b: map<nat, Block>, c: map<nat, Block>, refs: multiset<nat>)
    requires Kept(a, b, refs) && Kept(b, c, refs)
    ensures Kept(a, c, refs)
  {
  }

  lemma {:induction false} KeptLess(a: map<nat, Block>, b: map<nat, Block>, refs: multiset<nat>, more: multiset<nat>)
    requires Kept(a, b, refs + more)
    ensures Kept(a, b, refs)
  {
  }

  lemma {:induction false} OthersKept(g: Gpu, ask: Ask)
    requires Core(g, AllRefs(g)) && |ask.keys| <= ask.logical && ask.id !in g.tables
    requires AllocMany(AfterHits(g, ask), MissCount(g, ask)).0
    ensures Kept(g.blocks, AllocateAsk(g, ask).1.blocks, AllRefs(g))
  {
    var hits, g1 := Hits(g, ask.keys), AfterHits(g, ask);
    var (_, more, g2) := AllocMany(g1, MissCount(g, ask));
    var g3, g' := SetTable(g2, ask.id, hits + more), AllocateAsk(g, ask).1;
    AllocSteps(g, ask);
    AllocateMeans(g, ask);
    AllInBlocks(g);
    hide Core, AcquireAll, Hits, AllocMany, AllocateAsk, AllRefs, Kept, Marked, Acquired;
    KeptByAcquire(SetClaim(g, ask.id, Claim(ask.keys, false)), g1, AllRefs(g));
    KeptByAlloc(g1, g2, AllRefs(g) + multiset(hits), more);
    KeptLess(g1.blocks, g2.blocks, AllRefs(g), multiset(hits));
    KeptThen(g.blocks, g1.blocks, g2.blocks, AllRefs(g));
    KeptIn(g.blocks, g2.blocks, AllRefs(g));
    NotInMore(g1, g2, AllRefs(g), multiset(hits), more);
    KeptByMark(g3, g', ToMark(ask, hits, more).0, ToMark(ask, hits, more).1, AllRefs(g));
    KeptThen(g.blocks, g2.blocks, g'.blocks, AllRefs(g));
  }

  lemma {:induction false} KeptIn(a: map<nat, Block>, b: map<nat, Block>, refs: multiset<nat>)
    requires Kept(a, b, refs)
    ensures forall x :: x in refs ==> x in b
  {
  }

  lemma {:induction false} NotInMore(g: Gpu, g': Gpu, refs: multiset<nat>, others: multiset<nat>, more: seq<nat>)
    requires Allocated(g, g', refs + others, more)
    ensures forall b, n :: b in refs && 0 <= n <= |more| ==> b !in more[..n]
  {
    forall b, n | b in refs && 0 <= n <= |more| ensures b !in more[..n] {
      assert b in refs + others && b !in more;
    }
  }

  lemma {:induction false} RefsAfterIs(g: Gpu, ask: Ask, g': Gpu)
    requires ask.id !in g.tables && g'.tables == g.tables[ask.id := NewRow(g, ask)] && g'.reserved == g.reserved
    ensures AllRefs(g') == RefsAfter(g, ask)
  {
    hide Hits, AllocMany;
    TableRefsSet(g.tables, ask.id, NewRow(g, ask));
    assert multiset(NewRow(g, ask)) == multiset(Hits(g, ask.keys))
                                       + multiset(AllocMany(AfterHits(g, ask), MissCount(g, ask)).1);
  }

  lemma {:induction false} AllocateRow(g: Gpu, ask: Ask)
    requires Core(g, AllRefs(g)) && |ask.keys| <= ask.logical && ask.id !in g.tables
    requires AllocMany(AfterHits(g, ask), MissCount(g, ask)).0
    ensures RowOk(NewRow(g, ask), Claim(ask.keys, false), AllocateAsk(g, ask).1.blocks)
  {
    var hits, g1 := Hits(g, ask.keys), AfterHits(g, ask);
    var (_, more, g2) := AllocMany(g1, MissCount(g, ask));
    var g3, g' := SetTable(g2, ask.id, hits + more), AllocateAsk(g, ask).1;
    AllocSteps(g, ask);
    AllocateMeans(g, ask);
    assert CacheOk(g.blocks, g.cache) && MetaOk(g.blocks);
    hide Core, AcquireAll, Hits, AllocMany, AllocateAsk, AllRefs, CacheOk, MetaOk, Marked, RowOk;
    HitsKept(g, g1, g2, AllRefs(g), ask.keys, more);
    AllocatedFacts(g1, g2, AllRefs(g) + multiset(hits), more);
    hide Allocated;
    forall i | 0 <= i < |more| ensures more[i] in g2.blocks && g2.blocks[more[i]] == TAKEN_BLOCK {
      assert more[i] in more;
    }
    NewRowOk(ask, hits, more, g3, g');
  }

  lemma {:induction false} AllocateKeeps(g: Gpu, ask: Ask)
    requires Inv(g) && |ask.keys| <= ask.logical && ask.id !in g.tables && AllocateAsk(g, ask).0
    ensures Inv(AllocateAsk(g, ask).1)
  {
    assert AllocMany(AfterHits(g, ask), MissCount(g, ask)).0;
    InvCore(g);
    var g' := AllocateAsk(g, ask).1;
    AllocateMeans(g, ask);
    AllocSteps(g, ask);
    hide Core, AcquireAll, Hits, AllocMany, AllocateAsk, AllRefs, Allocated, Marked, RowOk, Kept, AllKeyed, Announced, NewRow;
    AllocateTables(g, ask);
    RefsAfterIs(g, ask, g');
    OthersKept(g, ask);
    RefsInclude(g);
    RowsFrame(g.tables, g.claims, g.claims, g.blocks, g'.blocks, AllRefs(g));
    AllocateRow(g, ask);
    NoRow(g.tables, ask.id);
    RowsSet(g.tables, g.claims, g'.blocks, ask.id, NewRow(g, ask), Claim(ask.keys, false));
    var g1 := AfterHits(g, ask);
    var (_, more, g2) := AllocMany(g1, MissCount(g, ask));
    AllocatedFacts(g1, g2, AllRefs(g) + multiset(Hits(g, ask.keys)), more);
    KeyedThen(g1, g2);
  }

  lemma {:induction false} NoRow(tables: map<nat, seq<nat>>, id: nat)
    requires id !in tables
    ensures tables - {id} == tables
  {
  }
}

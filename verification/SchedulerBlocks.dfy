/** What the scheduler needs to know of the block manager: rows grow and go as asked, an empty
    worker has room, and a request alone on the worker can always grow. */
module SchedulerBlocks {
  import opened Containers
  import opened Keys
  import opened BlockPools
  import opened BlockModel
  import opened BlockInvariants
  import opened BlockLists
  import opened BlockTables
  import opened BlockRuns
  import opened BlockSafety

  /** A consistent block manager of n blocks with nothing reserved. */
  ghost predicate Ready(g: Gpu, n: nat) {
    Inv(g) && g.reserved == [] && g.pool.numBlocks == n
  }

  lemma {:induction false} StepReady(g: Gpu, n: nat, watermark: nat, call: GpuCall)
    requires Ready(g, n) && GpuStep(g, watermark, call).reserved == []
    ensures Ready(GpuStep(g, watermark, call), n)
  {
    hide Inv, GpuStep;
    StepKeeps(g, watermark, call);
    StepSize(g, watermark, call);
  }

  /** Claims of requests other than `id` stay as they are. */
  ghost predicate OtherClaims(g: Gpu, g': Gpu, id: nat) {
    forall x :: x != id && x in g.claims ==> x in g'.claims && g'.claims[x] == g.claims[x]
  }

  lemma {:induction false} AdmitFacts(g: Gpu, n: nat, watermark: nat, ask: Ask)
    requires Ready(g, n) && ask.id !in g.tables && |ask.keys| <= ask.logical && CanAllocate(g, ask, watermark)
    ensures var g' := AllocateAsk(g, ask).1;
            && Ready(g', n) && g'.tables == g.tables[ask.id := NewRow(g, ask)] && |NewRow(g, ask)| == ask.logical
            && g'.claims == g.claims[ask.id := Claim(ask.keys, false)]
  {
    AdmissionSound(g, ask, watermark);
    assert AllocMany(AfterHits(g, ask), MissCount(g, ask)).0;
    hide CanAllocate, AllocateAsk, AllocMany, AfterHits, NewRow, Inv;
    InvCore(g);
    AllocateTables(g, ask);
    assert GpuStep(g, watermark, AdmitCall(ask)) == AllocateAsk(g, ask).1;
    StepReady(g, n, watermark, AdmitCall(ask));
  }

  lemma {:induction false} AppendFacts(g: Gpu, n: nat, id: nat, logical: nat)
    requires Ready(g, n) && id in g.tables && CanAppend(g, id, logical)
    ensures var g' := AppendSlot(g, id, logical).1;
            && Ready(g', n) && g'.claims == g.claims && g'.tables.Keys == g.tables.Keys
            && (forall x :: x in g.tables && x != id ==> g'.tables[x] == g.tables[x])
            && |g'.tables[id]| == if |g.tables[id]| < logical then |g.tables[id]| + 1 else |g.tables[id]|
  {
    hide Inv, Core, AllRefs, AllocBlock, HasFree, Allocated, Announced, Handed, IndexShrinks;
    InvCore(g);
    FreeMeansHasFree(g, AllRefs(g));
    if |g.tables[id]| < logical {
      AllocOne(g, AllRefs(g));
      AllocatedFacts(g, AllocBlock(g).1, AllRefs(g), [AllocBlock(g).0]);
    }
    var g' := AppendSlot(g, id, logical).1;
    assert g'.reserved == g.reserved && g'.claims == g.claims;
    assert GpuStep(g, 0, AppendCall(id, logical)) == g';
    hide AppendSlot;
    StepReady(g, n, 0, AppendCall(id, logical));
  }

  lemma {:induction false} CommitFacts(g: Gpu, n: nat, id: nat)
    requires Ready(g, n) && id in g.tables
    ensures var g' := CommitInput(g, id);
            && Ready(g', n) && g'.tables == g.tables && OtherClaims(g, g', id)
            && id in g.claims && id in g'.claims && g'.claims[id].keys == g.claims[id].keys
  {
    hide Inv;
    CommitKeeps(g, id);
    CommitClaims(g, id);
    InvClaims(g, id);
    var g' := CommitInput(g, id);
    InvClaims(g', id);
    hide CommitInput;
    assert GpuStep(g, 0, CommitCall(id)) == g';
    StepReady(g, n, 0, CommitCall(id));
  }

  lemma {:induction false} CommitClaims(g: Gpu, id: nat)
    requires Inv(g) && id in g.tables
    ensures OtherClaims(g, CommitInput(g, id), id)
  {
    InvClaims(g, id);
    if !ClaimOf(g, id).committed {
      CommitMeans(g, id);
      hide Inv, Core;
    }
  }

  lemma {:induction false} ReleaseFacts(g: Gpu, n: nat, id: nat)
    requires Ready(g, n)
    ensures var g' := Release(g, id); Ready(g', n) && g'.tables == g.tables - {id} && g'.claims == g.claims
  {
    hide Inv, InvBut;
    InvIsInvBut(g, id);
    ReleaseKeeps(g, id);
    hide Release;
    assert GpuStep(g, 0, ReleaseCall(id)) == Release(g, id);
    StepReady(g, n, 0, ReleaseCall(id));
  }

  lemma {:induction false} FinishFacts(g: Gpu, n: nat, id: nat, start: nat, keys: seq<PrefixCacheKey>)
    requires Ready(g, n) && id in g.tables && |ClaimOf(g, id).keys| <= start
    ensures var g' := Finish(g, id, start, keys);
            Ready(g', n) && g'.tables == g.tables - {id} && OtherClaims(g, g', id)
  {
    hide Inv, InvBut, CommitInput, RegisterOutput, Release;
    InvClaims(g, id);
    CommitKeeps(g, id);
    CommitClaims(g, id);
    var g1 := CommitInput(g, id);
    InvClaims(g1, id);
    OutputKeeps(g1, id, start, keys);
    var g2 := RegisterOutput(g1, id, start, keys);
    OutputClaims(g1, id, start, keys);
    ReleaseKeeps(g2, id);
    assert GpuStep(g, 0, FinishCall(id, start, keys)) == Release(g2, id);
    StepReady(g, n, 0, FinishCall(id, start, keys));
  }

  lemma {:induction false} OutputClaims(g: Gpu, id: nat, start: nat, keys: seq<PrefixCacheKey>)
    requires Inv(g) && id in g.tables && |ClaimOf(g, id).keys| <= start
    ensures RegisterOutput(g, id, start, keys).claims == g.claims
  {
    hide Core, RegisterAll, Registrable, Inv, AllRegistered;
    InvClaims(g, id);
    InvCore(g);
    var row := g.tables[id];
    var end := if start + |keys| <= |row| then start + |keys| else |row|;
    if start < end {
      var bs, named := row[start..end], keys[..end - start];
      OutputRegistrable(g, id, start, end, named);
      RegisterAllMeans(g, AllRefs(g), bs, named);
      RegisteredFacts(g, RegisterAll(g, bs, named), bs, named);
    }
  }

  // ----- room

  lemma {:induction false} NoRefs(g: Gpu)
    requires g.tables == map[] && g.reserved == []
    ensures AllRefs(g) == multiset{} && Held(AllRefs(g)) == {}
  {
  }

  lemma {:induction false} ZeroRefsAll(g: Gpu, bs: seq<nat>)
    requires forall b :: b in bs ==> BlockAt(g, b).refCount == 0
    ensures ZeroRefs(g, bs) == |bs|
  {
    if bs != [] {
      var front := bs[..|bs| - 1];
      assert forall b :: b in front ==> b in bs;
      ZeroRefsAll(g, front);
    }
  }

  /** An idle worker has all its blocks free, and admits exactly the requests that fit beside the
      watermark. */
  lemma {:induction false} EmptyAdmits(g: Gpu, n: nat, watermark: nat, ask: Ask)
    requires Ready(g, n) && g.tables == map[]
    ensures FreeCount(g.pool) == n
    ensures CanAllocate(g, ask, watermark) <==> ask.logical + watermark <= n
  {
    NoRefs(g);
    FreePlusHeld(g, AllRefs(g));
    forall b | b in Hits(g, ask.keys) ensures BlockAt(g, b).refCount == 0 {
      CountIs(g, AllRefs(g), b);
    }
    hide Inv, AllRefs, Hits;
    ZeroRefsAll(g, Hits(g, ask.keys));
  }

  lemma {:induction false} RowCardinality(row: seq<nat>)
    ensures |Held(multiset(row))| <= |row|
  {
    if row == [] {
      assert Held(multiset(row)) == {};
    } else {
      var front, last := row[..|row| - 1], row[|row| - 1];
      assert row == front + [last];
      RowCardinality(front);
      assert Held(multiset(row)) == Held(multiset(front)) + {last};
    }
  }

  /** A request alone on the worker leaves free whatever its own row does not fill. */
  lemma {:induction false} AloneHasRoom(g: Gpu, n: nat, id: nat)
    requires Ready(g, n) && g.tables.Keys == {id}
    ensures FreeCount(g.pool) >= n - |g.tables[id]|
  {
    InvCore(g);
    FreePlusHeld(g, AllRefs(g));
    hide Inv, Core;
    AloneRefs(g, id);
    RowCardinality(g.tables[id]);
  }

  lemma {:induction false} AloneRefs(g: Gpu, id: nat)
    requires g.tables.Keys == {id} && g.reserved == []
    ensures AllRefs(g) == multiset(g.tables[id])
  {
    TableRefsSplit(g.tables, id);
    assert g.tables - {id} == map[];
  }
}

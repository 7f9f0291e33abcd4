/** A two-block manager followed call by call through one request and the next, and what its states
    show: hits under the wrong id, and an output key evicted. */
module BlockWitnesses {
  import opened Containers
  import opened Keys
  import opened FreeQueues
  import opened BlockPools
  import opened BlockModel
  import opened BlockHistory

  const TAKEN := Block(1, None, false, false, 0)

  /** Request 0 has been admitted with one input key, its block marked but not yet registered. */
  function Admitted(k: PrefixCacheKey): Gpu {
    Gpu(Pool(2, 1, NO_LANES), map[0 := Block(1, Some(k), true, false, 0)], map[], 0, map[0 := [0]],
        map[0 := Claim([k], false)], [], [])
  }

  function Committed(k: PrefixCacheKey): Gpu {
    Gpu(Pool(2, 1, NO_LANES), map[0 := Block(1, Some(k), true, true, 1)], map[k := 0], 1, map[0 := [0]],
        map[0 := Claim([k], true)], [], [Registered(k)])
  }

  /** It has grown by an output block. */
  function Grown(k: PrefixCacheKey): Gpu {
    Gpu(Pool(2, 2, NO_LANES), map[0 := Block(1, Some(k), true, true, 1), 1 := TAKEN], map[k := 0], 1,
        map[0 := [0, 1]], map[0 := Claim([k], true)], [], [Registered(k)])
  }

  /** It has finished with output key m, and both blocks wait in the cached lane. */
  function Finished(k: PrefixCacheKey, m: PrefixCacheKey): Gpu {
    Gpu(Pool(2, 2, Lanes([], [Ranked(1, 0), Ranked(2, 1)])),
        map[0 := Block(0, Some(k), true, true, 1), 1 := Block(0, Some(m), true, true, 2)], map[k := 0, m := 1], 2,
        map[], map[0 := Claim([k], true)], [], [Registered(k), Registered(m)])
  }

  lemma {:induction false} AllocFresh(g: Gpu, b: nat)
    requires g.pool == Pool(2, b, NO_LANES) && b < 2 && b !in g.blocks
    ensures HasFree(g.pool)
    ensures AllocBlock(g) == (b, g.(pool := Pool(2, b + 1, NO_LANES), blocks := g.blocks[b := TAKEN]))
  {
    var g1 := TakeFree(g).1;
    assert BlockAt(g1, b) == NEW_BLOCK && g1.blocks[b := TAKEN] == g.blocks[b := TAKEN];
  }

  lemma {:induction false} AllocOneOf(g: Gpu)
    requires HasFree(g.pool)
    ensures AllocMany(g, 1) == (true, [AllocBlock(g).0], AllocBlock(g).1)
  {
    hide AllocBlock;
    assert AllocMany(g, 0) == (true, [], g);
    assert [] + [AllocBlock(g).0] == [AllocBlock(g).0];
  }

  lemma {:induction false} AdmitStep(k: PrefixCacheKey)
    ensures CanAllocate(NewGpu(2), Ask(0, [k], 1), 0)
    ensures AllocateAsk(NewGpu(2), Ask(0, [k], 1)) == (true, Admitted(k))
  {
    var g, ask := NewGpu(2), Ask(0, [k], 1);
    assert Hits(g, [k]) == [] && ZeroRefs(g, []) == 0;
    var g1 := SetClaim(g, 0, Claim([k], false));
    assert AcquireAll(g1, []) == g1;
    AllocFresh(g1, 0);
    AllocOneOf(g1);
    hide AllocMany, AllocBlock;
    var g2 := AllocMany(g1, 1).2;
    assert TableOf(g2, 0) + ([] + [0 as nat]) == [0];
    var g3 := SetTable(g2, 0, [0]);
    assert [0 as nat][0..1] == [0] && [k][0..1] == [k];
    MarkFirst(g3, k);
  }

  lemma {:induction false} MarkFirst(g: Gpu, k: PrefixCacheKey)
    requires g.blocks == map[0 := TAKEN]
    ensures MarkAll(g, [0], [k]) == g.(blocks := map[0 := Block(1, Some(k), true, false, 0)])
  {
    assert [0 as nat][..0] == [] && [k][..0] == [];
    assert MarkAll(g, [], []) == g;
  }

  lemma {:induction false} RegisterSingle(g: Gpu, b: nat, k: PrefixCacheKey)
    ensures RegisterAll(g, [b], [k]) == RegisterOne(g, b, k)
  {
    assert [b][..0] == [] && [k][..0] == [];
    assert RegisterAll(g, [], []) == g;
    hide RegisterOne;
  }

  lemma {:induction false} CommitStep(k: PrefixCacheKey)
    ensures CommitInput(Admitted(k), 0) == Committed(k)
  {
    var g := Admitted(k);
    assert [0 as nat][..1] == [0] && [k][..1] == [k];
    RegisterSingle(g, 0, k);
    assert [] + [Registered(k)] == [Registered(k)];
    hide RegisterAll;
  }

  lemma {:induction false} GrowStep(k: PrefixCacheKey)
    ensures AppendSlot(Committed(k), 0, 2) == (true, Grown(k))
  {
    var g := Committed(k);
    AllocFresh(g, 1);
    hide AllocBlock;
    assert [0 as nat] + [1] == [0, 1];
    assert g.blocks[1 := TAKEN] == Grown(k).blocks && g.tables[0 := [0, 1]] == Grown(k).tables;
  }

  lemma {:induction false} FinishStep(k: PrefixCacheKey, m: PrefixCacheKey)
    requires k != m
    ensures CommitInput(Grown(k), 0) == Grown(k)
    ensures Finish(Grown(k), 0, 1, [m]) == Finished(k, m)
  {
    var g := Grown(k);
    assert [0 as nat, 1][1..2] == [1] && [m][..1] == [m];
    RegisterSingle(g, 1, m);
    hide RegisterAll;
    var g1 := RegisterOutput(g, 0, 1, [m]);
    assert [Registered(k)] + [Registered(m)] == [Registered(k), Registered(m)];
    assert g1 == Gpu(Pool(2, 2, NO_LANES),
                     map[0 := Block(1, Some(k), true, true, 1), 1 := Block(1, Some(m), true, true, 2)],
                     map[k := 0, m := 1], 2, map[0 := [0, 1]], map[0 := Claim([k], true)], [],
                     [Registered(k), Registered(m)]);
    hide RegisterOutput;
    FreeBoth(g1.(tables := map[]), k, m);
    assert g1.tables - {0} == map[];
  }

  lemma {:induction false} FreeBoth(g: Gpu, k: PrefixCacheKey, m: PrefixCacheKey)
    requires g.pool == Pool(2, 2, NO_LANES)
    requires g.blocks == map[0 := Block(1, Some(k), true, true, 1), 1 := Block(1, Some(m), true, true, 2)]
    ensures FreeAll(g, [0, 1]) == g.(pool := Finished(k, m).pool, blocks := Finished(k, m).blocks)
  {
    assert [0 as nat, 1][..1] == [0] && [0 as nat][..0] == [];
    assert FreeAll(g, []) == g;
    assert Dequeue(NO_LANES, 0) == NO_LANES;
    assert InsertRanked([], Ranked(1, 0)) == [Ranked(1, 0)];
    var one := Lanes([], [Ranked(1, 0)]);
    var g1 := g.(pool := Pool(2, 2, one), blocks := g.blocks[0 := Block(0, Some(k), true, true, 1)]);
    assert FreeAll(g, [0]) == g1;
    assert [Ranked(1, 0)][1..] == [];
    assert Dequeue(one, 1) == one;
    assert InsertRanked([Ranked(1, 0)], Ranked(2, 1)) == [Ranked(1, 0)] + InsertRanked([], Ranked(2, 1));
    assert [Ranked(1, 0)] + [Ranked(2, 1)] == [Ranked(1, 0), Ranked(2, 1)];
  }

  /** The next request takes both blocks, and the observer hears of both evictions. */
  lemma {:induction false} TakeStep(k: PrefixCacheKey, m: PrefixCacheKey)
    requires k != m
    ensures CanAllocate(Finished(k, m), Ask(1, [], 2), 0)
    ensures WasEvicted(AllocateAsk(Finished(k, m), Ask(1, [], 2)).1.trace, m)
  {
    var g := Finished(k, m);
    assert Hits(g, []) == [] && ZeroRefs(g, []) == 0;
    var g0 := SetClaim(g, 1, Claim([], false));
    assert AcquireAll(g0, []) == g0;
    AllocOneOf(g0);
    var (b, g1) := AllocBlock(g0);
    assert b == 0 && g1.pool.lanes == Lanes([], [Ranked(2, 1)]) && g1.blocks[1] == g.blocks[1];
    var (c, g2) := AllocBlock(g1);
    assert c == 1 && g2.trace == g1.trace + [Evicted(Some(m), Capacity)];
    hide AllocBlock;
    assert AllocMany(g0, 2) == (true, [0] + [1], g2);
    assert g2.trace[|g1.trace|] == Evicted(Some(m), Capacity);
    hide AllocMany;
  }

  // ----- exactly where hits can be trusted

  /** Over prompts with these ids, every hit in every run means that its whole prefix was seen before. */
  ghost predicate HitsTrusted(ids: iset<HashId>) {
    forall numBlocks: nat, watermark: nat, calls, prompts, prompt, i: nat ::
      && KeyedByPrompts(calls, prompts) && IdsIn(ids, prompt)
      && (forall n :: 0 <= n < |prompts| ==> IdsIn(ids, prompts[n]))
      && i < |Hits(GpuRun(numBlocks, watermark, calls), PrefixKeys(prompt.scope, prompt.ids))|
      ==> SeenBefore(prompts, prompt, i)
  }

  /** The block of a string id in a prompt is hit by the integer id it spells. */
  lemma {:induction false} MistakenHit(scope: Scope, a: HashId, b: HashId)
    requires a != b && Signature(a) == Signature(b)
    ensures var prompts := [Prompt(scope, [b]), Prompt(scope, [])];
            var calls := [AdmitCall(Ask(0, PrefixKeys(scope, [b]), 1)), CommitCall(0)];
            && KeyedByPrompts(calls, prompts)
            && |Hits(GpuRun(2, 0, calls), PrefixKeys(scope, [a]))| == 1
            && !SeenBefore(prompts, Prompt(scope, [a]), 0)
  {
    var keys := PrefixKeys(scope, [b]);
    assert keys == [keys[0]];
    assert Signatures([a]) == Signatures([b]);
    assert PrefixKeys(scope, [a]) == keys;
    CommittedRun(keys[0]);
    hide GpuRun, PrefixKeys;
    assert [a][..1] != [b][..1] by {
      assert [a][..1][0] == a && [b][..1][0] == b;
    }
    assert IsHit(Committed(keys[0]), keys[0]);
  }

  lemma {:induction false} CommittedRun(k: PrefixCacheKey)
    ensures GpuRun(2, 0, [AdmitCall(Ask(0, [k], 1)), CommitCall(0)]) == Committed(k)
  {
    var admit := AdmitCall(Ask(0, [k], 1));
    assert [admit, CommitCall(0)][..1] == [admit] && [admit][..0] == [];
    AdmitStep(k);
    CommitStep(k);
    hide AllocateAsk, CommitInput, CanAllocate;
    assert GpuRun(2, 0, []) == NewGpu(2);
    assert GpuRun(2, 0, [admit]) == Admitted(k);
  }

  lemma {:induction false} HitsMistaken(ids: iset<HashId>, a: HashId, b: HashId)
    requires a in ids && b in ids && a != b && Signature(a) == Signature(b)
    ensures !HitsTrusted(ids)
  {
    var scope := Scope("", None, None);
    var prompts, prompt := [Prompt(scope, [b]), Prompt(scope, [])], Prompt(scope, [a]);
    assert IdsIn(ids, prompts[0]) && IdsIn(ids, prompts[1]) && IdsIn(ids, prompt);
    assert forall n :: 0 <= n < |prompts| ==> IdsIn(ids, prompts[n]);
    hide KeyedByPrompts, GpuRun, Hits, PrefixKeys, SeenBefore, IdsIn;
    MistakenHit(scope, a, b);
  }

  /** A hit can be trusted over a set of hash ids exactly when no string in it spells an integer in it. */
  lemma {:induction false} HitsTrustedIff(ids: iset<HashId>)
    ensures HitsTrusted(ids) <==> Apart(ids)
  {
    if Apart(ids) {
      hide Apart, KeyedByPrompts, GpuRun, Hits, PrefixKeys, SeenBefore, IdsIn;
      forall numBlocks: nat, watermark: nat, calls, prompts, prompt, i: nat
        | && KeyedByPrompts(calls, prompts) && IdsIn(ids, prompt)
          && (forall n :: 0 <= n < |prompts| ==> IdsIn(ids, prompts[n]))
          && i < |Hits(GpuRun(numBlocks, watermark, calls), PrefixKeys(prompt.scope, prompt.ids))|
        ensures SeenBefore(prompts, prompt, i)
      {
        HitSoundOnIds(numBlocks, watermark, calls, prompts, prompt, i, ids);
      }
    } else {
      ApartIffFaithful(ids);
      var a, b :| a in ids && b in ids && Signature(a) == Signature(b) && a != b;
      hide HitsTrusted;
      HitsMistaken(ids, a, b);
    }
  }
}

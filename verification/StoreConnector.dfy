/** The Mooncake connector as an object over the store: lookup and load plan for admitted
    requests, and the HBM-eviction hook. */
module StoreConnectors {
  import opened Containers
  import opened Keys
  import opened OffloadTiers
  import opened StoreModel
  import opened StoreInvariant
  import opened MooncakeStores
  import opened Connectors
  import opened BlockModel
  import opened BlockHistory
  import opened Hierarchies

  /** A planned load: the request and the store keys it reads. */
  datatype LoadPlan = LoadPlan(id: nat, keys: seq<PoolKey>)

  /** Plans for the scheduled requests with a pending load; each load is planned once. */
  function PlanLoads(c: Rules, pending: map<nat, Load>, scheduled: seq<nat>): (map<nat, Load>, seq<LoadPlan>) {
    if scheduled == [] then (pending, [])
    else
      var (rest, plans) := PlanLoads(c, pending, scheduled[..|scheduled| - 1]);
      var id := scheduled[|scheduled| - 1];
      if id in rest then (rest - {id}, plans + [LoadPlan(id, LoadedKeys(c, rest[id]))]) else (rest, plans)
  }

  function PlansFor(plans: seq<LoadPlan>, id: nat): seq<LoadPlan> {
    if plans == [] then []
    else
      var last := plans[|plans| - 1];
      PlansFor(plans[..|plans| - 1], id) + (if last.id == id then [last] else [])
  }

  /** Planning takes the pending loads of the scheduled requests, each into one plan for its keys, and
      leaves those of others. */
  lemma {:induction false} PlansMean(c: Rules, pending: map<nat, Load>, scheduled: seq<nat>, id: nat)
    ensures var (rest, plans) := PlanLoads(c, pending, scheduled);
            && (id in rest <==> id in pending && id !in scheduled)
            && (id in rest ==> rest[id] == pending[id])
            && PlansFor(plans, id)
               == if id in pending && id in scheduled then [LoadPlan(id, LoadedKeys(c, pending[id]))] else []
  {
    if scheduled != [] {
      var front, last := scheduled[..|scheduled| - 1], scheduled[|scheduled| - 1];
      assert scheduled == front + [last];
      PlansMean(c, pending, front, id);
      PlansMean(c, pending, front, last);
      var (rest, plans) := PlanLoads(c, pending, front);
      hide LoadedKeys;
      if last in rest {
        var plan := LoadPlan(last, LoadedKeys(c, rest[last]));
        assert (plans + [plan])[..|plans|] == plans;
        assert PlansFor(plans, id) + [] == PlansFor(plans, id) && [] + [plan] == [plan];
      }
    }
  }

  lemma {:induction false} PlanLoadsConcat(c: Rules, pending: map<nat, Load>, first: seq<nat>, second: seq<nat>)
    ensures var (rest, plans) := PlanLoads(c, pending, first);
            var (rest', more) := PlanLoads(c, rest, second);
            PlanLoads(c, pending, first + second) == (rest', plans + more)
  {
    hide LoadedKeys;
    if second == [] {
      assert first + second == first && PlanLoads(c, pending, first).1 + [] == PlanLoads(c, pending, first).1;
    } else {
      var front, last := second[..|second| - 1], second[|second| - 1];
      var all := first + second;
      assert all[..|all| - 1] == first + front && all[|all| - 1] == last;
      PlanLoadsConcat(c, pending, first, front);
      var (rest, plans) := PlanLoads(c, pending, first);
      var (rest', more) := PlanLoads(c, rest, front);
      if last in rest' {
        var plan := LoadPlan(last, LoadedKeys(c, rest'[last]));
        assert plans + (more + [plan]) == plans + more + [plan];
      }
    }
  }

  /** Over consecutive STEPs too, a pending load is planned once at most. */
  lemma {:induction false} PlannedOnce(c: Rules, pending: map<nat, Load>, first: seq<nat>, second: seq<nat>, id: nat)
    ensures var (rest, plans) := PlanLoads(c, pending, first);
            var (rest', more) := PlanLoads(c, rest, second);
            && |PlansFor(plans + more, id)| == (if id in pending && (id in first || id in second) then 1 else 0)
            && (id in rest' <==> id in pending && id !in first && id !in second)
  {
    hide PlanLoads, LoadedKeys;
    PlanLoadsConcat(c, pending, first, second);
    PlansMean(c, pending, first + second, id);
  }

  function PoolKeysFor(md: KeyMetadata, keys: seq<PrefixCacheKey>): (r: seq<PoolKey>)
    ensures |r| == |keys|
  {
    seq(|keys|, i requires 0 <= i < |keys| => PoolKeyOf(md, keys[i]))
  }

  class MooncakeStoreConnector {
    const rules: Rules
    const policy: SpillPolicy
    const metadata: KeyMetadata
    const store: MooncakeStore
    var pendingLoads: map<nat, Load>
    var hooks: HookCounts
    var localGpuHitTokens: nat
    var memoryHitTokens: nat
    var diskHitTokens: nat
    var finalized: bool
    var residueBlocks: nat
    var residueAbsentBlocks: nat

    ghost predicate Valid()
      reads this, store, store.parts
    {
      store.Valid() && !store.failed
    }

    constructor (rules: Rules, policy: SpillPolicy, metadata: KeyMetadata, store: MooncakeStore)
      requires store.Valid() && !store.failed
      ensures Valid() && this.rules == rules && this.policy == policy && this.metadata == metadata && this.store == store
      ensures pendingLoads == map[] && hooks == NO_HOOKS && !finalized && residueBlocks == residueAbsentBlocks == 0
      ensures localGpuHitTokens == memoryHitTokens == diskHitTokens == 0
    {
      this.rules, this.policy, this.metadata, this.store := rules, policy, metadata, store;
      pendingLoads, hooks, finalized, residueBlocks, residueAbsentBlocks := map[], NO_HOOKS, false, 0, 0;
      localGpuHitTokens, memoryHitTokens, diskHitTokens := 0, 0, 0;
    }

    // ----- lookup

    method FindSpanTier(keys: seq<PoolKey>) returns (tier: Option<Place>)
      requires Valid()
      ensures tier == SpanTier(store.View(), keys)
    {
      tier := None;
      var i := |keys|;
      while i > 0
        invariant 0 <= i <= |keys| && tier == SpanTier(store.View(), keys[i..])
      {
        i := i - 1;
        assert keys[i..][0] == keys[i] && keys[i..][1..] == keys[i + 1..];
        if keys[i] in store.objects {
          tier := if store.objects[keys[i]].place.Offload? then Some(Offload)
                  else if tier == Some(Offload) then tier else Some(Memory);
        }
      }
    }

    /** What is found from block zero. */
    method LookUpFromZero(keys: seq<PoolKey>, prefill: nat, local: nat) returns (load: Option<Load>)
      requires Valid() && keys != []
      modifies store`objects, store`stats
      ensures Valid() && store.View() == Lookup(store.cfg, old(store.View()), keys)
      ensures load == LoadZero(rules, store.cfg, old(store.View()), keys, prefill, local)
    {
      assert !store.View().failed;
      hide MooncakeStore.Valid, MooncakeStore.View, Lookup, HitLength, AnyOffload, LoadOfHead, LoadOfTail;
      var hits, slowest := store.LookupPrefix(keys);
      load := LoadOfHead(rules, hits, slowest, prefill, local);
    }

    /** What is found behind the HBM hit; nothing is looked up when it covers every full block. */
    method LookUpAfterHbm(keys: seq<PoolKey>, prefill: nat, local: nat) returns (load: Option<Load>)
      requires Valid()
      modifies store`objects, store`stats
      ensures Valid()
      ensures store.View() == if local / rules.blockSize >= |keys| then old(store.View())
                              else Lookup(store.cfg, old(store.View()), keys[local / rules.blockSize..])
      ensures load == LoadAfter(rules, store.cfg, old(store.View()), keys, prefill, local)
    {
      assert !store.View().failed;
      hide MooncakeStore.Valid, MooncakeStore.View, Lookup, HitLength, AnyOffload, LoadOfHead, LoadOfTail;
      var start := local / rules.blockSize;
      if start >= |keys| {
        return None;
      }
      var hits, slowest := store.LookupPrefix(keys[start..]);
      load := LoadOfTail(rules, hits, slowest, prefill, start);
    }

    method FindLoad(keys: seq<PoolKey>, prefill: nat, local: nat) returns (load: Option<Load>)
      requires Valid() && keys != []
      modifies store`objects, store`stats
      ensures Valid() && store.View() == LookedUp(rules, store.cfg, old(store.View()), keys, local)
      ensures load == PendingLoad(rules, store.cfg, old(store.View()), keys, prefill, local)
    {
      hide MooncakeStore.Valid, MooncakeStore.View, Lookup, LoadZero, LoadAfter, SpanTier;
      if rules.start.AfterHbm? {
        load := LookUpAfterHbm(keys, prefill, local);
      } else {
        assert keys[0..] == keys;
        load := LookUpFromZero(keys, prefill, local);
      }
      if load.Some? && rules.span.Missing? {
        var tier := FindSpanTier(Slice(load.value.keys, load.value.spanStart, load.value.blocks));
        load := Some(load.value.(tier := tier));
      }
    }

    /** Tokens the store can supply beyond the `computed` ones HBM holds; remembers the load. */
    method GetNumNewMatchedTokens(id: nat, keys: seq<PoolKey>, prefill: nat, computed: int) returns (tokens: nat)
      requires Valid()
      modifies this`pendingLoads, this`localGpuHitTokens, this`memoryHitTokens, this`diskHitTokens,
               store`objects, store`stats
      ensures Valid()
      ensures var local := if computed > 0 then computed else 0;
              var load := if keys == [] then None
                          else PendingLoad(rules, store.cfg, old(store.View()), keys, prefill, local);
              && tokens == TokensOf(load)
              && pendingLoads == (if load.Some? then old(pendingLoads)[id := load.value] else old(pendingLoads))
              && store.View() == LookedUp(rules, store.cfg, old(store.View()), keys, local)
              && localGpuHitTokens == old(localGpuHitTokens) + (if keys == [] then 0 else local)
              && memoryHitTokens + diskHitTokens == old(memoryHitTokens) + old(diskHitTokens) + tokens
              && diskHitTokens == old(diskHitTokens)
                                  + (if load.Some? && load.value.tier == Some(Offload) then tokens else 0)
    {
      hide MooncakeStore.Valid, MooncakeStore.View, Lookup, PendingLoad;
      var local := if computed > 0 then computed else 0;
      if keys == [] {
        return 0;
      }
      localGpuHitTokens := localGpuHitTokens + local;
      var load := FindLoad(keys, prefill, local);
      if load.None? {
        return 0;
      }
      tokens := load.value.tokens;
      if load.value.tier == Some(Offload) {
        diskHitTokens := diskHitTokens + tokens;
      } else {
        memoryHitTokens := memoryHitTokens + tokens;
      }
      pendingLoads := pendingLoads[id := load.value];
    }

    // ----- load plans

    /** `canSave` is what the connector's role allows; `toSave` lists the requests whose prefill blocks
        the save policy then considers. */
    method BuildLoadPlans(scheduled: seq<nat>, canSave: bool) returns (plans: seq<LoadPlan>, toSave: seq<nat>)
      modifies this`pendingLoads
      ensures (pendingLoads, plans) == PlanLoads(rules, old(pendingLoads), scheduled)
      ensures forall id :: id in pendingLoads <==> id in old(pendingLoads) && id !in scheduled
      ensures toSave == if canSave && !policy.SpillOnly? then scheduled else []
    {
      forall id ensures id in PlanLoads(rules, pendingLoads, scheduled).0 <==> id in pendingLoads && id !in scheduled {
        PlansMean(rules, pendingLoads, scheduled, id);
      }
      plans, toSave := [], [];
      for i := 0 to |scheduled|
        invariant (pendingLoads, plans) == PlanLoads(rules, old(pendingLoads), scheduled[..i])
        invariant toSave == if canSave && !policy.SpillOnly? then scheduled[..i] else []
      {
        assert scheduled[..i + 1][..i] == scheduled[..i];
        var id := scheduled[i];
        if id in pendingLoads {
          var load := pendingLoads[id];
          pendingLoads := pendingLoads - {id};
          plans := plans + [LoadPlan(id, LoadedKeys(rules, load))];
        }
        if canSave && !policy.SpillOnly? {
          toSave := toSave + [id];
        }
      }
      assert scheduled[..|scheduled|] == scheduled;
    }

    // ----- the eviction hook

    /** One block is leaving the prefix cache, still carrying its key. */
    method OnHbmEvict(lost: Option<PrefixCacheKey>, why: Reason)
      requires Valid()
      modifies this`hooks, store, store.parts
      ensures store.Valid()
      ensures (store.View(), hooks)
           == Hierarchies.OnHbmEvict(store.cfg, policy, old(store.View()), old(hooks),
                                     if lost.Some? then Some(PoolKeyOf(metadata, lost.value)) else None, why)
    {
      hide MooncakeStore.Valid, MooncakeStore.Tiers, Step, Present;
      hooks := hooks.(calls := hooks.calls + 1);
      if why.Rekey? {
        hooks := hooks.(rekeys := hooks.rekeys + 1);
        return;
      }
      if lost.None? {
        hooks := hooks.(blocks := hooks.blocks + 1, unkeyed := hooks.unkeyed + 1);
        return;
      }
      var key := PoolKeyOf(metadata, lost.value);
      var missing := store.MissingIndices([key]);
      OneMissing(store.cfg, store.View(), key, missing);
      hooks := CountPresence(hooks.(blocks := hooks.blocks + 1, keyed := hooks.keyed + 1), missing == []);
      if policy.CountOnly? {
        return;
      }
      var before := store.stats.writes.memoryWrites + store.stats.writes.ssdWrites;
      store.PutWithTiming([key]);
      var written := store.stats.writes.memoryWrites + store.stats.writes.ssdWrites - before;
      hooks := CountSpill(hooks, written > 0);
    }

    /** End-of-run counters: the keys still in HBM, and how many of them the store lacks. */
    method FinalizeRunStats(cachedKeys: seq<PrefixCacheKey>)
      requires Valid()
      modifies this`finalized, this`residueBlocks, this`residueAbsentBlocks
      ensures finalized
      ensures residueBlocks == old(residueBlocks) + if old(finalized) then 0 else |cachedKeys|
      ensures residueAbsentBlocks == old(residueAbsentBlocks)
                + if old(finalized) then 0 else AbsentCount(store.cfg, store.View(), PoolKeysFor(metadata, cachedKeys))
    {
      if finalized {
        return;
      }
      finalized := true;
      residueBlocks := residueBlocks + |cachedKeys|;
      var missing := store.MissingIndices(PoolKeysFor(metadata, cachedKeys));
      residueAbsentBlocks := residueAbsentBlocks + |missing|;
    }
  }

  lemma {:induction false} OneMissing(cfg: Config, s: Store, key: PoolKey, missing: seq<nat>)
    requires forall n :: 0 <= n < |missing| ==> missing[n] < 1 && !Present(cfg, s, [key][missing[n]])
    requires !Present(cfg, s, [key][0]) ==> 0 in missing
    ensures missing == [] <==> Present(cfg, s, key)
  {
    hide Present;
    if missing != [] {
      assert missing[0] == 0;
    }
  }

  // ----- conservation in the exported counters

  function AbsentAmong(md: KeyMetadata, s: Store, among: set<PrefixCacheKey>): set<PrefixCacheKey> {
    set k | k in among && PoolKeyOf(md, k) !in s.objects
  }

  lemma {:induction false} AbsentAmongLess(md: KeyMetadata, s: Store, among: set<PrefixCacheKey>, last: PrefixCacheKey)
    requires last in among
    ensures |AbsentAmong(md, s, among)|
         == |AbsentAmong(md, s, among - {last})| + (if PoolKeyOf(md, last) in s.objects then 0 else 1)
  {
    var less := AbsentAmong(md, s, among - {last});
    assert AbsentAmong(md, s, among) == if PoolKeyOf(md, last) in s.objects then less else less + {last};
  }

  lemma {:induction false} AbsentCountIs(cfg: Config, md: KeyMetadata, s: Store, keys: seq<PrefixCacheKey>,
                                         among: set<PrefixCacheKey>)
    requires Sound(cfg, WorkerRank(md), s)
    requires Distinct(keys) && forall k :: k in among <==> k in keys
    ensures AbsentCount(cfg, s, PoolKeysFor(md, keys)) == |AbsentAmong(md, s, among)|
  {
    hide Sound, Present, AbsentAmong;
    if keys == [] {
      assert AbsentAmong(md, s, among) == {} by { NoneAbsent(md, s, among); }
    } else {
      var front, last := keys[..|keys| - 1], keys[|keys| - 1];
      assert keys == front + [last] && last !in front;
      AbsentCountIs(cfg, md, s, front, among - {last});
      assert PoolKeysFor(md, keys)[..|keys| - 1] == PoolKeysFor(md, front);
      SoundPresent(cfg, WorkerRank(md), s, PoolKeyOf(md, last));
      AbsentAmongLess(md, s, among, last);
    }
  }

  lemma {:induction false} NoneAbsent(md: KeyMetadata, s: Store, among: set<PrefixCacheKey>)
    requires forall k :: k !in among
    ensures AbsentAmong(md, s, among) == {}
  {
  }

  /** At the end of a run under spill_only, the distinct keys ever registered are the store's
      objects plus the residue the connector reports as absent. */
  lemma {:induction false} ResidueCompletesTheStore(cfg: Config, md: KeyMetadata, numBlocks: nat, watermark: nat,
                                                    calls: seq<LevelCall>, cachedKeys: seq<PrefixCacheKey>)
    requires Retentive(cfg)
    requires Distinct(cachedKeys)
    requires forall k :: k in LevelRun(cfg, md, numBlocks, watermark, calls).gpu.cache <==> k in cachedKeys
    ensures var l := LevelRun(cfg, md, numBlocks, watermark, calls);
            |RegisteredKeys(l.gpu.trace)| == |l.store.objects| + AbsentCount(cfg, l.store, PoolKeysFor(md, cachedKeys))
  {
    RegisteredKeysConserved(cfg, md, numBlocks, watermark, calls);
    RunLevelsOk(cfg, md, numBlocks, watermark, calls);
    var l := LevelRun(cfg, md, numBlocks, watermark, calls);
    hide LevelRun, Sound, Distinct;
    AbsentCountIs(cfg, md, l.store, cachedKeys, l.gpu.cache.Keys);
    assert OnlyInGpu(md, l.gpu, l.store) == AbsentAmong(md, l.store, l.gpu.cache.Keys);
  }
}

/** The three levels together: with `spill_only` nothing ever registered in HBM is lost. */
module Hierarchies {
  import opened Containers
  import opened Keys
  import opened OffloadTiers
  import opened StoreModel
  import opened StoreInvariant
  import opened StorePartition
  import opened BlockPools
  import opened BlockModel
  import opened BlockLists
  import opened BlockTables
  import opened BlockSafety
  import opened BlockHistory

  // ----- a store that keeps everything

  /** Everything is admitted and demoted, and the offload tier never evicts. */
  predicate Retentive(cfg: Config) {
    cfg.admitAlways && cfg.demote.Always? && cfg.enableOffload && cfg.unlimited
  }

  function Writes(s: Store): int {
    s.stats.writes.memoryWrites + s.stats.writes.ssdWrites
  }

  lemma {:induction false} WriteTierKeeps(cfg: Config, s: Store, key: PoolKey)
    requires cfg.unlimited
    ensures var (s1, op) := WriteTier(cfg, s, key);
            && op == Operation(1, []) && s1 == s.(tiers := s1.tiers)
            && SettleWrite(cfg, s1, op, key) == s1.(stats := SettleWrite(cfg, s1, op, key).stats)
            && Writes(SettleWrite(cfg, s1, op, key)) == Writes(s) + 1
  {
  }

  lemma {:induction false} ReleaseRetains(cfg: Config, s: Store, key: PoolKey, admitter: nat)
    requires key in s.objects
    ensures var s' := ReleaseMemory(cfg, s, key, admitter);
            s'.objects == s.objects && Writes(s') == Writes(s) && s'.failed == s.failed
  {
  }

  lemma {:induction false} PopRetains(cfg: Config, s: Store, admitter: nat)
    requires LruOf(cfg, s, admitter) != []
    ensures var s' := PopOldest(cfg, s, admitter);
            s'.objects == s.objects && Writes(s') == Writes(s) && s'.failed == s.failed
  {
  }

  lemma {:induction false} DisplaceRetains(cfg: Config, s: Store, key: PoolKey)
    requires Retentive(cfg) && key in s.objects
    ensures var s' := Displace(cfg, s, key);
            s'.objects.Keys == s.objects.Keys && Writes(s') >= Writes(s) && s'.failed == s.failed
  {
    var s1 := SetPlace(CountDemoted(cfg, s, s.objects[key]), key, Offload);
    WriteTierKeeps(cfg, s1, key);
    hide WriteTier, SettleWrite;
    assert s1.objects.Keys == s.objects.Keys;
  }

  lemma {:induction false} EvictOldestRetains(cfg: Config, s: Store, admitter: nat)
    requires Retentive(cfg) && LruOf(cfg, s, admitter) != []
    ensures var s' := EvictOldest(cfg, s, admitter);
            s'.objects.Keys == s.objects.Keys && Writes(s') >= Writes(s) && s'.failed == s.failed
  {
    hide PopOldest, ReleaseMemory, Displace, Writes, Retentive;
    var key, s1 := LruOf(cfg, s, admitter)[0], PopOldest(cfg, s, admitter);
    PopRetains(cfg, s, admitter);
    if key in s1.objects && s1.objects[key].place.Memory? {
      ReleaseRetains(cfg, s1, key, admitter);
      DisplaceRetains(cfg, ReleaseMemory(cfg, s1, key, admitter), key);
    }
  }

  lemma {:induction false} EnsureRoomRetains(cfg: Config, s: Store, rank: nat)
    requires Retentive(cfg)
    ensures var (_, s') := EnsureRoom(cfg, s, rank);
            s'.objects.Keys == s.objects.Keys && Writes(s') >= Writes(s) && s'.failed == s.failed
    decreases |LruOf(cfg, s, rank)|
  {
    hide EvictOldest, Retentive, Writes;
    if 1 <= MemoryCapacity(cfg) < UsedOf(cfg, s, rank) + 1 && cfg.lruEviction && LruOf(cfg, s, rank) != [] {
      EvictOldestRetains(cfg, s, rank);
      EvictOldestShrinks(cfg, s, rank);
      EnsureRoomRetains(cfg, EvictOldest(cfg, s, rank), rank);
    }
  }

  lemma {:induction false} AdmitRetains(cfg: Config, s: Store, key: PoolKey)
    requires Retentive(cfg)
    ensures var s' := AdmitToMemory(cfg, s, key);
            s'.objects.Keys == s.objects.Keys + {key} && Writes(s') > Writes(s) && s'.failed == s.failed
  {
    var s1 := CountAdmission(CountSource(cfg, EnterMemory(cfg, s, key), key));
    assert s1.objects.Keys == s.objects.Keys + {key} && Writes(s1) == Writes(s) + 1 && s1.failed == s.failed;
    WriteTierKeeps(cfg, s1, key);
    hide WriteTier, SettleWrite, CountSource, EnterMemory, CountAdmission;
  }

  lemma {:induction false} BypassRetains(cfg: Config, s: Store, key: PoolKey)
    requires Retentive(cfg)
    ensures var s' := BypassMemory(cfg, s, key);
            s'.objects.Keys == s.objects.Keys + {key} && Writes(s') > Writes(s) && s'.failed == s.failed
  {
    WriteTierKeeps(cfg, s, key);
    hide WriteTier, SettleWrite;
  }

  /** A put adds its key and loses none; it writes exactly when the key was absent. */
  lemma {:induction false} PutRetains(cfg: Config, s: Store, key: PoolKey)
    requires Retentive(cfg) && !TooManyRanks(cfg, s, key)
    ensures var s' := PutOne(cfg, s, key);
            && s'.objects.Keys == s.objects.Keys + {key} && s'.failed == s.failed
            && (key in s.objects ==> Writes(s') == Writes(s))
            && (key !in s.objects ==> Writes(s') > Writes(s))
  {
    hide EnsureRoom, AdmitToMemory, BypassMemory;
    if key !in s.objects {
      var s1 := AssignRank(cfg, s, key);
      assert s1.objects == s.objects && s1.stats == s.stats && s1.failed == s.failed;
      hide AssignRank, Writes;
      EnsureRoomRetains(cfg, s1, RankIndex(s1, key));
      var (admitted, s2) := EnsureRoom(cfg, s1, RankIndex(s1, key));
      AdmitRetains(cfg, s2, key);
      BypassRetains(cfg, s2, key);
    }
  }

  lemma {:induction false} PutCallRetains(cfg: Config, s: Store, key: PoolKey)
    requires Retentive(cfg) && !s.failed && !TooManyRanks(cfg, s, key)
    ensures var s' := Step(cfg, s, PutCall([key]));
            && s'.objects.Keys == s.objects.Keys + {key} && !s'.failed
            && (key in s.objects ==> Writes(s') == Writes(s))
            && (key !in s.objects ==> Writes(s') > Writes(s))
  {
    var s1 := CountPut(s);
    assert [key][..0] == [] && PutKeys(cfg, s1, []) == s1;
    PutRetains(cfg, s1, key);
    hide PutOne;
    assert PutKeys(cfg, s1, [key]) == PutOne(cfg, s1, key);
  }

  lemma {:induction false} CreditReadsRetains(s: Store, keys: seq<PoolKey>)
    ensures CreditReads(s, keys).objects.Keys == s.objects.Keys && CreditReads(s, keys).failed == s.failed
  {
    if keys != [] {
      CreditReadsRetains(s, keys[..|keys| - 1]);
    }
  }

  lemma {:induction false} GetKeysRetains(cfg: Config, s: Store, keys: seq<PoolKey>)
    ensures GetKeys(cfg, s, keys).objects.Keys == s.objects.Keys && GetKeys(cfg, s, keys).failed == s.failed
  {
    if keys != [] {
      GetKeysRetains(cfg, s, keys[..|keys| - 1]);
    }
  }

  lemma {:induction false} ReadRetains(cfg: Config, s: Store, call: Call)
    requires !call.PutCall? && !s.failed
    ensures Step(cfg, s, call).objects.Keys == s.objects.Keys && !Step(cfg, s, call).failed
  {
    hide GetKeys, CreditReads;
    if call.GetCall? {
      GetKeysRetains(cfg, CountGet(s), call.keys);
    } else {
      CreditReadsRetains(s, call.keys[..HitLength(cfg, s, call.keys)]);
    }
  }

  // ----- the eviction hook

  datatype SpillPolicy = CountOnly | OnEvict | SpillOnly

  /** The hook's counters, each a count of evicted blocks. */
  datatype HookCounts = HookCounts(calls: nat, rekeys: nat, blocks: nat, unkeyed: nat, keyed: nat, present: nat,
                                   absent: nat, puts: nat, wrote: nat, refreshed: nat)

  const NO_HOOKS := HookCounts(0, 0, 0, 0, 0, 0, 0, 0, 0, 0)

  function CountPresence(n: HookCounts, present: bool): HookCounts {
    if present then n.(present := n.present + 1) else n.(absent := n.absent + 1)
  }

  function CountSpill(n: HookCounts, wrote: bool): HookCounts {
    if wrote then n.(puts := n.puts + 1, wrote := n.wrote + 1) else n.(puts := n.puts + 1, refreshed := n.refreshed + 1)
  }

  /** One block leaves the prefix cache. */
  function OnHbmEvict(cfg: Config, policy: SpillPolicy, s: Store, n: HookCounts, lost: Option<PoolKey>, why: Reason):
    (Store, HookCounts)
  {
    var n1 := n.(calls := n.calls + 1);
    if why.Rekey? then (s, n1.(rekeys := n.rekeys + 1))
    else if lost.None? then (s, n1.(blocks := n.blocks + 1, unkeyed := n.unkeyed + 1))
    else
      var key := lost.value;
      var n2 := CountPresence(n1.(blocks := n.blocks + 1, keyed := n.keyed + 1), Present(cfg, s, key));
      if policy.CountOnly? then (s, n2)
      else
        var s' := Step(cfg, s, PutCall([key]));
        (s', CountSpill(n2, Writes(s') > Writes(s)))
  }

  function PoolKeyOf(md: KeyMetadata, key: PrefixCacheKey): PoolKey {
    PoolKey(md, key)
  }

  /** The hook called for each observer event in turn; registrations reach no store. */
  function Observe(cfg: Config, policy: SpillPolicy, md: KeyMetadata, s: Store, n: HookCounts, events: seq<Event>):
    (Store, HookCounts)
  {
    if events == [] then (s, n)
    else
      var (s', n') := Observe(cfg, policy, md, s, n, events[..|events| - 1]);
      match events[|events| - 1]
      case Registered(_) => (s', n')
      case Evicted(lost, why) =>
        OnHbmEvict(cfg, policy, s', n', if lost.Some? then Some(PoolKeyOf(md, lost.value)) else None, why)
  }

  function Evictions(events: seq<Event>): nat {
    if events == [] then 0
    else Evictions(events[..|events| - 1]) + (if events[|events| - 1].Evicted? then 1 else 0)
  }

  /** With `count` the hook only counts: the store never changes and nothing is put. */
  lemma {:induction false} CountOnlyPutsNothing(cfg: Config, md: KeyMetadata, s: Store, n: HookCounts,
                                                events: seq<Event>)
    ensures var (s', n') := Observe(cfg, CountOnly, md, s, n, events);
            && s' == s && n'.puts == n.puts && n'.wrote == n.wrote && n'.refreshed == n.refreshed
            && n'.calls == n.calls + Evictions(events)
            && n'.calls - n'.rekeys - n'.blocks == n.calls - n.rekeys - n.blocks
            && n'.blocks - n'.unkeyed - n'.keyed == n.blocks - n.unkeyed - n.keyed
            && n'.keyed - n'.present - n'.absent == n.keyed - n.present - n.absent
  {
    hide Present;
    if events != [] {
      CountOnlyPutsNothing(cfg, md, s, n, events[..|events| - 1]);
    }
  }

  /** With `on_evict` and `spill_only` alike every keyed block that capacity evicts is put. */
  lemma {:induction false} EvictionsArePut(cfg: Config, policy: SpillPolicy, md: KeyMetadata, s: Store, n: HookCounts,
                                           events: seq<Event>)
    requires !policy.CountOnly?
    ensures var (s', n') := Observe(cfg, policy, md, s, n, events);
            && n'.puts - n'.keyed == n.puts - n.keyed
            && n'.puts - n'.wrote - n'.refreshed == n.puts - n.wrote - n.refreshed
            && (s', n') == Observe(cfg, if policy.OnEvict? then SpillOnly else OnEvict, md, s, n, events)
  {
    hide Present, Step;
    if events != [] {
      EvictionsArePut(cfg, policy, md, s, n, events[..|events| - 1]);
    }
  }

  // ----- one worker over the store

  datatype Levels = Levels(gpu: Gpu, store: Store, hooks: HookCounts)

  /** A block-manager call, its evictions spilled at once; or a lookup or load of the store.
      With spill_only no other put exists. */
  datatype LevelCall = OnGpu(call: GpuCall) | OnStore(read: Call)

  function LevelStep(cfg: Config, md: KeyMetadata, watermark: nat, l: Levels, call: LevelCall): Levels {
    match call
    case OnGpu(c) =>
      var gpu := GpuStep(l.gpu, watermark, c);
      var events := if |l.gpu.trace| <= |gpu.trace| then gpu.trace[|l.gpu.trace|..] else [];
      var (store, hooks) := Observe(cfg, SpillOnly, md, l.store, l.hooks, events);
      Levels(gpu, store, hooks)
    case OnStore(read) => if read.PutCall? then l else l.(store := Step(cfg, l.store, read))
  }

  function LevelRun(cfg: Config, md: KeyMetadata, numBlocks: nat, watermark: nat, calls: seq<LevelCall>): Levels {
    if calls == [] then Levels(NewGpu(numBlocks), EMPTY_STORE, NO_HOOKS)
    else
      LevelStep(cfg, md, watermark, LevelRun(cfg, md, numBlocks, watermark, calls[..|calls| - 1]), calls[|calls| - 1])
  }

  // ----- the trace only grows

  lemma {:induction false} AllocManyTrace(g: Gpu, n: nat)
    ensures g.trace <= AllocMany(g, n).2.trace
  {
    hide PopFree;
    if n > 0 {
      AllocManyTrace(g, n - 1);
    }
  }

  lemma {:induction false} AcquireAllTrace(g: Gpu, bs: seq<nat>)
    ensures AcquireAll(g, bs).trace == g.trace
  {
    if bs != [] {
      AcquireAllTrace(g, bs[..|bs| - 1]);
    }
  }

  lemma {:induction false} MarkAllTrace(g: Gpu, bs: seq<nat>, keys: seq<PrefixCacheKey>)
    requires |bs| == |keys|
    ensures MarkAll(g, bs, keys).trace == g.trace
  {
    if bs != [] {
      MarkAllTrace(g, bs[..|bs| - 1], keys[..|bs| - 1]);
    }
  }

  lemma {:induction false} RegisterAllTrace(g: Gpu, bs: seq<nat>, keys: seq<PrefixCacheKey>)
    requires |bs| == |keys|
    ensures g.trace <= RegisterAll(g, bs, keys).trace
  {
    if bs != [] {
      RegisterAllTrace(g, bs[..|bs| - 1], keys[..|bs| - 1]);
    }
  }

  lemma {:induction false} AllocateTrace(g: Gpu, ask: Ask)
    ensures g.trace <= AllocateAsk(g, ask).1.trace
  {
    hide Hits, AcquireAll, AllocMany, MarkAll;
    var hits := Hits(g, ask.keys);
    var g0 := SetClaim(g, ask.id, Claim(ask.keys, false));
    AcquireAllTrace(g0, hits);
    var g1, n := AcquireAll(g0, hits), if |hits| <= ask.logical then ask.logical - |hits| else 0;
    AllocManyTrace(g1, n);
    var (ok, more, g2) := AllocMany(g1, n);
    var blocks := hits + more;
    var m := AskLength(ask, blocks);
    if ok && m > |hits| {
      MarkAllTrace(SetTable(g2, ask.id, TableOf(g2, ask.id) + blocks), blocks[|hits|..m], ask.keys[|hits|..m]);
    }
  }

  lemma {:induction false} CommitTrace(g: Gpu, id: nat)
    ensures g.trace <= CommitInput(g, id).trace
  {
    hide RegisterAll;
    var claim, table := ClaimOf(g, id), TableOf(g, id);
    var n := if |claim.keys| <= |table| then |claim.keys| else |table|;
    RegisterAllTrace(g, table[..n], claim.keys[..n]);
  }

  lemma {:induction false} FinishTrace(g: Gpu, id: nat, start: nat, keys: seq<PrefixCacheKey>)
    ensures g.trace <= Finish(g, id, start, keys).trace
  {
    hide RegisterAll, FreeAll, CommitInput;
    CommitTrace(g, id);
    var g1 := CommitInput(g, id);
    var table := TableOf(g1, id);
    var end := if start + |keys| <= |table| then start + |keys| else |table|;
    if start < end {
      RegisterAllTrace(g1, table[start..end], keys[..end - start]);
    }
    var g2 := RegisterOutput(g1, id, start, keys);
    FreeAllFrame(g2.(tables := g2.tables - {id}), TableOf(g2, id));
  }

  lemma {:induction false} StepTrace(g: Gpu, watermark: nat, call: GpuCall)
    ensures g.trace <= GpuStep(g, watermark, call).trace
  {
    hide AllocateAsk, CommitInput, Finish, FreeAll, AllocMany, CanAllocate, PopFree;
    match call
    case AdmitCall(ask) => AllocateTrace(g, ask);
    case AppendCall(id, logical) =>
    case CommitCall(id) => CommitTrace(g, id);
    case FinishCall(id, start, keys) => FinishTrace(g, id, start, keys);
    case ReleaseCall(id) => FreeAllFrame(g.(tables := g.tables - {id}), TableOf(g, id));
    case ReserveCall(n) =>
      AllocManyTrace(g, n);
      FreeAllFrame(AllocMany(g, n).2, AllocMany(g, n).1);
    case ReleaseReservedCall(n) =>
      if n <= |g.reserved| {
        FreeAllFrame(g.(reserved := g.reserved[n..]), g.reserved[..n]);
      }
  }

  // ----- keys by their history

  function EvictedKeys(trace: seq<Event>): set<PrefixCacheKey> {
    if trace == [] then {}
    else
      var last := trace[|trace| - 1];
      EvictedKeys(trace[..|trace| - 1]) + (if last.Evicted? && last.lost.Some? then {last.lost.value} else {})
  }

  function RegisteredKeys(trace: seq<Event>): set<PrefixCacheKey> {
    if trace == [] then {}
    else
      var last := trace[|trace| - 1];
      RegisteredKeys(trace[..|trace| - 1]) + (if last.Registered? then {last.key} else {})
  }

  function PoolKeysOf(md: KeyMetadata, keys: set<PrefixCacheKey>): set<PoolKey> {
    set k | k in keys :: PoolKeyOf(md, k)
  }

  lemma {:induction false} RegisteredKeysAre(trace: seq<Event>, k: PrefixCacheKey)
    ensures k in RegisteredKeys(trace) <==> WasRegistered(trace, k)
  {
    if trace != [] {
      assert trace == trace[..|trace| - 1] + [trace[|trace| - 1]];
      RegisteredKeysAre(trace[..|trace| - 1], k);
    }
  }

  lemma {:induction false} EvictedKeysAre(trace: seq<Event>, k: PrefixCacheKey)
    requires AllKeyed(trace)
    ensures k in EvictedKeys(trace) <==> WasEvicted(trace, k)
  {
    if trace != [] {
      var front, last := trace[..|trace| - 1], trace[|trace| - 1];
      assert trace == front + [last];
      assert forall i :: 0 <= i < |front| ==> front[i] == trace[i];
      EvictedKeysAre(front, k);
      assert Keyed(last);
    }
  }

  lemma {:induction false} EvictedKeysConcat(a: seq<Event>, b: seq<Event>)
    ensures EvictedKeys(a + b) == EvictedKeys(a) + EvictedKeys(b)
  {
    if b == [] {
      assert a + b == a;
    } else {
      assert (a + b)[..|a + b| - 1] == a + b[..|b| - 1];
      EvictedKeysConcat(a, b[..|b| - 1]);
    }
  }

  lemma {:induction false} PoolKeysSize(md: KeyMetadata, keys: set<PrefixCacheKey>)
    ensures |PoolKeysOf(md, keys)| == |keys|
  {
    if keys != {} {
      var k :| k in keys;
      PoolKeysSize(md, keys - {k});
      assert PoolKeysOf(md, keys) == PoolKeysOf(md, keys - {k}) + {PoolKeyOf(md, k)};
      assert PoolKeyOf(md, k) !in PoolKeysOf(md, keys - {k});
    }
  }

  // ----- the composition

  function WorkerRank(md: KeyMetadata): RankId {
    RankId(md.tpRank, md.ppRank, md.dpRank)
  }

  /** The store of one rank's worker is sound, whichever way it is partitioned. */
  ghost predicate Sound(cfg: Config, rank: RankId, s: Store) {
    if cfg.partition.PerRank? then OneRankSound(cfg, rank, s) else Coherent(cfg, s)
  }

  lemma {:induction false} SoundStep(cfg: Config, rank: RankId, s: Store, call: Call)
    requires Sound(cfg, rank, s) && (call.PutCall? ==> OfRank(call.keys, rank))
    ensures Sound(cfg, rank, Step(cfg, s, call)) && !s.failed
    ensures forall k :: RankOf(k) == rank ==> !TooManyRanks(cfg, s, k)
  {
    hide Coherent, OneRankSound, Step;
    if cfg.partition.PerRank? {
      OneRankStep(cfg, rank, s, call);
      OneRankObjects(cfg, rank, s);
    } else {
      StepCoherent(cfg, s, call);
      CoherentRuns(cfg, s);
    }
  }

  lemma {:induction false} SoundPresent(cfg: Config, rank: RankId, s: Store, key: PoolKey)
    requires Sound(cfg, rank, s)
    ensures Present(cfg, s, key) <==> key in s.objects
  {
    hide Coherent, OneRankSound, Present;
    if cfg.partition.PerRank? {
      OneRankPresent(cfg, rank, s, key);
    } else {
      CoherentPresent(cfg, s, key);
    }
  }

  lemma {:induction false} SoundEmpty(cfg: Config, rank: RankId)
    ensures Sound(cfg, rank, EMPTY_STORE)
  {
    if cfg.partition.PerRank? {
      OneRankEmpty(cfg, rank);
    } else {
      RunCoherent(cfg, []);
      assert Run(cfg, []) == EMPTY_STORE;
    }
  }

  lemma {:induction false} CoherentPresent(cfg: Config, s: Store, key: PoolKey)
    requires !cfg.partition.PerRank? && Coherent(cfg, s)
    ensures Present(cfg, s, key) <==> key in s.objects
  {
  }

  /** Every eviction carried a key and was spilled; a spill wrote exactly when the key was absent,
      so the absent ones number the store's objects. */
  ghost predicate HooksHonest(n: HookCounts, s: Store) {
    && n.rekeys == 0 && n.unkeyed == 0
    && n.calls == n.blocks == n.keyed == n.puts == n.present + n.absent
    && n.wrote == n.absent && n.refreshed == n.present
    && n.absent == |s.objects|
  }

  lemma {:induction false} AddKey(objects: map<PoolKey, Object>, objects': map<PoolKey, Object>, key: PoolKey)
    requires objects'.Keys == objects.Keys + {key}
    ensures |objects'| == |objects| + (if key in objects then 0 else 1)
  {
    if key in objects {
      assert objects.Keys + {key} == objects.Keys;
    }
    assert |objects'| == |objects'.Keys| && |objects| == |objects.Keys|;
  }

  lemma {:induction false} SpillRetains(cfg: Config, rank: RankId, s: Store, n: HookCounts, key: PoolKey)
    requires Retentive(cfg) && Sound(cfg, rank, s) && HooksHonest(n, s) && RankOf(key) == rank
    ensures var (s', n') := OnHbmEvict(cfg, SpillOnly, s, n, Some(key), Capacity);
            && Sound(cfg, rank, s') && HooksHonest(n', s') && s'.objects.Keys == s.objects.Keys + {key}
  {
    hide Sound, Step, Present, Writes, Retentive, HooksHonest, CountPresence, CountSpill, TooManyRanks;
    SoundPresent(cfg, rank, s, key);
    SoundStep(cfg, rank, s, PutCall([key]));
    PutCallRetains(cfg, s, key);
    var s' := Step(cfg, s, PutCall([key]));
    AddKey(s.objects, s'.objects, key);
    HonestAdvance(n, s, s', key in s.objects);
  }

  lemma {:induction false} CoherentRuns(cfg: Config, s: Store)
    requires Coherent(cfg, s)
    ensures !s.failed
  {
  }

  lemma {:induction false} HonestAdvance(n: HookCounts, s: Store, s': Store, present: bool)
    requires HooksHonest(n, s) && |s'.objects| == |s.objects| + (if present then 0 else 1)
    ensures var n1 := n.(calls := n.calls + 1).(blocks := n.blocks + 1, keyed := n.keyed + 1);
            HooksHonest(CountSpill(CountPresence(n1, present), !present), s')
  {
  }

  lemma {:induction false} ObserveRetains(cfg: Config, md: KeyMetadata, s: Store, n: HookCounts, events: seq<Event>)
    requires Retentive(cfg) && Sound(cfg, WorkerRank(md), s) && HooksHonest(n, s) && AllKeyed(events)
    ensures var (s', n') := Observe(cfg, SpillOnly, md, s, n, events);
            && Sound(cfg, WorkerRank(md), s') && HooksHonest(n', s')
            && s'.objects.Keys == s.objects.Keys + PoolKeysOf(md, EvictedKeys(events))
  {
    hide Sound, HooksHonest, OnHbmEvict, Retentive;
    if events == [] {
      assert PoolKeysOf(md, EvictedKeys(events)) == {};
    } else {
      var front, last := events[..|events| - 1], events[|events| - 1];
      assert AllKeyed(front) && Keyed(last);
      ObserveRetains(cfg, md, s, n, front);
      var (s1, n1) := Observe(cfg, SpillOnly, md, s, n, front);
      if last.Evicted? {
        SpillRetains(cfg, WorkerRank(md), s1, n1, PoolKeyOf(md, last.lost.value));
        assert PoolKeysOf(md, EvictedKeys(events))
            == PoolKeysOf(md, EvictedKeys(front)) + {PoolKeyOf(md, last.lost.value)};
      } else {
        assert EvictedKeys(events) == EvictedKeys(front);
      }
    }
  }

  ghost predicate LevelsOk(cfg: Config, md: KeyMetadata, l: Levels) {
    && Inv(l.gpu) && Traced(l.gpu)
    && Sound(cfg, WorkerRank(md), l.store) && HooksHonest(l.hooks, l.store)
    && l.store.objects.Keys == PoolKeysOf(md, EvictedKeys(l.gpu.trace))
  }

  lemma {:induction false} GpuCallKeeps(cfg: Config, md: KeyMetadata, watermark: nat, l: Levels, call: GpuCall)
    requires Retentive(cfg) && LevelsOk(cfg, md, l)
    ensures LevelsOk(cfg, md, LevelStep(cfg, md, watermark, l, OnGpu(call)))
  {
    hide Sound, HooksHonest, Inv, Traced, GpuStep, Observe, Retentive;
    var g, g' := l.gpu, GpuStep(l.gpu, watermark, call);
    StepKeeps(g, watermark, call);
    StepTraced(g, watermark, call);
    StepTrace(g, watermark, call);
    var events := g'.trace[|g.trace|..];
    assert g'.trace == g.trace + events;
    assert AllKeyed(events) by {
      InvKeyed(g');
      assert forall i :: 0 <= i < |events| ==> events[i] == g'.trace[|g.trace| + i];
    }
    ObserveRetains(cfg, md, l.store, l.hooks, events);
    EvictedKeysConcat(g.trace, events);
    assert PoolKeysOf(md, EvictedKeys(g.trace) + EvictedKeys(events))
        == PoolKeysOf(md, EvictedKeys(g.trace)) + PoolKeysOf(md, EvictedKeys(events));
  }

  lemma {:induction false} InvKeyed(g: Gpu)
    requires Inv(g)
    ensures AllKeyed(g.trace)
  {
  }

  lemma {:induction false} StoreCallKeeps(cfg: Config, md: KeyMetadata, watermark: nat, l: Levels, read: Call)
    requires Retentive(cfg) && LevelsOk(cfg, md, l)
    ensures LevelsOk(cfg, md, LevelStep(cfg, md, watermark, l, OnStore(read)))
  {
    if !read.PutCall? {
      SoundStep(cfg, WorkerRank(md), l.store, read);
      ReadRetains(cfg, l.store, read);
      hide Sound, Inv, Traced, Step, Retentive;
      assert |l.store.objects| == |l.store.objects.Keys|;
      assert |Step(cfg, l.store, read).objects| == |Step(cfg, l.store, read).objects.Keys|;
    }
  }

  lemma {:induction false} RunLevelsOk(cfg: Config, md: KeyMetadata, numBlocks: nat, watermark: nat,
                                       calls: seq<LevelCall>)
    requires Retentive(cfg)
    ensures LevelsOk(cfg, md, LevelRun(cfg, md, numBlocks, watermark, calls))
  {
    hide LevelsOk, LevelStep, Retentive;
    if calls == [] {
      NewLevelsOk(cfg, md, numBlocks);
    } else {
      var l, call := LevelRun(cfg, md, numBlocks, watermark, calls[..|calls| - 1]), calls[|calls| - 1];
      RunLevelsOk(cfg, md, numBlocks, watermark, calls[..|calls| - 1]);
      match call
      case OnGpu(c) => GpuCallKeeps(cfg, md, watermark, l, c);
      case OnStore(read) => StoreCallKeeps(cfg, md, watermark, l, read);
    }
  }

  lemma {:induction false} NewLevelsOk(cfg: Config, md: KeyMetadata, numBlocks: nat)
    requires Retentive(cfg)
    ensures LevelsOk(cfg, md, Levels(NewGpu(numBlocks), EMPTY_STORE, NO_HOOKS))
  {
    NewInv(numBlocks);
    RunTraced(numBlocks, 0, []);
    SoundEmpty(cfg, WorkerRank(md));
    hide Inv, Traced, Sound;
    assert GpuRun(numBlocks, 0, []) == NewGpu(numBlocks);
    assert PoolKeysOf(md, EvictedKeys([])) == {};
  }

  /** Nothing is lost across HBM, PCM and HBF: at every moment a prefix key ever registered is in
      the GPU index or answers a store lookup. */
  lemma {:induction false} NothingIsLost(cfg: Config, md: KeyMetadata, numBlocks: nat, watermark: nat,
                                         calls: seq<LevelCall>, k: PrefixCacheKey)
    requires Retentive(cfg)
    ensures var l := LevelRun(cfg, md, numBlocks, watermark, calls);
            WasRegistered(l.gpu.trace, k) ==> k in l.gpu.cache || Present(cfg, l.store, PoolKeyOf(md, k))
  {
    RunLevelsOk(cfg, md, numBlocks, watermark, calls);
    var l := LevelRun(cfg, md, numBlocks, watermark, calls);
    hide LevelRun, Sound;
    InvKeyed(l.gpu);
    EvictedKeysAre(l.gpu.trace, k);
    SoundPresent(cfg, WorkerRank(md), l.store, PoolKeyOf(md, k));
  }

  /** Keys of the GPU index that the store lacks. */
  function OnlyInGpu(md: KeyMetadata, g: Gpu, s: Store): set<PrefixCacheKey> {
    set k | k in g.cache && PoolKeyOf(md, k) !in s.objects
  }

  /** Conservation: the distinct keys ever registered are the store's objects plus the indexed
      keys the store lacks. */
  lemma {:induction false} RegisteredKeysConserved(cfg: Config, md: KeyMetadata, numBlocks: nat, watermark: nat,
                                                   calls: seq<LevelCall>)
    requires Retentive(cfg)
    ensures var l := LevelRun(cfg, md, numBlocks, watermark, calls);
            |RegisteredKeys(l.gpu.trace)| == |l.store.objects| + |OnlyInGpu(md, l.gpu, l.store)|
  {
    RunLevelsOk(cfg, md, numBlocks, watermark, calls);
    var l := LevelRun(cfg, md, numBlocks, watermark, calls);
    hide LevelRun, Sound;
    InvKeyed(l.gpu);
    RegisteredSplit(md, l.gpu, l.store);
    PoolKeysSize(md, EvictedKeys(l.gpu.trace));
    assert |l.store.objects| == |l.store.objects.Keys|;
  }

  lemma {:induction false} RegisteredSplit(md: KeyMetadata, g: Gpu, s: Store)
    requires Traced(g) && AllKeyed(g.trace) && s.objects.Keys == PoolKeysOf(md, EvictedKeys(g.trace))
    ensures |RegisteredKeys(g.trace)| == |EvictedKeys(g.trace)| + |OnlyInGpu(md, g, s)|
  {
    var gone, kept := EvictedKeys(g.trace), OnlyInGpu(md, g, s);
    forall k ensures k in RegisteredKeys(g.trace) <==> k in gone + kept
             ensures !(k in gone && k in kept)
    {
      RegisteredKeysAre(g.trace, k);
      EvictedKeysAre(g.trace, k);
      assert k in gone <==> PoolKeyOf(md, k) in s.objects.Keys;
    }
    assert RegisteredKeys(g.trace) == gone + kept && gone !! kept;
  }

  /** The hook's counters over any run: no rekey, no unkeyed block, one put per evicted block, and
      bytes written exactly for the blocks that were absent. */
  lemma {:induction false} HookCountersHonest(cfg: Config, md: KeyMetadata, numBlocks: nat, watermark: nat,
                                              calls: seq<LevelCall>)
    requires Retentive(cfg)
    ensures var l := LevelRun(cfg, md, numBlocks, watermark, calls); HooksHonest(l.hooks, l.store)
  {
    RunLevelsOk(cfg, md, numBlocks, watermark, calls);
  }
}

/** The write and eviction identities, over any run of an unpartitioned store. */
module StoreIdentities {
  import opened Containers
  import opened Keys
  import opened OffloadTiers
  import opened StoreModel
  import opened StoreInvariant

  /** What the read gate and the rank counters say: under if_read the blocks demoted are exactly the
      blocks evicted after a read; a gate counter counts each of them, and each eviction has one rank
      counter. */
  predicate GateExact(cfg: Config, n: Stats) {
    var e := n.evictions;
    && (cfg.enableOffload && cfg.demote.IfRead? ==> e.useful == e.demoted && e.wasted == e.dropped)
    && e.gatePasses == (if cfg.enableOffload && cfg.countGate && cfg.demote.IfRead? then e.demoted else 0)
    && n.ranks.same + n.ranks.cross == (if cfg.partition.Global? then 0 else e.total)
  }

  /** The counters balance against each other and against what the memory tier holds. */
  ghost predicate Balanced(cfg: Config, s: Store) {
    var w, e := s.stats.writes, s.stats.evictions;
    && w.ssdWrites == (if !cfg.enableOffload then 0
                       else if cfg.write.WriteThrough? then w.admissions + e.demoted
                       else w.bypasses + e.demoted)
    && e.total == e.dropped + e.demoted == e.useful + e.wasted
    && w.memoryWrites == e.total + |s.memoryLru|
    && w.admissions == w.memoryWrites + w.bypasses
    && (cfg.enableOffload && cfg.demote.Always? ==> e.dropped == 0)
    && (!cfg.enableOffload ==> e.demoted == 0 && w.bypasses == 0)
    && (cfg.lruEviction && MemoryCapacity(cfg) >= 1 ==> w.bypasses == 0)
    && GateExact(cfg, s.stats)
  }

  lemma {:induction false} SettleStats(cfg: Config, s: Store, key: PoolKey)
    requires cfg.enableOffload && !cfg.partition.PerRank?
    requires TierCoherent(cfg, TierAt(s, 0)) && TablesAgreeBut(s, key)
    ensures var (s1, op) := WriteTier(cfg, s, key);
            var s' := SettleWrite(cfg, s1, op, key);
            s'.stats == s.stats.(writes := s.stats.writes.(ssdWrites := s.stats.writes.ssdWrites + 1,
                                                           ssdEvictions := s'.stats.writes.ssdEvictions))
  {
    TierWriteOne(cfg, TierAt(s, 0), key);
    var (s1, op) := WriteTier(cfg, s, key);
    DropVictimsFrame(cfg, RecordOffloadWrite(s1, op, key), op.evictedKeys, key);
  }

  /** How displacing one object moves the counters: one demotion and its offload write, or a drop. */
  ghost predicate DisplaceDelta(cfg: Config, n: Stats, m: Stats, read: bool) {
    && m.writes == n.writes.(ssdWrites := m.writes.ssdWrites, ssdEvictions := m.writes.ssdEvictions)
    && m.evictions.dropped + m.evictions.demoted == n.evictions.dropped + n.evictions.demoted + 1
    && m.writes.ssdWrites - m.evictions.demoted == n.writes.ssdWrites - n.evictions.demoted
    && (cfg.enableOffload && cfg.demote.Always? ==> m.evictions.dropped == n.evictions.dropped)
    && (!cfg.enableOffload ==> m.evictions.demoted == n.evictions.demoted)
    && m.evictions.total == n.evictions.total
    && m.evictions.useful == n.evictions.useful && m.evictions.wasted == n.evictions.wasted
    && (cfg.enableOffload && cfg.demote.IfRead? ==>
          m.evictions.demoted == n.evictions.demoted + (if read then 1 else 0))
    && m.evictions.gatePasses - n.evictions.gatePasses
       == (if cfg.enableOffload && cfg.countGate && cfg.demote.IfRead? then m.evictions.demoted - n.evictions.demoted
           else 0)
    && m.ranks == n.ranks
  }

  ghost predicate EvictionDelta(cfg: Config, n: Stats, m: Stats) {
    var e, e' := n.evictions, m.evictions;
    && DisplaceDelta(cfg, n.(evictions := e.(total := e'.total, useful := e'.useful, wasted := e'.wasted),
                             ranks := m.ranks), m, e'.useful > e.useful)
    && m.ranks.same + m.ranks.cross == n.ranks.same + n.ranks.cross + (if cfg.partition.Global? then 0 else 1)
    && e.useful <= e'.useful <= e.useful + 1
    && e'.total == e.total + 1
    && e'.useful + e'.wasted == e.useful + e.wasted + 1
  }

  lemma {:induction false} DisplaceStats(cfg: Config, s: Store, key: PoolKey)
    requires !cfg.partition.PerRank? && Unlisted(s, key) && OffloadCoherent(cfg, s)
    ensures DisplaceDelta(cfg, s.stats, Displace(cfg, s, key).stats, s.objects[key].readCount > 0)
  {
    if cfg.enableOffload && !DropsOnEviction(cfg, s.objects[key]) {
      SettleStats(cfg, SetPlace(CountDemoted(cfg, s, s.objects[key]), key, Offload), key);
      hide WriteTier, SettleWrite, Unlisted, OffloadCoherent;
    }
  }

  lemma {:induction false} ReleaseCounts(cfg: Config, s: Store, key: PoolKey, admitter: nat)
    requires key in s.objects
    ensures var n, m := s.stats, ReleaseMemory(cfg, s, key, admitter).stats;
            && m == n.(evictions := m.evictions, ranks := m.ranks)
            && m.evictions == n.evictions.(total := n.evictions.total + 1, useful := m.evictions.useful,
                                           wasted := m.evictions.wasted)
            && m.evictions.useful + m.evictions.wasted == n.evictions.useful + n.evictions.wasted + 1
            && m.evictions.useful == n.evictions.useful + (if s.objects[key].readCount > 0 then 1 else 0)
            && m.ranks.same + m.ranks.cross == n.ranks.same + n.ranks.cross + (if cfg.partition.Global? then 0 else 1)
  {
  }

  lemma {:induction false} ReleaseStats(cfg: Config, s: Store, key: PoolKey, admitter: nat, m: Stats)
    requires key in s.objects
    requires DisplaceDelta(cfg, ReleaseMemory(cfg, s, key, admitter).stats, m, s.objects[key].readCount > 0)
    ensures EvictionDelta(cfg, s.stats, m)
  {
    hide ReleaseMemory;
    ReleaseCounts(cfg, s, key, admitter);
  }

  lemma {:induction false} EvictOldestStats(cfg: Config, s: Store, admitter: nat)
    requires !cfg.partition.PerRank? && Consistent(cfg, s) && s.memoryLru != []
    ensures EvictionDelta(cfg, s.stats, EvictOldest(cfg, s, admitter).stats)
  {
    ReleasedUnlisted(cfg, s, admitter);
    var key := s.memoryLru[0];
    var s1 := PopOldest(cfg, s, admitter);
    DisplaceStats(cfg, ReleaseMemory(cfg, s1, key, admitter), key);
    ReleaseStats(cfg, s1, key, admitter, EvictOldest(cfg, s, admitter).stats);
  }

  lemma {:induction false} DeltaBalanced(cfg: Config, s: Store, s': Store)
    requires Balanced(cfg, s) && EvictionDelta(cfg, s.stats, s'.stats) && |s'.memoryLru| + 1 == |s.memoryLru|
    ensures Balanced(cfg, s')
  {
  }

  lemma {:induction false} EvictOldestBalanced(cfg: Config, s: Store, admitter: nat)
    requires !cfg.partition.PerRank? && Consistent(cfg, s) && s.memoryLru != []
    requires Balanced(cfg, s)
    ensures Balanced(cfg, EvictOldest(cfg, s, admitter))
  {
    EvictOldestStats(cfg, s, admitter);
    EvictOldestShrinks(cfg, s, admitter);
    hide Consistent, Balanced, EvictionDelta, EvictOldest;
    DeltaBalanced(cfg, s, EvictOldest(cfg, s, admitter));
  }

  lemma {:induction false} EnsureRoomBalanced(cfg: Config, s: Store, rank: nat)
    requires !cfg.partition.PerRank? && Coherent(cfg, s) && Balanced(cfg, s)
    ensures Balanced(cfg, EnsureRoom(cfg, s, rank).1)
    ensures cfg.lruEviction && MemoryCapacity(cfg) >= 1 ==> EnsureRoom(cfg, s, rank).0
  {
    EnsureRoomOnce(cfg, s, rank);
    if 1 <= MemoryCapacity(cfg) <= |s.memoryLru| && cfg.lruEviction {
      EvictOldestBalanced(cfg, s, rank);
    }
  }

  lemma {:induction false} EnteredStats(cfg: Config, s: Store, key: PoolKey)
    requires !cfg.partition.PerRank? && Coherent(cfg, s)
    requires key !in s.objects && |s.memoryLru| < MemoryCapacity(cfg)
    ensures var s1 := CountAdmission(CountSource(cfg, EnterMemory(cfg, s, key), key));
            && Coherent(cfg, s1) && key in s1.objects && s1.memoryLru == s.memoryLru + [key] && s1.tiers == s.tiers
            && s1.stats.writes.ssdWrites == s.stats.writes.ssdWrites
  {
    var s0 := EnterMemory(cfg, s, key);
    assert s0.memoryLru == s.memoryLru + [key] && s0.tiers == s.tiers && s0.stats == s.stats && key in s0.objects;
    EnterMemoryCoherent(cfg, s, key);
    hide EnterMemory, Coherent;
    BookkeepingCoherent(cfg, s0, CountAdmission(CountSource(cfg, s0, key)));
  }

  lemma {:induction false} CoherentTier(cfg: Config, s: Store, key: PoolKey)
    requires Coherent(cfg, s) && cfg.enableOffload && key !in s.objects
    ensures key !in TierAt(s, 0).held
  {
  }

  lemma {:induction false} CoherentWrites(cfg: Config, s: Store, key: PoolKey)
    requires Coherent(cfg, s) && cfg.enableOffload
    ensures TierCoherent(cfg, TierAt(s, 0)) && TablesAgreeBut(s, key)
  {
  }

  lemma {:induction false} AdmitStats(cfg: Config, s: Store, key: PoolKey)
    requires !cfg.partition.PerRank? && Coherent(cfg, s)
    requires key !in s.objects && |s.memoryLru| < MemoryCapacity(cfg)
    ensures var s' := AdmitToMemory(cfg, s, key);
            var s1 := CountAdmission(CountSource(cfg, EnterMemory(cfg, s, key), key));
            var w := s'.stats.writes;
            && s'.memoryLru == s.memoryLru + [key]
            && s'.stats == s1.stats.(writes := s1.stats.writes.(ssdWrites := w.ssdWrites, ssdEvictions := w.ssdEvictions))
            && w.ssdWrites == s.stats.writes.ssdWrites
                              + (if cfg.enableOffload && cfg.write.WriteThrough? then 1 else 0)
  {
    var s1 := CountAdmission(CountSource(cfg, EnterMemory(cfg, s, key), key));
    EnteredStats(cfg, s, key);
    if cfg.enableOffload && cfg.write.WriteThrough? {
      CoherentTier(cfg, s, key);
      CoherentWrites(cfg, s1, key);
      hide Coherent, TierCoherent, TablesAgreeBut, EnterMemory, CountSource, CountAdmission, WriteTier, SettleWrite,
           TierAt;
      assert TierAt(s1, 0) == TierAt(s, 0) by { TierSame(s, s1); }
      WriteSettles(cfg, s1, key);
      SettleStats(cfg, s1, key);
    }
  }

  lemma {:induction false} TierSame(s: Store, s': Store)
    requires s'.tiers == s.tiers
    ensures TierAt(s', 0) == TierAt(s, 0)
  {
  }

  lemma {:induction false} AdmitBalanced(cfg: Config, s: Store, key: PoolKey)
    requires !cfg.partition.PerRank? && Coherent(cfg, s) && Balanced(cfg, s)
    requires key !in s.objects && |s.memoryLru| < MemoryCapacity(cfg)
    ensures Balanced(cfg, AdmitToMemory(cfg, s, key))
  {
    AdmitStats(cfg, s, key);
  }

  lemma {:induction false} BypassBalanced(cfg: Config, s: Store, key: PoolKey)
    requires !cfg.partition.PerRank? && Coherent(cfg, s) && Balanced(cfg, s) && key !in s.objects
    requires !(cfg.lruEviction && MemoryCapacity(cfg) >= 1)
    ensures Balanced(cfg, BypassMemory(cfg, s, key))
  {
    if cfg.enableOffload {
      WriteSettles(cfg, s, key);
      SettleStats(cfg, s, key);
    }
  }

  lemma {:induction false} PutOneBalanced(cfg: Config, s: Store, key: PoolKey)
    requires !cfg.partition.PerRank? && Coherent(cfg, s) && Balanced(cfg, s)
    ensures Balanced(cfg, PutOne(cfg, s, key))
  {
    if key in s.objects {
      if s.objects[key].place.Memory? {
        MoveToEndDistinct(s.memoryLru, key);
      }
    } else {
      var s1 := AssignRank(cfg, s, key);
      var rank := RankIndex(s1, key);
      BookkeepingCoherent(cfg, s, s1);
      EnsureRoomBalanced(cfg, s1, rank);
      EnsureRoomCoherent(cfg, s1, rank);
      var (admitted, s2) := EnsureRoom(cfg, s1, rank);
      if admitted {
        AdmitBalanced(cfg, s2, key);
      } else {
        BypassBalanced(cfg, s2, key);
      }
    }
  }

  lemma {:induction false} PutKeysBalanced(cfg: Config, s: Store, keys: seq<PoolKey>)
    requires !cfg.partition.PerRank? && Coherent(cfg, s) && Balanced(cfg, s)
    ensures Balanced(cfg, PutKeys(cfg, s, keys))
  {
    if keys != [] {
      PutKeysBalanced(cfg, s, keys[..|keys| - 1]);
      PutKeysCoherent(cfg, s, keys[..|keys| - 1]);
      PutOneBalanced(cfg, PutKeys(cfg, s, keys[..|keys| - 1]), keys[|keys| - 1]);
    }
  }

  lemma {:induction false} GetKeysStats(cfg: Config, s: Store, keys: seq<PoolKey>)
    requires !cfg.partition.PerRank? && Coherent(cfg, s)
    ensures var s' := GetKeys(cfg, s, keys);
            && s'.stats == s.stats.(calls := s'.stats.calls)
            && |s'.memoryLru| == |s.memoryLru|
  {
    if keys != [] {
      var s1 := GetKeys(cfg, s, keys[..|keys| - 1]);
      var key := keys[|keys| - 1];
      GetKeysStats(cfg, s, keys[..|keys| - 1]);
      GetKeysCoherent(cfg, s, keys[..|keys| - 1]);
      if key in s1.objects && s1.objects[key].place.Memory? {
        MoveToEndDistinct(s1.memoryLru, key);
      }
    }
  }

  lemma {:induction false} StepBalanced(cfg: Config, s: Store, call: Call)
    requires !cfg.partition.PerRank? && Coherent(cfg, s) && Balanced(cfg, s)
    ensures Balanced(cfg, Step(cfg, s, call))
  {
    match call
    case PutCall(keys) =>
      PutKeysBalanced(cfg, CountPut(s), keys);
    case GetCall(keys) =>
      GetKeysStats(cfg, CountGet(s), keys);
    case LookupCall(keys) =>
      CreditReadsFrame(s, keys[..HitLength(cfg, s, keys)]);
  }

  /** Under if_read the blocks demoted are exactly those evicted after a read, and the blocks dropped
      exactly those evicted without one. */
  lemma {:induction false} GateServesTheRead(cfg: Config, calls: seq<Call>)
    requires !cfg.partition.PerRank? && cfg.enableOffload && cfg.demote.IfRead?
    ensures var e := Run(cfg, calls).stats.evictions;
            && e.useful == e.demoted && e.wasted == e.dropped
            && e.gatePasses == (if cfg.countGate then e.demoted else 0)
  {
    hide Run;
    RunBalanced(cfg, calls);
  }

  /** Offload writes are admissions plus demotions (write-through) or bypasses plus demotions
      (write-back); memory evictions are drops plus demotions, and useful plus wasted; memory
      writes are memory evictions plus what the memory tier still holds. */
  lemma {:induction false} RunBalanced(cfg: Config, calls: seq<Call>)
    requires !cfg.partition.PerRank?
    ensures Balanced(cfg, Run(cfg, calls))
  {
    if calls != [] {
      RunBalanced(cfg, calls[..|calls| - 1]);
      RunCoherent(cfg, calls[..|calls| - 1]);
      StepBalanced(cfg, Run(cfg, calls[..|calls| - 1]), calls[|calls| - 1]);
    }
  }
}

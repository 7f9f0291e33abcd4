/** Two stores on the same calls that differ only in write policy, capacity mode or rank
    counting move in lockstep. */
module StoreSimulation {
  import opened Containers
  import opened Keys
  import opened OffloadTiers
  import opened StoreModel
  import opened StoreInvariant
  import opened StoreIdentities
  import opened StoreProvenance
  import opened StoreReadGate

  /** Which settings may differ: rank counting always; the write policy in front of an unlimited
      tier that every victim is demoted to; and a finite tier against an unlimited one. */
  ghost predicate Comparable(c: Config, d: Config) {
    && d == c.(unlimited := d.unlimited, write := d.write, partition := d.partition)
    && !c.partition.PerRank? && !d.partition.PerRank?
    && (c.write == d.write || (c.demote.Always? && c.unlimited && d.unlimited))
    && (c.unlimited ==> d.unlimited)
  }

  predicate SameWritesBut(m: WriteStats, n: WriteStats) {
    && m.ssdEvictions == n.ssdEvictions && m.admissions == n.admissions && m.rejections == n.rejections
    && m.bypasses == n.bypasses && m.memoryWrites == n.memoryWrites
  }

  /** The same objects, memory order and history; the same counters but for offload writes and
      rank counts; and the same offload tier unless the write policies differ. */
  ghost predicate Twin(c: Config, d: Config, a: Store, b: Store) {
    && a.objects == b.objects && a.memoryLru == b.memoryLru && a.memoryUsed == b.memoryUsed
    && a.seen == b.seen && a.departed == b.departed && a.failed == b.failed
    && a.stats.calls == b.stats.calls && a.stats.evictions == b.stats.evictions && a.stats.sources == b.stats.sources
    && SameWritesBut(a.stats.writes, b.stats.writes)
    && (c.write == d.write ==> a.tiers == b.tiers && a.stats.writes == b.stats.writes)
  }

  function Evictions(s: Store): nat {
    TierAt(s, 0).evictions
  }

  // ----- the number of offload evictions never falls

  lemma {:induction false} EvictUntilFitsCounts(t: Tier, capacity: nat, blocks: nat)
    ensures t.evictions <= EvictUntilFits(t, capacity, blocks).0.evictions
    decreases |t.lru|
  {
    if t.usedBlocks + blocks > capacity && t.lru != [] {
      EvictUntilFitsCounts(EvictLru(t), capacity, blocks);
    }
  }

  lemma {:induction false} SettleCounts(cfg: Config, s: Store, key: PoolKey)
    requires !cfg.partition.PerRank?
    ensures var (s1, op) := WriteTier(cfg, s, key);
            Evictions(s) <= Evictions(s1) == Evictions(SettleWrite(cfg, s1, op, key))
  {
    EvictUntilFitsCounts(TierAt(s, 0), OffloadCapacity(cfg), 1);
    var (s1, op) := WriteTier(cfg, s, key);
    DropVictimsFrame(cfg, RecordOffloadWrite(s1, op, key), op.evictedKeys, key);
  }

  lemma {:induction false} DisplaceCounts(cfg: Config, s: Store, key: PoolKey)
    requires !cfg.partition.PerRank? && key in s.objects
    ensures Evictions(s) <= Evictions(Displace(cfg, s, key))
  {
    SettleCounts(cfg, SetPlace(CountDemoted(cfg, s, s.objects[key]), key, Offload), key);
  }

  lemma {:induction false} EnsureRoomCounts(cfg: Config, s: Store, rank: nat)
    requires !cfg.partition.PerRank?
    ensures Evictions(s) <= Evictions(EnsureRoom(cfg, s, rank).1)
    decreases |s.memoryLru|
  {
    if 1 <= MemoryCapacity(cfg) < s.memoryUsed + 1 && cfg.lruEviction && s.memoryLru != [] {
      var key, s1 := s.memoryLru[0], PopOldest(cfg, s, rank);
      if key in s1.objects && s1.objects[key].place.Memory? {
        DisplaceCounts(cfg, ReleaseMemory(cfg, s1, key, rank), key);
      }
      EvictOldestShrinks(cfg, s, rank);
      EnsureRoomCounts(cfg, EvictOldest(cfg, s, rank), rank);
    }
  }

  lemma {:induction false} EnterCounts(cfg: Config, s: Store, key: PoolKey)
    ensures Evictions(CountAdmission(CountSource(cfg, EnterMemory(cfg, s, key), key))) == Evictions(s)
  {
    assert EnterMemory(cfg, s, key).tiers == s.tiers;
    hide EnterMemory;
    assert CountSource(cfg, EnterMemory(cfg, s, key), key).tiers == s.tiers;
    hide CountSource;
  }

  lemma {:induction false} AdmitCounts(cfg: Config, s: Store, key: PoolKey)
    requires !cfg.partition.PerRank?
    ensures Evictions(s) <= Evictions(AdmitToMemory(cfg, s, key))
    ensures Evictions(s) <= Evictions(BypassMemory(cfg, s, key))
  {
    var s1 := CountAdmission(CountSource(cfg, EnterMemory(cfg, s, key), key));
    EnterCounts(cfg, s, key);
    SettleCounts(cfg, s1, key);
    SettleCounts(cfg, s, key);
    hide EnterMemory, CountSource, CountAdmission, WriteTier, SettleWrite;
  }

  lemma {:induction false} PutOneCounts(cfg: Config, s: Store, key: PoolKey)
    requires !cfg.partition.PerRank?
    ensures Evictions(s) <= Evictions(PutOne(cfg, s, key))
  {
    if key !in s.objects {
      var s1 := AssignRank(cfg, s, key);
      EnsureRoomCounts(cfg, s1, RankIndex(s1, key));
      AdmitCounts(cfg, EnsureRoom(cfg, s1, RankIndex(s1, key)).1, key);
    }
  }

  lemma {:induction false} PutKeysCounts(cfg: Config, s: Store, keys: seq<PoolKey>)
    requires !cfg.partition.PerRank?
    ensures Evictions(s) <= Evictions(PutKeys(cfg, s, keys))
  {
    if keys != [] {
      PutKeysCounts(cfg, s, keys[..|keys| - 1]);
      PutOneCounts(cfg, PutKeys(cfg, s, keys[..|keys| - 1]), keys[|keys| - 1]);
    }
  }

  lemma {:induction false} GetKeysCounts(cfg: Config, s: Store, keys: seq<PoolKey>)
    requires !cfg.partition.PerRank?
    ensures Evictions(GetKeys(cfg, s, keys)) == Evictions(s)
  {
    if keys != [] {
      GetKeysCounts(cfg, s, keys[..|keys| - 1]);
    }
  }

  lemma {:induction false} StepCounts(cfg: Config, s: Store, call: Call)
    requires !cfg.partition.PerRank?
    ensures Evictions(s) <= Evictions(Step(cfg, s, call))
  {
    match call
    case PutCall(keys) => PutKeysCounts(cfg, CountPut(s), keys);
    case GetCall(keys) => GetKeysCounts(cfg, CountGet(s), keys);
    case LookupCall(keys) => CreditReadsFrame(s, keys[..HitLength(cfg, s, keys)]);
  }

  // ----- lockstep, piece by piece

  /** `quiet` says that nothing was evicted, which is only needed when the capacity modes differ. */
  predicate Quiet(c: Config, d: Config, before: Store, after: Store) {
    c.unlimited != d.unlimited ==> Evictions(after) <= Evictions(before)
  }

  lemma {:induction false} TierWriteAgrees(c: Config, d: Config, t: Tier, key: PoolKey)
    requires Comparable(c, d) && c.enableOffload && TierCoherent(c, t)
    requires c.unlimited != d.unlimited
             ==> TierWrite(t, OffloadCapacity(c), c.unlimited, key, 1).0.evictions <= t.evictions
    ensures TierWrite(t, OffloadCapacity(c), c.unlimited, key, 1)
         == TierWrite(t, OffloadCapacity(d), d.unlimited, key, 1)
  {
    if c.unlimited != d.unlimited {
      WriteMakesRoom(t, OffloadCapacity(c), 1);
      if t.usedBlocks + 1 > OffloadCapacity(c) {
        assert t.lru != [] by {
          TierUsedIsCount(c, t);
        }
        EvictUntilFitsCounts(EvictLru(t), OffloadCapacity(c), 1);
      }
    }
  }

  lemma {:induction false} VictimsAgree(c: Config, d: Config, a: Store, b: Store, evicted: seq<PoolKey>, owner: PoolKey)
    requires c.countSource == d.countSource && a.objects == b.objects && a.departed == b.departed
    ensures CountVictims(a, evicted, owner) == CountVictims(b, evicted, owner)
    ensures DropVictims(c, a, evicted, owner).objects == DropVictims(d, b, evicted, owner).objects
    ensures DropVictims(c, a, evicted, owner).departed == DropVictims(d, b, evicted, owner).departed
  {
    if evicted != [] {
      VictimsAgree(c, d, a, b, evicted[..|evicted| - 1], owner);
    }
  }

  lemma {:induction false} NothingDropped(cfg: Config, s: Store, owner: PoolKey)
    ensures CountVictims(s, [], owner) == 0 && DropVictims(cfg, s, [], owner) == s
  {
  }

  lemma {:induction false} SettleTwin(c: Config, d: Config, a: Store, b: Store, key: PoolKey)
    requires Comparable(c, d) && c.enableOffload && Twin(c, d, a, b)
    requires TierCoherent(c, TierAt(a, 0))
    requires Quiet(c, d, a, WriteTier(c, a, key).0)
    ensures var (a1, op) := WriteTier(c, a, key);
            var (b1, op') := WriteTier(d, b, key);
            && op == op'
            && Twin(c, d, SettleWrite(c, a1, op, key), SettleWrite(d, b1, op, key))
  {
    if c.write == d.write {
      TierWriteAgrees(c, d, TierAt(a, 0), key);
    }
    var (a1, op) := WriteTier(c, a, key);
    var (b1, op') := WriteTier(d, b, key);
    assert op == op';
    VictimsAgree(c, d, a1, b1, op.evictedKeys, key);
    var a2, b2 := RecordOffloadWrite(a1, op, key), RecordOffloadWrite(b1, op, key);
    VictimsAgree(c, d, a2, b2, op.evictedKeys, key);
    DropVictimsFrame(c, a2, op.evictedKeys, key);
    DropVictimsFrame(d, b2, op.evictedKeys, key);
  }

  lemma {:induction false} DropTwin(c: Config, d: Config, a: Store, b: Store, key: PoolKey, why: Departure)
    requires Comparable(c, d) && Twin(c, d, a, b) && key in a.objects
    ensures Twin(c, d, Forget(c, CountDropped(a), key, why), Forget(d, CountDropped(b), key, why))
    ensures Twin(c, d, SetPlace(CountDropped(a), key, Offload), SetPlace(CountDropped(b), key, Offload))
  {
  }

  lemma {:induction false} DemoteTwin(c: Config, d: Config, a: Store, b: Store, key: PoolKey)
    requires Comparable(c, d) && Twin(c, d, a, b) && key in a.objects
    ensures Twin(c, d, SetPlace(CountDemoted(c, a, a.objects[key]), key, Offload),
                       SetPlace(CountDemoted(d, b, b.objects[key]), key, Offload))
  {
  }

  lemma {:induction false} DisplaceTwin(c: Config, d: Config, a: Store, b: Store, key: PoolKey)
    requires Comparable(c, d) && Twin(c, d, a, b) && key in a.objects
    requires c.enableOffload ==> TierCoherent(c, TierAt(a, 0))
    requires Quiet(c, d, a, Displace(c, a, key))
    ensures Twin(c, d, Displace(c, a, key), Displace(d, b, key))
  {
    assert a.objects == b.objects && (c.write == d.write ==> a.tiers == b.tiers);
    var a1 := SetPlace(CountDemoted(c, a, a.objects[key]), key, Offload);
    var b1 := SetPlace(CountDemoted(d, b, b.objects[key]), key, Offload);
    assert a1.tiers == a.tiers;
    if c.enableOffload && !DropsOnEviction(c, a.objects[key]) {
      SettleCounts(c, a1, key);
    }
    hide Twin, TierCoherent, SetPlace, CountDemoted, CountDropped, Forget, SettleWrite, WriteTier;
    if c.enableOffload && !DropsOnEviction(c, a.objects[key]) {
      DemoteTwin(c, d, a, b, key);
      SettleTwin(c, d, a1, b1, key);
    } else {
      DropTwin(c, d, a, b, key, if c.enableOffload then IfReadDrop else OtherDeparture);
    }
  }

  lemma {:induction false} ReleaseTwin(c: Config, d: Config, a: Store, b: Store, ra: nat, rb: nat)
    requires Comparable(c, d) && Twin(c, d, a, b) && a.memoryLru != []
    requires a.memoryLru[0] in a.objects
    ensures Twin(c, d, ReleaseMemory(c, PopOldest(c, a, ra), a.memoryLru[0], ra),
                       ReleaseMemory(d, PopOldest(d, b, rb), a.memoryLru[0], rb))
  {
    assert !c.partition.PerRank? && !d.partition.PerRank?;
    hide Comparable;
  }

  lemma {:induction false} EvictTwin(c: Config, d: Config, a: Store, b: Store, ra: nat, rb: nat)
    requires Comparable(c, d) && Twin(c, d, a, b)
    requires Consistent(c, a) && Consistent(d, b) && a.memoryLru != []
    requires Quiet(c, d, a, EvictOldest(c, a, ra))
    ensures Twin(c, d, EvictOldest(c, a, ra), EvictOldest(d, b, rb))
  {
    ReleasedUnlisted(c, a, ra);
    ReleasedUnlisted(d, b, rb);
    ReleaseTwin(c, d, a, b, ra, rb);
    var key := a.memoryLru[0];
    var a2 := ReleaseMemory(c, PopOldest(c, a, ra), key, ra);
    assert Evictions(a2) == Evictions(a);
    hide Twin, Consistent, Unlisted, EvictOldest, Displace;
    DisplaceTwin(c, d, a2, ReleaseMemory(d, PopOldest(d, b, rb), key, rb), key);
  }

  lemma {:induction false} EnsureRoomTwin(c: Config, d: Config, a: Store, b: Store, ra: nat, rb: nat)
    requires Comparable(c, d) && Twin(c, d, a, b)
    requires Coherent(c, a) && Coherent(d, b)
    requires Quiet(c, d, a, EnsureRoom(c, a, ra).1)
    ensures EnsureRoom(c, a, ra).0 == EnsureRoom(d, b, rb).0
    ensures Twin(c, d, EnsureRoom(c, a, ra).1, EnsureRoom(d, b, rb).1)
  {
    EnsureRoomOnce(c, a, ra);
    EnsureRoomOnce(d, b, rb);
    if 1 <= MemoryCapacity(c) <= |a.memoryLru| && c.lruEviction {
      EvictTwin(c, d, a, b, ra, rb);
    }
  }

  lemma {:induction false} EnterMemoryTwin(c: Config, d: Config, a: Store, b: Store, key: PoolKey)
    requires Comparable(c, d) && Twin(c, d, a, b)
    ensures Twin(c, d, EnterMemory(c, a, key), EnterMemory(d, b, key))
  {
  }

  lemma {:induction false} CountSourceAgrees(c: Config, d: Config, a: Store, b: Store, key: PoolKey)
    requires c.countSource == d.countSource
    requires a.seen == b.seen && a.departed == b.departed && a.stats.sources == b.stats.sources
    ensures var a', b' := CountSource(c, a, key), CountSource(d, b, key);
            && a' == a.(seen := a'.seen, departed := a'.departed, stats := a.stats.(sources := a'.stats.sources))
            && b' == b.(seen := a'.seen, departed := a'.departed, stats := b.stats.(sources := a'.stats.sources))
  {
    hide CountReason;
  }

  lemma {:induction false} CountSourceTwin(c: Config, d: Config, a: Store, b: Store, key: PoolKey)
    requires Comparable(c, d) && Twin(c, d, a, b)
    ensures Twin(c, d, CountSource(c, a, key), CountSource(d, b, key))
  {
    CountSourceAgrees(c, d, a, b, key);
    hide Comparable, CountSource;
  }

  lemma {:induction false} CountAdmissionTwin(c: Config, d: Config, a: Store, b: Store)
    requires Comparable(c, d) && Twin(c, d, a, b)
    ensures Twin(c, d, CountAdmission(a), CountAdmission(b))
  {
  }

  lemma {:induction false} EnterTwin(c: Config, d: Config, a: Store, b: Store, key: PoolKey)
    requires Comparable(c, d) && Twin(c, d, a, b)
    ensures Twin(c, d, CountAdmission(CountSource(c, EnterMemory(c, a, key), key)),
                       CountAdmission(CountSource(d, EnterMemory(d, b, key), key)))
  {
    hide Twin, EnterMemory, CountAdmission, CountSource;
    EnterMemoryTwin(c, d, a, b, key);
    var a1, b1 := EnterMemory(c, a, key), EnterMemory(d, b, key);
    CountSourceTwin(c, d, a1, b1, key);
    CountAdmissionTwin(c, d, CountSource(c, a1, key), CountSource(d, b1, key));
  }

  /** An offload write in front of an unlimited tier moves only what Twin ignores. */
  lemma {:induction false} LoneWriteTwin(c: Config, d: Config, a: Store, b: Store, key: PoolKey)
    requires Comparable(c, d) && Twin(c, d, a, b) && c.write != d.write
    ensures Twin(c, d, var (a1, op) := WriteTier(c, a, key); SettleWrite(c, a1, op, key), b)
    ensures Twin(c, d, a, var (b1, op) := WriteTier(d, b, key); SettleWrite(d, b1, op, key))
    ensures WriteTier(c, a, key).1.evictedKeys == [] == WriteTier(d, b, key).1.evictedKeys
  {
    NothingDropped(c, RecordOffloadWrite(WriteTier(c, a, key).0, Operation(1, []), key), key);
    NothingDropped(d, RecordOffloadWrite(WriteTier(d, b, key).0, Operation(1, []), key), key);
    NothingDropped(c, WriteTier(c, a, key).0, key);
    NothingDropped(d, WriteTier(d, b, key).0, key);
  }

  lemma {:induction false} AdmitTwin(c: Config, d: Config, a: Store, b: Store, key: PoolKey)
    requires Comparable(c, d) && Twin(c, d, a, b) && Coherent(c, a)
    requires Quiet(c, d, a, AdmitToMemory(c, a, key))
    ensures Twin(c, d, AdmitToMemory(c, a, key), AdmitToMemory(d, b, key))
  {
    var a1 := CountAdmission(CountSource(c, EnterMemory(c, a, key), key));
    var b1 := CountAdmission(CountSource(d, EnterMemory(d, b, key), key));
    EnterTwin(c, d, a, b, key);
    assert a1.tiers == a.tiers;
    if c.enableOffload {
      SettleCounts(c, a1, key);
      assert c.write == d.write == WriteThrough ==> Quiet(c, d, a1, WriteTier(c, a1, key).0);
      hide Twin, Coherent, TierCoherent, SettleWrite, WriteTier, EnterMemory, CountSource, CountAdmission;
      if c.write != d.write {
        LoneWriteTwin(c, d, a1, b1, key);
      } else if c.write.WriteThrough? {
        SettleTwin(c, d, a1, b1, key);
        RefusedTwin(c, d, a1, b1, key);
      }
    }
  }

  lemma {:induction false} RefusedTwin(c: Config, d: Config, a: Store, b: Store, key: PoolKey)
    requires Comparable(c, d) && c.enableOffload && Twin(c, d, a, b) && c.write == d.write
    requires TierCoherent(c, TierAt(a, 0))
    requires Quiet(c, d, a, WriteTier(c, a, key).0)
    ensures Twin(c, d, WriteTier(c, a, key).0, WriteTier(d, b, key).0)
    ensures Twin(c, d, CountRejections(WriteTier(c, a, key).0, 1), CountRejections(WriteTier(d, b, key).0, 1))
  {
    TierWriteAgrees(c, d, TierAt(a, 0), key);
  }

  lemma {:induction false} BypassedTwin(c: Config, d: Config, a: Store, b: Store, key: PoolKey)
    requires Comparable(c, d) && Twin(c, d, a, b)
    ensures Twin(c, d, CountBypass(a.(objects := a.objects[key := Object(Offload, 0, 0)],
                                      seen := if c.countSource then a.seen + {key} else a.seen)),
                       CountBypass(b.(objects := b.objects[key := Object(Offload, 0, 0)],
                                      seen := if d.countSource then b.seen + {key} else b.seen)))
  {
  }

  lemma {:induction false} RejectedTwin(c: Config, d: Config, a: Store, b: Store)
    requires Twin(c, d, a, b)
    ensures Twin(c, d, CountRejections(a, 1), CountRejections(b, 1))
  {
  }

  lemma {:induction false} BypassTwin(c: Config, d: Config, a: Store, b: Store, key: PoolKey)
    requires Comparable(c, d) && Twin(c, d, a, b) && Coherent(c, a)
    requires Quiet(c, d, a, BypassMemory(c, a, key))
    ensures Twin(c, d, BypassMemory(c, a, key), BypassMemory(d, b, key))
  {
    assert c.enableOffload == d.enableOffload && (c.enableOffload ==> TierCoherent(c, TierAt(a, 0)));
    if c.enableOffload {
      SettleCounts(c, a, key);
      var (a1, op) := WriteTier(c, a, key);
      var (b1, op') := WriteTier(d, b, key);
      assert Quiet(c, d, a, a1) by { hide WriteTier, SettleWrite, Twin; }
      hide Twin, Coherent, TierCoherent, WriteTier, SettleWrite, CountBypass, CountRejections, Comparable;
      SettleTwin(c, d, a, b, key);
      if key in op.evictedKeys {
        BypassRefusedTwin(c, d, a, b, key);
      } else {
        BypassedTwin(c, d, SettleWrite(c, a1, op, key), SettleWrite(d, b1, op, key), key);
      }
    } else {
      hide Coherent;
      RejectedTwin(c, d, a, b);
    }
  }

  lemma {:induction false} BypassRefusedTwin(c: Config, d: Config, a: Store, b: Store, key: PoolKey)
    requires Comparable(c, d) && c.enableOffload && Twin(c, d, a, b) && TierCoherent(c, TierAt(a, 0))
    requires Quiet(c, d, a, WriteTier(c, a, key).0) && key in WriteTier(c, a, key).1.evictedKeys
    ensures Twin(c, d, CountRejections(WriteTier(c, a, key).0, 1), CountRejections(WriteTier(d, b, key).0, 1))
  {
    hide Twin, WriteTier, CountRejections, TierCoherent;
    if c.write == d.write {
      RefusedTwin(c, d, a, b, key);
    } else {
      hide Comparable, Quiet;
      LoneWriteTwin(c, d, a, b, key);
    }
  }

  lemma {:induction false} AssignRankTwin(c: Config, d: Config, a: Store, b: Store, key: PoolKey)
    requires Comparable(c, d) && Twin(c, d, a, b) && Coherent(c, a) && Coherent(d, b)
    ensures Twin(c, d, AssignRank(c, a, key), AssignRank(d, b, key))
    ensures Coherent(c, AssignRank(c, a, key)) && Coherent(d, AssignRank(d, b, key))
    ensures Evictions(AssignRank(c, a, key)) == Evictions(a)
  {
    BookkeepingCoherent(c, a, AssignRank(c, a, key));
    BookkeepingCoherent(d, b, AssignRank(d, b, key));
  }

  lemma {:induction false} PutNewTwin(c: Config, d: Config, a: Store, b: Store, key: PoolKey, ra: nat, rb: nat)
    requires Comparable(c, d) && Twin(c, d, a, b) && Coherent(c, a) && Coherent(d, b)
    requires var (ok, a2) := EnsureRoom(c, a, ra);
             Quiet(c, d, a, if ok then AdmitToMemory(c, a2, key) else BypassMemory(c, a2, key))
    ensures var (ok, a2) := EnsureRoom(c, a, ra);
            var (ok', b2) := EnsureRoom(d, b, rb);
            && ok == ok'
            && Twin(c, d, if ok then AdmitToMemory(c, a2, key) else BypassMemory(c, a2, key),
                          if ok then AdmitToMemory(d, b2, key) else BypassMemory(d, b2, key))
  {
    EnsureRoomCounts(c, a, ra);
    EnsureRoomCoherent(c, a, ra);
    AdmitCounts(c, EnsureRoom(c, a, ra).1, key);
    hide Twin, Coherent, EnsureRoom, AdmitToMemory, BypassMemory;
    EnsureRoomTwin(c, d, a, b, ra, rb);
    var (ok, a2) := EnsureRoom(c, a, ra);
    var b2 := EnsureRoom(d, b, rb).1;
    if ok {
      AdmitTwin(c, d, a2, b2, key);
    } else {
      BypassTwin(c, d, a2, b2, key);
    }
  }

  lemma {:induction false} TouchTwin(c: Config, d: Config, a: Store, b: Store, key: PoolKey)
    requires Comparable(c, d) && Twin(c, d, a, b) && key in a.objects
    ensures Twin(c, d, Touch(c, a, key), Touch(d, b, key))
  {
  }

  lemma {:induction false} PutOneTwin(c: Config, d: Config, a: Store, b: Store, key: PoolKey)
    requires Comparable(c, d) && Twin(c, d, a, b) && Coherent(c, a) && Coherent(d, b)
    requires Quiet(c, d, a, PutOne(c, a, key))
    ensures Twin(c, d, PutOne(c, a, key), PutOne(d, b, key))
  {
    assert a.objects == b.objects;
    AssignRankTwin(c, d, a, b, key);
    hide Twin, Coherent, EnsureRoom, AdmitToMemory, BypassMemory, Touch, AssignRank;
    if key in a.objects {
      TouchTwin(c, d, a, b, key);
    } else {
      var a1, b1 := AssignRank(c, a, key), AssignRank(d, b, key);
      PutNewTwin(c, d, a1, b1, key, RankIndex(a1, key), RankIndex(b1, key));
    }
  }

  lemma {:induction false} PutKeysTwin(c: Config, d: Config, a: Store, b: Store, keys: seq<PoolKey>)
    requires Comparable(c, d) && Twin(c, d, a, b) && Coherent(c, a) && Coherent(d, b)
    requires Quiet(c, d, a, PutKeys(c, a, keys))
    ensures Twin(c, d, PutKeys(c, a, keys), PutKeys(d, b, keys))
  {
    if keys != [] {
      var front, key := keys[..|keys| - 1], keys[|keys| - 1];
      PutKeysCoherent(c, a, front);
      PutKeysCoherent(d, b, front);
      var a1, b1 := PutKeys(c, a, front), PutKeys(d, b, front);
      assert !a1.failed && !b1.failed;
      PutKeysCounts(c, a, front);
      PutOneCounts(c, a1, key);
      hide Twin, Coherent, PutOne;
      PutKeysTwin(c, d, a, b, front);
      PutOneTwin(c, d, a1, b1, key);
    }
  }

  lemma {:induction false} CreditServeTwin(c: Config, d: Config, a: Store, b: Store, key: PoolKey)
    requires Comparable(c, d) && Twin(c, d, a, b) && key in a.objects
    ensures Twin(c, d, CreditServe(c, a, key), CreditServe(d, b, key))
    ensures Twin(c, d, ServeMemory(a, key), ServeMemory(b, key))
  {
  }

  lemma {:induction false} ServeOffloadTwin(c: Config, d: Config, a: Store, b: Store, key: PoolKey)
    requires Comparable(c, d) && Twin(c, d, a, b)
    requires key in TierAt(a, 0).held && key in TierAt(b, 0).held
    requires TierAt(a, 0).held[key] == TierAt(b, 0).held[key]
    ensures Twin(c, d, ServeOffload(c, a, key), ServeOffload(d, b, key))
  {
  }

  lemma {:induction false} CreditKeeps(cfg: Config, s: Store, key: PoolKey)
    requires key in s.objects
    ensures key in Touch(cfg, s, key).objects
    ensures var s' := CreditServe(cfg, Touch(cfg, s, key), key);
            s'.tiers == s.tiers && key in s'.objects && s'.objects[key].place == s.objects[key].place
  {
  }

  lemma {:induction false} GetOneTwin(c: Config, d: Config, a: Store, b: Store, key: PoolKey)
    requires Comparable(c, d) && Twin(c, d, a, b) && Coherent(c, a) && Coherent(d, b)
    ensures Twin(c, d, GetOne(c, a, key), GetOne(d, b, key))
  {
    assert a.objects == b.objects;
    if key in a.objects {
      var a0, b0 := Touch(c, a, key), Touch(d, b, key);
      assert c.enableOffload && a.objects[key].place.Offload?
             ==> key in TierAt(a, 0).held && key in TierAt(b, 0).held
                 && TierAt(a, 0).held[key] == 1 == TierAt(b, 0).held[key];
      hide Twin, Coherent, Touch, CreditServe, ServeOffload, ServeMemory;
      CreditKeeps(c, a, key);
      CreditKeeps(d, b, key);
      var a1, b1 := CreditServe(c, a0, key), CreditServe(d, b0, key);
      TouchTwin(c, d, a, b, key);
      CreditServeTwin(c, d, a0, b0, key);
      if a1.objects[key].place.Offload? && c.enableOffload {
        ServeOffloadTwin(c, d, a1, b1, key);
      } else {
        CreditServeTwin(c, d, a1, b1, key);
      }
    }
  }

  lemma {:induction false} GetKeysTwin(c: Config, d: Config, a: Store, b: Store, keys: seq<PoolKey>)
    requires Comparable(c, d) && Twin(c, d, a, b) && Coherent(c, a) && Coherent(d, b)
    ensures Twin(c, d, GetKeys(c, a, keys), GetKeys(d, b, keys))
  {
    hide Twin, Coherent, GetOne;
    if keys != [] {
      var front, key := keys[..|keys| - 1], keys[|keys| - 1];
      GetKeysTwin(c, d, a, b, front);
      GetKeysCoherent(c, a, front);
      GetKeysCoherent(d, b, front);
      GetOneTwin(c, d, GetKeys(c, a, front), GetKeys(d, b, front), key);
    }
  }

  lemma {:induction false} HitLengthAgrees(c: Config, d: Config, a: Store, b: Store, keys: seq<PoolKey>)
    requires c.enableOffload == d.enableOffload && a.objects == b.objects
    requires !c.partition.PerRank? && !d.partition.PerRank? && Coherent(c, a) && Coherent(d, b)
    ensures HitLength(c, a, keys) == HitLength(d, b, keys)
  {
    if keys != [] {
      HitLengthAgrees(c, d, a, b, keys[1..]);
    }
  }

  lemma {:induction false} CreditAgrees(a: Store, b: Store, keys: seq<PoolKey>)
    requires a.objects == b.objects
    ensures CreditReads(a, keys).objects == CreditReads(b, keys).objects
  {
    if keys != [] {
      CreditAgrees(a, b, keys[..|keys| - 1]);
    }
  }

  lemma {:induction false} CountLookupTwin(c: Config, d: Config, a: Store, b: Store, hit: bool, disk: bool)
    requires Twin(c, d, a, b)
    ensures Twin(c, d, CountLookup(a, hit, disk), CountLookup(b, hit, disk))
  {
  }

  lemma {:induction false} CreditTwin(c: Config, d: Config, a: Store, b: Store, hits: seq<PoolKey>)
    requires Twin(c, d, a, b)
    ensures Twin(c, d, CreditReads(a, hits), CreditReads(b, hits))
    ensures AnyOffload(a, hits) == AnyOffload(b, hits)
  {
    CreditAgrees(a, b, hits);
    CreditReadsFrame(a, hits);
    CreditReadsFrame(b, hits);
  }

  lemma {:induction false} LookupTwin(c: Config, d: Config, a: Store, b: Store, keys: seq<PoolKey>)
    requires Comparable(c, d) && Twin(c, d, a, b) && Coherent(c, a) && Coherent(d, b)
    ensures Twin(c, d, Lookup(c, a, keys), Lookup(d, b, keys))
  {
    HitLengthAgrees(c, d, a, b, keys);
    hide Twin, Coherent, HitLength, CreditReads, CountLookup, AnyOffload;
    var hits := keys[..HitLength(c, a, keys)];
    var disk := AnyOffload(a, hits);
    CreditTwin(c, d, a, b, hits);
    CountLookupTwin(c, d, a, b, hits != [], disk);
    CountLookupTwin(c, d, CreditReads(a, hits), CreditReads(b, hits), hits != [], disk);
  }

  lemma {:induction false} CountTwin(c: Config, d: Config, a: Store, b: Store, n: nat)
    requires Comparable(c, d) && Twin(c, d, a, b) && Coherent(c, a) && Coherent(d, b)
    ensures Twin(c, d, CountPut(a), CountPut(b)) && Coherent(c, CountPut(a)) && Coherent(d, CountPut(b))
    ensures Twin(c, d, CountGet(a), CountGet(b)) && Coherent(c, CountGet(a)) && Coherent(d, CountGet(b))
    ensures Twin(c, d, CountRejections(a, n), CountRejections(b, n))
    ensures Evictions(CountPut(a)) == Evictions(a)
  {
    BookkeepingCoherent(c, a, CountPut(a));
    BookkeepingCoherent(d, b, CountPut(b));
    BookkeepingCoherent(c, a, CountGet(a));
    BookkeepingCoherent(d, b, CountGet(b));
  }

  lemma {:induction false} StepTwin(c: Config, d: Config, a: Store, b: Store, call: Call)
    requires Comparable(c, d) && Twin(c, d, a, b) && Coherent(c, a) && Coherent(d, b)
    requires Quiet(c, d, a, Step(c, a, call))
    ensures Twin(c, d, Step(c, a, call), Step(d, b, call))
  {
    assert !a.failed && !b.failed;
    CountTwin(c, d, a, b, |call.keys|);
    hide Twin, Coherent, PutKeys, GetKeys, Lookup, CountPut, CountGet, CountRejections;
    match call
    case PutCall(keys) =>
      if c.admitAlways && keys != [] {
        PutKeysTwin(c, d, CountPut(a), CountPut(b), keys);
      }
    case GetCall(keys) => GetKeysTwin(c, d, CountGet(a), CountGet(b), keys);
    case LookupCall(keys) => LookupTwin(c, d, a, b, keys);
  }

  lemma {:induction false} RunTwin(c: Config, d: Config, calls: seq<Call>)
    requires Comparable(c, d)
    requires c.unlimited != d.unlimited ==> Evictions(Run(c, calls)) == 0
    ensures Twin(c, d, Run(c, calls), Run(d, calls))
  {
    if calls != [] {
      var front, call := calls[..|calls| - 1], calls[|calls| - 1];
      StepCounts(c, Run(c, front), call);
      RunCoherent(c, front);
      RunCoherent(d, front);
      RunTwin(c, d, front);
      hide Twin, Coherent, Step;
      StepTwin(c, d, Run(c, front), Run(d, front), call);
    }
  }

  // ----- the three comparisons

  /** Write-through and write-back keep the same objects, tiers and memory order, and
      write-through spends two offload writes for each one of write-back plus one for each block
      still in memory; bypassing blocks are written once under either policy. */
  lemma {:induction false} WriteThroughCostsTwice(through: Config, back: Config, calls: seq<Call>)
    requires !through.partition.PerRank? && through.enableOffload && through.unlimited
    requires through.demote.Always? && through.write.WriteThrough? && back == through.(write := WriteBack)
    ensures var a, b := Run(through, calls), Run(back, calls);
            && a.objects == b.objects && a.memoryLru == b.memoryLru
            && a.stats.writes.ssdWrites
               == 2 * b.stats.writes.ssdWrites + |a.memoryLru| - a.stats.writes.bypasses
            && (through.lruEviction && through.memoryCapacity >= 1 ==> a.stats.writes.bypasses == 0)
  {
    RunTwin(through, back, calls);
    RunBalanced(through, calls);
    RunBalanced(back, calls);
  }

  /** The blocks a spacious store bypassed are the keys put beyond what an unevictable memory holds. */
  lemma {:induction false} BypassesAre(back: Config, calls: seq<Call>)
    requires Spacious(back) && back.demote.Always?
    ensures var ever := |KeysPut(back, calls)|;
            Run(back, calls).stats.writes.bypasses
            == if Evicts(back) || ever <= MemoryCapacity(back) then 0 else ever - MemoryCapacity(back)
  {
    var b := Run(back, calls);
    RunShape(back, calls);
    RunBalanced(back, calls);
    RunCoherent(back, calls);
    LruFills(back, b, KeysPut(back, calls));
    assert |b.objects| == |b.objects.Keys|;
    hide Run, Coherent, KeysPut, SourceShape;
  }

  /** So "twice the write-back writes plus the resident blocks" is exact for those runs alone in which
      the memory tier can evict or all keys put fit in it. */
  lemma {:induction false} WriteThroughHalvesIff(through: Config, back: Config, calls: seq<Call>)
    requires !through.partition.PerRank? && through.enableOffload && through.unlimited
    requires through.demote.Always? && through.write.WriteThrough? && back == through.(write := WriteBack)
    ensures var a, b := Run(through, calls), Run(back, calls);
            a.stats.writes.ssdWrites == 2 * b.stats.writes.ssdWrites + |a.memoryLru|
            <==> Evicts(through) || |KeysPut(through, calls)| <= MemoryCapacity(through)
  {
    WriteThroughCostsTwice(through, back, calls);
    RunTwin(through, back, calls);
    BypassesAre(back, calls);
    SameKeysPut(through, back, calls);
  }

  /** The shortest run outside them: a memory of no blocks and one put. */
  lemma {:induction false} BypassBreaksHalving(through: Config, back: Config, key: PoolKey)
    requires !through.partition.PerRank? && through.enableOffload && through.unlimited && through.admitAlways
    requires through.demote.Always? && through.write.WriteThrough? && back == through.(write := WriteBack)
    requires through.memoryCapacity == 0
    ensures var calls := [PutCall([key])];
            Run(through, calls).stats.writes.ssdWrites
            != 2 * Run(back, calls).stats.writes.ssdWrites + |Run(through, calls).memoryLru|
  {
    var calls := [PutCall([key])];
    assert KeysPut(through, calls) == {key} by {
      assert calls[..0] == [];
      assert KeySet([key]) == {key} && {} + {key} == {key};
    }
    WriteThroughHalvesIff(through, back, calls);
  }

  /** A finite tier that never had to evict behaved as an unlimited one: same state, same
      ordinary counters. */
  lemma {:induction false} FiniteTierUnnoticed(finite: Config, unlimited: Config, calls: seq<Call>)
    requires !finite.partition.PerRank? && !finite.unlimited && unlimited == finite.(unlimited := true)
    requires TierAt(Run(finite, calls), 0).evictions == 0
    ensures var a, b := Run(finite, calls), Run(unlimited, calls);
            a == b.(ranks := a.ranks, stats := b.stats.(ranks := a.stats.ranks))
  {
    RunTwin(finite, unlimited, calls);
  }

  /** Counting evictions by rank changes nothing but those counts, evictions or not. */
  lemma {:induction false} CountingRanksIsInert(count: Config, global: Config, calls: seq<Call>)
    requires count.partition.Count? && global == count.(partition := Global)
    ensures var a, b := Run(count, calls), Run(global, calls);
            a == b.(ranks := a.ranks, stats := b.stats.(ranks := a.stats.ranks))
  {
    RunTwin(count, global, calls);
  }
}

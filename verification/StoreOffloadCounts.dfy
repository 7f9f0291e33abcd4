/** The offload tier's eviction counter, and where write-back objects live: on one tier each. */
module StoreOffloadCounts {
  import opened Containers
  import opened Keys
  import opened OffloadTiers
  import opened StoreModel
  import opened StoreInvariant
  import opened StoreProvenance
  import opened StoreLaws

  /** Under write-back the tier holds no copy of a memory object, and every key it has evicted has been
      counted. */
  ghost predicate OnePlaceEach(s: Store) {
    && (forall k :: k in TierAt(s, 0).held ==> k in s.objects && s.objects[k].place.Offload?)
    && s.stats.writes.ssdEvictions == TierAt(s, 0).evictions
  }

  predicate WritesBack(cfg: Config) {
    !cfg.partition.PerRank? && cfg.enableOffload && cfg.write.WriteBack?
  }

  lemma {:induction false} CountVictimsAll(s: Store, evicted: seq<PoolKey>, owner: PoolKey)
    requires forall k :: k in evicted ==> k in s.objects && k != owner
    ensures CountVictims(s, evicted, owner) == |evicted|
  {
    if evicted != [] {
      var front, last := evicted[..|evicted| - 1], evicted[|evicted| - 1];
      assert evicted == front + [last];
      assert last in evicted && forall k :: k in front ==> k in evicted;
      CountVictimsAll(s, front, owner);
    }
  }

  lemma {:induction false} CountVictimsSet(s: Store, evicted: seq<PoolKey>, owner: PoolKey)
    requires Distinct(evicted) && forall k :: k in evicted ==> k in s.objects
    ensures CountVictims(s, evicted, owner) == |KeySet(evicted) - {owner}|
  {
    if evicted == [] {
      assert KeySet(evicted) == {};
    } else {
      var front, last := evicted[..|evicted| - 1], evicted[|evicted| - 1];
      assert evicted == front + [last] && last !in front;
      CountVictimsSet(s, front, owner);
      KeySetSnoc(front, last, owner);
      hide KeySet, Distinct;
    }
  }

  lemma {:induction false} KeySetSnoc(front: seq<PoolKey>, last: PoolKey, owner: PoolKey)
    requires last !in front
    ensures |KeySet(front + [last]) - {owner}| == |KeySet(front) - {owner}| + (if last == owner then 0 else 1)
  {
    var less := KeySet(front) - {owner};
    assert KeySet(front + [last]) - {owner} == if last == owner then less else less + {last};
  }

  /** An offload write counts as evicted the keys the tier no longer holds, its own never among them. */
  lemma {:induction false} WriteLosesCounted(cfg: Config, s: Store, key: PoolKey)
    requires !cfg.partition.PerRank? && cfg.enableOffload && TierCoherent(cfg, TierAt(s, 0))
    requires forall k :: k in TierAt(s, 0).held ==> k in s.objects
    ensures var (s1, op) := WriteTier(cfg, s, key);
            LosesCounted(s, SettleWrite(cfg, s1, op, key))
  {
    var (s1, op) := WriteTier(cfg, s, key);
    assert s1.objects == s.objects && s1.stats == s.stats by {
      hide TierWrite;
    }
    hide TierWrite, WriteTier, SettleWrite, TierCoherent, KeySet, CountVictims, DropVictims, EndsWith, TierAt, LosesCounted;
    WrittenTier(cfg, s, key);
    WrittenLast(cfg, TierAt(s, 0), key);
    EvictedListed(cfg, TierAt(s, 0), key);
    SettleVictims(cfg, s1, op, key);
    CountVictimsSet(s1, op.evictedKeys, key);
    LostCounted(s, SettleWrite(cfg, s1, op, key), op.evictedKeys, key);
  }

  lemma {:induction false} LostCounted(s: Store, s': Store, lost: seq<PoolKey>, key: PoolKey)
    requires forall k :: k in lost ==> k in TierAt(s, 0).held
    requires TierAt(s', 0).held == (TierAt(s, 0).held - KeySet(lost))[key := 1]
    requires s'.stats.writes.ssdEvictions - s.stats.writes.ssdEvictions == |KeySet(lost) - {key}|
    ensures LosesCounted(s, s')
  {
    hide TierAt;
    LostKeys(TierAt(s, 0), lost, key);
  }

  lemma {:induction false} LostKeys(t: Tier, lost: seq<PoolKey>, key: PoolKey)
    requires forall k :: k in lost ==> k in t.held
    ensures t.held.Keys - ((t.held - KeySet(lost))[key := 1]).Keys == KeySet(lost) - {key}
  {
  }

  lemma {:induction false} EvictedListed(cfg: Config, t: Tier, key: PoolKey)
    requires cfg.enableOffload && TierCoherent(cfg, t)
    ensures var (_, op) := TierWrite(t, OffloadCapacity(cfg), cfg.unlimited, key, 1);
            Distinct(op.evictedKeys) && forall k :: k in op.evictedKeys ==> k in t.held
  {
    var (_, op) := TierWrite(t, OffloadCapacity(cfg), cfg.unlimited, key, 1);
    WriteContract(t, OffloadCapacity(cfg), cfg.unlimited, key, 1);
    hide TierWrite;
    assert forall i :: 0 <= i < |op.evictedKeys| ==> op.evictedKeys[i] == t.lru[i];
  }

  ghost predicate LosesCounted(s: Store, s': Store) {
    s'.stats.writes.ssdEvictions - s.stats.writes.ssdEvictions
    == |TierAt(s, 0).held.Keys - TierAt(s', 0).held.Keys|
  }

  lemma {:induction false} SameTierLoses(s: Store, s': Store)
    requires s'.tiers == s.tiers && s'.stats.writes == s.stats.writes
    ensures LosesCounted(s, s')
  {
    assert TierAt(s, 0).held.Keys - TierAt(s, 0).held.Keys == {};
  }

  lemma {:induction false} LosesFrom(s: Store, s1: Store, s': Store)
    requires LosesCounted(s1, s') && s1.tiers == s.tiers && s1.stats.writes == s.stats.writes
    ensures LosesCounted(s, s')
  {
    assert TierAt(s1, 0) == TierAt(s, 0);
  }

  /** Under either write policy a memory eviction counts as offload evictions the keys the tier lost. */
  lemma {:induction false} EvictLosesCounted(cfg: Config, s: Store, admitter: nat)
    requires !cfg.partition.PerRank? && Consistent(cfg, s) && s.memoryLru != []
    ensures LosesCounted(s, EvictOldest(cfg, s, admitter))
  {
    ReleasedUnlisted(cfg, s, admitter);
    var s1 := ReleaseMemory(cfg, PopOldest(cfg, s, admitter), s.memoryLru[0], admitter);
    assert s1.tiers == s.tiers && s1.stats.writes == s.stats.writes;
    hide ReleaseMemory, PopOldest, Consistent, Displace, OffloadCoherent, LosesCounted;
    DisplaceLosesCounted(cfg, s1, s.memoryLru[0]);
    LosesFrom(s, s1, EvictOldest(cfg, s, admitter));
  }

  lemma {:induction false} DisplaceLosesCounted(cfg: Config, s: Store, key: PoolKey)
    requires !cfg.partition.PerRank? && Unlisted(s, key) && OffloadCoherent(cfg, s)
    ensures LosesCounted(s, Displace(cfg, s, key))
  {
    hide LosesCounted, TierCoherent;
    if cfg.enableOffload && !DropsOnEviction(cfg, s.objects[key]) {
      var s1 := SetPlace(CountDemoted(cfg, s, s.objects[key]), key, Offload);
      assert s1.tiers == s.tiers && s1.stats.writes == s.stats.writes && TierAt(s1, 0) == TierAt(s, 0);
      assert forall k :: k in TierAt(s1, 0).held ==> k in s1.objects;
      hide SetPlace, CountDemoted, WriteTier, SettleWrite, TierAt;
      WriteLosesCounted(cfg, s1, key);
      LosesFrom(s, s1, Displace(cfg, s, key));
    } else {
      SameTierLoses(s, Displace(cfg, s, key));
    }
  }

  lemma {:induction false} SettleVictims(cfg: Config, s: Store, op: Operation, key: PoolKey)
    ensures var s' := SettleWrite(cfg, s, op, key);
            && s'.tiers == s.tiers
            && s'.stats.writes.ssdEvictions == s.stats.writes.ssdEvictions + CountVictims(s, op.evictedKeys, key)
  {
    DropVictimsFrame(cfg, RecordOffloadWrite(s, op, key), op.evictedKeys, key);
    hide DropVictims, CountVictims;
  }

  /** A write of a key the tier does not hold evicts others only, all of them counted. */
  lemma {:induction false} WriteCounts(cfg: Config, s: Store, key: PoolKey)
    requires !cfg.partition.PerRank? && cfg.enableOffload && TierCoherent(cfg, TierAt(s, 0))
    requires key !in TierAt(s, 0).held
    requires forall k :: k in TierAt(s, 0).held ==> k in s.objects
    ensures var (s1, op) := WriteTier(cfg, s, key);
            var s', t, t' := SettleWrite(cfg, s1, op, key), TierAt(s, 0), TierAt(SettleWrite(cfg, s1, op, key), 0);
            && s'.stats.writes.ssdEvictions - s.stats.writes.ssdEvictions == t'.evictions - t.evictions
            && (forall k :: k in t'.held ==> k in t.held || k == key)
  {
    var t := TierAt(s, 0);
    var (t', op) := TierWrite(t, OffloadCapacity(cfg), cfg.unlimited, key, 1);
    TierWriteOne(cfg, t, key);
    var s1 := WriteTier(cfg, s, key).0;
    assert WriteTier(cfg, s, key).1 == op && s1.objects == s.objects && s1.stats == s.stats && TierAt(s1, 0) == t' by {
      hide TierWrite;
    }
    hide TierWrite, WriteTier, TierCoherent, SettleWrite, KeySet;
    SettleVictims(cfg, s1, op, key);
    CountVictimsAll(s1, op.evictedKeys, key);
    hide CountVictims;
    assert TierAt(SettleWrite(cfg, s1, op, key), 0) == t';
    assert forall k :: k in t'.held ==> k in t.held || k == key;
  }

  lemma {:induction false} SettledOnePlace(s: Store, s': Store, key: PoolKey)
    requires forall k :: k in TierAt(s, 0).held ==> k in s.objects && s.objects[k].place.Offload?
    requires s.stats.writes.ssdEvictions == TierAt(s, 0).evictions
    requires OthersStay(s, s', key) && key in s'.objects && s'.objects[key].place.Offload?
    requires s'.stats.writes.ssdEvictions - s.stats.writes.ssdEvictions == TierAt(s', 0).evictions - TierAt(s, 0).evictions
    requires forall k :: k in TierAt(s', 0).held ==> k in TierAt(s, 0).held || k == key
    ensures OnePlaceEach(s')
  {
    hide TierAt;
  }

  lemma {:induction false} DemoteOnePlace(cfg: Config, s: Store, key: PoolKey)
    requires WritesBack(cfg) && OnePlaceEach(s) && TierCoherent(cfg, TierAt(s, 0)) && Unlisted(s, key)
    requires !DropsOnEviction(cfg, s.objects[key])
    ensures OnePlaceEach(Displace(cfg, s, key))
  {
    var s1 := SetPlace(CountDemoted(cfg, s, s.objects[key]), key, Offload);
    assert TierAt(s1, 0) == TierAt(s, 0) && s1.stats.writes == s.stats.writes;
    assert key !in TierAt(s, 0).held;
    assert s1.objects == s.objects[key := s.objects[key].(place := Offload)];
    hide TierAt, CountDemoted, SetPlace, Unlisted, WriteTier, SettleWrite, TierCoherent, OthersStay, DropsOnEviction;
    WriteLaw(cfg, s1, key);
    WriteCounts(cfg, s1, key);
    hide OnePlaceEach;
    SettledOnePlace(s1, Displace(cfg, s, key), key);
  }

  lemma {:induction false} DropOnePlace(cfg: Config, s: Store, key: PoolKey)
    requires WritesBack(cfg) && OnePlaceEach(s) && Unlisted(s, key) && DropsOnEviction(cfg, s.objects[key])
    ensures OnePlaceEach(Displace(cfg, s, key))
  {
    assert key !in TierAt(s, 0).held;
    assert Displace(cfg, s, key) == Forget(cfg, CountDropped(s), key, IfReadDrop);
    hide Displace, Unlisted;
  }

  lemma {:induction false} ReleasedOnePlace(cfg: Config, s: Store, admitter: nat)
    requires WritesBack(cfg) && OnePlaceEach(s) && Consistent(cfg, s) && s.memoryLru != []
    ensures var s1 := ReleaseMemory(cfg, PopOldest(cfg, s, admitter), s.memoryLru[0], admitter);
            OnePlaceEach(s1) && TierCoherent(cfg, TierAt(s1, 0)) && Unlisted(s1, s.memoryLru[0])
  {
    ReleasedUnlisted(cfg, s, admitter);
    var s1 := ReleaseMemory(cfg, PopOldest(cfg, s, admitter), s.memoryLru[0], admitter);
    assert s1.tiers == s.tiers && s1.stats.writes == s.stats.writes;
    hide ReleaseMemory, PopOldest, Unlisted, TierCoherent;
  }

  lemma {:induction false} EvictOnePlace(cfg: Config, s: Store, admitter: nat)
    requires WritesBack(cfg) && OnePlaceEach(s) && Consistent(cfg, s) && s.memoryLru != []
    ensures OnePlaceEach(EvictOldest(cfg, s, admitter))
  {
    ReleasedOnePlace(cfg, s, admitter);
    hide OnePlaceEach, ReleaseMemory, PopOldest, Consistent, OffloadCoherent, Displace, TierCoherent;
    var key := s.memoryLru[0];
    var s1 := ReleaseMemory(cfg, PopOldest(cfg, s, admitter), key, admitter);
    if DropsOnEviction(cfg, s1.objects[key]) {
      DropOnePlace(cfg, s1, key);
    } else {
      DemoteOnePlace(cfg, s1, key);
    }
  }

  lemma {:induction false} RoomOnePlace(cfg: Config, s: Store, rank: nat)
    requires WritesBack(cfg) && OnePlaceEach(s) && Coherent(cfg, s)
    ensures OnePlaceEach(EnsureRoom(cfg, s, rank).1)
  {
    EnsureRoomOnce(cfg, s, rank);
    CoherentConsistent(cfg, s);
    hide EnsureRoom, EvictOldest, Coherent, Consistent, OnePlaceEach;
    if 1 <= MemoryCapacity(cfg) <= |s.memoryLru| && cfg.lruEviction {
      EvictOnePlace(cfg, s, rank);
    }
  }

  lemma {:induction false} AdmitOnePlace(cfg: Config, s: Store, key: PoolKey)
    requires WritesBack(cfg) && OnePlaceEach(s) && key !in s.objects
    ensures OnePlaceEach(AdmitToMemory(cfg, s, key))
  {
    var s0 := EnterMemory(cfg, s, key);
    assert s0.tiers == s.tiers && s0.stats == s.stats && s0.objects == s.objects[key := Object(Memory, 0, 0)];
    hide EnterMemory;
    var s1 := CountSource(cfg, s0, key);
    assert s1.tiers == s.tiers && s1.stats.writes == s.stats.writes && s1.objects == s0.objects;
    hide CountSource;
  }

  lemma {:induction false} BypassOnePlace(cfg: Config, s: Store, key: PoolKey)
    requires WritesBack(cfg) && OnePlaceEach(s) && Coherent(cfg, s) && key !in s.objects
    ensures OnePlaceEach(BypassMemory(cfg, s, key))
  {
    TierOk(cfg, s, key);
    WriteSettles(cfg, s, key);
    WriteLaw(cfg, s, key);
    WriteCounts(cfg, s, key);
    var (s1, op) := WriteTier(cfg, s, key);
    var s2, s' := SettleWrite(cfg, s1, op, key), BypassMemory(cfg, s, key);
    assert s'.tiers == s2.tiers && s'.stats.writes.ssdEvictions == s2.stats.writes.ssdEvictions;
    assert s'.objects == s2.objects[key := Object(Offload, 0, 0)];
    hide Coherent, WriteTier, SettleWrite, BypassMemory, TierCoherent, TablesAgreeBut, EndsWith;
    assert TierAt(s', 0) == TierAt(s2, 0);
    BypassedOthers(s, s2, s', key);
    hide OthersStay, TierAt;
    SettledOnePlace(s, s', key);
  }

  lemma {:induction false} BypassedOthers(s: Store, s2: Store, s': Store, key: PoolKey)
    requires OthersStay(s, s2, key) && s'.objects == s2.objects[key := Object(Offload, 0, 0)]
    requires TierAt(s', 0) == TierAt(s2, 0)
    ensures OthersStay(s, s', key)
  {
    hide TierAt;
  }

  lemma {:induction false} TouchOnePlace(cfg: Config, s: Store, key: PoolKey)
    requires OnePlaceEach(s) && key in s.objects
    ensures OnePlaceEach(Touch(cfg, s, key))
  {
    hide MoveToEnd;
  }

  lemma {:induction false} PutOneOnePlace(cfg: Config, s: Store, key: PoolKey)
    requires WritesBack(cfg) && OnePlaceEach(s) && Coherent(cfg, s)
    ensures OnePlaceEach(PutOne(cfg, s, key))
  {
    if key in s.objects {
      TouchOnePlace(cfg, s, key);
    } else {
      var s1 := AssignRank(cfg, s, key);
      AssignedSame(cfg, s, key);
      BookkeepingCoherent(cfg, s, s1);
      assert OnePlaceEach(s1);
      var rank := RankIndex(s1, key);
      hide OnePlaceEach, Coherent, AssignRank, EnsureRoom, AdmitToMemory, BypassMemory, KeepCounts;
      RoomOnePlace(cfg, s1, rank);
      RoomMeans(cfg, s1, rank);
      var (admitted, s2) := EnsureRoom(cfg, s1, rank);
      KeptAbsent(s1, s2, key);
      if admitted {
        AdmitOnePlace(cfg, s2, key);
      } else {
        BypassOnePlace(cfg, s2, key);
      }
    }
  }

  lemma {:induction false} PutKeysOnePlace(cfg: Config, s: Store, keys: seq<PoolKey>)
    requires WritesBack(cfg) && OnePlaceEach(s) && Coherent(cfg, s)
    ensures OnePlaceEach(PutKeys(cfg, s, keys))
  {
    hide OnePlaceEach, Coherent, PutOne;
    if keys != [] {
      var front := keys[..|keys| - 1];
      PutKeysOnePlace(cfg, s, front);
      PutKeysCoherent(cfg, s, front);
      PutOneOnePlace(cfg, PutKeys(cfg, s, front), keys[|keys| - 1]);
    }
  }

  lemma {:induction false} SamePlacesOnePlace(s: Store, s': Store)
    requires OnePlaceEach(s) && SamePlaces(s, s') && TierAt(s', 0).held == TierAt(s, 0).held
    requires TierAt(s', 0).evictions == TierAt(s, 0).evictions
    ensures OnePlaceEach(s')
  {
    hide TierAt;
    assert forall k :: k in s'.objects <==> k in s'.objects.Keys;
    assert forall k :: k in s.objects <==> k in s.objects.Keys;
  }

  lemma {:induction false} ReadOnePlace(cfg: Config, s: Store, call: Call)
    requires WritesBack(cfg) && OnePlaceEach(s) && Coherent(cfg, s) && !call.PutCall?
    ensures OnePlaceEach(Step(cfg, s, call))
  {
    assert !s.failed;
    if call.GetCall? {
      var s1 := CountGet(s);
      BookkeepingCoherent(cfg, s, s1);
      assert OnePlaceEach(s1);
      hide OnePlaceEach, Coherent, GetKeys, SamePlaces, CountGet, ReadAll, TierKeys, MemoryKeys, Refreshed;
      if call.keys != [] {
        GetKeysFrame(cfg, s1, call.keys);
        GetAllMeans(cfg, s1, call.keys);
        SamePlacesOnePlace(s1, GetKeys(cfg, s1, call.keys));
      }
    } else {
      CreditReadsFrame(s, call.keys[..HitLength(cfg, s, call.keys)]);
      hide HitLength, CreditReads, Coherent, AnyOffload;
    }
  }

  /** Over every run of a write-back store an object is on one tier only, and the counter of offload
      evictions is the number of keys the tier has evicted. */
  lemma {:induction false} RunOnePlaceEach(cfg: Config, calls: seq<Call>)
    requires WritesBack(cfg)
    ensures OnePlaceEach(Run(cfg, calls))
  {
    hide OnePlaceEach, Coherent, Step;
    if calls == [] {
      assert OnePlaceEach(EMPTY_STORE) by { EmptyOnePlace(); }
    } else {
      var front, call := calls[..|calls| - 1], calls[|calls| - 1];
      RunOnePlaceEach(cfg, front);
      RunCoherent(cfg, front);
      if call.PutCall? {
        PutOnePlace(cfg, Run(cfg, front), call.keys);
      } else {
        ReadOnePlace(cfg, Run(cfg, front), call);
      }
    }
  }

  lemma {:induction false} PutOnePlace(cfg: Config, s: Store, keys: seq<PoolKey>)
    requires WritesBack(cfg) && OnePlaceEach(s) && Coherent(cfg, s)
    ensures OnePlaceEach(Step(cfg, s, PutCall(keys)))
  {
    assert !s.failed;
    BookkeepingCoherent(cfg, s, CountPut(s));
    assert OnePlaceEach(CountPut(s)) && OnePlaceEach(CountRejections(s, |keys|));
    hide OnePlaceEach, Coherent, PutKeys, CountPut, CountRejections;
    if cfg.admitAlways && keys != [] {
      PutKeysOnePlace(cfg, CountPut(s), keys);
    }
  }

  lemma {:induction false} EmptyOnePlace()
    ensures OnePlaceEach(EMPTY_STORE)
  {
  }
}

/** Coherence of the two tiers in every reachable state of an unpartitioned (or merely
    counted) store; the per-rank store is reduced to this one in StorePartition. */
module StoreInvariant {
  import opened Containers
  import opened Keys
  import opened OffloadTiers
  import opened StoreModel

  ghost predicate MemoryCoherent(s: Store) {
    && Distinct(s.memoryLru)
    && (forall k :: k in s.memoryLru <==> k in s.objects && s.objects[k].place.Memory?)
    && s.memoryUsed == |s.memoryLru|
  }

  ghost predicate TierCoherent(cfg: Config, t: Tier) {
    && ValidTier(t)
    && (forall k :: k in t.held ==> t.held[k] == 1)
    && (!cfg.unlimited ==> t.usedBlocks <= OffloadCapacity(cfg))
  }

  /** The offload tier and the object table agree, except perhaps about `key`. */
  ghost predicate TablesAgreeBut(s: Store, key: PoolKey) {
    var held := TierAt(s, 0).held;
    && (forall k :: k in held && k != key ==> k in s.objects)
    && (forall k :: k in s.objects && s.objects[k].place.Offload? && k != key ==> k in held)
  }

  ghost predicate TablesAgree(s: Store) {
    var held := TierAt(s, 0).held;
    && (forall k :: k in held ==> k in s.objects)
    && (forall k :: k in s.objects && s.objects[k].place.Offload? ==> k in held)
  }

  ghost predicate OffloadCoherent(cfg: Config, s: Store) {
    && (cfg.enableOffload ==> TierCoherent(cfg, TierAt(s, 0)) && TablesAgree(s))
    && (!cfg.enableOffload ==> forall k :: k in s.objects ==> s.objects[k].place.Memory?)
  }

  ghost predicate Coherent(cfg: Config, s: Store) {
    && !s.failed
    && MemoryCoherent(s)
    && |s.memoryLru| <= MemoryCapacity(cfg)
    && OffloadCoherent(cfg, s)
  }

  // ----- offload writes

  lemma {:induction false} TierWriteOne(cfg: Config, t: Tier, key: PoolKey)
    requires cfg.enableOffload && TierCoherent(cfg, t)
    ensures var (t', op) := TierWrite(t, OffloadCapacity(cfg), cfg.unlimited, key, 1);
            && TierCoherent(cfg, t')
            && op.blocks == 1
            && t'.held == (t.held - KeySet(op.evictedKeys))[key := 1]
            && (forall k :: k in op.evictedKeys ==> k in t.held)
            && t'.evictions == t.evictions + |op.evictedKeys|
  {
    WriteContract(t, OffloadCapacity(cfg), cfg.unlimited, key, 1);
    WriteValid(t, OffloadCapacity(cfg), cfg.unlimited, key, 1);
    var (t', op) := TierWrite(t, OffloadCapacity(cfg), cfg.unlimited, key, 1);
    forall k | k in op.evictedKeys ensures k in t.held {
      assert k in t.lru;
    }
  }

  lemma {:induction false} DropVictimsObjects(cfg: Config, s: Store, evicted: seq<PoolKey>, owner: PoolKey)
    ensures var s' := DropVictims(cfg, s, evicted, owner);
            && (forall k :: k in s'.objects
                  <==> k in s.objects && !(k in evicted && k != owner && s.objects[k].place.Offload?))
            && (forall k :: k in s'.objects ==> s'.objects[k] == s.objects[k])
  {
    if evicted != [] {
      var front, last := evicted[..|evicted| - 1], evicted[|evicted| - 1];
      assert forall k :: k in evicted <==> k in front || k == last;
      DropVictimsObjects(cfg, s, front, owner);
    }
  }

  /** Writing `key` to the offload tier and settling the victims keeps everything coherent but
      for `key` itself, which the tier then holds. Only offload objects are ever forgotten. */
  lemma {:induction false} WriteSettles(cfg: Config, s: Store, key: PoolKey)
    requires cfg.enableOffload && !cfg.partition.PerRank?
    requires TierCoherent(cfg, TierAt(s, 0)) && TablesAgreeBut(s, key)
    ensures var (s1, op) := WriteTier(cfg, s, key);
            var s' := SettleWrite(cfg, s1, op, key);
            && TierCoherent(cfg, TierAt(s', 0)) && TablesAgreeBut(s', key)
            && key in TierAt(s', 0).held
            && op.blocks == 1
            && (key !in TierAt(s, 0).held ==> key !in op.evictedKeys)
            && s' == s.(objects := s'.objects, departed := s'.departed, tiers := s'.tiers, stats := s'.stats)
            && (forall k :: k in s'.objects ==> k in s.objects && s'.objects[k] == s.objects[k])
            && (forall k :: k in s.objects && (s.objects[k].place.Memory? || k == key) ==> k in s'.objects)
  {
    TierWriteOne(cfg, TierAt(s, 0), key);
    var (s1, op) := WriteTier(cfg, s, key);
    var s2 := RecordOffloadWrite(s1, op, key);
    DropVictimsObjects(cfg, s2, op.evictedKeys, key);
    DropVictimsFrame(cfg, s2, op.evictedKeys, key);
  }

  lemma {:induction false} MemoryCoherentFrame(s: Store, s': Store)
    requires MemoryCoherent(s)
    requires s'.memoryLru == s.memoryLru && s'.memoryUsed == s.memoryUsed
    requires forall k :: k in s'.objects && s'.objects[k].place.Memory?
                         <==> k in s.objects && s.objects[k].place.Memory?
    ensures MemoryCoherent(s')
  {
  }

  // ----- memory eviction

  /** Everything but the capacity bound, which eviction restores. */
  ghost predicate Consistent(cfg: Config, s: Store) {
    !s.failed && MemoryCoherent(s) && OffloadCoherent(cfg, s)
  }

  lemma {:induction false} PopAndRelease(cfg: Config, s: Store, admitter: nat)
    requires !cfg.partition.PerRank? && MemoryCoherent(s) && s.memoryLru != []
    ensures var key := s.memoryLru[0];
            && key in s.objects && s.objects[key].place.Memory?
            && var s2 := ReleaseMemory(cfg, PopOldest(cfg, s, admitter), key, admitter);
               && EvictOldest(cfg, s, admitter) == Displace(cfg, s2, key)
               && s2 == s.(memoryLru := s.memoryLru[1..], memoryUsed := s.memoryUsed - 1, ranks := s2.ranks, stats := s2.stats)
               && Distinct(s2.memoryLru) && key !in s2.memoryLru
               && (forall k :: k in s2.memoryLru <==> k in s.memoryLru && k != key)
  {
    var key := s.memoryLru[0];
    assert key in s.memoryLru;
    assert s.memoryLru == [key] + s.memoryLru[1..];
  }

  /** An object taken off the memory order but still marked as a memory object. */
  ghost predicate Unlisted(s: Store, key: PoolKey) {
    && key in s.objects && s.objects[key].place.Memory?
    && Distinct(s.memoryLru) && key !in s.memoryLru
    && (forall k :: k in s.memoryLru <==> k in s.objects && s.objects[k].place.Memory? && k != key)
    && s.memoryUsed == |s.memoryLru|
  }

  lemma {:induction false} DemoteConsistent(cfg: Config, s: Store, key: PoolKey)
    requires !cfg.partition.PerRank? && cfg.enableOffload && !s.failed && Unlisted(s, key) && OffloadCoherent(cfg, s)
    ensures var s1 := SetPlace(CountDemoted(cfg, s, s.objects[key]), key, Offload);
            var (s2, op) := WriteTier(cfg, s1, key);
            var s' := SettleWrite(cfg, s2, op, key);
            Consistent(cfg, s') && (forall k :: k in s'.objects ==> k in s.objects)
  {
    var s1 := SetPlace(CountDemoted(cfg, s, s.objects[key]), key, Offload);
    assert MemoryCoherent(s1);
    WriteSettles(cfg, s1, key);
    var (s2, op) := WriteTier(cfg, s1, key);
    MemoryCoherentFrame(s1, SettleWrite(cfg, s2, op, key));
  }

  lemma {:induction false} DisplaceConsistent(cfg: Config, s: Store, key: PoolKey)
    requires !cfg.partition.PerRank? && !s.failed && Unlisted(s, key) && OffloadCoherent(cfg, s)
    ensures var s' := Displace(cfg, s, key);
            Consistent(cfg, s') && (forall k :: k in s'.objects ==> k in s.objects)
  {
    if cfg.enableOffload && !DropsOnEviction(cfg, s.objects[key]) {
      DemoteConsistent(cfg, s, key);
    }
  }

  lemma {:induction false} ReleasedUnlisted(cfg: Config, s: Store, admitter: nat)
    requires !cfg.partition.PerRank? && Consistent(cfg, s) && s.memoryLru != []
    ensures var key := s.memoryLru[0];
            var s1 := PopOldest(cfg, s, admitter);
            && key in s.objects
            && var s2 := ReleaseMemory(cfg, s1, key, admitter);
               && EvictOldest(cfg, s, admitter) == Displace(cfg, s2, key)
               && Unlisted(s2, key) && OffloadCoherent(cfg, s2) && !s2.failed
               && s2.objects == s.objects && s1.stats == s.stats
  {
    PopAndRelease(cfg, s, admitter);
  }

  lemma {:induction false} EvictOldestConsistent(cfg: Config, s: Store, admitter: nat)
    requires !cfg.partition.PerRank? && Consistent(cfg, s) && s.memoryLru != []
    ensures var s' := EvictOldest(cfg, s, admitter);
            && Consistent(cfg, s')
            && s'.memoryLru == s.memoryLru[1..]
            && (forall k :: k in s'.objects ==> k in s.objects)
  {
    ReleasedUnlisted(cfg, s, admitter);
    EvictOldestShrinks(cfg, s, admitter);
    var key := s.memoryLru[0];
    DisplaceConsistent(cfg, ReleaseMemory(cfg, PopOldest(cfg, s, admitter), key, admitter), key);
  }

  /** With one block per object the eviction loop of a coherent store runs at most once. */
  lemma {:induction false} EnsureRoomOnce(cfg: Config, s: Store, rank: nat)
    requires !cfg.partition.PerRank? && Coherent(cfg, s)
    ensures EnsureRoom(cfg, s, rank)
         == if 1 > MemoryCapacity(cfg) then (false, s)
            else if |s.memoryLru| < MemoryCapacity(cfg) then (true, s)
            else if !cfg.lruEviction then (false, s)
            else (true, EvictOldest(cfg, s, rank))
    ensures |s.memoryLru| >= MemoryCapacity(cfg) >= 1 ==> s.memoryLru != []
  {
    if 1 <= MemoryCapacity(cfg) <= |s.memoryLru| && cfg.lruEviction {
      EvictOldestConsistent(cfg, s, rank);
      var s' := EvictOldest(cfg, s, rank);
      assert EnsureRoom(cfg, s', rank) == (true, s');
    }
  }

  lemma {:induction false} EnsureRoomCoherent(cfg: Config, s: Store, rank: nat)
    requires !cfg.partition.PerRank? && Coherent(cfg, s)
    ensures var (ok, s') := EnsureRoom(cfg, s, rank);
            && Coherent(cfg, s')
            && (ok ==> |s'.memoryLru| < MemoryCapacity(cfg))
            && (forall k :: k in s'.objects ==> k in s.objects)
  {
    EnsureRoomOnce(cfg, s, rank);
    if 1 <= MemoryCapacity(cfg) <= |s.memoryLru| && cfg.lruEviction {
      EvictOldestConsistent(cfg, s, rank);
    }
  }

  // ----- the calls

  lemma {:induction false} TouchCoherent(cfg: Config, s: Store, key: PoolKey)
    requires !cfg.partition.PerRank? && Coherent(cfg, s) && key in s.objects
    ensures Coherent(cfg, Touch(cfg, s, key))
  {
    if s.objects[key].place.Memory? {
      MoveToEndDistinct(s.memoryLru, key);
    }
  }

  lemma {:induction false} EnterMemoryCoherent(cfg: Config, s: Store, key: PoolKey)
    requires !cfg.partition.PerRank? && Coherent(cfg, s)
    requires key !in s.objects && |s.memoryLru| < MemoryCapacity(cfg)
    ensures Coherent(cfg, EnterMemory(cfg, s, key))
  {
    assert key !in s.memoryLru;
  }

  lemma {:induction false} BookkeepingCoherent(cfg: Config, s: Store, s': Store)
    requires Coherent(cfg, s)
    requires s' == s.(ranks := s'.ranks, seen := s'.seen, departed := s'.departed, stats := s'.stats)
    ensures Coherent(cfg, s')
  {
  }

  lemma {:induction false} AdmitCoherent(cfg: Config, s: Store, key: PoolKey)
    requires !cfg.partition.PerRank? && Coherent(cfg, s)
    requires key !in s.objects && |s.memoryLru| < MemoryCapacity(cfg)
    ensures Coherent(cfg, AdmitToMemory(cfg, s, key))
  {
    EnterMemoryCoherent(cfg, s, key);
    var s1 := CountAdmission(CountSource(cfg, EnterMemory(cfg, s, key), key));
    BookkeepingCoherent(cfg, EnterMemory(cfg, s, key), s1);
    if cfg.enableOffload && cfg.write.WriteThrough? {
      assert key !in TierAt(s1, 0).held;
      WriteThroughCoherent(cfg, s1, key);
    }
  }

  lemma {:induction false} WriteThroughCoherent(cfg: Config, s: Store, key: PoolKey)
    requires !cfg.partition.PerRank? && cfg.enableOffload && Coherent(cfg, s)
    requires key in s.objects && key !in TierAt(s, 0).held
    ensures var (s1, op) := WriteTier(cfg, s, key);
            key !in op.evictedKeys && Coherent(cfg, SettleWrite(cfg, s1, op, key))
  {
    WriteSettles(cfg, s, key);
    var (s1, op) := WriteTier(cfg, s, key);
    MemoryCoherentFrame(s, SettleWrite(cfg, s1, op, key));
  }

  lemma {:induction false} NewOffloadObjectCoherent(cfg: Config, s: Store, s': Store, key: PoolKey)
    requires cfg.enableOffload && !s.failed && MemoryCoherent(s) && |s.memoryLru| <= MemoryCapacity(cfg)
    requires TierCoherent(cfg, TierAt(s, 0)) && TablesAgreeBut(s, key)
    requires key !in s.objects && key in TierAt(s, 0).held
    requires s' == s.(objects := s.objects[key := Object(Offload, 0, 0)], seen := s'.seen, stats := s'.stats)
    ensures Coherent(cfg, s')
  {
  }

  lemma {:induction false} BypassCoherent(cfg: Config, s: Store, key: PoolKey)
    requires !cfg.partition.PerRank? && Coherent(cfg, s) && key !in s.objects
    ensures Coherent(cfg, BypassMemory(cfg, s, key))
  {
    if cfg.enableOffload {
      WriteSettles(cfg, s, key);
      var (s1, op) := WriteTier(cfg, s, key);
      var s2 := SettleWrite(cfg, s1, op, key);
      MemoryCoherentFrame(s, s2);
      NewOffloadObjectCoherent(cfg, s2, BypassMemory(cfg, s, key), key);
    } else {
      BookkeepingCoherent(cfg, s, BypassMemory(cfg, s, key));
    }
  }

  lemma {:induction false} PutOneCoherent(cfg: Config, s: Store, key: PoolKey)
    requires !cfg.partition.PerRank? && Coherent(cfg, s)
    ensures Coherent(cfg, PutOne(cfg, s, key))
  {
    if key in s.objects {
      TouchCoherent(cfg, s, key);
    } else {
      var s1 := AssignRank(cfg, s, key);
      BookkeepingCoherent(cfg, s, s1);
      EnsureRoomCoherent(cfg, s1, RankIndex(s1, key));
      var (admitted, s2) := EnsureRoom(cfg, s1, RankIndex(s1, key));
      if admitted {
        AdmitCoherent(cfg, s2, key);
      } else {
        BypassCoherent(cfg, s2, key);
      }
    }
  }

  lemma {:induction false} PutKeysCoherent(cfg: Config, s: Store, keys: seq<PoolKey>)
    requires !cfg.partition.PerRank? && Coherent(cfg, s)
    ensures Coherent(cfg, PutKeys(cfg, s, keys))
  {
    if keys != [] {
      PutKeysCoherent(cfg, s, keys[..|keys| - 1]);
      PutOneCoherent(cfg, PutKeys(cfg, s, keys[..|keys| - 1]), keys[|keys| - 1]);
    }
  }

  lemma {:induction false} ServeOffloadCoherent(cfg: Config, s: Store, key: PoolKey)
    requires !cfg.partition.PerRank? && Coherent(cfg, s) && cfg.enableOffload
    ensures Coherent(cfg, ServeOffload(cfg, s, key))
  {
    ReadValid(TierAt(s, 0), key);
  }

  lemma {:induction false} ObjectUpdateCoherent(cfg: Config, s: Store, s': Store)
    requires Coherent(cfg, s)
    requires s' == s.(objects := s'.objects, stats := s'.stats)
    requires s'.objects.Keys == s.objects.Keys
    requires forall k :: k in s.objects ==> s'.objects[k].place == s.objects[k].place
    ensures Coherent(cfg, s')
  {
  }

  lemma {:induction false} ReadUpdates(cfg: Config, s: Store, key: PoolKey)
    requires !cfg.partition.PerRank? && Coherent(cfg, s) && key in s.objects
    ensures Coherent(cfg, CreditServe(cfg, s, key)) && Coherent(cfg, ServeMemory(s, key))
    ensures key in CreditServe(cfg, s, key).objects
  {
    hide Coherent;
    ObjectUpdateCoherent(cfg, s, CreditServe(cfg, s, key));
    ObjectUpdateCoherent(cfg, s, ServeMemory(s, key));
  }

  lemma {:induction false} GetOneCoherent(cfg: Config, s: Store, key: PoolKey)
    requires !cfg.partition.PerRank? && Coherent(cfg, s)
    ensures Coherent(cfg, GetOne(cfg, s, key))
  {
    if key in s.objects {
      TouchCoherent(cfg, s, key);
      hide Coherent, CreditServe, ServeMemory, ServeOffload;
      var s0 := Touch(cfg, s, key);
      assert key in s0.objects;
      hide Touch;
      ReadUpdates(cfg, s0, key);
      var s1 := CreditServe(cfg, s0, key);
      ReadUpdates(cfg, s1, key);
      if cfg.enableOffload {
        ServeOffloadCoherent(cfg, s1, key);
      }
    }
  }

  lemma {:induction false} GetKeysCoherent(cfg: Config, s: Store, keys: seq<PoolKey>)
    requires !cfg.partition.PerRank? && Coherent(cfg, s)
    ensures Coherent(cfg, GetKeys(cfg, s, keys))
  {
    if keys != [] {
      GetKeysCoherent(cfg, s, keys[..|keys| - 1]);
      GetOneCoherent(cfg, GetKeys(cfg, s, keys[..|keys| - 1]), keys[|keys| - 1]);
    }
  }

  lemma {:induction false} CreditReadsFrame(s: Store, keys: seq<PoolKey>)
    ensures var s' := CreditReads(s, keys);
            && s' == s.(objects := s'.objects)
            && s'.objects.Keys == s.objects.Keys
            && (forall k :: k in s.objects ==> s'.objects[k] == s.objects[k].(readCount := s'.objects[k].readCount)
                                               && s'.objects[k].readCount >= s.objects[k].readCount)
  {
    if keys != [] {
      CreditReadsFrame(s, keys[..|keys| - 1]);
    }
  }

  lemma {:induction false} LookupCoherent(cfg: Config, s: Store, keys: seq<PoolKey>)
    requires !cfg.partition.PerRank? && Coherent(cfg, s)
    ensures Coherent(cfg, Lookup(cfg, s, keys))
  {
    var n := HitLength(cfg, s, keys);
    if n > 0 && !cfg.creditOnServe {
      CreditReadsFrame(s, keys[..n]);
      ObjectUpdateCoherent(cfg, s, Lookup(cfg, s, keys));
    }
  }

  lemma {:induction false} StepCoherent(cfg: Config, s: Store, call: Call)
    requires !cfg.partition.PerRank? && Coherent(cfg, s)
    ensures Coherent(cfg, Step(cfg, s, call))
  {
    match call
    case PutCall(keys) =>
      PutKeysCoherent(cfg, CountPut(s), keys);
    case GetCall(keys) =>
      GetKeysCoherent(cfg, CountGet(s), keys);
    case LookupCall(keys) =>
      LookupCoherent(cfg, s, keys);
  }

  /** Every reachable state is coherent, finite offload tier included: the memory order lists
      exactly the memory objects, both tiers are within capacity with exact used counts, every
      offload key has an object, and every offload object is really held. */
  lemma {:induction false} RunCoherent(cfg: Config, calls: seq<Call>)
    requires !cfg.partition.PerRank?
    ensures Coherent(cfg, Run(cfg, calls))
  {
    if calls != [] {
      RunCoherent(cfg, calls[..|calls| - 1]);
      StepCoherent(cfg, Run(cfg, calls[..|calls| - 1]), calls[|calls| - 1]);
    }
  }

  /** The staleness test of lookup and of missing_indices never fires. */
  lemma {:induction false} StalenessNeverFires(cfg: Config, calls: seq<Call>, key: PoolKey)
    requires !cfg.partition.PerRank?
    ensures Present(cfg, Run(cfg, calls), key) <==> key in Run(cfg, calls).objects
  {
    RunCoherent(cfg, calls);
  }

  lemma {:induction false} TierUsedIsCount(cfg: Config, t: Tier)
    requires TierCoherent(cfg, t)
    ensures t.usedBlocks == |t.lru|
  {
    SumHeldOnes(t.held, t.lru);
  }
}

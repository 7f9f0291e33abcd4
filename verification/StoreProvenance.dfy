/** Why keys leave and re-enter the store, and what a read credit means: the admission-source
    counters and the read gate, over any run of an unpartitioned store. */
module StoreProvenance {
  import opened Containers
  import opened Keys
  import opened OffloadTiers
  import opened StoreModel
  import opened StoreInvariant
  import opened StoreIdentities

  // ----- admission sources

  function SourceTotal(n: SourceStats): int {
    n.first + n.afterDrop + n.afterHbf + n.afterOther
  }

  predicate DepartedBy(s: Store, key: PoolKey, why: Departure) {
    key in s.seen && key in s.departed && s.departed[key] == why
  }

  /** Counting an admission raises exactly one source counter: first for a key never seen, else the
      one its recorded departure names, else "other"; the key is then seen and its departure gone. */
  lemma {:induction false} CountSourceMeans(cfg: Config, s: Store, key: PoolKey)
    requires cfg.countSource
    ensures var s' := CountSource(cfg, s, key);
            var n, n' := s.stats.sources, s'.stats.sources;
            && SourceTotal(n') == SourceTotal(n) + 1
            && n'.first == n.first + (if key in s.seen then 0 else 1)
            && n'.afterDrop == n.afterDrop + (if DepartedBy(s, key, IfReadDrop) then 1 else 0)
            && n'.afterHbf == n.afterHbf + (if DepartedBy(s, key, HbfEvict) then 1 else 0)
            && s'.seen == s.seen + {key}
            && (key in s.seen ==> key !in s'.departed)
            && (forall k :: k != key ==> (k in s'.departed <==> k in s.departed))
  {
    assert key in s.seen ==> s.seen + {key} == s.seen;
  }

  /** Why a key can leave under a configuration at all. */
  predicate Possible(cfg: Config, why: Departure) {
    match why
    case IfReadDrop => cfg.enableOffload && cfg.demote.IfRead?
    case HbfEvict => cfg.enableOffload && !cfg.unlimited
    case OtherDeparture => !cfg.enableOffload
  }

  /** Every absent key that was once stored has a recorded departure, for a reason the configuration
      allows. */
  ghost predicate DeparturesKnown(cfg: Config, s: Store) {
    && (forall k :: k in s.objects ==> k in s.seen)
    && (forall k :: k in s.seen && k !in s.objects ==> k in s.departed)
    && (forall k :: k in s.departed ==> Possible(cfg, s.departed[k]))
  }

  ghost predicate SourcesKnown(cfg: Config, s: Store) {
    var n := s.stats.sources;
    && DeparturesKnown(cfg, s)
    && SourceTotal(n) == s.stats.writes.memoryWrites
    && (!Possible(cfg, OtherDeparture) ==> n.afterOther == 0)
    && (!Possible(cfg, IfReadDrop) ==> n.afterDrop == 0)
    && (!Possible(cfg, HbfEvict) ==> n.afterHbf == 0)
  }

  lemma {:induction false} DropVictimsDepartures(cfg: Config, s: Store, evicted: seq<PoolKey>, owner: PoolKey)
    requires cfg.countSource && DeparturesKnown(cfg, s) && (evicted != [] ==> Possible(cfg, HbfEvict))
    ensures DeparturesKnown(cfg, DropVictims(cfg, s, evicted, owner))
  {
    if evicted != [] {
      DropVictimsDepartures(cfg, s, evicted[..|evicted| - 1], owner);
      DropVictimsFrame(cfg, s, evicted[..|evicted| - 1], owner);
    }
  }

  lemma {:induction false} DisplaceDepartures(cfg: Config, s: Store, key: PoolKey)
    requires cfg.countSource && DeparturesKnown(cfg, s) && key in s.objects
    ensures DeparturesKnown(cfg, Displace(cfg, s, key))
    ensures Displace(cfg, s, key).stats.sources == s.stats.sources
    ensures Displace(cfg, s, key).stats.writes.memoryWrites == s.stats.writes.memoryWrites
  {
    if cfg.enableOffload && !DropsOnEviction(cfg, s.objects[key]) {
      var s1 := SetPlace(CountDemoted(cfg, s, s.objects[key]), key, Offload);
      var (s2, op) := WriteTier(cfg, s1, key);
      DropVictimsDepartures(cfg, RecordOffloadWrite(s2, op, key), op.evictedKeys, key);
      DropVictimsFrame(cfg, RecordOffloadWrite(s2, op, key), op.evictedKeys, key);
    }
  }

  lemma {:induction false} EvictOldestSources(cfg: Config, s: Store, admitter: nat)
    requires !cfg.partition.PerRank? && Consistent(cfg, s) && s.memoryLru != []
    requires cfg.countSource && SourcesKnown(cfg, s)
    ensures SourcesKnown(cfg, EvictOldest(cfg, s, admitter))
  {
    ReleasedUnlisted(cfg, s, admitter);
    var key := s.memoryLru[0];
    DisplaceDepartures(cfg, ReleaseMemory(cfg, PopOldest(cfg, s, admitter), key, admitter), key);
  }

  lemma {:induction false} SettleDepartures(cfg: Config, s: Store, key: PoolKey)
    requires cfg.countSource && cfg.enableOffload && DeparturesKnown(cfg, s)
    ensures var (s1, op) := WriteTier(cfg, s, key);
            var s' := SettleWrite(cfg, s1, op, key);
            && DeparturesKnown(cfg, s1) && DeparturesKnown(cfg, s')
            && s'.stats.sources == s.stats.sources == s1.stats.sources
            && s'.stats.writes.memoryWrites == s.stats.writes.memoryWrites == s1.stats.writes.memoryWrites
  {
    var (s1, op) := WriteTier(cfg, s, key);
    DropVictimsDepartures(cfg, RecordOffloadWrite(s1, op, key), op.evictedKeys, key);
    DropVictimsFrame(cfg, RecordOffloadWrite(s1, op, key), op.evictedKeys, key);
  }

  lemma {:induction false} EnterSources(cfg: Config, s: Store, key: PoolKey)
    requires cfg.countSource && SourcesKnown(cfg, s) && key !in s.objects
    ensures SourcesKnown(cfg, CountAdmission(CountSource(cfg, EnterMemory(cfg, s, key), key)))
  {
  }

  lemma {:induction false} AdmitSources(cfg: Config, s: Store, key: PoolKey)
    requires cfg.countSource && SourcesKnown(cfg, s) && key !in s.objects
    ensures SourcesKnown(cfg, AdmitToMemory(cfg, s, key))
  {
    var s1 := CountAdmission(CountSource(cfg, EnterMemory(cfg, s, key), key));
    EnterSources(cfg, s, key);
    if cfg.enableOffload && cfg.write.WriteThrough? {
      SettleDepartures(cfg, s1, key);
    }
  }

  lemma {:induction false} BypassSources(cfg: Config, s: Store, key: PoolKey)
    requires cfg.countSource && SourcesKnown(cfg, s) && key !in s.objects
    ensures SourcesKnown(cfg, BypassMemory(cfg, s, key))
  {
    if cfg.enableOffload {
      SettleDepartures(cfg, s, key);
    }
  }

  lemma {:induction false} PutOneSources(cfg: Config, s: Store, key: PoolKey)
    requires !cfg.partition.PerRank? && Coherent(cfg, s)
    requires cfg.countSource && SourcesKnown(cfg, s)
    ensures SourcesKnown(cfg, PutOne(cfg, s, key))
  {
    if key !in s.objects {
      var s1 := AssignRank(cfg, s, key);
      var rank := RankIndex(s1, key);
      BookkeepingCoherent(cfg, s, s1);
      EnsureRoomOnce(cfg, s1, rank);
      EnsureRoomCoherent(cfg, s1, rank);
      if 1 <= MemoryCapacity(cfg) <= |s1.memoryLru| && cfg.lruEviction {
        EvictOldestSources(cfg, s1, rank);
      }
      var (admitted, s2) := EnsureRoom(cfg, s1, rank);
      if admitted {
        AdmitSources(cfg, s2, key);
      } else {
        BypassSources(cfg, s2, key);
      }
    }
  }

  lemma {:induction false} PutKeysSources(cfg: Config, s: Store, keys: seq<PoolKey>)
    requires !cfg.partition.PerRank? && Coherent(cfg, s)
    requires cfg.countSource && SourcesKnown(cfg, s)
    ensures SourcesKnown(cfg, PutKeys(cfg, s, keys))
  {
    if keys != [] {
      PutKeysSources(cfg, s, keys[..|keys| - 1]);
      PutKeysCoherent(cfg, s, keys[..|keys| - 1]);
      PutOneSources(cfg, PutKeys(cfg, s, keys[..|keys| - 1]), keys[|keys| - 1]);
    }
  }

  /** Same keys on the same tiers, and only the call counters moved. */
  ghost predicate SamePlaces(s: Store, s': Store) {
    && s'.objects.Keys == s.objects.Keys
    && (forall k :: k in s.objects ==> s'.objects[k].place == s.objects[k].place)
    && s' == s.(objects := s'.objects, memoryLru := s'.memoryLru, tiers := s'.tiers, ranks := s'.ranks,
                stats := s.stats.(calls := s'.stats.calls))
  }

  lemma {:induction false} TouchFrame(cfg: Config, s: Store, key: PoolKey)
    requires key in s.objects
    ensures SamePlaces(s, CreditServe(cfg, Touch(cfg, s, key), key))
    ensures key in CreditServe(cfg, Touch(cfg, s, key), key).objects
  {
  }

  lemma {:induction false} ServeFrame(cfg: Config, s: Store, key: PoolKey)
    requires key in s.objects
    ensures SamePlaces(s, ServeOffload(cfg, s, key)) && SamePlaces(s, ServeMemory(s, key))
  {
  }

  lemma {:induction false} GetOneFrame(cfg: Config, s: Store, key: PoolKey)
    ensures SamePlaces(s, GetOne(cfg, s, key))
  {
    if key in s.objects {
      TouchFrame(cfg, s, key);
      ServeFrame(cfg, CreditServe(cfg, Touch(cfg, s, key), key), key);
    }
  }

  /** A get changes no key's presence or tier and no write counter. */
  lemma {:induction false} GetKeysFrame(cfg: Config, s: Store, keys: seq<PoolKey>)
    ensures SamePlaces(s, GetKeys(cfg, s, keys))
  {
    if keys != [] {
      GetKeysFrame(cfg, s, keys[..|keys| - 1]);
      GetOneFrame(cfg, GetKeys(cfg, s, keys[..|keys| - 1]), keys[|keys| - 1]);
    }
  }

  /** The four admission-source counters sum to the memory writes, and the three for keys that came back
      stay 0 where their reason cannot occur: "other" with an offload tier, "after a drop" without one or
      without if_read, "after an HBF eviction" without one or with an unlimited one. */
  lemma {:induction false} RunSourcesKnown(cfg: Config, calls: seq<Call>)
    requires !cfg.partition.PerRank? && cfg.countSource
    ensures SourcesKnown(cfg, Run(cfg, calls))
  {
    if calls != [] {
      var s, call := Run(cfg, calls[..|calls| - 1]), calls[|calls| - 1];
      RunSourcesKnown(cfg, calls[..|calls| - 1]);
      RunCoherent(cfg, calls[..|calls| - 1]);
      match call
      case PutCall(keys) => PutKeysSources(cfg, CountPut(s), keys);
      case GetCall(keys) => GetKeysFrame(cfg, CountGet(s), keys);
      case LookupCall(keys) => CreditReadsFrame(s, keys[..HitLength(cfg, s, keys)]);
    }
  }

  // ----- the read gate

  /** With credit on serve, what the gate sees of a memory object is what memory really served. */
  ghost predicate CreditsHonest(s: Store) {
    && (forall k :: k in s.objects && s.objects[k].place.Memory?
                    ==> s.objects[k].readCount == s.objects[k].pcmServedReads)
    && s.stats.evictions.gatePasses == s.stats.evictions.gatePassesServed
  }

  lemma {:induction false} HonestFrame(s: Store, s': Store)
    requires CreditsHonest(s)
    requires s'.stats.evictions == s.stats.evictions
    requires forall k :: k in s'.objects ==> k in s.objects && s'.objects[k] == s.objects[k]
    ensures CreditsHonest(s')
  {
  }

  lemma {:induction false} DisplaceHonest(cfg: Config, s: Store, key: PoolKey)
    requires CreditsHonest(s) && key in s.objects && s.objects[key].place.Memory?
    ensures CreditsHonest(Displace(cfg, s, key))
  {
    if cfg.enableOffload && !DropsOnEviction(cfg, s.objects[key]) {
      var s1 := SetPlace(CountDemoted(cfg, s, s.objects[key]), key, Offload);
      assert CreditsHonest(s1);
      SettleHonest(cfg, s1, key);
    }
  }

  lemma {:induction false} SettleHonest(cfg: Config, s: Store, key: PoolKey)
    requires CreditsHonest(s)
    ensures var (s1, op) := WriteTier(cfg, s, key);
            CreditsHonest(s1) && CreditsHonest(SettleWrite(cfg, s1, op, key))
  {
    var (s1, op) := WriteTier(cfg, s, key);
    DropVictimsObjects(cfg, RecordOffloadWrite(s1, op, key), op.evictedKeys, key);
    DropVictimsFrame(cfg, RecordOffloadWrite(s1, op, key), op.evictedKeys, key);
    HonestFrame(s, SettleWrite(cfg, s1, op, key));
  }

  lemma {:induction false} EvictOldestHonest(cfg: Config, s: Store, admitter: nat)
    requires !cfg.partition.PerRank? && Consistent(cfg, s) && s.memoryLru != [] && CreditsHonest(s)
    ensures CreditsHonest(EvictOldest(cfg, s, admitter))
  {
    ReleasedUnlisted(cfg, s, admitter);
    var key := s.memoryLru[0];
    DisplaceHonest(cfg, ReleaseMemory(cfg, PopOldest(cfg, s, admitter), key, admitter), key);
  }

  lemma {:induction false} EnterHonest(cfg: Config, s: Store, key: PoolKey)
    requires CreditsHonest(s)
    ensures CreditsHonest(CountAdmission(CountSource(cfg, EnterMemory(cfg, s, key), key)))
  {
  }

  lemma {:induction false} AdmitHonest(cfg: Config, s: Store, key: PoolKey)
    requires CreditsHonest(s)
    ensures CreditsHonest(AdmitToMemory(cfg, s, key)) && CreditsHonest(BypassMemory(cfg, s, key))
  {
    EnterHonest(cfg, s, key);
    SettleHonest(cfg, CountAdmission(CountSource(cfg, EnterMemory(cfg, s, key), key)), key);
    SettleHonest(cfg, s, key);
  }

  lemma {:induction false} PutOneHonest(cfg: Config, s: Store, key: PoolKey)
    requires !cfg.partition.PerRank? && Coherent(cfg, s) && CreditsHonest(s)
    ensures CreditsHonest(PutOne(cfg, s, key))
  {
    if key !in s.objects {
      var s1 := AssignRank(cfg, s, key);
      var rank := RankIndex(s1, key);
      BookkeepingCoherent(cfg, s, s1);
      EnsureRoomOnce(cfg, s1, rank);
      if 1 <= MemoryCapacity(cfg) <= |s1.memoryLru| && cfg.lruEviction {
        EvictOldestHonest(cfg, s1, rank);
      }
      AdmitHonest(cfg, EnsureRoom(cfg, s1, rank).1, key);
    }
  }

  lemma {:induction false} PutKeysHonest(cfg: Config, s: Store, keys: seq<PoolKey>)
    requires !cfg.partition.PerRank? && Coherent(cfg, s) && CreditsHonest(s)
    ensures CreditsHonest(PutKeys(cfg, s, keys))
  {
    if keys != [] {
      PutKeysHonest(cfg, s, keys[..|keys| - 1]);
      PutKeysCoherent(cfg, s, keys[..|keys| - 1]);
      PutOneHonest(cfg, PutKeys(cfg, s, keys[..|keys| - 1]), keys[|keys| - 1]);
    }
  }

  lemma {:induction false} GetKeysHonest(cfg: Config, s: Store, keys: seq<PoolKey>)
    requires cfg.creditOnServe && CreditsHonest(s)
    requires !cfg.partition.PerRank? && Coherent(cfg, s)
    ensures CreditsHonest(GetKeys(cfg, s, keys))
  {
    if keys != [] {
      GetKeysHonest(cfg, s, keys[..|keys| - 1]);
      GetKeysCoherent(cfg, s, keys[..|keys| - 1]);
      GetKeysFrame(cfg, s, keys[..|keys| - 1]);
    }
  }

  /** With `read_credit = served`, every memory object's read count is its reads served from
      memory, so the two gate counters agree over any run. */
  lemma {:induction false} RunCreditsHonest(cfg: Config, calls: seq<Call>)
    requires !cfg.partition.PerRank? && cfg.creditOnServe
    ensures CreditsHonest(Run(cfg, calls))
  {
    if calls != [] {
      var s, call := Run(cfg, calls[..|calls| - 1]), calls[|calls| - 1];
      RunCreditsHonest(cfg, calls[..|calls| - 1]);
      RunCoherent(cfg, calls[..|calls| - 1]);
      match call
      case PutCall(keys) => PutKeysHonest(cfg, CountPut(s), keys);
      case GetCall(keys) => GetKeysHonest(cfg, CountGet(s), keys);
      case LookupCall(keys) =>
    }
  }
}

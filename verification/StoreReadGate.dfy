/** The exact price and gain of the read gate: the same calls on an `always` store and on an
    `if_read` store, write-back admission and unlimited offload capacity. */
module StoreReadGate {
  import opened Containers
  import opened Keys
  import opened OffloadTiers
  import opened StoreModel
  import opened StoreInvariant
  import opened StoreIdentities
  import opened StoreProvenance

  function KeysPut(cfg: Config, calls: seq<Call>): set<PoolKey> {
    if calls == [] || !cfg.admitAlways then {}
    else
      var last := calls[|calls| - 1];
      KeysPut(cfg, calls[..|calls| - 1]) + (if last.PutCall? then KeySet(last.keys) else {})
  }

  /** Write-back in front of an offload tier that never evicts. */
  predicate Spacious(cfg: Config) {
    !cfg.partition.PerRank? && cfg.enableOffload && cfg.unlimited && cfg.write.WriteBack?
  }

  predicate Evicts(cfg: Config) {
    cfg.lruEviction && MemoryCapacity(cfg) >= 1
  }

  /** What a spacious store looks like after `ever` was put: offload writes count the objects
      outside memory, and memory holds everything until it has once been full. */
  ghost predicate Shape(cfg: Config, s: Store, ever: set<PoolKey>) {
    && s.objects.Keys <= ever
    && (cfg.demote.Always? || !Evicts(cfg) ==> s.objects.Keys == ever)
    && (!Evicts(cfg) ==> s.stats.evictions.demoted == 0)
    && (|s.memoryLru| < MemoryCapacity(cfg) ==> forall k :: k in ever ==> k in s.memoryLru)
    && (forall k :: k in TierAt(s, 0).held ==> k in s.objects && s.objects[k].place.Offload?)
    && s.stats.writes.ssdWrites == |s.objects| - |s.memoryLru|
  }

  /** The admission-source counters of a spacious store. */
  ghost predicate SourceShape(cfg: Config, s: Store, ever: set<PoolKey>) {
    && s.seen == ever
    && (forall k :: k in s.departed ==> s.departed[k] == IfReadDrop)
    && s.stats.sources.first + s.stats.writes.bypasses == |ever|
    && s.stats.sources.afterHbf == 0
    && (cfg.demote.Always? ==> s.stats.sources.afterDrop == 0)
  }

  lemma {:induction false} WriteUnlimited(cfg: Config, s: Store, key: PoolKey)
    requires !cfg.partition.PerRank? && cfg.unlimited
    ensures var (s1, op) := WriteTier(cfg, s, key);
            && op == Operation(1, [])
            && TierAt(s1, 0).held == TierAt(s, 0).held[key := 1]
            && var w := s.stats.writes;
               SettleWrite(cfg, s1, op, key)
               == s.(tiers := s1.tiers, stats := s.stats.(writes := w.(ssdWrites := w.ssdWrites + 1)))
  {
    RemoveThenSet(TierAt(s, 0).held, key, 1);
  }

  lemma {:induction false} DisplaceSpacious(cfg: Config, s: Store, key: PoolKey)
    requires Spacious(cfg) && key in s.objects && key !in TierAt(s, 0).held
    ensures var s' := Displace(cfg, s, key);
            var n := s.stats.writes;
            if DropsOnEviction(cfg, s.objects[key])
            then s'.objects == s.objects - {key} && s'.tiers == s.tiers && s'.stats.writes == n
                 && s'.stats.evictions.demoted == s.stats.evictions.demoted
                 && s'.departed == (if cfg.countSource then s.departed[key := IfReadDrop] else s.departed)
            else s'.objects == s.objects[key := s.objects[key].(place := Offload)]
                 && TierAt(s', 0).held == TierAt(s, 0).held[key := 1]
                 && s'.stats.writes == n.(ssdWrites := n.ssdWrites + 1)
                 && s'.departed == s.departed
    ensures Displace(cfg, s, key).seen == s.seen && Displace(cfg, s, key).stats.sources == s.stats.sources
  {
    if !DropsOnEviction(cfg, s.objects[key]) {
      WriteUnlimited(cfg, SetPlace(CountDemoted(cfg, s, s.objects[key]), key, Offload), key);
    }
  }

  /** A memory object of a spacious store has no offload copy. */
  lemma {:induction false} EvictOldestSpacious(cfg: Config, s: Store, admitter: nat)
    requires Spacious(cfg) && Consistent(cfg, s) && s.memoryLru != []
    requires forall k :: k in TierAt(s, 0).held ==> k in s.objects && s.objects[k].place.Offload?
    ensures var key, s' := s.memoryLru[0], EvictOldest(cfg, s, admitter);
            && key in s.objects
            && var drops, n := DropsOnEviction(cfg, s.objects[key]), s.stats.writes;
               && s'.objects == (if drops then s.objects - {key} else s.objects[key := s.objects[key].(place := Offload)])
               && TierAt(s', 0).held == (if drops then TierAt(s, 0).held else TierAt(s, 0).held[key := 1])
               && s'.stats.writes == (if drops then n else n.(ssdWrites := n.ssdWrites + 1))
               && s'.departed == (if drops && cfg.countSource then s.departed[key := IfReadDrop] else s.departed)
               && s'.seen == s.seen && s'.stats.sources == s.stats.sources
               && s'.memoryLru == s.memoryLru[1..]
  {
    var key, s1 := s.memoryLru[0], PopOldest(cfg, s, admitter);
    ReleasedUnlisted(cfg, s, admitter);
    EvictOldestShrinks(cfg, s, admitter);
    PoppedSame(cfg, s, admitter);
    hide Consistent, PopOldest, ReleaseMemory, Displace, DropsOnEviction;
    DisplaceSpacious(cfg, ReleaseMemory(cfg, s1, key, admitter), key);
  }

  lemma {:induction false} PoppedSame(cfg: Config, s: Store, admitter: nat)
    requires !cfg.partition.PerRank? && s.memoryLru != [] && s.memoryLru[0] in s.objects
    ensures PopOldest(cfg, s, admitter).objects == s.objects
    ensures var s' := ReleaseMemory(cfg, PopOldest(cfg, s, admitter), s.memoryLru[0], admitter);
            && s'.objects == s.objects && s'.tiers == s.tiers && s'.seen == s.seen && s'.departed == s.departed
            && s'.stats.writes == s.stats.writes && s'.stats.sources == s.stats.sources
  {
  }

  /** Shape, but for a memory tier one short of full because a block was just evicted for `key`. */
  ghost predicate RoomMade(cfg: Config, s: Store, ever: set<PoolKey>, full: bool) {
    && s.objects.Keys <= ever
    && (cfg.demote.Always? || !Evicts(cfg) ==> s.objects.Keys == ever)
    && (!Evicts(cfg) ==> s.stats.evictions.demoted == 0)
    && (forall k :: k in TierAt(s, 0).held ==> k in s.objects && s.objects[k].place.Offload?)
    && s.stats.writes.ssdWrites == |s.objects| - |s.memoryLru|
    && (full ==> |s.memoryLru| + 1 == MemoryCapacity(cfg))
    && (!full && |s.memoryLru| < MemoryCapacity(cfg) ==> forall k :: k in ever ==> k in s.memoryLru)
  }

  lemma {:induction false} EvictedShape(cfg: Config, s: Store, s': Store, ever: set<PoolKey>, drops: bool)
    requires Shape(cfg, s, ever) && Evicts(cfg) && |s.memoryLru| == MemoryCapacity(cfg) && (drops ==> cfg.demote.IfRead?)
    requires var key := s.memoryLru[0];
             && key in s.objects && s'.memoryLru == s.memoryLru[1..]
             && s'.objects == (if drops then s.objects - {key} else s.objects[key := s.objects[key].(place := Offload)])
             && TierAt(s', 0).held == (if drops then TierAt(s, 0).held else TierAt(s, 0).held[key := 1])
             && s'.stats.writes.ssdWrites == s.stats.writes.ssdWrites + (if drops then 0 else 1)
             && (key in TierAt(s, 0).held ==> s.objects[key].place.Offload?) && s.objects[key].place.Memory?
    ensures RoomMade(cfg, s', ever, true)
  {
    hide TierAt;
    var key := s.memoryLru[0];
    assert s'.objects.Keys == if drops then s.objects.Keys - {key} else s.objects.Keys;
    assert |s'.objects.Keys| == |s'.objects| && |s.objects.Keys| == |s.objects|;
  }

  lemma {:induction false} EvictedSources(cfg: Config, s: Store, s': Store, ever: set<PoolKey>, key: PoolKey)
    requires SourceShape(cfg, s, ever) && s'.seen == s.seen && s'.stats.sources == s.stats.sources
    requires s'.departed in {s.departed, s.departed[key := IfReadDrop]}
    requires s'.stats.writes.bypasses == s.stats.writes.bypasses
    ensures SourceShape(cfg, s', ever)
  {
  }

  lemma {:induction false} HeadInMemory(cfg: Config, s: Store)
    requires Coherent(cfg, s) && s.memoryLru != []
    ensures s.memoryLru[0] in s.objects && s.objects[s.memoryLru[0]].place.Memory?
  {
    assert s.memoryLru[0] in s.memoryLru;
  }

  lemma {:induction false} EvictOldestShape(cfg: Config, s: Store, ever: set<PoolKey>, admitter: nat)
    requires Spacious(cfg) && Coherent(cfg, s) && Shape(cfg, s, ever)
    requires Evicts(cfg) && |s.memoryLru| == MemoryCapacity(cfg)
    ensures RoomMade(cfg, EvictOldest(cfg, s, admitter), ever, true)
    ensures SourceShape(cfg, s, ever) ==> SourceShape(cfg, EvictOldest(cfg, s, admitter), ever)
  {
    EvictOldestSpacious(cfg, s, admitter);
    HeadInMemory(cfg, s);
    var key, s' := s.memoryLru[0], EvictOldest(cfg, s, admitter);
    hide Coherent, Spacious, EvictOldest, TierAt, RoomMade, SourceShape, MemoryCapacity;
    EvictedShape(cfg, s, s', ever, DropsOnEviction(cfg, s.objects[key]));
    if SourceShape(cfg, s, ever) {
      EvictedSources(cfg, s, s', ever, key);
    }
  }

  lemma {:induction false} EnsureRoomShape(cfg: Config, s: Store, ever: set<PoolKey>, rank: nat)
    requires Spacious(cfg) && Coherent(cfg, s) && Shape(cfg, s, ever)
    ensures var (ok, s') := EnsureRoom(cfg, s, rank);
            && RoomMade(cfg, s', ever, ok && |s.memoryLru| == MemoryCapacity(cfg))
            && (SourceShape(cfg, s, ever) ==> SourceShape(cfg, s', ever))
            && (Evicts(cfg) ==> ok)
            && (!ok ==> s' == s && |s.memoryLru| == MemoryCapacity(cfg))
            && Coherent(cfg, s')
            && (ok ==> |s'.memoryLru| < MemoryCapacity(cfg))
            && (forall k :: k in s'.objects ==> k in s.objects)
  {
    EnsureRoomOnce(cfg, s, rank);
    EnsureRoomCoherent(cfg, s, rank);
    if Evicts(cfg) && |s.memoryLru| == MemoryCapacity(cfg) {
      EvictOldestShape(cfg, s, ever, rank);
    }
  }

  lemma {:induction false} AdmitEffect(cfg: Config, s: Store, key: PoolKey)
    requires Spacious(cfg)
    ensures var s' := AdmitToMemory(cfg, s, key);
            && s'.memoryLru == s.memoryLru + [key] && s'.objects == s.objects[key := Object(Memory, 0, 0)]
            && s'.tiers == s.tiers && s'.stats.evictions == s.stats.evictions
            && s'.stats.writes.ssdWrites == s.stats.writes.ssdWrites
  {
    var s1 := EnterMemory(cfg, s, key);
    assert s1.memoryLru == s.memoryLru + [key] && s1.objects == s.objects[key := Object(Memory, 0, 0)]
           && s1.tiers == s.tiers && s1.stats == s.stats;
    hide EnterMemory;
    var s2 := CountSource(cfg, s1, key);
    assert s2 == s1.(seen := s2.seen, departed := s2.departed, stats := s1.stats.(sources := s2.stats.sources));
    hide CountSource;
  }

  lemma {:induction false} EnterShape(cfg: Config, s: Store, s': Store, ever: set<PoolKey>, key: PoolKey, full: bool)
    requires RoomMade(cfg, s, ever, full) && key !in s.objects && |s.memoryLru| < MemoryCapacity(cfg)
    requires s'.memoryLru == s.memoryLru + [key] && s'.objects == s.objects[key := Object(Memory, 0, 0)]
    requires s'.tiers == s.tiers && s'.stats.evictions == s.stats.evictions
    requires s'.stats.writes.ssdWrites == s.stats.writes.ssdWrites
    ensures Shape(cfg, s', ever + {key})
  {
    assert s'.objects.Keys == s.objects.Keys + {key};
    assert |s'.objects| == |s.objects| + 1;
    assert forall k :: k in s'.memoryLru <==> k in s.memoryLru || k == key;
  }

  lemma {:induction false} AdmitShape(cfg: Config, s: Store, ever: set<PoolKey>, key: PoolKey, full: bool)
    requires Spacious(cfg) && RoomMade(cfg, s, ever, full)
    requires key !in s.objects && |s.memoryLru| < MemoryCapacity(cfg)
    ensures Shape(cfg, AdmitToMemory(cfg, s, key), ever + {key})
  {
    AdmitEffect(cfg, s, key);
    hide AdmitToMemory, RoomMade, Shape;
    EnterShape(cfg, s, AdmitToMemory(cfg, s, key), ever, key, full);
  }

  lemma {:induction false} AdmitSourceShape(cfg: Config, s: Store, ever: set<PoolKey>, key: PoolKey)
    requires Spacious(cfg) && cfg.countSource && SourceShape(cfg, s, ever) && DeparturesKnown(cfg, s)
    requires key !in s.objects && (cfg.demote.Always? ==> s.objects.Keys == ever)
    ensures SourceShape(cfg, AdmitToMemory(cfg, s, key), ever + {key})
  {
    if key in ever {
      assert ever + {key} == ever;
    }
  }

  lemma {:induction false} BypassEffect(cfg: Config, s: Store, key: PoolKey)
    requires Spacious(cfg)
    ensures var s', w := BypassMemory(cfg, s, key), s.stats.writes;
            && s' == s.(objects := s.objects[key := Object(Offload, 0, 0)], tiers := s'.tiers,
                        seen := if cfg.countSource then s.seen + {key} else s.seen,
                        stats := s.stats.(writes := w.(ssdWrites := w.ssdWrites + 1, admissions := w.admissions + 1,
                                                       bypasses := w.bypasses + 1)))
            && TierAt(s', 0).held == TierAt(s, 0).held[key := 1]
  {
    WriteUnlimited(cfg, s, key);
    hide WriteTier, SettleWrite;
  }

  lemma {:induction false} PlacedShape(cfg: Config, s: Store, s': Store, ever: set<PoolKey>, key: PoolKey)
    requires Shape(cfg, s, ever) && !Evicts(cfg) && key !in s.objects && |s.memoryLru| == MemoryCapacity(cfg)
    requires s'.memoryLru == s.memoryLru && s'.objects == s.objects[key := Object(Offload, 0, 0)]
    requires TierAt(s', 0).held == TierAt(s, 0).held[key := 1] && s'.stats.evictions == s.stats.evictions
    requires s'.stats.writes.ssdWrites == s.stats.writes.ssdWrites + 1
    ensures Shape(cfg, s', ever + {key}) && key !in ever
  {
    hide TierAt, MemoryCapacity, Evicts;
    assert s'.objects.Keys == s.objects.Keys + {key};
    assert |s'.objects| == |s.objects| + 1;
  }

  lemma {:induction false} PlacedSources(cfg: Config, s: Store, s': Store, ever: set<PoolKey>, key: PoolKey)
    requires SourceShape(cfg, s, ever) && key !in ever && s'.seen == s.seen + {key} && s'.departed == s.departed
    requires s'.stats.sources == s.stats.sources && s'.stats.writes.bypasses == s.stats.writes.bypasses + 1
    ensures SourceShape(cfg, s', ever + {key})
  {
  }

  lemma {:induction false} BypassShape(cfg: Config, s: Store, ever: set<PoolKey>, key: PoolKey)
    requires Spacious(cfg) && Coherent(cfg, s) && Shape(cfg, s, ever) && !Evicts(cfg)
    requires key !in s.objects && |s.memoryLru| == MemoryCapacity(cfg)
    ensures Shape(cfg, BypassMemory(cfg, s, key), ever + {key})
    ensures cfg.countSource && SourceShape(cfg, s, ever) ==> SourceShape(cfg, BypassMemory(cfg, s, key), ever + {key})
  {
    hide Coherent, BypassMemory, Spacious, Shape, SourceShape, Evicts, MemoryCapacity, TierAt;
    BypassEffect(cfg, s, key);
    PlacedShape(cfg, s, BypassMemory(cfg, s, key), ever, key);
    if cfg.countSource && SourceShape(cfg, s, ever) {
      PlacedSources(cfg, s, BypassMemory(cfg, s, key), ever, key);
    }
  }

  lemma {:induction false} TouchShape(cfg: Config, s: Store, ever: set<PoolKey>, key: PoolKey)
    requires Spacious(cfg) && Coherent(cfg, s) && Shape(cfg, s, ever) && key in s.objects
    ensures Shape(cfg, Touch(cfg, s, key), ever + {key})
    ensures SourceShape(cfg, s, ever) ==> SourceShape(cfg, Touch(cfg, s, key), ever + {key})
  {
    assert ever + {key} == ever;
    if s.objects[key].place.Memory? {
      MoveToEndDistinct(s.memoryLru, key);
    }
  }

  lemma {:induction false} EnsureRoomDepartures(cfg: Config, s: Store, rank: nat)
    requires !cfg.partition.PerRank? && Coherent(cfg, s) && cfg.countSource && SourcesKnown(cfg, s)
    ensures DeparturesKnown(cfg, EnsureRoom(cfg, s, rank).1)
  {
    EnsureRoomOnce(cfg, s, rank);
    if 1 <= MemoryCapacity(cfg) <= |s.memoryLru| && cfg.lruEviction {
      EvictOldestSources(cfg, s, rank);
    }
  }

  lemma {:induction false} PutNewShape(cfg: Config, s: Store, ever: set<PoolKey>, key: PoolKey)
    requires Spacious(cfg) && Coherent(cfg, s) && Shape(cfg, s, ever) && key !in s.objects
    requires cfg.countSource ==> SourcesKnown(cfg, s) && SourceShape(cfg, s, ever)
    ensures var (admitted, s') := EnsureRoom(cfg, s, RankIndex(s, key));
            var s'' := if admitted then AdmitToMemory(cfg, s', key) else BypassMemory(cfg, s', key);
            Shape(cfg, s'', ever + {key}) && (cfg.countSource ==> SourceShape(cfg, s'', ever + {key}))
  {
    hide Coherent, Shape, SourceShape, SourcesKnown, EnsureRoom, AdmitToMemory, BypassMemory;
    var rank := RankIndex(s, key);
    EnsureRoomShape(cfg, s, ever, rank);
    var (admitted, s') := EnsureRoom(cfg, s, rank);
    if admitted {
      AdmitShape(cfg, s', ever, key, |s.memoryLru| == MemoryCapacity(cfg));
      if cfg.countSource {
        EnsureRoomDepartures(cfg, s, rank);
        AdmitSourceShape(cfg, s', ever, key);
      }
    } else {
      BypassShape(cfg, s', ever, key);
    }
  }

  lemma {:induction false} AssignRankShape(cfg: Config, s: Store, ever: set<PoolKey>, key: PoolKey)
    requires Spacious(cfg) && Coherent(cfg, s) && Shape(cfg, s, ever)
    requires cfg.countSource ==> SourcesKnown(cfg, s) && SourceShape(cfg, s, ever)
    ensures var s' := AssignRank(cfg, s, key);
            && s'.objects == s.objects && Coherent(cfg, s') && Shape(cfg, s', ever)
            && (cfg.countSource ==> SourcesKnown(cfg, s') && SourceShape(cfg, s', ever))
  {
    BookkeepingCoherent(cfg, s, AssignRank(cfg, s, key));
  }

  lemma {:induction false} PutOneShape(cfg: Config, s: Store, ever: set<PoolKey>, key: PoolKey)
    requires Spacious(cfg) && Coherent(cfg, s) && Shape(cfg, s, ever)
    requires cfg.countSource ==> SourcesKnown(cfg, s) && SourceShape(cfg, s, ever)
    ensures Shape(cfg, PutOne(cfg, s, key), ever + {key})
    ensures cfg.countSource ==> SourceShape(cfg, PutOne(cfg, s, key), ever + {key})
  {
    hide Coherent, Shape, SourceShape, SourcesKnown, EnsureRoom, AdmitToMemory, BypassMemory, Touch, AssignRank;
    if key in s.objects {
      TouchShape(cfg, s, ever, key);
    } else {
      AssignRankShape(cfg, s, ever, key);
      PutNewShape(cfg, AssignRank(cfg, s, key), ever, key);
    }
  }

  lemma {:induction false} PutKeysShape(cfg: Config, s: Store, ever: set<PoolKey>, keys: seq<PoolKey>)
    requires Spacious(cfg) && Coherent(cfg, s) && Shape(cfg, s, ever)
    requires cfg.countSource ==> SourcesKnown(cfg, s) && SourceShape(cfg, s, ever)
    ensures Shape(cfg, PutKeys(cfg, s, keys), ever + KeySet(keys))
    ensures cfg.countSource ==> SourceShape(cfg, PutKeys(cfg, s, keys), ever + KeySet(keys))
  {
    hide Coherent, Shape, SourceShape, SourcesKnown, PutOne;
    if keys == [] {
      assert ever + KeySet(keys) == ever;
    } else {
      var front, key := keys[..|keys| - 1], keys[|keys| - 1];
      PutKeysShape(cfg, s, ever, front);
      PutKeysCoherent(cfg, s, front);
      if cfg.countSource {
        PutKeysSources(cfg, s, front);
      }
      PutOneShape(cfg, PutKeys(cfg, s, front), ever + KeySet(front), key);
      assert ever + KeySet(front) + {key} == ever + KeySet(keys);
    }
  }

  lemma {:induction false} GetKeysShape(cfg: Config, s: Store, ever: set<PoolKey>, keys: seq<PoolKey>)
    requires Spacious(cfg) && Coherent(cfg, s) && Shape(cfg, s, ever)
    ensures Shape(cfg, GetKeys(cfg, s, keys), ever)
    ensures SourceShape(cfg, s, ever) ==> SourceShape(cfg, GetKeys(cfg, s, keys), ever)
  {
    if keys != [] {
      var front, key := keys[..|keys| - 1], keys[|keys| - 1];
      var s1 := GetKeys(cfg, s, front);
      GetKeysShape(cfg, s, ever, front);
      GetKeysCoherent(cfg, s, front);
      GetOneFrame(cfg, s1, key);
      GetOneOrder(cfg, s1, key);
    }
  }

  lemma {:induction false} TouchOrder(cfg: Config, s: Store, key: PoolKey)
    requires Coherent(cfg, s) && key in s.objects
    ensures var s' := Touch(cfg, s, key);
            && |s'.memoryLru| == |s.memoryLru| && (forall k :: k in s'.memoryLru <==> k in s.memoryLru)
            && s'.tiers == s.tiers && s'.objects == s.objects
  {
    if s.objects[key].place.Memory? {
      MoveToEndDistinct(s.memoryLru, key);
    }
    hide Coherent, OffloadCoherent;
  }

  lemma {:induction false} ServeOrder(cfg: Config, s: Store, key: PoolKey)
    requires !cfg.partition.PerRank? && key in s.objects
    ensures var s1 := CreditServe(cfg, s, key);
            && key in s1.objects && s1.memoryLru == s.memoryLru && s1.tiers == s.tiers
    ensures ServeMemory(s, key).memoryLru == s.memoryLru && ServeMemory(s, key).tiers == s.tiers
    ensures ServeOffload(cfg, s, key).memoryLru == s.memoryLru
    ensures TierAt(ServeOffload(cfg, s, key), 0).held == TierAt(s, 0).held
  {
    hide MoveToEnd;
  }

  lemma {:induction false} GetOneOrder(cfg: Config, s: Store, key: PoolKey)
    requires Spacious(cfg) && Coherent(cfg, s)
    ensures var s' := GetOne(cfg, s, key);
            && |s'.memoryLru| == |s.memoryLru|
            && (forall k :: k in s'.memoryLru <==> k in s.memoryLru)
            && TierAt(s', 0).held == TierAt(s, 0).held
            && |s'.objects| == |s.objects|
  {
    GetOneFrame(cfg, s, key);
    assert |s.objects.Keys| == |s.objects| && |GetOne(cfg, s, key).objects.Keys| == |GetOne(cfg, s, key).objects|;
    hide Coherent, Touch, CreditServe, ServeMemory, ServeOffload, SamePlaces;
    if key in s.objects {
      TouchOrder(cfg, s, key);
      ServeOrder(cfg, Touch(cfg, s, key), key);
      ServeOrder(cfg, CreditServe(cfg, Touch(cfg, s, key), key), key);
    }
  }

  lemma {:induction false} LookupSame(cfg: Config, s: Store, keys: seq<PoolKey>)
    ensures var s' := Lookup(cfg, s, keys);
            && s'.objects.Keys == s.objects.Keys && |s'.objects| == |s.objects|
            && (forall k :: k in s.objects ==> s'.objects[k].place == s.objects[k].place)
            && s' == s.(objects := s'.objects, stats := s.stats.(calls := s'.stats.calls))
  {
    var hits := keys[..HitLength(cfg, s, keys)];
    CreditReadsFrame(s, hits);
    hide CreditReads, HitLength, AnyOffload;
    assert |Lookup(cfg, s, keys).objects.Keys| == |Lookup(cfg, s, keys).objects| && |s.objects.Keys| == |s.objects|;
  }

  lemma {:induction false} LookupShape(cfg: Config, s: Store, ever: set<PoolKey>, keys: seq<PoolKey>)
    requires Shape(cfg, s, ever)
    ensures Shape(cfg, Lookup(cfg, s, keys), ever)
    ensures SourceShape(cfg, s, ever) ==> SourceShape(cfg, Lookup(cfg, s, keys), ever)
  {
    hide Lookup;
    LookupSame(cfg, s, keys);
  }

  function NextKeys(cfg: Config, ever: set<PoolKey>, call: Call): set<PoolKey> {
    if cfg.admitAlways && call.PutCall? then ever + KeySet(call.keys) else ever
  }

  lemma {:induction false} NothingPut(cfg: Config, calls: seq<Call>)
    requires !cfg.admitAlways
    ensures KeysPut(cfg, calls) == {}
  {
  }

  lemma {:induction false} CountShape(cfg: Config, s: Store, s': Store, ever: set<PoolKey>)
    requires Spacious(cfg) && Coherent(cfg, s) && Shape(cfg, s, ever)
    requires cfg.countSource ==> SourcesKnown(cfg, s) && SourceShape(cfg, s, ever)
    requires s' == s.(stats := s.stats.(calls := s'.stats.calls, writes := s'.stats.writes))
    requires s'.stats.writes == s.stats.writes.(rejections := s'.stats.writes.rejections)
    ensures Coherent(cfg, s') && Shape(cfg, s', ever)
    ensures cfg.countSource ==> SourcesKnown(cfg, s') && SourceShape(cfg, s', ever)
  {
  }

  lemma {:induction false} NoKeysMore(ever: set<PoolKey>)
    ensures ever + KeySet([]) == ever
  {
  }

  lemma {:induction false} StepShape(cfg: Config, s: Store, ever: set<PoolKey>, call: Call)
    requires Spacious(cfg) && Coherent(cfg, s) && Shape(cfg, s, ever)
    requires cfg.countSource ==> SourcesKnown(cfg, s) && SourceShape(cfg, s, ever)
    ensures Shape(cfg, Step(cfg, s, call), NextKeys(cfg, ever, call))
    ensures cfg.countSource ==> SourceShape(cfg, Step(cfg, s, call), NextKeys(cfg, ever, call))
  {
    assert !s.failed;
    CountShape(cfg, s, CountPut(s), ever);
    CountShape(cfg, s, CountGet(s), ever);
    CountShape(cfg, s, CountRejections(s, |call.keys|), ever);
    hide Coherent, Shape, SourceShape, SourcesKnown, CountPut, CountGet, CountRejections, PutKeys, GetKeys, Lookup,
         KeySet, Spacious, Evicts;
    match call
    case PutCall(keys) =>
      if cfg.admitAlways && keys != [] {
        PutKeysShape(cfg, CountPut(s), ever, keys);
      } else if cfg.admitAlways {
        NoKeysMore(ever);
      }
    case GetCall(keys) =>
      GetKeysShape(cfg, CountGet(s), ever, keys);
    case LookupCall(keys) =>
      LookupShape(cfg, s, ever, keys);
  }

  lemma {:induction false} RunShape(cfg: Config, calls: seq<Call>)
    requires Spacious(cfg)
    ensures Shape(cfg, Run(cfg, calls), KeysPut(cfg, calls))
    ensures cfg.countSource ==> SourceShape(cfg, Run(cfg, calls), KeysPut(cfg, calls))
  {
    if calls != [] {
      var front, call := calls[..|calls| - 1], calls[|calls| - 1];
      RunShape(cfg, front);
      RunCoherent(cfg, front);
      if cfg.countSource {
        RunSourcesKnown(cfg, front);
      }
      StepShape(cfg, Run(cfg, front), KeysPut(cfg, front), call);
      assert KeysPut(cfg, calls) == NextKeys(cfg, KeysPut(cfg, front), call) by {
        if !cfg.admitAlways { NothingPut(cfg, front); }
      }
    } else {
      assert EMPTY_STORE.objects.Keys == {};
    }
  }

  // ----- two stores on the same calls

  lemma {:induction false} SetSize(a: set<PoolKey>, b: set<PoolKey>)
    requires a <= b
    ensures |b - a| == |b| - |a|
  {
    assert b == a + (b - a);
  }

  lemma {:induction false} LruFills(cfg: Config, s: Store, ever: set<PoolKey>)
    requires Coherent(cfg, s) && Shape(cfg, s, ever)
    ensures |s.memoryLru| == if |ever| < MemoryCapacity(cfg) then |ever| else MemoryCapacity(cfg)
  {
    var listed := set k | k in s.memoryLru;
    DistinctCardinality(s.memoryLru);
    assert listed <= ever;
    SetSize(listed, ever);
    if |s.memoryLru| < MemoryCapacity(cfg) {
      assert listed == ever;
    }
  }


  /** The offload writes the gate saves are exactly the keys ever put that the gated store lacks. */
  lemma {:induction false} GateSavesExactlyTheMissing(always: Config, ifRead: Config, calls: seq<Call>)
    requires Spacious(always) && always.demote.Always? && ifRead == always.(demote := IfRead)
    ensures var a, b := Run(always, calls), Run(ifRead, calls);
            a.stats.writes.ssdWrites - b.stats.writes.ssdWrites
            == |KeysPut(always, calls) - b.objects.Keys|
  {
    var a, b, ever := Run(always, calls), Run(ifRead, calls), KeysPut(always, calls);
    SameKeysPut(always, ifRead, calls);
    RunShape(always, calls);
    RunShape(ifRead, calls);
    RunCoherent(always, calls);
    RunCoherent(ifRead, calls);
    LruFills(always, a, ever);
    LruFills(ifRead, b, ever);
    SetSize(b.objects.Keys, ever);
    assert |a.objects| == |a.objects.Keys| == |ever| && |b.objects| == |b.objects.Keys|;
  }

  lemma {:induction false} SameKeysPut(a: Config, b: Config, calls: seq<Call>)
    requires a.admitAlways == b.admitAlways
    ensures KeysPut(a, calls) == KeysPut(b, calls)
  {
    if calls != [] {
      SameKeysPut(a, b, calls[..|calls| - 1]);
    }
  }

  /** Memory writes are first admissions plus re-admissions after a drop; bypasses happen only to
      a store that never evicts from memory. */
  lemma {:induction false} MemoryWritesSplit(cfg: Config, calls: seq<Call>)
    requires Spacious(cfg) && cfg.countSource
    ensures var s, ever := Run(cfg, calls), KeysPut(cfg, calls);
            && s.stats.writes.memoryWrites == |ever| - s.stats.writes.bypasses + s.stats.sources.afterDrop
            && s.stats.writes.bypasses == (if Evicts(cfg) || |ever| < MemoryCapacity(cfg) then 0
                                           else |ever| - MemoryCapacity(cfg))
            && (cfg.demote.Always? ==> s.stats.sources.afterDrop == 0)
  {
    var s, ever := Run(cfg, calls), KeysPut(cfg, calls);
    RunShape(cfg, calls);
    assert s.stats.writes.memoryWrites == |ever| - s.stats.writes.bypasses + s.stats.sources.afterDrop by {
      RunSourcesKnown(cfg, calls);
    }
    RunBalanced(cfg, calls);
    RunCoherent(cfg, calls);
    LruFills(cfg, s, ever);
    hide Coherent, SourceShape;
    assert |s.objects| == |s.objects.Keys|;
  }

  /** The memory writes the gate adds are exactly its re-admissions of keys it dropped. */
  lemma {:induction false} GateCostsExactlyTheReadmissions(always: Config, ifRead: Config, calls: seq<Call>)
    requires Spacious(always) && always.demote.Always? && ifRead == always.(demote := IfRead)
    requires always.countSource
    ensures var a, b := Run(always, calls), Run(ifRead, calls);
            b.stats.writes.memoryWrites - a.stats.writes.memoryWrites == b.stats.sources.afterDrop
  {
    SameKeysPut(always, ifRead, calls);
    MemoryWritesSplit(always, calls);
    MemoryWritesSplit(ifRead, calls);
  }
}

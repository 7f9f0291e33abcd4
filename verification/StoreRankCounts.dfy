/** The rank counters of a store that only counts by rank: an eviction counts as "same" exactly when the
    evicted key and the key that pushes it out belong to one rank. */
module StoreRankCounts {
  import opened Containers
  import opened Keys
  import opened OffloadTiers
  import opened StoreModel
  import opened StoreInvariant
  import opened StoreProvenance
  import opened StoreIdentities
  import opened StoreLaws

  /** Ranks have distinct indices, and the rank of every stored key has one. */
  ghost predicate RanksKnown(s: Store) {
    var index := s.ranks.index;
    && (forall r :: r in index ==> index[r] < |index|)
    && (forall r, q :: r in index && q in index && index[r] == index[q] ==> r == q)
    && (forall k :: k in s.objects ==> RankOf(k) in index)
  }

  lemma {:induction false} IndexGrows(index: map<RankId, nat>, rank: RankId)
    requires rank !in index
    ensures |index[rank := |index|]| == |index| + 1
  {
    assert index[rank := |index|].Keys == index.Keys + {rank};
    assert |index[rank := |index|]| == |index[rank := |index|].Keys|;
  }

  lemma {:induction false} AssignKnows(cfg: Config, s: Store, key: PoolKey)
    requires cfg.partition.Count? && RanksKnown(s)
    ensures var s' := AssignRank(cfg, s, key); RanksKnown(s') && RankOf(key) in s'.ranks.index
  {
    var rank, index := RankOf(key), s.ranks.index;
    if rank !in index {
      IndexGrows(index, rank);
      AssignIndex(cfg, s, key);
      hide AssignRank, RankOf;
    }
  }

  lemma {:induction false} AssignIndex(cfg: Config, s: Store, key: PoolKey)
    requires cfg.partition.Count? && RankOf(key) !in s.ranks.index
    ensures var s' := AssignRank(cfg, s, key);
            s'.objects == s.objects && s'.ranks.index == s.ranks.index[RankOf(key) := |s.ranks.index|]
  {
  }

  lemma {:induction false} WriteIndex(cfg: Config, s: Store, key: PoolKey)
    ensures var (s1, op) := WriteTier(cfg, s, key);
            && s1.ranks == s.ranks && s1.stats == s.stats && s1.memoryLru == s.memoryLru
            && SettleWrite(cfg, s1, op, key).ranks == s.ranks && SettleWrite(cfg, s1, op, key).stats.ranks == s.stats.ranks
  {
    var (s1, op) := WriteTier(cfg, s, key);
    DropVictimsFrame(cfg, RecordOffloadWrite(s1, op, key), op.evictedKeys, key);
    hide DropVictims, TierWrite;
  }

  /** What one eviction does to the rank counters. */
  lemma {:induction false} EvictRanks(cfg: Config, s: Store, admitter: nat)
    requires cfg.partition.Count? && Consistent(cfg, s) && s.memoryLru != []
    ensures var s', same := EvictOldest(cfg, s, admitter), RankIndex(s, s.memoryLru[0]) == admitter;
            && s'.ranks.index == s.ranks.index
            && s'.stats.ranks.same == s.stats.ranks.same + (if same then 1 else 0)
            && s'.stats.ranks.cross == s.stats.ranks.cross + (if same then 0 else 1)
  {
    ReleasedUnlisted(cfg, s, admitter);
    var key := s.memoryLru[0];
    var s1 := ReleaseMemory(cfg, PopOldest(cfg, s, admitter), key, admitter);
    assert RankIndex(PopOldest(cfg, s, admitter), key) == RankIndex(s, key);
    hide Displace, Consistent;
    DisplaceFrame(cfg, s1, key);
    DisplaceStats(cfg, s1, key);
  }

  lemma {:induction false} RoomRanks(cfg: Config, s: Store, admitter: nat)
    requires cfg.partition.Count? && Coherent(cfg, s)
    ensures var (ok, s') := EnsureRoom(cfg, s, admitter);
            var evicts := ok && |s.memoryLru| == cfg.memoryCapacity;
            && s'.ranks.index == s.ranks.index
            && (evicts ==>
                  var same := RankIndex(s, s.memoryLru[0]) == admitter;
                  && s'.stats.ranks.same == s.stats.ranks.same + (if same then 1 else 0)
                  && s'.stats.ranks.cross == s.stats.ranks.cross + (if same then 0 else 1))
            && (!evicts ==> s'.stats.ranks == s.stats.ranks)
  {
    EnsureRoomOnce(cfg, s, admitter);
    assert |s.memoryLru| <= cfg.memoryCapacity;
    CoherentConsistent(cfg, s);
    hide EnsureRoom, EvictOldest, Coherent, Consistent, RankIndex;
    if 1 <= cfg.memoryCapacity <= |s.memoryLru| && cfg.lruEviction {
      EvictRanks(cfg, s, admitter);
    }
  }

  ghost predicate SameRanks(s: Store, s': Store) {
    s'.ranks.index == s.ranks.index && s'.stats.ranks == s.stats.ranks
  }

  lemma {:induction false} EnterRanks(cfg: Config, s: Store, key: PoolKey)
    requires cfg.partition.Count?
    ensures SameRanks(s, CountAdmission(CountSource(cfg, EnterMemory(cfg, s, key), key)))
  {
  }

  lemma {:induction false} AdmitRanks(cfg: Config, s: Store, key: PoolKey)
    requires cfg.partition.Count?
    ensures SameRanks(s, AdmitToMemory(cfg, s, key))
  {
    EnterRanks(cfg, s, key);
    WriteIndex(cfg, CountAdmission(CountSource(cfg, EnterMemory(cfg, s, key), key)), key);
    hide EnterMemory, CountSource, CountAdmission, WriteTier, SettleWrite;
  }

  lemma {:induction false} BypassRanks(cfg: Config, s: Store, key: PoolKey)
    ensures SameRanks(s, BypassMemory(cfg, s, key))
  {
    WriteIndex(cfg, s, key);
    hide WriteTier, SettleWrite;
  }

  lemma {:induction false} StillKnown(s: Store, s': Store, key: PoolKey)
    requires RanksKnown(s) && s'.ranks.index == s.ranks.index && RankOf(key) in s.ranks.index
    requires forall k :: k in s'.objects && k != key ==> k in s.objects
    ensures RanksKnown(s')
  {
  }

  /** The rank counters after a put of `key`. */
  function RanksAfter(cfg: Config, s: Store, key: PoolKey): RankStats {
    var n := s.stats.ranks;
    if key in s.objects || !CanEnter(cfg, s) || s.memoryLru == [] || |s.memoryLru| < cfg.memoryCapacity then n
    else if RankOf(s.memoryLru[0]) == RankOf(key) then n.(same := n.same + 1)
    else n.(cross := n.cross + 1)
  }

  lemma {:induction false} PutStoredRanks(cfg: Config, s: Store, key: PoolKey)
    requires cfg.partition.Count? && RanksKnown(s) && key in s.objects
    ensures RanksKnown(PutOne(cfg, s, key)) && PutOne(cfg, s, key).stats.ranks == RanksAfter(cfg, s, key)
  {
  }

  /** A put of an absent key that evicts counts one eviction: "same" if the oldest key is of the put
      key's rank, else "cross". No other put counts any. */
  lemma {:induction false} PutRanks(cfg: Config, s: Store, key: PoolKey)
    requires cfg.partition.Count? && Coherent(cfg, s) && RanksKnown(s)
    ensures RanksKnown(PutOne(cfg, s, key)) && PutOne(cfg, s, key).stats.ranks == RanksAfter(cfg, s, key)
  {
    if key in s.objects {
      PutStoredRanks(cfg, s, key);
    } else {
      var s1 := AssignRank(cfg, s, key);
      AssignedSame(cfg, s, key);
      AssignKnows(cfg, s, key);
      BookkeepingCoherent(cfg, s, s1);
      hide Coherent, AssignRank, EnsureRoom, AdmitToMemory, BypassMemory, RanksKnown, RanksAfter, RankOf;
      PutLeavesOthers(cfg, s, key);
      PutNewRanks(cfg, s1, key);
      SameRanksAfter(cfg, s, s1, key);
      StillKnown(s1, PutOne(cfg, s, key), key);
    }
  }

  lemma {:induction false} SameRanksAfter(cfg: Config, s: Store, s1: Store, key: PoolKey)
    requires s1.memoryLru == s.memoryLru && s1.objects == s.objects && s1.stats == s.stats
    ensures RanksAfter(cfg, s1, key) == RanksAfter(cfg, s, key)
  {
  }

  lemma {:induction false} PutLeavesOthers(cfg: Config, s: Store, key: PoolKey)
    requires cfg.partition.Count? && Coherent(cfg, s) && key !in s.objects
    ensures forall k :: k in PutOne(cfg, s, key).objects && k != key ==> k in s.objects
  {
    hide Coherent, PutOne, CanEnter, EndsWith, TierAt;
    PutMeans(cfg, s, key);
  }

  lemma {:induction false} PutNewRanks(cfg: Config, s: Store, key: PoolKey)
    requires cfg.partition.Count? && Coherent(cfg, s) && RanksKnown(s) && RankOf(key) in s.ranks.index
    requires key !in s.objects
    ensures var rank := RankIndex(s, key);
            var (admitted, s2) := EnsureRoom(cfg, s, rank);
            var s' := if admitted then AdmitToMemory(cfg, s2, key) else BypassMemory(cfg, s2, key);
            s'.ranks.index == s.ranks.index && s'.stats.ranks == RanksAfter(cfg, s, key)
  {
    var rank := RankIndex(s, key);
    MemoryKeysStored(cfg, s);
    hide Coherent, EnsureRoom, AdmitToMemory, BypassMemory;
    RoomMeans(cfg, s, rank);
    RoomRanks(cfg, s, rank);
    var (admitted, s2) := EnsureRoom(cfg, s, rank);
    AdmitRanks(cfg, s2, key);
    BypassRanks(cfg, s2, key);
  }

  lemma {:induction false} MemoryKeysStored(cfg: Config, s: Store)
    requires Coherent(cfg, s)
    ensures forall k :: k in s.memoryLru ==> k in s.objects
    ensures |s.memoryLru| <= MemoryCapacity(cfg)
  {
  }

  // ----- every run

  lemma {:induction false} PutKeysRanks(cfg: Config, s: Store, keys: seq<PoolKey>)
    requires cfg.partition.Count? && Coherent(cfg, s) && RanksKnown(s)
    ensures RanksKnown(PutKeys(cfg, s, keys))
  {
    hide Coherent, RanksKnown, PutOne, RanksAfter;
    if keys != [] {
      PutKeysRanks(cfg, s, keys[..|keys| - 1]);
      PutKeysCoherent(cfg, s, keys[..|keys| - 1]);
      PutRanks(cfg, PutKeys(cfg, s, keys[..|keys| - 1]), keys[|keys| - 1]);
    }
  }

  lemma {:induction false} GetKeysRanks(cfg: Config, s: Store, keys: seq<PoolKey>)
    requires cfg.partition.Count?
    ensures GetKeys(cfg, s, keys).ranks == s.ranks
  {
    if keys != [] {
      GetKeysRanks(cfg, s, keys[..|keys| - 1]);
    }
  }

  lemma {:induction false} SameKnown(s: Store, s': Store)
    requires RanksKnown(s) && s'.ranks == s.ranks && s'.objects.Keys == s.objects.Keys
    ensures RanksKnown(s')
  {
    assert forall k :: k in s'.objects <==> k in s.objects.Keys;
  }

  lemma {:induction false} RunRanksKnown(cfg: Config, calls: seq<Call>)
    requires cfg.partition.Count?
    ensures RanksKnown(Run(cfg, calls))
  {
    if calls != [] {
      var s, call := Run(cfg, calls[..|calls| - 1]), calls[|calls| - 1];
      RunRanksKnown(cfg, calls[..|calls| - 1]);
      RunCoherent(cfg, calls[..|calls| - 1]);
      hide Run, RanksKnown, Coherent;
      match call
      case PutCall(keys) =>
        BookkeepingCoherent(cfg, s, CountPut(s));
        SameKnown(s, CountPut(s));
        PutKeysRanks(cfg, CountPut(s), keys);
        SameKnown(s, CountRejections(s, |keys|));
      case GetCall(keys) =>
        GetKeysFrame(cfg, CountGet(s), keys);
        GetKeysRanks(cfg, CountGet(s), keys);
        SameKnown(s, Step(cfg, s, call));
      case LookupCall(keys) =>
        CreditReadsFrame(s, keys[..HitLength(cfg, s, keys)]);
        SameKnown(s, Step(cfg, s, call));
    }
  }

  /** After any run: a put of one key counts at most one eviction by rank, the oldest key's, as "same"
      exactly when the two keys share a rank. */
  lemma {:induction false} EvictionsCountByRank(cfg: Config, calls: seq<Call>, key: PoolKey)
    requires cfg.partition.Count? && cfg.admitAlways
    ensures var s := Run(cfg, calls);
            Step(cfg, s, PutCall([key])).stats.ranks == RanksAfter(cfg, s, key)
  {
    RunRanksKnown(cfg, calls);
    RunCoherent(cfg, calls);
    var s := Run(cfg, calls);
    var s1 := CountPut(s);
    assert !s.failed;
    BookkeepingCoherent(cfg, s, s1);
    SameKnown(s, s1);
    assert RanksAfter(cfg, s1, key) == RanksAfter(cfg, s, key);
    hide Run, RanksKnown, Coherent, PutOne, RanksAfter;
    PutRanks(cfg, s1, key);
    assert [key][..0] == [] && PutKeys(cfg, s1, []) == s1;
    assert PutKeys(cfg, s1, [key]) == PutOne(cfg, s1, key);
  }
}

/** The call counters of a store, partitioned or not: every key offered to it is accounted for once. */
module StoreAccounts {
  import opened Containers
  import opened Keys
  import opened OffloadTiers
  import opened StoreModel

  /** Keys offered by the put calls. */
  function Offered(calls: seq<Call>): nat {
    if calls == [] then 0
    else
      var last := calls[|calls| - 1];
      Offered(calls[..|calls| - 1]) + (if last.PutCall? then |last.keys| else 0)
  }

  /** Of keys put one after the other, those that were stored when their turn came. */
  function StoredAlready(cfg: Config, s: Store, keys: seq<PoolKey>): nat {
    if keys == [] then 0
    else
      var front := keys[..|keys| - 1];
      StoredAlready(cfg, s, front) + (if keys[|keys| - 1] in PutKeys(cfg, s, front).objects then 1 else 0)
  }

  function Repeated(cfg: Config, calls: seq<Call>): nat {
    if calls == [] then 0
    else
      var front, last := calls[..|calls| - 1], calls[|calls| - 1];
      Repeated(cfg, front)
      + (if last.PutCall? && cfg.admitAlways then StoredAlready(cfg, CountPut(Run(cfg, front)), last.keys) else 0)
  }

  function PutCalls(calls: seq<Call>): nat {
    if calls == [] then 0
    else PutCalls(calls[..|calls| - 1]) + (if calls[|calls| - 1].PutCall? && calls[|calls| - 1].keys != [] then 1 else 0)
  }

  function GetCalls(calls: seq<Call>): nat {
    if calls == [] then 0
    else GetCalls(calls[..|calls| - 1]) + (if calls[|calls| - 1].GetCall? && calls[|calls| - 1].keys != [] then 1 else 0)
  }

  function LookupCalls(calls: seq<Call>): nat {
    if calls == [] then 0 else LookupCalls(calls[..|calls| - 1]) + (if calls[|calls| - 1].LookupCall? then 1 else 0)
  }

  // ----- one key

  function Answered(n: Stats): int {
    n.writes.admissions + n.writes.rejections
  }

  ghost predicate SameAccounts(s: Store, s': Store) {
    && s'.stats.calls == s.stats.calls && s'.failed == s.failed
    && s'.stats.writes.admissions == s.stats.writes.admissions && s'.stats.writes.rejections == s.stats.writes.rejections
  }

  lemma {:induction false} WriteAccounts(cfg: Config, s: Store, key: PoolKey)
    ensures var (s1, op) := WriteTier(cfg, s, key);
            SameAccounts(s, s1) && SameAccounts(s, SettleWrite(cfg, s1, op, key))
  {
    var (s1, op) := WriteTier(cfg, s, key);
    DropVictimsFrame(cfg, RecordOffloadWrite(s1, op, key), op.evictedKeys, key);
    hide DropVictims, TierWrite;
  }

  lemma {:induction false} DisplaceAccounts(cfg: Config, s: Store, key: PoolKey)
    requires key in s.objects
    ensures SameAccounts(s, Displace(cfg, s, key))
  {
    var s1 := SetPlace(CountDemoted(cfg, s, s.objects[key]), key, Offload);
    assert SameAccounts(s, s1);
    WriteAccounts(cfg, s1, key);
    hide WriteTier, SettleWrite;
  }

  lemma {:induction false} EvictAccounts(cfg: Config, s: Store, rank: nat)
    requires LruOf(cfg, s, rank) != []
    ensures SameAccounts(s, EvictOldest(cfg, s, rank))
  {
    var key, s1 := LruOf(cfg, s, rank)[0], PopOldest(cfg, s, rank);
    assert SameAccounts(s, s1);
    if key in s1.objects && s1.objects[key].place.Memory? {
      assert SameAccounts(s, ReleaseMemory(cfg, s1, key, rank));
      DisplaceAccounts(cfg, ReleaseMemory(cfg, s1, key, rank), key);
      hide Displace;
    }
  }

  lemma {:induction false} RoomAccounts(cfg: Config, s: Store, rank: nat)
    ensures SameAccounts(s, EnsureRoom(cfg, s, rank).1)
    decreases |LruOf(cfg, s, rank)|
  {
    hide EvictOldest;
    if 1 <= MemoryCapacity(cfg) < UsedOf(cfg, s, rank) + 1 && cfg.lruEviction && LruOf(cfg, s, rank) != [] {
      EvictAccounts(cfg, s, rank);
      EvictOldestShrinks(cfg, s, rank);
      RoomAccounts(cfg, EvictOldest(cfg, s, rank), rank);
    }
  }

  lemma {:induction false} AdmitAccounts(cfg: Config, s: Store, key: PoolKey)
    ensures var s' := AdmitToMemory(cfg, s, key);
            s'.stats.calls == s.stats.calls && s'.failed == s.failed && Answered(s'.stats) == Answered(s.stats) + 1
  {
    var s1 := CountAdmission(CountSource(cfg, EnterMemory(cfg, s, key), key));
    assert s1.stats.calls == s.stats.calls && s1.failed == s.failed && Answered(s1.stats) == Answered(s.stats) + 1;
    WriteAccounts(cfg, s1, key);
    hide EnterMemory, CountSource, CountAdmission, WriteTier, SettleWrite;
  }

  lemma {:induction false} BypassAccounts(cfg: Config, s: Store, key: PoolKey)
    ensures var s' := BypassMemory(cfg, s, key);
            s'.stats.calls == s.stats.calls && s'.failed == s.failed && Answered(s'.stats) == Answered(s.stats) + 1
  {
    WriteAccounts(cfg, s, key);
    hide WriteTier, SettleWrite;
  }

  /** A put of one key either finds it stored, or admits or rejects it: one of the three. */
  lemma {:induction false} PutAccounts(cfg: Config, s: Store, key: PoolKey)
    requires !s.failed
    ensures var s' := PutOne(cfg, s, key);
            && s'.stats.calls == s.stats.calls
            && (!s'.failed ==> Answered(s'.stats) == Answered(s.stats) + (if key in s.objects then 0 else 1))
  {
    if key !in s.objects && !TooManyRanks(cfg, s, key) {
      var s1 := AssignRank(cfg, s, key);
      assert SameAccounts(s, s1);
      RoomAccounts(cfg, s1, RankIndex(s1, key));
      var (admitted, s2) := EnsureRoom(cfg, s1, RankIndex(s1, key));
      hide AssignRank, EnsureRoom, AdmitToMemory, BypassMemory;
      AdmitAccounts(cfg, s2, key);
      BypassAccounts(cfg, s2, key);
    }
  }

  lemma {:induction false} PutKeysAccounts(cfg: Config, s: Store, keys: seq<PoolKey>)
    requires !s.failed
    ensures var s' := PutKeys(cfg, s, keys);
            && s'.stats.calls == s.stats.calls
            && (!s'.failed ==> Answered(s'.stats) + StoredAlready(cfg, s, keys) == Answered(s.stats) + |keys|)
  {
    hide PutOne, Answered;
    if keys != [] {
      var front := keys[..|keys| - 1];
      PutKeysAccounts(cfg, s, front);
      if !PutKeys(cfg, s, front).failed {
        PutAccounts(cfg, PutKeys(cfg, s, front), keys[|keys| - 1]);
      }
    }
  }

  lemma {:induction false} GetKeysAccounts(cfg: Config, s: Store, keys: seq<PoolKey>)
    ensures var s', c := GetKeys(cfg, s, keys), s.stats.calls;
            && s'.stats.writes == s.stats.writes && s'.failed == s.failed
            && s'.stats.calls == c.(ssdReads := s'.stats.calls.ssdReads, memoryReads := s'.stats.calls.memoryReads)
  {
    if keys != [] {
      var front, key := keys[..|keys| - 1], keys[|keys| - 1];
      GetKeysAccounts(cfg, s, front);
      hide TierRead, MoveToEnd, GetKeys;
    }
  }

  lemma {:induction false} LookupAccounts(cfg: Config, s: Store, keys: seq<PoolKey>)
    ensures var s', c, c' := Lookup(cfg, s, keys), s.stats.calls, Lookup(cfg, s, keys).stats.calls;
            && s'.stats == s.stats.(calls := c') && s'.failed == s.failed
            && c'.gets == c.gets && c'.puts == c.puts
            && c'.storeHits + c'.storeMisses == c.storeHits + c.storeMisses + 1
            && c'.memoryHits + c'.diskHits - c'.storeHits == c.memoryHits + c.diskHits - c.storeHits
  {
    CreditStats(s, keys[..HitLength(cfg, s, keys)]);
    hide CreditReads, HitLength;
  }

  lemma {:induction false} CreditStats(s: Store, keys: seq<PoolKey>)
    ensures CreditReads(s, keys).stats == s.stats && CreditReads(s, keys).failed == s.failed
  {
    if keys != [] {
      CreditStats(s, keys[..|keys| - 1]);
    }
  }

  // ----- every run

  ghost predicate Accounts(admits: bool, repeated: nat, calls: seq<Call>, s: Store) {
    var c := s.stats.calls;
    && Answered(s.stats) + repeated == Offered(calls)
    && c.puts == (if admits then PutCalls(calls) else 0) && c.gets == GetCalls(calls)
    && c.storeHits + c.storeMisses == LookupCalls(calls) && c.storeHits == c.memoryHits + c.diskHits
  }

  lemma {:induction false} PutCallAccounts(cfg: Config, s: Store, keys: seq<PoolKey>)
    requires !s.failed
    ensures var s', c := Put(cfg, s, keys), s.stats.calls;
            && s'.stats.calls == c.(puts := c.puts + if cfg.admitAlways && keys != [] then 1 else 0)
            && (!s'.failed ==> Answered(s'.stats) + (if cfg.admitAlways then StoredAlready(cfg, CountPut(s), keys) else 0)
                               == Answered(s.stats) + |keys|)
  {
    PutKeysAccounts(cfg, CountPut(s), keys);
    hide PutKeys;
  }

  lemma {:induction false} StepAccounts(cfg: Config, front: seq<Call>, call: Call)
    requires Accounts(cfg.admitAlways, Repeated(cfg, front), front, Run(cfg, front)) && !Run(cfg, front + [call]).failed
    ensures var calls := front + [call]; Accounts(cfg.admitAlways, Repeated(cfg, calls), calls, Run(cfg, calls))
  {
    var s, calls := Run(cfg, front), front + [call];
    assert calls[..|calls| - 1] == front && calls[|calls| - 1] == call;
    assert Run(cfg, calls) == Step(cfg, s, call);
    hide Run, Answered, Put, GetKeys, Lookup, StoredAlready;
    match call
    case PutCall(keys) => PutCallAccounts(cfg, s, keys);
    case GetCall(keys) => GetKeysAccounts(cfg, CountGet(s), keys); SameAnswers(s, Step(cfg, s, call));
    case LookupCall(keys) => LookupAccounts(cfg, s, keys); SameAnswers(s, Step(cfg, s, call));
  }

  lemma {:induction false} SameAnswers(s: Store, s': Store)
    requires s'.stats.writes == s.stats.writes
    ensures Answered(s'.stats) == Answered(s.stats)
  {
  }

  lemma {:induction false} FailureStays(cfg: Config, front: seq<Call>, call: Call)
    requires Run(cfg, front).failed
    ensures Run(cfg, front + [call]) == Run(cfg, front)
  {
    var calls := front + [call];
    assert calls[..|calls| - 1] == front && calls[|calls| - 1] == call;
    hide Put, Get, Lookup;
  }

  /** Over every run that met no rank too many: each key offered was stored already, admitted or
      rejected; the calls of each kind are counted; and every lookup is a hit on one tier or a miss. */
  lemma {:induction false} EveryKeyAccounted(cfg: Config, calls: seq<Call>)
    requires !Run(cfg, calls).failed
    ensures Accounts(cfg.admitAlways, Repeated(cfg, calls), calls, Run(cfg, calls))
  {
    hide Run, Accounts, Repeated;
    if calls == [] {
      NoCalls(cfg, calls);
      NothingAccounted(cfg.admitAlways, calls, Run(cfg, calls));
    } else {
      var front, last := calls[..|calls| - 1], calls[|calls| - 1];
      assert calls == front + [last];
      if Run(cfg, front).failed {
        FailureStays(cfg, front, last);
      }
      EveryKeyAccounted(cfg, front);
      StepAccounts(cfg, front, last);
    }
  }

  lemma {:induction false} NoCalls(cfg: Config, calls: seq<Call>)
    requires calls == []
    ensures Repeated(cfg, calls) == 0
    ensures Run(cfg, calls).stats.calls == CallStats(0, 0, 0, 0, 0, 0, 0, 0) && Answered(Run(cfg, calls).stats) == 0
  {
    hide Step, StoredAlready;
  }

  lemma {:induction false} NothingAccounted(admits: bool, calls: seq<Call>, s: Store)
    requires calls == [] && s.stats.calls == CallStats(0, 0, 0, 0, 0, 0, 0, 0) && Answered(s.stats) == 0
    ensures Accounts(admits, 0, calls, s)
  {
    hide Offered, PutCalls, GetCalls, LookupCalls, Answered;
    NoneCounted(calls);
  }

  lemma {:induction false} NoneCounted(calls: seq<Call>)
    requires calls == []
    ensures Offered(calls) == 0 && PutCalls(calls) == 0 && GetCalls(calls) == 0 && LookupCalls(calls) == 0
  {
  }

  /** A store that admits nothing holds nothing, writes nothing and rejects every key offered. */
  lemma {:induction false} NoAdmissionRejectsAll(cfg: Config, calls: seq<Call>)
    requires !cfg.admitAlways
    ensures var s := Run(cfg, calls);
            && s == EMPTY_STORE.(stats := s.stats) && s.stats.writes == NO_STATS.writes.(rejections := Offered(calls))
            && s.stats.calls.storeMisses == LookupCalls(calls)
  {
    if calls != [] {
      var front, last := calls[..|calls| - 1], calls[|calls| - 1];
      NoAdmissionRejectsAll(cfg, front);
      var s := Run(cfg, front);
      match last
      case PutCall(keys) =>
      case GetCall(keys) => GetNothing(cfg, CountGet(s), keys);
      case LookupCall(keys) =>
        hide CreditReads;
        assert HitLength(cfg, s, keys) == 0;
        assert keys[..0] == [] && CreditReads(s, []) == s by { CreditNone(s); }
    }
  }

  lemma {:induction false} CreditNone(s: Store)
    ensures CreditReads(s, []) == s
  {
  }

  lemma {:induction false} GetNothing(cfg: Config, s: Store, keys: seq<PoolKey>)
    requires s.objects == map[]
    ensures GetKeys(cfg, s, keys) == s
  {
    if keys != [] {
      GetNothing(cfg, s, keys[..|keys| - 1]);
    }
  }
}

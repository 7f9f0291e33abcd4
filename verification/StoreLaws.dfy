/** What one eviction, get, lookup and put of the store do, in terms of its objects, orders and counters
    alone, and what a whole get or lookup does after any run. */
module StoreLaws {
  import opened Containers
  import opened Keys
  import opened OffloadTiers
  import opened StoreModel
  import opened StoreInvariant
  import opened StoreProvenance

  // ----- eviction

  /** What is left of the others: their counts, and all of them but offload objects the tier let go. */
  ghost predicate OthersStay(s: Store, s': Store, key: PoolKey) {
    && (forall k :: k != key && k in s'.objects ==> k in s.objects && s'.objects[k] == s.objects[k])
    && (forall k :: k != key && k in s.objects && k !in s'.objects ==>
          s.objects[k].place.Offload? && k !in TierAt(s', 0).held)
  }

  lemma {:induction false} WrittenTier(cfg: Config, s: Store, key: PoolKey)
    requires !cfg.partition.PerRank?
    ensures var (s1, op) := WriteTier(cfg, s, key);
            var s', (t', op') := SettleWrite(cfg, s1, op, key),
                                 TierWrite(TierAt(s, 0), OffloadCapacity(cfg), cfg.unlimited, key, 1);
            && op == op' && TierAt(s', 0) == t' && s'.memoryLru == s.memoryLru
            && s'.objects == DropVictims(cfg, RecordOffloadWrite(s1, op, key), op.evictedKeys, key).objects
  {
    hide TierWrite;
    var (s1, op) := WriteTier(cfg, s, key);
    DropVictimsFrame(cfg, RecordOffloadWrite(s1, op, key), op.evictedKeys, key);
    hide DropVictims;
  }

  lemma {:induction false} WrittenLast(cfg: Config, t: Tier, key: PoolKey)
    requires cfg.enableOffload && TierCoherent(cfg, t)
    ensures var (t', op) := TierWrite(t, OffloadCapacity(cfg), cfg.unlimited, key, 1);
            && key in t'.held && EndsWith(t'.lru, key) && t'.held == (t.held - KeySet(op.evictedKeys))[key := 1]
  {
    TierWriteOne(cfg, t, key);
    WriteContract(t, OffloadCapacity(cfg), cfg.unlimited, key, 1);
    hide TierWrite, Without, KeySet, TierCoherent;
  }

  lemma {:induction false} WrittenOthers(cfg: Config, s: Store, key: PoolKey)
    requires !cfg.partition.PerRank? && cfg.enableOffload && TierCoherent(cfg, TierAt(s, 0))
    ensures var (s1, op) := WriteTier(cfg, s, key); OthersStay(s, SettleWrite(cfg, s1, op, key), key)
    ensures var (s1, op) := WriteTier(cfg, s, key);
            var s' := SettleWrite(cfg, s1, op, key);
            (key in s'.objects <==> key in s.objects) && (key in s.objects ==> s'.objects[key] == s.objects[key])
  {
    var (s1, op) := WriteTier(cfg, s, key);
    assert s1.objects == s.objects;
    WrittenTier(cfg, s, key);
    WrittenLast(cfg, TierAt(s, 0), key);
    hide WriteTier, TierWrite, SettleWrite, TierAt, TierCoherent, EndsWith;
    DropVictimsObjects(cfg, RecordOffloadWrite(s1, op, key), op.evictedKeys, key);
    hide DropVictims;
  }

  lemma {:induction false} WriteLaw(cfg: Config, s: Store, key: PoolKey)
    requires cfg.enableOffload && !cfg.partition.PerRank? && TierCoherent(cfg, TierAt(s, 0))
    ensures var (s1, op) := WriteTier(cfg, s, key);
            var s' := SettleWrite(cfg, s1, op, key);
            && OthersStay(s, s', key) && (key in s'.objects <==> key in s.objects)
            && (key in s.objects ==> s'.objects[key] == s.objects[key])
            && key in TierAt(s', 0).held && EndsWith(TierAt(s', 0).lru, key) && s'.memoryLru == s.memoryLru
  {
    hide WriteTier, TierWrite, SettleWrite, TierAt, TierCoherent, EndsWith, OthersStay;
    WrittenTier(cfg, s, key);
    WrittenLast(cfg, TierAt(s, 0), key);
    WrittenOthers(cfg, s, key);
  }

  /** An evicted block that was read, or any evicted block under "always", becomes an offload object the
      tier holds as its most recent; an unread block under if_read leaves the tier alone and stays only
      if the tier has a copy already; without an offload tier every evicted block goes. */
  lemma {:induction false} EvictMeans(cfg: Config, s: Store, admitter: nat)
    requires !cfg.partition.PerRank? && Consistent(cfg, s) && s.memoryLru != []
    ensures var key, s' := s.memoryLru[0], EvictOldest(cfg, s, admitter);
            && key in s.objects && s'.memoryLru == s.memoryLru[1..]
            && OthersStay(s, s', key)
            && (key in s'.objects ==> s'.objects[key] == s.objects[key].(place := Offload))
            && (!cfg.enableOffload ==> key !in s'.objects && s'.tiers == s.tiers)
            && (cfg.enableOffload && (cfg.demote.Always? || s.objects[key].readCount >= 1) ==>
                  key in s'.objects && key in TierAt(s', 0).held && EndsWith(TierAt(s', 0).lru, key))
            && (cfg.enableOffload && cfg.demote.IfRead? && s.objects[key].readCount == 0 ==>
                  s'.tiers == s.tiers && (key in s'.objects <==> key in TierAt(s, 0).held))
  {
    ReleasedUnlisted(cfg, s, admitter);
    EvictOldestShrinks(cfg, s, admitter);
    var key := s.memoryLru[0];
    var s1 := ReleaseMemory(cfg, PopOldest(cfg, s, admitter), key, admitter);
    assert s1.tiers == s.tiers;
    hide EvictOldest, ReleaseMemory, PopOldest, Consistent;
    DisplaceMeans(cfg, s1, key);
    hide Displace;
    assert TierAt(s1, 0) == TierAt(s, 0);
  }

  lemma {:induction false} DemoteMeans(cfg: Config, s: Store, key: PoolKey)
    requires !cfg.partition.PerRank? && Unlisted(s, key) && OffloadCoherent(cfg, s) && cfg.enableOffload
    requires cfg.demote.Always? || s.objects[key].readCount >= 1
    ensures var s' := Displace(cfg, s, key);
            && OthersStay(s, s', key) && key in s'.objects && s'.objects[key] == s.objects[key].(place := Offload)
            && key in TierAt(s', 0).held && EndsWith(TierAt(s', 0).lru, key)
  {
    var s1 := SetPlace(CountDemoted(cfg, s, s.objects[key]), key, Offload);
    assert TierAt(s1, 0) == TierAt(s, 0) && s1.objects == s.objects[key := s.objects[key].(place := Offload)];
    WriteLaw(cfg, s1, key);
    hide WriteTier, SettleWrite, TierCoherent, EndsWith, OffloadCoherent, Unlisted, SetPlace, CountDemoted, TierAt,
         OthersStay;
    OthersStayFrom(s, s1, Displace(cfg, s, key), key);
  }

  lemma {:induction false} OthersStayFrom(s: Store, s1: Store, s': Store, key: PoolKey)
    requires OthersStay(s1, s', key) && key in s.objects
    requires s1.objects == s.objects[key := s.objects[key].(place := Offload)]
    ensures OthersStay(s, s', key)
  {
    hide TierAt;
  }

  lemma {:induction false} DropMeans(cfg: Config, s: Store, key: PoolKey)
    requires !cfg.partition.PerRank? && key in s.objects && key !in s.memoryLru
    requires !cfg.enableOffload || (cfg.demote.IfRead? && s.objects[key].readCount == 0)
    ensures var s' := Displace(cfg, s, key);
            && OthersStay(s, s', key) && s'.tiers == s.tiers
            && (key in s'.objects <==> cfg.enableOffload && key in TierAt(s, 0).held)
            && (key in s'.objects ==> s'.objects[key] == s.objects[key].(place := Offload))
  {
  }

  lemma {:induction false} DisplaceMeans(cfg: Config, s: Store, key: PoolKey)
    requires !cfg.partition.PerRank? && Unlisted(s, key) && OffloadCoherent(cfg, s)
    ensures var s' := Displace(cfg, s, key);
            && OthersStay(s, s', key)
            && (key in s'.objects ==> s'.objects[key] == s.objects[key].(place := Offload))
            && (!cfg.enableOffload ==> key !in s'.objects && s'.tiers == s.tiers)
            && (cfg.enableOffload && (cfg.demote.Always? || s.objects[key].readCount >= 1) ==>
                  key in s'.objects && key in TierAt(s', 0).held && EndsWith(TierAt(s', 0).lru, key))
            && (cfg.enableOffload && cfg.demote.IfRead? && s.objects[key].readCount == 0 ==>
                  s'.tiers == s.tiers && (key in s'.objects <==> key in TierAt(s, 0).held))
  {
    assert key in s.objects && key !in s.memoryLru;
    hide Displace, OthersStay, EndsWith, TierAt, OffloadCoherent, Unlisted;
    if cfg.enableOffload && (cfg.demote.Always? || s.objects[key].readCount >= 1) {
      DemoteMeans(cfg, s, key);
    } else {
      DropMeans(cfg, s, key);
    }
  }

  // ----- get

  /** A read of a stored key that HBF serves: an offload object, with an offload tier there. */
  predicate FromTier(cfg: Config, s: Store, key: PoolKey) {
    key in s.objects && s.objects[key].place.Offload? && cfg.enableOffload
  }

  predicate FromMemory(cfg: Config, s: Store, key: PoolKey) {
    key in s.objects && !FromTier(cfg, s, key)
  }

  /** Only a key's two read counts change: by one read from memory or not, and by its credit. */
  ghost predicate ReadOnce(cfg: Config, s: Store, s': Store, key: PoolKey, served: nat) {
    && s'.objects.Keys == s.objects.Keys
    && (forall k :: k in s.objects && k != key ==> s'.objects[k] == s.objects[k])
    && (key in s.objects ==>
          var o := s.objects[key];
          s'.objects[key] == Object(o.place, o.readCount + (if cfg.creditOnServe then 1 else 0), o.pcmServedReads + served))
  }

  lemma {:induction false} TierReadMeans(t: Tier, key: PoolKey)
    requires ValidTier(t) && key in t.held
    ensures var (t', op) := TierRead(t, key);
            && t' == t.(lru := t'.lru) && t'.lru == MoveToEnd(t.lru, key) && op.blocks == t.held[key]
  {
  }

  lemma {:induction false} GetFromTier(cfg: Config, s: Store, key: PoolKey)
    requires !cfg.partition.PerRank? && FromTier(cfg, s, key)
    requires ValidTier(TierAt(s, 0)) && key in TierAt(s, 0).held && TierAt(s, 0).held[key] == 1
    ensures var s', t, c := GetOne(cfg, s, key), TierAt(s, 0), s.stats.calls;
            && s'.stats == s.stats.(calls := c.(ssdReads := c.ssdReads + 1)) && ReadOnce(cfg, s, s', key, 0)
            && TierAt(s', 0) == t.(lru := MoveToEnd(t.lru, key)) && s'.memoryLru == s.memoryLru
  {
    TierReadMeans(TierAt(s, 0), key);
    assert Touch(cfg, s, key) == s;
    hide TierRead, MoveToEnd, Touch, ValidTier;
  }

  lemma {:induction false} GetFromMemory(cfg: Config, s: Store, key: PoolKey)
    requires !cfg.partition.PerRank? && key in s.objects && s.objects[key].place.Memory? && key in s.memoryLru
    ensures var s', c := GetOne(cfg, s, key), s.stats.calls;
            && s'.stats == s.stats.(calls := c.(memoryReads := c.memoryReads + 1)) && ReadOnce(cfg, s, s', key, 1)
            && s'.tiers == s.tiers && s'.memoryLru == MoveToEnd(s.memoryLru, key)
  {
    hide MoveToEnd;
  }

  lemma {:induction false} GetAbsent(cfg: Config, s: Store, key: PoolKey)
    requires key !in s.objects
    ensures GetOne(cfg, s, key) == s
  {
  }

  lemma {:induction false} PlacesKnown(cfg: Config, s: Store, key: PoolKey)
    requires !cfg.partition.PerRank? && Coherent(cfg, s)
    ensures FromTier(cfg, s, key) ==>
              ValidTier(TierAt(s, 0)) && key in TierAt(s, 0).held && TierAt(s, 0).held[key] == 1
    ensures FromMemory(cfg, s, key) ==> s.objects[key].place.Memory? && key in s.memoryLru
  {
  }

  /** One key of a get. An absent key changes nothing. An offload object is read from the tier: one HBF
      read more, and the key ends last in the tier's order. Any other is read from memory: one memory
      read more for the store and for the object, the tier as it was. */
  lemma {:induction false} GetMeans(cfg: Config, s: Store, key: PoolKey)
    requires !cfg.partition.PerRank? && Coherent(cfg, s)
    ensures var s', t := GetOne(cfg, s, key), TierAt(s, 0);
            var c, c' := s.stats.calls, s'.stats.calls;
            && s'.stats == s.stats.(calls := c')
            && (key !in s.objects ==> s' == s)
            && (FromTier(cfg, s, key) ==>
                  && ReadOnce(cfg, s, s', key, 0) && c' == c.(ssdReads := c.ssdReads + 1)
                  && TierAt(s', 0) == t.(lru := MoveToEnd(t.lru, key)) && s'.memoryLru == s.memoryLru)
            && (FromMemory(cfg, s, key) ==>
                  && ReadOnce(cfg, s, s', key, 1) && c' == c.(memoryReads := c.memoryReads + 1)
                  && TierAt(s', 0) == t && s'.memoryLru == MoveToEnd(s.memoryLru, key))
  {
    PlacesKnown(cfg, s, key);
    hide Coherent, GetOne, MoveToEnd, ReadOnce, ValidTier;
    if FromTier(cfg, s, key) {
      GetFromTier(cfg, s, key);
    } else if FromMemory(cfg, s, key) {
      GetFromMemory(cfg, s, key);
    } else {
      GetAbsent(cfg, s, key);
    }
  }

  /** An order after some of its keys have been moved to the end, one after the other. */
  function Refreshed(order: seq<PoolKey>, keys: seq<PoolKey>): seq<PoolKey> {
    if keys == [] then order else MoveToEnd(Refreshed(order, keys[..|keys| - 1]), keys[|keys| - 1])
  }

  ghost function TierKeys(cfg: Config, s: Store, keys: seq<PoolKey>): seq<PoolKey> {
    if keys == [] then []
    else
      var front, last := keys[..|keys| - 1], keys[|keys| - 1];
      TierKeys(cfg, s, front) + (if FromTier(cfg, s, last) then [last] else [])
  }

  ghost function MemoryKeys(cfg: Config, s: Store, keys: seq<PoolKey>): seq<PoolKey> {
    if keys == [] then []
    else
      var front, last := keys[..|keys| - 1], keys[|keys| - 1];
      MemoryKeys(cfg, s, front) + (if FromMemory(cfg, s, last) then [last] else [])
  }

  /** An object of the store after `n` reads of it. */
  ghost predicate ReadTimes(cfg: Config, s: Store, s': Store, k: PoolKey, n: nat)
    requires k in s.objects && k in s'.objects
  {
    var o := s.objects[k];
    s'.objects[k] == Object(o.place, o.readCount + (if cfg.creditOnServe then n else 0),
                            o.pcmServedReads + (if FromTier(cfg, s, k) then 0 else n))
  }

  /** The counts of every object after these keys have been read. */
  ghost predicate ReadAll(cfg: Config, s: Store, s': Store, keys: seq<PoolKey>) {
    && (forall k :: k in s'.objects <==> k in s.objects)
    && forall k :: k in s.objects ==> ReadTimes(cfg, s, s', k, multiset(keys)[k])
  }

  lemma {:induction false} OccursMore(front: seq<PoolKey>, key: PoolKey, k: PoolKey)
    ensures multiset(front + [key])[k] == multiset(front)[k] + (if k == key then 1 else 0)
  {
  }

  lemma {:induction false} SameSources(cfg: Config, s: Store, s': Store, keys: seq<PoolKey>, key: PoolKey)
    requires ReadAll(cfg, s, s', keys)
    ensures FromTier(cfg, s', key) == FromTier(cfg, s, key) && FromMemory(cfg, s', key) == FromMemory(cfg, s, key)
  {
  }

  lemma {:induction false} ReadMembers(cfg: Config, s: Store, s': Store, key: PoolKey, served: nat)
    requires key in s.objects && ReadOnce(cfg, s, s', key, served)
    ensures forall k :: k in s'.objects <==> k in s.objects
    ensures forall k :: k in s.objects && k != key ==> s'.objects[k] == s.objects[k]
  {
    forall k ensures k in s'.objects <==> k in s.objects {
      assert k in s'.objects.Keys <==> k in s.objects.Keys;
    }
  }

  lemma {:induction false} ReadOneMore(cfg: Config, s: Store, s1: Store, s2: Store, front: seq<PoolKey>, key: PoolKey)
    requires ReadAll(cfg, s, s1, front)
    requires key !in s1.objects ==> s2 == s1
    requires key in s1.objects ==> ReadOnce(cfg, s1, s2, key, if FromTier(cfg, s1, key) then 0 else 1)
    ensures ReadAll(cfg, s, s2, front + [key])
  {
    SameSources(cfg, s, s1, front, key);
    hide FromTier;
    if key in s1.objects {
      ReadMembers(cfg, s1, s2, key, if FromTier(cfg, s1, key) then 0 else 1);
    }
    forall k | k in s.objects ensures k in s2.objects && ReadTimes(cfg, s, s2, k, multiset(front + [key])[k]) {
      OccursMore(front, key, k);
    }
  }

  lemma {:induction false} SourceKeysSnoc(cfg: Config, s: Store, front: seq<PoolKey>, key: PoolKey)
    ensures TierKeys(cfg, s, front + [key]) == TierKeys(cfg, s, front) + (if FromTier(cfg, s, key) then [key] else [])
    ensures MemoryKeys(cfg, s, front + [key])
         == MemoryKeys(cfg, s, front) + (if FromMemory(cfg, s, key) then [key] else [])
  {
    assert (front + [key])[..|front|] == front;
  }

  /** `s'` is `s` after these keys have been got: counters, counts and orders. */
  ghost predicate Got(cfg: Config, s: Store, s': Store, keys: seq<PoolKey>) {
    var t, c, tier, memory := TierAt(s, 0), s.stats.calls, TierKeys(cfg, s, keys), MemoryKeys(cfg, s, keys);
    && ReadAll(cfg, s, s', keys)
    && s'.stats == s.stats.(calls := c.(ssdReads := c.ssdReads + |tier|, memoryReads := c.memoryReads + |memory|))
    && TierAt(s', 0) == t.(lru := Refreshed(t.lru, tier))
    && s'.memoryLru == Refreshed(s.memoryLru, memory)
  }

  lemma {:induction false} GotOneMore(cfg: Config, s: Store, s1: Store, s2: Store, front: seq<PoolKey>, key: PoolKey)
    requires !cfg.partition.PerRank? && Got(cfg, s, s1, front) && Coherent(cfg, s1) && s2 == GetOne(cfg, s1, key)
    ensures Got(cfg, s, s2, front + [key])
  {
    hide Coherent, GetOne, ReadAll, ReadOnce, MoveToEnd, FromTier, FromMemory, Refreshed, TierKeys, MemoryKeys, TierAt;
    GetMeans(cfg, s1, key);
    SameSources(cfg, s, s1, front, key);
    SourceKeysSnoc(cfg, s, front, key);
    SourceAbsent(cfg, s1, key);
    ReadOneMore(cfg, s, s1, s2, front, key);
    RefreshMore(s.memoryLru, MemoryKeys(cfg, s, front), key);
    RefreshMore(TierAt(s, 0).lru, TierKeys(cfg, s, front), key);
    assert MemoryKeys(cfg, s, front) + [] == MemoryKeys(cfg, s, front);
    assert TierKeys(cfg, s, front) + [] == TierKeys(cfg, s, front);
  }

  lemma {:induction false} SourceAbsent(cfg: Config, s: Store, key: PoolKey)
    ensures key in s.objects <==> FromTier(cfg, s, key) || FromMemory(cfg, s, key)
    ensures !(FromTier(cfg, s, key) && FromMemory(cfg, s, key))
  {
  }

  lemma {:induction false} GotNothing(cfg: Config, s: Store)
    ensures Got(cfg, s, s, [])
  {
    var none: seq<PoolKey> := [];
    assert forall k :: multiset(none)[k] == 0;
  }

  lemma {:induction false} GetAllMeans(cfg: Config, s: Store, keys: seq<PoolKey>)
    requires !cfg.partition.PerRank? && Coherent(cfg, s)
    ensures Got(cfg, s, GetKeys(cfg, s, keys), keys)
  {
    hide Got, Coherent, GetOne;
    if keys == [] {
      GotNothing(cfg, s);
    } else {
      var front, key := keys[..|keys| - 1], keys[|keys| - 1];
      assert keys == front + [key];
      GetAllMeans(cfg, s, front);
      GetKeysCoherent(cfg, s, front);
      GotOneMore(cfg, s, GetKeys(cfg, s, front), GetKeys(cfg, s, keys), front, key);
    }
  }

  lemma {:induction false} RefreshMore(order: seq<PoolKey>, front: seq<PoolKey>, key: PoolKey)
    ensures Refreshed(order, front + [key]) == MoveToEnd(Refreshed(order, front), key)
  {
    assert (front + [key])[..|front|] == front;
  }

  /** A get after any run: as many HBF reads as keys that name offload objects, as many memory reads as
      keys that name others, each object credited by its own reads, and each tier's order refreshed by
      the keys it served, in turn. */
  lemma {:induction false} GetCallMeans(cfg: Config, calls: seq<Call>, keys: seq<PoolKey>)
    requires !cfg.partition.PerRank? && keys != []
    ensures var s, s' := Run(cfg, calls), Run(cfg, calls + [GetCall(keys)]); Got(cfg, CountGet(s), s', keys)
  {
    var s := Run(cfg, calls);
    assert (calls + [GetCall(keys)])[..|calls|] == calls;
    RunCoherent(cfg, calls);
    assert !s.failed;
    BookkeepingCoherent(cfg, s, CountGet(s));
    assert Run(cfg, calls + [GetCall(keys)]) == GetKeys(cfg, CountGet(s), keys);
    hide Run, Coherent, GetKeys, Got;
    GetAllMeans(cfg, CountGet(s), keys);
  }

  // ----- lookup

  /** `n` is the length of the longest prefix of stored keys. */
  predicate Found(s: Store, keys: seq<PoolKey>, n: nat) {
    && n <= |keys| && (forall i :: 0 <= i < n ==> keys[i] in s.objects)
    && (n < |keys| ==> keys[n] !in s.objects)
  }

  /** One of them is an offload object. */
  predicate FoundOffload(s: Store, keys: seq<PoolKey>, n: nat)
    requires Found(s, keys, n)
  {
    exists i :: 0 <= i < n && s.objects[keys[i]].place.Offload?
  }

  /** The counters after a lookup that found `n` keys. */
  ghost predicate LookedUp(s: Store, s': Store, keys: seq<PoolKey>, n: nat)
    requires Found(s, keys, n)
  {
    var c := s.stats.calls;
    s'.stats == s.stats.(calls :=
      if n == 0 then c.(storeMisses := c.storeMisses + 1)
      else if FoundOffload(s, keys, n) then c.(storeHits := c.storeHits + 1, diskHits := c.diskHits + 1)
      else c.(storeHits := c.storeHits + 1, memoryHits := c.memoryHits + 1))
  }

  ghost predicate CreditAll(s: Store, s': Store, hits: seq<PoolKey>, credit: bool) {
    && s' == s.(objects := s'.objects, stats := s'.stats)
    && s'.objects.Keys == s.objects.Keys
    && forall k :: k in s.objects ==>
         var o := s.objects[k];
         s'.objects[k] == o.(readCount := o.readCount + (if credit then multiset(hits)[k] else 0))
  }

  lemma {:induction false} CreditReadsMeans(s: Store, hits: seq<PoolKey>)
    ensures CreditAll(s, CreditReads(s, hits), hits, true) && CreditReads(s, hits).stats == s.stats
  {
    if hits != [] {
      var front, key := hits[..|hits| - 1], hits[|hits| - 1];
      assert hits == front + [key];
      CreditReadsMeans(s, front);
      CreditOneMore(s, CreditReads(s, front), front, key);
    }
  }

  lemma {:induction false} CreditOneMore(s: Store, s1: Store, front: seq<PoolKey>, key: PoolKey)
    requires CreditAll(s, s1, front, true)
    ensures var s2 := if key in s1.objects
                      then s1.(objects := s1.objects[key := s1.objects[key].(readCount := s1.objects[key].readCount + 1)])
                      else s1;
            CreditAll(s, s2, front + [key], true)
  {
    assert key in s1.objects <==> key in s1.objects.Keys;
    forall k | k in s.objects ensures k in s1.objects && (k == key ==> key in s1.objects) {
      assert k in s1.objects.Keys;
    }
    forall k ensures multiset(front + [key])[k] == multiset(front)[k] + (if k == key then 1 else 0) {
      OccursMore(front, key, k);
    }
  }

  lemma {:induction false} FoundIsHit(cfg: Config, s: Store, keys: seq<PoolKey>, n: nat)
    requires !cfg.partition.PerRank? && Coherent(cfg, s) && Found(s, keys, n)
    ensures HitLength(cfg, s, keys) == n
  {
    var m := HitLength(cfg, s, keys);
    forall k ensures Present(cfg, s, k) <==> k in s.objects {
    }
    hide Coherent, Present, HitLength;
    assert m < n ==> Present(cfg, s, keys[m]);
    assert n < m ==> Present(cfg, s, keys[n]);
  }

  lemma {:induction false} AnyOffloadIs(s: Store, keys: seq<PoolKey>, n: nat)
    requires Found(s, keys, n)
    ensures AnyOffload(s, keys[..n]) <==> FoundOffload(s, keys, n)
  {
    forall i | 0 <= i < n ensures keys[..n][i] == keys[i] {
    }
  }

  lemma {:induction false} NoCredit(s: Store, hits: seq<PoolKey>)
    ensures CreditAll(s, s, hits, false)
  {
  }

  /** A lookup of a coherent store finds the longest prefix of stored keys; it counts a miss, or a hit on
      the offload tier if one of them is an offload object, else on memory; it credits each key found
      once per occurrence unless credit waits for the read; and it moves nothing. */
  lemma {:induction false} LookupMeans(cfg: Config, s: Store, keys: seq<PoolKey>, n: nat)
    requires !cfg.partition.PerRank? && Coherent(cfg, s) && Found(s, keys, n)
    ensures CreditAll(s, Lookup(cfg, s, keys), keys[..n], !cfg.creditOnServe)
    ensures LookedUp(s, Lookup(cfg, s, keys), keys, n)
  {
    var hits := keys[..n];
    var s1 := if cfg.creditOnServe then s else CreditReads(s, hits);
    CreditedCount(s, s1, hits, !cfg.creditOnServe, keys, n) by {
      NoCredit(s, hits);
      CreditReadsMeans(s, hits);
      hide CreditAll;
    }
    hide HitLength, CreditReads, AnyOffload, FoundOffload, CreditAll, Coherent, Found, Lookup, CountLookup, LookedUp;
    FoundIsHit(cfg, s, keys, n);
    LookupForm(cfg, s, keys, n);
  }

  lemma {:induction false} LookupForm(cfg: Config, s: Store, keys: seq<PoolKey>, n: nat)
    requires Found(s, keys, n) && HitLength(cfg, s, keys) == n
    ensures Lookup(cfg, s, keys)
         == CountLookup(if cfg.creditOnServe then s else CreditReads(s, keys[..n]), n != 0, FoundOffload(s, keys, n))
  {
    AnyOffloadIs(s, keys, n);
    hide HitLength, CreditReads, AnyOffload, FoundOffload, CountLookup, Found;
    assert keys[..n] == [] <==> n == 0;
  }

  lemma {:induction false} CreditedCount(s: Store, s1: Store, hits: seq<PoolKey>, credit: bool, keys: seq<PoolKey>,
                                         n: nat)
    requires CreditAll(s, s1, hits, credit) && s1.stats == s.stats && Found(s, keys, n)
    ensures var s' := CountLookup(s1, n != 0, FoundOffload(s, keys, n));
            CreditAll(s, s', hits, credit) && LookedUp(s, s', keys, n)
  {
    hide Found, FoundOffload;
  }

  // ----- put

  /** The memory tier can take one more block, if need be by evicting one. */
  predicate CanEnter(cfg: Config, s: Store) {
    cfg.memoryCapacity >= 1 && (|s.memoryLru| < cfg.memoryCapacity || cfg.lruEviction)
  }

  ghost predicate OthersKeepCounts(s: Store, s': Store, key: PoolKey) {
    forall k :: k != key && k in s'.objects ==>
      && k in s.objects && s'.objects[k].readCount == s.objects[k].readCount
      && s'.objects[k].pcmServedReads == s.objects[k].pcmServedReads
  }

  /** The objects that stay keep their read counts. */
  ghost predicate KeepCounts(s: Store, s': Store) {
    forall k :: k in s'.objects ==>
      && k in s.objects && s'.objects[k].readCount == s.objects[k].readCount
      && s'.objects[k].pcmServedReads == s.objects[k].pcmServedReads
  }

  lemma {:induction false} EvictedCounts(cfg: Config, s: Store, rank: nat)
    requires !cfg.partition.PerRank? && Consistent(cfg, s) && s.memoryLru != []
    ensures KeepCounts(s, EvictOldest(cfg, s, rank))
  {
    EvictMeans(cfg, s, rank);
    hide EvictOldest, Consistent, EndsWith, OthersStay, TierAt;
    EvicteeCounts(s, EvictOldest(cfg, s, rank), s.memoryLru[0]);
  }

  lemma {:induction false} EvicteeCounts(s: Store, s': Store, key: PoolKey)
    requires OthersStay(s, s', key) && key in s.objects
    requires key in s'.objects ==> s'.objects[key] == s.objects[key].(place := Offload)
    ensures KeepCounts(s, s')
  {
    hide TierAt;
  }

  lemma {:induction false} CoherentConsistent(cfg: Config, s: Store)
    requires Coherent(cfg, s)
    ensures Consistent(cfg, s)
  {
  }

  lemma {:induction false} RoomMeans(cfg: Config, s: Store, rank: nat)
    requires !cfg.partition.PerRank? && Coherent(cfg, s)
    ensures var (ok, s') := EnsureRoom(cfg, s, rank);
            && ok == CanEnter(cfg, s) && Coherent(cfg, s') && (!ok ==> s' == s)
            && (ok ==> |s'.memoryLru| < cfg.memoryCapacity)
            && s'.memoryLru == (if ok && |s.memoryLru| == cfg.memoryCapacity then s.memoryLru[1..] else s.memoryLru)
            && KeepCounts(s, s') && s'.seen == s.seen
  {
    EnsureRoomOnce(cfg, s, rank);
    EnsureRoomCoherent(cfg, s, rank);
    assert |s.memoryLru| <= cfg.memoryCapacity;
    CoherentConsistent(cfg, s);
    hide EnsureRoom, EvictOldest, Coherent, Consistent;
    if 1 <= cfg.memoryCapacity <= |s.memoryLru| && cfg.lruEviction {
      EvictedCounts(cfg, s, rank);
      EvictedSeen(cfg, s, rank);
      EvictOldestShrinks(cfg, s, rank);
    }
  }

  lemma {:induction false} EvictedSeen(cfg: Config, s: Store, rank: nat)
    requires !cfg.partition.PerRank? && Consistent(cfg, s) && s.memoryLru != []
    ensures EvictOldest(cfg, s, rank).seen == s.seen
  {
    ReleasedUnlisted(cfg, s, rank);
    var key := s.memoryLru[0];
    DisplaceFrame(cfg, ReleaseMemory(cfg, PopOldest(cfg, s, rank), key, rank), key);
    hide Displace;
  }

  lemma {:induction false} EnteredMeans(cfg: Config, s: Store, key: PoolKey)
    requires !cfg.partition.PerRank? && Coherent(cfg, s) && key !in s.objects && |s.memoryLru| < cfg.memoryCapacity
    ensures var s1 := CountAdmission(CountSource(cfg, EnterMemory(cfg, s, key), key));
            && Coherent(cfg, s1) && s1.objects == s.objects[key := Object(Memory, 0, 0)]
            && s1.memoryLru == s.memoryLru + [key] && s1.tiers == s.tiers && (cfg.countSource ==> key in s1.seen)
  {
    EnterMemoryCoherent(cfg, s, key);
    var s0 := EnterMemory(cfg, s, key);
    assert s0.objects == s.objects[key := Object(Memory, 0, 0)] && s0.memoryLru == s.memoryLru + [key]
           && s0.tiers == s.tiers;
    hide EnterMemory, Coherent;
    BookkeepingCoherent(cfg, s0, CountAdmission(CountSource(cfg, s0, key)));
  }

  lemma {:induction false} TierOk(cfg: Config, s: Store, key: PoolKey)
    requires !cfg.partition.PerRank? && Coherent(cfg, s) && cfg.enableOffload && key !in s.objects
    ensures TierCoherent(cfg, TierAt(s, 0)) && TablesAgreeBut(s, key) && key !in TierAt(s, 0).held
  {
  }

  lemma {:induction false} OthersStayCounts(s: Store, s1: Store, s': Store, key: PoolKey)
    requires OthersStay(s1, s', key) && forall k :: k != key && k in s1.objects ==> k in s.objects && s1.objects[k] == s.objects[k]
    ensures OthersKeepCounts(s, s', key)
  {
    hide TierAt;
  }

  lemma {:induction false} AdmitMeans(cfg: Config, s: Store, key: PoolKey)
    requires !cfg.partition.PerRank? && Coherent(cfg, s) && key !in s.objects && |s.memoryLru| < cfg.memoryCapacity
    ensures var s' := AdmitToMemory(cfg, s, key);
            && key in s'.objects && s'.objects[key] == Object(Memory, 0, 0) && OthersKeepCounts(s, s', key)
            && s'.memoryLru == s.memoryLru + [key]
            && (cfg.enableOffload && cfg.write.WriteThrough? ==>
                  key in TierAt(s', 0).held && EndsWith(TierAt(s', 0).lru, key))
            && (!(cfg.enableOffload && cfg.write.WriteThrough?) ==> s'.tiers == s.tiers)
            && (cfg.countSource ==> key in s'.seen)
  {
    var s1 := CountAdmission(CountSource(cfg, EnterMemory(cfg, s, key), key));
    EnteredMeans(cfg, s, key);
    if cfg.enableOffload && cfg.write.WriteThrough? {
      TierOk(cfg, s, key);
      assert TierAt(s1, 0) == TierAt(s, 0);
      WriteThroughCoherent(cfg, s1, key);
      WriteLaw(cfg, s1, key);
      var (s2, op) := WriteTier(cfg, s1, key);
      SettledSeen(cfg, s1, key);
      hide Coherent, EnterMemory, CountSource, CountAdmission, WriteTier, SettleWrite, TierCoherent, TablesAgreeBut,
           EndsWith, OthersStay, OthersKeepCounts, TierAt;
      OthersStayCounts(s, s1, SettleWrite(cfg, s2, op, key), key);
    } else {
      hide Coherent, EnterMemory, CountSource, CountAdmission;
    }
  }

  lemma {:induction false} SettledSeen(cfg: Config, s: Store, key: PoolKey)
    ensures var (s1, op) := WriteTier(cfg, s, key); SettleWrite(cfg, s1, op, key).seen == s.seen
  {
    hide TierWrite;
    var (s1, op) := WriteTier(cfg, s, key);
    DropVictimsFrame(cfg, RecordOffloadWrite(s1, op, key), op.evictedKeys, key);
    hide DropVictims;
  }

  lemma {:induction false} BypassedMeans(cfg: Config, s: Store, key: PoolKey)
    requires !cfg.partition.PerRank? && Coherent(cfg, s) && key !in s.objects && cfg.enableOffload
    ensures var s' := BypassMemory(cfg, s, key);
            && s'.memoryLru == s.memoryLru && OthersKeepCounts(s, s', key)
            && key in s'.objects && s'.objects[key] == Object(Offload, 0, 0)
            && key in TierAt(s', 0).held && EndsWith(TierAt(s', 0).lru, key)
            && (cfg.countSource ==> key in s'.seen)
  {
    TierOk(cfg, s, key);
    WriteSettles(cfg, s, key);
    WriteLaw(cfg, s, key);
    var (s1, op) := WriteTier(cfg, s, key);
    var s2 := SettleWrite(cfg, s1, op, key);
    hide Coherent, WriteTier, SettleWrite, EndsWith, OthersStay, OthersKeepCounts, TierCoherent, TablesAgreeBut;
    OthersStayCounts(s, s, s2, key);
    PlacedCounts(s, s2, BypassMemory(cfg, s, key), key);
  }

  lemma {:induction false} PlacedCounts(s: Store, s2: Store, s': Store, key: PoolKey)
    requires OthersKeepCounts(s, s2, key) && s'.objects == s2.objects[key := Object(Offload, 0, 0)]
    ensures OthersKeepCounts(s, s', key)
  {
  }

  lemma {:induction false} BypassMeans(cfg: Config, s: Store, key: PoolKey)
    requires !cfg.partition.PerRank? && Coherent(cfg, s) && key !in s.objects
    ensures var s' := BypassMemory(cfg, s, key);
            && s'.memoryLru == s.memoryLru && OthersKeepCounts(s, s', key)
            && (cfg.enableOffload ==>
                  && key in s'.objects && s'.objects[key] == Object(Offload, 0, 0)
                  && key in TierAt(s', 0).held && EndsWith(TierAt(s', 0).lru, key)
                  && (cfg.countSource ==> key in s'.seen))
            && (!cfg.enableOffload ==> s'.objects == s.objects && s'.tiers == s.tiers && s'.seen == s.seen)
  {
    hide Coherent, EndsWith, TierAt;
    if cfg.enableOffload {
      hide BypassMemory, OthersKeepCounts;
      BypassedMeans(cfg, s, key);
    }
  }

  lemma {:induction false} CountsThen(s: Store, s1: Store, s': Store, key: PoolKey)
    requires KeepCounts(s, s1) && OthersKeepCounts(s1, s', key)
    ensures OthersKeepCounts(s, s', key)
  {
  }

  lemma {:induction false} KeptAbsent(s: Store, s': Store, key: PoolKey)
    requires KeepCounts(s, s') && key !in s.objects
    ensures key !in s'.objects
  {
  }

  lemma {:induction false} AssignedSame(cfg: Config, s: Store, key: PoolKey)
    ensures var s' := AssignRank(cfg, s, key); s' == s.(ranks := s'.ranks)
  {
  }

  /** A put of an absent key: if memory can take it, a new unread object there, most recent, the oldest
      making way when memory was full, with an offload copy under write-through; else a new unread object
      on the offload tier; else nothing. Every object that stays keeps its read counts. */
  lemma {:induction false} PutMeans(cfg: Config, s: Store, key: PoolKey)
    requires !cfg.partition.PerRank? && Coherent(cfg, s) && key !in s.objects
    ensures var s' := PutOne(cfg, s, key);
            && OthersKeepCounts(s, s', key)
            && (CanEnter(cfg, s) ==>
                  && key in s'.objects && s'.objects[key] == Object(Memory, 0, 0)
                  && s'.memoryLru == (if |s.memoryLru| == cfg.memoryCapacity then s.memoryLru[1..] else s.memoryLru) + [key]
                  && (cfg.enableOffload && cfg.write.WriteThrough? ==>
                        key in TierAt(s', 0).held && EndsWith(TierAt(s', 0).lru, key)))
            && (!CanEnter(cfg, s) && cfg.enableOffload ==>
                  && key in s'.objects && s'.objects[key] == Object(Offload, 0, 0) && s'.memoryLru == s.memoryLru
                  && key in TierAt(s', 0).held && EndsWith(TierAt(s', 0).lru, key))
            && (!CanEnter(cfg, s) && !cfg.enableOffload ==>
                  s'.objects == s.objects && s'.memoryLru == s.memoryLru && s'.tiers == s.tiers)
            && (cfg.countSource && key in s'.objects ==> key in s'.seen)
  {
    var s1 := AssignRank(cfg, s, key);
    AssignedSame(cfg, s, key);
    BookkeepingCoherent(cfg, s, s1);
    var rank := RankIndex(s1, key);
    assert CanEnter(cfg, s1) == CanEnter(cfg, s);
    hide Coherent, AssignRank, EnsureRoom, AdmitToMemory, BypassMemory, EndsWith, CanEnter, TierAt, RankIndex, KeepCounts,
         OthersKeepCounts;
    RoomMeans(cfg, s1, rank);
    var (admitted, s2) := EnsureRoom(cfg, s1, rank);
    KeptAbsent(s1, s2, key);
    if admitted {
      AdmitMeans(cfg, s2, key);
      CountsThen(s1, s2, AdmitToMemory(cfg, s2, key), key);
      SameCounts(s, s1, AdmitToMemory(cfg, s2, key), key);
    } else {
      BypassMeans(cfg, s2, key);
      SameCounts(s, s1, BypassMemory(cfg, s2, key), key);
    }
  }

  lemma {:induction false} SameCounts(s: Store, s1: Store, s': Store, key: PoolKey)
    requires s1.objects == s.objects && OthersKeepCounts(s1, s', key)
    ensures OthersKeepCounts(s, s', key)
  {
  }
}

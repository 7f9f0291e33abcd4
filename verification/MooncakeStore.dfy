/** The store as the object the simulator updates in place: every operation moves the object's
    view exactly as the state machine of StoreModel says. */
module MooncakeStores {
  import opened Containers
  import opened Keys
  import opened OffloadTiers
  import opened StoreModel

  /** How many of the keys are absent. */
  function AbsentCount(cfg: Config, s: Store, keys: seq<PoolKey>): nat {
    if keys == [] then 0
    else AbsentCount(cfg, s, keys[..|keys| - 1]) + (if Present(cfg, s, keys[|keys| - 1]) then 0 else 1)
  }

  class MooncakeStore {
    const cfg: Config
    const parts: seq<OffloadTier>
    var objects: map<PoolKey, Object>
    var memoryLru: seq<PoolKey>
    var memoryUsed: int
    var rankIndex: map<RankId, nat>
    var keyRank: map<PoolKey, nat>
    var rankUsed: map<nat, int>
    var rankLru: map<nat, seq<PoolKey>>
    var seenKeys: set<PoolKey>
    var departed: map<PoolKey, Departure>
    var stats: Stats
    var failed: bool
    ghost var touched: set<nat>

    ghost function Tiers(): map<nat, Tier>
      reads this`touched, parts
    {
      map i | i in touched && i < |parts| :: parts[i].View()
    }

    ghost function View(): Store
      reads this, parts
    {
      Store(objects, memoryLru, memoryUsed, Tiers(), Ranks(rankIndex, keyRank, rankUsed, rankLru),
            seenKeys, departed, stats, failed)
    }

    /** One tier object per partition, each still empty until first written or read. */
    ghost predicate PartsOk()
      reads this`touched, parts
    {
      && |parts| == (if !cfg.enableOffload then 0 else if cfg.partition.PerRank? then cfg.ranks else 1)
      && (forall i, j :: 0 <= i < j < |parts| ==> parts[i] != parts[j])
      && (forall i :: 0 <= i < |parts| ==>
            parts[i].capacityBlocks == OffloadCapacity(cfg) && parts[i].unlimited == cfg.unlimited)
      && (forall i :: 0 <= i < |parts| && i !in touched ==> parts[i].View() == EMPTY_TIER)
      && (forall i :: i in touched ==> i < |parts|)
    }

    ghost predicate RanksInRange()
      reads this`rankIndex, this`keyRank
    {
      cfg.partition.PerRank? ==>
        && |rankIndex| <= cfg.ranks
        && (forall r :: r in rankIndex ==> rankIndex[r] < |rankIndex|)
        && (forall k :: k in keyRank ==> keyRank[k] < cfg.ranks)
    }

    ghost predicate Valid()
      reads this, parts
    {
      PartsOk() && RanksInRange()
    }

    constructor (cfg: Config)
      ensures Valid() && fresh(parts) && this.cfg == cfg
      ensures View() == EMPTY_STORE
    {
      var count := if !cfg.enableOffload then 0 else if cfg.partition.PerRank? then cfg.ranks else 1;
      var tiers: seq<OffloadTier> := [];
      while |tiers| < count
        invariant |tiers| <= count && fresh(tiers)
        invariant forall i, j :: 0 <= i < j < |tiers| ==> tiers[i] != tiers[j]
        invariant forall i :: 0 <= i < |tiers| ==>
          && tiers[i].capacityBlocks == OffloadCapacity(cfg) && tiers[i].unlimited == cfg.unlimited
          && tiers[i].View() == EMPTY_TIER
      {
        var tier := new OffloadTier(OffloadCapacity(cfg), cfg.unlimited);
        tiers := tiers + [tier];
      }
      this.cfg, parts, touched := cfg, tiers, {};
      objects, memoryLru, memoryUsed := map[], [], 0;
      rankIndex, keyRank, rankUsed, rankLru := map[], map[], map[], map[];
      seenKeys, departed, stats, failed := {}, map[], NO_STATS, false;
    }

    // ----- the offload tier, routed by partition

    function PartOf(key: PoolKey): nat
      reads this
    {
      if cfg.partition.PerRank? && key in keyRank then keyRank[key] else 0
    }

    predicate Holds(key: PoolKey)
      requires Valid() && cfg.enableOffload
      reads this, parts
      ensures Holds(key) == Contains(cfg, View(), key)
    {
      (cfg.partition.PerRank? ==> key in keyRank) && parts[PartOf(key)].Contains(key)
    }

    ghost function TierOf(i: nat): (t: Tier)
      requires PartsOk() && i < |parts|
      reads this`touched, parts
      ensures t == if i in Tiers() then Tiers()[i] else EMPTY_TIER
    {
      parts[i].View()
    }

    method WritePart(i: nat, key: PoolKey) returns (op: Operation)
      requires PartsOk() && i < |parts|
      modifies this`touched, parts
      ensures PartsOk()
      ensures Tiers() == old(Tiers())[i := TierWrite(old(TierOf(i)), OffloadCapacity(cfg), cfg.unlimited, key, 1).0]
      ensures op == TierWrite(old(TierOf(i)), OffloadCapacity(cfg), cfg.unlimited, key, 1).1
    {
      hide TierWrite, ValidTier, Without;
      op := parts[i].Write(key, 1);
      touched := touched + {i};
    }

    method ReadPart(i: nat, key: PoolKey) returns (op: Operation)
      requires PartsOk() && i < |parts|
      modifies this`touched, parts
      ensures PartsOk()
      ensures Tiers() == old(Tiers())[i := TierRead(old(TierOf(i)), key).0]
      ensures op == TierRead(old(TierOf(i)), key).1
    {
      hide TierRead, ValidTier, Without;
      op := parts[i].Read(key);
      touched := touched + {i};
    }

    method WriteOffload(key: PoolKey) returns (op: Operation)
      requires Valid() && cfg.enableOffload
      modifies this`touched, parts
      ensures Valid() && (View(), op) == WriteTier(cfg, old(View()), key)
    {
      hide TierWrite;
      op := WritePart(PartOf(key), key);
    }

    method ReadOffload(key: PoolKey) returns (op: Operation)
      requires Valid() && cfg.enableOffload
      modifies this`touched, parts
      ensures Valid() && op == TierRead(TierAt(old(View()), Route(cfg, old(View()), key)), key).1
      ensures var i := Route(cfg, old(View()), key);
              View() == old(View()).(tiers := old(View()).tiers[i := TierRead(TierAt(old(View()), i), key).0])
    {
      hide TierRead;
      op := ReadPart(PartOf(key), key);
    }

    method RecordOffload(op: Operation, owner: PoolKey)
      modifies this`stats
      ensures View() == RecordOffloadWrite(old(View()), op, owner)
    {
      hide Tiers;
      var victims := 0;
      for i := 0 to |op.evictedKeys|
        invariant View() == old(View())
        invariant victims == CountVictims(View(), op.evictedKeys[..i], owner)
      {
        assert op.evictedKeys[..i + 1][..i] == op.evictedKeys[..i];
        if op.evictedKeys[i] != owner && op.evictedKeys[i] in objects {
          victims := victims + 1;
        }
      }
      assert op.evictedKeys[..|op.evictedKeys|] == op.evictedKeys;
      stats := stats.(writes := stats.writes.(ssdWrites := stats.writes.ssdWrites + op.blocks,
                                              ssdEvictions := stats.writes.ssdEvictions + victims));
    }

    method NoteDeparture(key: PoolKey, why: Departure)
      modifies this`departed
      ensures View() == RecordDeparture(cfg, old(View()), key, why)
    {
      hide Tiers;
      if cfg.countSource {
        departed := departed[key := why];
      }
    }

    method ForgetObject(key: PoolKey, why: Departure)
      modifies this`objects, this`departed
      ensures View() == Forget(cfg, old(View()), key, why)
    {
      hide Tiers;
      objects := objects - {key};
      NoteDeparture(key, why);
    }

    method DropOffloadVictims(evicted: seq<PoolKey>, owner: PoolKey)
      modifies this`objects, this`departed
      ensures View() == DropVictims(cfg, old(View()), evicted, owner)
    {
      hide Forget, Tiers;
      for i := 0 to |evicted|
        invariant View() == DropVictims(cfg, old(View()), evicted[..i], owner)
      {
        assert evicted[..i + 1][..i] == evicted[..i];
        var key := evicted[i];
        if key != owner && key in objects && objects[key].place.Offload? {
          ForgetObject(key, HbfEvict);
        }
      }
      assert evicted[..|evicted|] == evicted;
    }

    method Settle(op: Operation, owner: PoolKey)
      modifies this`stats, this`objects, this`departed
      ensures View() == SettleWrite(cfg, old(View()), op, owner)
    {
      hide Tiers;
      RecordOffload(op, owner);
      DropOffloadVictims(op.evictedKeys, owner);
    }

    // ----- the memory tier

    function RankAt(key: PoolKey): nat
      reads this`rankIndex
    {
      if RankOf(key) in rankIndex then rankIndex[RankOf(key)] else 0
    }

    function LruAt(rank: nat): seq<PoolKey>
      reads this`rankLru
    {
      if rank in rankLru then rankLru[rank] else []
    }

    function UsedAt(rank: nat): int
      reads this`rankUsed
    {
      if rank in rankUsed then rankUsed[rank] else 0
    }

    method TouchObject(key: PoolKey)
      requires key in objects
      modifies this`memoryLru, this`rankLru
      ensures View() == Touch(cfg, old(View()), key)
    {
      hide Tiers;
      if objects[key].place.Memory? && key in memoryLru {
        memoryLru := MoveToEnd(memoryLru, key);
        if cfg.partition.PerRank? {
          rankLru := rankLru[RankAt(key) := MoveToEnd(LruAt(RankAt(key)), key)];
        }
      }
    }

    method PopLru(rank: nat) returns (key: PoolKey)
      requires LruOf(cfg, View(), rank) != []
      modifies this`memoryLru, this`rankLru
      ensures key == LruOf(cfg, old(View()), rank)[0] && View() == PopOldest(cfg, old(View()), rank)
    {
      hide Tiers;
      if cfg.partition.PerRank? {
        key := LruAt(rank)[0];
        rankLru := rankLru[rank := LruAt(rank)[1..]];
        memoryLru := Without(memoryLru, key);
      } else {
        key := memoryLru[0];
        memoryLru := memoryLru[1..];
      }
    }

    method RecordMemoryEviction(read: bool)
      modifies this`stats
      ensures stats == CountEviction(old(stats), read)
      ensures stats.evictions.total == old(stats.evictions.total) + 1
      ensures stats.evictions.useful == old(stats.evictions.useful) + (if read then 1 else 0)
      ensures stats.evictions.total - stats.evictions.useful - stats.evictions.wasted
           == old(stats.evictions.total - stats.evictions.useful - stats.evictions.wasted)
    {
      var e := stats.evictions;
      if read {
        stats := stats.(evictions := e.(total := e.total + 1, useful := e.useful + 1));
      } else {
        stats := stats.(evictions := e.(total := e.total + 1, wasted := e.wasted + 1));
      }
    }

    method ReleaseFromRank(owner: nat, admitter: nat)
      modifies this`rankUsed, this`stats
      ensures rankUsed == old(rankUsed)[owner := old(UsedAt(owner)) - 1]
      ensures stats == CountOwner(old(stats), owner == admitter)
    {
      rankUsed := rankUsed[owner := UsedAt(owner) - 1];
      if owner == admitter {
        stats := stats.(ranks := stats.ranks.(same := stats.ranks.same + 1));
      } else {
        stats := stats.(ranks := stats.ranks.(cross := stats.ranks.cross + 1));
      }
    }

    method Release(key: PoolKey, admitter: nat)
      requires key in objects
      modifies this`memoryUsed, this`rankUsed, this`stats
      ensures View() == ReleaseMemory(cfg, old(View()), key, admitter)
    {
      hide CountEviction, CountOwner, ReleaseMemory, Tiers;
      ReleaseForm(cfg, View(), key, admitter);
      CountsCommute(stats, objects[key].readCount > 0, RankAt(key) == admitter);
      var owner := RankAt(key);
      memoryUsed := memoryUsed - 1;
      if !cfg.partition.Global? {
        ReleaseFromRank(owner, admitter);
      }
      RecordMemoryEviction(objects[key].readCount > 0);
    }

    method CountDrop()
      modifies this`stats
      ensures View() == CountDropped(old(View()))
    {
      hide Tiers;
      stats := stats.(evictions := stats.evictions.(dropped := stats.evictions.dropped + 1));
    }

    method CountDemotion(obj: Object)
      modifies this`stats
      ensures View() == CountDemoted(cfg, old(View()), obj)
    {
      hide Tiers;
      var e := stats.evictions;
      e := e.(demoted := e.demoted + 1);
      if cfg.countGate && cfg.demote.IfRead? {
        e := e.(gatePasses := e.gatePasses + 1);
        if obj.pcmServedReads > 0 {
          e := e.(gatePassesServed := e.gatePassesServed + 1);
        }
      }
      stats := stats.(evictions := e);
    }

    method MoveToOffload(key: PoolKey)
      requires key in objects
      modifies this`objects
      ensures View() == SetPlace(old(View()), key, Offload)
    {
      hide Tiers;
      objects := objects[key := objects[key].(place := Offload)];
    }

    method Demote(key: PoolKey)
      requires Valid() && cfg.enableOffload && key in objects && !DropsOnEviction(cfg, objects[key])
      modifies this, parts
      ensures Valid() && View() == Displace(cfg, old(View()), key)
    {
      hide WriteTier, SettleWrite, CountDemoted, SetPlace, PartsOk, Tiers;
      CountDemotion(objects[key]);
      MoveToOffload(key);
      var op := WriteOffload(key);
      Settle(op, key);
    }

    /** A block nothing read is not written again: a backup copy keeps it, else it is gone. */
    method DropUnread(key: PoolKey)
      requires Valid() && key in objects && (cfg.enableOffload ==> DropsOnEviction(cfg, objects[key]))
      modifies this`stats, this`objects, this`departed
      ensures Valid() && View() == Displace(cfg, old(View()), key)
    {
      hide Forget, SetPlace, CountDropped, Contains, Tiers;
      CountDrop();
      if !cfg.enableOffload {
        ForgetObject(key, OtherDeparture);
      } else if Holds(key) {
        MoveToOffload(key);
      } else {
        ForgetObject(key, IfReadDrop);
      }
    }

    method EvictMemoryLru(admitter: nat)
      requires Valid() && LruOf(cfg, View(), admitter) != []
      modifies this, parts
      ensures Valid() && View() == EvictOldest(cfg, old(View()), admitter)
    {
      hide Displace, ReleaseMemory, PopOldest, PartsOk, Tiers;
      var key := PopLru(admitter);
      if key !in objects || objects[key].place.Offload? {
        return;
      }
      Release(key, admitter);
      if cfg.enableOffload && !(cfg.demote.IfRead? && objects[key].readCount == 0) {
        Demote(key);
      } else {
        DropUnread(key);
      }
    }

    method EnsureMemoryCapacity(rank: nat) returns (fits: bool)
      requires Valid()
      modifies this, parts
      ensures Valid() && (fits, View()) == EnsureRoom(cfg, old(View()), rank)
    {
      var capacity := if cfg.partition.PerRank? then cfg.memoryCapacity / cfg.ranks else cfg.memoryCapacity;
      if 1 > capacity {
        return false;
      }
      while (if cfg.partition.PerRank? then UsedAt(rank) else memoryUsed) + 1 > capacity
        invariant Valid() && EnsureRoom(cfg, View(), rank) == EnsureRoom(cfg, old(View()), rank)
        decreases |LruOf(cfg, View(), rank)|
      {
        if !cfg.lruEviction || (if cfg.partition.PerRank? then LruAt(rank) else memoryLru) == [] {
          return false;
        }
        EvictOldestShrinks(cfg, View(), rank);
        EvictMemoryLru(rank);
      }
      return true;
    }

    // ----- put

    /** The source raises when the rank is one too many for a per-rank store. */
    method IndexRank(key: PoolKey)
      requires RanksInRange() && !(cfg.partition.PerRank? && RankOf(key) !in rankIndex && |rankIndex| >= cfg.ranks)
      modifies this`rankIndex, this`rankUsed
      ensures RanksInRange() && RankOf(key) in rankIndex
      ensures rankIndex == if RankOf(key) in old(rankIndex) then old(rankIndex)
                           else old(rankIndex)[RankOf(key) := |old(rankIndex)|]
      ensures rankUsed == if RankOf(key) in old(rankIndex) then old(rankUsed) else old(rankUsed)[|old(rankIndex)| := 0]
    {
      if RankOf(key) !in rankIndex {
        var newIndex := |rankIndex|;
        rankIndex := rankIndex[RankOf(key) := newIndex];
        rankUsed := rankUsed[newIndex := 0];
      }
    }

    method AssignOwner(key: PoolKey)
      requires Valid() && !TooManyRanks(cfg, View(), key)
      modifies this`rankIndex, this`rankUsed, this`keyRank
      ensures Valid() && View() == AssignRank(cfg, old(View()), key)
    {
      hide PartsOk, Tiers;
      if !cfg.partition.Global? {
        IndexRank(key);
        if cfg.partition.PerRank? {
          keyRank := keyRank[key := rankIndex[RankOf(key)]];
        }
      }
    }

    method RecordAdmitSource(key: PoolKey)
      modifies this`seenKeys, this`departed, this`stats
      ensures View() == CountSource(cfg, old(View()), key)
    {
      hide Tiers;
      if cfg.countSource {
        var n := stats.sources;
        if key !in seenKeys {
          seenKeys := seenKeys + {key};
          stats := stats.(sources := n.(first := n.first + 1));
        } else {
          var why := if key in departed then departed[key] else OtherDeparture;
          departed := departed - {key};
          match why
          case IfReadDrop => stats := stats.(sources := n.(afterDrop := n.afterDrop + 1));
          case HbfEvict => stats := stats.(sources := n.(afterHbf := n.afterHbf + 1));
          case OtherDeparture => stats := stats.(sources := n.(afterOther := n.afterOther + 1));
        }
      }
    }

    method AdmitToRank(rank: nat, key: PoolKey)
      modifies this`rankUsed, this`rankLru
      ensures rankUsed == old(rankUsed)[rank := old(UsedAt(rank)) + 1]
      ensures rankLru == if cfg.partition.PerRank? then old(rankLru)[rank := old(LruAt(rank)) + [key]] else old(rankLru)
    {
      rankUsed := rankUsed[rank := UsedAt(rank) + 1];
      if cfg.partition.PerRank? {
        rankLru := rankLru[rank := LruAt(rank) + [key]];
      }
    }

    method Enter(key: PoolKey)
      modifies this`objects, this`memoryUsed, this`memoryLru, this`rankUsed, this`rankLru
      ensures View() == EnterMemory(cfg, old(View()), key)
    {
      hide EnterMemory, Tiers;
      var rank := RankAt(key);
      objects := objects[key := Object(Memory, 0, 0)];
      memoryUsed := memoryUsed + 1;
      memoryLru := memoryLru + [key];
      if !cfg.partition.Global? {
        AdmitToRank(rank, key);
      }
      EnterForm(cfg, old(View()), key);
    }

    method CountAdmit()
      modifies this`stats
      ensures View() == CountAdmission(old(View()))
    {
      hide Tiers;
      var w := stats.writes;
      stats := stats.(writes := w.(admissions := w.admissions + 1, memoryWrites := w.memoryWrites + 1));
    }

    method Admit(key: PoolKey)
      requires Valid()
      modifies this, parts
      ensures Valid() && View() == AdmitToMemory(cfg, old(View()), key)
    {
      hide EnterMemory, CountSource, CountAdmission, WriteTier, SettleWrite, PartsOk, Tiers;
      Enter(key);
      RecordAdmitSource(key);
      CountAdmit();
      if cfg.enableOffload && cfg.write.WriteThrough? {
        var op := WriteOffload(key);
        if key !in op.evictedKeys {
          Settle(op, key);
        }
      }
    }

    method Reject(count: nat)
      modifies this`stats
      ensures View() == CountRejections(old(View()), count)
    {
      hide Tiers;
      stats := stats.(writes := stats.writes.(rejections := stats.writes.rejections + count));
    }

    method CountBypassed()
      modifies this`stats
      ensures View() == CountBypass(old(View()))
    {
      hide Tiers;
      var w := stats.writes;
      stats := stats.(writes := w.(admissions := w.admissions + 1, bypasses := w.bypasses + 1));
    }

    method PlaceOnOffload(key: PoolKey)
      modifies this`objects, this`seenKeys
      ensures View() == old(View()).(objects := old(objects)[key := Object(Offload, 0, 0)],
                                     seen := if cfg.countSource then old(seenKeys) + {key} else old(seenKeys))
    {
      hide Tiers;
      objects := objects[key := Object(Offload, 0, 0)];
      if cfg.countSource {
        seenKeys := seenKeys + {key};
      }
    }

    method Bypass(key: PoolKey)
      requires Valid()
      modifies this, parts
      ensures Valid() && View() == BypassMemory(cfg, old(View()), key)
    {
      hide CountRejections, CountBypass, WriteTier, SettleWrite, PartsOk, Tiers;
      if !cfg.enableOffload {
        Reject(1);
        return;
      }
      var op := WriteOffload(key);
      if key in op.evictedKeys {
        Reject(1);
        return;
      }
      Settle(op, key);
      PlaceOnOffload(key);
      CountBypassed();
    }

    method PutObject(key: PoolKey)
      requires Valid()
      modifies this, parts
      ensures Valid() && View() == PutOne(cfg, old(View()), key)
    {
      hide Touch, AssignRank, EnsureRoom, AdmitToMemory, BypassMemory, PartsOk, RanksInRange, Tiers;
      if key in objects {
        TouchObject(key);
        return;
      }
      if cfg.partition.PerRank? && RankOf(key) !in rankIndex && |rankIndex| >= cfg.ranks {
        failed := true;
        return;
      }
      AssignOwner(key);
      var admitted := EnsureMemoryCapacity(RankAt(key));
      if admitted {
        Admit(key);
      } else {
        Bypass(key);
      }
    }

    method PutWithTiming(keys: seq<PoolKey>)
      requires Valid() && !failed
      modifies this, parts
      ensures Valid() && View() == Step(cfg, old(View()), PutCall(keys))
    {
      hide PutOne, PartsOk, RanksInRange, Tiers;
      if !cfg.admitAlways || keys == [] {
        Reject(|keys|);
        return;
      }
      stats := stats.(calls := stats.calls.(puts := stats.calls.puts + 1));
      assert View() == CountPut(old(View()));
      var i := 0;
      while i < |keys| && !failed
        invariant i <= |keys| && Valid()
        invariant View() == PutKeys(cfg, CountPut(old(View())), keys[..i])
      {
        assert keys[..i + 1][..i] == keys[..i];
        PutObject(keys[i]);
        i := i + 1;
      }
      if i < |keys| {
        PutKeysStuck(cfg, CountPut(old(View())), keys, i);
      } else {
        assert keys[..i] == keys;
      }
    }

    // ----- lookup and get

    predicate Has(key: PoolKey)
      requires Valid()
      reads this, parts
      ensures Has(key) == Present(cfg, View(), key)
    {
      key in objects && (objects[key].place.Offload? && cfg.enableOffload ==> Holds(key))
    }

    /** The longest stored prefix, and the slowest tier it touches. */
    method FindPrefix(keys: seq<PoolKey>) returns (hits: seq<PoolKey>, slowest: Option<Place>)
      requires Valid()
      ensures hits == keys[..HitLength(cfg, View(), keys)]
      ensures slowest == if hits == [] then None
                         else if AnyOffload(View(), hits) then Some(Offload) else Some(Memory)
    {
      hide Valid, Present;
      hits, slowest := [], None;
      var i := 0;
      while i < |keys| && Has(keys[i])
        invariant i <= |keys| && hits == keys[..i]
        invariant forall j :: 0 <= j < i ==> Present(cfg, View(), keys[j])
        invariant slowest == if i == 0 then None else if AnyOffload(View(), hits) then Some(Offload) else Some(Memory)
      {
        AnyOffloadSnoc(View(), hits, keys[i]);
        hits := hits + [keys[i]];
        HasObject(keys[i]);
        if objects[keys[i]].place.Offload? {
          slowest := Some(Offload);
        } else if slowest.None? {
          slowest := Some(Memory);
        }
        i := i + 1;
      }
    }

    lemma {:induction false} HasObject(key: PoolKey)
      requires Present(cfg, View(), key)
      ensures key in objects
    {
    }

    method CreditHits(hits: seq<PoolKey>)
      modifies this`objects
      ensures View() == CreditReads(old(View()), hits)
    {
      hide Tiers;
      for j := 0 to |hits|
        invariant View() == CreditReads(old(View()), hits[..j])
      {
        assert hits[..j + 1][..j] == hits[..j];
        if hits[j] in objects {
          objects := objects[hits[j] := objects[hits[j]].(readCount := objects[hits[j]].readCount + 1)];
        }
      }
      assert hits[..|hits|] == hits;
    }

    method CountHit(hit: bool, disk: bool)
      modifies this`stats
      ensures View() == CountLookup(old(View()), hit, disk)
    {
      hide Tiers;
      var c := stats.calls;
      if !hit {
        stats := stats.(calls := c.(storeMisses := c.storeMisses + 1));
      } else if disk {
        stats := stats.(calls := c.(storeHits := c.storeHits + 1, diskHits := c.diskHits + 1));
      } else {
        stats := stats.(calls := c.(storeHits := c.storeHits + 1, memoryHits := c.memoryHits + 1));
      }
    }

    method LookupPrefix(keys: seq<PoolKey>) returns (hits: seq<PoolKey>, slowest: Option<Place>)
      requires Valid() && !failed
      modifies this`objects, this`stats
      ensures Valid() && View() == Step(cfg, old(View()), LookupCall(keys))
      ensures hits == keys[..HitLength(cfg, old(View()), keys)]
      ensures slowest == if hits == [] then None
                         else if AnyOffload(old(View()), hits) then Some(Offload) else Some(Memory)
    {
      hide CountLookup, HitLength, AnyOffload, PartsOk, Tiers;
      hits, slowest := FindPrefix(keys);
      if !cfg.creditOnServe {
        CreditHits(hits);
      }
      CountHit(hits != [], slowest == Some(Offload));
      assert hits == [] ==> !AnyOffload(old(View()), hits) by { NoOffload(old(View())); }
    }

    /** The positions of absent keys, in order; nothing is counted and no key gets warmer. */
    method MissingIndices(keys: seq<PoolKey>) returns (missing: seq<nat>)
      requires Valid()
      ensures forall n :: 0 <= n < |missing| ==> missing[n] < |keys| && !Present(cfg, View(), keys[missing[n]])
      ensures forall m, n :: 0 <= m < n < |missing| ==> missing[m] < missing[n]
      ensures forall i :: 0 <= i < |keys| && !Present(cfg, View(), keys[i]) ==> i in missing
      ensures |missing| == AbsentCount(cfg, View(), keys)
    {
      missing := [];
      for i := 0 to |keys|
        invariant forall n :: 0 <= n < |missing| ==> missing[n] < i && !Present(cfg, View(), keys[missing[n]])
        invariant forall m, n :: 0 <= m < n < |missing| ==> missing[m] < missing[n]
        invariant forall j :: 0 <= j < i && !Present(cfg, View(), keys[j]) ==> j in missing
        invariant |missing| == AbsentCount(cfg, View(), keys[..i])
      {
        assert keys[..i + 1][..i] == keys[..i];
        if !Has(keys[i]) {
          missing := missing + [i];
        }
      }
      assert keys[..|keys|] == keys;
    }

    method Credit(key: PoolKey)
      requires key in objects
      modifies this`objects
      ensures View() == CreditServe(cfg, old(View()), key) && key in objects
    {
      hide Tiers;
      if cfg.creditOnServe {
        objects := objects[key := objects[key].(readCount := objects[key].readCount + 1)];
      }
    }

    method ReadMemory(key: PoolKey)
      requires key in objects
      modifies this`objects, this`stats
      ensures View() == ServeMemory(old(View()), key)
    {
      hide Tiers;
      objects := objects[key := objects[key].(pcmServedReads := objects[key].pcmServedReads + 1)];
      stats := stats.(calls := stats.calls.(memoryReads := stats.calls.memoryReads + 1));
    }

    method ReadFromOffload(key: PoolKey)
      requires Valid() && cfg.enableOffload
      modifies this`touched, this`stats, parts
      ensures Valid() && View() == ServeOffload(cfg, old(View()), key)
    {
      hide TierRead, PartsOk;
      var op := ReadOffload(key);
      stats := stats.(calls := stats.calls.(ssdReads := stats.calls.ssdReads + op.blocks));
    }

    method GetObject(key: PoolKey)
      requires Valid()
      modifies this, parts
      ensures Valid() && View() == GetOne(cfg, old(View()), key)
    {
      hide Touch, CreditServe, ServeMemory, ServeOffload, PartsOk, RanksInRange, Tiers;
      if key !in objects {
        return;
      }
      TouchObject(key);
      Credit(key);
      if objects[key].place.Offload? && cfg.enableOffload {
        ReadFromOffload(key);
      } else {
        ReadMemory(key);
      }
    }

    method GetAll(keys: seq<PoolKey>)
      requires Valid() && !failed
      modifies this, parts
      ensures Valid() && View() == Step(cfg, old(View()), GetCall(keys))
    {
      hide Tiers;
      if keys == [] {
        return;
      }
      stats := stats.(calls := stats.calls.(gets := stats.calls.gets + 1));
      assert View() == CountGet(old(View()));
      for i := 0 to |keys|
        invariant Valid() && View() == GetKeys(cfg, CountGet(old(View())), keys[..i])
      {
        assert keys[..i + 1][..i] == keys[..i];
        GetObject(keys[i]);
      }
      assert keys[..|keys|] == keys;
    }
  }

  lemma {:induction false} EnterForm(cfg: Config, s: Store, key: PoolKey)
    ensures var rank := RankIndex(s, key);
            EnterMemory(cfg, s, key) ==
            Store(s.objects[key := Object(Memory, 0, 0)], s.memoryLru + [key], s.memoryUsed + 1, s.tiers,
                  Ranks(s.ranks.index, s.ranks.keyRank,
                        if cfg.partition.Global? then s.ranks.used else s.ranks.used[rank := RankUsed(s, rank) + 1],
                        if cfg.partition.PerRank? then s.ranks.lru[rank := RankLru(s, rank) + [key]] else s.ranks.lru),
                  s.seen, s.departed, s.stats, s.failed)
  {
  }

  lemma {:induction false} ReleaseForm(cfg: Config, s: Store, key: PoolKey, admitter: nat)
    requires key in s.objects
    ensures var owner, counted := RankIndex(s, key), CountEviction(s.stats, s.objects[key].readCount > 0);
            ReleaseMemory(cfg, s, key, admitter) ==
            Store(s.objects, s.memoryLru, s.memoryUsed - 1, s.tiers,
                  Ranks(s.ranks.index, s.ranks.keyRank,
                        if cfg.partition.Global? then s.ranks.used else s.ranks.used[owner := RankUsed(s, owner) - 1],
                        s.ranks.lru),
                  s.seen, s.departed, if cfg.partition.Global? then counted else CountOwner(counted, owner == admitter),
                  s.failed)
  {
    hide CountEviction, CountOwner;
  }

  lemma {:induction false} CountsCommute(n: Stats, read: bool, same: bool)
    ensures CountOwner(CountEviction(n, read), same) == CountEviction(CountOwner(n, same), read)
  {
  }

  lemma {:induction false} NoOffload(s: Store)
    ensures !AnyOffload(s, [])
  {
  }

  lemma {:induction false} AnyOffloadSnoc(s: Store, keys: seq<PoolKey>, key: PoolKey)
    ensures AnyOffload(s, keys + [key])
        <==> AnyOffload(s, keys) || (key in s.objects && s.objects[key].place.Offload?)
  {
    var all := keys + [key];
    assert all[|keys|] == key;
    assert forall i :: 0 <= i < |keys| ==> all[i] == keys[i];
  }

  /** Once a put has met one rank too many, the rest of its keys are not looked at. */
  lemma {:induction false} PutKeysStuck(cfg: Config, s: Store, keys: seq<PoolKey>, i: nat)
    requires i <= |keys| && PutKeys(cfg, s, keys[..i]).failed
    ensures PutKeys(cfg, s, keys) == PutKeys(cfg, s, keys[..i])
  {
    if i < |keys| {
      assert keys[..|keys| - 1][..i] == keys[..i];
      PutKeysStuck(cfg, s, keys[..|keys| - 1], i);
    } else {
      assert keys[..i] == keys;
    }
  }
}

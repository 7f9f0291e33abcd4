/** The two-tier Mooncake store as a state machine: a memory (PCM) LRU tier in front of an
    offload (HBF) tier. Every object is one block, as the store's put creates it, so block
    counts stand for bytes throughout. */
module StoreModel {
  import opened Containers
  import opened Keys
  import opened OffloadTiers

  datatype WritePolicy = WriteThrough | WriteBack
  datatype DemotePolicy = Always | IfRead
  datatype Partition = Global | Count | PerRank

  datatype Settings = Settings(
    admitAlways: bool,          // admission_policy
    memoryCapacity: nat,        // blocks of the memory pool
    lruEviction: bool,          // eviction_policy
    enableOffload: bool,
    offloadCapacity: nat,       // blocks of the offload pool
    unlimited: bool,            // hbf_capacity_mode
    write: WritePolicy,         // admission_write_policy
    demote: DemotePolicy,       // demote_policy
    creditOnServe: bool,        // read_credit
    countGate: bool,            // count_if_read_gate
    countSource: bool,          // count_pcm_admit_source
    partition: Partition,       // store_partition
    ranks: nat)                 // store_partition_ranks
  {
    predicate Valid() {
      && (partition.PerRank? ==> ranks >= 1)
      && (enableOffload ==> 1 <= if partition.PerRank? && ranks >= 1 then offloadCapacity / ranks else offloadCapacity)
    }
  }

  /** Configurations under which no operation raises: an offload partition has room for a block. */
  type Config = c: Settings | c.Valid()
    witness Settings(true, 0, true, false, 0, false, WriteThrough, Always, false, false, false, Global, 0)

  datatype Place = Memory | Offload
  datatype Departure = IfReadDrop | HbfEvict | OtherDeparture

  datatype Object = Object(place: Place, readCount: nat, pcmServedReads: nat)

  datatype CallStats = CallStats(gets: int, puts: int, storeHits: int, storeMisses: int, memoryHits: int, diskHits: int,
                                 ssdReads: int, memoryReads: int)

  datatype WriteStats = WriteStats(ssdWrites: int, ssdEvictions: int, admissions: int, rejections: int,
                                   bypasses: int, memoryWrites: int)

  /** Memory-tier evictions; the last two fields count `if_read` demotions, and those of them
      whose object was served from memory at least once. */
  datatype EvictionStats = EvictionStats(total: int, useful: int, wasted: int, dropped: int, demoted: int,
                                         gatePasses: int, gatePassesServed: int)

  /** Memory-tier admissions by why the key was absent. */
  datatype SourceStats = SourceStats(first: int, afterDrop: int, afterHbf: int, afterOther: int)

  /** Memory-tier evictions by whether victim and admitter share a rank. */
  datatype RankStats = RankStats(same: int, cross: int)

  datatype Stats = Stats(calls: CallStats, writes: WriteStats, evictions: EvictionStats, sources: SourceStats,
                         ranks: RankStats)

  const NO_STATS := Stats(CallStats(0, 0, 0, 0, 0, 0, 0, 0), WriteStats(0, 0, 0, 0, 0, 0),
                          EvictionStats(0, 0, 0, 0, 0, 0, 0), SourceStats(0, 0, 0, 0), RankStats(0, 0))

  /** Bookkeeping of `store_partition` modes other than "global". */
  datatype Ranks = Ranks(index: map<RankId, nat>, keyRank: map<PoolKey, nat>, used: map<nat, int>,
                         lru: map<nat, seq<PoolKey>>)

  const NO_RANKS := Ranks(map[], map[], map[], map[])

  /** `tiers` holds one offload tier per partition. `failed` records that a put met more
      distinct ranks than the per-rank store was configured for. */
  datatype Store = Store(
    objects: map<PoolKey, Object>,
    memoryLru: seq<PoolKey>,
    memoryUsed: int,
    tiers: map<nat, Tier>,
    ranks: Ranks,
    seen: set<PoolKey>,
    departed: map<PoolKey, Departure>,
    stats: Stats,
    failed: bool)

  const EMPTY_STORE := Store(map[], [], 0, map[], NO_RANKS, {}, map[], NO_STATS, false)

  /** The capacity test of the source compares bytes; with one block per object and used bytes a
      multiple of the block size it is this block comparison. */
  lemma {:induction false} ByteTestIsBlockTest(usedBlocks: nat, blockBytes: nat, capacityBytes: nat)
    requires blockBytes >= 1
    ensures usedBlocks * blockBytes + blockBytes > capacityBytes <==> usedBlocks + 1 > capacityBytes / blockBytes
  {
    var q := capacityBytes / blockBytes;
    assert capacityBytes == q * blockBytes + capacityBytes % blockBytes;
    assert usedBlocks * blockBytes + blockBytes == (usedBlocks + 1) * blockBytes;
    if usedBlocks + 1 > q {
      assert (usedBlocks + 1) * blockBytes >= (q + 1) * blockBytes == q * blockBytes + blockBytes;
    } else {
      assert (usedBlocks + 1) * blockBytes <= q * blockBytes;
    }
  }

  // ----- capacities and routing

  function MemoryCapacity(cfg: Config): nat {
    if cfg.partition.PerRank? then cfg.memoryCapacity / cfg.ranks else cfg.memoryCapacity
  }

  function OffloadCapacity(cfg: Config): (c: nat)
    ensures cfg.enableOffload ==> c >= 1
  {
    if cfg.partition.PerRank? then cfg.offloadCapacity / cfg.ranks else cfg.offloadCapacity
  }

  function RankIndex(s: Store, key: PoolKey): nat {
    if RankOf(key) in s.ranks.index then s.ranks.index[RankOf(key)] else 0
  }

  /** The offload partition an operation on `key` is routed to. */
  function Route(cfg: Config, s: Store, key: PoolKey): nat {
    if cfg.partition.PerRank? && key in s.ranks.keyRank then s.ranks.keyRank[key] else 0
  }

  function TierAt(s: Store, i: nat): Tier {
    if i in s.tiers then s.tiers[i] else EMPTY_TIER
  }

  predicate Contains(cfg: Config, s: Store, key: PoolKey) {
    && (cfg.partition.PerRank? ==> key in s.ranks.keyRank)
    && key in TierAt(s, Route(cfg, s, key)).held
  }

  function RankLru(s: Store, rank: nat): seq<PoolKey> {
    if rank in s.ranks.lru then s.ranks.lru[rank] else []
  }

  function RankUsed(s: Store, rank: nat): int {
    if rank in s.ranks.used then s.ranks.used[rank] else 0
  }

  // ----- pieces of the operations

  function Touch(cfg: Config, s: Store, key: PoolKey): Store
    requires key in s.objects
  {
    if s.objects[key].place.Memory? && key in s.memoryLru then
      var rank := RankIndex(s, key);
      s.(memoryLru := MoveToEnd(s.memoryLru, key),
         ranks := if cfg.partition.PerRank?
                  then s.ranks.(lru := s.ranks.lru[rank := MoveToEnd(RankLru(s, rank), key)])
                  else s.ranks)
    else s
  }

  predicate EndsWith(order: seq<PoolKey>, key: PoolKey) {
    order != [] && order[|order| - 1] == key
  }

  /** A touch makes a memory object the most recent of the pool's order and its rank's; every other
      key keeps its place among the rest, and nothing else changes. */
  lemma {:induction false} TouchMeans(cfg: Config, s: Store, key: PoolKey)
    requires key in s.objects
    ensures var s', rank := Touch(cfg, s, key), RankIndex(s, key);
            && s' == s.(memoryLru := s'.memoryLru, ranks := s.ranks.(lru := s'.ranks.lru))
            && (s.objects[key].place.Offload? ==> s' == s)
            && (s.objects[key].place.Memory? && key in s.memoryLru ==>
                  EndsWith(s'.memoryLru, key) && (cfg.partition.PerRank? ==> EndsWith(RankLru(s', rank), key)))
            && Without(s'.memoryLru, key) == Without(s.memoryLru, key)
            && Without(RankLru(s', rank), key) == Without(RankLru(s, rank), key)
            && forall i: nat :: i != rank ==> RankLru(s', i) == RankLru(s, i)
  {
    MoveToEndOthers(s.memoryLru, key);
    MoveToEndOthers(RankLru(s, RankIndex(s, key)), key);
    assert EndsWith(MoveToEnd(s.memoryLru, key), key) && EndsWith(MoveToEnd(RankLru(s, RankIndex(s, key)), key), key);
    hide MoveToEnd, Without, EndsWith;
  }

  predicate TooManyRanks(cfg: Config, s: Store, key: PoolKey) {
    cfg.partition.PerRank? && RankOf(key) !in s.ranks.index && |s.ranks.index| >= cfg.ranks
  }

  /** Gives the key's rank the next index if it is new, and records the key's owner. */
  function AssignRank(cfg: Config, s: Store, key: PoolKey): Store {
    if cfg.partition.Global? then s else
    var ranks1 := if RankOf(key) in s.ranks.index then s.ranks
                  else var newIndex := |s.ranks.index|;
                       s.ranks.(index := s.ranks.index[RankOf(key) := newIndex], used := s.ranks.used[newIndex := 0]);
    s.(ranks := if cfg.partition.PerRank?
                then ranks1.(keyRank := ranks1.keyRank[key := ranks1.index[RankOf(key)]])
                else ranks1)
  }

  function WriteTier(cfg: Config, s: Store, key: PoolKey): (Store, Operation) {
    var i := Route(cfg, s, key);
    var (t, op) := TierWrite(TierAt(s, i), OffloadCapacity(cfg), cfg.unlimited, key, 1);
    (s.(tiers := s.tiers[i := t]), op)
  }

  function CountVictims(s: Store, evicted: seq<PoolKey>, owner: PoolKey): nat {
    if evicted == [] then 0
    else
      var last := evicted[|evicted| - 1];
      CountVictims(s, evicted[..|evicted| - 1], owner) + (if last != owner && last in s.objects then 1 else 0)
  }

  function RecordOffloadWrite(s: Store, op: Operation, owner: PoolKey): Store {
    var w := s.stats.writes;
    s.(stats := s.stats.(writes := w.(ssdWrites := w.ssdWrites + op.blocks,
                                      ssdEvictions := w.ssdEvictions + CountVictims(s, op.evictedKeys, owner))))
  }

  function RecordDeparture(cfg: Config, s: Store, key: PoolKey, why: Departure): Store {
    if cfg.countSource then s.(departed := s.departed[key := why]) else s
  }

  function Forget(cfg: Config, s: Store, key: PoolKey, why: Departure): Store {
    RecordDeparture(cfg, s.(objects := s.objects - {key}), key, why)
  }

  /** Forgets the objects whose only copy the offload tier just evicted. */
  function DropVictims(cfg: Config, s: Store, evicted: seq<PoolKey>, owner: PoolKey): Store {
    if evicted == [] then s
    else
      var last := evicted[|evicted| - 1];
      var s' := DropVictims(cfg, s, evicted[..|evicted| - 1], owner);
      if last != owner && last in s'.objects && s'.objects[last].place.Offload?
      then Forget(cfg, s', last, HbfEvict) else s'
  }

  function SettleWrite(cfg: Config, s: Store, op: Operation, owner: PoolKey): Store {
    DropVictims(cfg, RecordOffloadWrite(s, op, owner), op.evictedKeys, owner)
  }

  // ----- memory-tier eviction

  function LruOf(cfg: Config, s: Store, rank: nat): seq<PoolKey> {
    if cfg.partition.PerRank? then RankLru(s, rank) else s.memoryLru
  }

  function PopOldest(cfg: Config, s: Store, rank: nat): Store
    requires LruOf(cfg, s, rank) != []
  {
    if cfg.partition.PerRank? then
      s.(memoryLru := Without(s.memoryLru, RankLru(s, rank)[0]),
         ranks := s.ranks.(lru := s.ranks.lru[rank := RankLru(s, rank)[1..]]))
    else s.(memoryLru := s.memoryLru[1..])
  }

  function CountEviction(n: Stats, read: bool): Stats {
    var e := n.evictions;
    n.(evictions := if read then e.(total := e.total + 1, useful := e.useful + 1)
                    else e.(total := e.total + 1, wasted := e.wasted + 1))
  }

  function CountOwner(n: Stats, same: bool): Stats {
    n.(ranks := if same then n.ranks.(same := n.ranks.same + 1) else n.ranks.(cross := n.ranks.cross + 1))
  }

  function ReleaseMemory(cfg: Config, s: Store, key: PoolKey, admitter: nat): Store
    requires key in s.objects
  {
    var owner := RankIndex(s, key);
    var counted := CountEviction(s.stats, s.objects[key].readCount > 0);
    if cfg.partition.Global? then s.(memoryUsed := s.memoryUsed - 1, stats := counted)
    else s.(memoryUsed := s.memoryUsed - 1,
            ranks := s.ranks.(used := s.ranks.used[owner := RankUsed(s, owner) - 1]),
            stats := CountOwner(counted, owner == admitter))
  }

  function SetPlace(s: Store, key: PoolKey, place: Place): Store
    requires key in s.objects
  {
    s.(objects := s.objects[key := s.objects[key].(place := place)])
  }

  predicate DropsOnEviction(cfg: Config, obj: Object) {
    cfg.demote.IfRead? && obj.readCount == 0
  }

  function CountDropped(s: Store): Store {
    var e := s.stats.evictions;
    s.(stats := s.stats.(evictions := e.(dropped := e.dropped + 1)))
  }

  function CountDemoted(cfg: Config, s: Store, obj: Object): Store {
    var gate := if cfg.countGate && cfg.demote.IfRead? then 1 else 0;
    var e := s.stats.evictions;
    s.(stats := s.stats.(evictions := e.(demoted := e.demoted + 1,
                                         gatePasses := e.gatePasses + gate,
                                         gatePassesServed := e.gatePassesServed
                                                             + (if obj.pcmServedReads > 0 then gate else 0))))
  }

  /** What becomes of an object that just left the memory tier. */
  function Displace(cfg: Config, s: Store, key: PoolKey): Store
    requires key in s.objects
  {
    if !cfg.enableOffload then Forget(cfg, CountDropped(s), key, OtherDeparture)
    else if DropsOnEviction(cfg, s.objects[key]) then
      var s1 := CountDropped(s);
      if Contains(cfg, s1, key) then SetPlace(s1, key, Offload) else Forget(cfg, s1, key, IfReadDrop)
    else
      var s1 := SetPlace(CountDemoted(cfg, s, s.objects[key]), key, Offload);
      var (s2, op) := WriteTier(cfg, s1, key);
      SettleWrite(cfg, s2, op, key)
  }

  function EvictOldest(cfg: Config, s: Store, admitter: nat): Store
    requires LruOf(cfg, s, admitter) != []
  {
    var key := LruOf(cfg, s, admitter)[0];
    var s1 := PopOldest(cfg, s, admitter);
    if key !in s1.objects || s1.objects[key].place.Offload? then s1
    else Displace(cfg, ReleaseMemory(cfg, s1, key, admitter), key)
  }

  function UsedOf(cfg: Config, s: Store, rank: nat): int {
    if cfg.partition.PerRank? then RankUsed(s, rank) else s.memoryUsed
  }

  lemma {:induction false} EvictOldestShrinks(cfg: Config, s: Store, admitter: nat)
    requires LruOf(cfg, s, admitter) != []
    ensures LruOf(cfg, EvictOldest(cfg, s, admitter), admitter) == LruOf(cfg, s, admitter)[1..]
  {
    var key := LruOf(cfg, s, admitter)[0];
    var s1 := PopOldest(cfg, s, admitter);
    if key in s1.objects && s1.objects[key].place.Memory? {
      DisplaceFrame(cfg, ReleaseMemory(cfg, s1, key, admitter), key);
    }
  }

  lemma {:induction false} DropVictimsFrame(cfg: Config, s: Store, evicted: seq<PoolKey>, owner: PoolKey)
    ensures var s' := DropVictims(cfg, s, evicted, owner);
            s' == s.(objects := s'.objects, departed := s'.departed)
  {
    if evicted != [] {
      DropVictimsFrame(cfg, s, evicted[..|evicted| - 1], owner);
    }
  }

  lemma {:induction false} DisplaceFrame(cfg: Config, s: Store, key: PoolKey)
    requires key in s.objects
    ensures var s' := Displace(cfg, s, key);
            s' == s.(objects := s'.objects, departed := s'.departed, tiers := s'.tiers, stats := s'.stats)
  {
    if cfg.enableOffload && !DropsOnEviction(cfg, s.objects[key]) {
      var s1 := SetPlace(CountDemoted(cfg, s, s.objects[key]), key, Offload);
      var (s2, op) := WriteTier(cfg, s1, key);
      DropVictimsFrame(cfg, RecordOffloadWrite(s2, op, key), op.evictedKeys, key);
    }
  }

  /** Evicts until one more block fits; false when it cannot be made to fit. */
  function EnsureRoom(cfg: Config, s: Store, rank: nat): (bool, Store)
    decreases |LruOf(cfg, s, rank)|
  {
    if 1 > MemoryCapacity(cfg) then (false, s)
    else if UsedOf(cfg, s, rank) + 1 <= MemoryCapacity(cfg) then (true, s)
    else if !cfg.lruEviction || LruOf(cfg, s, rank) == [] then (false, s)
    else
      EvictOldestShrinks(cfg, s, rank);
      EnsureRoom(cfg, EvictOldest(cfg, s, rank), rank)
  }

  // ----- admission

  function CountReason(n: SourceStats, why: Departure): SourceStats {
    match why
    case IfReadDrop => n.(afterDrop := n.afterDrop + 1)
    case HbfEvict => n.(afterHbf := n.afterHbf + 1)
    case OtherDeparture => n.(afterOther := n.afterOther + 1)
  }

  function CountSource(cfg: Config, s: Store, key: PoolKey): Store {
    var n := s.stats.sources;
    if !cfg.countSource then s
    else if key !in s.seen then
      s.(seen := s.seen + {key}, stats := s.stats.(sources := n.(first := n.first + 1)))
    else
      var why := if key in s.departed then s.departed[key] else OtherDeparture;
      s.(departed := s.departed - {key}, stats := s.stats.(sources := CountReason(n, why)))
  }

  function EnterMemory(cfg: Config, s: Store, key: PoolKey): Store {
    var rank := RankIndex(s, key);
    s.(objects := s.objects[key := Object(Memory, 0, 0)],
       memoryUsed := s.memoryUsed + 1,
       memoryLru := s.memoryLru + [key],
       ranks := if cfg.partition.Global? then s.ranks
                else var r := s.ranks.(used := s.ranks.used[rank := RankUsed(s, rank) + 1]);
                     if cfg.partition.PerRank? then r.(lru := r.lru[rank := RankLru(s, rank) + [key]]) else r)
  }

  function CountAdmission(s: Store): Store {
    var w := s.stats.writes;
    s.(stats := s.stats.(writes := w.(admissions := w.admissions + 1, memoryWrites := w.memoryWrites + 1)))
  }

  function AdmitToMemory(cfg: Config, s: Store, key: PoolKey): Store {
    var s1 := CountAdmission(CountSource(cfg, EnterMemory(cfg, s, key), key));
    if cfg.enableOffload && cfg.write.WriteThrough? then
      var (s2, op) := WriteTier(cfg, s1, key);
      if key in op.evictedKeys then s2 else SettleWrite(cfg, s2, op, key)
    else s1
  }

  function CountRejections(s: Store, n: nat): Store {
    var w := s.stats.writes;
    s.(stats := s.stats.(writes := w.(rejections := w.rejections + n)))
  }

  function CountBypass(s: Store): Store {
    var w := s.stats.writes;
    s.(stats := s.stats.(writes := w.(admissions := w.admissions + 1, bypasses := w.bypasses + 1)))
  }

  /** Memory cannot hold the block: it goes straight to the offload tier, or is rejected. */
  function BypassMemory(cfg: Config, s: Store, key: PoolKey): Store {
    if !cfg.enableOffload then CountRejections(s, 1)
    else
      var (s1, op) := WriteTier(cfg, s, key);
      if key in op.evictedKeys then CountRejections(s1, 1)
      else
        var s2 := SettleWrite(cfg, s1, op, key);
        CountBypass(s2.(objects := s2.objects[key := Object(Offload, 0, 0)],
                        seen := if cfg.countSource then s2.seen + {key} else s2.seen))
  }

  function PutOne(cfg: Config, s: Store, key: PoolKey): Store {
    if key in s.objects then Touch(cfg, s, key)
    else if TooManyRanks(cfg, s, key) then s.(failed := true)
    else
      var s1 := AssignRank(cfg, s, key);
      var (admitted, s2) := EnsureRoom(cfg, s1, RankIndex(s1, key));
      if admitted then AdmitToMemory(cfg, s2, key) else BypassMemory(cfg, s2, key)
  }

  function PutKeys(cfg: Config, s: Store, keys: seq<PoolKey>): Store {
    if keys == [] then s
    else
      var s' := PutKeys(cfg, s, keys[..|keys| - 1]);
      if s'.failed then s' else PutOne(cfg, s', keys[|keys| - 1])
  }

  function CountPut(s: Store): Store {
    var c := s.stats.calls;
    s.(stats := s.stats.(calls := c.(puts := c.puts + 1)))
  }

  function Put(cfg: Config, s: Store, keys: seq<PoolKey>): Store {
    if !cfg.admitAlways || keys == [] then CountRejections(s, |keys|)
    else PutKeys(cfg, CountPut(s), keys)
  }

  // ----- lookup

  /** Present and not stale: an offload object must be held by the offload tier. */
  predicate Present(cfg: Config, s: Store, key: PoolKey) {
    && key in s.objects
    && (s.objects[key].place.Offload? && cfg.enableOffload ==> Contains(cfg, s, key))
  }

  /** Length of the longest prefix of present keys. */
  function HitLength(cfg: Config, s: Store, keys: seq<PoolKey>): (n: nat)
    ensures n <= |keys|
    ensures forall i :: 0 <= i < n ==> Present(cfg, s, keys[i])
    ensures n < |keys| ==> !Present(cfg, s, keys[n])
  {
    if keys == [] || !Present(cfg, s, keys[0]) then 0
    else
      var n := HitLength(cfg, s, keys[1..]);
      assert forall i :: 1 <= i < n + 1 ==> keys[i] == keys[1..][i - 1];
      n + 1
  }

  predicate AnyOffload(s: Store, keys: seq<PoolKey>) {
    exists i :: 0 <= i < |keys| && keys[i] in s.objects && s.objects[keys[i]].place.Offload?
  }

  function CreditReads(s: Store, keys: seq<PoolKey>): Store {
    if keys == [] then s
    else
      var s' := CreditReads(s, keys[..|keys| - 1]);
      var key := keys[|keys| - 1];
      if key in s'.objects
      then s'.(objects := s'.objects[key := s'.objects[key].(readCount := s'.objects[key].readCount + 1)])
      else s'
  }

  function CountLookup(s: Store, hit: bool, disk: bool): Store {
    var c := s.stats.calls;
    s.(stats := s.stats.(calls := if !hit then c.(storeMisses := c.storeMisses + 1)
                                  else if disk then c.(storeHits := c.storeHits + 1, diskHits := c.diskHits + 1)
                                  else c.(storeHits := c.storeHits + 1, memoryHits := c.memoryHits + 1)))
  }

  function Lookup(cfg: Config, s: Store, keys: seq<PoolKey>): Store {
    var hits := keys[..HitLength(cfg, s, keys)];
    CountLookup(if cfg.creditOnServe then s else CreditReads(s, hits), hits != [], AnyOffload(s, hits))
  }

  // ----- get

  function CreditServe(cfg: Config, s: Store, key: PoolKey): Store
    requires key in s.objects
  {
    if cfg.creditOnServe
    then s.(objects := s.objects[key := s.objects[key].(readCount := s.objects[key].readCount + 1)])
    else s
  }

  function CountSsdReads(n: Stats, blocks: nat): Stats {
    n.(calls := n.calls.(ssdReads := n.calls.ssdReads + blocks))
  }

  function CountMemoryRead(n: Stats): Stats {
    n.(calls := n.calls.(memoryReads := n.calls.memoryReads + 1))
  }

  function ServeOffload(cfg: Config, s: Store, key: PoolKey): Store {
    var i := Route(cfg, s, key);
    var (t, op) := TierRead(TierAt(s, i), key);
    s.(tiers := s.tiers[i := t], stats := CountSsdReads(s.stats, op.blocks))
  }

  function ServeMemory(s: Store, key: PoolKey): Store
    requires key in s.objects
  {
    s.(objects := s.objects[key := s.objects[key].(pcmServedReads := s.objects[key].pcmServedReads + 1)],
       stats := CountMemoryRead(s.stats))
  }

  function GetOne(cfg: Config, s: Store, key: PoolKey): Store {
    if key !in s.objects then s
    else
      var s1 := CreditServe(cfg, Touch(cfg, s, key), key);
      if s1.objects[key].place.Offload? && cfg.enableOffload then ServeOffload(cfg, s1, key) else ServeMemory(s1, key)
  }

  function GetKeys(cfg: Config, s: Store, keys: seq<PoolKey>): Store {
    if keys == [] then s else GetOne(cfg, GetKeys(cfg, s, keys[..|keys| - 1]), keys[|keys| - 1])
  }

  function CountGet(s: Store): Store {
    var c := s.stats.calls;
    s.(stats := s.stats.(calls := c.(gets := c.gets + 1)))
  }

  function Get(cfg: Config, s: Store, keys: seq<PoolKey>): Store {
    if keys == [] then s else GetKeys(cfg, CountGet(s), keys)
  }

  // ----- runs

  datatype Call = PutCall(keys: seq<PoolKey>) | GetCall(keys: seq<PoolKey>) | LookupCall(keys: seq<PoolKey>)

  function Step(cfg: Config, s: Store, call: Call): Store {
    if s.failed then s else
    match call
    case PutCall(keys) => Put(cfg, s, keys)
    case GetCall(keys) => Get(cfg, s, keys)
    case LookupCall(keys) => Lookup(cfg, s, keys)
  }

  /** The store after a whole call sequence, from empty. */
  function Run(cfg: Config, calls: seq<Call>): Store {
    if calls == [] then EMPTY_STORE else Step(cfg, Run(cfg, calls[..|calls| - 1]), calls[|calls| - 1])
  }
}

/** A per-rank store is R independent global stores of a floor(pool / R) share each. */
module StorePartition {
  import opened Containers
  import opened Keys
  import opened OffloadTiers
  import opened StoreModel
  import opened StoreInvariant
  import opened StoreIdentities
  import opened StoreProvenance

  /** The configuration of one rank's independent store. */
  function ShareOf(cfg: Config): (c: Config)
    requires cfg.partition.PerRank?
    ensures MemoryCapacity(c) == MemoryCapacity(cfg) && OffloadCapacity(c) == OffloadCapacity(cfg)
  {
    cfg.(partition := Global,
         memoryCapacity := cfg.memoryCapacity / cfg.ranks,
         offloadCapacity := cfg.offloadCapacity / cfg.ranks)
  }

  function IndexOf(index: map<RankId, nat>, rank: RankId): nat {
    if rank in index then index[rank] else |index|
  }

  function LruIn(lru: map<nat, seq<PoolKey>>, i: nat): seq<PoolKey> {
    if i in lru then lru[i] else []
  }

  function UsedIn(used: map<nat, int>, i: nat): int {
    if i in used then used[i] else 0
  }

  function TierIn(tiers: map<nat, Tier>, i: nat): Tier {
    if i in tiers then tiers[i] else EMPTY_TIER
  }

  predicate Owns(index: map<RankId, nat>, i: nat, key: PoolKey) {
    RankOf(key) in index && index[RankOf(key)] == i
  }

  // ----- every table of a per-rank store lists a key only under the key's own rank

  ghost predicate IndexOk(cfg: Config, index: map<RankId, nat>) {
    && |index| <= cfg.ranks
    && (forall r :: r in index ==> index[r] < |index|)
    && (forall q, r :: q in index && r in index && index[q] == index[r] ==> q == r)
  }

  ghost predicate OwnersOk(index: map<RankId, nat>, keyRank: map<PoolKey, nat>, objects: map<PoolKey, Object>) {
    && (forall k :: k in objects ==> k in keyRank)
    && (forall k :: k in keyRank ==> Owns(index, keyRank[k], k))
  }

  ghost predicate HistoryOk(index: map<RankId, nat>, seen: set<PoolKey>, departed: map<PoolKey, Departure>) {
    forall k :: k in seen || k in departed ==> RankOf(k) in index
  }

  ghost predicate OrdersOk(index: map<RankId, nat>, order: seq<PoolKey>, lru: map<nat, seq<PoolKey>>) {
    && (forall i: nat, k :: k in LruIn(lru, i) ==> Owns(index, i, k))
    && (forall k :: k in order <==> RankOf(k) in index && k in LruIn(lru, index[RankOf(k)]))
  }

  ghost predicate TiersOk(index: map<RankId, nat>, tiers: map<nat, Tier>) {
    && (forall i: nat, k :: k in TierIn(tiers, i).lru ==> Owns(index, i, k))
    && (forall i: nat :: i >= |index| ==> TierIn(tiers, i) == EMPTY_TIER)
  }

  ghost predicate UsedOk(index: map<RankId, nat>, used: map<nat, int>) {
    forall i: nat :: i >= |index| ==> UsedIn(used, i) == 0
  }

  ghost predicate Segregated(cfg: Config, s: Store) {
    && !s.failed
    && IndexOk(cfg, s.ranks.index)
    && OwnersOk(s.ranks.index, s.ranks.keyRank, s.objects)
    && HistoryOk(s.ranks.index, s.seen, s.departed)
    && OrdersOk(s.ranks.index, s.memoryLru, s.ranks.lru)
    && TiersOk(s.ranks.index, s.tiers)
    && UsedOk(s.ranks.index, s.ranks.used)
  }

  // ----- what the per-rank store holds for a rank is what the rank's own store holds

  ghost predicate MatchObjects(all: map<PoolKey, Object>, own: map<PoolKey, Object>, rank: RankId) {
    && (forall k :: k in own <==> k in all && RankOf(k) == rank)
    && (forall k :: k in own ==> own[k] == all[k])
  }

  ghost predicate MatchSeen(all: set<PoolKey>, own: set<PoolKey>, rank: RankId) {
    forall k :: k in own <==> k in all && RankOf(k) == rank
  }

  ghost predicate MatchDeparted(all: map<PoolKey, Departure>, own: map<PoolKey, Departure>, rank: RankId) {
    && (forall k :: k in own <==> k in all && RankOf(k) == rank)
    && (forall k :: k in own ==> own[k] == all[k])
  }

  ghost predicate Match(s: Store, rank: RankId, g: Store) {
    var i := IndexOf(s.ranks.index, rank);
    && MatchObjects(s.objects, g.objects, rank)
    && MatchSeen(s.seen, g.seen, rank)
    && MatchDeparted(s.departed, g.departed, rank)
    && g.memoryLru == LruIn(s.ranks.lru, i)
    && g.memoryUsed == UsedIn(s.ranks.used, i)
    && TierIn(g.tiers, 0) == TierIn(s.tiers, i)
    && g.failed == s.failed
  }

  // ----- nothing that belongs to another rank changes

  ghost predicate SameObjectsBut(a: map<PoolKey, Object>, b: map<PoolKey, Object>, rank: RankId) {
    forall k :: RankOf(k) != rank ==> (k in a <==> k in b) && (k in a && k in b ==> a[k] == b[k])
  }

  ghost predicate SameSeenBut(a: set<PoolKey>, b: set<PoolKey>, rank: RankId) {
    forall k :: RankOf(k) != rank ==> (k in a <==> k in b)
  }

  ghost predicate SameDepartedBut(a: map<PoolKey, Departure>, b: map<PoolKey, Departure>, rank: RankId) {
    forall k :: RankOf(k) != rank ==> (k in a <==> k in b) && (k in a && k in b ==> a[k] == b[k])
  }

  ghost predicate SameTablesBut(a: Ranks, b: Ranks, i: nat) {
    && (forall j: nat :: j != i ==> LruIn(a.lru, j) == LruIn(b.lru, j))
    && (forall j: nat :: j != i ==> UsedIn(a.used, j) == UsedIn(b.used, j))
  }

  ghost predicate SameTiersBut(a: map<nat, Tier>, b: map<nat, Tier>, i: nat) {
    forall j: nat :: j != i ==> TierIn(a, j) == TierIn(b, j)
  }

  ghost predicate OnlyRank(s: Store, s': Store, rank: RankId, i: nat) {
    && s'.ranks.index == s.ranks.index
    && SameObjectsBut(s.objects, s'.objects, rank)
    && SameSeenBut(s.seen, s'.seen, rank)
    && SameDepartedBut(s.departed, s'.departed, rank)
    && SameTablesBut(s.ranks, s'.ranks, i)
    && SameTiersBut(s.tiers, s'.tiers, i)
    && s'.failed == s.failed
  }

  predicate SameCallDelta(m: CallStats, m': CallStats, n: CallStats, n': CallStats) {
    && m'.gets - m.gets == n'.gets - n.gets && m'.puts - m.puts == n'.puts - n.puts
    && m'.storeHits - m.storeHits == n'.storeHits - n.storeHits
    && m'.storeMisses - m.storeMisses == n'.storeMisses - n.storeMisses
    && m'.memoryHits - m.memoryHits == n'.memoryHits - n.memoryHits
    && m'.diskHits - m.diskHits == n'.diskHits - n.diskHits
    && m'.ssdReads - m.ssdReads == n'.ssdReads - n.ssdReads
    && m'.memoryReads - m.memoryReads == n'.memoryReads - n.memoryReads
  }

  predicate SameWriteDelta(m: WriteStats, m': WriteStats, n: WriteStats, n': WriteStats) {
    && m'.ssdWrites - m.ssdWrites == n'.ssdWrites - n.ssdWrites
    && m'.ssdEvictions - m.ssdEvictions == n'.ssdEvictions - n.ssdEvictions
    && m'.admissions - m.admissions == n'.admissions - n.admissions
    && m'.rejections - m.rejections == n'.rejections - n.rejections
    && m'.bypasses - m.bypasses == n'.bypasses - n.bypasses
    && m'.memoryWrites - m.memoryWrites == n'.memoryWrites - n.memoryWrites
  }

  predicate SameEvictionDelta(m: EvictionStats, m': EvictionStats, n: EvictionStats, n': EvictionStats) {
    && m'.total - m.total == n'.total - n.total && m'.useful - m.useful == n'.useful - n.useful
    && m'.wasted - m.wasted == n'.wasted - n.wasted && m'.dropped - m.dropped == n'.dropped - n.dropped
    && m'.demoted - m.demoted == n'.demoted - n.demoted && m'.gatePasses - m.gatePasses == n'.gatePasses - n.gatePasses
    && m'.gatePassesServed - m.gatePassesServed == n'.gatePassesServed - n.gatePassesServed
  }

  predicate SameSourceDelta(m: SourceStats, m': SourceStats, n: SourceStats, n': SourceStats) {
    && m'.first - m.first == n'.first - n.first && m'.afterDrop - m.afterDrop == n'.afterDrop - n.afterDrop
    && m'.afterHbf - m.afterHbf == n'.afterHbf - n.afterHbf && m'.afterOther - m.afterOther == n'.afterOther - n.afterOther
  }

  /** The per-rank store's counters moved exactly as the independent store's did. */
  predicate SameDelta(m: Stats, m': Stats, n: Stats, n': Stats) {
    && SameCallDelta(m.calls, m'.calls, n.calls, n'.calls)
    && SameWriteDelta(m.writes, m'.writes, n.writes, n'.writes)
    && SameEvictionDelta(m.evictions, m'.evictions, n.evictions, n'.evictions)
    && SameSourceDelta(m.sources, m'.sources, n.sources, n'.sources)
    && m'.ranks.cross == m.ranks.cross
    && m'.ranks.same - m.ranks.same == m'.evictions.total - m.evictions.total
  }

  /** One rank's store and the per-rank store, in step, with the rank already indexed. */
  ghost predicate Synced(cfg: Config, s: Store, rank: RankId, g: Store) {
    cfg.partition.PerRank? && Segregated(cfg, s) && rank in s.ranks.index && Match(s, rank, g)
  }

  ghost predicate Advanced(cfg: Config, rank: RankId, s: Store, g: Store, s': Store, g': Store) {
    && Synced(cfg, s', rank, g')
    && rank in s.ranks.index && OnlyRank(s, s', rank, s.ranks.index[rank])
    && s'.ranks.keyRank == s.ranks.keyRank
    && SameDelta(s.stats, s'.stats, g.stats, g'.stats)
  }

  lemma {:induction false} Then(cfg: Config, rank: RankId, s: Store, g: Store, s1: Store, g1: Store, s2: Store,
                                g2: Store)
    requires Advanced(cfg, rank, s, g, s1, g1) && Advanced(cfg, rank, s1, g1, s2, g2)
    ensures Advanced(cfg, rank, s, g, s2, g2)
  {
    hide Synced, SameCallDelta, SameWriteDelta, SameEvictionDelta, SameSourceDelta;
    DeltaTransitive(s.stats, s1.stats, s2.stats, g.stats, g1.stats, g2.stats);
    hide SameDelta;
    OnlyRankTransitive(s, s1, s2, rank, s.ranks.index[rank]);
    hide OnlyRank;
  }

  lemma {:induction false} DeltaTransitive(m: Stats, m': Stats, m'': Stats, n: Stats, n': Stats, n'': Stats)
    requires SameDelta(m, m', n, n') && SameDelta(m', m'', n', n'')
    ensures SameDelta(m, m'', n, n'')
  {
  }

  lemma {:induction false} OnlyRankTransitive(s: Store, s1: Store, s2: Store, rank: RankId, i: nat)
    requires OnlyRank(s, s1, rank, i) && OnlyRank(s1, s2, rank, i)
    ensures OnlyRank(s, s2, rank, i)
  {
  }

  // ----- one update at a time

  lemma {:induction false} ObjectPut(all: map<PoolKey, Object>, own: map<PoolKey, Object>, rank: RankId, key: PoolKey,
                                     o: Object)
    requires MatchObjects(all, own, rank) && RankOf(key) == rank
    ensures MatchObjects(all[key := o], own[key := o], rank) && SameObjectsBut(all, all[key := o], rank)
  {
  }

  lemma {:induction false} ObjectRemove(all: map<PoolKey, Object>, own: map<PoolKey, Object>, rank: RankId,
                                        key: PoolKey)
    requires MatchObjects(all, own, rank) && RankOf(key) == rank
    ensures MatchObjects(all - {key}, own - {key}, rank) && SameObjectsBut(all, all - {key}, rank)
  {
  }

  lemma {:induction false} DepartedPut(all: map<PoolKey, Departure>, own: map<PoolKey, Departure>, rank: RankId,
                                       key: PoolKey, why: Departure)
    requires MatchDeparted(all, own, rank) && RankOf(key) == rank
    ensures MatchDeparted(all[key := why], own[key := why], rank) && SameDepartedBut(all, all[key := why], rank)
    ensures MatchDeparted(all - {key}, own - {key}, rank) && SameDepartedBut(all, all - {key}, rank)
  {
  }

  lemma {:induction false} SeenPut(all: set<PoolKey>, own: set<PoolKey>, rank: RankId, key: PoolKey)
    requires MatchSeen(all, own, rank) && RankOf(key) == rank
    ensures MatchSeen(all + {key}, own + {key}, rank) && SameSeenBut(all, all + {key}, rank)
  {
  }

  lemma {:induction false} TierPut(index: map<RankId, nat>, tiers: map<nat, Tier>, i: nat, t: Tier)
    requires TiersOk(index, tiers) && i < |index| && forall k :: k in t.lru ==> Owns(index, i, k)
    ensures TiersOk(index, tiers[i := t]) && SameTiersBut(tiers, tiers[i := t], i) && TierIn(tiers[i := t], i) == t
  {
    assert forall j: nat {:trigger TierIn(tiers[i := t], j)} :: j != i ==> TierIn(tiers[i := t], j) == TierIn(tiers, j);
  }

  lemma {:induction false} UsedPut(index: map<RankId, nat>, ranks: Ranks, i: nat, n: int)
    requires UsedOk(index, ranks.used) && i < |index|
    ensures UsedOk(index, ranks.used[i := n]) && UsedIn(ranks.used[i := n], i) == n
    ensures SameTablesBut(ranks, ranks.(used := ranks.used[i := n]), i)
  {
    var used := ranks.used[i := n];
    assert forall j: nat {:trigger UsedIn(used, j)} :: j != i ==> UsedIn(used, j) == UsedIn(ranks.used, j);
  }

  /** Replacing a rank's order, with the global order following it on the rank's own keys. */
  lemma {:induction false} OrderPut(index: map<RankId, nat>, order: seq<PoolKey>, order': seq<PoolKey>, ranks: Ranks,
                                    rank: RankId,
                 own: seq<PoolKey>)
    requires OrdersOk(index, order, ranks.lru) && rank in index
    requires forall q, r :: q in index && r in index && index[q] == index[r] ==> q == r
    requires forall k :: k in own ==> RankOf(k) == rank
    requires forall k :: k in order' <==> if RankOf(k) == rank then k in own else k in order
    ensures var ranks' := ranks.(lru := ranks.lru[index[rank] := own]);
            && OrdersOk(index, order', ranks'.lru)
            && LruIn(ranks'.lru, index[rank]) == own
            && SameTablesBut(ranks, ranks', index[rank])
  {
  }

  lemma {:induction false} Unchanged(s: Store, rank: RankId, i: nat)
    ensures SameObjectsBut(s.objects, s.objects, rank) && SameSeenBut(s.seen, s.seen, rank)
    ensures SameDepartedBut(s.departed, s.departed, rank)
    ensures SameTablesBut(s.ranks, s.ranks, i) && SameTiersBut(s.tiers, s.tiers, i)
  {
  }

  lemma {:induction false} IndexBound(cfg: Config, s: Store, rank: RankId, g: Store)
    requires Synced(cfg, s, rank, g)
    ensures s.ranks.index[rank] < |s.ranks.index|
    ensures forall q, r :: q in s.ranks.index && r in s.ranks.index && s.ranks.index[q] == s.ranks.index[r] ==> q == r
    ensures forall k :: k in g.objects <==> k in s.objects && RankOf(k) == rank
    ensures forall k :: k in g.objects ==> g.objects[k] == s.objects[k]
    ensures forall k :: k in g.seen <==> k in s.seen && RankOf(k) == rank
    ensures forall k :: k in g.departed <==> k in s.departed && RankOf(k) == rank
    ensures forall k :: k in g.departed ==> g.departed[k] == s.departed[k]
    ensures forall k :: k in s.ranks.keyRank && RankOf(k) == rank ==> s.ranks.keyRank[k] == s.ranks.index[rank]
    ensures forall k :: k in s.objects ==> k in s.ranks.keyRank
    ensures forall k :: RankOf(k) == rank ==> (k in s.memoryLru <==> k in g.memoryLru)
    ensures forall k :: k in g.memoryLru || k in TierIn(g.tiers, 0).lru ==> RankOf(k) == rank
  {
    var i := s.ranks.index[rank];
    assert forall k :: k in LruIn(s.ranks.lru, i) ==> Owns(s.ranks.index, i, k);
    assert forall k :: k in TierIn(s.tiers, i).lru ==> Owns(s.ranks.index, i, k);
  }

  // ----- pieces of the operations, each in step

  lemma {:induction false} OwnersKeep(s: Store, objects: map<PoolKey, Object>)
    requires OwnersOk(s.ranks.index, s.ranks.keyRank, s.objects) && objects.Keys <= s.objects.Keys
    ensures OwnersOk(s.ranks.index, s.ranks.keyRank, objects)
  {
    assert forall k :: k in objects ==> k in objects.Keys;
  }

  /** Only counters moved, and by the same amounts. */
  lemma {:induction false} StatsStep(cfg: Config, rank: RankId, s: Store, g: Store, m: Stats, n: Stats)
    requires Synced(cfg, s, rank, g) && SameDelta(s.stats, m, g.stats, n)
    ensures Advanced(cfg, rank, s, g, s.(stats := m), g.(stats := n))
  {
    Unchanged(s, rank, s.ranks.index[rank]);
    hide IndexOk, OwnersOk, HistoryOk, OrdersOk, TiersOk, UsedOk, MatchObjects, MatchSeen, MatchDeparted,
         SameObjectsBut, SameSeenBut, SameDepartedBut, SameTablesBut, SameTiersBut, SameDelta;
  }

  lemma {:induction false} CountersStep(cfg: Config, rank: RankId, s: Store, g: Store, obj: Object, n: nat)
    requires cfg.partition.PerRank? && Synced(cfg, s, rank, g)
    ensures Advanced(cfg, rank, s, g, CountDropped(s), CountDropped(g))
    ensures Advanced(cfg, rank, s, g, CountDemoted(cfg, s, obj), CountDemoted(ShareOf(cfg), g, obj))
    ensures Advanced(cfg, rank, s, g, CountAdmission(s), CountAdmission(g))
    ensures Advanced(cfg, rank, s, g, CountRejections(s, n), CountRejections(g, n))
    ensures Advanced(cfg, rank, s, g, CountBypass(s), CountBypass(g))
    ensures Advanced(cfg, rank, s, g, CountPut(s), CountPut(g))
    ensures Advanced(cfg, rank, s, g, CountGet(s), CountGet(g))
  {
    hide Synced, Advanced;
    StatsStep(cfg, rank, s, g, CountDropped(s).stats, CountDropped(g).stats);
    StatsStep(cfg, rank, s, g, CountDemoted(cfg, s, obj).stats, CountDemoted(ShareOf(cfg), g, obj).stats);
    StatsStep(cfg, rank, s, g, CountAdmission(s).stats, CountAdmission(g).stats);
    StatsStep(cfg, rank, s, g, CountRejections(s, n).stats, CountRejections(g, n).stats);
    StatsStep(cfg, rank, s, g, CountBypass(s).stats, CountBypass(g).stats);
    StatsStep(cfg, rank, s, g, CountPut(s).stats, CountPut(g).stats);
    StatsStep(cfg, rank, s, g, CountGet(s).stats, CountGet(g).stats);
  }

  lemma {:induction false} ForgetStep(cfg: Config, rank: RankId, s: Store, g: Store, key: PoolKey, why: Departure)
    requires Synced(cfg, s, rank, g) && RankOf(key) == rank
    ensures Advanced(cfg, rank, s, g, Forget(cfg, s, key, why), Forget(ShareOf(cfg), g, key, why))
  {
    Unchanged(s, rank, s.ranks.index[rank]);
    ObjectRemove(s.objects, g.objects, rank, key);
    DepartedPut(s.departed, g.departed, rank, key, why);
    OwnersKeep(s, s.objects - {key});
    hide IndexOk, OwnersOk, OrdersOk, TiersOk, UsedOk, MatchObjects, MatchSeen, MatchDeparted,
         SameObjectsBut, SameSeenBut, SameDepartedBut, SameTablesBut, SameTiersBut;
  }

  lemma {:induction false} SeenStep(cfg: Config, rank: RankId, s: Store, g: Store, key: PoolKey, m: Stats, n: Stats)
    requires Synced(cfg, s, rank, g) && RankOf(key) == rank && SameDelta(s.stats, m, g.stats, n)
    ensures Advanced(cfg, rank, s, g, s.(seen := s.seen + {key}, stats := m), g.(seen := g.seen + {key}, stats := n))
  {
    Unchanged(s, rank, s.ranks.index[rank]);
    SeenPut(s.seen, g.seen, rank, key);
    assert HistoryOk(s.ranks.index, s.seen + {key}, s.departed);
    hide IndexOk, OwnersOk, HistoryOk, OrdersOk, TiersOk, UsedOk, MatchObjects, MatchSeen, MatchDeparted,
         SameObjectsBut, SameSeenBut, SameDepartedBut, SameTablesBut, SameTiersBut, SameDelta;
  }

  lemma {:induction false} ReturnStep(cfg: Config, rank: RankId, s: Store, g: Store, key: PoolKey, m: Stats, n: Stats)
    requires Synced(cfg, s, rank, g) && RankOf(key) == rank && SameDelta(s.stats, m, g.stats, n)
    ensures Advanced(cfg, rank, s, g, s.(departed := s.departed - {key}, stats := m),
                     g.(departed := g.departed - {key}, stats := n))
  {
    Unchanged(s, rank, s.ranks.index[rank]);
    DepartedPut(s.departed, g.departed, rank, key, OtherDeparture);
    assert HistoryOk(s.ranks.index, s.seen, s.departed - {key});
    hide IndexOk, OwnersOk, HistoryOk, OrdersOk, TiersOk, UsedOk, MatchObjects, MatchSeen, MatchDeparted,
         SameObjectsBut, SameSeenBut, SameDepartedBut, SameTablesBut, SameTiersBut, SameDelta;
  }

  lemma {:induction false} SourcesDelta(m: Stats, n: Stats, a: SourceStats, b: SourceStats)
    requires SameSourceDelta(m.sources, a, n.sources, b)
    ensures SameDelta(m, m.(sources := a), n, n.(sources := b))
  {
  }

  lemma {:induction false} ReasonDelta(a: SourceStats, b: SourceStats, why: Departure)
    ensures SameSourceDelta(a, CountReason(a, why), b, CountReason(b, why))
    ensures SameSourceDelta(a, a.(first := a.first + 1), b, b.(first := b.first + 1))
    ensures SameSourceDelta(a, a, b, b)
  {
  }

  lemma {:induction false} HistoryFacts(s: Store, g: Store, rank: RankId, key: PoolKey)
    requires Match(s, rank, g) && RankOf(key) == rank
    ensures key in s.seen <==> key in g.seen
    ensures key in s.departed <==> key in g.departed
    ensures key in g.departed ==> g.departed[key] == s.departed[key]
    ensures key in s.objects <==> key in g.objects
    ensures key in g.objects ==> g.objects[key] == s.objects[key]
  {
  }

  lemma {:induction false} CountFirstStep(cfg: Config, rank: RankId, s: Store, g: Store, key: PoolKey)
    requires cfg.partition.PerRank? && Synced(cfg, s, rank, g) && RankOf(key) == rank
    requires cfg.countSource && key !in s.seen && key !in g.seen
    ensures Advanced(cfg, rank, s, g, CountSource(cfg, s, key), CountSource(ShareOf(cfg), g, key))
  {
    hide Advanced, Synced, SameDelta, SameSourceDelta;
    var m, n := s.stats, g.stats;
    var a, b := m.sources.(first := m.sources.first + 1), n.sources.(first := n.sources.first + 1);
    ReasonDelta(m.sources, n.sources, OtherDeparture);
    SourcesDelta(m, n, a, b);
    SeenStep(cfg, rank, s, g, key, m.(sources := a), n.(sources := b));
  }

  lemma {:induction false} CountReturnStep(cfg: Config, rank: RankId, s: Store, g: Store, key: PoolKey, why: Departure)
    requires cfg.partition.PerRank? && Synced(cfg, s, rank, g) && RankOf(key) == rank
    requires cfg.countSource && key in s.seen && key in g.seen
    requires why == (if key in s.departed then s.departed[key] else OtherDeparture)
    requires why == (if key in g.departed then g.departed[key] else OtherDeparture)
    ensures Advanced(cfg, rank, s, g, CountSource(cfg, s, key), CountSource(ShareOf(cfg), g, key))
  {
    hide Advanced, Synced, SameDelta, SameSourceDelta, CountReason;
    var m, n := s.stats, g.stats;
    var a, b := CountReason(m.sources, why), CountReason(n.sources, why);
    ReasonDelta(m.sources, n.sources, why);
    SourcesDelta(m, n, a, b);
    ReturnStep(cfg, rank, s, g, key, m.(sources := a), n.(sources := b));
  }

  lemma {:induction false} CountSourceStep(cfg: Config, rank: RankId, s: Store, g: Store, key: PoolKey)
    requires cfg.partition.PerRank? && Synced(cfg, s, rank, g) && RankOf(key) == rank
    ensures Advanced(cfg, rank, s, g, CountSource(cfg, s, key), CountSource(ShareOf(cfg), g, key))
  {
    hide Advanced, Segregated, Match, SameDelta;
    HistoryFacts(s, g, rank, key);
    hide Synced;
    if !cfg.countSource {
      ZeroDelta(s.stats, g.stats);
      StatsStep(cfg, rank, s, g, s.stats, g.stats);
    } else {
      hide CountSource;
      if key !in s.seen {
        CountFirstStep(cfg, rank, s, g, key);
      } else {
        CountReturnStep(cfg, rank, s, g, key, if key in s.departed then s.departed[key] else OtherDeparture);
      }
    }
  }

  lemma {:induction false} ObjectsStep(cfg: Config, rank: RankId, s: Store, g: Store, key: PoolKey, o: Object,
                                       m: Stats, n: Stats)
    requires Synced(cfg, s, rank, g) && RankOf(key) == rank && key in s.ranks.keyRank && SameDelta(s.stats, m, g.stats, n)
    ensures Advanced(cfg, rank, s, g, s.(objects := s.objects[key := o], stats := m),
                     g.(objects := g.objects[key := o], stats := n))
  {
    Unchanged(s, rank, s.ranks.index[rank]);
    ObjectPut(s.objects, g.objects, rank, key, o);
    assert OwnersOk(s.ranks.index, s.ranks.keyRank, s.objects[key := o]);
    hide IndexOk, OwnersOk, HistoryOk, OrdersOk, TiersOk, UsedOk, MatchObjects, MatchSeen, MatchDeparted,
         SameObjectsBut, SameSeenBut, SameDepartedBut, SameTablesBut, SameTiersBut, SameDelta;
  }

  /** A new order and used count for the rank, with the global order following. */
  lemma {:induction false} OrderStep(cfg: Config, rank: RankId, s: Store, g: Store, order: seq<PoolKey>,
                                     own: seq<PoolKey>, n: int, total: int)
    requires Synced(cfg, s, rank, g) && (forall k :: k in own ==> RankOf(k) == rank)
    requires forall k :: k in order <==> if RankOf(k) == rank then k in own else k in s.memoryLru
    ensures var i := s.ranks.index[rank];
            Advanced(cfg, rank, s, g,
                     s.(memoryLru := order, memoryUsed := total,
                        ranks := s.ranks.(used := s.ranks.used[i := n], lru := s.ranks.lru[i := own])),
                     g.(memoryLru := own, memoryUsed := n))
  {
    var i := s.ranks.index[rank];
    assert i < |s.ranks.index|;
    InjectiveIndex(cfg, s);
    Unchanged(s, rank, i);
    OrderPut(s.ranks.index, s.memoryLru, order, s.ranks, rank, own);
    UsedPut(s.ranks.index, s.ranks, i, n);
    TablesJoin(s.ranks, i, own, n);
    hide IndexOk, OwnersOk, HistoryOk, OrdersOk, TiersOk, UsedOk, MatchObjects, MatchSeen, MatchDeparted,
         SameObjectsBut, SameSeenBut, SameDepartedBut, SameTablesBut, SameTiersBut;
  }

  lemma {:induction false} InjectiveIndex(cfg: Config, s: Store)
    requires Segregated(cfg, s)
    ensures forall q, r :: q in s.ranks.index && r in s.ranks.index && s.ranks.index[q] == s.ranks.index[r] ==> q == r
  {
  }

  lemma {:induction false} LruStep(cfg: Config, rank: RankId, s: Store, g: Store, order: seq<PoolKey>,
                                   own: seq<PoolKey>)
    requires Synced(cfg, s, rank, g) && (forall k :: k in own ==> RankOf(k) == rank)
    requires forall k :: k in order <==> if RankOf(k) == rank then k in own else k in s.memoryLru
    ensures Advanced(cfg, rank, s, g,
                     s.(memoryLru := order, ranks := s.ranks.(lru := s.ranks.lru[s.ranks.index[rank] := own])),
                     g.(memoryLru := own))
  {
    var i := s.ranks.index[rank];
    assert i < |s.ranks.index|;
    InjectiveIndex(cfg, s);
    Unchanged(s, rank, i);
    OrderPut(s.ranks.index, s.memoryLru, order, s.ranks, rank, own);
    hide IndexOk, OwnersOk, HistoryOk, OrdersOk, TiersOk, UsedOk, MatchObjects, MatchSeen, MatchDeparted,
         SameObjectsBut, SameSeenBut, SameDepartedBut, SameTablesBut, SameTiersBut;
  }

  lemma {:induction false} ZeroDelta(m: Stats, n: Stats)
    ensures SameDelta(m, m, n, n)
  {
  }

  lemma {:induction false} SyncedAfter(cfg: Config, rank: RankId, s: Store, g: Store, s': Store, g': Store)
    requires Advanced(cfg, rank, s, g, s', g')
    ensures Synced(cfg, s', rank, g') && s'.ranks.keyRank == s.ranks.keyRank && s'.ranks.index == s.ranks.index
  {
  }

  lemma {:induction false} EnterOwn(cfg: Config, g: Store, key: PoolKey)
    requires cfg.partition.PerRank?
    ensures EnterMemory(ShareOf(cfg), g, key)
         == g.(memoryLru := g.memoryLru + [key], memoryUsed := g.memoryUsed + 1,
               objects := g.objects[key := Object(Memory, 0, 0)])
  {
  }

  lemma {:induction false} EnterShared(cfg: Config, s: Store, key: PoolKey, i: nat)
    requires cfg.partition.PerRank? && RankIndex(s, key) == i
    ensures EnterMemory(cfg, s, key)
         == s.(memoryLru := s.memoryLru + [key], memoryUsed := s.memoryUsed + 1,
               ranks := s.ranks.(used := s.ranks.used[i := RankUsed(s, i) + 1],
                                 lru := s.ranks.lru[i := RankLru(s, i) + [key]]),
               objects := s.objects[key := Object(Memory, 0, 0)])
  {
  }

  lemma {:induction false} OrderFacts(cfg: Config, rank: RankId, s: Store, g: Store)
    requires Synced(cfg, s, rank, g)
    ensures forall k :: RankOf(k) == rank ==> (k in s.memoryLru <==> k in g.memoryLru)
    ensures forall k :: k in g.memoryLru ==> RankOf(k) == rank
    ensures g.memoryLru == RankLru(s, s.ranks.index[rank]) && g.memoryUsed == RankUsed(s, s.ranks.index[rank])
  {
    IndexBound(cfg, s, rank, g);
  }

  lemma {:induction false} EnterStep(cfg: Config, rank: RankId, s: Store, g: Store, key: PoolKey)
    requires cfg.partition.PerRank? && Synced(cfg, s, rank, g) && RankOf(key) == rank && key in s.ranks.keyRank
    ensures Advanced(cfg, rank, s, g, EnterMemory(cfg, s, key), EnterMemory(ShareOf(cfg), g, key))
  {
    hide Advanced, Segregated, Match, EnterMemory, RankLru, RankUsed, SameDelta;
    var i, o := s.ranks.index[rank], Object(Memory, 0, 0);
    EnterOwn(cfg, g, key);
    EnterShared(cfg, s, key, i);
    OrderFacts(cfg, rank, s, g);
    hide Synced;
    var s1 := s.(memoryLru := s.memoryLru + [key], memoryUsed := s.memoryUsed + 1,
                 ranks := s.ranks.(used := s.ranks.used[i := g.memoryUsed + 1],
                                   lru := s.ranks.lru[i := g.memoryLru + [key]]));
    var g1 := g.(memoryLru := g.memoryLru + [key], memoryUsed := g.memoryUsed + 1);
    OrderStep(cfg, rank, s, g, s.memoryLru + [key], g.memoryLru + [key], g.memoryUsed + 1, s.memoryUsed + 1);
    SyncedAfter(cfg, rank, s, g, s1, g1);
    ZeroDelta(s.stats, g.stats);
    ObjectsStep(cfg, rank, s1, g1, key, o, s1.stats, g1.stats);
    Then(cfg, rank, s, g, s1, g1, s1.(objects := s1.objects[key := o]), g1.(objects := g1.objects[key := o]));
  }

  lemma {:induction false} TablesJoin(ranks: Ranks, i: nat, own: seq<PoolKey>, n: int)
    ensures SameTablesBut(ranks, ranks.(used := ranks.used[i := n], lru := ranks.lru[i := own]), i)
  {
  }

  lemma {:induction false} TouchStep(cfg: Config, rank: RankId, s: Store, g: Store, key: PoolKey)
    requires cfg.partition.PerRank? && Synced(cfg, s, rank, g) && RankOf(key) == rank && key in g.objects
    ensures key in s.objects && Advanced(cfg, rank, s, g, Touch(cfg, s, key), Touch(ShareOf(cfg), g, key))
  {
    var i := s.ranks.index[rank];
    IndexBound(cfg, s, rank, g);
    if s.objects[key].place.Memory? && key in s.memoryLru {
      var order, own := MoveToEnd(s.memoryLru, key), MoveToEnd(g.memoryLru, key);
      assert own == MoveToEnd(RankLru(s, i), key) && RankIndex(s, key) == i;
      LruStep(cfg, rank, s, g, order, own);
    } else {
      StatsStep(cfg, rank, s, g, s.stats, g.stats);
    }
    hide Synced, Advanced, MoveToEnd;
  }

  lemma {:induction false} TierWriteKeys(t: Tier, capacity: nat, unlimited: bool, key: PoolKey)
    ensures var (t', op) := TierWrite(t, capacity, unlimited, key, 1);
            && (forall k :: k in t'.lru ==> k in t.lru || k == key)
            && (forall k :: k in op.evictedKeys ==> k in t.lru || k == key)
  {
    EvictUntilFitsPrefix(t, capacity, 1);
  }

  lemma {:induction false} TierStep(cfg: Config, rank: RankId, s: Store, g: Store, t: Tier, m: Stats, n: Stats)
    requires Synced(cfg, s, rank, g) && SameDelta(s.stats, m, g.stats, n)
    requires forall k :: k in t.lru ==> RankOf(k) == rank
    ensures Advanced(cfg, rank, s, g, s.(tiers := s.tiers[s.ranks.index[rank] := t], stats := m),
                     g.(tiers := g.tiers[0 := t], stats := n))
  {
    var i := s.ranks.index[rank];
    IndexBound(cfg, s, rank, g);
    Unchanged(s, rank, i);
    TierPut(s.ranks.index, s.tiers, i, t);
    hide IndexOk, OwnersOk, HistoryOk, OrdersOk, TiersOk, UsedOk, MatchObjects, MatchSeen, MatchDeparted,
         SameObjectsBut, SameSeenBut, SameDepartedBut, SameTablesBut, SameTiersBut, SameDelta;
  }

  lemma {:induction false} WriteTierForms(cfg: Config, rank: RankId, s: Store, g: Store, key: PoolKey)
    requires cfg.partition.PerRank? && Synced(cfg, s, rank, g) && RankOf(key) == rank && key in s.ranks.keyRank
    ensures var (t, op) := TierWrite(TierIn(g.tiers, 0), OffloadCapacity(cfg), cfg.unlimited, key, 1);
            && WriteTier(cfg, s, key) == (s.(tiers := s.tiers[s.ranks.index[rank] := t]), op)
            && WriteTier(ShareOf(cfg), g, key) == (g.(tiers := g.tiers[0 := t]), op)
    ensures forall k :: k in TierIn(g.tiers, 0).lru ==> RankOf(k) == rank
  {
    IndexBound(cfg, s, rank, g);
    assert TierIn(g.tiers, 0) == TierAt(g, 0) == TierAt(s, s.ranks.index[rank]);
    hide Segregated, MatchObjects, MatchSeen, MatchDeparted, TierWrite;
  }

  lemma {:induction false} WriteTierStep(cfg: Config, rank: RankId, s: Store, g: Store, key: PoolKey)
    requires cfg.partition.PerRank? && Synced(cfg, s, rank, g) && RankOf(key) == rank && key in s.ranks.keyRank
    ensures var (s1, op) := WriteTier(cfg, s, key);
            var (g1, op') := WriteTier(ShareOf(cfg), g, key);
            && op == op'
            && Advanced(cfg, rank, s, g, s1, g1)
            && (forall k :: k in op.evictedKeys ==> RankOf(k) == rank)
  {
    assert rank in s.ranks.index;
    hide Synced, Advanced, TierWrite, WriteTier, SameDelta;
    WriteTierForms(cfg, rank, s, g, key);
    TierWriteKeys(TierIn(g.tiers, 0), OffloadCapacity(cfg), cfg.unlimited, key);
    ZeroDelta(s.stats, g.stats);
    TierStep(cfg, rank, s, g, TierWrite(TierIn(g.tiers, 0), OffloadCapacity(cfg), cfg.unlimited, key, 1).0,
             s.stats, g.stats);
  }

  lemma {:induction false} VictimsStep(cfg: Config, rank: RankId, s: Store, g: Store, evicted: seq<PoolKey>,
                                       owner: PoolKey)
    requires cfg.partition.PerRank? && Synced(cfg, s, rank, g) && forall k :: k in evicted ==> RankOf(k) == rank
    ensures Advanced(cfg, rank, s, g, DropVictims(cfg, s, evicted, owner), DropVictims(ShareOf(cfg), g, evicted, owner))
    ensures CountVictims(s, evicted, owner) == CountVictims(g, evicted, owner)
  {
    IndexBound(cfg, s, rank, g);
    if evicted == [] {
      StatsStep(cfg, rank, s, g, s.stats, g.stats);
    } else {
      var front, last := evicted[..|evicted| - 1], evicted[|evicted| - 1];
      assert forall k :: k in front ==> k in evicted;
      assert last in evicted;
      VictimsStep(cfg, rank, s, g, front, owner);
      var s1, g1 := DropVictims(cfg, s, front, owner), DropVictims(ShareOf(cfg), g, front, owner);
      assert Synced(cfg, s1, rank, g1);
      IndexBound(cfg, s1, rank, g1);
      hide Synced, Advanced, Forget;
      if last != owner && last in g1.objects && g1.objects[last].place.Offload? {
        ForgetStep(cfg, rank, s1, g1, last, HbfEvict);
        Then(cfg, rank, s, g, s1, g1, Forget(cfg, s1, last, HbfEvict), Forget(ShareOf(cfg), g1, last, HbfEvict));
      }
    }
  }

  lemma {:induction false} RecordStep(cfg: Config, rank: RankId, s: Store, g: Store, op: Operation, owner: PoolKey)
    requires cfg.partition.PerRank? && Synced(cfg, s, rank, g)
    requires CountVictims(s, op.evictedKeys, owner) == CountVictims(g, op.evictedKeys, owner)
    ensures Advanced(cfg, rank, s, g, RecordOffloadWrite(s, op, owner), RecordOffloadWrite(g, op, owner))
  {
    hide Synced, Advanced;
    StatsStep(cfg, rank, s, g, RecordOffloadWrite(s, op, owner).stats, RecordOffloadWrite(g, op, owner).stats);
  }

  lemma {:induction false} SettleStep(cfg: Config, rank: RankId, s: Store, g: Store, op: Operation, owner: PoolKey)
    requires cfg.partition.PerRank? && Synced(cfg, s, rank, g)
    requires forall k :: k in op.evictedKeys ==> RankOf(k) == rank
    ensures Advanced(cfg, rank, s, g, SettleWrite(cfg, s, op, owner), SettleWrite(ShareOf(cfg), g, op, owner))
  {
    hide Synced, Advanced, DropVictims, RecordOffloadWrite, CountVictims;
    var s1, g1 := RecordOffloadWrite(s, op, owner), RecordOffloadWrite(g, op, owner);
    VictimsStep(cfg, rank, s, g, op.evictedKeys, owner);
    RecordStep(cfg, rank, s, g, op, owner);
    SyncedAfter(cfg, rank, s, g, s1, g1);
    VictimsStep(cfg, rank, s1, g1, op.evictedKeys, owner);
    Then(cfg, rank, s, g, s1, g1, SettleWrite(cfg, s, op, owner), SettleWrite(ShareOf(cfg), g, op, owner));
  }

  // ----- memory eviction

  lemma {:induction false} EvictionDelta(m: Stats, n: Stats, read: bool)
    ensures SameDelta(m, CountOwner(CountEviction(m, read), true), n, CountEviction(n, read))
  {
  }

  lemma {:induction false} PopOwn(cfg: Config, g: Store, i: nat)
    requires cfg.partition.PerRank? && g.memoryLru != [] && g.memoryLru[0] in g.objects
    ensures var c, key := ShareOf(cfg), g.memoryLru[0];
            ReleaseMemory(c, PopOldest(c, g, i), key, i)
            == g.(memoryLru := g.memoryLru[1..], memoryUsed := g.memoryUsed - 1,
                  stats := CountEviction(g.stats, g.objects[key].readCount > 0))
  {
  }

  lemma {:induction false} PopShared(cfg: Config, s: Store, i: nat)
    requires cfg.partition.PerRank? && RankLru(s, i) != [] && RankLru(s, i)[0] in s.objects
    requires RankIndex(s, RankLru(s, i)[0]) == i
    ensures var key := RankLru(s, i)[0];
            ReleaseMemory(cfg, PopOldest(cfg, s, i), key, i)
            == s.(memoryLru := Without(s.memoryLru, key), memoryUsed := s.memoryUsed - 1,
                  ranks := s.ranks.(used := s.ranks.used[i := RankUsed(s, i) - 1],
                                    lru := s.ranks.lru[i := RankLru(s, i)[1..]]),
                  stats := CountOwner(CountEviction(s.stats, s.objects[key].readCount > 0), true))
  {
  }

  lemma {:induction false} RestOfOrder(s: Store, own: seq<PoolKey>, rank: RankId)
    requires own != [] && Distinct(own)
    requires forall k :: k in own ==> RankOf(k) == rank
    requires forall k :: RankOf(k) == rank ==> (k in s.memoryLru <==> k in own)
    ensures forall k :: k in own[1..] ==> RankOf(k) == rank
    ensures forall k :: k in Without(s.memoryLru, own[0])
                        <==> if RankOf(k) == rank then k in own[1..] else k in s.memoryLru
  {
    assert own == [own[0]] + own[1..];
    assert own[0] !in own[1..];
    assert own[0] in own;
  }

  lemma {:induction false} OwnerFacts(cfg: Config, rank: RankId, s: Store, g: Store, key: PoolKey)
    requires Synced(cfg, s, rank, g) && key in g.objects
    ensures key in s.objects && s.objects[key] == g.objects[key] && RankOf(key) == rank
    ensures key in s.ranks.keyRank && RankIndex(s, key) == s.ranks.index[rank] == Route(cfg, s, key)
  {
  }

  /** Taking the rank's oldest block off both stores; the victim always belongs to the admitter's rank. */
  lemma {:induction false} PopReleaseStep(cfg: Config, rank: RankId, s: Store, g: Store)
    requires cfg.partition.PerRank? && Synced(cfg, s, rank, g) && Distinct(g.memoryLru) && g.memoryLru != []
    requires g.memoryLru[0] in g.objects
    ensures var i, key := s.ranks.index[rank], g.memoryLru[0];
            && LruOf(cfg, s, i) == g.memoryLru && key in s.objects && s.objects[key] == g.objects[key]
            && RankOf(key) == rank && key in s.ranks.keyRank
            && Advanced(cfg, rank, s, g, ReleaseMemory(cfg, PopOldest(cfg, s, i), key, i),
                        ReleaseMemory(ShareOf(cfg), PopOldest(ShareOf(cfg), g, i), key, i))
  {
    hide Advanced, Segregated, Match, SameDelta, CountEviction, CountOwner, RankUsed, RankLru, Distinct;
    var i, key := s.ranks.index[rank], g.memoryLru[0];
    var own, order := g.memoryLru[1..], Without(s.memoryLru, key);
    OwnerFacts(cfg, rank, s, g, key);
    OrderFacts(cfg, rank, s, g);
    RestOfOrder(s, g.memoryLru, rank);
    PopOwn(cfg, g, i);
    PopShared(cfg, s, i);
    hide Synced, ReleaseMemory, PopOldest;
    var s1 := s.(memoryLru := order, memoryUsed := s.memoryUsed - 1,
                 ranks := s.ranks.(used := s.ranks.used[i := g.memoryUsed - 1], lru := s.ranks.lru[i := own]));
    var g1 := g.(memoryLru := own, memoryUsed := g.memoryUsed - 1);
    var read := g.objects[key].readCount > 0;
    OrderStep(cfg, rank, s, g, order, own, g.memoryUsed - 1, s.memoryUsed - 1);
    SyncedAfter(cfg, rank, s, g, s1, g1);
    EvictionDelta(s.stats, g.stats, read);
    var m, n := CountOwner(CountEviction(s.stats, read), true), CountEviction(g.stats, read);
    StatsStep(cfg, rank, s1, g1, m, n);
    Then(cfg, rank, s, g, s1, g1, s1.(stats := m), g1.(stats := n));
  }

  lemma {:induction false} PlaceStep(cfg: Config, rank: RankId, s: Store, g: Store, key: PoolKey)
    requires Synced(cfg, s, rank, g) && key in g.objects
    ensures key in s.objects && Advanced(cfg, rank, s, g, SetPlace(s, key, Offload), SetPlace(g, key, Offload))
  {
    hide Advanced, Segregated, Match, SameDelta;
    OwnerFacts(cfg, rank, s, g, key);
    hide Synced;
    ZeroDelta(s.stats, g.stats);
    ObjectsStep(cfg, rank, s, g, key, g.objects[key].(place := Offload), s.stats, g.stats);
  }

  lemma {:induction false} DropStep(cfg: Config, rank: RankId, s: Store, g: Store, key: PoolKey, why: Departure)
    requires cfg.partition.PerRank? && Synced(cfg, s, rank, g) && key in g.objects
    ensures key in s.objects && RankOf(key) == rank
    ensures Advanced(cfg, rank, s, g, Forget(cfg, CountDropped(s), key, why),
                     Forget(ShareOf(cfg), CountDropped(g), key, why))
    ensures Advanced(cfg, rank, s, g, SetPlace(CountDropped(s), key, Offload), SetPlace(CountDropped(g), key, Offload))
  {
    OwnerFacts(cfg, rank, s, g, key);
    var s1, g1 := CountDropped(s), CountDropped(g);
    assert key in s1.objects && key in g1.objects;
    CountersStep(cfg, rank, s, g, g.objects[key], 0);
    SyncedAfter(cfg, rank, s, g, s1, g1);
    hide Advanced, Synced, CountDropped, Forget, SetPlace;
    ForgetStep(cfg, rank, s1, g1, key, why);
    PlaceStep(cfg, rank, s1, g1, key);
    Then(cfg, rank, s, g, s1, g1, Forget(cfg, s1, key, why), Forget(ShareOf(cfg), g1, key, why));
    Then(cfg, rank, s, g, s1, g1, SetPlace(s1, key, Offload), SetPlace(g1, key, Offload));
  }

  lemma {:induction false} WriteAndSettleStep(cfg: Config, rank: RankId, s: Store, g: Store, key: PoolKey)
    requires cfg.partition.PerRank? && Synced(cfg, s, rank, g) && RankOf(key) == rank && key in s.ranks.keyRank
    ensures var (s1, op) := WriteTier(cfg, s, key);
            var (g1, op') := WriteTier(ShareOf(cfg), g, key);
            && op == op'
            && Advanced(cfg, rank, s, g, s1, g1)
            && Advanced(cfg, rank, s, g, SettleWrite(cfg, s1, op, key), SettleWrite(ShareOf(cfg), g1, op, key))
  {
    hide Advanced, Synced, WriteTier, SettleWrite;
    WriteTierStep(cfg, rank, s, g, key);
    var (s1, op) := WriteTier(cfg, s, key);
    var g1 := WriteTier(ShareOf(cfg), g, key).0;
    SyncedAfter(cfg, rank, s, g, s1, g1);
    SettleStep(cfg, rank, s1, g1, op, key);
    Then(cfg, rank, s, g, s1, g1, SettleWrite(cfg, s1, op, key), SettleWrite(ShareOf(cfg), g1, op, key));
  }

  lemma {:induction false} DemoteStep(cfg: Config, rank: RankId, s: Store, g: Store, key: PoolKey)
    requires cfg.partition.PerRank? && Synced(cfg, s, rank, g) && key in g.objects && key in s.objects
    ensures RankOf(key) == rank && key in s.ranks.keyRank
    ensures Advanced(cfg, rank, s, g, SetPlace(CountDemoted(cfg, s, s.objects[key]), key, Offload),
                     SetPlace(CountDemoted(ShareOf(cfg), g, g.objects[key]), key, Offload))
  {
    OwnerFacts(cfg, rank, s, g, key);
    var s1, g1 := CountDemoted(cfg, s, s.objects[key]), CountDemoted(ShareOf(cfg), g, g.objects[key]);
    assert key in s1.objects && key in g1.objects;
    CountersStep(cfg, rank, s, g, g.objects[key], 0);
    SyncedAfter(cfg, rank, s, g, s1, g1);
    hide Advanced, Synced, CountDemoted, SetPlace;
    PlaceStep(cfg, rank, s1, g1, key);
    Then(cfg, rank, s, g, s1, g1, SetPlace(s1, key, Offload), SetPlace(g1, key, Offload));
  }

  lemma {:induction false} ContainsAgrees(cfg: Config, rank: RankId, s: Store, g: Store, key: PoolKey)
    requires cfg.partition.PerRank? && Synced(cfg, s, rank, g) && key in g.objects
    ensures Contains(cfg, s, key) == Contains(ShareOf(cfg), g, key)
    ensures TierAt(g, 0) == TierAt(s, s.ranks.index[rank])
  {
    OwnerFacts(cfg, rank, s, g, key);
  }

  lemma {:induction false} DropKeepsContains(cfg: Config, rank: RankId, s: Store, g: Store, key: PoolKey)
    requires cfg.partition.PerRank? && Synced(cfg, s, rank, g) && key in g.objects
    ensures Contains(cfg, CountDropped(s), key) == Contains(ShareOf(cfg), CountDropped(g), key)
  {
    CountersStep(cfg, rank, s, g, g.objects[key], 0);
    SyncedAfter(cfg, rank, s, g, CountDropped(s), CountDropped(g));
    ContainsAgrees(cfg, rank, CountDropped(s), CountDropped(g), key);
  }

  lemma {:induction false} DemoteAndWriteStep(cfg: Config, rank: RankId, s: Store, g: Store, key: PoolKey)
    requires cfg.partition.PerRank? && Synced(cfg, s, rank, g) && key in g.objects && key in s.objects
    requires cfg.enableOffload && !DropsOnEviction(cfg, g.objects[key]) && s.objects[key] == g.objects[key]
    ensures Advanced(cfg, rank, s, g, Displace(cfg, s, key), Displace(ShareOf(cfg), g, key))
  {
    assert key in CountDemoted(cfg, s, s.objects[key]).objects;
    assert key in CountDemoted(ShareOf(cfg), g, g.objects[key]).objects;
    hide Advanced, Synced, CountDemoted, SetPlace, WriteTier, SettleWrite;
    DemoteStep(cfg, rank, s, g, key);
    var s1 := SetPlace(CountDemoted(cfg, s, s.objects[key]), key, Offload);
    var g1 := SetPlace(CountDemoted(ShareOf(cfg), g, g.objects[key]), key, Offload);
    SyncedAfter(cfg, rank, s, g, s1, g1);
    WriteAndSettleStep(cfg, rank, s1, g1, key);
    Then(cfg, rank, s, g, s1, g1, Displace(cfg, s, key), Displace(ShareOf(cfg), g, key));
  }

  lemma {:induction false} DropInsteadStep(cfg: Config, rank: RankId, s: Store, g: Store, key: PoolKey)
    requires cfg.partition.PerRank? && Synced(cfg, s, rank, g) && key in g.objects && key in s.objects
    requires !cfg.enableOffload || DropsOnEviction(cfg, g.objects[key])
    requires s.objects[key] == g.objects[key]
    ensures Advanced(cfg, rank, s, g, Displace(cfg, s, key), Displace(ShareOf(cfg), g, key))
  {
    DropKeepsContains(cfg, rank, s, g, key);
    hide Advanced, Synced, SetPlace, Contains, Forget;
    DropStep(cfg, rank, s, g, key, if cfg.enableOffload then IfReadDrop else OtherDeparture);
  }

  lemma {:induction false} DisplaceStep(cfg: Config, rank: RankId, s: Store, g: Store, key: PoolKey)
    requires cfg.partition.PerRank? && Synced(cfg, s, rank, g) && key in g.objects
    ensures key in s.objects && Advanced(cfg, rank, s, g, Displace(cfg, s, key), Displace(ShareOf(cfg), g, key))
  {
    OwnerFacts(cfg, rank, s, g, key);
    hide Advanced, Synced, Displace;
    if cfg.enableOffload && !DropsOnEviction(cfg, g.objects[key]) {
      DemoteAndWriteStep(cfg, rank, s, g, key);
    } else {
      DropInsteadStep(cfg, rank, s, g, key);
    }
  }

  lemma {:induction false} EvictIsDisplace(cfg: Config, s: Store, i: nat)
    requires LruOf(cfg, s, i) != []
    requires var key := LruOf(cfg, s, i)[0]; key in s.objects && s.objects[key].place.Memory?
    ensures var key := LruOf(cfg, s, i)[0];
            && key in PopOldest(cfg, s, i).objects
            && EvictOldest(cfg, s, i) == Displace(cfg, ReleaseMemory(cfg, PopOldest(cfg, s, i), key, i), key)
            && key in ReleaseMemory(cfg, PopOldest(cfg, s, i), key, i).objects
  {
  }

  lemma {:induction false} EvictStep(cfg: Config, rank: RankId, s: Store, g: Store)
    requires cfg.partition.PerRank? && Synced(cfg, s, rank, g) && Consistent(ShareOf(cfg), g) && g.memoryLru != []
    ensures var i := s.ranks.index[rank];
            && LruOf(cfg, s, i) == g.memoryLru
            && Advanced(cfg, rank, s, g, EvictOldest(cfg, s, i), EvictOldest(ShareOf(cfg), g, i))
  {
    var i, key, c := s.ranks.index[rank], g.memoryLru[0], ShareOf(cfg);
    assert Distinct(g.memoryLru) && key in g.objects && g.objects[key].place.Memory? by {
      assert key in g.memoryLru;
    }
    PopReleaseStep(cfg, rank, s, g);
    hide Advanced, Synced, ReleaseMemory, PopOldest, EvictOldest, Displace, Consistent, Distinct;
    EvictIsDisplace(cfg, s, i);
    EvictIsDisplace(c, g, i);
    var s1, g1 := ReleaseMemory(cfg, PopOldest(cfg, s, i), key, i), ReleaseMemory(c, PopOldest(c, g, i), key, i);
    SyncedAfter(cfg, rank, s, g, s1, g1);
    DisplaceStep(cfg, rank, s1, g1, key);
    Then(cfg, rank, s, g, s1, g1, Displace(cfg, s1, key), Displace(c, g1, key));
  }

  lemma {:induction false} UsedFacts(cfg: Config, rank: RankId, s: Store, g: Store)
    requires Synced(cfg, s, rank, g)
    ensures UsedOf(cfg, s, s.ranks.index[rank]) == g.memoryUsed && LruOf(cfg, s, s.ranks.index[rank]) == g.memoryLru
  {
  }

  lemma {:induction false} EnsureRoomStep(cfg: Config, rank: RankId, s: Store, g: Store)
    requires cfg.partition.PerRank? && Synced(cfg, s, rank, g) && Coherent(ShareOf(cfg), g)
    ensures var i := s.ranks.index[rank];
            && EnsureRoom(cfg, s, i).0 == EnsureRoom(ShareOf(cfg), g, i).0
            && Advanced(cfg, rank, s, g, EnsureRoom(cfg, s, i).1, EnsureRoom(ShareOf(cfg), g, i).1)
  {
    var i, c := s.ranks.index[rank], ShareOf(cfg);
    EnsureRoomOnce(c, g, i);
    UsedFacts(cfg, rank, s, g);
    assert g.memoryUsed == |g.memoryLru| && Consistent(c, g);
    ZeroDelta(s.stats, g.stats);
    StatsStep(cfg, rank, s, g, s.stats, g.stats);
    if 1 <= MemoryCapacity(c) <= |g.memoryLru| && c.lruEviction {
      EvictOldestConsistent(c, g, i);
      EvictStep(cfg, rank, s, g);
      SyncedAfter(cfg, rank, s, g, EvictOldest(cfg, s, i), EvictOldest(c, g, i));
      UsedFacts(cfg, rank, EvictOldest(cfg, s, i), EvictOldest(c, g, i));
      assert EvictOldest(c, g, i).memoryUsed == |EvictOldest(c, g, i).memoryLru|;
      hide Advanced, Synced, EvictOldest, Coherent, Consistent, MemoryCoherent;
      assert EnsureRoom(cfg, EvictOldest(cfg, s, i), i) == (true, EvictOldest(cfg, s, i));
    }
  }

  // ----- admission

  lemma {:induction false} AdmitStep(cfg: Config, rank: RankId, s: Store, g: Store, key: PoolKey)
    requires cfg.partition.PerRank? && Synced(cfg, s, rank, g) && RankOf(key) == rank && key in s.ranks.keyRank
    ensures Advanced(cfg, rank, s, g, AdmitToMemory(cfg, s, key), AdmitToMemory(ShareOf(cfg), g, key))
  {
    hide Advanced, Synced, EnterMemory, CountSource, CountAdmission, WriteTier, SettleWrite;
    var c := ShareOf(cfg);
    EnterStep(cfg, rank, s, g, key);
    var s1, g1 := EnterMemory(cfg, s, key), EnterMemory(c, g, key);
    SyncedAfter(cfg, rank, s, g, s1, g1);
    CountSourceStep(cfg, rank, s1, g1, key);
    var s2, g2 := CountSource(cfg, s1, key), CountSource(c, g1, key);
    Then(cfg, rank, s, g, s1, g1, s2, g2);
    SyncedAfter(cfg, rank, s, g, s2, g2);
    CountersStep(cfg, rank, s2, g2, Object(Memory, 0, 0), 0);
    var s3, g3 := CountAdmission(s2), CountAdmission(g2);
    Then(cfg, rank, s, g, s2, g2, s3, g3);
    SyncedAfter(cfg, rank, s, g, s3, g3);
    if cfg.enableOffload && cfg.write.WriteThrough? {
      WriteAndSettleStep(cfg, rank, s3, g3, key);
      var (s4, op) := WriteTier(cfg, s3, key);
      var g4 := WriteTier(c, g3, key).0;
      Then(cfg, rank, s, g, s3, g3, s4, g4);
      Then(cfg, rank, s, g, s3, g3, SettleWrite(cfg, s4, op, key), SettleWrite(c, g4, op, key));
    }
  }

  lemma {:induction false} PlaceNewStep(cfg: Config, rank: RankId, s: Store, g: Store, key: PoolKey)
    requires cfg.partition.PerRank? && Synced(cfg, s, rank, g) && RankOf(key) == rank && key in s.ranks.keyRank
    ensures var o := Object(Offload, 0, 0);
            var f := (t: Store) => CountBypass(t.(objects := t.objects[key := o],
                                                  seen := if cfg.countSource then t.seen + {key} else t.seen));
            Advanced(cfg, rank, s, g, f(s), f(g))
  {
    hide Advanced, Synced, SameDelta, CountBypass;
    var o := Object(Offload, 0, 0);
    var s1, g1 := s.(objects := s.objects[key := o]), g.(objects := g.objects[key := o]);
    ZeroDelta(s.stats, g.stats);
    ObjectsStep(cfg, rank, s, g, key, o, s.stats, g.stats);
    SyncedAfter(cfg, rank, s, g, s1, g1);
    SeenStep(cfg, rank, s1, g1, key, s1.stats, g1.stats);
    StatsStep(cfg, rank, s1, g1, s1.stats, g1.stats);
    var s2 := if cfg.countSource then s1.(seen := s1.seen + {key}) else s1;
    var g2 := if cfg.countSource then g1.(seen := g1.seen + {key}) else g1;
    Then(cfg, rank, s, g, s1, g1, s2, g2);
    SyncedAfter(cfg, rank, s, g, s2, g2);
    CountersStep(cfg, rank, s2, g2, o, 0);
    Then(cfg, rank, s, g, s2, g2, CountBypass(s2), CountBypass(g2));
  }

  lemma {:induction false} BypassStep(cfg: Config, rank: RankId, s: Store, g: Store, key: PoolKey)
    requires cfg.partition.PerRank? && Synced(cfg, s, rank, g) && RankOf(key) == rank && key in s.ranks.keyRank
    ensures Advanced(cfg, rank, s, g, BypassMemory(cfg, s, key), BypassMemory(ShareOf(cfg), g, key))
  {
    hide Advanced, Synced, WriteTier, SettleWrite, CountRejections, CountBypass;
    var c, o := ShareOf(cfg), Object(Memory, 0, 0);
    if !cfg.enableOffload {
      CountersStep(cfg, rank, s, g, o, 1);
    } else {
      WriteAndSettleStep(cfg, rank, s, g, key);
      var (s1, op) := WriteTier(cfg, s, key);
      var g1 := WriteTier(c, g, key).0;
      SyncedAfter(cfg, rank, s, g, s1, g1);
      if key in op.evictedKeys {
        CountersStep(cfg, rank, s1, g1, o, 1);
        Then(cfg, rank, s, g, s1, g1, CountRejections(s1, 1), CountRejections(g1, 1));
      } else {
        var s2, g2 := SettleWrite(cfg, s1, op, key), SettleWrite(c, g1, op, key);
        SyncedAfter(cfg, rank, s, g, s2, g2);
        PlaceNewStep(cfg, rank, s2, g2, key);
        Then(cfg, rank, s, g, s2, g2, BypassMemory(cfg, s, key), BypassMemory(c, g, key));
      }
    }
  }

  /** Every other rank's store still matches. */
  ghost predicate OthersKeep(s: Store, s': Store, rank: RankId) {
    forall q, h {:trigger Match(s', q, h)} :: q != rank && Match(s, q, h) ==> Match(s', q, h)
  }

  lemma {:induction false} OthersMatch(cfg: Config, rank: RankId, s: Store, s': Store, q: RankId, h: Store)
    requires IndexOk(cfg, s.ranks.index) && rank in s.ranks.index && OnlyRank(s, s', rank, s.ranks.index[rank])
    requires q != rank && Match(s, q, h)
    ensures Match(s', q, h)
  {
    var i, j := s.ranks.index[rank], IndexOf(s.ranks.index, q);
    assert i != j;
    assert LruIn(s'.ranks.lru, j) == LruIn(s.ranks.lru, j) && UsedIn(s'.ranks.used, j) == UsedIn(s.ranks.used, j)
           && TierIn(s'.tiers, j) == TierIn(s.tiers, j);
  }

  lemma {:induction false} AdvancedOthers(cfg: Config, rank: RankId, s: Store, g: Store, s': Store, g': Store)
    requires Segregated(cfg, s) && Advanced(cfg, rank, s, g, s', g')
    ensures OthersKeep(s, s', rank)
  {
    forall q, h | q != rank && Match(s, q, h) ensures Match(s', q, h) {
      OthersMatch(cfg, rank, s, s', q, h);
    }
  }

  /** One call's outcome: the rank's own store made the same move, and no other rank noticed. */
  ghost predicate Moved(cfg: Config, rank: RankId, s: Store, g: Store, s': Store, g': Store) {
    && Segregated(cfg, s') && Match(s', rank, g')
    && SameDelta(s.stats, s'.stats, g.stats, g'.stats)
    && OthersKeep(s, s', rank)
    && s.ranks.index.Keys <= s'.ranks.index.Keys <= s.ranks.index.Keys + {rank}
  }

  lemma {:induction false} MovedThen(cfg: Config, rank: RankId, s: Store, g: Store, s1: Store, g1: Store, s2: Store,
                                     g2: Store)
    requires Moved(cfg, rank, s, g, s1, g1) && Moved(cfg, rank, s1, g1, s2, g2)
    ensures Moved(cfg, rank, s, g, s2, g2)
  {
    hide Segregated, Match;
    DeltaTransitive(s.stats, s1.stats, s2.stats, g.stats, g1.stats, g2.stats);
    hide SameDelta;
  }

  lemma {:induction false} AdvancedMoved(cfg: Config, rank: RankId, s: Store, g: Store, s': Store, g': Store)
    requires Segregated(cfg, s) && Advanced(cfg, rank, s, g, s', g')
    ensures Moved(cfg, rank, s, g, s', g')
  {
    AdvancedOthers(cfg, rank, s, g, s', g');
    hide Segregated, Match, SameDelta, OthersKeep;
  }

  // ----- puts

  lemma {:induction false} MemberBound(cfg: Config, s: Store, i: nat, key: PoolKey)
    requires Segregated(cfg, s) && key in LruIn(s.ranks.lru, i)
    ensures i < |s.ranks.index|
  {
    assert Owns(s.ranks.index, i, key);
  }

  lemma {:induction false} EmptyBeyond(cfg: Config, s: Store, i: nat)
    requires Segregated(cfg, s) && i >= |s.ranks.index|
    ensures LruIn(s.ranks.lru, i) == [] && UsedIn(s.ranks.used, i) == 0 && TierIn(s.tiers, i) == EMPTY_TIER
  {
    var own := LruIn(s.ranks.lru, i);
    if own != [] {
      MemberBound(cfg, s, i, own[0]);
    }
  }

  /** The rank bookkeeping after a new rank got its index, or an old one is met again. */
  function Enroll(s: Store, key: PoolKey): Ranks {
    var n := |s.ranks.index|;
    var r := if RankOf(key) in s.ranks.index then s.ranks
             else s.ranks.(index := s.ranks.index[RankOf(key) := n], used := s.ranks.used[n := 0]);
    r.(keyRank := r.keyRank[key := r.index[RankOf(key)]])
  }

  lemma {:induction false} EnrollKnown(cfg: Config, s: Store, key: PoolKey)
    requires cfg.partition.PerRank? && Segregated(cfg, s) && RankOf(key) in s.ranks.index
    ensures Segregated(cfg, s.(ranks := Enroll(s, key)))
  {
    hide IndexOk, HistoryOk, OrdersOk, TiersOk, UsedOk;
  }

  lemma {:induction false} OwnsMore(index: map<RankId, nat>, rank: RankId, n: nat)
    requires rank !in index
    ensures forall i: nat, k :: Owns(index, i, k) ==> Owns(index[rank := n], i, k)
  {
  }

  lemma {:induction false} IndexGrows(cfg: Config, s: Store, rank: RankId)
    requires IndexOk(cfg, s.ranks.index) && rank !in s.ranks.index && |s.ranks.index| < cfg.ranks
    ensures IndexOk(cfg, s.ranks.index[rank := |s.ranks.index|])
  {
  }

  lemma {:induction false} OrdersGrow(index: map<RankId, nat>, rank: RankId, n: nat, order: seq<PoolKey>,
                                      lru: map<nat, seq<PoolKey>>)
    requires OrdersOk(index, order, lru) && rank !in index && LruIn(lru, n) == []
    ensures OrdersOk(index[rank := n], order, lru)
  {
    OwnsMore(index, rank, n);
  }

  lemma {:induction false} OthersGrow(s: Store, rank: RankId, n: nat, key: PoolKey)
    requires rank !in s.ranks.index && n == |s.ranks.index| && RankOf(key) == rank
    requires OwnersOk(s.ranks.index, s.ranks.keyRank, s.objects) && HistoryOk(s.ranks.index, s.seen, s.departed)
    requires TiersOk(s.ranks.index, s.tiers) && UsedOk(s.ranks.index, s.ranks.used)
    ensures var index := s.ranks.index[rank := n];
            && OwnersOk(index, s.ranks.keyRank[key := n], s.objects) && HistoryOk(index, s.seen, s.departed)
            && TiersOk(index, s.tiers) && UsedOk(index, s.ranks.used[n := 0])
  {
    OwnsMore(s.ranks.index, rank, n);
    var used := s.ranks.used[n := 0];
    assert forall i: nat {:trigger UsedIn(used, i)} :: i >= n ==> UsedIn(used, i) == UsedIn(s.ranks.used, i);
  }

  lemma {:induction false} EnrollNew(cfg: Config, s: Store, key: PoolKey)
    requires cfg.partition.PerRank? && Segregated(cfg, s) && RankOf(key) !in s.ranks.index
    requires |s.ranks.index| < cfg.ranks
    ensures Segregated(cfg, s.(ranks := Enroll(s, key)))
  {
    hide IndexOk, OwnersOk, HistoryOk, OrdersOk, TiersOk, UsedOk;
    var n, rank := |s.ranks.index|, RankOf(key);
    EmptyBeyond(cfg, s, n);
    IndexGrows(cfg, s, rank);
    OrdersGrow(s.ranks.index, rank, n, s.memoryLru, s.ranks.lru);
    OthersGrow(s, rank, n, key);
  }

  lemma {:induction false} IndexShift(index: map<RankId, nat>, rank: RankId, q: RankId)
    requires rank !in index
    ensures var i, j := IndexOf(index, q), IndexOf(index[rank := |index|], q);
            i == j || (i == |index| && j == |index| + 1)
  {
  }

  lemma {:induction false} EnrollTables(cfg: Config, s: Store, key: PoolKey, q: RankId)
    requires cfg.partition.PerRank? && Segregated(cfg, s)
    ensures var i, j := IndexOf(s.ranks.index, q), IndexOf(Enroll(s, key).index, q);
            && LruIn(s.ranks.lru, j) == LruIn(s.ranks.lru, i)
            && UsedIn(Enroll(s, key).used, j) == UsedIn(s.ranks.used, i)
            && TierIn(s.tiers, j) == TierIn(s.tiers, i)
  {
    hide Segregated, LruIn, TierIn, IndexOf;
    if RankOf(key) !in s.ranks.index {
      EmptyBeyond(cfg, s, |s.ranks.index|);
      EmptyBeyond(cfg, s, |s.ranks.index| + 1);
      IndexShift(s.ranks.index, RankOf(key), q);
    }
  }

  lemma {:induction false} EnrollMatch(cfg: Config, s: Store, key: PoolKey, q: RankId, h: Store)
    requires cfg.partition.PerRank? && Segregated(cfg, s) && Match(s, q, h)
    ensures Match(s.(ranks := Enroll(s, key)), q, h)
  {
    hide Segregated, MatchObjects, MatchSeen, MatchDeparted;
    EnrollTables(cfg, s, key, q);
    assert Enroll(s, key).lru == s.ranks.lru;
    hide Enroll, LruIn, UsedIn, TierIn;
  }

  lemma {:induction false} AssignRankStep(cfg: Config, rank: RankId, s: Store, g: Store, key: PoolKey)
    requires cfg.partition.PerRank? && Segregated(cfg, s) && Match(s, rank, g) && RankOf(key) == rank
    requires !TooManyRanks(cfg, s, key)
    ensures var s' := AssignRank(cfg, s, key);
            && Moved(cfg, rank, s, g, s', g) && Synced(cfg, s', rank, g) && key in s'.ranks.keyRank
            && RankIndex(s', key) == s'.ranks.index[rank]
            && AssignRank(ShareOf(cfg), g, key) == g
  {
    var s' := s.(ranks := Enroll(s, key));
    assert AssignRank(cfg, s, key) == s';
    if rank in s.ranks.index {
      EnrollKnown(cfg, s, key);
    } else {
      EnrollNew(cfg, s, key);
    }
    forall q, h | Match(s, q, h) ensures Match(s', q, h) {
      EnrollMatch(cfg, s, key, q, h);
    }
    ZeroDelta(s.stats, g.stats);
    assert rank in s'.ranks.index && RankIndex(s', key) == s'.ranks.index[rank] && key in s'.ranks.keyRank;
    assert s.ranks.index.Keys <= s'.ranks.index.Keys <= s.ranks.index.Keys + {rank};
    hide Segregated, Match, SameDelta, Enroll;
  }

  lemma {:induction false} PutNewStep(cfg: Config, rank: RankId, s: Store, g: Store, key: PoolKey)
    requires cfg.partition.PerRank? && Synced(cfg, s, rank, g) && Coherent(ShareOf(cfg), g)
    requires RankOf(key) == rank && key in s.ranks.keyRank
    ensures var i, c := s.ranks.index[rank], ShareOf(cfg);
            var (ok, s') := EnsureRoom(cfg, s, i);
            var (ok', g') := EnsureRoom(c, g, i);
            && ok == ok'
            && Advanced(cfg, rank, s, g, if ok then AdmitToMemory(cfg, s', key) else BypassMemory(cfg, s', key),
                                         if ok then AdmitToMemory(c, g', key) else BypassMemory(c, g', key))
  {
    assert rank in s.ranks.index;
    hide Advanced, Synced, Coherent, EnsureRoom, AdmitToMemory, BypassMemory;
    var i, c := s.ranks.index[rank], ShareOf(cfg);
    EnsureRoomStep(cfg, rank, s, g);
    var (ok, s') := EnsureRoom(cfg, s, i);
    var g' := EnsureRoom(c, g, i).1;
    SyncedAfter(cfg, rank, s, g, s', g');
    if ok {
      AdmitStep(cfg, rank, s', g', key);
      Then(cfg, rank, s, g, s', g', AdmitToMemory(cfg, s', key), AdmitToMemory(c, g', key));
    } else {
      BypassStep(cfg, rank, s', g', key);
      Then(cfg, rank, s, g, s', g', BypassMemory(cfg, s', key), BypassMemory(c, g', key));
    }
  }

  lemma {:induction false} SyncedParts(cfg: Config, rank: RankId, s: Store, g: Store)
    requires Synced(cfg, s, rank, g)
    ensures Segregated(cfg, s)
  {
  }

  lemma {:induction false} KnownRank(cfg: Config, rank: RankId, s: Store, g: Store, key: PoolKey)
    requires cfg.partition.PerRank? && Segregated(cfg, s) && Match(s, rank, g) && RankOf(key) == rank
    ensures key in s.objects <==> key in g.objects
    ensures key in g.objects ==> Synced(cfg, s, rank, g)
  {
  }

  /** With one block per object the independent store does not depend on which rank asks for room. */
  lemma {:induction false} RankIrrelevant(c: Config, g: Store, i: nat, j: nat)
    requires c.partition.Global?
    ensures EnsureRoom(c, g, i) == EnsureRoom(c, g, j)
    decreases |g.memoryLru|
  {
    if 1 <= MemoryCapacity(c) < g.memoryUsed + 1 && c.lruEviction && g.memoryLru != [] {
      EvictOldestShrinks(c, g, i);
      RankIrrelevant(c, EvictOldest(c, g, i), i, j);
    }
  }

  lemma {:induction false} PutOneStep(cfg: Config, rank: RankId, s: Store, g: Store, key: PoolKey)
    requires cfg.partition.PerRank? && Segregated(cfg, s) && Match(s, rank, g) && Coherent(ShareOf(cfg), g)
    requires RankOf(key) == rank && !TooManyRanks(cfg, s, key)
    ensures Moved(cfg, rank, s, g, PutOne(cfg, s, key), PutOne(ShareOf(cfg), g, key))
    ensures rank in PutOne(cfg, s, key).ranks.index
  {
    var c := ShareOf(cfg);
    KnownRank(cfg, rank, s, g, key);
    hide Moved, Advanced, Synced, Segregated, Match, Coherent, EnsureRoom, AdmitToMemory, BypassMemory, Touch, AssignRank;
    if key in g.objects {
      TouchStep(cfg, rank, s, g, key);
      AdvancedMoved(cfg, rank, s, g, Touch(cfg, s, key), Touch(c, g, key));
      SyncedIndexed(cfg, rank, s, g);
      MovedKeepsIndex(cfg, rank, s, g, Touch(cfg, s, key), Touch(c, g, key));
    } else {
      AssignRankStep(cfg, rank, s, g, key);
      var s1 := AssignRank(cfg, s, key);
      SyncedParts(cfg, rank, s1, g);
      PutNewStep(cfg, rank, s1, g, key);
      RankIrrelevant(c, g, RankIndex(s1, key), RankIndex(g, key));
      var s2, g2 := PutOne(cfg, s, key), PutOne(c, g, key);
      AdvancedMoved(cfg, rank, s1, g, s2, g2);
      MovedThen(cfg, rank, s, g, s1, g, s2, g2);
      SyncedIndexed(cfg, rank, s1, g);
      MovedKeepsIndex(cfg, rank, s1, g, s2, g2);
    }
  }

  lemma {:induction false} SyncedIndexed(cfg: Config, rank: RankId, s: Store, g: Store)
    requires Synced(cfg, s, rank, g)
    ensures rank in s.ranks.index
  {
  }

  lemma {:induction false} MovedKeepsIndex(cfg: Config, rank: RankId, s: Store, g: Store, s': Store, g': Store)
    requires Moved(cfg, rank, s, g, s', g') && rank in s.ranks.index
    ensures rank in s'.ranks.index
  {
    assert rank in s.ranks.index.Keys;
  }

  predicate OfRank(keys: seq<PoolKey>, rank: RankId) {
    forall i :: 0 <= i < |keys| ==> RankOf(keys[i]) == rank
  }

  lemma {:induction false} SameMoved(cfg: Config, rank: RankId, s: Store, g: Store, m: Stats, n: Stats)
    requires Segregated(cfg, s) && Match(s, rank, g) && SameDelta(s.stats, m, g.stats, n)
    ensures Moved(cfg, rank, s, g, s.(stats := m), g.(stats := n))
  {
    forall q, h | Match(s, q, h) ensures Match(s.(stats := m), q, h) {
      hide MatchObjects, MatchSeen, MatchDeparted, SameDelta;
    }
    hide IndexOk, OwnersOk, HistoryOk, OrdersOk, TiersOk, UsedOk, MatchObjects, MatchSeen, MatchDeparted, SameDelta;
  }

  lemma {:induction false} MovedRanks(cfg: Config, rank: RankId, s: Store, g: Store, s': Store, g': Store)
    requires Moved(cfg, rank, s, g, s', g')
    requires cfg.partition.PerRank? && (rank in s.ranks.index || |s.ranks.index| < cfg.ranks)
    ensures Segregated(cfg, s') && Match(s', rank, g')
    ensures rank in s'.ranks.index || |s'.ranks.index| < cfg.ranks
    ensures forall key :: RankOf(key) == rank ==> !TooManyRanks(cfg, s', key)
    ensures !s'.failed && !g'.failed
  {
    hide OthersKeep, SameDelta, MatchObjects, MatchSeen, MatchDeparted;
    if rank in s.ranks.index {
      assert rank in s.ranks.index.Keys;
    } else if rank !in s'.ranks.index {
      assert s'.ranks.index.Keys == s.ranks.index.Keys;
      assert |s'.ranks.index.Keys| == |s'.ranks.index| && |s.ranks.index.Keys| == |s.ranks.index|;
    }
  }

  lemma {:induction false} MovedSegregated(cfg: Config, rank: RankId, s: Store, g: Store, s': Store, g': Store)
    requires Moved(cfg, rank, s, g, s', g')
    ensures Segregated(cfg, s') && Match(s', rank, g')
  {
  }

  lemma {:induction false} PutKeysStep(cfg: Config, rank: RankId, s: Store, g: Store, keys: seq<PoolKey>)
    requires cfg.partition.PerRank? && Segregated(cfg, s) && Match(s, rank, g) && Coherent(ShareOf(cfg), g)
    requires OfRank(keys, rank) && (rank in s.ranks.index || |s.ranks.index| < cfg.ranks)
    ensures Moved(cfg, rank, s, g, PutKeys(cfg, s, keys), PutKeys(ShareOf(cfg), g, keys))
    ensures keys != [] ==> rank in PutKeys(cfg, s, keys).ranks.index
  {
    hide Moved, Segregated, Match, Coherent, PutOne, SameDelta;
    if keys == [] {
      ZeroDelta(s.stats, g.stats);
      SameMoved(cfg, rank, s, g, s.stats, g.stats);
    } else {
      var front, key, c := keys[..|keys| - 1], keys[|keys| - 1], ShareOf(cfg);
      PutKeysStep(cfg, rank, s, g, front);
      var s1, g1 := PutKeys(cfg, s, front), PutKeys(c, g, front);
      MovedRanks(cfg, rank, s, g, s1, g1);
      PutKeysCoherent(c, g, front);
      PutOneStep(cfg, rank, s1, g1, key);
      MovedThen(cfg, rank, s, g, s1, g1, PutOne(cfg, s1, key), PutOne(c, g1, key));
    }
  }

  // ----- gets and lookups

  lemma {:induction false} ReadDelta(m: Stats, n: Stats, blocks: nat)
    ensures SameDelta(m, CountMemoryRead(m), n, CountMemoryRead(n))
    ensures SameDelta(m, CountSsdReads(m, blocks), n, CountSsdReads(n, blocks))
  {
  }

  lemma {:induction false} ServeStep(cfg: Config, rank: RankId, s: Store, g: Store, key: PoolKey)
    requires cfg.partition.PerRank? && Synced(cfg, s, rank, g) && key in g.objects
    ensures key in s.objects
    ensures Advanced(cfg, rank, s, g, CreditServe(cfg, s, key), CreditServe(ShareOf(cfg), g, key))
    ensures Advanced(cfg, rank, s, g, ServeMemory(s, key), ServeMemory(g, key))
  {
    hide Advanced, Synced, SameDelta, CountMemoryRead;
    OwnerFacts(cfg, rank, s, g, key);
    ZeroDelta(s.stats, g.stats);
    ReadDelta(s.stats, g.stats, 0);
    var o := g.objects[key];
    if cfg.creditOnServe {
      ObjectsStep(cfg, rank, s, g, key, o.(readCount := o.readCount + 1), s.stats, g.stats);
    } else {
      StatsStep(cfg, rank, s, g, s.stats, g.stats);
    }
    ObjectsStep(cfg, rank, s, g, key, o.(pcmServedReads := o.pcmServedReads + 1),
                CountMemoryRead(s.stats), CountMemoryRead(g.stats));
  }

  lemma {:induction false} ReadKeepsOwners(cfg: Config, rank: RankId, s: Store, g: Store, key: PoolKey)
    requires Synced(cfg, s, rank, g) && RankOf(key) == rank
    ensures forall k :: k in TierRead(TierIn(g.tiers, 0), key).0.lru ==> RankOf(k) == rank
  {
    IndexBound(cfg, s, rank, g);
  }

  lemma {:induction false} ServeOffloadForm(cfg: Config, s: Store, key: PoolKey, i: nat)
    requires Route(cfg, s, key) == i
    ensures var (t, op) := TierRead(TierAt(s, i), key);
            ServeOffload(cfg, s, key) == s.(tiers := s.tiers[i := t], stats := CountSsdReads(s.stats, op.blocks))
  {
  }

  lemma {:induction false} ServeOffloadStep(cfg: Config, rank: RankId, s: Store, g: Store, key: PoolKey)
    requires cfg.partition.PerRank? && Synced(cfg, s, rank, g) && key in g.objects
    ensures Advanced(cfg, rank, s, g, ServeOffload(cfg, s, key), ServeOffload(ShareOf(cfg), g, key))
  {
    hide Advanced, Segregated, Match, SameDelta, TierRead, CountSsdReads, ServeOffload;
    OwnerFacts(cfg, rank, s, g, key);
    ContainsAgrees(cfg, rank, s, g, key);
    ReadKeepsOwners(cfg, rank, s, g, key);
    ServeOffloadForm(cfg, s, key, s.ranks.index[rank]);
    ServeOffloadForm(ShareOf(cfg), g, key, 0);
    hide Synced;
    var (t, op) := TierRead(TierAt(g, 0), key);
    assert TierAt(g, 0) == TierIn(g.tiers, 0);
    ReadDelta(s.stats, g.stats, op.blocks);
    TierStep(cfg, rank, s, g, t, CountSsdReads(s.stats, op.blocks), CountSsdReads(g.stats, op.blocks));
  }

  lemma {:induction false} GetKnownStep(cfg: Config, rank: RankId, s: Store, g: Store, key: PoolKey)
    requires cfg.partition.PerRank? && Synced(cfg, s, rank, g) && key in g.objects
    ensures Advanced(cfg, rank, s, g, GetOne(cfg, s, key), GetOne(ShareOf(cfg), g, key))
  {
    hide Advanced, Synced, Touch, CreditServe, ServeMemory, ServeOffload;
    var c := ShareOf(cfg);
    OwnerFacts(cfg, rank, s, g, key);
    CreditKeepsKey(cfg, s, key);
    CreditKeepsKey(c, g, key);
    TouchStep(cfg, rank, s, g, key);
    var s0, g0 := Touch(cfg, s, key), Touch(c, g, key);
    SyncedAfter(cfg, rank, s, g, s0, g0);
    ServeStep(cfg, rank, s0, g0, key);
    var s1, g1 := CreditServe(cfg, s0, key), CreditServe(c, g0, key);
    Then(cfg, rank, s, g, s0, g0, s1, g1);
    SyncedAfter(cfg, rank, s, g, s1, g1);
    OwnerFacts(cfg, rank, s1, g1, key);
    if s1.objects[key].place.Offload? && cfg.enableOffload {
      ServeOffloadStep(cfg, rank, s1, g1, key);
      Then(cfg, rank, s, g, s1, g1, ServeOffload(cfg, s1, key), ServeOffload(c, g1, key));
    } else {
      ServeStep(cfg, rank, s1, g1, key);
      Then(cfg, rank, s, g, s1, g1, ServeMemory(s1, key), ServeMemory(g1, key));
    }
  }

  lemma {:induction false} GetOneStep(cfg: Config, rank: RankId, s: Store, g: Store, key: PoolKey)
    requires cfg.partition.PerRank? && Segregated(cfg, s) && Match(s, rank, g) && RankOf(key) == rank
    ensures Moved(cfg, rank, s, g, GetOne(cfg, s, key), GetOne(ShareOf(cfg), g, key))
  {
    hide Moved, Segregated, Match, SameDelta, Advanced, Synced;
    KnownRank(cfg, rank, s, g, key);
    if key !in g.objects {
      ZeroDelta(s.stats, g.stats);
      SameMoved(cfg, rank, s, g, s.stats, g.stats);
    } else {
      hide GetOne;
      GetKnownStep(cfg, rank, s, g, key);
      AdvancedMoved(cfg, rank, s, g, GetOne(cfg, s, key), GetOne(ShareOf(cfg), g, key));
    }
  }

  lemma {:induction false} CreditKeepsKey(cfg: Config, s: Store, key: PoolKey)
    requires key in s.objects
    ensures key in Touch(cfg, s, key).objects && key in CreditServe(cfg, Touch(cfg, s, key), key).objects
  {
  }

  lemma {:induction false} GetKeysStep(cfg: Config, rank: RankId, s: Store, g: Store, keys: seq<PoolKey>)
    requires cfg.partition.PerRank? && Segregated(cfg, s) && Match(s, rank, g) && OfRank(keys, rank)
    ensures Moved(cfg, rank, s, g, GetKeys(cfg, s, keys), GetKeys(ShareOf(cfg), g, keys))
  {
    hide Segregated, Match, GetOne, SameDelta, OthersKeep;
    if keys == [] {
      ZeroDelta(s.stats, g.stats);
      SameMoved(cfg, rank, s, g, s.stats, g.stats);
    } else {
      var front, key, c := keys[..|keys| - 1], keys[|keys| - 1], ShareOf(cfg);
      GetKeysStep(cfg, rank, s, g, front);
      var s1, g1 := GetKeys(cfg, s, front), GetKeys(c, g, front);
      GetOneStep(cfg, rank, s1, g1, key);
      MovedThen(cfg, rank, s, g, s1, g1, GetOne(cfg, s1, key), GetOne(c, g1, key));
    }
  }

  lemma {:induction false} PresentAgrees(cfg: Config, rank: RankId, s: Store, g: Store, key: PoolKey)
    requires cfg.partition.PerRank? && Segregated(cfg, s) && Match(s, rank, g) && RankOf(key) == rank
    ensures Present(cfg, s, key) == Present(ShareOf(cfg), g, key)
  {
    KnownRank(cfg, rank, s, g, key);
    if key in g.objects {
      ContainsAgrees(cfg, rank, s, g, key);
    }
  }

  lemma {:induction false} HitLengthStep(cfg: Config, rank: RankId, s: Store, g: Store, keys: seq<PoolKey>)
    requires cfg.partition.PerRank? && Segregated(cfg, s) && Match(s, rank, g) && OfRank(keys, rank)
    ensures HitLength(cfg, s, keys) == HitLength(ShareOf(cfg), g, keys)
  {
    hide Segregated, Match, Present;
    if keys != [] {
      PresentAgrees(cfg, rank, s, g, keys[0]);
      HitLengthStep(cfg, rank, s, g, keys[1..]);
    }
  }

  lemma {:induction false} CreditOneStep(cfg: Config, rank: RankId, s: Store, g: Store, key: PoolKey)
    requires cfg.partition.PerRank? && Segregated(cfg, s) && Match(s, rank, g) && RankOf(key) == rank && key in g.objects
    ensures key in s.objects
    ensures var f := (t: Store) requires key in t.objects =>
                       t.(objects := t.objects[key := t.objects[key].(readCount := t.objects[key].readCount + 1)]);
            Moved(cfg, rank, s, g, f(s), f(g))
  {
    hide Moved, Segregated, Match, Advanced, Synced, SameDelta;
    KnownRank(cfg, rank, s, g, key);
    OwnerFacts(cfg, rank, s, g, key);
    var o := g.objects[key].(readCount := g.objects[key].readCount + 1);
    ZeroDelta(s.stats, g.stats);
    ObjectsStep(cfg, rank, s, g, key, o, s.stats, g.stats);
    AdvancedMoved(cfg, rank, s, g, s.(objects := s.objects[key := o]), g.(objects := g.objects[key := o]));
  }

  lemma {:induction false} CreditReadsStep(cfg: Config, rank: RankId, s: Store, g: Store, keys: seq<PoolKey>)
    requires cfg.partition.PerRank? && Segregated(cfg, s) && Match(s, rank, g) && OfRank(keys, rank)
    ensures Moved(cfg, rank, s, g, CreditReads(s, keys), CreditReads(g, keys))
  {
    hide Segregated, Match, SameDelta, OthersKeep;
    if keys == [] {
      ZeroDelta(s.stats, g.stats);
      SameMoved(cfg, rank, s, g, s.stats, g.stats);
    } else {
      var front, key := keys[..|keys| - 1], keys[|keys| - 1];
      CreditReadsStep(cfg, rank, s, g, front);
      var s1, g1 := CreditReads(s, front), CreditReads(g, front);
      KnownRank(cfg, rank, s1, g1, key);
      if key in g1.objects {
        CreditOneStep(cfg, rank, s1, g1, key);
        MovedThen(cfg, rank, s, g, s1, g1, CreditReads(s, keys), CreditReads(g, keys));
      }
    }
  }

  lemma {:induction false} AnyOffloadAgrees(s: Store, g: Store, rank: RankId, keys: seq<PoolKey>)
    requires Match(s, rank, g) && OfRank(keys, rank)
    ensures AnyOffload(s, keys) == AnyOffload(g, keys)
  {
    forall i | 0 <= i < |keys|
      ensures (keys[i] in s.objects <==> keys[i] in g.objects)
              && (keys[i] in g.objects ==> s.objects[keys[i]] == g.objects[keys[i]])
    {
      HistoryFacts(s, g, rank, keys[i]);
    }
  }

  lemma {:induction false} LookupStep(cfg: Config, rank: RankId, s: Store, g: Store, keys: seq<PoolKey>)
    requires cfg.partition.PerRank? && Segregated(cfg, s) && Match(s, rank, g) && OfRank(keys, rank)
    ensures Moved(cfg, rank, s, g, Lookup(cfg, s, keys), Lookup(ShareOf(cfg), g, keys))
  {
    hide Segregated, Match, SameDelta, OthersKeep, HitLength, AnyOffload, CreditReads, CountLookup;
    HitLengthStep(cfg, rank, s, g, keys);
    var hits := keys[..HitLength(cfg, s, keys)];
    AnyOffloadAgrees(s, g, rank, hits);
    ZeroDelta(s.stats, g.stats);
    SameMoved(cfg, rank, s, g, s.stats, g.stats);
    CreditReadsStep(cfg, rank, s, g, hits);
    var s1 := if cfg.creditOnServe then s else CreditReads(s, hits);
    var g1 := if cfg.creditOnServe then g else CreditReads(g, hits);
    var disk := AnyOffload(s, hits);
    LookupDelta(s1, g1, hits != [], disk);
    SameMoved(cfg, rank, s1, g1, CountLookup(s1, hits != [], disk).stats, CountLookup(g1, hits != [], disk).stats);
    MovedThen(cfg, rank, s, g, s1, g1, Lookup(cfg, s, keys), Lookup(ShareOf(cfg), g, keys));
  }

  lemma {:induction false} LookupDelta(s: Store, g: Store, hit: bool, disk: bool)
    ensures SameDelta(s.stats, CountLookup(s, hit, disk).stats, g.stats, CountLookup(g, hit, disk).stats)
    ensures CountLookup(s, hit, disk) == s.(stats := CountLookup(s, hit, disk).stats)
    ensures CountLookup(g, hit, disk) == g.(stats := CountLookup(g, hit, disk).stats)
  {
  }

  // ----- runs

  /** A call made by one rank's worker: every key it names carries that rank. */
  datatype RankCall = RankCall(rank: RankId, call: Call)

  ghost predicate WellFormed(calls: seq<RankCall>) {
    forall i :: 0 <= i < |calls| ==> OfRank(calls[i].call.keys, calls[i].rank)
  }

  function Calls(calls: seq<RankCall>): seq<Call> {
    seq(|calls|, i requires 0 <= i < |calls| => calls[i].call)
  }

  /** The calls of one rank, in order. */
  function CallsOf(calls: seq<RankCall>, rank: RankId): seq<Call> {
    if calls == [] then []
    else
      var last := calls[|calls| - 1];
      CallsOf(calls[..|calls| - 1], rank) + (if last.rank == rank then [last.call] else [])
  }

  function RanksIn(calls: seq<RankCall>): set<RankId> {
    set i | 0 <= i < |calls| :: calls[i].rank
  }

  /** A put that reaches the tiers: only such a call ever gives a rank its partition. */
  predicate Admits(cfg: Config, call: Call) {
    cfg.admitAlways && call.PutCall? && call.keys != []
  }

  /** The ranks that make such a put. */
  function RanksPut(cfg: Config, calls: seq<RankCall>): set<RankId> {
    set i | 0 <= i < |calls| && Admits(cfg, calls[i].call) :: calls[i].rank
  }

  lemma {:induction false} StepMoves(cfg: Config, rank: RankId, s: Store, g: Store, call: Call)
    requires cfg.partition.PerRank? && Segregated(cfg, s) && Match(s, rank, g) && Coherent(ShareOf(cfg), g)
    requires OfRank(call.keys, rank) && (Admits(cfg, call) ==> rank in s.ranks.index || |s.ranks.index| < cfg.ranks)
    ensures Moved(cfg, rank, s, g, Step(cfg, s, call), Step(ShareOf(cfg), g, call))
    ensures Admits(cfg, call) ==> rank in Step(cfg, s, call).ranks.index
  {
    var c := ShareOf(cfg);
    assert !s.failed && !g.failed;
    BookkeepingCoherent(c, g, CountPut(g));
    hide Moved, Segregated, Match, Coherent, SameDelta, PutKeys, GetKeys, Lookup, CountPut, CountGet, CountRejections;
    CountMoves(cfg, rank, s, g, |call.keys|);
    match call
    case PutCall(keys) =>
      if cfg.admitAlways && keys != [] {
        MovedRanks(cfg, rank, s, g, CountPut(s), CountPut(g));
        PutKeysStep(cfg, rank, CountPut(s), CountPut(g), keys);
        MovedThen(cfg, rank, s, g, CountPut(s), CountPut(g), Step(cfg, s, call), Step(c, g, call));
      }
    case GetCall(keys) =>
      if keys == [] {
        ZeroDelta(s.stats, g.stats);
        SameMoved(cfg, rank, s, g, s.stats, g.stats);
      } else {
        MovedSegregated(cfg, rank, s, g, CountGet(s), CountGet(g));
        GetKeysStep(cfg, rank, CountGet(s), CountGet(g), keys);
        MovedThen(cfg, rank, s, g, CountGet(s), CountGet(g), Step(cfg, s, call), Step(c, g, call));
      }
    case LookupCall(keys) =>
      LookupStep(cfg, rank, s, g, keys);
  }

  lemma {:induction false} GetKeysIndex(cfg: Config, s: Store, keys: seq<PoolKey>)
    ensures GetKeys(cfg, s, keys).ranks.index == s.ranks.index
  {
    if keys != [] {
      GetKeysIndex(cfg, s, keys[..|keys| - 1]);
    }
  }

  lemma {:induction false} StepIndex(cfg: Config, s: Store, call: Call)
    requires !Admits(cfg, call)
    ensures Step(cfg, s, call).ranks.index == s.ranks.index && Step(cfg, s, call).failed == s.failed
  {
    match call
    case PutCall(keys) =>
    case GetCall(keys) =>
      GetKeysIndex(cfg, CountGet(s), keys);
      GetKeysFrame(cfg, CountGet(s), keys);
    case LookupCall(keys) =>
      CreditReadsFrame(s, keys[..HitLength(cfg, s, keys)]);
  }

  /** The first new key of a rank too many stops the put. */
  lemma {:induction false} PutTooMany(cfg: Config, rank: RankId, s: Store, keys: seq<PoolKey>)
    requires cfg.partition.PerRank? && Segregated(cfg, s) && OfRank(keys, rank) && keys != []
    requires rank !in s.ranks.index && |s.ranks.index| >= cfg.ranks
    ensures PutKeys(cfg, s, keys).failed
  {
    var front, key := keys[..|keys| - 1], keys[|keys| - 1];
    if front == [] {
      assert key in s.objects ==> Owns(s.ranks.index, s.ranks.keyRank[key], key);
      assert PutKeys(cfg, s, front) == s;
    } else {
      PutTooMany(cfg, rank, s, front);
    }
  }

  lemma {:induction false} CountMoves(cfg: Config, rank: RankId, s: Store, g: Store, n: nat)
    requires Segregated(cfg, s) && Match(s, rank, g)
    ensures Moved(cfg, rank, s, g, CountPut(s), CountPut(g))
    ensures Moved(cfg, rank, s, g, CountGet(s), CountGet(g))
    ensures Moved(cfg, rank, s, g, CountRejections(s, n), CountRejections(g, n))
  {
    hide Moved, Segregated, Match;
    SameMoved(cfg, rank, s, g, CountPut(s).stats, CountPut(g).stats);
    SameMoved(cfg, rank, s, g, CountGet(s).stats, CountGet(g).stats);
    SameMoved(cfg, rank, s, g, CountRejections(s, n).stats, CountRejections(g, n).stats);
  }

  // ----- summing counters over ranks

  function PlusCalls(m: CallStats, n: CallStats): CallStats {
    CallStats(m.gets + n.gets, m.puts + n.puts, m.storeHits + n.storeHits, m.storeMisses + n.storeMisses,
              m.memoryHits + n.memoryHits, m.diskHits + n.diskHits, m.ssdReads + n.ssdReads, m.memoryReads + n.memoryReads)
  }

  function PlusWrites(m: WriteStats, n: WriteStats): WriteStats {
    WriteStats(m.ssdWrites + n.ssdWrites, m.ssdEvictions + n.ssdEvictions, m.admissions + n.admissions,
               m.rejections + n.rejections, m.bypasses + n.bypasses, m.memoryWrites + n.memoryWrites)
  }

  function PlusEvictions(m: EvictionStats, n: EvictionStats): EvictionStats {
    EvictionStats(m.total + n.total, m.useful + n.useful, m.wasted + n.wasted, m.dropped + n.dropped,
                  m.demoted + n.demoted, m.gatePasses + n.gatePasses, m.gatePassesServed + n.gatePassesServed)
  }

  function PlusSources(m: SourceStats, n: SourceStats): SourceStats {
    SourceStats(m.first + n.first, m.afterDrop + n.afterDrop, m.afterHbf + n.afterHbf, m.afterOther + n.afterOther)
  }

  /** Counters added up; the rank counters, which only a partitioned store keeps, are left at zero. */
  function Plus(m: Stats, n: Stats): Stats {
    Stats(PlusCalls(m.calls, n.calls), PlusWrites(m.writes, n.writes), PlusEvictions(m.evictions, n.evictions),
          PlusSources(m.sources, n.sources), RankStats(0, 0))
  }

  function SumStats(cfg: Config, calls: seq<RankCall>, ranks: seq<RankId>): Stats
    requires cfg.partition.PerRank?
  {
    if ranks == [] then NO_STATS
    else Plus(Run(ShareOf(cfg), CallsOf(calls, ranks[0])).stats, SumStats(cfg, calls, ranks[1..]))
  }

  lemma {:induction false} PlusSame(a: Stats, b: Stats, b': Stats, m: Stats, m': Stats)
    requires SameDelta(m, m', b, b')
    ensures SameDelta(m, m', Plus(a, b), Plus(a, b'))
  {
  }

  lemma {:induction false} SumOthers(cfg: Config, calls: seq<RankCall>, last: RankCall, ranks: seq<RankId>)
    requires cfg.partition.PerRank? && last.rank !in ranks
    ensures SumStats(cfg, calls + [last], ranks) == SumStats(cfg, calls, ranks)
  {
    if ranks != [] {
      assert (calls + [last])[..|calls|] == calls;
      assert CallsOf(calls + [last], ranks[0]) == CallsOf(calls, ranks[0]) + [];
      assert CallsOf(calls, ranks[0]) + [] == CallsOf(calls, ranks[0]);
      SumOthers(cfg, calls, last, ranks[1..]);
    }
  }

  lemma {:induction false} SumMoves(cfg: Config, calls: seq<RankCall>, last: RankCall, ranks: seq<RankId>, m: Stats,
                                    m': Stats)
    requires cfg.partition.PerRank? && last.rank in ranks && Distinct(ranks)
    requires SameDelta(m, m', Run(ShareOf(cfg), CallsOf(calls, last.rank)).stats,
                              Run(ShareOf(cfg), CallsOf(calls + [last], last.rank)).stats)
    ensures SameDelta(m, m', SumStats(cfg, calls, ranks), SumStats(cfg, calls + [last], ranks))
  {
    hide SameDelta, Plus, Run, CallsOf;
    var rest := ranks[1..];
    var a, a' := Run(ShareOf(cfg), CallsOf(calls, ranks[0])).stats, Run(ShareOf(cfg), CallsOf(calls + [last], ranks[0])).stats;
    assert ranks == [ranks[0]] + rest;
    if ranks[0] == last.rank {
      SumOthers(cfg, calls, last, rest);
      PlusSameLeft(a, a', SumStats(cfg, calls, rest), m, m');
    } else {
      SumMoves(cfg, calls, last, rest, m, m');
      OtherCalls(calls, last, ranks[0]);
      PlusSame(a, SumStats(cfg, calls, rest), SumStats(cfg, calls + [last], rest), m, m');
    }
  }

  lemma {:induction false} OtherCalls(calls: seq<RankCall>, last: RankCall, rank: RankId)
    requires last.rank != rank
    ensures CallsOf(calls + [last], rank) == CallsOf(calls, rank)
  {
    assert (calls + [last])[..|calls|] == calls;
    assert CallsOf(calls, rank) + [] == CallsOf(calls, rank);
  }

  lemma {:induction false} PlusSameLeft(b: Stats, b': Stats, a: Stats, m: Stats, m': Stats)
    requires SameDelta(m, m', b, b')
    ensures SameDelta(m, m', Plus(b, a), Plus(b', a))
  {
  }

  // ----- the theorem

  ghost predicate Decomposed(cfg: Config, calls: seq<RankCall>)
    requires cfg.partition.PerRank?
  {
    var s := Run(cfg, Calls(calls));
    && Segregated(cfg, s)
    && s.ranks.index.Keys == RanksPut(cfg, calls)
    && forall rank :: Match(s, rank, Run(ShareOf(cfg), CallsOf(calls, rank)))
  }

  lemma {:induction false} CallsSplit(cfg: Config, calls: seq<RankCall>)
    requires calls != []
    ensures var front, last := calls[..|calls| - 1], calls[|calls| - 1];
            && Calls(calls) == Calls(front) + [last.call]
            && calls == front + [last]
            && last.rank in RanksIn(calls) && RanksIn(front) <= RanksIn(calls)
            && RanksPut(cfg, calls) == RanksPut(cfg, front) + (if Admits(cfg, last.call) then {last.rank} else {})
            && |RanksPut(cfg, front)| <= |RanksPut(cfg, calls)|
            && (WellFormed(calls) ==> WellFormed(front) && OfRank(last.call.keys, last.rank))
  {
    hide Admits, OfRank;
    var front, last := calls[..|calls| - 1], calls[|calls| - 1];
    assert Calls(calls)[..|calls| - 1] == Calls(front);
    assert calls == front + [last];
    assert forall i :: 0 <= i < |front| ==> front[i] == calls[i];
    forall r | r in RanksIn(front) ensures r in RanksIn(calls) {
      var i :| 0 <= i < |front| && front[i].rank == r;
      assert calls[i].rank == r;
    }
    forall r | r in RanksPut(cfg, front) ensures r in RanksPut(cfg, calls) {
      var i :| 0 <= i < |front| && Admits(cfg, front[i].call) && front[i].rank == r;
      assert Admits(cfg, calls[i].call) && calls[i].rank == r;
    }
    assert Admits(cfg, last.call) ==> calls[|calls| - 1].rank in RanksPut(cfg, calls);
    SubsetSize(RanksPut(cfg, front), RanksPut(cfg, calls));
  }

  lemma {:induction false} RunSnoc(cfg: Config, front: seq<Call>, call: Call)
    ensures Run(cfg, front + [call]) == Step(cfg, Run(cfg, front), call)
  {
    assert (front + [call])[..|front|] == front;
  }

  lemma {:induction false} RankFits(cfg: Config, calls: seq<RankCall>, s: Store)
    requires calls != [] && |RanksPut(cfg, calls)| <= cfg.ranks && Admits(cfg, calls[|calls| - 1].call)
    requires s.ranks.index.Keys == RanksPut(cfg, calls[..|calls| - 1])
    ensures var rank := calls[|calls| - 1].rank; rank in s.ranks.index || |s.ranks.index| < cfg.ranks
  {
    CallsSplit(cfg, calls);
    var rank, used := calls[|calls| - 1].rank, s.ranks.index.Keys;
    if rank !in used {
      assert |used + {rank}| == |used| + 1 && |used| == |s.ranks.index|;
    }
  }

  lemma {:induction false} SubsetSize(a: set<RankId>, b: set<RankId>)
    requires a <= b
    ensures |a| <= |b|
  {
    assert b == a + (b - a);
  }

  /** For every rank the per-rank store holds exactly the objects, memory order, offload contents
      and history of an independent store of the rank's share, run on that rank's calls alone. */
  lemma {:induction false} RunDecomposes(cfg: Config, calls: seq<RankCall>)
    requires cfg.partition.PerRank? && WellFormed(calls) && |RanksPut(cfg, calls)| <= cfg.ranks
    ensures Decomposed(cfg, calls)
  {
    hide WellFormed, RanksPut, Decomposed, OfRank;
    if calls != [] {
      CallsSplit(cfg, calls);
      RunDecomposes(cfg, calls[..|calls| - 1]);
      StepDecomposes(cfg, calls);
    } else {
      EmptyDecomposed(cfg);
    }
  }

  /** A run fails exactly when more ranks make an admitted put than the store was configured for. */
  lemma {:induction false} FailsIffTooManyRanksPut(cfg: Config, calls: seq<RankCall>)
    requires cfg.partition.PerRank? && WellFormed(calls)
    ensures Run(cfg, Calls(calls)).failed <==> |RanksPut(cfg, calls)| > cfg.ranks
  {
    hide WellFormed, RanksPut, OfRank, Segregated, Match, Step;
    if |RanksPut(cfg, calls)| <= cfg.ranks {
      RunDecomposes(cfg, calls);
      NotFailed(cfg, Run(cfg, Calls(calls)));
    } else if calls != [] {
      var front, last := calls[..|calls| - 1], calls[|calls| - 1];
      CallsSplit(cfg, calls);
      FailsIffTooManyRanksPut(cfg, front);
      RunSnoc(cfg, Calls(front), last.call);
      var s := Run(cfg, Calls(front));
      if s.failed {
        FailedStays(cfg, s, last.call);
      } else {
        RunDecomposes(cfg, front);
        OneRankMore(cfg, s, RanksPut(cfg, front), last);
      }
    } else {
      NoRanksPut(cfg);
    }
  }

  lemma {:induction false} NoRanksPut(cfg: Config)
    ensures RanksPut(cfg, []) == {}
  {
  }

  lemma {:induction false} NotFailed(cfg: Config, s: Store)
    requires Segregated(cfg, s)
    ensures !s.failed
  {
  }

  lemma {:induction false} FailedStays(cfg: Config, s: Store, call: Call)
    requires s.failed
    ensures Step(cfg, s, call).failed
  {
  }

  lemma {:induction false} CountPutSegregated(cfg: Config, s: Store)
    requires Segregated(cfg, s)
    ensures Segregated(cfg, CountPut(s)) && CountPut(s).ranks == s.ranks
  {
  }

  lemma {:induction false} OneRankMore(cfg: Config, s: Store, ranks: set<RankId>, last: RankCall)
    requires cfg.partition.PerRank? && Segregated(cfg, s) && s.ranks.index.Keys == ranks
    requires OfRank(last.call.keys, last.rank) && |ranks| <= cfg.ranks
    requires |ranks + (if Admits(cfg, last.call) then {last.rank} else {})| > cfg.ranks
    ensures Step(cfg, s, last.call).failed
  {
    assert |s.ranks.index| == |s.ranks.index.Keys|;
    assert ranks + {} == ranks && (last.rank in ranks ==> ranks + {last.rank} == ranks);
    NotFailed(cfg, s);
    CountPutSegregated(cfg, s);
    PutTooMany(cfg, last.rank, CountPut(s), last.call.keys);
  }

  lemma {:induction false} EmptyDecomposed(cfg: Config)
    requires cfg.partition.PerRank?
    ensures Decomposed(cfg, [])
  {
    assert Calls([]) == [];
    assert forall i: nat :: LruIn(map[], i) == [] && UsedIn(map[], i) == 0 && TierIn(map[], i) == EMPTY_TIER;
  }

  lemma {:induction false} StepDecomposes(cfg: Config, calls: seq<RankCall>)
    requires cfg.partition.PerRank? && |RanksPut(cfg, calls)| <= cfg.ranks
    requires calls != [] && OfRank(calls[|calls| - 1].call.keys, calls[|calls| - 1].rank)
    requires Decomposed(cfg, calls[..|calls| - 1])
    ensures Decomposed(cfg, calls)
    ensures var front, rank := calls[..|calls| - 1], calls[|calls| - 1].rank;
            SameDelta(Run(cfg, Calls(front)).stats, Run(cfg, Calls(calls)).stats,
                      Run(ShareOf(cfg), CallsOf(front, rank)).stats, Run(ShareOf(cfg), CallsOf(calls, rank)).stats)
  {
    hide Step, SameDelta, Segregated, Match, Coherent, OfRank, Admits, RanksPut;
    var front, last, c := calls[..|calls| - 1], calls[|calls| - 1], ShareOf(cfg);
    var rank := last.rank;
    CallsSplit(cfg, calls);
    var s, g := Run(cfg, Calls(front)), Run(c, CallsOf(front, rank));
    if Admits(cfg, last.call) {
      RankFits(cfg, calls, s);
    } else {
      StepIndex(cfg, s, last.call);
    }
    RunCoherent(c, CallsOf(front, rank));
    RunSnoc(cfg, Calls(front), last.call);
    RunSnoc(c, CallsOf(front, rank), last.call);
    assert CallsOf(calls, rank) == CallsOf(front, rank) + [last.call];
    StepMoves(cfg, rank, s, g, last.call);
    var s' := Step(cfg, s, last.call);
    MovedIndex(cfg, rank, s, g, s', Step(c, g, last.call));
    hide Run;
    forall q ensures Match(s', q, Run(c, CallsOf(calls, q))) {
      if q != rank {
        OtherCalls(front, last, q);
        assert Match(s, q, Run(c, CallsOf(front, q)));
      }
    }
  }

  lemma {:induction false} MovedIndex(cfg: Config, rank: RankId, s: Store, g: Store, s': Store, g': Store)
    requires Moved(cfg, rank, s, g, s', g')
    ensures rank in s'.ranks.index ==> s'.ranks.index.Keys == s.ranks.index.Keys + {rank}
  {
  }

  lemma {:induction false} ZeroStats(m: Stats, n: Stats)
    requires SameDelta(NO_STATS, m, NO_STATS, n) && n.ranks == RankStats(0, 0)
    ensures m.ranks.cross == 0 && m.ranks.same == m.evictions.total && m.(ranks := RankStats(0, 0)) == n
  {
  }

  lemma {:induction false} EmptyRun(cfg: Config)
    ensures Run(cfg, []) == EMPTY_STORE
  {
  }

  lemma {:induction false} PlusNothing()
    ensures Plus(NO_STATS, NO_STATS) == NO_STATS
  {
  }

  lemma {:induction false} SumOfNothing(cfg: Config, ranks: seq<RankId>)
    requires cfg.partition.PerRank?
    ensures SumStats(cfg, [], ranks) == NO_STATS
  {
    hide Run, Plus, ShareOf;
    if ranks != [] {
      SumOfNothing(cfg, ranks[1..]);
      EmptyRun(ShareOf(cfg));
      PlusNothing();
    }
  }

  lemma {:induction false} RunSums(cfg: Config, calls: seq<RankCall>, ranks: seq<RankId>)
    requires cfg.partition.PerRank? && WellFormed(calls) && |RanksPut(cfg, calls)| <= cfg.ranks
    requires Distinct(ranks) && forall r :: r in RanksIn(calls) ==> r in ranks
    ensures SameDelta(NO_STATS, Run(cfg, Calls(calls)).stats, NO_STATS, SumStats(cfg, calls, ranks))
  {
    hide SameDelta, SumStats, Distinct;
    if calls == [] {
      SumOfNothing(cfg, ranks);
      ZeroDelta(NO_STATS, NO_STATS);
      assert Run(cfg, Calls(calls)) == EMPTY_STORE;
    } else {
      var front, last := calls[..|calls| - 1], calls[|calls| - 1];
      CallsSplit(cfg, calls);
      RunSums(cfg, front, ranks);
      RunDecomposes(cfg, front);
      StepDecomposes(cfg, calls);
      assert last.rank in RanksIn(calls);
      hide Run, Decomposed, Calls, CallsOf;
      var m, m' := Run(cfg, Calls(front)).stats, Run(cfg, Calls(calls)).stats;
      SumMoves(cfg, front, last, ranks, m, m');
      DeltaTransitive(NO_STATS, m, m', NO_STATS, SumStats(cfg, front, ranks), SumStats(cfg, calls, ranks));
    }
  }

  /** The per-rank store's counters are the sums of the independent stores' counters, and no
      eviction ever crosses ranks. */
  lemma {:induction false} CountersSumOverRanks(cfg: Config, calls: seq<RankCall>, ranks: seq<RankId>)
    requires cfg.partition.PerRank? && WellFormed(calls) && |RanksPut(cfg, calls)| <= cfg.ranks
    requires Distinct(ranks) && forall r :: r in RanksIn(calls) ==> r in ranks
    ensures var s := Run(cfg, Calls(calls));
            && s.stats.(ranks := RankStats(0, 0)) == SumStats(cfg, calls, ranks)
            && s.stats.ranks.cross == 0 && s.stats.ranks.same == s.stats.evictions.total
  {
    RunSums(cfg, calls, ranks);
    hide Run, SameDelta;
    ZeroStats(Run(cfg, Calls(calls)).stats, SumStats(cfg, calls, ranks));
  }

  lemma {:induction false} MatchedPresent(cfg: Config, s: Store, g: Store, key: PoolKey)
    requires cfg.partition.PerRank? && Segregated(cfg, s) && Match(s, RankOf(key), g)
    requires Coherent(ShareOf(cfg), g) && key in s.objects
    ensures Present(cfg, s, key)
  {
    hide IndexOk, HistoryOk, OrdersOk, TiersOk, UsedOk, MemoryCoherent, MatchSeen, MatchDeparted, TierCoherent;
    assert Owns(s.ranks.index, s.ranks.keyRank[key], key);
    assert key in g.objects && g.objects[key] == s.objects[key];
    assert TierAt(g, 0) == TierIn(g.tiers, 0) && TierAt(s, s.ranks.keyRank[key]) == TierIn(s.tiers, s.ranks.keyRank[key]);
  }

  /** A rank's tiers: each within its share, its used count exact, and the offload partition holding
      only objects of that rank. */
  ghost predicate RankSound(cfg: Config, s: Store, rank: RankId) {
    var i := IndexOf(s.ranks.index, rank);
    var t := TierIn(s.tiers, i);
    && |LruIn(s.ranks.lru, i)| == UsedIn(s.ranks.used, i) <= MemoryCapacity(cfg)
    && (cfg.enableOffload ==>
          && t.usedBlocks == |t.lru| && (!cfg.unlimited ==> t.usedBlocks <= OffloadCapacity(cfg))
          && (forall k :: k in t.held <==> k in t.lru)
          && (forall k :: k in t.held ==> k in s.objects && RankOf(k) == rank))
  }

  /** So the per-rank store is coherent too: its staleness test never fires, and no rank's tier
      exceeds its share or miscounts what it holds. */
  lemma {:induction false} PerRankCoherent(cfg: Config, calls: seq<RankCall>, key: PoolKey)
    requires cfg.partition.PerRank? && WellFormed(calls) && |RanksPut(cfg, calls)| <= cfg.ranks
    ensures var s := Run(cfg, Calls(calls));
            (Present(cfg, s, key) <==> key in s.objects) && RankSound(cfg, s, RankOf(key))
  {
    hide Run, Segregated, Match, Coherent, Present, RankSound;
    RunDecomposes(cfg, calls);
    var s, g := Run(cfg, Calls(calls)), Run(ShareOf(cfg), CallsOf(calls, RankOf(key)));
    RunCoherent(ShareOf(cfg), CallsOf(calls, RankOf(key)));
    assert Match(s, RankOf(key), g);
    if key in s.objects {
      MatchedPresent(cfg, s, g, key);
    }
    PresentHeld(cfg, s, key);
    MatchedTiers(cfg, s, g, RankOf(key));
  }

  lemma {:induction false} PresentHeld(cfg: Config, s: Store, key: PoolKey)
    ensures Present(cfg, s, key) ==> key in s.objects
  {
  }

  lemma {:induction false} MatchedTiers(cfg: Config, s: Store, g: Store, rank: RankId)
    requires cfg.partition.PerRank? && Match(s, rank, g) && Coherent(ShareOf(cfg), g)
    ensures RankSound(cfg, s, rank)
  {
    hide MatchSeen, MatchDeparted;
    var t := TierIn(g.tiers, 0);
    assert t == TierAt(g, 0);
    if cfg.enableOffload {
      SumHeldOnes(t.held, t.lru);
    }
  }

  // ----- the write identities of a per-rank store

  function Resident(cfg: Config, calls: seq<RankCall>, ranks: seq<RankId>): nat
    requires cfg.partition.PerRank?
  {
    if ranks == [] then 0
    else |Run(ShareOf(cfg), CallsOf(calls, ranks[0])).memoryLru| + Resident(cfg, calls, ranks[1..])
  }

  /** The identities of the store's counters, given the number of resident blocks. */
  predicate Identities(cfg: Config, n: Stats, resident: nat) {
    var w, e := n.writes, n.evictions;
    && w.ssdWrites == (if !cfg.enableOffload then 0
                       else if cfg.write.WriteThrough? then w.admissions + e.demoted
                       else w.bypasses + e.demoted)
    && e.total == e.dropped + e.demoted == e.useful + e.wasted
    && w.memoryWrites == e.total + resident
    && w.admissions == w.memoryWrites + w.bypasses
    && (cfg.countSource ==> SourceTotal(n.sources) == w.memoryWrites)
    && (cfg.countSource && cfg.enableOffload ==> n.sources.afterOther == 0)
    && (cfg.creditOnServe ==> e.gatePasses == e.gatePassesServed)
    && (cfg.enableOffload && cfg.demote.IfRead? ==> e.useful == e.demoted && e.wasted == e.dropped)
    && e.gatePasses == (if cfg.enableOffload && cfg.countGate && cfg.demote.IfRead? then e.demoted else 0)
  }

  lemma {:induction false} ShareIdentities(cfg: Config, calls: seq<Call>)
    requires cfg.partition.PerRank?
    ensures var g := Run(ShareOf(cfg), calls); Identities(cfg, g.stats, |g.memoryLru|)
  {
    hide Run, DeparturesKnown;
    RunBalanced(ShareOf(cfg), calls);
    if cfg.countSource {
      RunSourcesKnown(ShareOf(cfg), calls);
    }
    if cfg.creditOnServe {
      RunCreditsHonest(ShareOf(cfg), calls);
    }
  }

  lemma {:induction false} IdentitiesPlus(cfg: Config, m: Stats, n: Stats, a: nat, b: nat)
    requires Identities(cfg, m, a) && Identities(cfg, n, b)
    ensures Identities(cfg, Plus(m, n), a + b)
  {
  }

  lemma {:induction false} SumIdentities(cfg: Config, calls: seq<RankCall>, ranks: seq<RankId>)
    requires cfg.partition.PerRank?
    ensures Identities(cfg, SumStats(cfg, calls, ranks), Resident(cfg, calls, ranks))
  {
    hide Run, Plus, Identities, ShareOf;
    if ranks == [] {
      NothingBalances(cfg);
    } else {
      SumIdentities(cfg, calls, ranks[1..]);
      ShareIdentities(cfg, CallsOf(calls, ranks[0]));
      IdentitiesPlus(cfg, Run(ShareOf(cfg), CallsOf(calls, ranks[0])).stats, SumStats(cfg, calls, ranks[1..]),
                     |Run(ShareOf(cfg), CallsOf(calls, ranks[0])).memoryLru|, Resident(cfg, calls, ranks[1..]));
    }
  }

  lemma {:induction false} NothingBalances(cfg: Config)
    ensures Identities(cfg, NO_STATS, 0)
  {
  }

  /** The write, eviction, admission-source and read-gate identities hold of a per-rank store's
      counters as well, its resident blocks counted over the ranks. */
  lemma {:induction false} PerRankIdentities(cfg: Config, calls: seq<RankCall>, ranks: seq<RankId>)
    requires cfg.partition.PerRank? && WellFormed(calls) && |RanksPut(cfg, calls)| <= cfg.ranks
    requires Distinct(ranks) && forall r :: r in RanksIn(calls) ==> r in ranks
    ensures Identities(cfg, Run(cfg, Calls(calls)).stats, Resident(cfg, calls, ranks))
  {
    hide Run, SumStats;
    CountersSumOverRanks(cfg, calls, ranks);
    SumIdentities(cfg, calls, ranks);
  }

  // ----- a store that only one rank puts into

  /** What such a store keeps: it is in step with some coherent independent store. */
  ghost predicate OneRankSound(cfg: Config, rank: RankId, s: Store)
    requires cfg.partition.PerRank?
  {
    && Segregated(cfg, s) && s.ranks.index.Keys <= {rank}
    && exists g :: Match(s, rank, g) && Coherent(ShareOf(cfg), g)
  }

  lemma {:induction false} OneRankObjects(cfg: Config, rank: RankId, s: Store)
    requires cfg.partition.PerRank? && OneRankSound(cfg, rank, s)
    ensures forall k :: k in s.objects ==> RankOf(k) == rank
    ensures !s.failed && forall k :: RankOf(k) == rank ==> !TooManyRanks(cfg, s, k)
  {
    forall k | k in s.objects ensures RankOf(k) == rank {
      assert Owns(s.ranks.index, s.ranks.keyRank[k], k);
      assert RankOf(k) in s.ranks.index.Keys;
    }
    if rank !in s.ranks.index.Keys {
      assert s.ranks.index.Keys == {};
      assert |s.ranks.index| == |s.ranks.index.Keys|;
    }
  }

  lemma {:induction false} OneRankPresent(cfg: Config, rank: RankId, s: Store, key: PoolKey)
    requires cfg.partition.PerRank? && OneRankSound(cfg, rank, s)
    ensures Present(cfg, s, key) <==> key in s.objects
  {
    OneRankObjects(cfg, rank, s);
    var g :| Match(s, rank, g) && Coherent(ShareOf(cfg), g);
    hide Segregated, Match, Coherent, Present;
    if key in s.objects {
      MatchedPresent(cfg, s, g, key);
    }
    PresentHeld(cfg, s, key);
  }

  function Own(keys: seq<PoolKey>, objects: set<PoolKey>): (own: seq<PoolKey>)
    ensures forall i :: 0 <= i < |own| ==> own[i] in objects
  {
    if keys == [] then []
    else Own(keys[..|keys| - 1], objects) + (if keys[|keys| - 1] in objects then [keys[|keys| - 1]] else [])
  }

  /** Absent keys of a get do nothing. */
  lemma {:induction false} GetKeysTrim(cfg: Config, s: Store, keys: seq<PoolKey>)
    ensures GetKeys(cfg, s, keys) == GetKeys(cfg, s, Own(keys, s.objects.Keys))
    ensures GetKeys(cfg, s, keys).objects.Keys == s.objects.Keys
  {
    if keys != [] {
      var front, last := keys[..|keys| - 1], keys[|keys| - 1];
      var own := Own(front, s.objects.Keys);
      GetKeysTrim(cfg, s, front);
      GetOneFrame(cfg, GetKeys(cfg, s, front), last);
      hide GetOne;
      GetAbsent(cfg, GetKeys(cfg, s, front), last);
      assert (own + [last])[..|own|] == own && own + [] == own;
    }
  }

  lemma {:induction false} GetAbsent(cfg: Config, s: Store, key: PoolKey)
    ensures key !in s.objects ==> GetOne(cfg, s, key) == s
  {
  }

  lemma {:induction false} HitLengthTrim(cfg: Config, s: Store, keys: seq<PoolKey>)
    ensures HitLength(cfg, s, keys[..HitLength(cfg, s, keys)]) == HitLength(cfg, s, keys)
  {
    hide Present;
    var n := HitLength(cfg, s, keys);
    if n > 0 {
      HitLengthTrim(cfg, s, keys[1..]);
      assert keys[..n][1..] == keys[1..][..n - 1] && keys[..n][0] == keys[0];
    }
  }

  /** A lookup sees no further than its hit. */
  lemma {:induction false} LookupTrim(cfg: Config, s: Store, keys: seq<PoolKey>)
    ensures Lookup(cfg, s, keys) == Lookup(cfg, s, keys[..HitLength(cfg, s, keys)])
  {
    HitLengthTrim(cfg, s, keys);
    var hits := keys[..HitLength(cfg, s, keys)];
    hide HitLength, CreditReads, CountLookup, AnyOffload;
    assert hits[..|hits|] == hits;
  }

  lemma {:induction false} OneRankMoved(cfg: Config, rank: RankId, s: Store, g: Store, s': Store, g': Store)
    requires cfg.partition.PerRank? && s.ranks.index.Keys <= {rank} && Moved(cfg, rank, s, g, s', g')
    requires Coherent(ShareOf(cfg), g')
    ensures OneRankSound(cfg, rank, s')
  {
    assert s.ranks.index.Keys + {rank} == {rank};
  }

  lemma {:induction false} HitsOfRank(cfg: Config, rank: RankId, s: Store, keys: seq<PoolKey>)
    requires cfg.partition.PerRank? && OneRankSound(cfg, rank, s)
    ensures OfRank(keys[..HitLength(cfg, s, keys)], rank)
  {
    OneRankObjects(cfg, rank, s);
    hide OneRankSound;
  }

  /** Puts of the rank's own keys, and any reads at all, keep it sound. */
  lemma {:induction false} OneRankStep(cfg: Config, rank: RankId, s: Store, call: Call)
    requires cfg.partition.PerRank? && OneRankSound(cfg, rank, s) && (call.PutCall? ==> OfRank(call.keys, rank))
    ensures OneRankSound(cfg, rank, Step(cfg, s, call))
  {
    OneRankParts(cfg, rank, s);
    hide OneRankSound, Put, GetKeys, Lookup, HitLength, CountGet;
    match call
    case PutCall(keys) => OneRankCall(cfg, rank, s, call);
    case LookupCall(keys) =>
      LookupTrim(cfg, s, keys);
      HitsOfRank(cfg, rank, s, keys);
      OneRankCall(cfg, rank, s, LookupCall(keys[..HitLength(cfg, s, keys)]));
    case GetCall(keys) =>
      if keys != [] {
        OneRankCountGet(cfg, rank, s);
        OneRankGetKeys(cfg, rank, CountGet(s), keys);
      }
  }

  lemma {:induction false} OneRankCall(cfg: Config, rank: RankId, s: Store, call: Call)
    requires cfg.partition.PerRank? && OneRankSound(cfg, rank, s) && OfRank(call.keys, rank)
    ensures OneRankSound(cfg, rank, Step(cfg, s, call))
  {
    OneRankRoom(cfg, rank, s);
    OneRankParts(cfg, rank, s);
    var g :| Match(s, rank, g) && Coherent(ShareOf(cfg), g);
    hide Segregated, Match, Coherent, OneRankSound, Moved, Step, OfRank;
    StepMoves(cfg, rank, s, g, call);
    StepCoherent(ShareOf(cfg), g, call);
    OneRankMoved(cfg, rank, s, g, Step(cfg, s, call), Step(ShareOf(cfg), g, call));
  }

  lemma {:induction false} OneRankParts(cfg: Config, rank: RankId, s: Store)
    requires cfg.partition.PerRank? && OneRankSound(cfg, rank, s)
    ensures Segregated(cfg, s) && s.ranks.index.Keys <= {rank} && !s.failed
  {
  }

  lemma {:induction false} OneRankRoom(cfg: Config, rank: RankId, s: Store)
    requires cfg.partition.PerRank? && OneRankSound(cfg, rank, s)
    ensures rank in s.ranks.index || |s.ranks.index| < cfg.ranks
  {
    if rank !in s.ranks.index.Keys {
      assert s.ranks.index.Keys == {};
      assert |s.ranks.index| == |s.ranks.index.Keys|;
    }
  }

  lemma {:induction false} OneRankCountGet(cfg: Config, rank: RankId, s: Store)
    requires cfg.partition.PerRank? && OneRankSound(cfg, rank, s)
    ensures OneRankSound(cfg, rank, CountGet(s))
  {
    OneRankParts(cfg, rank, s);
    var g :| Match(s, rank, g) && Coherent(ShareOf(cfg), g);
    BookkeepingCoherent(ShareOf(cfg), g, CountGet(g));
    hide Segregated, Match, Coherent, OneRankSound, Moved, CountGet;
    CountMoves(cfg, rank, s, g, 0);
    OneRankMoved(cfg, rank, s, g, CountGet(s), CountGet(g));
  }

  lemma {:induction false} OwnOfRank(cfg: Config, rank: RankId, s: Store, keys: seq<PoolKey>)
    requires cfg.partition.PerRank? && OneRankSound(cfg, rank, s)
    ensures OfRank(Own(keys, s.objects.Keys), rank)
  {
    OneRankObjects(cfg, rank, s);
    hide OneRankSound;
  }

  lemma {:induction false} OneRankGetKeys(cfg: Config, rank: RankId, s: Store, keys: seq<PoolKey>)
    requires cfg.partition.PerRank? && OneRankSound(cfg, rank, s)
    ensures OneRankSound(cfg, rank, GetKeys(cfg, s, keys))
  {
    OneRankParts(cfg, rank, s);
    OwnOfRank(cfg, rank, s, keys);
    GetKeysTrim(cfg, s, keys);
    var g :| Match(s, rank, g) && Coherent(ShareOf(cfg), g);
    var own := Own(keys, s.objects.Keys);
    hide Segregated, Match, Coherent, OneRankSound, Moved, GetKeys, Own, OfRank;
    GetKeysStep(cfg, rank, s, g, own);
    GetKeysCoherent(ShareOf(cfg), g, own);
    OneRankMoved(cfg, rank, s, g, GetKeys(cfg, s, own), GetKeys(ShareOf(cfg), g, own));
  }

  lemma {:induction false} OneRankEmpty(cfg: Config, rank: RankId)
    requires cfg.partition.PerRank?
    ensures OneRankSound(cfg, rank, EMPTY_STORE)
  {
    EmptyDecomposed(cfg);
    RunCoherent(ShareOf(cfg), []);
    assert Run(cfg, []) == Run(ShareOf(cfg), []) == EMPTY_STORE;
    assert Calls([]) == [] && CallsOf([], rank) == [];
  }
}

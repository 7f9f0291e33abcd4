/** The write-policy and read-gate laws of a per-rank store: each rank obeys them on its own, and the
    counters are sums. */
module PerRankLaws {
  import opened Containers
  import opened Keys
  import opened OffloadTiers
  import opened StoreModel
  import opened StoreInvariant
  import opened StoreReadGate
  import opened StoreSimulation
  import opened StorePartition

  /** A run the per-rank store does not refuse, and a list of all the ranks that call. */
  ghost predicate Served(cfg: Config, calls: seq<RankCall>, ranks: seq<RankId>) {
    && cfg.partition.PerRank? && WellFormed(calls) && |RanksPut(cfg, calls)| <= cfg.ranks
    && Distinct(ranks) && forall r :: r in RanksIn(calls) ==> r in ranks
  }

  lemma {:induction false} ServedAlike(a: Config, b: Config, calls: seq<RankCall>, ranks: seq<RankId>)
    requires Served(a, calls, ranks)
    requires b.partition.PerRank? && b.ranks == a.ranks && b.admitAlways == a.admitAlways
    ensures Served(b, calls, ranks)
  {
    hide Distinct, WellFormed;
    assert RanksPut(b, calls) == RanksPut(a, calls);
  }

  lemma {:induction false} SumOf(cfg: Config, calls: seq<RankCall>, ranks: seq<RankId>)
    requires Served(cfg, calls, ranks)
    ensures Run(cfg, Calls(calls)).stats.writes == SumStats(cfg, calls, ranks).writes
    ensures Run(cfg, Calls(calls)).stats.sources == SumStats(cfg, calls, ranks).sources
  {
    hide Run, SumStats, Distinct, WellFormed;
    CountersSumOverRanks(cfg, calls, ranks);
  }

  lemma {:induction false} SumSplit(cfg: Config, calls: seq<RankCall>, ranks: seq<RankId>)
    requires cfg.partition.PerRank? && ranks != []
    ensures var n, m := Run(ShareOf(cfg), CallsOf(calls, ranks[0])).stats, SumStats(cfg, calls, ranks[1..]);
            SumStats(cfg, calls, ranks) == Plus(n, m)
  {
  }

  // ----- write policy

  ghost predicate PolicyPair(through: Config, back: Config) {
    && through.partition.PerRank? && through.enableOffload && through.unlimited && through.demote.Always?
    && through.write.WriteThrough? && back == through.(write := WriteBack)
  }

  lemma {:induction false} SumTwice(through: Config, back: Config, calls: seq<RankCall>, ranks: seq<RankId>)
    requires PolicyPair(through, back)
    ensures var w, v := SumStats(through, calls, ranks).writes, SumStats(back, calls, ranks).writes;
            w.ssdWrites == 2 * v.ssdWrites + Resident(through, calls, ranks) - w.bypasses
  {
    hide Run, CallsOf;
    if ranks != [] {
      SumTwice(through, back, calls, ranks[1..]);
      WriteThroughCostsTwice(ShareOf(through), ShareOf(back), CallsOf(calls, ranks[0]));
    }
  }

  lemma {:induction false} OwnObjects(cfg: Config, calls: seq<RankCall>, k: PoolKey)
    requires cfg.partition.PerRank? && Decomposed(cfg, calls)
    ensures var s, g := Run(cfg, Calls(calls)), Run(ShareOf(cfg), CallsOf(calls, RankOf(k)));
            (k in s.objects <==> k in g.objects) && (k in s.objects ==> s.objects[k] == g.objects[k])
  {
    assert Match(Run(cfg, Calls(calls)), RankOf(k), Run(ShareOf(cfg), CallsOf(calls, RankOf(k))));
    hide Run, Segregated;
  }

  lemma {:induction false} SameObject(through: Config, back: Config, calls: seq<RankCall>, k: PoolKey)
    requires PolicyPair(through, back) && Decomposed(through, calls) && Decomposed(back, calls)
    ensures var a, b := Run(through, Calls(calls)).objects, Run(back, Calls(calls)).objects;
            (k in a <==> k in b) && (k in a ==> a[k] == b[k])
  {
    hide Run, Decomposed, CallsOf;
    OwnObjects(through, calls, k);
    OwnObjects(back, calls, k);
    WriteThroughCostsTwice(ShareOf(through), ShareOf(back), CallsOf(calls, RankOf(k)));
  }

  lemma {:induction false} SameObjects(through: Config, back: Config, calls: seq<RankCall>)
    requires PolicyPair(through, back) && Decomposed(through, calls) && Decomposed(back, calls)
    ensures Run(through, Calls(calls)).objects == Run(back, Calls(calls)).objects
  {
    hide Run, Decomposed, PolicyPair, Calls;
    var a, b := Run(through, Calls(calls)).objects, Run(back, Calls(calls)).objects;
    forall k ensures (k in a <==> k in b) && (k in a ==> a[k] == b[k]) {
      SameObject(through, back, calls, k);
    }
    assert a.Keys == b.Keys;
  }

  /** Summed over the ranks, write-through spends two offload writes for each one of write-back, one for
      each block still in memory, and one less for each bypassed; both hold the same objects. */
  lemma {:induction false} PerRankWriteThroughCostsTwice(through: Config, back: Config, calls: seq<RankCall>,
                                                         ranks: seq<RankId>)
    requires PolicyPair(through, back) && Served(through, calls, ranks)
    ensures var a, b := Run(through, Calls(calls)), Run(back, Calls(calls));
            && a.objects == b.objects
            && a.stats.writes.ssdWrites
               == 2 * b.stats.writes.ssdWrites + Resident(through, calls, ranks) - a.stats.writes.bypasses
  {
    ServedAlike(through, back, calls, ranks);
    hide Run, SumStats, Decomposed, WellFormed, Distinct, RanksPut, RanksIn;
    SumOf(through, calls, ranks);
    SumOf(back, calls, ranks);
    SumTwice(through, back, calls, ranks);
    RunDecomposes(through, calls);
    RunDecomposes(back, calls);
    SameObjects(through, back, calls);
  }

  /** The rank's memory can evict, or all the keys the rank puts fit in its share. */
  predicate Unbypassed(cfg: Config, calls: seq<RankCall>, rank: RankId)
    requires cfg.partition.PerRank?
  {
    Evicts(ShareOf(cfg)) || |KeysPut(ShareOf(cfg), CallsOf(calls, rank))| <= MemoryCapacity(cfg)
  }

  lemma {:induction false} OwnBypasses(through: Config, back: Config, calls: seq<RankCall>, rank: RankId)
    requires PolicyPair(through, back)
    ensures var n := Run(ShareOf(through), CallsOf(calls, rank)).stats.writes.bypasses;
            n >= 0 && (n == 0 <==> Unbypassed(through, calls, rank))
  {
    hide Run, CallsOf, KeysPut;
    BypassesAre(ShareOf(back), CallsOf(calls, rank));
    SameKeysPut(ShareOf(through), ShareOf(back), CallsOf(calls, rank));
    RunTwin(ShareOf(through), ShareOf(back), CallsOf(calls, rank));
  }

  lemma {:induction false} SumBypasses(through: Config, back: Config, calls: seq<RankCall>, ranks: seq<RankId>)
    requires PolicyPair(through, back)
    ensures var n := SumStats(through, calls, ranks).writes.bypasses;
            n >= 0 && (n == 0 <==> forall r :: r in ranks ==> Unbypassed(through, calls, r))
  {
    hide Run, CallsOf, Unbypassed;
    if ranks != [] {
      SumBypasses(through, back, calls, ranks[1..]);
      OwnBypasses(through, back, calls, ranks[0]);
      assert ranks == [ranks[0]] + ranks[1..];
    }
  }

  /** So the plain halving is exact when each rank's memory can evict or hold all the rank puts, and
      for no other run. */
  lemma {:induction false} PerRankHalvesIff(through: Config, back: Config, calls: seq<RankCall>, ranks: seq<RankId>)
    requires PolicyPair(through, back) && Served(through, calls, ranks)
    ensures var a, b := Run(through, Calls(calls)), Run(back, Calls(calls));
            a.stats.writes.ssdWrites == 2 * b.stats.writes.ssdWrites + Resident(through, calls, ranks)
            <==> forall r :: r in ranks ==> Unbypassed(through, calls, r)
  {
    hide Run, SumStats, Resident, Unbypassed;
    PerRankWriteThroughCostsTwice(through, back, calls, ranks);
    SumOf(through, calls, ranks);
    SumBypasses(through, back, calls, ranks);
  }

  // ----- read gate

  ghost predicate GatePair(always: Config, ifRead: Config) {
    && always.partition.PerRank? && always.enableOffload && always.unlimited && always.write.WriteBack?
    && always.demote.Always? && ifRead == always.(demote := IfRead)
  }

  function KeysOfRank(keys: set<PoolKey>, rank: RankId): set<PoolKey> {
    set k | k in keys && RankOf(k) == rank
  }

  function CountByRank(keys: set<PoolKey>, ranks: seq<RankId>): nat {
    if ranks == [] then 0 else |KeysOfRank(keys, ranks[0])| + CountByRank(keys, ranks[1..])
  }

  lemma {:induction false} CountByRankIs(keys: set<PoolKey>, ranks: seq<RankId>)
    requires Distinct(ranks)
    ensures CountByRank(keys, ranks) == |set k | k in keys && RankOf(k) in ranks|
  {
    var all := set k | k in keys && RankOf(k) in ranks;
    if ranks == [] {
      assert all == {};
    } else {
      var rest := ranks[1..];
      assert ranks == [ranks[0]] + rest && ranks[0] !in rest;
      assert Distinct(rest);
      CountByRankIs(keys, rest);
      var others := set k | k in keys && RankOf(k) in rest;
      assert all == KeysOfRank(keys, ranks[0]) + others && KeysOfRank(keys, ranks[0]) !! others;
    }
  }

  function KeysOfCall(cfg: Config, call: Call): set<PoolKey> {
    if cfg.admitAlways && call.PutCall? then KeySet(call.keys) else {}
  }

  lemma {:induction false} KeysPutSnoc(cfg: Config, front: seq<Call>, call: Call)
    ensures KeysPut(cfg, front + [call]) == KeysPut(cfg, front) + KeysOfCall(cfg, call)
  {
    assert (front + [call])[..|front|] == front;
    if !cfg.admitAlways {
      NothingPut(cfg, front);
    }
  }

  lemma {:induction false} CallerKeys(cfg: Config, call: Call, caller: RankId)
    requires OfRank(call.keys, caller)
    ensures forall k :: k in KeysOfCall(cfg, call) ==> RankOf(k) == caller
  {
  }

  lemma {:induction false} OwnKeysMore(before: set<PoolKey>, more: set<PoolKey>, caller: RankId, rank: RankId)
    requires forall k :: k in more ==> RankOf(k) == caller
    ensures KeysOfRank(before + more, rank) == if caller == rank then KeysOfRank(before, rank) + more
                                               else KeysOfRank(before, rank)
  {
  }

  lemma {:induction false} CallsOfSnoc(calls: seq<RankCall>, rank: RankId)
    requires calls != []
    ensures var front, last := calls[..|calls| - 1], calls[|calls| - 1];
            CallsOf(calls, rank)
            == if last.rank == rank then CallsOf(front, rank) + [last.call] else CallsOf(front, rank)
  {
    assert CallsOf(calls[..|calls| - 1], rank) + [] == CallsOf(calls[..|calls| - 1], rank);
  }

  lemma {:induction false} KeysPutByRank(cfg: Config, calls: seq<RankCall>, rank: RankId)
    requires cfg.partition.PerRank? && WellFormed(calls)
    ensures KeysPut(ShareOf(cfg), CallsOf(calls, rank)) == KeysOfRank(KeysPut(cfg, Calls(calls)), rank)
  {
    if calls == [] {
      assert Calls(calls) == [];
    } else {
      var front, last := calls[..|calls| - 1], calls[|calls| - 1];
      assert KeysOfCall(ShareOf(cfg), last.call) == KeysOfCall(cfg, last.call);
      hide WellFormed, RanksIn, RanksPut, KeysPut, KeysOfCall, CallsOf, KeysOfRank, OfRank, Calls, ShareOf;
      CallsSplit(cfg, calls);
      CallsOfSnoc(calls, rank);
      KeysPutByRank(cfg, front, rank);
      KeysPutSnoc(cfg, Calls(front), last.call);
      KeysPutSnoc(ShareOf(cfg), CallsOf(front, rank), last.call);
      CallerKeys(cfg, last.call, last.rank);
      OwnKeysMore(KeysPut(cfg, Calls(front)), KeysOfCall(cfg, last.call), last.rank, rank);
    }
  }

  lemma {:induction false} KeysPutCovered(cfg: Config, calls: seq<RankCall>)
    requires WellFormed(calls)
    ensures forall k :: k in KeysPut(cfg, Calls(calls)) ==> RankOf(k) in RanksIn(calls)
  {
    if calls == [] {
      assert Calls(calls) == [];
    } else {
      hide WellFormed, RanksIn, RanksPut, KeysPut, KeysOfCall, Calls, OfRank;
      var front, last := calls[..|calls| - 1], calls[|calls| - 1];
      CallsSplit(cfg, calls);
      KeysPutCovered(cfg, front);
      KeysPutSnoc(cfg, Calls(front), last.call);
      CallerKeys(cfg, last.call, last.rank);
    }
  }

  /** The keys ever put that the store lacks. */
  function Missing(cfg: Config, calls: seq<RankCall>): set<PoolKey> {
    KeysPut(cfg, Calls(calls)) - Run(cfg, Calls(calls)).objects.Keys
  }

  lemma {:induction false} MissingByRank(cfg: Config, calls: seq<RankCall>, rank: RankId)
    requires cfg.partition.PerRank? && WellFormed(calls) && Decomposed(cfg, calls)
    ensures var g := CallsOf(calls, rank);
            KeysOfRank(Missing(cfg, calls), rank) == KeysPut(ShareOf(cfg), g) - Run(ShareOf(cfg), g).objects.Keys
  {
    hide Run, CallsOf, KeysPut, Decomposed, WellFormed;
    KeysPutByRank(cfg, calls, rank);
    forall k | RankOf(k) == rank
      ensures k in Run(cfg, Calls(calls)).objects.Keys <==> k in Run(ShareOf(cfg), CallsOf(calls, rank)).objects.Keys
    {
      OwnObjects(cfg, calls, k);
    }
  }

  lemma {:induction false} SumSaves(always: Config, ifRead: Config, calls: seq<RankCall>, ranks: seq<RankId>)
    requires GatePair(always, ifRead) && WellFormed(calls) && Decomposed(ifRead, calls)
    ensures SumStats(always, calls, ranks).writes.ssdWrites - SumStats(ifRead, calls, ranks).writes.ssdWrites
         == CountByRank(Missing(ifRead, calls), ranks)
  {
    hide Run, CallsOf, KeysPut, Decomposed, WellFormed, Missing, KeysOfRank;
    if ranks != [] {
      SumSaves(always, ifRead, calls, ranks[1..]);
      GateSavesExactlyTheMissing(ShareOf(always), ShareOf(ifRead), CallsOf(calls, ranks[0]));
      SameKeysPut(ShareOf(always), ShareOf(ifRead), CallsOf(calls, ranks[0]));
      MissingByRank(ifRead, calls, ranks[0]);
    }
  }

  lemma {:induction false} MissingCovered(cfg: Config, calls: seq<RankCall>, ranks: seq<RankId>)
    requires Served(cfg, calls, ranks)
    ensures CountByRank(Missing(cfg, calls), ranks)
         == |KeysPut(cfg, Calls(calls)) - Run(cfg, Calls(calls)).objects.Keys|
  {
    var missing := Missing(cfg, calls);
    CountByRankIs(missing, ranks);
    KeysPutCovered(cfg, calls);
    hide Run, KeysPut, RanksIn, WellFormed, RanksPut, CountByRank;
    assert (set k | k in missing && RankOf(k) in ranks) == missing;
  }

  /** Over the ranks too, the offload writes the gate saves are the keys ever put that the gated store
      lacks. */
  lemma {:induction false} PerRankGateSaves(always: Config, ifRead: Config, calls: seq<RankCall>, ranks: seq<RankId>)
    requires GatePair(always, ifRead) && Served(always, calls, ranks)
    ensures var a, b := Run(always, Calls(calls)), Run(ifRead, Calls(calls));
            a.stats.writes.ssdWrites - b.stats.writes.ssdWrites
            == |KeysPut(always, Calls(calls)) - b.objects.Keys|
  {
    ServedAlike(always, ifRead, calls, ranks);
    hide Run, SumStats, Decomposed, WellFormed, Distinct, RanksPut, KeysPut, CountByRank;
    SumOf(always, calls, ranks);
    SumOf(ifRead, calls, ranks);
    RunDecomposes(ifRead, calls);
    SumSaves(always, ifRead, calls, ranks);
    SameKeysPut(always, ifRead, Calls(calls));
    MissingCovered(ifRead, calls, ranks);
  }

  lemma {:induction false} SumCosts(always: Config, ifRead: Config, calls: seq<RankCall>, ranks: seq<RankId>)
    requires GatePair(always, ifRead) && always.countSource
    ensures SumStats(ifRead, calls, ranks).writes.memoryWrites - SumStats(always, calls, ranks).writes.memoryWrites
         == SumStats(ifRead, calls, ranks).sources.afterDrop
  {
    hide Run, CallsOf;
    if ranks != [] {
      SumCosts(always, ifRead, calls, ranks[1..]);
      GateCostsExactlyTheReadmissions(ShareOf(always), ShareOf(ifRead), CallsOf(calls, ranks[0]));
    }
  }

  /** And the memory writes it adds are the re-admissions after a drop. */
  lemma {:induction false} PerRankGateCosts(always: Config, ifRead: Config, calls: seq<RankCall>, ranks: seq<RankId>)
    requires GatePair(always, ifRead) && Served(always, calls, ranks) && always.countSource
    ensures var a, b := Run(always, Calls(calls)), Run(ifRead, Calls(calls));
            b.stats.writes.memoryWrites - a.stats.writes.memoryWrites == b.stats.sources.afterDrop
  {
    ServedAlike(always, ifRead, calls, ranks);
    hide Run, SumStats, Served;
    SumOf(always, calls, ranks);
    SumOf(ifRead, calls, ranks);
    SumCosts(always, ifRead, calls, ranks);
  }
}

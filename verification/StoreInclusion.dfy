/** LRU inclusion: without an offload tier, a larger memory tier always holds what a smaller one
    holds, in the same relative order, so memory writes never grow with capacity. */
module StoreInclusion {
  import opened Containers
  import opened Keys
  import opened OffloadTiers
  import opened StoreModel
  import opened StoreInvariant
  import opened StoreProvenance

  // ----- a plain LRU list as the reference

  function LruPut(capacity: nat, lru: seq<PoolKey>, key: PoolKey): seq<PoolKey> {
    if key in lru then MoveToEnd(lru, key)
    else if capacity == 0 then lru
    else (if |lru| >= capacity && lru != [] then lru[1..] else lru) + [key]
  }

  function LruGet(lru: seq<PoolKey>, key: PoolKey): seq<PoolKey> {
    if key in lru then MoveToEnd(lru, key) else lru
  }

  function LruWrites(capacity: nat, lru: seq<PoolKey>, key: PoolKey): nat {
    if key in lru || capacity == 0 then 0 else 1
  }

  /** The keys of `s` that are in `ks`, in the order of `s`. */
  function Keep(s: seq<PoolKey>, ks: set<PoolKey>): seq<PoolKey> {
    if s == [] then [] else Keep(s[..|s| - 1], ks) + (if s[|s| - 1] in ks then [s[|s| - 1]] else [])
  }

  lemma {:induction false} KeepAppend(s: seq<PoolKey>, key: PoolKey, ks: set<PoolKey>)
    ensures Keep(s + [key], ks) == Keep(s, ks) + (if key in ks then [key] else [])
  {
    assert (s + [key])[..|s|] == s;
  }

  lemma {:induction false} KeepMembers(s: seq<PoolKey>, ks: set<PoolKey>)
    ensures forall k :: k in Keep(s, ks) <==> k in s && k in ks
  {
    if s != [] {
      KeepMembers(s[..|s| - 1], ks);
      assert s == s[..|s| - 1] + [s[|s| - 1]];
    }
  }

  lemma {:induction false} KeepAll(s: seq<PoolKey>, ks: set<PoolKey>)
    requires forall k :: k in s ==> k in ks
    ensures Keep(s, ks) == s
  {
    if s != [] {
      assert s == s[..|s| - 1] + [s[|s| - 1]];
      KeepAll(s[..|s| - 1], ks);
    }
  }

  lemma {:induction false} KeepSame(s: seq<PoolKey>, ks: set<PoolKey>, ls: set<PoolKey>)
    requires forall k :: k in s ==> (k in ks <==> k in ls)
    ensures Keep(s, ks) == Keep(s, ls)
  {
    if s != [] {
      assert s == s[..|s| - 1] + [s[|s| - 1]];
      KeepSame(s[..|s| - 1], ks, ls);
    }
  }

  lemma {:induction false} WithoutOne(last: PoolKey, key: PoolKey)
    ensures Without([last], key) == if last == key then [] else [last]
  {
    assert [last][1..] == [];
  }

  lemma {:induction false} WithoutKeep(s: seq<PoolKey>, key: PoolKey, ks: set<PoolKey>)
    ensures Without(Keep(s, ks), key) == Keep(s, ks - {key})
  {
    if s != [] {
      var front, last := s[..|s| - 1], s[|s| - 1];
      WithoutKeep(front, key, ks);
      WithoutAppend(Keep(front, ks), if last in ks then [last] else [], key);
      WithoutOne(last, key);
    }
  }

  lemma {:induction false} KeepWithout(s: seq<PoolKey>, key: PoolKey, ks: set<PoolKey>)
    ensures Keep(Without(s, key), ks) == Keep(s, ks - {key})
  {
    if s != [] {
      var front, last := s[..|s| - 1], s[|s| - 1];
      assert s == front + [last];
      KeepWithout(front, key, ks);
      WithoutAppend(front, [last], key);
      WithoutOne(last, key);
      if last == key {
        assert Without(s, key) == Without(front, key);
      } else {
        KeepAppend(Without(front, key), last, ks);
      }
    }
  }

  lemma {:induction false} KeepTail(s: seq<PoolKey>, ks: set<PoolKey>)
    requires s != [] && s[0] !in ks
    ensures Keep(s[1..], ks) == Keep(s, ks)
  {
    KeepSplit([s[0]], s[1..], ks);
    assert s == [s[0]] + s[1..];
    KeepAppend([], s[0], ks);
    assert [] + [s[0]] == [s[0]];
  }

  lemma {:induction false} KeepSplit(s: seq<PoolKey>, t: seq<PoolKey>, ks: set<PoolKey>)
    ensures Keep(s + t, ks) == Keep(s, ks) + Keep(t, ks)
  {
    if t == [] {
      assert s + t == s;
    } else {
      var front, last := t[..|t| - 1], t[|t| - 1];
      assert s + t == (s + front) + [last] && t == front + [last];
      KeepSplit(s, front, ks);
      KeepAppend(s + front, last, ks);
    }
  }

  lemma {:induction false} WithoutFirst(s: seq<PoolKey>)
    requires Distinct(s) && s != []
    ensures Without(s, s[0]) == s[1..]
  {
    assert s[0] !in s[1..];
  }

  // ----- inclusion on the lists

  /** The small list is the big one restricted to its own keys; until it has been full it is the big one. */
  ghost predicate Included(c: nat, small: seq<PoolKey>, big: seq<PoolKey>) {
    && Distinct(small) && Distinct(big)
    && |small| <= c
    && Keep(big, KeySet(small)) == small
    && (|small| < c ==> small == big)
  }

  lemma {:induction false} IncludedMember(c: nat, small: seq<PoolKey>, big: seq<PoolKey>, key: PoolKey)
    requires Included(c, small, big)
    ensures key in small ==> key in big
  {
    KeepMembers(big, KeySet(small));
  }

  lemma {:induction false} IncludedTouch(c: nat, small: seq<PoolKey>, big: seq<PoolKey>, key: PoolKey)
    requires Included(c, small, big) && key in big
    ensures Included(c, LruGet(small, key), MoveToEnd(big, key))
  {
    var ks := KeySet(small);
    MoveToEndDistinct(big, key);
    KeepWithout(big, key, ks);
    WithoutKeep(big, key, ks);
    KeepAppend(Without(big, key), key, ks);
    if key in small {
      MoveToEndDistinct(small, key);
      assert KeySet(MoveToEnd(small, key)) == ks;
    } else {
      assert Without(small, key) == small;
    }
    hide Distinct;
  }

  lemma {:induction false} AppendDistinct(s: seq<PoolKey>, key: PoolKey)
    requires Distinct(s) && key !in s
    ensures Distinct(s + [key])
  {
  }

  lemma {:induction false} KeepOneMore(rest: seq<PoolKey>, room: seq<PoolKey>, key: PoolKey)
    requires key !in rest && Keep(rest, KeySet(room)) == room
    ensures Keep(rest + [key], KeySet(room + [key])) == room + [key]
  {
    var ks := KeySet(room);
    assert KeySet(room + [key]) == ks + {key};
    KeepAppend(rest, key, ks + {key});
    KeepSame(rest, ks, ks + {key});
  }

  /** A key new to the small list, once the big list is ready to take it last. */
  lemma {:induction false} IncludedAppend(c: nat, small: seq<PoolKey>, rest: seq<PoolKey>, key: PoolKey)
    requires 1 <= c && Distinct(small) && Distinct(rest) && |small| <= c && key !in small && key !in rest
    requires Keep(rest, KeySet(LruRoom(c, small))) == LruRoom(c, small)
    requires |small| + 1 < c ==> small == rest
    ensures Included(c, LruPut(c, small, key), rest + [key])
  {
    var room := LruRoom(c, small);
    assert Distinct(room) && key !in room;
    assert LruPut(c, small, key) == room + [key];
    assert |room| < c && (|room| + 1 < c ==> room == rest);
    hide LruPut, LruRoom;
    AppendDistinct(room, key);
    AppendDistinct(rest, key);
    hide Distinct;
    KeepOneMore(rest, room, key);
  }

  function LruRoom(capacity: nat, lru: seq<PoolKey>): seq<PoolKey> {
    if |lru| >= capacity && lru != [] then lru[1..] else lru
  }

  lemma {:induction false} KeepRoom(c: nat, small: seq<PoolKey>, big: seq<PoolKey>)
    requires Included(c, small, big)
    ensures Keep(big, KeySet(LruRoom(c, small))) == LruRoom(c, small)
  {
    if |small| >= c && small != [] {
      WithoutKeep(big, small[0], KeySet(small));
      WithoutFirst(small);
      assert KeySet(small) - {small[0]} == KeySet(small[1..]) by {
        assert small == [small[0]] + small[1..];
      }
    }
  }

  lemma {:induction false} IncludedHead(c: nat, small: seq<PoolKey>, big: seq<PoolKey>)
    requires Included(c, small, big) && big != [] && big[0] in small
    ensures big[0] == small[0]
  {
    KeepSplit([big[0]], big[1..], KeySet(small));
    assert big == [big[0]] + big[1..];
    KeepAppend([], big[0], KeySet(small));
    assert [] + [big[0]] == [big[0]];
  }

  lemma {:induction false} IncludedPutHit(c: nat, d: nat, small: seq<PoolKey>, big: seq<PoolKey>, key: PoolKey)
    requires 1 <= c <= d && Included(c, small, big) && key !in small && key in big
    ensures Included(c, LruPut(c, small, key), LruPut(d, big, key))
  {
    KeepRoom(c, small, big);
    WithoutDistinct(big, key);
    var rest, ks := Without(big, key), KeySet(LruRoom(c, small));
    assert key !in ks;
    KeepWithout(big, key, ks);
    assert ks - {key} == ks;
    IncludedAppend(c, small, rest, key);
  }

  lemma {:induction false} IncludedPutMiss(c: nat, d: nat, small: seq<PoolKey>, big: seq<PoolKey>, key: PoolKey)
    requires 1 <= c <= d && Included(c, small, big) && |big| <= d && key !in small && key !in big
    ensures Included(c, LruPut(c, small, key), LruPut(d, big, key))
  {
    KeepRoom(c, small, big);
    var rest, ks := LruRoom(d, big), KeySet(LruRoom(c, small));
    assert Distinct(rest) && key !in rest;
    if |big| >= d && big != [] {
      assert big[0] !in ks by {
        if big[0] in small {
          IncludedHead(c, small, big);
          assert |small| >= c;
        }
      }
      KeepTail(big, ks);
    }
    hide Distinct;
    IncludedAppend(c, small, rest, key);
  }

  lemma {:induction false} IncludedPut(c: nat, d: nat, small: seq<PoolKey>, big: seq<PoolKey>, key: PoolKey)
    requires 1 <= c <= d && Included(c, small, big) && |big| <= d
    ensures Included(c, LruPut(c, small, key), LruPut(d, big, key))
    ensures LruWrites(d, big, key) <= LruWrites(c, small, key)
  {
    hide Included;
    IncludedMember(c, small, big, key);
    if key in small {
      IncludedTouch(c, small, big, key);
    } else if key in big {
      IncludedPutHit(c, d, small, big, key);
    } else {
      IncludedPutMiss(c, d, small, big, key);
    }
  }

  // ----- runs of the plain list

  datatype LruState = LruState(lru: seq<PoolKey>, writes: nat)

  function LruPuts(capacity: nat, t: LruState, keys: seq<PoolKey>): LruState {
    if keys == [] then t
    else
      var t', key := LruPuts(capacity, t, keys[..|keys| - 1]), keys[|keys| - 1];
      LruState(LruPut(capacity, t'.lru, key), t'.writes + LruWrites(capacity, t'.lru, key))
  }

  function LruGets(t: LruState, keys: seq<PoolKey>): LruState {
    if keys == [] then t
    else t.(lru := LruGet(LruGets(t, keys[..|keys| - 1]).lru, keys[|keys| - 1]))
  }

  function LruStep(cfg: Config, t: LruState, call: Call): LruState {
    match call
    case PutCall(keys) => if cfg.admitAlways then LruPuts(cfg.memoryCapacity, t, keys) else t
    case GetCall(keys) => LruGets(t, keys)
    case LookupCall(_) => t
  }

  function LruRun(cfg: Config, calls: seq<Call>): LruState {
    if calls == [] then LruState([], 0) else LruStep(cfg, LruRun(cfg, calls[..|calls| - 1]), calls[|calls| - 1])
  }

  ghost predicate Nested(c: nat, d: nat, a: LruState, b: LruState) {
    Included(c, a.lru, b.lru) && |b.lru| <= d && b.writes <= a.writes
  }

  lemma {:induction false} LruPutBound(capacity: nat, lru: seq<PoolKey>, key: PoolKey)
    requires Distinct(lru) && |lru| <= capacity
    ensures |LruPut(capacity, lru, key)| <= capacity
  {
    if key in lru {
      MoveToEndDistinct(lru, key);
    }
  }

  lemma {:induction false} LruPutsNested(c: nat, d: nat, a: LruState, b: LruState, keys: seq<PoolKey>)
    requires 1 <= c <= d && Nested(c, d, a, b)
    ensures Nested(c, d, LruPuts(c, a, keys), LruPuts(d, b, keys))
  {
    if keys != [] {
      var front, key := keys[..|keys| - 1], keys[|keys| - 1];
      LruPutsNested(c, d, a, b, front);
      var a1, b1 := LruPuts(c, a, front), LruPuts(d, b, front);
      LruPutBound(d, b1.lru, key);
      IncludedPut(c, d, a1.lru, b1.lru, key);
      hide Included, LruPut, LruWrites;
    }
  }

  lemma {:induction false} LruGetsNested(c: nat, d: nat, a: LruState, b: LruState, keys: seq<PoolKey>)
    requires Nested(c, d, a, b)
    ensures Nested(c, d, LruGets(a, keys), LruGets(b, keys))
  {
    if keys != [] {
      var front, key := keys[..|keys| - 1], keys[|keys| - 1];
      LruGetsNested(c, d, a, b, front);
      var a1, b1 := LruGets(a, front), LruGets(b, front);
      IncludedMember(c, a1.lru, b1.lru, key);
      if key in b1.lru {
        IncludedTouch(c, a1.lru, b1.lru, key);
        MoveToEndDistinct(b1.lru, key);
      }
      hide Included;
    }
  }

  ghost predicate Sizes(small: Config, big: Config) {
    Unbacked(small) && big == small.(memoryCapacity := big.memoryCapacity) && small.memoryCapacity <= big.memoryCapacity
  }

  lemma {:induction false} LruRunNested(small: Config, big: Config, calls: seq<Call>)
    requires Sizes(small, big) && small.memoryCapacity >= 1
    ensures Nested(small.memoryCapacity, big.memoryCapacity, LruRun(small, calls), LruRun(big, calls))
  {
    if calls != [] {
      var front, call := calls[..|calls| - 1], calls[|calls| - 1];
      var c, d, a, b := small.memoryCapacity, big.memoryCapacity, LruRun(small, front), LruRun(big, front);
      LruRunNested(small, big, front);
      match call
      case PutCall(keys) => LruPutsNested(c, d, a, b, keys);
      case GetCall(keys) => LruGetsNested(c, d, a, b, keys);
      case LookupCall(_) =>
    }
  }

  // ----- the store is such a list

  predicate Unbacked(cfg: Config) {
    cfg.partition.Global? && !cfg.enableOffload && cfg.lruEviction
  }

  ghost predicate Tracks(cfg: Config, s: Store, t: LruState) {
    Coherent(cfg, s) && s.memoryLru == t.lru && s.stats.writes.memoryWrites == t.writes
  }

  lemma {:induction false} RoomTracks(cfg: Config, s: Store, rank: nat)
    requires Unbacked(cfg) && Coherent(cfg, s)
    ensures var (ok, s') := EnsureRoom(cfg, s, rank);
            && ok == (cfg.memoryCapacity >= 1)
            && s'.stats.writes.memoryWrites == s.stats.writes.memoryWrites
            && s'.memoryLru == if ok then LruRoom(cfg.memoryCapacity, s.memoryLru) else s.memoryLru
  {
    EnsureRoomOnce(cfg, s, rank);
    if 1 <= cfg.memoryCapacity <= |s.memoryLru| {
      ReleasedUnlisted(cfg, s, rank);
      EvictOldestShrinks(cfg, s, rank);
    }
  }

  lemma {:induction false} PutOneTracks(cfg: Config, s: Store, key: PoolKey)
    requires Unbacked(cfg) && Coherent(cfg, s)
    ensures var s' := PutOne(cfg, s, key);
            && s'.memoryLru == LruPut(cfg.memoryCapacity, s.memoryLru, key)
            && s'.stats.writes.memoryWrites
               == s.stats.writes.memoryWrites + LruWrites(cfg.memoryCapacity, s.memoryLru, key)
  {
    assert key in s.objects <==> key in s.memoryLru;
    if key !in s.objects {
      RoomTracks(cfg, s, RankIndex(s, key));
      hide Coherent, EnsureRoom, MoveToEnd;
    }
  }

  lemma {:induction false} PutKeysTracks(cfg: Config, s: Store, t: LruState, keys: seq<PoolKey>)
    requires Unbacked(cfg) && Tracks(cfg, s, t)
    ensures Tracks(cfg, PutKeys(cfg, s, keys), LruPuts(cfg.memoryCapacity, t, keys))
  {
    if keys != [] {
      var front, key := keys[..|keys| - 1], keys[|keys| - 1];
      PutKeysTracks(cfg, s, t, front);
      var s1 := PutKeys(cfg, s, front);
      assert !s1.failed;
      PutOneCoherent(cfg, s1, key);
      PutOneTracks(cfg, s1, key);
      hide Coherent, PutOne, LruPut, LruWrites;
    }
  }

  lemma {:induction false} GetKeysTracks(cfg: Config, s: Store, t: LruState, keys: seq<PoolKey>)
    requires Unbacked(cfg) && Tracks(cfg, s, t)
    ensures Tracks(cfg, GetKeys(cfg, s, keys), LruGets(t, keys))
  {
    if keys != [] {
      var front, key := keys[..|keys| - 1], keys[|keys| - 1];
      GetKeysTracks(cfg, s, t, front);
      var s1 := GetKeys(cfg, s, front);
      assert key in s1.objects <==> key in s1.memoryLru;
      GetOneCoherent(cfg, s1, key);
      GetOneFrame(cfg, s1, key);
      hide Coherent;
    }
  }

  /** Memory order and memory writes of a store without an offload tier are those of a plain LRU list. */
  lemma {:induction false} RunTracks(cfg: Config, calls: seq<Call>)
    requires Unbacked(cfg)
    ensures Tracks(cfg, Run(cfg, calls), LruRun(cfg, calls))
  {
    if calls != [] {
      var front, call := calls[..|calls| - 1], calls[|calls| - 1];
      var s, t := Run(cfg, front), LruRun(cfg, front);
      RunTracks(cfg, front);
      StepCoherent(cfg, s, call);
      match call
      case PutCall(keys) =>
        BookkeepingCoherent(cfg, s, CountPut(s));
        PutKeysTracks(cfg, CountPut(s), t, keys);
      case GetCall(keys) =>
        BookkeepingCoherent(cfg, s, CountGet(s));
        GetKeysTracks(cfg, CountGet(s), t, keys);
      case LookupCall(keys) =>
        CreditReadsFrame(s, keys[..HitLength(cfg, s, keys)]);
    }
  }

  /** No Belady anomaly, over any run of puts, gets and lookups: the smaller memory holds a
      subsequence of the larger one's order, and writes at least as many blocks. */
  lemma {:induction false} LargerMemoryIncludesSmaller(small: Config, big: Config, calls: seq<Call>)
    requires Sizes(small, big) && small.memoryCapacity >= 1
    ensures var a, b := Run(small, calls), Run(big, calls);
            && Keep(b.memoryLru, KeySet(a.memoryLru)) == a.memoryLru
            && b.stats.writes.memoryWrites <= a.stats.writes.memoryWrites
  {
    RunTracks(small, calls);
    RunTracks(big, calls);
    LruRunNested(small, big, calls);
  }

  // ----- when the smaller memory is no memory at all

  predicate PutsSomething(cfg: Config, calls: seq<Call>) {
    cfg.admitAlways && exists i :: 0 <= i < |calls| && calls[i].PutCall? && calls[i].keys != []
  }

  lemma {:induction false} LruPutsWrites(capacity: nat, t: LruState, keys: seq<PoolKey>)
    requires |t.lru| <= t.writes
    ensures var t' := LruPuts(capacity, t, keys);
            && |t'.lru| <= t'.writes
            && t.writes <= t'.writes
            && (capacity == 0 ==> t'.writes == t.writes)
            && (capacity >= 1 && keys != [] ==> t'.writes >= 1)
            && (keys == [] ==> t' == t)
  {
    if keys != [] {
      var t1, key := LruPuts(capacity, t, keys[..|keys| - 1]), keys[|keys| - 1];
      LruPutsWrites(capacity, t, keys[..|keys| - 1]);
      if key in t1.lru {
        WithoutShorter(t1.lru, key);
      }
    }
  }

  lemma {:induction false} WithoutShorter(s: seq<PoolKey>, key: PoolKey)
    requires key in s
    ensures |Without(s, key)| < |s|
  {
    if s[0] != key {
      WithoutShorter(s[1..], key);
    }
  }

  lemma {:induction false} LruGetsWrites(t: LruState, keys: seq<PoolKey>)
    requires |t.lru| <= t.writes
    ensures |LruGets(t, keys).lru| <= t.writes == LruGets(t, keys).writes
  {
    if keys != [] {
      LruGetsWrites(t, keys[..|keys| - 1]);
      var t1, key := LruGets(t, keys[..|keys| - 1]), keys[|keys| - 1];
      if key in t1.lru {
        WithoutShorter(t1.lru, key);
      }
    }
  }

  lemma {:induction false} LruRunWrites(cfg: Config, calls: seq<Call>)
    ensures |LruRun(cfg, calls).lru| <= LruRun(cfg, calls).writes
    ensures LruRun(cfg, calls).writes >= 1 <==> cfg.memoryCapacity >= 1 && PutsSomething(cfg, calls)
  {
    if calls != [] {
      var front, call := calls[..|calls| - 1], calls[|calls| - 1];
      var t := LruRun(cfg, front);
      LruRunWrites(cfg, front);
      assert PutsSomething(cfg, calls)
             <==> PutsSomething(cfg, front) || (cfg.admitAlways && call.PutCall? && call.keys != []) by {
        assert calls == front + [call];
      }
      match call
      case PutCall(keys) => LruPutsWrites(cfg.memoryCapacity, t, keys);
      case GetCall(keys) => LruGetsWrites(t, keys);
      case LookupCall(_) =>
    }
  }

  /** Memory writes do not grow with capacity exactly when the smaller capacity is at least one
      block, or the larger is none, or nothing is put at all. */
  lemma {:induction false} WritesNeverGrowIff(small: Config, big: Config, calls: seq<Call>)
    requires Sizes(small, big)
    ensures Run(big, calls).stats.writes.memoryWrites <= Run(small, calls).stats.writes.memoryWrites
            <==> small.memoryCapacity >= 1 || big.memoryCapacity == 0 || !PutsSomething(small, calls)
  {
    RunTracks(small, calls);
    RunTracks(big, calls);
    LruRunWrites(small, calls);
    LruRunWrites(big, calls);
    if small.memoryCapacity >= 1 {
      LruRunNested(small, big, calls);
    }
  }

  // ----- without gets the smaller order is a suffix of the larger

  ghost predicate Suffix(c: nat, d: nat, small: seq<PoolKey>, big: seq<PoolKey>) {
    && Distinct(big) && |small| <= c && |big| <= d
    && |small| <= |big| && small == big[|big| - |small|..]
    && (|small| < c ==> small == big)
  }

  lemma {:induction false} LruPutDistinct(capacity: nat, lru: seq<PoolKey>, key: PoolKey)
    requires Distinct(lru)
    ensures Distinct(LruPut(capacity, lru, key))
  {
    if key in lru {
      MoveToEndDistinct(lru, key);
    } else {
      assert Distinct(LruRoom(capacity, lru)) && forall k :: k in LruRoom(capacity, lru) ==> k in lru;
      AppendDistinct(LruRoom(capacity, lru), key);
    }
  }

  lemma {:induction false} TailOfJoin(pre: seq<PoolKey>, s: seq<PoolKey>)
    ensures (pre + s)[|pre + s| - |s|..] == s
  {
  }

  lemma {:induction false} SuffixPutHit(c: nat, d: nat, pre: seq<PoolKey>, small: seq<PoolKey>, key: PoolKey)
    requires |small| == c >= 1 && key in pre && key !in small
    ensures LruPut(d, pre + small, key) == (Without(pre, key) + [small[0]]) + LruPut(c, small, key)
  {
    assert key in pre + small;
    WithoutAppend(pre, small, key);
    var rest, s' := Without(pre, key), LruPut(c, small, key);
    assert Without(small, key) == small && s' == small[1..] + [key];
    assert LruPut(d, pre + small, key) == rest + small + [key];
    hide LruPut, Without;
    assert (rest + [small[0]]) + (small[1..] + [key]) == rest + small + [key];
  }

  lemma {:induction false} SuffixPutMiss(c: nat, d: nat, pre: seq<PoolKey>, small: seq<PoolKey>, key: PoolKey)
    requires 1 <= c <= d && |small| == c && |pre + small| <= d && key !in pre && key !in small
    ensures var front := if |pre + small| == d then (pre + [small[0]])[1..] else pre + [small[0]];
            LruPut(d, pre + small, key) == front + LruPut(c, small, key)
  {
    assert key !in pre + small;
    assert pre + small == (pre + [small[0]]) + small[1..];
    assert LruPut(c, small, key) == small[1..] + [key];
    var front := if |pre + small| == d then (pre + [small[0]])[1..] else pre + [small[0]];
    assert LruRoom(d, pre + small) == front + small[1..];
  }

  /** What putting `key` in the larger list leaves in front of the smaller list's new order. */
  lemma {:induction false} SuffixPutJoin(c: nat, d: nat, pre: seq<PoolKey>, small: seq<PoolKey>, key: PoolKey)
                     returns (front: seq<PoolKey>)
    requires 1 <= c <= d && |small| <= c && |pre + small| <= d && (|small| < c ==> pre == [])
    requires key in small ==> key !in pre
    ensures LruPut(d, pre + small, key) == front + LruPut(c, small, key)
    ensures |small| < c ==> front == []
  {
    if key in small {
      WithoutAppend(pre, small, key);
      front := Without(pre, key);
      assert Without(pre, key) + (Without(small, key) + [key]) == Without(pre + small, key) + [key];
    } else if key in pre {
      SuffixPutHit(c, d, pre, small, key);
      front := Without(pre, key) + [small[0]];
    } else if |small| < c {
      front := [];
      assert pre + small == small && [] + LruPut(c, small, key) == LruPut(c, small, key);
    } else {
      SuffixPutMiss(c, d, pre, small, key);
      front := if |pre + small| == d then (pre + [small[0]])[1..] else pre + [small[0]];
    }
  }

  lemma {:induction false} SuffixPut(c: nat, d: nat, small: seq<PoolKey>, big: seq<PoolKey>, key: PoolKey)
    requires c <= d && Suffix(c, d, small, big)
    ensures Suffix(c, d, LruPut(c, small, key), LruPut(d, big, key))
  {
    var pre := big[..|big| - |small|];
    assert big == pre + small && Distinct(small) && !(key in pre && key in small);
    LruPutBound(c, small, key);
    LruPutBound(d, big, key);
    LruPutDistinct(d, big, key);
    if c >= 1 {
      if |small| == c && |LruPut(c, small, key)| < c {
        MoveToEndDistinct(small, key);
      }
      var front := SuffixPutJoin(c, d, pre, small, key);
      hide Distinct, LruPut;
      TailOfJoin(front, LruPut(c, small, key));
    }
  }

  lemma {:induction false} LruPutsSuffix(c: nat, d: nat, a: LruState, b: LruState, keys: seq<PoolKey>)
    requires c <= d && Suffix(c, d, a.lru, b.lru)
    ensures Suffix(c, d, LruPuts(c, a, keys).lru, LruPuts(d, b, keys).lru)
  {
    if keys != [] {
      var front, key := keys[..|keys| - 1], keys[|keys| - 1];
      LruPutsSuffix(c, d, a, b, front);
      SuffixPut(c, d, LruPuts(c, a, front).lru, LruPuts(d, b, front).lru, key);
      hide Suffix, LruPut;
    }
  }

  /** Over puts and lookups alone, the smaller memory's order is the tail of the larger one's. */
  lemma {:induction false} SmallerOrderIsSuffix(small: Config, big: Config, calls: seq<Call>)
    requires Sizes(small, big) && forall i :: 0 <= i < |calls| ==> !calls[i].GetCall?
    ensures var a, b := Run(small, calls).memoryLru, Run(big, calls).memoryLru;
            Suffix(small.memoryCapacity, big.memoryCapacity, a, b)
  {
    RunTracks(small, calls);
    RunTracks(big, calls);
    if calls != [] {
      var front, call := calls[..|calls| - 1], calls[|calls| - 1];
      assert forall i :: 0 <= i < |front| ==> front[i] == calls[i];
      SmallerOrderIsSuffix(small, big, front);
      RunTracks(small, front);
      RunTracks(big, front);
      if call.PutCall? {
        LruPutsSuffix(small.memoryCapacity, big.memoryCapacity, LruRun(small, front), LruRun(big, front), call.keys);
      }
    }
  }

  // ----- when a get keeps the suffix

  lemma {:induction false} KeepOne(s: seq<PoolKey>, key: PoolKey)
    requires Distinct(s) && key in s
    ensures Keep(s, {key}) == [key]
  {
    var front, last := s[..|s| - 1], s[|s| - 1];
    assert s == front + [last];
    if last == key {
      KeepSame(front, {key}, {});
      KeepNone(front);
    } else {
      KeepOne(front, key);
    }
  }

  lemma {:induction false} KeepNone(s: seq<PoolKey>)
    ensures Keep(s, {}) == []
  {
    if s != [] {
      KeepNone(s[..|s| - 1]);
    }
  }

  /** `key` last got at every position is followed by a get of `other`. */
  ghost predicate FollowedBy(keys: seq<PoolKey>, key: PoolKey, other: PoolKey) {
    forall i :: 0 <= i < |keys| && keys[i] == key ==> other in keys[i + 1..]
  }

  lemma {:induction false} FollowedBySnoc(front: seq<PoolKey>, x: PoolKey, key: PoolKey, other: PoolKey)
    requires key != other
    ensures FollowedBy(front + [x], key, other) <==> x != key && (x == other || FollowedBy(front, key, other))
  {
    var keys := front + [x];
    assert keys[|front|] == x && keys[|front| + 1..] == [];
    forall i | 0 <= i < |front|
      ensures keys[i] == front[i] && (other in keys[i + 1..] <==> other in front[i + 1..] || x == other)
    {
      assert keys[i + 1..] == front[i + 1..] + [x];
    }
  }

  lemma {:induction false} KeepAfterTouch(s: seq<PoolKey>, x: PoolKey, ks: set<PoolKey>)
    ensures Keep(MoveToEnd(s, x), ks) == Without(Keep(s, ks), x) + (if x in ks then [x] else [])
  {
    KeepAppend(Without(s, x), x, ks);
    KeepWithout(s, x, ks);
    WithoutKeep(s, x, ks);
  }

  lemma {:induction false} WithoutPair(a: PoolKey, b: PoolKey, x: PoolKey)
    requires a != b
    ensures Without([a, b], x) == if x == a then [b] else if x == b then [a] else [a, b]
  {
    assert [a, b] == [a] + [b];
    WithoutAppend([a], [b], x);
    WithoutOne(a, x);
    WithoutOne(b, x);
  }

  lemma {:induction false} LruGetsMembers(t: LruState, keys: seq<PoolKey>)
    requires Distinct(t.lru)
    ensures Distinct(LruGets(t, keys).lru) && KeySet(LruGets(t, keys).lru) == KeySet(t.lru)
    ensures |LruGets(t, keys).lru| == |t.lru|
  {
    if keys != [] {
      LruGetsMembers(t, keys[..|keys| - 1]);
      var s, key := LruGets(t, keys[..|keys| - 1]).lru, keys[|keys| - 1];
      if key in s {
        MoveToEndDistinct(s, key);
      }
    }
  }

  lemma {:induction false} PairMoved(a: PoolKey, b: PoolKey, x: PoolKey)
    requires a != b
    ensures Without([a, b], x) + (if x in {a, b} then [x] else []) == if x == a then [b, a] else [a, b]
  {
    WithoutPair(a, b, x);
  }

  lemma {:induction false} OneGetOrder(s: seq<PoolKey>, x: PoolKey, a: PoolKey, b: PoolKey)
    requires a != b && Keep(s, {a, b}) == [a, b]
    ensures Keep(LruGet(s, x), {a, b}) == if x == a then [b, a] else [a, b]
  {
    KeepMembers(s, {a, b});
    assert [a, b][0] == a && a in Keep(s, {a, b});
    hide Keep, Without, MoveToEnd;
    if x in s {
      KeepAfterTouch(s, x, {a, b});
      PairMoved(a, b, x);
    } else {
      assert x != a;
    }
  }

  /** The order of two listed keys after a get: the later one stays behind exactly when every get of
      the earlier one is followed by a get of the later. */
  lemma {:induction false} GetsOrder(t: LruState, keys: seq<PoolKey>, a: PoolKey, b: PoolKey)
    requires Distinct(t.lru) && a != b && Keep(t.lru, {a, b}) == [a, b]
    ensures Keep(LruGets(t, keys).lru, {a, b}) == if FollowedBy(keys, a, b) then [a, b] else [b, a]
  {
    if keys != [] {
      var front, x := keys[..|keys| - 1], keys[|keys| - 1];
      var s := LruGets(t, front).lru;
      assert keys == front + [x];
      GetsOrder(t, front, a, b);
      FollowedBySnoc(front, x, a, b);
      if FollowedBy(front, a, b) {
        OneGetOrder(s, x, a, b);
      } else {
        assert {a, b} == {b, a};
        OneGetOrder(s, x, b, a);
      }
    }
  }

  lemma {:induction false} KeepPair(pre: seq<PoolKey>, s: seq<PoolKey>, a: PoolKey, b: PoolKey)
    requires Distinct(pre + s) && a in pre && b in s
    ensures Keep(pre + s, {a, b}) == [a, b]
  {
    var whole := pre + s;
    assert Distinct(pre) by {
      forall i, j | 0 <= i < j < |pre| ensures pre[i] != pre[j] { assert whole[i] != whole[j]; }
    }
    assert Distinct(s) by {
      forall i, j | 0 <= i < j < |s| ensures s[i] != s[j] { assert whole[|pre| + i] != whole[|pre| + j]; }
    }
    forall i, j | 0 <= i < |pre| && 0 <= j < |s| ensures pre[i] != s[j] {
      assert whole[i] != whole[|pre| + j];
    }
    KeepSplit(pre, s, {a, b});
    KeepSame(pre, {a, b}, {a});
    KeepSame(s, {a, b}, {b});
    KeepOne(pre, a);
    KeepOne(s, b);
  }

  /** Every key of `big` outside `ks` comes before every one inside. */
  ghost predicate OutsideFirst(big: seq<PoolKey>, ks: set<PoolKey>) {
    forall i, j :: 0 <= i < j < |big| && big[i] in ks ==> big[j] in ks
  }

  lemma {:induction false} OutsideFirstTail(big: seq<PoolKey>, ks: set<PoolKey>)
    requires OutsideFirst(big, ks)
    ensures |Keep(big, ks)| <= |big| && big[|big| - |Keep(big, ks)|..] == Keep(big, ks)
  {
    if big != [] {
      var front, last := big[..|big| - 1], big[|big| - 1];
      OutsideFirstTail(front, ks);
      assert big == front + [last];
      if last !in ks {
        KeepSame(front, ks, {}) by {
          forall k | k in front ensures k !in ks {
            var i :| 0 <= i < |front| && front[i] == k;
            assert big[i] == k;
          }
        }
        KeepNone(front);
      }
    }
  }

  lemma {:induction false} PairsAreOutsideFirst(big: seq<PoolKey>, ks: set<PoolKey>)
    requires Distinct(big)
    requires forall a, b :: a in big && b in big && a !in ks && b in ks ==> Keep(big, {a, b}) == [a, b]
    ensures OutsideFirst(big, ks)
  {
    forall i, j | 0 <= i < j < |big|
      ensures Keep(big, {big[j], big[i]}) != [big[j], big[i]]
    {
      assert big == big[..j] + big[j..] && big[i] == big[..j][i] && big[j] == big[j..][0];
      KeepPair(big[..j], big[j..], big[i], big[j]);
      assert {big[j], big[i]} == {big[i], big[j]};
      assert [big[i], big[j]][0] != [big[j], big[i]][0];
    }
  }

  lemma {:induction false} SuffixIncluded(c: nat, d: nat, small: seq<PoolKey>, big: seq<PoolKey>)
                     returns (pre: seq<PoolKey>)
    requires Suffix(c, d, small, big)
    ensures big == pre + small && Included(c, small, big)
  {
    pre := big[..|big| - |small|];
    assert big == pre + small;
    KeepSplit(pre, small, KeySet(small));
    KeepAll(small, KeySet(small));
    KeepSame(pre, KeySet(small), {});
    KeepNone(pre);
  }

  lemma {:induction false} SuffixIffPairs(c: nat, d: nat, small: seq<PoolKey>, big: seq<PoolKey>)
    requires Included(c, small, big) && |big| <= d
    ensures Suffix(c, d, small, big)
            <==> forall a, b :: a in big && a !in small && b in small ==> Keep(big, {a, b}) == [a, b]
  {
    if Suffix(c, d, small, big) {
      var pre := SuffixIncluded(c, d, small, big);
      forall a, b | a in big && a !in small && b in small
        ensures Keep(big, {a, b}) == [a, b]
      {
        KeepPair(pre, small, a, b);
      }
    }
    if forall a, b :: a in big && a !in small && b in small ==> Keep(big, {a, b}) == [a, b] {
      PairsAreOutsideFirst(big, KeySet(small));
      OutsideFirstTail(big, KeySet(small));
    }
  }

  /** Every key got that only the larger memory holds is followed by gets of all the smaller one's keys. */
  ghost predicate Harmless(small: seq<PoolKey>, big: seq<PoolKey>, keys: seq<PoolKey>) {
    forall a, b :: a in keys && a in big && a !in small && b in small ==> FollowedBy(keys, a, b)
  }

  lemma {:induction false} NotGotFollowed(keys: seq<PoolKey>, a: PoolKey, b: PoolKey)
    requires a !in keys
    ensures FollowedBy(keys, a, b)
  {
  }

  lemma {:induction false} ListGetKeepsSuffix(c: nat, d: nat, s: LruState, t: LruState, keys: seq<PoolKey>)
    requires Suffix(c, d, s.lru, t.lru)
    ensures Suffix(c, d, LruGets(s, keys).lru, LruGets(t, keys).lru) <==> Harmless(s.lru, t.lru, keys)
  {
    var pre := SuffixIncluded(c, d, s.lru, t.lru);
    var small, big := LruGets(s, keys).lru, LruGets(t, keys).lru;
    assert Distinct(s.lru) && Distinct(t.lru) && |t.lru| <= d;
    LruGetsMembers(s, keys);
    LruGetsMembers(t, keys);
    LruGetsNested(c, d, s.(writes := 0), t.(writes := 0), keys);
    LruGetsWritesApart(s, keys);
    LruGetsWritesApart(t, keys);
    SuffixIffPairs(c, d, small, big);
    KeySetMembers(small, s.lru);
    KeySetMembers(big, t.lru);
    forall a, b | a in t.lru && a !in s.lru && b in s.lru
      ensures Keep(big, {a, b}) == [a, b] <==> FollowedBy(keys, a, b)
    {
      KeepPair(pre, s.lru, a, b);
      GetsOrder(t, keys, a, b);
      assert [a, b][0] != [b, a][0];
    }
    forall a, b | a !in keys ensures FollowedBy(keys, a, b) { NotGotFollowed(keys, a, b); }
  }

  lemma {:induction false} KeySetMembers(s: seq<PoolKey>, t: seq<PoolKey>)
    requires KeySet(s) == KeySet(t)
    ensures forall k :: k in s <==> k in t
  {
    assert forall k :: k in s <==> k in KeySet(s);
    assert forall k :: k in t <==> k in KeySet(t);
  }

  lemma {:induction false} LruGetsWritesApart(t: LruState, keys: seq<PoolKey>)
    ensures LruGets(t.(writes := 0), keys).lru == LruGets(t, keys).lru
  {
    if keys != [] {
      LruGetsWritesApart(t, keys[..|keys| - 1]);
    }
  }

  lemma {:induction false} AfterGet(cfg: Config, calls: seq<Call>, keys: seq<PoolKey>)
    requires Unbacked(cfg)
    ensures Run(cfg, calls).memoryLru == LruRun(cfg, calls).lru
    ensures Run(cfg, calls + [GetCall(keys)]).memoryLru == LruGets(LruRun(cfg, calls), keys).lru
  {
    RunTracks(cfg, calls);
    RunTracks(cfg, calls + [GetCall(keys)]);
    assert (calls + [GetCall(keys)])[..|calls|] == calls;
  }

  /** From a state in which the smaller order is the larger one's tail, a get leaves it so exactly
      when it is harmless. */
  lemma {:induction false} GetKeepsSuffixIff(small: Config, big: Config, calls: seq<Call>, keys: seq<PoolKey>)
    requires Sizes(small, big)
    requires Suffix(small.memoryCapacity, big.memoryCapacity,
                    Run(small, calls).memoryLru, Run(big, calls).memoryLru)
    ensures var after := calls + [GetCall(keys)];
            Suffix(small.memoryCapacity, big.memoryCapacity, Run(small, after).memoryLru, Run(big, after).memoryLru)
            <==> Harmless(Run(small, calls).memoryLru, Run(big, calls).memoryLru, keys)
  {
    hide Suffix, Harmless;
    AfterGet(small, calls, keys);
    AfterGet(big, calls, keys);
    ListGetKeepsSuffix(small.memoryCapacity, big.memoryCapacity, LruRun(small, calls), LruRun(big, calls), keys);
  }

  /** For a get of one key: it must be held by the smaller memory, or by neither, unless the smaller
      has no capacity at all. */
  lemma {:induction false} SingleGetHarmless(c: nat, d: nat, small: seq<PoolKey>, big: seq<PoolKey>, key: PoolKey)
    requires Suffix(c, d, small, big)
    ensures Harmless(small, big, [key]) <==> key in small || key !in big || c == 0
  {
    assert [key][0] == key && [key][1..] == [];
    if key !in small && key in big && c != 0 {
      var b := small[0];
      assert !FollowedBy([key], key, b);
    }
  }

  /** The shortest run in which the suffix is lost: a get refreshes a key that only the larger memory
      still holds. */
  lemma {:induction false} GetBreaksSuffix(small: Config, big: Config, a: PoolKey, b: PoolKey)
    requires Sizes(small, big) && small.memoryCapacity == 1 && big.memoryCapacity == 2 && small.admitAlways
    requires a != b
    ensures var calls := [PutCall([a]), PutCall([b]), GetCall([a])];
            !Suffix(1, 2, Run(small, calls).memoryLru, Run(big, calls).memoryLru)
  {
    var puts := [PutCall([a]), PutCall([b])];
    assert [PutCall([a]), PutCall([b]), GetCall([a])] == puts + [GetCall([a])];
    SmallerOrderIsSuffix(small, big, puts);
    RunTracks(small, puts);
    RunTracks(big, puts);
    TwoPuts(small, a, b);
    TwoPuts(big, a, b);
    assert [a, b][0] == a && [a][1..] == [] && [b][0] == b;
    GetKeepsSuffixIff(small, big, puts, [a]);
    SingleGetHarmless(1, 2, [b], [a, b], a);
  }

  lemma {:induction false} TwoPuts(cfg: Config, a: PoolKey, b: PoolKey)
    requires cfg.admitAlways && cfg.memoryCapacity >= 1 && a != b
    ensures LruRun(cfg, [PutCall([a]), PutCall([b])]).lru == if cfg.memoryCapacity == 1 then [b] else [a, b]
  {
    var first, puts := [PutCall([a])], [PutCall([a]), PutCall([b])];
    assert puts[..1] == first && first[..0] == [];
    assert [a][..0] == [] && [b][..0] == [] && [a][1..] == [];
    var c, t := cfg.memoryCapacity, LruState([], 0);
    OnePut(c, t, a);
    assert LruRun(cfg, []) == t;
    var t1 := LruRun(cfg, first);
    assert t1 == LruPuts(c, t, [a]);
    OnePut(c, t1, b);
    assert [] + [a] == [a] && [a] + [b] == [a, b] && [] + [b] == [b];
  }

  lemma {:induction false} OnePut(capacity: nat, t: LruState, key: PoolKey)
    ensures LruPuts(capacity, t, [key]).lru == LruPut(capacity, t.lru, key)
  {
    assert [key][..0] == [];
    assert LruPuts(capacity, t, []) == t;
  }
}

/** The offload (HBF) tier: an LRU of keys with block counts under a capacity. */
module OffloadTiers {
  import opened Containers
  import opened Keys

  /** What an operation reports. `evictedKeys` echoes the written key when the write is refused. */
  datatype Operation = Operation(blocks: nat, evictedKeys: seq<PoolKey>)

  /** `evictions` is a history variable: the number of keys LRU pressure has pushed out. */
  datatype Tier = Tier(held: map<PoolKey, nat>, lru: seq<PoolKey>, usedBlocks: int, evictions: nat)

  const EMPTY_TIER := Tier(map[], [], 0, 0)

  function SumHeld(held: map<PoolKey, nat>, keys: seq<PoolKey>): nat {
    if keys == [] then 0
    else (if keys[0] in held then held[keys[0]] else 0) + SumHeld(held, keys[1..])
  }

  /** The LRU order lists exactly the held keys, once each, and the used count is their sum. */
  ghost predicate ValidTier(t: Tier) {
    && Distinct(t.lru)
    && (forall k :: k in t.lru <==> k in t.held)
    && t.usedBlocks == SumHeld(t.held, t.lru)
  }

  // ----- the operations as functions

  function TierRead(t: Tier, key: PoolKey): (r: (Tier, Operation)) {
    (if key in t.lru then t.(lru := MoveToEnd(t.lru, key)) else t,
     Operation(if key in t.held then t.held[key] else 0, []))
  }

  function EvictLru(t: Tier): Tier
    requires t.lru != []
  {
    var key := t.lru[0];
    Tier(t.held - {key}, t.lru[1..], t.usedBlocks - (if key in t.held then t.held[key] else 0), t.evictions + 1)
  }

  function EvictUntilFits(t: Tier, capacity: nat, blocks: nat): (Tier, seq<PoolKey>)
    decreases |t.lru|
  {
    if t.usedBlocks + blocks > capacity && t.lru != [] then
      var (t', evicted) := EvictUntilFits(EvictLru(t), capacity, blocks);
      (t', [t.lru[0]] + evicted)
    else (t, [])
  }

  function RemoveExisting(t: Tier, key: PoolKey): Tier {
    t.(held := t.held - {key},
       lru := Without(t.lru, key),
       usedBlocks := t.usedBlocks - (if key in t.held then t.held[key] else 0))
  }

  function TierStore(t: Tier, key: PoolKey, blocks: nat): Tier {
    var t' := RemoveExisting(t, key);
    t'.(held := t'.held[key := blocks], lru := t'.lru + [key], usedBlocks := t'.usedBlocks + blocks)
  }

  function TierWrite(t: Tier, capacity: nat, unlimited: bool, key: PoolKey, blocks: nat): (Tier, Operation) {
    if unlimited then (TierStore(t, key, blocks), Operation(blocks, []))
    else if blocks > capacity then (t, Operation(0, [key]))
    else
      var (t', evicted) := EvictUntilFits(t, capacity, blocks);
      if t'.usedBlocks + blocks > capacity then (t', Operation(0, [key]))
      else (TierStore(t', key, blocks), Operation(blocks, evicted))
  }

  // ----- sums over the LRU order

  lemma {:induction false} SumHeldFrame(a: map<PoolKey, nat>, b: map<PoolKey, nat>, keys: seq<PoolKey>)
    requires forall k :: k in keys ==> (k in a <==> k in b) && (k in a ==> a[k] == b[k])
    ensures SumHeld(a, keys) == SumHeld(b, keys)
  {
    if keys != [] {
      assert keys[0] in keys;
      SumHeldFrame(a, b, keys[1..]);
    }
  }

  lemma {:induction false} SumHeldAppend(held: map<PoolKey, nat>, keys: seq<PoolKey>, key: PoolKey)
    ensures SumHeld(held, keys + [key]) == SumHeld(held, keys) + (if key in held then held[key] else 0)
  {
    if keys != [] {
      assert (keys + [key])[1..] == keys[1..] + [key];
      SumHeldAppend(held, keys[1..], key);
    } else {
      assert (keys + [key])[1..] == [];
    }
  }

  lemma {:induction false} SumHeldWithout(held: map<PoolKey, nat>, keys: seq<PoolKey>, key: PoolKey)
    requires Distinct(keys)
    ensures SumHeld(held, Without(keys, key))
         == SumHeld(held, keys) - (if key in keys && key in held then held[key] else 0)
  {
    if keys != [] {
      var rest := keys[1..];
      assert Distinct(rest) && keys[0] !in rest;
      SumHeldWithout(held, rest, key);
      if keys[0] != key {
        assert Without(keys, key)[1..] == Without(rest, key);
      }
    }
  }

  lemma {:induction false} SumHeldOnes(held: map<PoolKey, nat>, keys: seq<PoolKey>)
    requires forall k :: k in keys ==> k in held && held[k] == 1
    ensures SumHeld(held, keys) == |keys|
  {
    if keys != [] {
      assert keys[0] in keys;
      SumHeldOnes(held, keys[1..]);
    }
  }

  // ----- what the operations keep

  lemma {:induction false} ReadValid(t: Tier, key: PoolKey)
    requires ValidTier(t)
    ensures ValidTier(TierRead(t, key).0)
  {
    if key in t.lru {
      MoveToEndDistinct(t.lru, key);
      SumHeldWithout(t.held, t.lru, key);
      SumHeldAppend(t.held, Without(t.lru, key), key);
    }
  }

  lemma {:induction false} EvictLruValid(t: Tier)
    requires ValidTier(t) && t.lru != []
    ensures ValidTier(EvictLru(t))
  {
    SumHeldFrame(t.held, t.held - {t.lru[0]}, t.lru[1..]);
  }

  function KeySet(keys: seq<PoolKey>): set<PoolKey> {
    set k | k in keys
  }

  lemma {:induction false} KeySetCons(t: Tier, more: seq<PoolKey>)
    requires t.lru != []
    ensures t.held - KeySet([t.lru[0]] + more) == EvictLru(t).held - KeySet(more)
  {
    assert KeySet([t.lru[0]] + more) == {t.lru[0]} + KeySet(more);
    assert t.held - {t.lru[0]} - KeySet(more) == t.held - ({t.lru[0]} + KeySet(more));
  }

  /** Eviction removes a prefix of the LRU order, and stops when there is room or nothing is left. */
  lemma {:induction false} EvictUntilFitsPrefix(t: Tier, capacity: nat, blocks: nat)
    ensures var (t', evicted) := EvictUntilFits(t, capacity, blocks);
            && t.lru == evicted + t'.lru
            && t'.held == t.held - KeySet(evicted)
            && t'.evictions == t.evictions + |evicted|
            && (t'.usedBlocks + blocks <= capacity || t'.lru == [])
    decreases |t.lru|
  {
    if t.usedBlocks + blocks > capacity && t.lru != [] {
      var t1 := EvictLru(t);
      EvictUntilFitsPrefix(t1, capacity, blocks);
      var (t', more) := EvictUntilFits(t1, capacity, blocks);
      KeySetCons(t, more);
      assert t.lru == [t.lru[0]] + t1.lru;
    } else {
      assert t.held - KeySet([]) == t.held;
    }
  }

  lemma {:induction false} EvictUntilFitsValid(t: Tier, capacity: nat, blocks: nat)
    requires ValidTier(t)
    ensures ValidTier(EvictUntilFits(t, capacity, blocks).0)
    decreases |t.lru|
  {
    if t.usedBlocks + blocks > capacity && t.lru != [] {
      EvictLruValid(t);
      EvictUntilFitsValid(EvictLru(t), capacity, blocks);
    }
  }

  lemma {:induction false} SumHeldPastHead(t: Tier, more: seq<PoolKey>)
    requires ValidTier(t) && t.lru != [] && more <= t.lru[1..]
    ensures SumHeld(t.held, more) == SumHeld(EvictLru(t).held, more)
    ensures SumHeld(t.held, [t.lru[0]] + more)
         == SumHeld(EvictLru(t).held, more) + t.usedBlocks - EvictLru(t).usedBlocks
  {
    forall k | k in more ensures k in t.lru && k != t.lru[0] {
      var i :| 0 <= i < |more| && more[i] == k;
      assert t.lru[i + 1] == k;
    }
    SumHeldFrame(t.held, EvictLru(t).held, more);
    assert ([t.lru[0]] + more)[1..] == more;
  }

  /** No shorter prefix of the LRU order would have made room. */
  lemma {:induction false} EvictUntilFitsMinimal(t: Tier, capacity: nat, blocks: nat)
    requires ValidTier(t)
    ensures var (t', evicted) := EvictUntilFits(t, capacity, blocks);
            && t'.usedBlocks == t.usedBlocks - SumHeld(t.held, evicted)
            && (evicted != [] ==>
                t.usedBlocks - SumHeld(t.held, evicted[..|evicted| - 1]) + blocks > capacity)
    decreases |t.lru|
  {
    hide ValidTier, KeySet;
    if t.usedBlocks + blocks > capacity && t.lru != [] {
      var head, t1 := t.lru[0], EvictLru(t);
      EvictLruValid(t);
      EvictUntilFitsMinimal(t1, capacity, blocks);
      var (t', more) := EvictUntilFits(t1, capacity, blocks);
      assert more <= t1.lru by { EvictUntilFitsPrefix(t1, capacity, blocks); }
      SumHeldPastHead(t, more);
      if more != [] {
        SumHeldPastHead(t, more[..|more| - 1]);
        assert ([head] + more)[..|more|] == [head] + more[..|more| - 1];
      } else {
        assert ([head] + more)[..0] == [];
      }
    }
  }

  lemma {:induction false} RemoveThenSet(held: map<PoolKey, nat>, key: PoolKey, blocks: nat)
    ensures (held - {key})[key := blocks] == held[key := blocks]
  {
  }

  lemma {:induction false} RemoveExistingValid(t: Tier, key: PoolKey)
    requires ValidTier(t)
    ensures ValidTier(RemoveExisting(t, key))
  {
    WithoutDistinct(t.lru, key);
    SumHeldWithout(t.held, t.lru, key);
    SumHeldFrame(t.held, t.held - {key}, Without(t.lru, key));
  }

  lemma {:induction false} StoreValid(t: Tier, key: PoolKey, blocks: nat)
    requires ValidTier(t)
    ensures ValidTier(TierStore(t, key, blocks))
  {
    var t1 := RemoveExisting(t, key);
    RemoveExistingValid(t, key);
    var held := t1.held[key := blocks];
    SumHeldFrame(t1.held, held, t1.lru);
    SumHeldAppend(held, t1.lru, key);
  }

  lemma {:induction false} WriteMakesRoom(t: Tier, capacity: nat, blocks: nat)
    requires ValidTier(t) && blocks <= capacity
    ensures EvictUntilFits(t, capacity, blocks).0.usedBlocks + blocks <= capacity
  {
    EvictUntilFitsPrefix(t, capacity, blocks);
    EvictUntilFitsValid(t, capacity, blocks);
    var t1 := EvictUntilFits(t, capacity, blocks).0;
    if t1.lru == [] {
      assert SumHeld(t1.held, []) == 0;
    }
  }

  /** A write is refused exactly when the block count alone exceeds a finite capacity; otherwise
      the key is held, last in the order, and a key reported evicted has left the tier unless it
      is the written key. */
  lemma {:induction false} WriteContract(t: Tier, capacity: nat, unlimited: bool, key: PoolKey, blocks: nat)
    requires ValidTier(t)
    ensures var (t', op) := TierWrite(t, capacity, unlimited, key, blocks);
            if !unlimited && blocks > capacity
            then t' == t && op == Operation(0, [key])
            else && op.blocks == blocks
                 && op.evictedKeys <= t.lru
                 && t'.held == (t.held - KeySet(op.evictedKeys))[key := blocks]
                 && t'.lru == Without(t.lru[|op.evictedKeys|..], key) + [key]
                 && t'.evictions == t.evictions + |op.evictedKeys|
  {
    if unlimited {
      assert t.lru[0..] == t.lru;
      assert t.held - KeySet([]) == t.held;
      RemoveThenSet(t.held, key, blocks);
    } else if blocks <= capacity {
      WriteMakesRoom(t, capacity, blocks);
      var (t1, evicted) := EvictUntilFits(t, capacity, blocks);
      assert t.lru == evicted + t1.lru && t1.held == t.held - KeySet(evicted)
             && t1.evictions == t.evictions + |evicted| by {
        EvictUntilFitsPrefix(t, capacity, blocks);
      }
      assert t.lru[|evicted|..] == t1.lru;
      RemoveThenSet(t1.held, key, blocks);
    }
  }

  /** A write keeps the tier consistent, and a finite tier within its capacity. */
  lemma {:induction false} WriteValid(t: Tier, capacity: nat, unlimited: bool, key: PoolKey, blocks: nat)
    requires ValidTier(t) && (!unlimited ==> t.usedBlocks <= capacity)
    ensures var t' := TierWrite(t, capacity, unlimited, key, blocks).0;
            ValidTier(t') && (!unlimited ==> t'.usedBlocks <= capacity)
  {
    if unlimited {
      StoreValid(t, key, blocks);
    } else if blocks <= capacity {
      WriteMakesRoom(t, capacity, blocks);
      EvictUntilFitsValid(t, capacity, blocks);
      StoreValid(EvictUntilFits(t, capacity, blocks).0, key, blocks);
    }
  }

  // ----- a write that reports its own key

  /** The keys LRU pressure reaches before `key`. */
  function AheadOf(lru: seq<PoolKey>, key: PoolKey): (ahead: seq<PoolKey>)
    ensures ahead <= lru
  {
    if lru == [] || lru[0] == key then [] else [lru[0]] + AheadOf(lru[1..], key)
  }

  lemma {:induction false} EvictedIff(t: Tier, capacity: nat, blocks: nat, key: PoolKey)
    requires ValidTier(t)
    ensures key in EvictUntilFits(t, capacity, blocks).1
            <==> key in t.lru && t.usedBlocks - SumHeld(t.held, AheadOf(t.lru, key)) + blocks > capacity
    decreases |t.lru|
  {
    hide ValidTier;
    if t.usedBlocks + blocks > capacity && t.lru != [] {
      EvictLruValid(t);
      EvictedIff(EvictLru(t), capacity, blocks, key);
      if t.lru[0] != key {
        SumHeldPastHead(t, AheadOf(t.lru[1..], key));
      }
    }
  }

  /** A write that is not refused reports its own key exactly when the key is held and evicting all
      keys ahead of it would not make room; the key is stored all the same. */
  lemma {:induction false} WriteReportsItselfIff(t: Tier, capacity: nat, unlimited: bool, key: PoolKey, blocks: nat)
    requires ValidTier(t) && (unlimited || blocks <= capacity)
    ensures var (t', op) := TierWrite(t, capacity, unlimited, key, blocks);
            && key in t'.held
            && (key in op.evictedKeys
                <==> && !unlimited && key in t.held
                     && t.usedBlocks - SumHeld(t.held, AheadOf(t.lru, key)) + blocks > capacity)
  {
    WriteContract(t, capacity, unlimited, key, blocks);
    if !unlimited {
      WriteMakesRoom(t, capacity, blocks);
      EvictedIff(t, capacity, blocks, key);
    }
  }

  /** Where every key is one block, as in the store: exactly when the tier is full and the key its
      least recent. */
  lemma {:induction false} OneBlockWriteReportsItselfIff(t: Tier, capacity: nat, key: PoolKey)
    requires ValidTier(t) && (forall k :: k in t.held ==> t.held[k] == 1) && 1 <= capacity
    requires t.usedBlocks <= capacity
    ensures key in TierWrite(t, capacity, false, key, 1).1.evictedKeys
            <==> t.lru != [] && t.lru[0] == key && t.usedBlocks == capacity
  {
    WriteReportsItselfIff(t, capacity, false, key, 1);
    var ahead := AheadOf(t.lru, key);
    SumHeldOnes(t.held, ahead);
    if key in t.lru {
      assert (ahead == []) == (t.lru[0] == key);
    }
  }

  /** The smallest such tier. */
  lemma {:induction false} RewriteCanReportItself(key: PoolKey)
    ensures var full := Tier(map[key := 1], [key], 1, 0);
            && ValidTier(full)
            && TierWrite(full, 1, false, key, 1).1 == Operation(1, [key])
            && key in TierWrite(full, 1, false, key, 1).0.held
  {
    var full := Tier(map[key := 1], [key], 1, 0);
    assert SumHeld(full.held, full.lru) == 1 by { assert full.lru[1..] == []; }
    WriteContract(full, 1, false, key, 1);
    OneBlockWriteReportsItselfIff(full, 1, key);
  }

  // ----- the tier as an object

  class OffloadTier {
    const capacityBlocks: nat
    const unlimited: bool
    var blocks: map<PoolKey, nat>
    var lru: seq<PoolKey>
    var usedBlocks: int
    ghost var evictions: nat

    ghost function View(): Tier
      reads this
    {
      Tier(blocks, lru, usedBlocks, evictions)
    }

    constructor (capacityBlocks: nat, unlimited: bool)
      ensures View() == EMPTY_TIER
      ensures this.capacityBlocks == capacityBlocks && this.unlimited == unlimited
    {
      this.capacityBlocks, this.unlimited := capacityBlocks, unlimited;
      blocks, lru, usedBlocks, evictions := map[], [], 0, 0;
    }

    predicate Contains(key: PoolKey)
      reads this
    {
      key in blocks
    }

    method Read(key: PoolKey) returns (op: Operation)
      modifies this
      ensures (View(), op) == TierRead(old(View()), key)
      ensures blocks == old(blocks) && usedBlocks == old(usedBlocks) && op.evictedKeys == []
      ensures op.blocks == if key in blocks then blocks[key] else 0
      ensures key in old(lru) ==> lru != [] && lru[|lru| - 1] == key
      ensures Without(lru, key) == Without(old(lru), key)
      ensures old(ValidTier(View())) ==> ValidTier(View())
    {
      MoveToEndOthers(lru, key);
      if ValidTier(View()) {
        ReadValid(View(), key);
      }
      var found := if key in blocks then blocks[key] else 0;
      if key in lru {
        lru := MoveToEnd(lru, key);
      }
      op := Operation(found, []);
    }

    method EvictOldest() returns (key: PoolKey)
      requires lru != []
      modifies this
      ensures key == old(lru[0]) && View() == EvictLru(old(View()))
      ensures old(lru) == [key] + lru && key !in blocks
      ensures forall k :: k != key ==>
                (k in blocks <==> k in old(blocks)) && (k in blocks ==> blocks[k] == old(blocks)[k])
      ensures old(ValidTier(View())) ==> ValidTier(View())
    {
      if ValidTier(View()) {
        EvictLruValid(View());
      }
      key := lru[0];
      lru := lru[1..];
      usedBlocks := usedBlocks - (if key in blocks then blocks[key] else 0);
      blocks := blocks - {key};
      evictions := evictions + 1;
    }

    method StoreKey(key: PoolKey, count: nat)
      modifies this
      ensures View() == TierStore(old(View()), key, count)
      ensures usedBlocks - old(usedBlocks) == count - (if key in old(blocks) then old(blocks)[key] else 0)
      ensures key in blocks && blocks[key] == count
      ensures forall k :: k != key ==>
                (k in blocks <==> k in old(blocks)) && (k in blocks ==> blocks[k] == old(blocks)[k])
      ensures lru != [] && lru[|lru| - 1] == key && Without(lru, key) == Without(old(lru), key)
      ensures old(ValidTier(View())) ==> ValidTier(View())
    {
      MoveToEndOthers(lru, key);
      if ValidTier(View()) {
        StoreValid(View(), key, count);
      }
      usedBlocks := usedBlocks - (if key in blocks then blocks[key] else 0);
      blocks := blocks - {key};
      lru := Without(lru, key);
      blocks := blocks[key := count];
      usedBlocks := usedBlocks + count;
      lru := lru + [key];
    }

    /** The source raises a ConfigurationError when the capacity is not positive. */
    method Write(key: PoolKey, count: nat) returns (op: Operation)
      requires capacityBlocks >= 1
      modifies this
      ensures (View(), op) == TierWrite(old(View()), capacityBlocks, unlimited, key, count)
    {
      if unlimited {
        StoreKey(key, count);
        return Operation(count, []);
      }
      if count > capacityBlocks {
        return Operation(0, [key]);
      }
      var evicted := [];
      ghost var goal := EvictUntilFits(View(), capacityBlocks, count);
      assert evicted + goal.1 == goal.1;
      while usedBlocks + count > capacityBlocks && lru != []
        invariant var (t, rest) := EvictUntilFits(View(), capacityBlocks, count);
                  goal == (t, evicted + rest)
        decreases |lru|
      {
        ghost var before := EvictUntilFits(View(), capacityBlocks, count);
        ghost var sofar := evicted;
        var victim := EvictOldest();
        evicted := evicted + [victim];
        ghost var (t, rest) := EvictUntilFits(View(), capacityBlocks, count);
        assert before == (t, [victim] + rest);
        assert sofar + ([victim] + rest) == evicted + rest;
      }
      assert evicted + [] == evicted;
      if usedBlocks + count > capacityBlocks {
        return Operation(0, [key]);
      }
      StoreKey(key, count);
      op := Operation(count, evicted);
    }
  }
}

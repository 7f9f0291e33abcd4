/** The block manager as the object the simulator updates in place. Pool, allocator, prefix index
    and block table, which the source splits over objects owned one by another, are the fields of
    one class here, and a block's metadata is a record in its table of blocks; every method moves
    its view exactly as the state machine of BlockModel says. */
module BlockManagers {
  import opened Containers
  import opened Keys
  import opened FreeQueues
  import opened BlockPools
  import opened BlockModel
  import opened BlockInvariants

  class BlockManager {
    const numBlocks: nat
    const watermark: nat
    const freeBlocks: FreeBlockQueue
    var nextFresh: nat
    var blocks: map<nat, Block>
    var cache: map<PrefixCacheKey, nat>
    var accessCounter: nat
    var tables: map<nat, seq<nat>>
    var claims: map<nat, Claim>
    var reserved: seq<nat>
    ghost var trace: seq<Event>

    ghost function View(): Gpu
      reads this, freeBlocks
    {
      Gpu(Pool(numBlocks, nextFresh, freeBlocks.View()), blocks, cache, accessCounter, tables, claims, reserved, trace)
    }

    ghost predicate Valid()
      reads this, freeBlocks, freeBlocks.repr
    {
      freeBlocks.Valid() && nextFresh <= numBlocks
    }

    constructor (numBlocks: nat, watermark: nat)
      ensures Valid() && fresh(freeBlocks) && fresh(freeBlocks.repr)
      ensures View() == NewGpu(numBlocks) && this.watermark == watermark
    {
      this.numBlocks, this.watermark := numBlocks, watermark;
      freeBlocks := new FreeBlockQueue();
      nextFresh, blocks, cache, accessCounter := 0, map[], map[], 0;
      tables, claims, reserved, trace := map[], map[], [], [];
    }

    // ----- one block

    function MetaOf(b: nat): Block
      reads this`blocks
    {
      if b in blocks then blocks[b] else NEW_BLOCK
    }

    method GetNumFreeBlocks() returns (n: int)
      requires Valid()
      ensures n == FreeCount(View().pool) && (n > 0 <==> HasFree(View().pool))
    {
      freeBlocks.CountExact();
      n := numBlocks - nextFresh + |freeBlocks.entries|;
    }

    method TouchBlock(b: nat)
      modifies this`accessCounter, this`blocks
      ensures View() == Touch(old(View()), b) && MetaOf(b) == old(MetaOf(b)).(lastAccessed := accessCounter)
    {
      accessCounter := accessCounter + 1;
      blocks := blocks[b := MetaOf(b).(lastAccessed := accessCounter)];
    }

    method Reference(b: nat)
      modifies this`blocks
      ensures View() == AddRef(old(View()), b)
    {
      blocks := blocks[b := MetaOf(b).(refCount := MetaOf(b).refCount + 1)];
    }

    method EvictFromCache(b: nat, why: Reason)
      modifies this`cache, this`trace, this`blocks
      ensures View() == EvictBlock(old(View()), b, why)
      ensures trace == old(trace) + [Evicted(old(MetaOf(b)).hash, why)]
      ensures MetaOf(b).refCount == old(MetaOf(b)).refCount && !MetaOf(b).cached && MetaOf(b).hash.None?
      ensures forall k :: k in cache ==>
                k in old(cache) && cache[k] == old(cache)[k] && (cache[k] == b ==> old(MetaOf(b)).hash != Some(k))
      ensures forall k :: k in old(cache) && k !in cache ==> old(cache)[k] == b && old(MetaOf(b)).hash == Some(k)
    {
      var block := MetaOf(b);
      trace := trace + [Evicted(block.hash, why)];
      if block.hash.Some? && block.hash.value in cache && cache[block.hash.value] == b {
        cache := cache - {block.hash.value};
      }
      blocks := blocks[b := block.(hash := None, isFull := false, cached := false, lastAccessed := 0)];
    }

    method PopFreeBlock() returns (b: nat)
      requires Valid() && HasFree(View().pool)
      modifies this`nextFresh, this`blocks, freeBlocks, freeBlocks.repr
      ensures Valid() && freeBlocks.repr == old(freeBlocks.repr) && (b, View()) == TakeFree(old(View()))
    {
      hide FreeBlockQueue.Valid, FreeBlockQueue.View, PopFront;
      if nextFresh < numBlocks {
        b := nextFresh;
        blocks := blocks[b := NEW_BLOCK];
        nextFresh := nextFresh + 1;
      } else {
        b := freeBlocks.PopLeft();
      }
    }

    /** False is the source's OutOfBlocksError. That a popped block still has references, the
        other error raised here, never happens in a reachable state. */
    method AllocateBlock() returns (ok: bool, b: nat)
      requires Valid()
      modifies this, freeBlocks, freeBlocks.repr
      ensures Valid() && freeBlocks.repr == old(freeBlocks.repr) && ok == HasFree(old(View()).pool)
      ensures if ok then (b, View()) == AllocBlock(old(View())) else View() == old(View())
    {
      hide FreeBlockQueue.Valid, FreeBlockQueue.View, HasFree, TakeFree, EvictBlock, AddRef;
      var free := GetNumFreeBlocks();
      if free <= 0 {
        return false, 0;
      }
      b := PopFreeBlock();
      if MetaOf(b).cached {
        EvictFromCache(b, Capacity);
      }
      Reference(b);
      return true, b;
    }

    method Acquire(b: nat)
      requires Valid()
      modifies this`accessCounter, this`blocks, freeBlocks, freeBlocks.repr
      ensures Valid() && freeBlocks.repr == old(freeBlocks.repr) && View() == AcquireBlock(old(View()), b)
    {
      hide FreeBlockQueue.Valid, FreeBlockQueue.View, Dequeue;
      if MetaOf(b).refCount == 0 {
        freeBlocks.Invalidate(b);
      }
      Reference(b);
      TouchBlock(b);
    }

    /** The source raises when the block has no references; the tables never hold such a block. */
    method ReleaseBlock(b: nat)
      requires Valid()
      modifies this`blocks, freeBlocks, freeBlocks.repr
      ensures Valid() && fresh(freeBlocks.repr - old(freeBlocks.repr)) && View() == FreeBlock(old(View()), b)
    {
      hide FreeBlockQueue.Valid, FreeBlockQueue.View, Enqueue, EnqueueCached, IsQueued;
      var block := MetaOf(b).(refCount := MetaOf(b).refCount - 1);
      blocks := blocks[b := block];
      if block.refCount == 0 {
        if !block.cached {
          blocks := blocks[b := block.(hash := None, isFull := false, cached := false, lastAccessed := 0)];
          freeBlocks.AppendUnique(b);
        } else {
          freeBlocks.AppendCached(b, block.lastAccessed);
        }
      }
    }

    method RegisterBlock(b: nat, key: PrefixCacheKey)
      modifies this`blocks, this`cache, this`accessCounter, this`trace
      ensures View() == RegisterOne(old(View()), b, key)
      ensures key in cache && cache[key] == b
      ensures MetaOf(b).hash == Some(key) && MetaOf(b).cached && MetaOf(b).isFull
      ensures MetaOf(b).refCount == old(MetaOf(b)).refCount
      ensures forall k :: k != key && k in cache ==> k in old(cache) && cache[k] == old(cache)[k]
      ensures forall k :: k in old(cache) && k !in cache ==> old(cache)[k] == b && old(MetaOf(b)).hash == Some(k)
    {
      hide EvictBlock, Touch;
      if MetaOf(b).hash.Some? && MetaOf(b).hash != Some(key) {
        EvictFromCache(b, Rekey);
      }
      blocks := blocks[b := MetaOf(b).(hash := Some(key), isFull := true, cached := true)];
      cache := cache[key := b];
      TouchBlock(b);
      trace := trace + [Registered(key)];
    }

    method MarkPending(b: nat, key: PrefixCacheKey)
      modifies this`blocks
      ensures View() == MarkOne(old(View()), b, key)
    {
      blocks := blocks[b := MetaOf(b).(hash := Some(key), isFull := true, cached := false)];
    }

    // ----- planning

    predicate GpuHit(key: PrefixCacheKey)
      reads this`blocks, this`cache
    {
      key in cache && MetaOf(cache[key]).cached && MetaOf(cache[key]).isFull
    }

    /** The blocks of the longest prefix of hits. */
    method PlanReuse(keys: seq<PrefixCacheKey>) returns (hits: seq<nat>)
      ensures hits == Hits(View(), keys)
    {
      hits := [];
      while |hits| < |keys| && GpuHit(keys[|hits|])
        invariant |hits| <= |keys|
        invariant forall i :: 0 <= i < |hits| ==> IsHit(View(), keys[i]) && hits[i] == cache[keys[i]]
      {
        hits := hits + [cache[keys[|hits|]]];
      }
      HitsAre(View(), keys, hits);
    }

    method CountZeroRefs(hits: seq<nat>) returns (n: nat)
      ensures n == ZeroRefs(View(), hits)
    {
      n := 0;
      for i := 0 to |hits|
        invariant n == ZeroRefs(View(), hits[..i])
      {
        assert hits[..i + 1][..i] == hits[..i];
        if MetaOf(hits[i]).refCount == 0 {
          n := n + 1;
        }
      }
      assert hits[..|hits|] == hits;
    }

    method CanAllocateFor(ask: Ask) returns (ok: bool)
      requires Valid()
      ensures ok == CanAllocate(View(), ask, watermark)
    {
      var hits := PlanReuse(ask.keys);
      var zero := CountZeroRefs(hits);
      var free := GetNumFreeBlocks();
      ok := free - zero - (ask.logical - |hits|) >= watermark;
    }

    // ----- allocate

    method AcquireBlocks(bs: seq<nat>)
      requires Valid()
      modifies this, freeBlocks, freeBlocks.repr
      ensures Valid() && freeBlocks.repr == old(freeBlocks.repr) && View() == AcquireAll(old(View()), bs)
    {
      hide View, Valid, AcquireBlock;
      for i := 0 to |bs|
        invariant Valid() && freeBlocks.repr == old(freeBlocks.repr) && View() == AcquireAll(old(View()), bs[..i])
      {
        assert bs[..i + 1][..i] == bs[..i];
        Acquire(bs[i]);
      }
      assert bs[..|bs|] == bs;
    }

    method AllocateBlocks(n: nat) returns (ok: bool, bs: seq<nat>)
      requires Valid()
      modifies this, freeBlocks, freeBlocks.repr
      ensures Valid() && freeBlocks.repr == old(freeBlocks.repr) && (ok, bs, View()) == AllocMany(old(View()), n)
    {
      hide View, Valid, AllocBlock, HasFree;
      ok, bs := true, [];
      var i := 0;
      while i < n && ok
        invariant i <= n && Valid() && freeBlocks.repr == old(freeBlocks.repr)
        invariant (ok, bs, View()) == AllocMany(old(View()), i)
      {
        var b;
        ok, b := AllocateBlock();
        if ok {
          bs := bs + [b];
        }
        i := i + 1;
      }
      AllocStuck(old(View()), i, n);
    }

    method MarkBlocks(bs: seq<nat>, keys: seq<PrefixCacheKey>)
      requires |bs| == |keys|
      modifies this`blocks
      ensures View() == MarkAll(old(View()), bs, keys)
    {
      hide MarkOne;
      for i := 0 to |bs|
        invariant View() == MarkAll(old(View()), bs[..i], keys[..i])
      {
        assert bs[..i + 1][..i] == bs[..i] && keys[..i + 1][..i] == keys[..i];
        MarkPending(bs[i], keys[i]);
      }
      assert bs[..|bs|] == bs && keys[..|keys|] == keys;
    }

    method AddBlocks(id: nat, bs: seq<nat>)
      modifies this`tables
      ensures View() == SetTable(old(View()), id, TableOf(old(View()), id) + bs)
    {
      tables := tables[id := (if id in tables then tables[id] else []) + bs];
    }

    method Allocate(ask: Ask) returns (ok: bool)
      requires Valid()
      modifies this, freeBlocks, freeBlocks.repr
      ensures Valid() && freeBlocks.repr == old(freeBlocks.repr) && (ok, View()) == AllocateAsk(old(View()), ask)
    {
      hide FreeBlockQueue.Valid, FreeBlockQueue.View, Hits, AcquireAll, AllocMany, MarkAll, SetTable;
      var hits := PlanReuse(ask.keys);
      claims := claims[ask.id := Claim(ask.keys, false)];
      assert Valid() && View() == SetClaim(old(View()), ask.id, Claim(ask.keys, false));
      hide View, Valid;
      AcquireBlocks(hits);
      var more;
      ok, more := AllocateBlocks(if |hits| <= ask.logical then ask.logical - |hits| else 0);
      if !ok {
        return;
      }
      var bs := hits + more;
      AddBlocks(ask.id, bs);
      var n := if |ask.keys| <= |bs| then |ask.keys| else |bs|;
      if n > |hits| {
        MarkBlocks(bs[|hits|..n], ask.keys[|hits|..n]);
      }
    }

    method CanAppendSlot(id: nat, logical: nat) returns (ok: bool)
      requires Valid()
      ensures ok == CanAppend(View(), id, logical)
    {
      var free := GetNumFreeBlocks();
      var row := if id in tables then tables[id] else [];
      ok := free >= if |row| < logical then 1 else 0;
    }

    method AppendBlock(id: nat, logical: nat) returns (ok: bool)
      requires Valid()
      modifies this, freeBlocks, freeBlocks.repr
      ensures Valid() && freeBlocks.repr == old(freeBlocks.repr) && (ok, View()) == AppendSlot(old(View()), id, logical)
    {
      hide FreeBlockQueue.Valid, FreeBlockQueue.View, AllocBlock, HasFree, SetTable;
      var row := if id in tables then tables[id] else [];
      if |row| >= logical {
        return true;
      }
      var b;
      ok, b := AllocateBlock();
      if ok {
        AddBlocks(id, [b]);
      }
    }

    // ----- commit and release

    method RegisterBlocks(bs: seq<nat>, keys: seq<PrefixCacheKey>)
      requires |bs| == |keys|
      modifies this`blocks, this`cache, this`accessCounter, this`trace
      ensures View() == RegisterAll(old(View()), bs, keys)
    {
      hide RegisterOne;
      for i := 0 to |bs|
        invariant View() == RegisterAll(old(View()), bs[..i], keys[..i])
      {
        assert bs[..i + 1][..i] == bs[..i] && keys[..i + 1][..i] == keys[..i];
        RegisterBlock(bs[i], keys[i]);
      }
      assert bs[..|bs|] == bs && keys[..|keys|] == keys;
    }

    method CommitInputCache(id: nat)
      modifies this`blocks, this`cache, this`accessCounter, this`trace, this`claims
      ensures View() == CommitInput(old(View()), id)
    {
      hide RegisterAll;
      var claim := if id in claims then claims[id] else Claim([], false);
      if claim.committed {
        return;
      }
      var row := if id in tables then tables[id] else [];
      var n := if |claim.keys| <= |row| then |claim.keys| else |row|;
      RegisterBlocks(row[..n], claim.keys[..n]);
      claims := claims[id := claim.(committed := true)];
    }

    method RegisterOutputBlocks(id: nat, start: nat, keys: seq<PrefixCacheKey>)
      modifies this`blocks, this`cache, this`accessCounter, this`trace
      ensures View() == RegisterOutput(old(View()), id, start, keys)
    {
      hide RegisterAll;
      var row := if id in tables then tables[id] else [];
      var end := if start + |keys| <= |row| then start + |keys| else |row|;
      if start >= end {
        return;
      }
      RegisterBlocks(row[start..end], keys[..end - start]);
    }

    method ReleaseBlocks(bs: seq<nat>)
      requires Valid()
      modifies this`blocks, freeBlocks, freeBlocks.repr
      ensures Valid() && fresh(freeBlocks.repr - old(freeBlocks.repr)) && View() == FreeAll(old(View()), bs)
    {
      hide View, Valid, FreeBlock;
      for i := 0 to |bs|
        invariant Valid() && fresh(freeBlocks.repr - old(freeBlocks.repr)) && View() == FreeAll(old(View()), bs[..i])
      {
        assert bs[..i + 1][..i] == bs[..i];
        ReleaseBlock(bs[i]);
      }
      assert bs[..|bs|] == bs;
    }

    method ReleaseRequestBlocks(id: nat)
      requires Valid()
      modifies this`tables, this`blocks, freeBlocks, freeBlocks.repr
      ensures Valid() && fresh(freeBlocks.repr - old(freeBlocks.repr)) && View() == Release(old(View()), id)
    {
      hide FreeBlockQueue.Valid, FreeBlockQueue.View, FreeAll;
      var row := if id in tables then tables[id] else [];
      tables := tables - {id};
      ReleaseBlocks(row);
    }

    method FreeRequest(id: nat, outputStart: nat, outputKeys: seq<PrefixCacheKey>)
      requires Valid()
      modifies this, freeBlocks, freeBlocks.repr
      ensures Valid() && fresh(freeBlocks.repr - old(freeBlocks.repr))
      ensures View() == Finish(old(View()), id, outputStart, outputKeys)
    {
      hide View, CommitInput, RegisterOutput, Release;
      CommitInputCache(id);
      RegisterOutputBlocks(id, outputStart, outputKeys);
      ReleaseRequestBlocks(id);
    }

    // ----- reserved blocks

    method ReserveGpuBlocks(n: nat) returns (ok: bool)
      requires Valid()
      modifies this, freeBlocks, freeBlocks.repr
      ensures Valid() && fresh(freeBlocks.repr - old(freeBlocks.repr)) && (ok, View()) == Reserve(old(View()), n)
    {
      hide FreeBlockQueue.Valid, FreeBlockQueue.View, AllocMany, FreeAll;
      var bs;
      ok, bs := AllocateBlocks(n);
      if ok {
        reserved := reserved + bs;
      } else {
        ReleaseBlocks(bs);
      }
    }

    method ReleaseReservedBlocks(n: nat) returns (ok: bool)
      requires Valid()
      modifies this, freeBlocks, freeBlocks.repr
      ensures Valid() && fresh(freeBlocks.repr - old(freeBlocks.repr)) && (ok, View()) == ReleaseReserved(old(View()), n)
    {
      hide FreeBlockQueue.Valid, FreeBlockQueue.View, FreeAll;
      if n > |reserved| {
        return false;
      }
      var bs := reserved[..n];
      reserved := reserved[n..];
      ReleaseBlocks(bs);
      return true;
    }
  }

  lemma {:induction false} HitsAre(g: Gpu, keys: seq<PrefixCacheKey>, hits: seq<nat>)
    requires |hits| <= |keys| && (|hits| < |keys| ==> !IsHit(g, keys[|hits|]))
    requires forall i :: 0 <= i < |hits| ==> IsHit(g, keys[i]) && hits[i] == g.cache[keys[i]]
    ensures hits == Hits(g, keys)
  {
    if hits != [] {
      HitsAre(g, keys[1..], hits[1..]);
    }
  }

  /** Once the pool has run out, asking for more blocks changes nothing. */
  lemma {:induction false} AllocStuck(g: Gpu, i: nat, n: nat)
    requires i <= n && (i < n ==> !AllocMany(g, i).0)
    ensures AllocMany(g, n) == AllocMany(g, i)
  {
    hide AllocBlock, HasFree;
    if i < n {
      AllocStuck(g, i, n - 1);
    }
  }
}

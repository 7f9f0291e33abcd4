/** The paged block manager as a state machine: reference-counted GPU blocks, the lazily
    materialised pool and its free queue, the prefix-cache index, and the request tables. */
module BlockModel {
  import opened Containers
  import opened Keys
  import opened FreeQueues
  import opened BlockPools

  datatype Block = Block(refCount: int, hash: Option<PrefixCacheKey>, isFull: bool, cached: bool, lastAccessed: nat)

  const NEW_BLOCK := Block(0, None, false, false, 0)

  datatype Reason = Capacity | Rekey

  /** What the prefix cache tells its two observers. */
  datatype Event = Registered(key: PrefixCacheKey) | Evicted(lost: Option<PrefixCacheKey>, why: Reason)

  /** A request's input keys as of its last allocation, and whether they have been registered. */
  datatype Claim = Claim(keys: seq<PrefixCacheKey>, committed: bool)

  datatype Gpu = Gpu(
    pool: Pool,
    blocks: map<nat, Block>,              // materialised blocks
    cache: map<PrefixCacheKey, nat>,      // the prefix index
    clock: nat,                           // access counter
    tables: map<nat, seq<nat>>,           // request to blocks
    claims: map<nat, Claim>,
    reserved: seq<nat>,
    trace: seq<Event>)                    // history of observer calls

  function NewGpu(numBlocks: nat): Gpu {
    Gpu(Pool(numBlocks, 0, NO_LANES), map[], map[], 0, map[], map[], [], [])
  }

  function BlockAt(g: Gpu, b: nat): Block {
    if b in g.blocks then g.blocks[b] else NEW_BLOCK
  }

  function TableOf(g: Gpu, id: nat): seq<nat> {
    if id in g.tables then g.tables[id] else []
  }

  function ClaimOf(g: Gpu, id: nat): Claim {
    if id in g.claims then g.claims[id] else Claim([], false)
  }

  // ----- one block at a time

  function SetBlock(g: Gpu, b: nat, block: Block): Gpu {
    g.(blocks := g.blocks[b := block])
  }

  function Touch(g: Gpu, b: nat): Gpu {
    SetBlock(g.(clock := g.clock + 1), b, BlockAt(g, b).(lastAccessed := g.clock + 1))
  }

  function ClearMetadata(block: Block): Block {
    Block(block.refCount, None, false, false, 0)
  }

  /** Drops a block from the prefix index; the observer hears of it first, key included. */
  function EvictBlock(g: Gpu, b: nat, why: Reason): Gpu {
    var block := BlockAt(g, b);
    var g' := SetBlock(g, b, ClearMetadata(block));
    g'.(trace := g.trace + [Evicted(block.hash, why)],
        cache := if block.hash.Some? && block.hash.value in g.cache && g.cache[block.hash.value] == b
                 then g.cache - {block.hash.value} else g.cache)
  }

  function TakeFree(g: Gpu): (nat, Gpu)
    requires HasFree(g.pool)
  {
    var (b, pool) := PopFree(g.pool);
    (b, g.(pool := pool, blocks := if g.pool.nextFresh < g.pool.numBlocks then g.blocks[b := NEW_BLOCK] else g.blocks))
  }

  function AddRef(g: Gpu, b: nat): Gpu {
    SetBlock(g, b, BlockAt(g, b).(refCount := BlockAt(g, b).refCount + 1))
  }

  function AllocBlock(g: Gpu): (nat, Gpu)
    requires HasFree(g.pool)
  {
    var (b, g1) := TakeFree(g);
    (b, AddRef(if BlockAt(g1, b).cached then EvictBlock(g1, b, Capacity) else g1, b))
  }

  function AcquireBlock(g: Gpu, b: nat): Gpu {
    var g1 := if BlockAt(g, b).refCount == 0 then g.(pool := g.pool.(lanes := Dequeue(g.pool.lanes, b))) else g;
    Touch(AddRef(g1, b), b)
  }

  function FreeBlock(g: Gpu, b: nat): Gpu {
    var block := BlockAt(g, b).(refCount := BlockAt(g, b).refCount - 1);
    if block.refCount != 0 then SetBlock(g, b, block)
    else if !block.cached then
      SetBlock(g, b, ClearMetadata(block)).(pool := g.pool.(lanes := EnqueueUnique(g.pool.lanes, b)))
    else SetBlock(g, b, block).(pool := g.pool.(lanes := EnqueueCached(g.pool.lanes, block.lastAccessed, b)))
  }

  function RegisterOne(g: Gpu, b: nat, key: PrefixCacheKey): Gpu {
    var g1 := if BlockAt(g, b).hash.Some? && BlockAt(g, b).hash != Some(key) then EvictBlock(g, b, Rekey) else g;
    var g2 := SetBlock(g1, b, BlockAt(g1, b).(hash := Some(key), isFull := true, cached := true));
    var g3 := Touch(g2.(cache := g2.cache[key := b]), b);
    g3.(trace := g3.trace + [Registered(key)])
  }

  function MarkOne(g: Gpu, b: nat, key: PrefixCacheKey): Gpu {
    SetBlock(g, b, BlockAt(g, b).(hash := Some(key), isFull := true, cached := false))
  }

  // ----- lists of blocks

  function AcquireAll(g: Gpu, bs: seq<nat>): Gpu {
    if bs == [] then g else AcquireBlock(AcquireAll(g, bs[..|bs| - 1]), bs[|bs| - 1])
  }

  /** Allocates up to n blocks; false when the pool ran out on the way. */
  function AllocMany(g: Gpu, n: nat): (bool, seq<nat>, Gpu) {
    if n == 0 then (true, [], g)
    else
      var (ok, bs, g1) := AllocMany(g, n - 1);
      if !ok || !HasFree(g1.pool) then (false, bs, g1)
      else (true, bs + [AllocBlock(g1).0], AllocBlock(g1).1)
  }

  function FreeAll(g: Gpu, bs: seq<nat>): Gpu {
    if bs == [] then g else FreeBlock(FreeAll(g, bs[..|bs| - 1]), bs[|bs| - 1])
  }

  function RegisterAll(g: Gpu, bs: seq<nat>, keys: seq<PrefixCacheKey>): Gpu
    requires |bs| == |keys|
  {
    if bs == [] then g
    else RegisterOne(RegisterAll(g, bs[..|bs| - 1], keys[..|bs| - 1]), bs[|bs| - 1], keys[|bs| - 1])
  }

  function MarkAll(g: Gpu, bs: seq<nat>, keys: seq<PrefixCacheKey>): Gpu
    requires |bs| == |keys|
  {
    if bs == [] then g
    else MarkOne(MarkAll(g, bs[..|bs| - 1], keys[..|bs| - 1]), bs[|bs| - 1], keys[|bs| - 1])
  }

  // ----- planning reuse

  predicate IsHit(g: Gpu, key: PrefixCacheKey) {
    key in g.cache && BlockAt(g, g.cache[key]).cached && BlockAt(g, g.cache[key]).isFull
  }

  /** The blocks of the longest prefix of hits. */
  function Hits(g: Gpu, keys: seq<PrefixCacheKey>): (hits: seq<nat>)
    ensures |hits| <= |keys|
    ensures forall i :: 0 <= i < |hits| ==> IsHit(g, keys[i]) && hits[i] == g.cache[keys[i]]
    ensures |hits| < |keys| ==> !IsHit(g, keys[|hits|])
  {
    if keys == [] || !IsHit(g, keys[0]) then []
    else
      var rest := Hits(g, keys[1..]);
      assert forall i :: 1 <= i < |rest| + 1 ==> keys[i] == keys[1..][i - 1];
      [g.cache[keys[0]]] + rest
  }

  function ZeroRefs(g: Gpu, bs: seq<nat>): nat {
    if bs == [] then 0
    else ZeroRefs(g, bs[..|bs| - 1]) + (if BlockAt(g, bs[|bs| - 1]).refCount == 0 then 1 else 0)
  }

  /** What a request wants: its input keys, and blocks for all its tokens. */
  datatype Ask = Ask(id: nat, keys: seq<PrefixCacheKey>, logical: nat)

  function Misses(g: Gpu, ask: Ask): int {
    ask.logical - |Hits(g, ask.keys)|
  }

  /** Zero-reference hits still sit in the free queue, so they are not room for misses. */
  predicate CanAllocate(g: Gpu, ask: Ask, watermark: nat) {
    FreeCount(g.pool) - ZeroRefs(g, Hits(g, ask.keys)) - Misses(g, ask) >= watermark
  }

  // ----- the manager's operations

  function SetTable(g: Gpu, id: nat, bs: seq<nat>): Gpu {
    g.(tables := g.tables[id := bs])
  }

  function SetClaim(g: Gpu, id: nat, claim: Claim): Gpu {
    g.(claims := g.claims[id := claim])
  }

  function AskLength(ask: Ask, blocks: seq<nat>): nat {
    if |ask.keys| <= |blocks| then |ask.keys| else |blocks|
  }

  /** Hits are acquired before any miss is allocated. False when the pool ran out. */
  function AllocateAsk(g: Gpu, ask: Ask): (bool, Gpu) {
    var hits := Hits(g, ask.keys);
    var g1 := AcquireAll(SetClaim(g, ask.id, Claim(ask.keys, false)), hits);
    var (ok, more, g2) := AllocMany(g1, if |hits| <= ask.logical then ask.logical - |hits| else 0);
    if !ok then (false, g2)
    else
      var blocks := hits + more;
      var g3 := SetTable(g2, ask.id, TableOf(g2, ask.id) + blocks);
      var n := AskLength(ask, blocks);
      if n <= |hits| then (true, g3) else (true, MarkAll(g3, blocks[|hits|..n], ask.keys[|hits|..n]))
  }

  predicate CanAppend(g: Gpu, id: nat, logical: nat) {
    FreeCount(g.pool) >= if |TableOf(g, id)| < logical then 1 else 0
  }

  function AppendSlot(g: Gpu, id: nat, logical: nat): (bool, Gpu) {
    if |TableOf(g, id)| >= logical then (true, g)
    else if !HasFree(g.pool) then (false, g)
    else
      var (b, g1) := AllocBlock(g);
      (true, SetTable(g1, id, TableOf(g1, id) + [b]))
  }

  function CommitInput(g: Gpu, id: nat): Gpu {
    var claim, table := ClaimOf(g, id), TableOf(g, id);
    if claim.committed then g
    else
      var n := if |claim.keys| <= |table| then |claim.keys| else |table|;
      SetClaim(RegisterAll(g, table[..n], claim.keys[..n]), id, claim.(committed := true))
  }

  function RegisterOutput(g: Gpu, id: nat, start: nat, keys: seq<PrefixCacheKey>): Gpu {
    var table := TableOf(g, id);
    var end := if start + |keys| <= |table| then start + |keys| else |table|;
    if start >= end then g else RegisterAll(g, table[start..end], keys[..end - start])
  }

  function Release(g: Gpu, id: nat): Gpu {
    FreeAll(g.(tables := g.tables - {id}), TableOf(g, id))
  }

  function Finish(g: Gpu, id: nat, outputStart: nat, outputKeys: seq<PrefixCacheKey>): Gpu {
    Release(RegisterOutput(CommitInput(g, id), id, outputStart, outputKeys), id)
  }

  /** All n blocks or none. */
  function Reserve(g: Gpu, n: nat): (bool, Gpu) {
    var (ok, bs, g1) := AllocMany(g, n);
    if ok then (true, g1.(reserved := g1.reserved + bs)) else (false, FreeAll(g1, bs))
  }

  /** The source raises when fewer than n blocks are reserved. */
  function ReleaseReserved(g: Gpu, n: nat): (bool, Gpu) {
    if n > |g.reserved| then (false, g)
    else (true, FreeAll(g.(reserved := g.reserved[n..]), g.reserved[..n]))
  }

  // ----- runs

  /** The calls a scheduler makes. Only a request without a table asks for one, only one with a
      table grows or finishes, and output keys start behind the input keys. */
  datatype GpuCall =
    | AdmitCall(ask: Ask)
    | AppendCall(id: nat, logical: nat)
    | CommitCall(id: nat)
    | FinishCall(id: nat, outputStart: nat, outputKeys: seq<PrefixCacheKey>)
    | ReleaseCall(id: nat)
    | ReserveCall(n: nat)
    | ReleaseReservedCall(n: nat)

  predicate Sensible(g: Gpu, call: GpuCall) {
    match call
    case AdmitCall(ask) => ask.id !in g.tables && |ask.keys| <= ask.logical
    case AppendCall(id, _) => id in g.tables
    case CommitCall(id) => id in g.tables
    case FinishCall(id, start, _) => id in g.tables && |ClaimOf(g, id).keys| <= start
    case ReleaseCall(id) => true
    case ReserveCall(n) => true
    case ReleaseReservedCall(n) => true
  }

  function GpuStep(g: Gpu, watermark: nat, call: GpuCall): Gpu {
    if !Sensible(g, call) then g else
    match call
    case AdmitCall(ask) => if CanAllocate(g, ask, watermark) then AllocateAsk(g, ask).1 else g
    case AppendCall(id, logical) => AppendSlot(g, id, logical).1
    case CommitCall(id) => CommitInput(g, id)
    case FinishCall(id, start, keys) => Finish(g, id, start, keys)
    case ReleaseCall(id) => Release(g, id)
    case ReserveCall(n) => Reserve(g, n).1
    case ReleaseReservedCall(n) => ReleaseReserved(g, n).1
  }

  function GpuRun(numBlocks: nat, watermark: nat, calls: seq<GpuCall>): Gpu {
    if calls == [] then NewGpu(numBlocks)
    else GpuStep(GpuRun(numBlocks, watermark, calls[..|calls| - 1]), watermark, calls[|calls| - 1])
  }
}

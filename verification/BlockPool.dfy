/** The lazily materialised block pool, and why nobody can tell it from an eager one. */
module BlockPools {
  import opened Containers
  import opened FreeQueues

  /** Ids from `nextFresh` up have never been handed out and exist only as this counter. */
  datatype Pool = Pool(numBlocks: nat, nextFresh: nat, lanes: Lanes)

  function FreeCount(p: Pool): int {
    p.numBlocks - p.nextFresh + Size(p.lanes)
  }

  predicate HasFree(p: Pool) {
    p.nextFresh < p.numBlocks || p.lanes != NO_LANES
  }

  function PopFree(p: Pool): (nat, Pool)
    requires HasFree(p)
  {
    if p.nextFresh < p.numBlocks then (p.nextFresh, p.(nextFresh := p.nextFresh + 1))
    else (PopFront(p.lanes).0, p.(lanes := PopFront(p.lanes).1))
  }

  // ----- lazy against eager, on every sequence of operations

  /** What a pool's clients do: take a free block, reuse a queued one, give one back. */
  datatype PoolCall = Allocate | Acquire(block: nat) | Free(block: nat) | FreeCached(block: nat, stamp: nat)

  /** The pool's reply: a block, or nothing because it is exhausted or does not own the block. */
  function LazyStep(p: Pool, call: PoolCall): (Pool, Option<nat>) {
    match call
    case Allocate => if HasFree(p) then (PopFree(p).1, Some(PopFree(p).0)) else (p, None)
    case Acquire(b) => if b < p.nextFresh then (p.(lanes := Dequeue(p.lanes, b)), Some(b)) else (p, None)
    case Free(b) => if b < p.nextFresh then (p.(lanes := EnqueueUnique(p.lanes, b)), Some(b)) else (p, None)
    case FreeCached(b, stamp) =>
      if b < p.nextFresh then (p.(lanes := EnqueueCached(p.lanes, stamp, b)), Some(b)) else (p, None)
  }

  /** A pool that queues every id from the start, in ascending order; `handed` are the ids
      somebody has received, which are the only ones that can come back. */
  datatype Eager = Eager(lanes: Lanes, handed: set<nat>)

  function Range(lo: nat, hi: nat): (r: seq<nat>)
    requires lo <= hi
    ensures |r| == hi - lo && forall i :: 0 <= i < |r| ==> r[i] == lo + i
  {
    seq(hi - lo, i requires 0 <= i < hi - lo => lo + i)
  }

  function EagerStep(e: Eager, call: PoolCall): (Eager, Option<nat>) {
    match call
    case Allocate =>
      if e.lanes == NO_LANES then (e, None)
      else (Eager(PopFront(e.lanes).1, e.handed + {PopFront(e.lanes).0}), Some(PopFront(e.lanes).0))
    case Acquire(b) => if b in e.handed then (e.(lanes := Dequeue(e.lanes, b)), Some(b)) else (e, None)
    case Free(b) => if b in e.handed then (e.(lanes := EnqueueUnique(e.lanes, b)), Some(b)) else (e, None)
    case FreeCached(b, stamp) =>
      if b in e.handed then (e.(lanes := EnqueueCached(e.lanes, stamp, b)), Some(b)) else (e, None)
  }

  function LazyRun(n: nat, calls: seq<PoolCall>): (Pool, seq<Option<nat>>) {
    if calls == [] then (Pool(n, 0, NO_LANES), [])
    else
      var (p, replies) := LazyRun(n, calls[..|calls| - 1]);
      var (p', reply) := LazyStep(p, calls[|calls| - 1]);
      (p', replies + [reply])
  }

  function EagerRun(n: nat, calls: seq<PoolCall>): (Eager, seq<Option<nat>>) {
    if calls == [] then (Eager(Lanes(Range(0, n), []), {}), [])
    else
      var (e, replies) := EagerRun(n, calls[..|calls| - 1]);
      var (e', reply) := EagerStep(e, calls[|calls| - 1]);
      (e', replies + [reply])
  }

  /** Both lanes list only ids handed out before. */
  ghost predicate Seasoned(p: Pool) {
    && p.nextFresh <= p.numBlocks
    && (forall b :: b in p.lanes.fifo ==> b < p.nextFresh)
    && (forall i :: 0 <= i < |p.lanes.cached| ==> p.lanes.cached[i].block < p.nextFresh)
  }

  /** The eager queue is the lazy one behind the ids still to be materialised. */
  ghost predicate Mirrors(p: Pool, e: Eager) {
    && Seasoned(p)
    && e.lanes == Lanes(Range(p.nextFresh, p.numBlocks) + p.lanes.fifo, p.lanes.cached)
    && (forall b: nat :: b in e.handed <==> b < p.nextFresh)
  }

  lemma {:induction false} WithoutAbsent(s: seq<nat>, t: seq<nat>, x: nat)
    requires x !in s
    ensures Without(s + t, x) == s + Without(t, x)
  {
    WithoutAppend(s, t, x);
  }

  lemma {:induction false} DropRankedMembers(s: seq<Ranked>, b: nat)
    ensures forall i :: 0 <= i < |DropRanked(s, b)| ==> DropRanked(s, b)[i] in s
  {
    if s != [] {
      DropRankedMembers(s[1..], b);
    }
  }

  lemma {:induction false} InsertRankedMembers(s: seq<Ranked>, r: Ranked)
    ensures forall i :: 0 <= i < |InsertRanked(s, r)| ==> InsertRanked(s, r)[i] == r || InsertRanked(s, r)[i] in s
  {
    if !(s == [] || r.stamp < s[0].stamp) {
      InsertRankedMembers(s[1..], r);
    }
  }

  lemma {:induction false} QueuedMirror(p: Pool, e: Eager, b: nat)
    requires Mirrors(p, e) && b < p.nextFresh
    ensures IsQueued(e.lanes, b) <==> IsQueued(p.lanes, b)
    ensures Dequeue(e.lanes, b) == Lanes(Range(p.nextFresh, p.numBlocks) + Dequeue(p.lanes, b).fifo,
                                         Dequeue(p.lanes, b).cached)
  {
    WithoutAbsent(Range(p.nextFresh, p.numBlocks), p.lanes.fifo, b);
  }

  lemma {:induction false} PopSeasoned(p: Pool)
    requires Seasoned(p) && HasFree(p)
    ensures Seasoned(PopFree(p).1) && PopFree(p).0 < PopFree(p).1.nextFresh
    ensures p.nextFresh == p.numBlocks ==> PopFree(p).0 < p.nextFresh
  {
    var q := p.lanes;
    if q.fifo != [] {
      assert q.fifo[0] in q.fifo;
      assert forall b :: b in q.fifo[1..] ==> b in q.fifo;
    } else if q.cached != [] {
      assert q.cached[0].block < p.nextFresh;
    }
  }

  lemma {:induction false} AllocateMirrors(p: Pool, e: Eager)
    requires Mirrors(p, e)
    ensures Mirrors(LazyStep(p, Allocate).0, EagerStep(e, Allocate).0)
    ensures LazyStep(p, Allocate).1 == EagerStep(e, Allocate).1
  {
    var pending := Range(p.nextFresh, p.numBlocks);
    if p.nextFresh < p.numBlocks {
      PopSeasoned(p);
      assert pending == [p.nextFresh] + Range(p.nextFresh + 1, p.numBlocks);
      assert (pending + p.lanes.fifo)[1..] == Range(p.nextFresh + 1, p.numBlocks) + p.lanes.fifo;
    } else {
      assert forall s: seq<nat> :: pending + s == s;
      if HasFree(p) {
        PopSeasoned(p);
        hide Seasoned;
        assert EagerStep(e, Allocate).0.lanes == PopFree(p).1.lanes;
      }
    }
  }

  lemma {:induction false} DequeueSeasoned(p: Pool, b: nat)
    requires Seasoned(p)
    ensures Seasoned(p.(lanes := Dequeue(p.lanes, b)))
  {
    DropRankedMembers(p.lanes.cached, b);
  }

  lemma {:induction false} StepMirrors(p: Pool, e: Eager, call: PoolCall)
    requires Mirrors(p, e)
    ensures Mirrors(LazyStep(p, call).0, EagerStep(e, call).0) && LazyStep(p, call).1 == EagerStep(e, call).1
  {
    if call.Allocate? {
      AllocateMirrors(p, e);
    } else if call.block < p.nextFresh {
      var b, pending := call.block, Range(p.nextFresh, p.numBlocks);
      QueuedMirror(p, e, b);
      DequeueSeasoned(p, b);
      var q := Dequeue(p.lanes, b);
      hide Dequeue, IsQueued, DropRanked;
      match call
      case Acquire(_) =>
      case Free(_) =>
        assert (pending + q.fifo) + [b] == pending + (q.fifo + [b]);
      case FreeCached(_, stamp) =>
        InsertRankedMembers(q.cached, Ranked(stamp, b));
    }
  }

  /** For every call sequence the lazy pool gives the same replies as the eager one, and its free
      count is the length of the eager queue. */
  lemma {:induction false} LazyRefinesEager(n: nat, calls: seq<PoolCall>)
    ensures LazyRun(n, calls).1 == EagerRun(n, calls).1
    ensures Mirrors(LazyRun(n, calls).0, EagerRun(n, calls).0)
    ensures FreeCount(LazyRun(n, calls).0) == Size(EagerRun(n, calls).0.lanes)
  {
    if calls != [] {
      var front, last := calls[..|calls| - 1], calls[|calls| - 1];
      LazyRefinesEager(n, front);
      StepMirrors(LazyRun(n, front).0, EagerRun(n, front).0, last);
    } else {
      assert Range(0, n) + [] == Range(0, n);
    }
    LazySize(n, calls);
    var p := LazyRun(n, calls).0;
    assert |Range(p.nextFresh, p.numBlocks)| == p.numBlocks - p.nextFresh;
  }

  lemma {:induction false} LazySize(n: nat, calls: seq<PoolCall>)
    ensures LazyRun(n, calls).0.numBlocks == n
  {
    if calls != [] {
      LazySize(n, calls[..|calls| - 1]);
    }
  }

  // ----- the cached lane is in access order

  ghost predicate StampsAscend(s: seq<Ranked>) {
    forall i, j :: 0 <= i < j < |s| ==> s[i].stamp <= s[j].stamp
  }

  lemma {:induction false} DropRankedAscends(s: seq<Ranked>, b: nat)
    requires StampsAscend(s)
    ensures StampsAscend(DropRanked(s, b))
  {
    if s != [] {
      DropRankedAscends(s[1..], b);
      DropRankedMembers(s[1..], b);
      var kept := DropRanked(s[1..], b);
      forall i | 0 <= i < |kept| ensures s[0].stamp <= kept[i].stamp {
        var j :| 0 <= j < |s[1..]| && s[1..][j] == kept[i];
        assert s[j + 1] == kept[i];
      }
    }
  }

  lemma {:induction false} InsertRankedAscends(s: seq<Ranked>, r: Ranked)
    requires StampsAscend(s)
    ensures StampsAscend(InsertRanked(s, r))
  {
    if !(s == [] || r.stamp < s[0].stamp) {
      InsertRankedAscends(s[1..], r);
      InsertRankedMembers(s[1..], r);
      var more := InsertRanked(s[1..], r);
      forall i | 0 <= i < |more| ensures s[0].stamp <= more[i].stamp {
        if more[i] != r {
          var j :| 0 <= j < |s[1..]| && s[1..][j] == more[i];
          assert s[j + 1] == more[i];
        }
      }
    }
  }

  /** In every reachable pool the cached lane is sorted by access stamp, so the block evicted
      first is the one accessed longest ago. */
  lemma {:induction false} CachedLaneSorted(n: nat, calls: seq<PoolCall>)
    ensures StampsAscend(LazyRun(n, calls).0.lanes.cached)
  {
    if calls != [] {
      var front, last := calls[..|calls| - 1], calls[|calls| - 1];
      CachedLaneSorted(n, front);
      var p := LazyRun(n, front).0;
      match last
      case Allocate =>
      case Acquire(b) => DropRankedAscends(p.lanes.cached, b);
      case Free(b) => DropRankedAscends(p.lanes.cached, b);
      case FreeCached(b, stamp) =>
        DropRankedAscends(p.lanes.cached, b);
        InsertRankedAscends(Dequeue(p.lanes, b).cached, Ranked(stamp, b));
    }
  }
}

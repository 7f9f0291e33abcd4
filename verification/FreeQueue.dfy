/** The free-block queue: a deque and a heap with lazily deleted entries, against the plain
    two-lane list it stands for. */
module FreeQueues {
  import opened Containers

  // ----- the two-lane list

  datatype Ranked = Ranked(stamp: nat, block: nat)

  /** Uncached blocks first in, first out; then cached blocks, least recently accessed first. */
  datatype Lanes = Lanes(fifo: seq<nat>, cached: seq<Ranked>)

  const NO_LANES := Lanes([], [])

  predicate IsQueued(q: Lanes, block: nat) {
    block in q.fifo || exists i :: 0 <= i < |q.cached| && q.cached[i].block == block
  }

  function Size(q: Lanes): nat {
    |q.fifo| + |q.cached|
  }

  function DropRanked(s: seq<Ranked>, block: nat): seq<Ranked> {
    if s == [] then []
    else (if s[0].block == block then [] else [s[0]]) + DropRanked(s[1..], block)
  }

  /** Behind every entry with the same or an earlier stamp. */
  function InsertRanked(s: seq<Ranked>, r: Ranked): seq<Ranked> {
    if s == [] || r.stamp < s[0].stamp then [r] + s else [s[0]] + InsertRanked(s[1..], r)
  }

  function Dequeue(q: Lanes, block: nat): Lanes {
    Lanes(Without(q.fifo, block), DropRanked(q.cached, block))
  }

  function Enqueue(q: Lanes, block: nat): Lanes {
    var q' := Dequeue(q, block);
    q'.(fifo := q'.fifo + [block])
  }

  function EnqueueUnique(q: Lanes, block: nat): Lanes {
    if IsQueued(q, block) then q else Enqueue(q, block)
  }

  function EnqueueCached(q: Lanes, stamp: nat, block: nat): Lanes {
    var q' := Dequeue(q, block);
    q'.(cached := InsertRanked(q'.cached, Ranked(stamp, block)))
  }

  function PopFront(q: Lanes): (nat, Lanes)
    requires q != NO_LANES
  {
    if q.fifo != [] then (q.fifo[0], q.(fifo := q.fifo[1..]))
    else (q.cached[0].block, q.(cached := q.cached[1..]))
  }

  // ----- the queue as an object

  class Entry {
    const block: nat
    var valid: bool

    constructor (block: nat)
      ensures this.block == block && valid
    {
      this.block, valid := block, true;
    }
  }

  /** What the heap orders: stamp first, then insertion number. */
  datatype HeapItem = HeapItem(stamp: nat, seqNo: nat, entry: Entry)

  predicate Before(a: HeapItem, b: HeapItem) {
    a.stamp < b.stamp || (a.stamp == b.stamp && a.seqNo < b.seqNo)
  }

  type Registry = map<nat, Entry>

  /** An entry counts exactly while its block number is registered under it. */
  ghost predicate IsLive(entries: Registry, e: Entry) {
    e.block in entries && entries[e.block] == e
  }

  ghost function LiveBlocks(fifo: seq<Entry>, entries: Registry): seq<nat> {
    if fifo == [] then []
    else (if IsLive(entries, fifo[0]) then [fifo[0].block] else []) + LiveBlocks(fifo[1..], entries)
  }

  ghost function RankedOf(order: seq<HeapItem>): (r: seq<Ranked>)
    ensures |r| == |order|
  {
    seq(|order|, i requires 0 <= i < |order| => Ranked(order[i].stamp, order[i].entry.block))
  }

  ghost predicate Ascending(order: seq<HeapItem>) {
    forall i, j :: 0 <= i < j < |order| ==> Before(order[i], order[j])
  }

  /** `order` lists the heap items whose entry is live, smallest first. */
  ghost predicate Sorts(order: seq<HeapItem>, heap: seq<HeapItem>, entries: Registry) {
    && Ascending(order)
    && (forall i :: 0 <= i < |order| ==> order[i] in heap && IsLive(entries, order[i].entry))
    && (forall i :: 0 <= i < |heap| && IsLive(entries, heap[i].entry) ==> heap[i] in order)
  }

  ghost predicate HeapOk(heap: seq<HeapItem>, lastSeq: nat) {
    && (forall i :: 0 <= i < |heap| ==> heap[i].seqNo <= lastSeq)
    && (forall i, j :: 0 <= i < j < |heap| ==> heap[i].seqNo != heap[j].seqNo && heap[i].entry != heap[j].entry)
  }

  /** A registered entry carries its own number, and every entry sits in one lane at most. */
  ghost predicate LanesOk(entries: Registry, fifo: seq<Entry>, heap: seq<HeapItem>) {
    && (forall b :: b in entries ==> entries[b].block == b)
    && (forall b :: b in entries ==> entries[b] in fifo || exists i :: 0 <= i < |heap| && heap[i].entry == entries[b])
    && (forall i :: 0 <= i < |heap| ==> heap[i].entry !in fifo)
    && Distinct(fifo)
  }

  ghost predicate QueueOk(entries: Registry, fifo: seq<Entry>, heap: seq<HeapItem>, order: seq<HeapItem>,
                          lastSeq: nat) {
    LanesOk(entries, fifo, heap) && HeapOk(heap, lastSeq) && Sorts(order, heap, entries)
  }

  ghost function LanesOf(entries: Registry, fifo: seq<Entry>, order: seq<HeapItem>): Lanes {
    Lanes(LiveBlocks(fifo, entries), RankedOf(order))
  }

  // ----- the deque lane

  lemma {:induction false} LiveMember(fifo: seq<Entry>, entries: Registry, b: nat)
    requires forall n :: n in entries ==> entries[n].block == n
    ensures b in LiveBlocks(fifo, entries) <==> b in entries && entries[b] in fifo
  {
    if fifo != [] {
      LiveMember(fifo[1..], entries, b);
      assert fifo == [fifo[0]] + fifo[1..];
    }
  }

  lemma {:induction false} LiveDrop(fifo: seq<Entry>, entries: Registry, b: nat)
    ensures LiveBlocks(fifo, entries - {b}) == Without(LiveBlocks(fifo, entries), b)
  {
    if fifo != [] {
      LiveDrop(fifo[1..], entries, b);
      assert IsLive(entries - {b}, fifo[0]) <==> IsLive(entries, fifo[0]) && fifo[0].block != b;
      WithoutAppend(if IsLive(entries, fifo[0]) then [fifo[0].block] else [], LiveBlocks(fifo[1..], entries), b);
    }
  }

  lemma {:induction false} LiveRegister(fifo: seq<Entry>, entries: Registry, e: Entry)
    requires e !in fifo && e.block !in entries
    ensures LiveBlocks(fifo, entries[e.block := e]) == LiveBlocks(fifo, entries)
  {
    if fifo != [] {
      assert fifo[0] in fifo;
      LiveRegister(fifo[1..], entries, e);
    }
  }

  lemma {:induction false} LiveCons(e: Entry, rest: seq<Entry>, entries: Registry)
    ensures LiveBlocks([e] + rest, entries)
         == (if IsLive(entries, e) then [e.block] else []) + LiveBlocks(rest, entries)
  {
    var all := [e] + rest;
    assert all[0] == e && all[1..] == rest;
  }

  lemma {:induction false} LiveAppend(fifo: seq<Entry>, entries: Registry, e: Entry)
    ensures LiveBlocks(fifo + [e], entries)
         == LiveBlocks(fifo, entries) + (if IsLive(entries, e) then [e.block] else [])
  {
    if fifo == [] {
      assert fifo + [e] == [e] + [] && LiveBlocks([], entries) == [];
      hide LiveBlocks, IsLive;
      LiveCons(e, [], entries);
    } else {
      hide LiveBlocks, IsLive;
      var head, rest := fifo[0], fifo[1..];
      assert fifo == [head] + rest && fifo + [e] == [head] + (rest + [e]);
      LiveAppend(rest, entries, e);
      LiveCons(head, rest, entries);
      LiveCons(head, rest + [e], entries);
    }
  }

  // ----- the heap lane

  ghost function DropItems(order: seq<HeapItem>, b: nat): seq<HeapItem> {
    if order == [] then []
    else (if order[0].entry.block == b then [] else [order[0]]) + DropItems(order[1..], b)
  }

  ghost function InsertItem(order: seq<HeapItem>, item: HeapItem): seq<HeapItem> {
    if order == [] || item.stamp < order[0].stamp then [item] + order
    else [order[0]] + InsertItem(order[1..], item)
  }

  lemma {:induction false} RankedCons(item: HeapItem, order: seq<HeapItem>)
    ensures RankedOf([item] + order) == [Ranked(item.stamp, item.entry.block)] + RankedOf(order)
  {
  }

  lemma {:induction false} DropItemsRanked(order: seq<HeapItem>, b: nat)
    ensures RankedOf(DropItems(order, b)) == DropRanked(RankedOf(order), b)
  {
    if order != [] {
      DropItemsRanked(order[1..], b);
      assert RankedOf(order)[1..] == RankedOf(order[1..]);
      if order[0].entry.block != b {
        RankedCons(order[0], DropItems(order[1..], b));
      }
    }
  }

  lemma {:induction false} InsertItemRanked(order: seq<HeapItem>, item: HeapItem)
    ensures RankedOf(InsertItem(order, item)) == InsertRanked(RankedOf(order), Ranked(item.stamp, item.entry.block))
  {
    if order == [] || item.stamp < order[0].stamp {
      RankedCons(item, order);
    } else {
      InsertItemRanked(order[1..], item);
      RankedCons(order[0], InsertItem(order[1..], item));
      assert RankedOf(order)[1..] == RankedOf(order[1..]);
    }
  }

  lemma {:induction false} DropItemsMembers(order: seq<HeapItem>, b: nat)
    ensures forall i :: 0 <= i < |DropItems(order, b)| ==>
              DropItems(order, b)[i] in order && DropItems(order, b)[i].entry.block != b
    ensures forall i :: 0 <= i < |order| && order[i].entry.block != b ==> order[i] in DropItems(order, b)
    ensures Ascending(order) ==> Ascending(DropItems(order, b))
  {
    if order != [] {
      var rest, kept := order[1..], DropItems(order[1..], b);
      DropItemsMembers(rest, b);
      assert order == [order[0]] + rest;
      forall i | 0 <= i < |order| && order[i].entry.block != b ensures order[i] in DropItems(order, b) {
        if i > 0 {
          assert rest[i - 1] == order[i];
        }
      }
      if Ascending(order) {
        assert Ascending(rest) by {
          assert forall i :: 0 <= i < |rest| ==> rest[i] == order[i + 1];
        }
        forall i | 0 <= i < |kept| ensures Before(order[0], kept[i]) {
          var j :| 0 <= j < |rest| && rest[j] == kept[i];
          assert order[j + 1] == kept[i];
        }
      }
    }
  }

  lemma {:induction false} InsertItemMembers(order: seq<HeapItem>, item: HeapItem)
    ensures forall i :: 0 <= i < |InsertItem(order, item)| ==>
              InsertItem(order, item)[i] in order || InsertItem(order, item)[i] == item
    ensures forall i :: 0 <= i < |order| ==> order[i] in InsertItem(order, item)
    ensures item in InsertItem(order, item)
  {
    if !(order == [] || item.stamp < order[0].stamp) {
      var rest := order[1..];
      InsertItemMembers(rest, item);
      assert order == [order[0]] + rest;
      forall i | 0 <= i < |order| ensures order[i] in InsertItem(order, item) {
        if i > 0 {
          assert rest[i - 1] == order[i];
        }
      }
    }
  }

  lemma {:induction false} AscendingCons(first: HeapItem, more: seq<HeapItem>)
    requires Ascending(more) && forall i :: 0 <= i < |more| ==> Before(first, more[i])
    ensures Ascending([first] + more)
  {
    var all := [first] + more;
    assert forall i :: 0 < i < |all| ==> all[i] == more[i - 1];
  }

  lemma {:induction false} InsertItemAscending(order: seq<HeapItem>, item: HeapItem)
    requires Ascending(order) && forall i :: 0 <= i < |order| ==> order[i].seqNo < item.seqNo
    ensures Ascending(InsertItem(order, item))
  {
    if order == [] || item.stamp < order[0].stamp {
      AscendingCons(item, order);
    } else {
      var rest, more := order[1..], InsertItem(order[1..], item);
      assert forall i :: 0 <= i < |rest| ==> rest[i] == order[i + 1];
      InsertItemAscending(rest, item);
      InsertItemMembers(rest, item);
      forall i | 0 <= i < |more| ensures Before(order[0], more[i]) {
        if more[i] != item {
          var j :| 0 <= j < |rest| && rest[j] == more[i];
          assert order[j + 1] == more[i];
        }
      }
      AscendingCons(order[0], more);
    }
  }

  // ----- the table of registered entries

  lemma {:induction false} InvalidateKeeps(entries: Registry, fifo: seq<Entry>, heap: seq<HeapItem>,
                                           order: seq<HeapItem>, lastSeq: nat, b: nat)
    requires QueueOk(entries, fifo, heap, order, lastSeq)
    ensures QueueOk(entries - {b}, fifo, heap, DropItems(order, b), lastSeq)
    ensures LanesOf(entries - {b}, fifo, DropItems(order, b)) == Dequeue(LanesOf(entries, fifo, order), b)
  {
    LiveDrop(fifo, entries, b);
    DropItemsRanked(order, b);
    DropItemsMembers(order, b);
    hide DropItems, Ascending, LiveBlocks, RankedOf;
    assert forall e :: IsLive(entries - {b}, e) <==> IsLive(entries, e) && e.block != b;
  }

  lemma {:induction false} AppendKeeps(entries: Registry, fifo: seq<Entry>, heap: seq<HeapItem>,
                                       order: seq<HeapItem>, lastSeq: nat, e: Entry)
    requires QueueOk(entries, fifo, heap, order, lastSeq)
    requires e.block !in entries && e !in fifo && forall i :: 0 <= i < |heap| ==> heap[i].entry != e
    ensures QueueOk(entries[e.block := e], fifo + [e], heap, order, lastSeq)
    ensures LanesOf(entries[e.block := e], fifo + [e], order)
         == Lanes(LanesOf(entries, fifo, order).fifo + [e.block], LanesOf(entries, fifo, order).cached)
  {
    LiveRegister(fifo, entries, e);
    LiveAppend(fifo, entries[e.block := e], e);
    hide Ascending, LiveBlocks, RankedOf, HeapOk;
    assert forall x :: x != e ==> (IsLive(entries[e.block := e], x) <==> IsLive(entries, x));
  }

  lemma {:induction false} DropLive(entries: Registry, b: nat)
    ensures forall x: Entry :: IsLive(entries - {b}, x) <==> IsLive(entries, x) && x.block != b
    ensures forall x: Entry :: IsLive(entries, x) && x.block == b ==> b in entries && entries[b] == x
  {
  }

  lemma {:induction false} AbsentNotLive(entries: Registry, b: nat)
    requires b !in entries
    ensures forall x: Entry :: x.block == b ==> !IsLive(entries, x)
  {
  }

  lemma {:induction false} RegisterLive(entries: Registry, e: Entry)
    ensures forall x: Entry :: x.block != e.block ==> (IsLive(entries[e.block := e], x) <==> IsLive(entries, x))
    ensures forall x: Entry :: x.block == e.block ==> (IsLive(entries[e.block := e], x) <==> x == e)
  {
  }

  lemma {:induction false} PushLanes(entries: Registry, fifo: seq<Entry>, heap: seq<HeapItem>, item: HeapItem)
    requires LanesOk(entries, fifo, heap) && item.entry.block !in entries && item.entry !in fifo
    ensures LanesOk(entries[item.entry.block := item.entry], fifo, heap + [item])
  {
    var entries', heap' := entries[item.entry.block := item.entry], heap + [item];
    assert heap'[|heap|] == item && forall i :: 0 <= i < |heap| ==> heap'[i] == heap[i];
    forall b | b in entries' && entries'[b] !in fifo
      ensures exists i :: 0 <= i < |heap'| && heap'[i].entry == entries'[b]
    {
      if b != item.entry.block {
        var i :| 0 <= i < |heap| && heap[i].entry == entries[b];
        assert heap'[i].entry == entries'[b];
      }
    }
  }

  lemma {:induction false} PushSorts(entries: Registry, heap: seq<HeapItem>, order: seq<HeapItem>, lastSeq: nat,
                                     item: HeapItem)
    requires Sorts(order, heap, entries) && HeapOk(heap, lastSeq)
    requires item.entry.block !in entries && item.seqNo == lastSeq + 1
    requires forall i :: 0 <= i < |heap| ==> heap[i].entry != item.entry
    ensures Sorts(InsertItem(order, item), heap + [item], entries[item.entry.block := item.entry])
    ensures HeapOk(heap + [item], lastSeq + 1)
  {
    InsertItemMembers(order, item);
    RegisterLive(entries, item.entry);
    var heap' := heap + [item];
    assert heap'[|heap|] == item && forall i :: 0 <= i < |heap| ==> heap'[i] == heap[i];
    forall i | 0 <= i < |order| ensures order[i].seqNo < item.seqNo {
      var n :| 0 <= n < |heap| && heap[n] == order[i];
    }
    InsertItemAscending(order, item);
    hide InsertItem, Ascending;
  }

  lemma {:induction false} PushKeeps(entries: Registry, fifo: seq<Entry>, heap: seq<HeapItem>,
                                     order: seq<HeapItem>, lastSeq: nat, item: HeapItem)
    requires QueueOk(entries, fifo, heap, order, lastSeq)
    requires item.entry.block !in entries && item.entry !in fifo && item.seqNo == lastSeq + 1
    requires forall i :: 0 <= i < |heap| ==> heap[i].entry != item.entry
    ensures var entries' := entries[item.entry.block := item.entry];
            && QueueOk(entries', fifo, heap + [item], InsertItem(order, item), lastSeq + 1)
            && LanesOf(entries', fifo, InsertItem(order, item))
               == Lanes(LanesOf(entries, fifo, order).fifo,
                        InsertRanked(LanesOf(entries, fifo, order).cached, Ranked(item.stamp, item.entry.block)))
  {
    hide InsertItem, Ascending, LiveBlocks, RankedOf, InsertRanked, Sorts, HeapOk, LanesOk;
    PushLanes(entries, fifo, heap, item);
    PushSorts(entries, heap, order, lastSeq, item);
    InsertItemRanked(order, item);
    LiveRegister(fifo, entries, item.entry);
  }

  ghost function Removed<T>(s: seq<T>, k: nat): (r: seq<T>)
    requires k < |s|
    ensures |r| == |s| - 1
    ensures forall i :: 0 <= i < |r| ==> r[i] == s[if i < k then i else i + 1]
  {
    s[..k] + s[k + 1..]
  }

  lemma {:induction false} RemovedMembers(heap: seq<HeapItem>, k: nat, bound: nat)
    requires k < |heap| && HeapOk(heap, bound)
    ensures HeapOk(Removed(heap, k), bound)
    ensures forall i :: 0 <= i < |heap| && i != k ==> heap[i] in Removed(heap, k) && heap[i].entry != heap[k].entry
    ensures forall i :: 0 <= i < |Removed(heap, k)| ==> Removed(heap, k)[i] in heap
                                                        && Removed(heap, k)[i].entry != heap[k].entry
  {
    var rest := Removed(heap, k);
    forall i | 0 <= i < |heap| && i != k ensures heap[i] in rest {
      assert rest[if i < k then i else i - 1] == heap[i];
    }
  }

  lemma {:induction false} SmallestIsFirst(entries: Registry, heap: seq<HeapItem>, order: seq<HeapItem>, k: nat)
    requires k < |heap| && Sorts(order, heap, entries) && IsLive(entries, heap[k].entry)
    requires forall i :: 0 <= i < |heap| && i != k ==> Before(heap[k], heap[i])
    ensures order != [] && order[0] == heap[k]
  {
    hide IsLive;
    var j :| 0 <= j < |order| && order[j] == heap[k];
    var n :| 0 <= n < |heap| && heap[n] == order[0];
    assert j == 0;
  }

  lemma {:induction false} AscendingTail(order: seq<HeapItem>)
    requires Ascending(order) && order != []
    ensures Ascending(order[1..]) && forall i :: 1 <= i < |order| ==> Before(order[0], order[i])
  {
    var rest := order[1..];
    assert forall i :: 0 <= i < |rest| ==> rest[i] == order[i + 1];
  }

  lemma {:induction false} PopLive(entries: Registry, heap: seq<HeapItem>, order: seq<HeapItem>, k: nat, bound: nat)
    requires k < |heap| && HeapOk(heap, bound) && Sorts(order, heap, entries)
    requires IsLive(entries, heap[k].entry) && order != [] && order[0] == heap[k]
    ensures Sorts(order[1..], Removed(heap, k), entries - {heap[k].entry.block})
  {
    var item, rest, entries' := heap[k], order[1..], entries - {heap[k].entry.block};
    RemovedMembers(heap, k, bound);
    AscendingTail(order);
    assert forall e :: IsLive(entries', e) <==> IsLive(entries, e) && e != item.entry;
    hide HeapOk, Removed, IsLive, Ascending;
    forall i | 0 <= i < |rest| ensures rest[i] in Removed(heap, k) && IsLive(entries', rest[i].entry) {
      assert rest[i] == order[i + 1] && Before(item, order[i + 1]);
      var n :| 0 <= n < |heap| && heap[n] == rest[i];
    }
    forall i | 0 <= i < |Removed(heap, k)| && IsLive(entries', Removed(heap, k)[i].entry)
      ensures Removed(heap, k)[i] in rest
    {
      var n :| 0 <= n < |order| && order[n] == Removed(heap, k)[i];
      assert rest[n - 1] == order[n];
    }
  }

  /** Taking the smallest heap item takes the head of the sorted lane when its entry is live,
      and nothing at all from the lane when it is stale. */
  lemma {:induction false} PopSorts(entries: Registry, heap: seq<HeapItem>, order: seq<HeapItem>, k: nat, bound: nat)
    requires k < |heap| && HeapOk(heap, bound) && Sorts(order, heap, entries)
    requires forall i :: 0 <= i < |heap| && i != k ==> Before(heap[k], heap[i])
    ensures !IsLive(entries, heap[k].entry) ==> Sorts(order, Removed(heap, k), entries)
    ensures IsLive(entries, heap[k].entry) ==>
              && order != [] && order[0] == heap[k]
              && Sorts(order[1..], Removed(heap, k), entries - {heap[k].entry.block})
  {
    hide IsLive, Removed;
    if IsLive(entries, heap[k].entry) {
      SmallestIsFirst(entries, heap, order, k);
      PopLive(entries, heap, order, k, bound);
    } else {
      RemovedMembers(heap, k, bound);
      hide Ascending, HeapOk;
      forall i | 0 <= i < |order| ensures order[i] in Removed(heap, k) {
        var n :| 0 <= n < |heap| && heap[n] == order[i];
      }
    }
  }

  lemma {:induction false} PopLanes(entries: Registry, fifo: seq<Entry>, heap: seq<HeapItem>, k: nat, bound: nat)
    requires k < |heap| && HeapOk(heap, bound) && LanesOk(entries, fifo, heap)
    ensures var e := heap[k].entry;
            LanesOk(if IsLive(entries, e) then entries - {e.block} else entries, fifo, Removed(heap, k))
  {
    var e, rest := heap[k].entry, Removed(heap, k);
    RemovedMembers(heap, k, bound);
    hide HeapOk, Removed;
    forall b | b in entries && entries[b] != e && entries[b] !in fifo
      ensures exists i :: 0 <= i < |rest| && rest[i].entry == entries[b]
    {
      var i :| 0 <= i < |heap| && heap[i].entry == entries[b];
      var j :| 0 <= j < |rest| && rest[j] == heap[i];
    }
  }

  /** One step of draining the deque: its head is the front of the queue when live, else nothing. */
  lemma {:induction false} PopLiveLanes(entries: Registry, fifo: seq<Entry>, heap: seq<HeapItem>)
    requires fifo != [] && LanesOk(entries, fifo, heap) && IsLive(entries, fifo[0])
    ensures LanesOk(entries - {fifo[0].block}, fifo[1..], heap)
  {
    assert fifo == [fifo[0]] + fifo[1..];
  }

  lemma {:induction false} PopLiveSorts(entries: Registry, heap: seq<HeapItem>, order: seq<HeapItem>, e: Entry)
    requires Sorts(order, heap, entries) && IsLive(entries, e) && forall i :: 0 <= i < |heap| ==> heap[i].entry != e
    ensures Sorts(order, heap, entries - {e.block})
  {
    hide Ascending;
    assert forall x :: IsLive(entries - {e.block}, x) <==> IsLive(entries, x) && x != e;
  }

  lemma {:induction false} PopLiveFront(entries: Registry, fifo: seq<Entry>, order: seq<HeapItem>)
    requires fifo != [] && IsLive(entries, fifo[0]) && Distinct(fifo) && forall b :: b in entries ==> entries[b].block == b
    ensures var e, q := fifo[0], LanesOf(entries, fifo, order);
            q != NO_LANES && PopFront(q) == (e.block, LanesOf(entries - {e.block}, fifo[1..], order))
  {
    var e, rest := fifo[0], fifo[1..];
    assert fifo == [e] + rest;
    LiveMember(rest, entries, e.block);
    LiveDrop(rest, entries, e.block);
    hide RankedOf;
  }

  lemma {:induction false} PopDequeLive(entries: Registry, fifo: seq<Entry>, heap: seq<HeapItem>, order: seq<HeapItem>,
                                        lastSeq: nat)
    requires fifo != [] && QueueOk(entries, fifo, heap, order, lastSeq) && IsLive(entries, fifo[0])
    ensures var e, q := fifo[0], LanesOf(entries, fifo, order);
            && QueueOk(entries - {e.block}, fifo[1..], heap, order, lastSeq)
            && q != NO_LANES && PopFront(q) == (e.block, LanesOf(entries - {e.block}, fifo[1..], order))
  {
    assert fifo[0] in fifo;
    PopLiveFront(entries, fifo, order);
    hide Sorts, HeapOk, LanesOf, PopFront, IsLive;
    PopLiveLanes(entries, fifo, heap);
    PopLiveSorts(entries, heap, order, fifo[0]);
  }

  lemma {:induction false} PopDeque(entries: Registry, fifo: seq<Entry>, heap: seq<HeapItem>, order: seq<HeapItem>,
                                    lastSeq: nat)
    requires fifo != [] && QueueOk(entries, fifo, heap, order, lastSeq)
    ensures var e, q := fifo[0], LanesOf(entries, fifo, order);
            if IsLive(entries, e)
            then && QueueOk(entries - {e.block}, fifo[1..], heap, order, lastSeq)
                 && q != NO_LANES && PopFront(q) == (e.block, LanesOf(entries - {e.block}, fifo[1..], order))
            else QueueOk(entries, fifo[1..], heap, order, lastSeq) && LanesOf(entries, fifo[1..], order) == q
  {
    if IsLive(entries, fifo[0]) {
      hide QueueOk, LanesOf, IsLive;
      PopDequeLive(entries, fifo, heap, order, lastSeq);
    } else {
      hide Sorts, HeapOk, RankedOf;
      assert fifo == [fifo[0]] + fifo[1..];
    }
  }

  /** One step of draining the heap, once the deque is empty. */
  lemma {:induction false} PopHeap(entries: Registry, heap: seq<HeapItem>, order: seq<HeapItem>, lastSeq: nat, k: nat)
    requires k < |heap| && QueueOk(entries, [], heap, order, lastSeq)
    requires forall i :: 0 <= i < |heap| && i != k ==> Before(heap[k], heap[i])
    ensures var e, q := heap[k].entry, LanesOf(entries, [], order);
            if IsLive(entries, e)
            then && order != [] && QueueOk(entries - {e.block}, [], Removed(heap, k), order[1..], lastSeq)
                 && q != NO_LANES && PopFront(q) == (e.block, LanesOf(entries - {e.block}, [], order[1..]))
            else QueueOk(entries, [], Removed(heap, k), order, lastSeq)
  {
    hide Sorts, HeapOk, LanesOk, Removed, IsLive;
    PopSorts(entries, heap, order, k, lastSeq);
    PopLanes(entries, [], heap, k, lastSeq);
    RemovedMembers(heap, k, lastSeq);
    if IsLive(entries, heap[k].entry) {
      assert RankedOf(order)[1..] == RankedOf(order[1..]);
      hide RankedOf;
      assert heap[k].entry.block == LanesOf(entries, [], order).cached[0].block;
    }
  }

  lemma {:induction false} SortedFromHeap(entries: Registry, heap: seq<HeapItem>, order: seq<HeapItem>)
    requires Sorts(order, heap, entries) && order != []
    ensures heap != []
  {
    assert order[0] in heap;
  }

  lemma {:induction false} DrainedQueue(entries: Registry, order: seq<HeapItem>, lastSeq: nat)
    requires QueueOk(entries, [], [], order, lastSeq)
    ensures LanesOf(entries, [], order) == NO_LANES
  {
    if order != [] {
      SortedFromHeap(entries, [], order);
    }
  }

  // ----- the free count

  ghost function BlocksOf(order: seq<HeapItem>): (r: seq<nat>)
    ensures |r| == |order|
  {
    seq(|order|, i requires 0 <= i < |order| => order[i].entry.block)
  }

  lemma {:induction false} LiveDistinct(fifo: seq<Entry>, entries: Registry)
    requires Distinct(fifo) && forall b :: b in entries ==> entries[b].block == b
    ensures Distinct(LiveBlocks(fifo, entries))
  {
    if fifo != [] {
      assert Distinct(fifo[1..]);
      assert fifo[0] !in fifo[1..];
      LiveDistinct(fifo[1..], entries);
      if IsLive(entries, fifo[0]) {
        LiveMember(fifo[1..], entries, fifo[0].block);
        DistinctCons(fifo[0].block, LiveBlocks(fifo[1..], entries));
      }
    }
  }

  lemma {:induction false} RankedDistinct(entries: Registry, heap: seq<HeapItem>, order: seq<HeapItem>, lastSeq: nat)
    requires HeapOk(heap, lastSeq) && Sorts(order, heap, entries)
    ensures Distinct(BlocksOf(order))
  {
    forall i, j | 0 <= i < j < |order| ensures order[i].entry.block != order[j].entry.block {
      assert Before(order[i], order[j]);
      var m :| 0 <= m < |heap| && heap[m] == order[i];
      var n :| 0 <= n < |heap| && heap[n] == order[j];
    }
  }

  lemma {:induction false} RankedMember(entries: Registry, heap: seq<HeapItem>, order: seq<HeapItem>, b: nat)
    requires Sorts(order, heap, entries)
    ensures b in BlocksOf(order)
        <==> b in entries && entries[b].block == b && exists i :: 0 <= i < |heap| && heap[i].entry == entries[b]
  {
    if b in BlocksOf(order) {
      var i :| 0 <= i < |order| && order[i].entry.block == b;
      assert order[i] in heap;
    }
    if b in entries && entries[b].block == b && exists i :: 0 <= i < |heap| && heap[i].entry == entries[b] {
      var i :| 0 <= i < |heap| && heap[i].entry == entries[b];
      assert IsLive(entries, heap[i].entry);
      var j :| 0 <= j < |order| && order[j] == heap[i];
      assert BlocksOf(order)[j] == b;
    }
  }

  lemma {:induction false} QueueMembers(entries: Registry, fifo: seq<Entry>, heap: seq<HeapItem>,
                                        order: seq<HeapItem>, b: nat)
    requires LanesOk(entries, fifo, heap) && Sorts(order, heap, entries)
    ensures b in entries <==> b in LiveBlocks(fifo, entries) || b in BlocksOf(order)
    ensures b in LiveBlocks(fifo, entries) ==> b !in BlocksOf(order)
    ensures IsQueued(LanesOf(entries, fifo, order), b) <==> b in LiveBlocks(fifo, entries) || b in BlocksOf(order)
  {
    LiveMember(fifo, entries, b);
    RankedMember(entries, heap, order, b);
    assert forall i :: 0 <= i < |order| ==> RankedOf(order)[i].block == BlocksOf(order)[i];
    hide Sorts, LiveBlocks;
  }

  lemma {:induction false} QueueCount(entries: Registry, fifo: seq<Entry>, heap: seq<HeapItem>, order: seq<HeapItem>,
                                      lastSeq: nat)
    requires QueueOk(entries, fifo, heap, order, lastSeq)
    ensures |entries| == Size(LanesOf(entries, fifo, order))
    ensures forall b :: b in entries <==> IsQueued(LanesOf(entries, fifo, order), b)
  {
    var live, ranked := LiveBlocks(fifo, entries), BlocksOf(order);
    LiveDistinct(fifo, entries);
    RankedDistinct(entries, heap, order, lastSeq);
    forall b ensures b in entries <==> b in live || b in ranked
             ensures b in live ==> b !in ranked
             ensures IsQueued(LanesOf(entries, fifo, order), b) <==> b in live || b in ranked
    {
      QueueMembers(entries, fifo, heap, order, b);
    }
    assert Size(LanesOf(entries, fifo, order)) == |live| + |ranked|;
    hide Sorts, HeapOk, LanesOk, LanesOf, LiveBlocks, BlocksOf, IsQueued, Distinct;
    CountTwoLists(entries.Keys, live, ranked);
  }

  lemma {:induction false} CountTwoLists(keys: set<nat>, a: seq<nat>, b: seq<nat>)
    requires Distinct(a) && Distinct(b) && forall x :: x in a ==> x !in b
    requires forall x :: x in keys <==> x in a || x in b
    ensures |keys| == |a| + |b|
  {
    DistinctConcat(a, b);
    CardinalityOfList(keys, a + b);
  }

  lemma {:induction false} DistinctConcat<T>(a: seq<T>, b: seq<T>)
    requires Distinct(a) && Distinct(b) && forall x :: x in a ==> x !in b
    ensures Distinct(a + b)
  {
    forall i, j | 0 <= i < j < |a + b| ensures (a + b)[i] != (a + b)[j] {
      if i < |a| <= j {
        assert a[i] in a && b[j - |a|] in b;
      }
    }
  }

  class FreeBlockQueue {
    var fifo: seq<Entry>
    var heap: seq<HeapItem>
    var entries: Registry
    var lastSeq: nat
    ghost var order: seq<HeapItem>
    ghost var repr: set<Entry>

    ghost predicate FlagsOk()
      reads this`fifo, this`heap, this`entries, this`repr, repr
    {
      && (forall i :: 0 <= i < |fifo| ==> fifo[i] in repr)
      && (forall i :: 0 <= i < |heap| ==> heap[i].entry in repr)
      && (forall b :: b in entries ==> entries[b] in repr && entries[b].block == b)
      && (forall e :: e in repr ==> (e.valid <==> IsLive(entries, e)))
    }

    ghost predicate Valid()
      reads this, repr
    {
      QueueOk(entries, fifo, heap, order, lastSeq) && FlagsOk()
    }

    ghost function View(): Lanes
      reads this
    {
      LanesOf(entries, fifo, order)
    }

    constructor ()
      ensures Valid() && fresh(repr) && View() == NO_LANES
    {
      fifo, heap, entries, lastSeq, order, repr := [], [], map[], 0, [], {};
    }

    method Invalidate(block: nat)
      requires Valid()
      modifies this`entries, this`order, repr
      ensures Valid() && View() == Dequeue(old(View()), block)
      ensures entries == old(entries) - {block}
    {
      InvalidateKeeps(entries, fifo, heap, order, lastSeq, block);
      DropLive(entries, block);
      hide QueueOk, LanesOf, Dequeue, DropItems, IsLive;
      if block in entries {
        var entry := entries[block];
        entry.valid := false;
      }
      entries := entries - {block};
      order := DropItems(order, block);
      assert forall e :: e in repr ==> (e.valid <==> old(e.valid) && e.block != block);
    }

    method Append(block: nat)
      requires Valid()
      modifies this, repr
      ensures Valid() && fresh(repr - old(repr)) && View() == Enqueue(old(View()), block)
    {
      hide QueueOk, LanesOf, Dequeue;
      Invalidate(block);
      var entry := new Entry(block);
      AppendKeeps(entries, fifo, heap, order, lastSeq, entry);
      entries := entries[block := entry];
      fifo := fifo + [entry];
      repr := repr + {entry};
    }

    method AppendUnique(block: nat)
      requires Valid()
      modifies this, repr
      ensures Valid() && fresh(repr - old(repr)) && View() == EnqueueUnique(old(View()), block)
    {
      hide Valid, View;
      CountExact();
      if !Contains(block) {
        Append(block);
      }
    }

    method AppendCached(block: nat, lastAccessed: nat)
      requires Valid()
      modifies this, repr
      ensures Valid() && fresh(repr - old(repr)) && View() == EnqueueCached(old(View()), lastAccessed, block)
    {
      hide QueueOk, LanesOf, Dequeue, InsertRanked, InsertItem, IsLive;
      Invalidate(block);
      var entry := new Entry(block);
      AbsentNotLive(entries, block);
      RegisterLive(entries, entry);
      var item := HeapItem(lastAccessed, lastSeq + 1, entry);
      PushKeeps(entries, fifo, heap, order, lastSeq, item);
      entries := entries[block := entry];
      lastSeq := lastSeq + 1;
      heap := heap + [item];
      order := InsertItem(order, item);
      repr := repr + {entry};
    }

    predicate Contains(block: nat)
      reads this
    {
      block in entries
    }

    /** `heapq.heappop`: the least item by stamp, then by insertion number, leaves the bag. */
    method HeapPop() returns (item: HeapItem, ghost k: nat)
      requires heap != [] && QueueOk(entries, fifo, heap, order, lastSeq)
      modifies this`heap
      ensures k < |old(heap)| && item == old(heap)[k] && heap == Removed(old(heap), k)
      ensures forall i :: 0 <= i < |old(heap)| && i != k ==> Before(item, old(heap)[i])
    {
      var least := 0;
      for n := 1 to |heap|
        invariant least < n
        invariant forall i :: 0 <= i < n && i != least ==> Before(heap[least], heap[i])
      {
        if Before(heap[n], heap[least]) {
          least := n;
        }
      }
      item, k := heap[least], least;
      heap := heap[..least] + heap[least + 1..];
    }

    method FinalizePop(entry: Entry) returns (block: nat)
      requires FlagsOk() && IsLive(entries, entry) && entry in repr
      modifies this`entries, entry
      ensures block == entry.block && entries == old(entries) - {block} && FlagsOk()
    {
      entry.valid := false;
      entries := entries - {entry.block};
      block := entry.block;
    }

    /** The source raises IndexError on an empty queue. Stale entries on the way are discarded. */
    method PopLeft() returns (block: nat)
      requires Valid() && View() != NO_LANES
      modifies this, repr
      ensures Valid() && repr == old(repr) && (block, View()) == PopFront(old(View()))
    {
      hide QueueOk, LanesOf, PopFront, Removed;
      while fifo != []
        invariant Valid() && repr == old(repr) && View() == old(View())
        decreases |fifo|
      {
        var entry := fifo[0];
        PopDeque(entries, fifo, heap, order, lastSeq);
        fifo := fifo[1..];
        if entry.valid {
          block := FinalizePop(entry);
          return;
        }
      }
      while heap != []
        invariant Valid() && repr == old(repr) && fifo == [] && View() == old(View())
        decreases |heap|
      {
        ghost var before := heap;
        var item;
        ghost var k;
        item, k := HeapPop();
        PopHeap(entries, before, order, lastSeq, k);
        if item.entry.valid {
          block := FinalizePop(item.entry);
          order := order[1..];
          return;
        }
      }
      DrainedQueue(entries, order, lastSeq);
      assert false;
    }

    /** The free count the source reads off its table is the length of the two lanes. */
    lemma {:induction false} CountExact()
      requires Valid()
      ensures |entries| == Size(View()) && forall b: nat :: Contains(b) <==> IsQueued(View(), b)
    {
      QueueCount(entries, fifo, heap, order, lastSeq);
    }
  }
}

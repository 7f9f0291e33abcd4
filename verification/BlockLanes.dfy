/** The free queue lists exactly the idle blocks, each once. */
module BlockLanes {
  import opened Containers
  import opened FreeQueues
  import opened BlockPools
  import opened BlockModel

  function IdlePlain(blocks: map<nat, Block>): set<nat> {
    set b | b in blocks && blocks[b].refCount == 0 && !blocks[b].cached
  }

  /** Idle cached blocks with their access stamps. */
  function IdleCached(blocks: map<nat, Block>): map<nat, nat> {
    map b | b in blocks && blocks[b].refCount == 0 && blocks[b].cached :: blocks[b].lastAccessed
  }

  ghost predicate FifoOk(fifo: seq<nat>, idle: set<nat>) {
    Distinct(fifo) && forall b: nat :: b in fifo <==> b in idle
  }

  ghost predicate Listed(lane: seq<Ranked>, b: nat, stamp: nat) {
    Ranked(stamp, b) in lane
  }

  ghost predicate NoRepeats(lane: seq<Ranked>) {
    forall i, j :: 0 <= i < j < |lane| ==> lane[i].block != lane[j].block
  }

  ghost predicate CachedLaneOk(lane: seq<Ranked>, idle: map<nat, nat>) {
    && NoRepeats(lane)
    && (forall i :: 0 <= i < |lane| ==> lane[i].block in idle && idle[lane[i].block] == lane[i].stamp)
    && (forall b :: b in idle ==> Listed(lane, b, idle[b]))
  }

  ghost predicate LanesListIdle(q: Lanes, plain: set<nat>, cached: map<nat, nat>) {
    FifoOk(q.fifo, plain) && CachedLaneOk(q.cached, cached)
  }

  // ----- the lanes under each queue operation

  lemma {:induction false} FifoDrop(fifo: seq<nat>, idle: set<nat>, b: nat)
    requires FifoOk(fifo, idle)
    ensures FifoOk(Without(fifo, b), idle - {b})
  {
    WithoutDistinct(fifo, b);
  }

  lemma {:induction false} FifoAdd(fifo: seq<nat>, idle: set<nat>, b: nat)
    requires FifoOk(fifo, idle) && b !in idle
    ensures FifoOk(fifo + [b], idle + {b})
  {
  }

  lemma {:induction false} FifoPop(fifo: seq<nat>, idle: set<nat>)
    requires FifoOk(fifo, idle) && fifo != []
    ensures fifo[0] in idle && FifoOk(fifo[1..], idle - {fifo[0]})
  {
    assert fifo == [fifo[0]] + fifo[1..];
    assert Distinct(fifo[1..]) by {
      assert forall i :: 0 <= i < |fifo[1..]| ==> fifo[1..][i] == fifo[i + 1];
    }
    assert fifo[0] !in fifo[1..];
  }

  lemma {:induction false} DropRankedExact(lane: seq<Ranked>, b: nat, r: Ranked)
    ensures r in DropRanked(lane, b) <==> r in lane && r.block != b
  {
    if lane != [] {
      assert lane == [lane[0]] + lane[1..];
      DropRankedExact(lane[1..], b, r);
    }
  }

  lemma {:induction false} NoRepeatsCons(r: Ranked, lane: seq<Ranked>)
    requires NoRepeats(lane) && forall i :: 0 <= i < |lane| ==> lane[i].block != r.block
    ensures NoRepeats([r] + lane)
  {
    var all := [r] + lane;
    assert forall i :: 1 <= i < |all| ==> all[i] == lane[i - 1];
  }

  lemma {:induction false} DropRankedDistinct(lane: seq<Ranked>, b: nat)
    requires NoRepeats(lane)
    ensures NoRepeats(DropRanked(lane, b))
  {
    if lane != [] {
      var rest := lane[1..];
      assert forall i :: 0 <= i < |rest| ==> rest[i] == lane[i + 1];
      DropRankedDistinct(rest, b);
      DropRankedMembers(rest, b);
      var kept := DropRanked(rest, b);
      forall i | 0 <= i < |kept| ensures kept[i].block != lane[0].block {
        var j :| 0 <= j < |rest| && rest[j] == kept[i];
      }
      NoRepeatsCons(lane[0], kept);
    }
  }

  lemma {:induction false} CachedDrop(lane: seq<Ranked>, idle: map<nat, nat>, b: nat)
    requires CachedLaneOk(lane, idle)
    ensures CachedLaneOk(DropRanked(lane, b), idle - {b})
  {
    DropRankedDistinct(lane, b);
    var kept := DropRanked(lane, b);
    forall i | 0 <= i < |kept| ensures kept[i].block in idle - {b} && idle[kept[i].block] == kept[i].stamp {
      DropRankedExact(lane, b, kept[i]);
      var j :| 0 <= j < |lane| && lane[j] == kept[i];
    }
    forall x | x in idle - {b} ensures Listed(kept, x, (idle - {b})[x]) {
      assert Listed(lane, x, idle[x]);
      DropRankedExact(lane, b, Ranked(idle[x], x));
    }
  }

  lemma {:induction false} InsertRankedExact(lane: seq<Ranked>, r: Ranked, x: Ranked)
    ensures x in InsertRanked(lane, r) <==> x == r || x in lane
  {
    if !(lane == [] || r.stamp < lane[0].stamp) {
      assert lane == [lane[0]] + lane[1..];
      InsertRankedExact(lane[1..], r, x);
    }
  }

  lemma {:induction false} InsertRankedDistinct(lane: seq<Ranked>, r: Ranked)
    requires NoRepeats(lane) && forall i :: 0 <= i < |lane| ==> lane[i].block != r.block
    ensures NoRepeats(InsertRanked(lane, r))
  {
    if lane == [] || r.stamp < lane[0].stamp {
      NoRepeatsCons(r, lane);
    } else {
      var rest := lane[1..];
      assert forall i :: 0 <= i < |rest| ==> rest[i] == lane[i + 1];
      InsertRankedDistinct(rest, r);
      InsertRankedMembers(rest, r);
      var more := InsertRanked(rest, r);
      forall i | 0 <= i < |more| ensures more[i].block != lane[0].block {
        if more[i] != r {
          var j :| 0 <= j < |rest| && rest[j] == more[i];
        }
      }
      NoRepeatsCons(lane[0], more);
    }
  }

  lemma {:induction false} CachedAdd(lane: seq<Ranked>, idle: map<nat, nat>, b: nat, stamp: nat)
    requires CachedLaneOk(lane, idle) && b !in idle
    ensures CachedLaneOk(InsertRanked(lane, Ranked(stamp, b)), idle[b := stamp])
  {
    var r := Ranked(stamp, b);
    assert forall i :: 0 <= i < |lane| ==> lane[i].block != b;
    InsertRankedDistinct(lane, r);
    InsertRankedMembers(lane, r);
    var more, idle' := InsertRanked(lane, r), idle[b := stamp];
    hide NoRepeats, InsertRanked;
    forall i | 0 <= i < |more| ensures more[i].block in idle' && idle'[more[i].block] == more[i].stamp {
      if more[i] != r {
        var j :| 0 <= j < |lane| && lane[j] == more[i];
      }
    }
    forall x | x in idle' ensures Listed(more, x, idle'[x]) {
      if x != b {
        assert Listed(lane, x, idle[x]);
      }
      InsertRankedExact(lane, r, Ranked(idle'[x], x));
    }
  }

  lemma {:induction false} ListedTail(lane: seq<Ranked>, b: nat, stamp: nat)
    requires lane != [] && Listed(lane, b, stamp) && lane[0].block != b
    ensures Listed(lane[1..], b, stamp)
  {
    var i :| 0 <= i < |lane| && lane[i] == Ranked(stamp, b);
    assert lane[1..][i - 1] == lane[i];
  }

  lemma {:induction false} NoRepeatsTail(lane: seq<Ranked>)
    requires NoRepeats(lane) && lane != []
    ensures NoRepeats(lane[1..]) && forall i :: 0 <= i < |lane[1..]| ==> lane[1..][i].block != lane[0].block
  {
    var rest := lane[1..];
    assert forall i :: 0 <= i < |rest| ==> rest[i] == lane[i + 1];
  }

  lemma {:induction false} CachedPop(lane: seq<Ranked>, idle: map<nat, nat>)
    requires CachedLaneOk(lane, idle) && lane != []
    ensures lane[0].block in idle && CachedLaneOk(lane[1..], idle - {lane[0].block})
  {
    var rest, idle' := lane[1..], idle - {lane[0].block};
    NoRepeatsTail(lane);
    hide NoRepeats, Listed;
    assert lane[0].block in idle;
    forall i | 0 <= i < |rest| ensures rest[i].block in idle' && idle'[rest[i].block] == rest[i].stamp {
      assert rest[i] == lane[i + 1];
    }
    forall x | x in idle' ensures Listed(rest, x, idle'[x]) {
      assert Listed(lane, x, idle[x]);
      ListedTail(lane, x, idle[x]);
    }
  }

  lemma {:induction false} CachedMember(lane: seq<Ranked>, idle: map<nat, nat>, b: nat)
    requires CachedLaneOk(lane, idle)
    ensures b in idle <==> exists i :: 0 <= i < |lane| && lane[i].block == b
  {
    if b in idle {
      assert Listed(lane, b, idle[b]);
      var i :| 0 <= i < |lane| && lane[i] == Ranked(idle[b], b);
    }
  }

  lemma {:induction false} CachedSize(lane: seq<Ranked>, idle: map<nat, nat>)
    requires CachedLaneOk(lane, idle)
    ensures |lane| == |idle|
  {
    var bs := seq(|lane|, i requires 0 <= i < |lane| => lane[i].block);
    forall b: nat ensures b in idle.Keys <==> b in bs {
      CachedMember(lane, idle, b);
      if i :| 0 <= i < |lane| && lane[i].block == b {
        assert bs[i] == b;
      }
    }
    CardinalityOfList(idle.Keys, bs);
  }

  // ----- how idle sets move when one block changes

  lemma {:induction false} IdleUpdate(blocks: map<nat, Block>, b: nat, block: Block)
    ensures IdlePlain(blocks[b := block])
         == if block.refCount == 0 && !block.cached then IdlePlain(blocks) + {b} else IdlePlain(blocks) - {b}
    ensures IdleCached(blocks[b := block])
         == if block.refCount == 0 && block.cached then IdleCached(blocks)[b := block.lastAccessed]
            else IdleCached(blocks) - {b}
  {
  }
}

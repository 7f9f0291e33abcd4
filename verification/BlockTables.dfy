/** Request tables over the block core: every reachable state of the block manager. */
module BlockTables {
  import opened Containers
  import opened Keys
  import opened FreeQueues
  import opened BlockPools
  import opened BlockModel
  import opened BlockLanes
  import opened BlockInvariants
  import opened BlockLists

  // ----- references from the tables

  ghost function PickId(tables: map<nat, seq<nat>>): (id: nat)
    requires tables != map[]
    ensures id in tables
  {
    assert tables.Keys != {};
    var id :| id in tables.Keys;
    id
  }

  /** Occurrences of every block over all request tables. */
  ghost function TableRefs(tables: map<nat, seq<nat>>): multiset<nat>
    decreases |tables|
  {
    if tables == map[] then multiset{}
    else
      var id := PickId(tables);
      assert |tables - {id}| < |tables| by { assert tables.Keys == (tables - {id}).Keys + {id}; }
      multiset(tables[id]) + TableRefs(tables - {id})
  }

  lemma {:induction false} Smaller(tables: map<nat, seq<nat>>, id: nat)
    requires id in tables
    ensures |tables - {id}| < |tables|
  {
    assert tables.Keys == (tables - {id}).Keys + {id};
  }

  lemma {:induction false} TableRefsSplit(tables: map<nat, seq<nat>>, id: nat)
    requires id in tables
    ensures TableRefs(tables) == multiset(tables[id]) + TableRefs(tables - {id})
    decreases |tables|
  {
    var p := PickId(tables);
    if p != id {
      Smaller(tables, p);
      Smaller(tables, id);
      TableRefsSplit(tables - {p}, id);
      TableRefsSplit(tables - {id}, p);
      assert tables - {p} - {id} == tables - {id} - {p};
    }
  }

  lemma {:induction false} TableRefsSet(tables: map<nat, seq<nat>>, id: nat, row: seq<nat>)
    ensures TableRefs(tables[id := row]) == multiset(row) + TableRefs(tables - {id})
    ensures id !in tables ==> tables - {id} == tables
  {
    TableRefsSplit(tables[id := row], id);
    assert tables[id := row] - {id} == tables - {id};
    assert id !in tables ==> tables - {id} == tables;
  }

  lemma {:induction false} RowHeld(tables: map<nat, seq<nat>>, id: nat, b: nat)
    requires id in tables && b in tables[id]
    ensures b in TableRefs(tables)
  {
    TableRefsSplit(tables, id);
    assert b in multiset(tables[id]);
  }

  ghost function AllRefs(g: Gpu): multiset<nat> {
    TableRefs(g.tables) + multiset(g.reserved)
  }

  // ----- rows

  /** Block i of a live request carries input key i, registered once the request has committed;
      the blocks behind the input carry none. */
  ghost predicate RowOk(row: seq<nat>, claim: Claim, blocks: map<nat, Block>) {
    && |claim.keys| <= |row|
    && (forall i :: 0 <= i < |row| ==> row[i] in blocks)
    && (forall i :: 0 <= i < |claim.keys| ==> blocks[row[i]].hash == Some(claim.keys[i]) && blocks[row[i]].isFull)
    && (claim.committed ==> forall i :: 0 <= i < |claim.keys| ==> blocks[row[i]].cached)
    && (forall i :: |claim.keys| <= i < |row| ==> blocks[row[i]].hash == None)
  }

  ghost predicate RowsOk(tables: map<nat, seq<nat>>, claims: map<nat, Claim>, blocks: map<nat, Block>) {
    forall id :: id in tables ==> id in claims && RowOk(tables[id], claims[id], blocks)
  }

  ghost predicate AllKeyed(trace: seq<Event>) {
    forall i :: 0 <= i < |trace| ==> Keyed(trace[i])
  }

  ghost predicate Inv(g: Gpu) {
    Core(g, AllRefs(g)) && RowsOk(g.tables, g.claims, g.blocks) && AllKeyed(g.trace)
  }

  /** Held blocks keep their key, and stay full and cached. */
  ghost predicate Kept(blocks: map<nat, Block>, blocks': map<nat, Block>, refs: multiset<nat>) {
    forall b :: b in refs ==>
      && b in blocks && b in blocks' && blocks'[b].hash == blocks[b].hash
      && (blocks[b].isFull ==> blocks'[b].isFull) && (blocks[b].cached ==> blocks'[b].cached)
  }

  lemma {:induction false} RowFrame(row: seq<nat>, claim: Claim, blocks: map<nat, Block>, blocks': map<nat, Block>,
                                    refs: multiset<nat>)
    requires RowOk(row, claim, blocks) && Kept(blocks, blocks', refs) && forall b :: b in row ==> b in refs
    ensures RowOk(row, claim, blocks')
  {
  }

  lemma {:induction false} RowsFrame(tables: map<nat, seq<nat>>, claims: map<nat, Claim>, claims': map<nat, Claim>,
                                     blocks: map<nat, Block>, blocks': map<nat, Block>, refs: multiset<nat>)
    requires RowsOk(tables, claims, blocks) && Kept(blocks, blocks', refs) && TableRefs(tables) <= refs
    requires forall id :: id in tables ==> id in claims && id in claims' && claims'[id] == claims[id]
    ensures RowsOk(tables, claims', blocks')
  {
    forall id | id in tables ensures RowOk(tables[id], claims[id], blocks') {
      forall b | b in tables[id] ensures b in refs { RowHeld(tables, id, b); }
      RowFrame(tables[id], claims[id], blocks, blocks', refs);
    }
  }

  lemma {:induction false} RowsSet(tables: map<nat, seq<nat>>, claims: map<nat, Claim>, blocks: map<nat, Block>,
                                   id: nat, row: seq<nat>, claim: Claim)
    requires RowsOk(tables - {id}, claims, blocks) && RowOk(row, claim, blocks)
    ensures RowsOk(tables[id := row], claims[id := claim], blocks)
  {
    hide RowOk;
    var tables', claims' := tables[id := row], claims[id := claim];
    forall x | x in tables' ensures x in claims' && RowOk(tables'[x], claims'[x], blocks) {
      if x != id {
        assert x in tables - {id};
      }
    }
  }

  lemma {:induction false} KeyedThen(g: Gpu, g': Gpu)
    requires AllKeyed(g.trace) && Announced(g, g')
    ensures AllKeyed(g'.trace)
  {
    forall i | 0 <= i < |g'.trace| ensures Keyed(g'.trace[i]) {
      if i < |g.trace| {
        assert g'.trace[..|g.trace|][i] == g'.trace[i];
      }
    }
  }

  lemma {:induction false} KeyedRegistered(trace: seq<Event>, keys: seq<PrefixCacheKey>)
    requires AllKeyed(trace)
    ensures AllKeyed(trace + RegisterEvents(keys))
  {
  }

  // ----- append slot

  lemma {:induction false} KeptByAlloc(g: Gpu, g': Gpu, refs: multiset<nat>, bs: seq<nat>)
    requires Allocated(g, g', refs, bs)
    ensures Kept(g.blocks, g'.blocks, refs)
  {
  }

  lemma {:induction false} AllocOne(g: Gpu, refs: multiset<nat>)
    requires Core(g, refs) && HasFree(g.pool)
    ensures var (b, g') := AllocBlock(g); Allocated(g, g', refs, [b]) && Core(g', refs + multiset{b})
  {
    hide Core, Allocated, AllocBlock;
    AllocatedNothing(g, refs);
    assert refs + multiset([]) == refs;
    AllocSnoc(g, g, refs, []);
    assert [] + [AllocBlock(g).0] == [AllocBlock(g).0];
    assert multiset([AllocBlock(g).0]) == multiset{AllocBlock(g).0};
  }

  lemma {:induction false} RowGrows(row: seq<nat>, claim: Claim, blocks: map<nat, Block>, b: nat)
    requires RowOk(row, claim, blocks) && b in blocks && blocks[b].hash == None
    ensures RowOk(row + [b], claim, blocks)
  {
    var row' := row + [b];
    assert forall i :: 0 <= i < |row| ==> row'[i] == row[i];
    assert row'[|row|] == b;
  }

  lemma {:induction false} AllRefsGrow(g: Gpu, id: nat, bs: seq<nat>)
    ensures AllRefs(SetTable(g, id, TableOf(g, id) + bs)) == AllRefs(g) + multiset(bs)
  {
    var row := TableOf(g, id);
    TableRefsSet(g.tables, id, row + bs);
    assert multiset(row + bs) == multiset(row) + multiset(bs);
    if id in g.tables {
      TableRefsSplit(g.tables, id);
    } else {
      assert multiset(row) == multiset{};
    }
  }

  lemma {:induction false} SlotKeeps(g: Gpu, id: nat, logical: nat)
    requires Inv(g) && id in g.tables
    ensures Inv(AppendSlot(g, id, logical).1)
    ensures AppendSlot(g, id, logical).0 <==> CanAppend(g, id, logical)
  {
    hide Core, RowOk, Allocated, AllocBlock, AllRefs, Announced;
    FreeMeansHasFree(g, AllRefs(g));
    assert FreeCount(g.pool) >= 0 by { FreePlusHeld(g, AllRefs(g)); FreeNat(g, AllRefs(g)); }
    if |g.tables[id]| < logical && HasFree(g.pool) {
      AllocOne(g, AllRefs(g));
      var (b, g1) := AllocBlock(g);
      AppendRow(g, g1, id, b);
    }
  }

  lemma {:induction false} FreeNat(g: Gpu, refs: multiset<nat>)
    requires Core(g, refs)
    ensures FreeCount(g.pool) >= 0
  {
  }

  lemma {:induction false} AllocatedFacts(g: Gpu, g': Gpu, refs: multiset<nat>, bs: seq<nat>)
    requires Allocated(g, g', refs, bs)
    ensures g' == g.(pool := g'.pool, blocks := g'.blocks, cache := g'.cache, trace := g'.trace)
    ensures Announced(g, g') && Handed(g.blocks, g'.blocks, refs, bs) && IndexShrinks(g.cache, g'.cache, refs)
    ensures FreeCount(g'.pool) == FreeCount(g.pool) - |bs|
  {
  }

  lemma {:induction false} AppendRow(g: Gpu, g1: Gpu, id: nat, b: nat)
    requires Inv(g) && id in g.tables && Allocated(g, g1, AllRefs(g), [b]) && Core(g1, AllRefs(g) + multiset{b})
    ensures Inv(SetTable(g1, id, TableOf(g1, id) + [b]))
  {
    hide Core, RowOk, Kept, AllKeyed, AllRefs, Announced, IndexShrinks;
    AllocatedFacts(g, g1, AllRefs(g), [b]);
    KeptByAlloc(g, g1, AllRefs(g), [b]);
    hide Allocated;
    KeyedThen(g, g1);
    RefsInclude(g);
    RowsFrame(g.tables, g.claims, g.claims, g.blocks, g1.blocks, AllRefs(g));
    AllRefsGrow(g1, id, [b]);
    RefsSame(g, g1);
    CoreSame(g1, SetTable(g1, id, TableOf(g1, id) + [b]), AllRefs(g) + multiset{b});
    assert multiset([b]) == multiset{b};
    assert b in [b];
    RowGrows(g1.tables[id], g1.claims[id], g1.blocks, b);
    RowsSet(g1.tables, g1.claims, g1.blocks, id, g1.tables[id] + [b], g1.claims[id]);
    assert g1.claims[id := g1.claims[id]] == g1.claims;
  }

  lemma {:induction false} CoreSame(g: Gpu, g': Gpu, refs: multiset<nat>)
    requires Core(g, refs) && g'.pool == g.pool && g'.blocks == g.blocks && g'.cache == g.cache
    ensures Core(g', refs)
  {
  }

  lemma {:induction false} RefsInclude(g: Gpu)
    ensures TableRefs(g.tables) <= AllRefs(g)
  {
  }

  lemma {:induction false} RefsSame(g: Gpu, g': Gpu)
    requires g'.tables == g.tables && g'.reserved == g.reserved
    ensures AllRefs(g') == AllRefs(g)
  {
  }

  // ----- release

  ghost predicate InvBut(g: Gpu, id: nat) {
    Core(g, AllRefs(g)) && RowsOk(g.tables - {id}, g.claims, g.blocks) && AllKeyed(g.trace)
  }

  lemma {:induction false} KeptByFree(g: Gpu, g': Gpu, refs: multiset<nat>)
    requires Freed(g, g', refs)
    ensures Kept(g.blocks, g'.blocks, refs) && g' == g.(pool := g'.pool, blocks := g'.blocks)
    ensures FreeCount(g'.pool) >= FreeCount(g.pool)
  {
  }

  lemma {:induction false} RowRefs(g: Gpu, id: nat)
    ensures multiset(TableOf(g, id)) <= AllRefs(g)
    ensures AllRefs(g) - multiset(TableOf(g, id)) == AllRefs(g.(tables := g.tables - {id}))
  {
    if id in g.tables {
      TableRefsSplit(g.tables, id);
    } else {
      assert g.tables - {id} == g.tables;
      assert multiset(TableOf(g, id)) == multiset{};
    }
  }

  lemma {:induction false} ReleaseKeeps(g: Gpu, id: nat)
    requires InvBut(g, id)
    ensures Inv(Release(g, id)) && FreeCount(Release(g, id).pool) >= FreeCount(g.pool)
    ensures Release(g, id).tables == g.tables - {id}
    ensures var g' := Release(g, id); g' == g.(pool := g'.pool, blocks := g'.blocks, tables := g.tables - {id})
  {
    hide Core, Freed, Kept, AllRefs, AllKeyed, RowOk;
    var row, g0 := TableOf(g, id), g.(tables := g.tables - {id});
    RowRefs(g, id);
    CoreSame(g, g0, AllRefs(g));
    FreeAllMeans(g0, AllRefs(g), row);
    var g' := FreeAll(g0, row);
    KeptByFree(g0, g', AllRefs(g0));
    RefsSame(g0, g');
    RefsInclude(g0);
    RowsFrame(g0.tables, g.claims, g.claims, g.blocks, g'.blocks, AllRefs(g0));
  }

  lemma {:induction false} InvIsInvBut(g: Gpu, id: nat)
    requires Inv(g)
    ensures InvBut(g, id)
  {
    hide Core, RowOk;
  }

  // ----- commit

  lemma {:induction false} InputRegistrable(g: Gpu, id: nat)
    requires id in g.tables && id in g.claims && RowOk(g.tables[id], g.claims[id], g.blocks)
    ensures Registrable(g, g.tables[id][..|g.claims[id].keys|], g.claims[id].keys)
  {
  }

  lemma {:induction false} KeptByRegister(g: Gpu, g': Gpu, bs: seq<nat>, keys: seq<PrefixCacheKey>, refs: multiset<nat>)
    requires |bs| == |keys| && AllRegistered(g, g', bs, keys) && forall b :: b in refs ==> b in g.blocks
    requires forall i :: 0 <= i < |bs| && bs[i] in refs ==> BlockAt(g, bs[i]).hash == Some(keys[i])
    ensures Kept(g.blocks, g'.blocks, refs)
  {
    forall b | b in refs ensures g'.blocks[b].hash == g.blocks[b].hash {
      if b in bs {
        var i :| 0 <= i < |bs| && bs[i] == b;
      }
    }
  }

  lemma {:induction false} RegisteredFacts(g: Gpu, g': Gpu, bs: seq<nat>, keys: seq<PrefixCacheKey>)
    requires |bs| == |keys| && AllRegistered(g, g', bs, keys)
    ensures g' == g.(blocks := g'.blocks, cache := g'.cache, clock := g'.clock, trace := g'.trace)
    ensures g'.trace == g.trace + RegisterEvents(keys) && Indexed(g.cache, g'.cache, keys)
    ensures forall i :: 0 <= i < |bs| ==> bs[i] in g'.blocks && g'.blocks[bs[i]].cached
  {
  }

  lemma {:induction false} CommitRow(row: seq<nat>, claim: Claim, blocks: map<nat, Block>)
    requires RowOk(row, claim, blocks)
    requires forall i :: 0 <= i < |claim.keys| ==> row[..|claim.keys|][i] in blocks && blocks[row[..|claim.keys|][i]].cached
    ensures RowOk(row, claim.(committed := true), blocks)
  {
    forall i | 0 <= i < |claim.keys| ensures blocks[row[i]].cached {
      assert row[..|claim.keys|][i] == row[i];
    }
  }

  lemma {:induction false} RowsInRefs(g: Gpu, id: nat, n: nat)
    requires id in g.tables && n <= |g.tables[id]|
    ensures forall b :: b in g.tables[id][..n] ==> b in AllRefs(g)
  {
    forall b | b in g.tables[id][..n] ensures b in AllRefs(g) {
      RowHeld(g.tables, id, b);
    }
  }

  lemma {:induction false} CommitMeans(g: Gpu, id: nat)
    requires Inv(g) && id in g.tables && !g.claims[id].committed
    ensures var keys := g.claims[id].keys; var bs := g.tables[id][..|keys|]; var g1 := RegisterAll(g, bs, keys);
            && Core(g1, AllRefs(g)) && AllRegistered(g, g1, bs, keys)
            && CommitInput(g, id) == SetClaim(g1, id, g.claims[id].(committed := true))
  {
    hide Core, AllRegistered, Registrable;
    var keys, row := g.claims[id].keys, g.tables[id];
    InputRegistrable(g, id);
    RowsInRefs(g, id, |keys|);
    RegisterAllMeans(g, AllRefs(g), row[..|keys|], keys);
    assert keys[..|keys|] == keys;
  }

  lemma {:induction false} CommitKeeps(g: Gpu, id: nat)
    requires Inv(g) && id in g.tables
    ensures Inv(CommitInput(g, id)) && CommitInput(g, id).tables == g.tables && CommitInput(g, id).pool == g.pool
    ensures CommitInput(g, id).reserved == g.reserved
    ensures ClaimOf(CommitInput(g, id), id).keys == ClaimOf(g, id).keys
  {
    hide Core, AllRegistered, RowOk, Kept, AllRefs, AllKeyed;
    if !ClaimOf(g, id).committed {
      var claim, row := g.claims[id], g.tables[id];
      InputHashes(row, claim, g);
      CommitMeans(g, id);
      var bs, g1 := row[..|claim.keys|], RegisterAll(g, row[..|claim.keys|], claim.keys);
      var g' := CommitInput(g, id);
      RegisteredFacts(g, g1, bs, claim.keys);
      AllInBlocks(g);
      KeptByRegister(g, g1, bs, claim.keys, AllRefs(g));
      RefsInclude(g);
      RowsFrame(g.tables, g.claims, g.claims, g.blocks, g1.blocks, AllRefs(g));
      CommitRow(row, claim, g1.blocks);
      RowsSubset(g.tables, g.claims, g1.blocks, id);
      RowsSet(g.tables, g.claims, g1.blocks, id, row, claim.(committed := true));
      assert g.tables[id := row] == g.tables;
      KeyedRegistered(g.trace, claim.keys);
      CoreSame(g1, g', AllRefs(g));
      RefsSame(g, g');
    }
  }

  lemma {:induction false} AllInBlocks(g: Gpu)
    requires Core(g, AllRefs(g))
    ensures forall b :: b in AllRefs(g) ==> b in g.blocks
  {
    hide AllRefs;
  }

  lemma {:induction false} InputHashes(row: seq<nat>, claim: Claim, g: Gpu)
    requires RowOk(row, claim, g.blocks)
    ensures |claim.keys| <= |row|
    ensures forall i :: 0 <= i < |claim.keys| ==> BlockAt(g, row[..|claim.keys|][i]).hash == Some(claim.keys[i])
  {
  }

  lemma {:induction false} RowsSubset(tables: map<nat, seq<nat>>, claims: map<nat, Claim>, blocks: map<nat, Block>,
                                      id: nat)
    requires RowsOk(tables, claims, blocks)
    ensures RowsOk(tables - {id}, claims, blocks)
  {
    hide RowOk;
  }

  // ----- finish

  lemma {:induction false} TwiceInRow(row: seq<nat>, i: nat, j: nat)
    requires i < j < |row| && row[i] == row[j]
    ensures multiset(row)[row[i]] >= 2
  {
    assert row == row[..j] + row[j..];
    assert row[i] in row[..j] && row[j] in row[j..];
  }

  /** A block without a key is referenced once, so it stands once in one row. */
  lemma {:induction false} PrivateBlock(g: Gpu, id: nat, i: nat)
    requires Core(g, AllRefs(g)) && id in g.tables && i < |g.tables[id]|
    requires g.tables[id][i] in g.blocks && g.blocks[g.tables[id][i]].hash == None
    ensures forall j :: 0 <= j < |g.tables[id]| && j != i ==> g.tables[id][j] != g.tables[id][i]
    ensures g.tables[id][i] !in TableRefs(g.tables - {id})
  {
    var row := g.tables[id];
    var b := row[i];
    assert BlockOk(g.blocks[b]) && g.blocks[b].refCount <= 1;
    assert AllRefs(g)[b] <= 1;
    TableRefsSplit(g.tables, id);
    assert b in multiset(row);
    forall j | 0 <= j < |row| && j != i ensures row[j] != b {
      if row[j] == b {
        TwiceInRow(row, if i < j then i else j, if i < j then j else i);
      }
    }
  }

  lemma {:induction false} OutputRegistrable(g: Gpu, id: nat, start: nat, end: nat, keys: seq<PrefixCacheKey>)
    requires Inv(g) && id in g.tables && |g.claims[id].keys| <= start <= end <= |g.tables[id]| && |keys| == end - start
    ensures Registrable(g, g.tables[id][start..end], keys)
    ensures forall b :: b in g.tables[id][start..end] ==> b in AllRefs(g) && b !in TableRefs(g.tables - {id})
  {
    hide Core, AllRefs, AllKeyed, TableRefs;
    assert RowOk(g.tables[id], g.claims[id], g.blocks);
    RefsInclude(g);
    var row, bs := g.tables[id], g.tables[id][start..end];
    forall i | 0 <= i < |bs|
      ensures BlockAt(g, bs[i]).hash == None && bs[i] in AllRefs(g) && bs[i] !in TableRefs(g.tables - {id})
      ensures forall j :: 0 <= j < |bs| && j != i ==> bs[j] != bs[i]
    {
      assert bs[i] == row[start + i];
      PrivateBlock(g, id, start + i);
      RowHeld(g.tables, id, row[start + i]);
    }
  }

  lemma {:induction false} OtherRefs(g: Gpu, id: nat)
    requires Core(g, AllRefs(g))
    ensures TableRefs(g.tables - {id}) <= AllRefs(g)
    ensures forall b :: b in TableRefs(g.tables - {id}) ==> b in g.blocks
  {
    if id in g.tables {
      TableRefsSplit(g.tables, id);
    } else {
      assert g.tables - {id} == g.tables;
    }
    AllInBlocks(g);
  }

  lemma {:induction false} OutputKeeps(g: Gpu, id: nat, start: nat, keys: seq<PrefixCacheKey>)
    requires Inv(g) && id in g.tables && |g.claims[id].keys| <= start
    ensures InvBut(RegisterOutput(g, id, start, keys), id)
    ensures RegisterOutput(g, id, start, keys).tables == g.tables && RegisterOutput(g, id, start, keys).pool == g.pool
    ensures RegisterOutput(g, id, start, keys).reserved == g.reserved
  {
    hide Core, AllRegistered, Registrable, RowOk, Kept, AllRefs, AllKeyed, TableRefs, RegisterAll;
    var row := g.tables[id];
    var end := if start + |keys| <= |row| then start + |keys| else |row|;
    RowsSubset(g.tables, g.claims, g.blocks, id);
    if start < end {
      var bs, named, g' := row[start..end], keys[..end - start], RegisterOutput(g, id, start, keys);
      OutputRegistrable(g, id, start, end, named);
      RegisterAllMeans(g, AllRefs(g), bs, named);
      RegisteredFacts(g, g', bs, named);
      OtherRefs(g, id);
      KeptByRegister(g, g', bs, named, TableRefs(g.tables - {id}));
      RowsFrame(g.tables - {id}, g.claims, g.claims, g.blocks, g'.blocks, TableRefs(g.tables - {id}));
      KeyedRegistered(g.trace, named);
      RefsSame(g, g');
    }
  }

  lemma {:induction false} FinishKeeps(g: Gpu, id: nat, start: nat, keys: seq<PrefixCacheKey>)
    requires Inv(g) && id in g.tables && |g.claims[id].keys| <= start
    ensures Inv(Finish(g, id, start, keys)) && FreeCount(Finish(g, id, start, keys).pool) >= FreeCount(g.pool)
    ensures Finish(g, id, start, keys).tables == g.tables - {id}
  {
    hide Inv, InvBut, CommitInput, RegisterOutput, Release;
    CommitKeeps(g, id);
    var g1 := CommitInput(g, id);
    assert id in g1.claims && |g1.claims[id].keys| <= start by { InvClaims(g, id); InvClaims(g1, id); }
    OutputKeeps(g1, id, start, keys);
    ReleaseKeeps(RegisterOutput(g1, id, start, keys), id);
  }

  lemma {:induction false} InvClaims(g: Gpu, id: nat)
    requires Inv(g) && id in g.tables
    ensures id in g.claims
  {
  }
}

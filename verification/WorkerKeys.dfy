/** What the worker's prefix-cache keys name: a key in the index is the n-th of a request's chain, and its
    block was the n-th of that request's row. */
module WorkerKeys {
  import opened Containers
  import opened Keys
  import opened FreeQueues
  import opened BlockPools
  import opened BlockModel
  import opened BlockInvariants
  import opened BlockLists
  import opened BlockTables
  import opened BlockRuns
  import opened BlockSafety
  import opened BlockHistory
  import opened SchedulerModel
  import opened SchedulerBlocks
  import opened SchedulerSafety
  import opened WorkerRuns
  import opened WorkerRows
  import opened WorkerBlocks

  // ----- what a request's keys name

  /** k names the request's n-th block, which its prompt fills. */
  predicate InputName(cfg: Worker, r: Req, n: nat, k: PrefixCacheKey) {
    1 <= n <= |r.hashIds| && n * cfg.blockSize <= r.prefill && k == PrefixKeys(r.scope, r.hashIds)[n - 1]
  }

  /** k names the request's n-th block, which its output fills: the prompt ends on a block boundary and
      is hashed throughout. */
  predicate OutputName(cfg: Worker, r: Req, n: nat, k: PrefixCacheKey) {
    && r.prefill % cfg.blockSize == 0
    && var full := r.prefill / cfg.blockSize;
       && full <= |r.hashIds| && full < n <= full + |r.outputIds| && n * cfg.blockSize <= r.prefill + r.decode
       && k == PrefixKeys(r.scope, r.hashIds[..full] + r.outputIds)[n - 1]
  }

  lemma {:induction false} TimesLeDivide(n: nat, t: nat, d: nat)
    requires d >= 1
    ensures n * d <= t <==> n <= t / d
  {
    var q := t / d;
    assert q * d <= t < q * d + d;
    if n * d <= t {
      BlocksOrder(d, n, q);
    } else {
      BlocksOrder(d, q, n);
    }
    if n <= q {
      TimesOrder(d, n, q);
    }
  }

  lemma {:induction false} SameChain(scope: Scope, a: seq<HashId>, b: seq<HashId>, i: nat)
    requires i < |a| && i < |b| && a[..i + 1] == b[..i + 1]
    ensures PrefixKeys(scope, a)[i] == PrefixKeys(scope, b)[i]
  {
    var s, t := Signatures(a)[..i + 1], Signatures(b)[..i + 1];
    forall j | 0 <= j <= i ensures s[j] == t[j] {
      assert a[..i + 1][j] == b[..i + 1][j];
    }
    assert s == t;
  }

  /** Input keys are the keys of all hashed blocks the prompt fills, in order. */
  lemma {:induction false} InputKeysAre(cfg: Worker, r: Req)
    ensures forall i :: 0 <= i < |InputKeys(cfg, r)| ==> InputName(cfg, r, i + 1, InputKeys(cfg, r)[i])
    ensures forall n: nat, k :: InputName(cfg, r, n, k) ==> n <= |InputKeys(cfg, r)| && InputKeys(cfg, r)[n - 1] == k
  {
    var keys, ids := InputKeys(cfg, r), UpTo(r.hashIds, FullInputBlocks(cfg, r));
    forall i | 0 <= i < |keys| ensures InputName(cfg, r, i + 1, keys[i]) {
      TimesLeDivide(i + 1, r.prefill, cfg.blockSize);
      assert ids[..i + 1] == r.hashIds[..i + 1];
      SameChain(r.scope, ids, r.hashIds, i);
    }
    forall n: nat, k | InputName(cfg, r, n, k) ensures n <= |keys| && keys[n - 1] == k {
      TimesLeDivide(n, r.prefill, cfg.blockSize);
      assert ids[..n] == r.hashIds[..n];
      SameChain(r.scope, ids, r.hashIds, n - 1);
    }
  }

  lemma {:induction false} OutputFits(cfg: Worker, r: Req, m: nat)
    requires r.prefill % cfg.blockSize == 0
    ensures m <= r.decode / cfg.blockSize
            <==> (r.prefill / cfg.blockSize + m) * cfg.blockSize <= r.prefill + r.decode
  {
    var d, full := cfg.blockSize, r.prefill / cfg.blockSize;
    assert full * d == r.prefill;
    assert (full + m) * d == full * d + m * d;
    TimesLeDivide(m, r.decode, d);
  }

  predicate HasOutputKeys(cfg: Worker, r: Req) {
    && r.prefill % cfg.blockSize == 0 && r.prefill <= |r.hashIds| * cfg.blockSize
    && r.outputIds != [] && r.decode >= cfg.blockSize
  }

  lemma {:induction false} HashedThroughout(cfg: Worker, r: Req)
    requires r.prefill % cfg.blockSize == 0
    ensures r.prefill <= |r.hashIds| * cfg.blockSize <==> r.prefill / cfg.blockSize <= |r.hashIds|
  {
    var d, full := cfg.blockSize, r.prefill / cfg.blockSize;
    assert full * d == r.prefill;
    if full <= |r.hashIds| {
      TimesOrder(d, full, |r.hashIds|);
    } else {
      TimesOrder(d, |r.hashIds| + 1, full);
      assert (|r.hashIds| + 1) * d == |r.hashIds| * d + d;
    }
  }

  /** A request has output keys exactly when its prompt fills whole blocks, all hashed, its output is
      hashed and fills a block. */
  lemma {:induction false} OutputKeysIff(cfg: Worker, r: Req)
    ensures OutputKeys(cfg, r) != [] <==> HasOutputKeys(cfg, r)
  {
    var d := cfg.blockSize;
    TimesLeDivide(1, r.decode, d);
    if r.prefill % d == 0 {
      HashedThroughout(cfg, r);
      var full := r.prefill / d;
      if full <= |r.hashIds| {
        var output := UpTo(r.outputIds, r.decode / d);
        assert |PrefixKeys(r.scope, r.hashIds[..full] + output)[full..]| == |output|;
      }
    }
  }

  lemma {:induction false} OutputKeyAt(cfg: Worker, r: Req, i: nat)
    requires i < |OutputKeys(cfg, r)|
    ensures OutputName(cfg, r, FullInputBlocks(cfg, r) + i + 1, OutputKeys(cfg, r)[i])
  {
    var full, output := FullInputBlocks(cfg, r), UpTo(r.outputIds, r.decode / cfg.blockSize);
    var a, b := r.hashIds[..full] + output, r.hashIds[..full] + r.outputIds;
    OutputFits(cfg, r, i + 1);
    assert a[..full + i + 1] == b[..full + i + 1];
    SameChain(r.scope, a, b, full + i);
  }

  lemma {:induction false} OutputNameAt(cfg: Worker, r: Req, n: nat, k: PrefixCacheKey)
    requires OutputName(cfg, r, n, k)
    ensures var i := n - FullInputBlocks(cfg, r) - 1; 0 <= i < |OutputKeys(cfg, r)| && OutputKeys(cfg, r)[i] == k
  {
    var full, output := FullInputBlocks(cfg, r), UpTo(r.outputIds, r.decode / cfg.blockSize);
    var a, b := r.hashIds[..full] + output, r.hashIds[..full] + r.outputIds;
    OutputFits(cfg, r, n - full);
    assert n - full <= |output|;
    assert a[..n] == b[..n];
    SameChain(r.scope, a, b, n - 1);
  }

  predicate Names(cfg: Worker, r: Req, n: nat, k: PrefixCacheKey) {
    InputName(cfg, r, n, k) || OutputName(cfg, r, n, k)
  }

  // ----- what one call puts in the index

  /** Every index entry is an old one or pairs one of these keys with its block. */
  ghost predicate IndexFrom(cache: map<PrefixCacheKey, nat>, cache': map<PrefixCacheKey, nat>, bs: seq<nat>,
                            keys: seq<PrefixCacheKey>)
    requires |bs| == |keys|
  {
    forall k :: k in cache' ==>
      (k in cache && cache'[k] == cache[k]) || exists i :: 0 <= i < |keys| && keys[i] == k && bs[i] == cache'[k]
  }

  lemma {:induction false} RegisterOneIndex(g: Gpu, b: nat, key: PrefixCacheKey)
    ensures forall k :: k in RegisterOne(g, b, key).cache ==>
              if k == key then RegisterOne(g, b, key).cache[k] == b
              else k in g.cache && RegisterOne(g, b, key).cache[k] == g.cache[k]
  {
  }

  lemma {:induction false} RegisterAllIndex(g: Gpu, bs: seq<nat>, keys: seq<PrefixCacheKey>)
    requires |bs| == |keys|
    ensures IndexFrom(g.cache, RegisterAll(g, bs, keys).cache, bs, keys)
  {
    if bs != [] {
      var n := |bs| - 1;
      var g1 := RegisterAll(g, bs[..n], keys[..n]);
      RegisterAllIndex(g, bs[..n], keys[..n]);
      RegisterOneIndex(g1, bs[n], keys[n]);
      var g' := RegisterAll(g, bs, keys);
      hide RegisterOne, RegisterAll;
      forall k | k in g'.cache && !(k in g.cache && g'.cache[k] == g.cache[k])
        ensures exists i :: 0 <= i < |keys| && keys[i] == k && bs[i] == g'.cache[k]
      {
        if k == keys[n] {
          assert bs[n] == g'.cache[k];
        } else {
          var i :| 0 <= i < n && keys[..n][i] == k && bs[..n][i] == g1.cache[k];
          assert keys[i] == k && bs[i] == g'.cache[k];
        }
      }
    }
  }

  /** The claims of a block manager hold the input keys of the requests they are kept for. */
  ghost predicate ClaimsNamed(cfg: Worker, names: map<nat, Req>, g: Gpu) {
    forall id :: id in g.claims ==> id in names && g.claims[id].keys == InputKeys(cfg, names[id])
  }

  /** The call is request id's, and puts k on the n-th block of its row. */
  ghost predicate Puts(cfg: Worker, names: map<nat, Req>, g: Gpu, call: GpuCall, id: nat, n: nat, k: PrefixCacheKey,
                       b: nat) {
    && (call == CommitCall(id) || (call.FinishCall? && call.id == id))
    && id in names && id in g.tables && 1 <= n <= |g.tables[id]| && g.tables[id][n - 1] == b
    && Names(cfg, names[id], n, k)
  }

  ghost predicate IndexedBy(cfg: Worker, names: map<nat, Req>, g: Gpu, g': Gpu, call: GpuCall) {
    forall k :: k in g'.cache ==>
      || (k in g.cache && g'.cache[k] == g.cache[k])
      || exists id, n: nat :: Puts(cfg, names, g, call, id, n, k, g'.cache[k])
  }

  lemma {:induction false} Shrinks(cfg: Worker, names: map<nat, Req>, g: Gpu, g': Gpu, call: GpuCall)
    requires forall k :: k in g'.cache ==> k in g.cache && g'.cache[k] == g.cache[k]
    ensures IndexedBy(cfg, names, g, g', call)
  {
  }

  lemma {:induction false} IndexFromPuts(cfg: Worker, names: map<nat, Req>, g: Gpu, g': Gpu, call: GpuCall, id: nat,
                                         first: nat, bs: seq<nat>, keys: seq<PrefixCacheKey>)
    requires |bs| == |keys| && IndexFrom(g.cache, g'.cache, bs, keys)
    requires forall i :: 0 <= i < |keys| ==> Puts(cfg, names, g, call, id, first + i + 1, keys[i], bs[i])
    ensures IndexedBy(cfg, names, g, g', call)
  {
    hide Puts;
    forall k | k in g'.cache && !(k in g.cache && g'.cache[k] == g.cache[k])
      ensures exists x, n: nat :: Puts(cfg, names, g, call, x, n, k, g'.cache[k])
    {
      var i :| 0 <= i < |keys| && keys[i] == k && bs[i] == g'.cache[k];
      assert Puts(cfg, names, g, call, id, first + i + 1, keys[i], bs[i]);
    }
  }

  lemma {:induction false} CommitForm(cfg: Worker, names: map<nat, Req>, g: Gpu, id: nat)
    requires Inv(g) && ClaimsNamed(cfg, names, g) && id in g.tables
    ensures id in g.claims && id in names
    ensures var keys, row := InputKeys(cfg, names[id]), g.tables[id];
            && g.claims[id].keys == keys && |keys| <= |row|
            && CommitInput(g, id).cache
               == (if g.claims[id].committed then g.cache else RegisterAll(g, row[..|keys|], keys).cache)
  {
    InvClaims(g, id);
    hide Inv, InputKeys, RegisterAll;
    var keys := g.claims[id].keys;
    assert keys[..|keys|] == keys;
  }

  lemma {:induction false} InputPuts(cfg: Worker, names: map<nat, Req>, g: Gpu, id: nat, call: GpuCall)
    requires id in names && id in g.tables && |InputKeys(cfg, names[id])| <= |g.tables[id]|
    requires call == CommitCall(id) || (call.FinishCall? && call.id == id)
    ensures var keys := InputKeys(cfg, names[id]);
            forall i :: 0 <= i < |keys| ==> Puts(cfg, names, g, call, id, 0 + i + 1, keys[i], g.tables[id][..|keys|][i])
  {
    InputKeysAre(cfg, names[id]);
    hide InputKeys, InputName, OutputName;
  }

  lemma {:induction false} CommitIndex(cfg: Worker, names: map<nat, Req>, g: Gpu, id: nat, call: GpuCall)
    requires Inv(g) && ClaimsNamed(cfg, names, g) && id in g.tables && id in g.claims
    requires call == CommitCall(id) || (call.FinishCall? && call.id == id)
    ensures IndexedBy(cfg, names, g, CommitInput(g, id), call)
  {
    hide Inv, InputKeys, RegisterAll, IndexFrom, IndexedBy, ClaimsNamed, Puts, CommitInput;
    CommitForm(cfg, names, g, id);
    var g', keys := CommitInput(g, id), InputKeys(cfg, names[id]);
    if g.claims[id].committed {
      Shrinks(cfg, names, g, g', call);
    } else {
      var bs := g.tables[id][..|keys|];
      RegisterAllIndex(g, bs, keys);
      InputPuts(cfg, names, g, id, call);
      IndexFromPuts(cfg, names, g, g', call, id, 0, bs, keys);
    }
  }

  function OutputEnd(cfg: Worker, r: Req, row: seq<nat>): nat {
    if FullInputBlocks(cfg, r) + |OutputKeys(cfg, r)| <= |row| then FullInputBlocks(cfg, r) + |OutputKeys(cfg, r)| else |row|
  }

  lemma {:induction false} OutputForm(cfg: Worker, g: Gpu, id: nat, r: Req)
    requires id in g.tables
    ensures var row, start, end := g.tables[id], FullInputBlocks(cfg, r), OutputEnd(cfg, r, g.tables[id]);
            && end <= |row| && (start < end ==> end - start <= |OutputKeys(cfg, r)|)
            && RegisterOutput(g, id, start, OutputKeys(cfg, r))
               == if start >= end then g else RegisterAll(g, row[start..end], OutputKeys(cfg, r)[..end - start])
  {
    hide OutputKeys, FullInputBlocks, RegisterAll;
  }

  lemma {:induction false} OutputPuts(cfg: Worker, names: map<nat, Req>, g: Gpu, id: nat, call: GpuCall, m: nat)
    requires id in names && id in g.tables && call.FinishCall? && call.id == id
    requires var r := names[id]; m <= |OutputKeys(cfg, r)| && FullInputBlocks(cfg, r) + m <= |g.tables[id]|
    ensures var r := names[id];
            var start, keys := FullInputBlocks(cfg, r), OutputKeys(cfg, r);
            forall i :: 0 <= i < m ==>
              Puts(cfg, names, g, call, id, start + i + 1, keys[..m][i], g.tables[id][start..start + m][i])
  {
    var r := names[id];
    var start, keys := FullInputBlocks(cfg, r), OutputKeys(cfg, r);
    hide OutputKeys, FullInputBlocks, InputName, OutputName;
    forall i | 0 <= i < m
      ensures Puts(cfg, names, g, call, id, start + i + 1, keys[..m][i], g.tables[id][start..start + m][i])
    {
      OutputKeyAt(cfg, r, i);
    }
  }

  lemma {:induction false} OutputIndex(cfg: Worker, names: map<nat, Req>, g: Gpu, id: nat, call: GpuCall)
    requires id in names && id in g.tables && call.FinishCall? && call.id == id
    ensures var r := names[id];
            IndexedBy(cfg, names, g, RegisterOutput(g, id, FullInputBlocks(cfg, r), OutputKeys(cfg, r)), call)
  {
    hide OutputKeys, FullInputBlocks, RegisterAll, RegisterOutput, OutputEnd, IndexFrom, IndexedBy, Puts;
    var r, row := names[id], g.tables[id];
    var start, end := FullInputBlocks(cfg, r), OutputEnd(cfg, r, row);
    var g' := RegisterOutput(g, id, start, OutputKeys(cfg, r));
    OutputForm(cfg, g, id, r);
    if start < end {
      var m := end - start;
      assert start + m == end;
      RegisterAllIndex(g, row[start..end], OutputKeys(cfg, r)[..m]);
      OutputPuts(cfg, names, g, id, call, m);
      IndexFromPuts(cfg, names, g, g', call, id, start, row[start..end], OutputKeys(cfg, r)[..m]);
    } else {
      Shrinks(cfg, names, g, g', call);
    }
  }

  lemma {:induction false} IndexedThen(cfg: Worker, names: map<nat, Req>, g: Gpu, g1: Gpu, g': Gpu, call: GpuCall)
    requires IndexedBy(cfg, names, g, g1, call) && IndexedBy(cfg, names, g1, g', call) && g1.tables == g.tables
    ensures IndexedBy(cfg, names, g, g', call)
  {
    hide Names;
    forall k | k in g'.cache && !(k in g.cache && g'.cache[k] == g.cache[k])
      ensures exists id, n: nat :: Puts(cfg, names, g, call, id, n, k, g'.cache[k])
    {
      if k in g1.cache && g'.cache[k] == g1.cache[k] {
        var id, n: nat :| Puts(cfg, names, g, call, id, n, k, g1.cache[k]);
      } else {
        var id, n: nat :| Puts(cfg, names, g1, call, id, n, k, g'.cache[k]);
        assert Puts(cfg, names, g, call, id, n, k, g'.cache[k]);
      }
    }
  }

  lemma {:induction false} FinishIndex(cfg: Worker, names: map<nat, Req>, g: Gpu, call: GpuCall)
    requires Inv(g) && ClaimsNamed(cfg, names, g) && call.FinishCall? && MadeFor(cfg, names, g, call)
    ensures IndexedBy(cfg, names, g, Finish(g, call.id, call.outputStart, call.outputKeys), call)
  {
    var id := call.id;
    InvClaims(g, id);
    hide Inv, ClaimsNamed, IndexedBy, CommitInput, RegisterOutput, Release, OutputKeys, FullInputBlocks, Fills;
    CommitKeeps(g, id);
    CommitIndex(cfg, names, g, id, call);
    var g1 := CommitInput(g, id);
    OutputIndex(cfg, names, g1, id, call);
    var g2 := RegisterOutput(g1, id, call.outputStart, call.outputKeys);
    IndexedThen(cfg, names, g, g1, g2, call);
    OutputTables(g1, id, call.outputStart, call.outputKeys);
    ReleaseCache(g2, id);
    Shrinks(cfg, names, g2, Release(g2, id), call);
    IndexedThen(cfg, names, g, g2, Release(g2, id), call);
  }

  lemma {:induction false} RegisterAllTables(g: Gpu, bs: seq<nat>, keys: seq<PrefixCacheKey>)
    requires |bs| == |keys|
    ensures RegisterAll(g, bs, keys).tables == g.tables
  {
    if bs != [] {
      RegisterAllTables(g, bs[..|bs| - 1], keys[..|bs| - 1]);
    }
  }

  lemma {:induction false} OutputTables(g: Gpu, id: nat, start: nat, keys: seq<PrefixCacheKey>)
    ensures RegisterOutput(g, id, start, keys).tables == g.tables
  {
    hide RegisterAll;
    var table := TableOf(g, id);
    var end := if start + |keys| <= |table| then start + |keys| else |table|;
    if start < end {
      RegisterAllTables(g, table[start..end], keys[..end - start]);
    }
  }

  lemma {:induction false} ReleaseCache(g: Gpu, id: nat)
    ensures Release(g, id).cache == g.cache
  {
    FreeAllCache(g.(tables := g.tables - {id}), TableOf(g, id));
  }

  lemma {:induction false} FreeAllCache(g: Gpu, bs: seq<nat>)
    ensures FreeAll(g, bs).cache == g.cache
  {
    if bs != [] {
      FreeAllCache(g, bs[..|bs| - 1]);
    }
  }

  lemma {:induction false} AllocateShrinks(g: Gpu, ask: Ask, watermark: nat)
    requires Inv(g) && ask.id !in g.tables && |ask.keys| <= ask.logical && CanAllocate(g, ask, watermark)
    ensures var g' := AllocateAsk(g, ask).1; forall k :: k in g'.cache ==> k in g.cache && g'.cache[k] == g.cache[k]
  {
    AdmissionSound(g, ask, watermark);
    assert AllocMany(AfterHits(g, ask), MissCount(g, ask)).0;
    InvCore(g);
    hide Inv, Core, AllRefs, CanAllocate, AllocateAsk, AllocMany, AfterHits, Hits, Announced, Handed, Marked;
    AllocSteps(g, ask);
    AllocateMeans(g, ask);
    AllocateTables(g, ask);
  }

  lemma {:induction false} AppendShrinks(g: Gpu, id: nat, logical: nat)
    requires Inv(g)
    ensures var g' := AppendSlot(g, id, logical).1; forall k :: k in g'.cache ==> k in g.cache && g'.cache[k] == g.cache[k]
  {
    hide Inv, Core, AllRefs, AllocBlock, HasFree, Announced, Handed;
    InvCore(g);
    if |TableOf(g, id)| < logical && HasFree(g.pool) {
      AllocOne(g, AllRefs(g));
    }
  }

  /** One call made by the scheduler keeps the claims named, and indexes a key only on the block of the
      row that the key names. */
  lemma {:induction false} CallIndex(cfg: Worker, names: map<nat, Req>, g: Gpu, call: GpuCall)
    requires Inv(g) && ClaimsNamed(cfg, names, g) && MadeFor(cfg, names, g, call)
    ensures IndexedBy(cfg, names, g, GpuStep(g, cfg.watermark, call), call)
  {
    hide Inv, ClaimsNamed, IndexedBy, MadeFor, CanAllocate, AllocateAsk, AppendSlot, CommitInput, Finish, Release;
    var g' := GpuStep(g, cfg.watermark, call);
    if !Sensible(g, call) {
      Shrinks(cfg, names, g, g', call);
    } else {
      match call
      case AdmitCall(ask) =>
        if CanAllocate(g, ask, cfg.watermark) {
          AllocateShrinks(g, ask, cfg.watermark);
        }
        Shrinks(cfg, names, g, g', call);
      case AppendCall(id, logical) =>
        AppendShrinks(g, id, logical);
        Shrinks(cfg, names, g, g', call);
      case CommitCall(id) =>
        InvClaims(g, id);
        CommitIndex(cfg, names, g, id, call);
      case FinishCall(id, start, keys) => FinishIndex(cfg, names, g, call);
      case ReleaseCall(id) =>
        ReleaseCache(g, id);
        Shrinks(cfg, names, g, g', call);
      case ReserveCall(_) => NeverReserves(cfg, names, g, call);
      case ReleaseReservedCall(_) => NeverReserves(cfg, names, g, call);
    }
  }

  lemma {:induction false} NeverReserves(cfg: Worker, names: map<nat, Req>, g: Gpu, call: GpuCall)
    requires MadeFor(cfg, names, g, call)
    ensures !call.ReserveCall? && !call.ReleaseReservedCall?
  {
  }

  // ----- claims

  ghost predicate CommittedRegistered(g: Gpu) {
    forall id, i :: id in g.claims && g.claims[id].committed && 0 <= i < |g.claims[id].keys| ==>
      WasRegistered(g.trace, g.claims[id].keys[i])
  }

  /** Claims change only for the call's own request: keys on admission, the committed flag on commit. */
  lemma {:induction false} CallClaims(cfg: Worker, names: map<nat, Req>, g: Gpu, call: GpuCall)
    requires Ready(g, cfg.numBlocks) && ClaimsNamed(cfg, names, g) && MadeFor(cfg, names, g, call)
    ensures Ready(GpuStep(g, cfg.watermark, call), cfg.numBlocks)
    ensures ClaimsNamed(cfg, names, GpuStep(g, cfg.watermark, call))
  {
    hide CanAllocate, AllocateAsk, AppendSlot, CommitInput, Finish, Release, InputKeys, OutputKeys, Fills, Inv;
    if Sensible(g, call) {
      match call
      case AdmitCall(ask) =>
        if CanAllocate(g, ask, cfg.watermark) {
          AdmitFacts(g, cfg.numBlocks, cfg.watermark, ask);
        }
      case AppendCall(id, logical) => SlotFacts(cfg, g, id, logical);
      case CommitCall(id) =>
        CommitFacts(g, cfg.numBlocks, id);
        ClaimsOnly(g, id);
      case FinishCall(id, start, keys) =>
        InvClaims(g, id);
        FinishFacts(g, cfg.numBlocks, id, start, keys);
        FinishClaims(g, id, start, keys);
      case ReleaseCall(id) => ReleaseFacts(g, cfg.numBlocks, id);
    }
  }

  lemma {:induction false} SlotFacts(cfg: Worker, g: Gpu, id: nat, logical: nat)
    requires Ready(g, cfg.numBlocks) && id in g.tables
    ensures var g' := AppendSlot(g, id, logical).1; Ready(g', cfg.numBlocks) && g'.claims == g.claims
  {
    InvCore(g);
    FreeMeansHasFree(g, AllRefs(g));
    hide Inv, Core, AllRefs, AllocBlock, FreeCount;
    if CanAppend(g, id, logical) {
      AppendFacts(g, cfg.numBlocks, id, logical);
    }
  }

  lemma {:induction false} ClaimsOnly(g: Gpu, id: nat)
    requires Inv(g) && id in g.tables
    ensures CommitInput(g, id).claims.Keys == g.claims.Keys
  {
    InvClaims(g, id);
    if !ClaimOf(g, id).committed {
      CommitMeans(g, id);
      hide Inv, Core;
    }
  }

  lemma {:induction false} FinishClaims(g: Gpu, id: nat, start: nat, keys: seq<PrefixCacheKey>)
    requires Inv(g) && id in g.tables && |ClaimOf(g, id).keys| <= start
    ensures var g' := Finish(g, id, start, keys);
            && g'.claims.Keys == g.claims.Keys && id in g.claims && g'.claims[id].keys == g.claims[id].keys
  {
    hide Inv, InvBut, CommitInput, RegisterOutput, FreeAll;
    InvClaims(g, id);
    CommitKeeps(g, id);
    ClaimsOnly(g, id);
    var g1 := CommitInput(g, id);
    InvClaims(g1, id);
    OutputClaims(g1, id, start, keys);
    var g2 := RegisterOutput(g1, id, start, keys);
    FreeAllFrame(g2.(tables := g2.tables - {id}), TableOf(g2, id));
  }

  // ----- runs

  ghost predicate RunState(cfg: Worker, names: map<nat, Req>, g: Gpu) {
    Ready(g, cfg.numBlocks) && ClaimsNamed(cfg, names, g)
  }

  lemma {:induction false} MadeForFront(cfg: Worker, names: map<nat, Req>, calls: seq<GpuCall>)
    requires calls != [] && AllMadeFor(cfg, names, calls)
    ensures AllMadeFor(cfg, names, calls[..|calls| - 1])
    ensures MadeFor(cfg, names, GpuRun(cfg.numBlocks, cfg.watermark, calls[..|calls| - 1]), calls[|calls| - 1])
  {
    hide MadeFor, GpuRun;
    var front := calls[..|calls| - 1];
    forall i | 0 <= i < |front| ensures MadeFor(cfg, names, GpuRun(cfg.numBlocks, cfg.watermark, front[..i]), front[i]) {
      assert front[..i] == calls[..i];
    }
  }

  lemma {:induction false} RunNamed(cfg: Worker, names: map<nat, Req>, calls: seq<GpuCall>)
    requires AllMadeFor(cfg, names, calls)
    ensures RunState(cfg, names, GpuRun(cfg.numBlocks, cfg.watermark, calls))
  {
    hide AllMadeFor, MadeFor, GpuStep, InputKeys, Inv;
    if calls == [] {
      NewInv(cfg.numBlocks);
    } else {
      var front := calls[..|calls| - 1];
      MadeForFront(cfg, names, calls);
      RunNamed(cfg, names, front);
      CallClaims(cfg, names, GpuRun(cfg.numBlocks, cfg.watermark, front), calls[|calls| - 1]);
    }
  }

  /** k came to name b in call j, when b was the n-th block of request id's row and k its n-th key, and
      it has named b ever since. */
  ghost predicate Placed(cfg: Worker, names: map<nat, Req>, calls: seq<GpuCall>, j: nat, id: nat, n: nat,
                         k: PrefixCacheKey, b: nat) {
    && j < |calls|
    && Puts(cfg, names, GpuRun(cfg.numBlocks, cfg.watermark, calls[..j]), calls[j], id, n, k, b)
    && forall i :: j < i <= |calls| ==>
         var g := GpuRun(cfg.numBlocks, cfg.watermark, calls[..i]); k in g.cache && g.cache[k] == b
  }

  lemma {:induction false} StillPlaced(cfg: Worker, names: map<nat, Req>, calls: seq<GpuCall>, j: nat, id: nat, n: nat,
                                       k: PrefixCacheKey, b: nat)
    requires calls != [] && Placed(cfg, names, calls[..|calls| - 1], j, id, n, k, b)
    requires var g := GpuRun(cfg.numBlocks, cfg.watermark, calls); k in g.cache && g.cache[k] == b
    ensures Placed(cfg, names, calls, j, id, n, k, b)
  {
    hide Puts, GpuRun;
    var front := calls[..|calls| - 1];
    assert calls[..j] == front[..j] && calls[j] == front[j];
    forall i | j < i <= |calls|
      ensures var g := GpuRun(cfg.numBlocks, cfg.watermark, calls[..i]); k in g.cache && g.cache[k] == b
    {
      if i <= |front| {
        assert calls[..i] == front[..i];
      } else {
        assert calls[..i] == calls;
      }
    }
  }

  lemma {:induction false} NowPlaced(cfg: Worker, names: map<nat, Req>, calls: seq<GpuCall>, id: nat, n: nat,
                                     k: PrefixCacheKey, b: nat)
    requires calls != []
    requires Puts(cfg, names, GpuRun(cfg.numBlocks, cfg.watermark, calls[..|calls| - 1]), calls[|calls| - 1], id, n, k, b)
    requires var g := GpuRun(cfg.numBlocks, cfg.watermark, calls); k in g.cache && g.cache[k] == b
    ensures Placed(cfg, names, calls, |calls| - 1, id, n, k, b)
  {
    hide Puts, GpuRun;
    assert calls[..|calls|] == calls;
  }

  lemma {:induction false} RunPlaced(cfg: Worker, names: map<nat, Req>, calls: seq<GpuCall>, k: PrefixCacheKey)
    requires AllMadeFor(cfg, names, calls) && k in GpuRun(cfg.numBlocks, cfg.watermark, calls).cache
    ensures exists j: nat, id, n: nat ::
              Placed(cfg, names, calls, j, id, n, k, GpuRun(cfg.numBlocks, cfg.watermark, calls).cache[k])
  {
    hide AllMadeFor, MadeFor, GpuStep, Placed, Puts, Inv, ClaimsNamed;
    if calls != [] {
      var front, call := calls[..|calls| - 1], calls[|calls| - 1];
      var g, g' := GpuRun(cfg.numBlocks, cfg.watermark, front), GpuRun(cfg.numBlocks, cfg.watermark, calls);
      MadeForFront(cfg, names, calls);
      RunNamed(cfg, names, front);
      CallIndex(cfg, names, g, call);
      if k in g.cache && g'.cache[k] == g.cache[k] {
        RunPlaced(cfg, names, front, k);
        var j: nat, id, n: nat :| Placed(cfg, names, front, j, id, n, k, g.cache[k]);
        StillPlaced(cfg, names, calls, j, id, n, k, g.cache[k]);
      } else {
        var id, n: nat :| Puts(cfg, names, g, call, id, n, k, g'.cache[k]);
        NowPlaced(cfg, names, calls, id, n, k, g'.cache[k]);
      }
    }
  }

  // ----- the laws

  /** In every run of the worker an indexed key k names the n-th block of an added request, filled by its
      prompt or, behind a prompt of whole blocks, by its output; and the block indexed was the n-th of
      that request's row when a call of that request put it there, and has been k's ever since. */
  lemma {:induction false} IndexedKeysNameTheirBlocks(cfg: Worker, msgs: seq<Message>, k: PrefixCacheKey)
    requires k in HandleAll(cfg, msgs).gpu.cache
    ensures var s := HandleAll(cfg, msgs);
            exists calls, j: nat, id, n: nat ::
              && s.gpu == GpuRun(cfg.numBlocks, cfg.watermark, calls)
              && Placed(cfg, NamesOf(s), calls, j, id, n, k, s.gpu.cache[k])
              && NamesOf(s)[id] in Added(msgs)
  {
    var s := HandleAll(cfg, msgs);
    var names := NamesOf(s);
    hide HandleAll, NamesOf, GpuRun, AllMadeFor, Added;
    WorkerMakesCalls(cfg, msgs);
    var calls :| s.gpu == GpuRun(cfg.numBlocks, cfg.watermark, calls) && AllMadeFor(cfg, names, calls);
    RunPlaced(cfg, names, calls, k);
    var j: nat, id, n: nat :| Placed(cfg, names, calls, j, id, n, k, s.gpu.cache[k]);
    assert id in names;
    hide Puts;
  }

  lemma {:induction false} CallKeyNamed(cfg: Worker, names: map<nat, Req>, g: Gpu, call: GpuCall, k: PrefixCacheKey)
    requires MadeFor(cfg, names, g, call) && k in CallKeys(call)
    ensures exists id, n: nat :: id in names && Names(cfg, names[id], n, k)
  {
    hide InputKeys, OutputKeys, InputName, OutputName, Fills;
    match call
    case AdmitCall(ask) =>
      var i :| 0 <= i < |ask.keys| && ask.keys[i] == k;
      InputKeysAre(cfg, names[ask.id]);
      assert Names(cfg, names[ask.id], i + 1, k);
    case FinishCall(id, start, keys) =>
      var i :| 0 <= i < |keys| && keys[i] == k;
      OutputKeyAt(cfg, names[id], i);
      assert Names(cfg, names[id], start + i + 1, k);
  }

  /** And a key registered in any run, indexed still or not, names a block of an added request. */
  lemma {:induction false} RegisteredKeysNameBlocks(cfg: Worker, msgs: seq<Message>, k: PrefixCacheKey)
    requires WasRegistered(HandleAll(cfg, msgs).gpu.trace, k)
    ensures exists r, n: nat :: r in Added(msgs) && Names(cfg, r, n, k)
  {
    var names, g := NamesOf(HandleAll(cfg, msgs)), HandleAll(cfg, msgs).gpu;
    hide HandleAll, NamesOf, GpuRun, MadeFor, Added, Names, WasRegistered;
    WorkerMakesCalls(cfg, msgs);
    var calls :| g == GpuRun(cfg.numBlocks, cfg.watermark, calls) && AllMadeFor(cfg, names, calls);
    RunAsked(cfg.numBlocks, cfg.watermark, calls);
    var i :| 0 <= i < |calls| && k in CallKeys(calls[i]);
    hide CallKeys;
    CallKeyNamed(cfg, names, GpuRun(cfg.numBlocks, cfg.watermark, calls[..i]), calls[i], k);
    var id, n: nat :| id in names && Names(cfg, names[id], n, k);
    assert names[id] in Added(msgs);
  }

  // ----- what is registered, and when

  lemma {:induction false} RegisterOneRegisters(g: Gpu, b: nat, key: PrefixCacheKey, k: PrefixCacheKey)
    ensures WasRegistered(RegisterOne(g, b, key).trace, k) <==> WasRegistered(g.trace, k) || k == key
  {
    var trace := RegisterOne(g, b, key).trace;
    assert trace[|trace| - 1] == Registered(key);
    if WasRegistered(g.trace, k) {
      var i :| 0 <= i < |g.trace| && g.trace[i] == Registered(k);
      assert trace[i] == g.trace[i];
    }
  }

  lemma {:induction false} RegisterAllRegisters(g: Gpu, bs: seq<nat>, keys: seq<PrefixCacheKey>, k: PrefixCacheKey)
    requires |bs| == |keys|
    ensures WasRegistered(RegisterAll(g, bs, keys).trace, k) <==> WasRegistered(g.trace, k) || k in keys
  {
    hide RegisterOne, WasRegistered;
    if bs != [] {
      var n := |bs| - 1;
      assert keys == keys[..n] + [keys[n]];
      RegisterAllRegisters(g, bs[..n], keys[..n], k);
      RegisterOneRegisters(RegisterAll(g, bs[..n], keys[..n]), bs[n], keys[n], k);
    }
  }

  lemma {:induction false} CommitTraceForm(cfg: Worker, names: map<nat, Req>, g: Gpu, id: nat)
    requires Inv(g) && ClaimsNamed(cfg, names, g) && id in g.tables
    ensures id in g.claims && id in names
    ensures var keys, row := InputKeys(cfg, names[id]), g.tables[id];
            && |keys| <= |row|
            && CommitInput(g, id).trace
               == (if g.claims[id].committed then g.trace else RegisterAll(g, row[..|keys|], keys).trace)
  {
    InvClaims(g, id);
    hide Inv, InputKeys, RegisterAll;
    var keys := g.claims[id].keys;
    assert keys[..|keys|] == keys;
  }

  ghost predicate IsInputName(cfg: Worker, r: Req, k: PrefixCacheKey) {
    exists n: nat :: InputName(cfg, r, n, k)
  }

  /** k is an output key of one of the request's first `blocks` blocks. */
  ghost predicate IsOutputName(cfg: Worker, r: Req, blocks: nat, k: PrefixCacheKey) {
    exists n: nat :: n <= blocks && OutputName(cfg, r, n, k)
  }

  lemma {:induction false} InputKeysNamed(cfg: Worker, r: Req, k: PrefixCacheKey)
    ensures k in InputKeys(cfg, r) <==> IsInputName(cfg, r, k)
  {
    InputKeysAre(cfg, r);
    hide InputKeys, InputName;
    if k in InputKeys(cfg, r) {
      var i :| 0 <= i < |InputKeys(cfg, r)| && InputKeys(cfg, r)[i] == k;
      assert InputName(cfg, r, i + 1, k);
    }
    if n: nat :| InputName(cfg, r, n, k) {
      assert n >= 1 && InputKeys(cfg, r)[n - 1] == k by { InputNamePositive(cfg, r, n, k); }
    }
  }

  lemma {:induction false} InputNamePositive(cfg: Worker, r: Req, n: nat, k: PrefixCacheKey)
    requires InputName(cfg, r, n, k)
    ensures n >= 1
  {
  }

  lemma {:induction false} OutputKeysNamed(cfg: Worker, r: Req, blocks: nat, k: PrefixCacheKey)
    ensures var full, keys := FullInputBlocks(cfg, r), OutputKeys(cfg, r);
            var m := if blocks <= full then 0 else if blocks - full <= |keys| then blocks - full else |keys|;
            k in keys[..m] <==> IsOutputName(cfg, r, blocks, k)
  {
    var full, keys := FullInputBlocks(cfg, r), OutputKeys(cfg, r);
    var m := if blocks <= full then 0 else if blocks - full <= |keys| then blocks - full else |keys|;
    if k in keys[..m] {
      var i :| 0 <= i < m && keys[..m][i] == k;
      OutputKeyAt(cfg, r, i);
      hide OutputName, OutputKeys, FullInputBlocks;
      assert full + i + 1 <= blocks && OutputName(cfg, r, full + i + 1, k);
    }
    if IsOutputName(cfg, r, blocks, k) {
      var n: nat :| n <= blocks && OutputName(cfg, r, n, k);
      OutputNameAt(cfg, r, n, k);
      hide OutputName, OutputKeys, FullInputBlocks;
      assert keys[..m][n - full - 1] == k;
    }
  }

  lemma {:induction false} CommitRegisters(cfg: Worker, names: map<nat, Req>, g: Gpu, id: nat, k: PrefixCacheKey)
    requires Inv(g) && ClaimsNamed(cfg, names, g) && id in g.tables
    ensures id in g.claims && id in names
    ensures WasRegistered(CommitInput(g, id).trace, k)
            <==> WasRegistered(g.trace, k) || (!g.claims[id].committed && IsInputName(cfg, names[id], k))
  {
    hide Inv, ClaimsNamed, CommitInput, InputKeys, RegisterAll, WasRegistered, IsInputName;
    CommitTraceForm(cfg, names, g, id);
    var keys := InputKeys(cfg, names[id]);
    InputKeysNamed(cfg, names[id], k);
    RegisterAllRegisters(g, g.tables[id][..|keys|], keys, k);
  }

  lemma {:induction false} OutputRegisters(cfg: Worker, g: Gpu, id: nat, r: Req, k: PrefixCacheKey)
    requires id in g.tables
    ensures WasRegistered(RegisterOutput(g, id, FullInputBlocks(cfg, r), OutputKeys(cfg, r)).trace, k)
            <==> WasRegistered(g.trace, k) || IsOutputName(cfg, r, |g.tables[id]|, k)
  {
    hide OutputKeys, FullInputBlocks, RegisterAll, RegisterOutput, WasRegistered, IsOutputName;
    var row := g.tables[id];
    var start, end, keys := FullInputBlocks(cfg, r), OutputEnd(cfg, r, row), OutputKeys(cfg, r);
    OutputForm(cfg, g, id, r);
    OutputKeysNamed(cfg, r, |row|, k);
    if start < end {
      RegisterAllRegisters(g, row[start..end], keys[..end - start], k);
    }
  }

  /** A request that finishes registers its input keys, unless that was done, and the output keys of the
      blocks its row has; nothing else. */
  lemma {:induction false} FinishRegisters(cfg: Worker, names: map<nat, Req>, g: Gpu, call: GpuCall, k: PrefixCacheKey)
    requires Inv(g) && ClaimsNamed(cfg, names, g) && call.FinishCall? && MadeFor(cfg, names, g, call)
    ensures var id := call.id;
            && id in g.tables && id in g.claims && id in names
            && (WasRegistered(GpuStep(g, cfg.watermark, call).trace, k)
                <==> || WasRegistered(g.trace, k)
                     || (!g.claims[id].committed && IsInputName(cfg, names[id], k))
                     || IsOutputName(cfg, names[id], |g.tables[id]|, k))
  {
    var id := call.id;
    InvClaims(g, id);
    assert |ClaimOf(g, id).keys| <= call.outputStart by { InputsFit(cfg, names[id]); }
    assert call.outputStart == FullInputBlocks(cfg, names[id]) && call.outputKeys == OutputKeys(cfg, names[id]);
    hide Inv, ClaimsNamed, MadeFor, CommitInput, RegisterOutput, Release, OutputKeys, FullInputBlocks, WasRegistered,
         IsInputName, IsOutputName;
    CommitKeeps(g, id);
    CommitRegisters(cfg, names, g, id, k);
    var g1 := CommitInput(g, id);
    OutputRegisters(cfg, g1, id, names[id], k);
    var g2 := RegisterOutput(g1, id, call.outputStart, call.outputKeys);
    ReleaseTrace(g2, id);
  }

  lemma {:induction false} ReleaseTrace(g: Gpu, id: nat)
    ensures Release(g, id).trace == g.trace
  {
    FreeAllFrame(g.(tables := g.tables - {id}), TableOf(g, id));
  }

  lemma {:induction false} RowReaches(cfg: Worker, r: Req, blocks: nat)
    requires r.prefill % cfg.blockSize == 0 && Fills(cfg, blocks, r.prefill + r.decode - 1) && r.decode >= 1
    ensures FullInputBlocks(cfg, r) < blocks <==> r.decode >= 2
  {
    var d, full := cfg.blockSize, FullInputBlocks(cfg, r);
    assert full * d == r.prefill;
    if r.decode >= 2 {
      BlocksOrder(d, full + 1, blocks) by { assert (full + 1) * d == full * d + d; }
    } else if blocks > 0 {
      BlocksOrder(d, blocks, full) by { assert (blocks - 1) * d == blocks * d - d; }
    }
  }

  lemma {:induction false} OutputNameBounds(cfg: Worker, r: Req, n: nat, k: PrefixCacheKey)
    requires OutputName(cfg, r, n, k)
    ensures HasOutputKeys(cfg, r) && FullInputBlocks(cfg, r) < n
  {
    OutputNameAt(cfg, r, n, k);
    OutputKeysIff(cfg, r);
    hide OutputKeys, HasOutputKeys, OutputName, FullInputBlocks;
  }

  lemma {:induction false} FirstOutput(cfg: Worker, r: Req, blocks: nat)
    requires HasOutputKeys(cfg, r) && FullInputBlocks(cfg, r) < blocks
    ensures exists k :: IsOutputName(cfg, r, blocks, k)
  {
    OutputKeysIff(cfg, r);
    hide HasOutputKeys, OutputKeys, FullInputBlocks, OutputName;
    OutputKeyAt(cfg, r, 0);
    assert IsOutputName(cfg, r, blocks, OutputKeys(cfg, r)[0]);
  }

  /** A row that holds all tokens but the last reaches an output block exactly when more than one token
      is generated. */
  lemma {:induction false} OutputReached(cfg: Worker, r: Req, blocks: nat)
    requires Fills(cfg, blocks, r.prefill + r.decode - 1) && r.decode >= 1
    ensures (exists k :: IsOutputName(cfg, r, blocks, k)) <==> HasOutputKeys(cfg, r) && r.decode >= 2
  {
    assert HasOutputKeys(cfg, r) ==> r.prefill % cfg.blockSize == 0;
    hide HasOutputKeys, OutputKeys, FullInputBlocks, OutputName, Fills;
    if HasOutputKeys(cfg, r) {
      RowReaches(cfg, r, blocks);
      if r.decode >= 2 {
        FirstOutput(cfg, r, blocks);
      }
    }
    forall k, n: nat | n <= blocks && OutputName(cfg, r, n, k)
      ensures HasOutputKeys(cfg, r) && FullInputBlocks(cfg, r) < n
    {
      OutputNameBounds(cfg, r, n, k);
    }
  }

  /** In every run of the worker, whenever a request finishes: some output key of its own is registered
      exactly when its prompt fills whole blocks, all hashed, and its output is hashed, fills a block and
      is more than one token; and the keys registered are its own. */
  lemma {:induction false} FinishedOutputs(cfg: Worker, names: map<nat, Req>, calls: seq<GpuCall>, j: nat,
                                           k: PrefixCacheKey)
    requires AllMadeFor(cfg, names, calls) && j < |calls| && calls[j].FinishCall?
    requires calls[j].id in names && names[calls[j].id].decode >= 1
    ensures var g, g' := GpuRun(cfg.numBlocks, cfg.watermark, calls[..j]),
                         GpuStep(GpuRun(cfg.numBlocks, cfg.watermark, calls[..j]), cfg.watermark, calls[j]);
            var r := names[calls[j].id];
            && calls[j].id in g.tables
            && (WasRegistered(g'.trace, k) && !WasRegistered(g.trace, k) ==>
                  IsInputName(cfg, r, k) || IsOutputName(cfg, r, |g.tables[calls[j].id]|, k))
            && (IsOutputName(cfg, r, |g.tables[calls[j].id]|, k) ==> WasRegistered(g'.trace, k))
            && ((exists x :: IsOutputName(cfg, r, |g.tables[calls[j].id]|, x)) <==> HasOutputKeys(cfg, r) && r.decode >= 2)
  {
    var g := GpuRun(cfg.numBlocks, cfg.watermark, calls[..j]);
    assert MadeFor(cfg, names, g, calls[j]);
    MadeForPrefix(cfg, names, calls, j);
    RunNamed(cfg, names, calls[..j]);
    OutputReached(cfg, names[calls[j].id], |g.tables[calls[j].id]|);
    hide GpuRun, GpuStep, AllMadeFor, MadeFor, ClaimsNamed, Inv, Fills, HasOutputKeys, IsOutputName, IsInputName,
         WasRegistered;
    FinishRegisters(cfg, names, g, calls[j], k);
  }

  lemma {:induction false} MadeForPrefix(cfg: Worker, names: map<nat, Req>, calls: seq<GpuCall>, j: nat)
    requires AllMadeFor(cfg, names, calls) && j <= |calls|
    ensures AllMadeFor(cfg, names, calls[..j])
  {
    hide MadeFor, GpuRun;
    var front := calls[..j];
    forall i | 0 <= i < |front| ensures MadeFor(cfg, names, GpuRun(cfg.numBlocks, cfg.watermark, front[..i]), front[i]) {
      assert front[..i] == calls[..i];
    }
  }
}

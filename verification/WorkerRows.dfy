/** A request's row of blocks keeps pace with its tokens: whatever the worker does, a scheduled request
    has the blocks its prompt and the tokens generated so far fill, and no more. */
module WorkerRows {
  import opened Containers
  import opened Keys
  import opened BlockPools
  import opened BlockModel
  import opened BlockRuns
  import opened SchedulerModel
  import opened SchedulerBlocks
  import opened SchedulerSafety
  import opened Termination
  import opened WorkerRuns

  /** So many blocks hold so many tokens, and one block less would not. */
  predicate Fills(cfg: Worker, blocks: nat, tokens: int) {
    blocks * cfg.blockSize >= tokens && (blocks == 0 || (blocks - 1) * cfg.blockSize < tokens)
  }

  lemma {:induction false} TimesOrder(d: nat, p: int, q: int)
    requires p <= q
    ensures p * d <= q * d
  {
    var k: nat := q - p;
    assert q * d == p * d + k * d;
  }

  lemma {:induction false} BlocksOrder(d: nat, p: int, q: int)
    requires d >= 1 && p * d < q * d + d
    ensures p <= q
  {
    if q + 1 <= p {
      TimesOrder(d, q + 1, p);
    }
  }

  lemma {:induction false} FillsIffCeil(cfg: Worker, blocks: nat, tokens: nat)
    ensures Fills(cfg, blocks, tokens) <==> blocks == CeilDiv(tokens, cfg.blockSize)
  {
    var d, q := cfg.blockSize, CeilDiv(tokens, cfg.blockSize);
    assert q * d <= tokens + d - 1 < q * d + d;
    if Fills(cfg, blocks, tokens) {
      BlocksOrder(d, q, blocks);
      if blocks > 0 {
        BlocksOrder(d, blocks - 1, q - 1);
      }
    }
    assert (q - 1) * d == q * d - d;
    assert q == 0 || (q - 1) * d < tokens;
  }

  lemma {:induction false} FillsPlainly(cfg: Worker, blocks: nat, tokens: nat)
    ensures Fills(cfg, blocks, tokens) ==>
              blocks * cfg.blockSize >= tokens && (blocks - 1) * cfg.blockSize < tokens
    ensures NearlyFills(cfg, blocks, tokens) ==>
              blocks * cfg.blockSize >= tokens - 1 && (blocks - 1) * cfg.blockSize < tokens
  {
    var below: int := -1;
    assert below * cfg.blockSize + cfg.blockSize == 0;
  }

  function Row(g: Gpu, id: nat): nat {
    |TableOf(g, id)|
  }

  function TokensOf(r: Req): nat {
    r.prefill + r.gen
  }

  /** The rows fit the tokens exactly, as when a batch has been scheduled. */
  ghost predicate Exact(cfg: Worker, s: Sched, ids: seq<nat>) {
    forall id :: id in ids ==> id in s.reqs && Fills(cfg, Row(s.gpu, id), TokensOf(s.reqs[id]))
  }

  predicate NearlyFills(cfg: Worker, blocks: nat, tokens: int) {
    Fills(cfg, blocks, tokens) || Fills(cfg, blocks, tokens - 1)
  }

  /** Between STEPs a row may lack the block of the token generated last. */
  ghost predicate Near(cfg: Worker, s: Sched, ids: seq<nat>) {
    forall id :: id in ids ==> id in s.reqs && NearlyFills(cfg, Row(s.gpu, id), TokensOf(s.reqs[id]))
  }

  ghost predicate SameRows(g: Gpu, g': Gpu, ids: seq<nat>) {
    forall id :: id in ids ==> Row(g', id) == Row(g, id)
  }

  // ----- one operation each

  lemma {:induction false} LogicalFills(cfg: Worker, r: Req)
    ensures Fills(cfg, Logical(cfg, r), TokensOf(r))
  {
    FillsIffCeil(cfg, Logical(cfg, r), TokensOf(r));
  }

  lemma {:induction false} AdmitHeadRows(cfg: Worker, s: Sched, ids: seq<nat>)
    requires Base(cfg, s, s.running) && s.waiting != [] && (forall id :: id in ids ==> id in s.running)
    requires CanAllocate(s.gpu, AskOf(cfg, s.waiting[0], ReqAt(s, s.waiting[0])), cfg.watermark)
    ensures SameRows(s.gpu, AdmitHead(cfg, s).gpu, ids) && Exact(cfg, AdmitHead(cfg, s), [s.waiting[0]])
  {
    hide Base, CanAllocate, AllocateAsk, InputKeys, Logical, Ready, NoneLost, Queued, HoldBlocks, NewRow, Fills, TokensOf;
    WaitingHead(cfg, s, s.running);
    var id := s.waiting[0];
    var r := s.reqs[id];
    KeysFit(cfg, r);
    AdmitFacts(s.gpu, cfg.numBlocks, cfg.watermark, AskOf(cfg, id, r));
    LogicalFills(cfg, r);
  }

  lemma {:induction false} GrownFills(cfg: Worker, n: nat, tokens: nat)
    requires NearlyFills(cfg, n, tokens) && n <= CeilDiv(tokens, cfg.blockSize)
    ensures Fills(cfg, if n < CeilDiv(tokens, cfg.blockSize) then n + 1 else n, tokens)
  {
    FillsIffCeil(cfg, CeilDiv(tokens, cfg.blockSize), tokens);
    var m, d := CeilDiv(tokens, cfg.blockSize), cfg.blockSize;
    if n < m && !Fills(cfg, n, tokens) {
      assert n * d + d == (n + 1) * d;
      assert (m - 1) * d < tokens <= n * d + 1;
      assert (m - 2) * d == (m - 1) * d - d;
      BlocksOrder(d, m - 2, n - 1) by {
        assert (n - 1) * d == n * d - d;
      }
    }
  }

  lemma {:induction false} AppendRows(cfg: Worker, s: Sched, active: seq<nat>, id: nat)
    requires Base(cfg, s, active) && id in active && CanAppend(s.gpu, id, Logical(cfg, ReqAt(s, id)))
    requires id in s.reqs && NearlyFills(cfg, Row(s.gpu, id), TokensOf(s.reqs[id]))
    ensures forall x :: x in active && x != id ==> Row(Append(cfg, s, id).gpu, x) == Row(s.gpu, x)
    ensures Fills(cfg, Row(Append(cfg, s, id).gpu, id), TokensOf(s.reqs[id]))
  {
    hide AppendSlot, CanAppend, InputKeys, Ready, NoneLost, AllFit, Queued, Fills, NearlyFills, CeilDiv;
    assert RowFits(cfg, s.gpu, id, s.reqs[id]);
    var logical := Logical(cfg, s.reqs[id]);
    AppendFacts(s.gpu, cfg.numBlocks, id, logical);
    var g' := AppendSlot(s.gpu, id, logical).1;
    assert forall x :: x in g'.tables <==> x in g'.tables.Keys;
    assert forall x :: x in s.gpu.tables <==> x in s.gpu.tables.Keys;
    GrownFills(cfg, Row(s.gpu, id), TokensOf(s.reqs[id]));
  }

  lemma {:induction false} PreemptRows(s: Sched, id: nat, n: nat)
    requires Ready(s.gpu, n)
    ensures forall x :: x != id ==> Row(Preempt(s, id).gpu, x) == Row(s.gpu, x)
  {
    hide Release, Ready;
    ReleaseFacts(s.gpu, n, id);
  }

  // ----- scheduling

  lemma {:induction false} ExactSame(cfg: Worker, s: Sched, s': Sched, ids: seq<nat>)
    requires Exact(cfg, s, ids) && SameRows(s.gpu, s'.gpu, ids)
    requires forall id :: id in ids && id in s.reqs ==> id in s'.reqs && TokensOf(s'.reqs[id]) == TokensOf(s.reqs[id])
    ensures Exact(cfg, s', ids)
  {
    hide Fills, TokensOf;
  }

  lemma {:induction false} NearSame(cfg: Worker, s: Sched, s': Sched, ids: seq<nat>)
    requires Near(cfg, s, ids) && SameRows(s.gpu, s'.gpu, ids)
    requires forall id :: id in ids && id in s.reqs ==> id in s'.reqs && TokensOf(s'.reqs[id]) == TokensOf(s.reqs[id])
    ensures Near(cfg, s', ids)
  {
    hide NearlyFills, TokensOf;
  }

  lemma {:induction false} ExactJoin(cfg: Worker, s: Sched, a: seq<nat>, b: seq<nat>)
    requires Exact(cfg, s, a) && Exact(cfg, s, b)
    ensures Exact(cfg, s, a + b)
  {
    hide Fills, TokensOf;
  }

  /** The admitted batch gets exactly the blocks its tokens fill, and nobody else's row changes. */
  lemma {:induction false} AdmitAllRows(cfg: Worker, s: Sched, phase: Option<bool>, ids: seq<nat>)
    requires Base(cfg, s, s.running) && forall id :: id in ids ==> id in s.running
    ensures var (s', batch) := AdmitAll(cfg, s, phase);
            SameRows(s.gpu, s'.gpu, ids) && Exact(cfg, s', batch)
    decreases |s.waiting|
  {
    hide CanAllocate, AdmitHead, Base, BelowUsage, AskOf, Fills, TokensOf;
    if s.waiting != [] && Admits(cfg, s, phase) {
      var id, s1 := s.waiting[0], AdmitHead(cfg, s);
      AdmitHeadKeeps(cfg, s, s.running);
      AdmitHeadRows(cfg, s, ids);
      assert id in s1.running;
      AdmitAllRows(cfg, s1, Some(ReqAt(s, id).recompute), ids + [id]);
      AdmitAllKeeps(cfg, s1, Some(ReqAt(s, id).recompute));
      var (s', more) := AdmitAll(cfg, s1, Some(ReqAt(s, id).recompute));
      hide AdmitAll;
      ExactSame(cfg, s1, s', [id]);
      ExactJoin(cfg, s', [id], more);
    }
  }

  lemma {:induction false} DecodeAllRows(cfg: Worker, s: Sched, todo: seq<nat>, kept: seq<nat>, preempted: seq<nat>)
    requires DecodeOk(cfg, s, kept + todo) && Exact(cfg, s, kept) && Near(cfg, s, todo)
    ensures var (s', kept', _) := DecodeAll(cfg, s, todo, kept, preempted); Exact(cfg, s', kept')
    decreases |todo|
  {
    hide DecodeOk, Base, Append, Preempt, CanAppend, Logical, Exact, Near;
    if todo != [] {
      var id, n := todo[0], |todo| - 1;
      DecodeBase(cfg, s, kept + todo);
      assert (kept + todo)[|kept|] == id && (kept + todo)[|kept| + n] == todo[n];
      ActiveDistinct(cfg, s, kept + todo);
      if CanAppend(s.gpu, id, Logical(cfg, ReqAt(s, id))) {
        AppendDecodeOk(cfg, s, kept + todo, id);
        assert kept + todo == kept + [id] + todo[1..];
        AppendedRows(cfg, s, kept, todo);
        DecodeAllRows(cfg, Append(cfg, s, id), todo[1..], kept + [id], preempted);
      } else {
        assert kept + todo == kept + todo[..n] + [todo[n]];
        PreemptDecodeOk(cfg, s, kept + todo[..n], todo[n]);
        PreemptedRows(cfg, s, kept, todo);
        DecodeAllRows(cfg, Preempt(s, todo[n]), todo[..n], kept, preempted + [todo[n]]);
      }
    }
  }

  lemma {:induction false} OnlyThere(a: seq<nat>, b: seq<nat>, i: nat)
    requires Distinct(a + b) && i < |b|
    ensures b[i] !in a && (forall j :: 0 <= j < |b| && j != i ==> b[j] != b[i])
  {
    forall j | 0 <= j < |a| ensures a[j] != b[i] {
      assert (a + b)[j] == a[j] && (a + b)[|a| + i] == b[i];
    }
    forall j | 0 <= j < |b| && j != i ensures b[j] != b[i] {
      assert (a + b)[|a| + j] == b[j] && (a + b)[|a| + i] == b[i];
    }
  }

  lemma {:induction false} AppendedRows(cfg: Worker, s: Sched, kept: seq<nat>, todo: seq<nat>)
    requires todo != [] && Base(cfg, s, kept + todo) && Distinct(kept + todo)
    requires Exact(cfg, s, kept) && Near(cfg, s, todo) && CanAppend(s.gpu, todo[0], Logical(cfg, ReqAt(s, todo[0])))
    ensures Exact(cfg, Append(cfg, s, todo[0]), kept + [todo[0]]) && Near(cfg, Append(cfg, s, todo[0]), todo[1..])
  {
    var id := todo[0];
    OnlyThere(kept, todo, 0);
    assert (kept + todo)[|kept|] == id;
    assert id in s.reqs && NearlyFills(cfg, Row(s.gpu, id), TokensOf(s.reqs[id]));
    AppendRows(cfg, s, kept + todo, id);
    var s' := Append(cfg, s, id);
    assert s'.reqs == s.reqs;
    assert forall x :: x in todo[1..] ==> x in todo && x != id;
    assert Near(cfg, s, todo[1..]);
    hide Base, Append, Logical, CanAppend, Distinct, Near, Exact, Row;
    NearSame(cfg, s, s', todo[1..]);
    ExactSame(cfg, s, s', kept);
    ExactOne(cfg, s', id);
    ExactJoin(cfg, s', kept, [id]);
  }

  lemma {:induction false} ExactOne(cfg: Worker, s: Sched, id: nat)
    requires id in s.reqs && Fills(cfg, Row(s.gpu, id), TokensOf(s.reqs[id]))
    ensures Exact(cfg, s, [id])
  {
  }

  lemma {:induction false} PreemptedRows(cfg: Worker, s: Sched, kept: seq<nat>, todo: seq<nat>)
    requires todo != [] && Base(cfg, s, kept + todo) && Distinct(kept + todo)
    requires Exact(cfg, s, kept) && Near(cfg, s, todo)
    ensures var s' := Preempt(s, todo[|todo| - 1]); Exact(cfg, s', kept) && Near(cfg, s', todo[..|todo| - 1])
  {
    var n := |todo| - 1;
    var id := todo[n];
    OnlyThere(kept, todo, n);
    PreemptRows(s, id, cfg.numBlocks);
    hide Base, Release, Distinct, NearlyFills, Fills, Row;
    assert forall x :: x in todo[..n] ==> x in todo && x != id;
    assert id in s.reqs;
    ExactSame(cfg, s, Preempt(s, id), kept);
    assert Near(cfg, s, todo[..n]);
    NearSame(cfg, s, Preempt(s, id), todo[..n]);
  }

  // ----- the rest of a STEP

  lemma {:induction false} CommitRows(cfg: Worker, s: Sched, active: seq<nat>, id: nat)
    requires Base(cfg, s, active) && id in active
    ensures Commit(s, id).gpu.tables == s.gpu.tables
  {
    hide CommitInput, Ready, NoneLost, Queued, AllFit, Logical, InputKeys;
    assert RowFits(cfg, s.gpu, id, s.reqs[id]);
    CommitFacts(s.gpu, cfg.numBlocks, id);
  }

  lemma {:induction false} FinishRecomputeRows(cfg: Worker, s: Sched, active: seq<nat>, batch: seq<nat>)
    requires Base(cfg, s, active) && forall id :: id in batch ==> id in active
    ensures FinishRecompute(s, batch).gpu.tables == s.gpu.tables
  {
    hide Base, CommitInput;
    if batch != [] {
      var front, id := batch[..|batch| - 1], batch[|batch| - 1];
      assert batch == front + [id];
      FinishRecomputeRows(cfg, s, active, front);
      FinishRecomputeMeans(cfg, s, active, front);
      CommitRows(cfg, FinishRecompute(s, front), active, id);
    }
  }

  lemma {:induction false} CommitGeneratedRows(cfg: Worker, s: Sched, active: seq<nat>, batch: seq<nat>)
    requires Base(cfg, s, active) && forall id :: id in batch ==> id in active
    ensures CommitGenerated(s, batch).gpu.tables == s.gpu.tables
  {
    hide Base, CommitInput;
    if batch != [] {
      var front, id := batch[..|batch| - 1], batch[|batch| - 1];
      assert batch == front + [id];
      CommitGeneratedRows(cfg, s, active, front);
      CommitGeneratedMeans(cfg, s, active, front);
      CommitRows(cfg, CommitGenerated(s, front), active, id);
    }
  }

  lemma {:induction false} FinishRows(cfg: Worker, s: Sched, active: seq<nat>, id: nat)
    requires Base(cfg, s, active) && id in active
    ensures var r := ReqAt(s, id);
            Finish(s.gpu, id, FullInputBlocks(cfg, r), OutputKeys(cfg, r)).tables == s.gpu.tables - {id}
  {
    hide Finish, OutputKeys, Ready, Queued, AllFit, Logical, NoneLost;
    var r := s.reqs[id];
    assert RowFits(cfg, s.gpu, id, r);
    FinishFacts(s.gpu, cfg.numBlocks, id, FullInputBlocks(cfg, r), OutputKeys(cfg, r));
  }

  lemma {:induction false} FreeDoneRows(cfg: Worker, s: Sched, active: seq<nat>, batch: seq<nat>, x: nat)
    requires Base(cfg, s, active) && Distinct(batch) && forall id :: id in batch ==> id in active
    requires !(x in batch && IsDone(ReqAt(s, x)))
    ensures Row(FreeDone(cfg, s, batch).gpu, x) == Row(s.gpu, x)
  {
    hide Base, Finish, OutputKeys, FullInputBlocks;
    if batch != [] {
      var front, id := batch[..|batch| - 1], batch[|batch| - 1];
      assert batch == front + [id] && id !in front;
      FreeDoneRows(cfg, s, active, front, x);
      FreeDoneMeans(cfg, s, active, front);
      LeavingMember(s, active, front, id);
      if IsDone(ReqAt(FreeDone(cfg, s, front), id)) {
        FinishRows(cfg, FreeDone(cfg, s, front), Leaving(s, active, front), id);
      }
    }
  }

  lemma {:induction false} UpdateRows(cfg: Worker, s: Sched, batch: seq<nat>)
    requires Base(cfg, s, s.running) && Distinct(batch) && forall id :: id in batch ==> id in s.running
    requires forall id :: id in s.running && id !in batch ==> !IsDone(ReqAt(s, id))
    requires Near(cfg, s, s.running)
    ensures Near(cfg, Update(cfg, s, batch), Update(cfg, s, batch).running)
  {
    hide Base, CommitGenerated, FreeDone, StillRunning, Distinct, NearlyFills, IsDone;
    var s1, s' := CommitGenerated(s, batch), Update(cfg, s, batch);
    UpdateMeans(cfg, s, batch);
    CommitGeneratedRows(cfg, s, s.running, batch);
    CommitGeneratedMeans(cfg, s, s.running, batch);
    forall x | x in s'.running ensures Row(s'.gpu, x) == Row(s.gpu, x) {
      FreeDoneRows(cfg, s1, s.running, batch, x);
    }
    hide Update;
    assert Near(cfg, s, s'.running);
    NearSame(cfg, s, s', s'.running);
  }

  lemma {:induction false} TokenFalls(cfg: Worker, n: nat, tokens: nat)
    requires Fills(cfg, n, tokens)
    ensures NearlyFills(cfg, n, tokens + 1)
  {
  }

  /** After a scheduled batch has generated its tokens every running row is within one token. */
  lemma {:induction false} TokensRows(cfg: Worker, s: Sched, batch: seq<nat>)
    requires Base(cfg, s, s.running) && Distinct(batch) && Exact(cfg, s, batch) && Near(cfg, s, s.running)
    requires forall id :: id in batch ==> id in s.running && id in s.reqs && s.reqs[id].gen < s.reqs[id].decode
    requires forall id :: id in s.running && id !in batch ==> id in s.reqs && s.reqs[id].gen < s.reqs[id].decode
    ensures var s' := Update(cfg, StepRequests(s, batch), batch); Near(cfg, s', s'.running)
  {
    hide Base, StepRequests, Distinct, Update, Fills, NearlyFills;
    StepRequestsMeans(cfg, s, s.running, batch);
    StepRequestsForm(s, batch);
    var s1 := StepRequests(s, batch);
    forall id | id in s.running ensures id in s1.reqs && NearlyFills(cfg, Row(s1.gpu, id), TokensOf(s1.reqs[id])) {
      if id in batch {
        TokenFalls(cfg, Row(s.gpu, id), TokensOf(s.reqs[id]));
      }
    }
    UpdateRows(cfg, s1, batch);
  }

  // ----- a whole STEP

  /** Whichever batch is scheduled, its rows are exact; every running row is exact or nearly so. */
  lemma {:induction false} ScheduleRows(cfg: Worker, s: Sched)
    requires WorkerInv(cfg, s) && Near(cfg, s, s.running)
    ensures var (s', schedule) := RunSchedule(cfg, s); Exact(cfg, s', schedule.batch) && Near(cfg, s', s'.running)
  {
    InvBase(cfg, s);
    AdmitAllRows(cfg, s, None, s.running);
    AdmitAllKeeps(cfg, s, None);
    hide WorkerInv, Base, AdmitAll, DecodeAll, SortByArrival, Exact, Near, Distinct, DecodeOk;
    var (s1, batch) := AdmitAll(cfg, s, None);
    if batch != [] {
      hide SameRows;
      NearSame(cfg, s, s1, s.running);
      ExactNear(cfg, s1, batch);
      NearJoin(cfg, s1, s.running, batch);
    } else {
      DecodeRows(cfg, s);
    }
  }

  lemma {:induction false} NearJoin(cfg: Worker, s: Sched, a: seq<nat>, b: seq<nat>)
    requires Near(cfg, s, a) && Near(cfg, s, b)
    ensures Near(cfg, s, a + b)
  {
    hide NearlyFills, TokensOf;
  }

  lemma {:induction false} DecodeRows(cfg: Worker, s: Sched)
    requires WorkerInv(cfg, s) && Near(cfg, s, s.running)
    ensures var (s', kept, _) := DecodeAll(cfg, s, SortByArrival(s, s.running), [], []);
            Exact(cfg, s', kept) && Exact(cfg, s'.(running := kept), kept) && Near(cfg, s'.(running := kept), kept)
  {
    InvBase(cfg, s);
    var sorted := SortByArrival(s, s.running);
    hide WorkerInv, Base, DecodeAll, SortByArrival, NearlyFills, Fills, Distinct, DecodeOk;
    SortedMembers(cfg, s);
    InvIsDecodeOk(cfg, s, sorted);
    assert Near(cfg, s, sorted) && Exact(cfg, s, []);
    DecodeAllRows(cfg, s, sorted, [], []);
    var (s', kept, _) := DecodeAll(cfg, s, sorted, [], []);
    hide Exact, Near;
    KeptExact(cfg, s', kept);
    ExactNear(cfg, s'.(running := kept), kept);
  }

  lemma {:induction false} KeptExact(cfg: Worker, s: Sched, kept: seq<nat>)
    requires Exact(cfg, s, kept)
    ensures Exact(cfg, s.(running := kept), kept)
  {
    hide Fills;
  }

  lemma {:induction false} ExactNear(cfg: Worker, s: Sched, ids: seq<nat>)
    requires Exact(cfg, s, ids)
    ensures Near(cfg, s, ids)
  {
    hide Fills;
  }

  lemma {:induction false} StepRows(cfg: Worker, s: Sched)
    requires WorkerInv(cfg, s) && Near(cfg, s, s.running)
    ensures Near(cfg, WorkerStep(cfg, s), WorkerStep(cfg, s).running)
  {
    ScheduleRows(cfg, s);
    if AdmitsSome(cfg, s) {
      AdmittedRows(cfg, s);
    } else {
      PreemptionRespectsArrival(cfg, s);
      var (s1, schedule) := RunSchedule(cfg, s);
      hide WorkerInv, AdmitsSome, RunSchedule, OnlyFlags, DecodeOk, Base, Update, StepRequests, FinishRecompute,
           Distinct, SortByArrival, Near, Exact;
      DecodeBase(cfg, s1, s1.running);
      ActiveDistinct(cfg, s1, s1.running);
      SettledPhase(s1);
      if schedule.batch != [] {
        TokensRows(cfg, s1, schedule.batch);
      }
    }
  }

  lemma {:induction false} RecomputedRows(cfg: Worker, s: Sched, batch: seq<nat>)
    requires Base(cfg, s, s.running) && Near(cfg, s, s.running) && forall id :: id in batch ==> id in s.running
    ensures var s' := FinishRecompute(s, batch); s'.running == s.running && Near(cfg, s', s'.running)
  {
    hide Base, FinishRecompute, Near;
    FinishRecomputeMeans(cfg, s, s.running, batch);
    FinishRecomputeRows(cfg, s, s.running, batch);
    NearSame(cfg, s, FinishRecompute(s, batch), s.running);
  }

  lemma {:induction false} AdmittedRows(cfg: Worker, s: Sched)
    requires WorkerInv(cfg, s) && AdmitsSome(cfg, s)
    requires var (s1, schedule) := RunSchedule(cfg, s); Exact(cfg, s1, schedule.batch) && Near(cfg, s1, s1.running)
    ensures Near(cfg, WorkerStep(cfg, s), WorkerStep(cfg, s).running)
  {
    InvBase(cfg, s);
    AdmitAllKeeps(cfg, s, None);
    var (s1, batch) := AdmitAll(cfg, s, None);
    hide WorkerInv, Base, AdmitAll, Update, StepRequests, FinishRecompute, Distinct, AdmittedBatch, Near, Exact;
    BatchMembers(cfg, s, s1, batch);
    BatchStates(cfg, s, s1, batch);
    if ReqAt(s1, batch[0]).recompute {
      RecomputedRows(cfg, s1, batch);
    } else {
      TokensRows(cfg, s1, batch);
    }
  }

  lemma {:induction false} RunRows(cfg: Worker, msgs: seq<Message>)
    ensures var s := HandleAll(cfg, msgs); Near(cfg, s, s.running)
  {
    hide WorkerInv, WorkerStep, Near, Admissible;
    if msgs == [] {
      assert Near(cfg, NewWorker(cfg), []) by { NobodyNear(cfg); }
    } else {
      var s, msg := HandleAll(cfg, msgs[..|msgs| - 1]), msgs[|msgs| - 1];
      RunRows(cfg, msgs[..|msgs| - 1]);
      EveryRunKeepsRequests(cfg, msgs[..|msgs| - 1]);
      if msg.Add? && Admissible(cfg, s, msg.id, msg.req) {
        ArrivalNear(cfg, s, msg.id, msg.req);
      } else if msg.Step? {
        StepRows(cfg, s);
      }
    }
  }

  lemma {:induction false} NobodyNear(cfg: Worker)
    ensures Near(cfg, NewWorker(cfg), [])
  {
  }

  lemma {:induction false} ArrivalNear(cfg: Worker, s: Sched, id: nat, r: Req)
    requires Near(cfg, s, s.running) && Admissible(cfg, s, id, r)
    ensures var s' := AddRequest(s, id, r); Near(cfg, s', s'.running)
  {
    NearSame(cfg, s, AddRequest(s, id, r), s.running);
  }

  // ----- the law

  /** In every run of the worker, when schedule returns, each request of the batch has a row that holds
      its prompt and the tokens generated so far, and that one block less would not hold. */
  lemma {:induction false} BatchHasItsBlocks(cfg: Worker, msgs: seq<Message>, id: nat)
    requires id in RunSchedule(cfg, HandleAll(cfg, msgs)).1.batch
    ensures var s := RunSchedule(cfg, HandleAll(cfg, msgs)).0;
            && id in s.reqs && id in s.gpu.tables
            && var n, r := |s.gpu.tables[id]|, s.reqs[id];
               n * cfg.blockSize >= r.prefill + r.gen && (n - 1) * cfg.blockSize < r.prefill + r.gen
  {
    var s := HandleAll(cfg, msgs);
    RunRows(cfg, msgs);
    EveryRunKeepsRequests(cfg, msgs);
    ScheduleRows(cfg, s);
    BatchHolds(cfg, s, id);
    hide HandleAll, RunSchedule, WorkerInv, Fills, Near;
    var s1 := RunSchedule(cfg, s).0;
    FillsPlainly(cfg, |s1.gpu.tables[id]|, s1.reqs[id].prefill + s1.reqs[id].gen);
  }

  lemma {:induction false} BatchHolds(cfg: Worker, s: Sched, id: nat)
    requires WorkerInv(cfg, s) && id in RunSchedule(cfg, s).1.batch
    ensures id in RunSchedule(cfg, s).0.gpu.tables
  {
    InvBase(cfg, s);
    AdmitAllKeeps(cfg, s, None);
    hide WorkerInv, Base, AdmitAll, DecodeAll, SortByArrival, DecodeOk;
    var (s1, schedule) := RunSchedule(cfg, s);
    if !AdmitsSome(cfg, s) {
      PreemptionRespectsArrival(cfg, s);
      DecodeBase(cfg, s1, s1.running);
    }
    ActiveHolds(cfg, s1, id);
  }

  lemma {:induction false} ActiveHolds(cfg: Worker, s: Sched, id: nat)
    requires Base(cfg, s, s.running) && id in s.running
    ensures id in s.gpu.tables
  {
  }

  /** Between STEPs a running request's row holds all its tokens but at most the one generated last, and
      never a block more than its tokens fill. */
  lemma {:induction false} RunningHasItsBlocks(cfg: Worker, msgs: seq<Message>, id: nat)
    requires id in HandleAll(cfg, msgs).running
    ensures var s := HandleAll(cfg, msgs);
            && id in s.reqs && id in s.gpu.tables
            && var n, r := |s.gpu.tables[id]|, s.reqs[id];
               n * cfg.blockSize >= r.prefill + r.gen - 1 && (n - 1) * cfg.blockSize < r.prefill + r.gen
  {
    var s := HandleAll(cfg, msgs);
    RunRows(cfg, msgs);
    EveryRunKeepsRequests(cfg, msgs);
    assert Base(cfg, s, s.running);
    ActiveHolds(cfg, s, id);
    hide HandleAll, WorkerInv, Fills, NearlyFills, Base;
    FillsPlainly(cfg, |s.gpu.tables[id]|, s.reqs[id].prefill + s.reqs[id].gen);
  }
}

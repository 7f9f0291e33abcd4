/** The worker's block manager. Whatever its scheduler does, the manager has run a sequence of calls
    made for the requests it was given, so what is proved of such runs holds of the worker. */
module WorkerBlocks {
  import opened Containers
  import opened Keys
  import opened OffloadTiers
  import opened StoreModel
  import opened FreeQueues
  import opened BlockPools
  import opened BlockModel
  import opened BlockLists
  import opened BlockTables
  import opened BlockSafety
  import opened BlockHistory
  import opened SchedulerModel
  import opened SchedulerBlocks
  import opened SchedulerSafety
  import opened Termination
  import opened WorkerRuns
  import opened WorkerRows
  import opened Hierarchies

  /** A request as it arrived. */
  function AsAdded(r: Req): Req {
    r.(gen := 0, recompute := false)
  }

  function Added(msgs: seq<Message>): set<Req> {
    set i | 0 <= i < |msgs| && msgs[i].Add? :: msgs[i].req
  }

  /** `names` says under which id each request was added. */
  ghost predicate Named(reqs: map<nat, Req>, names: map<nat, Req>) {
    forall id :: id in reqs ==> id in names && names[id] == AsAdded(reqs[id])
  }

  function NamesOf(s: Sched): map<nat, Req> {
    map id | id in s.reqs :: AsAdded(s.reqs[id])
  }

  /** A call the scheduler makes on a block manager in state `g`: its keys are those of the request with
      the call's id, and a request that finishes has the row its tokens but the last one fill. */
  ghost predicate MadeFor(cfg: Worker, names: map<nat, Req>, g: Gpu, call: GpuCall) {
    match call
    case AdmitCall(ask) => ask.id in names && ask.keys == InputKeys(cfg, names[ask.id])
    case FinishCall(id, start, keys) =>
      && id in names && start == FullInputBlocks(cfg, names[id]) && keys == OutputKeys(cfg, names[id])
      && id in g.tables && Fills(cfg, |g.tables[id]|, names[id].prefill + names[id].decode - 1)
    case ReserveCall(_) => false
    case ReleaseReservedCall(_) => false
    case _ => true
  }

  ghost predicate AllMadeFor(cfg: Worker, names: map<nat, Req>, calls: seq<GpuCall>) {
    forall i :: 0 <= i < |calls| ==>
      MadeFor(cfg, names, GpuRun(cfg.numBlocks, cfg.watermark, calls[..i]), calls[i])
  }

  /** The block manager has come to `g` by calls made for the requests in `names`. */
  ghost predicate Reached(cfg: Worker, names: map<nat, Req>, g: Gpu) {
    exists calls :: g == GpuRun(cfg.numBlocks, cfg.watermark, calls) && AllMadeFor(cfg, names, calls)
  }

  lemma {:induction false} MadeForMore(cfg: Worker, names: map<nat, Req>, calls: seq<GpuCall>, call: GpuCall)
    requires AllMadeFor(cfg, names, calls)
    requires MadeFor(cfg, names, GpuRun(cfg.numBlocks, cfg.watermark, calls), call)
    ensures AllMadeFor(cfg, names, calls + [call])
  {
    hide MadeFor, GpuRun;
    var more := calls + [call];
    forall i | 0 <= i < |more| ensures MadeFor(cfg, names, GpuRun(cfg.numBlocks, cfg.watermark, more[..i]), more[i]) {
      if i < |calls| {
        assert more[..i] == calls[..i];
      } else {
        assert more[..i] == calls;
      }
    }
  }

  lemma {:induction false} ReachedStep(cfg: Worker, names: map<nat, Req>, g: Gpu, call: GpuCall)
    requires Reached(cfg, names, g) && MadeFor(cfg, names, g, call)
    ensures Reached(cfg, names, GpuStep(g, cfg.watermark, call))
  {
    hide MadeFor, GpuStep, AllMadeFor;
    var calls :| g == GpuRun(cfg.numBlocks, cfg.watermark, calls) && AllMadeFor(cfg, names, calls);
    var more := calls + [call];
    assert more[..|more| - 1] == calls;
    assert GpuStep(g, cfg.watermark, call) == GpuRun(cfg.numBlocks, cfg.watermark, more);
    MadeForMore(cfg, names, calls, call);
  }

  lemma {:induction false} ReachedMore(cfg: Worker, names: map<nat, Req>, more: map<nat, Req>, g: Gpu)
    requires Reached(cfg, names, g) && forall id :: id in names ==> id in more && more[id] == names[id]
    ensures Reached(cfg, more, g)
  {
    hide GpuRun, InputKeys, OutputKeys, Fills;
    var calls :| g == GpuRun(cfg.numBlocks, cfg.watermark, calls) && AllMadeFor(cfg, names, calls);
    forall i | 0 <= i < |calls|
      ensures MadeFor(cfg, more, GpuRun(cfg.numBlocks, cfg.watermark, calls[..i]), calls[i])
    {
      assert MadeFor(cfg, names, GpuRun(cfg.numBlocks, cfg.watermark, calls[..i]), calls[i]);
    }
    assert AllMadeFor(cfg, more, calls);
  }

  lemma {:induction false} KeysAsAdded(cfg: Worker, r: Req)
    ensures var a := AsAdded(r);
            && InputKeys(cfg, a) == InputKeys(cfg, r) && FullInputBlocks(cfg, a) == FullInputBlocks(cfg, r)
            && OutputKeys(cfg, a) == OutputKeys(cfg, r) && a.prefill == r.prefill && a.decode == r.decode
  {
  }

  lemma {:induction false} SetNamed(reqs: map<nat, Req>, names: map<nat, Req>, id: nat, r: Req)
    requires Named(reqs, names) && id in reqs && AsAdded(r) == AsAdded(reqs[id])
    ensures Named(reqs[id := r], names)
  {
  }

  // ----- admission

  lemma {:induction false} AdmitHeadReached(cfg: Worker, names: map<nat, Req>, s: Sched)
    requires Base(cfg, s, s.running) && s.waiting != [] && Named(s.reqs, names) && Reached(cfg, names, s.gpu)
    requires CanAllocate(s.gpu, AskOf(cfg, s.waiting[0], ReqAt(s, s.waiting[0])), cfg.watermark)
    ensures Reached(cfg, names, AdmitHead(cfg, s).gpu)
  {
    hide Base, CanAllocate, AllocateAsk, InputKeys, Logical, Ready, NoneLost, Queued, HoldBlocks, Reached;
    WaitingHead(cfg, s, s.running);
    var id := s.waiting[0];
    var r := s.reqs[id];
    KeysFit(cfg, r);
    KeysAsAdded(cfg, r);
    var call := AdmitCall(AskOf(cfg, id, r));
    assert MadeFor(cfg, names, s.gpu, call);
    hide MadeFor;
    ReachedStep(cfg, names, s.gpu, call);
  }

  lemma {:induction false} AdmitAllReached(cfg: Worker, names: map<nat, Req>, s: Sched, phase: Option<bool>)
    requires Base(cfg, s, s.running) && Named(s.reqs, names) && Reached(cfg, names, s.gpu)
    ensures Reached(cfg, names, AdmitAll(cfg, s, phase).0.gpu)
    decreases |s.waiting|
  {
    hide CanAllocate, AdmitHead, Base, BelowUsage, AskOf, Reached;
    if s.waiting != [] && Admits(cfg, s, phase) {
      AdmitHeadKeeps(cfg, s, s.running);
      AdmitHeadReached(cfg, names, s);
      AdmitAllReached(cfg, names, AdmitHead(cfg, s), Some(ReqAt(s, s.waiting[0]).recompute));
    }
  }

  // ----- decode

  lemma {:induction false} HoldsTable(cfg: Worker, s: Sched, active: seq<nat>, id: nat)
    requires Base(cfg, s, active) && id in active
    ensures id in s.gpu.tables && id in s.reqs && id in s.gpu.claims
    ensures s.gpu.claims[id].keys == InputKeys(cfg, s.reqs[id])
  {
    assert RowFits(cfg, s.gpu, id, s.reqs[id]);
  }

  lemma {:induction false} AppendReached(cfg: Worker, names: map<nat, Req>, s: Sched, active: seq<nat>, id: nat)
    requires Base(cfg, s, active) && id in active && Reached(cfg, names, s.gpu)
    ensures Reached(cfg, names, Append(cfg, s, id).gpu)
  {
    hide Base, AppendSlot, Logical, Reached;
    HoldsTable(cfg, s, active, id);
    ReachedStep(cfg, names, s.gpu, AppendCall(id, Logical(cfg, ReqAt(s, id))));
  }

  lemma {:induction false} PreemptReached(cfg: Worker, names: map<nat, Req>, s: Sched, id: nat)
    requires Named(s.reqs, names) && id in s.reqs && Reached(cfg, names, s.gpu)
    ensures Reached(cfg, names, Preempt(s, id).gpu) && Named(Preempt(s, id).reqs, names)
  {
    hide Release, Reached;
    ReachedStep(cfg, names, s.gpu, ReleaseCall(id));
    SetNamed(s.reqs, names, id, s.reqs[id].(recompute := true));
  }

  lemma {:induction false} DecodeAllReached(cfg: Worker, names: map<nat, Req>, s: Sched, todo: seq<nat>, kept: seq<nat>,
                                            preempted: seq<nat>)
    requires DecodeOk(cfg, s, kept + todo) && Named(s.reqs, names) && Reached(cfg, names, s.gpu)
    ensures var s' := DecodeAll(cfg, s, todo, kept, preempted).0;
            Reached(cfg, names, s'.gpu) && Named(s'.reqs, names)
    decreases |todo|
  {
    hide DecodeOk, Base, Named, Reached, Append, Preempt, CanAppend, Logical;
    if todo != [] {
      var id, n := todo[0], |todo| - 1;
      DecodeBase(cfg, s, kept + todo);
      assert (kept + todo)[|kept|] == id && (kept + todo)[|kept| + n] == todo[n];
      if CanAppend(s.gpu, id, Logical(cfg, ReqAt(s, id))) {
        AppendReached(cfg, names, s, kept + todo, id);
        AppendDecodeOk(cfg, s, kept + todo, id);
        assert kept + todo == kept + [id] + todo[1..];
        DecodeAllReached(cfg, names, Append(cfg, s, id), todo[1..], kept + [id], preempted);
      } else {
        HoldsTable(cfg, s, kept + todo, todo[n]);
        PreemptReached(cfg, names, s, todo[n]);
        assert kept + todo == kept + todo[..n] + [todo[n]];
        PreemptDecodeOk(cfg, s, kept + todo[..n], todo[n]);
        DecodeAllReached(cfg, names, Preempt(s, todo[n]), todo[..n], kept, preempted + [todo[n]]);
      }
    }
  }

  // ----- commit, generate, finish

  lemma {:induction false} CommitReached(cfg: Worker, names: map<nat, Req>, s: Sched, active: seq<nat>, id: nat)
    requires Base(cfg, s, active) && id in active && Reached(cfg, names, s.gpu)
    ensures Reached(cfg, names, Commit(s, id).gpu)
  {
    hide Base, CommitInput, Reached;
    HoldsTable(cfg, s, active, id);
    ReachedStep(cfg, names, s.gpu, CommitCall(id));
  }

  lemma {:induction false} FinishRecomputeReached(cfg: Worker, names: map<nat, Req>, s: Sched, active: seq<nat>,
                                                  batch: seq<nat>)
    requires Base(cfg, s, active) && forall id :: id in batch ==> id in active
    requires Named(s.reqs, names) && Reached(cfg, names, s.gpu)
    ensures var s' := FinishRecompute(s, batch); Reached(cfg, names, s'.gpu) && Named(s'.reqs, names)
  {
    hide Base, CommitInput, Reached;
    if batch != [] {
      var front, id := batch[..|batch| - 1], batch[|batch| - 1];
      assert batch == front + [id];
      FinishRecomputeReached(cfg, names, s, active, front);
      FinishRecomputeMeans(cfg, s, active, front);
      var s1 := FinishRecompute(s, front);
      ActiveIn(cfg, s1, active, id);
      CommitReached(cfg, names, s1, active, id);
      SetNamed(s1.reqs, names, id, s1.reqs[id].(recompute := false));
    }
  }

  lemma {:induction false} StepRequestsFrom(names: map<nat, Req>, s: Sched, batch: seq<nat>)
    requires Named(s.reqs, names) && forall id :: id in batch ==> id in s.reqs
    ensures var s' := StepRequests(s, batch);
            Named(s'.reqs, names) && s'.gpu == s.gpu && s'.reqs.Keys == s.reqs.Keys
  {
    if batch != [] {
      var front, id := batch[..|batch| - 1], batch[|batch| - 1];
      assert batch == front + [id];
      StepRequestsFrom(names, s, front);
      var s1 := StepRequests(s, front);
      assert id in s1.reqs.Keys;
      SetNamed(s1.reqs, names, id, s1.reqs[id].(gen := s1.reqs[id].gen + 1));
    }
  }

  lemma {:induction false} CommitGeneratedReached(cfg: Worker, names: map<nat, Req>, s: Sched, active: seq<nat>,
                                                  batch: seq<nat>)
    requires Base(cfg, s, active) && (forall id :: id in batch ==> id in active) && Reached(cfg, names, s.gpu)
    ensures Reached(cfg, names, CommitGenerated(s, batch).gpu)
  {
    hide Base, CommitInput, Reached;
    if batch != [] {
      var front, id := batch[..|batch| - 1], batch[|batch| - 1];
      assert batch == front + [id];
      CommitGeneratedReached(cfg, names, s, active, front);
      CommitGeneratedMeans(cfg, s, active, front);
      CommitReached(cfg, names, CommitGenerated(s, front), active, id);
    }
  }

  /** The row of a request that has just generated its last token. */
  predicate LastRow(cfg: Worker, s: Sched, id: nat) {
    Fills(cfg, Row(s.gpu, id), ReqAt(s, id).prefill + ReqAt(s, id).decode - 1)
  }

  ghost predicate LastRows(cfg: Worker, s: Sched, batch: seq<nat>) {
    forall id :: id in batch && IsDone(ReqAt(s, id)) ==> LastRow(cfg, s, id)
  }

  lemma {:induction false} FinishReached(cfg: Worker, names: map<nat, Req>, s: Sched, active: seq<nat>, id: nat)
    requires Base(cfg, s, active) && id in active && Named(s.reqs, names) && Reached(cfg, names, s.gpu)
    requires LastRow(cfg, s, id)
    ensures var r := ReqAt(s, id);
            Reached(cfg, names, Finish(s.gpu, id, FullInputBlocks(cfg, r), OutputKeys(cfg, r)))
  {
    hide Base, Finish, OutputKeys, InputKeys, FullInputBlocks, Reached, Fills;
    HoldsTable(cfg, s, active, id);
    var r := s.reqs[id];
    KeysAsAdded(cfg, r);
    var call := FinishCall(id, FullInputBlocks(cfg, r), OutputKeys(cfg, r));
    assert MadeFor(cfg, names, s.gpu, call);
    InputsFit(cfg, r);
    hide MadeFor;
    ReachedStep(cfg, names, s.gpu, call);
  }

  lemma {:induction false} InputsFit(cfg: Worker, r: Req)
    ensures |InputKeys(cfg, r)| <= FullInputBlocks(cfg, r)
  {
  }

  lemma {:induction false} FreeDoneReached(cfg: Worker, names: map<nat, Req>, s: Sched, active: seq<nat>,
                                           batch: seq<nat>)
    requires Base(cfg, s, active) && Distinct(batch) && forall id :: id in batch ==> id in active
    requires Named(s.reqs, names) && Reached(cfg, names, s.gpu) && LastRows(cfg, s, batch)
    ensures Reached(cfg, names, FreeDone(cfg, s, batch).gpu)
  {
    hide Base, Finish, OutputKeys, FullInputBlocks, Reached, Fills, Row;
    if batch != [] {
      var front, id := batch[..|batch| - 1], batch[|batch| - 1];
      assert batch == front + [id] && id !in front;
      FreeDoneReached(cfg, names, s, active, front);
      FreeDoneMeans(cfg, s, active, front);
      LeavingMember(s, active, front, id);
      FreeDoneRows(cfg, s, active, front, id);
      if IsDone(ReqAt(s, id)) {
        FinishReached(cfg, names, FreeDone(cfg, s, front), Leaving(s, active, front), id);
      }
    }
  }

  lemma {:induction false} UpdateReached(cfg: Worker, names: map<nat, Req>, s: Sched, batch: seq<nat>)
    requires Base(cfg, s, s.running) && Distinct(batch) && forall id :: id in batch ==> id in s.running
    requires Named(s.reqs, names) && Reached(cfg, names, s.gpu) && LastRows(cfg, s, batch)
    ensures var s' := Update(cfg, s, batch); Reached(cfg, names, s'.gpu) && Named(s'.reqs, names)
  {
    hide Base, CommitGenerated, FreeDone, Reached, StillRunning, Distinct, Fills;
    var s1 := CommitGenerated(s, batch);
    CommitGeneratedReached(cfg, names, s, s.running, batch);
    CommitGeneratedMeans(cfg, s, s.running, batch);
    CommitGeneratedRows(cfg, s, s.running, batch);
    assert LastRows(cfg, s1, batch);
    hide LastRows;
    FreeDoneReached(cfg, names, s1, s.running, batch);
    FreeDoneMeans(cfg, s1, s.running, batch);
  }

  lemma {:induction false} TokensReached(cfg: Worker, names: map<nat, Req>, s: Sched, batch: seq<nat>)
    requires Base(cfg, s, s.running) && Distinct(batch) && Named(s.reqs, names) && Reached(cfg, names, s.gpu)
    requires forall id :: id in batch ==> id in s.running && id in s.reqs && s.reqs[id].gen < s.reqs[id].decode
    requires Exact(cfg, s, batch)
    ensures var s' := Update(cfg, StepRequests(s, batch), batch);
            Reached(cfg, names, s'.gpu) && Named(s'.reqs, names)
  {
    hide Base, StepRequests, Distinct, Update, Reached, Named, Fills;
    StepRequestsMeans(cfg, s, s.running, batch);
    StepRequestsFrom(names, s, batch);
    var s1 := StepRequests(s, batch);
    forall id | id in batch && IsDone(ReqAt(s1, id)) ensures LastRow(cfg, s1, id) {
      assert s1.reqs[id].gen == s.reqs[id].gen + 1;
    }
    assert LastRows(cfg, s1, batch);
    UpdateReached(cfg, names, s1, batch);
  }

  // ----- a whole STEP

  lemma {:induction false} AdmittedReached(cfg: Worker, names: map<nat, Req>, s: Sched)
    requires WorkerInv(cfg, s) && AdmitsSome(cfg, s) && Named(s.reqs, names) && Reached(cfg, names, s.gpu)
    requires Near(cfg, s, s.running)
    ensures var s' := WorkerStep(cfg, s); Reached(cfg, names, s'.gpu) && Named(s'.reqs, names)
  {
    ScheduleRows(cfg, s);
    InvBase(cfg, s);
    AdmitAllKeeps(cfg, s, None);
    AdmitAllReached(cfg, names, s, None);
    var (s1, batch) := AdmitAll(cfg, s, None);
    hide WorkerInv, Base, AdmitAll, Update, StepRequests, FinishRecompute, Reached, Named, Distinct, AdmittedBatch,
         Exact, Near;
    BatchMembers(cfg, s, s1, batch);
    BatchStates(cfg, s, s1, batch);
    if ReqAt(s1, batch[0]).recompute {
      FinishRecomputeReached(cfg, names, s1, s1.running, batch);
    } else {
      TokensReached(cfg, names, s1, batch);
    }
  }

  lemma {:induction false} DecodedReached(cfg: Worker, names: map<nat, Req>, s: Sched)
    requires WorkerInv(cfg, s) && !AdmitsSome(cfg, s) && Named(s.reqs, names) && Reached(cfg, names, s.gpu)
    requires Near(cfg, s, s.running)
    ensures var s' := WorkerStep(cfg, s); Reached(cfg, names, s'.gpu) && Named(s'.reqs, names)
  {
    ScheduleRows(cfg, s);
    ScheduleReached(cfg, names, s);
    PreemptionRespectsArrival(cfg, s);
    var (s1, schedule) := RunSchedule(cfg, s);
    hide WorkerInv, AdmitsSome, RunSchedule, OnlyFlags, DecodeOk, Base, Update, StepRequests, FinishRecompute, Reached,
         Named, Distinct, SortByArrival, Exact, Near;
    DecodeBase(cfg, s1, s1.running);
    ActiveDistinct(cfg, s1, s1.running);
    SettledPhase(s1);
    if schedule.batch != [] {
      TokensReached(cfg, names, s1, schedule.batch);
    }
  }

  lemma {:induction false} ScheduleReached(cfg: Worker, names: map<nat, Req>, s: Sched)
    requires WorkerInv(cfg, s) && !AdmitsSome(cfg, s) && Named(s.reqs, names) && Reached(cfg, names, s.gpu)
    ensures var s' := RunSchedule(cfg, s).0; Reached(cfg, names, s'.gpu) && Named(s'.reqs, names)
  {
    hide WorkerInv, Base, AdmitAll, DecodeAll, SortByArrival, DecodeOk, Distinct, Reached, Named, AdmittedBatch;
    InvBase(cfg, s);
    AdmitAllKeeps(cfg, s, None);
    NothingChanged(cfg, s);
    SortedMembers(cfg, s);
    var sorted := SortByArrival(s, s.running);
    InvIsDecodeOk(cfg, s, sorted);
    DecodeAllReached(cfg, names, s, sorted, [], []);
  }

  lemma {:induction false} NothingChanged(cfg: Worker, s: Sched)
    requires AdmittedBatch(s, AdmitAll(cfg, s, None).0, None, AdmitAll(cfg, s, None).1) && !AdmitsSome(cfg, s)
    ensures AdmitAll(cfg, s, None) == (s, [])
  {
    hide AdmitAll;
  }

  // ----- every run

  lemma {:induction false} AddedSplit(msgs: seq<Message>)
    requires msgs != []
    ensures var front, msg := msgs[..|msgs| - 1], msgs[|msgs| - 1];
            Added(front) <= Added(msgs) && (msg.Add? ==> msg.req in Added(msgs))
  {
    var front := msgs[..|msgs| - 1];
    forall r | r in Added(front) ensures r in Added(msgs) {
      var i :| 0 <= i < |front| && front[i].Add? && front[i].req == r;
      assert msgs[i] == front[i];
    }
  }

  ghost predicate NamedFrom(names: map<nat, Req>, added: set<Req>) {
    forall id :: id in names ==> names[id] in added
  }

  lemma {:induction false} StepNames(cfg: Worker, s: Sched)
    requires WorkerInv(cfg, s) && (s.running != [] || s.waiting != []) && Near(cfg, s, s.running)
    requires Reached(cfg, NamesOf(s), s.gpu)
    ensures var s' := WorkerStep(cfg, s); NamesOf(s') == NamesOf(s) && Reached(cfg, NamesOf(s), s'.gpu)
  {
    var names := NamesOf(s);
    assert Named(s.reqs, names);
    StepMakesProgress(cfg, s);
    hide WorkerInv, WorkerStep, Reached, AdmitsSome, Near;
    if AdmitsSome(cfg, s) {
      AdmittedReached(cfg, names, s);
    } else {
      DecodedReached(cfg, names, s);
    }
    hide NamesOf;
    NamesStay(s, WorkerStep(cfg, s));
  }

  lemma {:induction false} NamesStay(s: Sched, s': Sched)
    requires Named(s'.reqs, NamesOf(s)) && forall id :: id in s.reqs ==> id in s'.reqs
    ensures NamesOf(s') == NamesOf(s)
  {
  }

  lemma {:induction false} ArrivalNames(cfg: Worker, s: Sched, id: nat, r: Req)
    requires Admissible(cfg, s, id, r) && Reached(cfg, NamesOf(s), s.gpu)
    ensures var s' := AddRequest(s, id, r);
            NamesOf(s') == NamesOf(s)[id := r] && Reached(cfg, NamesOf(s'), s'.gpu)
  {
    var s' := AddRequest(s, id, r);
    assert AsAdded(r) == r;
    assert NamesOf(s') == NamesOf(s)[id := r];
    hide Reached;
    ReachedMore(cfg, NamesOf(s), NamesOf(s'), s.gpu);
  }

  /** After any interleaving of arrivals and steps the worker's block manager is where a sequence of
      calls made for the added requests takes it. */
  lemma {:induction false} WorkerMakesCalls(cfg: Worker, msgs: seq<Message>)
    ensures var s := HandleAll(cfg, msgs);
            Reached(cfg, NamesOf(s), s.gpu) && NamedFrom(NamesOf(s), Added(msgs))
  {
    hide WorkerInv, WorkerStep, Reached, Admissible, Near;
    if msgs == [] {
      NothingReached(cfg);
    } else {
      var front, msg := msgs[..|msgs| - 1], msgs[|msgs| - 1];
      var s := HandleAll(cfg, front);
      WorkerMakesCalls(cfg, front);
      EveryRunKeepsRequests(cfg, front);
      RunRows(cfg, front);
      AddedSplit(msgs);
      hide Added;
      if msg.Add? && Admissible(cfg, s, msg.id, msg.req) {
        ArrivalNames(cfg, s, msg.id, msg.req);
      } else if msg.Step? && (s.running != [] || s.waiting != []) {
        StepNames(cfg, s);
      }
    }
  }

  lemma {:induction false} NothingReached(cfg: Worker)
    ensures NamesOf(NewWorker(cfg)) == map[] && Reached(cfg, map[], NewGpu(cfg.numBlocks))
  {
    assert NewGpu(cfg.numBlocks) == GpuRun(cfg.numBlocks, cfg.watermark, []);
    assert AllMadeFor(cfg, map[], []);
  }

  // ----- what follows

  /** A worker's blocks: counted once per table that lists them, queued exactly when in none, and with
      the fresh and referenced ones making up the pool; its index coherent; its history accounted for. */
  lemma {:induction false} WorkerBlocksSound(cfg: Worker, msgs: seq<Message>)
    ensures var g := HandleAll(cfg, msgs).gpu;
            && (forall b :: b in g.blocks ==> g.blocks[b].refCount == TableRefs(g.tables)[b])
            && (forall b: nat :: IsQueued(g.pool.lanes, b) <==> b in g.blocks && g.blocks[b].refCount == 0)
            && (g.pool.numBlocks - g.pool.nextFresh) + Size(g.pool.lanes) + |Held(TableRefs(g.tables))| == cfg.numBlocks
            && (forall k :: k in g.cache ==> g.cache[k] in g.blocks && g.blocks[g.cache[k]].hash == Some(k))
            && AllKeyed(g.trace) && Traced(g)
  {
    hide Traced, AllMadeFor;
    WorkerMakesCalls(cfg, msgs);
    var g := HandleAll(cfg, msgs).gpu;
    var calls :| g == GpuRun(cfg.numBlocks, cfg.watermark, calls)
                 && AllMadeFor(cfg, NamesOf(HandleAll(cfg, msgs)), calls);
    assert g.reserved == [] by {
      EveryRunKeepsRequests(cfg, msgs);
      NothingReserved(cfg, HandleAll(cfg, msgs));
    }
    hide HandleAll, GpuRun;
    assert multiset(g.reserved) == multiset{};
    assert AllRefs(g) == TableRefs(g.tables);
    ReferenceCountsConserved(cfg.numBlocks, cfg.watermark, calls);
    PrefixIndexCoherent(cfg.numBlocks, cfg.watermark, calls);
    RunTraced(cfg.numBlocks, cfg.watermark, calls);
  }

  lemma {:induction false} NothingReserved(cfg: Worker, s: Sched)
    requires WorkerInv(cfg, s)
    ensures s.gpu.reserved == []
  {
  }

  /** The blocks a request's keys name: those of its full prompt blocks and, if they are hashed, of its
      full output blocks. */
  function WholePrompt(cfg: Worker, r: Req): Prompt {
    var full := FullInputBlocks(cfg, r);
    Prompt(r.scope,
           if OutputKeys(cfg, r) == [] then UpTo(r.hashIds, full)
           else UpTo(r.hashIds, full) + UpTo(r.outputIds, r.decode / cfg.blockSize))
  }

  lemma {:induction false} PrefixKeysOfPrefix(scope: Scope, a: seq<HashId>, b: seq<HashId>, i: nat)
    requires i < |a|
    ensures PrefixKeys(scope, a + b)[i] == PrefixKeys(scope, a)[i]
  {
    assert Signatures(a + b)[..i + 1] == Signatures(a)[..i + 1];
  }

  lemma {:induction false} KeysInWhole(cfg: Worker, r: Req, k: PrefixCacheKey)
    requires k in InputKeys(cfg, r) || k in OutputKeys(cfg, r)
    ensures k in PrefixKeys(r.scope, WholePrompt(cfg, r).ids)
  {
    var full := FullInputBlocks(cfg, r);
    var input, output := UpTo(r.hashIds, full), UpTo(r.outputIds, r.decode / cfg.blockSize);
    if k in InputKeys(cfg, r) {
      var i :| 0 <= i < |input| && PrefixKeys(r.scope, input)[i] == k;
      PrefixKeysOfPrefix(r.scope, input, output, i);
      assert PrefixKeys(r.scope, input + output)[i] == k;
    } else {
      assert r.hashIds[..full] == input;
    }
  }

  /** The worker's cache has block i of the prompt. */
  ghost predicate WorkerHit(cfg: Worker, msgs: seq<Message>, prompt: Prompt, i: nat) {
    i < |Hits(HandleAll(cfg, msgs).gpu, PrefixKeys(prompt.scope, prompt.ids))|
  }

  ghost predicate AddedSeen(cfg: Worker, msgs: seq<Message>, prompt: Prompt, i: nat) {
    exists r :: r in Added(msgs) && SeenBefore([WholePrompt(cfg, r)], prompt, i)
  }

  ghost predicate AddedFrom(cfg: Worker, msgs: seq<Message>, ids: iset<HashId>) {
    forall r :: r in Added(msgs) ==> IdsIn(ids, WholePrompt(cfg, r))
  }

  /** A hit in the worker's cache on block i of a prompt means an added request with the same scope and
      the same first i + 1 hash ids, if no string id in use spells an integer id in use. */
  lemma {:induction false} WorkerHitSound(cfg: Worker, msgs: seq<Message>, prompt: Prompt, i: nat, ids: iset<HashId>)
    requires WorkerHit(cfg, msgs, prompt, i) && Apart(ids) && IdsIn(ids, prompt) && AddedFrom(cfg, msgs, ids)
    ensures AddedSeen(cfg, msgs, prompt, i)
  {
    var g, added, keys := HandleAll(cfg, msgs).gpu, Added(msgs), PrefixKeys(prompt.scope, prompt.ids);
    hide GpuRun, HandleAll, Added, Traced, KeysAsked, PrefixKeys, InputKeys, OutputKeys, WholePrompt, Apart, SeenBefore,
         NamesOf, Fills;
    WorkerMakesCalls(cfg, msgs);
    var names := NamesOf(HandleAll(cfg, msgs));
    var calls :| g == GpuRun(cfg.numBlocks, cfg.watermark, calls) && AllMadeFor(cfg, names, calls);
    RunTraced(cfg.numBlocks, cfg.watermark, calls);
    RunAsked(cfg.numBlocks, cfg.watermark, calls);
    IndexedAsked(g, calls, keys[i]);
    var n :| 0 <= n < |calls| && keys[i] in CallKeys(calls[n]);
    assert MadeFor(cfg, names, GpuRun(cfg.numBlocks, cfg.watermark, calls[..n]), calls[n]);
    var r :| r in added && (keys[i] in InputKeys(cfg, r) || keys[i] in OutputKeys(cfg, r));
    KeysInWhole(cfg, r, keys[i]);
    SharedKey(WholePrompt(cfg, r), prompt, i, ids) by {
      assert WholePrompt(cfg, r).scope == r.scope by { WholeScope(cfg, r); }
    }
  }

  lemma {:induction false} WholeScope(cfg: Worker, r: Req)
    ensures WholePrompt(cfg, r).scope == r.scope
  {
  }

  lemma {:induction false} SharedKey(seen: Prompt, prompt: Prompt, i: nat, ids: iset<HashId>)
    requires Apart(ids) && IdsIn(ids, seen) && IdsIn(ids, prompt) && i < |prompt.ids|
    requires PrefixKeys(prompt.scope, prompt.ids)[i] in PrefixKeys(seen.scope, seen.ids)
    ensures SeenBefore([seen], prompt, i)
  {
    var a, b := seen.ids, prompt.ids;
    var chain := PrefixKeys(seen.scope, a);
    var j :| 0 <= j < |chain| && chain[j] == PrefixKeys(prompt.scope, b)[i];
    PrefixKeysMeet(prompt.scope, b, i, seen.scope, a, j);
    ApartIffFaithful(ids);
    hide Apart, PrefixKeys;
    forall x | 0 <= x <= i ensures a[x] == b[x] {
      assert Signatures(a)[..i + 1][x] == Signatures(b)[..i + 1][x];
      assert a[x] in a && b[x] in b;
    }
    assert a[..i + 1] == b[..i + 1];
    assert [seen][0] == seen;
  }

  /** With the worker's evictions spilled into a store that keeps everything, no key the worker ever
      registered is lost. */
  lemma {:induction false} WorkerLosesNothing(store: Config, md: KeyMetadata, cfg: Worker, msgs: seq<Message>,
                                              k: PrefixCacheKey)
    requires Retentive(store)
    ensures var g := HandleAll(cfg, msgs).gpu;
            var (s, _) := Observe(store, SpillOnly, md, EMPTY_STORE, NO_HOOKS, g.trace);
            WasRegistered(g.trace, k) ==> k in g.cache || Present(store, s, PoolKeyOf(md, k))
  {
    hide *;
    WorkerBlocksSound(cfg, msgs);
    SpilledTrace(store, md, HandleAll(cfg, msgs).gpu, k);
  }

  lemma {:induction false} NoHooksYet()
    ensures HooksHonest(NO_HOOKS, EMPTY_STORE) && EMPTY_STORE.objects.Keys == {}
  {
  }

  lemma {:induction false} EvictedListed(md: KeyMetadata, g: Gpu, k: PrefixCacheKey)
    requires AllKeyed(g.trace) && Traced(g) && WasRegistered(g.trace, k) && k !in g.cache
    ensures PoolKeyOf(md, k) in PoolKeysOf(md, EvictedKeys(g.trace))
  {
    EvictedKeysAre(g.trace, k);
    hide AllKeyed, WasRegistered, WasEvicted;
  }

  lemma {:induction false} SpilledTrace(store: Config, md: KeyMetadata, g: Gpu, k: PrefixCacheKey)
    requires Retentive(store) && AllKeyed(g.trace) && Traced(g)
    ensures var (s, _) := Observe(store, SpillOnly, md, EMPTY_STORE, NO_HOOKS, g.trace);
            WasRegistered(g.trace, k) ==> k in g.cache || Present(store, s, PoolKeyOf(md, k))
  {
    hide *;
    NoHooksYet();
    SoundEmpty(store, WorkerRank(md));
    ObserveRetains(store, md, EMPTY_STORE, NO_HOOKS, g.trace);
    var s := Observe(store, SpillOnly, md, EMPTY_STORE, NO_HOOKS, g.trace).0;
    SoundPresent(store, WorkerRank(md), s, PoolKeyOf(md, k));
    if WasRegistered(g.trace, k) && k !in g.cache {
      EvictedListed(md, g, k);
      assert PoolKeyOf(md, k) in s.objects.Keys;
    }
  }
}

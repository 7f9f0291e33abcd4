/** A running request's prompt is in the prefix cache's history: between STEPs all its input keys have been
    registered. */
module WorkerInputs {
  import opened Containers
  import opened Keys
  import opened BlockPools
  import opened BlockModel
  import opened BlockTables
  import opened BlockRuns
  import opened BlockSafety
  import opened BlockHistory
  import opened SchedulerModel
  import opened SchedulerBlocks
  import opened SchedulerSafety
  import opened Termination
  import opened WorkerRuns
  import opened WorkerRows
  import opened WorkerBlocks
  import opened WorkerKeys
  import opened Hierarchies

  // ----- running requests have committed

  predicate HasCommitted(g: Gpu, id: nat) {
    id in g.claims && g.claims[id].committed
  }

  ghost predicate AllCommitted(g: Gpu, ids: seq<nat>) {
    forall id :: id in ids ==> HasCommitted(g, id)
  }

  lemma {:induction false} AdmitHeadCommitted(cfg: Worker, s: Sched, x: nat)
    requires Base(cfg, s, s.running) && s.waiting != [] && HasCommitted(s.gpu, x) && x != s.waiting[0]
    requires CanAllocate(s.gpu, AskOf(cfg, s.waiting[0], ReqAt(s, s.waiting[0])), cfg.watermark)
    ensures HasCommitted(AdmitHead(cfg, s).gpu, x)
  {
    hide Base, CanAllocate, AllocateAsk, InputKeys, Logical, Ready, NoneLost, Queued, HoldBlocks, NewRow;
    WaitingHead(cfg, s, s.running);
    var id := s.waiting[0];
    KeysFit(cfg, s.reqs[id]);
    AdmitFacts(s.gpu, cfg.numBlocks, cfg.watermark, AskOf(cfg, id, s.reqs[id]));
  }

  lemma {:induction false} AdmitAllCommitted(cfg: Worker, s: Sched, phase: Option<bool>, x: nat)
    requires Base(cfg, s, s.running) && x in s.running && HasCommitted(s.gpu, x)
    ensures HasCommitted(AdmitAll(cfg, s, phase).0.gpu, x)
    decreases |s.waiting|
  {
    hide CanAllocate, AdmitHead, Base, BelowUsage, AskOf, HasCommitted;
    if s.waiting != [] && Admits(cfg, s, phase) {
      AdmitHeadKeeps(cfg, s, s.running);
      WaitingHead(cfg, s, s.running);
      AdmitHeadCommitted(cfg, s, x);
      AdmitAllCommitted(cfg, AdmitHead(cfg, s), Some(ReqAt(s, s.waiting[0]).recompute), x);
    }
  }

  lemma {:induction false} GrowCommitted(cfg: Worker, s: Sched, active: seq<nat>, id: nat)
    requires Base(cfg, s, active) && id in active && CanAppend(s.gpu, id, Logical(cfg, ReqAt(s, id)))
    ensures Append(cfg, s, id).gpu.claims == s.gpu.claims
  {
    HoldsTable(cfg, s, active, id);
    hide AppendSlot, CanAppend, Logical, HoldBlocks, NoneLost, AllFit, Queued;
    AppendFacts(s.gpu, cfg.numBlocks, id, Logical(cfg, ReqAt(s, id)));
  }

  lemma {:induction false} PreemptCommitted(cfg: Worker, s: Sched, active: seq<nat>, id: nat)
    requires Base(cfg, s, active)
    ensures Preempt(s, id).gpu.claims == s.gpu.claims
  {
    hide Release, HoldBlocks, NoneLost, AllFit, Queued;
    ReleaseFacts(s.gpu, cfg.numBlocks, id);
  }

  lemma {:induction false} DecodeAllCommitted(cfg: Worker, s: Sched, todo: seq<nat>, kept: seq<nat>,
                                              preempted: seq<nat>)
    requires DecodeOk(cfg, s, kept + todo)
    ensures DecodeAll(cfg, s, todo, kept, preempted).0.gpu.claims == s.gpu.claims
    decreases |todo|
  {
    hide DecodeOk, Base, Append, Preempt, CanAppend, Logical;
    if todo != [] {
      var id, n := todo[0], |todo| - 1;
      DecodeBase(cfg, s, kept + todo);
      assert (kept + todo)[|kept|] == id;
      if CanAppend(s.gpu, id, Logical(cfg, ReqAt(s, id))) {
        GrowCommitted(cfg, s, kept + todo, id);
        AppendDecodeOk(cfg, s, kept + todo, id);
        assert kept + todo == kept + [id] + todo[1..];
        DecodeAllCommitted(cfg, Append(cfg, s, id), todo[1..], kept + [id], preempted);
      } else {
        PreemptCommitted(cfg, s, kept + todo, todo[n]);
        assert kept + todo == kept + todo[..n] + [todo[n]];
        PreemptDecodeOk(cfg, s, kept + todo[..n], todo[n]);
        DecodeAllCommitted(cfg, Preempt(s, todo[n]), todo[..n], kept, preempted + [todo[n]]);
      }
    }
  }

  lemma {:induction false} CommitCommits(cfg: Worker, s: Sched, active: seq<nat>, id: nat)
    requires Base(cfg, s, active) && id in active
    ensures HasCommitted(Commit(s, id).gpu, id)
    ensures forall x :: HasCommitted(s.gpu, x) ==> HasCommitted(Commit(s, id).gpu, x)
  {
    HoldsTable(cfg, s, active, id);
    assert HasCommitted(CommitInput(s.gpu, id), id) by {
      assert ClaimOf(s.gpu, id) == s.gpu.claims[id];
      hide RegisterAll;
    }
    hide CommitInput, HoldBlocks, NoneLost, AllFit, Queued;
    CommitFacts(s.gpu, cfg.numBlocks, id);
  }

  lemma {:induction false} CommitGeneratedCommits(cfg: Worker, s: Sched, active: seq<nat>, batch: seq<nat>, x: nat)
    requires Base(cfg, s, active) && forall id :: id in batch ==> id in active
    requires HasCommitted(s.gpu, x) || (x in batch && ReqAt(s, x).gen > 0)
    ensures HasCommitted(CommitGenerated(s, batch).gpu, x)
  {
    hide Base, CommitInput, HasCommitted;
    if batch != [] {
      var front, id := batch[..|batch| - 1], batch[|batch| - 1];
      assert batch == front + [id];
      CommitGeneratedMeans(cfg, s, active, front);
      CommitCommits(cfg, CommitGenerated(s, front), active, id);
      if x != id || HasCommitted(s.gpu, x) {
        CommitGeneratedCommits(cfg, s, active, front, x);
      }
    }
  }

  lemma {:induction false} FinishRecomputeCommits(cfg: Worker, s: Sched, active: seq<nat>, batch: seq<nat>, x: nat)
    requires Base(cfg, s, active) && forall id :: id in batch ==> id in active
    requires HasCommitted(s.gpu, x) || x in batch
    ensures HasCommitted(FinishRecompute(s, batch).gpu, x)
  {
    hide Base, CommitInput, HasCommitted;
    if batch != [] {
      var front, id := batch[..|batch| - 1], batch[|batch| - 1];
      assert batch == front + [id];
      FinishRecomputeMeans(cfg, s, active, front);
      CommitCommits(cfg, FinishRecompute(s, front), active, id);
      if x != id || HasCommitted(s.gpu, x) {
        FinishRecomputeCommits(cfg, s, active, front, x);
      }
    }
  }

  lemma {:induction false} FinishLeavesClaims(cfg: Worker, s: Sched, active: seq<nat>, id: nat, x: nat)
    requires Base(cfg, s, active) && id in active && x != id && HasCommitted(s.gpu, x)
    ensures var r := ReqAt(s, id);
            HasCommitted(Finish(s.gpu, id, FullInputBlocks(cfg, r), OutputKeys(cfg, r)), x)
  {
    HoldsTable(cfg, s, active, id);
    var r := ReqAt(s, id);
    InputsFit(cfg, r);
    hide Finish, OutputKeys, FullInputBlocks, InputKeys, HoldBlocks, NoneLost, AllFit, Queued;
    FinishFacts(s.gpu, cfg.numBlocks, id, FullInputBlocks(cfg, r), OutputKeys(cfg, r));
  }

  lemma {:induction false} FreeDoneCommitted(cfg: Worker, s: Sched, active: seq<nat>, batch: seq<nat>, x: nat)
    requires Base(cfg, s, active) && Distinct(batch) && forall id :: id in batch ==> id in active
    requires HasCommitted(s.gpu, x) && !(x in batch && IsDone(ReqAt(s, x)))
    ensures HasCommitted(FreeDone(cfg, s, batch).gpu, x)
  {
    hide Base, Finish, OutputKeys, FullInputBlocks, HasCommitted;
    if batch != [] {
      var front, id := batch[..|batch| - 1], batch[|batch| - 1];
      assert batch == front + [id] && id !in front;
      FreeDoneCommitted(cfg, s, active, front, x);
      FreeDoneMeans(cfg, s, active, front);
      LeavingMember(s, active, front, id);
      if IsDone(ReqAt(FreeDone(cfg, s, front), id)) {
        FinishLeavesClaims(cfg, FreeDone(cfg, s, front), Leaving(s, active, front), id, x);
      }
    }
  }

  lemma {:induction false} TokensCommit(cfg: Worker, s: Sched, batch: seq<nat>)
    requires Base(cfg, s, s.running) && Distinct(batch)
    requires forall id :: id in batch ==> id in s.running && id in s.reqs && s.reqs[id].gen < s.reqs[id].decode
    requires forall id :: id in s.running && id !in batch ==>
               HasCommitted(s.gpu, id) && id in s.reqs && s.reqs[id].gen < s.reqs[id].decode
    ensures var s' := Update(cfg, StepRequests(s, batch), batch); AllCommitted(s'.gpu, s'.running)
  {
    hide Base, StepRequests, Distinct, HasCommitted, CommitGenerated, FreeDone;
    StepRequestsMeans(cfg, s, s.running, batch);
    StepRequestsForm(s, batch);
    var s1 := StepRequests(s, batch);
    var s2 := CommitGenerated(s1, batch);
    CommitGeneratedMeans(cfg, s1, s.running, batch);
    UpdateMeans(cfg, s1, batch);
    var s' := Update(cfg, s1, batch);
    forall x | x in s'.running ensures HasCommitted(s'.gpu, x) {
      CommitGeneratedCommits(cfg, s1, s.running, batch, x);
      FreeDoneCommitted(cfg, s2, s.running, batch, x);
    }
  }

  lemma {:induction false} AdmittedCommit(cfg: Worker, s: Sched)
    requires WorkerInv(cfg, s) && AdmitsSome(cfg, s) && AllCommitted(s.gpu, s.running)
    ensures AllCommitted(WorkerStep(cfg, s).gpu, WorkerStep(cfg, s).running)
  {
    InvBase(cfg, s);
    AdmitAllKeeps(cfg, s, None);
    var (s1, batch) := AdmitAll(cfg, s, None);
    forall x | x in s.running ensures HasCommitted(s1.gpu, x) {
      AdmitAllCommitted(cfg, s, None, x);
    }
    hide WorkerInv, Base, AdmitAll, Update, StepRequests, FinishRecompute, Distinct, AdmittedBatch, HasCommitted;
    BatchMembers(cfg, s, s1, batch);
    BatchStates(cfg, s, s1, batch);
    if ReqAt(s1, batch[0]).recompute {
      FinishRecomputeMeans(cfg, s1, s1.running, batch);
      forall x | x in s1.running ensures HasCommitted(FinishRecompute(s1, batch).gpu, x) {
        FinishRecomputeCommits(cfg, s1, s1.running, batch, x);
      }
    } else {
      TokensCommit(cfg, s1, batch);
    }
  }

  lemma {:induction false} ScheduleClaims(cfg: Worker, s: Sched)
    requires WorkerInv(cfg, s) && !AdmitsSome(cfg, s)
    ensures RunSchedule(cfg, s).0.gpu.claims == s.gpu.claims
  {
    hide WorkerInv, Base, AdmitAll, DecodeAll, SortByArrival, DecodeOk, Distinct, AdmittedBatch;
    InvBase(cfg, s);
    AdmitAllKeeps(cfg, s, None);
    NothingChanged(cfg, s);
    SortedMembers(cfg, s);
    var sorted := SortByArrival(s, s.running);
    InvIsDecodeOk(cfg, s, sorted);
    DecodeAllCommitted(cfg, s, sorted, [], []);
  }

  lemma {:induction false} DecodedCommit(cfg: Worker, s: Sched)
    requires WorkerInv(cfg, s) && !AdmitsSome(cfg, s) && AllCommitted(s.gpu, s.running)
    ensures AllCommitted(WorkerStep(cfg, s).gpu, WorkerStep(cfg, s).running)
  {
    ScheduleClaims(cfg, s);
    PreemptionRespectsArrival(cfg, s);
    var (s1, schedule) := RunSchedule(cfg, s);
    KeptWereRunning(cfg, s, s1, schedule);
    hide WorkerInv, AdmitsSome, RunSchedule, OnlyFlags, DecodeOk, Base, Update, StepRequests, FinishRecompute,
         Distinct, SortByArrival;
    DecodeBase(cfg, s1, s1.running);
    ActiveDistinct(cfg, s1, s1.running);
    SettledPhase(s1);
    if schedule.batch != [] {
      TokensCommit(cfg, s1, schedule.batch);
    }
  }

  lemma {:induction false} KeptWereRunning(cfg: Worker, s: Sched, s1: Sched, schedule: Schedule)
    requires WorkerInv(cfg, s) && s1.running + Reverse(schedule.preempted) == SortByArrival(s, s.running)
    ensures forall id :: id in s1.running ==> id in s.running
  {
    InvBase(cfg, s);
    SortedMembers(cfg, s);
    hide SortByArrival, WorkerInv, Base;
    assert forall id :: id in s1.running ==> id in SortByArrival(s, s.running);
  }

  lemma {:induction false} RunCommitted(cfg: Worker, msgs: seq<Message>)
    ensures AllCommitted(HandleAll(cfg, msgs).gpu, HandleAll(cfg, msgs).running)
  {
    hide WorkerInv, WorkerStep, AllCommitted, Admissible, AdmitsSome;
    if msgs == [] {
      NobodyCommitted(cfg);
    } else {
      var s, msg := HandleAll(cfg, msgs[..|msgs| - 1]), msgs[|msgs| - 1];
      RunCommitted(cfg, msgs[..|msgs| - 1]);
      EveryRunKeepsRequests(cfg, msgs[..|msgs| - 1]);
      if AdmitsSome(cfg, s) {
        AdmittedCommit(cfg, s);
      } else {
        DecodedCommit(cfg, s);
      }
    }
  }

  lemma {:induction false} NobodyCommitted(cfg: Worker)
    ensures AllCommitted(NewGpu(cfg.numBlocks), [])
  {
  }

  // ----- what has been committed has been registered

  ghost predicate ClaimsRegistered(cfg: Worker, names: map<nat, Req>, g: Gpu) {
    forall id, k :: HasCommitted(g, id) && id in names && IsInputName(cfg, names[id], k) ==> WasRegistered(g.trace, k)
  }

  lemma {:induction false} RegisteredStays(a: seq<Event>, b: seq<Event>, k: PrefixCacheKey)
    requires a <= b && WasRegistered(a, k)
    ensures WasRegistered(b, k)
  {
    var i :| 0 <= i < |a| && a[i] == Registered(k);
    assert b[i] == a[i];
  }

  /** Whoever has committed after a call had committed before it, or the call committed for them. */
  lemma {:induction false} CommitsOnly(cfg: Worker, names: map<nat, Req>, g: Gpu, call: GpuCall, x: nat)
    requires Ready(g, cfg.numBlocks) && ClaimsNamed(cfg, names, g) && MadeFor(cfg, names, g, call)
    requires HasCommitted(GpuStep(g, cfg.watermark, call), x) && !HasCommitted(g, x)
    ensures (call == CommitCall(x) || (call.FinishCall? && call.id == x)) && Sensible(g, call)
  {
    hide CanAllocate, AllocateAsk, AppendSlot, CommitInput, Finish, Release, InputKeys, OutputKeys, Fills, Inv;
    if Sensible(g, call) {
      match call
      case AdmitCall(ask) =>
        if CanAllocate(g, ask, cfg.watermark) {
          AdmitFacts(g, cfg.numBlocks, cfg.watermark, ask);
        }
      case AppendCall(id, logical) => SlotFacts(cfg, g, id, logical);
      case CommitCall(id) =>
        CommitFacts(g, cfg.numBlocks, id);
        ClaimsOnly(g, id);
        OthersUncommitted(g, CommitInput(g, id), id, x);
      case FinishCall(id, start, keys) =>
        InvClaims(g, id);
        FinishFacts(g, cfg.numBlocks, id, start, keys);
        FinishClaims(g, id, start, keys);
        OthersUncommitted(g, Finish(g, id, start, keys), id, x);
      case ReleaseCall(id) => ReleaseFacts(g, cfg.numBlocks, id);
    }
  }

  lemma {:induction false} OthersUncommitted(g: Gpu, g': Gpu, id: nat, x: nat)
    requires g'.claims.Keys == g.claims.Keys && OtherClaims(g, g', id) && !HasCommitted(g, x)
    ensures HasCommitted(g', x) ==> x == id
  {
    assert x in g'.claims <==> x in g'.claims.Keys;
    assert x in g.claims <==> x in g.claims.Keys;
  }

  lemma {:induction false} CallRegisters(cfg: Worker, names: map<nat, Req>, g: Gpu, call: GpuCall)
    requires RunState(cfg, names, g) && MadeFor(cfg, names, g, call) && ClaimsRegistered(cfg, names, g)
    ensures ClaimsRegistered(cfg, names, GpuStep(g, cfg.watermark, call))
  {
    var g' := GpuStep(g, cfg.watermark, call);
    StepTrace(g, cfg.watermark, call);
    hide GpuStep, MadeFor, ClaimsNamed, HasCommitted, IsInputName, WasRegistered, Inv;
    forall x, k | HasCommitted(g', x) && x in names && IsInputName(cfg, names[x], k)
      ensures WasRegistered(g'.trace, k)
    {
      if HasCommitted(g, x) {
        RegisteredStays(g.trace, g'.trace, k);
      } else {
        CommitsOnly(cfg, names, g, call, x);
        NewlyCommitted(cfg, names, g, call, x, k);
      }
    }
  }

  lemma {:induction false} NewlyCommitted(cfg: Worker, names: map<nat, Req>, g: Gpu, call: GpuCall, x: nat,
                                          k: PrefixCacheKey)
    requires RunState(cfg, names, g) && MadeFor(cfg, names, g, call) && !HasCommitted(g, x) && Sensible(g, call)
    requires call == CommitCall(x) || (call.FinishCall? && call.id == x)
    requires x in names && IsInputName(cfg, names[x], k)
    ensures WasRegistered(GpuStep(g, cfg.watermark, call).trace, k)
  {
    hide MadeFor, ClaimsNamed, IsInputName, IsOutputName, WasRegistered, Inv, CommitInput, Finish;
    if call == CommitCall(x) {
      CommitRegisters(cfg, names, g, x, k);
    } else {
      FinishRegisters(cfg, names, g, call, k);
    }
  }

  lemma {:induction false} RunRegisters(cfg: Worker, names: map<nat, Req>, calls: seq<GpuCall>)
    requires AllMadeFor(cfg, names, calls)
    ensures ClaimsRegistered(cfg, names, GpuRun(cfg.numBlocks, cfg.watermark, calls))
  {
    hide AllMadeFor, MadeFor, GpuStep, RunState, ClaimsRegistered;
    if calls == [] {
      NothingClaimed(cfg, names);
    } else {
      var front := calls[..|calls| - 1];
      MadeForFront(cfg, names, calls);
      RunNamed(cfg, names, front);
      RunRegisters(cfg, names, front);
      CallRegisters(cfg, names, GpuRun(cfg.numBlocks, cfg.watermark, front), calls[|calls| - 1]);
    }
  }

  lemma {:induction false} NothingClaimed(cfg: Worker, names: map<nat, Req>)
    ensures ClaimsRegistered(cfg, names, NewGpu(cfg.numBlocks))
  {
  }

  /** In every run of the worker, between STEPs, every key that names a block the prompt of a running
      request fills has been registered. */
  lemma {:induction false} RunningInputsRegistered(cfg: Worker, msgs: seq<Message>, id: nat, n: nat, k: PrefixCacheKey)
    requires id in HandleAll(cfg, msgs).running
    ensures var s := HandleAll(cfg, msgs);
            && id in s.reqs
            && (InputName(cfg, s.reqs[id], n, k) ==> WasRegistered(s.gpu.trace, k))
  {
    var s := HandleAll(cfg, msgs);
    RunCommitted(cfg, msgs);
    EveryRunKeepsRequests(cfg, msgs);
    assert Base(cfg, s, s.running) && id in s.reqs by {
      InvBase(cfg, s);
      ActiveIn(cfg, s, s.running, id);
    }
    hide HandleAll, WorkerInv, Base, GpuRun, AllMadeFor, WasRegistered, HasCommitted;
    WorkerMakesCalls(cfg, msgs);
    var names := NamesOf(s);
    var calls :| s.gpu == GpuRun(cfg.numBlocks, cfg.watermark, calls) && AllMadeFor(cfg, names, calls);
    RunRegisters(cfg, names, calls);
    if InputName(cfg, s.reqs[id], n, k) {
      SameInputName(cfg, s.reqs[id], n, k);
      assert names[id] == AsAdded(s.reqs[id]) && IsInputName(cfg, names[id], k);
    }
  }

  lemma {:induction false} SameInputName(cfg: Worker, r: Req, n: nat, k: PrefixCacheKey)
    requires InputName(cfg, r, n, k)
    ensures IsInputName(cfg, AsAdded(r), k)
  {
    assert InputName(cfg, AsAdded(r), n, k);
  }
}

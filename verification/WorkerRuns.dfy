/** The worker's STEP as a whole: invariant, order, progress and termination. */
module WorkerRuns {
  import opened Containers
  import opened Keys
  import opened BlockPools
  import opened BlockModel
  import opened BlockTables
  import BlockSafety
  import opened SchedulerModel
  import opened SchedulerBlocks
  import opened SchedulerSafety
  import opened Termination

  lemma {:induction false} InvBase(cfg: Worker, s: Sched)
    requires WorkerInv(cfg, s)
    ensures Base(cfg, s, s.running) && Settled(s.reqs, s.running)
  {
  }

  // ----- what schedule() returns

  lemma {:induction false} PhaseKnown(cfg: Worker, s: Sched, id: nat)
    requires WorkerInv(cfg, s) && id in s.waiting
    ensures id in s.reqs && s.reqs[id].gen < s.reqs[id].decode && (s.reqs[id].recompute <==> s.reqs[id].gen >= 1)
  {
    hide Ready, HoldBlocks, AllFit, NoneLost;
  }

  lemma {:induction false} InvIsDecodeOk(cfg: Worker, s: Sched, ids: seq<nat>)
    requires WorkerInv(cfg, s) && Distinct(ids) && forall x :: x in ids <==> x in s.running
    ensures DecodeOk(cfg, s, ids) && DecodeOk(cfg, s, [] + ids)
  {
    SameMembers(cfg, s, s.running, ids);
    hide Base;
    assert [] + ids == ids;
  }

  lemma {:induction false} PermutationDistinct(a: seq<nat>, b: seq<nat>)
    requires Distinct(a) && multiset(a) == multiset(b)
    ensures Distinct(b) && forall x :: x in b <==> x in a
  {
    forall x ensures x in b <==> x in a {
      assert x in b <==> x in multiset(b);
      assert x in a <==> x in multiset(a);
    }
    forall i, j | 0 <= i < j < |b| ensures b[i] != b[j] {
      if b[i] == b[j] {
        TwiceInRow(b, i, j);
        OnceIn(a, b[i]);
      }
    }
  }

  lemma {:induction false} OnceIn(a: seq<nat>, x: nat)
    requires Distinct(a)
    ensures multiset(a)[x] <= 1
  {
    if a != [] {
      var front, last := a[..|a| - 1], a[|a| - 1];
      assert a == front + [last];
      OnceIn(front, x);
      assert last !in front;
      assert multiset(a) == multiset(front) + multiset{last};
    }
  }

  lemma {:induction false} SortedMembers(cfg: Worker, s: Sched)
    requires Base(cfg, s, s.running)
    ensures Distinct(SortByArrival(s, s.running))
    ensures forall x :: x in SortByArrival(s, s.running) <==> x in s.running
  {
    ActiveDistinct(cfg, s, s.running);
    SortIsStable(s, s.running);
    hide Base, Distinct, SortByArrival, SortedByArrival, ArrivedAt;
    PermutationDistinct(s.running, SortByArrival(s, s.running));
  }

  /** Whether the admission loop finds anything to admit. */
  predicate AdmitsSome(cfg: Worker, s: Sched) {
    AdmitAll(cfg, s, None).1 != []
  }

  /** Preemption respects arrival order: after the decode branch the requests kept, followed by
      the preempted ones in reverse, are the stable arrival sort of those that ran, and the
      preempted head the waiting list in that order. Nothing is lost or duplicated. */
  lemma {:induction false} PreemptionRespectsArrival(cfg: Worker, s: Sched)
    requires WorkerInv(cfg, s) && !AdmitsSome(cfg, s)
    ensures var (s', schedule) := RunSchedule(cfg, s);
            && s'.running == schedule.batch
            && s'.running + Reverse(schedule.preempted) == SortByArrival(s, s.running)
            && s'.waiting == Reverse(schedule.preempted) + s.waiting
            && (s.running != [] ==> s'.running != [] && s'.running[0] == SortByArrival(s, s.running)[0])
            && DecodeOk(cfg, s', s'.running) && OnlyFlags(s.reqs, s'.reqs)
  {
    hide WorkerInv, Base, Settled, AdmitAll, DecodeAll, SortByArrival, OnlyFlags, DecodeOk, Distinct;
    InvBase(cfg, s);
    AdmitAllKeeps(cfg, s, None);
    var sorted := SortByArrival(s, s.running);
    SortedMembers(cfg, s);
    InvIsDecodeOk(cfg, s, sorted);
    InOrderStart(s.waiting, sorted);
    DecodeAllKeeps(cfg, s, sorted, [], [], s.waiting, sorted);
    var (s2, kept, preempted) := DecodeAll(cfg, s, sorted, [], []);
    InOrderEnd(s.waiting, kept, preempted, s2.waiting, sorted);
    SortNonempty(s, s.running);
    assert [] + sorted == sorted;
    RunningIrrelevant(cfg, s2, kept);
  }

  lemma {:induction false} SortNonempty(s: Sched, ids: seq<nat>)
    ensures SortByArrival(s, ids) == [] <==> ids == []
  {
  }

  lemma {:induction false} InOrderStart(w: seq<nat>, sorted: seq<nat>)
    ensures InOrder(w, [], sorted, [], w, sorted)
  {
    assert [] + sorted + Reverse([]) == sorted;
  }

  lemma {:induction false} InOrderEnd(w: seq<nat>, kept: seq<nat>, preempted: seq<nat>, waiting: seq<nat>,
                                      before: seq<nat>)
    requires InOrder(w, kept, [], preempted, waiting, before)
    ensures kept + Reverse(preempted) == before && waiting == Reverse(preempted) + w
    ensures kept != [] ==> kept[0] == before[0]
  {
    assert kept + [] == kept;
  }

  lemma {:induction false} RunningIrrelevant(cfg: Worker, s: Sched, ids: seq<nat>)
    requires DecodeOk(cfg, s, ids)
    ensures DecodeOk(cfg, s.(running := ids), ids)
  {
    hide Ready, HoldBlocks, AllFit, Queued, NoneLost, Settled;
  }

  /** A batch never mixes requests to prefill with requests to recompute. */
  lemma {:induction false} BatchHasOnePhase(cfg: Worker, s: Sched)
    requires WorkerInv(cfg, s)
    ensures var (s', schedule) := RunSchedule(cfg, s);
            forall id :: id in schedule.batch ==> ReqAt(s', id).recompute == ReqAt(s', schedule.batch[0]).recompute
  {
    hide WorkerInv, Base, Settled, AdmitAll, DecodeAll, SortByArrival, OnlyFlags, DecodeOk;
    InvBase(cfg, s);
    AdmitAllKeeps(cfg, s, None);
    if AdmitsSome(cfg, s) {
      SamePhase(s, AdmitAll(cfg, s, None).0, AdmitAll(cfg, s, None).1);
    } else {
      PreemptionRespectsArrival(cfg, s);
      DecodeBase(cfg, RunSchedule(cfg, s).0, RunSchedule(cfg, s).0.running);
      SettledPhase(RunSchedule(cfg, s).0);
    }
  }

  lemma {:induction false} SamePhase(s: Sched, s1: Sched, batch: seq<nat>)
    requires AdmittedBatch(s, s1, None, batch)
    ensures s1.reqs == s.reqs
    ensures forall id :: id in batch ==> ReqAt(s1, id).recompute == ReqAt(s1, batch[0]).recompute
  {
    assert forall id :: ReqAt(s1, id) == ReqAt(s, id);
  }

  lemma {:induction false} SettledPhase(s: Sched)
    requires Settled(s.reqs, s.running)
    ensures forall id :: id in s.running ==> !ReqAt(s, id).recompute && !ReqAt(s, s.running[0]).recompute
  {
    if s.running != [] {
      assert s.running[0] in s.running;
    }
  }

  // ----- admission batches

  lemma {:induction false} SplitDistinct(a: seq<nat>, b: seq<nat>)
    requires Distinct(a + b)
    ensures Distinct(b) && forall x :: x in b ==> x !in a
  {
    forall i, j | 0 <= i < j < |b| ensures b[i] != b[j] {
      assert (a + b)[|a| + i] == b[i] && (a + b)[|a| + j] == b[j];
    }
    forall i, j | 0 <= i < |a| && 0 <= j < |b| ensures a[i] != b[j] {
      assert (a + b)[i] == a[i] && (a + b)[|a| + j] == b[j];
    }
  }

  lemma {:induction false} BatchMembers(cfg: Worker, s: Sched, s1: Sched, batch: seq<nat>)
    requires WorkerInv(cfg, s) && Base(cfg, s1, s1.running) && AdmittedBatch(s, s1, None, batch)
    ensures Distinct(batch) && forall id :: id in batch ==> id in s.waiting && id in s1.running && id !in s.running
    ensures forall id :: id in s1.running <==> id in s.running || id in batch
  {
    hide Base, WorkerInv, Distinct;
    ActiveDistinct(cfg, s1, s1.running);
    SplitDistinct(s.running, batch);
  }

  /** What an admitted request looks like: as it waited. */
  lemma {:induction false} BatchStates(cfg: Worker, s: Sched, s1: Sched, batch: seq<nat>)
    requires WorkerInv(cfg, s) && Base(cfg, s1, s1.running) && AdmittedBatch(s, s1, None, batch)
    ensures s1.reqs == s.reqs
    ensures forall id :: id in batch ==>
              && id in s.reqs && s.reqs[id].gen < s.reqs[id].decode
              && s.reqs[id].recompute == ReqAt(s1, batch[0]).recompute && (s.reqs[id].recompute <==> s.reqs[id].gen >= 1)
    ensures forall id :: id in s1.running && id !in batch ==>
              && id in s.reqs && !s.reqs[id].recompute && 1 <= s.reqs[id].gen < s.reqs[id].decode
  {
    hide Base, WorkerInv, Distinct;
    BatchMembers(cfg, s, s1, batch);
    forall id | id in batch ensures id in s.reqs && s.reqs[id].gen < s.reqs[id].decode
                                    && (s.reqs[id].recompute <==> s.reqs[id].gen >= 1)
    {
      PhaseKnown(cfg, s, id);
    }
    SamePhase(s, s1, batch);
    InvBase(cfg, s);
  }

  lemma {:induction false} RecomputeStep(cfg: Worker, s: Sched, s1: Sched, batch: seq<nat>)
    requires WorkerInv(cfg, s) && Base(cfg, s1, s1.running) && AdmittedBatch(s, s1, None, batch) && batch != []
    requires ReqAt(s1, batch[0]).recompute
    ensures var s' := FinishRecompute(s1, batch);
            WorkerInv(cfg, s') && Work(s'.reqs) == Work(s.reqs) && |s'.waiting| < |s.waiting|
  {
    hide Base, FinishRecompute, Distinct;
    BatchMembers(cfg, s, s1, batch);
    BatchStates(cfg, s, s1, batch);
    FinishRecomputeMeans(cfg, s1, s1.running, batch);
    var s' := FinishRecompute(s1, batch);
    assert |s.waiting| == |batch| + |s1.waiting|;
    assert s'.reqs.Keys == s.reqs.Keys;
    hide AdmittedBatch;
    WorkSame(s.reqs, s'.reqs);
    SettledThrough(s1, s', s.reqs);
  }

  lemma {:induction false} SettledThrough(s1: Sched, s': Sched, reqs: map<nat, Req>)
    requires forall id :: id in s1.running ==>
               id in reqs && id in s'.reqs && !s'.reqs[id].recompute && s'.reqs[id].gen == reqs[id].gen
               && s'.reqs[id].decode == reqs[id].decode && 1 <= reqs[id].gen < reqs[id].decode
    requires s'.running == s1.running
    ensures Settled(s'.reqs, s'.running)
  {
  }

  /** Stepping a batch of unfinished requests generates one token for each. */
  lemma {:induction false} TokenStep(cfg: Worker, s1: Sched, batch: seq<nat>)
    requires Base(cfg, s1, s1.running) && Distinct(batch)
    requires forall id :: id in batch ==>
               id in s1.running && id in s1.reqs && s1.reqs[id].gen < s1.reqs[id].decode && !s1.reqs[id].recompute
    requires forall id :: id in s1.running && id !in batch ==>
               id in s1.reqs && !s1.reqs[id].recompute && 1 <= s1.reqs[id].gen < s1.reqs[id].decode
    ensures var s' := Update(cfg, StepRequests(s1, batch), batch);
            WorkerInv(cfg, s') && Work(s'.reqs) == Work(s1.reqs) - |batch|
            && (forall id :: id in s1.reqs ==> id in s'.reqs && s'.reqs[id].gen >= s1.reqs[id].gen)
  {
    hide Base, StepRequests, Distinct, Update;
    StepRequestsMeans(cfg, s1, s1.running, batch);
    var s2 := StepRequests(s1, batch);
    forall id | id in s2.running && id !in batch ensures !IsDone(ReqAt(s2, id)) {
      assert id in s1.reqs && s2.reqs[id] == s1.reqs[id];
    }
    UpdateMeans(cfg, s2, batch);
    var s' := Update(cfg, s2, batch);
    forall id | id in s'.running
      ensures id in s'.reqs && !s'.reqs[id].recompute && 1 <= s'.reqs[id].gen < s'.reqs[id].decode
    {
      assert id in s1.running && id in s1.reqs && !IsDone(ReqAt(s2, id));
      ActiveIn(cfg, s', s'.running, id);
      ActiveGen(cfg, s', s'.running, id);
    }
    SettledThrough(s', s', s'.reqs);
  }

  lemma {:induction false} PrefillStep(cfg: Worker, s: Sched, s1: Sched, batch: seq<nat>)
    requires WorkerInv(cfg, s) && Base(cfg, s1, s1.running) && AdmittedBatch(s, s1, None, batch) && batch != []
    requires !ReqAt(s1, batch[0]).recompute
    ensures var s' := Update(cfg, StepRequests(s1, batch), batch);
            WorkerInv(cfg, s') && Work(s'.reqs) == Work(s.reqs) - |batch|
            && (forall id :: id in s.reqs ==> id in s'.reqs && s'.reqs[id].gen >= s.reqs[id].gen)
  {
    hide Base, WorkerInv, Update, StepRequests, Distinct, AdmittedBatch;
    BatchMembers(cfg, s, s1, batch);
    BatchStates(cfg, s, s1, batch);
    TokenStep(cfg, s1, batch);
  }

  lemma {:induction false} DecodeStep(cfg: Worker, s: Sched)
    requires WorkerInv(cfg, s) && !AdmitsSome(cfg, s) && s.running != []
    ensures var (s1, schedule) := RunSchedule(cfg, s);
            var s' := Update(cfg, StepRequests(s1, schedule.batch), schedule.batch);
            && schedule.batch != [] && !ReqAt(s1, schedule.batch[0]).recompute
            && WorkerInv(cfg, s') && Work(s'.reqs) < Work(s.reqs)
            && (forall id :: id in s.reqs ==> id in s'.reqs && s'.reqs[id].gen >= s.reqs[id].gen)
  {
    hide Base, WorkerInv, Update, StepRequests, Distinct, RunSchedule, DecodeOk, OnlyFlags, AdmitsSome;
    PreemptionRespectsArrival(cfg, s);
    var (s1, schedule) := RunSchedule(cfg, s);
    DecodeBase(cfg, s1, s1.running);
    ActiveDistinct(cfg, s1, s1.running);
    SettledPhase(s1);
    TokenStep(cfg, s1, schedule.batch);
    FlagsWork(s.reqs, s1.reqs);
    assert |schedule.batch| >= 1;
  }

  lemma {:induction false} FlagsWork(reqs: map<nat, Req>, reqs': map<nat, Req>)
    requires OnlyFlags(reqs, reqs')
    ensures Work(reqs') == Work(reqs)
    ensures forall id :: id in reqs ==> id in reqs' && reqs'[id].gen == reqs[id].gen
  {
    assert forall id :: id in reqs ==> id in reqs'.Keys;
    WorkSame(reqs, reqs');
  }

  // ----- progress

  /** With nothing running, the head of the waiting list is always admitted. */
  lemma {:induction false} IdleFacts(cfg: Worker, s: Sched)
    requires WorkerInv(cfg, s) && s.running == [] && s.waiting != []
    ensures var id := s.waiting[0];
            && id in s.reqs && Ready(s.gpu, cfg.numBlocks) && s.gpu.tables == map[] && Base(cfg, s, [])
            && Logical(cfg, s.reqs[id]) + cfg.watermark <= cfg.numBlocks
  {
    var id := s.waiting[0];
    assert id in s.waiting;
    hide Ready, NoneLost, Logical, Fits;
    LogicalFits(cfg, s.reqs[id]);
  }

  lemma {:induction false} IdleWorkerAdmits(cfg: Worker, s: Sched)
    requires WorkerInv(cfg, s) && s.running == [] && s.waiting != []
    ensures AdmitsSome(cfg, s)
  {
    IdleFacts(cfg, s);
    hide WorkerInv, Base, Ready, Logical, CanAllocate, InputKeys;
    var id := s.waiting[0];
    EmptyAdmits(s.gpu, cfg.numBlocks, cfg.watermark, AskOf(cfg, id, s.reqs[id]));
    assert 0 as real / cfg.numBlocks as real == 0.0;
    AdmitAllKeeps(cfg, s, None);
  }

  /** Lexicographic: tokens left to generate, then the length of the waiting list. */
  ghost predicate Decreases(s: Sched, s': Sched) {
    Work(s'.reqs) < Work(s.reqs) || (Work(s'.reqs) == Work(s.reqs) && |s'.waiting| < |s.waiting|)
  }

  /** Every STEP of a worker with anything to do keeps the invariant and makes progress. */
  lemma {:induction false} StepMakesProgress(cfg: Worker, s: Sched)
    requires WorkerInv(cfg, s) && (s.running != [] || s.waiting != [])
    ensures var s' := WorkerStep(cfg, s); WorkerInv(cfg, s') && Decreases(s, s')
    ensures forall id :: id in s.reqs ==> id in WorkerStep(cfg, s).reqs
  {
    InvBase(cfg, s);
    if AdmitsSome(cfg, s) {
      AdmitAllKeeps(cfg, s, None);
      var (s1, batch) := AdmitAll(cfg, s, None);
      hide WorkerInv, Base, AdmitAll, Update, StepRequests, FinishRecompute, Work;
      if ReqAt(s1, batch[0]).recompute {
        RecomputeStep(cfg, s, s1, batch);
        RecomputeKeys(cfg, s1, batch);
        assert s1.reqs == s.reqs by { SamePhase(s, s1, batch); }
      } else {
        PrefillStep(cfg, s, s1, batch);
      }
    } else {
      if s.running == [] {
        IdleWorkerAdmits(cfg, s);
      }
      hide WorkerInv, RunSchedule, Update, StepRequests, FinishRecompute, Work, AdmitsSome;
      DecodeStep(cfg, s);
    }
  }

  lemma {:induction false} RecomputeKeys(cfg: Worker, s: Sched, batch: seq<nat>)
    ensures forall id :: id in s.reqs ==> id in FinishRecompute(s, batch).reqs
  {
    hide CommitInput;
    if batch != [] {
      RecomputeKeys(cfg, s, batch[..|batch| - 1]);
    }
  }

  /** The state once the worker has run out of work; the recursion is the worker's STEP loop. */
  ghost function Settle(cfg: Worker, s: Sched): Sched
    requires WorkerInv(cfg, s)
    decreases Work(s.reqs), |s.waiting|
  {
    if s.running == [] && s.waiting == [] then s
    else
      StepMakesProgress(cfg, s);
      Settle(cfg, WorkerStep(cfg, s))
  }

  /** Once arrivals stop, the worker goes idle with every request finished and every block free. */
  lemma {:induction false} AllRequestsFinish(cfg: Worker, s: Sched)
    requires WorkerInv(cfg, s)
    ensures var s' := Settle(cfg, s);
            && s'.running == [] && s'.waiting == []
            && (forall id :: id in s.reqs ==> id in s'.reqs && IsDone(s'.reqs[id]))
            && s'.gpu.tables == map[] && FreeCount(s'.gpu.pool) == cfg.numBlocks
    decreases Work(s.reqs), |s.waiting|
  {
    if s.running == [] && s.waiting == [] {
      assert s.gpu.tables == map[];
      hide Ready;
      EmptyAdmits(s.gpu, cfg.numBlocks, cfg.watermark, Ask(0, [], 0));
    } else {
      hide WorkerInv, WorkerStep, Work;
      StepMakesProgress(cfg, s);
      AllRequestsFinish(cfg, WorkerStep(cfg, s));
    }
  }

  // ----- arrivals

  function NewWorker(cfg: Worker): Sched {
    Sched(NewGpu(cfg.numBlocks), map[], [], [])
  }

  /** A request as the workload loader makes it: positive lengths, nothing generated, and within
      the capacity check. */
  predicate Admissible(cfg: Worker, s: Sched, id: nat, r: Req) {
    id !in s.reqs && r.gen == 0 && !r.recompute && r.decode >= 1 && Fits(cfg, r)
  }

  lemma {:induction false} ArrivalNoneLost(reqs: map<nat, Req>, active: seq<nat>, waiting: seq<nat>, id: nat, r: Req)
    requires NoneLost(reqs, active, waiting) && id !in reqs && id !in active && id !in waiting
    ensures NoneLost(reqs[id := r], active, waiting + [id])
  {
    assert active + (waiting + [id]) == (active + waiting) + [id];
    assert id !in active + waiting;
  }

  lemma {:induction false} ArrivalKeeps(cfg: Worker, s: Sched, id: nat, r: Req)
    requires WorkerInv(cfg, s) && Admissible(cfg, s, id, r)
    ensures WorkerInv(cfg, AddRequest(s, id, r))
  {
    hide Ready, Fits, InputKeys, Logical;
    ArrivalNoneLost(s.reqs, s.running, s.waiting, id, r);
    hide NoneLost;
    var s' := AddRequest(s, id, r);
    assert AllFit(cfg, s'.reqs);
    assert HoldBlocks(cfg, s'.gpu, s'.reqs, s'.running);
  }

  datatype Message = Add(id: nat, req: Req) | Step

  /** The worker handles STEP only while it has work, and ADD only for admissible requests. */
  function Handle(cfg: Worker, s: Sched, msg: Message): Sched {
    match msg
    case Add(id, r) => if Admissible(cfg, s, id, r) then AddRequest(s, id, r) else s
    case Step => if s.running == [] && s.waiting == [] then s else WorkerStep(cfg, s)
  }

  function HandleAll(cfg: Worker, msgs: seq<Message>): Sched {
    if msgs == [] then NewWorker(cfg) else Handle(cfg, HandleAll(cfg, msgs[..|msgs| - 1]), msgs[|msgs| - 1])
  }

  lemma {:induction false} NewWorkerInv(cfg: Worker)
    ensures WorkerInv(cfg, NewWorker(cfg))
  {
    BlockSafety.NewInv(cfg.numBlocks);
  }

  /** Whatever the interleaving of arrivals and steps, no request is lost or listed twice, and
      exactly the running requests hold blocks. */
  lemma {:induction false} EveryRunKeepsRequests(cfg: Worker, msgs: seq<Message>)
    ensures WorkerInv(cfg, HandleAll(cfg, msgs))
  {
    hide WorkerInv, WorkerStep;
    if msgs == [] {
      NewWorkerInv(cfg);
    } else {
      var s, msg := HandleAll(cfg, msgs[..|msgs| - 1]), msgs[|msgs| - 1];
      EveryRunKeepsRequests(cfg, msgs[..|msgs| - 1]);
      if msg.Add? && Admissible(cfg, s, msg.id, msg.req) {
        ArrivalKeeps(cfg, s, msg.id, msg.req);
      } else if msg.Step? && (s.running != [] || s.waiting != []) {
        StepMakesProgress(cfg, s);
      }
    }
  }

  // ----- why the output length must be positive

  /** Generation never goes back. */
  ghost predicate NoneBack(reqs: map<nat, Req>, reqs': map<nat, Req>) {
    forall id :: id in reqs ==> id in reqs' && reqs'[id].gen >= reqs[id].gen && reqs'[id].decode == reqs[id].decode
  }

  lemma {:induction false} AdmitAllReqs(cfg: Worker, s: Sched, phase: Option<bool>)
    ensures AdmitAll(cfg, s, phase).0.reqs == s.reqs
    decreases |s.waiting|
  {
    hide AdmitHead, Admits;
    if s.waiting != [] && Admits(cfg, s, phase) {
      AdmitAllReqs(cfg, AdmitHead(cfg, s), Some(ReqAt(s, s.waiting[0]).recompute));
    }
  }

  lemma {:induction false} DecodeAllBack(cfg: Worker, s: Sched, todo: seq<nat>, kept: seq<nat>, preempted: seq<nat>)
    ensures NoneBack(s.reqs, DecodeAll(cfg, s, todo, kept, preempted).0.reqs)
    decreases |todo|
  {
    hide CanAppend, AppendSlot, Release;
    if todo != [] {
      if CanAppend(s.gpu, todo[0], Logical(cfg, ReqAt(s, todo[0]))) {
        DecodeAllBack(cfg, Append(cfg, s, todo[0]), todo[1..], kept + [todo[0]], preempted);
      } else {
        var n := |todo| - 1;
        DecodeAllBack(cfg, Preempt(s, todo[n]), todo[..n], kept, preempted + [todo[n]]);
      }
    }
  }

  lemma {:induction false} FinishRecomputeBack(s: Sched, batch: seq<nat>)
    ensures NoneBack(s.reqs, FinishRecompute(s, batch).reqs)
  {
    hide CommitInput;
    if batch != [] {
      FinishRecomputeBack(s, batch[..|batch| - 1]);
    }
  }

  lemma {:induction false} StepRequestsBack(s: Sched, batch: seq<nat>)
    ensures NoneBack(s.reqs, StepRequests(s, batch).reqs)
    ensures forall id :: id in batch && id in s.reqs ==> ReqAt(StepRequests(s, batch), id).gen > s.reqs[id].gen
  {
    if batch != [] {
      StepRequestsBack(s, batch[..|batch| - 1]);
      assert batch == batch[..|batch| - 1] + [batch[|batch| - 1]];
    }
  }

  lemma {:induction false} UpdateReqs(cfg: Worker, s: Sched, batch: seq<nat>)
    ensures Update(cfg, s, batch).reqs == s.reqs
  {
    CommitGeneratedReqs(s, batch);
    FreeDoneReqs(cfg, CommitGenerated(s, batch), batch);
  }

  lemma {:induction false} CommitGeneratedReqs(s: Sched, batch: seq<nat>)
    ensures CommitGenerated(s, batch).reqs == s.reqs
  {
    hide CommitInput;
    if batch != [] {
      CommitGeneratedReqs(s, batch[..|batch| - 1]);
    }
  }

  lemma {:induction false} FreeDoneReqs(cfg: Worker, s: Sched, batch: seq<nat>)
    ensures FreeDone(cfg, s, batch).reqs == s.reqs
  {
    hide Finish, OutputKeys;
    if batch != [] {
      FreeDoneReqs(cfg, s, batch[..|batch| - 1]);
    }
  }

  lemma {:induction false} ScheduleBack(cfg: Worker, s: Sched)
    ensures NoneBack(s.reqs, RunSchedule(cfg, s).0.reqs)
  {
    hide AdmitAll, DecodeAll, SortByArrival;
    AdmitAllReqs(cfg, s, None);
    var s1 := AdmitAll(cfg, s, None).0;
    DecodeAllBack(cfg, s1, SortByArrival(s1, s1.running), [], []);
  }

  lemma {:induction false} StepBack(cfg: Worker, s: Sched)
    ensures NoneBack(s.reqs, WorkerStep(cfg, s).reqs)
  {
    hide Update, RunSchedule, FinishRecompute, StepRequests;
    ScheduleBack(cfg, s);
    var (s2, schedule) := RunSchedule(cfg, s);
    FinishRecomputeBack(s2, schedule.batch);
    StepRequestsBack(s2, schedule.batch);
    UpdateReqs(cfg, StepRequests(s2, schedule.batch), schedule.batch);
  }

  function StepTimes(cfg: Worker, s: Sched, n: nat): Sched {
    if n == 0 then s else WorkerStep(cfg, StepTimes(cfg, s, n - 1))
  }

  /** Completion is tested with equality, so a request with no output to generate overshoots it
      on its first token and is never done again, however long the worker runs. */
  lemma {:induction false} ZeroOutputNeverFinishes(cfg: Worker, s: Sched, id: nat, n: nat)
    requires id in s.reqs && s.reqs[id].decode == 0 && s.reqs[id].gen >= 1
    ensures !IsDone(ReqAt(StepTimes(cfg, s, n), id))
  {
    StepTimesBack(cfg, s, n);
  }

  lemma {:induction false} StepTimesBack(cfg: Worker, s: Sched, n: nat)
    ensures NoneBack(s.reqs, StepTimes(cfg, s, n).reqs)
  {
    hide WorkerStep;
    if n > 0 {
      StepTimesBack(cfg, s, n - 1);
      StepBack(cfg, StepTimes(cfg, s, n - 1));
    }
  }

  /** So once any worker puts such a request in a batch that generates, it is never done again. */
  lemma {:induction false} ZeroOutputOvershoots(cfg: Worker, s: Sched, id: nat, n: nat)
    requires id in s.reqs && s.reqs[id].decode == 0
    requires var (s1, schedule) := RunSchedule(cfg, s);
             id in schedule.batch && !ReqAt(s1, schedule.batch[0]).recompute
    ensures !IsDone(ReqAt(StepTimes(cfg, WorkerStep(cfg, s), n), id))
  {
    hide RunSchedule, Update, StepRequests, StepTimes;
    var (s1, schedule) := RunSchedule(cfg, s);
    ScheduleBack(cfg, s);
    StepRequestsBack(s1, schedule.batch);
    UpdateReqs(cfg, StepRequests(s1, schedule.batch), schedule.batch);
    ZeroOutputNeverFinishes(cfg, WorkerStep(cfg, s), id, n);
  }

  /** An idle worker, for one, admits such a request and generates a token for it. */
  lemma {:induction false} ZeroOutputIsAdmitted(cfg: Worker, id: nat, r: Req)
    requires r.gen == 0 && !r.recompute && r.decode == 0 && Fits(cfg, r)
    ensures var s := WorkerStep(cfg, AddRequest(NewWorker(cfg), id, r)); id in s.reqs && s.reqs[id].gen >= 1
  {
    var s := AddRequest(NewWorker(cfg), id, r);
    assert ReqAt(s, id) == r && s.waiting[0] == id;
    FreshAdmits(cfg, s, id, r);
    hide AdmitHead, Admits;
    var s1 := AdmitHead(cfg, s);
    assert s1.waiting == [];
    assert AdmitAll(cfg, s1, Some(ReqAt(s, id).recompute)) == (s1, []);
    assert AdmitAll(cfg, s, None) == (s1, [id] + []);
    assert [id] + [] == [id];
    hide Update, AdmitAll, StepRequests;
    StepRequestsBack(s1, [id]);
    UpdateReqs(cfg, StepRequests(s1, [id]), [id]);
    assert ReqAt(s1, id) == r;
  }

  lemma {:induction false} FreshAdmits(cfg: Worker, s: Sched, id: nat, r: Req)
    requires s == AddRequest(NewWorker(cfg), id, r) && Fits(cfg, r) && r.gen == 0
    ensures s.waiting != [] && Admits(cfg, s, None)
  {
    hide WorkerInv, Base, Ready, Logical, CanAllocate, Fits, NewGpu, InputKeys;
    NewWorkerReady(cfg);
    LogicalFits(cfg, r);
    assert ReqAt(s, id) == r;
    EmptyAdmits(s.gpu, cfg.numBlocks, cfg.watermark, AskOf(cfg, id, r));
    assert 0 as real / cfg.numBlocks as real == 0.0;
  }

  lemma {:induction false} NewWorkerReady(cfg: Worker)
    ensures Ready(NewGpu(cfg.numBlocks), cfg.numBlocks) && NewGpu(cfg.numBlocks).tables == map[]
  {
    BlockSafety.NewInv(cfg.numBlocks);
    hide Inv;
  }
}

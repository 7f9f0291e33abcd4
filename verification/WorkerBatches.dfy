/** Which requests a STEP takes: when the admission loop stops, how many requests may run, and when
    decoding has to preempt. */
module WorkerBatches {
  import opened Containers
  import opened Keys
  import opened BlockPools
  import opened BlockModel
  import opened BlockInvariants
  import opened BlockLists
  import opened BlockTables
  import opened BlockRuns
  import opened SchedulerModel
  import opened SchedulerBlocks
  import opened SchedulerSafety
  import opened Termination
  import opened WorkerRuns
  import opened WorkerRows

  // ----- admission

  /** Blocks a request lacks: those its tokens fill, less those it hits. */
  function Lacking(cfg: Worker, g: Gpu, r: Req): int {
    (r.prefill + r.gen + cfg.blockSize - 1) / cfg.blockSize - |Hits(g, InputKeys(cfg, r))|
  }

  /** Nobody waits, or the batch limit is reached, or the share of blocks in use is, or the head waits for
      the other phase than the batch `flag` is in, or it would leave fewer blocks than the watermark:
      free ones, not counting hits that sit in the free queue, less what the head lacks. */
  predicate Blocked(cfg: Worker, s: Sched, flag: Option<bool>) {
    || s.waiting == []
    || (cfg.maxParallel.Some? && |s.running| >= cfg.maxParallel.value)
    || (cfg.numBlocks - FreeCount(s.gpu.pool)) as real / cfg.numBlocks as real >= cfg.occupancy
    || var r := ReqAt(s, s.waiting[0]);
       || (flag.Some? && r.recompute != flag.value)
       || FreeCount(s.gpu.pool) - ZeroRefs(s.gpu, Hits(s.gpu, InputKeys(cfg, r))) - Lacking(cfg, s.gpu, r) < cfg.watermark
  }

  lemma {:induction false} BlockedIff(cfg: Worker, s: Sched, flag: Option<bool>)
    ensures Blocked(cfg, s, flag) <==> s.waiting == [] || !Admits(cfg, s, flag)
  {
    hide Hits, InputKeys, ZeroRefs, FreeCount, BelowUsage, CanAllocate, Lacking;
    UsageIff(cfg, s.gpu);
    if s.waiting != [] {
      RoomIff(cfg, s.gpu, s.waiting[0], ReqAt(s, s.waiting[0]));
    }
  }

  lemma {:induction false} UsageIff(cfg: Worker, g: Gpu)
    ensures BelowUsage(cfg, g)
            <==> !((cfg.numBlocks - FreeCount(g.pool)) as real / cfg.numBlocks as real >= cfg.occupancy)
  {
    hide FreeCount;
  }

  lemma {:induction false} RoomIff(cfg: Worker, g: Gpu, id: nat, r: Req)
    ensures CanAllocate(g, AskOf(cfg, id, r), cfg.watermark)
            <==> FreeCount(g.pool) - ZeroRefs(g, Hits(g, InputKeys(cfg, r))) - Lacking(cfg, g, r) >= cfg.watermark
  {
    hide Hits, InputKeys, ZeroRefs, FreeCount;
  }

  function AdmitTimes(cfg: Worker, s: Sched, n: nat): Sched
    requires n <= |s.waiting|
    decreases n
  {
    hide AdmitHead;
    if n == 0 then s else AdmitTimes(cfg, AdmitHead(cfg, s), n - 1)
  }

  /** The phase of the batch so far: that of its first request. */
  function PhaseOf(s: Sched, flag: Option<bool>, batch: seq<nat>, i: nat): Option<bool>
    requires i <= |batch|
  {
    if i == 0 then flag else Some(ReqAt(s, batch[i - 1]).recompute)
  }

  /** The loop admits heads of the waiting list until something blocks the next, and nothing blocked any
      of those it admitted. */
  lemma {:induction false} AdmissionStops(cfg: Worker, s: Sched, flag: Option<bool>)
    ensures var (s', batch) := AdmitAll(cfg, s, flag);
            && batch <= s.waiting && s' == AdmitTimes(cfg, s, |batch|)
            && Blocked(cfg, s', PhaseOf(s, flag, batch, |batch|))
            && forall i :: 0 <= i < |batch| ==> !Blocked(cfg, AdmitTimes(cfg, s, i), PhaseOf(s, flag, batch, i))
    decreases |s.waiting|
  {
    hide AdmitHead, Blocked, Admits;
    BlockedIff(cfg, s, flag);
    if s.waiting != [] && Admits(cfg, s, flag) {
      var id, s1 := s.waiting[0], AdmitHead(cfg, s);
      var flag1 := Some(ReqAt(s, id).recompute);
      AdmissionStops(cfg, s1, flag1);
      var (s', more) := AdmitAll(cfg, s1, flag1);
      hide AdmitAll;
      var batch := [id] + more;
      assert s.waiting == [id] + s1.waiting;
      assert forall x :: ReqAt(s1, x) == ReqAt(s, x);
      forall i | 0 <= i < |batch| ensures !Blocked(cfg, AdmitTimes(cfg, s, i), PhaseOf(s, flag, batch, i)) {
        if i > 0 {
          assert !Blocked(cfg, AdmitTimes(cfg, s1, i - 1), PhaseOf(s1, flag1, more, i - 1));
          assert PhaseOf(s1, flag1, more, i - 1) == PhaseOf(s, flag, batch, i);
        }
      }
      assert PhaseOf(s1, flag1, more, |more|) == PhaseOf(s, flag, batch, |batch|);
    }
  }

  /** In every run of the worker: what a STEP admits, it admits with nothing in the way, and it stops only
      when something is. */
  lemma {:induction false} WorkerAdmitsUntilBlocked(cfg: Worker, msgs: seq<Message>)
    ensures var s := HandleAll(cfg, msgs);
            var (s', batch) := AdmitAll(cfg, s, None);
            var flag := if batch == [] then None else Some(ReqAt(s, batch[0]).recompute);
            && batch <= s.waiting && s' == AdmitTimes(cfg, s, |batch|) && Blocked(cfg, s', flag)
            && forall i :: 0 <= i < |batch| ==> !Blocked(cfg, AdmitTimes(cfg, s, i), if i == 0 then None else flag)
  {
    var s := HandleAll(cfg, msgs);
    EveryRunKeepsRequests(cfg, msgs);
    InvBase(cfg, s);
    hide HandleAll, AdmitAll, AdmitTimes, Blocked, WorkerInv, Base;
    AdmitAllKeeps(cfg, s, None);
    AdmissionStops(cfg, s, None);
    var (s', batch) := AdmitAll(cfg, s, None);
    forall i | 0 < i <= |batch|
      ensures PhaseOf(s, None, batch, i) == Some(ReqAt(s, batch[0]).recompute)
    {
      assert batch[i - 1] in batch;
    }
    forall i | 0 <= i < |batch|
      ensures !Blocked(cfg, AdmitTimes(cfg, s, i), if i == 0 then None else Some(ReqAt(s, batch[0]).recompute))
    {
      assert !Blocked(cfg, AdmitTimes(cfg, s, i), PhaseOf(s, None, batch, i));
    }
  }

  // ----- the batch limit

  predicate WithinLimit(cfg: Worker, n: nat) {
    cfg.maxParallel.Some? ==> n <= cfg.maxParallel.value
  }

  lemma {:induction false} AdmitAllWithin(cfg: Worker, s: Sched, flag: Option<bool>)
    requires WithinLimit(cfg, |s.running|)
    ensures WithinLimit(cfg, |AdmitAll(cfg, s, flag).0.running|)
    decreases |s.waiting|
  {
    hide AdmitHead, BelowUsage, CanAllocate, AskOf;
    if s.waiting != [] && Admits(cfg, s, flag) {
      AdmitAllWithin(cfg, AdmitHead(cfg, s), Some(ReqAt(s, s.waiting[0]).recompute));
    }
  }

  lemma {:induction false} StillRunningFewer(s: Sched, ids: seq<nat>)
    ensures |StillRunning(s, ids)| <= |ids|
  {
    if ids != [] {
      StillRunningFewer(s, ids[1..]);
    }
  }

  lemma {:induction false} SortSize(s: Sched)
    ensures |SortByArrival(s, s.running)| == |s.running|
  {
    SortIsStable(s, s.running);
    hide SortByArrival;
    assert |multiset(SortByArrival(s, s.running))| == |multiset(s.running)|;
  }

  lemma {:induction false} DecodeKeepsFewer(cfg: Worker, s: Sched, todo: seq<nat>, kept: seq<nat>, preempted: seq<nat>)
    ensures |DecodeAll(cfg, s, todo, kept, preempted).1| <= |kept| + |todo|
    ensures DecodeAll(cfg, s, todo, kept, preempted).0.running == s.running
    decreases |todo|
  {
    hide Append, Preempt, CanAppend, Logical, ReqAt;
    if todo != [] {
      var n := |todo| - 1;
      assert Append(cfg, s, todo[0]).running == s.running && Preempt(s, todo[n]).running == s.running by {
        SameRunning(cfg, s, todo[0], todo[n]);
      }
      DecodeKeepsFewer(cfg, Append(cfg, s, todo[0]), todo[1..], kept + [todo[0]], preempted);
      DecodeKeepsFewer(cfg, Preempt(s, todo[n]), todo[..n], kept, preempted + [todo[n]]);
    }
  }

  lemma {:induction false} SameRunning(cfg: Worker, s: Sched, a: nat, b: nat)
    ensures Append(cfg, s, a).running == s.running && Preempt(s, b).running == s.running
  {
    hide AppendSlot, Release;
  }

  lemma {:induction false} ScheduleWithin(cfg: Worker, s: Sched)
    requires WithinLimit(cfg, |s.running|)
    ensures WithinLimit(cfg, |RunSchedule(cfg, s).0.running|)
  {
    hide AdmitAll, DecodeAll, SortByArrival;
    AdmitAllWithin(cfg, s, None);
    var s1 := AdmitAll(cfg, s, None).0;
    SortSize(s1);
    DecodeKeepsFewer(cfg, s1, SortByArrival(s1, s1.running), [], []);
  }

  lemma {:induction false} FinishRecomputeRunning(s: Sched, batch: seq<nat>)
    ensures FinishRecompute(s, batch).running == s.running
  {
    hide CommitInput;
    if batch != [] {
      FinishRecomputeRunning(s, batch[..|batch| - 1]);
    }
  }

  lemma {:induction false} UpdateRunning(cfg: Worker, s: Sched, batch: seq<nat>)
    ensures |Update(cfg, StepRequests(s, batch), batch).running| <= |s.running|
  {
    StepRequestsRunning(s, batch);
    var s1 := StepRequests(s, batch);
    CommitGeneratedRunning(s1, batch);
    FreeDoneRunning(cfg, CommitGenerated(s1, batch), batch);
    hide CommitGenerated, FreeDone, StepRequests, StillRunning;
    StillRunningFewer(FreeDone(cfg, CommitGenerated(s1, batch), batch), s.running);
  }

  lemma {:induction false} StepRequestsRunning(s: Sched, batch: seq<nat>)
    ensures StepRequests(s, batch).running == s.running
  {
    if batch != [] {
      StepRequestsRunning(s, batch[..|batch| - 1]);
    }
  }

  lemma {:induction false} CommitGeneratedRunning(s: Sched, batch: seq<nat>)
    ensures CommitGenerated(s, batch).running == s.running
  {
    hide CommitInput;
    if batch != [] {
      CommitGeneratedRunning(s, batch[..|batch| - 1]);
    }
  }

  lemma {:induction false} FreeDoneRunning(cfg: Worker, s: Sched, batch: seq<nat>)
    ensures FreeDone(cfg, s, batch).running == s.running
  {
    hide Finish, OutputKeys, FullInputBlocks;
    if batch != [] {
      FreeDoneRunning(cfg, s, batch[..|batch| - 1]);
    }
  }

  lemma {:induction false} StepWithin(cfg: Worker, s: Sched)
    requires WithinLimit(cfg, |s.running|)
    ensures WithinLimit(cfg, |WorkerStep(cfg, s).running|)
  {
    hide RunSchedule, Update, FinishRecompute;
    ScheduleWithin(cfg, s);
    var (s1, schedule) := RunSchedule(cfg, s);
    FinishRecomputeRunning(s1, schedule.batch);
    UpdateRunning(cfg, s1, schedule.batch);
  }

  /** In every run of the worker no more requests run than the batch limit allows. */
  lemma {:induction false} RunningWithinLimit(cfg: Worker, msgs: seq<Message>)
    ensures cfg.maxParallel.Some? ==> |HandleAll(cfg, msgs).running| <= cfg.maxParallel.value
  {
    hide WorkerStep, Admissible;
    if msgs != [] {
      RunningWithinLimit(cfg, msgs[..|msgs| - 1]);
      StepWithin(cfg, HandleAll(cfg, msgs[..|msgs| - 1]));
    }
  }

  // ----- preemption

  /** The request's row does not hold all its tokens. */
  predicate NeedsBlock(cfg: Worker, s: Sched, id: nat) {
    Row(s.gpu, id) * cfg.blockSize < ReqAt(s, id).prefill + ReqAt(s, id).gen
  }

  /** How many of these requests need a block more. */
  function Needy(cfg: Worker, s: Sched, ids: seq<nat>): nat {
    if ids == [] then 0 else (if NeedsBlock(cfg, s, ids[0]) then 1 else 0) + Needy(cfg, s, ids[1..])
  }

  lemma {:induction false} NeedsIff(cfg: Worker, s: Sched, id: nat)
    ensures NeedsBlock(cfg, s, id) <==> Row(s.gpu, id) < Logical(cfg, ReqAt(s, id))
  {
    var n, t, d := Row(s.gpu, id), ContextLen(ReqAt(s, id)), cfg.blockSize;
    var q := CeilDiv(t, d);
    assert q * d <= t + d - 1 < q * d + d;
    if n * d < t {
      BlocksOrder(d, n + 1, q) by { assert (n + 1) * d == n * d + d; }
    } else {
      BlocksOrder(d, q, n);
    }
  }

  lemma {:induction false} NeedySame(cfg: Worker, s: Sched, s': Sched, ids: seq<nat>)
    requires forall id :: id in ids ==> Row(s'.gpu, id) == Row(s.gpu, id)
    requires s'.reqs == s.reqs
    ensures Needy(cfg, s', ids) == Needy(cfg, s, ids)
  {
    if ids != [] {
      assert ids[0] in ids && ReqAt(s', ids[0]) == ReqAt(s, ids[0]);
      NeedySame(cfg, s, s', ids[1..]);
    }
  }

  lemma {:induction false} AppendUses(cfg: Worker, s: Sched, active: seq<nat>, id: nat)
    requires Base(cfg, s, active) && id in active && CanAppend(s.gpu, id, Logical(cfg, ReqAt(s, id)))
    ensures FreeCount(Append(cfg, s, id).gpu.pool)
         == FreeCount(s.gpu.pool) - (if NeedsBlock(cfg, s, id) then 1 else 0)
    ensures forall x :: x in active && x != id ==> Row(Append(cfg, s, id).gpu, x) == Row(s.gpu, x)
  {
    NeedsIff(cfg, s, id);
    assert RowFits(cfg, s.gpu, id, s.reqs[id]);
    assert Inv(s.gpu) && forall x :: x in active ==> x in s.gpu.tables;
    hide NeedsBlock, Logical, InputKeys, Ready, Base, HoldBlocks;
    var logical := Logical(cfg, ReqAt(s, id));
    SlotUses(s.gpu, id, logical);
    assert forall x :: x in AppendSlot(s.gpu, id, logical).1.tables <==> x in s.gpu.tables;
    hide AppendSlot, CanAppend, Inv;
  }

  lemma {:induction false} SlotUses(g: Gpu, id: nat, logical: nat)
    requires Inv(g) && id in g.tables && CanAppend(g, id, logical)
    ensures var g' := AppendSlot(g, id, logical).1;
            && FreeCount(g'.pool) == FreeCount(g.pool) - (if |g.tables[id]| < logical then 1 else 0)
            && g'.tables.Keys == g.tables.Keys
            && forall x :: x in g.tables && x != id ==> g'.tables[x] == g.tables[x]
  {
    hide Inv, Core, AllRefs, AllocBlock, HasFree, Announced, Handed, IndexShrinks;
    InvCore(g);
    FreeMeansHasFree(g, AllRefs(g));
    if |g.tables[id]| < logical {
      AllocOne(g, AllRefs(g));
    }
  }

  lemma {:induction false} FreeNonnegative(cfg: Worker, s: Sched, active: seq<nat>)
    requires Base(cfg, s, active)
    ensures FreeCount(s.gpu.pool) >= 0
  {
    InvCore(s.gpu);
  }

  lemma {:induction false} PreemptedOnlyGrow(cfg: Worker, s: Sched, todo: seq<nat>, kept: seq<nat>,
                                             preempted: seq<nat>)
    ensures preempted <= DecodeAll(cfg, s, todo, kept, preempted).2
    decreases |todo|
  {
    hide Append, Preempt, CanAppend, Logical, ReqAt;
    if todo != [] {
      var n := |todo| - 1;
      PreemptedOnlyGrow(cfg, Append(cfg, s, todo[0]), todo[1..], kept + [todo[0]], preempted);
      PreemptedOnlyGrow(cfg, Preempt(s, todo[n]), todo[..n], kept, preempted + [todo[n]]);
    }
  }

  lemma {:induction false} DecodePreemptsIff(cfg: Worker, s: Sched, todo: seq<nat>, kept: seq<nat>,
                                             preempted: seq<nat>)
    requires DecodeOk(cfg, s, kept + todo)
    ensures DecodeAll(cfg, s, todo, kept, preempted).2 == preempted <==> Needy(cfg, s, todo) <= FreeCount(s.gpu.pool)
    decreases |todo|
  {
    hide DecodeOk, Base, Append, Preempt, Logical, FreeCount, NeedsBlock;
    DecodeBase(cfg, s, kept + todo);
    FreeNonnegative(cfg, s, kept + todo);
    if todo != [] {
      var id, n := todo[0], |todo| - 1;
      assert (kept + todo)[|kept|] == id;
      NeedsIff(cfg, s, id);
      if CanAppend(s.gpu, id, Logical(cfg, ReqAt(s, id))) {
        AppendDecodeOk(cfg, s, kept + todo, id);
        assert kept + todo == kept + [id] + todo[1..];
        AppendUses(cfg, s, kept + todo, id);
        OthersOf(cfg, s, kept, todo);
        NeedySame(cfg, s, Append(cfg, s, id), todo[1..]);
        DecodePreemptsIff(cfg, Append(cfg, s, id), todo[1..], kept + [id], preempted);
      } else {
        PreemptedOnlyGrow(cfg, Preempt(s, todo[n]), todo[..n], kept, preempted + [todo[n]]);
        assert |preempted + [todo[n]]| > |preempted|;
      }
    }
  }

  lemma {:induction false} OthersOf(cfg: Worker, s: Sched, kept: seq<nat>, todo: seq<nat>)
    requires todo != [] && Base(cfg, s, kept + todo)
    ensures forall x :: x in todo[1..] ==> x in kept + todo && x != todo[0]
  {
    ActiveDistinct(cfg, s, kept + todo);
    OnlyThere(kept, todo, 0);
  }

  /** In every run of the worker a decoding STEP preempts nobody exactly when the free blocks suffice for
      the running requests whose rows need one more. */
  lemma {:induction false} PreemptsOnlyWithoutBlocks(cfg: Worker, msgs: seq<Message>)
    requires !AdmitsSome(cfg, HandleAll(cfg, msgs))
    ensures var s := HandleAll(cfg, msgs);
            RunSchedule(cfg, s).1.preempted == []
            <==> Needy(cfg, s, SortByArrival(s, s.running)) <= FreeCount(s.gpu.pool)
  {
    var s := HandleAll(cfg, msgs);
    EveryRunKeepsRequests(cfg, msgs);
    InvBase(cfg, s);
    hide HandleAll, WorkerInv, Base, AdmitAll, DecodeAll, SortByArrival, DecodeOk, Distinct, Needy, FreeCount;
    AdmitAllKeeps(cfg, s, None);
    SortedMembers(cfg, s);
    var sorted := SortByArrival(s, s.running);
    InvIsDecodeOk(cfg, s, sorted);
    DecodePreemptsIff(cfg, s, sorted, [], []);
  }
}

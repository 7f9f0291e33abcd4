/** The scheduler and the worker's STEP as objects: lists popped and rebuilt in loops, moving the
    view exactly as the state machine of SchedulerModel says. */
module Schedulers {
  import opened Containers
  import opened Keys
  import opened FreeQueues
  import opened BlockPools
  import opened BlockModel
  import opened BlockManagers
  import opened SchedulerModel

  class PagedAttnScheduler {
    const cfg: Worker
    const blockManager: BlockManager
    var reqs: map<nat, Req>
    var running: seq<nat>
    var waiting: seq<nat>

    ghost function View(): Sched
      reads this, blockManager, blockManager.freeBlocks
    {
      Sched(blockManager.View(), reqs, running, waiting)
    }

    ghost function Queue(): FreeBlockQueue
      reads this
    {
      blockManager.freeBlocks
    }

    ghost predicate Valid()
      reads this, blockManager, blockManager.freeBlocks, blockManager.freeBlocks.repr
    {
      blockManager.Valid() && blockManager.numBlocks == cfg.numBlocks && blockManager.watermark == cfg.watermark
    }

    constructor (cfg: Worker)
      ensures Valid() && this.cfg == cfg && fresh(blockManager) && fresh(Queue()) && fresh(Queue().repr)
      ensures View() == Sched(NewGpu(cfg.numBlocks), map[], [], [])
    {
      this.cfg := cfg;
      blockManager := new BlockManager(cfg.numBlocks, cfg.watermark);
      reqs, running, waiting := map[], [], [];
    }

    function ReqOf(id: nat): (r: Req)
      reads this`reqs
    {
      if id in reqs then reqs[id] else Req(0, 0, 0, Scope("", None, None), [], [], 0, false)
    }

    method AddRequest(id: nat, r: Req)
      modifies this`reqs, this`waiting
      ensures View() == SchedulerModel.AddRequest(old(View()), id, r)
    {
      reqs := reqs[id := r];
      waiting := waiting + [id];
    }

    // ----- schedule: admission

    method IsBelowUsage() returns (ok: bool)
      requires Valid()
      ensures ok == BelowUsage(cfg, View().gpu)
    {
      hide BlockManager.View, FreeCount;
      var free := blockManager.GetNumFreeBlocks();
      ok := (cfg.numBlocks - free) as real / cfg.numBlocks as real < cfg.occupancy;
    }

    method MayAdmit(phase: Option<bool>) returns (ok: bool)
      requires Valid() && waiting != []
      ensures ok == Admits(cfg, View(), phase)
    {
      hide BlockManager.View, BlockManager.Valid, CanAllocate, BelowUsage, AskOf;
      ok := IsBelowUsage();
      if !ok || (cfg.maxParallel.Some? && |running| >= cfg.maxParallel.value) {
        return false;
      }
      var id := waiting[0];
      if phase.Some? && ReqOf(id).recompute != phase.value {
        return false;
      }
      ok := blockManager.CanAllocateFor(AskOf(cfg, id, ReqOf(id)));
    }

    method AdmitNext() returns (id: nat)
      requires Valid() && waiting != []
      modifies this, blockManager, Queue(), Queue().repr
      ensures Valid() && Queue().repr == old(Queue().repr) && reqs == old(reqs)
      ensures id == old(waiting)[0] && View() == AdmitHead(cfg, old(View()))
    {
      hide BlockManager.View, BlockManager.Valid, AllocateAsk;
      id := waiting[0];
      waiting := waiting[1..];
      var ok := blockManager.Allocate(AskOf(cfg, id, ReqOf(id)));
      running := running + [id];
    }

    method AdmitWaiting() returns (scheduled: seq<nat>)
      requires Valid()
      modifies this, blockManager, Queue(), Queue().repr
      ensures Valid() && Queue().repr == old(Queue().repr)
      ensures (View(), scheduled) == AdmitAll(cfg, old(View()), None)
    {
      hide Valid, View, Admits, AdmitHead;
      scheduled := [];
      var phase: Option<bool> := None;
      ghost var goal := AdmitAll(cfg, View(), None);
      assert [] + goal.1 == goal.1;
      while true
        invariant Valid() && Queue().repr == old(Queue().repr)
        invariant var (s', more) := AdmitAll(cfg, View(), phase); goal == (s', scheduled + more)
        decreases |View().waiting|
      {
        WaitingIs();
        if waiting == [] {
          break;
        }
        var ok := MayAdmit(phase);
        if !ok {
          break;
        }
        ghost var s, sofar := View(), scheduled;
        var recompute := ReqOf(waiting[0]).recompute;
        var id := AdmitNext();
        phase := Some(recompute);
        scheduled := scheduled + [id];
        ghost var more := AdmitAll(cfg, View(), phase).1;
        assert sofar + ([id] + more) == scheduled + more;
      }
      assert scheduled + [] == scheduled;
    }

    lemma {:induction false} WaitingIs()
      ensures View().waiting == waiting && forall id :: ReqAt(View(), id) == ReqOf(id)
    {
    }

    // ----- schedule: decode

    method PreemptRequest(id: nat)
      requires Valid()
      modifies this`reqs, this`waiting, blockManager, Queue(), Queue().repr
      ensures Valid() && fresh(Queue().repr - old(Queue().repr)) && View() == Preempt(old(View()), id)
    {
      hide BlockManager.View, BlockManager.Valid, Release;
      blockManager.ReleaseRequestBlocks(id);
      reqs := reqs[id := ReqOf(id).(recompute := true)];
      waiting := [id] + waiting;
    }

    method HasSlot(id: nat) returns (ok: bool)
      requires Valid()
      ensures ok == CanAppend(View().gpu, id, Logical(cfg, ReqAt(View(), id)))
    {
      hide BlockManager.View, BlockManager.Valid, CanAppend, Logical;
      ok := blockManager.CanAppendSlot(id, Logical(cfg, ReqOf(id)));
    }

    method AppendRequestSlot(id: nat)
      requires Valid()
      modifies blockManager, Queue(), Queue().repr
      ensures Valid() && Queue().repr == old(Queue().repr) && View() == Append(cfg, old(View()), id)
    {
      hide BlockManager.View, BlockManager.Valid, AppendSlot, Logical;
      var ok := blockManager.AppendBlock(id, Logical(cfg, ReqOf(id)));
    }

    /** The view with the running list as it was before decoding took it apart. */
    ghost function Whole(before: seq<nat>): Sched
      reads this, blockManager, blockManager.freeBlocks
    {
      View().(running := before)
    }

    /** Grows `id`, preempting from the back of `running` until a block is free; false when the
        request had to preempt itself. */
    method GrowOrPreempt(id: nat, preempted: seq<nat>, ghost before: seq<nat>, ghost kept: seq<nat>)
      returns (grown: bool, preempted': seq<nat>)
      requires Valid()
      modifies this`reqs, this`waiting, this`running, blockManager, Queue(), Queue().repr
      ensures Valid() && fresh(Queue().repr - old(Queue().repr))
      ensures DecodeAll(cfg, old(Whole(before)), old([id] + running), kept, preempted)
           == DecodeAll(cfg, Whole(before), running, if grown then kept + [id] else kept, preempted')
      ensures |running| <= |old(running)| && (grown || running == [])
    {
      hide BlockManager.View, BlockManager.Valid, CanAppend, AppendSlot, Release, Logical;
      preempted' := preempted;
      while true
        invariant Valid() && fresh(Queue().repr - old(Queue().repr))
        invariant DecodeAll(cfg, old(Whole(before)), old([id] + running), kept, preempted)
               == DecodeAll(cfg, Whole(before), [id] + running, kept, preempted')
        invariant |running| <= |old(running)|
        decreases |running|
      {
        ghost var todo := [id] + running;
        RunningIs(before, id);
        var free := HasSlot(id);
        if free {
          AppendRequestSlot(id);
          RunningIs(before, id);
          assert todo[1..] == running;
          return true, preempted';
        }
        var n := |running|;
        if n > 0 {
          var victim := running[n - 1];
          running := running[..n - 1];
          assert todo[..|todo| - 1] == [id] + running && todo[|todo| - 1] == victim;
          PreemptRequest(victim);
          preempted' := preempted' + [victim];
        } else {
          assert todo == [id] && todo[..0] == running;
          PreemptRequest(id);
          preempted' := preempted' + [id];
          return false, preempted';
        }
      }
    }

    lemma {:induction false} RunningIs(before: seq<nat>, id: nat)
      ensures Whole(before).gpu == View().gpu && ReqAt(Whole(before), id) == ReqAt(View(), id)
    {
    }

    method DecodeRunning() returns (kept: seq<nat>, preempted: seq<nat>)
      requires Valid()
      modifies this`reqs, this`waiting, this`running, blockManager, Queue(), Queue().repr
      ensures Valid() && fresh(Queue().repr - old(Queue().repr))
      ensures var (s', kept', preempted') := DecodeAll(cfg, old(View()), SortByArrival(old(View()), old(running)), [], []);
              View() == s'.(running := kept') && kept == kept' && preempted == preempted'
    {
      hide BlockManager.View, BlockManager.Valid, DecodeAll, SortByArrival;
      ghost var before := running;
      running := SortedRunning();
      kept, preempted := [], [];
      ghost var goal := DecodeAll(cfg, Whole(before), running, [], []);
      assert Whole(before) == old(View());
      while running != []
        invariant Valid() && fresh(Queue().repr - old(Queue().repr))
        invariant goal == DecodeAll(cfg, Whole(before), running, kept, preempted)
        decreases |running|
      {
        var id := running[0];
        assert running == [id] + running[1..];
        running := running[1..];
        var grown;
        grown, preempted := GrowOrPreempt(id, preempted, before, kept);
        if grown {
          kept := kept + [id];
        }
      }
      DecodeDone(cfg, Whole(before), kept, preempted);
      running := kept;
    }

    lemma {:induction false} DecodeDone(cfg: Worker, s: Sched, kept: seq<nat>, preempted: seq<nat>)
      ensures DecodeAll(cfg, s, [], kept, preempted) == (s, kept, preempted)
    {
    }

    /** `sorted(self.running, key=arrival_time)`. */
    method SortedRunning() returns (sorted: seq<nat>)
      ensures sorted == SortByArrival(View(), running)
    {
      sorted := [];
      var i := |running|;
      while i > 0
        invariant 0 <= i <= |running| && sorted == SortByArrival(View(), running[i..])
      {
        i := i - 1;
        assert running[i..] == [running[i]] + running[i + 1..];
        sorted := Insert(running[i], sorted);
      }
    }

    function Insert(id: nat, sorted: seq<nat>): (r: seq<nat>)
      reads this, blockManager, blockManager.freeBlocks
      ensures r == InsertByArrival(View(), id, sorted)
    {
      if sorted == [] || ReqOf(id).arrival <= ReqOf(sorted[0]).arrival then [id] + sorted
      else [sorted[0]] + Insert(id, sorted[1..])
    }

    method ScheduleBatch() returns (schedule: Schedule)
      requires Valid()
      modifies this, blockManager, Queue(), Queue().repr
      ensures Valid() && fresh(Queue().repr - old(Queue().repr))
      ensures (View(), schedule) == RunSchedule(cfg, old(View()))
    {
      hide View, Valid, AdmitAll, DecodeAll, SortByArrival;
      var scheduled := AdmitWaiting();
      if scheduled != [] {
        return Schedule(scheduled, []);
      }
      ViewIs();
      var kept, preempted := DecodeRunning();
      schedule := Schedule(kept, preempted);
    }

    lemma {:induction false} ViewIs()
      ensures View().running == running && View().reqs == reqs
    {
    }

    // ----- the rest of a STEP

    method CommitRequest(id: nat)
      modifies blockManager
      ensures blockManager.Valid() == old(blockManager.Valid()) && View() == Commit(old(View()), id)
    {
      hide BlockManager.View, CommitInput;
      blockManager.CommitInputCache(id);
    }

    method FinishRecomputes(batch: seq<nat>)
      requires Valid()
      modifies this`reqs, blockManager
      ensures Valid() && View() == FinishRecompute(old(View()), batch)
    {
      hide BlockManager.View, BlockManager.Valid, CommitInput;
      for i := 0 to |batch|
        invariant Valid() && View() == FinishRecompute(old(View()), batch[..i])
      {
        assert batch[..i + 1][..i] == batch[..i];
        CommitRequest(batch[i]);
        reqs := reqs[batch[i] := ReqOf(batch[i]).(recompute := false)];
      }
      assert batch[..|batch|] == batch;
    }

    method StepBatch(batch: seq<nat>)
      requires Valid()
      modifies this`reqs
      ensures Valid() && View() == StepRequests(old(View()), batch)
    {
      hide BlockManager.View, BlockManager.Valid;
      for i := 0 to |batch|
        invariant Valid() && View() == StepRequests(old(View()), batch[..i])
      {
        assert batch[..i + 1][..i] == batch[..i];
        reqs := reqs[batch[i] := ReqOf(batch[i]).(gen := ReqOf(batch[i]).gen + 1)];
      }
      assert batch[..|batch|] == batch;
    }

    method CommitAll(batch: seq<nat>)
      requires Valid()
      modifies blockManager
      ensures Valid() && View() == CommitGenerated(old(View()), batch)
    {
      hide BlockManager.View, BlockManager.Valid, CommitInput;
      for i := 0 to |batch|
        invariant Valid() && View() == CommitGenerated(old(View()), batch[..i])
      {
        assert batch[..i + 1][..i] == batch[..i];
        if ReqOf(batch[i]).gen > 0 {
          CommitRequest(batch[i]);
        }
      }
      assert batch[..|batch|] == batch;
    }

    method FreeAllDone(batch: seq<nat>)
      requires Valid()
      modifies blockManager, Queue(), Queue().repr
      ensures Valid() && fresh(Queue().repr - old(Queue().repr)) && View() == FreeDone(cfg, old(View()), batch)
    {
      hide BlockManager.View, BlockManager.Valid, Finish, OutputKeys;
      for i := 0 to |batch|
        invariant Valid() && fresh(Queue().repr - old(Queue().repr))
        invariant View() == FreeDone(cfg, old(View()), batch[..i])
      {
        assert batch[..i + 1][..i] == batch[..i];
        var r := ReqOf(batch[i]);
        if IsDone(r) {
          blockManager.FreeRequest(batch[i], FullInputBlocks(cfg, r), OutputKeys(cfg, r));
        }
      }
      assert batch[..|batch|] == batch;
    }

    method FilterDone()
      modifies this`running
      ensures View() == old(View()).(running := StillRunning(old(View()), old(running)))
    {
      hide BlockManager.View;
      var rest, i := [], |running|;
      while i > 0
        invariant 0 <= i <= |running| && rest == StillRunning(View(), running[i..])
      {
        i := i - 1;
        assert running[i..] == [running[i]] + running[i + 1..];
        rest := (if IsDone(ReqOf(running[i])) then [] else [running[i]]) + rest;
      }
      StillRunningFrame(View(), rest, running);
      running := rest;
    }

    lemma {:induction false} StillRunningFrame(s: Sched, other: seq<nat>, ids: seq<nat>)
      ensures StillRunning(s.(running := other), ids) == StillRunning(s, ids)
    {
      if ids != [] {
        StillRunningFrame(s, other, ids[1..]);
      }
    }

    method UpdateBatch(batch: seq<nat>)
      requires Valid()
      modifies this`running, blockManager, Queue(), Queue().repr
      ensures Valid() && fresh(Queue().repr - old(Queue().repr)) && View() == Update(cfg, old(View()), batch)
    {
      hide View, CommitGenerated, FreeDone, BlockManager.Valid;
      CommitAll(batch);
      FreeAllDone(batch);
      ViewIs();
      FilterDone();
    }

    /** One STEP message of a hybrid worker with a no-op connector. */
    method WorkerStepOnce() returns (schedule: Schedule)
      requires Valid()
      modifies this, blockManager, Queue(), Queue().repr
      ensures Valid() && fresh(Queue().repr - old(Queue().repr))
      ensures View() == WorkerStep(cfg, old(View())) && schedule == RunSchedule(cfg, old(View())).1
    {
      hide View, Valid, RunSchedule, FinishRecompute, StepRequests, Update;
      schedule := ScheduleBatch();
      if schedule.batch == [] {
        return;
      }
      WaitingIs();
      if ReqOf(schedule.batch[0]).recompute {
        FinishRecomputes(schedule.batch);
      } else {
        StepBatch(schedule.batch);
        UpdateBatch(schedule.batch);
      }
    }
  }
}

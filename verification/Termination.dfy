/** Every run of the worker ends with every request finished. */
module Termination {
  import opened Containers
  import opened Keys
  import opened BlockPools
  import opened BlockModel
  import opened BlockTables
  import opened SchedulerModel
  import opened SchedulerBlocks
  import opened SchedulerSafety

  // ----- tokens still to generate

  function Left(r: Req): nat {
    if r.gen < r.decode then r.decode - r.gen else 0
  }

  ghost function PickReq(reqs: map<nat, Req>): (id: nat)
    requires reqs != map[]
    ensures id in reqs
  {
    assert reqs.Keys != {};
    var id :| id in reqs.Keys;
    id
  }

  /** Sum of decode_len - generation_idx over every unfinished request. */
  ghost function Work(reqs: map<nat, Req>): nat
    decreases |reqs|
  {
    if reqs == map[] then 0
    else
      var id := PickReq(reqs);
      FewerReqs(reqs, id);
      Left(reqs[id]) + Work(reqs - {id})
  }

  lemma {:induction false} FewerReqs(reqs: map<nat, Req>, id: nat)
    requires id in reqs
    ensures |reqs - {id}| < |reqs|
  {
    assert reqs.Keys == (reqs - {id}).Keys + {id};
  }

  lemma {:induction false} WorkSplit(reqs: map<nat, Req>, id: nat)
    requires id in reqs
    ensures Work(reqs) == Left(reqs[id]) + Work(reqs - {id})
    decreases |reqs|
  {
    var p := PickReq(reqs);
    if p != id {
      FewerReqs(reqs, p);
      FewerReqs(reqs, id);
      WorkSplit(reqs - {p}, id);
      WorkSplit(reqs - {id}, p);
      assert reqs - {p} - {id} == reqs - {id} - {p};
    }
  }

  lemma {:induction false} WorkSet(reqs: map<nat, Req>, id: nat, r: Req)
    requires id in reqs
    ensures Work(reqs[id := r]) == Work(reqs) - Left(reqs[id]) + Left(r)
  {
    WorkSplit(reqs, id);
    WorkSplit(reqs[id := r], id);
    assert reqs[id := r] - {id} == reqs - {id};
  }

  lemma {:induction false} WorkSame(reqs: map<nat, Req>, reqs': map<nat, Req>)
    requires reqs'.Keys == reqs.Keys && forall id :: id in reqs ==> Left(reqs'[id]) == Left(reqs[id])
    ensures Work(reqs') == Work(reqs)
    decreases |reqs|
  {
    if reqs != map[] {
      var id := PickReq(reqs);
      assert id in reqs.Keys;
      FewerReqs(reqs, id);
      WorkSplit(reqs', id);
      WorkSame(reqs - {id}, reqs' - {id});
    } else {
      assert reqs' == map[];
    }
  }

  // ----- one request changes

  /** The same prompt, further along, and still within its output length. */
  predicate Further(r: Req, r': Req) {
    && r'.prefill == r.prefill && r'.decode == r.decode && r'.scope == r.scope && r'.hashIds == r.hashIds
    && r.gen <= r'.gen <= r'.decode <= r.gen + r'.decode && (r'.gen == r.gen || r'.gen == r.gen + 1)
  }

  lemma {:induction false} FurtherFits(cfg: Worker, r: Req, r': Req)
    requires Further(r, r')
    ensures Logical(cfg, r) <= Logical(cfg, r') && InputKeys(cfg, r') == InputKeys(cfg, r) && Fits(cfg, r) == Fits(cfg, r')
  {
    LogicalGrows(cfg, r);
    assert Logical(cfg, r') == Logical(cfg, r.(gen := r'.gen));
    assert r.(gen := r.gen) == r;
  }

  lemma {:induction false} NotWaiting(reqs: map<nat, Req>, active: seq<nat>, waiting: seq<nat>, id: nat)
    requires NoneLost(reqs, active, waiting) && id in active
    ensures id !in waiting
  {
    var i :| 0 <= i < |active| && active[i] == id;
    forall j | 0 <= j < |waiting| ensures waiting[j] != id {
      assert (active + waiting)[i] == id && (active + waiting)[|active| + j] == waiting[j];
    }
  }

  lemma {:induction false} SetHolds(cfg: Worker, g: Gpu, reqs: map<nat, Req>, active: seq<nat>, id: nat, r': Req)
    requires HoldBlocks(cfg, g, reqs, active) && id in reqs && Further(reqs[id], r')
    ensures HoldBlocks(cfg, g, reqs[id := r'], active)
  {
    FurtherFits(cfg, reqs[id], r');
    hide Logical, InputKeys, Further;
  }

  lemma {:induction false} SetReqKeeps(cfg: Worker, s: Sched, active: seq<nat>, id: nat, r': Req)
    requires Base(cfg, s, active) && id in active && id in s.reqs && Further(s.reqs[id], r')
    ensures Base(cfg, s.(reqs := s.reqs[id := r']), active)
  {
    hide Ready, HoldBlocks, Logical, InputKeys, Fits;
    NotWaiting(s.reqs, active, s.waiting, id);
    SetHolds(cfg, s.gpu, s.reqs, active, id, r');
    FurtherFits(cfg, s.reqs[id], r');
  }

  lemma {:induction false} CommitBase(cfg: Worker, s: Sched, active: seq<nat>, id: nat)
    requires Base(cfg, s, active) && id in active
    ensures Base(cfg, Commit(s, id), active)
  {
    hide CommitInput, Ready, NoneLost, Queued, AllFit, Logical, InputKeys;
    assert id in s.gpu.tables;
    CommitFacts(s.gpu, cfg.numBlocks, id);
    var g' := CommitInput(s.gpu, id);
    forall x | x in active ensures RowFits(cfg, g', x, s.reqs[x]) {
      assert RowFits(cfg, s.gpu, x, s.reqs[x]);
    }
  }

  // ----- recompute batches

  lemma {:induction false} FinishRecomputeMeans(cfg: Worker, s: Sched, active: seq<nat>, batch: seq<nat>)
    requires Base(cfg, s, active) && forall id :: id in batch ==> id in active
    ensures var s' := FinishRecompute(s, batch);
            && Base(cfg, s', active) && s'.running == s.running && s'.waiting == s.waiting
            && s'.reqs.Keys == s.reqs.Keys
            && (forall id :: id in s.reqs ==>
                  s'.reqs[id] == if id in batch then s.reqs[id].(recompute := false) else s.reqs[id])
  {
    hide Base, CommitInput;
    if batch != [] {
      var front, id := batch[..|batch| - 1], batch[|batch| - 1];
      assert batch == front + [id];
      FinishRecomputeMeans(cfg, s, active, front);
      var s1 := FinishRecompute(s, front);
      CommitBase(cfg, s1, active, id);
      ActiveIn(cfg, s, active, id);
      ActiveGen(cfg, s1, active, id);
      SetReqKeeps(cfg, Commit(s1, id), active, id, s1.reqs[id].(recompute := false));
    }
  }

  lemma {:induction false} ActiveIn(cfg: Worker, s: Sched, active: seq<nat>, id: nat)
    requires Base(cfg, s, active) && id in active
    ensures id in s.reqs
  {
  }

  lemma {:induction false} ActiveGen(cfg: Worker, s: Sched, active: seq<nat>, id: nat)
    requires Base(cfg, s, active) && id in active && id in s.reqs
    ensures s.reqs[id].gen <= s.reqs[id].decode
  {
  }

  // ----- token batches

  lemma {:induction false} StepRequestsForm(s: Sched, batch: seq<nat>)
    requires Distinct(batch) && forall id :: id in batch ==> id in s.reqs
    ensures var s' := StepRequests(s, batch);
            && s' == s.(reqs := s'.reqs) && s'.reqs.Keys == s.reqs.Keys
            && (forall id :: id in s.reqs ==>
                  s'.reqs[id] == if id in batch then s.reqs[id].(gen := s.reqs[id].gen + 1) else s.reqs[id])
  {
    if batch != [] {
      var front, id := batch[..|batch| - 1], batch[|batch| - 1];
      assert batch == front + [id] && id !in front;
      StepRequestsForm(s, front);
    }
  }

  lemma {:induction false} StepRequestsMeans(cfg: Worker, s: Sched, active: seq<nat>, batch: seq<nat>)
    requires Base(cfg, s, active) && Distinct(batch)
    requires forall id :: id in batch ==> id in active && id in s.reqs && s.reqs[id].gen < s.reqs[id].decode
    ensures var s' := StepRequests(s, batch);
            && Base(cfg, s', active) && s'.running == s.running && s'.waiting == s.waiting
            && s'.reqs.Keys == s.reqs.Keys
            && (forall id :: id in s.reqs ==>
                  s'.reqs[id] == if id in batch then s.reqs[id].(gen := s.reqs[id].gen + 1) else s.reqs[id])
            && Work(s'.reqs) == Work(s.reqs) - |batch|
  {
    hide Base, Work;
    StepRequestsForm(s, batch);
    if batch != [] {
      var front, id := batch[..|batch| - 1], batch[|batch| - 1];
      assert batch == front + [id] && id !in front;
      StepRequestsMeans(cfg, s, active, front);
      var s1 := StepRequests(s, front);
      assert s1.reqs[id] == s.reqs[id] && id in s1.reqs;
      var r' := s1.reqs[id].(gen := s1.reqs[id].gen + 1);
      hide Distinct;
      SetReqKeeps(cfg, s1, active, id, r');
      WorkSet(s1.reqs, id, r');
    }
  }

  lemma {:induction false} CommitGeneratedMeans(cfg: Worker, s: Sched, active: seq<nat>, batch: seq<nat>)
    requires Base(cfg, s, active) && forall id :: id in batch ==> id in active
    ensures var s' := CommitGenerated(s, batch);
            && Base(cfg, s', active) && s' == s.(gpu := s'.gpu)
  {
    hide Base, CommitInput;
    if batch != [] {
      var front, id := batch[..|batch| - 1], batch[|batch| - 1];
      assert batch == front + [id];
      CommitGeneratedMeans(cfg, s, active, front);
      if ReqAt(CommitGenerated(s, front), id).gen > 0 {
        CommitBase(cfg, CommitGenerated(s, front), active, id);
      }
    }
  }

  // ----- finishing

  lemma {:induction false} NoneLostDone(reqs: map<nat, Req>, active: seq<nat>, waiting: seq<nat>, id: nat)
    requires NoneLost(reqs, active, waiting) && id in active && id in reqs && IsDone(reqs[id])
    ensures NoneLost(reqs, Without(active, id), waiting)
  {
    NotWaiting(reqs, active, waiting, id);
    WithoutAppend(active, waiting, id);
    WithoutDistinct(active + waiting, id);
  }

  lemma {:induction false} HoldsWithout(cfg: Worker, g: Gpu, g': Gpu, reqs: map<nat, Req>, active: seq<nat>, id: nat)
    requires HoldBlocks(cfg, g, reqs, active) && g'.tables == g.tables - {id} && OtherClaims(g, g', id)
    ensures HoldBlocks(cfg, g', reqs, Without(active, id))
  {
    hide Logical, InputKeys;
    forall x | x in Without(active, id) ensures x in reqs && RowFits(cfg, g', x, reqs[x]) {
      assert RowFits(cfg, g, x, reqs[x]);
    }
  }

  lemma {:induction false} FinishBase(cfg: Worker, s: Sched, active: seq<nat>, id: nat)
    requires Base(cfg, s, active) && id in active && IsDone(ReqAt(s, id))
    ensures var r := ReqAt(s, id);
            Base(cfg, s.(gpu := Finish(s.gpu, id, FullInputBlocks(cfg, r), OutputKeys(cfg, r))), Without(active, id))
  {
    hide Finish, OutputKeys, Ready, Queued, AllFit, Logical, NoneLost;
    var r := s.reqs[id];
    assert RowFits(cfg, s.gpu, id, r);
    var g' := Finish(s.gpu, id, FullInputBlocks(cfg, r), OutputKeys(cfg, r));
    FinishFacts(s.gpu, cfg.numBlocks, id, FullInputBlocks(cfg, r), OutputKeys(cfg, r));
    hide InputKeys;
    HoldsWithout(cfg, s.gpu, g', s.reqs, active, id);
    NoneLostDone(s.reqs, active, s.waiting, id);
  }

  /** The active requests left after the done ones of a batch have gone. */
  function Leaving(s: Sched, active: seq<nat>, batch: seq<nat>): seq<nat> {
    if batch == [] then active
    else
      var rest, id := Leaving(s, active, batch[..|batch| - 1]), batch[|batch| - 1];
      if IsDone(ReqAt(s, id)) then Without(rest, id) else rest
  }

  lemma {:induction false} LeavingMember(s: Sched, active: seq<nat>, batch: seq<nat>, x: nat)
    ensures x in Leaving(s, active, batch) <==> x in active && !(x in batch && IsDone(ReqAt(s, x)))
  {
    if batch != [] {
      assert batch == batch[..|batch| - 1] + [batch[|batch| - 1]];
      LeavingMember(s, active, batch[..|batch| - 1], x);
    }
  }

  lemma {:induction false} FreeDoneMeans(cfg: Worker, s: Sched, active: seq<nat>, batch: seq<nat>)
    requires Base(cfg, s, active) && Distinct(batch) && forall id :: id in batch ==> id in active
    ensures var s' := FreeDone(cfg, s, batch);
            && Base(cfg, s', Leaving(s, active, batch)) && s' == s.(gpu := s'.gpu)
  {
    hide Base, Finish, OutputKeys;
    if batch != [] {
      var front, id := batch[..|batch| - 1], batch[|batch| - 1];
      assert batch == front + [id] && id !in front;
      FreeDoneMeans(cfg, s, active, front);
      LeavingMember(s, active, front, id);
      var s1 := FreeDone(cfg, s, front);
      if IsDone(ReqAt(s1, id)) {
        FinishBase(cfg, s1, Leaving(s, active, front), id);
      }
    }
  }

  lemma {:induction false} StillRunningMember(s: Sched, ids: seq<nat>, x: nat)
    ensures x in StillRunning(s, ids) <==> x in ids && !IsDone(ReqAt(s, x))
  {
    if ids != [] {
      assert ids == [ids[0]] + ids[1..];
      StillRunningMember(s, ids[1..], x);
    }
  }

  lemma {:induction false} StillRunningDistinct(s: Sched, ids: seq<nat>)
    requires Distinct(ids)
    ensures Distinct(StillRunning(s, ids))
  {
    if ids != [] {
      var rest := ids[1..];
      assert ids == [ids[0]] + rest && ids[0] !in rest;
      assert Distinct(rest) by {
        assert forall i :: 0 <= i < |rest| ==> rest[i] == ids[i + 1];
      }
      StillRunningDistinct(s, rest);
      StillRunningMember(s, rest, ids[0]);
      DistinctCons(ids[0], StillRunning(s, rest));
    }
  }

  lemma {:induction false} SameMembers(cfg: Worker, s: Sched, a: seq<nat>, b: seq<nat>)
    requires Base(cfg, s, a) && Distinct(b) && forall x :: x in b <==> x in a
    ensures Base(cfg, s, b)
  {
    hide Ready, AllFit, Queued, RowFits;
    assert Distinct(b + s.waiting) by {
      forall i, j | 0 <= i < j < |b + s.waiting| ensures (b + s.waiting)[i] != (b + s.waiting)[j] {
        if i < |b| <= j {
          NotWaiting(s.reqs, a, s.waiting, b[i]);
          assert s.waiting[j - |b|] in s.waiting;
        } else if |b| <= i {
          assert (a + s.waiting)[|a| + i - |b|] == s.waiting[i - |b|] && (a + s.waiting)[|a| + j - |b|] == s.waiting[j - |b|];
        }
      }
    }
  }

  lemma {:induction false} ActiveDistinct(cfg: Worker, s: Sched, active: seq<nat>)
    requires Base(cfg, s, active)
    ensures Distinct(active)
  {
    forall i, j | 0 <= i < j < |active| ensures active[i] != active[j] {
      assert (active + s.waiting)[i] == active[i] && (active + s.waiting)[j] == active[j];
    }
  }

  /** Releasing the done requests of a batch leaves exactly the unfinished ones running. */
  lemma {:induction false} UpdateMeans(cfg: Worker, s: Sched, batch: seq<nat>)
    requires Base(cfg, s, s.running) && Distinct(batch) && forall id :: id in batch ==> id in s.running
    requires forall id :: id in s.running && id !in batch ==> !IsDone(ReqAt(s, id))
    ensures var s' := Update(cfg, s, batch);
            && Base(cfg, s', s'.running) && s'.reqs == s.reqs && s'.waiting == s.waiting
            && (forall id :: id in s'.running <==> id in s.running && !IsDone(ReqAt(s, id)))
  {
    CommitGeneratedMeans(cfg, s, s.running, batch);
    var s1 := CommitGenerated(s, batch);
    FreeDoneMeans(cfg, s1, s.running, batch);
    var s2 := FreeDone(cfg, s1, batch);
    ActiveDistinct(cfg, s, s.running);
    StillRunningDistinct(s2, s.running);
    hide Distinct;
    forall x ensures x in StillRunning(s2, s.running) <==> x in s.running && !IsDone(ReqAt(s, x))
             ensures x in StillRunning(s2, s.running) <==> x in Leaving(s1, s.running, batch)
    {
      StillRunningMember(s2, s.running, x);
      LeavingMember(s1, s.running, batch, x);
    }
    SameMembers(cfg, s2, Leaving(s1, s.running, batch), StillRunning(s2, s.running));
    hide Ready, HoldBlocks, AllFit, Queued, NoneLost;
  }
}

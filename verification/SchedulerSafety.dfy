/** What every part of a STEP keeps: no request is lost or listed twice, exactly the active
    requests hold blocks, and preemption respects arrival order. */
module SchedulerSafety {
  import opened Containers
  import opened Keys
  import opened BlockPools
  import opened BlockModel
  import opened BlockTables
  import opened BlockRuns
  import opened SchedulerModel
  import opened SchedulerBlocks

  /** The capacity check made when requests are dispatched. */
  predicate Fits(cfg: Worker, r: Req) {
    CeilDiv(r.prefill + r.decode, cfg.blockSize) + cfg.watermark <= cfg.numBlocks
  }

  lemma {:induction false} CeilDivMonotone(a: nat, b: nat, d: nat)
    requires d >= 1 && a <= b
    ensures CeilDiv(a, d) <= CeilDiv(b, d) && a / d <= CeilDiv(a, d)
  {
    DivMonotone(a + d - 1, b + d - 1, d);
    DivMonotone(a, a + d - 1, d);
  }

  lemma {:induction false} DivMonotone(a: nat, b: nat, d: nat)
    requires d >= 1 && a <= b
    ensures a / d <= b / d
  {
    assert d * (a / d) <= a && b < d * (b / d) + d;
    QuotientBound(d, a / d, b / d);
  }

  lemma {:induction false} QuotientBound(d: nat, p: nat, q: nat)
    requires d * p < d * q + d
    ensures p <= q
  {
    if q + 1 <= p {
      TimesMonotone(d, q + 1, p);
    }
  }

  lemma {:induction false} TimesMonotone(d: nat, p: nat, q: nat)
    requires p <= q
    ensures d * p <= d * q
  {
  }

  // ----- the invariant, with the requests that hold blocks given apart

  ghost predicate RowFits(cfg: Worker, g: Gpu, id: nat, r: Req) {
    && id in g.tables && |g.tables[id]| <= Logical(cfg, r)
    && id in g.claims && g.claims[id].keys == InputKeys(cfg, r)
  }

  ghost predicate HoldBlocks(cfg: Worker, g: Gpu, reqs: map<nat, Req>, active: seq<nat>) {
    && (forall id :: id in g.tables <==> id in active)
    && (forall id :: id in active ==> id in reqs && RowFits(cfg, g, id, reqs[id]))
  }

  ghost predicate AllFit(cfg: Worker, reqs: map<nat, Req>) {
    forall id :: id in reqs ==> reqs[id].gen <= reqs[id].decode && Fits(cfg, reqs[id])
  }

  ghost predicate Queued(reqs: map<nat, Req>, waiting: seq<nat>) {
    forall id :: id in waiting ==>
      id in reqs && reqs[id].gen < reqs[id].decode && (reqs[id].recompute <==> reqs[id].gen >= 1)
  }

  ghost predicate NoneLost(reqs: map<nat, Req>, active: seq<nat>, waiting: seq<nat>) {
    && Distinct(active + waiting)
    && (forall id :: id in reqs ==> id in active || id in waiting || IsDone(reqs[id]))
  }

  ghost predicate Base(cfg: Worker, s: Sched, active: seq<nat>) {
    && Ready(s.gpu, cfg.numBlocks)
    && HoldBlocks(cfg, s.gpu, s.reqs, active)
    && AllFit(cfg, s.reqs) && Queued(s.reqs, s.waiting) && NoneLost(s.reqs, active, s.waiting)
  }

  /** Active requests between steps: started, unfinished, not awaiting recompute. */
  ghost predicate Settled(reqs: map<nat, Req>, ids: seq<nat>) {
    forall id :: id in ids ==> id in reqs && !reqs[id].recompute && 1 <= reqs[id].gen < reqs[id].decode
  }

  ghost predicate WorkerInv(cfg: Worker, s: Sched) {
    Base(cfg, s, s.running) && Settled(s.reqs, s.running)
  }

  lemma {:induction false} KeysFit(cfg: Worker, r: Req)
    ensures |InputKeys(cfg, r)| <= Logical(cfg, r)
  {
    CeilDivMonotone(r.prefill, r.prefill + r.gen, cfg.blockSize);
  }

  lemma {:induction false} LogicalGrows(cfg: Worker, r: Req)
    ensures Logical(cfg, r) <= Logical(cfg, r.(gen := r.gen + 1))
  {
    CeilDivMonotone(r.prefill + r.gen, r.prefill + r.gen + 1, cfg.blockSize);
  }

  lemma {:induction false} LogicalFits(cfg: Worker, r: Req)
    requires r.gen <= r.decode && Fits(cfg, r)
    ensures Logical(cfg, r) + cfg.watermark <= cfg.numBlocks
  {
    CeilDivMonotone(r.prefill + r.gen, r.prefill + r.decode, cfg.blockSize);
  }

  // ----- admission

  lemma {:induction false} MoveHead(active: seq<nat>, waiting: seq<nat>, reqs: map<nat, Req>)
    requires waiting != [] && NoneLost(reqs, active, waiting)
    ensures NoneLost(reqs, active + [waiting[0]], waiting[1..]) && waiting[0] !in active
  {
    var id := waiting[0];
    assert waiting == [id] + waiting[1..];
    assert active + waiting == (active + [id]) + waiting[1..];
    forall i | 0 <= i < |active| ensures active[i] != id {
      assert (active + waiting)[i] == active[i] && (active + waiting)[|active|] == id;
    }
  }

  lemma {:induction false} HoldsMore(cfg: Worker, g: Gpu, g': Gpu, reqs: map<nat, Req>, active: seq<nat>, id: nat,
                                     row: seq<nat>)
    requires HoldBlocks(cfg, g, reqs, active) && id in reqs && id !in active
    requires g'.tables == g.tables[id := row] && |row| == Logical(cfg, reqs[id])
    requires g'.claims == g.claims[id := Claim(InputKeys(cfg, reqs[id]), false)]
    ensures HoldBlocks(cfg, g', reqs, active + [id])
  {
    hide InputKeys, Logical;
  }

  lemma {:induction false} WaitingHead(cfg: Worker, s: Sched, active: seq<nat>)
    requires Base(cfg, s, active) && s.waiting != []
    ensures var id := s.waiting[0];
            && id in s.reqs && id !in s.gpu.tables && id !in active && Ready(s.gpu, cfg.numBlocks)
            && HoldBlocks(cfg, s.gpu, s.reqs, active)
            && Queued(s.reqs, s.waiting[1..]) && NoneLost(s.reqs, active + [id], s.waiting[1..])
  {
    hide Ready, AllFit, NoneLost;
    MoveHead(active, s.waiting, s.reqs);
    assert s.waiting[0] in s.waiting;
    assert forall x :: x in s.waiting[1..] ==> x in s.waiting;
  }

  lemma {:induction false} AdmitHeadBlocks(cfg: Worker, s: Sched, active: seq<nat>)
    requires Base(cfg, s, active) && s.waiting != []
    requires CanAllocate(s.gpu, AskOf(cfg, s.waiting[0], ReqAt(s, s.waiting[0])), cfg.watermark)
    ensures Ready(AdmitHead(cfg, s).gpu, cfg.numBlocks)
    ensures HoldBlocks(cfg, AdmitHead(cfg, s).gpu, s.reqs, active + [s.waiting[0]])
  {
    hide Base, CanAllocate, AllocateAsk, InputKeys, Logical, Ready, NoneLost, Queued, HoldBlocks, NewRow;
    var id := s.waiting[0];
    WaitingHead(cfg, s, active);
    var r, ask := s.reqs[id], AskOf(cfg, id, ReqAt(s, id));
    KeysFit(cfg, r);
    AdmitFacts(s.gpu, cfg.numBlocks, cfg.watermark, ask);
    HoldsMore(cfg, s.gpu, AllocateAsk(s.gpu, ask).1, s.reqs, active, id, NewRow(s.gpu, ask));
  }

  lemma {:induction false} AdmitHeadKeeps(cfg: Worker, s: Sched, active: seq<nat>)
    requires Base(cfg, s, active) && s.waiting != []
    requires CanAllocate(s.gpu, AskOf(cfg, s.waiting[0], ReqAt(s, s.waiting[0])), cfg.watermark)
    ensures Base(cfg, AdmitHead(cfg, s), active + [s.waiting[0]])
  {
    hide CanAllocate, AskOf, Ready, NoneLost, AllFit, Queued, HoldBlocks;
    AdmitHeadBlocks(cfg, s, active);
    WaitingHead(cfg, s, active);
    hide AdmitHead;
  }

  /** An admitted batch is a prefix of the waiting list, all of one phase. */
  ghost predicate AdmittedBatch(s: Sched, s': Sched, phase: Option<bool>, batch: seq<nat>) {
    && s'.reqs == s.reqs && s'.running == s.running + batch && s.waiting == batch + s'.waiting
    && (forall id :: id in batch ==> phase.Some? ==> ReqAt(s, id).recompute == phase.value)
    && (forall id :: id in batch ==> ReqAt(s, id).recompute == ReqAt(s, batch[0]).recompute)
    && (batch == [] ==> s' == s)
  }

  lemma {:induction false} BatchCons(s: Sched, s1: Sched, s': Sched, phase: Option<bool>, more: seq<nat>)
    requires s.waiting != [] && s1.reqs == s.reqs && s1.waiting == s.waiting[1..]
    requires s1.running == s.running + [s.waiting[0]] && (phase.Some? ==> ReqAt(s, s.waiting[0]).recompute == phase.value)
    requires AdmittedBatch(s1, s', Some(ReqAt(s, s.waiting[0]).recompute), more)
    ensures AdmittedBatch(s, s', phase, [s.waiting[0]] + more)
  {
    var id := s.waiting[0];
    assert s.running + [id] + more == s.running + ([id] + more);
    assert s.waiting == [id] + s.waiting[1..] == [id] + (more + s'.waiting) == ([id] + more) + s'.waiting;
    assert forall x :: ReqAt(s1, x) == ReqAt(s, x);
  }

  lemma {:induction false} AdmitAllKeeps(cfg: Worker, s: Sched, phase: Option<bool>)
    requires Base(cfg, s, s.running)
    ensures var (s', batch) := AdmitAll(cfg, s, phase);
            && Base(cfg, s', s'.running) && AdmittedBatch(s, s', phase, batch)
            && (s.waiting != [] && Admits(cfg, s, phase) ==> batch != [])
    decreases |s.waiting|
  {
    hide CanAllocate, AdmitHead, Base, BelowUsage, AskOf, AdmittedBatch;
    if s.waiting != [] && Admits(cfg, s, phase) {
      var id, s1 := s.waiting[0], AdmitHead(cfg, s);
      AdmitHeadKeeps(cfg, s, s.running);
      AdmitAllKeeps(cfg, s1, Some(ReqAt(s, id).recompute));
      var (s', more) := AdmitAll(cfg, s1, Some(ReqAt(s, id).recompute));
      BatchCons(s, s1, s', phase, more);
    } else {
      NothingAdmitted(s, phase);
    }
  }

  lemma {:induction false} NothingAdmitted(s: Sched, phase: Option<bool>)
    ensures AdmittedBatch(s, s, phase, [])
  {
    assert s.running + [] == s.running && [] + s.waiting == s.waiting;
  }

  // ----- decode

  lemma {:induction false} AppendHolds(cfg: Worker, g: Gpu, g': Gpu, reqs: map<nat, Req>, active: seq<nat>, id: nat)
    requires HoldBlocks(cfg, g, reqs, active) && id in active
    requires g'.claims == g.claims && g'.tables.Keys == g.tables.Keys
    requires forall x :: x in g.tables && x != id ==> g'.tables[x] == g.tables[x]
    requires |g'.tables[id]| == if |g.tables[id]| < Logical(cfg, reqs[id]) then |g.tables[id]| + 1 else |g.tables[id]|
    ensures HoldBlocks(cfg, g', reqs, active)
  {
    hide InputKeys, Logical;
    forall x | x in active ensures RowFits(cfg, g', x, reqs[x]) {
      assert RowFits(cfg, g, x, reqs[x]) && x in g.tables.Keys;
    }
    assert forall x :: x in g'.tables <==> x in g'.tables.Keys;
    assert forall x :: x in g.tables <==> x in g.tables.Keys;
  }

  lemma {:induction false} AppendKeeps(cfg: Worker, s: Sched, active: seq<nat>, id: nat)
    requires Base(cfg, s, active) && id in active && CanAppend(s.gpu, id, Logical(cfg, ReqAt(s, id)))
    ensures Base(cfg, Append(cfg, s, id), active)
  {
    hide AppendSlot, CanAppend, InputKeys, Logical, Ready, NoneLost, AllFit, Queued;
    AppendFacts(s.gpu, cfg.numBlocks, id, Logical(cfg, ReqAt(s, id)));
    AppendHolds(cfg, s.gpu, Append(cfg, s, id).gpu, s.reqs, active, id);
  }

  lemma {:induction false} MoveLast(active: seq<nat>, waiting: seq<nat>, reqs: map<nat, Req>)
    requires active != [] && NoneLost(reqs, active, waiting)
    ensures var last := active[|active| - 1];
            && NoneLost(reqs, active[..|active| - 1], [last] + waiting) && last !in active[..|active| - 1]
  {
    var n := |active| - 1;
    assert active == active[..n] + [active[n]];
    assert active + waiting == active[..n] + ([active[n]] + waiting);
    assert forall i :: 0 <= i < n ==> (active + waiting)[i] == active[..n][i];
    assert (active + waiting)[n] == active[n];
  }

  lemma {:induction false} NoneLostFlag(reqs: map<nat, Req>, active: seq<nat>, waiting: seq<nat>, id: nat, flag: bool)
    requires NoneLost(reqs, active, waiting) && id in reqs
    ensures NoneLost(reqs[id := reqs[id].(recompute := flag)], active, waiting)
  {
  }

  lemma {:induction false} AllFitFlag(cfg: Worker, reqs: map<nat, Req>, id: nat, flag: bool)
    requires AllFit(cfg, reqs) && id in reqs
    ensures AllFit(cfg, reqs[id := reqs[id].(recompute := flag)])
  {
    var r' := reqs[id].(recompute := flag);
    assert Fits(cfg, r') == Fits(cfg, reqs[id]);
    hide Fits;
  }

  lemma {:induction false} HoldsLess(cfg: Worker, g: Gpu, g': Gpu, reqs: map<nat, Req>, active: seq<nat>, id: nat)
    requires HoldBlocks(cfg, g, reqs, active + [id]) && id !in active
    requires g'.tables == g.tables - {id} && forall x :: x != id && x in g.claims ==> x in g'.claims && g'.claims[x] == g.claims[x]
    ensures HoldBlocks(cfg, g', reqs, active)
  {
    hide InputKeys, Logical;
    forall x | x in active ensures x in reqs && RowFits(cfg, g', x, reqs[x]) {
      assert x in active + [id];
    }
    assert forall x :: x in active + [id] <==> x in active || x == id;
  }

  lemma {:induction false} HoldsFlag(cfg: Worker, g: Gpu, reqs: map<nat, Req>, active: seq<nat>, id: nat, flag: bool)
    requires HoldBlocks(cfg, g, reqs, active) && id in reqs
    ensures HoldBlocks(cfg, g, reqs[id := reqs[id].(recompute := flag)], active)
  {
    var r, r' := reqs[id], reqs[id].(recompute := flag);
    assert Logical(cfg, r') == Logical(cfg, r) && InputKeys(cfg, r') == InputKeys(cfg, r);
    hide InputKeys, Logical;
  }

  lemma {:induction false} PreemptKeeps(cfg: Worker, s: Sched, active: seq<nat>, id: nat)
    requires Base(cfg, s, active + [id]) && id in s.reqs && 1 <= s.reqs[id].gen < s.reqs[id].decode
    ensures Base(cfg, Preempt(s, id), active)
  {
    hide Release, InputKeys, Logical, Ready, NoneLost, AllFit, HoldBlocks, Fits, Queued;
    var all, s' := active + [id], Preempt(s, id);
    assert all[..|all| - 1] == active && all[|all| - 1] == id;
    MoveLast(all, s.waiting, s.reqs);
    ReleaseFacts(s.gpu, cfg.numBlocks, id);
    HoldsLess(cfg, s.gpu, s'.gpu, s.reqs, active, id);
    HoldsFlag(cfg, s'.gpu, s.reqs, active, id, true);
    AllFitFlag(cfg, s.reqs, id, true);
    NoneLostFlag(s.reqs, active, [id] + s.waiting, id, true);
    QueuedAgain(s.reqs, s.waiting, id);
  }

  lemma {:induction false} QueuedAgain(reqs: map<nat, Req>, waiting: seq<nat>, id: nat)
    requires Queued(reqs, waiting) && id in reqs && 1 <= reqs[id].gen < reqs[id].decode
    ensures Queued(reqs[id := reqs[id].(recompute := true)], [id] + waiting)
  {
  }

  lemma {:induction false} AloneAppends(cfg: Worker, s: Sched, id: nat)
    requires Base(cfg, s, [id])
    ensures CanAppend(s.gpu, id, Logical(cfg, ReqAt(s, id)))
  {
    assert id in [id] && RowFits(cfg, s.gpu, id, s.reqs[id]);
    LogicalFits(cfg, s.reqs[id]);
    assert s.gpu.tables.Keys == {id} by {
      assert forall x :: x in s.gpu.tables <==> x in [id];
    }
    hide Ready, Logical, InputKeys;
    AloneHasRoom(s.gpu, cfg.numBlocks, id);
  }

  /** The requests differ in recompute flags at most. */
  ghost predicate OnlyFlags(reqs: map<nat, Req>, reqs': map<nat, Req>) {
    && reqs'.Keys == reqs.Keys
    && forall id :: id in reqs ==> reqs'[id] == reqs[id] || reqs'[id] == reqs[id].(recompute := true)
  }

  lemma {:induction false} PreemptSettled(s: Sched, ids: seq<nat>, id: nat)
    requires Settled(s.reqs, ids) && id !in ids && id in s.reqs
    ensures Settled(Preempt(s, id).reqs, ids) && OnlyFlags(s.reqs, Preempt(s, id).reqs)
  {
    hide Release;
  }

  lemma {:induction false} OnlyFlagsThen(a: map<nat, Req>, b: map<nat, Req>, c: map<nat, Req>)
    requires OnlyFlags(a, b) && OnlyFlags(b, c)
    ensures OnlyFlags(a, c)
  {
  }

  /** Preempting the back of the list and keeping the front leaves the order alone. */
  ghost predicate InOrder(w: seq<nat>, kept: seq<nat>, todo: seq<nat>, preempted: seq<nat>, waiting: seq<nat>,
                          before: seq<nat>) {
    kept + todo + Reverse(preempted) == before && waiting == Reverse(preempted) + w
  }

  lemma {:induction false} OrderKeep(w: seq<nat>, kept: seq<nat>, todo: seq<nat>, preempted: seq<nat>,
                                     waiting: seq<nat>, before: seq<nat>)
    requires todo != [] && InOrder(w, kept, todo, preempted, waiting, before)
    ensures InOrder(w, kept + [todo[0]], todo[1..], preempted, waiting, before)
    ensures kept + todo == kept + [todo[0]] + todo[1..]
  {
    assert todo == [todo[0]] + todo[1..];
    assert kept + todo == kept + [todo[0]] + todo[1..];
  }

  lemma {:induction false} OrderPreempt(w: seq<nat>, kept: seq<nat>, todo: seq<nat>, preempted: seq<nat>,
                                        waiting: seq<nat>, before: seq<nat>)
    requires todo != [] && InOrder(w, kept, todo, preempted, waiting, before)
    ensures var n := |todo| - 1;
            && InOrder(w, kept, todo[..n], preempted + [todo[n]], [todo[n]] + waiting, before)
            && kept + todo == kept + todo[..n] + [todo[n]]
  {
    var n := |todo| - 1;
    assert todo == todo[..n] + [todo[n]];
    assert (preempted + [todo[n]])[..|preempted|] == preempted;
    assert Reverse(preempted + [todo[n]]) == [todo[n]] + Reverse(preempted);
    assert kept + todo == kept + todo[..n] + [todo[n]];
    assert kept + todo + Reverse(preempted) == kept + todo[..n] + ([todo[n]] + Reverse(preempted));
    assert [todo[n]] + (Reverse(preempted) + w) == [todo[n]] + Reverse(preempted) + w;
  }

  ghost predicate DecodeOk(cfg: Worker, s: Sched, ids: seq<nat>) {
    Base(cfg, s, ids) && Settled(s.reqs, ids)
  }

  lemma {:induction false} AppendDecodeOk(cfg: Worker, s: Sched, ids: seq<nat>, id: nat)
    requires DecodeOk(cfg, s, ids) && id in ids && CanAppend(s.gpu, id, Logical(cfg, ReqAt(s, id)))
    ensures var s' := Append(cfg, s, id);
            && DecodeOk(cfg, s', ids) && s'.reqs == s.reqs && s'.waiting == s.waiting && s'.running == s.running
  {
    AppendKeeps(cfg, s, ids, id);
    hide Base, AppendSlot, Logical, CanAppend;
  }

  lemma {:induction false} LastIsNew(reqs: map<nat, Req>, ids: seq<nat>, id: nat, waiting: seq<nat>)
    requires NoneLost(reqs, ids + [id], waiting)
    ensures id !in ids
  {
    var all := ids + [id] + waiting;
    forall i | 0 <= i < |ids| ensures ids[i] != id {
      assert all[i] == ids[i] && all[|ids|] == id;
    }
  }

  lemma {:induction false} PreemptDecodeOk(cfg: Worker, s: Sched, ids: seq<nat>, id: nat)
    requires DecodeOk(cfg, s, ids + [id])
    ensures var s' := Preempt(s, id);
            && DecodeOk(cfg, s', ids) && OnlyFlags(s.reqs, s'.reqs) && s'.waiting == [id] + s.waiting
            && s'.running == s.running
  {
    hide NoneLost, HoldBlocks, AllFit, Queued, Ready, Release, OnlyFlags;
    var all := ids + [id];
    assert all[|ids|] == id && forall x :: x in ids ==> x in all;
    LastIsNew(s.reqs, ids, id, s.waiting);
    PreemptKeeps(cfg, s, ids, id);
    hide Base;
    PreemptSettled(s, ids, id);
  }

  /** Decoding keeps the invariant, keeps arrival order, and never preempts the first request. */
  lemma {:induction false} DecodeAllKeeps(cfg: Worker, s: Sched, todo: seq<nat>, kept: seq<nat>, preempted: seq<nat>,
                                          w: seq<nat>, before: seq<nat>)
    requires DecodeOk(cfg, s, kept + todo) && InOrder(w, kept, todo, preempted, s.waiting, before)
    ensures var (s', kept', preempted') := DecodeAll(cfg, s, todo, kept, preempted);
            && DecodeOk(cfg, s', kept') && InOrder(w, kept', [], preempted', s'.waiting, before)
            && OnlyFlags(s.reqs, s'.reqs) && s'.running == s.running
            && (kept + todo != [] ==> kept' != [])
    decreases |todo|
  {
    hide DecodeOk, InOrder, CanAppend, Append, Preempt, OnlyFlags;
    if todo == [] {
      assert kept + todo == kept;
      NoFlags(s.reqs);
    } else if CanAppend(s.gpu, todo[0], Logical(cfg, ReqAt(s, todo[0]))) {
      AppendDecodeOk(cfg, s, kept + todo, todo[0]);
      OrderKeep(w, kept, todo, preempted, s.waiting, before);
      DecodeAllKeeps(cfg, Append(cfg, s, todo[0]), todo[1..], kept + [todo[0]], preempted, w, before);
    } else {
      var n := |todo| - 1;
      OrderPreempt(w, kept, todo, preempted, s.waiting, before);
      if kept + todo[..n] == [] {
        assert kept + todo == [todo[0]];
        DecodeBase(cfg, s, [todo[0]]);
        AloneAppends(cfg, s, todo[0]);
      }
      PreemptDecodeOk(cfg, s, kept + todo[..n], todo[n]);
      DecodeAllKeeps(cfg, Preempt(s, todo[n]), todo[..n], kept, preempted + [todo[n]], w, before);
      OnlyFlagsThen(s.reqs, Preempt(s, todo[n]).reqs, DecodeAll(cfg, s, todo, kept, preempted).0.reqs);
    }
  }

  lemma {:induction false} NoFlags(reqs: map<nat, Req>)
    ensures OnlyFlags(reqs, reqs)
  {
  }

  lemma {:induction false} DecodeBase(cfg: Worker, s: Sched, ids: seq<nat>)
    requires DecodeOk(cfg, s, ids)
    ensures Base(cfg, s, ids) && Settled(s.reqs, ids)
  {
  }

  // ----- the sort

  ghost predicate SortedByArrival(s: Sched, ids: seq<nat>) {
    forall i, j :: 0 <= i < j < |ids| ==> ReqAt(s, ids[i]).arrival <= ReqAt(s, ids[j]).arrival
  }

  /** The requests that arrived at one time, in list order. */
  function ArrivedAt(s: Sched, ids: seq<nat>, time: int): seq<nat> {
    if ids == [] then []
    else (if ReqAt(s, ids[0]).arrival == time then [ids[0]] else []) + ArrivedAt(s, ids[1..], time)
  }

  lemma {:induction false} InsertPermutes(s: Sched, id: nat, sorted: seq<nat>)
    ensures multiset(InsertByArrival(s, id, sorted)) == multiset([id] + sorted)
  {
    if !(sorted == [] || ReqAt(s, id).arrival <= ReqAt(s, sorted[0]).arrival) {
      InsertPermutes(s, id, sorted[1..]);
      assert sorted == [sorted[0]] + sorted[1..];
      assert multiset([id] + sorted) == multiset{id} + multiset{sorted[0]} + multiset(sorted[1..]);
    }
  }

  lemma {:induction false} InsertStable(s: Sched, id: nat, sorted: seq<nat>, t: int)
    ensures ArrivedAt(s, InsertByArrival(s, id, sorted), t) == ArrivedAt(s, [id] + sorted, t)
  {
    if !(sorted == [] || ReqAt(s, id).arrival <= ReqAt(s, sorted[0]).arrival) {
      var rest, more := sorted[1..], InsertByArrival(s, id, sorted[1..]);
      InsertStable(s, id, rest, t);
      assert ([sorted[0]] + more)[1..] == more && ([id] + rest)[1..] == rest && ([id] + sorted)[1..] == sorted;
    }
  }

  lemma {:induction false} InsertSorts(s: Sched, id: nat, sorted: seq<nat>)
    requires SortedByArrival(s, sorted)
    ensures SortedByArrival(s, InsertByArrival(s, id, sorted))
  {
    hide ReqAt;
    if !(sorted == [] || ReqAt(s, id).arrival <= ReqAt(s, sorted[0]).arrival) {
      var rest, more := sorted[1..], InsertByArrival(s, id, sorted[1..]);
      assert forall i :: 0 <= i < |rest| ==> rest[i] == sorted[i + 1];
      InsertSorts(s, id, rest);
      InsertPermutes(s, id, rest);
      forall i | 0 <= i < |more| ensures ReqAt(s, sorted[0]).arrival <= ReqAt(s, more[i]).arrival {
        assert more[i] in multiset(more);
        assert more[i] in multiset([id] + rest);
        assert more[i] == id || more[i] in rest;
      }
    }
  }

  /** The sort is a stable permutation: requests that arrived together keep their order. */
  lemma {:induction false} SortIsStable(s: Sched, ids: seq<nat>)
    ensures SortedByArrival(s, SortByArrival(s, ids))
    ensures multiset(SortByArrival(s, ids)) == multiset(ids)
    ensures forall t :: ArrivedAt(s, SortByArrival(s, ids), t) == ArrivedAt(s, ids, t)
  {
    if ids != [] {
      var rest := SortByArrival(s, ids[1..]);
      SortIsStable(s, ids[1..]);
      InsertSorts(s, ids[0], rest);
      InsertPermutes(s, ids[0], rest);
      assert ids == [ids[0]] + ids[1..];
      hide SortedByArrival, InsertByArrival;
      forall t ensures ArrivedAt(s, SortByArrival(s, ids), t) == ArrivedAt(s, ids, t) {
        InsertStable(s, ids[0], rest, t);
        assert ([ids[0]] + rest)[1..] == rest;
      }
    }
  }
}

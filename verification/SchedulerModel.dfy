/** The paged-attention scheduler and the STEP of a hybrid worker with a no-op connector. */
module SchedulerModel {
  import opened Containers
  import opened Keys
  import opened BlockPools
  import opened BlockModel

  /** `arrival` is any totally ordered stamp; `gen` counts generated tokens. */
  datatype Req = Req(prefill: nat, decode: nat, arrival: int, scope: Scope, hashIds: seq<HashId>,
                     outputIds: seq<HashId>, gen: nat, recompute: bool)

  datatype Limits = Limits(
    blockSize: nat,
    numBlocks: nat,
    watermark: nat,
    maxParallel: Option<nat>,     // max_parallem_sum
    occupancy: real)              // max_occupy_ratio
  {
    predicate Valid() {
      && blockSize >= 1 && numBlocks >= 1 && occupancy > 0.0
      && (maxParallel.Some? ==> maxParallel.value >= 1)
    }
  }

  type Worker = c: Limits | c.Valid() witness Limits(1, 1, 0, None, 1.0)

  /** The scheduler's lists hold request ids; `reqs` is every request ever added. */
  datatype Sched = Sched(gpu: Gpu, reqs: map<nat, Req>, running: seq<nat>, waiting: seq<nat>)

  function CeilDiv(n: nat, d: nat): nat
    requires d >= 1
  {
    (n + d - 1) / d
  }

  function ContextLen(r: Req): nat {
    r.prefill + r.gen
  }

  /** Logical blocks of a request, as its token appends create them. */
  function Logical(cfg: Worker, r: Req): nat {
    CeilDiv(ContextLen(r), cfg.blockSize)
  }

  predicate IsDone(r: Req) {
    r.gen == r.decode
  }

  function FullInputBlocks(cfg: Worker, r: Req): nat {
    r.prefill / cfg.blockSize
  }

  function UpTo<T>(s: seq<T>, n: nat): (r: seq<T>)
    ensures |r| <= n && r <= s
  {
    if |s| <= n then s else s[..n]
  }

  function InputKeys(cfg: Worker, r: Req): (keys: seq<PrefixCacheKey>)
    ensures |keys| <= FullInputBlocks(cfg, r)
  {
    PrefixKeys(r.scope, UpTo(r.hashIds, FullInputBlocks(cfg, r)))
  }

  /** Keys of full output blocks; only when the prompt ends on a block boundary and is hashed
      throughout. */
  function OutputKeys(cfg: Worker, r: Req): seq<PrefixCacheKey> {
    var full := FullInputBlocks(cfg, r);
    var output := UpTo(r.outputIds, r.decode / cfg.blockSize);
    if r.outputIds == [] || r.prefill % cfg.blockSize != 0 || |r.hashIds| < full || output == [] then []
    else PrefixKeys(r.scope, r.hashIds[..full] + output)[full..]
  }

  function AskOf(cfg: Worker, id: nat, r: Req): Ask {
    Ask(id, InputKeys(cfg, r), Logical(cfg, r))
  }

  function ReqAt(s: Sched, id: nat): Req {
    if id in s.reqs then s.reqs[id] else Req(0, 0, 0, Scope("", None, None), [], [], 0, false)
  }

  // ----- schedule: admission

  predicate BelowUsage(cfg: Worker, g: Gpu) {
    (cfg.numBlocks - FreeCount(g.pool)) as real / cfg.numBlocks as real < cfg.occupancy
  }

  predicate BelowParallel(cfg: Worker, s: Sched) {
    cfg.maxParallel.Some? ==> |s.running| < cfg.maxParallel.value
  }

  /** Whether the head of the waiting list may join a batch of the given phase. */
  predicate Admits(cfg: Worker, s: Sched, phase: Option<bool>)
    requires s.waiting != []
  {
    var id := s.waiting[0];
    && BelowUsage(cfg, s.gpu) && BelowParallel(cfg, s)
    && (phase.Some? ==> ReqAt(s, id).recompute == phase.value)
    && CanAllocate(s.gpu, AskOf(cfg, id, ReqAt(s, id)), cfg.watermark)
  }

  function AdmitHead(cfg: Worker, s: Sched): (s': Sched)
    requires s.waiting != []
    ensures s'.reqs == s.reqs && s'.running == s.running + [s.waiting[0]] && s'.waiting == s.waiting[1..]
  {
    hide AllocateAsk, AskOf;
    var id := s.waiting[0];
    s.(gpu := AllocateAsk(s.gpu, AskOf(cfg, id, ReqAt(s, id))).1, running := s.running + [id], waiting := s.waiting[1..])
  }

  /** The batch admitted; `phase` is whether it recomputes, once it has a first request. */
  function AdmitAll(cfg: Worker, s: Sched, phase: Option<bool>): (Sched, seq<nat>)
    decreases |s.waiting|
  {
    hide AllocateAsk, CanAllocate, AskOf, BelowUsage;
    if s.waiting == [] || !Admits(cfg, s, phase) then (s, [])
    else
      var id := s.waiting[0];
      var (s', more) := AdmitAll(cfg, AdmitHead(cfg, s), Some(ReqAt(s, id).recompute));
      (s', [id] + more)
  }

  // ----- schedule: decode

  /** `sorted(..., key=arrival_time)`, which is stable. */
  function InsertByArrival(s: Sched, id: nat, sorted: seq<nat>): seq<nat> {
    if sorted == [] || ReqAt(s, id).arrival <= ReqAt(s, sorted[0]).arrival then [id] + sorted
    else [sorted[0]] + InsertByArrival(s, id, sorted[1..])
  }

  function SortByArrival(s: Sched, ids: seq<nat>): seq<nat> {
    if ids == [] then [] else InsertByArrival(s, ids[0], SortByArrival(s, ids[1..]))
  }

  function Preempt(s: Sched, id: nat): Sched {
    s.(gpu := Release(s.gpu, id), reqs := s.reqs[id := ReqAt(s, id).(recompute := true)], waiting := [id] + s.waiting)
  }

  function Append(cfg: Worker, s: Sched, id: nat): Sched {
    s.(gpu := AppendSlot(s.gpu, id, Logical(cfg, ReqAt(s, id))).1)
  }

  /** Grows the requests of `todo` from the front, preempting from the back when blocks run out. */
  function DecodeAll(cfg: Worker, s: Sched, todo: seq<nat>, kept: seq<nat>, preempted: seq<nat>): (Sched, seq<nat>,
                     seq<nat>)
    decreases |todo|
  {
    if todo == [] then (s, kept, preempted)
    else
      var id, last := todo[0], todo[|todo| - 1];
      if CanAppend(s.gpu, id, Logical(cfg, ReqAt(s, id))) then
        DecodeAll(cfg, Append(cfg, s, id), todo[1..], kept + [id], preempted)
      else DecodeAll(cfg, Preempt(s, last), todo[..|todo| - 1], kept, preempted + [last])
  }

  datatype Schedule = Schedule(batch: seq<nat>, preempted: seq<nat>)

  function RunSchedule(cfg: Worker, s: Sched): (Sched, Schedule) {
    var (s1, admitted) := AdmitAll(cfg, s, None);
    if admitted != [] then (s1, Schedule(admitted, []))
    else
      var (s2, kept, preempted) := DecodeAll(cfg, s1, SortByArrival(s1, s1.running), [], []);
      (s2.(running := kept), Schedule(kept, preempted))
  }

  // ----- the rest of a STEP

  function Commit(s: Sched, id: nat): Sched {
    s.(gpu := CommitInput(s.gpu, id))
  }

  function FinishRecompute(s: Sched, batch: seq<nat>): Sched {
    if batch == [] then s
    else
      var id := batch[|batch| - 1];
      var s' := Commit(FinishRecompute(s, batch[..|batch| - 1]), id);
      s'.(reqs := s'.reqs[id := ReqAt(s', id).(recompute := false)])
  }

  function StepRequests(s: Sched, batch: seq<nat>): Sched {
    if batch == [] then s
    else
      var id := batch[|batch| - 1];
      var s' := StepRequests(s, batch[..|batch| - 1]);
      s'.(reqs := s'.reqs[id := ReqAt(s', id).(gen := ReqAt(s', id).gen + 1)])
  }

  function CommitGenerated(s: Sched, batch: seq<nat>): Sched {
    if batch == [] then s
    else
      var id := batch[|batch| - 1];
      var s' := CommitGenerated(s, batch[..|batch| - 1]);
      if ReqAt(s', id).gen > 0 then Commit(s', id) else s'
  }

  function FreeDone(cfg: Worker, s: Sched, batch: seq<nat>): Sched {
    if batch == [] then s
    else
      var id := batch[|batch| - 1];
      var s' := FreeDone(cfg, s, batch[..|batch| - 1]);
      var r := ReqAt(s', id);
      if IsDone(r) then s'.(gpu := Finish(s'.gpu, id, FullInputBlocks(cfg, r), OutputKeys(cfg, r))) else s'
  }

  function StillRunning(s: Sched, ids: seq<nat>): seq<nat> {
    if ids == [] then []
    else (if IsDone(ReqAt(s, ids[0])) then [] else [ids[0]]) + StillRunning(s, ids[1..])
  }

  function Update(cfg: Worker, s: Sched, batch: seq<nat>): Sched {
    var s' := FreeDone(cfg, CommitGenerated(s, batch), batch);
    s'.(running := StillRunning(s', s'.running))
  }

  /** One STEP message. The batch is a recompute batch when its first request is. */
  function WorkerStep(cfg: Worker, s: Sched): Sched {
    var (s1, schedule) := RunSchedule(cfg, s);
    if schedule.batch == [] then s1
    else if ReqAt(s1, schedule.batch[0]).recompute then FinishRecompute(s1, schedule.batch)
    else Update(cfg, StepRequests(s1, schedule.batch), schedule.batch)
  }

  /** ADD message: new requests join the end of the waiting list. */
  function AddRequest(s: Sched, id: nat, r: Req): Sched {
    s.(reqs := s.reqs[id := r], waiting := s.waiting + [id])
  }
}

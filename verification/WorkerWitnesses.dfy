/** Runs of a two-block worker, and the exact conditions they mark out: which hash ids the prefix
    cache can be trusted with, and when the eviction hook sees prompt blocks alone. */
module WorkerWitnesses {
  import opened Containers
  import opened Keys
  import opened FreeQueues
  import opened BlockPools
  import opened BlockModel
  import opened BlockHistory
  import opened BlockWitnesses
  import opened SchedulerModel
  import opened SchedulerSafety
  import opened WorkerRuns
  import opened WorkerBlocks
  import opened Hierarchies

  /** Two blocks of two tokens. */
  const SMALL: Worker := Limits(2, 2, 0, None, 1.0)

  /** One prompt block, two tokens to generate, their block hashed too. */
  function First(a: HashId, b: HashId): Req {
    Req(2, 2, 0, Scope("", None, None), [a], [b], 0, false)
  }

  /** An unhashed request that fills the worker. */
  const FILLER := Req(3, 1, 1, Scope("", None, None), [], [], 0, false)

  function KeyA(a: HashId): PrefixCacheKey {
    PrefixKeys(Scope("", None, None), [a])[0]
  }

  function KeyB(a: HashId, b: HashId): PrefixCacheKey {
    PrefixKeys(Scope("", None, None), [a, b])[1]
  }

  lemma {:induction false} FirstKeys(a: HashId, b: HashId, gen: nat)
    ensures var r := First(a, b).(gen := gen);
            InputKeys(SMALL, r) == [KeyA(a)] && OutputKeys(SMALL, r) == [KeyB(a, b)] && FullInputBlocks(SMALL, r) == 1
    ensures KeyA(a) != KeyB(a, b)
  {
    var scope := Scope("", None, None);
    assert PrefixKeys(scope, [a]) == [KeyA(a)];
    assert [a][..1] == [a] && [a] + [b] == [a, b];
    assert PrefixKeys(scope, [a, b])[1..] == [KeyB(a, b)];
    PrefixKeysMeet(scope, [a], 0, scope, [a, b], 1);
  }

  // ----- the first STEP: admitted, committed, one token

  lemma {:induction false} FirstArrives(a: HashId, b: HashId)
    ensures HandleAll(SMALL, [Add(0, First(a, b))]) == Sched(NewGpu(2), map[0 := First(a, b)], [], [0])
  {
    var msgs := [Add(0, First(a, b))];
    assert msgs[..0] == [];
    assert HandleAll(SMALL, []) == NewWorker(SMALL);
    assert [] + [0 as nat] == [0];
  }

  lemma {:induction false} FirstAdmitted(a: HashId, b: HashId)
    ensures var s := Sched(NewGpu(2), map[0 := First(a, b)], [], [0]);
            RunSchedule(SMALL, s) == (Sched(Admitted(KeyA(a)), map[0 := First(a, b)], [0], []), Schedule([0], []))
  {
    var s := Sched(NewGpu(2), map[0 := First(a, b)], [], [0]);
    var s1 := Sched(Admitted(KeyA(a)), map[0 := First(a, b)], [0], []);
    FirstKeys(a, b, 0);
    AdmitStep(KeyA(a));
    hide InputKeys, AllocateAsk, CanAllocate, Admitted, First;
    assert ReqAt(s, 0) == First(a, b) == First(a, b).(gen := 0) by { FirstIs(a, b); }
    assert AskOf(SMALL, 0, First(a, b)) == Ask(0, [KeyA(a)], 1) by { FirstIs(a, b); }
    assert BelowUsage(SMALL, s.gpu);
    assert [] + [0 as nat] == [0] && [0 as nat][1..] == [];
    assert AdmitHead(SMALL, s) == s1;
    hide AdmitHead;
    assert AdmitAll(SMALL, s1, Some(First(a, b).recompute)) == (s1, []);
    assert [0 as nat] + [] == [0];
    assert AdmitAll(SMALL, s, None) == (s1, [0]);
    hide AdmitAll;
  }

  lemma {:induction false} FirstIs(a: HashId, b: HashId)
    ensures First(a, b).gen == 0 && !First(a, b).recompute && First(a, b).decode == 2
    ensures Logical(SMALL, First(a, b)) == 1 && Logical(SMALL, First(a, b).(gen := 1)) == 2
  {
  }

  lemma {:induction false} OneToken(cfg: Worker, s: Sched, s1: Sched)
    requires RunSchedule(cfg, s) == (s1, Schedule([0], [])) && 0 in s1.reqs && !s1.reqs[0].recompute
    ensures WorkerStep(cfg, s)
         == Update(cfg, s1.(reqs := s1.reqs[0 := s1.reqs[0].(gen := s1.reqs[0].gen + 1)]), [0])
  {
    hide RunSchedule, Update;
    assert [0 as nat][..0] == [];
    assert StepRequests(s1, []) == s1;
  }

  lemma {:induction false} UpdateOne(cfg: Worker, s: Sched, g: Gpu, g': Gpu)
    requires s.running == [0] && 0 in s.reqs && s.reqs[0].gen > 0 && CommitInput(s.gpu, 0) == g
    requires var r := s.reqs[0];
             g' == if IsDone(r) then Finish(g, 0, FullInputBlocks(cfg, r), OutputKeys(cfg, r)) else g
    ensures Update(cfg, s, [0]) == s.(gpu := g', running := if IsDone(s.reqs[0]) then [] else [0])
  {
    hide CommitInput, Finish, OutputKeys, FullInputBlocks;
    assert [0 as nat][..0] == [] && [0 as nat][1..] == [] && [0 as nat] + [] == [0];
    assert CommitGenerated(s, []) == s;
    var s1 := s.(gpu := g);
    assert CommitGenerated(s, [0]) == s1;
    assert FreeDone(cfg, s1, []) == s1;
    var s2 := s.(gpu := g');
    assert FreeDone(cfg, s1, [0]) == s2;
    assert StillRunning(s2, []) == [];
    assert StillRunning(s2, [0]) == if IsDone(s.reqs[0]) then [] else [0];
  }

  /** A STEP in which request 0, alone, is in a generating batch. */
  lemma {:induction false} StepOne(cfg: Worker, s: Sched, s1: Sched, r: Req, r': Req, g: Gpu, g': Gpu)
    requires RunSchedule(cfg, s) == (s1, Schedule([0], [])) && s1.running == [0] && s1.reqs == map[0 := r]
    requires !r.recompute && r' == r.(gen := r.gen + 1) && CommitInput(s1.gpu, 0) == g
    requires g' == if IsDone(r') then Finish(g, 0, FullInputBlocks(cfg, r'), OutputKeys(cfg, r')) else g
    ensures WorkerStep(cfg, s) == Sched(g', map[0 := r'], if IsDone(r') then [] else [0], s1.waiting)
  {
    hide RunSchedule, Update, CommitInput, Finish, OutputKeys, FullInputBlocks, WorkerStep, IsDone;
    OneToken(cfg, s, s1);
    assert map[0 := r][0 := r'] == map[0 := r'];
    UpdateOne(cfg, s1.(reqs := map[0 := r']), g, g');
  }

  lemma {:induction false} NextMessage(msgs: seq<Message>, msg: Message)
    ensures HandleAll(SMALL, msgs + [msg]) == Handle(SMALL, HandleAll(SMALL, msgs), msg)
  {
    assert (msgs + [msg])[..|msgs|] == msgs;
    hide Handle;
  }

  lemma {:induction false} FirstStep(a: HashId, b: HashId)
    ensures HandleAll(SMALL, [Add(0, First(a, b)), Step])
         == Sched(Committed(KeyA(a)), map[0 := First(a, b).(gen := 1)], [0], [])
  {
    var msgs, r, k := [Add(0, First(a, b))], First(a, b), KeyA(a);
    assert msgs + [Step] == [Add(0, r), Step];
    NextMessage(msgs, Step);
    FirstArrives(a, b);
    FirstAdmitted(a, b);
    FirstIs(a, b);
    CommitStep(k);
    hide First, RunSchedule, HandleAll, WorkerStep, CommitInput, Committed, Admitted, KeyA;
    StepOne(SMALL, HandleAll(SMALL, msgs), Sched(Admitted(k), map[0 := r], [0], []), r, r.(gen := 1), Committed(k),
            Committed(k));
  }

  // ----- the second STEP: grown, finished

  lemma {:induction false} FirstDecoded(a: HashId, b: HashId)
    ensures var reqs := map[0 := First(a, b).(gen := 1)];
            RunSchedule(SMALL, Sched(Committed(KeyA(a)), reqs, [0], []))
            == (Sched(Grown(KeyA(a)), reqs, [0], []), Schedule([0], []))
  {
    var s := Sched(Committed(KeyA(a)), map[0 := First(a, b).(gen := 1)], [0], []);
    FirstIs(a, b);
    GrowStep(KeyA(a));
    assert CanAppend(s.gpu, 0, 2);
    hide First, AppendSlot, CanAppend, Committed, Grown, KeyA, Logical;
    assert AdmitAll(SMALL, s, None) == (s, []);
    assert [0 as nat][1..] == [] && [] + [0 as nat] == [0] && [0 as nat] + [] == [0];
    assert SortByArrival(s, [0]) == [0] by { assert SortByArrival(s, []) == []; }
    var s1 := s.(gpu := Grown(KeyA(a)));
    assert Append(SMALL, s, 0) == s1;
    assert DecodeAll(SMALL, s1, [], [0], []) == (s1, [0], []);
    assert DecodeAll(SMALL, s, [0], [], []) == (s1, [0], []);
  }

  lemma {:induction false} SecondWorkerStep(a: HashId, b: HashId)
    ensures var k, m := KeyA(a), KeyB(a, b);
            WorkerStep(SMALL, Sched(Committed(k), map[0 := First(a, b).(gen := 1)], [0], []))
            == Sched(Finished(k, m), map[0 := First(a, b).(gen := 2)], [], [])
  {
    var r, k, m := First(a, b), KeyA(a), KeyB(a, b);
    FirstIs(a, b);
    FirstKeys(a, b, 2);
    FirstDecoded(a, b);
    FinishStep(k, m);
    hide First, RunSchedule, WorkerStep, CommitInput, Committed, Grown, Finished, Finish, KeyA, KeyB, OutputKeys,
         FullInputBlocks, InputKeys;
    StepOne(SMALL, Sched(Committed(k), map[0 := r.(gen := 1)], [0], []),
            Sched(Grown(k), map[0 := r.(gen := 1)], [0], []), r.(gen := 1), r.(gen := 2), Grown(k), Finished(k, m));
  }

  lemma {:induction false} SecondStep(a: HashId, b: HashId)
    ensures HandleAll(SMALL, [Add(0, First(a, b)), Step, Step])
         == Sched(Finished(KeyA(a), KeyB(a, b)), map[0 := First(a, b).(gen := 2)], [], [])
  {
    var msgs := [Add(0, First(a, b)), Step];
    assert msgs + [Step] == [Add(0, First(a, b)), Step, Step];
    hide First, WorkerStep, HandleAll, Committed, Finished, KeyA, KeyB;
    NextMessage(msgs, Step);
    FirstStep(a, b);
    SecondWorkerStep(a, b);
  }

  // ----- the next request takes both blocks

  lemma {:induction false} FillerArrives(a: HashId, b: HashId)
    ensures var msgs := [Add(0, First(a, b)), Step, Step, Add(1, FILLER)];
            HandleAll(SMALL, msgs)
            == Sched(Finished(KeyA(a), KeyB(a, b)), map[0 := First(a, b).(gen := 2), 1 := FILLER], [], [1])
  {
    var msgs := [Add(0, First(a, b)), Step, Step, Add(1, FILLER)];
    assert msgs[..3] == [Add(0, First(a, b)), Step, Step];
    SecondStep(a, b);
    hide First, Finished, KeyA, KeyB;
    assert [] + [1 as nat] == [1];
  }

  lemma {:induction false} FillerAdmitted(s: Sched, k: PrefixCacheKey, m: PrefixCacheKey)
    requires k != m && s.gpu == Finished(k, m) && s.running == [] && s.waiting == [1]
    requires 1 in s.reqs && s.reqs[1] == FILLER
    ensures var (s', schedule) := RunSchedule(SMALL, s);
            schedule == Schedule([1], []) && WasEvicted(s'.gpu.trace, m) && s'.reqs == s.reqs
  {
    TakeStep(k, m);
    assert AskOf(SMALL, 1, FILLER) == Ask(1, [], 2) by { FillerAsk(); }
    assert BelowUsage(SMALL, s.gpu);
    hide AskOf, AllocateAsk, CanAllocate, Finished, BelowUsage, WasEvicted;
    assert [1 as nat][1..] == [] && [1 as nat] + [] == [1];
    var s1 := AdmitHead(SMALL, s);
    assert AdmitAll(SMALL, s1, Some(false)) == (s1, []);
    assert AdmitAll(SMALL, s, None) == (s1, [1]);
    hide AdmitAll;
  }

  lemma {:induction false} FillerAsk()
    ensures AskOf(SMALL, 1, FILLER) == Ask(1, [], 2)
  {
    assert PrefixKeys(Scope("", None, None), []) == [];
  }

  lemma {:induction false} UpdateTrace(cfg: Worker, s: Sched, batch: seq<nat>)
    ensures s.gpu.trace <= Update(cfg, s, batch).gpu.trace
  {
    hide CommitInput, Finish, OutputKeys;
    CommitGeneratedTrace(s, batch);
    FreeDoneTrace(cfg, CommitGenerated(s, batch), batch);
  }

  lemma {:induction false} CommitGeneratedTrace(s: Sched, batch: seq<nat>)
    ensures s.gpu.trace <= CommitGenerated(s, batch).gpu.trace
  {
    hide CommitInput;
    if batch != [] {
      var front, id := batch[..|batch| - 1], batch[|batch| - 1];
      CommitGeneratedTrace(s, front);
      CommitTrace(CommitGenerated(s, front).gpu, id);
    }
  }

  lemma {:induction false} FreeDoneTrace(cfg: Worker, s: Sched, batch: seq<nat>)
    ensures s.gpu.trace <= FreeDone(cfg, s, batch).gpu.trace
  {
    hide Finish, OutputKeys, FullInputBlocks;
    if batch != [] {
      var front, id := batch[..|batch| - 1], batch[|batch| - 1];
      FreeDoneTrace(cfg, s, front);
      var s1 := FreeDone(cfg, s, front);
      FinishTrace(s1.gpu, id, FullInputBlocks(cfg, ReqAt(s1, id)), OutputKeys(cfg, ReqAt(s1, id)));
    }
  }

  lemma {:induction false} StillEvicted(trace: seq<Event>, more: seq<Event>, k: PrefixCacheKey)
    requires WasEvicted(trace, k) && trace <= more
    ensures WasEvicted(more, k)
  {
    var i :| 0 <= i < |trace| && trace[i] == Evicted(Some(k), Capacity);
    assert more[i] == trace[i];
  }

  lemma {:induction false} FillerSteps(s: Sched, k: PrefixCacheKey, m: PrefixCacheKey)
    requires k != m && s.gpu == Finished(k, m) && s.running == [] && s.waiting == [1]
    requires 1 in s.reqs && s.reqs[1] == FILLER
    ensures WasEvicted(WorkerStep(SMALL, s).gpu.trace, m)
  {
    hide RunSchedule, Update, WasEvicted, Finished;
    FillerAdmitted(s, k, m);
    var s1 := RunSchedule(SMALL, s).0;
    assert [1 as nat][..0] == [];
    var s2 := StepRequests(s1, [1]);
    assert StepRequests(s1, []) == s1;
    UpdateTrace(SMALL, s2, [1]);
    StillEvicted(s1.gpu.trace, Update(SMALL, s2, [1]).gpu.trace, m);
  }

  lemma {:induction false} NoPromptHas(a: HashId, b: HashId)
    ensures forall r :: r in Added([Add(0, First(a, b)), Step, Step, Add(1, FILLER), Step]) ==>
              KeyB(a, b) !in InputKeys(SMALL, r)
    ensures OutputKeys(SMALL, First(a, b)) == [KeyB(a, b)]
  {
    FirstKeys(a, b, 0);
    assert First(a, b) == First(a, b).(gen := 0) && InputKeys(SMALL, FILLER) == [] by { FillerAsk(); }
    hide KeyA, KeyB, InputKeys, OutputKeys;
  }

  /** A request finishes with a hashed output block, the next one fills the worker, and the observer
      hears that block's eviction under its output key, which no prompt has. */
  lemma {:induction false} OutputKeyEvicted(a: HashId, b: HashId)
    ensures var msgs := [Add(0, First(a, b)), Step, Step, Add(1, FILLER), Step];
            && OutputKeys(SMALL, First(a, b)) == [KeyB(a, b)]
            && WasEvicted(HandleAll(SMALL, msgs).gpu.trace, KeyB(a, b))
            && forall r :: r in Added(msgs) ==> KeyB(a, b) !in InputKeys(SMALL, r)
  {
    var msgs := [Add(0, First(a, b)), Step, Step, Add(1, FILLER)];
    assert msgs + [Step] == [Add(0, First(a, b)), Step, Step, Add(1, FILLER), Step];
    NextMessage(msgs, Step);
    NoPromptHas(a, b);
    FirstKeys(a, b, 0);
    FillerArrives(a, b);
    hide First, Finished, KeyA, KeyB, InputKeys, OutputKeys, WasEvicted, WorkerStep, HandleAll, Added;
    FillerSteps(HandleAll(SMALL, msgs), KeyA(a), KeyB(a, b));
  }

  // ----- exactly when the eviction hook sees prompt blocks alone

  /** With output ids from this set alone, whatever is evicted in any run is a prompt's block. */
  ghost predicate OnlyPromptsEvicted(outputs: iset<HashId>) {
    forall cfg: Worker, msgs, k ::
      && (forall r, a :: r in Added(msgs) && a in r.outputIds ==> a in outputs)
      && WasEvicted(HandleAll(cfg, msgs).gpu.trace, k)
      ==> exists r :: r in Added(msgs) && k in InputKeys(cfg, r)
  }

  /** A worker none of whose requests has output keys evicts prompt blocks alone. */
  lemma {:induction false} OnlyPromptKeysEvicted(cfg: Worker, msgs: seq<Message>, k: PrefixCacheKey)
    requires WasEvicted(HandleAll(cfg, msgs).gpu.trace, k)
    requires forall r :: r in Added(msgs) ==> OutputKeys(cfg, r) == []
    ensures exists r :: r in Added(msgs) && k in InputKeys(cfg, r)
  {
    hide WasEvicted, InputKeys, OutputKeys, Added, HandleAll, GpuRun, NamesOf, WorkerRows.Fills;
    WorkerMakesCalls(cfg, msgs);
    var names, g := NamesOf(HandleAll(cfg, msgs)), HandleAll(cfg, msgs).gpu;
    var calls :| g == GpuRun(cfg.numBlocks, cfg.watermark, calls) && AllMadeFor(cfg, names, calls);
    EvictedAsked(cfg.numBlocks, cfg.watermark, calls, k);
    var i :| 0 <= i < |calls| && k in CallKeys(calls[i]);
    assert MadeFor(cfg, names, GpuRun(cfg.numBlocks, cfg.watermark, calls[..i]), calls[i]);
  }

  lemma {:induction false} NoOutputKeys(cfg: Worker, r: Req)
    requires r.outputIds == []
    ensures OutputKeys(cfg, r) == []
  {
  }

  lemma {:induction false} NothingFrom(ids: seq<HashId>, outputs: iset<HashId>)
    requires forall a :: a in ids ==> a in outputs
    ensures ids == [] || exists a :: a in outputs
  {
    if ids != [] {
      assert ids[0] in outputs;
    }
  }

  lemma {:induction false} UnhashedOutputsUnseen(outputs: iset<HashId>)
    requires outputs == iset{}
    ensures OnlyPromptsEvicted(outputs)
  {
    hide WasEvicted, HandleAll, InputKeys, OutputKeys, Added;
    forall cfg: Worker, msgs, k
      | && (forall r, a :: r in Added(msgs) && a in r.outputIds ==> a in outputs)
        && WasEvicted(HandleAll(cfg, msgs).gpu.trace, k)
      ensures exists r :: r in Added(msgs) && k in InputKeys(cfg, r)
    {
      forall r | r in Added(msgs) ensures OutputKeys(cfg, r) == [] {
        NothingFrom(r.outputIds, outputs);
        NoOutputKeys(cfg, r);
      }
      OnlyPromptKeysEvicted(cfg, msgs, k);
    }
  }

  lemma {:induction false} HashedOutputsSeen(outputs: iset<HashId>, b: HashId)
    requires b in outputs
    ensures !OnlyPromptsEvicted(outputs)
  {
    hide WasEvicted, HandleAll, InputKeys, KeyB, Added, First;
    var msgs := [Add(0, First(b, b)), Step, Step, Add(1, FILLER), Step];
    OutputsFrom(b, b);
    OutputKeyEvicted(b, b);
    assert forall r, a :: r in Added(msgs) && a in r.outputIds ==> a in outputs;
    assert WasEvicted(HandleAll(SMALL, msgs).gpu.trace, KeyB(b, b));
  }

  /** The hook sees prompt blocks and nothing else exactly when no output is hashed. */
  lemma {:induction false} OnlyPromptsEvictedIff(outputs: iset<HashId>)
    ensures OnlyPromptsEvicted(outputs) <==> outputs == iset{}
  {
    hide OnlyPromptsEvicted;
    if b :| b in outputs {
      HashedOutputsSeen(outputs, b);
    } else {
      UnhashedOutputsUnseen(outputs);
    }
  }

  lemma {:induction false} OutputsFrom(a: HashId, b: HashId)
    ensures var msgs := [Add(0, First(a, b)), Step, Step, Add(1, FILLER), Step];
            forall r, x :: r in Added(msgs) && x in r.outputIds ==> x == b
  {
  }

  // ----- exactly where a worker's hits can be trusted

  /** In workers given these ids alone, a hit always means that a request with the same scope and ids was
      added before. */
  ghost predicate WorkerHitsTrusted(ids: iset<HashId>) {
    forall cfg: Worker, msgs, prompt, i: nat ::
      IdsIn(ids, prompt) && AddedFrom(cfg, msgs, ids) && WorkerHit(cfg, msgs, prompt, i)
      ==> AddedSeen(cfg, msgs, prompt, i)
  }

  lemma {:induction false} FirstWhole(a: HashId, b: HashId)
    ensures WholePrompt(SMALL, First(a, b)) == Prompt(Scope("", None, None), [a, b])
    ensures Added([Add(0, First(a, b)), Step]) == {First(a, b)}
  {
    FirstKeys(a, b, 0);
    assert First(a, b) == First(a, b).(gen := 0);
    assert [a] + [b] == [a, b];
    var msgs := [Add(0, First(a, b)), Step];
    assert msgs[0] == Add(0, First(a, b));
  }

  lemma {:induction false} OneHit(a: HashId, b: HashId)
    requires Signature(a) == Signature(b)
    ensures WorkerHit(SMALL, [Add(0, First(b, b)), Step], Prompt(Scope("", None, None), [a]), 0)
  {
    assert Signatures([a]) == Signatures([b]);
    assert PrefixKeys(Scope("", None, None), [a]) == [KeyA(b)];
    assert IsHit(Committed(KeyA(b)), KeyA(b));
    hide HandleAll, PrefixKeys, First, KeyA, Committed;
    FirstStep(b, b);
  }

  lemma {:induction false} NotSeen(a: HashId, b: HashId)
    requires a != b
    ensures !AddedSeen(SMALL, [Add(0, First(b, b)), Step], Prompt(Scope("", None, None), [a]), 0)
  {
    FirstWhole(b, b);
    hide First, Added, WholePrompt;
    assert [b, b][..1] != [a][..1] by {
      assert [b, b][..1][0] == b && [a][..1][0] == a;
    }
    assert !SeenBefore([WholePrompt(SMALL, First(b, b))], Prompt(Scope("", None, None), [a]), 0);
  }

  /** After one STEP the block of a string id is hit by the integer id it spells. */
  lemma {:induction false} WorkerMistakes(ids: iset<HashId>, a: HashId, b: HashId)
    requires a in ids && b in ids && a != b && Signature(a) == Signature(b)
    ensures !WorkerHitsTrusted(ids)
  {
    var msgs, prompt := [Add(0, First(b, b)), Step], Prompt(Scope("", None, None), [a]);
    FirstWhole(b, b);
    assert AddedFrom(SMALL, msgs, ids);
    hide WorkerHit, AddedSeen, AddedFrom, First;
    OneHit(a, b);
    NotSeen(a, b);
  }

  /** A worker's hits can be trusted over a set of hash ids exactly when no string in it spells an
      integer in it. */
  lemma {:induction false} WorkerHitsTrustedIff(ids: iset<HashId>)
    ensures WorkerHitsTrusted(ids) <==> Apart(ids)
  {
    if Apart(ids) {
      hide Apart, WorkerHit, AddedSeen, AddedFrom, IdsIn;
      forall cfg: Worker, msgs, prompt, i: nat
        | IdsIn(ids, prompt) && AddedFrom(cfg, msgs, ids) && WorkerHit(cfg, msgs, prompt, i)
        ensures AddedSeen(cfg, msgs, prompt, i)
      {
        WorkerHitSound(cfg, msgs, prompt, i, ids);
      }
    } else {
      ApartIffFaithful(ids);
      var a, b :| a in ids && b in ids && Signature(a) == Signature(b) && a != b;
      hide WorkerHitsTrusted;
      WorkerMistakes(ids, a, b);
    }
  }
}

/** The prefix cache over whole runs: with prefix caching on, every running request is registered in
    every reachable state, so equal prompts share blocks and a processed prompt is found again. */
module PrefixRuns {
  import opened Base
  import opened BlockSpec
  import opened BlockCoverage
  import opened Requests
  import opened ScheduleSpec
  import opened EngineSpec
  import opened EngineLaws
  import opened StepLaws
  import opened PrefixLaws
  import opened Runs

  ghost predicate AllRegistered(cfg: Config, b: Blocks, rs: seq<Request>) {
    forall r :: r in rs ==> Registered(cfg, b, r.id, r.prompt)
  }

  // ---------------------------------------------------------------- scheduling

  lemma {:induction false} FreeAllRegistered(cfg: Config, b: Blocks, rs: seq<Request>, id: nat, prompt: seq<Token>)
    requires WellFormed(b) && id !in Ids(rs) && Registered(cfg, b, id, prompt)
    ensures Registered(cfg, FreeAll(b, rs), id, prompt)
    decreases |rs|
  {
    if rs != [] {
      var k := |rs| - 1;
      IdsOfLast(rs);
      FreeAllRegistered(cfg, b, rs[..k], id, prompt);
      LeavingKeeps(cfg, FreeAll(b, rs[..k]), rs[k].id, id, prompt);
    }
  }

  lemma SplitRegistered(cfg: Config, b: Blocks, rs: seq<Request>, keep: Request -> bool, gone: Request -> bool)
    requires WellFormed(b) && Distinct(rs) && AllRegistered(cfg, b, rs) && forall r :: r in rs ==> keep(r) != gone(r)
    ensures AllRegistered(cfg, FreeAll(b, Filter(rs, gone)), Filter(rs, keep))
  {
    FilterSplits(rs, keep, gone);
    forall r | r in Filter(rs, keep) ensures Registered(cfg, FreeAll(b, Filter(rs, gone)), r.id, r.prompt) {
      assert r.id in Ids(Filter(rs, keep));
      FreeAllRegistered(cfg, b, Filter(rs, gone), r.id, r.prompt);
    }
  }

  lemma TurnRegisters(cfg: Config, a: Admission, r: Request)
    requires WellFormed(a.blocks) && cfg.prefixCaching && r.id !in a.blocks.tables
    requires AllRegistered(cfg, a.blocks, a.running)
    ensures AllRegistered(cfg, AdmitOne(cfg, a, r).blocks, AdmitOne(cfg, a, r).running)
  {
    var n := AdmitOne(cfg, a, r);
    if Takes(cfg, a, r) {
      ArrivesRegistered(cfg, a.blocks, r.id, r.prompt);
      forall x | x in n.running ensures Registered(cfg, n.blocks, x.id, x.prompt) {
        if x in a.running { ArrivalKeeps(cfg, a.blocks, r.id, r.prompt, x.id, x.prompt); }
      }
    }
  }

  lemma {:induction false} LoopRegisters(cfg: Config, q: Queue, a: Admission, rs: seq<Request>, before: seq<Request>,
                                         decodes: nat)
    requires Admitting(cfg, q, a, [], before, decodes) && cfg.prefixCaching
    requires Distinct(rs) && Ids(rs) !! Ids(q.running) && forall r :: r in rs ==> Untouched(r)
    requires AllRegistered(cfg, a.blocks, a.running)
    ensures AllRegistered(cfg, AdmitAll(cfg, a, rs).blocks, AdmitAll(cfg, a, rs).running)
    decreases |rs|
  {
    if rs != [] {
      var front, last := rs[..|rs| - 1], rs[|rs| - 1];
      LastIsNew(rs, front, last, Ids(q.running));
      LoopRegisters(cfg, q, a, front, before, decodes);
      AdmitAllSteps(cfg, q, a, front, before, decodes);
      var mid := AdmitAll(cfg, a, front);
      assert last.id !in mid.blocks.tables;
      TurnRegisters(cfg, mid, last);
      assert AdmitAll(cfg, a, rs) == AdmitOne(cfg, mid, last);
    }
  }

  lemma PhaseRegisters(cfg: Config, q: Queue, b: Blocks)
    requires Shaped(q) && Backed(cfg, q.running, b) && Fits(cfg, q.running) && cfg.prefixCaching
    requires AllRegistered(cfg, b, q.running)
    ensures var a := AdmitPhase(cfg, q, b, PlanAfter(cfg, q.running));
      AllRegistered(cfg, a.blocks, a.running)
  {
    AdmissionStarts(cfg, q, b);
    if MayAdmit(cfg, q.running) {
      LoopRegisters(cfg, q, Admission(PlanAfter(cfg, q.running), [], q.running, [], b), q.waiting,
                    Filter(q.running, Prefilling), |Filter(q.running, Decoding)|);
    }
  }

  lemma ScheduleRegisters(cfg: Config, q: Queue, b: Blocks)
    requires Shaped(q) && Backed(cfg, q.running, b) && Fits(cfg, q.running) && cfg.prefixCaching
    requires AllRegistered(cfg, b, q.running)
    ensures AllRegistered(cfg, RunSchedule(cfg, q, b).1, RunSchedule(cfg, q, b).0.running)
  {
    var q1 := FinishPhase(q);
    FinishPhaseShaped(q);
    FinishPhaseBacked(cfg, q, b);
    ContinueNeverIgnores(cfg, q1.running);
    SplitRegistered(cfg, b, q.running, BelowLimit, ReachedLimit);
    PhaseRegisters(cfg, q1, FreeAll(b, Filter(q.running, ReachedLimit)));
  }

  // ---------------------------------------------------------------- blocks for the batch

  lemma SeqRegisters(cfg: Config, b: Blocks, r: Request, other: Request)
    requires Conserved(b) && cfg.prefixCaching && Lively(r) && Holds(cfg, b, r.id, KvLen(r), NextEnd(cfg, r))
    requires Registered(cfg, b, r.id, r.prompt) && Registered(cfg, b, other.id, other.prompt)
    ensures Registered(cfg, EnsureSeq(cfg, b, r).state, other.id, other.prompt)
  {
    LivelyCost(cfg, r);
    EnsureRangeKeeps(cfg, b, r.id, r.prompt, KvLen(r), NextEnd(cfg, r), other.id, other.prompt);
  }

  lemma {:induction false} BatchRegisters(cfg: Config, b: Blocks, rs: seq<Request>, batch: seq<Request>)
    requires rs <= batch && Distinct(batch) && Conserved(b) && Ready(cfg, b, batch) && cfg.prefixCaching
    requires AllRegistered(cfg, b, batch)
    ensures AllRegistered(cfg, EnsureAll(cfg, b, rs).state, batch)
    decreases |rs|
  {
    if rs != [] {
      var k := |rs| - 1;
      BatchRegisters(cfg, b, rs[..k], batch);
      EnsureAllLaw(cfg, b, rs[..k], batch);
      var o := EnsureAll(cfg, b, rs[..k]);
      assert rs[k] == batch[k];
      if o.Ok? { OneRegisters(cfg, o.state, rs[k], batch); }
    }
  }

  lemma OneRegisters(cfg: Config, b: Blocks, r: Request, batch: seq<Request>)
    requires Conserved(b) && Ready(cfg, b, batch) && cfg.prefixCaching && AllRegistered(cfg, b, batch) && r in batch
    ensures AllRegistered(cfg, EnsureSeq(cfg, b, r).state, batch)
  {
    forall x | x in batch ensures Registered(cfg, EnsureSeq(cfg, b, r).state, x.id, x.prompt) {
      SeqRegisters(cfg, b, r, x);
    }
  }

  // ---------------------------------------------------------------- events

  ghost predicate Remembered(cfg: Config, s: Engine) {
    cfg.prefixCaching ==> AllRegistered(cfg, s.blocks, s.queue.running)
  }

  lemma DropRemembers(cfg: Config, s: Engine, ids: set<nat>, status: Status)
    requires Inv(cfg, s) && Remembered(cfg, s)
    ensures Remembered(cfg, Drop(s, ids, status))
  {
    if cfg.prefixCaching { SplitRegistered(cfg, s.blocks, s.queue.running, NotInSet(ids), InSet(ids)); }
  }

  lemma PrepareRemembers(cfg: Config, s: Engine, expired: set<nat>)
    requires Inv(cfg, s) && Remembered(cfg, s)
    ensures Remembered(cfg, Prepare(cfg, s, expired).engine)
  {
    if cfg.prefixCaching {
      var s1 := Drop(s, expired, TimedOut);
      DropInv(cfg, s, expired, TimedOut);
      DropRemembers(cfg, s, expired, TimedOut);
      BatchOfScheduleRegisters(cfg, s1.queue, s1.blocks);
    }
  }

  lemma BatchOfScheduleRegisters(cfg: Config, q: Queue, b: Blocks)
    requires Shaped(q) && Backed(cfg, q.running, b) && Fits(cfg, q.running) && cfg.prefixCaching
    requires AllRegistered(cfg, b, q.running)
    ensures
      var (n, nb, sch) := RunSchedule(cfg, q, b);
      AllRegistered(cfg, EnsureAll(cfg, nb, BatchOf(sch)).state, n.running)
  {
    var (n, nb, sch) := RunSchedule(cfg, q, b);
    ScheduleLaw(cfg, q, b);
    ScheduleRegisters(cfg, q, b);
    BatchIsRunning(cfg, n, nb, sch);
    BatchRegisters(cfg, nb, BatchOf(sch), BatchOf(sch));
  }

  lemma AdvanceRemembers(cfg: Config, b: Blocks, rs: seq<Request>, batch: set<nat>, sample: nat -> Token)
    requires AllRegistered(cfg, b, rs)
    ensures AllRegistered(cfg, b, AdvanceAll(cfg, rs, batch, sample))
  {
    var ns := AdvanceAll(cfg, rs, batch, sample);
    forall r | r in ns ensures Registered(cfg, b, r.id, r.prompt) {
      var i :| 0 <= i < |ns| && ns[i] == r;
      assert rs[i] in rs;
    }
  }

  lemma StepRemembers(cfg: Config, s: Engine, expired: set<nat>, sample: nat -> Token)
    requires Inv(cfg, s) && Remembered(cfg, s)
    ensures Remembered(cfg, Step(cfg, s, expired, sample).engine)
  {
    var p := Prepare(cfg, s, expired);
    PrepareRemembers(cfg, s, expired);
    if cfg.prefixCaching && !p.oom {
      AdvanceRemembers(cfg, p.engine.blocks, p.engine.queue.running, Ids(BatchOf(p.schedule)), sample);
    }
  }

  /** Every event keeps every running request registered. */
  lemma ApplyRemembers(cfg: Config, s: Engine, e: Event)
    requires Inv(cfg, s) && Remembered(cfg, s)
    ensures Remembered(cfg, Apply(cfg, s, e))
  {
    match e
    case AddEvent(prompt, maxTokens) =>
    case CancelEvent(id) =>
      if id in Ids(s.queue.waiting) + Ids(s.queue.running) { DropRemembers(cfg, s, {id}, Cancelled); }
    case StepEvent(expired, sample) => StepRemembers(cfg, s, expired, sample);
  }

  lemma {:induction false} RunRemembers(cfg: Config, s: Engine, es: seq<Event>)
    requires Inv(cfg, s) && Remembered(cfg, s) && forall e :: e in es ==> Legal(e)
    ensures Inv(cfg, RunFrom(cfg, s, es)) && Remembered(cfg, RunFrom(cfg, s, es))
    decreases |es|
  {
    if es != [] {
      ApplyInv(cfg, s, es[0]);
      ApplyRemembers(cfg, s, es[0]);
      RunRemembers(cfg, Apply(cfg, s, es[0]), es[1..]);
    }
  }

  lemma Reached(cfg: Config, es: seq<Event>)
    requires cfg.prefixCaching && forall e :: e in es ==> Legal(e)
    ensures var s := RunFrom(cfg, Init(cfg), es);
      Inv(cfg, s) && AllRegistered(cfg, s.blocks, s.queue.running)
  {
    InitInv(cfg);
    RunRemembers(cfg, Init(cfg), es);
  }

  // ---------------------------------------------------------------- the hash lists

  /** Hashes are remembered for exactly the sequences that own a table, and not at all with prefix
      caching off. */
  ghost predicate Hashed(cfg: Config, b: Blocks) {
    b.hashes.Keys == if cfg.prefixCaching then b.tables.Keys else {}
  }

  lemma {:induction false} FreeAllHashed(cfg: Config, b: Blocks, rs: seq<Request>)
    requires WellFormed(b) && Hashed(cfg, b)
    ensures Hashed(cfg, FreeAll(b, rs))
    decreases |rs|
  {
    if rs != [] { FreeAllHashed(cfg, b, rs[..|rs| - 1]); }
  }

  lemma ArrivalHashed(cfg: Config, b: Blocks, id: nat, prompt: seq<Token>)
    requires WellFormed(b) && Hashed(cfg, b) && id !in b.tables
    ensures Hashed(cfg, AllocateForSeq(cfg, b, id, prompt))
  {
    if cfg.prefixCaching { ArrivesRegistered(cfg, b, id, prompt); }
  }

  lemma TurnHashed(cfg: Config, a: Admission, r: Request)
    requires WellFormed(a.blocks) && Hashed(cfg, a.blocks) && r.id !in a.blocks.tables
    ensures Hashed(cfg, AdmitOne(cfg, a, r).blocks)
  {
    ArrivalHashed(cfg, a.blocks, r.id, r.prompt);
  }

  lemma {:induction false} LoopHashed(cfg: Config, q: Queue, a: Admission, rs: seq<Request>, before: seq<Request>,
                                      decodes: nat)
    requires Admitting(cfg, q, a, [], before, decodes) && Hashed(cfg, a.blocks)
    requires Distinct(rs) && Ids(rs) !! Ids(q.running) && forall r :: r in rs ==> Untouched(r)
    ensures Hashed(cfg, AdmitAll(cfg, a, rs).blocks)
    decreases |rs|
  {
    if rs != [] {
      var front, last := rs[..|rs| - 1], rs[|rs| - 1];
      LastIsNew(rs, front, last, Ids(q.running));
      LoopHashed(cfg, q, a, front, before, decodes);
      AdmitAllSteps(cfg, q, a, front, before, decodes);
      var mid := AdmitAll(cfg, a, front);
      assert last.id !in mid.blocks.tables;
      TurnHashed(cfg, mid, last);
      assert AdmitAll(cfg, a, rs) == AdmitOne(cfg, mid, last);
    }
  }

  lemma ScheduleHashed(cfg: Config, q: Queue, b: Blocks)
    requires Shaped(q) && Backed(cfg, q.running, b) && Fits(cfg, q.running) && Hashed(cfg, b)
    ensures Hashed(cfg, RunSchedule(cfg, q, b).1)
  {
    var q1 := FinishPhase(q);
    var b1 := FreeAll(b, Filter(q.running, ReachedLimit));
    FinishPhaseShaped(q);
    FinishPhaseBacked(cfg, q, b);
    ContinueNeverIgnores(cfg, q1.running);
    FreeAllHashed(cfg, b, Filter(q.running, ReachedLimit));
    AdmissionStarts(cfg, q1, b1);
    LoopHashed(cfg, q1, Admission(PlanAfter(cfg, q1.running), [], q1.running, [], b1), q.waiting,
               Filter(q1.running, Prefilling), |Filter(q1.running, Decoding)|);
  }

  lemma {:induction false} GrowHashes(cfg: Config, b: Blocks, id: nat, prompt: seq<Token>, pos: nat)
    requires WellFormed(b) && id in b.tables
    ensures Grow(cfg, b, id, prompt, pos).state.hashes == b.hashes
    decreases pos / cfg.blockSize + 1 - |b.tables[id]|
  {
    if pos / cfg.blockSize >= |b.tables[id]| {
      var r := GrowOnce(cfg, b, id, prompt, pos);
      if r.Ok? { GrowHashes(cfg, r.state, id, prompt, pos); }
    }
  }

  lemma {:induction false} RangeHashed(cfg: Config, b: Blocks, id: nat, prompt: seq<Token>, from: nat, end: nat)
    requires WellFormed(b) && id in b.tables && from <= end
    ensures EnsureRange(cfg, b, id, prompt, from, end).state.hashes == b.hashes
    ensures EnsureRange(cfg, b, id, prompt, from, end).state.tables.Keys == b.tables.Keys
    decreases end - from
  {
    if from < end {
      GrowHashes(cfg, b, id, prompt, from);
      var r := EnsureBlock(cfg, b, id, prompt, from);
      if r.Ok? { RangeHashed(cfg, r.state, id, prompt, from + 1, end); }
    }
  }

  lemma {:induction false} BatchHashed(cfg: Config, b: Blocks, rs: seq<Request>)
    requires WellFormed(b) && Ids(rs) <= b.tables.Keys
    ensures EnsureAll(cfg, b, rs).state.hashes == b.hashes
    ensures EnsureAll(cfg, b, rs).state.tables.Keys == b.tables.Keys
    decreases |rs|
  {
    if rs != [] {
      var k := |rs| - 1;
      IdsOfLast(rs);
      BatchHashed(cfg, b, rs[..k]);
      var o := EnsureAll(cfg, b, rs[..k]);
      if o.Ok? && 0 <= KvLen(rs[k]) <= NextEnd(cfg, rs[k]) {
        RangeHashed(cfg, o.state, rs[k].id, rs[k].prompt, KvLen(rs[k]), NextEnd(cfg, rs[k]));
      }
    }
  }

  lemma StepHashed(cfg: Config, s: Engine, expired: set<nat>, sample: nat -> Token)
    requires Inv(cfg, s) && Hashed(cfg, s.blocks)
    ensures Hashed(cfg, Step(cfg, s, expired, sample).engine.blocks)
  {
    var s1 := Drop(s, expired, TimedOut);
    DropInv(cfg, s, expired, TimedOut);
    FreeAllHashed(cfg, s.blocks, Filter(s.queue.running, InSet(expired)));
    IterationHashed(cfg, s1.queue, s1.blocks);
  }

  lemma IterationHashed(cfg: Config, q: Queue, b: Blocks)
    requires Shaped(q) && Backed(cfg, q.running, b) && Fits(cfg, q.running) && Hashed(cfg, b)
    ensures var (n, nb, sch) := RunSchedule(cfg, q, b);
      Hashed(cfg, EnsureAll(cfg, nb, BatchOf(sch)).state)
  {
    var (n, nb, sch) := RunSchedule(cfg, q, b);
    ScheduleHashed(cfg, q, b);
    ScheduleLaw(cfg, q, b);
    BatchIsRunning(cfg, n, nb, sch);
    BatchHashed(cfg, nb, BatchOf(sch));
  }

  lemma ApplyHashed(cfg: Config, s: Engine, e: Event)
    requires Inv(cfg, s) && Hashed(cfg, s.blocks)
    ensures Hashed(cfg, Apply(cfg, s, e).blocks)
  {
    match e
    case AddEvent(prompt, maxTokens) =>
    case CancelEvent(id) => FreeAllHashed(cfg, s.blocks, Filter(s.queue.running, InSet({id})));
    case StepEvent(expired, sample) => StepHashed(cfg, s, expired, sample);
  }

  lemma {:induction false} RunHashed(cfg: Config, s: Engine, es: seq<Event>)
    requires Inv(cfg, s) && Hashed(cfg, s.blocks) && forall e :: e in es ==> Legal(e)
    ensures Inv(cfg, RunFrom(cfg, s, es)) && Hashed(cfg, RunFrom(cfg, s, es).blocks)
    decreases |es|
  {
    if es != [] {
      ApplyInv(cfg, s, es[0]);
      ApplyHashed(cfg, s, es[0]);
      RunHashed(cfg, Apply(cfg, s, es[0]), es[1..]);
    }
  }

  /** No hash list outlives its sequence: in every state of every run exactly the running requests
      have one with prefix caching on, and nobody with it off. */
  lemma HashesFollowTables(cfg: Config, es: seq<Event>)
    requires forall e :: e in es ==> Legal(e)
    ensures var s := RunFrom(cfg, Init(cfg), es);
      s.blocks.hashes.Keys == if cfg.prefixCaching then Ids(s.queue.running) else {}
  {
    InitInv(cfg);
    RunHashed(cfg, Init(cfg), es);
  }

  // ---------------------------------------------------------------- what every run gets from it

  lemma HitsInState(cfg: Config, s: Engine, r: Request, prompt: seq<Token>, k: nat)
    requires Inv(cfg, s) && cfg.prefixCaching && AllRegistered(cfg, s.blocks, s.queue.running)
    requires r in s.queue.running && k <= CeilDiv(Min(KvLen(r), |r.prompt|), cfg.blockSize)
    requires k <= CeilDiv(|prompt|, cfg.blockSize) && FirstBlocks(cfg, r.prompt, k) == FirstBlocks(cfg, prompt, k)
    ensures ProbedTokens(cfg, s.blocks, prompt) >= Min(k * cfg.blockSize, |prompt|)
  {
    CeilDivMono(Min(KvLen(r), |r.prompt|), KvLen(r), cfg.blockSize);
    CeilDivMono(Min(KvLen(r), |r.prompt|), |r.prompt|, cfg.blockSize);
    CommonPrefixIsFound(cfg, s.blocks, r.id, r.prompt, prompt, k);
  }

  /** Every prompt that starts like the processed part of a running request hits: whatever the run
      and the hash, a request that has `k` blocks of its prompt in the cache makes them usable for
      every prompt that begins with the same tokens. */
  lemma ProcessedPromptsHit(cfg: Config, es: seq<Event>, r: Request, prompt: seq<Token>, k: nat)
    requires cfg.prefixCaching && forall e :: e in es ==> Legal(e)
    requires r in RunFrom(cfg, Init(cfg), es).queue.running && k <= CeilDiv(Min(KvLen(r), |r.prompt|), cfg.blockSize)
    requires k <= CeilDiv(|prompt|, cfg.blockSize) && FirstBlocks(cfg, r.prompt, k) == FirstBlocks(cfg, prompt, k)
    ensures ProbedTokens(cfg, RunFrom(cfg, Init(cfg), es).blocks, prompt) >= Min(k * cfg.blockSize, |prompt|)
  {
    Reached(cfg, es);
    HitsInState(cfg, RunFrom(cfg, Init(cfg), es), r, prompt, k);
  }

  lemma AllBlocks(cfg: Config, prompt: seq<Token>) returns (k: nat)
    ensures k == CeilDiv(|prompt|, cfg.blockSize) && Min(k * cfg.blockSize, |prompt|) == |prompt|
  {
    CeilDivCovers(|prompt|, cfg.blockSize, -1);
    CeilDivCovers(|prompt|, cfg.blockSize, CeilDiv(|prompt|, cfg.blockSize));
    k := CeilDiv(|prompt|, cfg.blockSize);
  }

  /** In particular the whole prompt of a decoding request is found again. */
  lemma DecodedPromptIsCached(cfg: Config, es: seq<Event>, r: Request)
    requires cfg.prefixCaching && forall e :: e in es ==> Legal(e)
    requires r in RunFrom(cfg, Init(cfg), es).queue.running && r.status == Running
    ensures ProbedTokens(cfg, RunFrom(cfg, Init(cfg), es).blocks, r.prompt) == |r.prompt|
  {
    Reached(cfg, es);
    WholePromptHits(cfg, RunFrom(cfg, Init(cfg), es), r);
  }

  lemma WholePromptHits(cfg: Config, s: Engine, r: Request)
    requires Inv(cfg, s) && cfg.prefixCaching && AllRegistered(cfg, s.blocks, s.queue.running)
    requires r in s.queue.running && r.status == Running
    ensures ProbedTokens(cfg, s.blocks, r.prompt) == |r.prompt|
  {
    assert Lively(r);
    var k := AllBlocks(cfg, r.prompt);
    HitsInState(cfg, s, r, r.prompt, k);
  }

  /** Equal prompts are stored once: where two running requests begin with the same blocks, they
      hold the same physical blocks there. */
  lemma CommonPrefixIsShared(cfg: Config, es: seq<Event>, r: Request, x: Request, i: nat)
    requires cfg.prefixCaching && forall e :: e in es ==> Legal(e)
    requires r in RunFrom(cfg, Init(cfg), es).queue.running && x in RunFrom(cfg, Init(cfg), es).queue.running
    requires i < |BlockHashes(cfg, r.prompt)| && i < |BlockHashes(cfg, x.prompt)|
    requires BlockTokens(cfg, r.prompt, i) == BlockTokens(cfg, x.prompt, i)
    ensures
      var t := RunFrom(cfg, Init(cfg), es).blocks.tables;
      && r.id in t && x.id in t
      && (i < |t[r.id]| && i < |t[x.id]| ==> t[r.id][i].pid == t[x.id][i].pid)
  {
    var s := RunFrom(cfg, Init(cfg), es);
    Reached(cfg, es);
    BlockHashesAt(cfg, r.prompt, i);
    BlockHashesAt(cfg, x.prompt, i);
    assert Registered(cfg, s.blocks, r.id, r.prompt) && Registered(cfg, s.blocks, x.id, x.prompt);
    if i < |s.blocks.tables[r.id]| && i < |s.blocks.tables[x.id]| {
      EqualHashesShare(cfg, s.blocks, r.id, r.prompt, x.id, x.prompt, i, i);
    }
  }
}

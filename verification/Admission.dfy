/** The admission check in front of the engine, and what it guarantees: a request it accepts on an
    idle engine never runs out of blocks while it is alone. */
module AdmissionControl {
  import opened Base
  import opened BlockSpec
  import opened BlockCoverage
  import opened Requests
  import opened ScheduleSpec
  import opened EngineSpec
  import opened EngineLaws
  import opened StepLaws
  import opened Runs

  datatype Refusal = PromptTooLong | QueueOverflow | BlockExhausted

  datatype Limits = Limits(maxModelLen: int, maxQueueLen: int)

  /** Blocks for the whole life of the request, as the check estimates them. */
  function NeededBlocks(cfg: Config, promptLen: nat, maxTokens: int): int {
    (promptLen + maxTokens + cfg.blockSize - 1) / cfg.blockSize
  }

  /** One fifth of the pool is kept in reserve. */
  function Watermark(total: nat): nat { total / 5 }

  function Check(cfg: Config, limits: Limits, promptLen: nat, maxTokens: int, waiting: nat, total: nat,
                 free: nat): Option<Refusal> {
    if promptLen == 0 then Some(PromptTooLong)
    else if promptLen > limits.maxModelLen then Some(PromptTooLong)
    else if waiting >= limits.maxQueueLen then Some(QueueOverflow)
    else if free - NeededBlocks(cfg, promptLen, maxTokens) < Watermark(total) then Some(BlockExhausted)
    else None
  }

  // ---------------------------------------------------------------- a request on its own

  /** The most positions a request ever has in the cache when nothing of its prompt was cached
      before.  A request with a limit below one is retired after a single step. */
  function PeakPositions(cfg: Config, prompt: seq<Token>, maxTokens: int): int {
    if maxTokens >= 1 then |prompt| + maxTokens - 1 else Min(cfg.chunkSize, |prompt|)
  }

  predicate Is(r: Request, id: nat, prompt: seq<Token>, maxTokens: int) {
    r.id == id && r.prompt == prompt && r.maxTokens == maxTokens
  }

  predicate Only(rs: seq<Request>, id: nat, prompt: seq<Token>, maxTokens: int) {
    forall r :: r in rs ==> Is(r, id, prompt, maxTokens)
  }

  /** Nobody but this request waits or runs. */
  ghost predicate Alone(cfg: Config, s: Engine, id: nat, prompt: seq<Token>, maxTokens: int) {
    Inv(cfg, s) && Only(s.queue.waiting, id, prompt, maxTokens) && Only(s.queue.running, id, prompt, maxTokens)
  }

  lemma TwoAreNotDistinct(rs: seq<Request>, id: nat, prompt: seq<Token>, maxTokens: int)
    requires |rs| >= 2 && Only(rs, id, prompt, maxTokens)
    ensures !Distinct(rs)
  {
    assert rs[0] in rs && rs[1] in rs;
  }

  lemma AtMostOne(rs: seq<Request>, id: nat, prompt: seq<Token>, maxTokens: int)
    requires Distinct(rs) && Only(rs, id, prompt, maxTokens)
    ensures |rs| <= 1
  {
    if |rs| >= 2 { TwoAreNotDistinct(rs, id, prompt, maxTokens); }
  }

  lemma {:induction false} AdmitOnly(cfg: Config, a: Admission, rs: seq<Request>, id: nat, prompt: seq<Token>,
                                     maxTokens: int)
    requires WellFormed(a.blocks) && Only(rs, id, prompt, maxTokens)
    requires Only(a.running, id, prompt, maxTokens) && Only(a.kept, id, prompt, maxTokens)
    ensures Only(AdmitAll(cfg, a, rs).running, id, prompt, maxTokens)
    ensures Only(AdmitAll(cfg, a, rs).kept, id, prompt, maxTokens)
    decreases |rs|
  {
    if rs != [] {
      var k := |rs| - 1;
      AdmitOnly(cfg, a, rs[..k], id, prompt, maxTokens);
      AdmitOneOnly(cfg, AdmitAll(cfg, a, rs[..k]), rs[k], id, prompt, maxTokens);
    }
  }

  lemma AdmitOneOnly(cfg: Config, a: Admission, r: Request, id: nat, prompt: seq<Token>, maxTokens: int)
    requires WellFormed(a.blocks) && Is(r, id, prompt, maxTokens)
    requires Only(a.running, id, prompt, maxTokens) && Only(a.kept, id, prompt, maxTokens)
    ensures Only(AdmitOne(cfg, a, r).running, id, prompt, maxTokens)
    ensures Only(AdmitOne(cfg, a, r).kept, id, prompt, maxTokens)
  {
  }

  lemma ScheduleOnly(cfg: Config, q: Queue, b: Blocks, id: nat, prompt: seq<Token>, maxTokens: int)
    requires WellFormed(b) && Only(q.waiting, id, prompt, maxTokens) && Only(q.running, id, prompt, maxTokens)
    ensures Only(RunSchedule(cfg, q, b).0.waiting, id, prompt, maxTokens)
    ensures Only(RunSchedule(cfg, q, b).0.running, id, prompt, maxTokens)
  {
    var q1 := FinishPhase(q);
    var b1 := FreeAll(b, Filter(q.running, ReachedLimit));
    AdmitOnly(cfg, Admission(ContinuePlan(cfg, q1.running), [], q1.running, [], b1), q.waiting, id, prompt,
              maxTokens);
  }

  lemma AdvanceOnly(cfg: Config, rs: seq<Request>, batch: set<nat>, sample: nat -> Token, id: nat,
                    prompt: seq<Token>, maxTokens: int)
    requires Only(rs, id, prompt, maxTokens)
    ensures Only(AdvanceAll(cfg, rs, batch, sample), id, prompt, maxTokens)
  {
    var ns := AdvanceAll(cfg, rs, batch, sample);
    forall r | r in ns ensures Is(r, id, prompt, maxTokens) {
      var i :| 0 <= i < |ns| && ns[i] == r;
      assert rs[i] in rs;
    }
  }

  lemma PrepareOnly(cfg: Config, s: Engine, expired: set<nat>, id: nat, prompt: seq<Token>, maxTokens: int)
    requires WellFormed(s.blocks) && Only(s.queue.waiting, id, prompt, maxTokens)
    requires Only(s.queue.running, id, prompt, maxTokens)
    ensures Only(Prepare(cfg, s, expired).engine.queue.waiting, id, prompt, maxTokens)
    ensures Only(Prepare(cfg, s, expired).engine.queue.running, id, prompt, maxTokens)
  {
    var s1 := Drop(s, expired, TimedOut);
    ScheduleOnly(cfg, s1.queue, s1.blocks, id, prompt, maxTokens);
  }

  lemma StepOnly(cfg: Config, s: Engine, expired: set<nat>, sample: nat -> Token, id: nat, prompt: seq<Token>,
                 maxTokens: int)
    requires WellFormed(s.blocks) && Only(s.queue.waiting, id, prompt, maxTokens)
    requires Only(s.queue.running, id, prompt, maxTokens)
    ensures Only(Step(cfg, s, expired, sample).engine.queue.waiting, id, prompt, maxTokens)
    ensures Only(Step(cfg, s, expired, sample).engine.queue.running, id, prompt, maxTokens)
  {
    var p := Prepare(cfg, s, expired);
    PrepareOnly(cfg, s, expired, id, prompt, maxTokens);
    AdvanceOnly(cfg, p.engine.queue.running, Ids(BatchOf(p.schedule)), sample, id, prompt, maxTokens);
  }

  /** Alone stays alone. */
  lemma StepAlone(cfg: Config, s: Engine, expired: set<nat>, sample: nat -> Token, id: nat, prompt: seq<Token>,
                  maxTokens: int)
    requires Alone(cfg, s, id, prompt, maxTokens)
    ensures Alone(cfg, Step(cfg, s, expired, sample).engine, id, prompt, maxTokens)
  {
    StepInv(cfg, s, expired, sample);
    StepOnly(cfg, s, expired, sample, id, prompt, maxTokens);
  }

  // ---------------------------------------------------------------- how far it reaches

  /** On an idle engine no cached block is usable. */
  lemma NothingUsable(b: Blocks, hs: seq<int>)
    requires Conserved(b) && b.tables == map[]
    ensures Probe(b, hs) == []
  {
    NoTablesAllFree(b);
  }

  /** A request admitted on an idle engine starts at the beginning of its prompt. */
  lemma AdmittedFresh(cfg: Config, a: Admission, w: Request)
    requires Conserved(a.blocks) && a.blocks.tables == map[] && Untouched(w) && a.running == []
    ensures forall r :: r in AdmitOne(cfg, a, w).running ==> r.status == Prefill && r.cursor == 0
  {
    NothingUsable(a.blocks, BlockHashes(cfg, w.prompt));
  }

  /** A limit below one is reached at once: the finish check leaves nobody running. */
  lemma NobodyKept(cfg: Config, q: Queue, b: Blocks)
    requires Shaped(q) && Backed(cfg, q.running, b) && forall r :: r in q.running ==> r.maxTokens < 1
    ensures FinishPhase(q).running == []
    ensures Conserved(FreeAll(b, Filter(q.running, ReachedLimit)))
    ensures FreeAll(b, Filter(q.running, ReachedLimit)).tables == map[]
  {
    forall x | x in q.running ensures !BelowLimit(x) && ReachedLimit(x) {
      assert Lively(x);
    }
    FilterNone(q.running, BelowLimit);
    FilterAll(q.running, ReachedLimit);
    FreeAllLaw(cfg, b, q.running);
    assert FreeAll(b, q.running).tables.Keys == {};
  }

  /** So only requests at the beginning of their prompt are in a batch. */
  lemma FreshStart(cfg: Config, q: Queue, b: Blocks, id: nat, prompt: seq<Token>, maxTokens: int, r: Request)
    requires Shaped(q) && Backed(cfg, q.running, b)
    requires Only(q.waiting, id, prompt, maxTokens) && Only(q.running, id, prompt, maxTokens)
    requires maxTokens < 1 && r in RunSchedule(cfg, q, b).0.running
    ensures r.status == Prefill && r.cursor == 0
  {
    var q1 := FinishPhase(q);
    var b1 := FreeAll(b, Filter(q.running, ReachedLimit));
    NobodyKept(cfg, q, b);
    AtMostOne(q.waiting, id, prompt, maxTokens);
    var a0 := Admission(ContinuePlan(cfg, q1.running), [], q1.running, [], b1);
    if |q.waiting| == 1 { LoneAdmission(cfg, a0, q.waiting); }
  }

  lemma LoneAdmission(cfg: Config, a: Admission, rs: seq<Request>)
    requires Conserved(a.blocks) && a.blocks.tables == map[] && a.running == [] && |rs| == 1
    requires forall r :: r in rs ==> Untouched(r)
    ensures forall r :: r in AdmitAll(cfg, a, rs).running ==> r.status == Prefill && r.cursor == 0
  {
    assert rs[..0] == [] && rs[0] in rs;
    assert AdmitAll(cfg, a, []) == a;
    AdmittedFresh(cfg, a, rs[0]);
  }

  /** No step of the lone request writes past its peak. */
  lemma ReachOfStep(cfg: Config, q: Queue, b: Blocks, id: nat, prompt: seq<Token>, maxTokens: int, r: Request)
    requires Shaped(q) && Backed(cfg, q.running, b) && Fits(cfg, q.running)
    requires Only(q.waiting, id, prompt, maxTokens) && Only(q.running, id, prompt, maxTokens)
    requires r in RunSchedule(cfg, q, b).0.running
    ensures NextEnd(cfg, r) <= PeakPositions(cfg, prompt, maxTokens)
  {
    ScheduleLaw(cfg, q, b);
    ScheduleOnly(cfg, q, b, id, prompt, maxTokens);
    assert Is(r, id, prompt, maxTokens) && Lively(r) && r.generated < Max(r.maxTokens, 1);
    LivelyCost(cfg, r);
    if maxTokens < 1 { FreshStart(cfg, q, b, id, prompt, maxTokens, r); }
  }

  // ---------------------------------------------------------------- enough blocks

  /** With one table in a pool that spans `end` positions, growing to them always succeeds. */
  lemma {:induction false} RangeFits(cfg: Config, b: Blocks, id: nat, prompt: seq<Token>, start: nat, end: nat)
    requires Conserved(b) && b.tables.Keys == {id} && start <= end && CeilDiv(end, cfg.blockSize) <= |b.pool.refs|
    requires CeilDiv(start, cfg.blockSize) <= |b.tables[id]|
    ensures EnsureRange(cfg, b, id, prompt, start, end).Ok?
    decreases end - start
  {
    if start < end {
      var next := start + 1;
      BlockFits(cfg, b, id, prompt, start, end);
      EnsureBlockLaw(cfg, b, id, prompt, start);
      EnsureBlockConserves(cfg, b, id, prompt, start);
      RangeFits(cfg, EnsureBlock(cfg, b, id, prompt, start).state, id, prompt, next, end);
    }
  }

  lemma BlockFits(cfg: Config, b: Blocks, id: nat, prompt: seq<Token>, pos: nat, end: nat)
    requires Conserved(b) && b.tables.Keys == {id} && pos < end && CeilDiv(end, cfg.blockSize) <= |b.pool.refs|
    requires CeilDiv(pos, cfg.blockSize) <= |b.tables[id]|
    ensures EnsureBlock(cfg, b, id, prompt, pos).Ok?
  {
    var bs := cfg.blockSize;
    NextBlockOnly(pos, bs, |b.tables[id]|);
    CeilDivMono(pos + 1, end, bs);
    if pos / bs >= |b.tables[id]| {
      OneTableOom(cfg, b, id, prompt, pos);
      var once := GrowOnce(cfg, b, id, prompt, pos);
      assert Grow(cfg, once.state, id, prompt, pos) == once;
    }
  }

  lemma LoneScheduleFits(cfg: Config, q: Queue, b: Blocks, sch: Schedule, id: nat, prompt: seq<Token>,
                         maxTokens: int, peak: int)
    requires Scheduled(cfg, q, b, sch) && Only(q.running, id, prompt, maxTokens)
    requires CeilDiv(peak, cfg.blockSize) <= cfg.numBlocks && forall r :: r in q.running ==> NextEnd(cfg, r) <= peak
    ensures EnsureAll(cfg, b, BatchOf(sch)).Ok?
  {
    BatchIsRunning(cfg, q, b, sch);
    var batch := BatchOf(sch);
    AtMostOne(batch, id, prompt, maxTokens);
    if |batch| == 1 {
      var r := batch[0];
      assert batch == [r] && r in q.running;
      assert Ids(batch) == {r.id};
      LoneBatchFits(cfg, b, batch, r, peak);
    }
  }

  /** Alone, and with a pool that spans its peak, a request never runs out of blocks. */
  lemma NeverOutOfBlocks(cfg: Config, s: Engine, expired: set<nat>, sample: nat -> Token, id: nat,
                         prompt: seq<Token>, maxTokens: int)
    requires Alone(cfg, s, id, prompt, maxTokens)
    requires CeilDiv(PeakPositions(cfg, prompt, maxTokens), cfg.blockSize) <= cfg.numBlocks
    ensures !Step(cfg, s, expired, sample).oom
  {
    DropInv(cfg, s, expired, TimedOut);
    LoneIteration(cfg, Drop(s, expired, TimedOut), id, prompt, maxTokens);
  }

  /** A scheduling iteration of a lone request leaves a batch that gets its blocks. */
  lemma LoneIteration(cfg: Config, s: Engine, id: nat, prompt: seq<Token>, maxTokens: int)
    requires Alone(cfg, s, id, prompt, maxTokens)
    requires CeilDiv(PeakPositions(cfg, prompt, maxTokens), cfg.blockSize) <= cfg.numBlocks
    ensures var (q, b, sch) := RunSchedule(cfg, s.queue, s.blocks); EnsureAll(cfg, b, BatchOf(sch)).Ok?
  {
    var peak := PeakPositions(cfg, prompt, maxTokens);
    ScheduleLaw(cfg, s.queue, s.blocks);
    var (q, b, sch) := RunSchedule(cfg, s.queue, s.blocks);
    ScheduleOnly(cfg, s.queue, s.blocks, id, prompt, maxTokens);
    forall r | r in q.running ensures NextEnd(cfg, r) <= peak {
      ReachOfStep(cfg, s.queue, s.blocks, id, prompt, maxTokens, r);
    }
    LoneScheduleFits(cfg, q, b, sch, id, prompt, maxTokens, peak);
  }

  lemma LoneBatchFits(cfg: Config, b: Blocks, batch: seq<Request>, r: Request, peak: int)
    requires Conserved(b) && |b.pool.refs| == cfg.numBlocks && batch == [r] && b.tables.Keys == {r.id} && Lively(r)
    requires Holds(cfg, b, r.id, KvLen(r), NextEnd(cfg, r)) && NextEnd(cfg, r) <= peak
    requires CeilDiv(peak, cfg.blockSize) <= cfg.numBlocks
    ensures EnsureAll(cfg, b, batch).Ok?
  {
    LivelyCost(cfg, r);
    CeilDivMono(NextEnd(cfg, r), peak, cfg.blockSize);
    RangeFits(cfg, b, r.id, r.prompt, KvLen(r), NextEnd(cfg, r));
    assert batch[..0] == [];
    assert EnsureAll(cfg, b, []) == Ok(b);
  }

  // ---------------------------------------------------------------- what acceptance means

  /** Accepting a request with a limit of at least zero leaves enough blocks for all it can reach. */
  lemma AcceptedFits(cfg: Config, limits: Limits, prompt: seq<Token>, maxTokens: int, waiting: nat, free: nat)
    requires Check(cfg, limits, |prompt|, maxTokens, waiting, cfg.numBlocks, free).None? && free <= cfg.numBlocks
    requires maxTokens >= 0
    ensures CeilDiv(PeakPositions(cfg, prompt, maxTokens), cfg.blockSize) <= cfg.numBlocks
  {
    CeilDivMono(PeakPositions(cfg, prompt, maxTokens), |prompt| + maxTokens, cfg.blockSize);
  }

  /** Steps only, and none of them runs out of blocks. */
  ghost predicate Smooth(cfg: Config, s: Engine, es: seq<Event>)
    requires WellFormed(s.blocks)
    decreases |es|
  {
    es == [] ||
      (&& es[0].StepEvent?
       && !Step(cfg, s, es[0].expired, es[0].sample).oom
       && Smooth(cfg, Apply(cfg, s, es[0]), es[1..]))
  }

  lemma {:induction false} AloneIsSmooth(cfg: Config, s: Engine, es: seq<Event>, id: nat, prompt: seq<Token>,
                                         maxTokens: int)
    requires Alone(cfg, s, id, prompt, maxTokens) && forall e :: e in es ==> e.StepEvent?
    requires CeilDiv(PeakPositions(cfg, prompt, maxTokens), cfg.blockSize) <= cfg.numBlocks
    ensures Smooth(cfg, s, es)
    decreases |es|
  {
    if es != [] {
      var e, rest := es[0], es[1..];
      assert e in es && forall x :: x in rest ==> x in es;
      NeverOutOfBlocks(cfg, s, e.expired, e.sample, id, prompt, maxTokens);
      StepAlone(cfg, s, e.expired, e.sample, id, prompt, maxTokens);
      var n := Step(cfg, s, e.expired, e.sample).engine;
      AloneIsSmooth(cfg, n, rest, id, prompt, maxTokens);
      SmoothFrom(cfg, s, es, n, rest);
    }
  }

  lemma SmoothFrom(cfg: Config, s: Engine, es: seq<Event>, n: Engine, rest: seq<Event>)
    requires WellFormed(s.blocks) && es != [] && es[0].StepEvent? && rest == es[1..]
    requires n == Step(cfg, s, es[0].expired, es[0].sample).engine && !Step(cfg, s, es[0].expired, es[0].sample).oom
    ensures WellFormed(n.blocks) && (Smooth(cfg, s, es) <==> Smooth(cfg, n, rest))
  {
  }

  /** If the check accepts a request with a limit of at least zero while nothing waits or runs,
      then in the whole run of that request alone no step runs out of blocks. */
  lemma AcceptedNeverOutOfBlocks(cfg: Config, limits: Limits, s: Engine, prompt: seq<Token>, maxTokens: int,
                                 es: seq<Event>)
    requires Inv(cfg, s) && s.queue.waiting == [] && s.queue.running == []
    requires Check(cfg, limits, |prompt|, maxTokens, 0, |s.blocks.pool.free|, |FreeIds(s.blocks.pool.free, 0)|).None?
    requires maxTokens >= 0 && forall e :: e in es ==> e.StepEvent?
    ensures Smooth(cfg, AddRequest(s, prompt, maxTokens), es)
  {
    FreeCount(s.blocks.pool.free, 0);
    AcceptedFits(cfg, limits, prompt, maxTokens, 0, |FreeIds(s.blocks.pool.free, 0)|);
    AddInv(cfg, s, prompt, maxTokens);
    AloneIsSmooth(cfg, AddRequest(s, prompt, maxTokens), es, s.nextId, prompt, maxTokens);
  }

  lemma {:induction false} FreeCount(free: seq<bool>, i: nat)
    requires i <= |free|
    ensures |FreeIds(free, i)| <= |free| - i
    decreases |free| - i
  {
    if i < |free| { FreeCount(free, i + 1); }
  }

  // ---------------------------------------------------------------- the exact condition

  /** Without sharing, a table is never longer than the pool. */
  lemma TableFits(cfg: Config, b: Blocks, id: nat)
    requires Conserved(b) && Exclusive(b) && id in b.tables
    ensures |b.tables[id]| <= |b.pool.refs|
  {
    var es := b.tables[id];
    forall i, j | 0 <= i < j < |es| ensures es[i].pid != es[j].pid {
      if es[i].pid == es[j].pid { EntriesDistinct(b, id, i, id, j); }
    }
    PidsOf(es, |es|);
    var used := set i | 0 <= i < |es| :: es[i].pid;
    SubsetSize(used, Below(|b.pool.refs|));
  }

  lemma {:induction false} PidsOf(es: seq<Entry>, k: nat)
    requires k <= |es| && forall i, j :: 0 <= i < j < |es| ==> es[i].pid != es[j].pid
    ensures |set i | 0 <= i < k :: es[i].pid| == k
  {
    if k > 0 {
      PidsOf(es, k - 1);
      OneMorePid(es, k - 1);
    }
  }

  lemma OneMorePid(es: seq<Entry>, k: nat)
    requires k < |es| && forall i, j :: 0 <= i < j < |es| ==> es[i].pid != es[j].pid
    ensures (set i | 0 <= i < k + 1 :: es[i].pid) == (set i | 0 <= i < k :: es[i].pid) + {es[k].pid}
    ensures es[k].pid !in (set i | 0 <= i < k :: es[i].pid)
  {
  }

  /** What a running request has cached fits into the pool. */
  lemma CachedFits(cfg: Config, s: Engine, r: Request)
    requires Inv(cfg, s) && !cfg.prefixCaching && r in s.queue.running
    ensures CeilDiv(KvLen(r), cfg.blockSize) <= cfg.numBlocks
  {
    TableFits(cfg, s.blocks, r.id);
  }

  ghost predicate FinishedIn(q: Queue, id: nat) { exists r :: r in q.finished && r.id == id && r.status == Finished }

  /** A request that a step finishes had its whole peak in the cache. */
  lemma FinishingFits(cfg: Config, s: Engine, expired: set<nat>, sample: nat -> Token, id: nat, prompt: seq<Token>,
                      maxTokens: int)
    requires Alone(cfg, s, id, prompt, maxTokens) && !cfg.prefixCaching && maxTokens >= 1
    requires !FinishedIn(s.queue, id) && FinishedIn(Step(cfg, s, expired, sample).engine.queue, id)
    ensures CeilDiv(PeakPositions(cfg, prompt, maxTokens), cfg.blockSize) <= cfg.numBlocks
  {
    var r :| r in Step(cfg, s, expired, sample).engine.queue.finished && r.id == id && r.status == Finished;
    var x := FinishedFrom(cfg, s, expired, r);
    assert Is(x, id, prompt, maxTokens) && Lively(x);
    CachedFits(cfg, s, x);
    CeilDivMono(PeakPositions(cfg, prompt, maxTokens), KvLen(x), cfg.blockSize);
  }

  /** Where a newly finished request comes from. */
  lemma FinishedFrom(cfg: Config, s: Engine, expired: set<nat>, r: Request) returns (x: Request)
    requires WellFormed(s.blocks) && Shaped(s.queue) && r.status == Finished && r !in s.queue.finished
    requires r in Prepare(cfg, s, expired).engine.queue.finished
    ensures x in s.queue.running && ReachedLimit(x) && r == x.(status := Finished)
  {
    var s1 := Drop(s, expired, TimedOut);
    var done := Filter(s1.queue.running, ReachedLimit);
    var others := DropFinishes(s, expired);
    ScheduleFinishes(cfg, s1.queue, s1.blocks);
    assert r in AllWithStatus(done, Finished);
    var i :| 0 <= i < |done| && AllWithStatus(done, Finished)[i] == r;
    x := done[i];
    assert x in s1.queue.running;
  }

  lemma {:induction false} RunFinishingFits(cfg: Config, s: Engine, es: seq<Event>, id: nat, prompt: seq<Token>,
                                            maxTokens: int)
    requires Alone(cfg, s, id, prompt, maxTokens) && !cfg.prefixCaching && maxTokens >= 1
    requires (forall e :: e in es ==> e.StepEvent?) && !FinishedIn(s.queue, id)
    requires FinishedIn(RunFrom(cfg, s, es).queue, id)
    ensures CeilDiv(PeakPositions(cfg, prompt, maxTokens), cfg.blockSize) <= cfg.numBlocks
    decreases |es|
  {
    var e, rest := es[0], es[1..];
    assert e in es && forall x :: x in rest ==> x in es;
    var n := Step(cfg, s, e.expired, e.sample).engine;
    FirstOfRun(cfg, s, es, n);
    if FinishedIn(n.queue, id) {
      FinishingFits(cfg, s, e.expired, e.sample, id, prompt, maxTokens);
    } else {
      StepAlone(cfg, s, e.expired, e.sample, id, prompt, maxTokens);
      RunFinishingFits(cfg, n, rest, id, prompt, maxTokens);
    }
  }

  lemma FirstOfRun(cfg: Config, s: Engine, es: seq<Event>, n: Engine)
    requires WellFormed(s.blocks) && es != [] && es[0].StepEvent?
    requires n == Step(cfg, s, es[0].expired, es[0].sample).engine
    ensures RunFrom(cfg, s, es) == RunFrom(cfg, n, es[1..])
  {
  }

  lemma {:induction false} SmoothIsUndisturbed(cfg: Config, s: Engine, es: seq<Event>, id: nat)
    requires Inv(cfg, s) && Smooth(cfg, s, es) && forall e :: e in es ==> e.StepEvent? && id !in e.expired
    ensures Undisturbed(cfg, s, es, id) && CountSteps(es) == |es|
    decreases |es|
  {
    if es != [] {
      assert es[0] in es;
      var n := Apply(cfg, s, es[0]);
      ApplyInv(cfg, s, es[0]);
      FirstUndisturbed(cfg, s, es, n, es[1..], id);
      SmoothIsUndisturbed(cfg, n, es[1..], id);
    }
  }

  lemma FirstUndisturbed(cfg: Config, s: Engine, es: seq<Event>, n: Engine, rest: seq<Event>, id: nat)
    requires WellFormed(s.blocks) && Smooth(cfg, s, es) && es != [] && es[0].StepEvent? && id !in es[0].expired
    requires n == Apply(cfg, s, es[0]) && rest == es[1..]
    ensures WellFormed(n.blocks) && Smooth(cfg, n, rest)
    ensures Undisturbed(cfg, n, rest, id) ==> Undisturbed(cfg, s, es, id)
    ensures CountSteps(es) == 1 + CountSteps(rest)
  {
  }

  /** Without prefix caching, a request running alone, never timed out and given enough steps
      finishes if and only if the pool spans its peak.  With a limit of at least one the check
      guarantees exactly that. */
  lemma FinishesIffPoolSpansPeak(cfg: Config, s: Engine, es: seq<Event>, r: Request)
    requires Alone(cfg, s, r.id, r.prompt, r.maxTokens) && r in s.queue.running && !cfg.prefixCaching
    requires r.maxTokens >= 1
    requires (forall e :: e in es ==> e.StepEvent? && r.id !in e.expired) && |es| >= StepsToFinish(cfg, r)
    ensures FinishedIn(RunFrom(cfg, s, es).queue, r.id)
       <==> CeilDiv(PeakPositions(cfg, r.prompt, r.maxTokens), cfg.blockSize) <= cfg.numBlocks
  {
    assert !FinishedIn(s.queue, r.id) by { assert r.id in Ids(s.queue.running); }
    if CeilDiv(PeakPositions(cfg, r.prompt, r.maxTokens), cfg.blockSize) <= cfg.numBlocks {
      AloneIsSmooth(cfg, s, es, r.id, r.prompt, r.maxTokens);
      SmoothIsUndisturbed(cfg, s, es, r.id);
      var n := ExactProgress(cfg, s, es, r);
      assert n.status == Finished && n in RunFrom(cfg, s, es).queue.finished;
    } else if FinishedIn(RunFrom(cfg, s, es).queue, r.id) {
      RunFinishingFits(cfg, s, es, r.id, r.prompt, r.maxTokens);
    }
  }

  // ---------------------------------------------------------------- from submission to the end

  ghost predicate AllSteps(es: seq<Event>) { forall e :: e in es ==> e.StepEvent? }

  /** The lone request fits the pool, whatever steps follow. */
  ghost predicate NeverRunsOut(cfg: Config, s: Engine)
    requires WellFormed(s.blocks)
  {
    forall es: seq<Event> :: AllSteps(es) ==> Smooth(cfg, s, es)
  }

  function QuietStep(): Event { StepEvent({}, (id: nat) => 0) }

  function QuietSteps(n: nat): (es: seq<Event>)
    ensures |es| == n && forall e :: e in es ==> e == QuietStep()
  {
    seq(n, i => QuietStep())
  }

  /** With chunks that fit the budgets, an idle engine takes its only request in the first step. */
  lemma FirstStepAdmits(cfg: Config, q: Queue, b: Blocks, w: Request)
    requires WellFormed(b) && !cfg.prefixCaching && q.running == [] && q.waiting == [w] && Untouched(w)
    requires cfg.chunkedPrefill && cfg.chunkSize <= Min(cfg.maxNumPrefillTokens, cfg.maxNumBatchedTokens)
    ensures RunSchedule(cfg, q, b).0.running == [w.(status := Prefill)]
    ensures RunSchedule(cfg, q, b).0.waiting == []
  {
    var q1 := FinishPhase(q);
    assert Filter([], Decoding) == [] && Filter([], Prefilling) == [];
    var p := ContinuePlan(cfg, q1.running);
    assert p == StartPlan(cfg, 0);
    var a0 := Admission(p, [], [], [], FreeAll(b, []));
    assert q.waiting[..0] == [] && AdmitAll(cfg, a0, []) == a0;
    assert AdmitAll(cfg, a0, q.waiting) == AdmitOne(cfg, a0, w);
  }

  /** After a first step that did not run out of blocks, the only request is running alone, and its
      first chunk is in the cache. */
  lemma AfterFirstStep(cfg: Config, s: Engine, w: Request) returns (r: Request)
    requires Alone(cfg, s, w.id, w.prompt, w.maxTokens) && !cfg.prefixCaching && s.queue.running == []
    requires s.queue.waiting == [w]
    requires cfg.chunkedPrefill && cfg.chunkSize <= Min(cfg.maxNumPrefillTokens, cfg.maxNumBatchedTokens)
    requires !Step(cfg, s, {}, QuietStep().sample).oom
    ensures r in Step(cfg, s, {}, QuietStep().sample).engine.queue.running && Is(r, w.id, w.prompt, w.maxTokens)
    ensures KvLen(r) == Min(cfg.chunkSize, |w.prompt|)
  {
    var sample := QuietStep().sample;
    var s1 := Drop(s, {}, TimedOut);
    var p := Prepare(cfg, s, {});
    var x := w.(status := Prefill);
    DropNobody(s);
    assert Untouched(w);
    FirstStepAdmits(cfg, s1.queue, s1.blocks, w);
    PrepareLaw(cfg, s, {});
    BatchIsRunning(cfg, p.engine.queue, p.engine.blocks, p.schedule);
    assert x in p.engine.queue.running;
    AdvancedIn(cfg, p.engine.queue.running, sample, x);
    AdvanceLaw(cfg, x, sample(x.id));
    r := Advance(cfg, x, sample(x.id));
  }

  lemma DropNobody(s: Engine)
    requires WellFormed(s.blocks) && s.queue.running == []
    ensures Drop(s, {}, TimedOut).queue.waiting == s.queue.waiting && Drop(s, {}, TimedOut).queue.running == []
  {
    FilterAll(s.queue.waiting, NotInSet({}));
  }

  /** A lone request that never runs out of blocks has a peak the pool spans. */
  lemma SmoothMustFit(cfg: Config, s: Engine, w: Request)
    requires Alone(cfg, s, w.id, w.prompt, w.maxTokens) && !cfg.prefixCaching && s.queue.running == []
    requires s.queue.waiting == [w]
    requires cfg.chunkedPrefill && cfg.chunkSize <= Min(cfg.maxNumPrefillTokens, cfg.maxNumBatchedTokens)
    requires NeverRunsOut(cfg, s)
    ensures CeilDiv(PeakPositions(cfg, w.prompt, w.maxTokens), cfg.blockSize) <= cfg.numBlocks
  {
    var sample := QuietStep().sample;
    var n := Step(cfg, s, {}, sample).engine;
    FirstIsSmooth(cfg, s);
    var r := AfterFirstStep(cfg, s, w);
    StepAlone(cfg, s, {}, sample, w.id, w.prompt, w.maxTokens);
    if w.maxTokens < 1 {
      CachedFits(cfg, n, r);
    } else {
      LongRunFits(cfg, s, n, r);
    }
  }

  lemma FirstIsSmooth(cfg: Config, s: Engine)
    requires WellFormed(s.blocks) && NeverRunsOut(cfg, s)
    ensures !Step(cfg, s, {}, QuietStep().sample).oom
  {
    assert AllSteps([QuietStep()]) && Smooth(cfg, s, [QuietStep()]);
  }

  lemma LongRunFits(cfg: Config, s: Engine, n: Engine, r: Request)
    requires WellFormed(s.blocks) && NeverRunsOut(cfg, s) && n == Step(cfg, s, {}, QuietStep().sample).engine
    requires Alone(cfg, n, r.id, r.prompt, r.maxTokens) && !cfg.prefixCaching && r in n.queue.running
    requires r.maxTokens >= 1
    ensures CeilDiv(PeakPositions(cfg, r.prompt, r.maxTokens), cfg.blockSize) <= cfg.numBlocks
  {
    var es := QuietSteps(Max(StepsToFinish(cfg, r), 0));
    SmoothTail(cfg, s, es, n);
    SmoothRunFits(cfg, n, es, r);
  }

  lemma SmoothTail(cfg: Config, s: Engine, es: seq<Event>, n: Engine)
    requires WellFormed(s.blocks) && NeverRunsOut(cfg, s) && AllSteps(es)
    requires n == Step(cfg, s, {}, QuietStep().sample).engine
    ensures Smooth(cfg, n, es)
  {
    var all := [QuietStep()] + es;
    FirstIsSmooth(cfg, s);
    assert AllSteps(all);
    SmoothAll(cfg, s, all);
    assert all[1..] == es;
    SmoothFrom(cfg, s, all, n, es);
  }

  lemma SmoothAll(cfg: Config, s: Engine, es: seq<Event>)
    requires WellFormed(s.blocks) && NeverRunsOut(cfg, s) && AllSteps(es)
    ensures Smooth(cfg, s, es)
  {
  }

  lemma SmoothRunFits(cfg: Config, n: Engine, es: seq<Event>, r: Request)
    requires Alone(cfg, n, r.id, r.prompt, r.maxTokens) && !cfg.prefixCaching && r in n.queue.running
    requires r.maxTokens >= 1
    requires Smooth(cfg, n, es) && (forall e :: e in es ==> e.StepEvent? && r.id !in e.expired)
    requires |es| >= StepsToFinish(cfg, r)
    ensures CeilDiv(PeakPositions(cfg, r.prompt, r.maxTokens), cfg.blockSize) <= cfg.numBlocks
  {
    SmoothIsUndisturbed(cfg, n, es, r.id);
    var f := ExactProgress(cfg, n, es, r);
    assert f.status == Finished && f in RunFrom(cfg, n, es).queue.finished;
    assert r.id in Ids(n.queue.running) && Lively(r);
    RunFinishingFits(cfg, n, es, r.id, r.prompt, r.maxTokens);
  }

  /** Exactly when a request that is submitted to an idle engine, and then stays alone, never runs
      out of blocks: when the pool spans its peak. */
  lemma NeverRunsOutIff(cfg: Config, s: Engine, prompt: seq<Token>, maxTokens: int)
    requires Inv(cfg, s) && s.queue.waiting == [] && s.queue.running == [] && |prompt| > 0 && !cfg.prefixCaching
    requires cfg.chunkedPrefill && cfg.chunkSize <= Min(cfg.maxNumPrefillTokens, cfg.maxNumBatchedTokens)
    ensures NeverRunsOut(cfg, AddRequest(s, prompt, maxTokens))
       <==> CeilDiv(PeakPositions(cfg, prompt, maxTokens), cfg.blockSize) <= cfg.numBlocks
  {
    var n := AddRequest(s, prompt, maxTokens);
    AddInv(cfg, s, prompt, maxTokens);
    if CeilDiv(PeakPositions(cfg, prompt, maxTokens), cfg.blockSize) <= cfg.numBlocks {
      forall es: seq<Event> | AllSteps(es) ensures Smooth(cfg, n, es) {
        AloneIsSmooth(cfg, n, es, s.nextId, prompt, maxTokens);
      }
    }
    if NeverRunsOut(cfg, n) {
      SmoothMustFit(cfg, n, NewRequest(s.nextId, prompt, maxTokens));
    }
  }

  /** The check itself does not ask for a limit of at least zero.  With a negative one it can accept
      a request that does not fit: eight prompt tokens and a limit of -4 count as one block of four,
      but the first chunk of eight needs two. */
  lemma NegativeLimitSlipsThrough(hash: seq<Token> -> int)
    ensures
      var cfg: Config := RawConfig(4, 16, 16, true, 8, 4, 1, false, false, hash);
      var prompt := [0, 1, 2, 3, 4, 5, 6, 7];
      && Check(cfg, Limits(2048, 32), |prompt|, -4, 0, cfg.numBlocks, cfg.numBlocks).None?
      && !NeverRunsOut(cfg, AddRequest(Init(cfg), prompt, -4))
  {
    var cfg: Config := RawConfig(4, 16, 16, true, 8, 4, 1, false, false, hash);
    InitInv(cfg);
    NeverRunsOutIff(cfg, Init(cfg), [0, 1, 2, 3, 4, 5, 6, 7], -4);
  }
}

/** A whole engine step keeps the invariant, and every reachable state has it. */
module StepLaws {
  import opened Base
  import opened BlockSpec
  import opened BlockCoverage
  import opened Requests
  import opened ScheduleSpec
  import opened EngineSpec
  import opened EngineLaws

  // ---------------------------------------------------------------- scheduling

  /** One scheduling iteration, from a state that fits, schedules every running request. */
  lemma ScheduleLaw(cfg: Config, q: Queue, b: Blocks)
    requires Shaped(q) && Backed(cfg, q.running, b) && Fits(cfg, q.running)
    ensures var (n, nb, sch) := RunSchedule(cfg, q, b); Scheduled(cfg, n, nb, sch)
  {
    var q1 := FinishPhase(q);
    var b1 := FreeAll(b, Filter(q.running, ReachedLimit));
    FinishPhaseShaped(q);
    FinishPhaseBacked(cfg, q, b);
    ContinueNeverIgnores(cfg, q1.running);
    AdmissionSchedulesAll(cfg, q1, b1, AllWithStatus(Filter(q.running, ReachedLimit), Finished));
  }

  lemma AdmissionSchedulesAll(cfg: Config, q: Queue, b: Blocks, done: seq<Request>)
    requires Shaped(q) && Backed(cfg, q.running, b) && Fits(cfg, q.running)
    requires forall r :: r in q.running ==> BelowLimit(r)
    ensures
      var a := AdmitPhase(cfg, q, b, PlanAfter(cfg, q.running));
      Scheduled(cfg, Queue(a.kept, a.running, q.finished, q.rejected + a.rejected), a.blocks,
                Result(a.plan, Filter(q.running, Decoding), done, a.rejected))
  {
    AdmissionLaw(cfg, q, b);
    var a := AdmitPhase(cfg, q, b, PlanAfter(cfg, q.running));
    AllBelowLimit(q, a, Filter(q.running, Prefilling));
    ScheduledBy(cfg, q, a, done);
  }

  lemma AllBelowLimit(q: Queue, a: Admission, before: seq<Request>)
    requires Linked(q, a, before) && forall r :: r in q.running ==> BelowLimit(r)
    ensures forall r :: r in a.running ==> r.generated < Max(r.maxTokens, 1)
  {
    forall r | r in a.running ensures r.generated < Max(r.maxTokens, 1) {
      if r in q.running { assert BelowLimit(r); }
    }
  }

  /** The outcome of admission, put together. */
  lemma ScheduledBy(cfg: Config, q: Queue, a: Admission, done: seq<Request>)
    requires Shaped(Queue(a.kept, a.running, q.finished, q.rejected + a.rejected))
    requires Backed(cfg, a.running, a.blocks) && Fits(cfg, a.running) && Roomy(cfg, a, |Filter(a.running, Decoding)|)
    requires a.plan.chosen == Filter(a.running, Prefilling)
    requires Filter(q.running, Decoding) == Filter(a.running, Decoding)
    requires a.plan.prefillTokens <= cfg.maxNumPrefillTokens
    requires forall r :: r in a.running ==> r.generated < Max(r.maxTokens, 1)
    ensures Scheduled(cfg, Queue(a.kept, a.running, q.finished, q.rejected + a.rejected), a.blocks,
                      Result(a.plan, Filter(q.running, Decoding), done, a.rejected))
  {
  }

  /** The pools, the tables and the budgets after the admission phase. */
  lemma AdmissionLaw(cfg: Config, q: Queue, b: Blocks)
    requires Shaped(q) && Backed(cfg, q.running, b) && Fits(cfg, q.running)
    ensures
      var a := AdmitPhase(cfg, q, b, PlanAfter(cfg, q.running));
      && Linked(q, a, Filter(q.running, Prefilling))
      && Shaped(Queue(a.kept, a.running, q.finished, q.rejected + a.rejected))
      && Backed(cfg, a.running, a.blocks)
      && Fits(cfg, a.running)
      && a.plan.chosen == Filter(a.running, Prefilling)
      && Filter(q.running, Decoding) == Filter(a.running, Decoding)
      && Roomy(cfg, a, |Filter(a.running, Decoding)|)
      && a.plan.prefillTokens <= cfg.maxNumPrefillTokens
      && Ids(a.kept) + Ids(a.rejected) + Ids(a.running) == Ids(q.waiting) + Ids(q.running)
  {
    var before := Filter(q.running, Prefilling);
    var decodes := |Filter(q.running, Decoding)|;
    var p := PlanAfter(cfg, q.running);
    var a0 := Admission(p, [], q.running, [], b);
    AdmissionStarts(cfg, q, b);
    var a := AdmitPhase(cfg, q, b, p);
    if MayAdmit(cfg, q.running) {
      AdmitAllSteps(cfg, q, a0, q.waiting, before, decodes);
      PrefillTokensBounded(cfg, a0, q.waiting);
    } else {
      assert NewOnes(q, a) == [];
      assert Ids(a.rejected) == {};
      assert Admitting(cfg, q, a, q.waiting, before, decodes);
    }
    AdmissionShaped(cfg, q, a, before, decodes);
    AdmissionSchedules(q, a);
    CostSplit(cfg, a.running);
    TotalCostNonNegative(cfg, Filter(a.running, Prefilling));
  }

  lemma {:induction false} TotalCostNonNegative(cfg: Config, rs: seq<Request>)
    requires forall r :: r in rs ==> Lively(r)
    ensures TotalCost(cfg, rs) >= |rs|
  {
    if rs != [] {
      LivelyCost(cfg, rs[0]);
      TotalCostNonNegative(cfg, rs[1..]);
    }
  }

  /** Charges come out of the prefill budget, so their sum with what is left of it is constant. */
  lemma {:induction false} PrefillTokensBounded(cfg: Config, a: Admission, rs: seq<Request>)
    requires WellFormed(a.blocks)
    ensures AdmitAll(cfg, a, rs).plan.prefillTokens + AdmitAll(cfg, a, rs).plan.prefillBudget
         == a.plan.prefillTokens + a.plan.prefillBudget
    decreases |rs|
  {
    if rs != [] { PrefillTokensBounded(cfg, a, rs[..|rs| - 1]); }
  }

  // ---------------------------------------------------------------- blocks for the batch

  ghost predicate Ready(cfg: Config, b: Blocks, rs: seq<Request>) {
    forall r :: r in rs ==> Lively(r) && Holds(cfg, b, r.id, KvLen(r), NextEnd(cfg, r))
  }

  /** Every table of `b` is a prefix of the one in `n`. */
  ghost predicate Extended(b: Blocks, n: Blocks) {
    && n.tables.Keys == b.tables.Keys
    && forall id :: id in b.tables ==> b.tables[id] <= n.tables[id]
  }

  /** Tables are exactly as long as the positions of the step need. */
  ghost predicate Exact(cfg: Config, b: Blocks, rs: seq<Request>) {
    forall r :: r in rs ==> r.id in b.tables && |b.tables[r.id]| == CeilDiv(NextEnd(cfg, r), cfg.blockSize)
  }

  lemma EnsureSeqLaw(cfg: Config, b: Blocks, r: Request)
    requires Conserved(b) && Lively(r) && Holds(cfg, b, r.id, KvLen(r), NextEnd(cfg, r))
    requires !cfg.prefixCaching ==> Exclusive(b)
    ensures
      var o := EnsureSeq(cfg, b, r);
      && Conserved(o.state) && GrewOnly(b, o.state, r.id)
      && (!cfg.prefixCaching ==> Exclusive(o.state))
      && Holds(cfg, o.state, r.id, KvLen(r), NextEnd(cfg, r))
      && (o.Ok? ==> |o.state.tables[r.id]| == CeilDiv(NextEnd(cfg, r), cfg.blockSize))
  {
    LivelyCost(cfg, r);
    EnsureRangeLaw(cfg, b, r.id, r.prompt, KvLen(r), NextEnd(cfg, r));
    EnsureRangeConserves(cfg, b, r.id, r.prompt, KvLen(r), NextEnd(cfg, r));
    if !cfg.prefixCaching { EnsureRangeExclusive(cfg, b, r.id, r.prompt, KvLen(r), NextEnd(cfg, r)); }
  }

  /** Allocating for a batch: books balance, tables only grow, and, unless the pool runs dry,
      every table ends exactly where its step needs it. */
  lemma {:induction false} EnsureAllLaw(cfg: Config, b: Blocks, rs: seq<Request>, batch: seq<Request>)
    requires rs <= batch && Distinct(batch) && Conserved(b) && Ready(cfg, b, batch)
    requires !cfg.prefixCaching ==> Exclusive(b)
    ensures
      var o := EnsureAll(cfg, b, rs);
      && Conserved(o.state) && Extended(b, o.state)
      && (!cfg.prefixCaching ==> Exclusive(o.state))
      && Ready(cfg, o.state, batch)
      && (o.Ok? ==> Exact(cfg, o.state, rs))
    decreases |rs|
  {
    if rs != [] {
      var k := |rs| - 1;
      EnsureAllLaw(cfg, b, rs[..k], batch);
      var o := EnsureAll(cfg, b, rs[..k]);
      if o.Ok? {
        EnsureSeqLaw(cfg, o.state, rs[k]);
        EnsureOneMore(cfg, o.state, EnsureSeq(cfg, o.state, rs[k]), rs, batch);
      }
    }
  }

  lemma EnsureOneMore(cfg: Config, b: Blocks, o: Outcome<Blocks>, rs: seq<Request>, batch: seq<Request>)
    requires rs != [] && rs <= batch && Distinct(batch) && Ready(cfg, b, batch)
    requires Exact(cfg, b, rs[..|rs| - 1])
    requires GrewOnly(b, o.state, rs[|rs| - 1].id)
    requires Holds(cfg, o.state, rs[|rs| - 1].id, KvLen(rs[|rs| - 1]), NextEnd(cfg, rs[|rs| - 1]))
    requires o.Ok? ==> |o.state.tables[rs[|rs| - 1].id]| == CeilDiv(NextEnd(cfg, rs[|rs| - 1]), cfg.blockSize)
    ensures Extended(b, o.state) && Ready(cfg, o.state, batch)
    ensures o.Ok? ==> Exact(cfg, o.state, rs)
  {
    var last := rs[|rs| - 1];
    assert batch[|rs| - 1] == last;
    forall r | r in batch ensures Holds(cfg, o.state, r.id, KvLen(r), NextEnd(cfg, r)) {
      if r.id == last.id { SameId(batch, r, last); }
    }
    forall r | r in rs && o.Ok?
      ensures r.id in o.state.tables && |o.state.tables[r.id]| == CeilDiv(NextEnd(cfg, r), cfg.blockSize)
    {
      if r.id == last.id { SameId(batch, r, last); } else { assert r in rs[..|rs| - 1]; }
    }
  }

  /** The batch of a schedule is the running pool in another order. */
  lemma BatchIsRunning(cfg: Config, q: Queue, b: Blocks, sch: Schedule)
    requires Scheduled(cfg, q, b, sch)
    ensures Distinct(BatchOf(sch)) && Ids(BatchOf(sch)) == Ids(q.running)
    ensures forall r :: r in BatchOf(sch) <==> r in q.running
    ensures Ready(cfg, b, BatchOf(sch))
    ensures |BatchOf(sch)| == |q.running|
  {
    FilterSplits(q.running, Prefilling, Decoding);
    DistinctAppend(sch.prefill, sch.decode);
    IdsAppend(sch.prefill, sch.decode);
  }

  // ---------------------------------------------------------------- advancing

  /** Processing a request fills exactly the positions it was charged for, keeps it lively and
      never makes its next step dearer. */
  lemma AdvanceLaw(cfg: Config, r: Request, token: Token)
    requires Lively(r) && r.generated < Max(r.maxTokens, 1)
    ensures
      var n := Advance(cfg, r, token);
      && Lively(n) && n.id == r.id && n.prompt == r.prompt && n.maxTokens == r.maxTokens
      && KvLen(n) == NextEnd(cfg, r)
      && 1 <= Cost(cfg, n) <= Cost(cfg, r)
      && (Prefilling(n) ==> Prefilling(r))
  {
    LivelyCost(cfg, r);
    LivelyCost(cfg, Advance(cfg, r, token));
  }

  lemma AdvanceAllIds(cfg: Config, rs: seq<Request>, batch: set<nat>, sample: nat -> Token)
    ensures Ids(AdvanceAll(cfg, rs, batch, sample)) == Ids(rs)
    ensures Distinct(rs) ==> Distinct(AdvanceAll(cfg, rs, batch, sample))
  {
    var ns := AdvanceAll(cfg, rs, batch, sample);
    forall id | id in Ids(rs) ensures id in Ids(ns) {
      var i :| 0 <= i < |rs| && rs[i].id == id;
      assert ns[i] in ns;
    }
    forall id | id in Ids(ns) ensures id in Ids(rs) {
      var i :| 0 <= i < |ns| && ns[i].id == id;
      assert rs[i] in rs;
    }
  }

  lemma AdvanceRunning(cfg: Config, rs: seq<Request>, b: Blocks, sample: nat -> Token)
    requires Fits(cfg, rs) && Backed(cfg, rs, b) && Exact(cfg, b, rs)
    requires forall r :: r in rs ==> Lively(r) && r.generated < Max(r.maxTokens, 1)
    ensures
      var ns := AdvanceAll(cfg, rs, Ids(rs), sample);
      && Fits(cfg, ns) && Backed(cfg, ns, b)
      && (forall r :: r in ns ==> Lively(r))
      && (forall r :: r in ns ==> |b.tables[r.id]| == CeilDiv(KvLen(r), cfg.blockSize))
  {
    var ns := AdvanceAll(cfg, rs, Ids(rs), sample);
    forall i | 0 <= i < |rs|
      ensures ns[i] == Advance(cfg, rs[i], sample(rs[i].id))
      ensures Lively(ns[i]) && ns[i].id == rs[i].id && KvLen(ns[i]) == NextEnd(cfg, rs[i])
      ensures 1 <= Cost(cfg, ns[i]) <= Cost(cfg, rs[i]) && (Prefilling(ns[i]) ==> Prefilling(rs[i]))
    {
      assert rs[i] in rs;
      AdvanceLaw(cfg, rs[i], sample(rs[i].id));
    }
    CostOfReplaced(cfg, rs, ns);
    AdvanceAllIds(cfg, rs, Ids(rs), sample);
    forall r | r in ns
      ensures |b.tables[r.id]| == CeilDiv(KvLen(r), cfg.blockSize)
      ensures Holds(cfg, b, r.id, KvLen(r), NextEnd(cfg, r))
    {
      var i :| 0 <= i < |ns| && ns[i] == r;
      assert rs[i] in rs;
      CeilDivMono(KvLen(r), NextEnd(cfg, r), cfg.blockSize);
    }
  }

  // ---------------------------------------------------------------- the step

  /** Before the model runs: everything running is in the batch, backed and below its limit, and,
      unless blocks ran out, every table is exactly long enough for the step. */
  ghost predicate Prepared(cfg: Config, p: StepResult) {
    && Scheduled(cfg, p.engine.queue, p.engine.blocks, p.schedule)
    && (!p.oom ==> Exact(cfg, p.engine.blocks, p.engine.queue.running))
  }

  lemma PrepareLaw(cfg: Config, s: Engine, expired: set<nat>)
    requires Inv(cfg, s)
    ensures Prepared(cfg, Prepare(cfg, s, expired))
    ensures var (q, b, sch) := RunSchedule(cfg, Drop(s, expired, TimedOut).queue, Drop(s, expired, TimedOut).blocks);
      Extended(b, Prepare(cfg, s, expired).engine.blocks)
  {
    DropInv(cfg, s, expired, TimedOut);
    var s1 := Drop(s, expired, TimedOut);
    ScheduleLaw(cfg, s1.queue, s1.blocks);
    var (q, b, sch) := RunSchedule(cfg, s1.queue, s1.blocks);
    BatchIsRunning(cfg, q, b, sch);
    EnsureAllLaw(cfg, b, BatchOf(sch), BatchOf(sch));
    var o := EnsureAll(cfg, b, BatchOf(sch));
    forall r | r in q.running ensures Holds(cfg, o.state, r.id, KvLen(r), NextEnd(cfg, r)) {
      assert r in BatchOf(sch);
    }
  }

  /** The pools a scheduling iteration leaves behind, by ids only. */
  lemma ScheduledIds(cfg: Config, q: Queue, b: Blocks) returns (ended: set<nat>, gone: set<nat>)
    requires Shaped(q) && Backed(cfg, q.running, b) && Fits(cfg, q.running)
    ensures
      var n := RunSchedule(cfg, q, b).0;
      && ended <= Ids(q.running) && gone <= Ids(q.waiting)
      && Ids(n.finished) == Ids(q.finished) + ended
      && Ids(n.rejected) == Ids(q.rejected) + gone
      && Ids(n.waiting) + gone + Ids(n.running) + ended == Ids(q.waiting) + Ids(q.running)
  {
    var q1 := FinishPhase(q);
    var done := Filter(q.running, ReachedLimit);
    var b1 := FreeAll(b, done);
    FinishPhaseShaped(q);
    FinishPhaseBacked(cfg, q, b);
    ContinueNeverIgnores(cfg, q1.running);
    AdmissionIds(cfg, q1, b1);
    var a := AdmitPhase(cfg, q1, b1, PlanAfter(cfg, q1.running));
    ended, gone := Ids(done), Ids(a.rejected);
    MovedIds(q, a, done);
  }

  lemma MovedIds(q: Queue, a: Admission, done: seq<Request>)
    requires Distinct(q.running) && done == Filter(q.running, ReachedLimit)
    requires Ids(a.kept) + Ids(a.rejected) + Ids(a.running) == Ids(q.waiting) + Ids(Filter(q.running, BelowLimit))
    ensures Ids(q.finished + AllWithStatus(done, Finished)) == Ids(q.finished) + Ids(done)
    ensures Ids(q.rejected + a.rejected) == Ids(q.rejected) + Ids(a.rejected)
    ensures Ids(done) <= Ids(q.running)
    ensures Ids(a.kept) + Ids(a.rejected) + Ids(a.running) + Ids(done) == Ids(q.waiting) + Ids(q.running)
  {
    FilterSplits(q.running, BelowLimit, ReachedLimit);
    AllWithStatusIds(done, Finished);
    IdsAppend(q.finished, AllWithStatus(done, Finished));
    IdsAppend(q.rejected, a.rejected);
  }

  lemma AdmissionIds(cfg: Config, q: Queue, b: Blocks)
    requires Shaped(q) && Backed(cfg, q.running, b) && Fits(cfg, q.running)
    ensures
      var a := AdmitPhase(cfg, q, b, PlanAfter(cfg, q.running));
      && Ids(a.kept) + Ids(a.rejected) + Ids(a.running) == Ids(q.waiting) + Ids(q.running)
      && Ids(a.rejected) <= Ids(q.waiting)
  {
    AdmissionLaw(cfg, q, b);
    var a := AdmitPhase(cfg, q, b, PlanAfter(cfg, q.running));
    IdsAppend(q.rejected, a.rejected);
    IdsAppend(q.running, NewOnes(q, a));
    assert Ids(q.running) <= Ids(a.running);
  }

  /** Scheduling moves requests between pools and loses none. */
  lemma ScheduleKeepsIds(cfg: Config, q: Queue, b: Blocks)
    requires Shaped(q) && Backed(cfg, q.running, b) && Fits(cfg, q.running)
    ensures AllIds(RunSchedule(cfg, q, b).0) == AllIds(q)
    ensures Ids(q.finished) !! Ids(q.rejected)
      ==> Ids(RunSchedule(cfg, q, b).0.finished) !! Ids(RunSchedule(cfg, q, b).0.rejected)
  {
    var ended, gone := ScheduledIds(cfg, q, b);
  }

  lemma FinishLaw(cfg: Config, p: StepResult, sample: nat -> Token)
    requires WellFormed(p.engine.blocks) && Prepared(cfg, p) && !p.oom
    ensures
      var n := Finish(cfg, p, sample);
      && Shaped(n.queue) && Backed(cfg, n.queue.running, n.blocks) && Fits(cfg, n.queue.running)
      && AllIds(n.queue) == AllIds(p.engine.queue)
      && (forall r :: r in n.queue.running ==> |n.blocks.tables[r.id]| == CeilDiv(KvLen(r), cfg.blockSize))
  {
    var rs := p.engine.queue.running;
    BatchIsRunning(cfg, p.engine.queue, p.engine.blocks, p.schedule);
    AdvanceRunning(cfg, rs, p.engine.blocks, sample);
    AdvanceAllIds(cfg, rs, Ids(rs), sample);
  }

  /** The invariant survives every step, finished or abandoned for lack of blocks. */
  lemma StepInv(cfg: Config, s: Engine, expired: set<nat>, sample: nat -> Token)
    requires Inv(cfg, s)
    ensures Inv(cfg, Step(cfg, s, expired, sample).engine)
  {
    var s1 := Drop(s, expired, TimedOut);
    var p := Prepare(cfg, s, expired);
    DropInv(cfg, s, expired, TimedOut);
    PrepareLaw(cfg, s, expired);
    ScheduleKeepsIds(cfg, s1.queue, s1.blocks);
    if !p.oom { FinishLaw(cfg, p, sample); }
  }
}

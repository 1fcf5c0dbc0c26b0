/** What every scheduling iteration and every step keep: nobody admitted ever stalls, budgets are
    respected, tables stay exactly as long as needed, and the invariant survives. */
module EngineLaws {
  import opened Base
  import opened BlockSpec
  import opened BlockCoverage
  import opened Requests
  import opened ScheduleSpec
  import opened EngineSpec

  // ---------------------------------------------------------------- phase 1

  lemma FinishPhaseShaped(q: Queue)
    requires Shaped(q)
    ensures Shaped(FinishPhase(q))
  {
    var done := Filter(q.running, ReachedLimit);
    FilterSplits(q.running, BelowLimit, ReachedLimit);
    AllWithStatusIds(done, Finished);
    EndedWith(done, Finished);
    JoinFinished(q, AllWithStatus(done, Finished));
  }

  lemma FinishPhaseBacked(cfg: Config, q: Queue, b: Blocks)
    requires Shaped(q) && Backed(cfg, q.running, b) && Fits(cfg, q.running)
    ensures Backed(cfg, FinishPhase(q).running, FreeAll(b, Filter(q.running, ReachedLimit)))
    ensures Fits(cfg, FinishPhase(q).running)
  {
    SplitRunning(cfg, q.running, b, BelowLimit, ReachedLimit);
  }

  // ---------------------------------------------------------------- phase 4

  /** With enough budget for all of them, every prefill in progress is continued, none is
      ignored, and the budgets drop by exactly their costs. */
  lemma {:induction false} ContinueSchedulesAll(cfg: Config, p: Plan, rs: seq<Request>)
    requires forall r :: r in rs ==> Prefilling(r) && Lively(r)
    requires TotalCost(cfg, rs) <= p.prefillBudget && |rs| <= p.seqBudget
    ensures ContinueAll(cfg, p, rs) ==
      Plan(p.tokenBudget - TotalCost(cfg, rs), p.prefillBudget - TotalCost(cfg, rs), p.seqBudget - |rs|,
           p.prefillTokens + TotalCost(cfg, rs), p.chosen + rs, p.ignored)
    decreases |rs|
  {
    if rs != [] {
      var k := |rs| - 1;
      assert rs == rs[..k] + [rs[k]];
      TotalCostAppend(cfg, rs[..k], [rs[k]]);
      OneCost(cfg, rs[k]);
      LivelyCost(cfg, rs[k]);
      ContinueSchedulesAll(cfg, p, rs[..k]);
      assert p.chosen + rs[..k] + [rs[k]] == p.chosen + rs;
    } else {
      assert p.chosen + rs == p.chosen;
    }
  }

  lemma PlanNonNegative(cfg: Config, running: seq<Request>)
    requires Fits(cfg, running)
    ensures PlanAfter(cfg, running).prefillBudget >= 0 && PlanAfter(cfg, running).seqBudget >= 0
  {
    CostSplit(cfg, running);
  }

  /** Both ignore branches of the continue phase are unreachable: in a fitting state every
      prefill in progress is scheduled and what is left of the budgets is never negative. */
  lemma ContinueNeverIgnores(cfg: Config, running: seq<Request>)
    requires Fits(cfg, running) && forall r :: r in running ==> Lively(r)
    ensures ContinuePlan(cfg, running) == PlanAfter(cfg, running)
    ensures PlanAfter(cfg, running).prefillBudget >= 0 && PlanAfter(cfg, running).seqBudget >= 0
  {
    PlanNonNegative(cfg, running);
    var pre := Filter(running, Prefilling);
    var start := StartPlan(cfg, |Filter(running, Decoding)|);
    CostSplit(cfg, running);
    assert TotalCost(cfg, pre) == PrefillCost(cfg, running);
    ContinueSchedulesAll(cfg, start, pre);
    assert start.chosen + pre == pre;
  }

  /** The plan that continues every prefill in progress. */
  function PlanAfter(cfg: Config, running: seq<Request>): Plan {
    var decodes := |Filter(running, Decoding)|;
    var n := PrefillCost(cfg, running);
    Plan(cfg.maxNumBatchedTokens - decodes - n,
         Min(cfg.maxNumBatchedTokens - decodes, cfg.maxNumPrefillTokens) - n,
         cfg.maxNumSeqs - |running|, n, Filter(running, Prefilling), [])
  }

  // ---------------------------------------------------------------- phase 5

  /** Three pools share the ids `ids` out among themselves. */
  ghost predicate Sorted(kept: seq<Request>, rejected: seq<Request>, running: seq<Request>, ids: set<nat>) {
    && Distinct(kept) && Distinct(rejected) && Distinct(running)
    && Ids(kept) !! Ids(rejected)
    && Ids(kept) !! Ids(running)
    && Ids(rejected) !! Ids(running)
    && Ids(kept) + Ids(rejected) + Ids(running) == ids
  }

  function NewOnes(q: Queue, a: Admission): seq<Request> {
    if |q.running| <= |a.running| then a.running[|q.running|..] else []
  }

  /** The admission loop after the waiting requests `seen`: everyone seen was kept, rejected or
      admitted, the admitted ones are backed, and the budgets still cover the running pool. */
  ghost predicate Admitting(cfg: Config, q: Queue, a: Admission, seen: seq<Request>, before: seq<Request>,
                            decodes: nat) {
    && Linked(q, a, before)
    && Sorted(a.kept, a.rejected, a.running, Ids(seen) + Ids(q.running))
    && Gathered(a, seen)
    && Backed(cfg, a.running, a.blocks)
    && Roomy(cfg, a, decodes)
  }

  ghost predicate Linked(q: Queue, a: Admission, before: seq<Request>) {
    && a.running == q.running + NewOnes(q, a)
    && a.plan.chosen == before + NewOnes(q, a)
    && forall r :: r in NewOnes(q, a) ==> Prefilling(r) && Lively(r) && r.generated == 0
  }

  ghost predicate Gathered(a: Admission, seen: seq<Request>) {
    && (forall r :: r in a.kept ==> r in seen)
    && (forall r :: r in a.rejected ==> r in seen)
  }

  ghost predicate Roomy(cfg: Config, a: Admission, decodes: nat) {
    && 0 <= a.plan.prefillBudget <= a.plan.tokenBudget
    && 0 <= a.plan.seqBudget
    && PrefillCost(cfg, a.running) + a.plan.prefillBudget <= cfg.maxNumPrefillTokens
    && TotalCost(cfg, a.running) + a.plan.prefillBudget <= cfg.maxNumBatchedTokens
    && |a.running| + a.plan.seqBudget == cfg.maxNumSeqs
    && a.plan.tokenBudget + a.plan.prefillTokens + decodes == cfg.maxNumBatchedTokens
    && TotalCost(cfg, a.plan.chosen) <= a.plan.prefillTokens
    && (cfg.chunkedPrefill ==> TotalCost(cfg, a.plan.chosen) == a.plan.prefillTokens)
  }

  /** The request that admission builds from a waiting one. */
  function Admitted(cfg: Config, b: Blocks, r: Request): Request
    requires WellFormed(b)
  {
    r.(status := Prefill, cursor := StartCursor(cfg, |r.prompt|, ProbedTokens(cfg, b, r.prompt)))
  }

  /** What admission charges covers what the first step will process, exactly so with chunked
      prefill; and the shared prefix covers the cursor it starts from. */
  lemma ChargeCoversRows(cfg: Config, b: Blocks, r: Request)
    requires WellFormed(b) && Untouched(r) && r.id !in b.tables
    ensures var n := Admitted(cfg, b, r); var cached := ProbedTokens(cfg, b, r.prompt);
      && Lively(n)
      && 1 <= Cost(cfg, n) <= AdmissionCharge(cfg, |r.prompt|, cached)
      && (cfg.chunkedPrefill ==> Cost(cfg, n) == AdmissionCharge(cfg, |r.prompt|, cached))
      && Holds(cfg, AllocateForSeq(cfg, b, r.id, r.prompt), r.id, KvLen(n), NextEnd(cfg, n))
  {
    var n := Admitted(cfg, b, r);
    var cached := ProbedTokens(cfg, b, r.prompt);
    ProbeAgreesWithAllocation(cfg, b, r.id, r.prompt);
    CeilDivMono(n.cursor, cached, cfg.blockSize);
    CeilDivMono(cached, NextEnd(cfg, n), cfg.blockSize);
  }

  lemma AdmitBacked(cfg: Config, rs: seq<Request>, b: Blocks, r: Request)
    requires Backed(cfg, rs, b) && Untouched(r) && r.id !in Ids(rs)
    ensures Backed(cfg, rs + [Admitted(cfg, b, r)], AllocateForSeq(cfg, b, r.id, r.prompt))
  {
    ChargeCoversRows(cfg, b, r);
    ProbeAgreesWithAllocation(cfg, b, r.id, r.prompt);
    AllocateForSeqConserves(cfg, b, r.id, r.prompt);
    IdsAppend(rs, [Admitted(cfg, b, r)]);
    assert Ids([Admitted(cfg, b, r)]) == {r.id};
    var n := AllocateForSeq(cfg, b, r.id, r.prompt);
    forall x | x in rs ensures Holds(cfg, n, x.id, KvLen(x), NextEnd(cfg, x)) {
      assert x.id in Ids(rs);
    }
  }

  lemma AdmitRoomy(cfg: Config, a: Admission, r: Request, charge: int, decodes: nat)
    requires Roomy(cfg, a, decodes) && a.plan.seqBudget > 0 && charge <= a.plan.prefillBudget
    requires Prefilling(r) && 1 <= Cost(cfg, r) <= charge
    requires cfg.chunkedPrefill ==> Cost(cfg, r) == charge
    ensures Roomy(cfg, a.(plan := Charge(a.plan, r, charge), running := a.running + [r]), decodes)
  {
    PrefillCostAppend(cfg, a.running, [r]);
    TotalCostAppend(cfg, a.running, [r]);
    TotalCostAppend(cfg, a.plan.chosen, [r]);
    OneCost(cfg, r);
  }

  lemma AppendOne(rs: seq<Request>, r: Request)
    requires Distinct(rs) && r.id !in Ids(rs)
    ensures Distinct(rs + [r]) && Ids(rs + [r]) == Ids(rs) + {r.id}
  {
    assert Ids([r]) == {r.id};
    DistinctAppend(rs, [r]);
    IdsAppend(rs, [r]);
  }

  /** A new id may join any one of the three pools. */
  lemma SortOne(kept: seq<Request>, rejected: seq<Request>, running: seq<Request>, ids: set<nat>, r: Request)
    requires Sorted(kept, rejected, running, ids) && r.id !in ids
    ensures Sorted(kept + [r], rejected, running, ids + {r.id})
    ensures Sorted(kept, rejected + [r], running, ids + {r.id})
    ensures Sorted(kept, rejected, running + [r], ids + {r.id})
  {
    AppendOne(kept, r);
    AppendOne(rejected, r);
    AppendOne(running, r);
  }

  lemma SeenGrows(seen: seq<Request>, r: Request, q: Queue)
    ensures Ids(seen + [r]) + Ids(q.running) == Ids(seen) + Ids(q.running) + {r.id}
  {
    IdsAppend(seen, [r]);
    assert Ids([r]) == {r.id};
  }

  /** Whether the admission loop admits `r` now. */
  predicate Takes(cfg: Config, a: Admission, r: Request)
    requires WellFormed(a.blocks)
  {
    a.plan.seqBudget > 0
      && AdmissionCharge(cfg, |r.prompt|, ProbedTokens(cfg, a.blocks, r.prompt)) <= a.plan.prefillBudget
  }

  lemma StepSorts(cfg: Config, q: Queue, a: Admission, seen: seq<Request>, r: Request)
    requires WellFormed(a.blocks) && Gathered(a, seen)
    requires Sorted(a.kept, a.rejected, a.running, Ids(seen) + Ids(q.running))
    requires r.id !in Ids(seen) + Ids(q.running)
    ensures Gathered(AdmitOne(cfg, a, r), seen + [r])
    ensures var n := AdmitOne(cfg, a, r);
      Sorted(n.kept, n.rejected, n.running, Ids(seen + [r]) + Ids(q.running))
  {
    SeenGrows(seen, r, q);
    SortOne(a.kept, a.rejected, a.running, Ids(seen) + Ids(q.running), r);
    SortOne(a.kept, a.rejected, a.running, Ids(seen) + Ids(q.running), Admitted(cfg, a.blocks, r));
  }

  lemma StepLinks(cfg: Config, q: Queue, a: Admission, r: Request, before: seq<Request>)
    requires WellFormed(a.blocks) && Linked(q, a, before) && Untouched(r) && r.id !in a.blocks.tables
    ensures Linked(q, AdmitOne(cfg, a, r), before)
  {
    var n := AdmitOne(cfg, a, r);
    if Takes(cfg, a, r) {
      var m := Admitted(cfg, a.blocks, r);
      ChargeCoversRows(cfg, a.blocks, r);
      assert n.running == a.running + [m] && n.plan.chosen == a.plan.chosen + [m];
      assert NewOnes(q, n) == NewOnes(q, a) + [m];
    } else {
      assert NewOnes(q, n) == NewOnes(q, a);
    }
  }

  lemma StepBacks(cfg: Config, a: Admission, r: Request, decodes: nat)
    requires Backed(cfg, a.running, a.blocks) && Roomy(cfg, a, decodes)
    requires Untouched(r) && r.id !in Ids(a.running)
    ensures Backed(cfg, AdmitOne(cfg, a, r).running, AdmitOne(cfg, a, r).blocks)
    ensures Roomy(cfg, AdmitOne(cfg, a, r), decodes)
  {
    if Takes(cfg, a, r) {
      var charge := AdmissionCharge(cfg, |r.prompt|, ProbedTokens(cfg, a.blocks, r.prompt));
      ChargeCoversRows(cfg, a.blocks, r);
      AdmitBacked(cfg, a.running, a.blocks, r);
      AdmitRoomy(cfg, a, Admitted(cfg, a.blocks, r), charge, decodes);
    }
  }

  lemma AdmitOneStep(cfg: Config, q: Queue, a: Admission, seen: seq<Request>, r: Request, before: seq<Request>,
                     decodes: nat)
    requires Admitting(cfg, q, a, seen, before, decodes)
    requires Untouched(r) && r.id !in Ids(seen) + Ids(q.running)
    ensures Admitting(cfg, q, AdmitOne(cfg, a, r), seen + [r], before, decodes)
  {
    var ids := Ids(seen) + Ids(q.running);
    assert r.id !in Ids(a.running);
    StepSorts(cfg, q, a, seen, r);
    StepLinks(cfg, q, a, r, before);
    StepBacks(cfg, a, r, decodes);
  }

  lemma {:induction false} AdmitAllSteps(cfg: Config, q: Queue, a: Admission, rs: seq<Request>, before: seq<Request>,
                                         decodes: nat)
    requires Admitting(cfg, q, a, [], before, decodes)
    requires Distinct(rs) && Ids(rs) !! Ids(q.running) && forall r :: r in rs ==> Untouched(r)
    ensures Admitting(cfg, q, AdmitAll(cfg, a, rs), rs, before, decodes)
    decreases |rs|
  {
    if rs != [] {
      var front, last := rs[..|rs| - 1], rs[|rs| - 1];
      LastIsNew(rs, front, last, Ids(q.running));
      AdmitAllSteps(cfg, q, a, front, before, decodes);
      var mid := AdmitAll(cfg, a, front);
      AdmitOneStep(cfg, q, mid, front, last, before, decodes);
      assert AdmitAll(cfg, a, rs) == AdmitOne(cfg, mid, last);
    }
  }

  lemma LastIsNew(rs: seq<Request>, front: seq<Request>, last: Request, running: set<nat>)
    requires rs != [] && Distinct(rs) && Ids(rs) !! running && front == rs[..|rs| - 1] && last == rs[|rs| - 1]
    ensures rs == front + [last] && last.id !in Ids(front) + running && Distinct(front) && Ids(front) !! running
  {
    assert last.id in Ids(rs);
    IdsAppend(front, [last]);
  }

  // ---------------------------------------------------------------- a whole iteration

  /** What scheduling hands to the executor: every running request is in the batch, prefills and
      decodes in running order, all of them backed, within budget and below their limit. */
  ghost predicate Scheduled(cfg: Config, q: Queue, b: Blocks, sch: Schedule) {
    && Shaped(q)
    && Backed(cfg, q.running, b)
    && Fits(cfg, q.running)
    && sch.prefill == Filter(q.running, Prefilling)
    && sch.decode == Filter(q.running, Decoding)
    && (forall r :: r in q.running ==> r.generated < Max(r.maxTokens, 1))
    && sch.numDecodeTokens == |sch.decode|
    && sch.numBatchedTokens == sch.numPrefillTokens + sch.numDecodeTokens <= cfg.maxNumBatchedTokens
    && sch.numPrefillTokens <= cfg.maxNumPrefillTokens
    && sch.tokenBudgetRemaining == cfg.maxNumBatchedTokens - sch.numBatchedTokens
    && TotalCost(cfg, sch.prefill) <= sch.numPrefillTokens
    && (cfg.chunkedPrefill ==> TotalCost(cfg, sch.prefill) == sch.numPrefillTokens)
  }

  lemma AdmissionStarts(cfg: Config, q: Queue, b: Blocks)
    requires Shaped(q) && Backed(cfg, q.running, b) && Fits(cfg, q.running)
    ensures Admitting(cfg, q, Admission(PlanAfter(cfg, q.running), [], q.running, [], b), [],
                      Filter(q.running, Prefilling), |Filter(q.running, Decoding)|)
  {
    CostSplit(cfg, q.running);
    var a := Admission(PlanAfter(cfg, q.running), [], q.running, [], b);
    assert NewOnes(q, a) == [];
    assert Filter(q.running, Prefilling) + [] == Filter(q.running, Prefilling);
    assert Sorted(a.kept, a.rejected, a.running, Ids([]) + Ids(q.running));
  }

  /** The pools after admission, put back together. */
  lemma AdmissionShaped(cfg: Config, q: Queue, a: Admission, before: seq<Request>, decodes: nat)
    requires Shaped(q) && Admitting(cfg, q, a, q.waiting, before, decodes)
    ensures Shaped(Queue(a.kept, a.running, q.finished, q.rejected + a.rejected))
  {
    DistinctAppend(q.rejected, a.rejected);
    IdsAppend(q.rejected, a.rejected);
  }

  lemma AdmissionSchedules(q: Queue, a: Admission)
    requires a.running == q.running + NewOnes(q, a)
    requires a.plan.chosen == Filter(q.running, Prefilling) + NewOnes(q, a)
    requires forall r :: r in NewOnes(q, a) ==> Prefilling(r)
    ensures a.plan.chosen == Filter(a.running, Prefilling)
    ensures Filter(q.running, Decoding) == Filter(a.running, Decoding)
  {
    FilterAppend(q.running, NewOnes(q, a), Prefilling);
    FilterAppend(q.running, NewOnes(q, a), Decoding);
    FilterAll(NewOnes(q, a), Prefilling);
    FilterNone(NewOnes(q, a), Decoding);
  }
}

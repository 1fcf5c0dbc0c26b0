/** `run_until_done` terminates exactly when every waiting request can ever be scheduled. */
module Termination {
  import opened Base
  import opened BlockSpec
  import opened Requests
  import opened ScheduleSpec
  import opened EngineSpec
  import opened EngineLaws
  import opened StepLaws

  // ---------------------------------------------------------------- the measure

  /** Work left for a request: prompt and output tokens still to process, plus one step each to
      be admitted and to be retired. */
  function Work(r: Request): int {
    match r.status
    case Waiting => |r.prompt| + Max(r.maxTokens, 1) + 2
    case Prefill => |r.prompt| - r.cursor + Max(r.maxTokens, 1) + 1
    case _ => Max(r.maxTokens, 1) - r.generated + 1
  }

  function WorkOf(rs: seq<Request>): int
    decreases |rs|
  {
    if rs == [] then 0 else WorkOf(rs[..|rs| - 1]) + Work(rs[|rs| - 1])
  }

  function Measure(q: Queue): int { WorkOf(q.waiting) + WorkOf(q.running) }

  ghost predicate Busy(rs: seq<Request>) { forall r :: r in rs ==> Work(r) >= 1 }

  lemma {:induction false} WorkAppend(a: seq<Request>, b: seq<Request>)
    ensures WorkOf(a + b) == WorkOf(a) + WorkOf(b)
    decreases |b|
  {
    if b == [] {
      assert a + b == a;
    } else {
      assert (a + b)[..|a + b| - 1] == a + b[..|b| - 1];
      WorkAppend(a, b[..|b| - 1]);
    }
  }

  lemma OneWork(r: Request)
    ensures WorkOf([r]) == Work(r)
  {
    assert [r][..0] == [];
  }

  lemma {:induction false} WorkAtLeast(rs: seq<Request>)
    requires Busy(rs)
    ensures WorkOf(rs) >= |rs|
    decreases |rs|
  {
    if rs != [] { WorkAtLeast(rs[..|rs| - 1]); }
  }

  /** Taking requests out of a pool takes at least one unit of work each. */
  lemma {:induction false} WorkSplit(rs: seq<Request>, keep: Request -> bool, drop: Request -> bool)
    requires Busy(rs) && forall x :: x in rs ==> keep(x) != drop(x)
    ensures WorkOf(Filter(rs, keep)) + |Filter(rs, drop)| <= WorkOf(rs)
    ensures |rs| == |Filter(rs, keep)| + |Filter(rs, drop)|
    decreases |rs|
  {
    if rs != [] {
      var k := |rs| - 1;
      assert rs == rs[..k] + [rs[k]];
      WorkSplit(rs[..k], keep, drop);
      FilterNext(rs, k, keep);
      FilterNext(rs, k, drop);
      assert rs[..k + 1] == rs;
      WorkAppend(Filter(rs[..k], keep), if keep(rs[k]) then [rs[k]] else []);
      OneWork(rs[k]);
    }
  }

  /** Every processed request gets at least one unit closer to its end. */
  lemma {:induction false} WorkAdvanced(cfg: Config, rs: seq<Request>, batch: set<nat>, sample: nat -> Token)
    requires Ids(rs) <= batch
    requires forall r :: r in rs ==> Lively(r) && r.generated < Max(r.maxTokens, 1)
    ensures WorkOf(AdvanceAll(cfg, rs, batch, sample)) + |rs| <= WorkOf(rs)
    decreases |rs|
  {
    if rs != [] {
      var k := |rs| - 1;
      assert rs[k].id in Ids(rs);
      WorkAdvanced(cfg, rs[..k], batch, sample);
      assert AdvanceAll(cfg, rs, batch, sample)[..k] == AdvanceAll(cfg, rs[..k], batch, sample);
    }
  }

  /** Admission conserves work up to one unit for each request it admits or rejects. */
  lemma {:induction false} WorkAdmitted(cfg: Config, a: Admission, rs: seq<Request>)
    requires WellFormed(a.blocks) && forall r :: r in rs ==> Untouched(r)
    ensures
      var n := AdmitAll(cfg, a, rs);
      WorkOf(n.kept) + WorkOf(n.running) + |n.rejected| - |a.rejected| + |n.running| - |a.running|
        <= WorkOf(a.kept) + WorkOf(a.running) + WorkOf(rs)
    decreases |rs|
  {
    if rs != [] {
      var k := |rs| - 1;
      WorkAdmitted(cfg, a, rs[..k]);
      WorkAdmitOne(cfg, AdmitAll(cfg, a, rs[..k]), rs[k]);
    }
  }

  lemma WorkAdmitOne(cfg: Config, a: Admission, r: Request)
    requires WellFormed(a.blocks) && Untouched(r)
    ensures
      var n := AdmitOne(cfg, a, r);
      WorkOf(n.kept) + WorkOf(n.running) + |n.rejected| - |a.rejected| + |n.running| - |a.running|
        <= WorkOf(a.kept) + WorkOf(a.running) + Work(r)
  {
    WorkAppend(a.kept, [r]);
    WorkAppend(a.running, [Admitted(cfg, a.blocks, r)]);
    OneWork(r);
    OneWork(Admitted(cfg, a.blocks, r));
  }

  // ---------------------------------------------------------------- who can be scheduled

  /** Whatever part of its prompt is cached, an idle engine admits or rejects this request. */
  ghost predicate Schedulable(cfg: Config, r: Request) {
    forall cached: nat :: cached <= |r.prompt| && (!cfg.prefixCaching ==> cached == 0) ==>
      AdmissionCharge(cfg, |r.prompt|, cached) <= Min(cfg.maxNumBatchedTokens, cfg.maxNumPrefillTokens)
      || |r.prompt| - cached > cfg.maxNumBatchedTokens
  }

  /** Chunks that fit the budgets make every request schedulable. */
  lemma SmallChunksSuffice(cfg: Config, r: Request)
    requires cfg.chunkedPrefill && cfg.chunkSize <= Min(cfg.maxNumPrefillTokens, cfg.maxNumBatchedTokens)
    ensures Schedulable(cfg, r)
  {
  }

  /** On an idle engine the first waiting request is admitted or rejected. */
  lemma FirstIsTaken(cfg: Config, p: Plan, r: Request, b: Blocks)
    requires WellFormed(b) && Schedulable(cfg, r)
    requires p.seqBudget > 0 && p.prefillBudget == Min(cfg.maxNumBatchedTokens, cfg.maxNumPrefillTokens)
    ensures var n := AdmitOne(cfg, Admission(p, [], [], [], b), r); n.running != [] || n.rejected != []
  {
  }

  lemma {:induction false} TakenStaysTaken(cfg: Config, a: Admission, rs: seq<Request>)
    requires WellFormed(a.blocks)
    ensures |AdmitAll(cfg, a, rs).running| >= |a.running| && |AdmitAll(cfg, a, rs).rejected| >= |a.rejected|
    decreases |rs|
  {
    if rs != [] { TakenStaysTaken(cfg, a, rs[..|rs| - 1]); }
  }

  lemma {:induction false} AdmitHeadFirst(cfg: Config, a: Admission, rs: seq<Request>)
    requires WellFormed(a.blocks) && rs != []
    ensures AdmitAll(cfg, a, rs) == AdmitAll(cfg, AdmitOne(cfg, a, rs[0]), rs[1..])
    decreases |rs|
  {
    var k := |rs| - 1;
    if k == 0 {
      assert rs[..0] == [];
    } else {
      AdmitHeadFirst(cfg, a, rs[..k]);
      assert rs[..k][1..] == rs[1..][..k - 1];
    }
  }

  // ---------------------------------------------------------------- every step makes progress

  ghost predicate Drained(s: Engine) { s.queue.waiting == [] && s.queue.running == [] }

  lemma WaitingBusy(q: Queue)
    requires Shaped(q)
    ensures Busy(q.waiting) && Busy(q.running)
  {
  }

  /** Timeouts and the finish check only take work away. */
  lemma RetireWork(cfg: Config, q: Queue, keep: Request -> bool, drop: Request -> bool)
    requires Shaped(q) && forall r :: keep(r) != drop(r)
    ensures WorkOf(Filter(q.running, keep)) + |Filter(q.running, drop)| <= WorkOf(q.running)
    ensures WorkOf(Filter(q.waiting, keep)) + |Filter(q.waiting, drop)| <= WorkOf(q.waiting)
    ensures Filter(q.running, drop) == [] ==> |Filter(q.running, keep)| == |q.running|
    ensures Filter(q.waiting, drop) == [] ==> |Filter(q.waiting, keep)| == |q.waiting|
  {
    WaitingBusy(q);
    WorkSplit(q.running, keep, drop);
    WorkSplit(q.waiting, keep, drop);
  }

  /** A scheduling iteration loses one unit of work for every request it finishes, admits or
      rejects, and an engine with work but nothing running makes one of these moves. */
  lemma ScheduleWork(cfg: Config, q: Queue, b: Blocks)
    requires Shaped(q) && Backed(cfg, q.running, b) && Fits(cfg, q.running)
    requires forall r :: r in q.waiting ==> Schedulable(cfg, r)
    ensures
      var n := RunSchedule(cfg, q, b).0;
      && Measure(n) <= Measure(q)
      && (n.running == [] && !(q.waiting == [] && q.running == []) ==> Measure(n) < Measure(q))
  {
    var q1 := FinishPhase(q);
    var b1 := FreeAll(b, Filter(q.running, ReachedLimit));
    var p := PlanAfter(cfg, q1.running);
    RetireWork(cfg, q, BelowLimit, ReachedLimit);
    FinishPhaseShaped(q);
    FinishPhaseBacked(cfg, q, b);
    ContinueNeverIgnores(cfg, q1.running);
    AdmissionWork(cfg, q1, b1);
  }

  lemma AdmissionWork(cfg: Config, q: Queue, b: Blocks)
    requires Shaped(q) && WellFormed(b) && Fits(cfg, q.running)
    requires forall r :: r in q.waiting ==> Schedulable(cfg, r)
    ensures
      var a := AdmitPhase(cfg, q, b, PlanAfter(cfg, q.running));
      && WorkOf(a.kept) + WorkOf(a.running) <= Measure(q)
      && |a.running| >= |q.running|
      && (a.running == [] && q.waiting != [] ==> WorkOf(a.kept) + WorkOf(a.running) < Measure(q))
  {
    var p := PlanAfter(cfg, q.running);
    var a0 := Admission(p, [], q.running, [], b);
    if MayAdmit(cfg, q.running) {
      WorkAdmitted(cfg, a0, q.waiting);
      TakenStaysTaken(cfg, a0, q.waiting);
      if q.running == [] && q.waiting != [] {
        AdmitHeadFirst(cfg, a0, q.waiting);
        FirstIsTaken(cfg, p, q.waiting[0], b);
        TakenStaysTaken(cfg, AdmitOne(cfg, a0, q.waiting[0]), q.waiting[1..]);
      }
    }
  }

  /** Every step that does not run out of blocks strictly decreases the measure of a busy engine
      whose waiting requests can all be scheduled. */
  lemma StepDecreases(cfg: Config, s: Engine, expired: set<nat>, sample: nat -> Token)
    requires Inv(cfg, s) && forall r :: r in s.queue.waiting ==> Schedulable(cfg, r)
    requires !Step(cfg, s, expired, sample).oom
    ensures
      var n := Step(cfg, s, expired, sample).engine;
      && 0 <= Measure(n.queue) <= Measure(s.queue)
      && (Drained(s) ==> Drained(n))
      && (!Drained(s) ==> Measure(n.queue) < Measure(s.queue))
      && (forall r :: r in n.queue.waiting ==> r in s.queue.waiting)
  {
    var s1 := Drop(s, expired, TimedOut);
    var p := Prepare(cfg, s, expired);
    var running := p.engine.queue.running;
    DropInv(cfg, s, expired, TimedOut);
    RetireWork(cfg, s.queue, NotInSet(expired), InSet(expired));
    ScheduleWork(cfg, s1.queue, s1.blocks);
    WaitingComesFromWaiting(cfg, s1.queue, s1.blocks);
    PrepareLaw(cfg, s, expired);
    BatchIsRunning(cfg, p.engine.queue, p.engine.blocks, p.schedule);
    WorkAdvanced(cfg, running, Ids(running), sample);
    StepInv(cfg, s, expired, sample);
    MeasureNonNegative(Step(cfg, s, expired, sample).engine.queue);
  }

  lemma MeasureNonNegative(q: Queue)
    requires Shaped(q)
    ensures Measure(q) >= |q.waiting| + |q.running|
  {
    WaitingBusy(q);
    WorkAtLeast(q.waiting);
    WorkAtLeast(q.running);
  }

  lemma {:induction false} KeptComesFrom(cfg: Config, a: Admission, rs: seq<Request>)
    requires WellFormed(a.blocks)
    ensures forall r :: r in AdmitAll(cfg, a, rs).kept ==> r in a.kept || r in rs
    decreases |rs|
  {
    if rs != [] { KeptComesFrom(cfg, a, rs[..|rs| - 1]); }
  }

  lemma WaitingComesFromWaiting(cfg: Config, q: Queue, b: Blocks)
    requires WellFormed(b)
    ensures forall r :: r in RunSchedule(cfg, q, b).0.waiting ==> r in q.waiting
    ensures q.waiting == [] ==> RunSchedule(cfg, q, b).0.waiting == []
  {
    var q1 := FinishPhase(q);
    var p := ContinuePlan(cfg, q1.running);
    var b1 := FreeAll(b, Filter(q.running, ReachedLimit));
    KeptComesFrom(cfg, Admission(p, [], q1.running, [], b1), q.waiting);
  }

  // ---------------------------------------------------------------- the exact condition

  lemma {:induction false} BudgetOnlyShrinks(cfg: Config, a: Admission, rs: seq<Request>)
    requires WellFormed(a.blocks)
    ensures AdmitAll(cfg, a, rs).plan.prefillBudget <= a.plan.prefillBudget
    decreases |rs|
  {
    if rs != [] { BudgetOnlyShrinks(cfg, a, rs[..|rs| - 1]); }
  }

  /** Without prefix caching, a request whose first chunk exceeds the budgets but whose prompt
      does not exceed the token budget is neither admitted nor rejected. */
  lemma {:induction false} NeverTaken(cfg: Config, a: Admission, rs: seq<Request>, r: Request)
    requires WellFormed(a.blocks) && r in rs && !Schedulable(cfg, r) && !cfg.prefixCaching
    requires a.plan.prefillBudget <= Min(cfg.maxNumBatchedTokens, cfg.maxNumPrefillTokens)
    ensures r in AdmitAll(cfg, a, rs).kept
    decreases |rs|
  {
    var k := |rs| - 1;
    BudgetOnlyShrinks(cfg, a, rs[..k]);
    if r != rs[k] { NeverTaken(cfg, a, rs[..k], r); }
  }

  lemma ScheduleStarves(cfg: Config, q: Queue, b: Blocks, r: Request)
    requires Shaped(q) && Backed(cfg, q.running, b) && Fits(cfg, q.running)
    requires r in q.waiting && !Schedulable(cfg, r) && !cfg.prefixCaching
    ensures r in RunSchedule(cfg, q, b).0.waiting
  {
    var q1 := FinishPhase(q);
    var b1 := FreeAll(b, Filter(q.running, ReachedLimit));
    FinishPhaseShaped(q);
    FinishPhaseBacked(cfg, q, b);
    ContinueNeverIgnores(cfg, q1.running);
    CostSplit(cfg, q1.running);
    TotalCostNonNegative(cfg, Filter(q1.running, Prefilling));
    NeverTaken(cfg, Admission(PlanAfter(cfg, q1.running), [], q1.running, [], b1), q.waiting, r);
  }

  // ---------------------------------------------------------------- runs under any clock

  /** One step that has its blocks, with the requests in `expired` timing out. */
  ghost predicate Follows(cfg: Config, a: Engine, expired: set<nat>, sample: nat -> Token, b: Engine) {
    WellFormed(a.blocks) && !Step(cfg, a, expired, sample).oom && b == Step(cfg, a, expired, sample).engine
  }

  ghost predicate FollowsAt(cfg: Config, state: nat -> Engine, clock: nat -> set<nat>, samples: nat -> nat -> Token,
                            i: nat) {
    Follows(cfg, state(i), clock(i), samples(i), state(i + 1))
  }

  /** An endless run: at step i the clock says who has timed out. */
  ghost predicate Run(cfg: Config, state: nat -> Engine, clock: nat -> set<nat>, samples: nat -> nat -> Token) {
    forall i: nat :: FollowsAt(cfg, state, clock, samples, i)
  }

  /** The request times out at some step from `i` up to `end` - 1. */
  ghost predicate ExpiresBy(clock: nat -> set<nat>, i: nat, end: nat, id: nat) {
    exists k: nat :: i <= k < end && id in clock(k)
  }

  ghost predicate Expires(clock: nat -> set<nat>, id: nat) { exists k: nat :: id in clock(k) }

  /** An idle engine can take the request, or the clock will. */
  ghost predicate Leaves(cfg: Config, clock: nat -> set<nat>, r: Request) {
    Schedulable(cfg, r) || Expires(clock, r.id)
  }

  ghost predicate AllLeave(cfg: Config, clock: nat -> set<nat>, rs: seq<Request>) {
    forall r :: r in rs ==> Leaves(cfg, clock, r)
  }

  ghost predicate AllLeaveBy(cfg: Config, clock: nat -> set<nat>, i: nat, end: nat, rs: seq<Request>) {
    forall r :: r in rs ==> Schedulable(cfg, r) || ExpiresBy(clock, i, end, r.id)
  }

  ghost predicate AllSchedulable(cfg: Config, q: Queue) { forall r :: r in q.waiting ==> Schedulable(cfg, r) }

  /** Finitely many requests have timed out by some step, if each of them does. */
  lemma {:induction false} CommonDeadline(cfg: Config, clock: nat -> set<nat>, rs: seq<Request>) returns (end: nat)
    requires AllLeave(cfg, clock, rs)
    ensures AllLeaveBy(cfg, clock, 0, end, rs)
    decreases |rs|
  {
    end := 0;
    if rs != [] {
      var last := rs[|rs| - 1];
      end := CommonDeadline(cfg, clock, rs[..|rs| - 1]);
      assert Leaves(cfg, clock, last);
      if !Schedulable(cfg, last) {
        var k: nat :| last.id in clock(k);
        end := Max(end, k + 1);
        assert ExpiresBy(clock, 0, end, last.id);
      }
      forall r | r in rs ensures Schedulable(cfg, r) || ExpiresBy(clock, 0, end, r.id) {
        if r != last { assert r in rs[..|rs| - 1]; }
      }
    }
  }

  /** Whoever waits after a step has waited before it and has not timed out in it. */
  lemma StillWaiting(cfg: Config, s: Engine, expired: set<nat>, sample: nat -> Token)
    requires WellFormed(s.blocks)
    ensures forall r :: r in Step(cfg, s, expired, sample).engine.queue.waiting ==>
      r in s.queue.waiting && r.id !in expired
  {
    var s1 := Drop(s, expired, TimedOut);
    WaitingComesFromWaiting(cfg, s1.queue, s1.blocks);
  }

  /** Deadlines stay what they are from one step to the next. */
  lemma DeadlineStep(cfg: Config, s: Engine, clock: nat -> set<nat>, sample: nat -> Token, n: Engine, i: nat,
                     next: nat, end: nat)
    requires Follows(cfg, s, clock(i), sample, n) && next == i + 1 && AllLeaveBy(cfg, clock, i, end, s.queue.waiting)
    ensures AllLeaveBy(cfg, clock, next, end, n.queue.waiting)
  {
    StillWaiting(cfg, s, clock(i), sample);
    DeadlinesKept(cfg, clock, i, next, end, s.queue.waiting, n.queue.waiting);
  }

  lemma DeadlinesKept(cfg: Config, clock: nat -> set<nat>, i: nat, next: nat, end: nat, before: seq<Request>,
                      after: seq<Request>)
    requires next == i + 1 && AllLeaveBy(cfg, clock, i, end, before)
    requires forall r :: r in after ==> r in before && r.id !in clock(i)
    ensures AllLeaveBy(cfg, clock, next, end, after)
  {
    forall r | r in after
      ensures Schedulable(cfg, r) || ExpiresBy(clock, next, end, r.id)
    {
      if !Schedulable(cfg, r) {
        var k: nat :| i <= k < end && r.id in clock(k);
        assert next <= k < end && r.id in clock(k);
      }
    }
  }

  /** Past the deadline everybody still waiting can be taken. */
  lemma PastDeadline(cfg: Config, clock: nat -> set<nat>, i: nat, end: nat, q: Queue)
    requires AllLeaveBy(cfg, clock, i, end, q.waiting) && i >= end
    ensures AllSchedulable(cfg, q)
  {
  }

  // ---------------------------------------------------------------- draining

  /** Up to the deadline anything may happen. */
  lemma {:induction false} RunReaches(cfg: Config, state: nat -> Engine, clock: nat -> set<nat>,
                                      samples: nat -> nat -> Token, i: nat, end: nat)
    requires Run(cfg, state, clock, samples) && Inv(cfg, state(0))
    requires AllLeaveBy(cfg, clock, 0, end, state(0).queue.waiting)
    ensures Inv(cfg, state(i)) && AllLeaveBy(cfg, clock, i, end, state(i).queue.waiting)
  {
    if i > 0 {
      var k := i - 1;
      RunReaches(cfg, state, clock, samples, k, end);
      assert FollowsAt(cfg, state, clock, samples, k);
      StepInv(cfg, state(k), clock(k), samples(k));
      DeadlineStep(cfg, state(k), clock, samples(k), state(i), k, i, end);
    }
  }

  /** From the deadline on the measure pays for every step. */
  ghost predicate Draining(s: Engine, elapsed: nat, bound: int) {
    Drained(s) || Measure(s.queue) + elapsed <= bound
  }

  lemma DrainStep(cfg: Config, a: Engine, expired: set<nat>, sample: nat -> Token, b: Engine, elapsed: nat,
                  next: nat, bound: int)
    requires Inv(cfg, a) && AllSchedulable(cfg, a.queue) && Follows(cfg, a, expired, sample, b)
    requires next == elapsed + 1 && Draining(a, elapsed, bound)
    ensures Draining(b, next, bound)
  {
    StepDecreases(cfg, a, expired, sample);
  }

  /** The run starts well, and everybody who cannot be taken times out before step `end`. */
  ghost predicate Timely(cfg: Config, state: nat -> Engine, clock: nat -> set<nat>, samples: nat -> nat -> Token,
                         end: nat) {
    Run(cfg, state, clock, samples) && Inv(cfg, state(0)) && AllLeaveBy(cfg, clock, 0, end, state(0).queue.waiting)
  }

  lemma DrainsFurther(cfg: Config, state: nat -> Engine, clock: nat -> set<nat>, samples: nat -> nat -> Token,
                      end: nat,
                      k: nat, i: nat, elapsed: nat, bound: int)
    requires Timely(cfg, state, clock, samples, end) && i == k + 1 && k == end + elapsed
    requires Draining(state(k), elapsed, bound)
    ensures Draining(state(i), elapsed + 1, bound)
  {
    RunReaches(cfg, state, clock, samples, k, end);
    PastDeadline(cfg, clock, k, end, state(k).queue);
    assert FollowsAt(cfg, state, clock, samples, k);
    DrainStep(cfg, state(k), clock(k), samples(k), state(i), elapsed, elapsed + 1, bound);
  }

  lemma {:induction false} RunDrains(cfg: Config, state: nat -> Engine, clock: nat -> set<nat>,
                                     samples: nat -> nat -> Token, end: nat, elapsed: nat)
    requires Timely(cfg, state, clock, samples, end)
    ensures Draining(state(end + elapsed), elapsed, Measure(state(end).queue))
  {
    if elapsed > 0 {
      RunDrains(cfg, state, clock, samples, end, elapsed - 1);
      DrainsFurther(cfg, state, clock, samples, end, end + (elapsed - 1), end + elapsed, elapsed - 1,
                    Measure(state(end).queue));
    }
  }

  lemma WorkLeft(cfg: Config, state: nat -> Engine, clock: nat -> set<nat>, samples: nat -> nat -> Token, end: nat,
                 i: nat)
    requires Timely(cfg, state, clock, samples, end)
    ensures Measure(state(i).queue) >= |state(i).queue.waiting| + |state(i).queue.running|
  {
    RunReaches(cfg, state, clock, samples, i, end);
    MeasureNonNegative(state(i).queue);
  }

  /** With or without prefix caching: once everybody who cannot be taken has timed out, the rest is
      done within as many steps as there is work left. */
  lemma DrainsAfterDeadline(cfg: Config, state: nat -> Engine, clock: nat -> set<nat>, samples: nat -> nat -> Token,
                            end: nat)
    returns (n: nat)
    requires Timely(cfg, state, clock, samples, end)
    ensures n == end + Measure(state(end).queue) && Drained(state(n))
  {
    WorkLeft(cfg, state, clock, samples, end, end);
    n := end + Measure(state(end).queue);
    RunDrains(cfg, state, clock, samples, end, Measure(state(end).queue));
    WorkLeft(cfg, state, clock, samples, end, n);
  }

  // ---------------------------------------------------------------- starving

  ghost predicate Starving(cfg: Config, clock: nat -> set<nat>, s: Engine, r: Request) {
    Inv(cfg, s) && r in s.queue.waiting && !Leaves(cfg, clock, r)
  }

  lemma StarvesOneStep(cfg: Config, a: Engine, clock: nat -> set<nat>, i: nat, sample: nat -> Token, b: Engine,
                       r: Request)
    requires Follows(cfg, a, clock(i), sample, b) && Starving(cfg, clock, a, r) && !cfg.prefixCaching
    ensures Starving(cfg, clock, b, r)
  {
    var s1 := Drop(a, clock(i), TimedOut);
    DropInv(cfg, a, clock(i), TimedOut);
    assert r.id !in clock(i) && r in s1.queue.waiting;
    ScheduleStarves(cfg, s1.queue, s1.blocks, r);
    StepInv(cfg, a, clock(i), sample);
  }

  lemma {:induction false} RunStarves(cfg: Config, state: nat -> Engine, clock: nat -> set<nat>,
                                      samples: nat -> nat -> Token, n: nat, r: Request)
    requires Run(cfg, state, clock, samples) && Starving(cfg, clock, state(0), r) && !cfg.prefixCaching
    ensures Starving(cfg, clock, state(n), r)
  {
    if n > 0 {
      var k := n - 1;
      RunStarves(cfg, state, clock, samples, k, r);
      assert FollowsAt(cfg, state, clock, samples, k);
      StarvesOneStep(cfg, state(k), clock, k, samples(k), state(n), r);
    }
  }

  // ---------------------------------------------------------------- the exact condition

  /** With enough blocks and no prefix caching, `run_until_done` comes to an end if and only if every
      waiting request either can be taken by an idle engine or times out at some step. */
  lemma DrainsIffAllLeave(cfg: Config, state: nat -> Engine, clock: nat -> set<nat>, samples: nat -> nat -> Token)
    requires Run(cfg, state, clock, samples) && Inv(cfg, state(0)) && !cfg.prefixCaching
    ensures (exists n: nat :: Drained(state(n)))
      <==> forall r :: r in state(0).queue.waiting ==> Schedulable(cfg, r) || exists i: nat :: r.id in clock(i)
  {
    if AllLeave(cfg, clock, state(0).queue.waiting) {
      var end := CommonDeadline(cfg, clock, state(0).queue.waiting);
      var n := DrainsAfterDeadline(cfg, state, clock, samples, end);
      forall r | r in state(0).queue.waiting ensures Schedulable(cfg, r) || exists i: nat :: r.id in clock(i) {
        assert Leaves(cfg, clock, r);
      }
    } else {
      var r :| r in state(0).queue.waiting && !Leaves(cfg, clock, r);
      forall n: nat ensures !Drained(state(n)) {
        RunStarves(cfg, state, clock, samples, n, r);
      }
      assert !(Schedulable(cfg, r) || exists i: nat :: r.id in clock(i));
    }
  }

  /** When no timeout ever fires, it ends if and only if every waiting request can be taken, and
      then within Measure steps. */
  lemma DrainsIffSchedulable(cfg: Config, state: nat -> Engine, samples: nat -> nat -> Token)
    requires Run(cfg, state, (i: nat) => {}, samples) && Inv(cfg, state(0)) && !cfg.prefixCaching
    ensures (exists n: nat :: Drained(state(n))) <==> AllSchedulable(cfg, state(0).queue)
    ensures AllSchedulable(cfg, state(0).queue)
      ==> Measure(state(0).queue) >= 0 && Drained(state(Measure(state(0).queue)))
  {
    var clock: nat -> set<nat> := (i: nat) => {};
    DrainsIffAllLeave(cfg, state, clock, samples);
    if AllSchedulable(cfg, state(0).queue) { var n := DrainsAfterDeadline(cfg, state, clock, samples, 0); }
  }

  // ---------------------------------------------------------------- a request nobody takes

  /** Chunks of 8 against a prefill budget of 4. */
  function TightConfig(): Config {
    RawConfig(4, 16, 4, true, 8, 4, 8, false, false, (ts: seq<Token>) => 0)
  }

  /** A prompt of ten tokens fits the token budget, so it is not rejected, but its first chunk does
      not fit the prefill budget, so it is not admitted: with no timeout the loop never ends. */
  lemma TightConfigStarves(state: nat -> Engine, samples: nat -> nat -> Token, n: nat)
    requires state(0) == AddRequest(Init(TightConfig()), [0, 1, 2, 3, 4, 5, 6, 7, 8, 9], 1)
    requires Run(TightConfig(), state, (i: nat) => {}, samples)
    ensures !Drained(state(n))
  {
    var cfg := TightConfig();
    var prompt: seq<Token> := [0, 1, 2, 3, 4, 5, 6, 7, 8, 9];
    InitInv(cfg);
    AddInv(cfg, Init(cfg), prompt, 1);
    var r := NewRequest(0, prompt, 1);
    assert AdmissionCharge(cfg, |r.prompt|, 0) == 8;
    assert !Schedulable(cfg, r);
    assert r in state(0).queue.waiting;
    DrainsIffSchedulable(cfg, state, samples);
  }
}

/** Whole runs of the engine: any interleaving of additions, cancels and steps, with any timeouts
    and any sampled tokens. */
module Runs {
  import opened Base
  import opened BlockSpec
  import opened Requests
  import opened ScheduleSpec
  import opened EngineSpec
  import opened EngineLaws
  import opened StepLaws

  datatype Event =
    | AddEvent(prompt: seq<Token>, maxTokens: int)
    | CancelEvent(id: nat)
    | StepEvent(expired: set<nat>, sample: nat -> Token)

  /** The engine itself never checks that a prompt is non-empty; its front door does. */
  predicate Legal(e: Event) { e.AddEvent? ==> |e.prompt| > 0 }

  function Apply(cfg: Config, s: Engine, e: Event): (r: Engine)
    requires WellFormed(s.blocks)
    ensures WellFormed(r.blocks)
  {
    match e
    case AddEvent(prompt, maxTokens) => AddRequest(s, prompt, maxTokens)
    case CancelEvent(id) => Cancel(s, id)
    case StepEvent(expired, sample) => Step(cfg, s, expired, sample).engine
  }

  function RunFrom(cfg: Config, s: Engine, es: seq<Event>): (r: Engine)
    requires WellFormed(s.blocks)
    ensures WellFormed(r.blocks)
    decreases |es|
  {
    if es == [] then s else RunFrom(cfg, Apply(cfg, s, es[0]), es[1..])
  }

  lemma ApplyInv(cfg: Config, s: Engine, e: Event)
    requires Inv(cfg, s) && Legal(e)
    ensures Inv(cfg, Apply(cfg, s, e))
  {
    match e
    case AddEvent(prompt, maxTokens) => AddInv(cfg, s, prompt, maxTokens);
    case CancelEvent(id) => CancelInv(cfg, s, id);
    case StepEvent(expired, sample) => StepInv(cfg, s, expired, sample);
  }

  lemma {:induction false} RunInv(cfg: Config, s: Engine, es: seq<Event>)
    requires Inv(cfg, s) && forall e :: e in es ==> Legal(e)
    ensures Inv(cfg, RunFrom(cfg, s, es))
    decreases |es|
  {
    if es != [] {
      ApplyInv(cfg, s, es[0]);
      RunInv(cfg, Apply(cfg, s, es[0]), es[1..]);
    }
  }

  /** Every state of every run keeps the books: reference counts are the live table entries, free
      blocks are the unreferenced ones, no block has two owners; tables exist exactly for the
      running sequences; an idle engine holds no block; no request is ever lost. */
  lemma EveryRunKeepsTheBooks(cfg: Config, es: seq<Event>)
    requires forall e :: e in es ==> Legal(e)
    ensures
      var s := RunFrom(cfg, Init(cfg), es);
      && Conserved(s.blocks)
      && s.blocks.tables.Keys == Ids(s.queue.running)
      && (s.queue.running == [] ==> forall p :: 0 <= p < |s.blocks.pool.free| ==> s.blocks.pool.free[p])
      && AllIds(s.queue) == UpTo(s.nextId)
  {
    InitInv(cfg);
    RunInv(cfg, Init(cfg), es);
    var s := RunFrom(cfg, Init(cfg), es);
    if s.queue.running == [] {
      assert s.blocks.tables.Keys == {};
      assert s.blocks.tables == map[];
      NoTablesAllFree(s.blocks);
    }
  }

  // ---------------------------------------------------------------- the four pools

  ghost predicate Partitioned(q: Queue) {
    && Shaped(q) && Ids(q.finished) !! Ids(q.rejected)
  }

  /** The four pools stay disjoint under every event except the cancel of a rejected request,
      which files that request as finished too. */
  lemma PoolsStayDisjoint(cfg: Config, s: Engine, e: Event)
    requires Inv(cfg, s) && Legal(e) && Partitioned(s.queue)
    ensures Partitioned(Apply(cfg, s, e).queue) <==> !(e.CancelEvent? && e.id in Ids(s.queue.rejected))
  {
    ApplyInv(cfg, s, e);
    var q := s.queue;
    match e
    case AddEvent(prompt, maxTokens) =>
    case CancelEvent(id) =>
      if id in Ids(q.rejected) {
        CancelRejected(q, id);
      } else if id !in Ids(q.finished) && id !in Ids(q.waiting) + Ids(q.running) {
        FilterNone(q.rejected, InSet({id}));
      } else if id !in Ids(q.finished) {
        DropDisjoint(cfg, s, {id}, Cancelled);
      }
    case StepEvent(expired, sample) =>
      DropDisjoint(cfg, s, expired, TimedOut);
      DropInv(cfg, s, expired, TimedOut);
      var s1 := Drop(s, expired, TimedOut);
      ScheduleKeepsIds(cfg, s1.queue, s1.blocks);
  }

  /** A token budget of four, without chunks. */
  function SmallConfig(): Config {
    RawConfig(4, 4, 4, false, 4, 4, 8, false, false, (ts: seq<Token>) => 0)
  }

  /** A run that breaks the partition: a prompt of five tokens is rejected by the first step, and
      cancelling it then files it as finished while it stays rejected. */
  lemma CancelBreaksThePartition(sample: nat -> Token)
    ensures
      var s := RunFrom(SmallConfig(), Init(SmallConfig()), [AddEvent([0, 1, 2, 3, 4], 4), StepEvent({}, sample)]);
      && Partitioned(s.queue) && 0 in Ids(s.queue.rejected)
      && !Partitioned(Apply(SmallConfig(), s, CancelEvent(0)).queue)
  {
    var cfg := SmallConfig();
    var s1, s2 := AfterOversized(cfg, sample);
    RunOfTwo(cfg, Init(cfg), AddEvent([0, 1, 2, 3, 4], 4), StepEvent({}, sample));
    PoolsStayDisjoint(cfg, s2, CancelEvent(0));
  }

  lemma RunOfTwo(cfg: Config, s: Engine, e: Event, f: Event)
    requires WellFormed(s.blocks)
    ensures RunFrom(cfg, s, [e, f]) == Apply(cfg, Apply(cfg, s, e), f)
  {
    assert [e, f][1..] == [f] && [f][1..] == [];
    assert RunFrom(cfg, Apply(cfg, Apply(cfg, s, e), f), []) == Apply(cfg, Apply(cfg, s, e), f);
    assert RunFrom(cfg, Apply(cfg, s, e), [f]) == Apply(cfg, Apply(cfg, s, e), f);
  }

  lemma AfterOversized(cfg: Config, sample: nat -> Token) returns (s1: Engine, s2: Engine)
    requires !cfg.prefixCaching && !cfg.chunkedPrefill && cfg.maxNumBatchedTokens == 4
    ensures s1 == Apply(cfg, Init(cfg), AddEvent([0, 1, 2, 3, 4], 4)) && WellFormed(s1.blocks)
    ensures s2 == Apply(cfg, s1, StepEvent({}, sample))
    ensures Inv(cfg, s2) && Partitioned(s2.queue) && 0 in Ids(s2.queue.rejected)
  {
    var add, step := AddEvent([0, 1, 2, 3, 4], 4), StepEvent({}, sample);
    s1 := Apply(cfg, Init(cfg), add);
    s2 := Apply(cfg, s1, step);
    InitInv(cfg);
    ApplyInv(cfg, Init(cfg), add);
    ApplyInv(cfg, s1, step);
    PoolsStayDisjoint(cfg, Init(cfg), add);
    PoolsStayDisjoint(cfg, s1, step);
    FirstIsRejected(cfg, s1, sample, NewRequest(0, [0, 1, 2, 3, 4], 4));
  }

  /** An oversized prompt alone in the engine is rejected. */
  lemma FirstIsRejected(cfg: Config, s: Engine, sample: nat -> Token, r: Request)
    requires Inv(cfg, s) && s.queue.waiting == [r] && s.queue.running == [] && !cfg.prefixCaching
    requires |r.prompt| > cfg.maxNumBatchedTokens && AdmissionCharge(cfg, |r.prompt|, 0) > cfg.maxNumBatchedTokens
    ensures r.id in Ids(Step(cfg, s, {}, sample).engine.queue.rejected)
  {
    var s1 := Drop(s, {}, TimedOut);
    DropInv(cfg, s, {}, TimedOut);
    assert s1.queue.waiting == [r] && s1.queue.running == [];
    RejectedAlone(cfg, s1.queue, s1.blocks, r);
  }

  lemma RejectedAlone(cfg: Config, q: Queue, b: Blocks, r: Request)
    requires WellFormed(b) && q.waiting == [r] && q.running == [] && !cfg.prefixCaching
    requires |r.prompt| > cfg.maxNumBatchedTokens && AdmissionCharge(cfg, |r.prompt|, 0) > cfg.maxNumBatchedTokens
    ensures r in RunSchedule(cfg, q, b).0.rejected
  {
    assert FinishPhase(q).running == [] && FinishPhase(q).waiting == [r];
    assert Filter(q.running, ReachedLimit) == [] && [r][..0] == [];
    var a := Admission(ContinuePlan(cfg, []), [], [], [], b);
    assert AdmitAll(cfg, a, [r]) == AdmitOne(cfg, AdmitAll(cfg, a, []), r) == AdmitOne(cfg, a, r);
  }

  lemma CancelRejected(q: Queue, id: nat)
    requires id in Ids(q.rejected) && Ids(q.finished) !! Ids(q.rejected)
    ensures id in Ids(q.finished + Filter(q.rejected, InSet({id})))
  {
    var r :| r in q.rejected && r.id == id;
    assert r in Filter(q.rejected, InSet({id}));
  }

  lemma DropDisjoint(cfg: Config, s: Engine, ids: set<nat>, status: Status)
    requires Inv(cfg, s) && Partitioned(s.queue)
    requires status == TimedOut || status == Cancelled
    ensures Ids(Drop(s, ids, status).queue.finished) !! Ids(s.queue.rejected)
  {
    var q := s.queue;
    var gone := Filter(q.running, InSet(ids));
    var left := Filter(q.waiting, InSet(ids));
    AllWithStatusIds(gone, status);
    IdsAppend(q.finished, AllWithStatus(gone, status));
    IdsAppend(q.finished + AllWithStatus(gone, status), left);
    assert Ids(gone) <= Ids(q.running) && Ids(left) <= Ids(q.waiting);
  }

  // ---------------------------------------------------------------- nobody stalls

  /** In every step of every run, each request running after scheduling is in the batch, only
      waiting requests are ignored, and the batch respects the token and sequence budgets. */
  lemma NobodyStalls(cfg: Config, s: Engine, expired: set<nat>)
    requires Inv(cfg, s)
    ensures
      var p := Prepare(cfg, s, expired);
      && (forall r :: r in p.engine.queue.running <==> r in BatchOf(p.schedule))
      && |BatchOf(p.schedule)| == |p.engine.queue.running| <= cfg.maxNumSeqs
      && TotalCost(cfg, BatchOf(p.schedule)) <= p.schedule.numBatchedTokens <= cfg.maxNumBatchedTokens
      && p.schedule.numPrefillTokens <= cfg.maxNumPrefillTokens
      && (cfg.chunkedPrefill ==> TotalCost(cfg, BatchOf(p.schedule)) == p.schedule.numBatchedTokens)
  {
    PrepareLaw(cfg, s, expired);
    var p := Prepare(cfg, s, expired);
    BatchIsRunning(cfg, p.engine.queue, p.engine.blocks, p.schedule);
    TotalCostAppend(cfg, p.schedule.prefill, p.schedule.decode);
    CostSplit(cfg, p.schedule.decode);
    FilterNone(p.schedule.decode, Prefilling);
  }

  /** Where one running request goes in one normal step: done requests finish, all others are
      processed. */
  lemma StepMoves(cfg: Config, s: Engine, expired: set<nat>, sample: nat -> Token, r: Request)
    requires Inv(cfg, s) && r in s.queue.running && r.id !in expired
    requires !Step(cfg, s, expired, sample).oom
    ensures
      var n := Step(cfg, s, expired, sample).engine.queue;
      if ReachedLimit(r) then r.(status := Finished) in n.finished
      else Advance(cfg, r, sample(r.id)) in n.running
  {
    var s1 := Drop(s, expired, TimedOut);
    var q1 := FinishPhase(s1.queue);
    var b1 := FreeAll(s1.blocks, Filter(s1.queue.running, ReachedLimit));
    DropInv(cfg, s, expired, TimedOut);
    FinishPhaseShaped(s1.queue);
    FinishPhaseBacked(cfg, s1.queue, s1.blocks);
    assert r in s1.queue.running;
    if ReachedLimit(r) {
      var done := Filter(s1.queue.running, ReachedLimit);
      var i :| 0 <= i < |done| && done[i] == r;
      assert AllWithStatus(done, Finished)[i] in AllWithStatus(done, Finished);
    } else {
      assert r in q1.running;
      ContinueNeverIgnores(cfg, q1.running);
      AdmissionLaw(cfg, q1, b1);
      PrepareLaw(cfg, s, expired);
      var p := Prepare(cfg, s, expired);
      BatchIsRunning(cfg, p.engine.queue, p.engine.blocks, p.schedule);
      AdvancedIn(cfg, p.engine.queue.running, sample, r);
    }
  }

  lemma AdvancedIn(cfg: Config, rs: seq<Request>, sample: nat -> Token, r: Request)
    requires r in rs
    ensures Advance(cfg, r, sample(r.id)) in AdvanceAll(cfg, rs, Ids(rs), sample)
  {
    var i :| 0 <= i < |rs| && rs[i] == r;
    assert AdvanceAll(cfg, rs, Ids(rs), sample)[i] == Advance(cfg, r, sample(r.id));
  }

  // ---------------------------------------------------------------- the finished pool

  /** A schedule reports exactly the requests it adds to the finished pool. */
  lemma ScheduleFinishes(cfg: Config, q: Queue, b: Blocks)
    requires WellFormed(b)
    ensures RunSchedule(cfg, q, b).0.finished == q.finished + RunSchedule(cfg, q, b).2.finished
  {
  }

  /** What timeouts add to the finished pool never carries the status of a finished request. */
  lemma DropFinishes(s: Engine, ids: set<nat>) returns (others: seq<Request>)
    requires WellFormed(s.blocks) && Shaped(s.queue)
    ensures Drop(s, ids, TimedOut).queue.finished == s.queue.finished + others
    ensures forall r :: r in others ==> r.status != Finished
  {
    var q := s.queue;
    var gone := Filter(q.running, InSet(ids));
    others := AllWithStatus(gone, TimedOut) + Filter(q.waiting, InSet(ids));
    forall r | r in others ensures r.status != Finished {
      if r in AllWithStatus(gone, TimedOut) {
        var i :| 0 <= i < |gone| && AllWithStatus(gone, TimedOut)[i] == r;
      } else {
        assert r in q.waiting;
        assert Untouched(r);
      }
    }
    assert q.finished + AllWithStatus(gone, TimedOut) + Filter(q.waiting, InSet(ids)) == q.finished + others;
  }

  // ---------------------------------------------------------------- exact progress

  /** Steps a prompt still needs. */
  function PrefillSteps(cfg: Config, r: Request): int { CeilDiv(|r.prompt| - r.cursor, cfg.chunkSize) }

  /** The step count after which a request is finished. */
  function StepsToFinish(cfg: Config, r: Request): int {
    if r.status == Prefill then PrefillSteps(cfg, r) + r.maxTokens else r.maxTokens - r.generated + 1
  }

  /** The closed form of one request after `k` undisturbed steps. */
  ghost predicate ProgressedTo(cfg: Config, r: Request, k: nat, n: Request) {
    && n.id == r.id && n.prompt == r.prompt && n.maxTokens == r.maxTokens && n.generated == |n.output|
    && (r.status == Prefill && k < PrefillSteps(cfg, r) ==>
          n.status == Prefill && n.cursor == r.cursor + k * cfg.chunkSize && n.generated == 0)
    && (r.status == Prefill && k >= PrefillSteps(cfg, r) ==>
          && n.cursor == |r.prompt|
          && n.generated == Min(r.maxTokens, k - PrefillSteps(cfg, r) + 1))
    && (r.status == Running ==> n.cursor == |r.prompt| && n.generated == Min(r.maxTokens, r.generated + k))
    && (k >= StepsToFinish(cfg, r) <==> n.status == Finished)
    && (k < StepsToFinish(cfg, r) && (r.status == Running || k >= PrefillSteps(cfg, r)) ==> n.status == Running)
  }

  predicate IsStep(e: Event) { e.StepEvent? }

  function CountSteps(es: seq<Event>): nat
    decreases |es|
  {
    if es == [] then 0 else (if IsStep(es[0]) then 1 else 0) + CountSteps(es[1..])
  }

  /** Events that leave request `id` alone: it is neither cancelled nor timed out and no step
      runs out of blocks.  Other requests may come, go and be cancelled freely. */
  ghost predicate Undisturbed(cfg: Config, s: Engine, es: seq<Event>, id: nat)
    requires WellFormed(s.blocks)
    decreases |es|
  {
    es == [] ||
      (&& Legal(es[0])
       && Harmless(cfg, s, es[0], id)
       && Undisturbed(cfg, Apply(cfg, s, es[0]), es[1..], id))
  }

  lemma ProgressStart(cfg: Config, r: Request)
    requires Lively(r) && r.maxTokens >= 1
    ensures ProgressedTo(cfg, r, 0, r)
  {
    CeilDivCovers(|r.prompt| - r.cursor, cfg.chunkSize, 0);
  }

  /** One step of a request, then `k` more, is `k + 1` steps. */
  lemma ProgressShift(cfg: Config, r: Request, token: Token, k: nat, n: Request)
    requires Lively(r) && r.maxTokens >= 1 && !ReachedLimit(r)
    requires ProgressedTo(cfg, Advance(cfg, r, token), k, n)
    ensures ProgressedTo(cfg, r, k + 1, n)
  {
    if r.status == Prefill {
      var left := |r.prompt| - r.cursor;
      BlockSpec.CeilDivDrop(left, cfg.chunkSize);
      if Completes(cfg, r) {
        CeilDivCovers(left, cfg.chunkSize, 1);
        CeilDivCovers(left, cfg.chunkSize, 0);
      } else {
        assert (k + 1) * cfg.chunkSize == k * cfg.chunkSize + cfg.chunkSize;
      }
    }
  }

  lemma ProgressDone(cfg: Config, r: Request, k: nat, n: Request)
    requires Lively(r) && r.maxTokens >= 1 && ReachedLimit(r) && n == r.(status := Finished)
    ensures ProgressedTo(cfg, r, k + 1, n)
  {
  }

  lemma StaysFinished(cfg: Config, s: Engine, e: Event, r: Request)
    requires WellFormed(s.blocks) && r in s.queue.finished
    ensures r in Apply(cfg, s, e).queue.finished
  {
  }

  lemma {:induction false} RunKeepsFinished(cfg: Config, s: Engine, es: seq<Event>, r: Request)
    requires WellFormed(s.blocks) && r in s.queue.finished
    ensures r in RunFrom(cfg, s, es).queue.finished
    decreases |es|
  {
    if es != [] {
      StaysFinished(cfg, s, es[0], r);
      RunKeepsFinished(cfg, Apply(cfg, s, es[0]), es[1..], r);
    }
  }

  /** What one undisturbing event does to a running request. */
  function Moved(cfg: Config, e: Event, r: Request): (n: Request)
    ensures n.id == r.id
  {
    if !e.StepEvent? then r
    else if ReachedLimit(r) then r.(status := Finished)
    else Advance(cfg, r, e.sample(r.id))
  }

  function MovedBy(cfg: Config, es: seq<Event>, r: Request): Request
    decreases |es|
  {
    if es == [] || r.status == Finished then r else MovedBy(cfg, es[1..], Moved(cfg, es[0], r))
  }

  /** The closed form, for a request moved by itself. */
  lemma {:induction false} MovedByClosedForm(cfg: Config, es: seq<Event>, r: Request)
    requires Lively(r) && r.maxTokens >= 1
    ensures ProgressedTo(cfg, r, CountSteps(es), MovedBy(cfg, es, r))
    decreases |es|
  {
    if es == [] {
      ProgressStart(cfg, r);
    } else if es[0].StepEvent? {
      var k := CountSteps(es[1..]);
      if ReachedLimit(r) {
        ProgressDone(cfg, r, k, r.(status := Finished));
      } else {
        AdvanceLaw(cfg, r, es[0].sample(r.id));
        MovedByClosedForm(cfg, es[1..], Moved(cfg, es[0], r));
        ProgressShift(cfg, r, es[0].sample(r.id), k, MovedBy(cfg, es, r));
      }
    } else {
      MovedByClosedForm(cfg, es[1..], r);
    }
  }

  /** The event may happen without touching request `id`. */
  ghost predicate Harmless(cfg: Config, s: Engine, e: Event, id: nat)
    requires WellFormed(s.blocks)
  {
    match e
    case AddEvent(_, _) => true
    case CancelEvent(x) => x != id
    case StepEvent(expired, sample) => id !in expired && !Step(cfg, s, expired, sample).oom
  }

  /** A finished request is in the finished pool, any other in the running one. */
  ghost predicate Settled(r: Request, q: Queue) {
    if r.status == Finished then r in q.finished else r in q.running
  }

  lemma AddMoves(s: Engine, prompt: seq<Token>, maxTokens: int, r: Request)
    requires Lively(r) && r in s.queue.running
    ensures Settled(r, AddRequest(s, prompt, maxTokens).queue)
  {
  }

  lemma CancelMoves(s: Engine, id: nat, r: Request)
    requires WellFormed(s.blocks) && Lively(r) && r in s.queue.running && id != r.id
    ensures Settled(r, Cancel(s, id).queue)
  {
  }

  lemma StepSettles(cfg: Config, s: Engine, expired: set<nat>, sample: nat -> Token, r: Request)
    requires Inv(cfg, s) && r in s.queue.running && r.id !in expired
    requires !Step(cfg, s, expired, sample).oom
    ensures Settled(Moved(cfg, StepEvent(expired, sample), r), Step(cfg, s, expired, sample).engine.queue)
  {
    StepMoves(cfg, s, expired, sample, r);
    MovedSettles(cfg, expired, sample, r, Step(cfg, s, expired, sample).engine.queue);
  }

  lemma MovedSettles(cfg: Config, expired: set<nat>, sample: nat -> Token, r: Request, n: Queue)
    requires Lively(r)
    requires if ReachedLimit(r) then r.(status := Finished) in n.finished
      else Advance(cfg, r, sample(r.id)) in n.running
    ensures Settled(Moved(cfg, StepEvent(expired, sample), r), n)
  {
  }

  lemma EventMoves(cfg: Config, s: Engine, e: Event, r: Request)
    requires Inv(cfg, s) && r in s.queue.running && Harmless(cfg, s, e, r.id)
    ensures Settled(Moved(cfg, e, r), Apply(cfg, s, e).queue)
  {
    match e
    case StepEvent(expired, sample) => StepSettles(cfg, s, expired, sample, r);
    case AddEvent(prompt, maxTokens) => AddMoves(s, prompt, maxTokens, r);
    case CancelEvent(id) => CancelMoves(s, id, r);
  }

  lemma {:induction false} RunMoves(cfg: Config, s: Engine, es: seq<Event>, r: Request)
    requires Inv(cfg, s) && r in s.queue.running && Undisturbed(cfg, s, es, r.id)
    ensures Settled(MovedBy(cfg, es, r), RunFrom(cfg, s, es).queue)
    decreases |es|
  {
    assert r.status != Finished by { assert Lively(r); }
    if es != [] {
      var n := Apply(cfg, s, es[0]);
      var m := Moved(cfg, es[0], r);
      ApplyInv(cfg, s, es[0]);
      EventMoves(cfg, s, es[0], r);
      assert Undisturbed(cfg, n, es[1..], m.id);
      if m.status == Finished {
        RunKeepsFinished(cfg, n, es[1..], m);
      } else {
        RunMoves(cfg, n, es[1..], m);
      }
    }
  }

  /** Exact progress: whatever else happens around it, an undisturbed running request is after k
      steps exactly where the closed form says: cursor min(P, c + k*chunk), tokens
      max(0, min(M, k - K + 1)), finished from step K + M on with exactly M tokens. */
  lemma ExactProgress(cfg: Config, s: Engine, es: seq<Event>, r: Request) returns (n: Request)
    requires Inv(cfg, s) && r in s.queue.running && r.maxTokens >= 1
    requires Undisturbed(cfg, s, es, r.id)
    ensures ProgressedTo(cfg, r, CountSteps(es), n)
    ensures Settled(n, RunFrom(cfg, s, es).queue)
  {
    n := MovedBy(cfg, es, r);
    MovedByClosedForm(cfg, es, r);
    RunMoves(cfg, s, es, r);
  }

  /** What admission makes of a waiting request: it starts its prompt somewhere. */
  ghost predicate AdmittedFrom(ws: seq<Request>, r: Request) {
    exists w :: w in ws && r == w.(status := Prefill, cursor := r.cursor)
  }

  lemma {:induction false} AdmitAllFrom(cfg: Config, a: Admission, rs: seq<Request>)
    requires WellFormed(a.blocks)
    ensures forall r :: r in AdmitAll(cfg, a, rs).running ==> r in a.running || AdmittedFrom(rs, r)
    decreases |rs|
  {
    if rs != [] {
      var k := |rs| - 1;
      AdmitAllFrom(cfg, a, rs[..k]);
      forall r | r in AdmitAll(cfg, a, rs).running ensures r in a.running || AdmittedFrom(rs, r) {
        if AdmittedFrom(rs[..k], r) {
          var w :| w in rs[..k] && r == w.(status := Prefill, cursor := r.cursor);
          assert w in rs;
        } else if r !in a.running {
          assert rs[k] in rs && r == rs[k].(status := Prefill, cursor := r.cursor);
        }
      }
    }
  }

  lemma ScheduleAdmits(cfg: Config, q: Queue, b: Blocks, r: Request)
    requires WellFormed(b) && Shaped(q) && r in RunSchedule(cfg, q, b).0.running && r.id !in Ids(q.running)
    ensures AdmittedFrom(q.waiting, r)
  {
    var q1 := FinishPhase(q);
    var b1 := FreeAll(b, Filter(q.running, ReachedLimit));
    AdmitAllFrom(cfg, Admission(ContinuePlan(cfg, q1.running), [], q1.running, [], b1), q.waiting);
  }

  lemma AdmittedInStep(cfg: Config, s: Engine, expired: set<nat>, r: Request)
    requires Inv(cfg, s) && r.id in Ids(s.queue.waiting) && r in Prepare(cfg, s, expired).engine.queue.running
    ensures AdmittedFrom(s.queue.waiting, r)
  {
    var s1 := Drop(s, expired, TimedOut);
    DropInv(cfg, s, expired, TimedOut);
    assert Ids(s1.queue.running) <= Ids(s.queue.running);
    ScheduleAdmits(cfg, s1.queue, s1.blocks, r);
    var w :| w in s1.queue.waiting && r == w.(status := Prefill, cursor := r.cursor);
    assert w in s.queue.waiting;
  }

  /** The first step of a request is the one that admits it. */
  lemma AdmissionMoves(cfg: Config, s: Engine, expired: set<nat>, sample: nat -> Token, r: Request)
    requires Inv(cfg, s) && r in Prepare(cfg, s, expired).engine.queue.running
    requires !Step(cfg, s, expired, sample).oom
    ensures Lively(r) && Advance(cfg, r, sample(r.id)) in Step(cfg, s, expired, sample).engine.queue.running
  {
    PrepareLaw(cfg, s, expired);
    var p := Prepare(cfg, s, expired);
    BatchIsRunning(cfg, p.engine.queue, p.engine.blocks, p.schedule);
    AdvancedIn(cfg, p.engine.queue.running, sample, r);
  }

  /** Exact progress from admission on: a request admitted at cursor c0 by a step is, k steps later
      counting that one, exactly where the closed form with c0 says. */
  lemma ExactProgressFromAdmission(cfg: Config, s: Engine, expired: set<nat>, sample: nat -> Token, es: seq<Event>,
                                   r: Request)
    returns (n: Request)
    requires Inv(cfg, s) && r.id in Ids(s.queue.waiting) && r in Prepare(cfg, s, expired).engine.queue.running
    requires r.maxTokens >= 1 && !Step(cfg, s, expired, sample).oom
    requires Undisturbed(cfg, Step(cfg, s, expired, sample).engine, es, r.id)
    ensures AdmittedFrom(s.queue.waiting, r)
    ensures ProgressedTo(cfg, r, 1 + CountSteps(es), n)
    ensures Settled(n, RunFrom(cfg, Step(cfg, s, expired, sample).engine, es).queue)
  {
    AdmittedInStep(cfg, s, expired, r);
    AdmissionMoves(cfg, s, expired, sample, r);
    StepInv(cfg, s, expired, sample);
    NothingGenerated(s.queue, r);
    n := ProgressOnwards(cfg, Step(cfg, s, expired, sample).engine, es, r, sample(r.id));
  }

  lemma NothingGenerated(q: Queue, r: Request)
    requires Shaped(q) && AdmittedFrom(q.waiting, r)
    ensures r.generated == 0
  {
    var w :| w in q.waiting && r == w.(status := Prefill, cursor := r.cursor);
    assert Untouched(w);
  }

  lemma ProgressOnwards(cfg: Config, s: Engine, es: seq<Event>, r: Request, token: Token) returns (n: Request)
    requires Inv(cfg, s) && Lively(r) && r.maxTokens >= 1 && !ReachedLimit(r)
    requires Advance(cfg, r, token) in s.queue.running && Undisturbed(cfg, s, es, r.id)
    ensures ProgressedTo(cfg, r, 1 + CountSteps(es), n)
    ensures Settled(n, RunFrom(cfg, s, es).queue)
  {
    n := ExactProgress(cfg, s, es, Advance(cfg, r, token));
    ProgressShift(cfg, r, token, CountSteps(es), n);
  }
}

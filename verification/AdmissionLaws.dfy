/** What the admission check decides, code by code, and what it guarantees over whole runs: a bounded
    queue, bounded prompts and a reserve of blocks. */
module AdmissionLaws {
  import opened Base
  import opened BlockSpec
  import opened BlockCoverage
  import opened Requests
  import opened ScheduleSpec
  import opened EngineSpec
  import opened Runs
  import opened AdmissionControl
  import opened Lifecycle

  function FreeBlocks(s: Engine): nat { |FreeIds(s.blocks.pool.free, 0)| }

  /** The answer of the check to a request submitted in state `s`. */
  function Verdict(cfg: Config, limits: Limits, s: Engine, prompt: seq<Token>, maxTokens: int): Option<Refusal> {
    Check(cfg, limits, |prompt|, maxTokens, |s.queue.waiting|, |s.blocks.pool.free|, FreeBlocks(s))
  }

  // ---------------------------------------------------------------- code by code

  predicate LengthFits(limits: Limits, prompt: seq<Token>) { 1 <= |prompt| <= limits.maxModelLen }

  predicate QueueFits(limits: Limits, s: Engine) { |s.queue.waiting| <= limits.maxQueueLen }

  /** The free blocks, less a fifth of the pool, hold every position the request asks for. */
  predicate BlocksFit(cfg: Config, s: Engine, prompt: seq<Token>, maxTokens: int) {
    |prompt| + maxTokens <= (FreeBlocks(s) - |s.blocks.pool.free| / 5) * cfg.blockSize
  }

  /** Every refusal names the first promise that adding the request would break, in the order
      length, queue, blocks; and nothing is refused that would break none. */
  lemma VerdictNamesTheBreach(cfg: Config, limits: Limits, s: Engine, prompt: seq<Token>, maxTokens: int)
    ensures
      var n := AddRequest(s, prompt, maxTokens);
      var verdict := Verdict(cfg, limits, s, prompt, maxTokens);
      && (verdict == None <==>
            LengthFits(limits, prompt) && QueueFits(limits, n) && BlocksFit(cfg, s, prompt, maxTokens))
      && (verdict == Some(PromptTooLong) <==> !LengthFits(limits, prompt))
      && (verdict == Some(QueueOverflow) <==> LengthFits(limits, prompt) && !QueueFits(limits, n))
      && (verdict == Some(BlockExhausted) <==>
            LengthFits(limits, prompt) && QueueFits(limits, n) && !BlocksFit(cfg, s, prompt, maxTokens))
  {
    CeilDivCovers(|prompt| + maxTokens, cfg.blockSize, FreeBlocks(s) - |s.blocks.pool.free| / 5);
  }

  // ---------------------------------------------------------------- the reserve

  ghost function FreeSet(free: seq<bool>): set<nat> { set q: nat | q < |free| && free[q] }

  lemma {:induction false} CountFree(free: seq<bool>, i: nat)
    requires i <= |free|
    ensures |FreeIds(free, i)| == |set q: nat | i <= q < |free| && free[q]|
    decreases |free| - i
  {
    if i < |free| {
      var next := i + 1;
      CountFree(free, next);
      var rest := set q: nat | next <= q < |free| && free[q];
      assert (set q: nat | i <= q < |free| && free[q]) == if free[i] then rest + {i} else rest;
    }
  }

  lemma FreeSetSize(free: seq<bool>)
    ensures |FreeSet(free)| == |FreeIds(free, 0)|
  {
    CountFree(free, 0);
    assert FreeSet(free) == set q: nat | 0 <= q < |free| && free[q];
  }

  lemma {:induction false} SizeOfDistinct(ids: seq<nat>)
    requires forall j, k :: 0 <= j < k < |ids| ==> ids[j] < ids[k]
    ensures |set k | 0 <= k < |ids| :: ids[k]| == |ids|
    decreases |ids|
  {
    if ids != [] {
      var n := |ids| - 1;
      var front := ids[..n];
      SizeOfDistinct(front);
      var s := set k | 0 <= k < n :: front[k];
      assert (set k | 0 <= k < |ids| :: ids[k]) == s + {ids[n]};
      assert ids[n] !in s;
    }
  }

  /** Claiming `n` blocks leaves exactly `n` fewer free ones. */
  lemma ClaimingLeaves(p: Pool, n: nat)
    requires PoolShape(p) && 1 <= n <= |FreeIds(p.free, 0)|
    ensures Allocate(p, n).Some? && |FreeIds(Allocate(p, n).value.1.free, 0)| == |FreeIds(p.free, 0)| - n
  {
    var ids := FreeIds(p.free, 0)[..n];
    var r := Claim(p, ids);
    FreeIdsLaw(p.free, 0);
    ClaimLaw(p, ids);
    SizeOfDistinct(ids);
    FreeSetSize(p.free);
    FreeSetSize(r.free);
    var taken := set k | 0 <= k < |ids| :: ids[k];
    forall q | q in taken ensures q in FreeSet(p.free) {
      assert q in FreeIds(p.free, 0);
    }
    assert FreeSet(r.free) == FreeSet(p.free) - taken;
  }

  /** An accepted request leaves a reserve: taking the blocks for every position it asks for from the
      free ones succeeds, and a fifth of the pool, rounded down, is still free. */
  lemma AcceptedLeavesReserve(cfg: Config, limits: Limits, s: Engine, prompt: seq<Token>, maxTokens: int)
    requires PoolShape(s.blocks.pool) && Verdict(cfg, limits, s, prompt, maxTokens) == None
    requires |prompt| + maxTokens >= 1
    ensures
      var taken := Allocate(s.blocks.pool, CeilDiv(|prompt| + maxTokens, cfg.blockSize));
      taken.Some? && 5 * (|FreeIds(taken.value.1.free, 0)| + 1) > |s.blocks.pool.free|
  {
    CeilDivCovers(|prompt| + maxTokens, cfg.blockSize, 0);
    ClaimingLeaves(s.blocks.pool, CeilDiv(|prompt| + maxTokens, cfg.blockSize));
  }

  // ---------------------------------------------------------------- whole runs

  /** Every addition of the run was accepted in the state it was added to. */
  ghost predicate Gated(cfg: Config, limits: Limits, s: Engine, es: seq<Event>)
    requires WellFormed(s.blocks)
    decreases |es|
  {
    es == [] ||
      (&& (es[0].AddEvent? ==> Verdict(cfg, limits, s, es[0].prompt, es[0].maxTokens) == None)
       && Gated(cfg, limits, Apply(cfg, s, es[0]), es[1..]))
  }

  lemma {:induction false} LoopKeepsFew(cfg: Config, a: Admission, rs: seq<Request>)
    requires WellFormed(a.blocks)
    ensures |AdmitAll(cfg, a, rs).kept| <= |a.kept| + |rs|
    decreases |rs|
  {
    if rs != [] { LoopKeepsFew(cfg, a, rs[..|rs| - 1]); }
  }

  lemma ScheduleKeepsFew(cfg: Config, q: Queue, b: Blocks)
    requires WellFormed(b)
    ensures |RunSchedule(cfg, q, b).0.waiting| <= |q.waiting|
  {
    var q1 := FinishPhase(q);
    var b1 := FreeAll(b, Filter(q.running, ReachedLimit));
    LoopKeepsFew(cfg, Admission(ContinuePlan(cfg, q1.running), [], q1.running, [], b1), q.waiting);
  }

  /** Only additions lengthen the queue. */
  lemma ApplyKeepsFew(cfg: Config, s: Engine, e: Event)
    requires WellFormed(s.blocks) && !e.AddEvent?
    ensures |Apply(cfg, s, e).queue.waiting| <= |s.queue.waiting|
  {
    if e.StepEvent? {
      var s1 := Drop(s, e.expired, TimedOut);
      ScheduleKeepsFew(cfg, s1.queue, s1.blocks);
    }
  }

  /** Behind the check the queue is never longer than the limit. */
  lemma {:induction false} QueueStaysBounded(cfg: Config, limits: Limits, s: Engine, es: seq<Event>)
    requires WellFormed(s.blocks) && Gated(cfg, limits, s, es)
    requires |s.queue.waiting| <= Max(limits.maxQueueLen, 0)
    ensures |RunFrom(cfg, s, es).queue.waiting| <= Max(limits.maxQueueLen, 0)
    decreases |es|
  {
    if es != [] {
      var n := Apply(cfg, s, es[0]);
      AddedWithinLimit(cfg, limits, s, es[0]);
      QueueStaysBounded(cfg, limits, n, es[1..]);
    }
  }

  lemma AddedWithinLimit(cfg: Config, limits: Limits, s: Engine, e: Event)
    requires WellFormed(s.blocks) && |s.queue.waiting| <= Max(limits.maxQueueLen, 0)
    requires e.AddEvent? ==> Verdict(cfg, limits, s, e.prompt, e.maxTokens) == None
    ensures |Apply(cfg, s, e).queue.waiting| <= Max(limits.maxQueueLen, 0)
  {
    if !e.AddEvent? { ApplyKeepsFew(cfg, s, e); }
  }

  lemma {:induction false} GatedLengths(cfg: Config, limits: Limits, s: Engine, es: seq<Event>)
    requires WellFormed(s.blocks) && Gated(cfg, limits, s, es)
    ensures forall e :: e in es && e.AddEvent? ==> LengthFits(limits, e.prompt)
    decreases |es|
  {
    if es != [] {
      GatedLengths(cfg, limits, Apply(cfg, s, es[0]), es[1..]);
      FirstLength(cfg, limits, s, es[0]);
      assert forall e :: e in es ==> e == es[0] || e in es[1..];
    }
  }

  lemma FirstLength(cfg: Config, limits: Limits, s: Engine, e: Event)
    requires e.AddEvent? ==> Verdict(cfg, limits, s, e.prompt, e.maxTokens) == None
    ensures e.AddEvent? ==> LengthFits(limits, e.prompt)
  {
  }

  ghost predicate AllLengthsFit(limits: Limits, rs: seq<Request>) {
    forall r :: r in rs ==> LengthFits(limits, r.prompt)
  }

  /** Behind the check the engine only ever sees what it was built for: in every run from the start
      whose additions were accepted, the queue is within its limit and every prompt in every pool has
      between one token and the model's length; and every event of such a run is legal, so all the
      laws of legal runs hold. */
  lemma GatedRunsAreBounded(cfg: Config, limits: Limits, es: seq<Event>)
    requires Gated(cfg, limits, Init(cfg), es)
    ensures
      var q := RunFrom(cfg, Init(cfg), es).queue;
      && |q.waiting| <= Max(limits.maxQueueLen, 0)
      && AllLengthsFit(limits, q.waiting) && AllLengthsFit(limits, q.running)
      && AllLengthsFit(limits, q.finished) && AllLengthsFit(limits, q.rejected)
    ensures forall e :: e in es ==> Legal(e)
  {
    QueueStaysBounded(cfg, limits, Init(cfg), es);
    GatedLengths(cfg, limits, Init(cfg), es);
    RequestsKeepTheirIdentity(cfg, es);
    StemsFit(limits, es, RunFrom(cfg, Init(cfg), es).queue);
  }

  lemma StemsFit(limits: Limits, es: seq<Event>, q: Queue)
    requires PoolsStem(Additions(es), q) && forall e :: e in es && e.AddEvent? ==> LengthFits(limits, e.prompt)
    ensures AllLengthsFit(limits, q.waiting) && AllLengthsFit(limits, q.running)
    ensures AllLengthsFit(limits, q.finished) && AllLengthsFit(limits, q.rejected)
  {
    forall r | Stems(Additions(es), r) ensures LengthFits(limits, r.prompt) {
      assert Additions(es)[r.id] in es;
    }
  }
}

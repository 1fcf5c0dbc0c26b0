/** One scheduling iteration as a function on values, phase by phase. */
module ScheduleSpec {
  import opened Base
  import opened BlockSpec
  import opened Requests

  datatype Reason = MaxNumSeqsLimit | WaitingForNextStep | NoTokenBudget

  datatype Ignored = Ignored(id: nat, reason: Reason)

  /** The budgets a scheduling iteration counts down, and what it has picked so far. */
  datatype Plan = Plan(
    tokenBudget: int,
    prefillBudget: int,
    seqBudget: int,
    prefillTokens: int,
    chosen: seq<Request>,
    ignored: seq<Ignored>)

  datatype Schedule = Schedule(
    prefill: seq<Request>,
    decode: seq<Request>,
    ignored: seq<Ignored>,
    finished: seq<Request>,
    rejected: seq<Request>,
    numPrefillTokens: int,
    numDecodeTokens: int,
    numBatchedTokens: int,
    tokenBudgetRemaining: int)

  // ---------------------------------------------------------------- phase 1

  function FreeAll(b: Blocks, rs: seq<Request>): (r: Blocks)
    requires WellFormed(b)
    ensures WellFormed(r) && |r.pool.refs| == |b.pool.refs|
    decreases |rs|
  {
    if rs == [] then b else FreeSeq(FreeAll(b, rs[..|rs| - 1]), rs[|rs| - 1].id)
  }

  function FinishPhase(q: Queue): Queue {
    q.(running := Filter(q.running, BelowLimit),
       finished := q.finished + AllWithStatus(Filter(q.running, ReachedLimit), Finished))
  }

  // ---------------------------------------------------------------- phases 2 to 4

  function StartPlan(cfg: Config, decodes: nat): Plan {
    Plan(cfg.maxNumBatchedTokens - decodes,
         Min(cfg.maxNumBatchedTokens - decodes, cfg.maxNumPrefillTokens),
         cfg.maxNumSeqs - decodes, 0, [], [])
  }

  function Ignore(p: Plan, id: nat, reason: Reason): Plan {
    p.(ignored := p.ignored + [Ignored(id, reason)])
  }

  function Charge(p: Plan, r: Request, n: int): Plan {
    p.(tokenBudget := p.tokenBudget - n, prefillBudget := p.prefillBudget - n,
       seqBudget := p.seqBudget - 1, prefillTokens := p.prefillTokens + n,
       chosen := p.chosen + [r])
  }

  function ContinueOne(cfg: Config, p: Plan, r: Request): Plan {
    if p.seqBudget <= 0 then Ignore(p, r.id, MaxNumSeqsLimit)
    else
      var chunk := Min(|r.prompt| - r.cursor, cfg.chunkSize);
      if chunk > p.prefillBudget then Ignore(p, r.id, WaitingForNextStep) else Charge(p, r, chunk)
  }

  function ContinueAll(cfg: Config, p: Plan, rs: seq<Request>): Plan
    decreases |rs|
  {
    if rs == [] then p
    else ContinueOne(cfg, ContinueAll(cfg, p, rs[..|rs| - 1]), rs[|rs| - 1])
  }

  // ---------------------------------------------------------------- phase 5

  /** The state of the admission loop: waiting requests already passed over stay in `kept`. */
  datatype Admission = Admission(
    plan: Plan,
    kept: seq<Request>,
    running: seq<Request>,
    rejected: seq<Request>,
    blocks: Blocks)

  /** Tokens a waiting request would be charged: its first chunk, or the last chunk of a prompt
      that is cached completely. */
  function AdmissionCharge(cfg: Config, promptLen: nat, cached: nat): int
    requires cached <= promptLen
  {
    var uncached := promptLen - cached;
    var chunk := if cfg.chunkedPrefill then Min(uncached, cfg.chunkSize) else uncached;
    if chunk == 0 && uncached == 0 then Min(cfg.chunkSize, promptLen) else chunk
  }

  function StartCursor(cfg: Config, promptLen: nat, cached: nat): (c: nat)
    requires cached <= promptLen
    ensures c <= promptLen
  {
    if promptLen - cached == 0 then promptLen - AdmissionCharge(cfg, promptLen, cached) else cached
  }

  function AdmitOne(cfg: Config, a: Admission, r: Request): (n: Admission)
    requires WellFormed(a.blocks)
    ensures WellFormed(n.blocks) && |n.blocks.pool.refs| == |a.blocks.pool.refs|
  {
    if a.plan.seqBudget <= 0 then
      a.(plan := Ignore(a.plan, r.id, MaxNumSeqsLimit), kept := a.kept + [r])
    else
      var cached := ProbedTokens(cfg, a.blocks, r.prompt);
      var charge := AdmissionCharge(cfg, |r.prompt|, cached);
      if charge > a.plan.prefillBudget then
        if |r.prompt| - cached > cfg.maxNumBatchedTokens then a.(rejected := a.rejected + [r])
        else a.(plan := Ignore(a.plan, r.id, NoTokenBudget), kept := a.kept + [r])
      else
        var admitted := r.(status := Prefill, cursor := StartCursor(cfg, |r.prompt|, cached));
        a.(plan := Charge(a.plan, admitted, charge), running := a.running + [admitted],
           blocks := AllocateForSeq(cfg, a.blocks, r.id, r.prompt))
  }

  function AdmitAll(cfg: Config, a: Admission, rs: seq<Request>): (n: Admission)
    requires WellFormed(a.blocks)
    ensures WellFormed(n.blocks) && |n.blocks.pool.refs| == |a.blocks.pool.refs|
    decreases |rs|
  {
    if rs == [] then a
    else AdmitOne(cfg, AdmitAll(cfg, a, rs[..|rs| - 1]), rs[|rs| - 1])
  }

  function MayAdmit(cfg: Config, running: seq<Request>): bool {
    !cfg.staticBatch || running == []
  }

  function AdmitPhase(cfg: Config, q: Queue, b: Blocks, p: Plan): (a: Admission)
    requires WellFormed(b)
    ensures WellFormed(a.blocks) && |a.blocks.pool.refs| == |b.pool.refs|
  {
    if MayAdmit(cfg, q.running)
    then AdmitAll(cfg, Admission(p, [], q.running, [], b), q.waiting)
    else Admission(p, q.waiting, q.running, [], b)
  }

  // ---------------------------------------------------------------- all phases

  function ContinuePlan(cfg: Config, running: seq<Request>): Plan {
    ContinueAll(cfg, StartPlan(cfg, |Filter(running, Decoding)|), Filter(running, Prefilling))
  }

  /** The outcome of an iteration, with its token counts. */
  function Result(p: Plan, decodes: seq<Request>, done: seq<Request>, rejected: seq<Request>): Schedule {
    Schedule(p.chosen, decodes, p.ignored, done, rejected,
             p.prefillTokens, |decodes|, p.prefillTokens + |decodes|, p.tokenBudget)
  }

  function RunSchedule(cfg: Config, q: Queue, b: Blocks): (r: (Queue, Blocks, Schedule))
    requires WellFormed(b)
    ensures WellFormed(r.1) && |r.1.pool.refs| == |b.pool.refs|
  {
    var done := Filter(q.running, ReachedLimit);
    var q1 := FinishPhase(q);
    var decodes := Filter(q1.running, Decoding);
    var a := AdmitPhase(cfg, q1, FreeAll(b, done), ContinuePlan(cfg, q1.running));
    (Queue(a.kept, a.running, q1.finished, q1.rejected + a.rejected),
     a.blocks,
     Result(a.plan, decodes, AllWithStatus(done, Finished), a.rejected))
  }
}

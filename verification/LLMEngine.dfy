/** The public engine: submitting requests, stepping, and driving the loop until everything is
    done, with the texts collected on the way. */
module LLMEngines {
  import opened Base
  import opened BlockSpec
  import opened Requests
  import opened ScheduleSpec
  import opened EngineSpec
  import opened StepLaws
  import opened Termination
  import Runs
  import opened Transformer
  import opened PagedEngine
  import opened PagedRuns
  import opened BlockManagement
  import opened RequestQueues
  import opened Scheduling
  import opened Reaping
  import opened InputBuilding
  import opened ModelRunning
  import opened Executing
  import opened EngineCores

  // ---------------------------------------------------------------- collected outputs

  /** Every request that finished has its text recorded. */
  ghost predicate Collected(detok: seq<Token> -> string, finished: seq<Request>, outputs: map<nat, string>) {
    forall r :: r in finished && r.status == Finished ==> r.id in outputs && outputs[r.id] == detok(r.output)
  }

  /** Recording the texts of the requests a step reports. */
  function Record(detok: seq<Token> -> string, rs: seq<Request>, outputs: map<nat, string>): map<nat, string>
    decreases |rs|
  {
    if rs == [] then outputs
    else
      var k := |rs| - 1;
      RecordOne(detok, rs[k], Record(detok, rs[..k], outputs))
  }

  function RecordOne(detok: seq<Token> -> string, r: Request, o: map<nat, string>): map<nat, string> {
    if r.status == Finished then o[r.id := detok(r.output)] else o
  }

  ghost predicate KeepsOthers(rs: seq<Request>, before: map<nat, string>, now: map<nat, string>) {
    forall id :: id in before && id !in Ids(rs) ==> id in now && now[id] == before[id]
  }

  lemma RecordStep(detok: seq<Token> -> string, rs: seq<Request>, r: Request, before: map<nat, string>, o: map<nat,
                   string>)
    requires Collected(detok, rs, o) && KeepsOthers(rs, before, o) && r.id !in Ids(rs)
    ensures Collected(detok, rs + [r], RecordOne(detok, r, o))
    ensures KeepsOthers(rs + [r], before, RecordOne(detok, r, o))
  {
    IdsAppend(rs, [r]);
    assert forall x :: x in rs ==> x.id in Ids(rs);
  }

  lemma {:induction false} RecordLaw(detok: seq<Token> -> string, rs: seq<Request>, outputs: map<nat, string>)
    requires Distinct(rs)
    ensures Collected(detok, rs, Record(detok, rs, outputs)) && KeepsOthers(rs, outputs, Record(detok, rs, outputs))
    decreases |rs|
  {
    if rs != [] {
      var k := |rs| - 1;
      RecordLaw(detok, rs[..k], outputs);
      assert rs == rs[..k] + [rs[k]];
      RecordStep(detok, rs[..k], rs[k], outputs, Record(detok, rs[..k], outputs));
    }
  }

  /** The finished pool of a prepared step: what was there, requests that timed out or waited past
      the limit, and then the ones the schedule reports. */
  lemma FinishedPool(cfg: Config, s: Engine, expired: set<nat>) returns (others: seq<Request>)
    requires WellFormed(s.blocks) && Shaped(s.queue)
    ensures Prepare(cfg, s, expired).engine.queue.finished
         == s.queue.finished + others + Prepare(cfg, s, expired).schedule.finished
    ensures forall r :: r in others ==> r.status != Finished
  {
    others := Runs.DropFinishes(s, expired);
    var s1 := Drop(s, expired, TimedOut);
    Runs.ScheduleFinishes(cfg, s1.queue, s1.blocks);
  }

  lemma CollectedGrows(detok: seq<Token> -> string, a: seq<Request>, others: seq<Request>, done: seq<Request>,
                       outputs: map<nat, string>)
    requires Collected(detok, a, outputs) && Distinct(a + others + done)
    requires forall r :: r in others ==> r.status != Finished
    ensures Collected(detok, a + others + done, Record(detok, done, outputs))
  {
    var all := a + others + done;
    assert forall i :: 0 <= i < |done| ==> done[i] == all[|a| + |others| + i];
    assert Distinct(done);
    RecordLaw(detok, done, outputs);
    forall r | r in a ensures r.id !in Ids(done) {
      var i :| 0 <= i < |a| && a[i] == r;
      assert all[i] == r;
    }
  }

  // ---------------------------------------------------------------- one step of the public engine

  /** The public engine between calls: the engine invariant holds, every finished text is recorded,
      and, with prefix caching off, the caches refine the logs and every output is what its request
      would generate alone. */
  ghost predicate Serving(cfg: Config, m: Model, detok: seq<Token> -> string, s: Paged, outputs: map<nat, string>) {
    && Ready0(cfg, m, s)
    && Collected(detok, s.engine.queue.finished, outputs)
    && (!cfg.prefixCaching ==> Faithful(cfg, m, s))
  }

  lemma StepServes(cfg: Config, m: Model, detok: seq<Token> -> string, s: Paged, expired: set<nat>, n: Paged,
                   schedule: Schedule, outputs: map<nat, string>)
    requires Serving(cfg, m, detok, s, outputs) && SteppedAs(cfg, m, s, expired, n, schedule, true)
    ensures Serving(cfg, m, detok, n, Record(detok, schedule.finished, outputs))
  {
    StepKeepsInv(cfg, m, s, expired);
    if !cfg.prefixCaching { PagedStepFaithful(cfg, m, s, expired); }
    var others := FinishedPool(cfg, s.engine, expired);
    FinishedSame(cfg, m, s, expired);
    CollectedGrows(detok, s.engine.queue.finished, others, schedule.finished, outputs);
  }

  /** The model run does not touch the finished pool. */
  lemma FinishedSame(cfg: Config, m: Model, s: Paged, expired: set<nat>)
    requires Ready0(cfg, m, s)
    ensures PagedStep(cfg, m, s, expired).engine.queue.finished
      == Prepare(cfg, s.engine, expired).engine.queue.finished
    ensures Distinct(PagedStep(cfg, m, s, expired).engine.queue.finished)
  {
    StepKeepsInv(cfg, m, s, expired);
  }

  /** What is recorded of a finished request: the text of its output, which has exactly as many
      tokens as its limit; with prefix caching off it is the text of its own generation. */
  ghost predicate ServedOf(cfg: Config, m: Model, detok: seq<Token> -> string, texts: map<nat, string>, r: Request) {
    && |r.prompt| > 0 && |r.output| == r.maxTokens
    && r.id in texts && texts[r.id] == detok(r.output)
    && (!cfg.prefixCaching ==> r.output == Generate(m, r.prompt, r.maxTokens))
  }

  lemma ServedText(cfg: Config, m: Model, detok: seq<Token> -> string, s: Paged, outputs: map<nat, string>,
                   r: Request)
    requires Serving(cfg, m, detok, s, outputs)
    requires r in s.engine.queue.finished && r.status == Finished && r.maxTokens >= 1
    ensures ServedOf(cfg, m, detok, outputs, r)
  {
    assert Ended(r);
    if !cfg.prefixCaching { assert Honest(m, r); }
  }

  // ---------------------------------------------------------------- adding and cancelling

  lemma AddServes(cfg: Config, m: Model, detok: seq<Token> -> string, s: Paged, outputs: map<nat, string>,
                  prompt: seq<Token>, maxTokens: int)
    requires Serving(cfg, m, detok, s, outputs) && |prompt| > 0
    ensures Serving(cfg, m, detok, s.(engine := AddRequest(s.engine, prompt, maxTokens)), outputs)
  {
    AddInv(cfg, s.engine, prompt, maxTokens);
    if !cfg.prefixCaching { DoFaithful(cfg, m, s, Submit(prompt, maxTokens)); }
  }

  /** Cancelling files nothing with the status of a finished request, so no text is missing. */
  lemma CancelServes(cfg: Config, m: Model, detok: seq<Token> -> string, s: Paged, outputs: map<nat, string>, id: nat)
    requires Serving(cfg, m, detok, s, outputs)
    ensures Serving(cfg, m, detok, s.(engine := Cancel(s.engine, id)), outputs)
  {
    CancelInv(cfg, s.engine, id);
    if !cfg.prefixCaching { CancelFaithful(cfg, m, s, id); }
    var q, n := s.engine.queue, Cancel(s.engine, id).queue;
    forall r | r in n.finished && r.status == Finished ensures r in q.finished {
      CancelledStatus(s.engine, id, r);
    }
  }

  lemma CancelledStatus(s: Engine, id: nat, r: Request)
    requires WellFormed(s.blocks) && Shaped(s.queue) && r in Cancel(s, id).queue.finished && r.status == Finished
    ensures r in s.queue.finished
  {
    var q := s.queue;
    var gone := AllWithStatus(Filter(q.running, InSet({id})), Cancelled);
    assert forall i :: 0 <= i < |gone| ==> gone[i].status == Cancelled;
    assert forall x :: x in q.waiting || x in q.rejected ==> Untouched(x);
  }

  // ---------------------------------------------------------------- the loop

  /** Steps until the last timeout the loop relies on. */
  function Until(steps: nat, end: nat): nat { if steps < end then end - steps else 0 }

  /** What a turn leaves: the deadline stands, and unless the engine is drained the loop is closer
      to its end, by one step before the deadline and by the measure after it. */
  ghost predicate Turned(cfg: Config, clock: nat -> set<nat>, i: nat, next: nat, end: nat, s: Engine, n: Engine) {
    && AllLeaveBy(cfg, clock, next, end, n.queue.waiting)
    && 0 <= Measure(n.queue)
    && (!Drained(n) ==> Until(next, end) < Until(i, end)
                        || (Until(next, end) == Until(i, end) && Measure(n.queue) < Measure(s.queue)))
  }

  lemma StepProgress(cfg: Config, m: Model, s: Paged, clock: nat -> set<nat>, i: nat, next: nat, end: nat, n: Paged,
                     schedule: Schedule)
    requires SteppedAs(cfg, m, s, clock(i), n, schedule, true) && next == i + 1
    requires AllLeaveBy(cfg, clock, i, end, s.engine.queue.waiting)
    ensures Turned(cfg, clock, i, next, end, s.engine, n.engine)
  {
    var sample := PagedStepIsStep(cfg, m, s, clock(i));
    TurnLaw(cfg, s.engine, clock, sample, i, next, end, n.engine);
  }

  lemma TurnLaw(cfg: Config, s: Engine, clock: nat -> set<nat>, sample: nat -> Token, i: nat, next: nat, end: nat,
                n: Engine)
    requires Inv(cfg, s) && Follows(cfg, s, clock(i), sample, n) && next == i + 1
    requires AllLeaveBy(cfg, clock, i, end, s.queue.waiting)
    ensures Turned(cfg, clock, i, next, end, s, n)
  {
    DeadlineStep(cfg, s, clock, sample, n, i, next, end);
    NothingNegative(cfg, s, clock(i), sample, n);
    if end <= i { PastDeadlineDecreases(cfg, s, clock, sample, i, end, n); }
    TurnedBy(cfg, clock, i, next, end, s, n);
  }

  lemma TurnedBy(cfg: Config, clock: nat -> set<nat>, i: nat, next: nat, end: nat, s: Engine, n: Engine)
    requires next == i + 1 && AllLeaveBy(cfg, clock, next, end, n.queue.waiting) && Measure(n.queue) >= 0
    requires end <= i ==> Drained(n) || Measure(n.queue) < Measure(s.queue)
    ensures Turned(cfg, clock, i, next, end, s, n)
  {
  }

  lemma PastDeadlineDecreases(cfg: Config, s: Engine, clock: nat -> set<nat>, sample: nat -> Token, i: nat, end: nat,
                              n: Engine)
    requires Inv(cfg, s) && Follows(cfg, s, clock(i), sample, n) && end <= i
    requires AllLeaveBy(cfg, clock, i, end, s.queue.waiting)
    ensures Drained(n) || Measure(n.queue) < Measure(s.queue)
  {
    PastDeadline(cfg, clock, i, end, s.queue);
    StepDecreases(cfg, s, clock(i), sample);
  }

  lemma NothingNegative(cfg: Config, s: Engine, expired: set<nat>, sample: nat -> Token, n: Engine)
    requires Inv(cfg, s) && Follows(cfg, s, expired, sample, n)
    ensures Measure(n.queue) >= 0
  {
    StepInv(cfg, s, expired, sample);
    MeasureNonNegative(n.queue);
  }

  class LLMEngine {
    const core: EngineCore
    const detok: seq<Token> -> string
    var groupCount: nat
    var outputs: map<nat, string>

    constructor (core: EngineCore, detok: seq<Token> -> string)
      ensures this.core == core && this.detok == detok && groupCount == 0 && outputs == map[]
    {
      this.core := core;
      this.detok := detok;
      groupCount := 0;
      outputs := map[];
    }

    /** The objects hold the value `s`. */
    ghost predicate Holds(s: Paged)
      requires core.Wired()
      reads core.queue, core.manager, core.manager.allocator, core.manager.prefixCache, core.manager.tables.Values
      reads core.executor.runner.pool
    {
      core.manager.Valid() && s == Paged(core.View(s.engine.nextId), Caches(core.executor.runner.pool))
    }

    ghost predicate Serves(s: Paged)
      reads this`outputs
    {
      Serving(core.cfg, core.executor.runner.m, detok, s, outputs)
    }

    /** A new group with the next id enters the waiting pool. */
    method Enqueue(prompt: seq<Token>, maxTokens: int, ghost s: Paged) returns (id: nat)
      requires core.Wired() && Holds(s) && groupCount == s.engine.nextId && groupCount !in Ids(s.engine.queue.waiting)
      modifies this`groupCount, core.queue`waiting
      ensures id == old(groupCount) && groupCount == id + 1
      ensures Holds(s.(engine := EngineSpec.AddRequest(s.engine, prompt, maxTokens)))
    {
      id := groupCount;
      groupCount := groupCount + 1;
      core.queue.Add(NewRequest(id, prompt, maxTokens));
      ghost var kept := Holds(s.(engine := EngineSpec.AddRequest(s.engine, prompt, maxTokens)));
      assert kept;
    }

    /** Submits a request; its id is the number of requests before it. */
    method AddRequest(prompt: seq<Token>, maxTokens: int, ghost s: Paged) returns (id: nat)
      requires core.Wired() && Holds(s) && Serves(s) && |prompt| > 0 && groupCount == s.engine.nextId
      modifies this`groupCount, core.queue`waiting
      ensures id == old(groupCount) && groupCount == id + 1
      ensures Holds(s.(engine := EngineSpec.AddRequest(s.engine, prompt, maxTokens)))
      ensures Serves(s.(engine := EngineSpec.AddRequest(s.engine, prompt, maxTokens)))
    {
      AddServes(core.cfg, core.executor.runner.m, detok, s, outputs, prompt, maxTokens);
      NextIdIsNew(core.cfg, s.engine);
      id := Enqueue(prompt, maxTokens, s);
    }

    method Remove(id: nat, ghost s: Paged) returns (found: bool)
      requires core.Wired() && Holds(s) && Shaped(s.engine.queue)
      modifies core.queue, core.manager, core.manager.allocator, core.manager.tables.Values
      ensures core.manager.Grew() && (found <==> id in AllIds(s.engine.queue))
      ensures Holds(s.(engine := Cancel(s.engine, id)))
    {
      found := core.reaper.CancelRequest(id, s.engine);
      ghost var kept := Holds(s.(engine := Cancel(s.engine, id)));
      assert kept;
    }

    /** Cancels a request wherever it is. */
    method CancelRequest(id: nat, ghost s: Paged) returns (found: bool)
      requires core.Wired() && Holds(s) && Serves(s)
      modifies core.queue, core.manager, core.manager.allocator, core.manager.tables.Values
      ensures core.manager.Grew() && (found <==> id in AllIds(s.engine.queue))
      ensures Holds(s.(engine := Cancel(s.engine, id))) && Serves(s.(engine := Cancel(s.engine, id)))
    {
      CancelServes(core.cfg, core.executor.runner.m, detok, s, outputs, id);
      found := Remove(id, s);
    }

    /** Records the texts of the requests a step reports as finished. */
    method RecordOutputs(rs: seq<Request>)
      modifies this`outputs
      ensures outputs == Record(detok, rs, old(outputs))
    {
      for i := 0 to |rs|
        invariant outputs == Record(detok, rs[..i], old(outputs))
      {
        assert rs[..i + 1][..i] == rs[..i];
        if rs[i].status == Finished { outputs := outputs[rs[i].id := detok(rs[i].output)]; }
      }
      assert rs[..|rs|] == rs;
    }

    method RecordKeeping(rs: seq<Request>, ghost n: Paged)
      requires core.Wired() && Holds(n)
      modifies this`outputs
      ensures Holds(n) && outputs == Record(detok, rs, old(outputs))
    {
      RecordOutputs(rs);
      ghost var kept := Holds(n);
      assert kept;
    }

    method Advance(expired: set<nat>, ghost s: Paged) returns (schedule: Schedule, ok: bool, ghost n: Paged)
      requires core.Wired() && Holds(s) && Ready0(core.cfg, core.executor.runner.m, s)
      modifies core.queue, core.manager, core.manager.allocator, core.manager.prefixCache, core.manager.tables.Values
      modifies core.executor, core.executor.runner.pool
      ensures core.manager.Grew() && Holds(n)
      ensures SteppedAs(core.cfg, core.executor.runner.m, s, expired, n, schedule, ok)
    {
      schedule, ok, n := core.Step(expired, s);
    }

    /** One step.  When blocks run out the step is abandoned and its texts are not recorded. */
    method Step(expired: set<nat>, ghost s: Paged) returns (ok: bool, ghost n: Paged, ghost schedule: Schedule)
      requires core.Wired() && Holds(s) && Serves(s)
      modifies this`outputs, core.queue, core.manager, core.manager.allocator, core.manager.prefixCache,
      core.manager.tables.Values
      modifies core.executor, core.executor.runner.pool
      ensures core.manager.Grew() && Holds(n)
      ensures SteppedAs(core.cfg, core.executor.runner.m, s, expired, n, schedule, ok)
      ensures ok ==> Serves(n)
    {
      var result;
      result, ok, n := Advance(expired, s);
      schedule := result;
      if ok {
        StepServes(core.cfg, core.executor.runner.m, detok, s, expired, n, schedule, outputs);
        RecordKeeping(result.finished, n);
      }
    }

    /** One turn of the loop: a step, and the test whether anything is left. */
    method Turn(clock: nat -> set<nat>, steps: nat, next: nat, ghost end: nat, ghost s: Paged)
      returns (ok: bool, done: bool, ghost n: Paged)
      requires core.Wired() && Holds(s) && Serves(s) && next == steps + 1
      requires AllLeaveBy(core.cfg, clock, steps, end, s.engine.queue.waiting)
      modifies this`outputs, core.queue, core.manager, core.manager.allocator, core.manager.prefixCache,
      core.manager.tables.Values
      modifies core.executor, core.executor.runner.pool
      ensures core.manager.Grew() && Holds(n)
      ensures ok ==> Serves(n) && Turned(core.cfg, clock, steps, next, end, s.engine, n.engine)
      ensures done <==> Drained(n.engine)
    {
      ghost var schedule;
      ok, n, schedule := Step(clock(steps), s);
      if ok { StepProgress(core.cfg, core.executor.runner.m, s, clock, steps, next, end, n, schedule); }
      done := |core.queue.waiting| == 0 && |core.queue.running| == 0;
    }

    /** Steps until nothing waits and nothing runs.  The loop ends for every clock under which every
        waiting request can be taken by an idle engine or times out; it fails only when blocks run
        out.  At the end every request ever submitted is finished or rejected, and the text of each
        one that ran to its limit is recorded. */
    method RunUntilDone(clock: nat -> set<nat>, ghost s0: Paged) returns (texts: Option<map<nat, string>>,
                                                                          ghost s: Paged)
      requires core.Wired() && Holds(s0) && Serves(s0)
      requires AllLeave(core.cfg, clock, s0.engine.queue.waiting)
      modifies this`outputs, core.queue, core.manager, core.manager.allocator, core.manager.prefixCache,
      core.manager.tables.Values
      modifies core.executor, core.executor.runner.pool
      ensures texts.Some? ==> AllServed(core.cfg, core.executor.runner.m, detok, s, texts.value)
      ensures texts.Some? ==> Holds(s) && Serves(s) && texts.value == outputs
    {
      s := s0;
      var steps := 0;
      ghost var end := CommonDeadline(core.cfg, clock, s.engine.queue.waiting);
      while true
        invariant Holds(s) && Serves(s) && core.manager.Grew()
        invariant AllLeaveBy(core.cfg, clock, steps, end, s.engine.queue.waiting)
        decreases Until(steps, end), Measure(s.engine.queue)
      {
        var next := steps + 1;
        var ok, done;
        ok, done, s := Turn(clock, steps, next, end, s);
        if !ok { return None, s; }
        if done { break; }
        steps := next;
      }
      EverybodyServed(core.cfg, core.executor.runner.m, detok, s, outputs);
      texts := Some(outputs);
    }
  }

  /** Nothing is left to do, every id ever issued is finished or rejected, and every request that
      finished with a positive limit has its text recorded. */
  ghost predicate AllServed(cfg: Config, m: Model, detok: seq<Token> -> string, s: Paged, texts: map<nat, string>) {
    var q := s.engine.queue;
    && q.waiting == [] && q.running == []
    && Ids(q.finished) + Ids(q.rejected) == UpTo(s.engine.nextId)
    && forall r :: r in q.finished && r.status == Finished && r.maxTokens >= 1 ==> ServedOf(cfg, m, detok, texts, r)
  }

  lemma EverybodyServed(cfg: Config, m: Model, detok: seq<Token> -> string, s: Paged, outputs: map<nat, string>)
    requires Serving(cfg, m, detok, s, outputs) && s.engine.queue.waiting == [] && s.engine.queue.running == []
    ensures AllServed(cfg, m, detok, s, outputs)
  {
    var q := s.engine.queue;
    assert AllIds(q) == Ids(q.finished) + Ids(q.rejected);
    forall r | r in q.finished && r.status == Finished && r.maxTokens >= 1
      ensures ServedOf(cfg, m, detok, outputs, r)
    {
      ServedText(cfg, m, detok, s, outputs, r);
    }
  }

  lemma NextIdIsNew(cfg: Config, s: Engine)
    requires Inv(cfg, s)
    ensures s.nextId !in Ids(s.queue.waiting)
  {
    assert Ids(s.queue.waiting) <= AllIds(s.queue);
  }

  // ---------------------------------------------------------------- construction

  /** One uninitialised array per layer. */
  method AllocatePool(cfg: Config, m: Model) returns (pool: seq<array2<KV>>)
    ensures PoolOk(cfg, m, pool) && fresh(pool)
  {
    pool := [];
    for l := 0 to m.layers
      invariant |pool| == l && fresh(pool)
      invariant forall k :: 0 <= k < l ==> pool[k].Length0 == cfg.numBlocks && pool[k].Length1 == cfg.blockSize
      invariant forall j, k :: 0 <= j < k < l ==> pool[j] != pool[k]
    {
      var cache := new KV[cfg.numBlocks, cfg.blockSize];
      pool := pool + [cache];
    }
  }

  /** Builds the core and everything it is wired to. */
  method CreateCore(cfg: Config, m: Model) returns (core: EngineCore)
    ensures core.Wired() && core.manager.Valid() && core.cfg == cfg && core.executor.runner.m == m
    ensures core.View(0) == Init(cfg)
    ensures fresh(core) && fresh(core.queue) && fresh(core.manager) && fresh(core.executor.runner.pool)
  {
    var pool := AllocatePool(cfg, m);
    var queue := new RequestQueue();
    var manager := new BlockManager(cfg);
    var scheduler := new Scheduler(cfg, manager, queue);
    var reaper := new Reaper(queue, manager);
    var builder := new ModelInputBuilder(cfg, manager);
    var runner := new ModelRunner(cfg, m, pool);
    var executor := new PagedExecutor(runner);
    core := new EngineCore(cfg, queue, manager, scheduler, reaper, builder, executor);
  }

  /** A new engine serves nobody, correctly. */
  method CreateEngine(cfg: Config, m: Model, detok: seq<Token> -> string) returns (engine: LLMEngine, ghost s: Paged)
    ensures engine.core.Wired() && engine.core.cfg == cfg && engine.core.executor.runner.m == m
    ensures engine.detok == detok
    ensures engine.Holds(s) && engine.Serves(s) && engine.groupCount == s.engine.nextId == 0
  {
    var core := CreateCore(cfg, m);
    engine := new LLMEngine(core, detok);
    s := Paged(core.View(0), Caches(core.executor.runner.pool));
    CachesAreOk(cfg, m, core.executor.runner.pool);
    InitInv(cfg);
    if !cfg.prefixCaching { BootFaithful(cfg, m, s.caches); }
  }
}

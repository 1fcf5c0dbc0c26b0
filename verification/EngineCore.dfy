/** One engine step on the objects: timeouts, scheduling, block allocation, the model input, the
    forward pass, and handing tokens back. */
module EngineCores {
  import opened Base
  import opened BlockSpec
  import opened Requests
  import opened ScheduleSpec
  import opened EngineSpec
  import opened EngineLaws
  import opened StepLaws
  import opened Transformer
  import opened BatchSpec
  import opened Forward
  import opened PagedEngine
  import opened BlockManagement
  import opened RequestQueues
  import opened Scheduling
  import opened Reaping
  import opened Preparation
  import opened InputBuilding
  import opened ModelRunning
  import opened Executing
  import opened Delivery

  /** Under the engine invariant the queue is orderly enough for the scheduler. */
  lemma InvIsOrderly(cfg: Config, s: Engine)
    requires Inv(cfg, s)
    ensures Orderly(s.queue, s.blocks)
  {
  }

  /** The batch of a prepared step: live requests, each in the half its status says. */
  lemma BatchHalves(cfg: Config, p: StepResult)
    requires WellFormed(p.engine.blocks) && Scheduled(cfg, p.engine.queue, p.engine.blocks, p.schedule)
    ensures forall r :: r in BatchOf(p.schedule) ==> Lively(r)
    ensures forall r :: r in p.schedule.prefill ==> Prefilling(r)
    ensures forall r :: r in p.schedule.decode ==> Decoding(r)
    ensures Distinct(BatchOf(p.schedule)) && Distinct(p.engine.queue.running)
    ensures forall r :: r in p.engine.queue.running <==> r in BatchOf(p.schedule)
  {
    BatchIsRunning(cfg, p.engine.queue, p.engine.blocks, p.schedule);
  }

  /** A prepared step on the objects: the state, the schedule and whether blocks sufficed. */
  ghost predicate PreparedAs(cfg: Config, s: Engine, expired: set<nat>, q: Queue, b: Blocks, schedule: Schedule,
                             ok: bool) {
    && WellFormed(s.blocks)
    && StepResult(Engine(q, b, s.nextId), schedule, !ok) == Prepare(cfg, s, expired)
  }

  lemma PlanPrepares(cfg: Config, s: Engine, expired: set<nat>, q: Queue, goal: Outcome<Blocks>, schedule: Schedule,
                     b: Blocks, ok: bool)
    requires WellFormed(s.blocks)
    requires var (n, nb, sch) := RunSchedule(cfg, Drop(s, expired, TimedOut).queue,
                                             Drop(s, expired, TimedOut).blocks);
      q == n && schedule == sch && goal == EnsureAll(cfg, nb, schedule.prefill + schedule.decode)
    requires b == goal.state && ok == goal.Ok?
    ensures PreparedAs(cfg, s, expired, q, b, schedule, ok)
  {
  }

  lemma PlanIsLively(cfg: Config, s: Engine, expired: set<nat>, q: Queue, b: Blocks, schedule: Schedule)
    requires Inv(cfg, s)
    requires (q, b, schedule) == RunSchedule(cfg, Drop(s, expired, TimedOut).queue, Drop(s, expired, TimedOut).blocks)
    ensures forall r :: r in schedule.prefill + schedule.decode ==> Lively(r)
  {
    var s1 := Drop(s, expired, TimedOut);
    DropInv(cfg, s, expired, TimedOut);
    ScheduleLaw(cfg, s1.queue, s1.blocks);
    BatchIsRunning(cfg, q, b, schedule);
  }

  /** The token sampled at a request's last row is the one the model's oracle names for it. */
  lemma SampledIsOracle(m: Model, rows: seq<Row>, hidden: seq<Vec>, id: nat, token: Token)
    requires |hidden| == |rows| && SampledAtLast(m, rows, hidden, id, token)
    ensures token == Sampled(m, rows, hidden)(id)
  {
    var i: nat :| i < |hidden| && LastRowOf(rows, i, id) && token == m.sample(hidden[i]);
    assert LastRow(rows, id) == Some(i);
  }

  /** Every id is named at most once, and named exactly when its request is due a token. */
  lemma {:induction false} SamplersOnce(cfg: Config, batch: seq<Request>)
    requires Distinct(batch)
    ensures Distinct(Samplers(cfg, batch)) && Ids(Samplers(cfg, batch)) <= Ids(batch)
    decreases |batch|
  {
    if batch != [] {
      var k := |batch| - 1;
      SamplersOnce(cfg, batch[..k]);
      assert batch == batch[..k] + [batch[k]];
      DistinctAround(batch[..k], batch[k], []) by { assert batch[..k] + ([batch[k]] + []) == batch; }
      assert batch[k].id !in Ids(Samplers(cfg, batch[..k]));
      DistinctAppend(Samplers(cfg, batch[..k]), [batch[k]]);
    }
  }

  lemma GivenIds(cfg: Config, batch: seq<Request>, ids: seq<nat>)
    requires Distinct(batch) && ids == IdsOf(Samplers(cfg, batch))
    ensures forall j, k :: 0 <= j < k < |ids| ==> ids[j] != ids[k]
    ensures forall k :: 0 <= k < |ids| ==> ids[k] in Ids(batch)
    ensures forall r :: r in batch ==> (r.id in IdSet(ids) <==> Samples(cfg, r))
  {
    var ss := Samplers(cfg, batch);
    SamplersOnce(cfg, batch);
    forall k | 0 <= k < |ids| ensures ids[k] in Ids(batch) {
      assert ss[k] in ss;
    }
    forall r | r in batch ensures r.id in IdSet(ids) <==> Samples(cfg, r) {
      if Samples(cfg, r) {
        var k :| 0 <= k < |ss| && ss[k] == r;
        assert ids[k] == r.id;
      }
      if r.id in IdSet(ids) {
        var k :| 0 <= k < |ids| && ids[k] == r.id;
        assert ss[k] in ss;
        SameId(batch, ss[k], r);
      }
    }
  }

  /** After the tokens are handed out every prefill of the batch is still among the running
      requests, in its new form. */
  lemma InBatchStill(rs: seq<Request>, batch: seq<Request>, prefills: seq<Request>, decodes: seq<Request>,
                     given: set<nat>, f: Request -> Request, mid: seq<Request>)
    requires batch == prefills + decodes && Distinct(batch) && Changed(rs, given, f, mid)
    requires forall r :: r in rs <==> r in batch
    requires (forall r :: r in prefills ==> Prefilling(r)) && (forall r :: r in decodes ==> Decoding(r))
    ensures Distinct(prefills)
    ensures forall r :: r in prefills ==> (if r.id in given then f(r) else r) in mid
    ensures forall r :: r in rs ==> (r.id in Ids(prefills) <==> r.status == Prefill)
  {
    assert forall i :: 0 <= i < |prefills| ==> batch[i] == prefills[i];
    forall r | r in prefills ensures (if r.id in given then f(r) else r) in mid {
      assert r in batch;
      var i :| 0 <= i < |rs| && rs[i] == r;
      assert mid[i] in mid;
    }
    forall r | r in rs ensures r.id in Ids(prefills) <==> r.status == Prefill {
      assert r in batch;
      if r.id in Ids(prefills) {
        var x :| x in prefills && x.id == r.id;
        assert x in batch;
        SameId(batch, x, r);
      }
    }
  }

  lemma {:induction false} EmptyPass(cfg: Config, m: Model, caches: seq<seq<KV>>, l: nat)
    requires CachesOk(cfg, m, caches) && l <= m.layers
    ensures RowsFit(cfg, []) && Pass(cfg, m, caches, [], l) == Flow(caches, [])
  {
    if l > 0 {
      EmptyPass(cfg, m, caches, l - 1);
      assert Scatter(caches[l - 1], Slots([]), Projections(m, l - 1, [], [])) == caches[l - 1];
      assert caches[l - 1 := caches[l - 1]] == caches;
    }
  }

  /** A step without a batch runs no model: nothing is running. */
  lemma EmptyForward(cfg: Config, m: Model, p: StepResult, caches: seq<seq<KV>>)
    requires WellFormed(p.engine.blocks) && Prepared(cfg, p) && !p.oom && CachesOk(cfg, m, caches)
    requires BatchOf(p.schedule) == []
    ensures Seated(cfg, p.engine.blocks, []) && Forwarded(cfg, m, p, caches) == Paged(p.engine, caches)
  {
    BatchSeated(cfg, p);
    BatchIsRunning(cfg, p.engine.queue, p.engine.blocks, p.schedule);
    EmptyPass(cfg, m, caches, m.layers);
    assert p.engine.queue.running == [];
  }

  /** The objects hold what running the model over the prepared batch comes to. */
  ghost predicate ForwardedAs(cfg: Config, m: Model, p: StepResult, before: seq<seq<KV>>, s: Engine,
                              caches: seq<seq<KV>>) {
    && WellFormed(p.engine.blocks) && Seated(cfg, p.engine.blocks, BatchOf(p.schedule)) && CachesOk(cfg, m, before)
    && Paged(s, caches) == Forwarded(cfg, m, p, before)
  }

  lemma DeliveredIsForwarded(cfg: Config, m: Model, p: StepResult, before: seq<seq<KV>>, rows: seq<Row>,
                             caches: seq<seq<KV>>, hidden: seq<Vec>, s: Engine)
    requires WellFormed(p.engine.blocks) && Seated(cfg, p.engine.blocks, BatchOf(p.schedule))
    requires rows == Rows(cfg, p.engine.blocks, BatchOf(p.schedule))
    requires PassedTo(cfg, m, before, rows, m.layers, caches, hidden)
    requires s == Finish(cfg, p, Sampled(m, rows, hidden))
    ensures ForwardedAs(cfg, m, p, before, s, caches)
  {
    RowsFitLemma(cfg, p.engine.blocks, BatchOf(p.schedule));
  }

  lemma TokensAreOracle(cfg: Config, m: Model, rows: seq<Row>, hidden: seq<Vec>, batch: seq<Request>,
                        tokens: seq<Token>, ids: seq<nat>)
    requires TokensRouted(m, rows, hidden, Samplers(cfg, batch), tokens, ids)
    ensures forall k :: 0 <= k < |ids| ==> tokens[k] == Sampled(m, rows, hidden)(ids[k])
  {
    forall k | 0 <= k < |ids| ensures tokens[k] == Sampled(m, rows, hidden)(ids[k]) {
      SampledIsOracle(m, rows, hidden, ids[k], tokens[k]);
    }
  }

  /** The objects after one step, and what the step reports. */
  ghost predicate SteppedAs(cfg: Config, m: Model, s: Paged, expired: set<nat>, n: Paged, schedule: Schedule,
                            ok: bool) {
    && Ready0(cfg, m, s) && n == PagedStep(cfg, m, s, expired)
    && schedule == Prepare(cfg, s.engine, expired).schedule && ok == !Prepare(cfg, s.engine, expired).oom
  }

  lemma AbandonedStep(cfg: Config, m: Model, s: Paged, expired: set<nat>, q: Queue, b: Blocks, schedule: Schedule)
    requires Ready0(cfg, m, s) && PreparedAs(cfg, s.engine, expired, q, b, schedule, false)
    ensures SteppedAs(cfg, m, s, expired, Paged(Engine(q, b, s.engine.nextId), s.caches), schedule, false)
  {
  }

  lemma CompletedStep(cfg: Config, m: Model, s: Paged, expired: set<nat>, q: Queue, b: Blocks, schedule: Schedule,
                      p: StepResult, n: Paged)
    requires Ready0(cfg, m, s) && PreparedAs(cfg, s.engine, expired, q, b, schedule, true)
    requires p == StepResult(Engine(q, b, s.engine.nextId), schedule, false)
    requires ForwardedAs(cfg, m, p, s.caches, n.engine, n.caches)
    ensures SteppedAs(cfg, m, s, expired, n, schedule, true)
  {
    PrepareLaw(cfg, s.engine, expired);
  }

  lemma ReadyToRun(cfg: Config, m: Model, s: Paged, expired: set<nat>, q: Queue, b: Blocks, schedule: Schedule,
                   p: StepResult)
    requires Ready0(cfg, m, s) && PreparedAs(cfg, s.engine, expired, q, b, schedule, true)
    requires p == StepResult(Engine(q, b, s.engine.nextId), schedule, false)
    ensures WellFormed(b) && Prepared(cfg, p) && Seated(cfg, b, BatchOf(schedule))
  {
    PrepareLaw(cfg, s.engine, expired);
    BatchSeated(cfg, p);
  }

  lemma EmptyStep(cfg: Config, m: Model, p: StepResult, caches: seq<seq<KV>>)
    requires WellFormed(p.engine.blocks) && Prepared(cfg, p) && !p.oom && CachesOk(cfg, m, caches)
    requires BatchOf(p.schedule) == []
    ensures ForwardedAs(cfg, m, p, caches, p.engine, caches)
  {
    EmptyForward(cfg, m, p, caches);
  }

  class EngineCore {
    const cfg: Config
    const queue: RequestQueue
    const manager: BlockManager
    const scheduler: Scheduler
    const reaper: Reaper
    const builder: ModelInputBuilder
    const executor: PagedExecutor

    constructor (cfg: Config, queue: RequestQueue, manager: BlockManager, scheduler: Scheduler, reaper: Reaper,
                 builder: ModelInputBuilder, executor: PagedExecutor)
      ensures this.cfg == cfg && this.queue == queue && this.manager == manager && this.scheduler == scheduler
      ensures this.reaper == reaper && this.builder == builder && this.executor == executor
    {
      this.cfg := cfg;
      this.queue := queue;
      this.manager := manager;
      this.scheduler := scheduler;
      this.reaper := reaper;
      this.builder := builder;
      this.executor := executor;
    }

    /** Everybody works on the same queue, manager and configuration. */
    ghost predicate Wired() {
      && manager.cfg == cfg
      && scheduler.cfg == cfg && scheduler.queue == queue && scheduler.manager == manager
      && reaper.queue == queue && reaper.manager == manager
      && builder.cfg == cfg && builder.manager == manager
      && executor.runner.cfg == cfg
      && PoolOk(cfg, executor.runner.m, executor.runner.pool)
    }

    ghost function View(nextId: nat): Engine
      reads queue, manager
    {
      Engine(queue.View(), manager.state, nextId)
    }

    /** Timeouts, then one scheduling iteration. */
    method Plan(expired: set<nat>, ghost s: Engine) returns (schedule: Schedule)
      requires Wired() && manager.Valid() && s == View(s.nextId) && Inv(cfg, s)
      modifies queue, manager, manager.allocator, manager.tables.Values
      ensures manager.Valid() && manager.Grew()
      ensures (queue.View(), manager.state, schedule)
           == RunSchedule(cfg, Drop(s, expired, TimedOut).queue, Drop(s, expired, TimedOut).blocks)
    {
      DropInv(cfg, s, expired, TimedOut);
      InvIsOrderly(cfg, Drop(s, expired, TimedOut));
      reaper.CheckTimeouts(expired, s);
      schedule := scheduler.Schedule();
    }

    /** Everything before the model runs. */
    method PrepareStep(expired: set<nat>, ghost s: Engine) returns (schedule: Schedule, ok: bool)
      requires Wired() && manager.Valid() && s == View(s.nextId) && Inv(cfg, s)
      modifies queue, manager, manager.allocator, manager.prefixCache, manager.tables.Values
      ensures manager.Valid() && manager.Grew()
      ensures PreparedAs(cfg, s, expired, queue.View(), manager.state, schedule, ok)
    {
      schedule := Plan(expired, s);
      PlanIsLively(cfg, s, expired, queue.View(), manager.state, schedule);
      ghost var goal := EnsureAll(cfg, manager.state, schedule.prefill + schedule.decode);
      ghost var q := queue.View();
      ok := EnsureBlocks(manager, schedule.prefill, schedule.decode, goal);
      PlanPrepares(cfg, s, expired, q, goal, schedule, manager.state, ok);
    }

    /** Preparing a step leaves the caches alone. */
    method PrepareKeeping(expired: set<nat>, ghost s: Engine,
                          ghost caches: seq<seq<KV>>) returns (schedule: Schedule, ok: bool)
      requires Wired() && manager.Valid() && s == View(s.nextId) && Inv(cfg, s)
      requires caches == Caches(executor.runner.pool)
      modifies queue, manager, manager.allocator, manager.prefixCache, manager.tables.Values
      ensures manager.Valid() && manager.Grew() && caches == Caches(executor.runner.pool)
      ensures PreparedAs(cfg, s, expired, queue.View(), manager.state, schedule, ok)
    {
      schedule, ok := PrepareStep(expired, s);
      ghost var kept := manager.Valid() && manager.Grew();
      assert kept;
      CachesUntouched(executor.runner.pool);
    }

    /** The model input of the batch. */
    method BuildInput(prefills: seq<Request>, decodes: seq<Request>, ghost batch: seq<Request>, ghost rows: seq<Row>)
      returns (input: ModelInput)
      requires Wired() && manager.Valid() && batch == prefills + decodes
      requires Seated(cfg, manager.state, batch) && rows == Rows(cfg, manager.state, batch)
      requires (forall r :: r in prefills ==> Prefilling(r)) && (forall r :: r in decodes ==> Decoding(r))
      ensures Given(cfg, manager.state, prefills, decodes, batch, rows, input)
      ensures input.sampleIndices == SampleIndices(cfg, batch) && input.info == Infos(cfg, batch)
      ensures manager.Valid()
    {
      input := builder.Build(prefills, decodes);
      DescribedIsGiven(cfg, manager.state, prefills, decodes, batch, rows, input);
      ghost var kept := manager.Valid();
      assert kept;
    }

    /** Running the executor leaves the block manager alone. */
    method RunExecutor(input: ModelInput, ghost b: Blocks, ghost prefills: seq<Request>, ghost decodes: seq<Request>,
                       ghost batch: seq<Request>, ghost rows: seq<Row>)
      returns (tokens: seq<Token>, ids: seq<nat>, ghost hidden: seq<Vec>)
      requires Wired() && manager.Valid() && Given(cfg, b, prefills, decodes, batch, rows, input)
      requires input.sampleIndices == SampleIndices(cfg, batch) && input.info == Infos(cfg, batch)
      modifies executor, executor.runner.pool
      ensures manager.Valid()
      ensures PassedTo(cfg, executor.runner.m, old(Caches(executor.runner.pool)), rows, executor.runner.m.layers,
                       Caches(executor.runner.pool), hidden)
      ensures TokensRouted(executor.runner.m, rows, hidden, Samplers(cfg, batch), tokens, ids)
    {
      tokens, ids, hidden := executor.Execute(input, b, prefills, decodes, batch, rows);
      manager.Undisturbed();
    }

    /** Builds the model input of the batch and runs the executor on it. */
    method RunModel(prefills: seq<Request>, decodes: seq<Request>, ghost batch: seq<Request>, ghost rows: seq<Row>)
      returns (tokens: seq<Token>, ids: seq<nat>, ghost hidden: seq<Vec>)
      requires Wired() && manager.Valid() && batch == prefills + decodes
      requires Seated(cfg, manager.state, batch) && rows == Rows(cfg, manager.state, batch)
      requires (forall r :: r in prefills ==> Prefilling(r)) && (forall r :: r in decodes ==> Decoding(r))
      modifies executor, executor.runner.pool
      ensures manager.Valid()
      ensures PassedTo(cfg, executor.runner.m, old(Caches(executor.runner.pool)), rows, executor.runner.m.layers,
                       Caches(executor.runner.pool), hidden)
      ensures TokensRouted(executor.runner.m, rows, hidden, Samplers(cfg, batch), tokens, ids)
    {
      var input := BuildInput(prefills, decodes, batch, rows);
      tokens, ids, hidden := RunExecutor(input, manager.state, prefills, decodes, batch, rows);
    }

    /** Hands the sampled tokens back, then moves the cursors of all prefills. */
    method Deliver(prefills: seq<Request>, decodes: seq<Request>, tokens: seq<Token>, ids: seq<nat>,
                   ghost batch: seq<Request>, ghost sample: nat -> Token)
      requires batch == prefills + decodes && Distinct(batch) && Distinct(queue.running)
      requires forall r :: r in queue.running <==> r in batch
      requires forall r :: r in batch ==> Lively(r)
      requires (forall r :: r in prefills ==> Prefilling(r)) && (forall r :: r in decodes ==> Decoding(r))
      requires ids == IdsOf(Samplers(cfg, batch)) && |tokens| >= |ids|
      requires forall k :: 0 <= k < |ids| ==> tokens[k] == sample(ids[k])
      modifies queue`running
      ensures queue.running == AdvanceAll(cfg, old(queue.running), Ids(batch), sample)
    {
      ghost var rs, given, f := queue.running, IdSet(ids), Giving(sample);
      GivenIds(cfg, batch, ids);
      var seqs := ApplyModelOutput(queue, tokens, ids, prefills, decodes, sample);
      ghost var mid := queue.running;
      ChangedKeepsIds(rs, given, f, mid);
      InBatchStill(rs, batch, prefills, decodes, given, f, mid);
      AdvanceCursors(cfg, queue, prefills, seqs, given, f, decodes);
      DeliveryIsAdvance(cfg, rs, mid, queue.running, given, Ids(prefills), Ids(batch), sample);
    }

    /** The model runs over the prepared batch and its tokens are handed back. */
    method RunBatch(schedule: Schedule, ghost p: StepResult, ghost batch: seq<Request>, ghost rows: seq<Row>)
      requires Wired() && manager.Valid() && p == StepResult(View(p.engine.nextId), schedule, false)
      requires Prepared(cfg, p) && batch == BatchOf(schedule)
      requires Seated(cfg, manager.state, batch) && rows == Rows(cfg, manager.state, batch)
      modifies queue`running, executor, executor.runner.pool
      ensures manager.Valid()
      ensures ForwardedAs(cfg, executor.runner.m, p, old(Caches(executor.runner.pool)), View(p.engine.nextId),
                          Caches(executor.runner.pool))
    {
      BatchHalves(cfg, p);
      ghost var before := Caches(executor.runner.pool);
      var tokens, ids, hidden := RunModel(schedule.prefill, schedule.decode, batch, rows);
      TokensAreOracle(cfg, executor.runner.m, rows, hidden, batch, tokens, ids);
      Deliver(schedule.prefill, schedule.decode, tokens, ids, batch, Sampled(executor.runner.m, rows, hidden));
      DeliveredIsForwarded(cfg, executor.runner.m, p, before, rows, Caches(executor.runner.pool), hidden,
                           View(p.engine.nextId));
      ghost var kept := manager.Valid();
      assert kept;
    }

    /** Skips the model when nothing is scheduled. */
    method RunIfAny(schedule: Schedule, ghost p: StepResult)
      requires Wired() && manager.Valid() && p == StepResult(View(p.engine.nextId), schedule, false)
      requires Prepared(cfg, p) && Seated(cfg, manager.state, BatchOf(schedule))
      modifies queue`running, executor, executor.runner.pool
      ensures manager.Valid()
      ensures ForwardedAs(cfg, executor.runner.m, p, old(Caches(executor.runner.pool)), View(p.engine.nextId),
                          Caches(executor.runner.pool))
    {
      if |schedule.prefill| > 0 || |schedule.decode| > 0 {
        RunBatch(schedule, p, BatchOf(schedule), Rows(cfg, manager.state, BatchOf(schedule)));
      } else {
        CachesAreOk(cfg, executor.runner.m, executor.runner.pool);
        EmptyStep(cfg, executor.runner.m, p, Caches(executor.runner.pool));
      }
    }

    /** The same, with the state it leaves. */
    method RunKeeping(schedule: Schedule, ghost p: StepResult) returns (ghost n: Paged)
      requires Wired() && manager.Valid() && p == StepResult(View(p.engine.nextId), schedule, false)
      requires Prepared(cfg, p) && Seated(cfg, manager.state, BatchOf(schedule))
      modifies queue`running, executor, executor.runner.pool
      ensures manager.Valid() && manager.tables == old(manager.tables)
      ensures n == Paged(View(p.engine.nextId), Caches(executor.runner.pool))
      ensures ForwardedAs(cfg, executor.runner.m, p, old(Caches(executor.runner.pool)), n.engine, n.caches)
    {
      RunIfAny(schedule, p);
      n := Paged(View(p.engine.nextId), Caches(executor.runner.pool));
    }

    /** The second half of a step that has its blocks. */
    method Proceed(expired: set<nat>, schedule: Schedule, ghost s: Paged,
                   ghost p: StepResult) returns (ghost n: Paged)
      requires Wired() && manager.Valid() && Ready0(cfg, executor.runner.m, s)
      requires s.caches == Caches(executor.runner.pool)
      requires p == StepResult(View(s.engine.nextId), schedule, false) && p.engine.nextId == s.engine.nextId
      requires PreparedAs(cfg, s.engine, expired, p.engine.queue, p.engine.blocks, schedule, true)
      modifies queue`running, executor, executor.runner.pool
      ensures manager.Valid() && manager.tables == old(manager.tables)
      ensures n == Paged(View(s.engine.nextId), Caches(executor.runner.pool))
      ensures SteppedAs(cfg, executor.runner.m, s, expired, n, schedule, true)
    {
      ReadyToRun(cfg, executor.runner.m, s, expired, p.engine.queue, p.engine.blocks, schedule, p);
      n := RunKeeping(schedule, p);
      CompletedStep(cfg, executor.runner.m, s, expired, p.engine.queue, p.engine.blocks, schedule, p, n);
      ghost var kept := manager.Valid();
      assert kept;
    }

    /** Nothing more when blocks ran out, the model otherwise. */
    method Conclude(expired: set<nat>, schedule: Schedule, ok: bool, ghost s: Paged) returns (ghost n: Paged)
      requires Wired() && manager.Valid() && Ready0(cfg, executor.runner.m, s)
      requires s.caches == Caches(executor.runner.pool)
      requires PreparedAs(cfg, s.engine, expired, queue.View(), manager.state, schedule, ok)
      modifies queue`running, executor, executor.runner.pool
      ensures manager.Valid() && manager.tables == old(manager.tables)
      ensures n == Paged(View(s.engine.nextId), Caches(executor.runner.pool))
      ensures SteppedAs(cfg, executor.runner.m, s, expired, n, schedule, ok)
    {
      if ok {
        n := Proceed(expired, schedule, s, StepResult(View(s.engine.nextId), schedule, false));
      } else {
        n := Paged(View(s.engine.nextId), s.caches);
        AbandonedStep(cfg, executor.runner.m, s, expired, queue.View(), manager.state, schedule);
      }
    }

    /** One engine step; false when the block pool runs dry, which abandons the step before the
        model runs. */
    method Step(expired: set<nat>, ghost s: Paged) returns (schedule: Schedule, ok: bool, ghost n: Paged)
      requires Wired() && manager.Valid() && Ready0(cfg, executor.runner.m, s)
      requires s == Paged(View(s.engine.nextId), Caches(executor.runner.pool))
      modifies queue, manager, manager.allocator, manager.prefixCache, manager.tables.Values
      modifies executor, executor.runner.pool
      ensures manager.Valid() && manager.Grew()
      ensures n == Paged(View(s.engine.nextId), Caches(executor.runner.pool))
      ensures SteppedAs(cfg, executor.runner.m, s, expired, n, schedule, ok)
    {
      schedule, ok := PrepareKeeping(expired, s.engine, s.caches);
      ghost var tables := manager.tables;
      n := Conclude(expired, schedule, ok, s);
      assert manager.tables == tables;
    }
  }
}

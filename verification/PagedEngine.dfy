/** The engine with its paged cache.  With prefix caching off the cache refines a contiguous log per
    sequence, and batching is invisible: every output is what the request would get alone. */
module PagedEngine {
  import opened Base
  import opened BlockSpec
  import opened Requests
  import opened ScheduleSpec
  import opened EngineSpec
  import opened EngineLaws
  import opened StepLaws
  import opened Transformer
  import opened BatchSpec
  import opened Forward

  datatype Paged = Paged(engine: Engine, caches: seq<seq<KV>>)

  /** The caches have the shape of the pool; their initial content is whatever memory held. */
  ghost predicate Ready0(cfg: Config, m: Model, s: Paged) {
    Inv(cfg, s.engine) && CachesOk(cfg, m, s.caches)
  }

  /** The index of the last row of request `id`. */
  function LastRow(rows: seq<Row>, id: nat): (o: Option<nat>)
    ensures o.Some? ==> o.value < |rows| && rows[o.value].id == id
    ensures o.Some? ==> forall i :: o.value < i < |rows| ==> rows[i].id != id
    ensures o.None? ==> forall i :: 0 <= i < |rows| ==> rows[i].id != id
    decreases |rows|
  {
    if rows == [] then None
    else if rows[|rows| - 1].id == id then Some(|rows| - 1)
    else LastRow(rows[..|rows| - 1], id)
  }

  /** Greedy sampling at the last row of each request. */
  function Sampled(m: Model, rows: seq<Row>, hidden: seq<Vec>): nat -> Token
    requires |hidden| == |rows|
  {
    (id: nat) =>
      var o := LastRow(rows, id);
      if o.Some? && o.value < |hidden| then m.sample(hidden[o.value]) else 0
  }

  lemma BatchSound(cfg: Config, p: StepResult)
    requires WellFormed(p.engine.blocks) && Prepared(cfg, p) && !p.oom && !cfg.prefixCaching
    ensures Sound(cfg, p.engine.blocks, BatchOf(p.schedule))
  {
    BatchSeated(cfg, p);
  }

  lemma BatchSeated(cfg: Config, p: StepResult)
    requires WellFormed(p.engine.blocks) && Prepared(cfg, p) && !p.oom
    ensures Seated(cfg, p.engine.blocks, BatchOf(p.schedule))
  {
    BatchIsRunning(cfg, p.engine.queue, p.engine.blocks, p.schedule);
    forall r | r in BatchOf(p.schedule)
      ensures NextEnd(cfg, r) <= Span(cfg.blockSize, |p.engine.blocks.tables[r.id]|)
    {
      SpanCovers(NextEnd(cfg, r), cfg.blockSize, |p.engine.blocks.tables[r.id]|);
    }
  }

  /** Running the model over a prepared batch and handing the sampled tokens back. */
  ghost function Forwarded(cfg: Config, m: Model, p: StepResult, caches: seq<seq<KV>>): Paged
    requires Seated(cfg, p.engine.blocks, BatchOf(p.schedule)) && CachesOk(cfg, m, caches)
  {
    var rows := Rows(cfg, p.engine.blocks, BatchOf(p.schedule));
    RowsFitLemma(cfg, p.engine.blocks, BatchOf(p.schedule));
    var f := Pass(cfg, m, caches, rows, m.layers);
    Paged(Finish(cfg, p, Sampled(m, rows, f.hidden)), f.caches)
  }

  ghost function PagedStep(cfg: Config, m: Model, s: Paged, expired: set<nat>): Paged
    requires Ready0(cfg, m, s)
  {
    var p := Prepare(cfg, s.engine, expired);
    PrepareLaw(cfg, s.engine, expired);
    if p.oom then Paged(p.engine, s.caches)
    else
      BatchSeated(cfg, p);
      Forwarded(cfg, m, p, s.caches)
  }

  // ---------------------------------------------------------------- the refinement

  /** `cache`, read through `table`, holds the first `n` entries of the log of `tokens`. */
  ghost predicate LogHeld(bs: int, m: Model, table: seq<nat>, tokens: seq<Token>, cache: seq<KV>, l: nat, n: int)
    requires bs > 0
  {
    forall j: nat :: j < n ==>
      j / bs < |table| && SlotOf(bs, table, j) < |cache| && j < |tokens| &&
      cache[SlotOf(bs, table, j)] == EntryAt(m, tokens, l, j)
  }

  ghost predicate Refines(cfg: Config, m: Model, b: Blocks, r: Request, caches: seq<seq<KV>>) {
    r.id in b.tables && forall l :: 0 <= l < |caches| ==>
      LogHeld(cfg.blockSize, m, Pids(b.tables[r.id]), TokensOf(r), caches[l], l, KvLen(r))
  }

  /** The output so far is what the request generates alone. */
  ghost predicate Honest(m: Model, r: Request) {
    |r.prompt| > 0 ==> r.output == Generate(m, r.prompt, |r.output|)
  }

  ghost predicate AllHonest(m: Model, rs: seq<Request>) { forall r :: r in rs ==> Honest(m, r) }

  ghost predicate AllRefine(cfg: Config, m: Model, rs: seq<Request>, b: Blocks, caches: seq<seq<KV>>) {
    forall r :: r in rs ==> Refines(cfg, m, b, r, caches)
  }

  ghost predicate Faithful(cfg: Config, m: Model, s: Paged) {
    && Ready0(cfg, m, s) && !cfg.prefixCaching
    && AllRefine(cfg, m, s.engine.queue.running, s.engine.blocks, s.caches)
    && AllHonest(m, s.engine.queue.running)
    && AllHonest(m, s.engine.queue.finished)
  }

  // ---------------------------------------------------------------- before the model runs

  /** A table that only grew still reads the same log. */
  lemma LogHeldExtends(bs: int, m: Model, t: seq<nat>, u: seq<nat>, tokens: seq<Token>, cache: seq<KV>, l: nat,
                       n: int)
    requires bs > 0 && t <= u && LogHeld(bs, m, t, tokens, cache, l, n)
    ensures LogHeld(bs, m, u, tokens, cache, l, n)
  {
    forall j: nat | j < n
      ensures j / bs < |u| && SlotOf(bs, u, j) == SlotOf(bs, t, j)
    {
      BlockOfPosition(j, bs, |t|);
    }
  }

  /** Where a request of the batch comes from: it was running with a table that has only grown
      since, or it was admitted just now and has nothing cached. */
  ghost predicate Origin(r: Request, before: seq<Request>, b: Blocks, n: Blocks) {
    || (r in before && r.id in b.tables && r.id in n.tables && b.tables[r.id] <= n.tables[r.id])
    || (r.status == Prefill && r.cursor == 0 && r.output == [] && r.id in n.tables)
  }

  lemma {:induction false} AdmitAllOrigin(cfg: Config, a: Admission, rs: seq<Request>)
    requires WellFormed(a.blocks) && !cfg.prefixCaching
    requires forall r :: r in rs ==> Untouched(r)
    ensures forall r :: r in AdmitAll(cfg, a, rs).running ==>
      r in a.running || (r.status == Prefill && r.cursor == 0 && r.output == [])
    ensures forall id :: id in a.blocks.tables && id !in Ids(rs) ==>
      id in AdmitAll(cfg, a, rs).blocks.tables && AdmitAll(cfg, a, rs).blocks.tables[id] == a.blocks.tables[id]
    decreases |rs|
  {
    if rs != [] {
      var k := |rs| - 1;
      AdmitAllOrigin(cfg, a, rs[..k]);
      assert rs == rs[..k] + [rs[k]];
      IdsAppend(rs[..k], [rs[k]]);
      assert rs[k].id in Ids([rs[k]]);
      AdmitOneOrigin(cfg, AdmitAll(cfg, a, rs[..k]), rs[k]);
    }
  }

  lemma AdmitOneOrigin(cfg: Config, a: Admission, r: Request)
    requires WellFormed(a.blocks) && !cfg.prefixCaching && Untouched(r)
    ensures
      var n := AdmitOne(cfg, a, r);
      && (forall x :: x in n.running ==> x in a.running || (x.status == Prefill && x.cursor == 0 && x.output == []))
      && (forall id :: id in a.blocks.tables && id != r.id ==>
         id in n.blocks.tables && n.blocks.tables[id] == a.blocks.tables[id])
  {
    assert Admitted(cfg, a.blocks, r).cursor == 0;
  }

  lemma ScheduleOrigin(cfg: Config, q: Queue, b: Blocks)
    requires Shaped(q) && Backed(cfg, q.running, b) && Fits(cfg, q.running) && !cfg.prefixCaching
    ensures
      var (n, nb, sch) := RunSchedule(cfg, q, b);
      && nb.tables.Keys == Ids(n.running)
      && forall r :: r in n.running ==> Origin(r, q.running, b, nb)
  {
    var q1 := FinishPhase(q);
    var done := Filter(q.running, ReachedLimit);
    var b1 := FreeAll(b, done);
    FreeAllLaw(cfg, b, done);
    FinishPhaseBacked(cfg, q, b);
    FinishPhaseShaped(q);
    var a0 := Admission(ContinuePlan(cfg, q1.running), [], q1.running, [], b1);
    AdmitAllOrigin(cfg, a0, q.waiting);
    ScheduleLaw(cfg, q, b);
    var (n, nb, sch) := RunSchedule(cfg, q, b);
    forall r | r in n.running ensures Origin(r, q.running, b, nb) {
      assert r.id in Ids(n.running);
      if r in q1.running {
        assert r.id in Ids(q1.running);
        assert b1.tables[r.id] == b.tables[r.id];
        assert r.id !in Ids(q.waiting);
      }
    }
  }

  lemma DropOrigin(cfg: Config, s: Engine, ids: set<nat>, status: Status)
    requires Inv(cfg, s) && (status == TimedOut || status == Cancelled)
    ensures forall r :: r in Drop(s, ids, status).queue.running ==>
      r in s.queue.running && r.id in s.blocks.tables
      && r.id in Drop(s, ids, status).blocks.tables
      && Drop(s, ids, status).blocks.tables[r.id] == s.blocks.tables[r.id]
  {
    var gone := Filter(s.queue.running, InSet(ids));
    FreeAllLaw(cfg, s.blocks, gone);
    FilterSplits(s.queue.running, NotInSet(ids), InSet(ids));
    forall r | r in Filter(s.queue.running, NotInSet(ids))
      ensures r.id in s.blocks.tables && r.id !in Ids(gone)
    {
      assert r.id in Ids(Filter(s.queue.running, NotInSet(ids)));
    }
  }

  lemma OriginRefines(cfg: Config, m: Model, rs: seq<Request>, b: Blocks, r: Request, n: Blocks, caches: seq<seq<KV>>)
    requires AllRefine(cfg, m, rs, b, caches) && AllHonest(m, rs) && Origin(r, rs, b, n)
    ensures r.id in n.tables && Refines(cfg, m, n, r, caches) && Honest(m, r)
  {
    if r in rs && r.id in b.tables && b.tables[r.id] <= n.tables[r.id] {
      assert Pids(b.tables[r.id]) <= Pids(n.tables[r.id]);
      forall l | 0 <= l < |caches|
        ensures LogHeld(cfg.blockSize, m, Pids(n.tables[r.id]), TokensOf(r), caches[l], l, KvLen(r))
      {
        LogHeldExtends(cfg.blockSize, m, Pids(b.tables[r.id]), Pids(n.tables[r.id]), TokensOf(r), caches[l], l,
                       KvLen(r));
      }
    }
  }

  /** Timeouts, scheduling and block allocation keep the refinement. */
  lemma PrepareRefines(cfg: Config, m: Model, s: Paged, expired: set<nat>)
    requires Faithful(cfg, m, s)
    ensures
      var p := Prepare(cfg, s.engine, expired);
      && AllRefine(cfg, m, p.engine.queue.running, p.engine.blocks, s.caches)
      && AllHonest(m, p.engine.queue.running)
  {
    var s1 := Drop(s.engine, expired, TimedOut);
    DropInv(cfg, s.engine, expired, TimedOut);
    DropOrigin(cfg, s.engine, expired, TimedOut);
    ScheduleOrigin(cfg, s1.queue, s1.blocks);
    PrepareLaw(cfg, s.engine, expired);
    var (q, b, sch) := RunSchedule(cfg, s1.queue, s1.blocks);
    var p := Prepare(cfg, s.engine, expired);
    forall r | r in p.engine.queue.running
      ensures r.id in p.engine.blocks.tables && Refines(cfg, m, p.engine.blocks, r, s.caches) && Honest(m, r)
    {
      assert Origin(r, s1.queue.running, s1.blocks, b);
      assert Origin(r, s.engine.queue.running, s.engine.blocks, p.engine.blocks);
      OriginRefines(cfg, m, s.engine.queue.running, s.engine.blocks, r, p.engine.blocks, s.caches);
    }
  }

  // ---------------------------------------------------------------- the model run

  /** The log a request has before the step, stated through its slots. */
  lemma RefinesIsLogged(cfg: Config, m: Model, b: Blocks, batch: seq<Request>, caches: seq<seq<KV>>)
    requires BatchOk(cfg, b, batch) && AllRefine(cfg, m, batch, b, caches)
    ensures LoggedBefore(cfg, m, b, batch, caches, 0)
  {
    forall r, l | r in batch && 0 <= l < |caches|
      ensures Logged(cfg, m, b, r, caches[l], l, Min(KvLen(r), NextEnd(cfg, r)))
    {
      assert Refines(cfg, m, b, r, caches);
      assert LogHeld(cfg.blockSize, m, Pids(b.tables[r.id]), TokensOf(r), caches[l], l, KvLen(r));
    }
  }

  /** The last row of a request is the last position of its step. */
  lemma LastRowIsEnd(cfg: Config, b: Blocks, batch: seq<Request>, rows: seq<Row>, r: Request) returns (i: nat)
    requires BatchOk(cfg, b, batch) && rows == Rows(cfg, b, batch) && r in batch
    ensures LastRow(rows, r.id) == Some(i) && i < |rows|
    ensures rows[i].pos == NextEnd(cfg, r) - 1 && rows[i].id == r.id
  {
    var k := EndRow(cfg, b, batch, rows, r);
    i := LastRow(rows, r.id).value;
    RowsOrdered(cfg, b, batch);
    OwnRow(cfg, b, batch, rows, r, i);
    assert k == i;
  }

  lemma {:induction false} EndRow(cfg: Config, b: Blocks, batch: seq<Request>, rows: seq<Row>,
                                  r: Request) returns (k: nat)
    requires BatchOk(cfg, b, batch) && rows == Rows(cfg, b, batch) && r in batch
    ensures k < |rows| && rows[k].id == r.id && rows[k].pos == NextEnd(cfg, r) - 1
  {
    LivelyCost(cfg, r);
    RowsComplete(cfg, b, batch, r, NextEnd(cfg, r) - 1);
    k :| 0 <= k < |rows| && rows[k] == RowAt(cfg, b, r, NextEnd(cfg, r) - 1);
  }

  lemma {:induction false} OwnRow(cfg: Config, b: Blocks, batch: seq<Request>, rows: seq<Row>, r: Request, i: nat)
    requires BatchOk(cfg, b, batch) && rows == Rows(cfg, b, batch) && r in batch && i < |rows| && rows[i].id == r.id
    ensures rows[i].pos < NextEnd(cfg, r)
  {
    var q := RowsBelong(cfg, b, batch, rows[i]);
    SameId(batch, q, r);
  }

  /** What is sampled at row i, when that row ends request `r`. */
  lemma {:induction false} SampledAt(m: Model, batch: seq<Request>, rows: seq<Row>, hidden: seq<Vec>, i: nat,
                                     r: Request)
    requires HiddenOk(m, batch, rows, hidden, m.layers)
    requires r in batch && LastRow(rows, r.id) == Some(i) && i < |rows|
    requires r.id == rows[i].id && rows[i].pos + 1 == |TokensOf(r)|
    ensures |hidden| == |rows| && Sampled(m, rows, hidden)(r.id) == NextToken(m, TokensOf(r))
  {
    assert hidden[i] == Hidden(m, TokensOf(r), m.layers, rows[i].pos);
  }

  /** A request that samples receives the token it would generate alone. */
  lemma {:induction false} SampledIsNext(cfg: Config, m: Model, b: Blocks, batch: seq<Request>, rows: seq<Row>,
                                         hidden: seq<Vec>, r: Request)
    requires BatchOk(cfg, b, batch) && rows == Rows(cfg, b, batch) && r in batch
    requires HiddenOk(m, batch, rows, hidden, m.layers)
    requires NextEnd(cfg, r) == |TokensOf(r)|
    ensures |TokensOf(r)| > 0 && |hidden| == |rows|
    ensures Sampled(m, rows, hidden)(r.id) == NextToken(m, TokensOf(r))
  {
    var i := LastRowIsEnd(cfg, b, batch, rows, r);
    SampledAt(m, batch, rows, hidden, i, r);
  }

  /** Advancing with that token keeps the output what the request would generate alone. */
  lemma AdvanceHonest(cfg: Config, m: Model, r: Request, token: Token)
    requires Lively(r) && Honest(m, r)
    requires NextEnd(cfg, r) == |TokensOf(r)| ==> token == NextToken(m, TokensOf(r))
    ensures Honest(m, Advance(cfg, r, token))
    ensures TokensOf(r) <= TokensOf(Advance(cfg, r, token))
  {
    var n := Advance(cfg, r, token);
    if r.status == Prefill {
      assert r.output == [] && TokensOf(r) == r.prompt;
      if Completes(cfg, r) {
        assert Generate(m, r.prompt, 0) == [];
        assert r.prompt + [] == r.prompt;
        assert n.output == Generate(m, r.prompt, 1);
      }
    } else {
      assert n.output == Generate(m, r.prompt, |r.output| + 1);
    }
  }

  /** The log written during the step is the log of the advanced request. */
  lemma AdvanceRefines(cfg: Config, m: Model, b: Blocks, r: Request, n: Request, caches: seq<seq<KV>>)
    requires Covered(cfg, b, r) && n.id == r.id && KvLen(n) == NextEnd(cfg, r) && TokensOf(r) <= TokensOf(n)
    requires forall l :: 0 <= l < |caches| ==> Logged(cfg, m, b, r, caches[l], l, NextEnd(cfg, r))
    ensures Refines(cfg, m, b, n, caches)
  {
    var table := Pids(b.tables[r.id]);
    forall l | 0 <= l < |caches|
      ensures LogHeld(cfg.blockSize, m, table, TokensOf(n), caches[l], l, KvLen(n))
    {
      assert Logged(cfg, m, b, r, caches[l], l, NextEnd(cfg, r));
      forall j: nat | j < KvLen(n)
        ensures j / cfg.blockSize < |table| && SlotOf(cfg.blockSize, table, j) < |caches[l]| && j < |TokensOf(n)|
        ensures caches[l][SlotOf(cfg.blockSize, table, j)] == EntryAt(m, TokensOf(n), l, j)
      {
        BlockOfPosition(j, cfg.blockSize, |table|);
        assert SlotAt(cfg, b, r, j) == SlotOf(cfg.blockSize, table, j);
        HiddenPrefix(m, TokensOf(r), TokensOf(n), l, j);
      }
    }
  }

  lemma {:induction false} ForwardedOne(cfg: Config, m: Model, b: Blocks, batch: seq<Request>, f: Flow, r: Request)
    requires Sound(cfg, b, batch) && UpToLayer(cfg, m, b, batch, Rows(cfg, b, batch), f, m.layers)
    requires r in batch && Honest(m, r) && r.generated < Max(r.maxTokens, 1)
    ensures
      var n := Advance(cfg, r, Sampled(m, Rows(cfg, b, batch), f.hidden)(r.id));
      Honest(m, n) && n.id == r.id && Refines(cfg, m, b, n, f.caches)
  {
    var token := Sampled(m, Rows(cfg, b, batch), f.hidden)(r.id);
    if NextEnd(cfg, r) == |TokensOf(r)| { SampledIsNext(cfg, m, b, batch, Rows(cfg, b, batch), f.hidden, r); }
    AdvanceHonest(cfg, m, r, token);
    AdvanceLaw(cfg, r, token);
    AdvanceRefines(cfg, m, b, r, Advance(cfg, r, token), f.caches);
  }

  /** Running the model keeps the refinement and the outputs of everything running. */
  lemma ForwardRefines(cfg: Config, m: Model, p: StepResult, caches: seq<seq<KV>>)
    requires WellFormed(p.engine.blocks) && Prepared(cfg, p) && !p.oom && !cfg.prefixCaching
    requires CachesOk(cfg, m, caches)
    requires AllRefine(cfg, m, p.engine.queue.running, p.engine.blocks, caches)
    requires AllHonest(m, p.engine.queue.running)
    ensures Sound(cfg, p.engine.blocks, BatchOf(p.schedule))
    ensures
      var n := Forwarded(cfg, m, p, caches);
      && CachesOk(cfg, m, n.caches)
      && AllRefine(cfg, m, n.engine.queue.running, n.engine.blocks, n.caches)
      && AllHonest(m, n.engine.queue.running)
  {
    var b := p.engine.blocks;
    var batch := BatchOf(p.schedule);
    var running := p.engine.queue.running;
    BatchSound(cfg, p);
    BatchIsRunning(cfg, p.engine.queue, b, p.schedule);
    RefinesIsLogged(cfg, m, b, batch, caches);
    var rows := Rows(cfg, b, batch);
    RowsFitLemma(cfg, b, batch);
    var f := Pass(cfg, m, caches, rows, m.layers);
    PassIsReference(cfg, m, b, batch, rows, caches, m.layers, f);
    var sample := Sampled(m, rows, f.hidden);
    var after := AdvanceAll(cfg, running, Ids(batch), sample);
    forall r | r in after ensures r.id in b.tables && Refines(cfg, m, b, r, f.caches) && Honest(m, r) {
      var i :| 0 <= i < |after| && after[i] == r;
      assert running[i] in running;
      assert running[i].id in Ids(running);
      ForwardedOne(cfg, m, b, batch, f, running[i]);
    }
    assert Forwarded(cfg, m, p, caches) == Paged(Finish(cfg, p, sample), f.caches);
  }
}

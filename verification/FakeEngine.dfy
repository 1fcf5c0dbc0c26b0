/** The engine driven by the fake executor: one step keeps every block's list what its own sequence
    wrote since the block was allocated. */
module FakeEngine {
  import opened Base
  import opened BlockSpec
  import opened BlockCoverage
  import opened Requests
  import opened ScheduleSpec
  import opened EngineSpec
  import opened EngineLaws
  import opened StepLaws
  import opened PagedEngine
  import opened FakeExecution
  import opened FakeCallbacks

  datatype Fake = Fake(engine: Engine, sim: Sim)

  ghost predicate AllMirror(cfg: Config, vocab: int, b: Blocks, k: Sim, rs: seq<Request>)
    requires vocab > 0
  {
    forall r :: r in rs ==> Mirrors(cfg, vocab, b, k, r)
  }

  ghost predicate AllScripted(cfg: Config, vocab: int, rs: seq<Request>)
    requires vocab > 0
  {
    forall r :: r in rs ==> Scripted(cfg, vocab, r)
  }

  /** One list per block in use, each the one-time writes of its sequence; all outputs so far are
      the closed text. */
  ghost predicate Faked(cfg: Config, vocab: int, s: Fake)
    requires vocab > 0
  {
    && Inv(cfg, s.engine) && !cfg.prefixCaching
    && s.sim.kv.Keys == Used(s.engine.blocks.pool)
    && AllMirror(cfg, vocab, s.engine.blocks, s.sim, s.engine.queue.running)
    && AllScripted(cfg, vocab, s.engine.queue.running)
    && AllScripted(cfg, vocab, s.engine.queue.finished)
  }

  // ---------------------------------------------------------------- before the executor runs

  /** Where a running request comes from: it kept its table, or it was admitted with an empty one. */
  ghost predicate Carried(r: Request, before: seq<Request>, b: Blocks, n: Blocks) {
    || (r in before && r.id in b.tables && r.id in n.tables && n.tables[r.id] == b.tables[r.id])
    || (r.status == Prefill && r.cursor == 0 && r.output == [] && r.id in n.tables && n.tables[r.id] == [])
  }

  lemma {:induction false} AdmitAllEmpty(cfg: Config, a: Admission, rs: seq<Request>)
    requires WellFormed(a.blocks) && !cfg.prefixCaching
    ensures AdmitAll(cfg, a, rs).blocks.pool == a.blocks.pool
    ensures forall id :: id in AdmitAll(cfg, a, rs).blocks.tables ==>
      id in a.blocks.tables || AdmitAll(cfg, a, rs).blocks.tables[id] == []
    decreases |rs|
  {
    if rs != [] { AdmitAllEmpty(cfg, a, rs[..|rs| - 1]); }
  }

  /** The admission phase. */
  lemma AdmitCarries(cfg: Config, q: Queue, b: Blocks, p: Plan, r: Request)
    requires WellFormed(b) && Shaped(q) && b.tables.Keys == Ids(q.running) && !cfg.prefixCaching
    requires Distinct(AdmitPhase(cfg, q, b, p).running) && r in AdmitPhase(cfg, q, b, p).running
    requires AdmitPhase(cfg, q, b, p).blocks.tables.Keys == Ids(AdmitPhase(cfg, q, b, p).running)
    requires forall x :: x in q.running ==> x in AdmitPhase(cfg, q, b, p).running
    ensures Carried(r, q.running, b, AdmitPhase(cfg, q, b, p).blocks)
  {
    var a0 := Admission(p, [], q.running, [], b);
    AdmitAllOrigin(cfg, a0, q.waiting);
    AdmitAllEmpty(cfg, a0, q.waiting);
    var a := AdmitPhase(cfg, q, b, p);
    assert r.id in Ids(a.running);
    if r in q.running {
      assert r.id in Ids(q.running);
    } else {
      NotBefore(a.running, q.running, r);
    }
  }

  /** The retiring phase. */
  lemma RetireCarries(cfg: Config, q: Queue, b: Blocks)
    requires Shaped(q) && Backed(cfg, q.running, b) && Fits(cfg, q.running)
    ensures
      var b1 := FreeAll(b, Filter(q.running, ReachedLimit));
      forall r :: r in FinishPhase(q).running ==>
        r in q.running && r.id in b1.tables && r.id in b.tables && b1.tables[r.id] == b.tables[r.id]
  {
    FreeAllLaw(cfg, b, Filter(q.running, ReachedLimit));
    FinishPhaseBacked(cfg, q, b);
    forall r | r in FinishPhase(q).running ensures r.id in Ids(FinishPhase(q).running) {
    }
  }

  lemma ScheduleCarries(cfg: Config, q: Queue, b: Blocks)
    requires Shaped(q) && Backed(cfg, q.running, b) && Fits(cfg, q.running) && !cfg.prefixCaching
    ensures
      var (n, nb, sch) := RunSchedule(cfg, q, b);
      forall r :: r in n.running ==> Carried(r, q.running, b, nb)
  {
    var q1 := FinishPhase(q);
    var b1 := FreeAll(b, Filter(q.running, ReachedLimit));
    FinishPhaseBacked(cfg, q, b);
    FinishPhaseShaped(q);
    RetireCarries(cfg, q, b);
    ContinueNeverIgnores(cfg, q1.running);
    AdmissionLaw(cfg, q1, b1);
    var a := AdmitPhase(cfg, q1, b1, ContinuePlan(cfg, q1.running));
    assert RunSchedule(cfg, q, b).0.running == a.running && RunSchedule(cfg, q, b).1 == a.blocks;
    forall r | r in a.running ensures Carried(r, q.running, b, a.blocks) {
      AdmitCarries(cfg, q1, b1, ContinuePlan(cfg, q1.running), r);
    }
  }

  lemma NotBefore(all: seq<Request>, part: seq<Request>, r: Request)
    requires Distinct(all) && r in all && r !in part && forall x :: x in part ==> x in all
    ensures r.id !in Ids(part)
  {
    if r.id in Ids(part) {
      var x :| x in part && x.id == r.id;
      SameId(all, x, r);
    }
  }

  /** Callbacks of one phase: the numbers of carried requests survive. */
  lemma CarriedMirrors(cfg: Config, vocab: int, b: Blocks, c: Blocks, k: Sim, before: seq<Request>, r: Request)
    requires vocab > 0 && Conserved(b) && Conserved(c)
    requires AllMirror(cfg, vocab, b, k, before) && AllScripted(cfg, vocab, before) && Carried(r, before, b, c)
    ensures Mirrors(cfg, vocab, c, k.(kv := Announce(b.pool, c.pool, k.kv)), r) && Scripted(cfg, vocab, r)
  {
    if r in before && r.id in b.tables && c.tables[r.id] == b.tables[r.id] {
      HoldingAnnounced(cfg, vocab, b, c, k.kv, r.id, |r.prompt|, r.output, KvLen(r));
    }
  }

  /** Callbacks of the allocation phase: new blocks start empty. */
  lemma GrownMirrors(cfg: Config, vocab: int, b: Blocks, c: Blocks, k: Sim, r: Request)
    requires vocab > 0 && Conserved(b) && Conserved(c) && Exclusive(b) && Exclusive(c) && Extended(b, c)
    requires |b.pool.refs| == |c.pool.refs| && Mirrors(cfg, vocab, b, k, r)
    requires KvLen(r) <= Span(cfg.blockSize, |b.tables[r.id]|)
    ensures Mirrors(cfg, vocab, c, k.(kv := Announce(b.pool, c.pool, k.kv)), r)
  {
    forall i: nat | |b.tables[r.id]| <= i < |c.tables[r.id]| ensures c.tables[r.id][i].pid !in Used(b.pool) {
      NewEntryWasFree(b, c, r.id, i);
    }
    HoldingAnnounced(cfg, vocab, b, c, k.kv, r.id, |r.prompt|, r.output, KvLen(r));
  }

  /** The callbacks of dropping live requests, and those of the finish check.  Admission calls
      nobody: it claims no block. */
  function DropHeard(s: Engine, kv: Lists, ids: set<nat>): Lists
    requires WellFormed(s.blocks)
  {
    FreeAllHeard(s.blocks, kv, Filter(s.queue.running, InSet(ids)))
  }

  function ScheduleHeard(q: Queue, b: Blocks, kv: Lists): Lists
    requires WellFormed(b)
  {
    FreeAllHeard(b, kv, Filter(q.running, ReachedLimit))
  }

  /** The dictionary once the blocks of the step are allocated: every callback in its order. */
  function Heard(cfg: Config, s: Fake, expired: set<nat>): Sim
    requires WellFormed(s.engine.blocks)
  {
    var s1 := Drop(s.engine, expired, TimedOut);
    var (q, b, sch) := RunSchedule(cfg, s1.queue, s1.blocks);
    var kv := ScheduleHeard(s1.queue, s1.blocks, DropHeard(s.engine, s.sim.kv, expired));
    s.sim.(kv := EnsureAllHeard(cfg, b, kv, BatchOf(sch)))
  }

  lemma DropIsNet(cfg: Config, s: Engine, kv: Lists, ids: set<nat>, status: Status)
    requires Conserved(s.blocks)
    ensures DropHeard(s, kv, ids) == Announce(s.blocks.pool, Drop(s, ids, status).blocks.pool, kv)
  {
    FreeAllReturns(cfg, s.blocks, kv, Filter(s.queue.running, InSet(ids)));
  }

  lemma ScheduleIsNet(cfg: Config, q: Queue, b: Blocks, kv: Lists)
    requires Conserved(b) && !cfg.prefixCaching
    ensures ScheduleHeard(q, b, kv) == Announce(b.pool, RunSchedule(cfg, q, b).1.pool, kv)
  {
    var q1 := FinishPhase(q);
    var b1 := FreeAll(b, Filter(q.running, ReachedLimit));
    AdmitAllEmpty(cfg, Admission(ContinuePlan(cfg, q1.running), [], q1.running, [], b1), q.waiting);
    FreeAllReturns(cfg, b, kv, Filter(q.running, ReachedLimit));
  }

  /** Calling back one by one comes to the net effects of the three phases. */
  lemma HeardIsNet(cfg: Config, s: Fake, expired: set<nat>)
    requires Inv(cfg, s.engine) && !cfg.prefixCaching
    ensures
      var s1 := Drop(s.engine, expired, TimedOut);
      var b := RunSchedule(cfg, s1.queue, s1.blocks).1;
      var c := Prepare(cfg, s.engine, expired).engine.blocks;
      Heard(cfg, s, expired).kv
        == Announce(b.pool, c.pool, Announce(s1.blocks.pool, b.pool,
                    Announce(s.engine.blocks.pool, s1.blocks.pool, s.sim.kv)))
  {
    var s1 := Drop(s.engine, expired, TimedOut);
    var (q, b, sch) := RunSchedule(cfg, s1.queue, s1.blocks);
    DropIsNet(cfg, s.engine, s.sim.kv, expired, TimedOut);
    DropInv(cfg, s.engine, expired, TimedOut);
    var kv1 := DropHeard(s.engine, s.sim.kv, expired);
    ScheduleIsNet(cfg, s1.queue, s1.blocks, kv1);
    EnsureAllTakes(cfg, b, ScheduleHeard(s1.queue, s1.blocks, kv1), BatchOf(sch));
  }

  lemma DropMirrors(cfg: Config, vocab: int, s: Fake, ids: set<nat>, status: Status)
    requires vocab > 0 && Faked(cfg, vocab, s) && (status == TimedOut || status == Cancelled)
    ensures
      var n := Drop(s.engine, ids, status);
      var k := s.sim.(kv := Announce(s.engine.blocks.pool, n.blocks.pool, s.sim.kv));
      && Inv(cfg, n) && k.kv.Keys == Used(n.blocks.pool)
      && AllMirror(cfg, vocab, n.blocks, k, n.queue.running) && AllScripted(cfg, vocab, n.queue.running)
  {
    var n := Drop(s.engine, ids, status);
    DropInv(cfg, s.engine, ids, status);
    DropOrigin(cfg, s.engine, ids, status);
    AnnounceKeys(s.engine.blocks.pool, n.blocks.pool, s.sim.kv);
    forall r | r in n.queue.running
      ensures Mirrors(cfg, vocab, n.blocks, s.sim.(kv := Announce(s.engine.blocks.pool, n.blocks.pool, s.sim.kv)), r)
      ensures Scripted(cfg, vocab, r)
    {
      CarriedMirrors(cfg, vocab, s.engine.blocks, n.blocks, s.sim, s.engine.queue.running, r);
    }
  }

  lemma ScheduleMirrors(cfg: Config, vocab: int, q: Queue, b: Blocks, k: Sim)
    requires vocab > 0 && Shaped(q) && Backed(cfg, q.running, b) && Fits(cfg, q.running) && !cfg.prefixCaching
    requires AllMirror(cfg, vocab, b, k, q.running) && AllScripted(cfg, vocab, q.running) && k.kv.Keys == Used(b.pool)
    ensures
      var (n, c, sch) := RunSchedule(cfg, q, b);
      var m := k.(kv := Announce(b.pool, c.pool, k.kv));
      && Scheduled(cfg, n, c, sch) && m.kv.Keys == Used(c.pool)
      && AllMirror(cfg, vocab, c, m, n.running) && AllScripted(cfg, vocab, n.running)
  {
    ScheduleLaw(cfg, q, b);
    ScheduleCarries(cfg, q, b);
    var (n, c, sch) := RunSchedule(cfg, q, b);
    AnnounceKeys(b.pool, c.pool, k.kv);
    forall r | r in n.running
      ensures Mirrors(cfg, vocab, c, k.(kv := Announce(b.pool, c.pool, k.kv)), r) && Scripted(cfg, vocab, r)
    {
      CarriedMirrors(cfg, vocab, b, c, k, q.running, r);
    }
  }

  lemma GrowthMirrors(cfg: Config, vocab: int, q: Queue, b: Blocks, c: Blocks, k: Sim)
    requires vocab > 0 && !cfg.prefixCaching && Backed(cfg, q.running, b) && Backed(cfg, q.running, c)
    requires Extended(b, c)
    requires AllMirror(cfg, vocab, b, k, q.running) && k.kv.Keys == Used(b.pool)
    ensures
      var m := k.(kv := Announce(b.pool, c.pool, k.kv));
      m.kv.Keys == Used(c.pool) && AllMirror(cfg, vocab, c, m, q.running)
  {
    AnnounceKeys(b.pool, c.pool, k.kv);
    forall r | r in q.running ensures Mirrors(cfg, vocab, c, k.(kv := Announce(b.pool, c.pool, k.kv)), r) {
      SpanCovers(KvLen(r), cfg.blockSize, |b.tables[r.id]|);
      GrownMirrors(cfg, vocab, b, c, k, r);
    }
  }

  /** Timeouts, scheduling and allocation keep every list what its sequence wrote. */
  lemma PrepareMirrors(cfg: Config, vocab: int, s: Fake, expired: set<nat>)
    requires vocab > 0 && Faked(cfg, vocab, s)
    ensures
      var p := Prepare(cfg, s.engine, expired);
      var k := Heard(cfg, s, expired);
      && Prepared(cfg, p) && k.kv.Keys == Used(p.engine.blocks.pool)
      && AllMirror(cfg, vocab, p.engine.blocks, k, p.engine.queue.running)
      && AllScripted(cfg, vocab, p.engine.queue.running)
  {
    var s1 := Drop(s.engine, expired, TimedOut);
    DropMirrors(cfg, vocab, s, expired, TimedOut);
    var k1 := s.sim.(kv := Announce(s.engine.blocks.pool, s1.blocks.pool, s.sim.kv));
    ScheduleMirrors(cfg, vocab, s1.queue, s1.blocks, k1);
    var (q, b, sch) := RunSchedule(cfg, s1.queue, s1.blocks);
    PrepareLaw(cfg, s.engine, expired);
    var c := Prepare(cfg, s.engine, expired).engine.blocks;
    GrowthMirrors(cfg, vocab, q, b, c, k1.(kv := Announce(s1.blocks.pool, b.pool, k1.kv)));
    HeardIsNet(cfg, s, expired);
  }
}

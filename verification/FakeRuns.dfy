/** Whole runs with the fake executor: whatever is batched, chunked, cancelled or timed out around
    it, a request's output is a closed function of its prompt length, its limit, the block size and
    the vocabulary size. */
module FakeRuns {
  import opened Base
  import opened BlockSpec
  import opened Requests
  import opened EngineSpec
  import opened StepLaws
  import opened BatchSpec
  import opened InputBuilding
  import opened PagedEngine
  import opened PagedRuns
  import opened FakeModels
  import opened FakeExecution
  import opened FakeServing
  import opened FakeCallbacks
  import opened FakeEngine

  lemma BatchLively(cfg: Config, p: StepResult)
    requires WellFormed(p.engine.blocks) && Prepared(cfg, p)
    ensures forall r :: r in BatchOf(p.schedule) ==> Lively(r)
  {
    BatchIsRunning(cfg, p.engine.queue, p.engine.blocks, p.schedule);
  }

  /** Running the executor over a prepared batch and handing its tokens back. */
  ghost function Answered(cfg: Config, vocab: int, p: StepResult, k: Sim): Fake
    requires vocab > 0 && WellFormed(p.engine.blocks) && Prepared(cfg, p)
  {
    BatchLively(cfg, p);
    var a := Answer(cfg, vocab, p.engine.blocks, k, BatchOf(p.schedule));
    Fake(Finish(cfg, p, Handed(a.tokens, a.ids)), a.sim)
  }

  ghost function FakeStep(cfg: Config, vocab: int, s: Fake, expired: set<nat>): Fake
    requires vocab > 0 && Inv(cfg, s.engine)
  {
    var p := Prepare(cfg, s.engine, expired);
    PrepareLaw(cfg, s.engine, expired);
    if p.oom then Fake(p.engine, Heard(cfg, s, expired)) else Answered(cfg, vocab, p, Heard(cfg, s, expired))
  }

  lemma FakeStepIsStep(cfg: Config, vocab: int, s: Fake, expired: set<nat>) returns (sample: nat -> Token)
    requires vocab > 0 && Inv(cfg, s.engine)
    ensures FakeStep(cfg, vocab, s, expired).engine == Step(cfg, s.engine, expired, sample).engine
  {
    var p := Prepare(cfg, s.engine, expired);
    PrepareLaw(cfg, s.engine, expired);
    sample := (id: nat) => 0;
    if !p.oom {
      BatchLively(cfg, p);
      var a := Answer(cfg, vocab, p.engine.blocks, Heard(cfg, s, expired), BatchOf(p.schedule));
      sample := Handed(a.tokens, a.ids);
    }
  }

  lemma FakeStepInv(cfg: Config, vocab: int, s: Fake, expired: set<nat>)
    requires vocab > 0 && Inv(cfg, s.engine)
    ensures Inv(cfg, FakeStep(cfg, vocab, s, expired).engine)
  {
    var sample := FakeStepIsStep(cfg, vocab, s, expired);
    StepInv(cfg, s.engine, expired, sample);
  }

  // ---------------------------------------------------------------- one step

  /** Everything in a prepared batch can be served. */
  lemma BatchWaits(cfg: Config, vocab: int, p: StepResult, k: Sim)
    requires vocab > 0 && WellFormed(p.engine.blocks) && Prepared(cfg, p) && !p.oom && !cfg.prefixCaching
    requires AllMirror(cfg, vocab, p.engine.blocks, k, p.engine.queue.running)
    requires AllScripted(cfg, vocab, p.engine.queue.running)
    ensures Distinct(BatchOf(p.schedule)) && AllServable(cfg, vocab, p.engine.blocks, k, BatchOf(p.schedule))
  {
    BatchIsRunning(cfg, p.engine.queue, p.engine.blocks, p.schedule);
    BatchSound(cfg, p);
    forall r | r in BatchOf(p.schedule) ensures Servable(cfg, vocab, p.engine.blocks, k, r) {
      assert Covered(cfg, p.engine.blocks, r);
    }
  }

  lemma AnswerBatch(cfg: Config, vocab: int, b: Blocks, k: Sim, batch: seq<Request>)
    requires vocab > 0 && Distinct(batch) && AllServable(cfg, vocab, b, k, batch)
    ensures forall r :: r in batch ==> Lively(r)
    ensures
      var a := Answer(cfg, vocab, b, k, batch);
      && DoneWith(cfg, vocab, b, batch, a)
      && a.ids == IdsOf(Samplers(cfg, batch))
      && a.sim.total == k.total + TotalCost(cfg, batch)
  {
    assert batch + [] == batch;
    AnswerLaw(cfg, vocab, b, k, batch, []);
  }

  lemma AnswerKeys(cfg: Config, vocab: int, b: Blocks, k: Sim, batch: seq<Request>)
    requires vocab > 0 && Conserved(b) && k.kv.Keys == Used(b.pool) && forall r :: r in batch ==> Lively(r)
    ensures Answer(cfg, vocab, b, k, batch).sim.kv.Keys == Used(b.pool)
  {
    forall id, i: nat | id in b.tables && i < |b.tables[id]| ensures b.tables[id][i].pid in k.kv {
      TabledIsUsed(b, id, i);
    }
    InfosSane(cfg, batch);
    ServeAllKeys(cfg, vocab, b, k, Infos(cfg, batch));
  }

  lemma AdvancedMirror(cfg: Config, vocab: int, b: Blocks, running: seq<Request>, batch: seq<Request>, a: Reply)
    requires vocab > 0 && DoneWith(cfg, vocab, b, batch, a) && forall r :: r in running ==> r in batch
    ensures AllMirror(cfg, vocab, b, a.sim, AdvanceAll(cfg, running, Ids(batch), Handed(a.tokens, a.ids)))
    ensures AllScripted(cfg, vocab, AdvanceAll(cfg, running, Ids(batch), Handed(a.tokens, a.ids)))
  {
    var sample := Handed(a.tokens, a.ids);
    var after := AdvanceAll(cfg, running, Ids(batch), sample);
    forall r | r in after ensures Mirrors(cfg, vocab, b, a.sim, r) && Scripted(cfg, vocab, r) {
      var i :| 0 <= i < |after| && after[i] == r;
      assert running[i] in batch;
      assert running[i].id in Ids(batch);
    }
  }

  lemma AnsweredMirrors(cfg: Config, vocab: int, p: StepResult, k: Sim)
    requires vocab > 0 && WellFormed(p.engine.blocks) && Prepared(cfg, p) && !p.oom && !cfg.prefixCaching
    requires AllMirror(cfg, vocab, p.engine.blocks, k, p.engine.queue.running)
    requires AllScripted(cfg, vocab, p.engine.queue.running) && k.kv.Keys == Used(p.engine.blocks.pool)
    ensures
      var n := Answered(cfg, vocab, p, k);
      && n.sim.kv.Keys == Used(n.engine.blocks.pool)
      && AllMirror(cfg, vocab, n.engine.blocks, n.sim, n.engine.queue.running)
      && AllScripted(cfg, vocab, n.engine.queue.running)
      && n.engine.queue.finished == p.engine.queue.finished
      && n.sim.total == k.total + TotalCost(cfg, BatchOf(p.schedule))
  {
    var b, batch := p.engine.blocks, BatchOf(p.schedule);
    BatchIsRunning(cfg, p.engine.queue, b, p.schedule);
    BatchWaits(cfg, vocab, p, k);
    AnswerBatch(cfg, vocab, b, k, batch);
    AnswerKeys(cfg, vocab, b, k, batch);
    AdvancedMirror(cfg, vocab, b, p.engine.queue.running, batch, Answer(cfg, vocab, b, k, batch));
  }

  lemma AllWithStatusScripted(cfg: Config, vocab: int, rs: seq<Request>, s: Status)
    requires vocab > 0 && AllScripted(cfg, vocab, rs)
    ensures AllScripted(cfg, vocab, AllWithStatus(rs, s))
  {
    var ws := AllWithStatus(rs, s);
    forall r | r in ws ensures Scripted(cfg, vocab, r) {
      var i :| 0 <= i < |ws| && ws[i] == r;
      assert rs[i] in rs;
      assert Scripted(cfg, vocab, rs[i]);
    }
  }

  lemma UntouchedScripted(cfg: Config, vocab: int, rs: seq<Request>)
    requires vocab > 0 && forall r :: r in rs ==> Untouched(r)
    ensures AllScripted(cfg, vocab, rs)
  {
    forall r | r in rs ensures Scripted(cfg, vocab, r) {
      assert Untouched(r);
    }
  }

  lemma DropScripted(cfg: Config, vocab: int, s: Engine, ids: set<nat>, status: Status)
    requires vocab > 0 && WellFormed(s.blocks) && Shaped(s.queue)
    requires AllScripted(cfg, vocab, s.queue.running) && AllScripted(cfg, vocab, s.queue.finished)
    ensures AllScripted(cfg, vocab, Drop(s, ids, status).queue.finished)
    ensures AllScripted(cfg, vocab, Drop(s, ids, status).queue.running)
  {
    AllWithStatusScripted(cfg, vocab, Filter(s.queue.running, InSet(ids)), status);
    UntouchedScripted(cfg, vocab, s.queue.waiting);
  }

  lemma PrepareFinishedScripted(cfg: Config, vocab: int, s: Engine, expired: set<nat>)
    requires vocab > 0 && WellFormed(s.blocks) && Shaped(s.queue)
    requires AllScripted(cfg, vocab, s.queue.running) && AllScripted(cfg, vocab, s.queue.finished)
    ensures AllScripted(cfg, vocab, Prepare(cfg, s, expired).engine.queue.finished)
  {
    DropScripted(cfg, vocab, s, expired, TimedOut);
    AllWithStatusScripted(cfg, vocab, Filter(Drop(s, expired, TimedOut).queue.running, ReachedLimit), Finished);
  }

  /** Every step, finished or abandoned for lack of blocks, keeps the dictionary and the outputs. */
  lemma FakeStepFaked(cfg: Config, vocab: int, s: Fake, expired: set<nat>)
    requires vocab > 0 && Faked(cfg, vocab, s)
    ensures Faked(cfg, vocab, FakeStep(cfg, vocab, s, expired))
  {
    var p := Prepare(cfg, s.engine, expired);
    PrepareLaw(cfg, s.engine, expired);
    PrepareMirrors(cfg, vocab, s, expired);
    PrepareFinishedScripted(cfg, vocab, s.engine, expired);
    FakeStepInv(cfg, vocab, s, expired);
    if !p.oom { AnsweredMirrors(cfg, vocab, p, Heard(cfg, s, expired)); }
  }

  /** A step counts every token of its batch once. */
  lemma TokensCounted(cfg: Config, vocab: int, s: Fake, expired: set<nat>)
    requires vocab > 0 && Faked(cfg, vocab, s) && !Prepare(cfg, s.engine, expired).oom
    ensures FakeStep(cfg, vocab, s, expired).sim.total
      == s.sim.total + TotalCost(cfg, BatchOf(Prepare(cfg, s.engine, expired).schedule))
  {
    PrepareLaw(cfg, s.engine, expired);
    PrepareMirrors(cfg, vocab, s, expired);
    AnsweredMirrors(cfg, vocab, Prepare(cfg, s.engine, expired), Heard(cfg, s, expired));
  }

  // ---------------------------------------------------------------- runs

  /** Cancelling releases the blocks of the request and nothing else. */
  function FakeCancel(s: Fake, id: nat): Fake
    requires WellFormed(s.engine.blocks)
  {
    var live := id in Ids(s.engine.queue.waiting) + Ids(s.engine.queue.running);
    Fake(Cancel(s.engine, id), if live then s.sim.(kv := DropHeard(s.engine, s.sim.kv, {id})) else s.sim)
  }

  lemma FakeCancelFaked(cfg: Config, vocab: int, s: Fake, id: nat)
    requires vocab > 0 && Faked(cfg, vocab, s)
    ensures Faked(cfg, vocab, FakeCancel(s, id))
  {
    var q := s.engine.queue;
    CancelInv(cfg, s.engine, id);
    if id in Ids(q.waiting) + Ids(q.running) {
      DropMirrors(cfg, vocab, s, {id}, Cancelled);
      DropIsNet(cfg, s.engine, s.sim.kv, {id}, Cancelled);
      DropScripted(cfg, vocab, s.engine, {id}, Cancelled);
    } else {
      UntouchedScripted(cfg, vocab, q.rejected);
    }
  }

  ghost function FakeDo(cfg: Config, vocab: int, s: Fake, c: Command): (n: Fake)
    requires vocab > 0 && Inv(cfg, s.engine) && LegalCommand(c)
    ensures Inv(cfg, n.engine)
  {
    match c
    case Submit(prompt, maxTokens) =>
      AddInv(cfg, s.engine, prompt, maxTokens);
      s.(engine := AddRequest(s.engine, prompt, maxTokens))
    case Withdraw(id) =>
      CancelInv(cfg, s.engine, id);
      FakeCancel(s, id)
    case Tick(expired) =>
      FakeStepInv(cfg, vocab, s, expired);
      FakeStep(cfg, vocab, s, expired)
  }

  ghost function FakeRun(cfg: Config, vocab: int, cs: seq<Command>): (n: Fake)
    requires vocab > 0 && forall i :: 0 <= i < |cs| ==> LegalCommand(cs[i])
    ensures Inv(cfg, n.engine)
    decreases |cs|
  {
    InitInv(cfg);
    if cs == [] then Fake(Init(cfg), Sim(map[], map[], 0))
    else FakeDo(cfg, vocab, FakeRun(cfg, vocab, cs[..|cs| - 1]), cs[|cs| - 1])
  }

  lemma FakeDoFaked(cfg: Config, vocab: int, s: Fake, c: Command)
    requires vocab > 0 && Faked(cfg, vocab, s) && LegalCommand(c)
    ensures Faked(cfg, vocab, FakeDo(cfg, vocab, s, c))
  {
    match c
    case Submit(prompt, maxTokens) => AddInv(cfg, s.engine, prompt, maxTokens);
    case Withdraw(id) => FakeCancelFaked(cfg, vocab, s, id);
    case Tick(expired) => FakeStepFaked(cfg, vocab, s, expired);
  }

  /** In every state of every run each list in the dictionary is exactly what its own sequence
      wrote since the block was allocated, and the blocks in use are the ones that have a list. */
  lemma {:induction false} FakeRunFaked(cfg: Config, vocab: int, cs: seq<Command>)
    requires vocab > 0 && !cfg.prefixCaching && forall i :: 0 <= i < |cs| ==> LegalCommand(cs[i])
    ensures Faked(cfg, vocab, FakeRun(cfg, vocab, cs))
    decreases |cs|
  {
    InitInv(cfg);
    if cs == [] {
      assert Used(Init(cfg).blocks.pool) == {};
    } else {
      FakeRunFaked(cfg, vocab, cs[..|cs| - 1]);
      FakeDoFaked(cfg, vocab, FakeRun(cfg, vocab, cs[..|cs| - 1]), cs[|cs| - 1]);
    }
  }

  /** After any run, a finished request with a positive limit holds the closed text of that length,
      and every other request that ever ran holds a prefix of its own. */
  lemma FakeOutputIsClosed(cfg: Config, vocab: int, cs: seq<Command>, r: Request)
    requires vocab > 0 && !cfg.prefixCaching && forall i :: 0 <= i < |cs| ==> LegalCommand(cs[i])
    requires var q := FakeRun(cfg, vocab, cs).engine.queue; r in q.finished || r in q.running
    ensures |r.prompt| > 0
    ensures r.status == Finished && r.maxTokens >= 1 ==>
      r.output == FakeText(vocab, cfg.blockSize, |r.prompt|, r.maxTokens)
    ensures r.output <= FakeText(vocab, cfg.blockSize, |r.prompt|, Max(r.maxTokens, 1))
  {
    FakeRunFaked(cfg, vocab, cs);
    var s := FakeRun(cfg, vocab, cs);
    assert Scripted(cfg, vocab, r);
    assert r in s.engine.queue.running ==> Lively(r);
    assert r in s.engine.queue.finished ==> Ended(r);
    FakeTextPrefix(vocab, cfg.blockSize, |r.prompt|, |r.output|, Max(r.maxTokens, 1));
  }

  /** Nothing else matters: two requests finished in two different runs, under different budgets,
      chunk sizes, pool sizes and batch modes, hold the same output whenever prompt length, limit,
      block size and vocabulary agree. */
  lemma OnlyLengthsMatter(cfg1: Config, cfg2: Config, vocab: int, cs1: seq<Command>, cs2: seq<Command>, r1: Request,
                          r2: Request)
    requires vocab > 0 && !cfg1.prefixCaching && !cfg2.prefixCaching && cfg1.blockSize == cfg2.blockSize
    requires forall i :: 0 <= i < |cs1| ==> LegalCommand(cs1[i])
    requires forall i :: 0 <= i < |cs2| ==> LegalCommand(cs2[i])
    requires r1 in FakeRun(cfg1, vocab, cs1).engine.queue.finished && r1.status == Finished
    requires r2 in FakeRun(cfg2, vocab, cs2).engine.queue.finished && r2.status == Finished
    requires |r1.prompt| == |r2.prompt| && r1.maxTokens == r2.maxTokens >= 1
    ensures r1.output == r2.output
  {
    FakeOutputIsClosed(cfg1, vocab, cs1, r1);
    FakeOutputIsClosed(cfg2, vocab, cs2, r2);
  }
}

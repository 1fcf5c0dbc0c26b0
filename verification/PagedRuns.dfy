/** Whole runs of the paged engine: for every interleaving of additions, cancels, timeouts and
    steps, and every choice of budgets and chunk size, the outputs are those of the reference. */
module PagedRuns {
  import opened Base
  import opened BlockSpec
  import opened Requests
  import opened EngineSpec
  import opened StepLaws
  import opened Transformer
  import opened BatchSpec
  import opened Forward
  import opened PagedEngine

  lemma AllWithStatusHonest(m: Model, rs: seq<Request>, s: Status)
    requires AllHonest(m, rs)
    ensures AllHonest(m, AllWithStatus(rs, s))
  {
    var ws := AllWithStatus(rs, s);
    forall r | r in ws ensures Honest(m, r) {
      var i :| 0 <= i < |ws| && ws[i] == r;
      assert rs[i] in rs;
      assert Honest(m, rs[i]);
    }
  }

  lemma UntouchedHonest(m: Model, rs: seq<Request>)
    requires forall r :: r in rs ==> Untouched(r)
    ensures AllHonest(m, rs)
  {
    forall r | r in rs ensures Honest(m, r) {
      assert Untouched(r);
    }
  }

  lemma DropHonest(m: Model, s: Engine, ids: set<nat>, status: Status)
    requires WellFormed(s.blocks) && Shaped(s.queue)
    requires AllHonest(m, s.queue.running) && AllHonest(m, s.queue.finished)
    ensures AllHonest(m, Drop(s, ids, status).queue.finished)
    ensures AllHonest(m, Drop(s, ids, status).queue.running)
  {
    AllWithStatusHonest(m, Filter(s.queue.running, InSet(ids)), status);
    UntouchedHonest(m, s.queue.waiting);
  }

  lemma PrepareFinishedHonest(cfg: Config, m: Model, s: Engine, expired: set<nat>)
    requires WellFormed(s.blocks) && Shaped(s.queue)
    requires AllHonest(m, s.queue.running) && AllHonest(m, s.queue.finished)
    ensures AllHonest(m, Prepare(cfg, s, expired).engine.queue.finished)
  {
    DropHonest(m, s, expired, TimedOut);
    AllWithStatusHonest(m, Filter(Drop(s, expired, TimedOut).queue.running, ReachedLimit), Finished);
  }

  /** Every step keeps the refinement. */
  lemma PagedStepFaithful(cfg: Config, m: Model, s: Paged, expired: set<nat>)
    requires Faithful(cfg, m, s)
    ensures Faithful(cfg, m, PagedStep(cfg, m, s, expired))
  {
    var p := Prepare(cfg, s.engine, expired);
    PrepareLaw(cfg, s.engine, expired);
    PrepareRefines(cfg, m, s, expired);
    PrepareFinishedHonest(cfg, m, s.engine, expired);
    StepKeepsInv(cfg, m, s, expired);
    if !p.oom { ForwardRefines(cfg, m, p, s.caches); }
  }

  /** A paged step is a control step whose oracle is the model. */
  lemma PagedStepIsStep(cfg: Config, m: Model, s: Paged, expired: set<nat>) returns (sample: nat -> Token)
    requires Ready0(cfg, m, s)
    ensures PagedStep(cfg, m, s, expired).engine == Step(cfg, s.engine, expired, sample).engine
    ensures CachesOk(cfg, m, PagedStep(cfg, m, s, expired).caches)
  {
    var p := Prepare(cfg, s.engine, expired);
    PrepareLaw(cfg, s.engine, expired);
    sample := (id: nat) => 0;
    if !p.oom {
      BatchSeated(cfg, p);
      var batch := BatchOf(p.schedule);
      RowsFitLemma(cfg, p.engine.blocks, batch);
      var rows := Rows(cfg, p.engine.blocks, batch);
      sample := Sampled(m, rows, Pass(cfg, m, s.caches, rows, m.layers).hidden);
    }
  }

  lemma StepKeepsInv(cfg: Config, m: Model, s: Paged, expired: set<nat>)
    requires Ready0(cfg, m, s)
    ensures Ready0(cfg, m, PagedStep(cfg, m, s, expired))
  {
    var sample := PagedStepIsStep(cfg, m, s, expired);
    StepInv(cfg, s.engine, expired, sample);
  }

  lemma CancelFaithful(cfg: Config, m: Model, s: Paged, id: nat)
    requires Faithful(cfg, m, s)
    ensures Faithful(cfg, m, s.(engine := Cancel(s.engine, id)))
  {
    var q := s.engine.queue;
    CancelInv(cfg, s.engine, id);
    if id in Ids(q.waiting) + Ids(q.running) {
      DropHonest(m, s.engine, {id}, Cancelled);
      DropOrigin(cfg, s.engine, {id}, Cancelled);
      forall r | r in Cancel(s.engine, id).queue.running
        ensures r.id in Cancel(s.engine, id).blocks.tables
        ensures Refines(cfg, m, Cancel(s.engine, id).blocks, r, s.caches)
      {
        assert Refines(cfg, m, s.engine.blocks, r, s.caches);
      }
    } else {
      UntouchedHonest(m, q.rejected);
    }
  }

  // ---------------------------------------------------------------- runs

  datatype Command =
    | Submit(prompt: seq<Token>, maxTokens: int)
    | Withdraw(id: nat)
    | Tick(expired: set<nat>)

  predicate LegalCommand(c: Command) { c.Submit? ==> |c.prompt| > 0 }

  ghost function Do(cfg: Config, m: Model, s: Paged, c: Command): (n: Paged)
    requires Ready0(cfg, m, s) && LegalCommand(c)
    ensures Ready0(cfg, m, n)
  {
    match c
    case Submit(prompt, maxTokens) =>
      AddInv(cfg, s.engine, prompt, maxTokens);
      s.(engine := AddRequest(s.engine, prompt, maxTokens))
    case Withdraw(id) =>
      CancelInv(cfg, s.engine, id);
      s.(engine := Cancel(s.engine, id))
    case Tick(expired) =>
      StepKeepsInv(cfg, m, s, expired);
      PagedStep(cfg, m, s, expired)
  }

  ghost function DoAll(cfg: Config, m: Model, s: Paged, cs: seq<Command>): (n: Paged)
    requires Ready0(cfg, m, s) && forall i :: 0 <= i < |cs| ==> LegalCommand(cs[i])
    ensures Ready0(cfg, m, n)
    decreases |cs|
  {
    if cs == [] then s else Do(cfg, m, DoAll(cfg, m, s, cs[..|cs| - 1]), cs[|cs| - 1])
  }

  lemma DoFaithful(cfg: Config, m: Model, s: Paged, c: Command)
    requires Faithful(cfg, m, s) && LegalCommand(c)
    ensures Faithful(cfg, m, Do(cfg, m, s, c))
  {
    match c
    case Submit(prompt, maxTokens) =>
    case Withdraw(id) => CancelFaithful(cfg, m, s, id);
    case Tick(expired) => PagedStepFaithful(cfg, m, s, expired);
  }

  lemma {:induction false} DoAllFaithful(cfg: Config, m: Model, s: Paged, cs: seq<Command>)
    requires Faithful(cfg, m, s) && forall i :: 0 <= i < |cs| ==> LegalCommand(cs[i])
    ensures Faithful(cfg, m, DoAll(cfg, m, s, cs))
    decreases |cs|
  {
    if cs != [] {
      DoAllFaithful(cfg, m, s, cs[..|cs| - 1]);
      DoFaithful(cfg, m, DoAll(cfg, m, s, cs[..|cs| - 1]), cs[|cs| - 1]);
    }
  }

  /** A fresh engine over uninitialised memory. */
  function Boot(cfg: Config, m: Model, memory: seq<seq<KV>>): (s: Paged)
    requires CachesOk(cfg, m, memory)
    ensures Ready0(cfg, m, s)
  {
    InitInv(cfg);
    Paged(Init(cfg), memory)
  }

  lemma BootFaithful(cfg: Config, m: Model, memory: seq<seq<KV>>)
    requires !cfg.prefixCaching && CachesOk(cfg, m, memory)
    ensures Faithful(cfg, m, Boot(cfg, m, memory))
  {
    InitInv(cfg);
  }

  /** Batching is invisible: from any initial memory, after any run, a finished request with a
      positive limit M holds exactly the M tokens it would generate alone, and whatever a
      cancelled, timed-out or running request holds is a prefix of its own generation. */
  lemma BatchingIsInvisible(cfg: Config, m: Model, memory: seq<seq<KV>>, cs: seq<Command>, r: Request)
    requires !cfg.prefixCaching && CachesOk(cfg, m, memory)
    requires forall i :: 0 <= i < |cs| ==> LegalCommand(cs[i])
    requires
      var q := DoAll(cfg, m, Boot(cfg, m, memory), cs).engine.queue;
      r in q.finished || r in q.running
    ensures |r.prompt| > 0
    ensures r.status == Finished && r.maxTokens >= 1 ==> r.output == Generate(m, r.prompt, r.maxTokens)
    ensures |r.output| <= Max(r.maxTokens, 1)
    ensures r.output <= Generate(m, r.prompt, Max(r.maxTokens, 1))
  {
    BootFaithful(cfg, m, memory);
    DoAllFaithful(cfg, m, Boot(cfg, m, memory), cs);
    var s := DoAll(cfg, m, Boot(cfg, m, memory), cs);
    assert Honest(m, r);
    assert r in s.engine.queue.running ==> Lively(r);
    assert r in s.engine.queue.finished ==> Ended(r);
    GeneratePrefix(m, r.prompt, |r.output|, Max(r.maxTokens, 1));
  }

  /** Gathering through the table of `r` gives, in order, the entries of its own tokens. */
  ghost predicate ReadsBack(cfg: Config, m: Model, b: Blocks, r: Request, cache: seq<KV>, l: nat) {
    && r.id in b.tables
    && 0 <= KvLen(r) <= |TokensOf(r)|
    && KvLen(r) <= Span(cfg.blockSize, |b.tables[r.id]|) && |cache| == PoolSlots(cfg)
    && (forall j :: 0 <= j < |b.tables[r.id]| ==> Pids(b.tables[r.id])[j] < cfg.numBlocks)
    && Gather(cfg, cache, Pids(b.tables[r.id]), KvLen(r)) == Entries(m, TokensOf(r), l, KvLen(r))
  }

  /** The paged cache refines a contiguous log: after any run, gathering through the table of a
      running request yields, in every layer and in order, exactly the entries of its own tokens,
      whatever the memory held before and whoever used its blocks earlier. */
  lemma GatherYieldsLog(cfg: Config, m: Model, memory: seq<seq<KV>>, cs: seq<Command>, r: Request, l: nat)
    requires !cfg.prefixCaching && CachesOk(cfg, m, memory) && l < m.layers
    requires forall i :: 0 <= i < |cs| ==> LegalCommand(cs[i])
    requires r in DoAll(cfg, m, Boot(cfg, m, memory), cs).engine.queue.running
    ensures
      var s := DoAll(cfg, m, Boot(cfg, m, memory), cs);
      ReadsBack(cfg, m, s.engine.blocks, r, s.caches[l], l)
  {
    BootFaithful(cfg, m, memory);
    DoAllFaithful(cfg, m, Boot(cfg, m, memory), cs);
    GatherOfFaithful(cfg, m, DoAll(cfg, m, Boot(cfg, m, memory), cs), r, l);
  }

  lemma GatherOfFaithful(cfg: Config, m: Model, s: Paged, r: Request, l: nat)
    requires Faithful(cfg, m, s) && r in s.engine.queue.running && l < m.layers
    ensures ReadsBack(cfg, m, s.engine.blocks, r, s.caches[l], l)
  {
    TableSpans(cfg, s.engine.queue.running, s.engine.blocks, r);
    assert Lively(r);
    assert Refines(cfg, m, s.engine.blocks, r, s.caches);
    GatherHeld(cfg, m, Pids(s.engine.blocks.tables[r.id]), TokensOf(r), s.caches[l], l, KvLen(r));
  }

  lemma TableSpans(cfg: Config, rs: seq<Request>, b: Blocks, r: Request)
    requires Backed(cfg, rs, b) && r in rs
    ensures r.id in b.tables
    ensures
      var table := Pids(b.tables[r.id]);
      && KvLen(r) <= Span(cfg.blockSize, |table|)
      && forall j :: 0 <= j < |table| ==> table[j] < cfg.numBlocks
  {
    SpanCovers(KvLen(r), cfg.blockSize, |b.tables[r.id]|);
  }

  lemma GatherHeld(cfg: Config, m: Model, table: seq<nat>, tokens: seq<Token>, cache: seq<KV>, l: nat, n: nat)
    requires n <= Span(cfg.blockSize, |table|) && n <= |tokens| && |cache| == PoolSlots(cfg)
    requires forall j :: 0 <= j < |table| ==> table[j] < cfg.numBlocks
    requires LogHeld(cfg.blockSize, m, table, tokens, cache, l, n)
    ensures Gather(cfg, cache, table, n) == Entries(m, tokens, l, n)
  {
    var g := Gather(cfg, cache, table, n);
    forall j: nat | j < n ensures g[j] == EntryAt(m, tokens, l, j) {
    }
  }
}

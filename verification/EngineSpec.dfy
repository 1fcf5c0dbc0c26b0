/** The engine as a state machine on values.  The tokens that a step samples come from an oracle,
    so everything proved here holds for every model and every executor. */
module EngineSpec {
  import opened Base
  import opened BlockSpec
  import opened BlockCoverage
  import opened Requests
  import opened ScheduleSpec

  datatype Engine = Engine(queue: Queue, blocks: Blocks, nextId: nat)

  function Init(cfg: Config): Engine {
    Engine(Queue([], [], [], []),
           Blocks(Pool(seq(cfg.numBlocks, i => true), seq(cfg.numBlocks, i => 0)), map[], map[], map[]),
           0)
  }

  function AddRequest(s: Engine, prompt: seq<Token>, maxTokens: int): Engine {
    s.(queue := s.queue.(waiting := s.queue.waiting + [NewRequest(s.nextId, prompt, maxTokens)]),
       nextId := s.nextId + 1)
  }

  // ---------------------------------------------------------------- cancel and timeout

  function InSet(ids: set<nat>): Request -> bool { (r: Request) => r.id in ids }

  function NotInSet(ids: set<nat>): Request -> bool { (r: Request) => r.id !in ids }

  /** Removing live requests before they are done: running ones get `status` and give their
      blocks back, waiting ones own nothing yet. */
  function Drop(s: Engine, ids: set<nat>, status: Status): (r: Engine)
    requires WellFormed(s.blocks)
    ensures WellFormed(r.blocks) && |r.blocks.pool.refs| == |s.blocks.pool.refs|
  {
    var q := s.queue;
    var gone := Filter(q.running, InSet(ids));
    Engine(Queue(Filter(q.waiting, NotInSet(ids)), Filter(q.running, NotInSet(ids)),
                 q.finished + AllWithStatus(gone, status) + Filter(q.waiting, InSet(ids)), q.rejected),
           FreeAll(s.blocks, gone), s.nextId)
  }

  function Cancel(s: Engine, id: nat): (r: Engine)
    requires WellFormed(s.blocks)
    ensures WellFormed(r.blocks) && |r.blocks.pool.refs| == |s.blocks.pool.refs|
  {
    var q := s.queue;
    if id in Ids(q.waiting) + Ids(q.running) then Drop(s, {id}, Cancelled)
    else if id in Ids(q.finished) then s
    else s.(queue := q.(finished := q.finished + Filter(q.rejected, InSet({id}))))
  }

  // ---------------------------------------------------------------- one step

  /** Ensuring blocks for the positions `range(KvLen, NextEnd)` of one request. */
  function EnsureSeq(cfg: Config, b: Blocks, r: Request): (o: Outcome<Blocks>)
    requires WellFormed(b)
    ensures WellFormed(o.state) && |o.state.pool.refs| == |b.pool.refs|
  {
    if 0 <= KvLen(r) <= NextEnd(cfg, r)
    then EnsureRange(cfg, b, r.id, r.prompt, KvLen(r), NextEnd(cfg, r))
    else Ok(b)
  }

  function EnsureAll(cfg: Config, b: Blocks, rs: seq<Request>): (o: Outcome<Blocks>)
    requires WellFormed(b)
    ensures WellFormed(o.state) && |o.state.pool.refs| == |b.pool.refs|
    decreases |rs|
  {
    if rs == [] then Ok(b)
    else
      var o := EnsureAll(cfg, b, rs[..|rs| - 1]);
      if o.Oom? then o else EnsureSeq(cfg, o.state, rs[|rs| - 1])
  }

  predicate Completes(cfg: Config, r: Request) { r.cursor + cfg.chunkSize >= |r.prompt| }

  /** One processed request: a prefill moves its cursor and, when the prompt is done, holds its
      first token; a decode holds one more token. */
  function Advance(cfg: Config, r: Request, token: Token): Request {
    if r.status == Prefill then
      var moved := if r.cursor <= |r.prompt| then r.(cursor := NextEnd(cfg, r)) else r.(cursor := |r.prompt|);
      if Completes(cfg, r) then moved.(status := Running, output := [token], generated := 1) else moved
    else r.(output := r.output + [token], generated := r.generated + 1)
  }

  function AdvanceAll(cfg: Config, rs: seq<Request>, batch: set<nat>, sample: nat -> Token): (n: seq<Request>)
    ensures |n| == |rs|
    ensures forall i :: 0 <= i < |rs| ==>
      n[i] == if rs[i].id in batch then Advance(cfg, rs[i], sample(rs[i].id)) else rs[i]
  {
    seq(|rs|, i requires 0 <= i < |rs| =>
      if rs[i].id in batch then Advance(cfg, rs[i], sample(rs[i].id)) else rs[i])
  }

  datatype StepResult = StepResult(engine: Engine, schedule: Schedule, oom: bool)

  function BatchOf(sch: Schedule): seq<Request> { sch.prefill + sch.decode }

  /** Timeouts, scheduling and block allocation: everything before the model runs. */
  function Prepare(cfg: Config, s: Engine, expired: set<nat>): (r: StepResult)
    requires WellFormed(s.blocks)
    ensures WellFormed(r.engine.blocks) && |r.engine.blocks.pool.refs| == |s.blocks.pool.refs|
  {
    var s1 := Drop(s, expired, TimedOut);
    var (q, b, sch) := RunSchedule(cfg, s1.queue, s1.blocks);
    var o := EnsureAll(cfg, b, BatchOf(sch));
    StepResult(Engine(q, o.state, s.nextId), sch, o.Oom?)
  }

  function Finish(cfg: Config, p: StepResult, sample: nat -> Token): Engine {
    p.engine.(queue := p.engine.queue.(running :=
      AdvanceAll(cfg, p.engine.queue.running, Ids(BatchOf(p.schedule)), sample)))
  }

  /** A whole step; running out of blocks abandons it before the model runs. */
  function Step(cfg: Config, s: Engine, expired: set<nat>, sample: nat -> Token): (r: StepResult)
    requires WellFormed(s.blocks)
    ensures WellFormed(r.engine.blocks) && |r.engine.blocks.pool.refs| == |s.blocks.pool.refs|
  {
    var p := Prepare(cfg, s, expired);
    if p.oom then p else p.(engine := Finish(cfg, p, sample))
  }

  // ---------------------------------------------------------------- the invariant

  /** A request nobody has scheduled yet. */
  ghost predicate Untouched(r: Request) {
    r == NewRequest(r.id, r.prompt, r.maxTokens) && |r.prompt| > 0
  }

  /** A running request is in the middle of its prompt or has generated between one token and
      its limit. */
  ghost predicate Lively(r: Request) {
    && |r.prompt| > 0
    && r.generated == |r.output|
    && (r.status == Prefill || r.status == Running)
    && (r.status == Prefill ==> r.cursor < |r.prompt| && r.generated == 0)
    && (r.status == Running ==> r.cursor == |r.prompt| && 1 <= r.generated <= Max(r.maxTokens, 1))
  }

  ghost predicate Ended(r: Request) {
    && |r.prompt| > 0
    && r.generated == |r.output|
    && r.status != Prefill && r.status != Running
    && (r.status == Finished ==> r.generated >= r.maxTokens)
    && (r.status == Finished && r.maxTokens >= 1 ==> r.generated == r.maxTokens)
    && r.generated <= Max(r.maxTokens, 1)
  }

  ghost predicate Shaped(q: Queue) {
    && Distinct(q.waiting) && Distinct(q.running) && Distinct(q.finished) && Distinct(q.rejected)
    && Ids(q.waiting) !! Ids(q.running)
    && Ids(q.waiting) !! Ids(q.finished)
    && Ids(q.running) !! Ids(q.finished)
    && Ids(q.rejected) !! Ids(q.waiting)
    && Ids(q.rejected) !! Ids(q.running)
    && (forall r :: r in q.waiting ==> Untouched(r))
    && (forall r :: r in q.running ==> Lively(r))
    && (forall r :: r in q.finished ==> Ended(r))
    && (forall r :: r in q.rejected ==> Untouched(r))
  }

  /** Exactly the running requests own tables, the books balance, and each table holds what its
      request has cached and no block more than its next step needs. */
  ghost predicate Backed(cfg: Config, running: seq<Request>, b: Blocks) {
    && Conserved(b)
    && |b.pool.refs| == cfg.numBlocks
    && b.tables.Keys == Ids(running)
    && (!cfg.prefixCaching ==> Exclusive(b))
    && forall r :: r in running ==> Holds(cfg, b, r.id, KvLen(r), NextEnd(cfg, r))
  }

  /** The next step of every running request fits all three budgets at once. */
  ghost predicate Fits(cfg: Config, running: seq<Request>) {
    && TotalCost(cfg, running) <= cfg.maxNumBatchedTokens
    && PrefillCost(cfg, running) <= cfg.maxNumPrefillTokens
    && |running| <= cfg.maxNumSeqs
  }

  ghost predicate Inv(cfg: Config, s: Engine) {
    && Shaped(s.queue)
    && Backed(cfg, s.queue.running, s.blocks)
    && Fits(cfg, s.queue.running)
    && AllIds(s.queue) == UpTo(s.nextId)
  }

  /** The ids found in any of the four pools. */
  function AllIds(q: Queue): set<nat> {
    Ids(q.waiting) + Ids(q.running) + Ids(q.finished) + Ids(q.rejected)
  }

  /** The ids issued so far. */
  function UpTo(n: nat): (s: set<nat>)
    ensures forall id :: id in s <==> 0 <= id < n
  {
    if n == 0 then {} else UpTo(n - 1) + {n - 1}
  }

  lemma InitInv(cfg: Config)
    ensures Inv(cfg, Init(cfg))
  {
    var b := Init(cfg).blocks;
    assert Live(b.tables) == multiset{};
    assert AllIds(Init(cfg).queue) == {};
  }

  lemma AddInv(cfg: Config, s: Engine, prompt: seq<Token>, maxTokens: int)
    requires Inv(cfg, s) && |prompt| > 0
    ensures Inv(cfg, AddRequest(s, prompt, maxTokens))
  {
    var r := NewRequest(s.nextId, prompt, maxTokens);
    assert Ids([r]) == {s.nextId};
    DistinctAppend(s.queue.waiting, [r]);
    IdsAppend(s.queue.waiting, [r]);
  }

  /** A running request that stays running costs at least one token and at most its chunk. */
  lemma LivelyCost(cfg: Config, r: Request)
    requires Lively(r)
    ensures 0 <= KvLen(r) < NextEnd(cfg, r) && Cost(cfg, r) >= 1
    ensures NextEnd(cfg, r) <= |r.prompt| + r.generated
  {
  }

  lemma {:induction false} FreeAllLaw(cfg: Config, b: Blocks, rs: seq<Request>)
    requires Conserved(b)
    ensures Conserved(FreeAll(b, rs))
    ensures FreeAll(b, rs).tables == b.tables - Ids(rs)
    ensures FreeAll(b, rs).cache == b.cache
    decreases |rs|
  {
    if rs == [] {
      assert b.tables - {} == b.tables;
    } else {
      var front, last := rs[..|rs| - 1], rs[|rs| - 1];
      FreeAllLaw(cfg, b, front);
      var mid := FreeAll(b, front);
      FreeSeqConserves(mid, last.id);
      assert FreeAll(b, rs) == FreeSeq(mid, last.id);
      IdsOfLast(rs);
      WithoutBoth(b.tables, Ids(front), last.id);
    }
  }

  lemma IdsOfLast(rs: seq<Request>)
    requires rs != []
    ensures Ids(rs) == Ids(rs[..|rs| - 1]) + {rs[|rs| - 1].id}
  {
    assert rs == rs[..|rs| - 1] + [rs[|rs| - 1]];
  }

  lemma WithoutBoth(t: map<nat, seq<Entry>>, ids: set<nat>, id: nat)
    ensures t - ids - {id} == t - (ids + {id})
  {
  }

  /** Splitting the running pool and freeing one part leaves the other part backed and fitting. */
  lemma SplitRunning(cfg: Config, rs: seq<Request>, b: Blocks, keep: Request -> bool, gone: Request -> bool)
    requires Distinct(rs) && Backed(cfg, rs, b) && Fits(cfg, rs)
    requires forall r :: r in rs ==> Lively(r) && keep(r) != gone(r)
    ensures Backed(cfg, Filter(rs, keep), FreeAll(b, Filter(rs, gone)))
    ensures Fits(cfg, Filter(rs, keep))
  {
    var left := Filter(rs, keep);
    var freed := Filter(rs, gone);
    FilterSplits(rs, keep, gone);
    FreeAllLaw(cfg, b, freed);
    var n := FreeAll(b, freed);
    assert n.tables.Keys == Ids(left);
    forall r | r in left ensures Holds(cfg, n, r.id, KvLen(r), NextEnd(cfg, r)) {
      assert r in rs;
      assert r.id in Ids(left);
    }
    forall x | x in rs ensures Cost(cfg, x) >= 0 { LivelyCost(cfg, x); }
    CostOfFiltered(cfg, rs, keep);
  }

  lemma AllWithStatusIds(rs: seq<Request>, s: Status)
    ensures Ids(AllWithStatus(rs, s)) == Ids(rs)
    ensures Distinct(rs) ==> Distinct(AllWithStatus(rs, s))
  {
    var ws := AllWithStatus(rs, s);
    forall id | id in Ids(rs) ensures id in Ids(ws) {
      var i :| 0 <= i < |rs| && rs[i].id == id;
      assert ws[i] in ws;
    }
    forall id | id in Ids(ws) ensures id in Ids(rs) {
      var i :| 0 <= i < |ws| && ws[i].id == id;
      assert rs[i] in rs;
    }
  }

  /** Requests that leave the live pools join the finished one. */
  lemma JoinFinished(q: Queue, ended: seq<Request>)
    requires Distinct(q.finished) && Distinct(ended) && Ids(q.finished) !! Ids(ended)
    requires forall r :: r in q.finished ==> Ended(r)
    requires forall r :: r in ended ==> Ended(r)
    ensures Distinct(q.finished + ended)
    ensures Ids(q.finished + ended) == Ids(q.finished) + Ids(ended)
    ensures forall r :: r in q.finished + ended ==> Ended(r)
  {
    DistinctAppend(q.finished, ended);
    IdsAppend(q.finished, ended);
  }

  lemma EndedWith(rs: seq<Request>, s: Status)
    requires forall r :: r in rs ==> Lively(r)
    requires s == TimedOut || s == Cancelled || (s == Finished && forall r :: r in rs ==> ReachedLimit(r))
    ensures forall r :: r in AllWithStatus(rs, s) ==> Ended(r)
  {
    var g := AllWithStatus(rs, s);
    forall r | r in g ensures Ended(r) {
      var i :| 0 <= i < |g| && g[i] == r;
      assert rs[i] in rs;
    }
  }

  lemma DropShaped(s: Engine, ids: set<nat>, status: Status)
    requires WellFormed(s.blocks) && Shaped(s.queue) && (status == TimedOut || status == Cancelled)
    ensures Shaped(Drop(s, ids, status).queue)
    ensures AllIds(Drop(s, ids, status).queue) == AllIds(s.queue)
  {
    var q := s.queue;
    var gone := Filter(q.running, InSet(ids));
    var left := Filter(q.waiting, InSet(ids));
    FilterSplits(q.waiting, NotInSet(ids), InSet(ids));
    FilterSplits(q.running, NotInSet(ids), InSet(ids));
    AllWithStatusIds(gone, status);
    EndedWith(gone, status);
    JoinFinished(q, AllWithStatus(gone, status));
    JoinFinished(q.(finished := q.finished + AllWithStatus(gone, status)), left);
  }

  /** Dropping any set of live requests keeps the whole invariant. */
  lemma DropInv(cfg: Config, s: Engine, ids: set<nat>, status: Status)
    requires Inv(cfg, s) && (status == TimedOut || status == Cancelled)
    ensures Inv(cfg, Drop(s, ids, status))
  {
    DropShaped(s, ids, status);
    SplitRunning(cfg, s.queue.running, s.blocks, NotInSet(ids), InSet(ids));
  }

  /** Every cancel keeps the invariant, also the cancel of an already rejected request. */
  lemma CancelInv(cfg: Config, s: Engine, id: nat)
    requires Inv(cfg, s)
    ensures Inv(cfg, Cancel(s, id))
  {
    var q := s.queue;
    if id in Ids(q.waiting) + Ids(q.running) {
      DropInv(cfg, s, {id}, Cancelled);
    } else if id !in Ids(q.finished) {
      FilterSplits(q.rejected, InSet({id}), NotInSet({id}));
      var extra := Filter(q.rejected, InSet({id}));
      assert Ids(extra) <= {id};
      JoinFinished(q, extra);
      assert Ids(extra) <= Ids(q.rejected);
    }
  }
}

/** What becomes of a request over its life: it keeps the prompt and the limit it was submitted with,
    and cancel and timeout take exactly the named requests out, with what they have generated. */
module Lifecycle {
  import opened Base
  import opened BlockSpec
  import opened Requests
  import opened ScheduleSpec
  import opened EngineSpec
  import opened StepLaws
  import opened Runs

  // ---------------------------------------------------------------- origin

  /** The additions of a run, in order. */
  function Additions(es: seq<Event>): (adds: seq<Event>)
    ensures forall i :: 0 <= i < |adds| ==> adds[i].AddEvent? && adds[i] in es
    decreases |es|
  {
    if es == [] then [] else WithAddition(Additions(es[..|es| - 1]), es[|es| - 1])
  }

  function WithAddition(adds: seq<Event>, e: Event): seq<Event> { if e.AddEvent? then adds + [e] else adds }

  /** `r` carries the prompt and the limit of the addition its id counts. */
  predicate Stems(adds: seq<Event>, r: Request) {
    r.id < |adds| && adds[r.id] == AddEvent(r.prompt, r.maxTokens)
  }

  predicate AllStem(adds: seq<Event>, rs: seq<Request>) { forall r :: r in rs ==> Stems(adds, r) }

  predicate PoolsStem(adds: seq<Event>, q: Queue) {
    AllStem(adds, q.waiting) && AllStem(adds, q.running) && AllStem(adds, q.finished) && AllStem(adds, q.rejected)
  }

  lemma StatusStems(adds: seq<Event>, rs: seq<Request>, status: Status)
    requires AllStem(adds, rs)
    ensures AllStem(adds, AllWithStatus(rs, status))
  {
    var ws := AllWithStatus(rs, status);
    forall r | r in ws ensures Stems(adds, r) {
      var i :| 0 <= i < |ws| && ws[i] == r;
      assert rs[i] in rs;
    }
  }

  lemma DropStems(adds: seq<Event>, s: Engine, ids: set<nat>, status: Status)
    requires WellFormed(s.blocks) && PoolsStem(adds, s.queue)
    ensures PoolsStem(adds, Drop(s, ids, status).queue)
  {
    StatusStems(adds, Filter(s.queue.running, InSet(ids)), status);
  }

  lemma {:induction false} AdmitStems(cfg: Config, adds: seq<Event>, a: Admission, rs: seq<Request>)
    requires WellFormed(a.blocks) && AllStem(adds, rs)
    requires AllStem(adds, a.kept) && AllStem(adds, a.running) && AllStem(adds, a.rejected)
    ensures var n := AdmitAll(cfg, a, rs);
      AllStem(adds, n.kept) && AllStem(adds, n.running) && AllStem(adds, n.rejected)
    decreases |rs|
  {
    if rs != [] {
      var k := |rs| - 1;
      AdmitStems(cfg, adds, a, rs[..k]);
      AdmitOneStems(cfg, adds, AdmitAll(cfg, a, rs[..k]), rs[k]);
    }
  }

  lemma AdmitOneStems(cfg: Config, adds: seq<Event>, a: Admission, r: Request)
    requires WellFormed(a.blocks) && Stems(adds, r)
    requires AllStem(adds, a.kept) && AllStem(adds, a.running) && AllStem(adds, a.rejected)
    ensures var n := AdmitOne(cfg, a, r);
      AllStem(adds, n.kept) && AllStem(adds, n.running) && AllStem(adds, n.rejected)
  {
  }

  lemma ScheduleStems(cfg: Config, adds: seq<Event>, q: Queue, b: Blocks)
    requires WellFormed(b) && PoolsStem(adds, q)
    ensures PoolsStem(adds, RunSchedule(cfg, q, b).0)
  {
    var q1 := FinishPhase(q);
    var b1 := FreeAll(b, Filter(q.running, ReachedLimit));
    StatusStems(adds, Filter(q.running, ReachedLimit), Finished);
    AdmitStems(cfg, adds, Admission(ContinuePlan(cfg, q1.running), [], q1.running, [], b1), q.waiting);
  }

  lemma AdvanceStems(cfg: Config, adds: seq<Event>, rs: seq<Request>, batch: set<nat>, sample: nat -> Token)
    requires AllStem(adds, rs)
    ensures AllStem(adds, AdvanceAll(cfg, rs, batch, sample))
  {
    var ns := AdvanceAll(cfg, rs, batch, sample);
    forall r | r in ns ensures Stems(adds, r) {
      var i :| 0 <= i < |ns| && ns[i] == r;
      assert rs[i] in rs;
    }
  }

  lemma StepStems(cfg: Config, adds: seq<Event>, s: Engine, expired: set<nat>, sample: nat -> Token)
    requires WellFormed(s.blocks) && PoolsStem(adds, s.queue)
    ensures PoolsStem(adds, Step(cfg, s, expired, sample).engine.queue)
  {
    var s1 := Drop(s, expired, TimedOut);
    var p := Prepare(cfg, s, expired);
    DropStems(adds, s, expired, TimedOut);
    ScheduleStems(cfg, adds, s1.queue, s1.blocks);
    AdvanceStems(cfg, adds, p.engine.queue.running, Ids(BatchOf(p.schedule)), sample);
  }

  lemma MoreStem(adds: seq<Event>, e: Event, q: Queue)
    requires PoolsStem(adds, q)
    ensures PoolsStem(adds + [e], q)
  {
  }

  /** The state after the additions `adds`. */
  ghost predicate Origins(adds: seq<Event>, s: Engine) { PoolsStem(adds, s.queue) && s.nextId == |adds| }

  lemma ApplyStems(cfg: Config, adds: seq<Event>, s: Engine, e: Event)
    requires WellFormed(s.blocks) && Origins(adds, s)
    ensures Origins(WithAddition(adds, e), Apply(cfg, s, e))
  {
    match e
    case AddEvent(prompt, maxTokens) => MoreStem(adds, e, s.queue);
    case CancelEvent(id) => DropStems(adds, s, {id}, Cancelled);
    case StepEvent(expired, sample) => StepStems(cfg, adds, s, expired, sample);
  }

  /** Requests keep their identity: in every state of every run, whatever happened in between, the
      request with id `k` carries the prompt and the limit of the k-th addition. */
  lemma {:induction false} RequestsKeepTheirIdentity(cfg: Config, es: seq<Event>)
    ensures Origins(Additions(es), RunFrom(cfg, Init(cfg), es))
    decreases |es|
  {
    if es != [] {
      var front, e := es[..|es| - 1], es[|es| - 1];
      RequestsKeepTheirIdentity(cfg, front);
      assert es == front + [e];
      OneMoreEvent(cfg, Additions(front), front, e);
    }
  }

  lemma OneMoreEvent(cfg: Config, adds: seq<Event>, es: seq<Event>, e: Event)
    requires Origins(adds, RunFrom(cfg, Init(cfg), es))
    ensures Origins(WithAddition(adds, e), RunFrom(cfg, Init(cfg), es + [e]))
  {
    RunThenOne(cfg, Init(cfg), es, e);
    ApplyStems(cfg, adds, RunFrom(cfg, Init(cfg), es), e);
  }

  lemma {:induction false} RunThenOne(cfg: Config, s: Engine, es: seq<Event>, e: Event)
    requires WellFormed(s.blocks)
    ensures RunFrom(cfg, s, es + [e]) == Apply(cfg, RunFrom(cfg, s, es), e)
    decreases |es|
  {
    if es == [] {
      assert [] + [e] == [e] && [e][1..] == [];
      assert RunFrom(cfg, Apply(cfg, s, e), []) == Apply(cfg, s, e);
    } else {
      assert (es + [e])[1..] == es[1..] + [e];
      RunThenOne(cfg, Apply(cfg, s, es[0]), es[1..], e);
    }
  }

  // ---------------------------------------------------------------- cancel and timeout

  /** `r` and `x` are the same request but for its status. */
  predicate SameButStatus(r: Request, x: Request) { x == r.(status := x.status) }

  /** Taking `ids` out of the pools: running ones are filed with `status` and everything they have
      generated, waiting ones as they are; nobody else moves or changes. */
  ghost predicate PoolsWithout(q: Queue, n: Queue, ids: set<nat>, status: Status) {
    && (forall r :: r in n.waiting <==> r in q.waiting && r.id !in ids)
    && (forall r :: r in n.running <==> r in q.running && r.id !in ids)
    && (forall r :: r in q.running && r.id in ids ==> r.(status := status) in n.finished)
    && (forall r :: r in q.waiting && r.id in ids ==> r in n.finished)
    && q.finished <= n.finished
    && |n.finished| + |n.running| + |n.waiting| == |q.finished| + |q.running| + |q.waiting|
    && n.rejected == q.rejected
  }

  /** The same for a whole engine: they own no table any more, and everybody else's table stays. */
  ghost predicate TakenOut(s: Engine, n: Engine, ids: set<nat>, status: Status) {
    && PoolsWithout(s.queue, n.queue, ids, status)
    && n.blocks.tables.Keys == s.blocks.tables.Keys - ids
    && (forall id :: id in n.blocks.tables ==> n.blocks.tables[id] == s.blocks.tables[id])
    && n.nextId == s.nextId
  }

  lemma PoolsDropped(s: Engine, ids: set<nat>, status: Status)
    requires WellFormed(s.blocks)
    ensures PoolsWithout(s.queue, Drop(s, ids, status).queue, ids, status)
  {
    var q := s.queue;
    var gone := Filter(q.running, InSet(ids));
    var n := Drop(s, ids, status).queue;
    FilterCounts(q.running, NotInSet(ids), InSet(ids));
    FilterCounts(q.waiting, NotInSet(ids), InSet(ids));
    forall r | r in q.running && r.id in ids ensures r.(status := status) in n.finished {
      FiledWith(gone, status, r);
    }
    assert PoolsWithout(q, n, ids, status);
  }

  lemma FiledWith(gone: seq<Request>, status: Status, r: Request)
    requires r in gone
    ensures r.(status := status) in AllWithStatus(gone, status)
  {
    var i :| 0 <= i < |gone| && gone[i] == r;
    assert AllWithStatus(gone, status)[i] in AllWithStatus(gone, status);
  }

  lemma DropTakesOut(cfg: Config, s: Engine, ids: set<nat>, status: Status)
    requires Inv(cfg, s)
    ensures TakenOut(s, Drop(s, ids, status), ids, status)
  {
    PoolsDropped(s, ids, status);
    FreeAllLaw(cfg, s.blocks, Filter(s.queue.running, InSet(ids)));
    GoneIds(s.queue.running, ids);
    TablesDropped(s, Drop(s, ids, status), ids, status);
  }

  lemma TablesDropped(s: Engine, n: Engine, ids: set<nat>, status: Status)
    requires PoolsWithout(s.queue, n.queue, ids, status) && n.nextId == s.nextId
    requires s.blocks.tables.Keys == Ids(s.queue.running)
    requires n.blocks.tables == s.blocks.tables - Ids(Filter(s.queue.running, InSet(ids)))
    requires Ids(s.queue.running) - Ids(Filter(s.queue.running, InSet(ids))) == Ids(s.queue.running) - ids
    ensures TakenOut(s, n, ids, status)
  {
  }

  lemma GoneIds(rs: seq<Request>, ids: set<nat>)
    ensures Ids(rs) - Ids(Filter(rs, InSet(ids))) == Ids(rs) - ids
  {
    forall id | id in Ids(rs) && id in ids ensures id in Ids(Filter(rs, InSet(ids))) {
      var r :| r in rs && r.id == id;
      assert r in Filter(rs, InSet(ids));
    }
  }

  /** Cancelling a live request takes out that request and no other; cancelling any other id leaves
      everything that waits or runs, and every block, alone. */
  lemma CancelTakesOut(cfg: Config, s: Engine, id: nat)
    requires Inv(cfg, s)
    ensures id in Ids(s.queue.waiting) + Ids(s.queue.running) ==> TakenOut(s, Cancel(s, id), {id}, Cancelled)
    ensures id !in Ids(s.queue.waiting) + Ids(s.queue.running) ==>
      && Cancel(s, id).queue.waiting == s.queue.waiting && Cancel(s, id).queue.running == s.queue.running
      && Cancel(s, id).blocks == s.blocks && Cancel(s, id).queue.rejected == s.queue.rejected
      && (id in Ids(s.queue.finished) || id !in Ids(s.queue.rejected) ==> Cancel(s, id) == s)
  {
    DropTakesOut(cfg, s, {id}, Cancelled);
    if id !in Ids(s.queue.rejected) {
      FilterNone(s.queue.rejected, InSet({id}));
      assert s.queue.finished + [] == s.queue.finished;
    }
  }

  /** What a timeout leaves of a request. */
  function Expired(q: Queue, r: Request): Request { if r in q.running then r.(status := TimedOut) else r }

  lemma ExpiredIsFiled(cfg: Config, s: Engine, expired: set<nat>, r: Request)
    requires Inv(cfg, s) && (r in s.queue.waiting || r in s.queue.running) && r.id in expired
    ensures Expired(s.queue, r) in Prepare(cfg, s, expired).engine.queue.finished
  {
    var d := Drop(s, expired, TimedOut);
    DropTakesOut(cfg, s, expired, TimedOut);
    assert Expired(s.queue, r) in d.queue.finished;
    ScheduleFinishes(cfg, d.queue, d.blocks);
  }

  lemma FinishedIsIdle(cfg: Config, p: StepResult, x: Request)
    requires WellFormed(p.engine.blocks) && Prepared(cfg, p) && x in p.engine.queue.finished
    ensures x.id !in Ids(p.engine.queue.waiting) + Ids(p.engine.queue.running) + Ids(BatchOf(p.schedule))
  {
    BatchIsRunning(cfg, p.engine.queue, p.engine.blocks, p.schedule);
    assert x.id in Ids(p.engine.queue.finished);
  }

  /** Timeouts come first: a step never computes anything for a request whose time is over.  It is
      finished with the output it had, and neither waits, runs nor appears in the batch. */
  lemma TimeoutsComeFirst(cfg: Config, s: Engine, expired: set<nat>, sample: nat -> Token, r: Request)
    requires Inv(cfg, s) && (r in s.queue.waiting || r in s.queue.running) && r.id in expired
    ensures
      var n := Step(cfg, s, expired, sample);
      && Expired(s.queue, r) in n.engine.queue.finished
      && r.id !in Ids(n.engine.queue.waiting) + Ids(n.engine.queue.running) + Ids(BatchOf(n.schedule))
  {
    var p := Prepare(cfg, s, expired);
    ExpiredIsFiled(cfg, s, expired, r);
    PrepareLaw(cfg, s, expired);
    FinishedIsIdle(cfg, p, Expired(s.queue, r));
    AdvanceAllIds(cfg, p.engine.queue.running, Ids(BatchOf(p.schedule)), sample);
  }
}

/** The scheduler as an object: the loops of its phases, proved against ScheduleSpec. */
module Scheduling {
  import opened Base
  import opened BlockSpec
  import opened Requests
  import opened ScheduleSpec
  import opened BlockManagement
  import opened RequestQueues
  import opened Sweeps

  function FinishRule(): Rule { Rule(BelowLimit, ReachedLimit, Finished) }

  // ---------------------------------------------------------------- the admission sweep

  /** Ids only move: whoever is running, rejected, kept waiting or owns a table after the
      admission of requests with the given ids did so before or is one of them. */
  ghost predicate PoolsMoved(a: Admission, n: Admission, ids: set<nat>) {
    && Ids(n.running) <= Ids(a.running) + ids
    && Ids(n.rejected) <= Ids(a.rejected) + ids
    && Ids(n.kept) <= Ids(a.kept) + ids
    && n.blocks.tables.Keys <= a.blocks.tables.Keys + ids
    && Distinct(n.kept)
  }

  lemma AdmitOneMoves(cfg: Config, a: Admission, n: Admission, r: Request, ids: set<nat>)
    requires WellFormed(n.blocks) && PoolsMoved(a, n, ids) && r.id !in ids && r.id !in Ids(a.kept)
    ensures PoolsMoved(a, AdmitOne(cfg, n, r), ids + {r.id})
  {
    DistinctAppend(n.kept, [r]);
    var m := AdmitOne(cfg, n, r);
    assert Ids(m.kept) <= Ids(n.kept) + {r.id};
    assert Ids(m.running) <= Ids(n.running) + {r.id};
    assert Ids(m.rejected) <= Ids(n.rejected) + {r.id};
    assert PoolsMoved(a, m, ids + {r.id});
  }

  lemma {:induction false} AdmitMoves(cfg: Config, a: Admission, rs: seq<Request>)
    requires WellFormed(a.blocks) && Distinct(rs) && a.kept == []
    ensures PoolsMoved(a, AdmitAll(cfg, a, rs), Ids(rs))
    decreases |rs|
  {
    if rs != [] {
      var front, last := rs[..|rs| - 1], rs[|rs| - 1];
      AdmitMoves(cfg, a, front);
      OneMoreOf(rs, front, last);
      var mid := AdmitAll(cfg, a, front);
      AdmitOneMoves(cfg, a, mid, last, Ids(front));
      assert AdmitAll(cfg, a, rs) == AdmitOne(cfg, mid, last);
    }
  }

  lemma OneMoreOf(rs: seq<Request>, front: seq<Request>, last: Request)
    requires rs != [] && Distinct(rs) && front == rs[..|rs| - 1] && last == rs[|rs| - 1]
    ensures rs == front + [last] && Ids(front) + {last.id} == Ids(rs) && last.id !in Ids(front)
  {
    assert rs == front + [last];
    IdsAppend(front, [last]);
  }

  /** The pools, the blocks and the plan while the admission loop faces the requests `rest`. */
  ghost predicate Facing(q0: Queue, a: Admission, rest: seq<Request>, q: Queue, b: Blocks, p: Plan) {
    && q == Queue(a.kept + rest, a.running, q0.finished, q0.rejected + a.rejected)
    && b == a.blocks && p == a.plan
  }

  /** What the next request of the admission loop may rely on. */
  ghost predicate Enterable(q: Queue, b: Blocks, r: Request) {
    && Distinct(q.waiting) && r.id !in Ids(q.running) && r.id !in Ids(q.rejected) && r.id !in b.tables
  }

  /** One request further. */
  ghost predicate Faced(cfg: Config, q0: Queue, a: Admission, r: Request, rest: seq<Request>, q: Queue, b: Blocks,
                        n: Plan, rejected: bool) {
    && WellFormed(a.blocks)
    && Facing(q0, AdmitOne(cfg, a, r), rest, q, b, n)
    && AdmitOne(cfg, a, r).rejected == if rejected then a.rejected + [r] else a.rejected
  }

  lemma FacingKept(q0: Queue, a: Admission, r: Request, rest: seq<Request>, q: Queue, b: Blocks, p: Plan, n: Plan)
    requires Facing(q0, a, [r] + rest, q, b, p)
    ensures Facing(q0, a.(plan := n, kept := a.kept + [r]), rest, q, b, n)
  {
    assert a.kept + ([r] + rest) == (a.kept + [r]) + rest;
  }

  lemma FacingRejected(q0: Queue, a: Admission, r: Request, rest: seq<Request>, q: Queue, b: Blocks, p: Plan)
    requires Facing(q0, a, [r] + rest, q, b, p) && Distinct(q.waiting)
    ensures Facing(q0, a.(rejected := a.rejected + [r]), rest,
                   q.(waiting := Without(q.waiting, r.id), rejected := q.rejected + [r]), b, p)
  {
    WithoutAt(a.kept, r, rest);
    assert (q0.rejected + a.rejected) + [r] == q0.rejected + (a.rejected + [r]);
  }

  lemma FacingAdmitted(q0: Queue, a: Admission, r: Request, rest: seq<Request>, q: Queue, b: Blocks, p: Plan,
                       admitted: Request, n: Plan, nb: Blocks)
    requires Facing(q0, a, [r] + rest, q, b, p) && Distinct(q.waiting) && admitted.id == r.id
    ensures Facing(q0, a.(plan := n, running := a.running + [admitted], blocks := nb), rest,
                   q.(waiting := Without(q.waiting, r.id), running := q.running + [admitted]), nb, n)
  {
    WithoutAt(a.kept, r, rest);
  }

  /** Everything that is queued has a place of its own, and only running requests own tables. */
  ghost predicate Orderly(q: Queue, b: Blocks) {
    && Distinct(q.waiting) && Distinct(q.running)
    && Ids(q.running) !! Ids(q.finished)
    && Ids(q.waiting) !! Ids(q.running) && Ids(q.waiting) !! Ids(q.rejected)
    && b.tables.Keys <= Ids(q.running)
  }

  ghost predicate AtStart(q0: Queue, a0: Admission) {
    WellFormed(a0.blocks) && Orderly(q0, a0.blocks) && a0.kept == [] && a0.rejected == [] && a0.running == q0.running
  }

  /** The loop has faced the first `i` waiting requests. */
  ghost predicate AdmittedTo(cfg: Config, q0: Queue, a0: Admission, i: nat, q: Queue, b: Blocks, p: Plan,
                             rejected: seq<Request>) {
    && WellFormed(a0.blocks) && i <= |q0.waiting|
    && var a := AdmitAll(cfg, a0, q0.waiting[..i]);
       Facing(q0, a, q0.waiting[i..], q, b, p) && rejected == a.rejected
  }

  /** However far the admission loop has come, the next waiting request can enter. */
  lemma NextIsEnterable(cfg: Config, q0: Queue, a0: Admission, i: nat, a: Admission, q: Queue, b: Blocks, p: Plan,
                        rejected: seq<Request>)
    requires AtStart(q0, a0) && i < |q0.waiting| && AdmittedTo(cfg, q0, a0, i, q, b, p, rejected)
    requires a == AdmitAll(cfg, a0, q0.waiting[..i])
    ensures Facing(q0, a, [q0.waiting[i]] + q0.waiting[i + 1..], q, b, p)
    ensures Enterable(q, b, q0.waiting[i])
  {
    var rs, r := q0.waiting, q0.waiting[i];
    AdmitMoves(cfg, a0, rs[..i]);
    assert r.id in Ids(rs);
    assert r.id !in Ids(rs[..i]);
    IdsAppend(q0.rejected, a.rejected);
    assert [r] + rs[i + 1..] == rs[i..];
    assert Ids(rs[i..]) !! Ids(rs[..i]);
    DistinctAppend(a.kept, rs[i..]);
  }

  lemma TurnDone(cfg: Config, q0: Queue, a0: Admission, i: nat, a: Admission, q: Queue, b: Blocks, p: Plan,
                 refused: bool)
    requires AtStart(q0, a0) && i < |q0.waiting| && a == AdmitAll(cfg, a0, q0.waiting[..i])
    requires Faced(cfg, q0, a, q0.waiting[i], q0.waiting[i + 1..], q, b, p, refused)
    ensures AdmittedTo(cfg, q0, a0, i + 1, q, b, p, a.rejected + if refused then [q0.waiting[i]] else [])
  {
    var front := q0.waiting[..i + 1];
    assert front[..|front| - 1] == q0.waiting[..i] && front[|front| - 1] == q0.waiting[i];
    assert AdmitAll(cfg, a0, front) == AdmitOne(cfg, a, q0.waiting[i]);
  }

  // ---------------------------------------------------------------- between the phases

  lemma {:induction false} FreeAllKeys(b: Blocks, rs: seq<Request>)
    requires WellFormed(b)
    ensures FreeAll(b, rs).tables.Keys == b.tables.Keys - Ids(rs)
    decreases |rs|
  {
    if rs != [] {
      var k := |rs| - 1;
      FreeAllKeys(b, rs[..k]);
      assert rs == rs[..k] + [rs[k]];
      IdsAppend(rs[..k], [rs[k]]);
    }
  }

  /** The finish check keeps the queue orderly. */
  lemma FinishOrderly(q: Queue, b: Blocks)
    requires WellFormed(b) && Orderly(q, b)
    ensures Orderly(ScheduleSpec.FinishPhase(q), FreeAll(b, Filter(q.running, ReachedLimit)))
  {
    var done := Filter(q.running, ReachedLimit);
    var n := ScheduleSpec.FinishPhase(q);
    FilterSplits(q.running, BelowLimit, ReachedLimit);
    FreeAllKeys(b, done);
    assert Ids(n.running) <= Ids(q.running);
    forall x, y | x in n.running && y in n.finished ensures x.id != y.id {
      assert x.id in Ids(q.running);
      if y !in q.finished {
        var k :| 0 <= k < |done| && AllWithStatus(done, Finished)[k] == y;
        assert done[k] in done;
        assert x.id !in Ids(done);
      }
    }
    assert Orderly(n, FreeAll(b, done));
  }

  lemma {:induction false} PhasesTogether(cfg: Config, q0: Queue, b0: Blocks, q1: Queue, b1: Blocks, a: Admission,
                                          q: Queue, b: Blocks, p: Plan,
                       decodes: seq<Request>, done: seq<Request>)
    requires WellFormed(b0) && q1 == ScheduleSpec.FinishPhase(q0)
    requires b1 == FreeAll(b0, Filter(q0.running, ReachedLimit))
    requires WellFormed(b1) && a == ScheduleSpec.AdmitPhase(cfg, q1, b1, ContinuePlan(cfg, q1.running))
    requires Facing(q1, a, [], q, b, p)
    requires done == AllWithStatus(Filter(q0.running, ReachedLimit), Finished)
    requires decodes == Filter(q1.running, Decoding)
    ensures (q, b, Result(p, decodes, done, a.rejected)) == RunSchedule(cfg, q0, b0)
  {
    assert a.kept + [] == a.kept;
  }

  lemma Sorted(running: seq<Request>, i: nat, decodes: seq<Request>, prefills: seq<Request>)
    requires i < |running|
    requires decodes == Filter(running[..i], Decoding) && prefills == Filter(running[..i], Prefilling)
    ensures Filter(running[..i + 1], Decoding)
      == if running[i].status == Prefill then decodes else decodes + [running[i]]
    ensures Filter(running[..i + 1], Prefilling)
      == if running[i].status == Prefill then prefills + [running[i]] else prefills
  {
    FilterNext(running, i, Decoding);
    FilterNext(running, i, Prefilling);
  }

  class Scheduler {
    const cfg: Config
    const manager: BlockManager
    const queue: RequestQueue

    constructor (cfg: Config, manager: BlockManager, queue: RequestQueue)
      ensures this.cfg == cfg && this.manager == manager && this.queue == queue
    {
      this.cfg := cfg;
      this.manager := manager;
      this.queue := queue;
    }

    // -------------------------------------------------------------- phase 1

    /** One turn of the finish check: a request at its limit gives its blocks back and moves to
        the finished pool. */
    method FinishOne(r: Request, ghost rule: Rule)
      requires manager.Valid() && r.id !in Ids(queue.finished) && rule == FinishRule()
      modifies queue`running, queue`finished, manager, manager.allocator, manager.tables.Values
      ensures manager.Valid() && manager.Grew()
      ensures manager.state == if rule.drop(r) then FreeSeq(old(manager.state), r.id) else old(manager.state)
      ensures queue.View() == SweepOne(rule, old(queue.View()), r)
    {
      if r.generated >= r.maxTokens {
        manager.Free(r.id);
        queue.MarkFinished(r.(status := Finished));
      }
    }

    /** The finish check over all running requests. */
    method FinishPhase() returns (done: seq<Request>)
      requires manager.Valid() && Distinct(queue.running) && Ids(queue.running) !! Ids(queue.finished)
      modifies queue`running, queue`finished, manager, manager.allocator, manager.tables.Values
      ensures manager.Valid() && manager.Grew()
      ensures done == AllWithStatus(Filter(old(queue.running), ReachedLimit), Finished)
      ensures queue.View() == ScheduleSpec.FinishPhase(old(queue.View()))
      ensures manager.state == FreeAll(old(manager.state), Filter(old(queue.running), ReachedLimit))
    {
      var rs := queue.running;
      ghost var q0, b0, rule := queue.View(), manager.state, FinishRule();
      done := [];
      var i := 0;
      while i < |rs|
        invariant 0 <= i <= |rs| && manager.Valid() && manager.Grew()
        invariant Swept(rule, rs, i, q0, b0, queue.View(), manager.state, done)
      {
        var next := i + 1;
        done := FinishTurn(rs, i, next, done, q0, b0, rule);
        i := next;
      }
      assert rs[..|rs|] == rs;
    }

    /** One turn of the finish loop. */
    method FinishTurn(rs: seq<Request>, i: nat, next: nat, done: seq<Request>, ghost q0: Queue, ghost b0: Blocks,
                      ghost rule: Rule)
      returns (more: seq<Request>)
      requires manager.Valid() && rule == FinishRule() && i < |rs| && next == i + 1
      requires Distinct(rs) && Ids(rs) !! Ids(q0.finished)
      requires Swept(rule, rs, i, q0, b0, queue.View(), manager.state, done)
      modifies queue`running, queue`finished, manager, manager.allocator, manager.tables.Values
      ensures manager.Valid() && manager.Grew()
      ensures Swept(rule, rs, next, q0, b0, queue.View(), manager.state, more)
    {
      SweepTurn(rule, rs, i, q0, b0, queue.View(), manager.state, done, rs[i]);
      FinishOne(rs[i], rule);
      more := if ReachedLimit(rs[i]) then done + [rs[i].(status := Finished)] else done;
    }

    // -------------------------------------------------------------- phases 2 to 4

    /** Splits the running requests into decodes and prefills to continue. */
    method Categorize(running: seq<Request>) returns (decodes: seq<Request>, prefills: seq<Request>)
      ensures decodes == Filter(running, Decoding) && prefills == Filter(running, Prefilling)
      ensures |decodes| + |prefills| == |running|
    {
      decodes, prefills := [], [];
      for i := 0 to |running|
        invariant decodes == Filter(running[..i], Decoding) && prefills == Filter(running[..i], Prefilling)
        invariant |decodes| + |prefills| == i
      {
        Sorted(running, i, decodes, prefills);
        if running[i].status == Prefill {
          prefills := prefills + [running[i]];
        } else {
          decodes := decodes + [running[i]];
        }
      }
      assert running[..|running|] == running;
    }

    /** Charges one token and one place per decode before any prefill is looked at. */
    method DeductDecodes(decodes: seq<Request>) returns (p: Plan)
      ensures p == StartPlan(cfg, |decodes|)
    {
      var tokens, seqs := cfg.maxNumBatchedTokens, cfg.maxNumSeqs;
      for i := 0 to |decodes|
        invariant tokens == cfg.maxNumBatchedTokens - i && seqs == cfg.maxNumSeqs - i
      {
        tokens, seqs := tokens - 1, seqs - 1;
      }
      p := Plan(tokens, Min(tokens, cfg.maxNumPrefillTokens), seqs, 0, [], []);
    }

    /** Picks the prefills that continue, in pool order, while both budgets last. */
    method ContinuePrefills(p: Plan, prefills: seq<Request>) returns (n: Plan)
      ensures n == ContinueAll(cfg, p, prefills)
    {
      n := p;
      for i := 0 to |prefills|
        invariant n == ContinueAll(cfg, p, prefills[..i])
      {
        assert prefills[..i + 1][..i] == prefills[..i];
        var r := prefills[i];
        if n.seqBudget <= 0 {
          n := n.(ignored := n.ignored + [Ignored(r.id, MaxNumSeqsLimit)]);
        } else {
          var chunk := Min(|r.prompt| - r.cursor, cfg.chunkSize);
          if chunk > n.prefillBudget {
            n := n.(ignored := n.ignored + [Ignored(r.id, WaitingForNextStep)]);
          } else {
            n := n.(chosen := n.chosen + [r], prefillBudget := n.prefillBudget - chunk,
                    tokenBudget := n.tokenBudget - chunk, seqBudget := n.seqBudget - 1,
                    prefillTokens := n.prefillTokens + chunk);
          }
        }
      }
      assert prefills[..|prefills|] == prefills;
    }

    // -------------------------------------------------------------- phase 5

    /** The tokens of a waiting prompt that are cached, the tokens its first chunk would be
        charged, and where its cursor would start. */
    method Weigh(prompt: seq<Token>) returns (cached: nat, chunk: int, cursor: nat)
      requires manager.Valid() && manager.cfg == cfg
      ensures cached == ProbedTokens(cfg, manager.state, prompt)
      ensures chunk == AdmissionCharge(cfg, |prompt|, cached)
      ensures cursor == StartCursor(cfg, |prompt|, cached)
    {
      var matched;
      cached, matched := manager.ProbePrefixCache(prompt);
      var uncached := |prompt| - cached;
      if cfg.chunkedPrefill { chunk := Min(uncached, cfg.chunkSize); } else { chunk := uncached; }
      if chunk == 0 && uncached == 0 { chunk := Min(cfg.chunkSize, |prompt|); }
      if uncached == 0 && cached == |prompt| { cursor := |prompt| - chunk; } else { cursor := cached; }
    }

    /** Admits a request: a table of its own with the usable cached prefix, and its first chunk. */
    method Enter(r: Request, p: Plan, chunk: int, cursor: nat, ghost q0: Queue, ghost a: Admission,
                 ghost rest: seq<Request>)
      returns (n: Plan)
      requires manager.Valid() && manager.cfg == cfg
      requires Facing(q0, a, [r] + rest, queue.View(), manager.state, p) && Enterable(queue.View(), manager.state, r)
      modifies queue`waiting, queue`running, manager, manager.allocator, manager.tables.Values
      ensures manager.Valid() && manager.Grew()
      ensures
        var admitted := r.(status := Prefill, cursor := cursor);
        var m := Admission(Charge(p, admitted, chunk), a.kept, a.running + [admitted], a.rejected,
                           BlockSpec.AllocateForSeq(cfg, old(manager.state), r.id, r.prompt));
        Facing(q0, m, rest, queue.View(), manager.state, n)
    {
      var admitted := r.(status := Prefill, cursor := cursor);
      n := p.(tokenBudget := p.tokenBudget - chunk, prefillBudget := p.prefillBudget - chunk,
              seqBudget := p.seqBudget - 1, prefillTokens := p.prefillTokens + chunk,
              chosen := p.chosen + [admitted]);
      FacingAdmitted(q0, a, r, rest, queue.View(), manager.state, p, admitted, n,
                     BlockSpec.AllocateForSeq(cfg, manager.state, r.id, r.prompt));
      manager.AllocateForSeq(r.id, r.prompt);
      queue.MarkRunning(admitted);
    }

    /** A first chunk that does not fit: a prompt too long for any batch is rejected, any other
        request waits on. */
    method Refuse(r: Request, p: Plan, uncached: int, ghost q0: Queue, ghost a: Admission, ghost rest: seq<Request>)
      returns (n: Plan, rejected: bool)
      requires Facing(q0, a, [r] + rest, queue.View(), a.blocks, p)
      requires Distinct(queue.waiting) && r.id !in Ids(queue.rejected)
      modifies queue`waiting, queue`rejected
      ensures rejected == (uncached > cfg.maxNumBatchedTokens)
      ensures
        var m := if rejected then a.(rejected := a.rejected + [r])
                 else a.(plan := Ignore(p, r.id, NoTokenBudget), kept := a.kept + [r]);
        Facing(q0, m, rest, queue.View(), a.blocks, n)
    {
      n, rejected := p, uncached > cfg.maxNumBatchedTokens;
      if rejected {
        FacingRejected(q0, a, r, rest, queue.View(), a.blocks, p);
        queue.MarkRejected(r);
      } else {
        n := p.(ignored := p.ignored + [Ignored(r.id, NoTokenBudget)]);
        FacingKept(q0, a, r, rest, queue.View(), a.blocks, p, n);
      }
    }

    /** Refuses or admits a weighed request. */
    method Consider(r: Request, p: Plan, cached: nat, chunk: int, cursor: nat,
                    ghost q0: Queue, ghost a: Admission, ghost rest: seq<Request>)
      returns (n: Plan, rejected: bool)
      requires manager.Valid() && manager.cfg == cfg && p.seqBudget > 0
      requires cached == ProbedTokens(cfg, manager.state, r.prompt)
      requires chunk == AdmissionCharge(cfg, |r.prompt|, cached) && cursor == StartCursor(cfg, |r.prompt|, cached)
      requires Facing(q0, a, [r] + rest, queue.View(), manager.state, p) && Enterable(queue.View(), manager.state, r)
      modifies queue`waiting, queue`running, queue`rejected, manager, manager.allocator, manager.tables.Values
      ensures manager.Valid() && manager.Grew()
      ensures Faced(cfg, q0, a, r, rest, queue.View(), manager.state, n, rejected)
    {
      rejected := false;
      if chunk > p.prefillBudget {
        n, rejected := Refuse(r, p, |r.prompt| - cached, q0, a, rest);
      } else {
        n := Enter(r, p, chunk, cursor, q0, a, rest);
      }
    }

    /** One turn of the admission loop. */
    method AdmitNext(r: Request, p: Plan, ghost q0: Queue, ghost a: Admission, ghost rest: seq<Request>)
      returns (n: Plan, rejected: bool)
      requires manager.Valid() && manager.cfg == cfg
      requires Facing(q0, a, [r] + rest, queue.View(), manager.state, p) && Enterable(queue.View(), manager.state, r)
      modifies queue`waiting, queue`running, queue`rejected, manager, manager.allocator, manager.tables.Values
      ensures manager.Valid() && manager.Grew()
      ensures Faced(cfg, q0, a, r, rest, queue.View(), manager.state, n, rejected)
    {
      if p.seqBudget <= 0 {
        n, rejected := p.(ignored := p.ignored + [Ignored(r.id, MaxNumSeqsLimit)]), false;
        FacingKept(q0, a, r, rest, queue.View(), manager.state, p, n);
      } else {
        var cached, chunk, cursor := Weigh(r.prompt);
        n, rejected := Consider(r, p, cached, chunk, cursor, q0, a, rest);
      }
    }

    /** The admission loop over a copy of the waiting pool. */
    method AdmitPhase(p: Plan, canAdmit: bool) returns (n: Plan, rejected: seq<Request>)
      requires manager.Valid() && manager.cfg == cfg && Orderly(queue.View(), manager.state)
      requires canAdmit == MayAdmit(cfg, queue.running)
      modifies queue`waiting, queue`running, queue`rejected, manager, manager.allocator, manager.tables.Values
      ensures manager.Valid() && manager.Grew()
      ensures
        var a := ScheduleSpec.AdmitPhase(cfg, old(queue.View()), old(manager.state), p);
        && Facing(old(queue.View()), a, [], queue.View(), manager.state, n) && rejected == a.rejected
    {
      n, rejected := p, [];
      if !canAdmit { return; }
      var rs := queue.waiting;
      ghost var q0 := queue.View();
      ghost var a0 := Admission(p, [], q0.running, [], manager.state);
      assert [] + rs == rs && rs[0..] == rs && q0.rejected + [] == q0.rejected;
      for i := 0 to |rs|
        invariant manager.Valid() && manager.Grew()
        invariant AdmittedTo(cfg, q0, a0, i, queue.View(), manager.state, n, rejected)
      {
        ghost var a := AdmitAll(cfg, a0, rs[..i]);
        NextIsEnterable(cfg, q0, a0, i, a, queue.View(), manager.state, n, rejected);
        var refused;
        n, refused := AdmitNext(rs[i], n, q0, a, rs[i + 1..]);
        TurnDone(cfg, q0, a0, i, a, queue.View(), manager.state, n, refused);
        rejected := rejected + if refused then [rs[i]] else [];
        assert AdmittedTo(cfg, q0, a0, i + 1, queue.View(), manager.state, n, rejected);
      }
      assert rs[..|rs|] == rs;
    }

    // -------------------------------------------------------------- all phases

    /** Phases 2 to 5 on the requests the finish check kept. */
    method Fill() returns (p: Plan, decodes: seq<Request>, rejected: seq<Request>)
      requires manager.Valid() && manager.cfg == cfg && Orderly(queue.View(), manager.state)
      modifies queue`waiting, queue`running, queue`rejected, manager, manager.allocator, manager.tables.Values
      ensures manager.Valid() && manager.Grew()
      ensures decodes == Filter(old(queue.running), Decoding)
      ensures
        var a := ScheduleSpec.AdmitPhase(cfg, old(queue.View()), old(manager.state),
                                         ContinuePlan(cfg, old(queue.running)));
        && Facing(old(queue.View()), a, [], queue.View(), manager.state, p) && rejected == a.rejected
    {
      var prefills;
      decodes, prefills := Categorize(queue.running);
      p := DeductDecodes(decodes);
      p := ContinuePrefills(p, prefills);
      var canAdmit := !cfg.staticBatch || (|decodes| == 0 && |prefills| == 0);
      p, rejected := AdmitPhase(p, canAdmit);
    }

    /** One scheduling iteration. */
    method Schedule() returns (result: ScheduleSpec.Schedule)
      requires manager.Valid() && manager.cfg == cfg && Orderly(queue.View(), manager.state)
      modifies queue, manager, manager.allocator, manager.tables.Values
      ensures manager.Valid() && manager.Grew()
      ensures (queue.View(), manager.state, result) == RunSchedule(cfg, old(queue.View()), old(manager.state))
    {
      ghost var q0, b0 := queue.View(), manager.state;
      FinishOrderly(q0, b0);
      var done := FinishPhase();
      ghost var q1, b1 := queue.View(), manager.state;
      ghost var a := ScheduleSpec.AdmitPhase(cfg, q1, b1, ContinuePlan(cfg, q1.running));
      var p, decodes, rejected := Fill();
      PhasesTogether(cfg, q0, b0, q1, b1, a, queue.View(), manager.state, p, decodes, done);
      result := Result(p, decodes, done, rejected);
    }
  }
}

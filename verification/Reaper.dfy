/** Taking requests out before they are done: cancel and timeout, as operations on the queue and
    the block manager. */
module Reaping {
  import opened Base
  import opened BlockSpec
  import opened Requests
  import opened ScheduleSpec
  import opened EngineSpec
  import opened BlockManagement
  import opened RequestQueues
  import opened Sweeps

  predicate InProgress(r: Request) { r.status == Prefill || r.status == Running }

  function TimeoutRule(ids: set<nat>): Rule { Rule(NotInSet(ids), InSet(ids), TimedOut) }

  // ---------------------------------------------------------------- the waiting pool

  /** The waiting pool after its first `i` requests were checked; those that go own no sequence, so
      nothing is marked or freed. */
  ghost predicate Thinned(ids: set<nat>, rs: seq<Request>, i: nat, q0: Queue, q: Queue) {
    && i <= |rs|
    && q.waiting == Filter(rs[..i], NotInSet(ids)) + rs[i..]
    && q.finished == q0.finished + Filter(rs[..i], InSet(ids))
    && q.running == q0.running && q.rejected == q0.rejected
  }

  function ThinOne(ids: set<nat>, q: Queue, r: Request): Queue {
    if r.id in ids then q.(waiting := Without(q.waiting, r.id), finished := q.finished + [r]) else q
  }

  lemma ThinFinished(earlier: seq<Request>, gone: seq<Request>, r: Request, ids: set<nat>)
    ensures (if r.id in ids then (earlier + gone) + [r] else earlier + gone)
         == earlier + (gone + if r.id in ids then [r] else [])
  {
    assert gone + [] == gone;
  }

  lemma ThinNext(ids: set<nat>, rs: seq<Request>, i: nat, next: nat, q0: Queue, q: Queue, r: Request)
    requires Thinned(ids, rs, i, q0, q) && i < |rs| && next == i + 1 && r == rs[i] && Distinct(rs)
    requires Ids(rs) !! Ids(q0.finished)
    ensures Thinned(ids, rs, next, q0, ThinOne(ids, q, r))
  {
    var rule := TimeoutRule(ids);
    SweptNext(rule, rs, i, q.waiting, AllWithStatus(Filter(rs[..i], rule.drop), TimedOut), r);
    FilterNext(rs, i, InSet(ids));
    ThinFinished(q0.finished, Filter(rs[..i], InSet(ids)), r, ids);
  }

  ghost predicate TimedOutAll(s: Engine, ids: set<nat>, q: Queue, b: Blocks) {
    WellFormed(s.blocks) && Engine(q, b, s.nextId) == Drop(s, ids, TimedOut)
  }

  /** Both sweeps together are the drop of the specification. */
  lemma SweepsAreDrop(s: Engine, ids: set<nat>, q1: Queue, b1: Blocks, done: seq<Request>, q2: Queue)
    requires WellFormed(s.blocks)
    requires Swept(TimeoutRule(ids), s.queue.running, |s.queue.running|, s.queue, s.blocks, q1, b1, done)
    requires Thinned(ids, s.queue.waiting, |s.queue.waiting|, q1, q2)
    ensures TimedOutAll(s, ids, q2, b1)
  {
    var q := s.queue;
    assert q.running[..|q.running|] == q.running && q.waiting[..|q.waiting|] == q.waiting;
    assert Filter(q.running, NotInSet(ids)) + q.running[|q.running|..] == Filter(q.running, NotInSet(ids));
    assert Filter(q.waiting, NotInSet(ids)) + q.waiting[|q.waiting|..] == Filter(q.waiting, NotInSet(ids));
  }

  /** Waiting requests have not become finished by the first sweep. */
  lemma WaitingStaysFresh(s: Engine, ids: set<nat>, q1: Queue, b1: Blocks, done: seq<Request>)
    requires Shaped(s.queue)
    requires Swept(TimeoutRule(ids), s.queue.running, |s.queue.running|, s.queue, s.blocks, q1, b1, done)
    ensures q1.waiting == s.queue.waiting && Distinct(q1.waiting) && Ids(q1.waiting) !! Ids(q1.finished)
  {
    var q := s.queue;
    assert q.running[..|q.running|] == q.running;
    AllWithStatusIds(Filter(q.running, InSet(ids)), TimedOut);
    IdsAppend(q.finished, done);
    assert Ids(Filter(q.running, InSet(ids))) <= Ids(q.running);
  }

  // ---------------------------------------------------------------- one id

  /** Popping a key is filtering it out. */
  lemma {:induction false} WithoutIsFilter(rs: seq<Request>, id: nat)
    ensures Without(rs, id) == Filter(rs, NotInSet({id}))
  {
    if rs != [] { WithoutIsFilter(rs[1..], id); }
  }

  /** In a pool with distinct ids the requests with one id are at most one. */
  lemma {:induction false} FilterOne(rs: seq<Request>, r: Request)
    requires Distinct(rs)
    ensures r in rs ==> Filter(rs, InSet({r.id})) == [r]
    ensures r.id !in Ids(rs) ==> Filter(rs, InSet({r.id})) == []
  {
    if r.id !in Ids(rs) {
      FilterNone(rs, InSet({r.id}));
    } else if r in rs {
      if rs[0] == r {
        assert forall x :: x in rs[1..] ==> x.id != r.id;
        FilterNone(rs[1..], InSet({r.id}));
      } else {
        assert rs[0].id != r.id;
        FilterOne(rs[1..], r);
      }
    }
  }

  /** What the filters of a drop come to for the id of one live request. */
  lemma FiltersOfOne(q: Queue, r: Request)
    requires Shaped(q) && (r in q.running || r in q.waiting)
    ensures Filter(q.running, InSet({r.id})) == (if r in q.running then [r] else [])
    ensures Filter(q.waiting, InSet({r.id})) == (if r in q.running then [] else [r])
    ensures Filter(q.running, NotInSet({r.id})) == (if r in q.running then Without(q.running, r.id) else q.running)
    ensures Filter(q.waiting, NotInSet({r.id})) == (if r in q.running then q.waiting else Without(q.waiting, r.id))
  {
    assert if r in q.running then r.id in Ids(q.running) && r.id !in Ids(q.waiting)
      else r.id in Ids(q.waiting) && r.id !in Ids(q.running);
    FilterOne(q.running, r);
    FilterOne(q.waiting, r);
    WithoutIsFilter(q.running, r.id);
    WithoutIsFilter(q.waiting, r.id);
    if r in q.running { WithoutAbsent(q.waiting, r.id); } else { WithoutAbsent(q.running, r.id); }
  }

  /** Dropping one running request. */
  lemma DropRunning(s: Engine, r: Request, status: Status)
    requires WellFormed(s.blocks) && Shaped(s.queue) && r in s.queue.running
    ensures Drop(s, {r.id}, status)
         == Engine(s.queue.(running := Without(s.queue.running, r.id),
                            finished := s.queue.finished + [r.(status := status)]),
                   FreeSeq(s.blocks, r.id), s.nextId)
  {
    var q := s.queue;
    FiltersOfOne(q, r);
    assert FreeAll(s.blocks, [r]) == FreeSeq(s.blocks, r.id) by { assert [r][..0] == []; }
    assert AllWithStatus([r], status) == [r.(status := status)];
    assert q.finished + [r.(status := status)] + [] == q.finished + [r.(status := status)];
  }

  /** Dropping one waiting request. */
  lemma DropWaiting(s: Engine, r: Request, status: Status)
    requires WellFormed(s.blocks) && Shaped(s.queue) && r in s.queue.waiting
    ensures Drop(s, {r.id}, status)
         == Engine(s.queue.(waiting := Without(s.queue.waiting, r.id), finished := s.queue.finished + [r]), s.blocks,
                   s.nextId)
  {
    var q := s.queue;
    assert r !in q.running by { assert r.id in Ids(q.waiting); }
    FiltersOfOne(q, r);
    assert AllWithStatus([], status) == [] && q.finished + [] + [r] == q.finished + [r];
  }

  class Reaper {
    const queue: RequestQueue
    const manager: BlockManager

    constructor (queue: RequestQueue, manager: BlockManager)
      ensures this.queue == queue && this.manager == manager
    {
      this.queue := queue;
      this.manager := manager;
    }

    /** One running request: mark its sequence, free its blocks, move it. */
    method Expire(r: Request, ids: set<nat>, ghost rule: Rule)
      requires manager.Valid() && r.id !in Ids(queue.finished) && rule == TimeoutRule(ids)
      modifies queue`running, queue`finished, manager, manager.allocator, manager.tables.Values
      ensures manager.Valid() && manager.Grew()
      ensures manager.state == if rule.drop(r) then FreeSeq(old(manager.state), r.id) else old(manager.state)
      ensures queue.View() == SweepOne(rule, old(queue.View()), r)
    {
      if r.id in ids {
        manager.Free(r.id);
        queue.MarkFinished(r.(status := TimedOut));
      }
    }

    /** The running requests past the limit, in pool order. */
    method ExpireRunning(ids: set<nat>) returns (ghost done: seq<Request>)
      requires manager.Valid() && Distinct(queue.running) && Ids(queue.running) !! Ids(queue.finished)
      modifies queue`running, queue`finished, manager, manager.allocator, manager.tables.Values
      ensures manager.Valid() && manager.Grew()
      ensures Swept(TimeoutRule(ids), old(queue.running), |old(queue.running)|, old(queue.View()), old(manager.state),
                    queue.View(), manager.state, done)
    {
      var rs := queue.running;
      ghost var q0, b0, rule := queue.View(), manager.state, TimeoutRule(ids);
      done := [];
      for i := 0 to |rs|
        invariant manager.Valid() && manager.Grew()
        invariant Swept(rule, rs, i, q0, b0, queue.View(), manager.state, done)
      {
        SweepTurn(rule, rs, i, q0, b0, queue.View(), manager.state, done, rs[i]);
        Expire(rs[i], ids, rule);
        done := if rule.drop(rs[i]) then done + [rs[i].(status := TimedOut)] else done;
        assert Swept(rule, rs, i + 1, q0, b0, queue.View(), manager.state, done);
      }
    }

    method ExpireOne(r: Request, ids: set<nat>)
      modifies queue`waiting, queue`finished
      ensures queue.View() == ThinOne(ids, old(queue.View()), r)
    {
      if r.id in ids {
        queue.waiting := Without(queue.waiting, r.id);
        queue.finished := queue.finished + [r];
      }
    }

    /** The waiting requests past the limit. */
    method ExpireWaiting(ids: set<nat>)
      requires Distinct(queue.waiting) && Ids(queue.waiting) !! Ids(queue.finished)
      modifies queue`waiting, queue`finished
      ensures Thinned(ids, old(queue.waiting), |old(queue.waiting)|, old(queue.View()), queue.View())
    {
      var rs := queue.waiting;
      ghost var q0 := queue.View();
      var i := 0;
      while i < |rs|
        invariant 0 <= i <= |rs| && Thinned(ids, rs, i, q0, queue.View())
      {
        var next := i + 1;
        ThinNext(ids, rs, i, next, q0, queue.View(), rs[i]);
        ExpireOne(rs[i], ids);
        i := next;
      }
    }

    /** The timeout check: running requests first, then waiting ones.  Which requests are past the
        limit is the clock's decision. */
    method CheckTimeouts(expired: set<nat>, ghost s: Engine)
      requires manager.Valid() && s.queue == queue.View() && s.blocks == manager.state && Shaped(s.queue)
      modifies queue`waiting, queue`running, queue`finished, manager, manager.allocator, manager.tables.Values
      ensures manager.Valid() && manager.Grew()
      ensures TimedOutAll(s, expired, queue.View(), manager.state)
    {
      ghost var done := ExpireRunning(expired);
      ghost var q1, b1 := queue.View(), manager.state;
      WaitingStaysFresh(s, expired, q1, b1, done);
      ExpireWaiting(expired);
      SweepsAreDrop(s, expired, q1, b1, done, queue.View());
      ghost var kept := manager.Valid();
      assert kept;
    }

    /** Takes a request out of its live pool and files it as finished. */
    method File(r: Request, ghost s: Engine, ghost original: Request)
      requires s.queue == queue.View() && WellFormed(s.blocks) && r.id == original.id
      requires r == if InProgress(original) then original.(status := Cancelled) else original
      modifies queue`waiting, queue`running, queue`finished
      ensures queue.View() == Cancelled1(s, original).queue
    {
      if r.id in Ids(queue.running) {
        queue.running := Without(queue.running, r.id);
      } else if r.id in Ids(queue.waiting) {
        queue.waiting := Without(queue.waiting, r.id);
      }
      if r.id !in Ids(queue.finished) {
        queue.finished := queue.finished + [r];
      }
    }

    /** Cancels a request wherever it is; unknown ids are refused.  A request that was rejected is
        filed as finished too, and a finished one stays as it is. */
    method CancelRequest(id: nat, ghost s: Engine) returns (found: bool)
      requires manager.Valid() && s.queue == queue.View() && s.blocks == manager.state && Shaped(s.queue)
      modifies queue`waiting, queue`running, queue`finished, manager, manager.allocator, manager.tables.Values
      ensures manager.Valid() && manager.Grew()
      ensures found <==> id in AllIds(s.queue)
      ensures Engine(queue.View(), manager.state, s.nextId) == Cancel(s, id)
    {
      var sg := queue.GetById(id);
      found := sg.Some?;
      if sg.None? {
        NobodyToCancel(s, id);
      } else {
        CancelOne(s, sg.value);
        CancelFound(sg.value, s);
      }
    }

    /** Marks the request and frees its blocks when it is in progress, then files it. */
    method CancelFound(r: Request, ghost s: Engine)
      requires manager.Valid() && s.queue == queue.View() && s.blocks == manager.state
      modifies queue`waiting, queue`running, queue`finished, manager, manager.allocator, manager.tables.Values
      ensures manager.Valid() && manager.Grew()
      ensures Engine(queue.View(), manager.state, s.nextId) == Cancelled1(s, r)
    {
      if InProgress(r) {
        manager.Free(r.id);
        File(r.(status := Cancelled), s, r);
      } else {
        File(r, s, r);
      }
      ghost var kept := manager.Valid();
      assert kept;
    }
  }

  lemma NobodyToCancel(s: Engine, id: nat)
    requires WellFormed(s.blocks)
    requires forall x :: x in s.queue.waiting + s.queue.running + s.queue.finished + s.queue.rejected ==> x.id != id
    ensures Cancel(s, id) == s && id !in AllIds(s.queue)
  {
    var q := s.queue;
    assert forall x :: x in q.waiting || x in q.running || x in q.finished || x in q.rejected ==>
      x in q.waiting + q.running + q.finished + q.rejected;
    FilterNone(q.rejected, InSet({id}));
    assert q.finished + [] == q.finished;
  }

  /** What cancelling comes to, by the pool in which the lookup finds the request. */
  function Cancelled1(s: Engine, r: Request): (n: Engine)
    requires WellFormed(s.blocks)
  {
    var q := s.queue;
    var live := InProgress(r);
    var c := if live then r.(status := Cancelled) else r;
    var b := if live then FreeSeq(s.blocks, r.id) else s.blocks;
    var q1 := if r.id in Ids(q.running) then q.(running := Without(q.running, r.id))
              else if r.id in Ids(q.waiting) then q.(waiting := Without(q.waiting, r.id))
              else q;
    var q2 := if r.id !in Ids(q1.finished) then q1.(finished := q1.finished + [c]) else q1;
    Engine(q2, b, s.nextId)
  }

  lemma CancelOne(s: Engine, r: Request)
    requires WellFormed(s.blocks) && Shaped(s.queue)
    requires r in s.queue.waiting + s.queue.running + s.queue.finished + s.queue.rejected
    ensures r.id in AllIds(s.queue) && Cancel(s, r.id) == Cancelled1(s, r)
  {
    var q := s.queue;
    if r in q.running {
      assert r.id in Ids(q.running) && r.id !in Ids(q.finished) && Lively(r);
      DropRunning(s, r, Cancelled);
    } else if r in q.waiting {
      assert r.id in Ids(q.waiting) && r.id !in Ids(q.running) && r.id !in Ids(q.finished) && Untouched(r);
      DropWaiting(s, r, Cancelled);
    } else if r in q.finished {
      assert r.id in Ids(q.finished) && Ended(r);
    } else {
      assert r.id in Ids(q.rejected) && Untouched(r);
      FilterOne(q.rejected, r);
    }
  }
}

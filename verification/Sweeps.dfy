/** Loops that walk over a copy of the running pool and retire some of its requests one by one:
    the finish check and the timeout check. */
module Sweeps {
  import opened Base
  import opened BlockSpec
  import opened Requests
  import opened ScheduleSpec
  import opened RequestQueues

  /** Who stays, who goes, and the status they go with. */
  datatype Rule = Rule(keep: Request -> bool, drop: Request -> bool, status: Status)

  ghost predicate Total(rule: Rule) { forall r :: rule.keep(r) != rule.drop(r) }

  /** The pools after the first `i` requests of the copy `rs`. */
  ghost predicate SweptTo(rule: Rule, rs: seq<Request>, i: nat, running: seq<Request>, done: seq<Request>) {
    && i <= |rs|
    && running == Filter(rs[..i], rule.keep) + rs[i..]
    && done == AllWithStatus(Filter(rs[..i], rule.drop), rule.status)
  }

  lemma FilterTurn(rule: Rule, rs: seq<Request>, i: nat)
    requires i < |rs|
    ensures Filter(rs[..i + 1], rule.keep) == Filter(rs[..i], rule.keep) + (if rule.keep(rs[i]) then [rs[i]] else [])
    ensures Filter(rs[..i + 1], rule.drop) == Filter(rs[..i], rule.drop) + (if rule.drop(rs[i]) then [rs[i]] else [])
    ensures AllWithStatus(Filter(rs[..i + 1], rule.drop), rule.status)
         == AllWithStatus(Filter(rs[..i], rule.drop), rule.status)
            + (if rule.drop(rs[i]) then [rs[i].(status := rule.status)] else [])
  {
    FilterNext(rs, i, rule.keep);
    FilterNext(rs, i, rule.drop);
  }

  lemma FreeTurn(rule: Rule, b: Blocks, rs: seq<Request>, i: nat)
    requires i < |rs| && WellFormed(b)
    ensures FreeAll(b, Filter(rs[..i + 1], rule.drop))
         == if rule.drop(rs[i]) then FreeSeq(FreeAll(b, Filter(rs[..i], rule.drop)), rs[i].id)
            else FreeAll(b, Filter(rs[..i], rule.drop))
  {
    FilterNext(rs, i, rule.drop);
    var front := Filter(rs[..i], rule.drop);
    assert (front + [rs[i]])[..|front|] == front && front + [] == front;
  }

  /** What is kept of the part already swept still has distinct ids together with the rest. */
  lemma SweepDistinct(rule: Rule, rs: seq<Request>, i: nat)
    requires Distinct(rs) && i <= |rs|
    ensures Distinct(Filter(rs[..i], rule.keep) + rs[i..])
  {
    FilterDistinct(rs[..i], rule.keep);
    DistinctAppend(Filter(rs[..i], rule.keep), rs[i..]) by {
      assert forall x, y :: x in rs[..i] && y in rs[i..] ==> x.id != y.id;
    }
  }

  lemma SweptPools(kept: seq<Request>, r: Request, rest: seq<Request>)
    requires Distinct(kept + ([r] + rest))
    ensures Without(kept + ([r] + rest), r.id) == (kept + []) + rest
    ensures kept + ([r] + rest) == (kept + [r]) + rest
  {
    WithoutAt(kept, r, rest);
  }

  lemma SweptNext(rule: Rule, rs: seq<Request>, i: nat, running: seq<Request>, done: seq<Request>, r: Request)
    requires SweptTo(rule, rs, i, running, done) && i < |rs| && Distinct(rs) && Total(rule) && r == rs[i]
    ensures SweptTo(rule, rs, i + 1, if rule.drop(r) then Without(running, r.id) else running,
                    if rule.drop(r) then done + [r.(status := rule.status)] else done)
  {
    FilterTurn(rule, rs, i);
    SweepDistinct(rule, rs, i);
    var kept, rest := Filter(rs[..i], rule.keep), rs[i + 1..];
    assert rs[i..] == [r] + rest;
    SweptPools(kept, r, rest);
    assert SweptTo(rule, rs, i + 1, if rule.drop(r) then Without(running, r.id) else running,
                   if rule.drop(r) then done + [r.(status := rule.status)] else done);
  }

  /** A running request is not in the finished pool yet, however far the sweep has come. */
  lemma FreshToFinished(rule: Rule, rs: seq<Request>, i: nat, earlier: seq<Request>, done: seq<Request>)
    requires i < |rs| && Distinct(rs) && Ids(rs) !! Ids(earlier)
    requires done == AllWithStatus(Filter(rs[..i], rule.drop), rule.status)
    ensures rs[i].id !in Ids(earlier + done)
  {
    assert rs[i].id in Ids(rs);
    IdsAppend(earlier, done);
    forall x | x in done ensures x.id != rs[i].id {
      var k :| 0 <= k < |done| && done[k] == x;
      assert Filter(rs[..i], rule.drop)[k] in rs[..i];
    }
  }

  /** Pools and blocks after the first `i` requests. */
  ghost predicate Swept(rule: Rule, rs: seq<Request>, i: nat, q0: Queue, b0: Blocks, q: Queue, b: Blocks,
                        done: seq<Request>) {
    && SweptTo(rule, rs, i, q.running, done)
    && q.finished == q0.finished + done && q.waiting == q0.waiting && q.rejected == q0.rejected
    && WellFormed(b0) && b == FreeAll(b0, Filter(rs[..i], rule.drop))
  }

  function SweepOne(rule: Rule, q: Queue, r: Request): Queue {
    if rule.drop(r)
    then q.(running := Without(q.running, r.id), finished := q.finished + [r.(status := rule.status)])
    else q
  }

  lemma SweepTurn(rule: Rule, rs: seq<Request>, i: nat, q0: Queue, b0: Blocks, q: Queue, b: Blocks,
                  done: seq<Request>, r: Request)
    requires Swept(rule, rs, i, q0, b0, q, b, done) && i < |rs| && r == rs[i] && Total(rule)
    requires Distinct(rs) && Ids(rs) !! Ids(q0.finished)
    ensures WellFormed(b) && r.id !in Ids(q.finished)
    ensures Swept(rule, rs, i + 1, q0, b0, SweepOne(rule, q, r), if rule.drop(r) then FreeSeq(b, r.id) else b,
                  if rule.drop(r) then done + [r.(status := rule.status)] else done)
  {
    SweptNext(rule, rs, i, q.running, done, r);
    FreeTurn(rule, b0, rs, i);
    FreshToFinished(rule, rs, i, q0.finished, done);
    OneMoreDone(q0.finished, done, r.(status := rule.status));
  }

  lemma OneMoreDone(finished: seq<Request>, done: seq<Request>, r: Request)
    ensures finished + done + [r] == finished + (done + [r])
  {
  }
}

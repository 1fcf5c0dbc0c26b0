/** Requests as values, the four pools, and the sums the budgets talk about. */
module Requests {
  import opened Base

  /** A request together with its one sequence.  A request that was never scheduled owns no
      sequence yet and reads as Waiting with an empty history. */
  datatype Request = Request(
    id: nat,
    prompt: seq<Token>,
    maxTokens: int,
    status: Status,
    cursor: nat,
    output: seq<Token>,
    generated: nat)

  datatype Queue = Queue(
    waiting: seq<Request>,
    running: seq<Request>,
    finished: seq<Request>,
    rejected: seq<Request>)

  function NewRequest(id: nat, prompt: seq<Token>, maxTokens: int): Request {
    Request(id, prompt, maxTokens, Waiting, 0, [], 0)
  }

  predicate Prefilling(r: Request) { r.status == Prefill }

  predicate Decoding(r: Request) { r.status != Prefill }

  /** The finish test of the scheduler. */
  predicate ReachedLimit(r: Request) { r.generated >= r.maxTokens }

  predicate BelowLimit(r: Request) { !ReachedLimit(r) }

  function Filter(rs: seq<Request>, keep: Request -> bool): (r: seq<Request>)
    ensures forall x :: x in r <==> x in rs && keep(x)
    ensures |r| <= |rs|
  {
    if rs == [] then []
    else if keep(rs[0]) then [rs[0]] + Filter(rs[1..], keep)
    else Filter(rs[1..], keep)
  }

  lemma {:induction false} FilterAppend(a: seq<Request>, b: seq<Request>, keep: Request -> bool)
    ensures Filter(a + b, keep) == Filter(a, keep) + Filter(b, keep)
  {
    if a == [] {
      assert a + b == b;
    } else {
      assert (a + b)[1..] == a[1..] + b;
      FilterAppend(a[1..], b, keep);
    }
  }

  /** The loops filter one element at a time. */
  lemma FilterNext(rs: seq<Request>, i: nat, keep: Request -> bool)
    requires i < |rs|
    ensures Filter(rs[..i + 1], keep) == Filter(rs[..i], keep) + if keep(rs[i]) then [rs[i]] else []
  {
    assert rs[..i + 1] == rs[..i] + [rs[i]];
    FilterAppend(rs[..i], [rs[i]], keep);
  }

  lemma {:induction false} FilterAll(rs: seq<Request>, keep: Request -> bool)
    requires forall x :: x in rs ==> keep(x)
    ensures Filter(rs, keep) == rs
  {
    if rs != [] { FilterAll(rs[1..], keep); }
  }

  lemma {:induction false} FilterNone(rs: seq<Request>, keep: Request -> bool)
    requires forall x :: x in rs ==> !keep(x)
    ensures Filter(rs, keep) == []
  {
    if rs != [] { FilterNone(rs[1..], keep); }
  }

  function AllWithStatus(rs: seq<Request>, s: Status): (r: seq<Request>)
    ensures |r| == |rs| && forall i :: 0 <= i < |rs| ==> r[i] == rs[i].(status := s)
  {
    seq(|rs|, i requires 0 <= i < |rs| => rs[i].(status := s))
  }

  // ---------------------------------------------------------------- ids

  function Ids(rs: seq<Request>): set<nat> { set r | r in rs :: r.id }

  ghost predicate Distinct(rs: seq<Request>) {
    forall i, j :: 0 <= i < j < |rs| ==> rs[i].id != rs[j].id
  }

  lemma IdsAppend(a: seq<Request>, b: seq<Request>)
    ensures Ids(a + b) == Ids(a) + Ids(b)
  {
  }

  lemma DistinctAppend(a: seq<Request>, b: seq<Request>)
    requires Distinct(a) && Distinct(b) && Ids(a) !! Ids(b)
    ensures Distinct(a + b)
  {
    forall i, j | 0 <= i < j < |a + b| ensures (a + b)[i].id != (a + b)[j].id {
      if i < |a| <= j {
        assert a[i].id in Ids(a);
        assert b[j - |a|].id in Ids(b);
      }
    }
  }

  lemma {:induction false} FilterDistinct(rs: seq<Request>, keep: Request -> bool)
    requires Distinct(rs)
    ensures Distinct(Filter(rs, keep))
  {
    if rs != [] {
      FilterDistinct(rs[1..], keep);
      assert forall x :: x in rs[1..] ==> x.id != rs[0].id;
    }
  }

  lemma {:induction false} FilterCounts(rs: seq<Request>, keep: Request -> bool, drop: Request -> bool)
    requires forall x :: x in rs ==> keep(x) != drop(x)
    ensures |rs| == |Filter(rs, keep)| + |Filter(rs, drop)|
  {
    if rs != [] { FilterCounts(rs[1..], keep, drop); }
  }

  /** Splitting a pool by a test splits its ids. */
  lemma FilterSplits(rs: seq<Request>, keep: Request -> bool, drop: Request -> bool)
    requires Distinct(rs) && forall x :: x in rs ==> keep(x) != drop(x)
    ensures Distinct(Filter(rs, keep)) && Distinct(Filter(rs, drop))
    ensures Ids(rs) == Ids(Filter(rs, keep)) + Ids(Filter(rs, drop))
    ensures Ids(Filter(rs, keep)) !! Ids(Filter(rs, drop))
    ensures |rs| == |Filter(rs, keep)| + |Filter(rs, drop)|
  {
    FilterDistinct(rs, keep);
    FilterDistinct(rs, drop);
    FilterCounts(rs, keep, drop);
    forall a, b | a in Filter(rs, keep) && b in Filter(rs, drop) ensures a.id != b.id {
      if a.id == b.id { SameId(rs, a, b); }
    }
  }

  /** An id names at most one member of a pool. */
  lemma SameId(rs: seq<Request>, a: Request, b: Request)
    requires Distinct(rs) && a in rs && b in rs && a.id == b.id
    ensures a == b
  {
    var i :| 0 <= i < |rs| && rs[i] == a;
    var j :| 0 <= j < |rs| && rs[j] == b;
  }

  // ---------------------------------------------------------------- costs

  /** Positions whose keys and values are already in the cache. */
  function KvLen(r: Request): int {
    if r.status == Prefill then r.cursor else |r.prompt| + r.generated - 1
  }

  /** Positions in the cache once the next step has run. */
  function NextEnd(cfg: Config, r: Request): int {
    if r.status == Prefill then Min(r.cursor + cfg.chunkSize, |r.prompt|) else |r.prompt| + r.generated
  }

  /** Tokens the next step will process for a running request. */
  function Cost(cfg: Config, r: Request): int { NextEnd(cfg, r) - KvLen(r) }

  function TotalCost(cfg: Config, rs: seq<Request>): int {
    if rs == [] then 0 else Cost(cfg, rs[0]) + TotalCost(cfg, rs[1..])
  }

  function PrefillCost(cfg: Config, rs: seq<Request>): int {
    TotalCost(cfg, Filter(rs, Prefilling))
  }

  lemma {:induction false} TotalCostAppend(cfg: Config, a: seq<Request>, b: seq<Request>)
    ensures TotalCost(cfg, a + b) == TotalCost(cfg, a) + TotalCost(cfg, b)
  {
    if a == [] {
      assert a + b == b;
    } else {
      assert (a + b)[1..] == a[1..] + b;
      TotalCostAppend(cfg, a[1..], b);
    }
  }

  lemma PrefillCostAppend(cfg: Config, a: seq<Request>, b: seq<Request>)
    ensures PrefillCost(cfg, a + b) == PrefillCost(cfg, a) + PrefillCost(cfg, b)
  {
    FilterAppend(a, b, Prefilling);
    TotalCostAppend(cfg, Filter(a, Prefilling), Filter(b, Prefilling));
  }

  /** Every decode costs one token, so the total is the prefill cost plus the decode count. */
  lemma {:induction false} CostSplit(cfg: Config, rs: seq<Request>)
    ensures TotalCost(cfg, rs) == PrefillCost(cfg, rs) + |Filter(rs, Decoding)|
    ensures |rs| == |Filter(rs, Prefilling)| + |Filter(rs, Decoding)|
  {
    if rs != [] {
      CostSplit(cfg, rs[1..]);
      assert [rs[0]] + Filter(rs[1..], Prefilling) != [];
      assert ([rs[0]] + Filter(rs[1..], Prefilling))[1..] == Filter(rs[1..], Prefilling);
    }
  }

  /** Dropping requests never raises a sum of non-negative costs. */
  lemma {:induction false} CostOfFiltered(cfg: Config, rs: seq<Request>, keep: Request -> bool)
    requires forall x :: x in rs ==> Cost(cfg, x) >= 0
    ensures TotalCost(cfg, Filter(rs, keep)) <= TotalCost(cfg, rs)
    ensures PrefillCost(cfg, Filter(rs, keep)) <= PrefillCost(cfg, rs)
  {
    if rs != [] {
      var rest := Filter(rs[1..], keep);
      CostOfFiltered(cfg, rs[1..], keep);
      assert ([rs[0]] + rest)[1..] == rest;
      PrefillCostAppend(cfg, [rs[0]], rest);
      PrefillCostAppend(cfg, [rs[0]], rs[1..]);
      assert [rs[0]] + rs[1..] == rs;
      OneCost(cfg, rs[0]);
    }
  }

  lemma OneCost(cfg: Config, r: Request)
    ensures PrefillCost(cfg, [r]) == if Prefilling(r) then Cost(cfg, r) else 0
    ensures TotalCost(cfg, [r]) == Cost(cfg, r)
  {
    assert [r][1..] == [];
    assert TotalCost(cfg, [r]) == Cost(cfg, r) + TotalCost(cfg, []);
    assert Filter([], Prefilling) == [];
    assert Filter([r], Prefilling) == if Prefilling(r) then [r] else [];
  }

  /** Replacing every request by one that costs no more, and turning prefills into decodes only,
      never raises the sums. */
  lemma {:induction false} CostOfReplaced(cfg: Config, a: seq<Request>, b: seq<Request>)
    requires |a| == |b|
    requires forall i :: 0 <= i < |a| ==> 0 <= Cost(cfg, b[i]) <= Cost(cfg, a[i])
    requires forall i :: 0 <= i < |a| ==> (Prefilling(b[i]) ==> Prefilling(a[i]))
    ensures TotalCost(cfg, b) <= TotalCost(cfg, a)
    ensures PrefillCost(cfg, b) <= PrefillCost(cfg, a)
  {
    if a != [] {
      CostOfReplaced(cfg, a[1..], b[1..]);
      PrefillCostAppend(cfg, [a[0]], a[1..]);
      PrefillCostAppend(cfg, [b[0]], b[1..]);
      assert [a[0]] + a[1..] == a && [b[0]] + b[1..] == b;
      OneCost(cfg, a[0]);
      OneCost(cfg, b[0]);
    }
  }
}

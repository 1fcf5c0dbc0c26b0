/** The four pools as an object updated in place.  Each pool is an ordered dictionary keyed by the
    request id; here it is a sequence of requests. */
module RequestQueues {
  import opened Base
  import opened Requests

  /** What popping a key leaves. */
  function Without(rs: seq<Request>, id: nat): (w: seq<Request>)
    ensures forall r :: r in w <==> r in rs && r.id != id
  {
    if rs == [] then [] else (if rs[0].id == id then [] else [rs[0]]) + Without(rs[1..], id)
  }

  lemma {:induction false} WithoutAbsent(rs: seq<Request>, id: nat)
    requires forall r :: r in rs ==> r.id != id
    ensures Without(rs, id) == rs
  {
    if rs != [] { WithoutAbsent(rs[1..], id); }
  }

  lemma {:induction false} WithoutAppend(a: seq<Request>, b: seq<Request>, id: nat)
    ensures Without(a + b, id) == Without(a, id) + Without(b, id)
  {
    if a == [] {
      assert a + b == b;
    } else {
      assert (a + b)[1..] == a[1..] + b;
      WithoutAppend(a[1..], b, id);
    }
  }

  lemma WithoutHead(r: Request, b: seq<Request>)
    requires forall x :: x in b ==> x.id != r.id
    ensures Without([r] + b, r.id) == b
  {
    assert ([r] + b)[1..] == b;
    WithoutAbsent(b, r.id);
  }

  lemma DistinctAround(a: seq<Request>, r: Request, b: seq<Request>)
    requires Distinct(a + ([r] + b))
    ensures forall x :: x in a ==> x.id != r.id
    ensures forall x :: x in b ==> x.id != r.id
    ensures Distinct(a + b)
  {
    var all := a + ([r] + b);
    assert all[|a|] == r;
    assert forall i :: 0 <= i < |a| ==> all[i] == a[i];
    assert forall i :: 0 <= i < |b| ==> all[|a| + 1 + i] == b[i];
  }

  /** In a pool with distinct ids popping a key removes exactly the one place that has it. */
  lemma WithoutAt(a: seq<Request>, r: Request, b: seq<Request>)
    requires Distinct(a + ([r] + b))
    ensures Without(a + ([r] + b), r.id) == a + b
  {
    DistinctAround(a, r, b);
    WithoutAppend(a, [r] + b, r.id);
    WithoutAbsent(a, r.id);
    WithoutHead(r, b);
  }

  /** Overwriting the request that has the id of `n`. */
  function Replaced(rs: seq<Request>, n: Request): (w: seq<Request>)
    ensures |w| == |rs| && forall i :: 0 <= i < |rs| ==> w[i] == if rs[i].id == n.id then n else rs[i]
  {
    seq(|rs|, i requires 0 <= i < |rs| => if rs[i].id == n.id then n else rs[i])
  }

  /** Assigning a dictionary entry: an id that is there already keeps its place, a new one goes to
      the end. */
  function Put(rs: seq<Request>, r: Request): (w: seq<Request>)
    ensures r.id !in Ids(rs) ==> w == rs + [r]
  {
    if r.id in Ids(rs) then Replaced(rs, r) else rs + [r]
  }

  lemma ReplacedMembers(rs: seq<Request>, r: Request)
    requires r.id in Ids(rs)
    ensures forall x :: x in Replaced(rs, r) <==> x == r || (x in rs && x.id != r.id)
  {
    var w := Replaced(rs, r);
    var k :| 0 <= k < |rs| && rs[k].id == r.id;
    assert w[k] == r;
    forall x | x in rs && x.id != r.id ensures x in w {
      var i :| 0 <= i < |rs| && rs[i] == x;
      assert w[i] == x;
    }
  }

  lemma ReplacedIds(rs: seq<Request>, r: Request)
    requires r.id in Ids(rs)
    ensures Ids(Replaced(rs, r)) == Ids(rs)
    ensures Distinct(rs) ==> Distinct(Replaced(rs, r))
  {
    var w := Replaced(rs, r);
    assert forall i :: 0 <= i < |rs| ==> w[i].id == rs[i].id && rs[i] in rs && w[i] in w;
  }

  /** Whatever was there, afterwards the id names `r` alone and every other id what it named before. */
  lemma PutLaw(rs: seq<Request>, r: Request)
    requires Distinct(rs)
    ensures Distinct(Put(rs, r)) && Ids(Put(rs, r)) == Ids(rs) + {r.id}
    ensures forall x :: x in Put(rs, r) <==> x == r || (x in rs && x.id != r.id)
  {
    if r.id in Ids(rs) {
      ReplacedMembers(rs, r);
      ReplacedIds(rs, r);
    } else {
      assert Ids([r]) == {r.id};
      DistinctAppend(rs, [r]);
    }
  }

  /** Moving a request from one pool to another keeps both pools duplicate-free, keeps the ids of
      the two together and puts this one into the second alone. */
  lemma MoveLaw(from: seq<Request>, target: seq<Request>, r: Request)
    requires Distinct(from) && Distinct(target)
    ensures Distinct(Without(from, r.id)) && Distinct(Put(target, r))
    ensures Ids(Without(from, r.id)) == Ids(from) - {r.id} && r in Put(target, r)
    ensures Ids(Without(from, r.id)) + Ids(Put(target, r)) == Ids(from) + Ids(target) + {r.id}
    ensures Ids(from) !! Ids(target) ==> Ids(Without(from, r.id)) !! Ids(Put(target, r))
  {
    PutLaw(target, r);
    WithoutDistinct(from, r.id);
  }

  lemma {:induction false} WithoutDistinct(rs: seq<Request>, id: nat)
    requires Distinct(rs)
    ensures Distinct(Without(rs, id))
  {
    if rs != [] {
      WithoutDistinct(rs[1..], id);
      assert forall x :: x in rs[1..] ==> x.id != rs[0].id;
    }
  }

  /** The first request with the given id. */
  function FindId(rs: seq<Request>, id: nat): (r: Option<Request>)
    ensures r.Some? ==> r.value in rs && r.value.id == id
    ensures r.None? <==> forall x :: x in rs ==> x.id != id
  {
    if rs == [] then None
    else if rs[0].id == id then Some(rs[0])
    else FindId(rs[1..], id)
  }

  class RequestQueue {
    var waiting: seq<Request>
    var running: seq<Request>
    var finished: seq<Request>
    var rejected: seq<Request>

    ghost function View(): Queue reads this { Queue(waiting, running, finished, rejected) }

    constructor ()
      ensures View() == Queue([], [], [], [])
    {
      waiting, running, finished, rejected := [], [], [], [];
    }

    method Add(r: Request)
      modifies this`waiting
      ensures waiting == Put(old(waiting), r)
    {
      waiting := Put(waiting, r);
    }

    method MarkRunning(r: Request)
      modifies this`waiting, this`running
      ensures waiting == Without(old(waiting), r.id) && running == Put(old(running), r)
    {
      waiting := Without(waiting, r.id);
      running := Put(running, r);
    }

    method MarkFinished(r: Request)
      modifies this`running, this`finished
      ensures running == Without(old(running), r.id) && finished == Put(old(finished), r)
    {
      running := Without(running, r.id);
      finished := Put(finished, r);
    }

    method MarkRejected(r: Request)
      modifies this`waiting, this`rejected
      ensures waiting == Without(old(waiting), r.id) && rejected == Put(old(rejected), r)
    {
      waiting := Without(waiting, r.id);
      rejected := Put(rejected, r);
    }

    /** A running request changes in place. */
    method Update(r: Request)
      modifies this`running
      ensures running == Replaced(old(running), r)
    {
      running := Replaced(running, r);
    }

    /** Looks the id up in the pools in the order waiting, running, finished, rejected. */
    function GetById(id: nat): Option<Request>
      reads this
    {
      FindId(waiting + running + finished + rejected, id)
    }
  }
}

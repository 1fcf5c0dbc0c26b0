/** What the allocator's callbacks make of the dictionary of the fake executor. */
module FakeCallbacks {
  import opened Base
  import opened BlockSpec
  import opened BlockCoverage
  import opened Requests
  import opened ScheduleSpec
  import opened EngineSpec
  import opened StepLaws
  import opened FakeModels
  import opened FakeExecution

  type Lists = map<nat, seq<int>>

  /** `prepare_block` opens an empty list, `release_block` drops the list. */
  function OnAllocate(kv: Lists, pid: nat): Lists { kv[pid := []] }

  function OnFree(kv: Lists, pid: nat): Lists { kv - {pid} }

  /** Releasing references one by one, with the callback at each last reference. */
  function ReleaseCalling(p: Pool, kv: Lists, pids: seq<nat>): (r: (Pool, Lists))
    requires PoolShape(p) && forall k :: 0 <= k < |pids| ==> pids[k] < |p.refs|
    ensures r.0 == Release(p, pids)
    decreases |pids|
  {
    if pids == [] then (p, kv)
    else
      var pid := pids[|pids| - 1];
      var (q, m) := ReleaseCalling(p, kv, pids[..|pids| - 1]);
      (ReleaseOne(q, pid), if q.refs[pid] == 1 then OnFree(m, pid) else m)
  }

  /** Claiming blocks one by one, with the callback at each. */
  function ClaimCalling(kv: Lists, ids: seq<nat>): Lists
    decreases |ids|
  {
    if ids == [] then kv else OnAllocate(ClaimCalling(kv, ids[..|ids| - 1]), ids[|ids| - 1])
  }

  // ---------------------------------------------------------------- the net effect

  function Used(p: Pool): set<nat> { set q | 0 <= q < |p.free| && !p.free[q] }

  /** Lists are opened for the blocks in use only afterwards and dropped for those in use only before. */
  function Reconcile(before: set<nat>, after: set<nat>, kv: Lists): (m: Lists)
    ensures forall q :: q in m <==> if q in after then q !in before || q in kv else q !in before && q in kv
    ensures forall q :: q in m ==> m[q] == if q in after && q !in before then [] else kv[q]
  {
    map q | q in kv.Keys + after && if q in after then q !in before || q in kv else q !in before && q in kv
      :: if q in after && q !in before then [] else kv[q]
  }

  function Announce(a: Pool, c: Pool, kv: Lists): Lists { Reconcile(Used(a), Used(c), kv) }

  lemma ReconcileSame(u: set<nat>, kv: Lists)
    ensures Reconcile(u, u, kv) == kv
  {
  }

  lemma ReconcileOpen(u: set<nat>, v: set<nat>, kv: Lists, pid: nat)
    requires u <= v && pid !in u
    ensures Reconcile(u, v + {pid}, kv) == OnAllocate(Reconcile(u, v, kv), pid)
  {
  }

  lemma ReconcileDrop(u: set<nat>, v: set<nat>, kv: Lists, pid: nat)
    requires v <= u && pid in v
    ensures Reconcile(u, v - {pid}, kv) == OnFree(Reconcile(u, v, kv), pid)
  {
  }

  lemma ReconcileGrows(u: set<nat>, v: set<nat>, w: set<nat>, kv: Lists)
    requires u <= v && v <= w
    ensures Reconcile(v, w, Reconcile(u, v, kv)) == Reconcile(u, w, kv)
  {
  }

  lemma ReconcileShrinks(u: set<nat>, v: set<nat>, w: set<nat>, kv: Lists)
    requires w <= v && v <= u
    ensures Reconcile(v, w, Reconcile(u, v, kv)) == Reconcile(u, w, kv)
  {
  }

  ghost predicate Consistent(p: Pool) {
    PoolShape(p) && forall q :: 0 <= q < |p.refs| ==> (p.free[q] <==> p.refs[q] == 0)
  }

  /** Calling back at each last reference comes to the net effect of the release. */
  lemma {:induction false} ReleaseAnnounces(p: Pool, kv: Lists, pids: seq<nat>)
    requires Consistent(p) && forall k :: 0 <= k < |pids| ==> pids[k] < |p.refs|
    ensures Consistent(Release(p, pids)) && Used(Release(p, pids)) <= Used(p)
    ensures ReleaseCalling(p, kv, pids).1 == Announce(p, Release(p, pids), kv)
    decreases |pids|
  {
    if pids == [] {
      ReconcileSame(Used(p), kv);
    } else {
      var front, pid := pids[..|pids| - 1], pids[|pids| - 1];
      ReleaseAnnounces(p, kv, front);
      var q, n := Release(p, front), Release(p, pids);
      assert Used(n) == if q.refs[pid] == 1 then Used(q) - {pid} else Used(q);
      if q.refs[pid] == 1 { ReconcileDrop(Used(p), Used(q), kv, pid); }
    }
  }

  /** So does calling back at each claimed block. */
  lemma {:induction false} ClaimAnnounces(p: Pool, kv: Lists, ids: seq<nat>)
    requires PoolShape(p) && forall k :: 0 <= k < |ids| ==> ids[k] < |p.free| && p.free[ids[k]]
    ensures Used(Claim(p, ids)) == Used(p) + (set q | q in ids)
    ensures ClaimCalling(kv, ids) == Announce(p, Claim(p, ids), kv)
    decreases |ids|
  {
    if ids == [] {
      ReconcileSame(Used(p), kv);
    } else {
      var front, pid := ids[..|ids| - 1], ids[|ids| - 1];
      ClaimAnnounces(p, kv, front);
      assert ids == front + [pid];
      assert Used(Claim(p, ids)) == Used(Claim(p, front)) + {pid};
      ReconcileOpen(Used(p), Used(Claim(p, front)), kv, pid);
    }
  }

  /** Net effects compose while blocks are only returned, or only taken. */
  lemma AnnounceTwice(a: Pool, c: Pool, d: Pool, kv: Lists)
    requires (Used(a) <= Used(c) && Used(c) <= Used(d)) || (Used(d) <= Used(c) && Used(c) <= Used(a))
    ensures Announce(c, d, Announce(a, c, kv)) == Announce(a, d, kv)
  {
    if Used(a) <= Used(c) && Used(c) <= Used(d) {
      ReconcileGrows(Used(a), Used(c), Used(d), kv);
    } else {
      ReconcileShrinks(Used(a), Used(c), Used(d), kv);
    }
  }

  /** The dictionary keeps exactly one list per block in use. */
  lemma AnnounceKeys(a: Pool, c: Pool, kv: Lists)
    requires kv.Keys == Used(a)
    ensures Announce(a, c, kv).Keys == Used(c)
  {
  }

  // ---------------------------------------------------------------- phases of a step

  /** Freeing one sequence: the callbacks of its table. */
  function FreeSeqHeard(b: Blocks, kv: Lists, id: nat): Lists
    requires WellFormed(b)
  {
    if id !in b.tables then kv else ReleaseCalling(b.pool, kv, Pids(b.tables[id])).1
  }

  /** Freeing one sequence after the other. */
  function FreeAllHeard(b: Blocks, kv: Lists, rs: seq<Request>): Lists
    requires WellFormed(b)
    decreases |rs|
  {
    if rs == [] then kv
    else
      var k := |rs| - 1;
      FreeSeqHeard(FreeAll(b, rs[..k]), FreeAllHeard(b, kv, rs[..k]), rs[k].id)
  }

  /** One iteration of the growth loop: sharing a block calls nobody, claiming one opens its list. */
  function GrowOnceHeard(cfg: Config, b: Blocks, kv: Lists, id: nat, prompt: seq<Token>, pos: nat): Lists
    requires WellFormed(b) && id in b.tables
  {
    var h := HashAt(cfg, b, id, prompt, pos);
    if h.Some? && Usable(b, h.value) then kv
    else
      match Allocate(b.pool, 1)
      case None => kv
      case Some((ids, _)) => ClaimCalling(kv, ids)
  }

  function GrowHeard(cfg: Config, b: Blocks, kv: Lists, id: nat, prompt: seq<Token>, pos: nat): Lists
    requires WellFormed(b) && id in b.tables
    decreases pos / cfg.blockSize + 1 - |b.tables[id]|
  {
    if pos / cfg.blockSize < |b.tables[id]| then kv
    else
      var r := GrowOnce(cfg, b, id, prompt, pos);
      var m := GrowOnceHeard(cfg, b, kv, id, prompt, pos);
      if r.Oom? then m else GrowHeard(cfg, r.state, m, id, prompt, pos)
  }

  function EnsureBlockHeard(cfg: Config, b: Blocks, kv: Lists, id: nat, prompt: seq<Token>, pos: nat): Lists
    requires WellFormed(b)
  {
    GrowHeard(cfg, if id in b.tables then b else b.(tables := b.tables[id := []]), kv, id, prompt, pos)
  }

  function EnsureRangeHeard(cfg: Config, b: Blocks, kv: Lists, id: nat, prompt: seq<Token>, from: nat,
                            end: nat): Lists
    requires WellFormed(b) && from <= end
    decreases end - from
  {
    if from == end then kv
    else
      var r := EnsureBlock(cfg, b, id, prompt, from);
      var m := EnsureBlockHeard(cfg, b, kv, id, prompt, from);
      if r.Oom? then m else EnsureRangeHeard(cfg, r.state, m, id, prompt, from + 1, end)
  }

  function EnsureSeqHeard(cfg: Config, b: Blocks, kv: Lists, r: Request): Lists
    requires WellFormed(b)
  {
    if 0 <= KvLen(r) <= NextEnd(cfg, r)
    then EnsureRangeHeard(cfg, b, kv, r.id, r.prompt, KvLen(r), NextEnd(cfg, r))
    else kv
  }

  /** Allocating for a batch, up to the first position without a block. */
  function EnsureAllHeard(cfg: Config, b: Blocks, kv: Lists, rs: seq<Request>): Lists
    requires WellFormed(b)
    decreases |rs|
  {
    if rs == [] then kv
    else
      var k := |rs| - 1;
      var o := EnsureAll(cfg, b, rs[..k]);
      var m := EnsureAllHeard(cfg, b, kv, rs[..k]);
      if o.Oom? then m else EnsureSeqHeard(cfg, o.state, m, rs[k])
  }

  /** The dictionary after a phase that only returns blocks, or only takes some. */
  ghost predicate Returned(a: Pool, c: Pool, kv: Lists, m: Lists) {
    Used(c) <= Used(a) && m == Announce(a, c, kv)
  }

  ghost predicate Taken(a: Pool, c: Pool, kv: Lists, m: Lists) {
    Used(a) <= Used(c) && m == Announce(a, c, kv)
  }

  lemma ReturnedTwice(a: Pool, c: Pool, d: Pool, kv: Lists, m: Lists, n: Lists)
    requires Returned(a, c, kv, m) && Returned(c, d, m, n)
    ensures Returned(a, d, kv, n)
  {
    AnnounceTwice(a, c, d, kv);
  }

  lemma TakenTwice(a: Pool, c: Pool, d: Pool, kv: Lists, m: Lists, n: Lists)
    requires Taken(a, c, kv, m) && Taken(c, d, m, n)
    ensures Taken(a, d, kv, n)
  {
    AnnounceTwice(a, c, d, kv);
  }

  lemma NothingTaken(a: Pool, kv: Lists)
    ensures Taken(a, a, kv, kv) && Returned(a, a, kv, kv)
  {
    ReconcileSame(Used(a), kv);
  }

  /** The callbacks of retiring requests come to the net effect on the pool. */
  lemma {:induction false} FreeAllReturns(cfg: Config, b: Blocks, kv: Lists, rs: seq<Request>)
    requires Conserved(b)
    ensures Returned(b.pool, FreeAll(b, rs).pool, kv, FreeAllHeard(b, kv, rs))
    decreases |rs|
  {
    if rs == [] {
      NothingTaken(b.pool, kv);
    } else {
      var k := |rs| - 1;
      FreeAllReturns(cfg, b, kv, rs[..k]);
      FreeAllLaw(cfg, b, rs[..k]);
      var c, m := FreeAll(b, rs[..k]), FreeAllHeard(b, kv, rs[..k]);
      FreeSeqReturns(c, m, rs[k].id);
      ReturnedTwice(b.pool, c.pool, FreeSeq(c, rs[k].id).pool, kv, m, FreeSeqHeard(c, m, rs[k].id));
    }
  }

  lemma FreeSeqReturns(b: Blocks, kv: Lists, id: nat)
    requires Conserved(b)
    ensures Returned(b.pool, FreeSeq(b, id).pool, kv, FreeSeqHeard(b, kv, id))
  {
    if id in b.tables {
      ReleaseAnnounces(b.pool, kv, Pids(b.tables[id]));
    } else {
      NothingTaken(b.pool, kv);
    }
  }

  lemma GrowOnceTakes(cfg: Config, b: Blocks, kv: Lists, id: nat, prompt: seq<Token>, pos: nat)
    requires WellFormed(b) && id in b.tables
    ensures Taken(b.pool, GrowOnce(cfg, b, id, prompt, pos).state.pool, kv,
                  GrowOnceHeard(cfg, b, kv, id, prompt, pos))
  {
    NothingTaken(b.pool, kv);
    AllocateOne(b.pool);
    match Allocate(b.pool, 1)
    case None =>
    case Some((ids, pool)) => ClaimAnnounces(b.pool, kv, ids);
  }

  lemma {:induction false} GrowTakes(cfg: Config, b: Blocks, kv: Lists, id: nat, prompt: seq<Token>, pos: nat)
    requires WellFormed(b) && id in b.tables
    ensures Taken(b.pool, Grow(cfg, b, id, prompt, pos).state.pool, kv, GrowHeard(cfg, b, kv, id, prompt, pos))
    decreases pos / cfg.blockSize + 1 - |b.tables[id]|
  {
    if pos / cfg.blockSize < |b.tables[id]| {
      NothingTaken(b.pool, kv);
    } else {
      GrowOnceTakes(cfg, b, kv, id, prompt, pos);
      var r, m := GrowOnce(cfg, b, id, prompt, pos), GrowOnceHeard(cfg, b, kv, id, prompt, pos);
      if r.Ok? {
        GrowTakes(cfg, r.state, m, id, prompt, pos);
        TakenTwice(b.pool, r.state.pool, Grow(cfg, r.state, id, prompt, pos).state.pool, kv, m,
                   GrowHeard(cfg, r.state, m, id, prompt, pos));
      }
    }
  }

  lemma EnsureBlockTakes(cfg: Config, b: Blocks, kv: Lists, id: nat, prompt: seq<Token>, pos: nat)
    requires WellFormed(b)
    ensures Taken(b.pool, EnsureBlock(cfg, b, id, prompt, pos).state.pool, kv,
                  EnsureBlockHeard(cfg, b, kv, id, prompt, pos))
  {
    GrowTakes(cfg, if id in b.tables then b else b.(tables := b.tables[id := []]), kv, id, prompt, pos);
  }

  lemma {:induction false} EnsureRangeTakes(cfg: Config, b: Blocks, kv: Lists, id: nat, prompt: seq<Token>,
                                            from: nat, end: nat)
    requires WellFormed(b) && from <= end
    ensures Taken(b.pool, EnsureRange(cfg, b, id, prompt, from, end).state.pool, kv,
                  EnsureRangeHeard(cfg, b, kv, id, prompt, from, end))
    decreases end - from
  {
    if from == end {
      NothingTaken(b.pool, kv);
    } else {
      EnsureBlockTakes(cfg, b, kv, id, prompt, from);
      var r, m := EnsureBlock(cfg, b, id, prompt, from), EnsureBlockHeard(cfg, b, kv, id, prompt, from);
      if r.Ok? {
        EnsureRangeTakes(cfg, r.state, m, id, prompt, from + 1, end);
        TakenTwice(b.pool, r.state.pool, EnsureRange(cfg, r.state, id, prompt, from + 1, end).state.pool, kv, m,
                   EnsureRangeHeard(cfg, r.state, m, id, prompt, from + 1, end));
      }
    }
  }

  lemma EnsureSeqTakes(cfg: Config, b: Blocks, kv: Lists, r: Request)
    requires WellFormed(b)
    ensures Taken(b.pool, EnsureSeq(cfg, b, r).state.pool, kv, EnsureSeqHeard(cfg, b, kv, r))
  {
    NothingTaken(b.pool, kv);
    if 0 <= KvLen(r) <= NextEnd(cfg, r) {
      EnsureRangeTakes(cfg, b, kv, r.id, r.prompt, KvLen(r), NextEnd(cfg, r));
    }
  }

  /** The callbacks of allocating for a batch come to the net effect on the pool. */
  lemma {:induction false} EnsureAllTakes(cfg: Config, b: Blocks, kv: Lists, rs: seq<Request>)
    requires WellFormed(b)
    ensures Taken(b.pool, EnsureAll(cfg, b, rs).state.pool, kv, EnsureAllHeard(cfg, b, kv, rs))
    decreases |rs|
  {
    if rs == [] {
      NothingTaken(b.pool, kv);
    } else {
      var k := |rs| - 1;
      EnsureAllTakes(cfg, b, kv, rs[..k]);
      var o, m := EnsureAll(cfg, b, rs[..k]), EnsureAllHeard(cfg, b, kv, rs[..k]);
      if o.Ok? {
        EnsureSeqTakes(cfg, o.state, m, rs[k]);
        TakenTwice(b.pool, o.state.pool, EnsureSeq(cfg, o.state, rs[k]).state.pool, kv, m,
                   EnsureSeqHeard(cfg, o.state, m, rs[k]));
      }
    }
  }

  // ---------------------------------------------------------------- what the live tables see

  lemma {:induction false} OccursSomewhere(t: map<nat, seq<Entry>>, e: Entry) returns (id: nat, i: nat)
    requires Live(t)[e] > 0
    ensures id in t && i < |t[id]| && t[id][i] == e
    decreases |t|
  {
    var k := SomeKey(t);
    if e in t[k] {
      id := k;
      i :| 0 <= i < |t[k]| && t[k][i] == e;
    } else {
      MinusShrinks(t, k);
      id, i := OccursSomewhere(t - {k}, e);
    }
  }

  /** A block in a live table is not free. */
  lemma TabledIsUsed(b: Blocks, id: nat, i: nat)
    requires Conserved(b) && id in b.tables && i < |b.tables[id]|
    ensures b.tables[id][i].pid in Used(b.pool)
  {
    LiveContains(b.tables, id, i);
  }

  /** A block that appears in a table only later was free before. */
  lemma NewEntryWasFree(b: Blocks, c: Blocks, id: nat, i: nat)
    requires Conserved(b) && Conserved(c) && Exclusive(b) && Exclusive(c) && Extended(b, c)
    requires |b.pool.refs| == |c.pool.refs|
    requires id in b.tables && |b.tables[id]| <= i < |c.tables[id]|
    ensures c.tables[id][i].pid !in Used(b.pool)
  {
    var p := c.tables[id][i].pid;
    if p in Used(b.pool) {
      assert Occurrences(b.tables, p) > 0;
      var e := if Live(b.tables)[Entry(p, false)] > 0 then Entry(p, false) else Entry(p, true);
      var o, j := OccursSomewhere(b.tables, e);
      EntriesDistinct(c, o, j, id, i);
    }
  }

  /** A log held before is held after: old blocks keep their lists and new ones start empty. */
  lemma HoldingAnnounced(cfg: Config, vocab: int, b: Blocks, c: Blocks, kv: Lists, id: nat, promptLen: nat,
                         output: seq<Token>, n: int)
    requires vocab > 0 && Conserved(b) && Conserved(c) && id in c.tables
    requires Holding(cfg, vocab, b, kv, id, promptLen, output, n) && b.tables[id] <= c.tables[id]
    requires n <= Span(cfg.blockSize, |b.tables[id]|) || |b.tables[id]| == |c.tables[id]|
    requires forall i: nat :: |b.tables[id]| <= i < |c.tables[id]| ==> c.tables[id][i].pid !in Used(b.pool)
    ensures Holding(cfg, vocab, c, Announce(b.pool, c.pool, kv), id, promptLen, output, n)
  {
    var m := Announce(b.pool, c.pool, kv);
    forall i: nat | i < |c.tables[id]|
      ensures Stored(m, c.tables[id][i].pid) == Content(vocab, cfg.blockSize, promptLen, output, n, i)
    {
      TabledIsUsed(c, id, i);
      if i < |b.tables[id]| {
        TabledIsUsed(b, id, i);
        assert b.tables[id][i] == c.tables[id][i];
      } else {
        SpanMono(cfg.blockSize, |b.tables[id]|, i);
        ContentBeyond(vocab, cfg.blockSize, promptLen, output, n, i);
      }
    }
  }
}

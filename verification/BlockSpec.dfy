/** The block layer as values: a reference-counted pool, the logical-to-physical tables of the
    live sequences, and the prefix cache.  The classes of BlockManager.dfy are proved against
    these functions; the conservation laws are proved here. */
module BlockSpec {
  import opened Base

  datatype Entry = Entry(pid: nat, shared: bool)

  /** The two parallel lists of the allocator. */
  datatype Pool = Pool(free: seq<bool>, refs: seq<nat>)

  datatype Blocks = Blocks(
    pool: Pool,
    tables: map<nat, seq<Entry>>,
    hashes: map<nat, seq<int>>,
    cache: map<int, nat>)

  /** An operation that may run out of blocks still leaves the state it reached. */
  datatype Outcome<+T> = Ok(state: T) | Oom(state: T)

  // ---------------------------------------------------------------- the pool

  predicate PoolShape(p: Pool) { |p.free| == |p.refs| }

  /** The ids of the free blocks from `i` on, lowest first. */
  function FreeIds(free: seq<bool>, i: nat): (ids: seq<nat>)
    requires i <= |free|
    ensures forall k :: 0 <= k < |ids| ==> i <= ids[k] < |free|
    decreases |free| - i
  {
    if i == |free| then []
    else if free[i] then [i] + FreeIds(free, i + 1)
    else FreeIds(free, i + 1)
  }

  /** They are exactly the free blocks, in increasing order. */
  lemma {:induction false} FreeIdsLaw(free: seq<bool>, i: nat)
    requires i <= |free|
    ensures forall j, k :: 0 <= j < k < |FreeIds(free, i)| ==> FreeIds(free, i)[j] < FreeIds(free, i)[k]
    ensures forall q :: q in FreeIds(free, i) <==> i <= q < |free| && free[q]
    decreases |free| - i
  {
    if i < |free| { FreeIdsLaw(free, i + 1); }
  }

  /** What `allocate(n)` picks: the n lowest free blocks, or every free block when n is 0. */
  function Picked(free: seq<bool>, n: nat): seq<nat>
    requires n <= |FreeIds(free, 0)|
  {
    if n == 0 then FreeIds(free, 0) else FreeIds(free, 0)[..n]
  }

  function Claim(p: Pool, ids: seq<nat>): (r: Pool)
    requires PoolShape(p) && forall k :: 0 <= k < |ids| ==> ids[k] < |p.free|
    ensures PoolShape(r) && |r.free| == |p.free|
    decreases |ids|
  {
    if ids == [] then p
    else
      var k := |ids| - 1;
      var r := Claim(p, ids[..k]);
      Pool(r.free[ids[k] := false], r.refs[ids[k] := 1])
  }

  /** Claimed blocks leave the pool with one reference each; no other block is touched. */
  lemma {:induction false} ClaimLaw(p: Pool, ids: seq<nat>)
    requires PoolShape(p) && forall k :: 0 <= k < |ids| ==> ids[k] < |p.free|
    ensures forall q :: 0 <= q < |p.free| ==>
      Claim(p, ids).free[q] == (p.free[q] && q !in ids) && Claim(p, ids).refs[q] == if q in ids then 1 else p.refs[q]
    decreases |ids|
  {
    if ids != [] {
      var k := |ids| - 1;
      ClaimLaw(p, ids[..k]);
      assert ids == ids[..k] + [ids[k]];
    }
  }

  /** Claiming n blocks at once, or none when fewer are free. */
  function Allocate(p: Pool, n: nat): Option<(seq<nat>, Pool)>
    requires PoolShape(p)
  {
    if n > |FreeIds(p.free, 0)| then None
    else Some((Picked(p.free, n), Claim(p, Picked(p.free, n))))
  }

  lemma AllocateOne(p: Pool)
    requires PoolShape(p)
    ensures Allocate(p, 1).None? <==> forall q :: 0 <= q < |p.free| ==> !p.free[q]
    ensures Allocate(p, 1).Some? ==>
      (var (ids, r) := Allocate(p, 1).value;
      && |ids| == 1 && ids[0] < |p.free| && p.free[ids[0]]
      && (forall q :: 0 <= q < ids[0] ==> !p.free[q])
      && r == Pool(p.free[ids[0] := false], p.refs[ids[0] := 1]))
  {
    var ids := FreeIds(p.free, 0);
    FreeIdsLaw(p.free, 0);
    if |ids| == 0 {
      assert forall q :: 0 <= q < |p.free| && p.free[q] ==> q in ids;
    } else {
      assert ids[0] in ids;
      var one := ids[..1];
      assert one == [ids[0]] && one[..|one| - 1] == [];
      assert Claim(p, []) == p;
      assert forall q :: 0 <= q < ids[0] && p.free[q] ==> q in ids;
    }
  }

  /** What a request for a single block yields: the lowest free one. */
  function AllocateSingle(p: Pool): (r: Option<(nat, Pool)>)
    requires PoolShape(p)
    ensures r.Some? ==> r.value.0 < |p.free| && p.free[r.value.0]
    ensures r.Some? ==> r.value.1 == Pool(p.free[r.value.0 := false], p.refs[r.value.0 := 1])
  {
    AllocateOne(p);
    match Allocate(p, 1)
    case None => None
    case Some((ids, pool)) => Some((ids[0], pool))
  }

  function ReleaseOne(p: Pool, pid: nat): (r: Pool)
    requires PoolShape(p) && pid < |p.refs|
  {
    if p.refs[pid] == 0 then p
    else Pool(if p.refs[pid] == 1 then p.free[pid := true] else p.free,
              p.refs[pid := p.refs[pid] - 1])
  }

  function Release(p: Pool, pids: seq<nat>): (r: Pool)
    requires PoolShape(p) && forall k :: 0 <= k < |pids| ==> pids[k] < |p.refs|
    ensures PoolShape(r) && |r.refs| == |p.refs|
    decreases |pids|
  {
    if pids == [] then p
    else ReleaseOne(Release(p, pids[..|pids| - 1]), pids[|pids| - 1])
  }

  /** Dropping one reference per listed block saturates at zero and never touches other blocks;
      a block becomes free with its last reference. */
  lemma {:induction false} ReleaseLaw(p: Pool, pids: seq<nat>)
    requires PoolShape(p) && forall k :: 0 <= k < |pids| ==> pids[k] < |p.refs|
    ensures forall q :: 0 <= q < |p.refs| ==>
      Release(p, pids).refs[q] == if multiset(pids)[q] <= p.refs[q] then p.refs[q] - multiset(pids)[q] else 0
    ensures forall q :: 0 <= q < |p.refs| ==>
      Release(p, pids).free[q] == (p.free[q] || (p.refs[q] > 0 && Release(p, pids).refs[q] == 0))
    decreases |pids|
  {
    if pids != [] {
      var k := |pids| - 1;
      ReleaseLaw(p, pids[..k]);
      assert pids == pids[..k] + [pids[k]];
      assert multiset(pids) == multiset(pids[..k]) + multiset{pids[k]};
    }
  }

  function Retain(p: Pool, pid: nat): Pool
    requires PoolShape(p) && pid < |p.refs|
  {
    p.(refs := p.refs[pid := p.refs[pid] + 1])
  }

  // ---------------------------------------------------------------- the manager

  ghost predicate WellFormed(b: Blocks) {
    && PoolShape(b.pool)
    && (forall id, i :: id in b.tables && 0 <= i < |b.tables[id]| ==> b.tables[id][i].pid < |b.pool.refs|)
    && (forall h :: h in b.cache ==> b.cache[h] < |b.pool.refs|)
  }

  function Pids(es: seq<Entry>): (r: seq<nat>)
    ensures |r| == |es| && forall i :: 0 <= i < |es| ==> r[i] == es[i].pid
  {
    seq(|es|, i requires 0 <= i < |es| => es[i].pid)
  }

  /** One hash per logical block of the prompt; the last block may be partial. */
  function BlockHashes(cfg: Config, prompt: seq<Token>): (hs: seq<int>)
    ensures |hs| == CeilDiv(|prompt|, cfg.blockSize)
    decreases |prompt|
  {
    if prompt == [] then
      DivModUnique(cfg.blockSize - 1, cfg.blockSize, 0, cfg.blockSize - 1);
      []
    else
      var n := Min(cfg.blockSize, |prompt|);
      var rest := BlockHashes(cfg, prompt[n..]);
      CeilDivDrop(|prompt|, cfg.blockSize);
      [cfg.hash(prompt[..n])] + rest
  }

  lemma CeilDivDrop(a: int, b: int)
    requires a > 0 && b > 0
    ensures CeilDiv(a, b) == 1 + CeilDiv(a - Min(b, a), b)
  {
    if a >= b {
      DivModFacts(a - 1, b);
      DivModUnique(a + b - 1, b, (a - 1) / b + 1, (a - 1) % b);
      assert a - b + b - 1 == a - 1;
    } else {
      DivModUnique(a + b - 1, b, 1, a - 1);
      DivModUnique(b - 1, b, 0, b - 1);
    }
  }

  /** A cached block is usable while somebody still references it. */
  predicate Usable(b: Blocks, h: int)
    requires WellFormed(b)
  {
    h in b.cache && b.pool.refs[b.cache[h]] > 0
  }

  /** The read-only probe: the blocks of the longest usable prefix. */
  function Probe(b: Blocks, hs: seq<int>): seq<nat>
    requires WellFormed(b)
    decreases |hs|
  {
    if hs == [] || !Usable(b, hs[0]) then [] else [b.cache[hs[0]]] + Probe(b, hs[1..])
  }

  /** The prompt tokens the probe reports as cached; a partial last block is capped. */
  function ProbedTokens(cfg: Config, b: Blocks, prompt: seq<Token>): (n: nat)
    requires WellFormed(b)
    ensures n <= |prompt|
  {
    if cfg.prefixCaching
    then
      var k := |Probe(b, BlockHashes(cfg, prompt))|;
      MulMono(0, k, cfg.blockSize);
      Min(k * cfg.blockSize, |prompt|)
    else 0
  }

  function Append(b: Blocks, id: nat, e: Entry): Blocks
    requires id in b.tables
  {
    b.(tables := b.tables[id := b.tables[id] + [e]])
  }

  function ShareBlock(b: Blocks, id: nat, pid: nat): (r: Blocks)
    requires WellFormed(b) && id in b.tables && pid < |b.pool.refs|
    ensures WellFormed(r) && r.tables.Keys == b.tables.Keys && |r.pool.refs| == |b.pool.refs|
  {
    Append(b.(pool := Retain(b.pool, pid)), id, Entry(pid, true))
  }

  function ShareAll(b: Blocks, id: nat, hs: seq<int>): (r: Blocks)
    requires WellFormed(b) && id in b.tables
    ensures WellFormed(r) && r.tables.Keys == b.tables.Keys && |r.pool.refs| == |b.pool.refs|
    decreases |hs|
  {
    if hs == [] || !Usable(b, hs[0]) then b
    else ShareAll(ShareBlock(b, id, b.cache[hs[0]]), id, hs[1..])
  }

  /** Registering a sequence: an empty table, then the usable prefix of its prompt. */
  function AllocateForSeq(cfg: Config, b: Blocks, id: nat, prompt: seq<Token>): (r: Blocks)
    requires WellFormed(b)
    ensures WellFormed(r) && r.tables.Keys == b.tables.Keys + {id} && |r.pool.refs| == |b.pool.refs|
  {
    var b0 := b.(tables := b.tables[id := []]);
    if !cfg.prefixCaching then b0
    else
      var hs := BlockHashes(cfg, prompt);
      ShareAll(b0.(hashes := b0.hashes[id := hs]), id, hs)
  }

  /** The hash under which position `pos` of a prompt is cached, if it has one. */
  function HashAt(cfg: Config, b: Blocks, id: nat, prompt: seq<Token>, pos: nat): Option<int> {
    var logical := pos / cfg.blockSize;
    if pos < |prompt| && cfg.prefixCaching && id in b.hashes && 0 <= logical < |b.hashes[id]|
    then Some(b.hashes[id][logical]) else None
  }

  /** Claiming the lowest free block for `id` and registering it under its hash, if it has one. */
  function ClaimOne(b: Blocks, id: nat, h: Option<int>): (r: Outcome<Blocks>)
    requires WellFormed(b) && id in b.tables
    ensures WellFormed(r.state) && r.state.tables.Keys == b.tables.Keys
    ensures |r.state.pool.refs| == |b.pool.refs|
    ensures r.Ok? ==> |r.state.tables[id]| == |b.tables[id]| + 1
    ensures r.Oom? ==> r.state == b
  {
    match AllocateSingle(b.pool)
    case None => Oom(b)
    case Some((pid, pool)) =>
      Ok(Append(b.(pool := pool, cache := if h.Some? then b.cache[h.value := pid] else b.cache),
                id, Entry(pid, false)))
  }

  /** One iteration of the growth loop: share a usable cached block or claim a free one. */
  function GrowOnce(cfg: Config, b: Blocks, id: nat, prompt: seq<Token>, pos: nat): (r: Outcome<Blocks>)
    requires WellFormed(b) && id in b.tables
    ensures WellFormed(r.state) && r.state.tables.Keys == b.tables.Keys
    ensures |r.state.pool.refs| == |b.pool.refs|
    ensures r.Ok? ==> |r.state.tables[id]| == |b.tables[id]| + 1
    ensures r.Oom? ==> r.state == b
  {
    var h := HashAt(cfg, b, id, prompt, pos);
    if h.Some? && Usable(b, h.value) then Ok(ShareBlock(b, id, b.cache[h.value])) else ClaimOne(b, id, h)
  }

  function Grow(cfg: Config, b: Blocks, id: nat, prompt: seq<Token>, pos: nat): (r: Outcome<Blocks>)
    requires WellFormed(b) && id in b.tables
    ensures WellFormed(r.state) && r.state.tables.Keys == b.tables.Keys
    ensures |r.state.pool.refs| == |b.pool.refs|
    ensures r.Ok? ==> pos / cfg.blockSize < |r.state.tables[id]|
    decreases pos / cfg.blockSize + 1 - |b.tables[id]|
  {
    if pos / cfg.blockSize < |b.tables[id]| then Ok(b)
    else
      var r := GrowOnce(cfg, b, id, prompt, pos);
      if r.Oom? then r else Grow(cfg, r.state, id, prompt, pos)
  }

  /** Growing the table of a sequence until it covers `pos`. */
  function EnsureBlock(cfg: Config, b: Blocks, id: nat, prompt: seq<Token>, pos: nat): (r: Outcome<Blocks>)
    requires WellFormed(b)
    ensures WellFormed(r.state) && r.state.tables.Keys == b.tables.Keys + {id}
    ensures |r.state.pool.refs| == |b.pool.refs|
  {
    Grow(cfg, if id in b.tables then b else b.(tables := b.tables[id := []]), id, prompt, pos)
  }

  function FreeSeq(b: Blocks, id: nat): (r: Blocks)
    requires WellFormed(b)
    ensures WellFormed(r) && r.tables == b.tables - {id} && |r.pool.refs| == |b.pool.refs|
  {
    if id !in b.tables then b
    else Blocks(Release(b.pool, Pids(b.tables[id])), b.tables - {id}, b.hashes - {id}, b.cache)
  }

  // ---------------------------------------------------------------- conservation

  ghost function SomeKey(t: map<nat, seq<Entry>>): (id: nat)
    requires t != map[]
    ensures id in t
  {
    assert t.Keys != {};
    var id :| id in t; id
  }

  /** All table entries of all live sequences, with multiplicity. */
  ghost function Live(t: map<nat, seq<Entry>>): multiset<Entry>
    decreases |t|
  {
    if t == map[] then multiset{} else
      var id := SomeKey(t);
      MinusShrinks(t, id);
      multiset(t[id]) + Live(t - {id})
  }

  lemma MinusShrinks(t: map<nat, seq<Entry>>, id: nat)
    requires id in t
    ensures |t - {id}| < |t|
  {
    assert (t - {id}).Keys == t.Keys - {id};
    assert |t.Keys - {id}| < |t.Keys|;
  }

  lemma {:induction false} LiveAt(t: map<nat, seq<Entry>>, id: nat)
    requires id in t
    ensures Live(t) == multiset(t[id]) + Live(t - {id})
    decreases |t|
  {
    var k := SomeKey(t);
    if k != id {
      MinusShrinks(t, k);
      MinusShrinks(t, id);
      LiveAt(t - {k}, id);
      LiveAt(t - {id}, k);
      assert t - {k} - {id} == t - {id} - {k};
    }
  }

  lemma LiveUpdate(t: map<nat, seq<Entry>>, id: nat, es: seq<Entry>)
    ensures Live(t[id := es]) == multiset(es) + Live(t - {id})
  {
    LiveAt(t[id := es], id);
    assert t[id := es] - {id} == t - {id};
  }

  ghost function Occurrences(t: map<nat, seq<Entry>>, pid: nat): nat {
    Live(t)[Entry(pid, false)] + Live(t)[Entry(pid, true)]
  }

  /** Reference counts are exactly the live occurrences, free means unreferenced, and no block
      has two owners. */
  ghost predicate Conserved(b: Blocks) {
    && WellFormed(b)
    && forall p :: 0 <= p < |b.pool.refs| ==>
      && b.pool.refs[p] == Occurrences(b.tables, p)
      && (b.pool.free[p] <==> b.pool.refs[p] == 0)
      && Live(b.tables)[Entry(p, false)] <= 1
  }

  lemma {:induction false} PidsCount(es: seq<Entry>, p: nat)
    ensures multiset(Pids(es))[p] == multiset(es)[Entry(p, false)] + multiset(es)[Entry(p, true)]
    decreases |es|
  {
    if es != [] {
      var k := |es| - 1;
      PidsCount(es[..k], p);
      assert es == es[..k] + [es[k]];
      assert Pids(es) == Pids(es[..k]) + [es[k].pid];
    }
  }

  lemma AppendLive(b: Blocks, id: nat, e: Entry)
    requires id in b.tables
    ensures Live(Append(b, id, e).tables) == Live(b.tables) + multiset{e}
  {
    LiveUpdate(b.tables, id, b.tables[id] + [e]);
    LiveAt(b.tables, id);
  }

  lemma ShareConserves(b: Blocks, id: nat, pid: nat)
    requires Conserved(b) && id in b.tables && pid < |b.pool.refs| && b.pool.refs[pid] > 0
    ensures Conserved(ShareBlock(b, id, pid))
  {
    AppendLive(b.(pool := Retain(b.pool, pid)), id, Entry(pid, true));
  }

  lemma {:induction false} ShareAllConserves(b: Blocks, id: nat, hs: seq<int>)
    requires Conserved(b) && id in b.tables
    ensures Conserved(ShareAll(b, id, hs))
    decreases |hs|
  {
    if hs != [] && Usable(b, hs[0]) {
      ShareConserves(b, id, b.cache[hs[0]]);
      ShareAllConserves(ShareBlock(b, id, b.cache[hs[0]]), id, hs[1..]);
    }
  }

  lemma EmptyTableConserves(b: Blocks, id: nat)
    requires Conserved(b) && id !in b.tables
    ensures Conserved(b.(tables := b.tables[id := []]))
  {
    LiveUpdate(b.tables, id, []);
    assert b.tables - {id} == b.tables;
  }

  /** Registering a fresh sequence keeps the books. */
  lemma AllocateForSeqConserves(cfg: Config, b: Blocks, id: nat, prompt: seq<Token>)
    requires Conserved(b) && id !in b.tables
    ensures Conserved(AllocateForSeq(cfg, b, id, prompt))
  {
    EmptyTableConserves(b, id);
    var b0 := b.(tables := b.tables[id := []]);
    if cfg.prefixCaching {
      var hs := BlockHashes(cfg, prompt);
      ShareAllConserves(b0.(hashes := b0.hashes[id := hs]), id, hs);
    }
  }

  lemma GrowOnceConserves(cfg: Config, b: Blocks, id: nat, prompt: seq<Token>, pos: nat)
    requires Conserved(b) && id in b.tables
    ensures Conserved(GrowOnce(cfg, b, id, prompt, pos).state)
  {
    var h := HashAt(cfg, b, id, prompt, pos);
    if h.Some? && Usable(b, h.value) {
      ShareConserves(b, id, b.cache[h.value]);
    } else {
      match AllocateSingle(b.pool)
      case None =>
      case Some((pid, pool)) =>
        AppendLive(b.(pool := pool, cache := if h.Some? then b.cache[h.value := pid] else b.cache),
                   id, Entry(pid, false));
    }
  }

  lemma {:induction false} GrowConserves(cfg: Config, b: Blocks, id: nat, prompt: seq<Token>, pos: nat)
    requires Conserved(b) && id in b.tables
    ensures Conserved(Grow(cfg, b, id, prompt, pos).state)
    decreases pos / cfg.blockSize + 1 - |b.tables[id]|
  {
    if pos / cfg.blockSize >= |b.tables[id]| {
      GrowOnceConserves(cfg, b, id, prompt, pos);
      var r := GrowOnce(cfg, b, id, prompt, pos);
      if r.Ok? { GrowConserves(cfg, r.state, id, prompt, pos); }
    }
  }

  /** Growing a table keeps the books, whether or not the pool runs dry on the way. */
  lemma EnsureBlockConserves(cfg: Config, b: Blocks, id: nat, prompt: seq<Token>, pos: nat)
    requires Conserved(b)
    ensures Conserved(EnsureBlock(cfg, b, id, prompt, pos).state)
  {
    if id !in b.tables { EmptyTableConserves(b, id); }
    GrowConserves(cfg, if id in b.tables then b else b.(tables := b.tables[id := []]), id, prompt, pos);
  }

  /** Releasing a sequence keeps the books: its references, and only those, are given back. */
  lemma FreeSeqConserves(b: Blocks, id: nat)
    requires Conserved(b)
    ensures Conserved(FreeSeq(b, id))
  {
    if id in b.tables {
      LiveAt(b.tables, id);
      ReleaseLaw(b.pool, Pids(b.tables[id]));
      forall p | 0 <= p < |b.pool.refs|
        ensures multiset(Pids(b.tables[id]))[p] + Occurrences(b.tables - {id}, p) == b.pool.refs[p]
      {
        PidsCount(b.tables[id], p);
      }
    }
  }

  /** With no table left every block is free again. */
  lemma NoTablesAllFree(b: Blocks)
    requires Conserved(b) && b.tables == map[]
    ensures forall p :: 0 <= p < |b.pool.free| ==> b.pool.free[p]
  {
  }
}

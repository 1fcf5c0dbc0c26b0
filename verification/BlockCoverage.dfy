/** What growing a table does to it: coverage of positions, framing of the other tables,
    exclusive ownership without prefix caching, and agreement of probe and allocation. */
module BlockCoverage {
  import opened Base
  import opened BlockSpec

  /** `r` differs from `b` only in the table of `id`, which has been extended. */
  ghost predicate GrewOnly(b: Blocks, r: Blocks, id: nat) {
    && r.tables.Keys == b.tables.Keys
    && (forall k :: k in b.tables && k != id ==> r.tables[k] == b.tables[k])
    && (id in b.tables ==> b.tables[id] <= r.tables[id])
    && |r.pool.refs| == |b.pool.refs|
  }

  /** The table of `id` holds `n` positions, and no block more than `m` positions need. */
  ghost predicate Holds(cfg: Config, b: Blocks, id: nat, n: int, m: int) {
    id in b.tables && CeilDiv(n, cfg.blockSize) <= |b.tables[id]| <= CeilDiv(m, cfg.blockSize)
  }

  /** Positions asked for in order: each lies in an existing logical block or the next one. */
  lemma NextBlockOnly(pos: nat, bs: int, n: nat)
    requires bs > 0 && CeilDiv(pos, bs) <= n
    ensures pos / bs <= n
    ensures CeilDiv(pos + 1, bs) == pos / bs + 1
  {
    DivModFacts(pos, bs);
    DivModUnique(pos + 1 + bs - 1, bs, pos / bs + 1, pos % bs);
    CeilDivCovers(pos, bs, n);
    MulOrder(n + 1, pos / bs, bs);
  }

  /** The growth loop adds at most one block when every earlier position is covered. */
  lemma EnsureBlockLaw(cfg: Config, b: Blocks, id: nat, prompt: seq<Token>, pos: nat)
    requires WellFormed(b) && id in b.tables
    requires CeilDiv(pos, cfg.blockSize) <= |b.tables[id]|
    ensures
      var r := EnsureBlock(cfg, b, id, prompt, pos);
      && GrewOnly(b, r.state, id)
      && (r.Ok? ==> |r.state.tables[id]| == Max(|b.tables[id]|, CeilDiv(pos + 1, cfg.blockSize)))
      && (r.Ok? ==> |r.state.tables[id]| <= |b.tables[id]| + 1)
      && (r.Oom? ==> r.state == b)
  {
    NextBlockOnly(pos, cfg.blockSize, |b.tables[id]|);
    GrowOnceFrame(cfg, b, id, prompt, pos);
    var once := GrowOnce(cfg, b, id, prompt, pos);
    if pos / cfg.blockSize == |b.tables[id]| && once.Ok? {
      assert Grow(cfg, once.state, id, prompt, pos) == once;
    }
  }

  lemma GrowOnceFrame(cfg: Config, b: Blocks, id: nat, prompt: seq<Token>, pos: nat)
    requires WellFormed(b) && id in b.tables
    ensures GrewOnly(b, GrowOnce(cfg, b, id, prompt, pos).state, id)
  {
    AllocateOne(b.pool);
  }

  /** Ensuring the positions of one sequence for one step. */
  function EnsureRange(cfg: Config, b: Blocks, id: nat, prompt: seq<Token>, from: nat, end: nat): (r: Outcome<Blocks>)
    requires WellFormed(b) && from <= end
    ensures WellFormed(r.state) && |r.state.pool.refs| == |b.pool.refs|
    decreases end - from
  {
    if from == end then Ok(b)
    else
      var r := EnsureBlock(cfg, b, id, prompt, from);
      if r.Oom? then r else EnsureRange(cfg, r.state, id, prompt, from + 1, end)
  }

  lemma GrewOnlyTrans(a: Blocks, b: Blocks, c: Blocks, id: nat)
    requires GrewOnly(a, b, id) && GrewOnly(b, c, id)
    ensures GrewOnly(a, c, id)
  {
  }

  lemma CeilDivMono(a: int, c: int, b: int)
    requires b > 0 && a <= c
    ensures CeilDiv(a, b) <= CeilDiv(c, b)
  {
    CeilDivCovers(c, b, CeilDiv(c, b));
    CeilDivCovers(a, b, CeilDiv(c, b));
  }

  /** After a step's positions are ensured the table is exactly as long as they need. */
  lemma {:induction false} EnsureRangeLaw(cfg: Config, b: Blocks, id: nat, prompt: seq<Token>, from: nat, end: nat)
    requires WellFormed(b) && from <= end && Holds(cfg, b, id, from, end)
    ensures
      var r := EnsureRange(cfg, b, id, prompt, from, end);
      && GrewOnly(b, r.state, id)
      && Holds(cfg, r.state, id, from, end)
      && (r.Ok? ==> |r.state.tables[id]| == CeilDiv(end, cfg.blockSize))
    decreases end - from
  {
    if from < end {
      EnsureBlockLaw(cfg, b, id, prompt, from);
      var r := EnsureBlock(cfg, b, id, prompt, from);
      CeilDivMono(from, from + 1, cfg.blockSize);
      CeilDivMono(from + 1, end, cfg.blockSize);
      if r.Ok? {
        EnsureRangeLaw(cfg, r.state, id, prompt, from + 1, end);
        GrewOnlyTrans(b, r.state, EnsureRange(cfg, r.state, id, prompt, from + 1, end).state, id);
      }
    }
  }

  lemma {:induction false} EnsureRangeConserves(cfg: Config, b: Blocks, id: nat, prompt: seq<Token>, from: nat,
                                                end: nat)
    requires Conserved(b) && from <= end
    ensures Conserved(EnsureRange(cfg, b, id, prompt, from, end).state)
    decreases end - from
  {
    if from < end {
      EnsureBlockConserves(cfg, b, id, prompt, from);
      var r := EnsureBlock(cfg, b, id, prompt, from);
      if r.Ok? { EnsureRangeConserves(cfg, r.state, id, prompt, from + 1, end); }
    }
  }

  // ---------------------------------------------------------------- probe and allocation

  /** The entries that admission installs are exactly the blocks the probe reported. */
  lemma {:induction false} ShareAllIsProbe(b: Blocks, id: nat, hs: seq<int>)
    requires WellFormed(b) && id in b.tables
    ensures ShareAll(b, id, hs).tables
      == b.tables[id := b.tables[id] + SharedEntries(Probe(b, hs))]
    ensures ShareAll(b, id, hs).hashes == b.hashes && ShareAll(b, id, hs).cache == b.cache
    decreases |hs|
  {
    if hs == [] || !Usable(b, hs[0]) {
      assert b.tables[id] + SharedEntries([]) == b.tables[id];
      assert b.tables == b.tables[id := b.tables[id]];
    } else {
      var pid := b.cache[hs[0]];
      var b1 := ShareBlock(b, id, pid);
      ProbeStable(b, b1, hs[1..]);
      ShareAllIsProbe(b1, id, hs[1..]);
      SharedEntriesGrow(b.tables[id], pid, Probe(b, hs[1..]));
      SameTable(b.tables, id, b1.tables[id], b.tables[id] + SharedEntries(Probe(b, hs)));
    }
  }

  lemma SharedEntriesGrow(table: seq<Entry>, pid: nat, pids: seq<nat>)
    ensures table + [Entry(pid, true)] + SharedEntries(pids) == table + SharedEntries([pid] + pids)
  {
    assert SharedEntries([pid] + pids) == [Entry(pid, true)] + SharedEntries(pids);
  }

  lemma SameTable(t: map<nat, seq<Entry>>, id: nat, first: seq<Entry>, second: seq<Entry>)
    ensures t[id := first][id := second] == t[id := second]
  {
  }

  function SharedEntries(pids: seq<nat>): (r: seq<Entry>)
    ensures |r| == |pids| && forall i :: 0 <= i < |pids| ==> r[i] == Entry(pids[i], true)
  {
    seq(|pids|, i requires 0 <= i < |pids| => Entry(pids[i], true))
  }

  lemma {:induction false} ProbeStable(b: Blocks, r: Blocks, hs: seq<int>)
    requires WellFormed(b) && WellFormed(r) && b.cache == r.cache && |b.pool.refs| == |r.pool.refs|
    requires forall p :: 0 <= p < |b.pool.refs| ==> (b.pool.refs[p] > 0 <==> r.pool.refs[p] > 0)
    ensures Probe(b, hs) == Probe(r, hs)
    decreases |hs|
  {
    if hs != [] && Usable(b, hs[0]) { ProbeStable(b, r, hs[1..]); }
  }

  lemma {:induction false} ProbeLength(b: Blocks, hs: seq<int>)
    requires WellFormed(b)
    ensures |Probe(b, hs)| <= |hs|
    decreases |hs|
  {
    if hs != [] && Usable(b, hs[0]) { ProbeLength(b, hs[1..]); }
  }

  lemma CappedPrefix(k: nat, p: nat, bs: int)
    requires bs > 0 && k <= CeilDiv(p, bs)
    ensures 0 <= Min(k * bs, p) && CeilDiv(Min(k * bs, p), bs) == k
  {
    MulMono(0, k, bs);
    var n := Min(k * bs, p);
    CeilDivCovers(n, bs, k);
    CeilDivCovers(n, bs, k - 1);
    CeilDivCovers(p, bs, k - 1);
    MulOrder(k, k - 1, bs);
  }

  lemma ProbedBlocks(cfg: Config, b: Blocks, prompt: seq<Token>)
    requires WellFormed(b)
    ensures CeilDiv(ProbedTokens(cfg, b, prompt), cfg.blockSize)
      == if cfg.prefixCaching then |Probe(b, BlockHashes(cfg, prompt))| else 0
  {
    if cfg.prefixCaching {
      ProbeLength(b, BlockHashes(cfg, prompt));
      CappedPrefix(|Probe(b, BlockHashes(cfg, prompt))|, |prompt|, cfg.blockSize);
    } else {
      DivModUnique(cfg.blockSize - 1, cfg.blockSize, 0, cfg.blockSize - 1);
    }
  }

  /** What the scheduler charged for is what admission installs: the new table is the probed
      prefix, it holds exactly the cached tokens, and no other table moves. */
  lemma ProbeAgreesWithAllocation(cfg: Config, b: Blocks, id: nat, prompt: seq<Token>)
    requires WellFormed(b) && id !in b.tables
    ensures
      var r := AllocateForSeq(cfg, b, id, prompt);
      && r.tables == b.tables[id :=
           if cfg.prefixCaching then SharedEntries(Probe(b, BlockHashes(cfg, prompt))) else []]
      && |r.tables[id]| == CeilDiv(ProbedTokens(cfg, b, prompt), cfg.blockSize)
  {
    ProbedBlocks(cfg, b, prompt);
    if cfg.prefixCaching {
      var hs := BlockHashes(cfg, prompt);
      var b0 := b.(tables := b.tables[id := []]);
      var b1 := b0.(hashes := b0.hashes[id := hs]);
      ShareAllIsProbe(b1, id, hs);
      ProbeStable(b, b1, hs);
      assert [] + SharedEntries(Probe(b, hs)) == SharedEntries(Probe(b, hs));
    }
  }

  // ---------------------------------------------------------------- without prefix caching

  /** No entry is shared and nothing is cached. */
  ghost predicate Exclusive(b: Blocks) {
    && b.cache == map[]
    && forall id, i :: id in b.tables && 0 <= i < |b.tables[id]| ==> !b.tables[id][i].shared
  }

  lemma {:induction false} EnsureRangeExclusive(cfg: Config, b: Blocks, id: nat, prompt: seq<Token>, from: nat,
                                                end: nat)
    requires WellFormed(b) && from <= end && Exclusive(b) && !cfg.prefixCaching
    ensures Exclusive(EnsureRange(cfg, b, id, prompt, from, end).state)
    decreases end - from
  {
    if from < end {
      var b0 := if id in b.tables then b else b.(tables := b.tables[id := []]);
      GrowExclusive(cfg, b0, id, prompt, from);
      var r := EnsureBlock(cfg, b, id, prompt, from);
      if r.Ok? { EnsureRangeExclusive(cfg, r.state, id, prompt, from + 1, end); }
    }
  }

  lemma {:induction false} GrowExclusive(cfg: Config, b: Blocks, id: nat, prompt: seq<Token>, pos: nat)
    requires WellFormed(b) && id in b.tables && Exclusive(b) && !cfg.prefixCaching
    ensures Exclusive(Grow(cfg, b, id, prompt, pos).state)
    decreases pos / cfg.blockSize + 1 - |b.tables[id]|
  {
    if pos / cfg.blockSize >= |b.tables[id]| {
      AllocateOne(b.pool);
      var r := GrowOnce(cfg, b, id, prompt, pos);
      if r.Ok? { GrowExclusive(cfg, r.state, id, prompt, pos); }
    }
  }

  lemma LiveContains(t: map<nat, seq<Entry>>, id: nat, i: nat)
    requires id in t && i < |t[id]|
    ensures Live(t)[t[id][i]] >= 1
  {
    LiveAt(t, id);
    assert t[id][i] in multiset(t[id]);
  }

  /** Unique ownership: without sharing, two different places in the tables never name the same
      physical block. */
  lemma EntriesDistinct(b: Blocks, id1: nat, i1: nat, id2: nat, i2: nat)
    requires Conserved(b) && Exclusive(b)
    requires id1 in b.tables && i1 < |b.tables[id1]| && id2 in b.tables && i2 < |b.tables[id2]|
    requires b.tables[id1][i1].pid == b.tables[id2][i2].pid
    ensures id1 == id2 && i1 == i2
  {
    var t := b.tables;
    var e := t[id1][i1];
    LiveAt(t, id1);
    LiveContains(t, id1, i1);
    if id1 != id2 {
      assert (t - {id1})[id2] == t[id2];
      LiveContains(t - {id1}, id2, i2);
      assert false;
    }
    if i1 < i2 { CountTwice(t[id1], i1, i2); }
    if i2 < i1 { CountTwice(t[id1], i2, i1); }
  }

  lemma CountTwice(es: seq<Entry>, i: nat, j: nat)
    requires i < j < |es| && es[i] == es[j]
    ensures multiset(es)[es[i]] >= 2
  {
    assert es == es[..j] + es[j..];
    assert es[i] in multiset(es[..j]);
    assert es[j] in multiset(es[j..]);
  }

  // ---------------------------------------------------------------- how many blocks are in use

  /** With a single live table, a growth fails only when that table already spans the pool. */
  lemma OneTableOom(cfg: Config, b: Blocks, id: nat, prompt: seq<Token>, pos: nat)
    requires Conserved(b) && b.tables.Keys == {id} && |b.tables[id]| < |b.pool.refs|
    ensures GrowOnce(cfg, b, id, prompt, pos).Ok?
  {
    AllocateOne(b.pool);
    LiveAt(b.tables, id);
    assert b.tables - {id} == map[];
    var p := UnusedBlock(b.tables[id], |b.pool.refs|);
    PidsCount(b.tables[id], p);
    assert b.pool.refs[p] == 0;
  }

  /** Pigeonhole: a table shorter than the pool misses some block. */
  lemma {:induction false} UnusedBlock(es: seq<Entry>, n: nat) returns (p: nat)
    requires |es| < n
    ensures p < n && multiset(Pids(es))[p] == 0
    decreases n
  {
    var used := set i | 0 <= i < |es| :: es[i].pid;
    SetOfFew(es, |es|);
    if Below(n) <= used { SubsetSize(Below(n), used); }
    p :| p in Below(n) && p !in used;
    assert p !in Pids(es);
  }

  lemma {:induction false} SetOfFew(es: seq<Entry>, k: nat)
    requires k <= |es|
    ensures |set i | 0 <= i < k :: es[i].pid| <= k
  {
    if k > 0 {
      SetOfFew(es, k - 1);
      var s := set i | 0 <= i < k - 1 :: es[i].pid;
      assert (set i | 0 <= i < k :: es[i].pid) == s + {es[k - 1].pid};
    }
  }

  ghost function Below(n: nat): (s: set<nat>)
    ensures |s| == n && forall q :: q in s <==> 0 <= q < n
  {
    if n == 0 then {} else Below(n - 1) + {n - 1}
  }

  lemma {:induction false} SubsetSize<T>(a: set<T>, b: set<T>)
    requires a <= b
    ensures |a| <= |b|
    decreases |a|
  {
    if a != {} {
      var x :| x in a;
      SubsetSize(a - {x}, b - {x});
    }
  }
}

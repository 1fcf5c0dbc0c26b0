/** What a prefix hit is worth.  A hit is accepted on a reference count alone, so it may lead to a
    block that was taken over for other tokens since it was cached.  Here is a run in which it does,
    and the exact condition under which the cache stays honest. */
module PrefixHonesty {
  import opened Base
  import opened BlockSpec
  import opened BlockCoverage
  import opened PrefixLaws

  /** Sequence `id` holds its block `i` under hash `h`. */
  predicate HeldUnder(b: Blocks, id: nat, i: nat, h: int) {
    id in b.hashes && i < |b.hashes[id]| && b.hashes[id][i] == h
  }

  predicate HolderAgrees(b: Blocks, h: int, id: nat, i: nat)
    requires h in b.cache && id in b.tables && i < |b.tables[id]|
  {
    b.tables[id][i].pid == b.cache[h] ==> HeldUnder(b, id, i, h)
  }

  /** Whoever holds the block that a hash leads to holds it under that hash. */
  ghost predicate Honest(b: Blocks) {
    && WellFormed(b)
    && forall h, id, i :: h in b.cache && id in b.tables && 0 <= i < |b.tables[id]| ==> HolderAgrees(b, h, id, i)
  }

  // ---------------------------------------------------------------- what honesty gives

  lemma {:induction false} LiveHolder(t: map<nat, seq<Entry>>, e: Entry) returns (id: nat, i: nat)
    requires Live(t)[e] > 0
    ensures id in t && i < |t[id]| && t[id][i] == e
    decreases |t|
  {
    var k := SomeKey(t);
    MinusShrinks(t, k);
    if multiset(t[k])[e] > 0 {
      assert e in t[k];
      id := k;
      i :| 0 <= i < |t[k]| && t[k][i] == e;
    } else {
      id, i := LiveHolder(t - {k}, e);
    }
  }

  lemma UsedByOne(b: Blocks, h: int) returns (id: nat, i: nat)
    requires Conserved(b) && Usable(b, h)
    ensures id in b.tables && i < |b.tables[id]| && b.tables[id][i].pid == b.cache[h]
  {
    var pid := b.cache[h];
    if Live(b.tables)[Entry(pid, false)] > 0 {
      id, i := LiveHolder(b.tables, Entry(pid, false));
    } else {
      id, i := LiveHolder(b.tables, Entry(pid, true));
    }
  }

  /** An honest hit is a real one: some live sequence holds the block under the very hash that was
      asked for, and nobody holds it under another one. */
  lemma HonestHit(b: Blocks, hs: seq<int>, k: nat) returns (id: nat, i: nat)
    requires Conserved(b) && Honest(b) && k < |Probe(b, hs)|
    ensures k < |hs|
    ensures id in b.tables && i < |b.tables[id]| && b.tables[id][i].pid == Probe(b, hs)[k] && HeldUnder(b, id, i, hs[k])
    ensures forall x, j :: x in b.tables && 0 <= j < |b.tables[x]| && b.tables[x][j].pid == Probe(b, hs)[k] ==>
      HeldUnder(b, x, j, hs[k])
  {
    ProbeIsLongest(b, hs);
    id, i := UsedByOne(b, hs[k]);
    assert HolderAgrees(b, hs[k], id, i);
    forall x, j | x in b.tables && 0 <= j < |b.tables[x]| && b.tables[x][j].pid == Probe(b, hs)[k]
      ensures HeldUnder(b, x, j, hs[k])
    {
      assert HolderAgrees(b, hs[k], x, j);
    }
  }

  /** Usable hashes that lead to one block are one hash. */
  lemma HonestIsUnambiguous(b: Blocks, g: int, h: int)
    requires Conserved(b) && Honest(b) && Usable(b, h) && g in b.cache && b.cache[g] == b.cache[h]
    ensures g == h
  {
    var id, i := UsedByOne(b, h);
    assert HolderAgrees(b, g, id, i) && HolderAgrees(b, h, id, i);
  }

  // ---------------------------------------------------------------- who keeps it

  lemma ArrivalStaysHonest(cfg: Config, b: Blocks, id: nat, prompt: seq<Token>)
    requires Conserved(b) && Honest(b) && cfg.prefixCaching && id !in b.tables
    ensures Honest(AllocateForSeq(cfg, b, id, prompt))
  {
    var n := AllocateForSeq(cfg, b, id, prompt);
    var hs := BlockHashes(cfg, prompt);
    ArrivesRegistered(cfg, b, id, prompt);
    ProbeAgreesWithAllocation(cfg, b, id, prompt);
    ProbeIsLongest(b, hs);
    forall h, x, i | h in n.cache && x in n.tables && 0 <= i < |n.tables[x]| ensures HolderAgrees(n, h, x, i) {
      if x != id {
        assert HolderAgrees(b, h, x, i);
      } else if n.tables[id][i].pid == n.cache[h] {
        HonestIsUnambiguous(b, h, hs[i]);
      }
    }
  }

  lemma LeavingStaysHonest(b: Blocks, id: nat)
    requires Honest(b)
    ensures Honest(FreeSeq(b, id))
  {
    var n := FreeSeq(b, id);
    forall h, x, i | h in n.cache && x in n.tables && 0 <= i < |n.tables[x]| ensures HolderAgrees(n, h, x, i) {
      assert HolderAgrees(b, h, x, i);
    }
  }

  /** No hash other than `h` is left over from an earlier use of the lowest free block. */
  ghost predicate NothingLeftOver(b: Blocks, h: Option<int>)
    requires WellFormed(b)
  {
    AllocateSingle(b.pool).Some? ==>
      forall g :: g in b.cache && b.cache[g] == AllocateSingle(b.pool).value.0 ==> Some(g) == h
  }

  /** Growing a table by a shared block keeps the cache honest. */
  lemma SharingStaysHonest(b: Blocks, id: nat, h: int)
    requires Conserved(b) && Honest(b) && id in b.tables && Usable(b, h) && HeldUnder(b, id, |b.tables[id]|, h)
    ensures Honest(ShareBlock(b, id, b.cache[h]))
  {
    var n := ShareBlock(b, id, b.cache[h]);
    forall g, x, i | g in n.cache && x in n.tables && 0 <= i < |n.tables[x]| ensures HolderAgrees(n, g, x, i) {
      if x != id || i < |b.tables[id]| {
        assert HolderAgrees(b, g, x, i);
      } else if n.cache[g] == b.cache[h] {
        HonestIsUnambiguous(b, g, h);
      }
    }
  }

  lemma FreeIsUnheld(b: Blocks, id: nat, i: nat, pid: nat)
    requires Conserved(b) && id in b.tables && i < |b.tables[id]| && pid < |b.pool.free| && b.pool.free[pid]
    ensures b.tables[id][i].pid != pid
  {
    LiveContains(b.tables, id, i);
  }

  /** Claiming a free block keeps the cache honest exactly when no other hash still leads to it. */
  lemma ClaimHonestIff(b: Blocks, id: nat, h: Option<int>)
    requires Conserved(b) && Honest(b) && id in b.tables && (h.Some? ==> !Usable(b, h.value))
    requires forall g :: HeldUnder(b, id, |b.tables[id]|, g) <==> h == Some(g)
    ensures Honest(ClaimOne(b, id, h).state) <==> NothingLeftOver(b, h)
  {
    var r := AllocateSingle(b.pool);
    if r.Some? {
      var n, pid, k := ClaimOne(b, id, h).state, r.value.0, |b.tables[id]|;
      if NothingLeftOver(b, h) {
        forall g, x, i | g in n.cache && x in n.tables && 0 <= i < |n.tables[x]| ensures HolderAgrees(n, g, x, i) {
          ClaimedAgrees(b, id, h, g, x, i);
        }
      } else {
        var g :| g in b.cache && b.cache[g] == pid && Some(g) != h;
        assert n.tables[id][k].pid == pid && !HeldUnder(n, id, k, g);
        assert !HolderAgrees(n, g, id, k);
      }
    }
  }

  lemma ClaimedAgrees(b: Blocks, id: nat, h: Option<int>, g: int, x: nat, i: nat)
    requires Conserved(b) && Honest(b) && id in b.tables && AllocateSingle(b.pool).Some? && NothingLeftOver(b, h)
    requires forall c :: HeldUnder(b, id, |b.tables[id]|, c) <==> h == Some(c)
    requires var n := ClaimOne(b, id, h).state; g in n.cache && x in n.tables && i < |n.tables[x]|
    ensures HolderAgrees(ClaimOne(b, id, h).state, g, x, i)
  {
    var pid := AllocateSingle(b.pool).value.0;
    if x != id || i < |b.tables[id]| {
      FreeIsUnheld(b, x, i, pid);
      if h != Some(g) { assert HolderAgrees(b, g, x, i); }
    }
  }

  /** When growth keeps the cache honest: if it shares a usable block, if it fails, and if the block
      it takes is not left over in the cache from an earlier use. */
  lemma GrowthHonestIff(cfg: Config, b: Blocks, id: nat, prompt: seq<Token>, pos: nat)
    requires Conserved(b) && Honest(b) && cfg.prefixCaching && id in b.tables && id in b.hashes
    requires b.hashes[id] == BlockHashes(cfg, prompt)
    requires CeilDiv(pos, cfg.blockSize) <= |b.tables[id]| == pos / cfg.blockSize
    ensures Honest(GrowOnce(cfg, b, id, prompt, pos).state) <==>
      (var h := HashAt(cfg, b, id, prompt, pos); (h.Some? && Usable(b, h.value)) || NothingLeftOver(b, h))
  {
    var h := HashAt(cfg, b, id, prompt, pos);
    if pos >= |prompt| { PastThePrompt(cfg, prompt, pos, |b.tables[id]|); }
    if h.Some? && Usable(b, h.value) {
      SharingStaysHonest(b, id, h.value);
    } else {
      ClaimHonestIff(b, id, h);
    }
  }

  // ---------------------------------------------------------------- a hit on other tokens

  /** One block of four tokens. */
  function OneBlock(hash: seq<Token> -> int): Config { RawConfig(4, 16, 16, true, 4, 4, 1, true, false, hash) }

  lemma OneHash(cfg: Config, prompt: seq<Token>)
    requires |prompt| == 4 == cfg.blockSize
    ensures BlockHashes(cfg, prompt) == [cfg.hash(prompt)]
  {
    assert prompt[..4] == prompt && prompt[4..] == [];
  }

  function EmptyPool(cache: map<int, nat>): Blocks { Blocks(Pool([true], [0]), map[], map[], cache) }

  /** A sequence arrives and its first position is ensured. */
  function Visit(cfg: Config, b: Blocks, id: nat, prompt: seq<Token>): (r: Blocks)
    requires WellFormed(b)
    ensures WellFormed(r)
  {
    EnsureBlock(cfg, AllocateForSeq(cfg, b, id, prompt), id, prompt, 0).state
  }

  /** The only sequence of a pool with one block: it takes the block, under its own hash. */
  lemma TakesTheBlock(cfg: Config, cache: map<int, nat>, id: nat, prompt: seq<Token>)
    requires cfg.prefixCaching && |prompt| == 4 == cfg.blockSize && WellFormed(EmptyPool(cache))
    ensures Visit(cfg, EmptyPool(cache), id, prompt) ==
      Blocks(Pool([false], [1]), map[id := [Entry(0, false)]], map[id := [cfg.hash(prompt)]],
             cache[cfg.hash(prompt) := 0])
  {
    var b := EmptyPool(cache);
    OneHash(cfg, prompt);
    var b0 := Blocks(b.pool, map[id := []], map[id := [cfg.hash(prompt)]], cache);
    assert AllocateForSeq(cfg, b, id, prompt) == b0;
    AllocateOne(b0.pool);
    ClaimsIt(b0, id, cfg.hash(prompt));
    assert HashAt(cfg, b0, id, prompt, 0) == Some(cfg.hash(prompt));
    var once := GrowOnce(cfg, b0, id, prompt, 0);
    assert Grow(cfg, once.state, id, prompt, 0) == once;
  }

  lemma ClaimsIt(b: Blocks, id: nat, h: int)
    requires WellFormed(b) && b.pool == Pool([true], [0]) && b.tables == map[id := []]
    ensures ClaimOne(b, id, Some(h)) ==
      Ok(Blocks(Pool([false], [1]), map[id := [Entry(0, false)]], b.hashes, b.cache[h := 0]))
  {
    AllocateOne(b.pool);
    assert b.pool.free[0] && [true][0 := false] == [false] && [0][0 := 1] == [1];
    assert AllocateSingle(b.pool) == Some((0, Pool([false], [1])));
    assert [] + [Entry(0, false)] == [Entry(0, false)];
    assert b.tables[id := [Entry(0, false)]] == map[id := [Entry(0, false)]];
  }

  lemma LeavesTheBlock(b: Blocks, id: nat, h: int)
    requires b == Blocks(Pool([false], [1]), map[id := [Entry(0, false)]], map[id := [h]], b.cache) && WellFormed(b)
    ensures FreeSeq(b, id) == EmptyPool(b.cache)
  {
    assert Pids([Entry(0, false)]) == [0];
    assert [0][..0] == [] && Release(b.pool, []) == b.pool;
    assert Release(b.pool, [0]) == ReleaseOne(b.pool, 0) == Pool([true], [0]);
    assert b.tables - {id} == map[] && b.hashes - {id} == map[];
  }

  /** One block, three prompts: after the first has come and gone and the second has taken over its
      block, the first prompt is still found in the cache, on a block that holds the second. */
  lemma StaleHit(hash: seq<Token> -> int, first: seq<Token>, second: seq<Token>) returns (b: Blocks)
    requires |first| == |second| == 4 && hash(first) != hash(second)
    ensures var cfg := OneBlock(hash);
      b == Visit(cfg, FreeSeq(Visit(cfg, EmptyPool(map[]), 0, first), 0), 1, second)
    ensures WellFormed(b) && ProbedTokens(OneBlock(hash), b, first) == 4
    ensures b.tables == map[1 := [Entry(0, false)]] && b.hashes == map[1 := [hash(second)]]
    ensures !Honest(b)
  {
    var cfg: Config := OneBlock(hash);
    TakesTheBlock(cfg, map[], 0, first);
    LeavesTheBlock(Visit(cfg, EmptyPool(map[]), 0, first), 0, hash(first));
    TakesTheBlock(cfg, map[hash(first) := 0], 1, second);
    b := Visit(cfg, EmptyPool(map[hash(first) := 0]), 1, second);
    OneHash(cfg, first);
    assert Usable(b, hash(first));
    UsableIsFound(cfg, b, first, 1);
    assert !HolderAgrees(b, hash(first), 1, 0);
  }
}

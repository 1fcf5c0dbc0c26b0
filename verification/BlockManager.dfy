/** The allocator, the block tables, the prefix cache and the manager as objects updated in place,
    each method proved against the functions of BlockSpec. */
module BlockManagement {
  import opened Base
  import opened BlockSpec

  class BlockAllocator {
    var free: seq<bool>
    var refCounts: seq<nat>

    ghost function View(): Pool reads this { Pool(free, refCounts) }

    constructor (numBlocks: nat)
      ensures View() == Pool(seq(numBlocks, i => true), seq(numBlocks, i => 0))
    {
      free := seq(numBlocks, i => true);
      refCounts := seq(numBlocks, i => 0);
    }

    /** Counts the free blocks one by one. */
    method NumFreeBlocks() returns (n: nat)
      ensures n == |FreeIds(free, 0)|
    {
      n := 0;
      var i := |free|;
      while i > 0
        invariant 0 <= i <= |free| && n == |FreeIds(free, i)|
      {
        i := i - 1;
        if free[i] { n := n + 1; }
      }
    }

    /** Scans the free list from the bottom until `n` free blocks are found. */
    method FindFree(n: nat) returns (indices: seq<nat>)
      requires n <= |FreeIds(free, 0)|
      ensures indices == Picked(free, n)
    {
      indices := [];
      var i := 0;
      while i < |free|
        invariant 0 <= i <= |free|
        invariant FreeIds(free, 0) == indices + FreeIds(free, i)
        invariant n > 0 ==> |indices| < n
      {
        if free[i] {
          indices := indices + [i];
          if |indices| == n { return; }
        }
        i := i + 1;
      }
    }

    /** The n lowest free blocks, each with one reference; with n = 0 the search never stops
        early and every free block is taken. */
    method Allocate(n: nat) returns (ids: Option<seq<nat>>)
      requires PoolShape(View())
      modifies this
      ensures match BlockSpec.Allocate(old(View()), n)
        case None => ids.None? && View() == old(View())
        case Some((picked, pool)) => ids == Some(picked) && View() == pool
    {
      var available := NumFreeBlocks();
      if n > available { return None; }
      var indices := FindFree(n);
      ghost var p := View();
      var k := 0;
      while k < |indices|
        invariant 0 <= k <= |indices|
        invariant View() == Claim(p, indices[..k])
      {
        assert indices[..k + 1][..k] == indices[..k];
        free, refCounts := free[indices[k] := false], refCounts[indices[k] := 1];
        k := k + 1;
      }
      assert indices[..k] == indices;
      ids := Some(indices);
    }

    /** The way the manager asks: one block. */
    method AllocateSingle() returns (pid: Option<nat>)
      requires PoolShape(View())
      modifies this
      ensures match BlockSpec.AllocateSingle(old(View()))
        case None => pid.None? && View() == old(View())
        case Some((p, pool)) => pid == Some(p) && View() == pool
    {
      AllocateOne(View());
      var ids := Allocate(1);
      pid := if ids.None? then None else Some(ids.value[0]);
    }

    /** Drops one reference per listed block; a block returns to the pool with its last one. */
    method Free(pids: seq<nat>)
      requires PoolShape(View()) && forall k :: 0 <= k < |pids| ==> pids[k] < |refCounts|
      modifies this
      ensures View() == Release(old(View()), pids)
    {
      var k := 0;
      while k < |pids|
        invariant 0 <= k <= |pids|
        invariant View() == Release(old(View()), pids[..k])
      {
        assert pids[..k + 1][..k] == pids[..k];
        var pid := pids[k];
        if refCounts[pid] != 0 {
          refCounts := refCounts[pid := refCounts[pid] - 1];
          if refCounts[pid] == 0 { free := free[pid := true]; }
        }
        k := k + 1;
      }
      assert pids[..k] == pids;
    }

    method IncrementRef(pid: nat)
      requires PoolShape(View()) && pid < |free| && !free[pid]
      modifies this
      ensures View() == Retain(old(View()), pid)
    {
      refCounts := refCounts[pid := refCounts[pid] + 1];
    }

    /** Counts the blocks whose free flag and reference count disagree. */
    method CheckInvariants() returns (violations: nat)
      requires PoolShape(View())
      ensures violations == 0 <==> forall p :: 0 <= p < |free| ==> (free[p] <==> refCounts[p] == 0)
    {
      violations := 0;
      for i := 0 to |free|
        invariant violations == 0 <==> forall p :: 0 <= p < i ==> (free[p] <==> refCounts[p] == 0)
      {
        if !free[i] && refCounts[i] == 0 { violations := violations + 1; }
        if free[i] && refCounts[i] != 0 { violations := violations + 1; }
      }
    }
  }

  class BlockTable {
    const requestId: nat
    var entries: seq<Entry>

    constructor (requestId: nat)
      ensures this.requestId == requestId && entries == []
    {
      this.requestId := requestId;
      entries := [];
    }

    method AddBlock(pid: nat)
      modifies this
      ensures entries == old(entries) + [Entry(pid, false)]
    {
      entries := entries + [Entry(pid, false)];
    }

    method AddSharedBlock(pid: nat)
      modifies this
      ensures entries == old(entries) + [Entry(pid, true)]
    {
      entries := entries + [Entry(pid, true)];
    }

    method Clear()
      modifies this
      ensures entries == []
    {
      entries := [];
    }

    /** The physical block of a token position, if its logical block exists. */
    function GetPhysicalBlock(blockSize: int, position: nat): Option<nat>
      requires blockSize > 0
      reads this
    {
      var logical := position / blockSize;
      if 0 <= logical < |entries| then Some(entries[logical].pid) else None
    }
  }

  class PrefixCache {
    var cache: map<int, nat>

    constructor ()
      ensures cache == map[]
    {
      cache := map[];
    }

    function Lookup(h: int): Option<nat>
      reads this
    {
      if h in cache then Some(cache[h]) else None
    }

    method Insert(h: int, pid: nat)
      modifies this
      ensures cache == old(cache)[h := pid]
    {
      cache := cache[h := pid];
    }
  }

  /** One hash per logical block, computed chunk by chunk. */
  method ComputeBlockHashes(cfg: Config, prompt: seq<Token>) returns (hashes: seq<int>)
    ensures hashes == BlockHashes(cfg, prompt)
  {
    hashes := [];
    var i := 0;
    while i < |prompt|
      invariant 0 <= i <= |prompt|
      invariant BlockHashes(cfg, prompt) == hashes + BlockHashes(cfg, prompt[i..])
      decreases |prompt| - i
    {
      var end := Min(i + cfg.blockSize, |prompt|);
      var n := Min(cfg.blockSize, |prompt[i..]|);
      assert prompt[i..][..n] == prompt[i..end];
      assert prompt[i..][n..] == prompt[end..];
      hashes := hashes + [cfg.hash(prompt[i..end])];
      i := end;
    }
    assert prompt[i..] == [];
  }

  /** The per-sequence hash lists take no part in the books. */
  lemma HashesDoNotCount(b: Blocks, hashes: map<nat, seq<int>>)
    requires Conserved(b)
    ensures Conserved(b.(hashes := hashes))
  {
  }

  /** Allocator, tables and prefix cache together. */
  class BlockManager {
    const cfg: Config
    const allocator: BlockAllocator
    const prefixCache: PrefixCache
    var tables: map<nat, BlockTable>
    var blockHashes: map<nat, seq<int>>

    /** The abstract value, kept up to date by every public method. */
    ghost var state: Blocks

    /** The tables owned now are those owned before and new ones. */
    twostate predicate Grew()
      reads this
    {
      forall t :: t in tables.Values ==> t in old(tables.Values) || fresh(t)
    }

    ghost function Entries(): (t: map<nat, seq<Entry>>)
      reads this`tables, tables.Values
      ensures t.Keys == tables.Keys && forall id :: id in t ==> t[id] == tables[id].entries
    {
      map id | id in tables :: tables[id].entries
    }

    ghost function View(): Blocks
      reads this`tables, this`blockHashes, allocator, prefixCache, tables.Values
    {
      Blocks(allocator.View(), Entries(), blockHashes, prefixCache.cache)
    }

    /** Different sequences own different table objects, and all block ids are in range. */
    ghost predicate Shaped()
      reads this`tables, this`blockHashes, allocator, prefixCache, tables.Values
    {
      && (forall a, b :: a in tables && b in tables && a != b ==> tables[a] != tables[b])
      && WellFormed(View())
    }

    /** Between public calls the books balance. */
    ghost predicate Valid()
      reads this, allocator, prefixCache, tables.Values
    {
      Shaped() && state == View() && Conserved(state)
    }

    /** Nothing that happens elsewhere disturbs the manager. */
    twostate lemma Undisturbed()
      requires old(Valid()) && tables == old(tables) && blockHashes == old(blockHashes) && state == old(state)
      requires allocator.View() == old(allocator.View()) && prefixCache.cache == old(prefixCache.cache)
      requires forall t :: t in tables.Values ==> t.entries == old(t.entries)
      ensures Valid()
    {
      assert forall id :: id in tables ==> tables[id] in tables.Values;
      assert Entries() == old(Entries());
    }

    constructor (cfg: Config)
      ensures Valid() && this.cfg == cfg && fresh(allocator) && fresh(prefixCache) && tables == map[]
      ensures state == Blocks(Pool(seq(cfg.numBlocks, i => true), seq(cfg.numBlocks, i => 0)), map[], map[], map[])
    {
      this.cfg := cfg;
      allocator := new BlockAllocator(cfg.numBlocks);
      prefixCache := new PrefixCache();
      tables := map[];
      blockHashes := map[];
      new;
      assert Entries() == map[];
      assert Live(map[]) == multiset{};
      state := View();
    }

    /** Read-only: the consecutive usable blocks from logical block 0 on, and the prompt tokens
        they hold.  Nothing is allocated and no reference count moves. */
    method ProbePrefixCache(prompt: seq<Token>) returns (cachedTokens: nat, matched: seq<nat>)
      requires Valid()
      ensures cachedTokens == ProbedTokens(cfg, state, prompt)
      ensures matched == if cfg.prefixCaching then Probe(state, BlockHashes(cfg, prompt)) else []
    {
      if !cfg.prefixCaching { return 0, []; }
      var hashes := ComputeBlockHashes(cfg, prompt);
      ghost var b := View();
      matched := [];
      var i := 0;
      while i < |hashes|
        invariant 0 <= i <= |hashes|
        invariant Probe(b, hashes) == matched + Probe(b, hashes[i..])
      {
        var pid := prefixCache.Lookup(hashes[i]);
        assert hashes[i..][1..] == hashes[i + 1..];
        if pid.None? || allocator.refCounts[pid.value] == 0 { break; }
        matched := matched + [pid.value];
        i := i + 1;
      }
      MulMono(0, |matched|, cfg.blockSize);
      cachedTokens := Min(|matched| * cfg.blockSize, |prompt|);
    }

    /** Shares one cached block with the sequence. */
    method Share(id: nat, pid: nat)
      requires Shaped() && id in tables && pid < |View().pool.refs| && !allocator.free[pid]
      modifies allocator, tables[id]
      ensures Shaped() && View() == ShareBlock(old(View()), id, pid)
      ensures tables == old(tables)
    {
      allocator.IncrementRef(pid);
      tables[id].AddSharedBlock(pid);
      assert Entries() == old(Entries())[id := old(Entries())[id] + [Entry(pid, true)]];
    }

    /** Shares the block cached under one hash, if somebody still references it. */
    method ShareNext(id: nat, hash: int) returns (usable: bool)
      requires Shaped() && Conserved(View()) && id in tables
      modifies allocator, tables[id]
      ensures Shaped() && Conserved(View()) && tables == old(tables)
      ensures usable == Usable(old(View()), hash)
      ensures View() == if usable then ShareBlock(old(View()), id, old(View()).cache[hash]) else old(View())
    {
      var pid := prefixCache.Lookup(hash);
      if pid.None? || allocator.refCounts[pid.value] == 0 { return false; }
      ShareConserves(View(), id, pid.value);
      Share(id, pid.value);
      usable := true;
    }

    /** Shares the usable prefix of a prompt; the first miss or stale entry ends it. */
    method SharePrefix(id: nat, hashes: seq<int>)
      requires Shaped() && Conserved(View()) && id in tables
      modifies allocator, tables[id]
      ensures Shaped() && View() == ShareAll(old(View()), id, hashes)
      ensures tables == old(tables)
    {
      var i := 0;
      while i < |hashes|
        invariant 0 <= i <= |hashes| && Shaped() && Conserved(View())
        invariant tables == old(tables)
        invariant ShareAll(View(), id, hashes[i..]) == ShareAll(old(View()), id, hashes)
        decreases |hashes| - i
      {
        assert hashes[i..][1..] == hashes[i + 1..];
        var usable := ShareNext(id, hashes[i]);
        if !usable { break; }
        i := i + 1;
      }
    }

    /** Gives a sequence an empty table of its own. */
    method NewTable(id: nat)
      requires Shaped() && id !in tables
      modifies this`tables
      ensures Shaped() && View() == old(View()).(tables := old(View()).tables[id := []])
      ensures tables.Keys == old(tables).Keys + {id} && blockHashes == old(blockHashes)
      ensures fresh(tables[id]) && tables == old(tables)[id := tables[id]]
    {
      var table := new BlockTable(id);
      tables := tables[id := table];
      assert Entries() == old(Entries())[id := []];
    }

    method RememberHashes(id: nat, hashes: seq<int>)
      requires Shaped() && Conserved(View())
      modifies this`blockHashes
      ensures Shaped() && Conserved(View())
      ensures View() == old(View()).(hashes := old(View()).hashes[id := hashes])
    {
      HashesDoNotCount(View(), blockHashes[id := hashes]);
      blockHashes := blockHashes[id := hashes];
    }

    /** Gives a fresh sequence an empty table, then shares the usable prefix. */
    method Install(id: nat, prompt: seq<Token>)
      requires Shaped() && Conserved(View()) && id !in tables
      modifies this`tables, this`blockHashes, allocator, tables.Values
      ensures Shaped() && View() == BlockSpec.AllocateForSeq(cfg, old(View()), id, prompt)
      ensures Grew()
    {
      ghost var b := View();
      EmptyTableConserves(b, id);
      NewTable(id);
      if cfg.prefixCaching { InstallPrefix(id, prompt); }
      assert View() == BlockSpec.AllocateForSeq(cfg, b, id, prompt);
    }

    /** Computes and remembers the hashes of a registered prompt and shares its usable prefix. */
    method InstallPrefix(id: nat, prompt: seq<Token>)
      requires Shaped() && Conserved(View()) && id in tables
      modifies this`blockHashes, allocator, tables[id]
      ensures Shaped() && tables == old(tables)
      ensures var hs := BlockHashes(cfg, prompt);
        View() == ShareAll(old(View()).(hashes := old(View()).hashes[id := hs]), id, hs)
    {
      var hashes := ComputeBlockHashes(cfg, prompt);
      RememberHashes(id, hashes);
      SharePrefix(id, hashes);
    }

    /** Registers a fresh sequence. */
    method AllocateForSeq(id: nat, prompt: seq<Token>)
      requires Valid() && id !in tables
      modifies this, allocator, tables.Values
      ensures Valid() && state == BlockSpec.AllocateForSeq(cfg, old(state), id, prompt)
      ensures Grew()
    {
      AllocateForSeqConserves(cfg, state, id, prompt);
      Install(id, prompt);
      state := BlockSpec.AllocateForSeq(cfg, state, id, prompt);
      ghost var shaped := Shaped() && state == View();
      assert shaped;
    }

    /** Appends an owned block to the table of the sequence. */
    method Own(id: nat, pid: nat)
      requires Shaped() && id in tables && pid < |View().pool.refs|
      modifies tables[id]
      ensures Shaped() && View() == Append(old(View()), id, Entry(pid, false)) && tables == old(tables)
    {
      tables[id].AddBlock(pid);
      assert Entries() == old(Entries())[id := old(Entries())[id] + [Entry(pid, false)]];
    }

    /** Registers a block in the prefix cache. */
    method Publish(h: int, pid: nat)
      requires Shaped() && pid < |View().pool.refs|
      modifies prefixCache
      ensures Shaped() && View() == old(View()).(cache := old(View()).cache[h := pid])
    {
      prefixCache.Insert(h, pid);
      assert Entries() == old(Entries());
    }

    /** Claims one free block for the sequence, registering it under `hash` when it has one. */
    method ClaimBlock(id: nat, hash: Option<int>) returns (ok: bool)
      requires Shaped() && id in tables
      modifies allocator, prefixCache, tables[id]
      ensures Shaped() && tables == old(tables)
      ensures View() == ClaimOne(old(View()), id, hash).state && ok == ClaimOne(old(View()), id, hash).Ok?
    {
      ghost var o := ClaimOne(View(), id, hash);
      var pid := allocator.AllocateSingle();
      assert Entries() == old(Entries());
      if pid.None? { return false; }
      Own(id, pid.value);
      if hash.Some? { Publish(hash.value, pid.value); }
      ok := true;
      assert View() == o.state;
    }

    /** The hash under which `position` of the prompt is cached, if it is a prompt position. */
    method HashOfPosition(id: nat, prompt: seq<Token>, position: nat) returns (hash: Option<int>)
      requires Shaped()
      ensures hash == HashAt(cfg, View(), id, prompt, position)
    {
      var logical := position / cfg.blockSize;
      DivModFacts(position, cfg.blockSize);
      hash := None;
      if position < |prompt| && cfg.prefixCaching && id in blockHashes && logical < |blockHashes[id]| {
        hash := Some(blockHashes[id][logical]);
      }
    }

    /** One growth step: shares the cached block of a prompt position when it is usable,
        otherwise claims a free block. */
    method GrowStep(id: nat, prompt: seq<Token>, position: nat) returns (ok: bool)
      requires Shaped() && Conserved(View()) && id in tables
      modifies allocator, prefixCache, tables[id]
      ensures Shaped() && tables == old(tables)
      ensures View() == GrowOnce(cfg, old(View()), id, prompt, position).state
      ensures ok == GrowOnce(cfg, old(View()), id, prompt, position).Ok?
    {
      ghost var o := GrowOnce(cfg, View(), id, prompt, position);
      var hash := HashOfPosition(id, prompt, position);
      var cached := None;
      if hash.Some? { cached := prefixCache.Lookup(hash.value); }
      if cached.Some? && allocator.refCounts[cached.value] > 0 {
        assert o == Ok(ShareBlock(View(), id, cached.value));
        Share(id, cached.value);
        ok := true;
      } else {
        assert o == ClaimOne(View(), id, hash);
        ok := ClaimBlock(id, hash);
      }
    }

    /** The growth loop of a registered sequence. */
    method GrowTable(id: nat, prompt: seq<Token>, position: nat) returns (ok: bool)
      requires Shaped() && Conserved(View()) && id in tables
      modifies allocator, prefixCache, tables[id]
      ensures Shaped() && tables == old(tables)
      ensures View() == Grow(cfg, old(View()), id, prompt, position).state
      ensures ok == Grow(cfg, old(View()), id, prompt, position).Ok?
    {
      while position / cfg.blockSize >= |tables[id].entries|
        invariant Shaped() && Conserved(View()) && tables == old(tables)
        invariant Grow(cfg, View(), id, prompt, position) == Grow(cfg, old(View()), id, prompt, position)
        decreases position / cfg.blockSize + 1 - |tables[id].entries|
      {
        GrowOnceConserves(cfg, View(), id, prompt, position);
        var grown := GrowStep(id, prompt, position);
        if !grown { return false; }
      }
      ok := true;
    }

    /** Makes sure the sequence has a table. */
    method Register(id: nat)
      requires Shaped() && Conserved(View())
      modifies this`tables
      ensures Shaped() && Conserved(View()) && id in tables
      ensures id in old(tables) ==> tables == old(tables) && View() == old(View())
      ensures id !in old(tables) ==> View() == old(View()).(tables := old(View()).tables[id := []])
      ensures Grew()
    {
      if id !in tables {
        EmptyTableConserves(View(), id);
        NewTable(id);
      }
    }

    /** The block of `position` in the table of `id`. */
    ghost predicate Locates(id: nat, position: nat, pid: nat)
      reads this`tables, tables.Values
    {
      && id in tables && 0 <= position / cfg.blockSize < |tables[id].entries|
      && pid == tables[id].entries[position / cfg.blockSize].pid
    }

    /** The work of EnsureBlock on the objects. */
    method Cover(id: nat, prompt: seq<Token>, position: nat) returns (pid: Option<nat>)
      requires Shaped() && Conserved(View())
      modifies this`tables, allocator, prefixCache, tables.Values
      ensures Shaped() && Grew()
      ensures View() == BlockSpec.EnsureBlock(cfg, old(View()), id, prompt, position).state
      ensures pid.None? <==> BlockSpec.EnsureBlock(cfg, old(View()), id, prompt, position).Oom?
      ensures pid.Some? ==> Locates(id, position, pid.value)
    {
      Register(id);
      var grown := GrowTable(id, prompt, position);
      if !grown { return None; }
      DivModFacts(position, cfg.blockSize);
      pid := tables[id].GetPhysicalBlock(cfg.blockSize, position);
    }

    /** Grows the table of `id` until it covers `position` and returns the block of that position;
        None when the pool runs dry. */
    method EnsureBlock(id: nat, prompt: seq<Token>, position: nat) returns (pid: Option<nat>)
      requires Valid()
      modifies this`tables, this`state, allocator, prefixCache, tables.Values
      ensures Valid() && Grew()
      ensures state == BlockSpec.EnsureBlock(cfg, old(state), id, prompt, position).state
      ensures pid.None? <==> BlockSpec.EnsureBlock(cfg, old(state), id, prompt, position).Oom?
      ensures pid.Some? ==> Locates(id, position, pid.value)
    {
      EnsureBlockConserves(cfg, state, id, prompt, position);
      ghost var o := BlockSpec.EnsureBlock(cfg, state, id, prompt, position);
      pid := Cover(id, prompt, position);
      state := o.state;
      ghost var shaped := Shaped() && state == View();
      assert shaped;
    }

    /** Gives back every reference of a registered sequence and forgets it. */
    method Forget(id: nat)
      requires Shaped() && id in tables
      modifies this`tables, this`blockHashes, allocator, tables[id]
      ensures Shaped() && View() == FreeSeq(old(View()), id) && tables == old(tables) - {id}
    {
      var table := tables[id];
      tables := tables - {id};
      var pids := Pids(table.entries);
      allocator.Free(pids);
      table.Clear();
      blockHashes := blockHashes - {id};
      assert Entries() == old(Entries()) - {id};
    }

    /** Drops every reference of the sequence and forgets it; unknown ids are ignored. */
    method Free(id: nat)
      requires Valid()
      modifies this, allocator, tables.Values
      ensures Valid() && state == FreeSeq(old(state), id)
      ensures tables == old(tables) - {id} && Grew()
    {
      FreeSeqConserves(state, id);
      if id !in tables {
        assert tables - {id} == tables;
        return;
      }
      Forget(id);
      state := FreeSeq(state, id);
      ghost var shaped := Shaped() && state == View();
      assert shaped;
    }

    /** The physical block ids of a sequence in logical order; empty when it has no table. */
    function GetBlockTable(id: nat): (pids: seq<nat>)
      requires Valid()
      reads this, allocator, prefixCache, tables.Values
      ensures pids == if id in state.tables then Pids(state.tables[id]) else []
    {
      if id in tables then Pids(tables[id].entries) else []
    }
  }
}

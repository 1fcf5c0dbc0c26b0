/** The prefix cache: what is hashed, what a probe finds, and that every prompt block a sequence
    holds stays registered under its hash.  One step of the block layer at a time; PrefixRuns.dfy
    carries it through whole runs. */
module PrefixLaws {
  import opened Base
  import opened BlockSpec
  import opened BlockCoverage

  // ---------------------------------------------------------------- what is hashed

  /** The tokens of logical block `i`: a block's worth, or what the prompt has left. */
  function BlockTokens(cfg: Config, prompt: seq<Token>, i: nat): seq<Token> {
    MulMono(0, i, cfg.blockSize);
    MulMono(i, i + 1, cfg.blockSize);
    prompt[Min(i * cfg.blockSize, |prompt|)..Min((i + 1) * cfg.blockSize, |prompt|)]
  }

  lemma BlockTokensNext(cfg: Config, prompt: seq<Token>, i: nat)
    requires i > 0
    ensures var n := Min(cfg.blockSize, |prompt|);
      BlockTokens(cfg, prompt, i) == BlockTokens(cfg, prompt[n..], i - 1)
  {
    var bs := cfg.blockSize;
    MulMono(1, i, bs);
    assert (i - 1) * bs == i * bs - bs;
    assert (i + 1) * bs == i * bs + bs;
  }

  /** Hash `i` is the hash of all tokens of block `i` and of nothing else. */
  lemma {:induction false} BlockHashesAt(cfg: Config, prompt: seq<Token>, i: nat)
    requires i < |BlockHashes(cfg, prompt)|
    ensures i * cfg.blockSize < |prompt|
    ensures BlockHashes(cfg, prompt)[i] == cfg.hash(BlockTokens(cfg, prompt, i))
    decreases i
  {
    var bs := cfg.blockSize;
    CeilDivCovers(|prompt|, bs, i);
    if i > 0 {
      var n := Min(bs, |prompt|);
      CeilDivDrop(|prompt|, bs);
      BlockHashesAt(cfg, prompt[n..], i - 1);
      BlockTokensNext(cfg, prompt, i);
    }
  }

  /** The hash takes the first `k` blocks of two prompts apart whenever they differ. */
  ghost predicate NoCollision(cfg: Config, p: seq<Token>, q: seq<Token>, k: nat) {
    forall i :: 0 <= i < k && cfg.hash(BlockTokens(cfg, p, i)) == cfg.hash(BlockTokens(cfg, q, i)) ==>
      BlockTokens(cfg, p, i) == BlockTokens(cfg, q, i)
  }

  /** The tokens of the first `k` blocks. */
  function FirstBlocks(cfg: Config, prompt: seq<Token>, k: nat): seq<Token> {
    MulMono(0, k, cfg.blockSize);
    prompt[..Min(k * cfg.blockSize, |prompt|)]
  }

  lemma FirstBlocksNext(cfg: Config, prompt: seq<Token>, k: nat)
    ensures FirstBlocks(cfg, prompt, k + 1) == FirstBlocks(cfg, prompt, k) + BlockTokens(cfg, prompt, k)
  {
    assert (k + 1) * cfg.blockSize == k * cfg.blockSize + cfg.blockSize;
    MulMono(0, k, cfg.blockSize);
  }

  lemma FirstBlocksLength(cfg: Config, prompt: seq<Token>, k: nat)
    requires k < |BlockHashes(cfg, prompt)|
    ensures |FirstBlocks(cfg, prompt, k)| == k * cfg.blockSize
  {
    BlockHashesAt(cfg, prompt, k);
  }

  /** Without collisions, two prompts agree on their first `k` hashes exactly when they agree on the
      tokens of those blocks, a partial last block included. */
  lemma {:induction false} HashesAgree(cfg: Config, p: seq<Token>, q: seq<Token>, k: nat)
    requires k <= |BlockHashes(cfg, p)| && k <= |BlockHashes(cfg, q)| && NoCollision(cfg, p, q, k)
    ensures BlockHashes(cfg, p)[..k] == BlockHashes(cfg, q)[..k] <==> FirstBlocks(cfg, p, k) == FirstBlocks(cfg, q, k)
    decreases k
  {
    if k > 0 {
      var i := k - 1;
      HashesAgree(cfg, p, q, i);
      BlockHashesAt(cfg, p, i);
      BlockHashesAt(cfg, q, i);
      FirstBlocksNext(cfg, p, i);
      FirstBlocksNext(cfg, q, i);
      FirstBlocksLength(cfg, p, i);
      FirstBlocksLength(cfg, q, i);
      SameFront(BlockHashes(cfg, p), BlockHashes(cfg, q), i);
      SamePieces(FirstBlocks(cfg, p, i), BlockTokens(cfg, p, i), FirstBlocks(cfg, q, i), BlockTokens(cfg, q, i));
    }
  }

  lemma SameFront(a: seq<int>, b: seq<int>, i: nat)
    requires i < |a| && i < |b|
    ensures a[..i + 1] == b[..i + 1] <==> a[..i] == b[..i] && a[i] == b[i]
  {
    assert a[..i + 1] == a[..i] + [a[i]] && b[..i + 1] == b[..i] + [b[i]];
    if a[..i + 1] == b[..i + 1] {
      assert a[..i] == a[..i + 1][..i] && b[..i] == b[..i + 1][..i];
      assert a[i] == a[..i + 1][i] && b[i] == b[..i + 1][i];
    }
  }

  lemma SamePieces(a: seq<Token>, x: seq<Token>, b: seq<Token>, y: seq<Token>)
    requires |a| == |b|
    ensures a + x == b + y <==> a == b && x == y
  {
    if a + x == b + y {
      assert a == (a + x)[..|a|] && b == (b + y)[..|b|];
      assert x == (a + x)[|a|..] && y == (b + y)[|b|..];
    }
  }

  // ---------------------------------------------------------------- what a probe finds

  /** The probe stops at the first hash that is not usable, and reports the block of each before. */
  lemma {:induction false} ProbeIsLongest(b: Blocks, hs: seq<int>)
    requires WellFormed(b)
    ensures |Probe(b, hs)| <= |hs|
    ensures forall i :: 0 <= i < |Probe(b, hs)| ==> Usable(b, hs[i]) && Probe(b, hs)[i] == b.cache[hs[i]]
    ensures |Probe(b, hs)| < |hs| ==> !Usable(b, hs[|Probe(b, hs)|])
    decreases |hs|
  {
    if hs != [] && Usable(b, hs[0]) { ProbeIsLongest(b, hs[1..]); }
  }

  /** A prompt whose first `k` blocks are usable finds all their tokens cached. */
  lemma UsableIsFound(cfg: Config, b: Blocks, prompt: seq<Token>, k: nat)
    requires WellFormed(b) && cfg.prefixCaching && k <= |BlockHashes(cfg, prompt)|
    requires forall i :: 0 <= i < k ==> Usable(b, BlockHashes(cfg, prompt)[i])
    ensures ProbedTokens(cfg, b, prompt) >= Min(k * cfg.blockSize, |prompt|)
    ensures k == |BlockHashes(cfg, prompt)| ==> ProbedTokens(cfg, b, prompt) == |prompt|
  {
    var n := |Probe(b, BlockHashes(cfg, prompt))|;
    ProbeIsLongest(b, BlockHashes(cfg, prompt));
    MulMono(k, n, cfg.blockSize);
    CeilDivCovers(|prompt|, cfg.blockSize, k);
  }

  // ---------------------------------------------------------------- registration

  /** The sequence remembers its hashes, and the cache leads from each of them to the block that
      holds it. */
  ghost predicate Registered(cfg: Config, b: Blocks, id: nat, prompt: seq<Token>) {
    && id in b.tables && id in b.hashes && b.hashes[id] == BlockHashes(cfg, prompt)
    && forall i :: 0 <= i < |b.tables[id]| && i < |b.hashes[id]| ==> Leads(b, b.hashes[id][i], b.tables[id][i].pid)
  }

  predicate Leads(b: Blocks, h: int, pid: nat) { h in b.cache && b.cache[h] == pid }

  /** Its prompt blocks are usable by everybody. */
  lemma RegisteredIsUsable(cfg: Config, b: Blocks, id: nat, prompt: seq<Token>, i: nat)
    requires Conserved(b) && Registered(cfg, b, id, prompt)
    requires i < |b.tables[id]| && i < |b.hashes[id]|
    ensures Usable(b, b.hashes[id][i])
  {
    LiveContains(b.tables, id, i);
    assert Leads(b, b.hashes[id][i], b.tables[id][i].pid);
  }

  /** A prompt that begins with the tokens of the first `k` blocks a sequence holds finds them all
      cached, whatever the hash does. */
  lemma CommonPrefixIsFound(cfg: Config, b: Blocks, id: nat, prompt: seq<Token>, other: seq<Token>, k: nat)
    requires Conserved(b) && cfg.prefixCaching && Registered(cfg, b, id, prompt) && k <= |b.tables[id]|
    requires k <= |BlockHashes(cfg, prompt)| && k <= |BlockHashes(cfg, other)|
    requires FirstBlocks(cfg, prompt, k) == FirstBlocks(cfg, other, k)
    ensures ProbedTokens(cfg, b, other) >= Min(k * cfg.blockSize, |other|)
  {
    forall i | 0 <= i < k ensures Usable(b, BlockHashes(cfg, other)[i]) {
      RegisteredIsUsable(cfg, b, id, prompt, i);
      SameBlocks(cfg, prompt, other, k, i);
      BlockHashesAt(cfg, prompt, i);
      BlockHashesAt(cfg, other, i);
    }
    UsableIsFound(cfg, b, other, k);
  }

  lemma SameBlocks(cfg: Config, p: seq<Token>, q: seq<Token>, k: nat, i: nat)
    requires i < k && FirstBlocks(cfg, p, k) == FirstBlocks(cfg, q, k)
    ensures BlockTokens(cfg, p, i) == BlockTokens(cfg, q, i)
  {
    BlockOfFirst(cfg, p, k, i);
    BlockOfFirst(cfg, q, k, i);
  }

  lemma BlockOfFirst(cfg: Config, p: seq<Token>, k: nat, i: nat)
    requires i < k
    ensures BlockTokens(cfg, p, i) == BlockTokens(cfg, FirstBlocks(cfg, p, k), i)
  {
    MulMono(i + 1, k, cfg.blockSize);
    MulMono(0, i, cfg.blockSize);
    MulMono(i, i + 1, cfg.blockSize);
  }

  // ---------------------------------------------------------------- growing

  /** The hash of position `pos` is usable once its block has been grown, and leads to that block. */
  lemma GrownIsRegistered(cfg: Config, b: Blocks, id: nat, prompt: seq<Token>, pos: nat)
    requires WellFormed(b) && id in b.tables && id in b.hashes && b.hashes[id] == BlockHashes(cfg, prompt)
    requires cfg.prefixCaching && pos < |prompt| && pos / cfg.blockSize == |b.tables[id]|
    ensures
      var r := GrowOnce(cfg, b, id, prompt, pos);
      var k := |b.tables[id]|;
      && k < |BlockHashes(cfg, prompt)|
      && (r.Ok? ==> Leads(r.state, BlockHashes(cfg, prompt)[k], r.state.tables[id][k].pid)
                    && Usable(r.state, BlockHashes(cfg, prompt)[k]))
  {
    LogicalInside(cfg, prompt, pos);
    AllocateOne(b.pool);
  }

  lemma LogicalInside(cfg: Config, prompt: seq<Token>, pos: nat)
    requires pos < |prompt|
    ensures 0 <= pos / cfg.blockSize < |BlockHashes(cfg, prompt)|
  {
    var bs := cfg.blockSize;
    DivModFacts(pos, bs);
    CeilDivCovers(|prompt|, bs, pos / bs);
  }

  /** A position past the prompt never opens a block that holds prompt tokens. */
  lemma PastThePrompt(cfg: Config, prompt: seq<Token>, pos: nat, n: nat)
    requires CeilDiv(pos, cfg.blockSize) <= n && pos / cfg.blockSize == n && pos >= |prompt|
    ensures n >= |BlockHashes(cfg, prompt)|
  {
    CeilDivCovers(pos, cfg.blockSize, n);
    CeilDivCovers(|prompt|, cfg.blockSize, n);
  }

  /** Growing one table changes where a hash leads only when it led to no live block. */
  lemma GrowOnceLeads(cfg: Config, b: Blocks, id: nat, prompt: seq<Token>, pos: nat, h: int, pid: nat)
    requires WellFormed(b) && id in b.tables && Leads(b, h, pid) && Usable(b, h)
    ensures Leads(GrowOnce(cfg, b, id, prompt, pos).state, h, pid)
  {
  }

  /** Growing the table of one registered sequence keeps every registered sequence registered. */
  lemma GrowOnceKeeps(cfg: Config, b: Blocks, id: nat, prompt: seq<Token>, pos: nat, other: nat, whose: seq<Token>)
    requires Conserved(b) && cfg.prefixCaching && Registered(cfg, b, id, prompt) && Registered(cfg, b, other, whose)
    requires CeilDiv(pos, cfg.blockSize) <= |b.tables[id]| == pos / cfg.blockSize
    ensures Registered(cfg, GrowOnce(cfg, b, id, prompt, pos).state, other, whose)
  {
    var n := GrowOnce(cfg, b, id, prompt, pos).state;
    GrowOnceFrame(cfg, b, id, prompt, pos);
    assert n.hashes == b.hashes;
    forall i | 0 <= i < |n.tables[other]| && i < |n.hashes[other]|
      ensures Leads(n, n.hashes[other][i], n.tables[other][i].pid)
    {
      if i < |b.tables[other]| {
        assert n.tables[other][i] == b.tables[other][i];
        RegisteredIsUsable(cfg, b, other, whose, i);
        GrowOnceLeads(cfg, b, id, prompt, pos, b.hashes[other][i], b.tables[other][i].pid);
      } else {
        NewBlockLeads(cfg, b, id, prompt, pos);
      }
    }
  }

  lemma NewBlockLeads(cfg: Config, b: Blocks, id: nat, prompt: seq<Token>, pos: nat)
    requires WellFormed(b) && cfg.prefixCaching && id in b.tables && id in b.hashes
    requires b.hashes[id] == BlockHashes(cfg, prompt)
    requires CeilDiv(pos, cfg.blockSize) <= |b.tables[id]| == pos / cfg.blockSize
    ensures
      var r := GrowOnce(cfg, b, id, prompt, pos);
      var k := |b.tables[id]|;
      r.Ok? && k < |b.hashes[id]| ==> Leads(r.state, b.hashes[id][k], r.state.tables[id][k].pid)
  {
    if pos < |prompt| {
      GrownIsRegistered(cfg, b, id, prompt, pos);
    } else {
      PastThePrompt(cfg, prompt, pos, |b.tables[id]|);
    }
  }

  lemma EnsureBlockKeeps(cfg: Config, b: Blocks, id: nat, prompt: seq<Token>, pos: nat, other: nat,
                         whose: seq<Token>)
    requires Conserved(b) && cfg.prefixCaching && Registered(cfg, b, id, prompt) && Registered(cfg, b, other, whose)
    requires CeilDiv(pos, cfg.blockSize) <= |b.tables[id]|
    ensures Registered(cfg, EnsureBlock(cfg, b, id, prompt, pos).state, other, whose)
  {
    NextBlockOnly(pos, cfg.blockSize, |b.tables[id]|);
    if pos / cfg.blockSize == |b.tables[id]| {
      GrowOnceKeeps(cfg, b, id, prompt, pos, other, whose);
      var once := GrowOnce(cfg, b, id, prompt, pos);
      if once.Ok? { assert Grow(cfg, once.state, id, prompt, pos) == once; }
    }
  }

  /** After a position of the prompt has been ensured, its block is one that everybody can use. */
  lemma EnsuredIsUsable(cfg: Config, b: Blocks, id: nat, prompt: seq<Token>, pos: nat)
    requires Conserved(b) && cfg.prefixCaching && Registered(cfg, b, id, prompt)
    requires CeilDiv(pos, cfg.blockSize) <= |b.tables[id]| && pos < |prompt|
    ensures
      var r := EnsureBlock(cfg, b, id, prompt, pos);
      && 0 <= pos / cfg.blockSize < |BlockHashes(cfg, prompt)|
      && (r.Ok? ==> Usable(r.state, BlockHashes(cfg, prompt)[pos / cfg.blockSize]))
  {
    var r := EnsureBlock(cfg, b, id, prompt, pos);
    LogicalInside(cfg, prompt, pos);
    EnsureBlockKeeps(cfg, b, id, prompt, pos, id, prompt);
    EnsureBlockConserves(cfg, b, id, prompt, pos);
    if r.Ok? { RegisteredIsUsable(cfg, r.state, id, prompt, pos / cfg.blockSize); }
  }

  lemma {:induction false} EnsureRangeKeeps(cfg: Config, b: Blocks, id: nat, prompt: seq<Token>, from: nat, end: nat,
                                            other: nat, whose: seq<Token>)
    requires Conserved(b) && cfg.prefixCaching && Registered(cfg, b, id, prompt) && Registered(cfg, b, other, whose)
    requires from <= end && CeilDiv(from, cfg.blockSize) <= |b.tables[id]|
    ensures Registered(cfg, EnsureRange(cfg, b, id, prompt, from, end).state, other, whose)
    decreases end - from
  {
    if from < end {
      var next := from + 1;
      var r := EnsureBlock(cfg, b, id, prompt, from);
      EnsureBlockKeeps(cfg, b, id, prompt, from, id, prompt);
      EnsureBlockKeeps(cfg, b, id, prompt, from, other, whose);
      EnsureBlockConserves(cfg, b, id, prompt, from);
      if r.Ok? {
        EnsureBlockLaw(cfg, b, id, prompt, from);
        EnsureRangeKeeps(cfg, r.state, id, prompt, next, end, other, whose);
      }
    }
  }

  // ---------------------------------------------------------------- coming and going

  /** A new sequence comes registered: what it shares is where its hashes lead. */
  lemma ArrivesRegistered(cfg: Config, b: Blocks, id: nat, prompt: seq<Token>)
    requires WellFormed(b) && cfg.prefixCaching && id !in b.tables
    ensures Registered(cfg, AllocateForSeq(cfg, b, id, prompt), id, prompt)
    ensures AllocateForSeq(cfg, b, id, prompt).cache == b.cache
    ensures AllocateForSeq(cfg, b, id, prompt).hashes == b.hashes[id := BlockHashes(cfg, prompt)]
  {
    var hs := BlockHashes(cfg, prompt);
    var b0 := b.(tables := b.tables[id := []]);
    ShareAllIsProbe(b0.(hashes := b0.hashes[id := hs]), id, hs);
    ProbeAgreesWithAllocation(cfg, b, id, prompt);
    ProbeIsLongest(b, hs);
  }

  lemma ArrivalKeeps(cfg: Config, b: Blocks, id: nat, prompt: seq<Token>, other: nat, whose: seq<Token>)
    requires WellFormed(b) && cfg.prefixCaching && id !in b.tables && Registered(cfg, b, other, whose)
    ensures Registered(cfg, AllocateForSeq(cfg, b, id, prompt), other, whose)
  {
    var n := AllocateForSeq(cfg, b, id, prompt);
    ArrivesRegistered(cfg, b, id, prompt);
    ProbeAgreesWithAllocation(cfg, b, id, prompt);
    assert n.tables[other] == b.tables[other] && n.hashes[other] == b.hashes[other];
    forall i | 0 <= i < |n.tables[other]| && i < |n.hashes[other]|
      ensures Leads(n, n.hashes[other][i], n.tables[other][i].pid)
    {
      assert Leads(b, b.hashes[other][i], b.tables[other][i].pid);
    }
  }

  /** The cache forgets nothing: entries of the sequences that stay outlive the one that leaves. */
  lemma LeavingKeeps(cfg: Config, b: Blocks, id: nat, other: nat, whose: seq<Token>)
    requires WellFormed(b) && id != other && Registered(cfg, b, other, whose)
    ensures Registered(cfg, FreeSeq(b, id), other, whose)
  {
    var n := FreeSeq(b, id);
    forall i | 0 <= i < |n.tables[other]| && i < |n.hashes[other]|
      ensures Leads(n, n.hashes[other][i], n.tables[other][i].pid)
    {
      assert Leads(b, b.hashes[other][i], b.tables[other][i].pid);
    }
  }

  /** Registered sequences whose prompts hash alike somewhere hold the same block there. */
  lemma EqualHashesShare(cfg: Config, b: Blocks, id: nat, prompt: seq<Token>, other: nat, whose: seq<Token>, i: nat,
                         j: nat)
    requires Registered(cfg, b, id, prompt) && Registered(cfg, b, other, whose)
    requires i < |b.tables[id]| && i < |b.hashes[id]| && j < |b.tables[other]| && j < |b.hashes[other]|
    requires b.hashes[id][i] == b.hashes[other][j]
    ensures b.tables[id][i].pid == b.tables[other][j].pid
  {
    assert Leads(b, b.hashes[id][i], b.tables[id][i].pid);
    assert Leads(b, b.hashes[other][j], b.tables[other][j].pid);
  }
}

/** The physical cache of one layer, written by slot and read through block tables. */
module PagedCache {
  import opened Base
  import opened Transformer
  import opened BatchSpec

  /** What a layer's cache holds, slot by slot: slot s is offset s % bs of block s / bs. */
  ghost function Contents(a: array2<KV>): (c: seq<KV>)
    reads a
    requires a.Length1 > 0
    ensures |c| == Span(a.Length1, a.Length0)
    ensures forall s: nat :: s < |c| ==> 0 <= s / a.Length1 < a.Length0 && 0 <= s % a.Length1 < a.Length1
                                         && c[s] == a[s / a.Length1, s % a.Length1]
  {
    SlotsOfPool(a.Length1, a.Length0);
    seq(Span(a.Length1, a.Length0), s requires 0 <= s < Span(a.Length1, a.Length0) reads a =>
      a[s / a.Length1, s % a.Length1])
  }

  lemma SlotsOfPool(bs: int, blocks: nat)
    requires bs > 0
    ensures Span(bs, blocks) >= 0
    ensures forall s: nat :: s < Span(bs, blocks) ==> 0 <= s / bs < blocks && 0 <= s % bs < bs
  {
    SpanMono(bs, blocks, blocks);
    forall s: nat | s < Span(bs, blocks) ensures 0 <= s / bs < blocks && 0 <= s % bs < bs {
      BlockOfPosition(s, bs, blocks);
    }
  }

  /** Two slots with the same block and offset are the same slot. */
  lemma SameSlot(bs: int, s: nat, t: nat)
    requires bs > 0 && s / bs == t / bs && s % bs == t % bs
    ensures s == t
  {
    DivModFacts(s, bs);
    DivModFacts(t, bs);
  }

  // ---------------------------------------------------------------- writing

  predicate InPool(slot: int, total: int) { -1 <= slot < total }

  /** The sequential reference: -1 skips, later writes win. */
  function WriteAll(cache: seq<KV>, slots: seq<int>, entries: seq<KV>): (r: seq<KV>)
    requires |slots| <= |entries| && forall i :: 0 <= i < |slots| ==> InPool(slots[i], |cache|)
    ensures |r| == |cache|
    decreases |slots|
  {
    if slots == [] then cache
    else
      var k := |slots| - 1;
      var r := WriteAll(cache, slots[..k], entries);
      assert InPool(slots[k], |cache|);
      if slots[k] < 0 then r else r[slots[k] := entries[k]]
  }

  /** Scattering by an unpadded slot mapping is the same thing. */
  lemma {:induction false} WriteAllIsScatter(cache: seq<KV>, slots: seq<nat>, entries: seq<KV>)
    requires |slots| == |entries| && forall i :: 0 <= i < |slots| ==> slots[i] < |cache|
    ensures WriteAll(cache, slots, entries) == Scatter(cache, slots, entries)
    decreases |slots|
  {
    if slots != [] {
      var k := |slots| - 1;
      WriteAllIsScatter(cache, slots[..k], entries[..k]);
      WriteAllPrefix(cache, slots[..k], entries);
    }
  }

  lemma {:induction false} WriteAllPrefix(cache: seq<KV>, slots: seq<int>, entries: seq<KV>)
    requires |slots| <= |entries| && forall i :: 0 <= i < |slots| ==> InPool(slots[i], |cache|)
    ensures WriteAll(cache, slots, entries) == WriteAll(cache, slots, entries[..|slots|])
    decreases |slots|
  {
    if slots != [] {
      var k := |slots| - 1;
      WriteAllPrefix(cache, slots[..k], entries);
      WriteAllPrefix(cache, slots[..k], entries[..|slots|]);
      assert entries[..|slots|][..k] == entries[..k];
    }
  }

  /** Index `k` is the last one that names slot `s`. */
  ghost predicate LastNaming(slots: seq<int>, s: nat, k: nat) {
    k < |slots| && slots[k] == s && s !in slots[k + 1..]
  }

  /** The last write to a slot wins, whether or not slots repeat; a slot nobody names keeps its entry. */
  lemma {:induction false} LastWriteWins(cache: seq<KV>, slots: seq<int>, entries: seq<KV>, s: nat)
    requires |slots| <= |entries| && s < |cache| && forall i :: 0 <= i < |slots| ==> InPool(slots[i], |cache|)
    ensures s !in slots ==> WriteAll(cache, slots, entries)[s] == cache[s]
    ensures forall k :: 0 <= k && LastNaming(slots, s, k) ==> WriteAll(cache, slots, entries)[s] == entries[k]
    decreases |slots|
  {
    if slots != [] {
      var n := |slots| - 1;
      var front := slots[..n];
      LastWriteWins(cache, front, entries, s);
      assert slots == front + [slots[n]];
      forall k | 0 <= k && LastNaming(slots, s, k) ensures WriteAll(cache, slots, entries)[s] == entries[k] {
        if k < n {
          assert slots[k + 1..] == front[k + 1..] + [slots[n]];
          assert LastNaming(front, s, k);
        }
      }
    }
  }

  /** Writes one entry into its block. */
  method WriteSlot(a: array2<KV>, slot: nat, entry: KV)
    requires a.Length1 > 0 && slot < Span(a.Length1, a.Length0)
    modifies a
    ensures Contents(a) == old(Contents(a))[slot := entry]
  {
    ghost var before := Contents(a);
    BlockOfPosition(slot, a.Length1, a.Length0);
    a[slot / a.Length1, slot % a.Length1] := entry;
    forall s: nat | s < |before| ensures Contents(a)[s] == before[slot := entry][s] {
      if s / a.Length1 == slot / a.Length1 && s % a.Length1 == slot % a.Length1 { SameSlot(a.Length1, s, slot); }
    }
  }

  /** Writes token by token; the first slot outside the pool stops the loop with an index error,
      after the writes before it. */
  method WriteToPagedCache(entries: seq<KV>, a: array2<KV>, slots: seq<int>) returns (written: nat)
    requires a.Length1 > 0 && |slots| == |entries|
    modifies a
    ensures written <= |slots|
    ensures forall i :: 0 <= i < written ==> InPool(slots[i], |old(Contents(a))|)
    ensures written < |slots| ==> !InPool(slots[written], |old(Contents(a))|)
    ensures Contents(a) == WriteAll(old(Contents(a)), slots[..written], entries)
  {
    ghost var before := Contents(a);
    var total := a.Length0 * a.Length1;
    SpanIsProduct(a.Length1, a.Length0);
    written := 0;
    while written < |slots|
      invariant 0 <= written <= |slots|
      invariant forall i :: 0 <= i < written ==> InPool(slots[i], |before|)
      invariant Contents(a) == WriteAll(before, slots[..written], entries)
    {
      var slot := slots[written];
      assert slots[..written + 1][..written] == slots[..written];
      if slot != -1 {
        if slot < -1 || slot >= total { return; }
        WriteSlot(a, slot, entries[written]);
      }
      written := written + 1;
    }
  }

  // ---------------------------------------------------------------- reading

  /** One block's worth of entries. */
  method ReadBlock(a: array2<KV>, block: nat, n: nat) returns (part: seq<KV>)
    requires block < a.Length0 && n <= a.Length1
    ensures |part| == n && forall j :: 0 <= j < n ==> part[j] == a[block, j]
  {
    part := [];
    for j := 0 to n
      invariant |part| == j && forall k :: 0 <= k < j ==> part[k] == a[block, k]
    {
      part := part + [a[block, j]];
    }
  }

  /** Positions lie in consecutive blocks: position Span(bs, k) + j is offset j of logical block k. */
  lemma PositionInBlock(bs: int, k: nat, j: nat)
    requires bs > 0 && j < bs
    ensures 0 <= Span(bs, k) && (Span(bs, k) + j) / bs == k && (Span(bs, k) + j) % bs == j
  {
    SlotParts(bs, k, j);
    SpanMono(bs, k, k);
  }

  /** The entries of positions below `n`, through the table. */
  ghost predicate Gathered(a: array2<KV>, table: seq<nat>, n: nat, r: seq<KV>)
    reads a
    requires a.Length1 > 0
  {
    |r| == n && forall p: nat :: p < n ==>
      0 <= p / a.Length1 < |table| && table[p / a.Length1] < a.Length0 && 0 <= p % a.Length1 < a.Length1
      && r[p] == a[table[p / a.Length1], p % a.Length1]
  }

  lemma GatheredBlock(a: array2<KV>, table: seq<nat>, k: nat, r: seq<KV>, part: seq<KV>)
    requires a.Length1 > 0 && k < |table| && table[k] < a.Length0 && |part| <= a.Length1
    requires 0 <= Span(a.Length1, k) && Gathered(a, table, Span(a.Length1, k), r)
    requires forall j :: 0 <= j < |part| ==> part[j] == a[table[k], j]
    ensures Gathered(a, table, Span(a.Length1, k) + |part|, r + part)
  {
    var bs := a.Length1;
    forall p: nat | p < Span(bs, k) + |part|
      ensures 0 <= p / bs < |table| && table[p / bs] < a.Length0 && 0 <= p % bs < bs
      ensures (r + part)[p] == a[table[p / bs], p % bs]
    {
      if p >= Span(bs, k) { PositionInBlock(bs, k, p - Span(bs, k)); }
    }
  }

  /** Walks the table block by block, the last block possibly partial; None is the index error of
      a table that does not cover `numTokens`. */
  method GatherPagedKv(a: array2<KV>, table: seq<nat>, numTokens: nat) returns (out: Option<seq<KV>>)
    requires a.Length1 > 0 && forall j :: 0 <= j < |table| ==> table[j] < a.Length0
    ensures out.Some? <==> numTokens <= Span(a.Length1, |table|)
    ensures out.Some? ==> Gathered(a, table, numTokens, out.value)
  {
    var bs := a.Length1;
    SpanMono(bs, |table|, |table|);
    var remaining, logical, parts := numTokens, 0, [];
    while remaining > 0
      invariant 0 <= remaining && 0 <= logical <= |table| && 0 <= Span(bs, logical)
      invariant remaining > 0 ==> numTokens - remaining == Span(bs, logical)
      invariant remaining == 0 ==> numTokens <= Span(bs, logical) && Gathered(a, table, numTokens, parts)
      invariant remaining > 0 ==> Gathered(a, table, Span(bs, logical), parts)
      decreases remaining
    {
      if logical >= |table| { return None; }
      var n := Min(bs, remaining);
      var part := ReadBlock(a, table[logical], n);
      GatheredBlock(a, table, logical, parts, part);
      parts := parts + part;
      remaining, logical := remaining - n, logical + 1;
    }
    SpanMono(bs, logical, |table|);
    out := Some(parts);
  }

  lemma ContentsAt(a: array2<KV>, block: nat, offset: nat)
    requires block < a.Length0 && offset < a.Length1
    ensures 0 <= Span(a.Length1, block) + offset < |Contents(a)|
    ensures Contents(a)[Span(a.Length1, block) + offset] == a[block, offset]
  {
    SlotParts(a.Length1, block, offset);
    SpanMono(a.Length1, block + 1, a.Length0);
  }

  lemma SlotRead(a: array2<KV>, table: seq<nat>, p: nat)
    requires a.Length1 > 0 && p / a.Length1 < |table| && table[p / a.Length1] < a.Length0
    ensures 0 <= p / a.Length1 && 0 <= p % a.Length1 < a.Length1
    ensures SlotOf(a.Length1, table, p) < |Contents(a)|
    ensures Contents(a)[SlotOf(a.Length1, table, p)] == a[table[p / a.Length1], p % a.Length1]
  {
    BlockOfPosition(p, a.Length1, |table|);
    ContentsAt(a, table[p / a.Length1], p % a.Length1);
  }

  /** Reading block by block is reading slot by slot. */
  lemma GatheredIsGather(cfg: Config, a: array2<KV>, table: seq<nat>, n: nat, r: seq<KV>)
    requires a.Length1 == cfg.blockSize && a.Length0 == cfg.numBlocks && n <= Span(cfg.blockSize, |table|)
    requires forall j :: 0 <= j < |table| ==> table[j] < cfg.numBlocks
    requires Gathered(a, table, n, r)
    ensures r == Gather(cfg, Contents(a), table, n)
  {
    var g := Gather(cfg, Contents(a), table, n);
    forall p: nat | p < n ensures r[p] == g[p] {
      SlotRead(a, table, p);
    }
  }
}

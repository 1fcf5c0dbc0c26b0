/** Causal attention over a sequence as a function, and why the prompt may be cut into chunks: the
    outputs of the chunks, put together, are those of one call over the whole prompt. */
module ChunkedAttention {
  import opened Base
  import opened Transformer
  import opened Attention
  import opened PagedAttention

  /** The exponential, kv heads, query heads per kv head, head dimension and scale of a layer. */
  datatype Heads = Heads(e: real -> real, kv: nat, repeats: nat, hd: nat, scale: real)

  ghost predicate HeadsOk(hs: Heads) { Exponential(hs.e) && hs.repeats > 0 }

  ghost predicate QueryOk(hs: Heads, query: seq<Vec>) { QueriesShaped(query, hs.kv, hs.repeats, hs.hd) }

  ghost predicate QueriesOk(hs: Heads, queries: seq<seq<Vec>>) {
    forall i :: 0 <= i < |queries| ==> QueryOk(hs, queries[i])
  }

  predicate EntriesOk(hs: Heads, kvs: seq<KV>) { AllShaped(kvs, hs.kv, hs.hd) }

  /** What one row of queries attends to `kvs` with. */
  ghost function RowOutput(hs: Heads, query: seq<Vec>, kvs: seq<KV>): (out: seq<Vec>)
    requires HeadsOk(hs) && QueryOk(hs, query) && EntriesOk(hs, kvs) && kvs != []
    ensures Attends(hs.e, query, kvs, hs.kv, hs.repeats, hs.hd, hs.scale, out)
  {
    forall h: nat | h < |query| ensures 0 <= h / hs.repeats < hs.kv { BlockOfPosition(h, hs.repeats, hs.kv); }
    seq(|query|, h requires 0 <= h < |query| => HeadOutput(hs.e, query[h], kvs, hs.kv, h / hs.repeats, hs.scale))
  }

  lemma RowOutputOnly(hs: Heads, query: seq<Vec>, kvs: seq<KV>, out: seq<Vec>)
    requires HeadsOk(hs) && QueryOk(hs, query) && EntriesOk(hs, kvs) && kvs != []
    requires Attends(hs.e, query, kvs, hs.kv, hs.repeats, hs.hd, hs.scale, out)
    ensures out == RowOutput(hs, query, kvs)
  {
    AttendsUnique(hs.e, query, kvs, hs.kv, hs.repeats, hs.hd, hs.scale, out, RowOutput(hs, query, kvs));
  }

  /** One attention call: row i is position `cached` + i and sees the entries up to itself. */
  ghost predicate CallOk(hs: Heads, queries: seq<seq<Vec>>, full: seq<KV>, cached: nat) {
    HeadsOk(hs) && QueriesOk(hs, queries) && EntriesOk(hs, full) && cached + |queries| <= |full|
  }

  ghost function CallOutput(hs: Heads, queries: seq<seq<Vec>>, full: seq<KV>, cached: nat): (out: seq<seq<Vec>>)
    requires CallOk(hs, queries, full, cached)
    ensures |out| == |queries|
    ensures forall i: nat :: i < |queries| ==> out[i] == RowOutput(hs, queries[i], full[..cached + i + 1])
  {
    seq(|queries|, i requires 0 <= i < |queries| => RowOutput(hs, queries[i], full[..cached + i + 1]))
  }

  /** A call that attends row by row has that output. */
  lemma CallOutputOnly(hs: Heads, queries: seq<seq<Vec>>, full: seq<KV>, cached: nat, out: seq<seq<Vec>>)
    requires CallOk(hs, queries, full, cached) && |out| == |queries|
    requires forall i :: 0 <= i < |queries| ==>
      Attends(hs.e, queries[i], full[..cached + i + 1], hs.kv, hs.repeats, hs.hd, hs.scale, out[i])
    ensures out == CallOutput(hs, queries, full, cached)
  {
    forall i: nat | i < |queries| ensures out[i] == CallOutput(hs, queries, full, cached)[i] {
      RowOutputOnly(hs, queries[i], full[..cached + i + 1], out[i]);
    }
  }

  // ---------------------------------------------------------------- chunks

  lemma PartOk(hs: Heads, queries: seq<seq<Vec>>, entries: seq<KV>, from: nat, end: nat)
    requires CallOk(hs, queries, entries, 0) && from <= end <= |queries|
    ensures CallOk(hs, queries[from..end], entries[..end], from)
  {
    assert forall i :: 0 <= i < end - from ==> queries[from..end][i] == queries[from + i];
  }

  /** A chunk computes its own rows of the call over the whole prompt. */
  lemma ChunkIsSlice(hs: Heads, queries: seq<seq<Vec>>, entries: seq<KV>, from: nat, end: nat)
    requires CallOk(hs, queries, entries, 0) && from <= end <= |queries|
    ensures CallOk(hs, queries[from..end], entries[..end], from)
    ensures CallOutput(hs, queries[from..end], entries[..end], from) == CallOutput(hs, queries, entries, 0)[from..end]
  {
    PartOk(hs, queries, entries, from, end);
    var part, whole := CallOutput(hs, queries[from..end], entries[..end], from), CallOutput(hs, queries, entries, 0);
    forall i: nat | i < end - from ensures part[i] == whole[from..end][i] {
      assert queries[from..end][i] == queries[from + i];
      assert entries[..end][..from + i + 1] == entries[..from + i + 1];
      assert whole[from..end][i] == whole[from + i] == RowOutput(hs, queries[from + i], entries[..from + i + 1]);
    }
  }

  /** Where chunk number k begins and ends. */
  function CutAt(cuts: seq<nat>, k: nat): nat
    requires k <= |cuts|
  {
    if k == 0 then 0 else cuts[k - 1]
  }

  ghost predicate CutsOk(cuts: seq<nat>, n: nat) {
    forall k: nat :: k < |cuts| ==> CutAt(cuts, k) <= cuts[k] <= n
  }

  /** The outputs of chunk after chunk: each call sees the entries up to the end of its chunk. */
  ghost function ChunkedOutput(hs: Heads, queries: seq<seq<Vec>>, entries: seq<KV>,
                               cuts: seq<nat>): (out: seq<seq<Vec>>)
    requires CallOk(hs, queries, entries, 0) && CutsOk(cuts, |queries|)
    decreases |cuts|
  {
    if cuts == [] then []
    else
      var k := |cuts| - 1;
      CutsOfFront(cuts, |queries|);
      PartOk(hs, queries, entries, CutAt(cuts, k), cuts[k]);
      ChunkedOutput(hs, queries, entries, cuts[..k])
        + CallOutput(hs, queries[CutAt(cuts, k)..cuts[k]], entries[..cuts[k]], CutAt(cuts, k))
  }

  lemma CutsOfFront(cuts: seq<nat>, n: nat)
    requires CutsOk(cuts, n) && cuts != []
    ensures CutsOk(cuts[..|cuts| - 1], n) && CutAt(cuts, |cuts| - 1) <= cuts[|cuts| - 1] <= n
  {
    var front := cuts[..|cuts| - 1];
    forall k: nat | k < |front| ensures CutAt(front, k) <= front[k] <= n {
      assert CutAt(cuts, k) <= cuts[k] <= n;
    }
  }

  /** However a prompt is cut, the chunks together give the rows of one call, up to the last cut. */
  lemma {:induction false} AnyChunking(hs: Heads, queries: seq<seq<Vec>>, entries: seq<KV>, cuts: seq<nat>)
    requires CallOk(hs, queries, entries, 0) && CutsOk(cuts, |queries|)
    ensures CutAt(cuts, |cuts|) <= |queries|
    ensures ChunkedOutput(hs, queries, entries, cuts) == CallOutput(hs, queries, entries, 0)[..CutAt(cuts, |cuts|)]
    decreases |cuts|
  {
    if cuts != [] {
      var k := |cuts| - 1;
      CutsOfFront(cuts, |queries|);
      AnyChunking(hs, queries, entries, cuts[..k]);
      assert CutAt(cuts[..k], k) == CutAt(cuts, k);
      ChunkIsSlice(hs, queries, entries, CutAt(cuts, k), cuts[k]);
      var whole := CallOutput(hs, queries, entries, 0);
      assert whole[..CutAt(cuts, k)] + whole[CutAt(cuts, k)..cuts[k]] == whole[..cuts[k]];
    }
  }

  /** So any chunking of a whole prompt is one-shot causal attention. */
  lemma ChunkingIsInvisible(hs: Heads, queries: seq<seq<Vec>>, entries: seq<KV>, cuts: seq<nat>)
    requires CallOk(hs, queries, entries, 0) && CutsOk(cuts, |queries|) && CutAt(cuts, |cuts|) == |queries|
    ensures ChunkedOutput(hs, queries, entries, cuts) == CallOutput(hs, queries, entries, 0)
  {
    AnyChunking(hs, queries, entries, cuts);
  }
}

/** The GPU attention backend over a whole batch: the prefill that gathers only the cached prefix
    and takes the chunk from this step's keys and values, and the decode kernel over padded tables.
    A layer run with them satisfies the contract of the reference layer. */
module GpuBackend {
  import opened Base
  import opened BlockSpec
  import opened Requests
  import opened Transformer
  import opened BatchSpec
  import opened Forward
  import opened PagedCache
  import opened PagedAttention
  import opened ChunkedAttention
  import opened ChunkedPrefill
  import opened ModelRunning

  // ---------------------------------------------------------------- reading the cache

  lemma GatherOk(cfg: Config, hs: Heads, cache: seq<KV>, table: seq<nat>, n: nat)
    requires n <= Span(cfg.blockSize, |table|) && |cache| == Span(cfg.blockSize, cfg.numBlocks)
    requires forall j :: 0 <= j < |table| ==> table[j] < cfg.numBlocks
    requires EntriesOk(hs, cache)
    ensures EntriesOk(hs, Gather(cfg, cache, table, n))
  {
    var g := Gather(cfg, cache, table, n);
    forall j | 0 <= j < |g| ensures KvShaped(g[j], hs.kv, hs.hd) {
      assert g[j] == cache[SlotOf(cfg.blockSize, table, j)];
    }
  }

  lemma {:induction false} ScatterOk(hs: Heads, cache: seq<KV>, slots: seq<nat>, entries: seq<KV>)
    requires |slots| == |entries| && forall i :: 0 <= i < |slots| ==> slots[i] < |cache|
    requires EntriesOk(hs, cache) && EntriesOk(hs, entries)
    ensures EntriesOk(hs, Scatter(cache, slots, entries))
    decreases |slots|
  {
    if slots != [] {
      var k := |slots| - 1;
      ScatterOk(hs, cache, slots[..k], entries[..k]);
    }
  }

  /** Reading slot by slot is reading block by block. */
  lemma {:induction false} GatherIsGathered(cfg: Config, a: array2<KV>, table: seq<nat>, n: nat)
    requires a.Length1 == cfg.blockSize && a.Length0 == cfg.numBlocks && n <= Span(cfg.blockSize, |table|)
    requires forall j :: 0 <= j < |table| ==> table[j] < cfg.numBlocks
    ensures Gathered(a, table, n, Gather(cfg, Contents(a), table, n))
  {
    forall p: nat | p < n
      ensures 0 <= p / a.Length1 < |table| && table[p / a.Length1] < a.Length0 && 0 <= p % a.Length1 < a.Length1
      ensures Gather(cfg, Contents(a), table, n)[p] == a[table[p / a.Length1], p % a.Length1]
    {
      BlockOfPosition(p, cfg.blockSize, |table|);
      SlotRead(a, table, p);
    }
  }

  // ---------------------------------------------------------------- what a batch of rows attends to

  /** What row j of the batch has to attend to: its own sequence up to its own position. */
  ghost predicate RowAttended(cfg: Config, hs: Heads, cache: seq<KV>, rows: seq<Row>, queries: seq<seq<Vec>>, j: nat,
                              out: seq<Vec>) {
    && j < |rows| && j < |queries| && |cache| == PoolSlots(cfg) && RowFits(cfg, rows[j])
    && HeadsOk(hs) && QueryOk(hs, queries[j]) && EntriesOk(hs, Gather(cfg, cache, rows[j].table, rows[j].pos + 1))
    && out == RowOutput(hs, queries[j], Gather(cfg, cache, rows[j].table, rows[j].pos + 1))
  }

  ghost predicate RowsAttended(cfg: Config, hs: Heads, cache: seq<KV>, rows: seq<Row>, queries: seq<seq<Vec>>,
                               out: seq<seq<Vec>>) {
    forall j: nat :: j < |out| ==> RowAttended(cfg, hs, cache, rows, queries, j, out[j])
  }

  /** The rows of one sequence behind `cached` positions. */
  ghost predicate SequenceAttended(cfg: Config, hs: Heads, cache: seq<KV>, table: seq<nat>, cached: nat,
                                   queries: seq<seq<Vec>>, out: seq<seq<Vec>>) {
    && |out| == |queries| && cached + |queries| <= Span(cfg.blockSize, |table|) && |cache| == PoolSlots(cfg)
    && (forall j :: 0 <= j < |table| ==> table[j] < cfg.numBlocks)
    && CallOk(hs, queries, Gather(cfg, cache, table, cached + |queries|), cached)
    && out == CallOutput(hs, queries, Gather(cfg, cache, table, cached + |queries|), cached)
  }

  lemma SequenceRow(cfg: Config, hs: Heads, cache: seq<KV>, table: seq<nat>, cached: nat, mine: seq<seq<Vec>>,
                    more: seq<seq<Vec>>,
                    rows: seq<Row>, queries: seq<seq<Vec>>, start: nat, q: nat)
    requires SequenceAttended(cfg, hs, cache, table, cached, mine, more) && q < |mine|
    requires RowOfSequence(rows, start, q, cached, table) && RowFits(cfg, rows[start + q])
    requires start + q < |queries| && mine[q] == queries[start + q]
    ensures RowAttended(cfg, hs, cache, rows, queries, start + q, more[q])
  {
    GatherPrefix(cfg, cache, table, cached + q + 1, cached + |mine|);
  }

  /** The rows of the next sequence follow those done so far. */
  lemma NextSequenceAttended(cfg: Config, hs: Heads, cache: seq<KV>, rows: seq<Row>, queries: seq<seq<Vec>>,
                             out: seq<seq<Vec>>,
                             table: seq<nat>, cached: nat, mine: seq<seq<Vec>>, more: seq<seq<Vec>>)
    requires RowsFit(cfg, rows) && RowsAttended(cfg, hs, cache, rows, queries, out)
    requires |out| + |mine| <= |queries| && mine == queries[|out|..|out| + |mine|]
    requires RowsOfSequence(rows, |out|, |mine|, cached, table)
    requires SequenceAttended(cfg, hs, cache, table, cached, mine, more)
    ensures RowsAttended(cfg, hs, cache, rows, queries, out + more)
  {
    forall j: nat | j < |out + more| ensures RowAttended(cfg, hs, cache, rows, queries, j, (out + more)[j]) {
      if j >= |out| {
        var q: nat := j - |out|;
        assert RowOfSequence(rows, |out|, q, cached, table);
        SequenceRow(cfg, hs, cache, table, cached, mine, more, rows, queries, |out|, q);
      }
    }
  }

  // ---------------------------------------------------------------- prefill

  /** The layer's write is done: the cache holds this step's entries at the slots of the rows. */
  ghost predicate AfterWrite(cfg: Config, hs: Heads, b: Blocks, batch: seq<Request>, rows: seq<Row>, cache: seq<KV>,
                             entries: seq<KV>, after: seq<KV>) {
    && Sound(cfg, b, batch) && rows == Rows(cfg, b, batch) && RowsFit(cfg, rows)
    && |cache| == PoolSlots(cfg) && |entries| == |rows| && EntriesOk(hs, after)
    && after == Scatter(cache, Slots(rows), entries)
  }

  /** Everything the fast prefill asks for holds of the k-th request after the write, and what it is
      to attend to is its cached prefix followed by its chunk. */
  lemma {:induction false} FastPrefillMayRun(cfg: Config, hs: Heads, b: Blocks, batch: seq<Request>, k: nat,
                                             r: Request, rows: seq<Row>, start: int,
                          cache: seq<KV>, entries: seq<KV>, a: array2<KV>)
    requires a.Length1 == cfg.blockSize && a.Length0 == cfg.numBlocks
    requires AfterWrite(cfg, hs, b, batch, rows, cache, entries, Contents(a))
    requires k < |batch| && r == batch[k] && start == TotalCost(cfg, batch[..k])
    ensures PrefixThenChunk(cfg, b, r, start, cache, entries, Contents(a))
    ensures
      var table := Pids(b.tables[r.id]);
      var kvs := Gather(cfg, Contents(a), table, NextEnd(cfg, r));
      && Gathered(a, table, NextEnd(cfg, r), kvs) && EntriesOk(hs, kvs)
      && kvs[KvLen(r)..] == entries[start..start + Cost(cfg, r)]
  {
    WriteFirst(cfg, b, batch, k, r, rows, start, cache, entries);
    GatherIsGathered(cfg, a, Pids(b.tables[r.id]), NextEnd(cfg, r));
    GatherOk(cfg, hs, Contents(a), Pids(b.tables[r.id]), NextEnd(cfg, r));
  }

  /** What the fast prefill of one sequence relies on. */
  ghost predicate PrefillReady(cfg: Config, hs: Heads, queries: seq<seq<Vec>>, chunk: seq<KV>, a: array2<KV>,
                               table: seq<nat>, cached: nat, kvs: seq<KV>)
    reads a
  {
    && HeadsOk(hs) && QueriesOk(hs, queries) && |chunk| == |queries|
    && a.Length1 == cfg.blockSize && a.Length0 == cfg.numBlocks
    && cached + |queries| <= Span(cfg.blockSize, |table|)
    && (forall j :: 0 <= j < |table| ==> table[j] < cfg.numBlocks)
    && kvs == Gather(cfg, Contents(a), table, cached + |queries|) && EntriesOk(hs, kvs)
    && Gathered(a, table, cached + |queries|, kvs) && chunk == kvs[cached..]
  }

  /** One sequence of the batch on the GPU: gathered prefix, then the chunk of this step. */
  method PrefillOne(hs: Heads, queries: seq<seq<Vec>>, chunk: seq<KV>, a: array2<KV>, table: seq<nat>, cached: nat,
                    ghost cfg: Config, ghost kvs: seq<KV>) returns (out: seq<seq<Vec>>)
    requires PrefillReady(cfg, hs, queries, chunk, a, table, cached, kvs)
    ensures SequenceAttended(cfg, hs, Contents(a), table, cached, queries, out)
  {
    ghost var prefix := kvs[..cached];
    assert prefix + chunk == kvs;
    out := FastPrefill(hs.e, queries, chunk, a, table, cached, hs.kv, hs.repeats, hs.hd, hs.scale, prefix);
    CallOutputOnly(hs, queries, kvs, cached, out);
  }

  /** Write-first makes both prefills the same: for every request of a written batch, gathering the
      prefix and taking the chunk from the projections gives what gathering everything gives, the
      causal attention over prefix and chunk. */
  method PrefillBothWays(hs: Heads, queries: seq<seq<Vec>>, entries: seq<KV>, a: array2<KV>, table: seq<nat>,
                         cached: nat, start: nat,
                         ghost cfg: Config, ghost b: Blocks, ghost batch: seq<Request>, ghost k: nat,
                         ghost rows: seq<Row>, ghost cache: seq<KV>)
    returns (fast: seq<seq<Vec>>, reference: seq<seq<Vec>>)
    requires HeadsOk(hs) && QueriesOk(hs, queries) && a.Length1 == cfg.blockSize && a.Length0 == cfg.numBlocks
    requires AfterWrite(cfg, hs, b, batch, rows, cache, entries, Contents(a)) && k < |batch|
    requires batch[k].id in b.tables && table == Pids(b.tables[batch[k].id])
    requires cached == KvLen(batch[k]) && start == TotalCost(cfg, batch[..k]) && |queries| == Cost(cfg, batch[k])
    ensures start + |queries| <= |entries|
    ensures cached <= Span(cfg.blockSize, |table|) && forall j :: 0 <= j < |table| ==> table[j] < cfg.numBlocks
    ensures CallOk(hs, queries, Gather(cfg, cache, table, cached) + entries[start..start + |queries|], cached)
    ensures fast == CallOutput(hs, queries, Gather(cfg, cache, table, cached) + entries[start..start + |queries|],
                               cached)
    ensures reference == fast
  {
    ghost var r := batch[k];
    FastPrefillMayRun(cfg, hs, b, batch, k, r, rows, start, cache, entries, a);
    ghost var kvs := Gather(cfg, Contents(a), table, NextEnd(cfg, r));
    fast := PrefillOne(hs, queries, entries[start..start + |queries|], a, table, cached, cfg, kvs);
    reference := ReferencePrefill(hs.e, queries, a, table, cached, hs.kv, hs.repeats, hs.hd, hs.scale, kvs);
    CallOutputOnly(hs, queries, kvs, cached, reference);
  }
}

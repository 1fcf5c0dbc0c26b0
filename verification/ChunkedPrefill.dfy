/** Where the rows of one request lie in the batch, and write-first: after the scatter the cache
    holds a request's earlier entries followed by exactly this step's entries. */
module ChunkedPrefill {
  import opened Base
  import opened BlockSpec
  import opened Requests
  import opened EngineSpec
  import opened Transformer
  import opened BatchSpec
  import opened Forward
  import opened InputBuilding

  /** The rows of `r` are the slice of the batch that begins at `start`. */
  ghost predicate SliceOf(cfg: Config, b: Blocks, r: Request, rows: seq<Row>, start: int) {
    && Covered(cfg, b, r) && 0 <= Cost(cfg, r) && 0 <= start && start + Cost(cfg, r) <= |rows|
    && rows[start..start + Cost(cfg, r)] == RowsOf(cfg, b, r)
  }

  lemma SliceOfFront(cfg: Config, b: Blocks, r: Request, rows: seq<Row>, start: int, more: seq<Row>)
    requires SliceOf(cfg, b, r, rows, start)
    ensures SliceOf(cfg, b, r, rows + more, start)
  {
    assert (rows + more)[start..start + Cost(cfg, r)] == rows[start..start + Cost(cfg, r)];
  }

  lemma SliceAtEnd(cfg: Config, b: Blocks, r: Request, rows: seq<Row>)
    requires Covered(cfg, b, r)
    ensures SliceOf(cfg, b, r, rows + RowsOf(cfg, b, r), |rows|)
  {
    LivelyCost(cfg, r);
    var all := rows + RowsOf(cfg, b, r);
    assert all[|rows|..|rows| + Cost(cfg, r)] == RowsOf(cfg, b, r);
  }

  /** The rows of the k-th request are one slice of the batch, after the rows of those before it. */
  lemma {:induction false} RowsSlice(cfg: Config, b: Blocks, batch: seq<Request>, k: nat)
    requires BatchOk(cfg, b, batch) && k < |batch|
    ensures SliceOf(cfg, b, batch[k], Rows(cfg, b, batch), TotalCost(cfg, batch[..k]))
    decreases |batch|
  {
    var last := |batch| - 1;
    var front := Rows(cfg, b, batch[..last]);
    if k < last {
      RowsSlice(cfg, b, batch[..last], k);
      assert batch[..last][..k] == batch[..k] && batch[..last][k] == batch[k];
      SliceOfFront(cfg, b, batch[k], front, TotalCost(cfg, batch[..k]), RowsOf(cfg, b, batch[last]));
    } else {
      assert batch[k] in batch;
      RowsCount(cfg, b, batch[..last]);
      SliceAtEnd(cfg, b, batch[k], front);
    }
  }

  /** Row `start + i` is position KvLen + i of the k-th request. */
  lemma {:induction false} RowInSlice(cfg: Config, b: Blocks, batch: seq<Request>, k: nat, r: Request,
                                      rows: seq<Row>, start: int, pos: nat)
    requires BatchOk(cfg, b, batch) && k < |batch| && r == batch[k] && Covered(cfg, b, r)
    requires rows == Rows(cfg, b, batch) && start == TotalCost(cfg, batch[..k]) && KvLen(r) <= pos < NextEnd(cfg, r)
    ensures 0 <= start + (pos - KvLen(r)) < |rows| && rows[start + (pos - KvLen(r))] == RowAt(cfg, b, r, pos)
  {
    LivelyCost(cfg, r);
    RowsSlice(cfg, b, batch, k);
    var i := pos - KvLen(r);
    assert rows[start..start + Cost(cfg, r)][i] == rows[start + i];
    assert RowsOf(cfg, b, r)[i] == RowAt(cfg, b, r, KvLen(r) + i);
  }

  /** Reading a longer stretch through a table extends reading a shorter one. */
  lemma GatherPrefix(cfg: Config, cache: seq<KV>, table: seq<nat>, n: nat, len: nat)
    requires n <= len <= Span(cfg.blockSize, |table|) && |cache| == Span(cfg.blockSize, cfg.numBlocks)
    requires forall j :: 0 <= j < |table| ==> table[j] < cfg.numBlocks
    ensures Gather(cfg, cache, table, len)[..n] == Gather(cfg, cache, table, n)
  {
    var a, c := Gather(cfg, cache, table, len), Gather(cfg, cache, table, n);
    forall j: nat | j < n ensures a[j] == c[j] {
    }
  }

  /** What a write of `entries` to the slots of `rows` did. */
  ghost predicate Written(rows: seq<Row>, cache: seq<KV>, entries: seq<KV>, after: seq<KV>) {
    && |entries| == |rows| && |after| == |cache|
    && (forall i :: 0 <= i < |rows| ==> rows[i].slot < |cache| && after[rows[i].slot] == entries[i])
    && (forall s :: 0 <= s < |cache| && s !in Slots(rows) ==> after[s] == cache[s])
  }

  lemma {:induction false} ScatterIsWritten(cfg: Config, b: Blocks, batch: seq<Request>, rows: seq<Row>,
                                            cache: seq<KV>, entries: seq<KV>)
    requires Sound(cfg, b, batch) && rows == Rows(cfg, b, batch) && RowsFit(cfg, rows)
    requires |cache| == PoolSlots(cfg) && |entries| == |rows|
    ensures Written(rows, cache, entries, Scatter(cache, Slots(rows), entries))
  {
    SlotMappingInjective(cfg, b, batch);
    ScatterLaw(cache, Slots(rows), entries);
    forall i | 0 <= i < |rows| ensures Scatter(cache, Slots(rows), entries)[rows[i].slot] == entries[i] {
      assert Slots(rows)[i] == rows[i].slot;
    }
  }

  /** Where position j of the k-th request is after the write: untouched when it was cached before,
      this step's entry otherwise. */
  lemma {:induction false} EntryAfter(cfg: Config, b: Blocks, batch: seq<Request>, k: nat, r: Request,
                                      rows: seq<Row>, start: int,
                   cache: seq<KV>, entries: seq<KV>, after: seq<KV>, j: nat)
    requires Sound(cfg, b, batch) && k < |batch| && r == batch[k] && Covered(cfg, b, r) && |cache| == PoolSlots(cfg)
    requires rows == Rows(cfg, b, batch) && start == TotalCost(cfg, batch[..k])
    requires Written(rows, cache, entries, after) && j < NextEnd(cfg, r)
    ensures SlotAt(cfg, b, r, j) < |cache|
    ensures j < KvLen(r) ==> after[SlotAt(cfg, b, r, j)] == cache[SlotAt(cfg, b, r, j)]
    ensures j >= KvLen(r) ==> 0 <= start + (j - KvLen(r)) < |rows|
                              && after[SlotAt(cfg, b, r, j)] == entries[start + (j - KvLen(r))]
  {
    SlotInRange(cfg, b, r, j);
    if j < KvLen(r) {
      OldSlotsUntouched(cfg, b, batch, r, j);
    } else {
      RowInSlice(cfg, b, batch, k, r, rows, start, j);
    }
  }

  /** Reading a request through its table after the write: what it had before, then the entries of
      its rows of this step, in order.  So a prefill may gather only the cached prefix and take the
      rest from its own keys and values. */
  ghost predicate PrefixThenChunk(cfg: Config, b: Blocks, r: Request, start: int, cache: seq<KV>, entries: seq<KV>,
                                  after: seq<KV>) {
    && Covered(cfg, b, r) && |cache| == |after| == PoolSlots(cfg)
    && 0 <= start <= start + Cost(cfg, r) <= |entries|
    && 0 <= KvLen(r) <= NextEnd(cfg, r) <= Span(cfg.blockSize, |b.tables[r.id]|)
    && (forall j :: 0 <= j < |b.tables[r.id]| ==> Pids(b.tables[r.id])[j] < cfg.numBlocks)
    && Gather(cfg, after, Pids(b.tables[r.id]), NextEnd(cfg, r))
       == Gather(cfg, cache, Pids(b.tables[r.id]), KvLen(r)) + entries[start..start + Cost(cfg, r)]
  }

  lemma {:induction false} ReadAfterWrite(cfg: Config, b: Blocks, batch: seq<Request>, k: nat, r: Request,
                                          rows: seq<Row>, start: int,
                       cache: seq<KV>, entries: seq<KV>, after: seq<KV>)
    requires Sound(cfg, b, batch) && k < |batch| && r == batch[k] && Covered(cfg, b, r) && |cache| == PoolSlots(cfg)
    requires rows == Rows(cfg, b, batch) && start == TotalCost(cfg, batch[..k])
    requires Written(rows, cache, entries, after)
    ensures PrefixThenChunk(cfg, b, r, start, cache, entries, after)
  {
    LivelyCost(cfg, r);
    RowsSlice(cfg, b, batch, k);
    var table := Pids(b.tables[r.id]);
    var all, prefix := Gather(cfg, after, table, NextEnd(cfg, r)), Gather(cfg, cache, table, KvLen(r));
    var parts := prefix + entries[start..start + Cost(cfg, r)];
    forall j: nat | j < |all| ensures all[j] == parts[j] {
      EntryAfter(cfg, b, batch, k, r, rows, start, cache, entries, after, j);
      EntryPlaced(cfg, b, r, cache, after, entries, start, j);
    }
    assert all == parts;
  }

  lemma EntryPlaced(cfg: Config, b: Blocks, r: Request, cache: seq<KV>, after: seq<KV>, entries: seq<KV>, start: int,
                    j: nat)
    requires Covered(cfg, b, r) && |cache| == |after| == PoolSlots(cfg) && 0 <= KvLen(r) && j < NextEnd(cfg, r)
    requires 0 <= start <= start + Cost(cfg, r) <= |entries|
    requires forall i :: 0 <= i < |b.tables[r.id]| ==> Pids(b.tables[r.id])[i] < cfg.numBlocks
    requires SlotAt(cfg, b, r, j) < |cache|
    requires if j < KvLen(r) then after[SlotAt(cfg, b, r, j)] == cache[SlotAt(cfg, b, r, j)]
             else after[SlotAt(cfg, b, r, j)] == entries[start + (j - KvLen(r))]
    ensures Gather(cfg, after, Pids(b.tables[r.id]), NextEnd(cfg, r))[j]
         == (Gather(cfg, cache, Pids(b.tables[r.id]), KvLen(r)) + entries[start..start + Cost(cfg, r)])[j]
  {
    GatherEntry(cfg, b, r, after, NextEnd(cfg, r), j);
    if j < KvLen(r) { GatherEntry(cfg, b, r, cache, KvLen(r), j); }
  }

  /** Position j of a gathered sequence is the content of its slot. */
  lemma GatherEntry(cfg: Config, b: Blocks, r: Request, cache: seq<KV>, n: nat, j: nat)
    requires Covered(cfg, b, r) && |cache| == PoolSlots(cfg) && j < n <= NextEnd(cfg, r)
    requires forall i :: 0 <= i < |b.tables[r.id]| ==> Pids(b.tables[r.id])[i] < cfg.numBlocks
    ensures SlotAt(cfg, b, r, j) < |cache|
    ensures Gather(cfg, cache, Pids(b.tables[r.id]), n)[j] == cache[SlotAt(cfg, b, r, j)]
  {
    var g := Gather(cfg, cache, Pids(b.tables[r.id]), n);
    assert g[j] == cache[SlotOf(cfg.blockSize, Pids(b.tables[r.id]), j)];
  }

  lemma {:induction false} WriteFirst(cfg: Config, b: Blocks, batch: seq<Request>, k: nat, r: Request,
                                      rows: seq<Row>, start: int, cache: seq<KV>, entries: seq<KV>)
    requires Sound(cfg, b, batch) && k < |batch| && r == batch[k] && |cache| == PoolSlots(cfg)
    requires rows == Rows(cfg, b, batch) && start == TotalCost(cfg, batch[..k]) && RowsFit(cfg, rows)
    requires |entries| == |rows|
    ensures PrefixThenChunk(cfg, b, r, start, cache, entries, Scatter(cache, Slots(rows), entries))
  {
    assert r in batch;
    ScatterIsWritten(cfg, b, batch, rows, cache, entries);
    ReadAfterWrite(cfg, b, batch, k, r, rows, start, cache, entries, Scatter(cache, Slots(rows), entries));
  }
}

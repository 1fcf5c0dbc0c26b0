/** A model runner on the GPU kernels: batch-wide prefill and decode attention, the refusal of a
    batch with an empty sequence, and one layer, which comes to exactly what the reference layer
    comes to. */
module GpuRunning {
  import opened Base
  import opened BlockSpec
  import opened Requests
  import opened EngineSpec
  import opened Transformer
  import opened BatchSpec
  import opened Forward
  import opened PagedCache
  import opened PagedAttention
  import opened ChunkedAttention
  import opened InputBuilding
  import opened ChunkedPrefill
  import opened ModelRunning
  import opened GpuBackend

  // ---------------------------------------------------------------- a model made of heads

  /** query: layer, hidden state and position to one vector per query head; finish: layer, hidden
      state and attended heads to the next hidden state. */
  datatype HeadModel = HeadModel(hs: Heads, query: (nat, Vec, nat) -> seq<Vec>, finish: (nat, Vec, seq<Vec>) -> Vec)

  ghost predicate KeyValueOk(hs: Heads, kv: KV) { KvShaped(kv, hs.kv, hs.hd) }

  /** The model's attention is softmax attention of the query heads, with a finish after it. */
  ghost predicate SplitsInto(m: Model, g: HeadModel) {
    && HeadsOk(g.hs)
    && (forall l: nat, h: Vec, p: nat :: QueryOk(g.hs, g.query(l, h, p)))
    && (forall l: nat, h: Vec, p: nat :: KeyValueOk(g.hs, m.project(l, h, p)))
    && (forall l: nat, h: Vec, p: nat, es: seq<KV> ::
          es != [] && EntriesOk(g.hs, es) && QueryOk(g.hs, g.query(l, h, p)) ==>
          m.attend(l, h, p, es) == g.finish(l, h, RowOutput(g.hs, g.query(l, h, p), es)))
  }

  /** The query heads of every row. */
  ghost function Queries(g: HeadModel, l: nat, rows: seq<Row>, hidden: seq<Vec>): (qs: seq<seq<Vec>>)
    requires |hidden| == |rows|
    ensures |qs| == |rows| && forall i :: 0 <= i < |rows| ==> qs[i] == g.query(l, hidden[i], rows[i].pos)
  {
    seq(|rows|, i requires 0 <= i < |rows| => g.query(l, hidden[i], rows[i].pos))
  }

  lemma QueriesAreOk(m: Model, g: HeadModel, l: nat, rows: seq<Row>, hidden: seq<Vec>)
    requires SplitsInto(m, g) && |hidden| == |rows|
    ensures QueriesOk(g.hs, Queries(g, l, rows, hidden))
  {
  }

  lemma ProjectionsOk(m: Model, g: HeadModel, l: nat, rows: seq<Row>, hidden: seq<Vec>)
    requires SplitsInto(m, g) && |hidden| == |rows|
    ensures EntriesOk(g.hs, Projections(m, l, rows, hidden))
  {
    var es := Projections(m, l, rows, hidden);
    forall i | 0 <= i < |es| ensures KvShaped(es[i], g.hs.kv, g.hs.hd) {
      assert KeyValueOk(g.hs, m.project(l, hidden[i], rows[i].pos));
    }
  }

  // ---------------------------------------------------------------- one-shot attention in a run

  /** The query heads of the first `n` positions of a sequence, computed without any cache. */
  ghost function SequenceQueries(m: Model, g: HeadModel, tokens: seq<Token>, l: nat, n: nat): (qs: seq<seq<Vec>>)
    requires n <= |tokens|
    ensures |qs| == n && forall p: nat :: p < n ==> qs[p] == g.query(l, Hidden(m, tokens, l, p), p)
  {
    seq(n, p requires 0 <= p < n => g.query(l, Hidden(m, tokens, l, p), p))
  }

  lemma {:induction false} SequenceEntriesOk(m: Model, g: HeadModel, tokens: seq<Token>, l: nat, n: nat)
    requires SplitsInto(m, g) && n <= |tokens|
    ensures CallOk(g.hs, SequenceQueries(m, g, tokens, l, n), Entries(m, tokens, l, n), 0)
  {
    var es := Entries(m, tokens, l, n);
    forall j | 0 <= j < n ensures KvShaped(es[j], g.hs.kv, g.hs.hd) {
      assert KeyValueOk(g.hs, m.project(l, Hidden(m, tokens, l, j), j));
    }
  }

  lemma {:induction false} SliceBounds(cfg: Config, b: Blocks, batch: seq<Request>, rows: seq<Row>, k: nat,
                                       r: Request, start: int)
    requires BatchOk(cfg, b, batch) && rows == Rows(cfg, b, batch) && k < |batch| && r == batch[k]
    requires start == TotalCost(cfg, batch[..k])
    ensures Covered(cfg, b, r) && 0 <= KvLen(r) <= NextEnd(cfg, r) <= |TokensOf(r)|
    ensures 0 <= start && 0 <= Cost(cfg, r) && start + Cost(cfg, r) <= |rows|
  {
    assert r in batch;
    LivelyCost(cfg, r);
    RowsSlice(cfg, b, batch, k);
  }

  /** The query heads of a request's rows are those of its positions. */
  lemma {:induction false} SliceQueries(cfg: Config, m: Model, g: HeadModel, b: Blocks, batch: seq<Request>,
                                        rows: seq<Row>, hidden: seq<Vec>, l: nat,
                     k: nat, r: Request, start: int, from: int, end: int)
    requires BatchOk(cfg, b, batch) && rows == Rows(cfg, b, batch) && k < |batch| && r == batch[k]
    requires Covered(cfg, b, r)
    requires start == TotalCost(cfg, batch[..k]) && HiddenOk(m, batch, rows, hidden, l)
    requires from == KvLen(r) && end == NextEnd(cfg, r) && 0 <= from <= end <= |TokensOf(r)|
    requires 0 <= start && start + (end - from) <= |rows| == |hidden|
    ensures Queries(g, l, rows, hidden)[start..start + (end - from)]
      == SequenceQueries(m, g, TokensOf(r), l, end)[from..]
  {
    var qs, mine := Queries(g, l, rows, hidden), SequenceQueries(m, g, TokensOf(r), l, end);
    forall i: nat | i < end - from ensures Agree(qs, start, mine, from, i) {
      RowAgrees(cfg, m, g, b, batch, rows, hidden, l, k, r, start, end, i);
    }
    SameSlices(qs, start, mine, from, end - from);
  }

  lemma {:induction false} RowAgrees(cfg: Config, m: Model, g: HeadModel, b: Blocks, batch: seq<Request>,
                                     rows: seq<Row>, hidden: seq<Vec>, l: nat,
                  k: nat, r: Request, start: int, end: int, i: nat)
    requires BatchOk(cfg, b, batch) && rows == Rows(cfg, b, batch) && k < |batch| && r == batch[k]
    requires Covered(cfg, b, r)
    requires start == TotalCost(cfg, batch[..k]) && HiddenOk(m, batch, rows, hidden, l) && start >= 0
    requires end == NextEnd(cfg, r) && 0 <= KvLen(r) <= end <= |TokensOf(r)| && i < end - KvLen(r)
    ensures |rows| == |hidden|
    ensures Agree(Queries(g, l, rows, hidden), start, SequenceQueries(m, g, TokensOf(r), l, end), KvLen(r), i)
  {
    RowHidden(cfg, m, b, batch, rows, hidden, l, k, r, start, KvLen(r) + i);
  }

  ghost predicate Agree<T>(a: seq<T>, i: nat, b: seq<T>, j: nat, k: nat) {
    i + k < |a| && j + k < |b| && a[i + k] == b[j + k]
  }

  lemma SameSlices<T>(a: seq<T>, i: nat, b: seq<T>, j: nat, n: nat)
    requires i + n <= |a| && j + n == |b| && forall k: nat :: k < n ==> Agree(a, i, b, j, k)
    ensures a[i..i + n] == b[j..]
  {
    forall k: nat | k < n ensures a[i..i + n][k] == b[j..][k] { assert Agree(a, i, b, j, k); }
  }

  lemma {:induction false} RowHidden(cfg: Config, m: Model, b: Blocks, batch: seq<Request>, rows: seq<Row>,
                                     hidden: seq<Vec>, l: nat, k: nat, r: Request, start: int, pos: nat)
    requires BatchOk(cfg, b, batch) && rows == Rows(cfg, b, batch) && k < |batch| && r == batch[k]
    requires Covered(cfg, b, r)
    requires start == TotalCost(cfg, batch[..k]) && HiddenOk(m, batch, rows, hidden, l)
    requires KvLen(r) <= pos < NextEnd(cfg, r) && pos < |TokensOf(r)|
    ensures
      var j := start + (pos - KvLen(r));
      0 <= j < |rows| == |hidden| && rows[j].pos == pos && hidden[j] == Hidden(m, TokensOf(r), l, pos)
  {
    RowInSlice(cfg, b, batch, k, r, rows, start, pos);
  }

  /** What attention over the cache `after` gives for the rows of `r`, which begin at `start`, is the
      last part of one call over all its tokens, computed without a cache. */
  ghost predicate OneShotRows(cfg: Config, m: Model, g: HeadModel, b: Blocks, r: Request, rows: seq<Row>, start: int,
                              after: seq<KV>, hidden: seq<Vec>, l: nat) {
    && 0 <= start && 0 <= KvLen(r) <= NextEnd(cfg, r) <= |TokensOf(r)|
    && start + (NextEnd(cfg, r) - KvLen(r)) <= |rows| == |hidden|
    && r.id in b.tables && NextEnd(cfg, r) <= Span(cfg.blockSize, |b.tables[r.id]|) && |after| == PoolSlots(cfg)
    && (forall j :: 0 <= j < |b.tables[r.id]| ==> Pids(b.tables[r.id])[j] < cfg.numBlocks)
    && var kvs := Gather(cfg, after, Pids(b.tables[r.id]), NextEnd(cfg, r));
       var mine := Queries(g, l, rows, hidden)[start..start + (NextEnd(cfg, r) - KvLen(r))];
       var all := SequenceQueries(m, g, TokensOf(r), l, NextEnd(cfg, r));
       OneShot(g.hs, mine, kvs, KvLen(r), all, Entries(m, TokensOf(r), l, NextEnd(cfg, r)))
  }

  ghost predicate OneShot(hs: Heads, mine: seq<seq<Vec>>, kvs: seq<KV>, cached: nat, all: seq<seq<Vec>>,
                          entries: seq<KV>) {
    && CallOk(hs, mine, kvs, cached) && CallOk(hs, all, entries, 0) && cached <= |all|
    && CallOutput(hs, mine, kvs, cached) == CallOutput(hs, all, entries, 0)[cached..]
  }

  /** The chunk of a request in any step of a run gives exactly its rows of one-shot causal attention
      over its own tokens, computed without a cache: whatever was cached before, however the prompt
      was cut, and whoever else is in the batch. */
  lemma {:induction false} ChunkOfRunIsOneShot(cfg: Config, m: Model, g: HeadModel, b: Blocks, batch: seq<Request>,
                                               k: nat, r: Request, rows: seq<Row>, start: int,
                            cache: seq<KV>, hidden: seq<Vec>, l: nat)
    requires SplitsInto(m, g) && Sound(cfg, b, batch) && rows == Rows(cfg, b, batch) && |cache| == PoolSlots(cfg)
    requires k < |batch| && r == batch[k] && start == TotalCost(cfg, batch[..k])
    requires HiddenOk(m, batch, rows, hidden, l) && Logged(cfg, m, b, r, cache, l, Min(KvLen(r), NextEnd(cfg, r)))
    ensures RowsFit(cfg, rows) && |hidden| == |rows|
    ensures OneShotRows(cfg, m, g, b, r, rows, start, Scatter(cache, Slots(rows), Projections(m, l, rows, hidden)),
                        hidden, l)
  {
    SliceBounds(cfg, b, batch, rows, k, r, start);
    LogAfterWrite(cfg, m, b, batch, rows, r, cache, hidden, l, NextEnd(cfg, r));
    OneShotFromLog(cfg, m, g, b, batch, k, r, rows, start,
                   Scatter(cache, Slots(rows), Projections(m, l, rows, hidden)), hidden, l);
  }

  lemma {:induction false} OneShotFromLog(cfg: Config, m: Model, g: HeadModel, b: Blocks, batch: seq<Request>,
                                          k: nat, r: Request, rows: seq<Row>, start: int,
                       after: seq<KV>, hidden: seq<Vec>, l: nat)
    requires SplitsInto(m, g) && BatchOk(cfg, b, batch) && rows == Rows(cfg, b, batch) && |after| == PoolSlots(cfg)
    requires k < |batch| && r == batch[k] && start == TotalCost(cfg, batch[..k])
    requires HiddenOk(m, batch, rows, hidden, l)
    requires r.id in b.tables && 0 <= NextEnd(cfg, r) <= Span(cfg.blockSize, |b.tables[r.id]|)
    requires NextEnd(cfg, r) <= |TokensOf(r)|
    requires forall j :: 0 <= j < |b.tables[r.id]| ==> Pids(b.tables[r.id])[j] < cfg.numBlocks
    requires Gather(cfg, after, Pids(b.tables[r.id]), NextEnd(cfg, r)) == Entries(m, TokensOf(r), l, NextEnd(cfg, r))
    ensures OneShotRows(cfg, m, g, b, r, rows, start, after, hidden, l)
  {
    SliceBounds(cfg, b, batch, rows, k, r, start);
    SliceQueries(cfg, m, g, b, batch, rows, hidden, l, k, r, start, KvLen(r), NextEnd(cfg, r));
    SequenceEntriesOk(m, g, TokensOf(r), l, NextEnd(cfg, r));
    var all, es := SequenceQueries(m, g, TokensOf(r), l, NextEnd(cfg, r)), Entries(m, TokensOf(r), l, NextEnd(cfg, r));
    LastPartOfCall(g.hs, all, es, KvLen(r));
    assert OneShot(g.hs, all[KvLen(r)..], es, KvLen(r), all, es);
  }

  lemma {:induction false} LogAfterWrite(cfg: Config, m: Model, b: Blocks, batch: seq<Request>, rows: seq<Row>,
                                         r: Request, cache: seq<KV>, hidden: seq<Vec>, l: nat, n: nat)
    requires Sound(cfg, b, batch) && rows == Rows(cfg, b, batch) && |cache| == PoolSlots(cfg) && r in batch
    requires n == NextEnd(cfg, r)
    requires HiddenOk(m, batch, rows, hidden, l) && Logged(cfg, m, b, r, cache, l, Min(KvLen(r), NextEnd(cfg, r)))
    ensures RowsFit(cfg, rows) && r.id in b.tables && n <= |TokensOf(r)| && n <= Span(cfg.blockSize, |b.tables[r.id]|)
    ensures forall j :: 0 <= j < |b.tables[r.id]| ==> Pids(b.tables[r.id])[j] < cfg.numBlocks
    ensures Gather(cfg, Scatter(cache, Slots(rows), Projections(m, l, rows, hidden)), Pids(b.tables[r.id]), n)
      == Entries(m, TokensOf(r), l, n)
  {
    ScatterLogs(cfg, m, b, batch, cache, hidden, l, r);
    GatherIsLog(cfg, m, b, r, Scatter(cache, Slots(rows), Projections(m, l, rows, hidden)), l, n);
  }

  /** The rest of a call behind `from` positions, as a call of its own. */
  lemma LastPartOfCall(hs: Heads, queries: seq<seq<Vec>>, entries: seq<KV>, from: nat)
    requires CallOk(hs, queries, entries, 0) && from <= |queries| == |entries|
    ensures CallOk(hs, queries[from..], entries, from)
    ensures CallOutput(hs, queries[from..], entries, from) == CallOutput(hs, queries, entries, 0)[from..]
  {
    var n := |queries|;
    ChunkIsSlice(hs, queries, entries, from, n);
    assert queries[from..n] == queries[from..] && entries[..n] == entries;
    assert CallOutput(hs, queries, entries, 0)[from..n] == CallOutput(hs, queries, entries, 0)[from..];
  }

  // ---------------------------------------------------------------- decode

  /** The block table, length and entries of one sequence of a decode batch. */
  ghost predicate DecodeOk(hs: Heads, a: array2<KV>, row: seq<int>, kvLen: int, table: seq<nat>, kvs: seq<KV>)
    reads a
  {
    kvLen >= 1 ==> a.Length1 > 0 && RowHolds(row, table) && Gathered(a, table, kvLen, kvs) && EntriesOk(hs, kvs)
  }

  /** The decode launch: a batch with one empty sequence is refused as a whole, otherwise every
      sequence attends to its own entries. */
  method DecodeBatch(hs: Heads, queries: seq<seq<Vec>>, a: array2<KV>, tables: seq<seq<int>>, kvLens: seq<int>,
                     ghost tabs: seq<seq<nat>>, ghost kvss: seq<seq<KV>>) returns (out: Option<seq<seq<Vec>>>)
    requires HeadsOk(hs) && QueriesOk(hs, queries) && a.Length1 > 0
    requires |queries| == |tables| == |kvLens| == |tabs| == |kvss|
    requires forall i :: 0 <= i < |kvLens| ==> DecodeOk(hs, a, tables[i], kvLens[i], tabs[i], kvss[i])
    ensures out.Some? <==> forall i :: 0 <= i < |kvLens| ==> kvLens[i] >= 1
    ensures out.Some? ==> |out.value| == |queries|
    ensures out.Some? ==> forall i :: 0 <= i < |queries| ==>
      EntriesOk(hs, kvss[i]) && kvss[i] != [] && out.value[i] == RowOutput(hs, queries[i], kvss[i])
  {
    for i := 0 to |kvLens|
      invariant forall j :: 0 <= j < i ==> kvLens[j] >= 1
    {
      if kvLens[i] < 1 { return None; }
    }
    var result := [];
    for i := 0 to |queries|
      invariant |result| == i
      invariant forall j :: 0 <= j < i ==>
        EntriesOk(hs, kvss[j]) && kvss[j] != [] && result[j] == RowOutput(hs, queries[j], kvss[j])
    {
      assert DecodeOk(hs, a, tables[i], kvLens[i], tabs[i], kvss[i]);
      var row := KernelDecode(hs.e, queries[i], a, tables[i], kvLens[i], hs.kv, hs.repeats, hs.hd, hs.scale, tabs[i],
                              kvss[i]);
      RowOutputOnly(hs, queries[i], kvss[i], row.value);
      result := result + [row.value];
    }
    out := Some(result);
  }

  lemma {:induction false} DecodesCostOne(cfg: Config, batch: seq<Request>, first: nat, i: nat)
    requires first + i <= |batch| && forall k :: first <= k < |batch| ==> batch[k].status != Prefill
    ensures TotalCost(cfg, batch[..first + i]) == TotalCost(cfg, batch[..first]) + i
  {
    if i > 0 {
      DecodesCostOne(cfg, batch, first, i - 1);
      CostOfNext(cfg, batch, first + i - 1);
    }
  }

  /** A padded row of the table tensor holds its table. */
  lemma PaddedHolds(b: Blocks, rs: seq<Request>, tables: seq<seq<int>>, width: nat, i: nat)
    requires Tabled(b, rs, tables, width) && i < |rs|
    ensures RowHolds(tables[i], TableOf(b, rs[i].id))
  {
  }

  /** The one row of a decode. */
  lemma {:induction false} DecodeRow(cfg: Config, b: Blocks, batch: seq<Request>, rows: seq<Row>, k: nat, j: int,
                                     r: Request)
    requires Seated(cfg, b, batch) && rows == Rows(cfg, b, batch) && k < |batch| && r == batch[k]
    requires r.status != Prefill
    requires j == TotalCost(cfg, batch[..k])
    ensures 0 <= j < |rows| && RowFits(cfg, rows[j]) && rows[j].pos + 1 == NextEnd(cfg, r)
    ensures rows[j].table == TableOf(b, r.id)
  {
    assert r in batch;
    LivelyCost(cfg, r);
    var pos: nat := KvLen(r);
    RowInSlice(cfg, b, batch, k, r, rows, j, pos);
    assert rows[j] == RowAt(cfg, b, r, pos);
    RowsFitLemma(cfg, b, batch);
  }

  /** A row of the batch as the kernel gets it: its entries are those of its own sequence up to its
      own position. */
  lemma DecodeInput(cfg: Config, hs: Heads, w: Row, row: seq<int>, a: array2<KV>)
    requires a.Length1 == cfg.blockSize && a.Length0 == cfg.numBlocks && EntriesOk(hs, Contents(a))
    requires RowFits(cfg, w) && RowHolds(row, w.table)
    ensures
      var kvs := Gather(cfg, Contents(a), w.table, w.pos + 1);
      EntriesOk(hs, kvs) && DecodeOk(hs, a, row, w.pos + 1, w.table, kvs)
  {
    GatherOk(cfg, hs, Contents(a), w.table, w.pos + 1);
    GatherIsGathered(cfg, a, w.table, w.pos + 1);
  }

  // ---------------------------------------------------------------- the runner

  lemma GroupFields(cfg: Config, prefills: seq<Request>, decodes: seq<Request>, input: ModelInput)
    requires input.groups == GroupsOf(MetasOf(cfg, prefills), MetasOf(cfg, decodes)) && |decodes| > 0
    ensures FindGroup(input.groups, true).Some?
    ensures
      var g := FindGroup(input.groups, true).value;
      |g.kvAfter| == |decodes| && forall i :: 0 <= i < |decodes| ==> g.kvAfter[i] == NextEnd(cfg, decodes[i])
  {
    GroupsFound(MetasOf(cfg, prefills), MetasOf(cfg, decodes));
  }

  /** The rows from `start` on. */
  ghost predicate PartAttended(cfg: Config, hs: Heads, cache: seq<KV>, rows: seq<Row>, queries: seq<seq<Vec>>,
                               start: nat, out: seq<seq<Vec>>) {
    forall i: nat :: i < |out| ==> RowAttended(cfg, hs, cache, rows, queries, start + i, out[i])
  }

  lemma RowsAttendedAppend(cfg: Config, hs: Heads, cache: seq<KV>, rows: seq<Row>, queries: seq<seq<Vec>>,
                           out: seq<seq<Vec>>, more: seq<seq<Vec>>)
    requires RowsAttended(cfg, hs, cache, rows, queries, out)
    requires PartAttended(cfg, hs, cache, rows, queries, |out|, more)
    ensures RowsAttended(cfg, hs, cache, rows, queries, out + more)
  {
    forall j: nat | j < |out + more| ensures RowAttended(cfg, hs, cache, rows, queries, j, (out + more)[j]) {
      if j >= |out| { assert RowAttended(cfg, hs, cache, rows, queries, |out| + (j - |out|), more[j - |out|]); }
    }
  }

  class GpuModelRunner {
    const runner: ModelRunner
    const g: HeadModel

    constructor (runner: ModelRunner, g: HeadModel)
      ensures this.runner == runner && this.g == g
    {
      this.runner := runner;
      this.g := g;
    }

    /** The layer's write is done and the model is made of these heads. */
    ghost predicate Ready(a: array2<KV>, b: Blocks, batch: seq<Request>, rows: seq<Row>, cache: seq<KV>,
                          entries: seq<KV>, queries: seq<seq<Vec>>)
      reads a
    {
      && a.Length0 == runner.cfg.numBlocks && a.Length1 == runner.cfg.blockSize
      && HeadsOk(g.hs) && QueriesOk(g.hs, queries) && |queries| == |rows|
      && AfterWrite(runner.cfg, g.hs, b, batch, rows, cache, entries, Contents(a))
    }

    /** One sequence of the prefill loop. */
    method PrefillNext(queries: seq<seq<Vec>>, entries: seq<KV>, a: array2<KV>, table: seq<nat>, cached: nat,
                       out: seq<seq<Vec>>,
                       ghost b: Blocks, ghost batch: seq<Request>, ghost k: nat, ghost r: Request,
                       ghost rows: seq<Row>,
                       ghost cache: seq<KV>, ghost all: seq<KV>, ghost qs: seq<seq<Vec>>)
      returns (more: seq<seq<Vec>>)
      requires Ready(a, b, batch, rows, cache, all, qs) && k < |batch| && r == batch[k] && r.id in b.tables
      requires KvLen(r) >= 0
      requires |out| == TotalCost(runner.cfg, batch[..k])
      requires RowsAttended(runner.cfg, g.hs, Contents(a), rows, qs, out)
      requires |queries| == |entries| == Cost(runner.cfg, r) && |out| + |queries| <= |rows|
      requires queries == qs[|out|..|out| + |queries|] && entries == all[|out|..|out| + |queries|]
      requires table == Pids(b.tables[r.id]) && cached == KvLen(r)
      ensures |more| == |queries| && RowsAttended(runner.cfg, g.hs, Contents(a), rows, qs, out + more)
    {
      SlicedQueriesOk(g.hs, qs, queries, |out|);
      ghost var kvs := PrefillIsReady(runner.cfg, g.hs, b, batch, k, r, rows, |out|, cache, all, queries, entries, a);
      more := PrefillOne(g.hs, queries, entries, a, table, cached, runner.cfg, kvs);
      SequenceAppended(runner.cfg, g.hs, b, batch, k, r, rows, qs, out, queries, more, Contents(a));
    }

    /** Prefill attention over the first rows of the batch, sequence by sequence. */
    method PrefillAttention(queries: seq<seq<Vec>>, entries: seq<KV>, a: array2<KV>, group: Group,
                            tables: seq<seq<int>>,
                            ghost b: Blocks, ghost batch: seq<Request>, ghost rs: seq<Request>, ghost rows: seq<Row>,
                            ghost cache: seq<KV>, ghost all: seq<KV>, ghost qs: seq<seq<Vec>>)
      returns (out: seq<seq<Vec>>)
      requires Ready(a, b, batch, rows, cache, all, qs) && rs <= batch && HalfOk(runner.cfg, b, rs, group, tables)
      requires |queries| == |entries| == TotalCost(runner.cfg, rs) <= |rows|
      requires queries == qs[..|queries|] && entries == all[..|entries|]
      ensures |out| == |queries| && RowsAttended(runner.cfg, g.hs, Contents(a), rows, qs, out)
    {
      out := [];
      for i := 0 to |group.seqIndices|
        invariant |out| == TotalCost(runner.cfg, batch[..i])
        invariant RowsAttended(runner.cfg, g.hs, Contents(a), rows, qs, out)
      {
        TurnOk(runner.cfg, b, batch, rs, i, rs[i], tables[i]);
        var offset: nat := |out|;
        var end: nat := offset + group.queryLen[i];
        var table: seq<nat> := Unpadded(tables[group.seqIndices[i]]);
        SubSlice(qs, queries, offset, end);
        SubSlice(all, entries, offset, end);
        var more := PrefillNext(queries[offset..end], entries[offset..end], a, table, group.cachedBefore[i], out,
                                b, batch, i, rs[i], rows, cache, all, qs);
        CostOfNext(runner.cfg, batch, i);
        out := out + more;
      }
      assert batch[..|rs|] == rs;
    }

    /** The launch over the rows from `start` on. */
    method DecodeLaunch(queries: seq<seq<Vec>>, a: array2<KV>, tables: seq<seq<int>>, kvLens: seq<int>,
                        ghost rows: seq<Row>, ghost start: nat, ghost tabs: seq<seq<nat>>, ghost kvss: seq<seq<KV>>,
                        ghost qs: seq<seq<Vec>>)
      returns (out: Option<seq<seq<Vec>>>)
      requires a.Length1 > 0 && HeadsOk(g.hs) && QueriesOk(g.hs, queries)
      requires InputsOk(runner.cfg, g.hs, a, rows, start, tables, kvLens, tabs, kvss)
      requires |queries| == |tabs| == |tables|
      requires forall i :: 0 <= i < |kvLens| ==> kvLens[i] >= 1
      requires start + |queries| <= |qs| && queries == qs[start..start + |queries|]
      ensures out.Some? && |out.value| == |queries|
      ensures PartAttended(runner.cfg, g.hs, Contents(a), rows, qs, start, out.value)
    {
      InputsAreOk(runner.cfg, g.hs, a, rows, start, tables, kvLens, tabs, kvss);
      out := DecodeBatch(g.hs, queries, a, tables, kvLens, tabs, kvss);
      DecodedRows(runner.cfg, g.hs, a, rows, start, tables, kvLens, tabs, kvss, qs, queries, out.value);
    }

    /** Decode attention over the rows from `start` on; None is the refusal of the launch, which does
        not happen. */
    method DecodeAttention(queries: seq<seq<Vec>>, a: array2<KV>, group: Group, tables: seq<seq<int>>,
                           ghost b: Blocks, ghost batch: seq<Request>, ghost first: nat, ghost rs: seq<Request>,
                           ghost rows: seq<Row>,
                           ghost start: nat, ghost qs: seq<seq<Vec>>)
      returns (out: Option<seq<seq<Vec>>>)
      requires a.Length1 == runner.cfg.blockSize && a.Length0 == runner.cfg.numBlocks && EntriesOk(g.hs, Contents(a))
      requires HeadsOk(g.hs) && QueriesOk(g.hs, qs)
      requires DecodeHalf(runner.cfg, b, batch, first, rs, rows, start, tables, group.kvAfter)
      requires |queries| == |rs| && start + |rs| <= |qs| && queries == qs[start..start + |queries|]
      ensures out.Some? && |out.value| == |queries|
      ensures PartAttended(runner.cfg, g.hs, Contents(a), rows, qs, start, out.value)
    {
      ghost var tabs, kvss := DecodeInputs(runner.cfg, g.hs, b, batch, first, rs, rows, start, tables, group.kvAfter,
                                           a);
      SlicedQueriesOk(g.hs, qs, queries, start);
      LengthsPositive(runner.cfg, b, batch, first, rs, rows, start, tables, group.kvAfter);
      out := DecodeLaunch(queries, a, tables, group.kvAfter, rows, start, tabs, kvss, qs);
    }

    /** Both halves of the batch, each if it is there. */
    method Attend(a: array2<KV>, input: ModelInput, queries: seq<seq<Vec>>, entries: seq<KV>,
                  ghost b: Blocks, ghost prefills: seq<Request>, ghost decodes: seq<Request>,
                  ghost batch: seq<Request>, ghost rows: seq<Row>,
                  ghost cache: seq<KV>) returns (out: seq<seq<Vec>>)
      requires BatchGiven(runner.cfg, b, prefills, decodes, batch, rows, input)
      requires Ready(a, b, batch, rows, cache, entries, queries)
      ensures |out| == |rows| && RowsAttended(runner.cfg, g.hs, Contents(a), rows, queries, out)
    {
      PrefillHalf(runner.cfg, b, prefills, decodes, batch, rows, input);
      DecodeHalfGiven(runner.cfg, b, prefills, decodes, batch, rows, input);
      var n: nat := input.numPrefillTokens;
      var first := AttendPrefills(a, input, queries, entries, n, b, prefills, batch, rows, cache);
      out := AttendDecodes(a, input, queries, n, first, b, |prefills|, decodes, batch, rows);
    }

    /** The prefill half, if it is there. */
    method AttendPrefills(a: array2<KV>, input: ModelInput, queries: seq<seq<Vec>>, entries: seq<KV>, n: nat,
                          ghost b: Blocks, ghost prefills: seq<Request>, ghost batch: seq<Request>,
                          ghost rows: seq<Row>, ghost cache: seq<KV>)
      returns (out: seq<seq<Vec>>)
      requires Ready(a, b, batch, rows, cache, entries, queries) && prefills <= batch
      requires HalfFound(runner.cfg, b, prefills, FindGroup(input.groups, false), input.prefillTables)
      requires n == TotalCost(runner.cfg, prefills) <= |rows|
      ensures |out| == n && RowsAttended(runner.cfg, g.hs, Contents(a), rows, queries, out)
    {
      out := [];
      var group := FindGroup(input.groups, false);
      if group.Some? {
        out := PrefillAttention(queries[..n], entries[..n], a, group.value, input.prefillTables, b, batch, prefills,
                                rows,
                                cache, entries, queries);
      }
    }

    /** The decode half behind the rows done so far. */
    method AttendDecodes(a: array2<KV>, input: ModelInput, queries: seq<seq<Vec>>, n: nat, before: seq<seq<Vec>>,
                         ghost b: Blocks, ghost first: nat, ghost decodes: seq<Request>, ghost batch: seq<Request>,
                         ghost rows: seq<Row>)
      returns (out: seq<seq<Vec>>)
      requires a.Length1 == runner.cfg.blockSize && a.Length0 == runner.cfg.numBlocks && EntriesOk(g.hs, Contents(a))
      requires HeadsOk(g.hs) && QueriesOk(g.hs, queries) && |queries| == |rows| == n + |decodes|
      requires DecodesFound(runner.cfg, b, batch, first, decodes, rows, n, input)
      requires |before| == n && RowsAttended(runner.cfg, g.hs, Contents(a), rows, queries, before)
      ensures |out| == |rows| && RowsAttended(runner.cfg, g.hs, Contents(a), rows, queries, out)
    {
      out := before;
      if n < |queries| {
        var group := Renumbered(FindGroup(input.groups, true).value);
        assert queries[n..] == queries[n..n + |decodes|];
        var more := DecodeAttention(queries[n..], a, group, input.decodeTables, b, batch, first, decodes, rows, n,
                                    queries);
        RowsAttendedAppend(runner.cfg, g.hs, Contents(a), rows, queries, before, more.value);
        out := before + more.value;
      }
    }

    /** The query heads of every token. */
    method ProjectQueries(l: nat, positions: seq<int>, hidden: seq<Vec>,
                          ghost rows: seq<Row>) returns (queries: seq<seq<Vec>>)
      requires |hidden| == |rows| && positions == PositionsIn(rows)
      ensures queries == Queries(g, l, rows, hidden)
    {
      queries := [];
      for i := 0 to |hidden|
        invariant queries == Queries(g, l, rows, hidden)[..i]
      {
        assert positions[i] == rows[i].pos;
        queries := queries + [g.query(l, hidden[i], positions[i])];
      }
    }

    /** The write of one layer. */
    method WriteLayer(l: nat, input: ModelInput, hidden: seq<Vec>, ghost b: Blocks, ghost batch: seq<Request>,
                      ghost rows: seq<Row>)
      returns (queries: seq<seq<Vec>>, entries: seq<KV>)
      requires PoolOk(runner.cfg, runner.m, runner.pool) && l < runner.m.layers && |hidden| == |rows|
      requires SplitsInto(runner.m, g)
      requires Sound(runner.cfg, b, batch) && rows == Rows(runner.cfg, b, batch) && RowsFit(runner.cfg, rows)
      requires input.positions == PositionsIn(rows) && input.slotMapping == Slots(rows)
      requires EntriesOk(g.hs, Contents(runner.pool[l]))
      modifies runner.pool[l]
      ensures queries == Queries(g, l, rows, hidden) && entries == Projections(runner.m, l, rows, hidden)
      ensures Ready(runner.pool[l], b, batch, rows, old(Contents(runner.pool[l])), entries, queries)
    {
      ghost var cache := Contents(runner.pool[l]);
      queries := ProjectQueries(l, input.positions, hidden, rows);
      entries := runner.Project(l, input.positions, hidden, rows);
      QueriesAreOk(runner.m, g, l, rows, hidden);
      ProjectionsOk(runner.m, g, l, rows, hidden);
      ScatterFits(runner.cfg, g.hs, cache, rows, entries);
      runner.WriteLayer(l, input, entries, rows);
    }

    /** One layer on the GPU kernels, under the contract of the reference layer. */
    method RunLayer(l: nat, input: ModelInput, hidden: seq<Vec>, ghost b: Blocks,
                    ghost prefills: seq<Request>, ghost decodes: seq<Request>, ghost batch: seq<Request>,
                    ghost rows: seq<Row>)
      returns (out: seq<Vec>)
      requires PoolOk(runner.cfg, runner.m, runner.pool) && l < runner.m.layers && |hidden| == |rows|
      requires SplitsInto(runner.m, g)
      requires BatchGiven(runner.cfg, b, prefills, decodes, batch, rows, input)
      requires EntriesOk(g.hs, Contents(runner.pool[l]))
      modifies runner.pool[l]
      ensures Contents(runner.pool[l])
           == Scatter(old(Contents(runner.pool[l])), Slots(rows), Projections(runner.m, l, rows, hidden))
      ensures out == NextHidden(runner.cfg, runner.m, l, Contents(runner.pool[l]), rows, hidden)
      ensures EntriesOk(g.hs, Contents(runner.pool[l]))
    {
      ghost var cache := Contents(runner.pool[l]);
      var queries, entries := WriteLayer(l, input, hidden, b, batch, rows);
      var attended := Attend(runner.pool[l], input, queries, entries, b, prefills, decodes, batch, rows, cache);
      out := seq(|hidden|, i requires 0 <= i < |hidden| && i < |attended| => g.finish(l, hidden[i], attended[i]));
      FinishedIsNext(runner.cfg, runner.m, g, l, Contents(runner.pool[l]), rows, hidden, attended, out);
    }

    /** One turn of the layer loop. */
    method NextLayer(l: nat, input: ModelInput, hidden: seq<Vec>, ghost before: seq<seq<KV>>, ghost b: Blocks,
                     ghost prefills: seq<Request>, ghost decodes: seq<Request>, ghost batch: seq<Request>,
                     ghost rows: seq<Row>)
      returns (out: seq<Vec>)
      requires PoolOk(runner.cfg, runner.m, runner.pool) && l < runner.m.layers && SplitsInto(runner.m, g)
      requires BatchGiven(runner.cfg, b, prefills, decodes, batch, rows, input)
      requires PassedTo(runner.cfg, runner.m, before, rows, l, Caches(runner.pool), hidden)
      requires CachesFit(g.hs, Caches(runner.pool))
      modifies runner.pool
      ensures PassedTo(runner.cfg, runner.m, before, rows, l + 1, Caches(runner.pool), out)
      ensures CachesFit(g.hs, Caches(runner.pool))
    {
      ghost var caches := Caches(runner.pool);
      assert EntriesOk(g.hs, caches[l]);
      out := RunLayer(l, input, hidden, b, prefills, decodes, batch, rows);
      OneLayerFurther(runner.cfg, runner.m, before, rows, l, caches, hidden, Contents(runner.pool[l]), out);
      assert Caches(runner.pool) == caches[l := Contents(runner.pool[l])];
    }

    /** The whole forward pass on the GPU kernels is the forward pass of the reference. */
    method ExecuteModel(input: ModelInput, ghost b: Blocks, ghost prefills: seq<Request>, ghost decodes: seq<Request>,
                        ghost batch: seq<Request>, ghost rows: seq<Row>) returns (hidden: seq<Vec>)
      requires PoolOk(runner.cfg, runner.m, runner.pool) && SplitsInto(runner.m, g)
      requires BatchGiven(runner.cfg, b, prefills, decodes, batch, rows, input)
      requires CachesFit(g.hs, Caches(runner.pool))
      modifies runner.pool
      ensures PassedTo(runner.cfg, runner.m, old(Caches(runner.pool)), rows, runner.m.layers, Caches(runner.pool),
                       hidden)
    {
      ghost var before := Caches(runner.pool);
      CachesAreOk(runner.cfg, runner.m, runner.pool);
      hidden := seq(|input.inputIds|, i requires 0 <= i < |input.inputIds| => runner.m.embed(input.inputIds[i]));
      assert hidden == Embeddings(runner.m, rows);
      var l := 0;
      while l < runner.m.layers
        invariant 0 <= l <= runner.m.layers
        invariant PassedTo(runner.cfg, runner.m, before, rows, l, Caches(runner.pool), hidden)
        invariant CachesFit(g.hs, Caches(runner.pool))
      {
        hidden := NextLayer(l, input, hidden, before, b, prefills, decodes, batch, rows);
        l := l + 1;
      }
    }
  }

  ghost predicate CachesFit(hs: Heads, caches: seq<seq<KV>>) {
    forall l :: 0 <= l < |caches| ==> EntriesOk(hs, caches[l])
  }

  lemma ScatterFits(cfg: Config, hs: Heads, cache: seq<KV>, rows: seq<Row>, entries: seq<KV>)
    requires |cache| == PoolSlots(cfg) && RowsFit(cfg, rows) && |entries| == |rows| && EntriesOk(hs, cache)
    requires EntriesOk(hs, entries)
    ensures forall i :: 0 <= i < |rows| ==> Slots(rows)[i] < |cache|
    ensures EntriesOk(hs, Scatter(cache, Slots(rows), entries))
  {
    forall i | 0 <= i < |rows| ensures Slots(rows)[i] < |cache| { assert RowFits(cfg, rows[i]); }
    ScatterOk(hs, cache, Slots(rows), entries);
  }

  // ---------------------------------------------------------------- one layer

  /** A batch as the runner is given it: prefills first, then decodes. */
  ghost predicate BatchGiven(cfg: Config, b: Blocks, prefills: seq<Request>, decodes: seq<Request>,
                             batch: seq<Request>, rows: seq<Row>, input: ModelInput) {
    && Given(cfg, b, prefills, decodes, batch, rows, input) && Describes(cfg, b, prefills, decodes, input)
    && Sound(cfg, b, batch)
    && (forall r :: r in decodes ==> r.status != Prefill)
  }

  lemma {:induction false} PrefillHalf(cfg: Config, b: Blocks, prefills: seq<Request>, decodes: seq<Request>,
                                       batch: seq<Request>, rows: seq<Row>, input: ModelInput)
    requires BatchGiven(cfg, b, prefills, decodes, batch, rows, input)
    ensures prefills <= batch && 0 <= TotalCost(cfg, prefills) == input.numPrefillTokens <= |rows|
    ensures HalfFound(cfg, b, prefills, FindGroup(input.groups, false), input.prefillTables)
    ensures prefills == [] ==> TotalCost(cfg, prefills) == 0
    ensures |rows| == TotalCost(cfg, prefills) + |decodes|
  {
    CountHalves(cfg, b, prefills, decodes, batch);
  }

  lemma {:induction false} CountHalves(cfg: Config, b: Blocks, prefills: seq<Request>, decodes: seq<Request>,
                                       batch: seq<Request>)
    requires BatchOk(cfg, b, batch) && batch == prefills + decodes && forall r :: r in decodes ==> r.status != Prefill
    ensures prefills <= batch && 0 <= TotalCost(cfg, prefills)
    ensures TotalCost(cfg, batch) == TotalCost(cfg, prefills) + |decodes|
  {
    TotalCostAppend(cfg, prefills, decodes);
    DecodesCost(cfg, decodes);
    CostsNonNegative(cfg, b, prefills, batch);
  }

  lemma {:induction false} DecodesCost(cfg: Config, decodes: seq<Request>)
    requires forall r :: r in decodes ==> r.status != Prefill
    ensures TotalCost(cfg, decodes) == |decodes|
  {
    if decodes != [] { DecodesCost(cfg, decodes[1..]); }
  }

  /** If there are decodes, the input has their group, lengths and tables. */
  ghost predicate DecodesFound(cfg: Config, b: Blocks, batch: seq<Request>, first: nat, decodes: seq<Request>,
                               rows: seq<Row>, start: nat, input: ModelInput) {
    |decodes| > 0 ==>
      && FindGroup(input.groups, true).Some?
      && DecodeHalf(cfg, b, batch, first, decodes, rows, start, input.decodeTables,
                    FindGroup(input.groups, true).value.kvAfter)
  }

  lemma {:induction false} DecodeHalfGiven(cfg: Config, b: Blocks, prefills: seq<Request>, decodes: seq<Request>,
                                           batch: seq<Request>, rows: seq<Row>, input: ModelInput)
    requires BatchGiven(cfg, b, prefills, decodes, batch, rows, input)
    ensures TotalCost(cfg, prefills) >= 0
    ensures DecodesFound(cfg, b, batch, |prefills|, decodes, rows, TotalCost(cfg, prefills), input)
  {
    PrefillHalf(cfg, b, prefills, decodes, batch, rows, input);
    if |decodes| == 0 { return; }
    GroupFields(cfg, prefills, decodes, input);
    assert batch[|prefills|..] == decodes && batch[..|prefills|] == prefills;
    var width: nat :| Tabled(b, prefills, input.prefillTables, width) && Tabled(b, decodes, input.decodeTables,
                                                                                width);
    forall i | 0 <= i < |decodes| ensures RowHolds(input.decodeTables[i], TableOf(b, decodes[i].id)) {
      PaddedHolds(b, decodes, input.decodeTables, width, i);
    }
  }

  /** Finishing every row gives the next hidden states of the reference. */
  lemma FinishedIsNext(cfg: Config, m: Model, g: HeadModel, l: nat, cache: seq<KV>, rows: seq<Row>, hidden: seq<Vec>,
                       attended: seq<seq<Vec>>, out: seq<Vec>)
    requires SplitsInto(m, g) && |hidden| == |rows| == |attended| == |out| && RowsFit(cfg, rows)
    requires |cache| == PoolSlots(cfg)
    requires RowsAttended(cfg, g.hs, cache, rows, Queries(g, l, rows, hidden), attended)
    requires forall i :: 0 <= i < |out| ==> out[i] == g.finish(l, hidden[i], attended[i])
    ensures out == NextHidden(cfg, m, l, cache, rows, hidden)
  {
    forall j: nat | j < |out| ensures out[j] == NextHidden(cfg, m, l, cache, rows, hidden)[j] {
      assert RowAttended(cfg, g.hs, cache, rows, Queries(g, l, rows, hidden), j, attended[j]);
    }
  }

  /** The decodes of a batch, from request `first` and row `start` on, with their table tensor and
      their lengths. */
  ghost predicate DecodeHalf(cfg: Config, b: Blocks, batch: seq<Request>, first: nat, rs: seq<Request>,
                             rows: seq<Row>, start: nat,
                             tables: seq<seq<int>>, kvLens: seq<int>) {
    && Seated(cfg, b, batch) && rows == Rows(cfg, b, batch)
    && first <= |batch| && rs == batch[first..] && (forall r :: r in rs ==> r.status != Prefill)
    && start == TotalCost(cfg, batch[..first]) && start + |rs| == |rows|
    && HoldTables(b, rs, tables) && KnowLengths(cfg, rs, kvLens)
  }

  lemma SlicedQueriesOk(hs: Heads, qs: seq<seq<Vec>>, part: seq<seq<Vec>>, start: nat)
    requires QueriesOk(hs, qs) && start + |part| <= |qs| && part == qs[start..start + |part|]
    ensures QueriesOk(hs, part)
  {
    forall i | 0 <= i < |part| ensures QueryOk(hs, part[i]) { assert part[i] == qs[start + i]; }
  }

  lemma LengthsPositive(cfg: Config, b: Blocks, batch: seq<Request>, first: nat, rs: seq<Request>, rows: seq<Row>,
                        start: nat,
                        tables: seq<seq<int>>, kvLens: seq<int>)
    requires DecodeHalf(cfg, b, batch, first, rs, rows, start, tables, kvLens)
    ensures |kvLens| == |rs| == |tables| && forall i :: 0 <= i < |kvLens| ==> kvLens[i] >= 1
  {
    forall i | 0 <= i < |kvLens| ensures kvLens[i] >= 1 {
      assert rs[i] == batch[first + i] && rs[i] in batch;
      assert Covered(cfg, b, rs[i]);
      LivelyCost(cfg, rs[i]);
    }
  }

  /** The k-th request of a written batch is ready for the fast prefill. */
  lemma PrefillIsReady(cfg: Config, hs: Heads, b: Blocks, batch: seq<Request>, k: nat, r: Request, rows: seq<Row>,
                       start: int,
                       cache: seq<KV>, all: seq<KV>, queries: seq<seq<Vec>>, chunk: seq<KV>, a: array2<KV>)
    returns (kvs: seq<KV>)
    requires a.Length1 == cfg.blockSize && a.Length0 == cfg.numBlocks && HeadsOk(hs) && QueriesOk(hs, queries)
    requires AfterWrite(cfg, hs, b, batch, rows, cache, all, Contents(a))
    requires k < |batch| && r == batch[k] && start == TotalCost(cfg, batch[..k]) && r.id in b.tables && 0 <= start
    requires |queries| == |chunk| == Cost(cfg, r) && start + |chunk| <= |all| && chunk == all[start..start + |chunk|]
    requires KvLen(r) >= 0
    ensures PrefillReady(cfg, hs, queries, chunk, a, Pids(b.tables[r.id]), KvLen(r), kvs)
  {
    FastPrefillMayRun(cfg, hs, b, batch, k, r, rows, start, cache, all, a);
    kvs := Gather(cfg, Contents(a), Pids(b.tables[r.id]), NextEnd(cfg, r));
  }

  lemma {:induction false} SequenceAppended(cfg: Config, hs: Heads, b: Blocks, batch: seq<Request>, k: nat,
                                            r: Request, rows: seq<Row>, qs: seq<seq<Vec>>,
                         out: seq<seq<Vec>>, mine: seq<seq<Vec>>, more: seq<seq<Vec>>, cache: seq<KV>)
    requires Seated(cfg, b, batch) && rows == Rows(cfg, b, batch) && k < |batch| && r == batch[k] && r.id in b.tables
    requires |out| == TotalCost(cfg, batch[..k]) && RowsAttended(cfg, hs, cache, rows, qs, out)
    requires |mine| == Cost(cfg, r) && |out| + |mine| <= |qs| && mine == qs[|out|..|out| + |mine|] && KvLen(r) >= 0
    requires SequenceAttended(cfg, hs, cache, Pids(b.tables[r.id]), KvLen(r), mine, more)
    ensures RowsAttended(cfg, hs, cache, rows, qs, out + more)
  {
    RowsFitLemma(cfg, b, batch);
    NextInBatch(cfg, b, batch, k, r, rows, |out|);
    RowsOfRequest(cfg, b, r, rows, |out|);
    NextSequenceAttended(cfg, hs, cache, rows, qs, out, Pids(b.tables[r.id]), KvLen(r), mine, more);
  }

  lemma SubSlice<T>(all: seq<T>, front: seq<T>, i: nat, j: nat)
    requires front <= all && i <= j <= |front|
    ensures all[i..j] == front[i..j]
  {
  }

  /** The facts of one turn of the prefill loop. */
  lemma {:induction false} TurnOk(cfg: Config, b: Blocks, batch: seq<Request>, rs: seq<Request>, i: nat, r: Request,
                                  row: seq<int>)
    requires BatchOk(cfg, b, batch) && rs <= batch && i < |rs| && r == rs[i]
    ensures r == batch[i] && r.id in b.tables && TableOf(b, r.id) == Pids(b.tables[r.id]) && 0 <= KvLen(r)
    ensures 0 <= Cost(cfg, r)
    ensures 0 <= TotalCost(cfg, batch[..i]) && TotalCost(cfg, batch[..i]) + Cost(cfg, r) <= TotalCost(cfg, rs)
  {
    assert batch[i] in batch;
    LivelyCost(cfg, r);
    CostWithin(cfg, b, batch, rs, i);
  }

  ghost predicate HoldTables(b: Blocks, rs: seq<Request>, tables: seq<seq<int>>) {
    |tables| == |rs| && forall i :: 0 <= i < |rs| ==> RowHolds(tables[i], TableOf(b, rs[i].id))
  }

  ghost predicate KnowLengths(cfg: Config, rs: seq<Request>, kvLens: seq<int>) {
    |kvLens| == |rs| && forall i :: 0 <= i < |rs| ==> kvLens[i] == NextEnd(cfg, rs[i])
  }

  /** What the decode launch reads for row `start` + i. */
  ghost predicate DecodeInputOk(cfg: Config, hs: Heads, a: array2<KV>, w: Row, row: seq<int>, kvLen: int,
                                table: seq<nat>, kvs: seq<KV>)
    reads a
  {
    && |Contents1(a)| == PoolSlots(cfg) && RowFits(cfg, w) && w.pos + 1 == kvLen && table == w.table
    && kvs == Gather(cfg, Contents1(a), w.table, w.pos + 1) && EntriesOk(hs, kvs)
    && DecodeOk(hs, a, row, kvLen, table, kvs)
  }

  ghost function Contents1(a: array2<KV>): seq<KV>
    reads a
  {
    if a.Length1 > 0 then Contents(a) else []
  }

  ghost predicate InputsOk(cfg: Config, hs: Heads, a: array2<KV>, rows: seq<Row>, start: nat, tables: seq<seq<int>>,
                           kvLens: seq<int>,
                           tabs: seq<seq<nat>>, kvss: seq<seq<KV>>)
    reads a
  {
    && |tabs| == |kvss| <= |tables| == |kvLens| && start + |tabs| <= |rows|
    && forall i: nat :: i < |tabs| ==> InputAt(cfg, hs, a, rows, start, tables[i], kvLens[i], tabs[i], kvss[i], i)
  }

  ghost predicate InputAt(cfg: Config, hs: Heads, a: array2<KV>, rows: seq<Row>, start: nat, row: seq<int>,
                          kvLen: int,
                          table: seq<nat>, kvs: seq<KV>, i: nat)
    reads a
  {
    start + i < |rows| && DecodeInputOk(cfg, hs, a, rows[start + i], row, kvLen, table, kvs)
  }

  lemma InputsAreOk(cfg: Config, hs: Heads, a: array2<KV>, rows: seq<Row>, start: nat, tables: seq<seq<int>>,
                    kvLens: seq<int>,
                    tabs: seq<seq<nat>>, kvss: seq<seq<KV>>)
    requires InputsOk(cfg, hs, a, rows, start, tables, kvLens, tabs, kvss)
    ensures forall i :: 0 <= i < |tabs| ==> DecodeOk(hs, a, tables[i], kvLens[i], tabs[i], kvss[i])
  {
    forall i | 0 <= i < |tabs| ensures DecodeOk(hs, a, tables[i], kvLens[i], tabs[i], kvss[i]) {
      assert InputAt(cfg, hs, a, rows, start, tables[i], kvLens[i], tabs[i], kvss[i], i);
    }
  }

  /** What the launch returns is what the rows have to attend to. */
  lemma DecodedRows(cfg: Config, hs: Heads, a: array2<KV>, rows: seq<Row>, start: nat, tables: seq<seq<int>>,
                    kvLens: seq<int>,
                    tabs: seq<seq<nat>>, kvss: seq<seq<KV>>, qs: seq<seq<Vec>>, queries: seq<seq<Vec>>,
                    out: seq<seq<Vec>>)
    requires InputsOk(cfg, hs, a, rows, start, tables, kvLens, tabs, kvss) && a.Length1 > 0
    requires HeadsOk(hs) && QueriesOk(hs, queries) && |queries| == |tabs| == |out|
    requires start + |queries| <= |qs| && queries == qs[start..start + |queries|]
    requires forall i :: 0 <= i < |queries| ==>
      EntriesOk(hs, kvss[i]) && kvss[i] != [] && out[i] == RowOutput(hs, queries[i], kvss[i])
    ensures PartAttended(cfg, hs, Contents(a), rows, qs, start, out)
  {
    forall i: nat | i < |queries| ensures RowAttended(cfg, hs, Contents(a), rows, qs, start + i, out[i]) {
      assert InputAt(cfg, hs, a, rows, start, tables[i], kvLens[i], tabs[i], kvss[i], i);
      assert queries[i] == qs[start + i] && QueryOk(hs, queries[i]);
    }
  }

  lemma InputAppended(cfg: Config, hs: Heads, a: array2<KV>, rows: seq<Row>, start: nat, tables: seq<seq<int>>,
                      kvLens: seq<int>,
                      tabs: seq<seq<nat>>, kvss: seq<seq<KV>>, table: seq<nat>, kvs: seq<KV>)
    requires InputsOk(cfg, hs, a, rows, start, tables, kvLens, tabs, kvss) && |tabs| < |tables|
    requires InputAt(cfg, hs, a, rows, start, tables[|tabs|], kvLens[|tabs|], table, kvs, |tabs|)
    ensures InputsOk(cfg, hs, a, rows, start, tables, kvLens, tabs + [table], kvss + [kvs])
  {
    var ts, ks := tabs + [table], kvss + [kvs];
    forall i: nat | i < |ts| ensures InputAt(cfg, hs, a, rows, start, tables[i], kvLens[i], ts[i], ks[i], i) {
      if i < |tabs| {
        assert InputAt(cfg, hs, a, rows, start, tables[i], kvLens[i], tabs[i], kvss[i], i);
        assert ts[i] == tabs[i] && ks[i] == kvss[i];
      } else {
        assert ts[i] == table && ks[i] == kvs;
      }
    }
  }

  lemma {:induction false} DecodeInputs(cfg: Config, hs: Heads, b: Blocks, batch: seq<Request>, first: nat,
                                        rs: seq<Request>, rows: seq<Row>, start: nat,
                                        tables: seq<seq<int>>, kvLens: seq<int>, a: array2<KV>)
    returns (tabs: seq<seq<nat>>, kvss: seq<seq<KV>>)
    requires a.Length1 == cfg.blockSize && a.Length0 == cfg.numBlocks && EntriesOk(hs, Contents(a))
    requires DecodeHalf(cfg, b, batch, first, rs, rows, start, tables, kvLens)
    ensures |tabs| == |rs| && InputsOk(cfg, hs, a, rows, start, tables, kvLens, tabs, kvss)
  {
    tabs, kvss := [], [];
    var i: nat := 0;
    while i < |rs|
      invariant |tabs| == i <= |rs| && InputsOk(cfg, hs, a, rows, start, tables, kvLens, tabs, kvss)
    {
      var w := rows[start + i];
      var kvs := OneDecodeInput(cfg, hs, b, batch, first, rs, rows, start, tables, kvLens, tables[i], kvLens[i], a,
                                i);
      InputAppended(cfg, hs, a, rows, start, tables, kvLens, tabs, kvss, w.table, kvs);
      tabs, kvss, i := tabs + [w.table], kvss + [kvs], i + 1;
    }
  }

  lemma {:induction false} DecodeRowOf(cfg: Config, b: Blocks, batch: seq<Request>, first: nat, rs: seq<Request>,
                                       rows: seq<Row>, start: nat,
                                       tables: seq<seq<int>>, kvLens: seq<int>, i: nat)
    requires DecodeHalf(cfg, b, batch, first, rs, rows, start, tables, kvLens) && i < |rs|
    ensures |tables| == |rs| == |kvLens| && start + i < |rows| && RowFits(cfg, rows[start + i])
    ensures rows[start + i].pos + 1 == kvLens[i] && RowHolds(tables[i], rows[start + i].table)
  {
    assert forall k :: first <= k < |batch| ==> batch[k] == rs[k - first];
    DecodesCostOne(cfg, batch, first, i);
    assert rs[i] in rs;
    DecodeRow(cfg, b, batch, rows, first + i, start + i, rs[i]);
  }

  lemma {:induction false} OneDecodeInput(cfg: Config, hs: Heads, b: Blocks, batch: seq<Request>, first: nat,
                                          rs: seq<Request>, rows: seq<Row>, start: nat,
                       tables: seq<seq<int>>, kvLens: seq<int>, row: seq<int>, kvLen: int, a: array2<KV>, i: nat)
    returns (kvs: seq<KV>)
    requires a.Length1 == cfg.blockSize && a.Length0 == cfg.numBlocks && EntriesOk(hs, Contents(a))
    requires DecodeHalf(cfg, b, batch, first, rs, rows, start, tables, kvLens) && i < |rs|
    requires row == tables[i] && kvLen == kvLens[i]
    ensures InputAt(cfg, hs, a, rows, start, row, kvLen, rows[start + i].table, kvs, i)
  {
    DecodeRowOf(cfg, b, batch, first, rs, rows, start, tables, kvLens, i);
    DecodeInput(cfg, hs, rows[start + i], row, a);
    kvs := Gather(cfg, Contents(a), rows[start + i].table, rows[start + i].pos + 1);
  }

  lemma {:induction false} CostWithin(cfg: Config, b: Blocks, batch: seq<Request>, rs: seq<Request>, i: nat)
    requires rs <= batch && i < |rs| && forall r :: r in batch ==> Covered(cfg, b, r)
    ensures 0 <= TotalCost(cfg, batch[..i]) && TotalCost(cfg, batch[..i]) + Cost(cfg, batch[i]) <= TotalCost(cfg, rs)
  {
    assert rs == rs[..i] + ([rs[i]] + rs[i + 1..]) && rs[..i] == batch[..i];
    TotalCostAppend(cfg, rs[..i], [rs[i]] + rs[i + 1..]);
    TotalCostAppend(cfg, [rs[i]], rs[i + 1..]);
    OneCost(cfg, rs[i]);
    CostsNonNegative(cfg, b, rs[..i], batch);
    CostsNonNegative(cfg, b, rs[i + 1..], batch);
  }

  lemma {:induction false} CostsNonNegative(cfg: Config, b: Blocks, rs: seq<Request>, batch: seq<Request>)
    requires (forall r :: r in rs ==> r in batch) && forall r :: r in batch ==> Covered(cfg, b, r)
    ensures TotalCost(cfg, rs) >= 0
  {
    if rs != [] {
      assert rs[0] in rs && Covered(cfg, b, rs[0]);
      LivelyCost(cfg, rs[0]);
      CostsNonNegative(cfg, b, rs[1..], batch);
    }
  }
}

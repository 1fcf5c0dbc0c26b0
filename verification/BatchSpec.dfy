/** One step's batch: rows, slots, the scatter into the paged cache, and the layer loop. */
module BatchSpec {
  import opened Base
  import opened BlockSpec
  import opened BlockCoverage
  import opened Requests
  import opened EngineSpec
  import opened Transformer

  /** One token of the batch: whose it is, its absolute position, its value, the physical slot of
      its keys and values, and the block table of its sequence. */
  datatype Row = Row(id: nat, pos: nat, token: Token, slot: nat, table: seq<nat>)

  /** physical block * block size + offset. */
  function SlotOf(bs: int, table: seq<nat>, pos: nat): (s: nat)
    requires bs > 0 && pos / bs < |table|
  {
    BlockOfPosition(pos, bs, |table|);
    SlotParts(bs, table[pos / bs], pos % bs);
    Span(bs, table[pos / bs]) + pos % bs
  }

  lemma SlotFormula(bs: int, table: seq<nat>, pos: nat)
    requires bs > 0 && pos / bs < |table|
    ensures 0 <= pos / bs && SlotOf(bs, table, pos) == table[pos / bs] * bs + pos % bs
  {
    BlockOfPosition(pos, bs, |table|);
    SpanIsProduct(bs, table[pos / bs]);
  }

  function TokensOf(r: Request): seq<Token> { r.prompt + r.output }

  /** The request is live and its table reaches the end of its step. */
  ghost predicate Covered(cfg: Config, b: Blocks, r: Request) {
    Lively(r) && r.id in b.tables && NextEnd(cfg, r) <= Span(cfg.blockSize, |b.tables[r.id]|)
  }

  ghost predicate BatchOk(cfg: Config, b: Blocks, batch: seq<Request>) {
    Distinct(batch) && forall r :: r in batch ==> Covered(cfg, b, r)
  }

  /** The slot of position `pos` of request `r`. */
  function SlotAt(cfg: Config, b: Blocks, r: Request, pos: nat): nat
    requires r.id in b.tables && pos < NextEnd(cfg, r) <= Span(cfg.blockSize, |b.tables[r.id]|)
  {
    BlockOfPosition(pos, cfg.blockSize, |b.tables[r.id]|);
    SlotOf(cfg.blockSize, Pids(b.tables[r.id]), pos)
  }

  ghost function RowAt(cfg: Config, b: Blocks, r: Request, pos: nat): Row
    requires Covered(cfg, b, r)
    requires pos < NextEnd(cfg, r)
  {
    LivelyCost(cfg, r);
    Row(r.id, pos, TokensOf(r)[pos], SlotAt(cfg, b, r, pos), Pids(b.tables[r.id]))
  }

  /** The rows of one request: a chunk of its prompt, or its last token. */
  ghost function RowsOf(cfg: Config, b: Blocks, r: Request): (rows: seq<Row>)
    requires Covered(cfg, b, r)
    ensures |rows| == Cost(cfg, r)
    ensures forall i :: 0 <= i < |rows| ==> rows[i] == RowAt(cfg, b, r, KvLen(r) + i)
  {
    LivelyCost(cfg, r);
    seq(Cost(cfg, r), i requires 0 <= i < Cost(cfg, r) => RowAt(cfg, b, r, KvLen(r) + i))
  }

  ghost function Rows(cfg: Config, b: Blocks, batch: seq<Request>): seq<Row>
    requires BatchOk(cfg, b, batch)
    decreases |batch|
  {
    if batch == [] then [] else Rows(cfg, b, batch[..|batch| - 1]) + RowsOf(cfg, b, batch[|batch| - 1])
  }

  // ---------------------------------------------------------------- what the rows are

  ghost predicate Belongs(cfg: Config, b: Blocks, r: Request, row: Row) {
    Covered(cfg, b, r) && KvLen(r) <= row.pos < NextEnd(cfg, r) && row == RowAt(cfg, b, r, row.pos)
  }

  /** Every row belongs to a request of the batch. */
  lemma {:induction false} RowsBelong(cfg: Config, b: Blocks, batch: seq<Request>, row: Row) returns (r: Request)
    requires BatchOk(cfg, b, batch) && row in Rows(cfg, b, batch)
    ensures r in batch && Belongs(cfg, b, r, row)
    decreases |batch|
  {
    var last := batch[|batch| - 1];
    if row in RowsOf(cfg, b, last) {
      r := last;
      LivelyCost(cfg, r);
      var i :| 0 <= i < |RowsOf(cfg, b, last)| && RowsOf(cfg, b, last)[i] == row;
      assert row == RowAt(cfg, b, r, KvLen(r) + i);
    } else {
      assert Rows(cfg, b, batch) == Rows(cfg, b, batch[..|batch| - 1]) + RowsOf(cfg, b, last);
      r := RowsBelong(cfg, b, batch[..|batch| - 1], row);
    }
  }

  /** Every position a request has to process has its row. */
  lemma {:induction false} RowsComplete(cfg: Config, b: Blocks, batch: seq<Request>, r: Request, pos: nat)
    requires BatchOk(cfg, b, batch) && r in batch && KvLen(r) <= pos < NextEnd(cfg, r)
    ensures RowAt(cfg, b, r, pos) in Rows(cfg, b, batch)
    decreases |batch|
  {
    var last := batch[|batch| - 1];
    if r == last {
      LivelyCost(cfg, r);
      assert RowsOf(cfg, b, r)[pos - KvLen(r)] == RowAt(cfg, b, r, pos);
    } else {
      RowsComplete(cfg, b, batch[..|batch| - 1], r, pos);
    }
  }

  /** The rows of one request appear in the order of their positions. */
  ghost predicate OrderedRows(rows: seq<Row>) {
    forall i, j :: 0 <= i < j < |rows| && rows[i].id == rows[j].id ==> rows[i].pos < rows[j].pos
  }

  lemma OrderedRowsAppend(a: seq<Row>, b: seq<Row>)
    requires OrderedRows(a) && OrderedRows(b)
    requires forall i, j :: 0 <= i < |a| && 0 <= j < |b| ==> a[i].id != b[j].id
    ensures OrderedRows(a + b)
  {
  }

  lemma RowsOfPositions(cfg: Config, b: Blocks, r: Request)
    requires Covered(cfg, b, r)
    ensures var rows := RowsOf(cfg, b, r);
      forall i :: 0 <= i < |rows| ==> rows[i].id == r.id && rows[i].pos == KvLen(r) + i
  {
    LivelyCost(cfg, r);
    var rows := RowsOf(cfg, b, r);
    forall i | 0 <= i < |rows| ensures rows[i].id == r.id && rows[i].pos == KvLen(r) + i {
      var p := KvLen(r) + i;
      assert rows[i] == RowAt(cfg, b, r, p);
    }
  }

  /** Rows are ordered within each request; in particular none occurs twice. */
  lemma {:induction false} RowsOrdered(cfg: Config, b: Blocks, batch: seq<Request>)
    requires BatchOk(cfg, b, batch)
    ensures OrderedRows(Rows(cfg, b, batch))
    decreases |batch|
  {
    if batch != [] {
      var k := |batch| - 1;
      var front := Rows(cfg, b, batch[..k]);
      RowsOrdered(cfg, b, batch[..k]);
      RowsOfPositions(cfg, b, batch[k]);
      forall i | 0 <= i < |front| ensures front[i].id != batch[k].id {
        var r := RowsBelong(cfg, b, batch[..k], front[i]);
      }
      OrderedRowsAppend(front, RowsOf(cfg, b, batch[k]));
    }
  }

  // ---------------------------------------------------------------- slots

  /** Without sharing, two different places of two live sequences never meet in one slot. */
  lemma SlotsDistinct(cfg: Config, b: Blocks, r1: Request, p1: nat, r2: Request, p2: nat)
    requires Conserved(b) && Exclusive(b)
    requires r1.id in b.tables && p1 < NextEnd(cfg, r1) <= Span(cfg.blockSize, |b.tables[r1.id]|)
    requires r2.id in b.tables && p2 < NextEnd(cfg, r2) <= Span(cfg.blockSize, |b.tables[r2.id]|)
    requires SlotAt(cfg, b, r1, p1) == SlotAt(cfg, b, r2, p2)
    ensures r1.id == r2.id && p1 == p2
  {
    var bs := cfg.blockSize;
    var i1, i2 := p1 / bs, p2 / bs;
    BlockOfPosition(p1, bs, |b.tables[r1.id]|);
    BlockOfPosition(p2, bs, |b.tables[r2.id]|);
    SlotParts(bs, b.tables[r1.id][i1].pid, p1 % bs);
    SlotParts(bs, b.tables[r2.id][i2].pid, p2 % bs);
    EntriesDistinct(b, r1.id, i1, r2.id, i2);
  }

  lemma SlotInRange(cfg: Config, b: Blocks, r: Request, pos: nat)
    requires WellFormed(b) && |b.pool.refs| == cfg.numBlocks
    requires r.id in b.tables && pos < NextEnd(cfg, r) <= Span(cfg.blockSize, |b.tables[r.id]|)
    ensures SlotAt(cfg, b, r, pos) < Span(cfg.blockSize, cfg.numBlocks)
  {
    BlockOfPosition(pos, cfg.blockSize, |b.tables[r.id]|);
    SpanMono(cfg.blockSize, b.tables[r.id][pos / cfg.blockSize].pid + 1, cfg.numBlocks);
  }

  predicate Injective(slots: seq<nat>) {
    forall i, j :: 0 <= i < j < |slots| ==> slots[i] != slots[j]
  }

  function Slots(rows: seq<Row>): (s: seq<nat>)
    ensures |s| == |rows| && forall i :: 0 <= i < |rows| ==> s[i] == rows[i].slot
  {
    seq(|rows|, i requires 0 <= i < |rows| => rows[i].slot)
  }

  /** The slot mapping of a batch has no duplicate and stays inside the pool. */
  lemma {:induction false} SlotMappingInjective(cfg: Config, b: Blocks, batch: seq<Request>)
    requires BatchOk(cfg, b, batch) && Conserved(b) && Exclusive(b) && |b.pool.refs| == cfg.numBlocks
    ensures Injective(Slots(Rows(cfg, b, batch)))
    ensures forall s :: s in Slots(Rows(cfg, b, batch)) ==> s < Span(cfg.blockSize, cfg.numBlocks)
  {
    var rows := Rows(cfg, b, batch);
    RowsOrdered(cfg, b, batch);
    forall i, j | 0 <= i < j < |rows| ensures rows[i].slot != rows[j].slot {
      var r1 := RowsBelong(cfg, b, batch, rows[i]);
      var r2 := RowsBelong(cfg, b, batch, rows[j]);
      if rows[i].slot == rows[j].slot { SlotsDistinct(cfg, b, r1, rows[i].pos, r2, rows[j].pos); }
    }
    forall s | s in Slots(rows) ensures s < Span(cfg.blockSize, cfg.numBlocks) {
      var i :| 0 <= i < |rows| && rows[i].slot == s;
      var r := RowsBelong(cfg, b, batch, rows[i]);
      SlotInRange(cfg, b, r, rows[i].pos);
    }
  }

  // ---------------------------------------------------------------- scatter and gather

  /** Sequential scatter: entry i goes to slot i, later writes win. */
  function Scatter(cache: seq<KV>, slots: seq<nat>, entries: seq<KV>): (r: seq<KV>)
    requires |slots| == |entries| && forall i :: 0 <= i < |slots| ==> slots[i] < |cache|
    ensures |r| == |cache|
    decreases |slots|
  {
    if slots == [] then cache
    else
      var k := |slots| - 1;
      Scatter(cache, slots[..k], entries[..k])[slots[k] := entries[k]]
  }

  /** With distinct slots every entry lands where it was sent and nothing else changes. */
  lemma {:induction false} ScatterLaw(cache: seq<KV>, slots: seq<nat>, entries: seq<KV>)
    requires |slots| == |entries| && Injective(slots) && forall i :: 0 <= i < |slots| ==> slots[i] < |cache|
    ensures forall i :: 0 <= i < |slots| ==> Scatter(cache, slots, entries)[slots[i]] == entries[i]
    ensures forall s :: 0 <= s < |cache| && s !in slots ==> Scatter(cache, slots, entries)[s] == cache[s]
    decreases |slots|
  {
    if slots != [] {
      var k := |slots| - 1;
      ScatterLaw(cache, slots[..k], entries[..k]);
      assert slots[k] in slots;
    }
  }

  /** The first `n` entries of a sequence, read through its table. */
  function Gather(cfg: Config, cache: seq<KV>, table: seq<nat>, n: nat): (r: seq<KV>)
    requires n <= Span(cfg.blockSize, |table|) && |cache| == Span(cfg.blockSize, cfg.numBlocks)
    requires forall j :: 0 <= j < |table| ==> table[j] < cfg.numBlocks
    ensures |r| == n
    ensures forall j: nat :: j < n ==>
      j / cfg.blockSize < |table| && SlotOf(cfg.blockSize, table, j) < |cache|
      && r[j] == cache[SlotOf(cfg.blockSize, table, j)]
  {
    forall j: nat | j < n
      ensures j / cfg.blockSize < |table| && SlotOf(cfg.blockSize, table, j) < |cache|
    {
      BlockOfPosition(j, cfg.blockSize, |table|);
      SpanMono(cfg.blockSize, table[j / cfg.blockSize] + 1, cfg.numBlocks);
    }
    seq(n, j requires 0 <= j < n => cache[SlotOf(cfg.blockSize, table, j)])
  }
}

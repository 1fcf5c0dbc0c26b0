/** The forward pass over a batch, layer by layer, writing first and then reading through the
    block tables; and the proof that it computes the reference semantics for every row. */
module Forward {
  import opened Base
  import opened BlockSpec
  import opened BlockCoverage
  import opened Requests
  import opened EngineSpec
  import opened Transformer
  import opened BatchSpec

  /** The caches after some layers, and the hidden state of every row. */
  datatype Flow = Flow(caches: seq<seq<KV>>, hidden: seq<Vec>)

  function PoolSlots(cfg: Config): int { Span(cfg.blockSize, cfg.numBlocks) }

  predicate CachesOk(cfg: Config, m: Model, caches: seq<seq<KV>>) {
    |caches| == m.layers && forall l :: 0 <= l < m.layers ==> |caches[l]| == PoolSlots(cfg)
  }

  predicate RowFits(cfg: Config, row: Row) {
    && row.slot < PoolSlots(cfg)
    && row.pos + 1 <= Span(cfg.blockSize, |row.table|)
    && forall j :: 0 <= j < |row.table| ==> row.table[j] < cfg.numBlocks
  }

  predicate RowsFit(cfg: Config, rows: seq<Row>) {
    forall i :: 0 <= i < |rows| ==> RowFits(cfg, rows[i])
  }

  function Embeddings(m: Model, rows: seq<Row>): (h: seq<Vec>)
    ensures |h| == |rows| && forall i :: 0 <= i < |rows| ==> h[i] == m.embed(rows[i].token)
  {
    seq(|rows|, i requires 0 <= i < |rows| => m.embed(rows[i].token))
  }

  function Projections(m: Model, l: nat, rows: seq<Row>, hidden: seq<Vec>): (es: seq<KV>)
    requires |hidden| == |rows|
    ensures |es| == |rows| && forall i :: 0 <= i < |rows| ==> es[i] == m.project(l, hidden[i], rows[i].pos)
  {
    seq(|rows|, i requires 0 <= i < |rows| => m.project(l, hidden[i], rows[i].pos))
  }

  /** What row `row` sees in layer `l`: the entries of its own sequence up to its own position. */
  function Attended(cfg: Config, m: Model, l: nat, cache: seq<KV>, row: Row, h: Vec): Vec
    requires RowFits(cfg, row) && |cache| == PoolSlots(cfg)
  {
    m.attend(l, h, row.pos, Gather(cfg, cache, row.table, row.pos + 1))
  }

  function NextHidden(cfg: Config, m: Model, l: nat, cache: seq<KV>, rows: seq<Row>, hidden: seq<Vec>): (h: seq<Vec>)
    requires |hidden| == |rows| && RowsFit(cfg, rows) && |cache| == PoolSlots(cfg)
    ensures |h| == |rows|
    ensures forall i :: 0 <= i < |rows| ==> h[i] == Attended(cfg, m, l, cache, rows[i], hidden[i])
  {
    seq(|rows|, i requires 0 <= i < |rows| => Attended(cfg, m, l, cache, rows[i], hidden[i]))
  }

  /** One layer: project, scatter, then attend. */
  function Layer(cfg: Config, m: Model, f: Flow, rows: seq<Row>, l: nat): (n: Flow)
    requires CachesOk(cfg, m, f.caches) && RowsFit(cfg, rows) && l < m.layers && |f.hidden| == |rows|
    ensures CachesOk(cfg, m, n.caches) && |n.hidden| == |rows|
  {
    var cache := Scatter(f.caches[l], Slots(rows), Projections(m, l, rows, f.hidden));
    Flow(f.caches[l := cache], NextHidden(cfg, m, l, cache, rows, f.hidden))
  }

  /** The first `l` layers. */
  function Pass(cfg: Config, m: Model, caches: seq<seq<KV>>, rows: seq<Row>, l: nat): (f: Flow)
    requires CachesOk(cfg, m, caches) && RowsFit(cfg, rows) && l <= m.layers
    ensures CachesOk(cfg, m, f.caches) && |f.hidden| == |rows|
  {
    if l == 0 then Flow(caches, Embeddings(m, rows))
    else Layer(cfg, m, Pass(cfg, m, caches, rows, l - 1), rows, l - 1)
  }

  // ---------------------------------------------------------------- correctness of one layer

  /** Row i carries the reference hidden state of its own request at layer `l`. */
  ghost predicate HiddenOk(m: Model, batch: seq<Request>, rows: seq<Row>, hidden: seq<Vec>, l: nat) {
    |hidden| == |rows| &&
    forall i, r :: 0 <= i < |rows| && r in batch && r.id == rows[i].id && rows[i].pos < |TokensOf(r)| ==>
      hidden[i] == Hidden(m, TokensOf(r), l, rows[i].pos)
  }

  /** The cache of layer `l` holds the log of request `r` for positions below `n`. */
  ghost predicate Logged(cfg: Config, m: Model, b: Blocks, r: Request, cache: seq<KV>, l: nat, n: int) {
    && Covered(cfg, b, r)
    && n <= NextEnd(cfg, r)
    && forall j: nat :: j < n ==>
      SlotAt(cfg, b, r, j) < |cache| && j < |TokensOf(r)| &&
      cache[SlotAt(cfg, b, r, j)] == EntryAt(m, TokensOf(r), l, j)
  }

  /** Every request of the batch has the blocks it needs, whether or not some are shared. */
  ghost predicate Seated(cfg: Config, b: Blocks, batch: seq<Request>) {
    BatchOk(cfg, b, batch) && WellFormed(b) && |b.pool.refs| == cfg.numBlocks
  }

  /** The same without sharing: no block has two users. */
  ghost predicate Sound(cfg: Config, b: Blocks, batch: seq<Request>) {
    BatchOk(cfg, b, batch) && Conserved(b) && Exclusive(b) && |b.pool.refs| == cfg.numBlocks
  }

  lemma {:induction false} RowsFitLemma(cfg: Config, b: Blocks, batch: seq<Request>)
    requires Seated(cfg, b, batch)
    ensures RowsFit(cfg, Rows(cfg, b, batch))
  {
    var rows := Rows(cfg, b, batch);
    forall i | 0 <= i < |rows| ensures RowFits(cfg, rows[i]) {
      var r := RowsBelong(cfg, b, batch, rows[i]);
      SlotInRange(cfg, b, r, rows[i].pos);
    }
  }

  /** A position already cached is not written by this batch. */
  lemma {:induction false} OldSlotsUntouched(cfg: Config, b: Blocks, batch: seq<Request>, r: Request, j: nat)
    requires Sound(cfg, b, batch) && r in batch && j < KvLen(r)
    ensures j < NextEnd(cfg, r) && SlotAt(cfg, b, r, j) !in Slots(Rows(cfg, b, batch))
  {
    LivelyCost(cfg, r);
    var rows := Rows(cfg, b, batch);
    forall i | 0 <= i < |rows| ensures rows[i].slot != SlotAt(cfg, b, r, j) {
      var q := RowsBelong(cfg, b, batch, rows[i]);
      if rows[i].slot == SlotAt(cfg, b, r, j) {
        SlotsDistinct(cfg, b, q, rows[i].pos, r, j);
        SameId(batch, q, r);
      }
    }
  }

  /** After the scatter, every position of a batch request up to the end of its step is logged. */
  lemma {:induction false} ScatterLogs(cfg: Config, m: Model, b: Blocks, batch: seq<Request>, cache: seq<KV>,
                                       hidden: seq<Vec>, l: nat, r: Request)
    requires Sound(cfg, b, batch) && |cache| == PoolSlots(cfg) && r in batch
    requires HiddenOk(m, batch, Rows(cfg, b, batch), hidden, l)
    requires Logged(cfg, m, b, r, cache, l, Min(KvLen(r), NextEnd(cfg, r)))
    ensures RowsFit(cfg, Rows(cfg, b, batch))
    ensures var rows := Rows(cfg, b, batch);
      Logged(cfg, m, b, r, Scatter(cache, Slots(rows), Projections(m, l, rows, hidden)), l, NextEnd(cfg, r))
  {
    RowsFitLemma(cfg, b, batch);
    LivelyCost(cfg, r);
    var rows := Rows(cfg, b, batch);
    var es := Projections(m, l, rows, hidden);
    SlotMappingInjective(cfg, b, batch);
    ScatterLaw(cache, Slots(rows), es);
    var after := Scatter(cache, Slots(rows), es);
    forall j: nat | j < NextEnd(cfg, r)
      ensures SlotAt(cfg, b, r, j) < |after| && j < |TokensOf(r)|
      ensures after[SlotAt(cfg, b, r, j)] == EntryAt(m, TokensOf(r), l, j)
    {
      SlotInRange(cfg, b, r, j);
      if j < KvLen(r) {
        OldSlotsUntouched(cfg, b, batch, r, j);
      } else {
        RowsComplete(cfg, b, batch, r, j);
        var i :| 0 <= i < |rows| && rows[i] == RowAt(cfg, b, r, j);
        assert hidden[i] == Hidden(m, TokensOf(r), l, j);
        assert Slots(rows)[i] == SlotAt(cfg, b, r, j);
      }
    }
  }

  /** Reading a logged sequence back through its table gives its contiguous log. */
  lemma {:induction false} GatherIsLog(cfg: Config, m: Model, b: Blocks, r: Request, cache: seq<KV>, l: nat, n: nat)
    requires WellFormed(b) && |b.pool.refs| == cfg.numBlocks && |cache| == PoolSlots(cfg)
    requires r.id in b.tables && n <= NextEnd(cfg, r)
    requires Logged(cfg, m, b, r, cache, l, n)
    ensures n <= |TokensOf(r)|
    ensures forall j :: 0 <= j < |b.tables[r.id]| ==> Pids(b.tables[r.id])[j] < cfg.numBlocks
    ensures Gather(cfg, cache, Pids(b.tables[r.id]), n) == Entries(m, TokensOf(r), l, n)
  {
    LivelyCost(cfg, r);
    var g := Gather(cfg, cache, Pids(b.tables[r.id]), n);
    forall j: nat | j < n ensures g[j] == EntryAt(m, TokensOf(r), l, j) {
      assert g[j] == cache[SlotAt(cfg, b, r, j)];
    }
  }

  lemma AttendedIsReference(cfg: Config, m: Model, b: Blocks, cache: seq<KV>, row: Row, h: Vec, l: nat, r: Request)
    requires WellFormed(b) && |b.pool.refs| == cfg.numBlocks && |cache| == PoolSlots(cfg) && RowFits(cfg, row)
    requires Belongs(cfg, b, r, row) && row.pos < |TokensOf(r)|
    requires Logged(cfg, m, b, r, cache, l, NextEnd(cfg, r))
    requires h == Hidden(m, TokensOf(r), l, row.pos)
    ensures Attended(cfg, m, l, cache, row, h) == Hidden(m, TokensOf(r), l + 1, row.pos)
  {
    GatherIsLog(cfg, m, b, r, cache, l, row.pos + 1);
  }

  lemma {:induction false} LayerHiddenOk(cfg: Config, m: Model, b: Blocks, batch: seq<Request>, rows: seq<Row>,
                                         cache: seq<KV>, hidden: seq<Vec>, l: nat)
    requires Sound(cfg, b, batch) && |cache| == PoolSlots(cfg) && rows == Rows(cfg, b, batch)
    requires RowsFit(cfg, rows)
    requires HiddenOk(m, batch, rows, hidden, l)
    requires forall r :: r in batch ==> Logged(cfg, m, b, r, cache, l, NextEnd(cfg, r))
    ensures HiddenOk(m, batch, rows, NextHidden(cfg, m, l, cache, rows, hidden), l + 1)
  {
    var next := NextHidden(cfg, m, l, cache, rows, hidden);
    forall i, r | 0 <= i < |rows| && r in batch && r.id == rows[i].id && rows[i].pos < |TokensOf(r)|
      ensures next[i] == Hidden(m, TokensOf(r), l + 1, rows[i].pos)
    {
      var q := RowsBelong(cfg, b, batch, rows[i]);
      SameId(batch, q, r);
      AttendedIsReference(cfg, m, b, cache, rows[i], hidden[i], l, r);
    }
  }

  // ---------------------------------------------------------------- all layers

  /** What the caches hold for a batch: its log below `n(r)` in every layer. */
  ghost predicate LoggedBefore(cfg: Config, m: Model, b: Blocks, batch: seq<Request>, caches: seq<seq<KV>>,
                               from: nat) {
    forall r, l :: r in batch && from <= l < |caches| ==>
      Logged(cfg, m, b, r, caches[l], l, Min(KvLen(r), NextEnd(cfg, r)))
  }

  ghost predicate LoggedAfter(cfg: Config, m: Model, b: Blocks, batch: seq<Request>, caches: seq<seq<KV>>, end: nat) {
    forall r, l :: r in batch && 0 <= l < end && l < |caches| ==>
      Logged(cfg, m, b, r, caches[l], l, NextEnd(cfg, r))
  }

  ghost predicate UpToLayer(cfg: Config, m: Model, b: Blocks, batch: seq<Request>, rows: seq<Row>, f: Flow, l: nat) {
    && CachesOk(cfg, m, f.caches)
    && |f.hidden| == |rows|
    && HiddenOk(m, batch, rows, f.hidden, l)
    && LoggedAfter(cfg, m, b, batch, f.caches, l)
    && LoggedBefore(cfg, m, b, batch, f.caches, l)
  }

  lemma {:induction false} LayerIsReference(cfg: Config, m: Model, b: Blocks, batch: seq<Request>, rows: seq<Row>,
                                            f: Flow, l: nat, next: nat)
    requires Sound(cfg, b, batch) && rows == Rows(cfg, b, batch) && RowsFit(cfg, rows)
    requires l < m.layers && next == l + 1 && UpToLayer(cfg, m, b, batch, rows, f, l)
    requires CachesOk(cfg, m, f.caches) && |f.hidden| == |rows|
    ensures UpToLayer(cfg, m, b, batch, rows, Layer(cfg, m, f, rows, l), next)
  {
    var cache := Scatter(f.caches[l], Slots(rows), Projections(m, l, rows, f.hidden));
    forall r | r in batch ensures Logged(cfg, m, b, r, cache, l, NextEnd(cfg, r)) {
      ScatterLogs(cfg, m, b, batch, f.caches[l], f.hidden, l, r);
    }
    LayerHiddenOk(cfg, m, b, batch, rows, cache, f.hidden, l);
  }

  lemma {:induction false} EmbeddingsAreReference(cfg: Config, m: Model, b: Blocks, batch: seq<Request>,
                                                  rows: seq<Row>)
    requires BatchOk(cfg, b, batch) && rows == Rows(cfg, b, batch)
    ensures HiddenOk(m, batch, rows, Embeddings(m, rows), 0)
  {
    forall i, r | 0 <= i < |rows| && r in batch && r.id == rows[i].id && rows[i].pos < |TokensOf(r)|
      ensures Embeddings(m, rows)[i] == Hidden(m, TokensOf(r), 0, rows[i].pos)
    {
      var q := RowsBelong(cfg, b, batch, rows[i]);
      SameId(batch, q, r);
    }
  }

  lemma {:induction false} EmbeddedIsReference(cfg: Config, m: Model, b: Blocks, batch: seq<Request>, rows: seq<Row>,
                                               caches: seq<seq<KV>>)
    requires BatchOk(cfg, b, batch) && rows == Rows(cfg, b, batch) && CachesOk(cfg, m, caches)
    requires LoggedBefore(cfg, m, b, batch, caches, 0)
    ensures UpToLayer(cfg, m, b, batch, rows, Flow(caches, Embeddings(m, rows)), 0)
  {
    EmbeddingsAreReference(cfg, m, b, batch, rows);
  }

  lemma PassUnfolds(cfg: Config, m: Model, caches: seq<seq<KV>>, rows: seq<Row>, l: nat, next: nat)
    requires CachesOk(cfg, m, caches) && RowsFit(cfg, rows) && next == l + 1 && next <= m.layers
    ensures Pass(cfg, m, caches, rows, next) == Layer(cfg, m, Pass(cfg, m, caches, rows, l), rows, l)
  {
  }

  /** The forward pass computes the reference hidden state of every row and leaves the caches
      holding the log of every batch request up to the end of its step. */
  lemma {:induction false} PassIsReference(cfg: Config, m: Model, b: Blocks, batch: seq<Request>, rows: seq<Row>,
                                           caches: seq<seq<KV>>, l: nat, f: Flow)
    requires Sound(cfg, b, batch) && rows == Rows(cfg, b, batch) && RowsFit(cfg, rows)
    requires CachesOk(cfg, m, caches) && l <= m.layers
    requires LoggedBefore(cfg, m, b, batch, caches, 0)
    requires f == Pass(cfg, m, caches, rows, l)
    ensures UpToLayer(cfg, m, b, batch, rows, f, l)
  {
    if l == 0 {
      EmbeddedIsReference(cfg, m, b, batch, rows, caches);
    } else {
      var k := l - 1;
      var g := Pass(cfg, m, caches, rows, k);
      PassIsReference(cfg, m, b, batch, rows, caches, k, g);
      PassUnfolds(cfg, m, caches, rows, k, l);
      LayerIsReference(cfg, m, b, batch, rows, g, k, l);
    }
  }
}

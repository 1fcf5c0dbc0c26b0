/** The model runner: one loop over the layers for prefills and decodes together, writing keys and
    values first and attending through the block tables; and the executor that samples. */
module ModelRunning {
  import opened Base
  import opened BlockSpec
  import opened Requests
  import opened EngineSpec
  import opened Transformer
  import opened BatchSpec
  import opened Forward
  import opened PagedCache
  import opened InputBuilding
  import opened ChunkedPrefill

  /** One array per layer, all of the pool's shape. */
  ghost predicate PoolOk(cfg: Config, m: Model, pool: seq<array2<KV>>) {
    && |pool| == m.layers
    && (forall l :: 0 <= l < |pool| ==> pool[l].Length0 == cfg.numBlocks && pool[l].Length1 == cfg.blockSize)
    && (forall k, l :: 0 <= k < l < |pool| ==> pool[k] != pool[l])
  }

  ghost function Caches(pool: seq<array2<KV>>): (c: seq<seq<KV>>)
    reads pool
    requires forall l :: 0 <= l < |pool| ==> pool[l].Length1 > 0
    ensures |c| == |pool| && forall l :: 0 <= l < |pool| ==> c[l] == Contents(pool[l])
  {
    seq(|pool|, l requires 0 <= l < |pool| && pool[l].Length1 > 0 reads pool => Contents(pool[l]))
  }

  /** Arrays nobody has written to still hold the same caches. */
  twostate lemma CachesUntouched(pool: seq<array2<KV>>)
    requires (forall l :: 0 <= l < |pool| ==> pool[l].Length1 > 0) && unchanged(pool)
    ensures Caches(pool) == old(Caches(pool))
  {
    forall l | 0 <= l < |pool| ensures Contents(pool[l]) == old(Contents(pool[l])) {
      assert unchanged(pool[l]);
    }
  }

  lemma CachesAreOk(cfg: Config, m: Model, pool: seq<array2<KV>>)
    requires PoolOk(cfg, m, pool)
    ensures CachesOk(cfg, m, Caches(pool))
  {
  }

  // ---------------------------------------------------------------- attention over the batch

  /** What a row of one sequence has to become. */
  ghost predicate RowDone(cfg: Config, m: Model, l: nat, cache: seq<KV>, rows: seq<Row>, hidden: seq<Vec>, j: nat,
                          out: Vec) {
    && j < |rows| == |hidden| && RowsFit(cfg, rows) && |cache| == PoolSlots(cfg)
    && out == Attended(cfg, m, l, cache, rows[j], hidden[j])
  }

  ghost predicate RowsDone(cfg: Config, m: Model, l: nat, cache: seq<KV>, rows: seq<Row>, hidden: seq<Vec>,
                           out: seq<Vec>) {
    |out| <= |rows| && forall j: nat :: j < |out| ==> RowDone(cfg, m, l, cache, rows, hidden, j, out[j])
  }

  /** The rows of one sequence, each attending to its own position and everything before it. */
  ghost predicate SequenceDone(cfg: Config, m: Model, l: nat, cache: seq<KV>, table: seq<nat>, cached: int,
                               hidden: seq<Vec>, out: seq<Vec>) {
    && cached >= 0 && |out| == |hidden| && cached + |hidden| <= Span(cfg.blockSize, |table|)
    && |cache| == Span(cfg.blockSize, cfg.numBlocks) && (forall j :: 0 <= j < |table| ==> table[j] < cfg.numBlocks)
    && forall q: nat :: q < |hidden| ==>
      out[q] == m.attend(l, hidden[q], cached + q, Gather(cfg, cache, table, cached + q + 1))
  }

  /** Rows `start` to `start` + n - 1 are the positions of one sequence from `cached` on. */
  ghost predicate RowsOfSequence(rows: seq<Row>, start: int, n: int, cached: int, table: seq<nat>) {
    0 <= start && start + n <= |rows| && forall q: nat :: q < n ==> RowOfSequence(rows, start, q, cached, table)
  }

  ghost predicate RowOfSequence(rows: seq<Row>, start: int, q: nat, cached: int, table: seq<nat>) {
    0 <= start + q < |rows| && rows[start + q].pos == cached + q && rows[start + q].table == table
  }

  lemma RowOfRequest(cfg: Config, b: Blocks, r: Request, q: nat)
    requires Covered(cfg, b, r) && q < Cost(cfg, r)
    ensures RowOfSequence(RowsOf(cfg, b, r), 0, q, KvLen(r), Pids(b.tables[r.id]))
  {
    LivelyCost(cfg, r);
    var pos: nat := KvLen(r) + q;
    assert RowsOf(cfg, b, r)[q] == RowAt(cfg, b, r, pos);
  }

  lemma PlaceInSlice(rows: seq<Row>, part: seq<Row>, start: nat, q: nat, cached: int, table: seq<nat>)
    requires start + |part| <= |rows| && part == rows[start..start + |part|]
    requires RowOfSequence(part, 0, q, cached, table)
    ensures RowOfSequence(rows, start, q, cached, table)
  {
    assert part[q] == rows[start + q];
  }

  lemma RowsOfRequest(cfg: Config, b: Blocks, r: Request, rows: seq<Row>, start: int)
    requires SliceOf(cfg, b, r, rows, start)
    ensures RowsOfSequence(rows, start, Cost(cfg, r), KvLen(r), Pids(b.tables[r.id]))
  {
    var part, n := RowsOf(cfg, b, r), Cost(cfg, r);
    forall q: nat | q < n ensures RowOfSequence(rows, start, q, KvLen(r), Pids(b.tables[r.id])) {
      RowOfRequest(cfg, b, r, q);
      PlaceInSlice(rows, part, start, q, KvLen(r), Pids(b.tables[r.id]));
    }
  }

  lemma RowsDoneAppend(cfg: Config, m: Model, l: nat, cache: seq<KV>, rows: seq<Row>, hidden: seq<Vec>,
                       out: seq<Vec>, more: seq<Vec>)
    requires RowsDone(cfg, m, l, cache, rows, hidden, out) && |out| + |more| <= |rows|
    requires forall q: nat :: q < |more| ==> RowDone(cfg, m, l, cache, rows, hidden, |out| + q, more[q])
    ensures RowsDone(cfg, m, l, cache, rows, hidden, out + more)
  {
    forall j: nat | j < |out + more| ensures RowDone(cfg, m, l, cache, rows, hidden, j, (out + more)[j]) {
      if j >= |out| { assert RowDone(cfg, m, l, cache, rows, hidden, |out| + (j - |out|), more[j - |out|]); }
    }
  }

  /** The rows of the next sequence follow those done so far. */
  lemma NextSequenceDone(cfg: Config, m: Model, rows: seq<Row>, start: int, cached: int, table: seq<nat>,
                         l: nat, cache: seq<KV>, hidden: seq<Vec>, mine: seq<Vec>, out: seq<Vec>, more: seq<Vec>)
    requires RowsFit(cfg, rows) && |hidden| == |rows| && |cache| == PoolSlots(cfg)
    requires start == |out| && RowsDone(cfg, m, l, cache, rows, hidden, out)
    requires RowsOfSequence(rows, start, |mine|, cached, table) && mine == hidden[start..start + |mine|]
    requires SequenceDone(cfg, m, l, cache, table, cached, mine, more)
    ensures RowsDone(cfg, m, l, cache, rows, hidden, out + more)
  {
    forall q: nat | q < |more| ensures RowDone(cfg, m, l, cache, rows, hidden, start + q, more[q]) {
      assert RowOfSequence(rows, start, q, cached, table);
      assert mine[q] == hidden[start + q];
    }
    RowsDoneAppend(cfg, m, l, cache, rows, hidden, out, more);
  }

  lemma CostOfNext(cfg: Config, batch: seq<Request>, k: nat)
    requires k < |batch|
    ensures TotalCost(cfg, batch[..k + 1]) == TotalCost(cfg, batch[..k]) + Cost(cfg, batch[k])
  {
    assert batch[..k + 1] == batch[..k] + [batch[k]];
    TotalCostAppend(cfg, batch[..k], [batch[k]]);
    OneCost(cfg, batch[k]);
  }

  /** What the loop needs to know about the next request of the batch. */
  lemma {:induction false} NextInBatch(cfg: Config, b: Blocks, batch: seq<Request>, k: nat, r: Request,
                                       rows: seq<Row>, start: int)
    requires BatchOk(cfg, b, batch) && WellFormed(b) && |b.pool.refs| == cfg.numBlocks && k < |batch| && r == batch[k]
    requires rows == Rows(cfg, b, batch) && start == TotalCost(cfg, batch[..k])
    ensures SliceOf(cfg, b, r, rows, start) && 0 <= KvLen(r)
    ensures KvLen(r) + Cost(cfg, r) <= Span(cfg.blockSize, |b.tables[r.id]|)
    ensures forall j :: 0 <= j < |b.tables[r.id]| ==> Pids(b.tables[r.id])[j] < cfg.numBlocks
  {
    assert r in batch;
    LivelyCost(cfg, r);
    RowsSlice(cfg, b, batch, k);
  }

  /** One half of the batch as the backend is given it: sequence i of the half is row i of the
      half's own tables. */
  ghost predicate HalfOk(cfg: Config, b: Blocks, rs: seq<Request>, g: Group, tables: seq<seq<int>>) {
    && |g.seqIndices| == |g.cachedBefore| == |g.queryLen| == |tables| == |rs|
    && forall i :: 0 <= i < |rs| ==>
      && g.seqIndices[i] == i && g.cachedBefore[i] == KvLen(rs[i]) && g.queryLen[i] == Cost(cfg, rs[i])
      && Unpadded(tables[i]) == TableOf(b, rs[i].id)
  }

  /** The group of one half, if the batch has that half. */
  function FindGroup(groups: seq<Group>, decode: bool): Option<Group> {
    if groups == [] then None
    else if groups[0].decode == decode then Some(groups[0])
    else FindGroup(groups[1..], decode)
  }

  /** Decode sequences are numbered after the prefills in the batch, but their table tensor has
      rows for decodes only: the runner renumbers them from 0. */
  function Renumbered(g: Group): Group { g.(seqIndices := seq(|g.seqIndices|, i => i)) }

  lemma GroupsFound(prefills: seq<Meta>, decodes: seq<Meta>)
    ensures FindGroup(GroupsOf(prefills, decodes), false)
      == if |prefills| > 0 then Some(GroupOf(false, 0, prefills)) else None
    ensures FindGroup(GroupsOf(prefills, decodes), true)
      == if |decodes| > 0 then Some(GroupOf(true, |prefills|, decodes)) else None
  {
    var p, d := [GroupOf(false, 0, prefills)], [GroupOf(true, |prefills|, decodes)];
    assert FindGroup(p, true) == None && FindGroup(d, false) == None;
    assert (p + d)[1..] == d && (d[1..] == []) && (p[1..] == []);
  }

  lemma TablesUnpad(b: Blocks, rs: seq<Request>, tables: seq<seq<int>>, width: nat)
    requires Tabled(b, rs, tables, width)
    ensures forall i :: 0 <= i < |rs| ==> Unpadded(tables[i]) == TableOf(b, rs[i].id)
  {
    forall i | 0 <= i < |rs| ensures Unpadded(tables[i]) == TableOf(b, rs[i].id) {
      PaddingIsInvertible(TableOf(b, rs[i].id), width);
    }
  }

  /** The half is there exactly when it has sequences, and then it is well described. */
  ghost predicate HalfFound(cfg: Config, b: Blocks, rs: seq<Request>, g: Option<Group>, tables: seq<seq<int>>) {
    if |rs| > 0 then g.Some? && HalfOk(cfg, b, rs, g.value, tables) else g == None
  }

  function RenumberedOption(g: Option<Group>): Option<Group> {
    if g.Some? then Some(Renumbered(g.value)) else None
  }

  /** Both halves of a described batch are what the attention loop expects. */
  lemma HalvesOk(cfg: Config, b: Blocks, prefills: seq<Request>, decodes: seq<Request>, input: ModelInput)
    requires Describes(cfg, b, prefills, decodes, input)
    ensures HalfFound(cfg, b, prefills, FindGroup(input.groups, false), input.prefillTables)
    ensures HalfFound(cfg, b, decodes, RenumberedOption(FindGroup(input.groups, true)), input.decodeTables)
  {
    GroupsFound(MetasOf(cfg, prefills), MetasOf(cfg, decodes));
    var width: nat :| Tabled(b, prefills, input.prefillTables, width) && Tabled(b, decodes, input.decodeTables,
                                                                                width);
    TablesUnpad(b, prefills, input.prefillTables, width);
    TablesUnpad(b, decodes, input.decodeTables, width);
  }

  lemma Halves<T>(a: seq<T>, b: seq<T>)
    ensures (a + b)[0..|a|] == a && (a + b)[..|a|] == a && (a + b)[|a|..|a| + |b|] == b
    ensures (a + b)[..|a| + |b|] == a + b
  {
  }

  /** The batch behind a model input. */
  ghost predicate Given(cfg: Config, b: Blocks, prefills: seq<Request>, decodes: seq<Request>, batch: seq<Request>,
                        rows: seq<Row>, input: ModelInput) {
    && batch == prefills + decodes && Seated(cfg, b, batch) && rows == Rows(cfg, b, batch) && RowsFit(cfg, rows)
    && |rows| == TotalCost(cfg, batch)
    && Spells(rows, input.inputIds, input.positions, input.slotMapping)
    && HalfFound(cfg, b, prefills, FindGroup(input.groups, false), input.prefillTables)
    && HalfFound(cfg, b, decodes, RenumberedOption(FindGroup(input.groups, true)), input.decodeTables)
  }

  lemma {:induction false} DescribedIsGiven(cfg: Config, b: Blocks, prefills: seq<Request>, decodes: seq<Request>,
                                            batch: seq<Request>, rows: seq<Row>, input: ModelInput)
    requires batch == prefills + decodes && Seated(cfg, b, batch) && rows == Rows(cfg, b, batch)
    requires Describes(cfg, b, prefills, decodes, input)
    ensures Given(cfg, b, prefills, decodes, batch, rows, input)
  {
    HalvesOk(cfg, b, prefills, decodes, input);
    RowsFitLemma(cfg, b, batch);
    RowsCount(cfg, b, batch);
  }

  lemma DoneIsNextHidden(cfg: Config, m: Model, l: nat, cache: seq<KV>, rows: seq<Row>, hidden: seq<Vec>,
                         out: seq<Vec>)
    requires |hidden| == |rows| && RowsFit(cfg, rows) && |cache| == PoolSlots(cfg)
    requires RowsDone(cfg, m, l, cache, rows, hidden, out) && |out| == |rows|
    ensures out == NextHidden(cfg, m, l, cache, rows, hidden)
  {
    forall j: nat | j < |out| ensures out[j] == NextHidden(cfg, m, l, cache, rows, hidden)[j] {
      assert RowDone(cfg, m, l, cache, rows, hidden, j, out[j]);
    }
  }

  /** The caches and hidden states after the first `l` layers. */
  ghost predicate PassedTo(cfg: Config, m: Model, before: seq<seq<KV>>, rows: seq<Row>, l: nat, caches: seq<seq<KV>>,
                           hidden: seq<Vec>) {
    && CachesOk(cfg, m, before) && RowsFit(cfg, rows) && l <= m.layers && |hidden| == |rows|
    && Flow(caches, hidden) == Pass(cfg, m, before, rows, l)
  }

  lemma OneLayerFurther(cfg: Config, m: Model, before: seq<seq<KV>>, rows: seq<Row>, l: nat, caches: seq<seq<KV>>,
                        hidden: seq<Vec>,
                        cache: seq<KV>, next: seq<Vec>)
    requires PassedTo(cfg, m, before, rows, l, caches, hidden) && l < m.layers && |caches| == m.layers
    requires |caches[l]| == PoolSlots(cfg)
    requires cache == Scatter(caches[l], Slots(rows), Projections(m, l, rows, hidden))
    requires next == NextHidden(cfg, m, l, cache, rows, hidden)
    ensures PassedTo(cfg, m, before, rows, l + 1, caches[l := cache], next)
  {
    assert Flow(caches[l := cache], next) == Layer(cfg, m, Pass(cfg, m, before, rows, l), rows, l);
  }

  class ModelRunner {
    const cfg: Config
    const m: Model
    const pool: seq<array2<KV>>

    constructor (cfg: Config, m: Model, pool: seq<array2<KV>>)
      ensures this.cfg == cfg && this.m == m && this.pool == pool
    {
      this.cfg := cfg;
      this.m := m;
      this.pool := pool;
    }

    /** Gathers the whole sequence once; row q sees its first cached + q + 1 entries. */
    method AttendSequence(l: nat, a: array2<KV>, table: seq<nat>, cached: nat,
                          hidden: seq<Vec>) returns (out: seq<Vec>)
      requires a.Length0 == cfg.numBlocks && a.Length1 == cfg.blockSize
      requires cached + |hidden| <= Span(cfg.blockSize, |table|)
      requires forall j :: 0 <= j < |table| ==> table[j] < cfg.numBlocks
      ensures SequenceDone(cfg, m, l, Contents(a), table, cached, hidden, out)
    {
      var full := GatherPagedKv(a, table, cached + |hidden|);
      GatheredIsGather(cfg, a, table, cached + |hidden|, full.value);
      out := [];
      for q := 0 to |hidden|
        invariant |out| == q
        invariant forall i: nat :: i < q ==>
          out[i] == m.attend(l, hidden[i], cached + i, Gather(cfg, Contents(a), table, cached + i + 1))
      {
        GatherPrefix(cfg, Contents(a), table, cached + q + 1, cached + |hidden|);
        out := out + [m.attend(l, hidden[q], cached + q, full.value[..cached + q + 1])];
      }
    }

    /** Attention for one half of the batch, sequence by sequence, after the rows done before it. */
    method AttendHalf(l: nat, a: array2<KV>, g: Group, tables: seq<seq<int>>, hidden: seq<Vec>, before: seq<Vec>,
                      ghost b: Blocks, ghost batch: seq<Request>, ghost first: nat, ghost rs: seq<Request>,
                      ghost rows: seq<Row>)
      returns (out: seq<Vec>)
      requires a.Length0 == cfg.numBlocks && a.Length1 == cfg.blockSize && |hidden| == |rows| && RowsFit(cfg, rows)
      requires BatchOk(cfg, b, batch) && WellFormed(b) && |b.pool.refs| == cfg.numBlocks
      requires rows == Rows(cfg, b, batch)
      requires first + |rs| <= |batch| && rs == batch[first..first + |rs|] && HalfOk(cfg, b, rs, g, tables)
      requires |before| == TotalCost(cfg, batch[..first]) && RowsDone(cfg, m, l, Contents(a), rows, hidden, before)
      ensures |out| == TotalCost(cfg, batch[..first + |rs|]) && RowsDone(cfg, m, l, Contents(a), rows, hidden, out)
    {
      out := before;
      ghost var k := first;
      for i := 0 to |g.seqIndices|
        invariant k == first + i && |out| == TotalCost(cfg, batch[..k])
        invariant RowsDone(cfg, m, l, Contents(a), rows, hidden, out)
      {
        ghost var r := batch[k];
        assert r == rs[i];
        NextInBatch(cfg, b, batch, k, r, rows, |out|);
        RowsOfRequest(cfg, b, r, rows, |out|);
        var table: seq<nat> := Unpadded(tables[g.seqIndices[i]]);
        var mine := hidden[|out|..|out| + g.queryLen[i]];
        var more := AttendSequence(l, a, table, g.cachedBefore[i], mine);
        NextSequenceDone(cfg, m, rows, |out|, KvLen(r), Pids(b.tables[r.id]), l, Contents(a), hidden, mine, out,
                         more);
        CostOfNext(cfg, batch, k);
        out := out + more;
        k := k + 1;
      }
    }

    /** Keys and values of every token of the batch. */
    method Project(l: nat, positions: seq<int>, hidden: seq<Vec>, ghost rows: seq<Row>) returns (entries: seq<KV>)
      requires |hidden| == |rows| && positions == PositionsIn(rows)
      ensures entries == Projections(m, l, rows, hidden)
    {
      entries := [];
      for i := 0 to |hidden|
        invariant entries == Projections(m, l, rows, hidden)[..i]
      {
        assert positions[i] == rows[i].pos;
        entries := entries + [m.project(l, hidden[i], positions[i])];
      }
    }

    /** A half that may be missing. */
    method AttendIfAny(l: nat, a: array2<KV>, g: Option<Group>, tables: seq<seq<int>>, hidden: seq<Vec>,
                       before: seq<Vec>,
                       ghost b: Blocks, ghost batch: seq<Request>, ghost first: nat, ghost last: nat,
                       ghost rs: seq<Request>, ghost rows: seq<Row>)
      returns (out: seq<Vec>)
      requires a.Length0 == cfg.numBlocks && a.Length1 == cfg.blockSize && |hidden| == |rows| && RowsFit(cfg, rows)
      requires BatchOk(cfg, b, batch) && WellFormed(b) && |b.pool.refs| == cfg.numBlocks
      requires rows == Rows(cfg, b, batch)
      requires last == first + |rs| && last <= |batch| && rs == batch[first..last] && HalfFound(cfg, b, rs, g, tables)
      requires |before| == TotalCost(cfg, batch[..first]) && RowsDone(cfg, m, l, Contents(a), rows, hidden, before)
      ensures |out| == TotalCost(cfg, batch[..last]) && RowsDone(cfg, m, l, Contents(a), rows, hidden, out)
    {
      out := before;
      if g.Some? { out := AttendHalf(l, a, g.value, tables, hidden, before, b, batch, first, rs, rows); }
    }

    /** Attention of both halves, prefills first. */
    method Attend(l: nat, a: array2<KV>, input: ModelInput, hidden: seq<Vec>,
                  ghost b: Blocks, ghost prefills: seq<Request>, ghost decodes: seq<Request>,
                  ghost batch: seq<Request>, ghost rows: seq<Row>)
      returns (out: seq<Vec>)
      requires a.Length0 == cfg.numBlocks && a.Length1 == cfg.blockSize && |hidden| == |rows| && RowsFit(cfg, rows)
      requires WellFormed(b) && |b.pool.refs| == cfg.numBlocks && batch == prefills + decodes
      requires BatchOk(cfg, b, batch) && rows == Rows(cfg, b, batch)
      requires HalfFound(cfg, b, prefills, FindGroup(input.groups, false), input.prefillTables)
      requires HalfFound(cfg, b, decodes, RenumberedOption(FindGroup(input.groups, true)), input.decodeTables)
      ensures RowsDone(cfg, m, l, Contents(a), rows, hidden, out) && |out| == TotalCost(cfg, batch)
    {
      Halves(prefills, decodes);
      ghost var middle := |prefills|;
      out := AttendIfAny(l, a, FindGroup(input.groups, false), input.prefillTables, hidden, [], b, batch, 0, middle,
                         prefills, rows);
      out := AttendIfAny(l, a, RenumberedOption(FindGroup(input.groups, true)), input.decodeTables, hidden, out,
                         b, batch, middle, |batch|, decodes, rows);
    }

    /** The cache write of one layer: no slot is out of range, so no index error. */
    method WriteLayer(l: nat, input: ModelInput, entries: seq<KV>, ghost rows: seq<Row>)
      requires PoolOk(cfg, m, pool) && l < m.layers && RowsFit(cfg, rows)
      requires input.slotMapping == Slots(rows) && |entries| == |rows|
      modifies pool[l]
      ensures Contents(pool[l]) == Scatter(old(Contents(pool[l])), Slots(rows), entries)
    {
      ghost var cache := Contents(pool[l]);
      forall i | 0 <= i < |rows| ensures InPool(input.slotMapping[i], |cache|) {
        assert RowFits(cfg, rows[i]);
      }
      WriteAllIsScatter(cache, Slots(rows), entries);
      var written := WriteToPagedCache(entries, pool[l], input.slotMapping);
      assert input.slotMapping[..written] == input.slotMapping;
    }

    /** One layer: project, write, then attend. */
    method RunLayer(l: nat, input: ModelInput, hidden: seq<Vec>, ghost b: Blocks,
                    ghost prefills: seq<Request>, ghost decodes: seq<Request>, ghost batch: seq<Request>,
                    ghost rows: seq<Row>)
      returns (out: seq<Vec>)
      requires PoolOk(cfg, m, pool) && l < m.layers && |hidden| == |rows|
      requires Given(cfg, b, prefills, decodes, batch, rows, input)
      modifies pool[l]
      ensures Contents(pool[l]) == Scatter(old(Contents(pool[l])), Slots(rows), Projections(m, l, rows, hidden))
      ensures out == NextHidden(cfg, m, l, Contents(pool[l]), rows, hidden)
    {
      var entries := Project(l, input.positions, hidden, rows);
      WriteLayer(l, input, entries, rows);
      out := Attend(l, pool[l], input, hidden, b, prefills, decodes, batch, rows);
      DoneIsNextHidden(cfg, m, l, Contents(pool[l]), rows, hidden, out);
    }

    /** One turn of the layer loop; the other layers' caches stay as they are. */
    method NextLayer(l: nat, input: ModelInput, hidden: seq<Vec>, ghost before: seq<seq<KV>>, ghost b: Blocks,
                     ghost prefills: seq<Request>, ghost decodes: seq<Request>, ghost batch: seq<Request>,
                     ghost rows: seq<Row>)
      returns (out: seq<Vec>)
      requires PoolOk(cfg, m, pool) && l < m.layers && Given(cfg, b, prefills, decodes, batch, rows, input)
      requires PassedTo(cfg, m, before, rows, l, Caches(pool), hidden)
      modifies pool
      ensures PassedTo(cfg, m, before, rows, l + 1, Caches(pool), out)
    {
      ghost var caches := Caches(pool);
      out := RunLayer(l, input, hidden, b, prefills, decodes, batch, rows);
      OneLayerFurther(cfg, m, before, rows, l, caches, hidden, Contents(pool[l]), out);
      assert Caches(pool) == caches[l := Contents(pool[l])];
    }

    /** The whole forward pass. */
    method ExecuteModel(input: ModelInput, ghost b: Blocks, ghost prefills: seq<Request>, ghost decodes: seq<Request>,
                        ghost batch: seq<Request>, ghost rows: seq<Row>)
      returns (hidden: seq<Vec>)
      requires PoolOk(cfg, m, pool) && Given(cfg, b, prefills, decodes, batch, rows, input)
      modifies pool
      ensures PassedTo(cfg, m, old(Caches(pool)), rows, m.layers, Caches(pool), hidden)
    {
      ghost var before := Caches(pool);
      CachesAreOk(cfg, m, pool);
      hidden := seq(|input.inputIds|, i requires 0 <= i < |input.inputIds| => m.embed(input.inputIds[i]));
      assert hidden == Embeddings(m, rows);
      for l := 0 to m.layers
        invariant PassedTo(cfg, m, before, rows, l, Caches(pool), hidden)
      {
        hidden := NextLayer(l, input, hidden, before, b, prefills, decodes, batch, rows);
      }
    }
  }
}

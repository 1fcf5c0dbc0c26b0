/** Serialising a scheduled batch into one flat model input, and routing sampled tokens back. */
module InputBuilding {
  import opened Base
  import opened BlockSpec
  import opened Requests
  import opened EngineSpec
  import opened BatchSpec
  import opened BlockManagement

  /** What the executor is told about one sequence of the batch. */
  datatype SeqInfo = SeqInfo(id: nat, decode: bool, queryLen: int, cachedBefore: int, kvAfter: int,
                             sampleIndex: Option<nat>)

  /** The prefill or the decode half of the batch, as the attention backend sees it. */
  datatype Group = Group(decode: bool, seqIndices: seq<nat>, cachedBefore: seq<int>, queryLen: seq<int>,
                         kvAfter: seq<int>)

  datatype ModelInput = ModelInput(
    inputIds: seq<Token>,
    positions: seq<int>,
    slotMapping: seq<nat>,
    sampleIndices: seq<int>,
    info: seq<SeqInfo>,
    groups: seq<Group>,
    prefillTables: seq<seq<int>>,
    decodeTables: seq<seq<int>>,
    numPrefillTokens: int)

  // ---------------------------------------------------------------- the flat lists

  function TokensIn(rows: seq<Row>): (s: seq<Token>)
    ensures |s| == |rows| && forall i :: 0 <= i < |rows| ==> s[i] == rows[i].token
  {
    seq(|rows|, i requires 0 <= i < |rows| => rows[i].token)
  }

  function PositionsIn(rows: seq<Row>): (s: seq<int>)
    ensures |s| == |rows| && forall i :: 0 <= i < |rows| ==> s[i] == rows[i].pos
  {
    seq(|rows|, i requires 0 <= i < |rows| => rows[i].pos)
  }

  /** Three parallel lists spell out the rows. */
  ghost predicate Spells(rows: seq<Row>, ids: seq<Token>, positions: seq<int>, slots: seq<nat>) {
    ids == TokensIn(rows) && positions == PositionsIn(rows) && slots == Slots(rows)
  }

  lemma SpellsAppend(a: seq<Row>, b: seq<Row>, ids: seq<Token>, positions: seq<int>, slots: seq<nat>,
                     ids2: seq<Token>, positions2: seq<int>, slots2: seq<nat>)
    requires Spells(a, ids, positions, slots) && Spells(b, ids2, positions2, slots2)
    ensures Spells(a + b, ids + ids2, positions + positions2, slots + slots2)
  {
  }

  // ---------------------------------------------------------------- who samples, and where

  /** The step reaches the end of what the request has: its next token is due. */
  predicate Samples(cfg: Config, r: Request) { NextEnd(cfg, r) >= |r.prompt| + r.generated }

  /** The flat indices of the rows whose logits are sampled. */
  function SampleIndices(cfg: Config, batch: seq<Request>): seq<int>
    decreases |batch|
  {
    if batch == [] then []
    else
      var front := SampleIndices(cfg, batch[..|batch| - 1]);
      if Samples(cfg, batch[|batch| - 1]) then front + [TotalCost(cfg, batch) - 1] else front
  }

  /** The requests they are sampled for, in the same order. */
  function Samplers(cfg: Config, batch: seq<Request>): (s: seq<Request>)
    ensures forall r :: r in s <==> r in batch && Samples(cfg, r)
    decreases |batch|
  {
    if batch == [] then []
    else
      var front := Samplers(cfg, batch[..|batch| - 1]);
      var last := batch[|batch| - 1];
      assert batch == batch[..|batch| - 1] + [last];
      if Samples(cfg, last) then front + [last] else front
  }

  function InfoOf(cfg: Config, r: Request, index: Option<nat>): SeqInfo {
    SeqInfo(r.id, r.status != Prefill, Cost(cfg, r), KvLen(r), NextEnd(cfg, r), index)
  }

  function Infos(cfg: Config, batch: seq<Request>): seq<SeqInfo>
    decreases |batch|
  {
    if batch == [] then []
    else
      var k := |batch| - 1;
      var index := if Samples(cfg, batch[k]) then Some(|Samplers(cfg, batch[..k])|) else None;
      Infos(cfg, batch[..k]) + [InfoOf(cfg, batch[k], index)]
  }

  // ---------------------------------------------------------------- token routing

  lemma {:induction false} RowsCount(cfg: Config, b: Blocks, batch: seq<Request>)
    requires BatchOk(cfg, b, batch)
    ensures |Rows(cfg, b, batch)| == TotalCost(cfg, batch)
    decreases |batch|
  {
    if batch != [] {
      var k := |batch| - 1;
      assert batch == batch[..k] + [batch[k]];
      RowsCount(cfg, b, batch[..k]);
      TotalCostAppend(cfg, batch[..k], [batch[k]]);
      OneCost(cfg, batch[k]);
    }
  }

  /** Entry k of `indices` is the last row of the k-th request of `samplers`, and the entries
      strictly increase and stay below `n`. */
  ghost predicate Routed(rows: seq<Row>, samplers: seq<Request>, indices: seq<int>, n: int) {
    && |indices| == |samplers|
    && (forall k :: 0 <= k < |indices| ==> 0 <= indices[k] < n <= |rows|)
    && (forall j, k :: 0 <= j < k < |indices| ==> indices[j] < indices[k])
    && (forall k :: 0 <= k < |indices| ==> LastRowOf(rows, indices[k], samplers[k].id))
  }

  ghost predicate LastRowOf(rows: seq<Row>, i: int, id: nat) {
    0 <= i < |rows| && rows[i].id == id && forall j :: i < j < |rows| ==> rows[j].id != id
  }

  lemma LastRowStays(rows: seq<Row>, more: seq<Row>, i: int, id: nat)
    requires LastRowOf(rows, i, id) && forall j :: 0 <= j < |more| ==> more[j].id != id
    ensures LastRowOf(rows + more, i, id)
  {
  }

  lemma RoutedExtends(rows: seq<Row>, more: seq<Row>, samplers: seq<Request>, indices: seq<int>)
    requires Routed(rows, samplers, indices, |rows|)
    requires forall s, j :: s in samplers && 0 <= j < |more| ==> more[j].id != s.id
    ensures Routed(rows + more, samplers, indices, |rows|)
  {
    forall k | 0 <= k < |indices| ensures LastRowOf(rows + more, indices[k], samplers[k].id) {
      LastRowStays(rows, more, indices[k], samplers[k].id);
    }
  }

  lemma RoutedOneMore(rows: seq<Row>, samplers: seq<Request>, indices: seq<int>, n: int, r: Request)
    requires Routed(rows, samplers, indices, n) && n < |rows| && LastRowOf(rows, |rows| - 1, r.id)
    ensures Routed(rows, samplers + [r], indices + [|rows| - 1], |rows|)
  {
  }

  /** Sampled rows are routed: index k names the last row of the k-th request that samples, the
      indices strictly increase, and they stay inside the batch. */
  lemma EndsWithLast(cfg: Config, b: Blocks, front: seq<Row>, r: Request)
    requires Covered(cfg, b, r)
    ensures var all := front + RowsOf(cfg, b, r); |all| > |front| && LastRowOf(all, |all| - 1, r.id)
  {
    RowsOfPositions(cfg, b, r);
    LivelyCost(cfg, r);
  }

  lemma {:induction false} SamplesAreRouted(cfg: Config, b: Blocks, batch: seq<Request>)
    requires BatchOk(cfg, b, batch)
    ensures Routed(Rows(cfg, b, batch), Samplers(cfg, batch), SampleIndices(cfg, batch), |Rows(cfg, b, batch)|)
    decreases |batch|
  {
    if batch != [] {
      var k := |batch| - 1;
      var front, more := Rows(cfg, b, batch[..k]), RowsOf(cfg, b, batch[k]);
      SamplesAreRouted(cfg, b, batch[..k]);
      RowsCount(cfg, b, batch);
      RoutedExtends(front, more, Samplers(cfg, batch[..k]), SampleIndices(cfg, batch[..k]));
      EndsWithLast(cfg, b, front, batch[k]);
      if Samples(cfg, batch[k]) {
        RoutedOneMore(front + more, Samplers(cfg, batch[..k]), SampleIndices(cfg, batch[..k]), |front|, batch[k]);
      }
    }
  }

  /** The sequences that the executor pairs with sampled tokens: those with a sample index, in the
      order listed, provided the indices count 0, 1, 2, ... */
  function Named(infos: seq<SeqInfo>): (ids: seq<nat>)
    decreases |infos|
  {
    if infos == [] then []
    else
      var front := Named(infos[..|infos| - 1]);
      if infos[|infos| - 1].sampleIndex.Some? then front + [infos[|infos| - 1].id] else front
  }

  ghost predicate Numbered(infos: seq<SeqInfo>)
    decreases |infos|
  {
    infos == [] ||
      (&& Numbered(infos[..|infos| - 1])
       && (infos[|infos| - 1].sampleIndex.Some? ==>
             infos[|infos| - 1].sampleIndex.value == |Named(infos[..|infos| - 1])|))
  }

  function IdsOf(rs: seq<Request>): (ids: seq<nat>)
    ensures |ids| == |rs| && forall i :: 0 <= i < |rs| ==> ids[i] == rs[i].id
  {
    seq(|rs|, i requires 0 <= i < |rs| => rs[i].id)
  }

  /** Sample indices number the sampling requests 0, 1, 2, ... in batch order. */
  lemma {:induction false} InfosNameSamplers(cfg: Config, batch: seq<Request>)
    ensures Numbered(Infos(cfg, batch)) && Named(Infos(cfg, batch)) == IdsOf(Samplers(cfg, batch))
    ensures |Infos(cfg, batch)| == |batch|
    decreases |batch|
  {
    if batch != [] {
      var k := |batch| - 1;
      InfosNameSamplers(cfg, batch[..k]);
      var infos := Infos(cfg, batch);
      assert infos[..|infos| - 1] == Infos(cfg, batch[..k]);
    }
  }

  // ---------------------------------------------------------------- padded tables

  /** A table padded with -1 to a common width. */
  function Padded(table: seq<nat>, width: nat): (row: seq<int>)
    ensures |table| <= width ==> |row| == width
    ensures |table| <= width ==> forall i :: 0 <= i < width ==> row[i] == if i < |table| then table[i] else -1
  {
    var ids: seq<int> := table;
    var padding: seq<int> := seq(if |table| <= width then width - |table| else 0, i => -1);
    (ids + padding)[..width]
  }

  /** The backend's way back: drop every -1. */
  function Unpadded(row: seq<int>): (t: seq<int>)
  {
    if row == [] then [] else (if row[0] == -1 then [] else [row[0]]) + Unpadded(row[1..])
  }

  lemma {:induction false} PaddingIsInvertible(table: seq<nat>, width: nat)
    requires |table| <= width
    ensures Unpadded(Padded(table, width)) == table
  {
    var row := Padded(table, width);
    if table != [] {
      PaddingIsInvertible(table[1..], width - 1);
      assert row[1..] == Padded(table[1..], width - 1);
    } else if width > 0 {
      PaddingIsInvertible([], width - 1);
      assert row[1..] == Padded([], width - 1);
    }
  }

  function TableOf(b: Blocks, id: nat): seq<nat> { if id in b.tables then Pids(b.tables[id]) else [] }

  /** Row i of the tensor is the table of the i-th sequence, padded to `width`, which is at least
      the length of every table. */
  ghost predicate Tabled(b: Blocks, rs: seq<Request>, rows: seq<seq<int>>, width: nat) {
    && |rows| == |rs|
    && forall i :: 0 <= i < |rs| ==> |TableOf(b, rs[i].id)| <= width && rows[i] == Padded(TableOf(b, rs[i].id), width)
  }

  // ---------------------------------------------------------------- groups

  function GroupOf(decode: bool, first: nat, metas: seq<Meta>): (g: Group)
    ensures |g.seqIndices| == |metas| && |g.kvAfter| == |metas|
  {
    var cached := seq(|metas|, i requires 0 <= i < |metas| => metas[i].cachedBefore);
    var query := seq(|metas|, i requires 0 <= i < |metas| => metas[i].queryLen);
    Group(decode, seq(|metas|, i requires 0 <= i < |metas| => first + i), cached, query,
          seq(|metas|, i requires 0 <= i < |metas| => cached[i] + query[i]))
  }

  function MetasOf(cfg: Config, rs: seq<Request>): (metas: seq<Meta>)
    ensures |metas| == |rs| && forall i :: 0 <= i < |rs| ==> metas[i] == MetaOf(cfg, rs[i])
  {
    seq(|rs|, i requires 0 <= i < |rs| => MetaOf(cfg, rs[i]))
  }

  /** One group per non-empty half; decode sequences are numbered after the prefills. */
  function GroupsOf(prefills: seq<Meta>, decodes: seq<Meta>): seq<Group> {
    (if |prefills| > 0 then [GroupOf(false, 0, prefills)] else [])
    + (if |decodes| > 0 then [GroupOf(true, |prefills|, decodes)] else [])
  }

  // ---------------------------------------------------------------- building

  /** What is collected about one sequence before the lists are built. */
  datatype Meta = Meta(r: Request, cachedBefore: int, queryLen: int, completes: bool)

  function MetaOf(cfg: Config, r: Request): Meta { Meta(r, KvLen(r), Cost(cfg, r), Samples(cfg, r)) }

  /** The flat lists as they grow, and the number of tokens so far. */
  datatype Flat = Flat(ids: seq<Token>, positions: seq<int>, slots: seq<nat>, samples: seq<int>, offset: int)

  /** The flat lists describe the requests `batch`. */
  ghost predicate Built(cfg: Config, b: Blocks, batch: seq<Request>, f: Flat) {
    && BatchOk(cfg, b, batch)
    && Spells(Rows(cfg, b, batch), f.ids, f.positions, f.slots)
    && f.samples == SampleIndices(cfg, batch) && f.offset == TotalCost(cfg, batch)
  }

  lemma BuiltNext(cfg: Config, b: Blocks, batch: seq<Request>, r: Request, all: seq<Request>, f: Flat, more: Flat)
    requires Built(cfg, b, batch, f) && all == batch + [r] && BatchOk(cfg, b, all)
    requires Covered(cfg, b, r) && Spells(RowsOf(cfg, b, r), more.ids, more.positions, more.slots)
    requires more.samples == (if Samples(cfg, r) then [f.offset + Cost(cfg, r) - 1] else [])
    requires more.offset == Cost(cfg, r)
    ensures Built(cfg, b, all, Flat(f.ids + more.ids, f.positions + more.positions, f.slots + more.slots,
                                    f.samples + more.samples, f.offset + more.offset))
  {
    assert all[..|all| - 1] == batch && all[|all| - 1] == r;
    SpellsAppend(Rows(cfg, b, batch), RowsOf(cfg, b, r), f.ids, f.positions, f.slots, more.ids, more.positions,
                 more.slots);
    TotalCostAppend(cfg, batch, [r]);
    OneCost(cfg, r);
  }

  /** Rows up to `i` of a request, spelled out; `ids` are filled in afterwards. */
  lemma RowSpelled(cfg: Config, b: Blocks, r: Request, i: nat)
    requires Covered(cfg, b, r) && i < Cost(cfg, r)
    ensures 0 <= KvLen(r) && KvLen(r) + i < NextEnd(cfg, r)
    ensures var row := RowsOf(cfg, b, r)[i];
      && row.pos == KvLen(r) + i && row.token == TokensOf(r)[KvLen(r) + i]
      && row.slot == SlotAt(cfg, b, r, KvLen(r) + i)
  {
    LivelyCost(cfg, r);
    var p: nat := KvLen(r) + i;
    assert RowsOf(cfg, b, r)[i] == RowAt(cfg, b, r, p);
  }

  /** Every front part of a batch is a batch, and so is the next one. */
  lemma Portion(cfg: Config, b: Blocks, prefills: seq<Request>, decodes: seq<Request>, k: nat)
    requires BatchOk(cfg, b, prefills + decodes) && k < |prefills + decodes|
    ensures var all := prefills + decodes;
      && Covered(cfg, b, all[k]) && BatchOk(cfg, b, all[..k] + [all[k]])
      && (k < |prefills| ==> all[..k] == prefills[..k] && all[k] == prefills[k] && all[k] in prefills)
      && (k >= |prefills| ==>
            all[..k] == prefills + decodes[..k - |prefills|] && all[k] == decodes[k - |prefills|] && all[k] in decodes)
  {
    var all := prefills + decodes;
    assert all[k] in all;
    assert all[..k] + [all[k]] == all[..k + 1];
  }

  /** The model input of a batch: its rows in order, where to sample, whose samples these are, and
      the tables of both halves. */
  ghost predicate Describes(cfg: Config, b: Blocks, prefills: seq<Request>, decodes: seq<Request>,
                            input: ModelInput) {
    && Built(cfg, b, prefills + decodes,
             Flat(input.inputIds, input.positions, input.slotMapping, input.sampleIndices,
                  TotalCost(cfg, prefills + decodes)))
    && input.info == Infos(cfg, prefills + decodes)
    && input.groups == GroupsOf(MetasOf(cfg, prefills), MetasOf(cfg, decodes))
    && (exists width: nat ::
          Tabled(b, prefills, input.prefillTables, width) && Tabled(b, decodes, input.decodeTables, width))
    && input.numPrefillTokens == TotalCost(cfg, prefills)
  }

  class ModelInputBuilder {
    const cfg: Config
    const manager: BlockManager

    constructor (cfg: Config, manager: BlockManager)
      ensures this.cfg == cfg && this.manager == manager
    {
      this.cfg := cfg;
      this.manager := manager;
    }

    /** The physical slot of a token position; None where the code raises because the block of
        the position was never allocated. */
    function ComputeSlot(id: nat, position: nat): (slot: Option<int>)
      requires manager.Valid()
      reads manager, manager.allocator, manager.prefixCache, manager.tables.Values
    {
      var table := manager.GetBlockTable(id);
      var logical := position / cfg.blockSize;
      if logical < 0 || logical >= |table| then None
      else Some(table[logical] * cfg.blockSize + position % cfg.blockSize)
    }

    /** Every position of a covered request has a slot: computing it never fails. */
    lemma SlotComputed(r: Request, pos: nat)
      requires manager.Valid() && manager.cfg == cfg && Covered(cfg, manager.state, r) && pos < NextEnd(cfg, r)
      ensures ComputeSlot(r.id, pos) == Some(SlotAt(cfg, manager.state, r, pos))
    {
      BlockOfPosition(pos, cfg.blockSize, |manager.state.tables[r.id]|);
      SlotFormula(cfg.blockSize, Pids(manager.state.tables[r.id]), pos);
    }

    method CollectPrefills(rs: seq<Request>) returns (metas: seq<Meta>)
      requires forall r :: r in rs ==> Lively(r) && Prefilling(r)
      ensures |metas| == |rs| && forall i :: 0 <= i < |rs| ==> metas[i] == MetaOf(cfg, rs[i])
    {
      metas := [];
      for i := 0 to |rs|
        invariant |metas| == i && forall j :: 0 <= j < i ==> metas[j] == MetaOf(cfg, rs[j])
      {
        var remaining := |rs[i].prompt| - rs[i].cursor;
        var chunk := Min(cfg.chunkSize, remaining);
        assert rs[i] in rs;
        metas := metas + [Meta(rs[i], rs[i].cursor, chunk, rs[i].cursor + chunk >= |rs[i].prompt|)];
      }
    }

    method CollectDecodes(rs: seq<Request>) returns (metas: seq<Meta>)
      requires forall r :: r in rs ==> Lively(r) && Decoding(r)
      ensures |metas| == |rs| && forall i :: 0 <= i < |rs| ==> metas[i] == MetaOf(cfg, rs[i])
    {
      metas := [];
      for i := 0 to |rs|
        invariant |metas| == i && forall j :: 0 <= j < i ==> metas[j] == MetaOf(cfg, rs[j])
      {
        assert rs[i] in rs;
        assert rs[i].generated >= 1 && |rs[i].output| >= 1 && rs[i].generated == |rs[i].output|;
        metas := metas + [Meta(rs[i], |rs[i].prompt| + rs[i].generated - 1, 1, true)];
      }
    }

    /** The rows of one prefill: a slot per position, then the prompt tokens of the chunk. */
    method PrefillRows(m: Meta) returns (ids: seq<Token>, positions: seq<int>, slots: seq<nat>)
      requires manager.Valid() && manager.cfg == cfg
      requires Covered(cfg, manager.state, m.r) && Prefilling(m.r) && m == MetaOf(cfg, m.r)
      ensures Spells(RowsOf(cfg, manager.state, m.r), ids, positions, slots)
    {
      ghost var rows := RowsOf(cfg, manager.state, m.r);
      LivelyCost(cfg, m.r);
      positions, slots := [], [];
      for i := 0 to m.queryLen
        invariant |positions| == i && |slots| == i
        invariant forall j :: 0 <= j < i ==> positions[j] == rows[j].pos && slots[j] == rows[j].slot
      {
        RowSpelled(cfg, manager.state, m.r, i);
        SlotComputed(m.r, m.cachedBefore + i);
        positions := positions + [m.cachedBefore + i];
        slots := slots + [ComputeSlot(m.r.id, m.cachedBefore + i).value];
      }
      ids := m.r.prompt[m.cachedBefore..m.cachedBefore + m.queryLen];
      forall j | 0 <= j < |rows| ensures ids[j] == rows[j].token {
        RowSpelled(cfg, manager.state, m.r, j);
      }
    }

    /** The one row of a decode: its newest token, not in the cache yet. */
    method DecodeRow(m: Meta) returns (ids: seq<Token>, positions: seq<int>, slots: seq<nat>)
      requires manager.Valid() && manager.cfg == cfg
      requires Covered(cfg, manager.state, m.r) && Decoding(m.r) && m == MetaOf(cfg, m.r)
      ensures Spells(RowsOf(cfg, manager.state, m.r), ids, positions, slots)
    {
      LivelyCost(cfg, m.r);
      RowSpelled(cfg, manager.state, m.r, 0);
      SlotComputed(m.r, m.cachedBefore);
      positions := [m.cachedBefore];
      slots := [ComputeSlot(m.r.id, m.cachedBefore).value];
      ids := [m.r.output[|m.r.output| - 1]];
    }

    /** The prefill rows; only the last row of a prompt that completes is sampled. */
    method AddPrefills(prefills: seq<Request>, decodes: seq<Request>, metas: seq<Meta>) returns (f: Flat)
      requires manager.Valid() && manager.cfg == cfg && BatchOk(cfg, manager.state, prefills + decodes)
      requires metas == MetasOf(cfg, prefills) && forall r :: r in prefills ==> Prefilling(r)
      ensures Built(cfg, manager.state, prefills, f)
    {
      ghost var b := manager.state;
      f := Flat([], [], [], [], 0);
      for i := 0 to |metas|
        invariant Built(cfg, b, prefills[..i], f)
      {
        Portion(cfg, b, prefills, decodes, i);
        var m := metas[i];
        var ids, positions, slots := PrefillRows(m);
        var samples := if m.completes then [f.offset + m.queryLen - 1] else [];
        assert prefills[..i + 1] == prefills[..i] + [prefills[i]];
        BuiltNext(cfg, b, prefills[..i], m.r, prefills[..i + 1], f, Flat(ids, positions, slots, samples, m.queryLen));
        f := Flat(f.ids + ids, f.positions + positions, f.slots + slots, f.samples + samples, f.offset + m.queryLen);
      }
      assert prefills[..|metas|] == prefills;
    }

    /** The decode rows, every one of them sampled. */
    method AddDecodes(prefills: seq<Request>, decodes: seq<Request>, metas: seq<Meta>, start: Flat) returns (f: Flat)
      requires manager.Valid() && manager.cfg == cfg && BatchOk(cfg, manager.state, prefills + decodes)
      requires metas == MetasOf(cfg, decodes) && forall r :: r in decodes ==> Decoding(r)
      requires Built(cfg, manager.state, prefills, start)
      ensures Built(cfg, manager.state, prefills + decodes, f)
    {
      ghost var b := manager.state;
      f := start;
      ghost var done := prefills;
      for i := 0 to |metas|
        invariant done == prefills + decodes[..i] && Built(cfg, b, done, f)
      {
        ghost var before := done;
        Portion(cfg, b, prefills, decodes, |prefills| + i);
        done := done + [decodes[i]];
        var ids, positions, slots := DecodeRow(metas[i]);
        BuiltNext(cfg, b, before, metas[i].r, done, f, Flat(ids, positions, slots, [f.offset], 1));
        f := Flat(f.ids + ids, f.positions + positions, f.slots + slots, f.samples + [f.offset], f.offset + 1);
      }
      assert prefills + decodes[..|metas|] == prefills + decodes;
    }

    /** The longest table of the batch, at least 1. */
    method MaxBlocks(prefills: seq<Request>, decodes: seq<Request>) returns (width: nat)
      requires manager.Valid()
      ensures width >= 1 && forall r :: r in prefills + decodes ==> |TableOf(manager.state, r.id)| <= width
    {
      var all := prefills + decodes;
      width := 0;
      for i := 0 to |all|
        invariant forall j :: 0 <= j < i ==> |TableOf(manager.state, all[j].id)| <= width
      {
        width := Max(width, |manager.GetBlockTable(all[i].id)|);
      }
      width := Max(1, width);
    }

    method BlockTableTensor(rs: seq<Request>, width: nat) returns (rows: seq<seq<int>>)
      requires manager.Valid() && forall r :: r in rs ==> |TableOf(manager.state, r.id)| <= width
      ensures Tabled(manager.state, rs, rows, width)
    {
      rows := [];
      for i := 0 to |rs|
        invariant Tabled(manager.state, rs[..i], rows, width)
      {
        assert rs[i] in rs;
        rows := rows + [Padded(manager.GetBlockTable(rs[i].id), width)];
      }
      assert rs[..|rs|] == rs;
    }

    /** What the executor is told, sequence by sequence; sample indices are counted on the way. */
    method CollectInfo(batch: seq<Request>, metas: seq<Meta>) returns (infos: seq<SeqInfo>)
      requires metas == MetasOf(cfg, batch)
      ensures infos == Infos(cfg, batch)
    {
      infos := [];
      var counter := 0;
      for i := 0 to |metas|
        invariant infos == Infos(cfg, batch[..i]) && counter == |Samplers(cfg, batch[..i])|
      {
        var m := metas[i];
        var index := None;
        if m.completes { index := Some(counter); counter := counter + 1; }
        infos := infos + [SeqInfo(m.r.id, m.r.status != Prefill, m.queryLen, m.cachedBefore,
                                  m.cachedBefore + m.queryLen, index)];
        assert batch[..i + 1][..i] == batch[..i];
      }
      assert batch[..|metas|] == batch;
    }

    /** Rows and samples of both halves. */
    method BuildLists(prefills: seq<Request>, decodes: seq<Request>)
      returns (pm: seq<Meta>, dm: seq<Meta>, numPrefill: int, f: Flat)
      requires manager.Valid() && manager.cfg == cfg && BatchOk(cfg, manager.state, prefills + decodes)
      requires (forall r :: r in prefills ==> Prefilling(r)) && (forall r :: r in decodes ==> Decoding(r))
      ensures pm == MetasOf(cfg, prefills) && dm == MetasOf(cfg, decodes) && numPrefill == TotalCost(cfg, prefills)
      ensures Built(cfg, manager.state, prefills + decodes, f)
    {
      assert forall r :: r in prefills || r in decodes ==> r in prefills + decodes;
      pm := CollectPrefills(prefills);
      dm := CollectDecodes(decodes);
      f := AddPrefills(prefills, decodes, pm);
      numPrefill := f.offset;
      f := AddDecodes(prefills, decodes, dm, f);
    }

    /** Both table tensors, padded to one width. */
    method BuildTables(prefills: seq<Request>, decodes: seq<Request>) returns (pt: seq<seq<int>>, dt: seq<seq<int>>)
      requires manager.Valid()
      ensures exists width: nat ::
        Tabled(manager.state, prefills, pt, width) && Tabled(manager.state, decodes, dt, width)
    {
      var width := MaxBlocks(prefills, decodes);
      pt := BlockTableTensor(prefills, width);
      dt := BlockTableTensor(decodes, width);
    }

    /** The whole model input of one step.  No position of the batch is without a block, so no slot
        computation fails. */
    method Build(prefills: seq<Request>, decodes: seq<Request>) returns (input: ModelInput)
      requires manager.Valid() && manager.cfg == cfg && BatchOk(cfg, manager.state, prefills + decodes)
      requires (forall r :: r in prefills ==> Prefilling(r)) && (forall r :: r in decodes ==> Decoding(r))
      ensures Describes(cfg, manager.state, prefills, decodes, input)
    {
      var pm, dm, numPrefill, f := BuildLists(prefills, decodes);
      var pt, dt := BuildTables(prefills, decodes);
      var infos := CollectInfo(prefills + decodes, pm + dm);
      input := ModelInput(f.ids, f.positions, f.slots, f.samples, infos, GroupsOf(pm, dm), pt, dt, numPrefill);
      assert f == Flat(f.ids, f.positions, f.slots, f.samples, TotalCost(cfg, prefills + decodes));
    }
  }
}

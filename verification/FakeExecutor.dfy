/** The fake executor as an object: the dictionary, the last tokens and the counter it updates, the
    allocator callbacks, and `execute` over the sequence infos of a model input. */
module FakeExecuting {
  import opened Base
  import opened BlockSpec
  import opened BlockManagement
  import opened InputBuilding
  import opened FakeModels
  import opened FakeExecution
  import opened FakeCallbacks

  /** The table of the sequence reaches everything the executor is going to touch. */
  predicate Reaches(cfg: Config, b: Blocks, info: SeqInfo) {
    && Sane(info) && info.id in b.tables
    && info.cachedBefore + info.queryLen <= Span(cfg.blockSize, |b.tables[info.id]|)
  }

  lemma ReachedBlock(cfg: Config, b: Blocks, id: nat, pos: nat)
    requires WellFormed(b) && id in b.tables && pos < Span(cfg.blockSize, |b.tables[id]|)
    ensures BlockAt(cfg, b, id, pos).Some? && EnsureBlock(cfg, b, id, [], pos) == Ok(b)
  {
    BlockOfPosition(pos, cfg.blockSize, |b.tables[id]|);
  }

  /** The answer to the first `i` infos. */
  ghost predicate AnsweredTo(cfg: Config, vocab: int, b: Blocks, k: Sim, infos: seq<SeqInfo>, i: nat, m: Sim,
                             tokens: seq<Token>, ids: seq<nat>) {
    && vocab > 0 && i <= |infos| && (forall j :: 0 <= j < |infos| ==> Sane(infos[j]))
    && Reply(m, tokens, ids) == ServeAll(cfg, vocab, b, k, infos[..i])
  }

  lemma AnsweredOne(cfg: Config, vocab: int, b: Blocks, k: Sim, infos: seq<SeqInfo>, i: nat, w: Sim,
                    tokens: seq<Token>, ids: seq<nat>, m: Sim, token: Option<Token>)
    requires AnsweredTo(cfg, vocab, b, k, infos, i, w, tokens, ids) && i < |infos|
    requires (m, token) == Serve(cfg, vocab, b, w, infos[i])
    ensures AnsweredTo(cfg, vocab, b, k, infos, i + 1, m, if token.Some? then tokens + [token.value] else tokens,
                       if token.Some? then ids + [infos[i].id] else ids)
  {
    assert infos[..i + 1][..i] == infos[..i];
  }

  /** Python's `sum` over a list. */
  method SumOf(data: seq<int>) returns (total: int)
    ensures total == Sum(data)
  {
    total := 0;
    for i := 0 to |data|
      invariant total == Sum(data[..i])
    {
      assert data[..i + 1][..i] == data[..i];
      total := total + data[i];
    }
    assert data[..|data|] == data;
  }

  /** The positions from `from` up to `pos` are written. */
  ghost predicate WrittenTo(cfg: Config, vocab: int, b: Blocks, k: Sim, id: nat, from: nat, pos: nat, m: Sim) {
    vocab > 0 && m == WritePrompt(cfg, vocab, b, k, id, from, pos)
  }

  class FakeModelExecutor {
    const cfg: Config
    const vocab: int
    const manager: BlockManager
    var kvCache: map<nat, seq<int>>
    var simState: map<nat, Token>
    var totalTokens: nat

    constructor (cfg: Config, vocab: int, manager: BlockManager)
      ensures this.cfg == cfg && this.vocab == vocab && this.manager == manager
      ensures View() == Sim(map[], map[], 0)
    {
      this.cfg := cfg;
      this.vocab := vocab;
      this.manager := manager;
      kvCache := map[];
      simState := map[];
      totalTokens := 0;
    }

    function View(): Sim
      reads this
    {
      Sim(kvCache, simState, totalTokens)
    }

    ghost predicate Wired() { manager.cfg == cfg && vocab > 0 }

    method PrepareBlock(pid: nat)
      modifies this
      ensures View() == old(View()).(kv := OnAllocate(old(kvCache), pid))
    {
      kvCache := kvCache[pid := []];
    }

    method ReleaseBlock(pid: nat)
      modifies this
      ensures View() == old(View()).(kv := OnFree(old(kvCache), pid))
    {
      kvCache := kvCache - {pid};
    }

    /** The block of a position that the table already reaches.  No prompt is passed, so the manager
        takes nothing from the prefix cache. */
    method BlockFor(id: nat, position: nat) returns (pid: nat)
      requires Wired() && manager.Valid() && id in manager.state.tables
      requires position < Span(cfg.blockSize, |manager.state.tables[id]|)
      modifies manager`tables, manager`state, manager.allocator, manager.prefixCache, manager.tables.Values
      ensures manager.Valid() && manager.Grew() && manager.state == old(manager.state)
      ensures BlockAt(cfg, manager.state, id, position) == Some(pid)
    {
      ReachedBlock(cfg, manager.state, id, position);
      var block := manager.EnsureBlock(id, [], position);
      pid := block.value;
      assert pid == manager.Entries()[id][position / cfg.blockSize].pid;
    }

    method Append(pid: nat, token: Token)
      requires vocab > 0
      modifies this`kvCache, this`totalTokens
      ensures View() == Appended(vocab, old(View()), pid, token)
    {
      var data := if pid in kvCache then kvCache[pid] else [];
      kvCache := kvCache[pid := data + [FakeKey(vocab, token), FakeValue(vocab, token)]];
      totalTokens := totalTokens + 1;
    }

    /** Appends the key and the value of a token to the list of its block. */
    method SimulateKvWrite(id: nat, position: nat, token: Token)
      requires Wired() && manager.Valid() && id in manager.state.tables
      requires position < Span(cfg.blockSize, |manager.state.tables[id]|)
      modifies this, manager`tables, manager`state, manager.allocator, manager.prefixCache, manager.tables.Values
      ensures manager.Valid() && manager.Grew() && manager.state == old(manager.state)
      ensures View() == WriteKv(cfg, vocab, manager.state, old(View()), id, position, token)
    {
      ghost var before, b := View(), manager.state;
      var pid := BlockFor(id, position);
      Append(pid, token);
      ghost var kept := manager.Valid() && manager.Grew() && manager.state == b;
      assert kept;
    }

    /** The bias stored for a position: the block table of the sequence, then the dictionary. */
    method SimulateReadKvBias(id: nat, position: nat) returns (bias: int)
      requires Wired() && manager.Valid()
      ensures bias == ReadBias(cfg, vocab, manager.state, View(), id, position)
    {
      var ids := manager.GetBlockTable(id);
      var logical := position / cfg.blockSize;
      if 0 <= logical < |ids| {
        var data := if ids[logical] in kvCache then kvCache[ids[logical]] else [];
        if data == [] { return 0; }
        var total := SumOf(data);
        return total % vocab;
      }
      bias := 0;
    }

    /** One position of a chunk. */
    method WriteNext(id: nat, from: nat, pos: nat, next: nat, ghost b: Blocks, ghost k: Sim)
      requires Wired() && manager.Valid() && manager.state == b && id in b.tables
      requires from <= pos && next == pos + 1 <= Span(cfg.blockSize, |b.tables[id]|)
      requires WrittenTo(cfg, vocab, b, k, id, from, pos, View())
      modifies this, manager`tables, manager`state, manager.allocator, manager.prefixCache, manager.tables.Values
      ensures manager.Valid() && manager.Grew() && manager.state == b
      ensures WrittenTo(cfg, vocab, b, k, id, from, next, View())
    {
      SimulateKvWrite(id, pos, pos % vocab);
    }

    /** The chunk of a prefill; returns its last position. */
    method WriteChunk(id: nat, from: nat, end: nat, ghost b: Blocks, ghost k: Sim) returns (pos: nat)
      requires Wired() && manager.Valid() && manager.state == b && View() == k
      requires id in b.tables && from < end <= Span(cfg.blockSize, |b.tables[id]|)
      modifies this, manager`tables, manager`state, manager.allocator, manager.prefixCache, manager.tables.Values
      ensures manager.Valid() && manager.Grew() && manager.state == b
      ensures View() == WritePrompt(cfg, vocab, b, k, id, from, end) && pos == end - 1
    {
      pos := from;
      var i := from;
      while i < end
        invariant from <= i <= end && manager.Valid() && manager.Grew() && manager.state == b
        invariant WrittenTo(cfg, vocab, b, k, id, from, i, View())
        invariant i > from ==> pos == i - 1
      {
        var next := i + 1;
        pos := i;
        WriteNext(id, from, pos, next, b, k);
        i := next;
      }
    }

    method Remember(id: nat, token: Token)
      modifies this`simState
      ensures View() == Remembered(old(View()), id, token)
    {
      simState := simState[id := token];
    }

    /** The first token, when the prompt ends with this chunk. */
    method FirstToken(info: SeqInfo, pos: int, ghost b: Blocks, ghost k: Sim, from: nat,
                      end: nat) returns (token: Option<Token>)
      requires vocab > 0 && Sane(info) && !info.decode && pos == end - 1
      requires from == info.cachedBefore && end == info.cachedBefore + info.queryLen
      requires View() == WritePrompt(cfg, vocab, b, k, info.id, from, end)
      modifies this`simState
      ensures (View(), token) == Serve(cfg, vocab, b, k, info)
    {
      token := None;
      if info.sampleIndex.Some? {
        var first := (pos * 3 + 1) % vocab;
        Remember(info.id, first);
        token := Some(first);
      }
    }

    /** A prefill: its chunk, then the first token if it is due. */
    method ServePrefill(info: SeqInfo, ghost b: Blocks, ghost k: Sim) returns (token: Option<Token>)
      requires Wired() && manager.Valid() && manager.state == b && View() == k
      requires Reaches(cfg, b, info) && !info.decode
      modifies this, manager`tables, manager`state, manager.allocator, manager.prefixCache, manager.tables.Values
      ensures manager.Valid() && manager.Grew() && manager.state == b
      ensures (View(), token) == Serve(cfg, vocab, b, k, info)
    {
      var from, end: nat := info.cachedBefore, info.cachedBefore + info.queryLen;
      var pos := WriteChunk(info.id, from, end, b, k);
      token := FirstToken(info, pos, b, k, from, end);
      ghost var kept := manager.Valid() && manager.Grew() && manager.state == b;
      assert kept;
    }

    /** The next token of a decode, from the block of the previous position. */
    method NextToken(info: SeqInfo, ghost b: Blocks, ghost k: Sim) returns (next: Token)
      requires Wired() && manager.Valid() && manager.state == b && View() == k && Sane(info) && info.decode
      ensures Serve(cfg, vocab, b, k, info)
        == (Remembered(WriteKv(cfg, vocab, b, k, info.id, info.cachedBefore, next), info.id, next), Some(next))
    {
      var bias := SimulateReadKvBias(info.id, info.cachedBefore - 1);
      var prev := if info.id in simState then simState[info.id] else 42;
      next := (prev + 7 + bias) % vocab;
    }

    method WriteAndRemember(id: nat, position: nat, token: Token, ghost b: Blocks, ghost k: Sim)
      requires Wired() && manager.Valid() && manager.state == b && View() == k
      requires id in b.tables && position < Span(cfg.blockSize, |b.tables[id]|)
      modifies this, manager`tables, manager`state, manager.allocator, manager.prefixCache, manager.tables.Values
      ensures manager.Valid() && manager.Grew() && manager.state == b
      ensures View() == Remembered(WriteKv(cfg, vocab, b, k, id, position, token), id, token)
    {
      SimulateKvWrite(id, position, token);
      Remember(id, token);
      ghost var kept := manager.Valid() && manager.Grew() && manager.state == b;
      assert kept;
    }

    /** A decode: its token, then the write of that token. */
    method ServeDecode(info: SeqInfo, ghost b: Blocks, ghost k: Sim) returns (token: Option<Token>)
      requires Wired() && manager.Valid() && manager.state == b && View() == k
      requires Reaches(cfg, b, info) && info.decode
      modifies this, manager`tables, manager`state, manager.allocator, manager.prefixCache, manager.tables.Values
      ensures manager.Valid() && manager.Grew() && manager.state == b
      ensures (View(), token) == Serve(cfg, vocab, b, k, info)
    {
      var next := NextToken(info, b, k);
      WriteAndRemember(info.id, info.cachedBefore, next, b, k);
      token := Some(next);
    }

    method ServeOne(info: SeqInfo, ghost b: Blocks, ghost k: Sim) returns (token: Option<Token>)
      requires Wired() && manager.Valid() && manager.state == b && View() == k && Reaches(cfg, b, info)
      modifies this, manager`tables, manager`state, manager.allocator, manager.prefixCache, manager.tables.Values
      ensures manager.Valid() && manager.Grew() && manager.state == b
      ensures (View(), token) == Serve(cfg, vocab, b, k, info)
    {
      if !info.decode {
        token := ServePrefill(info, b, k);
      } else {
        token := ServeDecode(info, b, k);
      }
    }

    method AnswerNext(infos: seq<SeqInfo>, i: nat, next: nat, tokens: seq<Token>, ids: seq<nat>, ghost b: Blocks,
                      ghost k: Sim)
      returns (moreTokens: seq<Token>, moreIds: seq<nat>)
      requires Wired() && manager.Valid() && manager.state == b && i < |infos| && next == i + 1
      requires Reaches(cfg, b, infos[i]) && AnsweredTo(cfg, vocab, b, k, infos, i, View(), tokens, ids)
      modifies this, manager`tables, manager`state, manager.allocator, manager.prefixCache, manager.tables.Values
      ensures manager.Valid() && manager.Grew() && manager.state == b
      ensures AnsweredTo(cfg, vocab, b, k, infos, next, View(), moreTokens, moreIds)
    {
      ghost var before := View();
      var token := ServeOne(infos[i], b, before);
      AnsweredOne(cfg, vocab, b, k, infos, i, before, tokens, ids, View(), token);
      moreTokens := if token.Some? then tokens + [token.value] else tokens;
      moreIds := if token.Some? then ids + [infos[i].id] else ids;
    }

    /** A whole step over the infos of the model input. */
    method Execute(infos: seq<SeqInfo>, ghost b: Blocks, ghost k: Sim) returns (tokens: seq<Token>, ids: seq<nat>)
      requires Wired() && manager.Valid() && manager.state == b && View() == k
      requires forall i :: 0 <= i < |infos| ==> Reaches(cfg, b, infos[i])
      modifies this, manager`tables, manager`state, manager.allocator, manager.prefixCache, manager.tables.Values
      ensures manager.Valid() && manager.Grew() && manager.state == b
      ensures forall i :: 0 <= i < |infos| ==> Sane(infos[i])
      ensures Reply(View(), tokens, ids) == ServeAll(cfg, vocab, b, k, infos)
    {
      tokens, ids := [], [];
      var i := 0;
      while i < |infos|
        invariant 0 <= i <= |infos| && manager.Valid() && manager.Grew() && manager.state == b
        invariant AnsweredTo(cfg, vocab, b, k, infos, i, View(), tokens, ids)
      {
        var next := i + 1;
        tokens, ids := AnswerNext(infos, i, next, tokens, ids, b, k);
        i := next;
      }
      assert infos[..|infos|] == infos;
    }
  }
}

/** The fake executor on values: a dictionary that accumulates numbers per physical block, the last
    token of every sequence, and one step over a batch.  Without prefix caching each block holds
    exactly the one-time writes of its own sequence, so the step produces the closed text. */
module FakeExecution {
  import opened Base
  import opened BlockSpec
  import opened BlockCoverage
  import opened Requests
  import opened InputBuilding
  import opened FakeModels

  datatype Sim = Sim(kv: map<nat, seq<int>>, last: map<nat, Token>, total: nat)

  function Stored(kv: map<nat, seq<int>>, pid: nat): seq<int> { if pid in kv then kv[pid] else [] }

  /** The physical block of a position, when the table reaches it. */
  function BlockAt(cfg: Config, b: Blocks, id: nat, pos: nat): Option<nat> {
    if id in b.tables && 0 <= pos / cfg.blockSize < |b.tables[id]|
    then Some(b.tables[id][pos / cfg.blockSize].pid)
    else None
  }

  function Appended(vocab: int, k: Sim, pid: nat, t: Token): Sim
    requires vocab > 0
  {
    k.(kv := k.kv[pid := Stored(k.kv, pid) + [FakeKey(vocab, t), FakeValue(vocab, t)]], total := k.total + 1)
  }

  function WriteKv(cfg: Config, vocab: int, b: Blocks, k: Sim, id: nat, pos: nat, t: Token): Sim
    requires vocab > 0
  {
    match BlockAt(cfg, b, id, pos)
    case None => k
    case Some(pid) => Appended(vocab, k, pid, t)
  }

  function ReadBias(cfg: Config, vocab: int, b: Blocks, k: Sim, id: nat, pos: nat): int
    requires vocab > 0
  {
    match BlockAt(cfg, b, id, pos)
    case None => 0
    case Some(pid) => Bias(vocab, Stored(k.kv, pid))
  }

  /** A chunk of a prompt: each position writes itself as a pseudo token. */
  function WritePrompt(cfg: Config, vocab: int, b: Blocks, k: Sim, id: nat, from: nat, end: nat): Sim
    requires vocab > 0
    decreases end
  {
    if end <= from then k
    else WriteKv(cfg, vocab, b, WritePrompt(cfg, vocab, b, k, id, from, end - 1), id, end - 1, (end - 1) % vocab)
  }

  function Remembered(k: Sim, id: nat, t: Token): Sim { k.(last := k.last[id := t]) }

  /** What the executor is told about a sequence makes sense. */
  predicate Sane(info: SeqInfo) {
    info.cachedBefore >= 0 && info.queryLen >= 1 && (info.decode ==> info.cachedBefore >= 1)
  }

  /** One sequence of the batch: its new numbers, and its token if one is due. */
  function Serve(cfg: Config, vocab: int, b: Blocks, k: Sim, info: SeqInfo): (Sim, Option<Token>)
    requires vocab > 0 && Sane(info)
  {
    if !info.decode then
      var end := info.cachedBefore + info.queryLen;
      var k1 := WritePrompt(cfg, vocab, b, k, info.id, info.cachedBefore, end);
      if info.sampleIndex.None? then (k1, None)
      else
        var t := ((end - 1) * 3 + 1) % vocab;
        (Remembered(k1, info.id, t), Some(t))
    else
      var bias := ReadBias(cfg, vocab, b, k, info.id, info.cachedBefore - 1);
      var prev := if info.id in k.last then k.last[info.id] else 42;
      var t := (prev + 7 + bias) % vocab;
      var k1 := WriteKv(cfg, vocab, b, k, info.id, info.cachedBefore, t);
      (Remembered(k1, info.id, t), Some(t))
  }

  datatype Reply = Reply(sim: Sim, tokens: seq<Token>, ids: seq<nat>)

  function ServeAll(cfg: Config, vocab: int, b: Blocks, k: Sim, infos: seq<SeqInfo>): (r: Reply)
    requires vocab > 0 && forall i :: 0 <= i < |infos| ==> Sane(infos[i])
    ensures |r.tokens| == |r.ids|
    decreases |infos|
  {
    if infos == [] then Reply(k, [], [])
    else
      var last := infos[|infos| - 1];
      var r := ServeAll(cfg, vocab, b, k, infos[..|infos| - 1]);
      var (k1, o) := Serve(cfg, vocab, b, r.sim, last);
      if o.None? then r.(sim := k1) else Reply(k1, r.tokens + [o.value], r.ids + [last.id])
  }

  /** The token handed to each sequence. */
  function Handed(tokens: seq<Token>, ids: seq<nat>): nat -> Token
    requires |tokens| == |ids|
    decreases |ids|
  {
    if ids == [] then (id: nat) => 0
    else
      var k := |ids| - 1;
      var rest := Handed(tokens[..k], ids[..k]);
      (id: nat) => if id == ids[k] then tokens[k] else rest(id)
  }

  lemma HandedOneMore(tokens: seq<Token>, ids: seq<nat>, t: Token, id: nat)
    requires |tokens| == |ids|
    ensures Handed(tokens + [t], ids + [id])(id) == t
    ensures forall o: nat :: o != id ==> Handed(tokens + [t], ids + [id])(o) == Handed(tokens, ids)(o)
  {
    assert (tokens + [t])[..|tokens|] == tokens && (ids + [id])[..|ids|] == ids;
  }

  // ---------------------------------------------------------------- what the dictionary mirrors

  /** The blocks of `id` hold the first `n` positions of its log, and nothing else. */
  ghost predicate Holding(cfg: Config, vocab: int, b: Blocks, kv: map<nat, seq<int>>, id: nat, promptLen: nat,
                          output: seq<Token>, n: int)
    requires vocab > 0
  {
    id in b.tables && forall i: nat :: i < |b.tables[id]| ==>
      Stored(kv, b.tables[id][i].pid) == Content(vocab, cfg.blockSize, promptLen, output, n, i)
  }

  ghost predicate Mirrors(cfg: Config, vocab: int, b: Blocks, k: Sim, r: Request)
    requires vocab > 0
  {
    && Holding(cfg, vocab, b, k.kv, r.id, |r.prompt|, r.output, KvLen(r))
    && (r.output != [] ==> r.id in k.last && k.last[r.id] == r.output[|r.output| - 1])
  }

  /** The output so far is the closed text. */
  ghost predicate Scripted(cfg: Config, vocab: int, r: Request)
    requires vocab > 0
  {
    |r.prompt| > 0 ==> r.output == FakeText(vocab, cfg.blockSize, |r.prompt|, |r.output|)
  }

  /** Nothing but the blocks and the last token of `id` differs. */
  ghost predicate SameElsewhere(b: Blocks, k: Sim, n: Sim, id: nat) {
    && (forall o, i: nat :: o in b.tables && o != id && i < |b.tables[o]| ==>
          Stored(n.kv, b.tables[o][i].pid) == Stored(k.kv, b.tables[o][i].pid))
    && (forall o :: o != id && o in k.last ==> o in n.last && n.last[o] == k.last[o])
  }

  lemma SameElsewhereTrans(b: Blocks, k: Sim, m: Sim, n: Sim, id: nat)
    requires SameElsewhere(b, k, m, id) && SameElsewhere(b, m, n, id)
    ensures SameElsewhere(b, k, n, id)
  {
  }

  lemma MirrorsElsewhere(cfg: Config, vocab: int, b: Blocks, k: Sim, n: Sim, id: nat, r: Request)
    requires vocab > 0 && SameElsewhere(b, k, n, id) && r.id != id && Mirrors(cfg, vocab, b, k, r)
    ensures Mirrors(cfg, vocab, b, n, r)
  {
  }

  /** Writing the next position of a log. */
  lemma WriteKvLaw(cfg: Config, vocab: int, b: Blocks, k: Sim, id: nat, promptLen: nat, output: seq<Token>, n: nat)
    requires vocab > 0 && Conserved(b) && Exclusive(b)
    requires Holding(cfg, vocab, b, k.kv, id, promptLen, output, n) && n < Span(cfg.blockSize, |b.tables[id]|)
    ensures
      var m := WriteKv(cfg, vocab, b, k, id, n, LogToken(vocab, promptLen, output, n));
      && Holding(cfg, vocab, b, m.kv, id, promptLen, output, n + 1)
      && SameElsewhere(b, k, m, id) && m.last == k.last && m.total == k.total + 1
  {
    var m := WriteKv(cfg, vocab, b, k, id, n, LogToken(vocab, promptLen, output, n));
    var table := b.tables[id];
    BlockOfPosition(n, cfg.blockSize, |table|);
    var at: nat := n / cfg.blockSize;
    forall i: nat | i < |table|
      ensures Stored(m.kv, table[i].pid) == Content(vocab, cfg.blockSize, promptLen, output, n + 1, i)
    {
      ContentGrows(vocab, cfg.blockSize, promptLen, output, n, i);
      if table[i].pid == table[at].pid { EntriesDistinct(b, id, i, id, at); }
    }
    forall o, i: nat | o in b.tables && o != id && i < |b.tables[o]|
      ensures Stored(m.kv, b.tables[o][i].pid) == Stored(k.kv, b.tables[o][i].pid)
    {
      if b.tables[o][i].pid == table[at].pid { EntriesDistinct(b, o, i, id, at); }
    }
  }

  lemma {:induction false} WritePromptLaw(cfg: Config, vocab: int, b: Blocks, k: Sim, id: nat, promptLen: nat,
                                          output: seq<Token>, from: nat, end: nat)
    requires vocab > 0 && Conserved(b) && Exclusive(b) && from <= end <= promptLen
    requires Holding(cfg, vocab, b, k.kv, id, promptLen, output, from) && end <= Span(cfg.blockSize, |b.tables[id]|)
    ensures
      var m := WritePrompt(cfg, vocab, b, k, id, from, end);
      && Holding(cfg, vocab, b, m.kv, id, promptLen, output, end)
      && SameElsewhere(b, k, m, id) && m.last == k.last && m.total == k.total + end - from
    decreases end
  {
    if from < end {
      WritePromptLaw(cfg, vocab, b, k, id, promptLen, output, from, end - 1);
      var m := WritePrompt(cfg, vocab, b, k, id, from, end - 1);
      WriteKvLaw(cfg, vocab, b, m, id, promptLen, output, end - 1);
      SameElsewhereTrans(b, k, m, WritePrompt(cfg, vocab, b, k, id, from, end), id);
    }
  }

  lemma HoldingStable(cfg: Config, vocab: int, b: Blocks, kv: map<nat, seq<int>>, id: nat, promptLen: nat,
                      x: seq<Token>, y: seq<Token>, n: int)
    requires vocab > 0 && x <= y && (n <= promptLen || n - promptLen < |x|)
    ensures Holding(cfg, vocab, b, kv, id, promptLen, x, n) <==> Holding(cfg, vocab, b, kv, id, promptLen, y, n)
  {
    forall i: nat
      ensures Content(vocab, cfg.blockSize, promptLen, x, n, i) == Content(vocab, cfg.blockSize, promptLen, y, n, i)
    {
      ContentStable(vocab, cfg.blockSize, promptLen, x, y, n, i);
    }
  }

  /** The block a decode reads holds the log from the beginning of that block to its end. */
  lemma ReadIsLog(cfg: Config, vocab: int, b: Blocks, k: Sim, id: nat, promptLen: nat, output: seq<Token>, n: nat)
    requires vocab > 0 && n >= 1 && Holding(cfg, vocab, b, k.kv, id, promptLen, output, n)
    requires n <= Span(cfg.blockSize, |b.tables[id]|)
    ensures ReadBias(cfg, vocab, b, k, id, n - 1)
         == Bias(vocab, Accumulated(vocab, promptLen, output, BlockStart(cfg.blockSize, n - 1), n))
  {
    BlockOfPosition(n - 1, cfg.blockSize, |b.tables[id]|);
    var i: nat := (n - 1) / cfg.blockSize;
    assert Stored(k.kv, b.tables[id][i].pid) == Content(vocab, cfg.blockSize, promptLen, output, n, i);
    assert Span(cfg.blockSize, i + 1) == Span(cfg.blockSize, i) + cfg.blockSize;
  }
}

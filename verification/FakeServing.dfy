/** One step of the fake executor over a prepared batch: every request is served by its own blocks
    alone, and gets the next token of its closed text. */
module FakeServing {
  import opened Base
  import opened BlockSpec
  import opened BlockCoverage
  import opened Requests
  import opened EngineSpec
  import opened BatchSpec
  import opened InputBuilding
  import opened FakeModels
  import opened FakeExecution

  /** What serving one request comes to. */
  ghost predicate ServedWell(cfg: Config, vocab: int, b: Blocks, k: Sim, r: Request, m: Sim, token: Token)
    requires vocab > 0
  {
    && Mirrors(cfg, vocab, b, m, Advance(cfg, r, token))
    && Scripted(cfg, vocab, Advance(cfg, r, token))
    && SameElsewhere(b, k, m, r.id)
    && m.total == k.total + Cost(cfg, r)
  }

  ghost predicate Servable(cfg: Config, vocab: int, b: Blocks, k: Sim, r: Request)
    requires vocab > 0
  {
    && Conserved(b) && Exclusive(b) && Covered(cfg, b, r) && r.generated < Max(r.maxTokens, 1)
    && Mirrors(cfg, vocab, b, k, r) && Scripted(cfg, vocab, r)
  }

  lemma LivelyIsSane(cfg: Config, r: Request, index: Option<nat>)
    requires Lively(r)
    ensures Sane(InfoOf(cfg, r, index))
  {
    LivelyCost(cfg, r);
  }

  lemma PrefillShape(cfg: Config, r: Request, index: Option<nat>, t: Token)
    requires Lively(r) && r.status == Prefill
    ensures r.output == [] && KvLen(r) == r.cursor && r.cursor < NextEnd(cfg, r) <= |r.prompt|
    ensures Samples(cfg, r) ==> NextEnd(cfg, r) == |r.prompt|
    ensures InfoOf(cfg, r, index) == SeqInfo(r.id, false, NextEnd(cfg, r) - r.cursor, r.cursor, NextEnd(cfg, r),
                                             index)
    ensures
      var n := Advance(cfg, r, t);
      && n.output == (if Samples(cfg, r) then [t] else []) && KvLen(n) == NextEnd(cfg, r)
      && n.prompt == r.prompt && n.id == r.id
  {
  }

  /** A request in its form after its chunk. */
  lemma PrefilledWell(cfg: Config, vocab: int, b: Blocks, k: Sim, r: Request, m: Sim, t: Token)
    requires vocab > 0 && Lively(r) && r.status == Prefill
    requires Holding(cfg, vocab, b, m.kv, r.id, |r.prompt|, [], NextEnd(cfg, r))
    requires SameElsewhere(b, k, m, r.id) && m.total == k.total + Cost(cfg, r)
    requires Samples(cfg, r) ==> r.id in m.last && m.last[r.id] == t == PrefillToken(vocab, |r.prompt| - 1)
    ensures ServedWell(cfg, vocab, b, k, r, m, t)
  {
    PrefillShape(cfg, r, None, t);
    var n := Advance(cfg, r, t);
    HoldingStable(cfg, vocab, b, m.kv, r.id, |r.prompt|, [], n.output, NextEnd(cfg, r));
    assert n.output != [] ==> n.output == FakeText(vocab, cfg.blockSize, |r.prompt|, 1);
    assert Mirrors(cfg, vocab, b, m, n);
    assert Scripted(cfg, vocab, n);
  }

  /** The prefill branch. */
  lemma PrefillServes(cfg: Config, vocab: int, b: Blocks, k: Sim, info: SeqInfo, end: nat)
    returns (m: Sim, o: Option<Token>)
    requires vocab > 0 && !info.decode && Sane(info) && end == info.cachedBefore + info.queryLen
    ensures Serve(cfg, vocab, b, k, info) == (m, o)
    ensures o == if info.sampleIndex.Some? then Some(PrefillToken(vocab, end - 1)) else None
    ensures m == WritePrompt(cfg, vocab, b, k, info.id, info.cachedBefore, end).(last := m.last)
    ensures m.last
      == if o.Some? then WritePrompt(cfg, vocab, b, k, info.id, info.cachedBefore, end).last[info.id := o.value]
         else WritePrompt(cfg, vocab, b, k, info.id, info.cachedBefore, end).last
  {
    m := Serve(cfg, vocab, b, k, info).0;
    o := Serve(cfg, vocab, b, k, info).1;
  }

  lemma ServePrefill(cfg: Config, vocab: int, b: Blocks, k: Sim, r: Request, index: Option<nat>, token: Token)
    requires vocab > 0 && Servable(cfg, vocab, b, k, r) && r.status == Prefill
    requires index.Some? <==> Samples(cfg, r)
    ensures Sane(InfoOf(cfg, r, index))
    ensures
      var (m, o) := Serve(cfg, vocab, b, k, InfoOf(cfg, r, index));
      && (o.Some? <==> Samples(cfg, r))
      && (o == Some(token) || o.None? ==> ServedWell(cfg, vocab, b, k, r, m, token))
  {
    LivelyIsSane(cfg, r, index);
    PrefillShape(cfg, r, index, token);
    var end := NextEnd(cfg, r);
    WritePromptLaw(cfg, vocab, b, k, r.id, |r.prompt|, [], r.cursor, end);
    var m, o := PrefillServes(cfg, vocab, b, k, InfoOf(cfg, r, index), end);
    if o == Some(token) || o.None? { PrefilledWell(cfg, vocab, b, k, r, m, token); }
  }

  /** The decode branch, given what it reads. */
  lemma DecodeServes(cfg: Config, vocab: int, b: Blocks, k: Sim, info: SeqInfo, prev: Token,
                     bias: int) returns (m: Sim, t: Token)
    requires vocab > 0 && info.decode && Sane(info) && info.id in k.last && k.last[info.id] == prev
    requires ReadBias(cfg, vocab, b, k, info.id, info.cachedBefore - 1) == bias
    ensures t == DecodeToken(vocab, prev, bias) && Serve(cfg, vocab, b, k, info) == (m, Some(t))
    ensures m == Remembered(WriteKv(cfg, vocab, b, k, info.id, info.cachedBefore, t), info.id, t)
  {
    t := DecodeToken(vocab, prev, bias);
    m := Serve(cfg, vocab, b, k, info).0;
  }

  /** Writing a new output token at the end of the log. */
  lemma {:induction false} LogExtends(cfg: Config, vocab: int, b: Blocks, k: Sim, id: nat, promptLen: nat,
                                      text: seq<Token>, t: Token, longer: seq<Token>,
                                      at: nat, next: nat, m: Sim)
    requires vocab > 0 && promptLen > 0 && text != [] && Conserved(b) && Exclusive(b)
    requires longer == text + [t] && at == promptLen + |text| - 1 && next == at + 1
    requires Holding(cfg, vocab, b, k.kv, id, promptLen, text, at) && next <= Span(cfg.blockSize, |b.tables[id]|)
    requires m == Remembered(WriteKv(cfg, vocab, b, k, id, at, t), id, t)
    ensures Holding(cfg, vocab, b, m.kv, id, promptLen, longer, next)
    ensures SameElsewhere(b, k, m, id) && m.total == k.total + 1
  {
    HoldingStable(cfg, vocab, b, k.kv, id, promptLen, text, longer, at);
    assert LogToken(vocab, promptLen, longer, at) == t;
    WriteKvLaw(cfg, vocab, b, k, id, promptLen, longer, at);
    Remembering(b, k, WriteKv(cfg, vocab, b, k, id, at, t), m, id, t);
  }

  lemma Remembering(b: Blocks, k: Sim, w: Sim, m: Sim, id: nat, t: Token)
    requires SameElsewhere(b, k, w, id) && m == Remembered(w, id, t)
    ensures SameElsewhere(b, k, m, id) && m.kv == w.kv && m.total == w.total
  {
  }

  /** What a decode may rely on: the text so far, its log in the blocks of the sequence, and room for
      one more position. */
  ghost predicate DecodeReady(cfg: Config, vocab: int, b: Blocks, k: Sim, promptLen: nat, text: seq<Token>,
                              info: SeqInfo)
    requires vocab > 0
  {
    && promptLen > 0 && text != [] && text == FakeText(vocab, cfg.blockSize, promptLen, |text|)
    && Conserved(b) && Exclusive(b) && Holding(cfg, vocab, b, k.kv, info.id, promptLen, text, promptLen + |text| - 1)
    && promptLen + |text| <= Span(cfg.blockSize, |b.tables[info.id]|)
    && info.id in k.last && k.last[info.id] == text[|text| - 1]
    && info.decode && Sane(info) && info.cachedBefore == promptLen + |text| - 1
  }

  /** What a decode has done: one more token of the text, written one position further. */
  ghost predicate DecodeDone(cfg: Config, vocab: int, b: Blocks, k: Sim, promptLen: nat, text: seq<Token>, id: nat,
                             m: Sim, t: Token)
    requires vocab > 0
  {
    && promptLen > 0 && text + [t] == FakeText(vocab, cfg.blockSize, promptLen, |text| + 1)
    && Holding(cfg, vocab, b, m.kv, id, promptLen, text + [t], promptLen + |text|)
    && SameElsewhere(b, k, m, id) && m.total == k.total + 1
    && id in m.last && m.last[id] == t
  }

  /** A decode, told by its log alone: it reads the last block, produces the next token of the text
      and writes it one position further. */
  lemma {:induction false} DecodeWrites(cfg: Config, vocab: int, b: Blocks, k: Sim, promptLen: nat, text: seq<Token>,
                                        info: SeqInfo)
    returns (m: Sim, t: Token)
    requires vocab > 0 && DecodeReady(cfg, vocab, b, k, promptLen, text, info)
    ensures Sane(info) && Serve(cfg, vocab, b, k, info) == (m, Some(t))
    ensures DecodeDone(cfg, vocab, b, k, promptLen, text, info.id, m, t)
  {
    var at, next: nat := promptLen + |text| - 1, promptLen + |text|;
    var bias := NextOfText(cfg, vocab, b, k, promptLen, text, info.id, at);
    m, t := DecodeServes(cfg, vocab, b, k, info, text[|text| - 1], bias);
    DecodeFinishes(cfg, vocab, b, k, promptLen, text, info.id, text + [t], at, next, m, t);
  }

  lemma {:induction false} DecodeFinishes(cfg: Config, vocab: int, b: Blocks, k: Sim, promptLen: nat,
                                          text: seq<Token>, id: nat, longer: seq<Token>,
                                          at: nat, next: nat, m: Sim, t: Token)
    requires vocab > 0 && promptLen > 0 && text != [] && Conserved(b) && Exclusive(b)
    requires longer == text + [t] && at == promptLen + |text| - 1 && next == at + 1
    requires longer == FakeText(vocab, cfg.blockSize, promptLen, |text| + 1)
    requires Holding(cfg, vocab, b, k.kv, id, promptLen, text, at) && next <= Span(cfg.blockSize, |b.tables[id]|)
    requires m == Remembered(WriteKv(cfg, vocab, b, k, id, at, t), id, t)
    ensures DecodeDone(cfg, vocab, b, k, promptLen, text, id, m, t)
  {
    LogExtends(cfg, vocab, b, k, id, promptLen, text, t, longer, at, next, m);
    DoneBy(cfg, vocab, b, k, promptLen, text, id, longer, next, m, t);
  }

  lemma DoneBy(cfg: Config, vocab: int, b: Blocks, k: Sim, promptLen: nat, text: seq<Token>, id: nat,
               longer: seq<Token>, next: nat, m: Sim, t: Token)
    requires vocab > 0 && promptLen > 0 && longer == text + [t] && next == promptLen + |text|
    requires longer == FakeText(vocab, cfg.blockSize, promptLen, |text| + 1)
    requires Holding(cfg, vocab, b, m.kv, id, promptLen, longer, next)
    requires SameElsewhere(b, k, m, id) && m.total == k.total + 1 && id in m.last && m.last[id] == t
    ensures DecodeDone(cfg, vocab, b, k, promptLen, text, id, m, t)
  {
  }

  lemma {:induction false} NextOfText(cfg: Config, vocab: int, b: Blocks, k: Sim, promptLen: nat, text: seq<Token>,
                                      id: nat, at: nat) returns (bias: int)
    requires vocab > 0 && promptLen > 0 && text != [] && text == FakeText(vocab, cfg.blockSize, promptLen, |text|)
    requires at == promptLen + |text| - 1 && Holding(cfg, vocab, b, k.kv, id, promptLen, text, at)
    requires at <= Span(cfg.blockSize, |b.tables[id]|)
    ensures bias == ReadBias(cfg, vocab, b, k, id, at - 1)
    ensures text + [DecodeToken(vocab, text[|text| - 1], bias)] == FakeText(vocab, cfg.blockSize, promptLen,
                                                                            |text| + 1)
  {
    ReadIsLog(cfg, vocab, b, k, id, promptLen, text, at);
    var data := Accumulated(vocab, promptLen, text, BlockStart(cfg.blockSize, at - 1), at);
    DecodeIsNext(vocab, cfg.blockSize, promptLen, |text|, data);
    bias := Bias(vocab, data);
  }

  lemma RunningShape(cfg: Config, r: Request, index: Option<nat>, t: Token)
    requires Lively(r) && r.status == Running
    ensures r.output != [] && KvLen(r) == |r.prompt| + |r.output| - 1 && NextEnd(cfg, r) == |r.prompt| + |r.output|
    ensures Samples(cfg, r) && Cost(cfg, r) == 1
    ensures InfoOf(cfg, r, index) == SeqInfo(r.id, true, 1, KvLen(r), NextEnd(cfg, r), index)
    ensures
      var n := Advance(cfg, r, t);
      n.output == r.output + [t] && KvLen(n) == |r.prompt| + |r.output| && n.prompt == r.prompt && n.id == r.id
  {
  }

  /** A decoded request in its new form. */
  lemma {:induction false} DecodedWell(cfg: Config, vocab: int, b: Blocks, k: Sim, r: Request, m: Sim, t: Token)
    requires vocab > 0 && Lively(r) && r.status == Running
    requires DecodeDone(cfg, vocab, b, k, |r.prompt|, r.output, r.id, m, t)
    ensures ServedWell(cfg, vocab, b, k, r, m, t)
  {
    RunningShape(cfg, r, None, t);
    var n := Advance(cfg, r, t);
    assert Mirrors(cfg, vocab, b, m, n);
    assert Scripted(cfg, vocab, n);
  }

  lemma ServeDecode(cfg: Config, vocab: int, b: Blocks, k: Sim, r: Request, index: Option<nat>,
                    info: SeqInfo) returns (m: Sim, t: Token)
    requires vocab > 0 && Servable(cfg, vocab, b, k, r) && r.status == Running && info == InfoOf(cfg, r, index)
    ensures Sane(info) && Serve(cfg, vocab, b, k, info) == (m, Some(t)) && ServedWell(cfg, vocab, b, k, r, m, t)
  {
    RunningIsReady(cfg, vocab, b, k, r, index, info);
    m, t := DecodeWrites(cfg, vocab, b, k, |r.prompt|, r.output, info);
    DecodedWell(cfg, vocab, b, k, r, m, t);
  }

  lemma {:induction false} RunningIsReady(cfg: Config, vocab: int, b: Blocks, k: Sim, r: Request, index: Option<nat>,
                                          info: SeqInfo)
    requires vocab > 0 && Servable(cfg, vocab, b, k, r) && r.status == Running && info == InfoOf(cfg, r, index)
    ensures DecodeReady(cfg, vocab, b, k, |r.prompt|, r.output, info) && info.id == r.id && Sane(info)
  {
    LivelyIsSane(cfg, r, index);
    RunningShape(cfg, r, index, 0);
  }

  /** Serving one request writes its own blocks only and moves it one step along its text. */
  lemma ServeLaw(cfg: Config, vocab: int, b: Blocks, k: Sim, r: Request, index: Option<nat>, token: Token)
    requires vocab > 0 && Servable(cfg, vocab, b, k, r)
    requires index.Some? <==> Samples(cfg, r)
    ensures Sane(InfoOf(cfg, r, index))
    ensures
      var (m, o) := Serve(cfg, vocab, b, k, InfoOf(cfg, r, index));
      && (o.Some? <==> Samples(cfg, r))
      && (o == Some(token) || o.None? ==> ServedWell(cfg, vocab, b, k, r, m, token))
  {
    if r.status == Prefill {
      ServePrefill(cfg, vocab, b, k, r, index, token);
    } else {
      var m, t := ServeDecode(cfg, vocab, b, k, r, index, InfoOf(cfg, r, index));
    }
  }

  /** The same for whichever token the request was handed. */
  ghost predicate ServedAny(cfg: Config, vocab: int, b: Blocks, k: Sim, r: Request, m: Sim, o: Option<Token>)
    requires vocab > 0
  {
    && (o.Some? <==> Samples(cfg, r))
    && forall t :: o == Some(t) || o.None? ==> ServedWell(cfg, vocab, b, k, r, m, t)
  }

  lemma ServeAny(cfg: Config, vocab: int, b: Blocks, k: Sim, r: Request, index: Option<nat>)
    requires vocab > 0 && Servable(cfg, vocab, b, k, r)
    requires index.Some? <==> Samples(cfg, r)
    ensures Sane(InfoOf(cfg, r, index))
    ensures var (m, o) := Serve(cfg, vocab, b, k, InfoOf(cfg, r, index)); ServedAny(cfg, vocab, b, k, r, m, o)
  {
    ServeLaw(cfg, vocab, b, k, r, index, 0);
    var (m, o) := Serve(cfg, vocab, b, k, InfoOf(cfg, r, index));
    forall t | o == Some(t) || o.None? ensures ServedWell(cfg, vocab, b, k, r, m, t) {
      ServeLaw(cfg, vocab, b, k, r, index, t);
    }
  }

  // ---------------------------------------------------------------- the whole batch

  lemma {:induction false} InfosSane(cfg: Config, batch: seq<Request>)
    requires forall r :: r in batch ==> Lively(r)
    ensures |Infos(cfg, batch)| == |batch|
    ensures forall i :: 0 <= i < |batch| ==> Sane(Infos(cfg, batch)[i])
    decreases |batch|
  {
    if batch != [] {
      var k := |batch| - 1;
      InfosSane(cfg, batch[..k]);
      LivelyIsSane(cfg, batch[k], None);
    }
  }

  /** The executor's answer for a batch. */
  ghost function Answer(cfg: Config, vocab: int, b: Blocks, k: Sim, batch: seq<Request>): Reply
    requires vocab > 0 && forall r :: r in batch ==> Lively(r)
  {
    InfosSane(cfg, batch);
    ServeAll(cfg, vocab, b, k, Infos(cfg, batch))
  }

  lemma AnswerUnfolds(cfg: Config, vocab: int, b: Blocks, k: Sim, batch: seq<Request>) returns (index: Option<nat>)
    requires vocab > 0 && batch != [] && forall r :: r in batch ==> Lively(r)
    ensures index.Some? <==> Samples(cfg, batch[|batch| - 1])
    ensures Sane(InfoOf(cfg, batch[|batch| - 1], index))
    ensures
      var last := batch[|batch| - 1];
      var front := Answer(cfg, vocab, b, k, batch[..|batch| - 1]);
      var (m, o) := Serve(cfg, vocab, b, front.sim, InfoOf(cfg, last, index));
      Answer(cfg, vocab, b, k, batch) == Replied(front, last.id, m, o)
  {
    var last := batch[|batch| - 1];
    InfosSane(cfg, batch);
    InfosSane(cfg, batch[..|batch| - 1]);
    index := if Samples(cfg, last) then Some(|Samplers(cfg, batch[..|batch| - 1])|) else None;
    LivelyIsSane(cfg, last, index);
    var infos := Infos(cfg, batch);
    assert infos == Infos(cfg, batch[..|batch| - 1]) + [InfoOf(cfg, last, index)];
    assert infos[..|infos| - 1] == Infos(cfg, batch[..|batch| - 1]);
  }

  ghost predicate DoneWith(cfg: Config, vocab: int, b: Blocks, done: seq<Request>, a: Reply)
    requires vocab > 0
  {
    |a.tokens| == |a.ids| && forall r :: r in done ==>
      && Mirrors(cfg, vocab, b, a.sim, Advance(cfg, r, Handed(a.tokens, a.ids)(r.id)))
      && Scripted(cfg, vocab, Advance(cfg, r, Handed(a.tokens, a.ids)(r.id)))
  }

  lemma AdvanceKeepsId(cfg: Config, r: Request, t: Token)
    ensures Advance(cfg, r, t).id == r.id
  {
  }

  /** Requests served earlier, and those still to come, are not disturbed by serving one more. */
  lemma DoneElsewhere(cfg: Config, vocab: int, b: Blocks, done: seq<Request>, front: Reply, a: Reply, id: nat)
    requires vocab > 0 && DoneWith(cfg, vocab, b, done, front) && id !in Ids(done)
    requires SameElsewhere(b, front.sim, a.sim, id) && |a.tokens| == |a.ids|
    requires forall o: nat :: o != id ==> Handed(a.tokens, a.ids)(o) == Handed(front.tokens, front.ids)(o)
    ensures DoneWith(cfg, vocab, b, done, a)
  {
    forall r | r in done
      ensures Mirrors(cfg, vocab, b, a.sim, Advance(cfg, r, Handed(a.tokens, a.ids)(r.id)))
      ensures Scripted(cfg, vocab, Advance(cfg, r, Handed(a.tokens, a.ids)(r.id)))
    {
      var n := Advance(cfg, r, Handed(front.tokens, front.ids)(r.id));
      assert r.id in Ids(done);
      AdvanceKeepsId(cfg, r, Handed(front.tokens, front.ids)(r.id));
      MirrorsElsewhere(cfg, vocab, b, front.sim, a.sim, id, n);
    }
  }

  lemma ServableElsewhere(cfg: Config, vocab: int, b: Blocks, k: Sim, n: Sim, id: nat, rest: seq<Request>)
    requires vocab > 0 && SameElsewhere(b, k, n, id)
    requires forall r :: r in rest ==> r.id != id && Servable(cfg, vocab, b, k, r)
    ensures forall r :: r in rest ==> Servable(cfg, vocab, b, n, r)
  {
    forall r | r in rest ensures Servable(cfg, vocab, b, n, r) {
      MirrorsElsewhere(cfg, vocab, b, k, n, id, r);
    }
  }

  /** One more request of the batch. */
  lemma AnswerOneMore(cfg: Config, vocab: int, b: Blocks, front: Reply, m: Sim, o: Option<Token>, done: seq<Request>,
                      r: Request, a: Reply)
    requires vocab > 0 && DoneWith(cfg, vocab, b, done, front) && r.id !in Ids(done)
    requires ServedAny(cfg, vocab, b, front.sim, r, m, o) && a == Replied(front, r.id, m, o)
    ensures DoneWith(cfg, vocab, b, done + [r], a)
    ensures a.sim.total == front.sim.total + Cost(cfg, r) && SameElsewhere(b, front.sim, a.sim, r.id)
  {
    if o.Some? { HandedOneMore(front.tokens, front.ids, o.value, r.id); }
    var t := Handed(a.tokens, a.ids)(r.id);
    assert ServedWell(cfg, vocab, b, front.sim, r, m, t);
    DoneElsewhere(cfg, vocab, b, done, front, a, r.id);
  }

  ghost predicate AllServable(cfg: Config, vocab: int, b: Blocks, k: Sim, rest: seq<Request>)
    requires vocab > 0
  {
    forall r :: r in rest ==> Servable(cfg, vocab, b, k, r)
  }

  /** The requests `done` have been served, the requests `rest` may still be; tokens and ids are those
      of the requests that are due, in order; and every processed token is counted once. */
  ghost predicate Progressed(cfg: Config, vocab: int, b: Blocks, k: Sim, done: seq<Request>, rest: seq<Request>,
                             a: Reply)
    requires vocab > 0
  {
    && DoneWith(cfg, vocab, b, done, a) && AllServable(cfg, vocab, b, a.sim, rest)
    && a.ids == IdsOf(Samplers(cfg, done))
    && a.sim.total == k.total + TotalCost(cfg, done)
  }

  /** Serving a batch: every request served gets the next token of its text, whatever else is in
      the batch. */
  lemma {:induction false} AnswerLaw(cfg: Config, vocab: int, b: Blocks, k: Sim, done: seq<Request>,
                                     rest: seq<Request>)
    requires vocab > 0 && Distinct(done + rest) && AllServable(cfg, vocab, b, k, done + rest)
    ensures forall r :: r in done ==> Lively(r)
    ensures Progressed(cfg, vocab, b, k, done, rest, Answer(cfg, vocab, b, k, done))
    decreases |done|
  {
    AllAreLively(cfg, vocab, b, k, done, rest);
    if done == [] {
      assert [] + rest == rest;
    } else {
      var before, r := done[..|done| - 1], done[|done| - 1];
      assert before + ([r] + rest) == done + rest && before + [r] == done;
      AnswerLaw(cfg, vocab, b, k, before, [r] + rest);
      var index := AnswerUnfolds(cfg, vocab, b, k, done);
      LastServed(cfg, vocab, b, k, Answer(cfg, vocab, b, k, before), before, r, done, rest, index,
                 Answer(cfg, vocab, b, k, done));
    }
  }

  lemma AllAreLively(cfg: Config, vocab: int, b: Blocks, k: Sim, done: seq<Request>, rest: seq<Request>)
    requires vocab > 0 && AllServable(cfg, vocab, b, k, done + rest)
    ensures forall r :: r in done ==> Lively(r)
  {
    forall r | r in done ensures Lively(r) {
      assert r in done + rest;
      assert Servable(cfg, vocab, b, k, r);
    }
  }

  /** The answer after one more request. */
  function Replied(front: Reply, id: nat, m: Sim, o: Option<Token>): Reply {
    if o.None? then front.(sim := m) else Reply(m, front.tokens + [o.value], front.ids + [id])
  }

  /** Serving the last request of `done`. */
  lemma LastServed(cfg: Config, vocab: int, b: Blocks, k: Sim, front: Reply, before: seq<Request>, r: Request,
                   done: seq<Request>, rest: seq<Request>,
                   index: Option<nat>, a: Reply)
    requires vocab > 0 && done == before + [r] && Distinct(done + rest)
    requires Progressed(cfg, vocab, b, k, before, [r] + rest, front)
    requires (index.Some? <==> Samples(cfg, r)) && Sane(InfoOf(cfg, r, index))
    requires var (m, o) := Serve(cfg, vocab, b, front.sim, InfoOf(cfg, r, index)); a == Replied(front, r.id, m, o)
    ensures Progressed(cfg, vocab, b, k, done, rest, a)
  {
    assert done[..|done| - 1] == before && r in [r] + rest;
    LastDiffers(done, rest);
    OneMoreCounted(cfg, done);
    ServeAny(cfg, vocab, b, front.sim, r, index);
    var (m, o) := Serve(cfg, vocab, b, front.sim, InfoOf(cfg, r, index));
    AnswerOneMore(cfg, vocab, b, front, m, o, before, r, a);
    RestServable(cfg, vocab, b, front.sim, a.sim, r, rest);
  }

  lemma OneMoreCounted(cfg: Config, done: seq<Request>)
    requires done != []
    ensures
      var front, r := done[..|done| - 1], done[|done| - 1];
      && TotalCost(cfg, done) == TotalCost(cfg, front) + Cost(cfg, r)
      && IdsOf(Samplers(cfg, done)) == IdsOf(Samplers(cfg, front)) + if Samples(cfg, r) then [r.id] else []
  {
    var front, r := done[..|done| - 1], done[|done| - 1];
    assert done == front + [r];
    TotalCostAppend(cfg, front, [r]);
    OneCost(cfg, r);
  }

  lemma RestServable(cfg: Config, vocab: int, b: Blocks, k: Sim, n: Sim, r: Request, rest: seq<Request>)
    requires vocab > 0 && SameElsewhere(b, k, n, r.id) && r.id !in Ids(rest)
    requires AllServable(cfg, vocab, b, k, [r] + rest)
    ensures AllServable(cfg, vocab, b, n, rest)
  {
    forall x | x in rest ensures x.id != r.id && Servable(cfg, vocab, b, k, x) {
      assert x in [r] + rest;
      assert x.id in Ids(rest);
    }
    ServableElsewhere(cfg, vocab, b, k, n, r.id, rest);
  }

  lemma LastDiffers(done: seq<Request>, rest: seq<Request>)
    requires done != [] && Distinct(done + rest)
    ensures done[|done| - 1].id !in Ids(done[..|done| - 1]) && done[|done| - 1].id !in Ids(rest)
  {
    var all, n := done + rest, |done| - 1;
    assert all[n] == done[n];
    forall x | x in done[..n] ensures x.id != done[n].id {
      var i :| 0 <= i < n && done[i] == x;
      assert all[i] == x;
    }
    forall x | x in rest ensures x.id != done[n].id {
      var i :| 0 <= i < |rest| && rest[i] == x;
      assert all[|done| + i] == x;
    }
  }

  // ---------------------------------------------------------------- the keys of the dictionary

  /** Every block of a live table has its list. */
  ghost predicate Listed(b: Blocks, kv: map<nat, seq<int>>) {
    forall id, i: nat :: id in b.tables && i < |b.tables[id]| ==> b.tables[id][i].pid in kv
  }

  lemma {:induction false} WritePromptKeys(cfg: Config, vocab: int, b: Blocks, k: Sim, id: nat, from: nat, end: nat)
    requires vocab > 0 && Listed(b, k.kv)
    ensures WritePrompt(cfg, vocab, b, k, id, from, end).kv.Keys == k.kv.Keys
    decreases end
  {
    if from < end { WritePromptKeys(cfg, vocab, b, k, id, from, end - 1); }
  }

  /** Serving a batch neither opens nor closes a list. */
  lemma {:induction false} ServeAllKeys(cfg: Config, vocab: int, b: Blocks, k: Sim, infos: seq<SeqInfo>)
    requires vocab > 0 && Listed(b, k.kv) && forall i :: 0 <= i < |infos| ==> Sane(infos[i])
    ensures ServeAll(cfg, vocab, b, k, infos).sim.kv.Keys == k.kv.Keys
    decreases |infos|
  {
    if infos != [] {
      var n := |infos| - 1;
      ServeAllKeys(cfg, vocab, b, k, infos[..n]);
      var front := ServeAll(cfg, vocab, b, k, infos[..n]).sim;
      if !infos[n].decode {
        WritePromptKeys(cfg, vocab, b, front, infos[n].id, infos[n].cachedBefore,
                        infos[n].cachedBefore + infos[n].queryLen);
      }
    }
  }
}

/** The executor: one forward pass, greedy sampling at the sample indices, and the pairing of
    sampled tokens with sequence ids. */
module Executing {
  import opened Base
  import opened Requests
  import opened BlockSpec
  import opened Transformer
  import opened BatchSpec
  import opened InputBuilding
  import opened ModelRunning

  /** Every request that is due a token gets exactly the one sampled at its own last row. */
  ghost predicate TokensRouted(m: Model, rows: seq<Row>, hidden: seq<Vec>, samplers: seq<Request>,
                               tokens: seq<Token>, ids: seq<nat>) {
    && ids == IdsOf(samplers) && |tokens| >= |ids| && |hidden| == |rows|
    && forall k :: 0 <= k < |ids| ==> SampledAtLast(m, rows, hidden, ids[k], tokens[k])
  }

  ghost predicate SampledAtLast(m: Model, rows: seq<Row>, hidden: seq<Vec>, id: nat, token: Token) {
    exists i: nat :: i < |hidden| && LastRowOf(rows, i, id) && token == m.sample(hidden[i])
  }

  lemma SampledTokensRouted(m: Model, rows: seq<Row>, hidden: seq<Vec>, samplers: seq<Request>, indices: seq<int>,
                            tokens: seq<Token>)
    requires |hidden| == |rows| && Routed(rows, samplers, indices, |rows|) && |tokens| >= |indices|
    requires forall k :: 0 <= k < |indices| ==> tokens[k] == m.sample(hidden[indices[k]])
    ensures TokensRouted(m, rows, hidden, samplers, tokens, IdsOf(samplers))
  {
    forall k | 0 <= k < |samplers| ensures SampledAtLast(m, rows, hidden, samplers[k].id, tokens[k]) {
      var i: nat := indices[k];
      assert i < |hidden| && LastRowOf(rows, i, samplers[k].id) && tokens[k] == m.sample(hidden[i]);
    }
  }

  class PagedExecutor {
    const runner: ModelRunner
    var totalTokens: nat

    constructor (runner: ModelRunner)
      ensures this.runner == runner && totalTokens == 0
    {
      this.runner := runner;
      totalTokens := 0;
    }

    /** The sequences to pair with sampled tokens.  The indices come in order, so the assertion in
        the loop never fails. */
    method NameSamples(infos: seq<SeqInfo>) returns (ids: seq<nat>)
      requires Numbered(infos)
      ensures ids == Named(infos)
    {
      ids := [];
      var count := 0;
      for i := 0 to |infos|
        invariant ids == Named(infos[..i]) && count == |ids|
      {
        NumberedPrefix(infos, i + 1);
        assert infos[..i + 1][..i] == infos[..i];
        if infos[i].sampleIndex.Some? {
          assert infos[i].sampleIndex.value == count;
          ids := ids + [infos[i].id];
          count := count + 1;
        }
      }
      assert infos[..|infos|] == infos;
    }

    lemma {:induction false} NumberedPrefix(infos: seq<SeqInfo>, n: nat)
      requires Numbered(infos) && n <= |infos|
      ensures Numbered(infos[..n])
      decreases |infos|
    {
      if n == |infos| {
        assert infos[..n] == infos;
      } else {
        NumberedPrefix(infos[..|infos| - 1], n);
        assert infos[..|infos| - 1][..n] == infos[..n];
      }
    }

    /** Greedy sampling: at the sample indices, or, when there are none, at every row. */
    method Sample(hidden: seq<Vec>, indices: seq<int>) returns (tokens: seq<Token>)
      requires forall k :: 0 <= k < |indices| ==> 0 <= indices[k] < |hidden|
      ensures |tokens| >= |indices|
      ensures forall k :: 0 <= k < |indices| ==> tokens[k] == runner.m.sample(hidden[indices[k]])
    {
      var logits := if |indices| > 0 then seq(|indices|,
                                              k requires 0 <= k < |indices| => hidden[indices[k]]) else hidden;
      tokens := seq(|logits|, k requires 0 <= k < |logits| => runner.m.sample(logits[k]));
    }

    /** The forward pass of one step, and its tokens. */
    method Infer(input: ModelInput, ghost b: Blocks, ghost prefills: seq<Request>, ghost decodes: seq<Request>,
                 ghost batch: seq<Request>, ghost rows: seq<Row>)
      returns (tokens: seq<Token>, ids: seq<nat>, ghost hidden: seq<Vec>)
      requires PoolOk(runner.cfg, runner.m, runner.pool)
      requires Given(runner.cfg, b, prefills, decodes, batch, rows, input)
      requires input.sampleIndices == SampleIndices(runner.cfg, batch) && input.info == Infos(runner.cfg, batch)
      modifies runner.pool
      ensures PassedTo(runner.cfg, runner.m, old(Caches(runner.pool)), rows, runner.m.layers, Caches(runner.pool),
                       hidden)
      ensures TokensRouted(runner.m, rows, hidden, Samplers(runner.cfg, batch), tokens, ids)
    {
      SamplesAreRouted(runner.cfg, b, batch);
      InfosNameSamplers(runner.cfg, batch);
      var states := runner.ExecuteModel(input, b, prefills, decodes, batch, rows);
      hidden := states;
      tokens, ids := SampleBatch(input, states, batch, rows);
    }

    /** One step of the executor. */
    method Execute(input: ModelInput, ghost b: Blocks, ghost prefills: seq<Request>, ghost decodes: seq<Request>,
                   ghost batch: seq<Request>, ghost rows: seq<Row>)
      returns (tokens: seq<Token>, ids: seq<nat>, ghost hidden: seq<Vec>)
      requires PoolOk(runner.cfg, runner.m, runner.pool)
      requires Given(runner.cfg, b, prefills, decodes, batch, rows, input)
      requires input.sampleIndices == SampleIndices(runner.cfg, batch) && input.info == Infos(runner.cfg, batch)
      modifies this, runner.pool
      ensures PassedTo(runner.cfg, runner.m, old(Caches(runner.pool)), rows, runner.m.layers, Caches(runner.pool),
                       hidden)
      ensures TokensRouted(runner.m, rows, hidden, Samplers(runner.cfg, batch), tokens, ids)
      ensures totalTokens == old(totalTokens) + |rows|
    {
      tokens, ids, hidden := Infer(input, b, prefills, decodes, batch, rows);
      totalTokens := totalTokens + |input.inputIds|;
    }

    /** Sampling and naming for a batch. */
    method SampleBatch(input: ModelInput, hidden: seq<Vec>, ghost batch: seq<Request>, ghost rows: seq<Row>)
      returns (tokens: seq<Token>, ids: seq<nat>)
      requires input.sampleIndices == SampleIndices(runner.cfg, batch) && input.info == Infos(runner.cfg, batch)
      requires |hidden| == |rows| && Routed(rows, Samplers(runner.cfg, batch), input.sampleIndices, |rows|)
      requires Numbered(input.info) && Named(input.info) == IdsOf(Samplers(runner.cfg, batch))
      ensures TokensRouted(runner.m, rows, hidden, Samplers(runner.cfg, batch), tokens, ids)
    {
      tokens := Sample(hidden, input.sampleIndices);
      ids := NameSamples(input.info);
      SampledTokensRouted(runner.m, rows, hidden, Samplers(runner.cfg, batch), input.sampleIndices, tokens);
    }
  }
}

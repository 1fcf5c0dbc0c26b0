/** Attention over the paged cache: the decode kernel against the reference backend, and the
    causal prefill. */
module PagedAttention {
  import opened Base
  import opened Transformer
  import opened PagedCache
  import opened Attention

  // ---------------------------------------------------------------- shared definitions

  function Dot(q: Vec, k: Vec): real
    requires |q| == |k|
    decreases |q|
  {
    if q == [] then 0.0 else Dot(q[..|q| - 1], k[..|q| - 1]) + q[|q| - 1] * k[|q| - 1]
  }

  function Logit(q: Vec, k: Vec, scale: real): real
    requires |q| == |k|
  {
    Times(Dot(q, k), scale)
  }

  /** One entry per kv head, each of the head dimension. */
  predicate KvShaped(kv: KV, heads: nat, hd: nat) {
    && |kv.key| == heads && |kv.value| == heads
    && forall g :: 0 <= g < heads ==> |kv.key[g]| == hd && |kv.value[g]| == hd
  }

  predicate AllShaped(kvs: seq<KV>, heads: nat, hd: nat) {
    forall j :: 0 <= j < |kvs| ==> KvShaped(kvs[j], heads, hd)
  }

  /** The scaled dot products of one query head with kv head `g` of every entry. */
  function Logits(q: Vec, kvs: seq<KV>, heads: nat, g: nat, scale: real): (ls: seq<real>)
    requires AllShaped(kvs, heads, |q|) && g < heads
    ensures |ls| == |kvs| && forall j :: 0 <= j < |kvs| ==> ls[j] == Logit(q, kvs[j].key[g], scale)
  {
    seq(|kvs|, j requires 0 <= j < |kvs| => Logit(q, kvs[j].key[g], scale))
  }

  function Values(kvs: seq<KV>, heads: nat, hd: nat, g: nat): (vs: seq<Vec>)
    requires AllShaped(kvs, heads, hd) && g < heads
    ensures |vs| == |kvs| && forall j :: 0 <= j < |kvs| ==> vs[j] == kvs[j].value[g] && |vs[j]| == hd
  {
    seq(|kvs|, j requires 0 <= j < |kvs| => kvs[j].value[g])
  }

  /** Scaled dot-product attention of one query over all given entries: softmax weights, then the
      weighted sum of the values. */
  function Sdpa(e: real -> real, ls: seq<real>, vs: seq<Vec>, hd: nat): (out: Vec)
    requires Exponential(e) && ls != [] && |vs| == |ls| && forall j :: 0 <= j < |vs| ==> |vs[j]| == hd
    ensures |out| == hd
  {
    DenPositive(e, ls, 0.0);
    seq(hd, d requires 0 <= d < hd => Weighted(e, ls, vs, Den(e, ls, 0.0), d))
  }

  /** What query head `h` of a decode row has to produce over the entries `kvs`. */
  function HeadOutput(e: real -> real, q: Vec, kvs: seq<KV>, heads: nat, g: nat, scale: real): Vec
    requires Exponential(e) && kvs != [] && AllShaped(kvs, heads, |q|) && g < heads
  {
    Sdpa(e, Logits(q, kvs, heads, g, scale), Values(kvs, heads, |q|, g), |q|)
  }

  /** The one-pass loop, its accumulator divided by its sum, is softmax attention. */
  lemma OnePassIsSdpa(e: real -> real, ls: seq<real>, vs: seq<Vec>, hd: nat, r: Registers)
    requires Exponential(e) && ls != [] && LogitsAndValues(ls, vs, hd) && r == Fold(e, ls, vs, hd, |ls|)
    ensures r.s > 0.0 && seq(hd, d requires 0 <= d < hd => r.acc[d] / r.s) == Sdpa(e, ls, vs, hd)
  {
    FoldIsOnline(e, ls, vs, hd, |ls|);
    assert ls[..|ls|] == ls && vs[..|ls|] == vs;
    DenPositive(e, ls, r.m.value);
    forall d | 0 <= d < hd ensures r.acc[d] / r.s == Sdpa(e, ls, vs, hd)[d] {
      AnyShiftIsSoftmax(e, ls, vs, r.m.value, d);
    }
  }

  // ---------------------------------------------------------------- the decode kernel

  /** `full` whole blocks and `partial` further positions make `len`. */
  ghost predicate Parts(bs: int, len: nat, full: nat, partial: nat) {
    bs > 0 && partial < bs && len == Span(bs, full) + partial
  }

  method Split(bs: int, len: nat) returns (full: nat, partial: nat)
    requires bs > 0
    ensures Parts(bs, len, full, partial)
  {
    BlockOfPosition(len, bs, len / bs);
    full, partial := len / bs, len % bs;
  }

  /** Blocks to visit: the whole ones, and one more when a part is left. */
  function Visits(full: nat, partial: nat): nat { full + if partial > 0 then 1 else 0 }

  /** The positions read at visit `block`. */
  function Share(bs: int, full: nat, partial: nat, block: nat): int { if block < full then bs else partial }

  /** The positions read before visit `block`. */
  function Walked(bs: int, full: nat, partial: nat, block: nat): int {
    if block <= full then Span(bs, block) else Span(bs, full) + partial
  }

  /** The visits read positions 0 to len - 1, in order and each once. */
  lemma WalkPartitions(bs: int, len: nat, full: nat, partial: nat, block: nat)
    requires Parts(bs, len, full, partial) && block <= Visits(full, partial)
    ensures 0 <= Walked(bs, full, partial, block) <= len
    ensures block == Visits(full, partial) ==> Walked(bs, full, partial, block) == len
    ensures block < Visits(full, partial) ==>
      && Walked(bs, full, partial, block) == Span(bs, block)
      && Walked(bs, full, partial, block + 1) == Span(bs, block) + Share(bs, full, partial, block)
      && 0 < Share(bs, full, partial, block) <= bs && Span(bs, block) + Share(bs, full, partial, block) <= len
  {
    SpanMono(bs, block, full);
    SpanMono(bs, block + 1, full);
    SpanMono(bs, full, full);
  }

  ghost predicate RowHolds(row: seq<int>, table: seq<nat>) {
    |table| <= |row| && forall i :: 0 <= i < |table| ==> row[i] == table[i]
  }

  /** One position of the walk. */
  method DecodePosition(e: real -> real, logit: real, v: Vec, r: Registers) returns (n: Registers)
    requires |v| == |r.acc|
    ensures n == Rescaled(e, r, logit, v)
  {
    var top := if r.m.MinusInfinity? || r.m.value < logit then logit else r.m.value;
    var alpha, beta := ExpBelow(e, r.m, top), e(logit - top);
    n := r.(s := r.s * alpha + beta);
    n := n.(acc := seq(|r.acc|, d requires 0 <= d < |r.acc| => r.acc[d] * alpha + v[d] * beta));
    n := n.(m := At(top));
  }

  /** One block of the walk: positions `start` to `end` - 1 of the sequence. */
  method DecodeBlock(e: real -> real, q: Vec, g: nat, a: array2<KV>, bid: nat, start: nat, end: nat, scale: real,
                     r: Registers,
                     ghost heads: nat, ghost kvs: seq<KV>, ghost ls: seq<real>, ghost vs: seq<Vec>)
    returns (r1: Registers)
    requires AllShaped(kvs, heads, |q|) && g < heads
    requires ls == Logits(q, kvs, heads, g, scale) && vs == Values(kvs, heads, |q|, g)
    requires bid < a.Length0 && start <= end <= start + a.Length1 && end <= |kvs|
    requires forall p :: start <= p < end ==> a[bid, p - start] == kvs[p]
    requires r == Fold(e, ls, vs, |q|, start)
    ensures r1 == Fold(e, ls, vs, |q|, end)
  {
    r1 := r;
    for p := start to end
      invariant r1 == Fold(e, ls, vs, |q|, p)
    {
      var kv := a[bid, p - start];
      assert kv == kvs[p] && KvShaped(kv, heads, |q|);
      r1 := DecodePosition(e, Logit(q, kv.key[g], scale), kv.value[g], r1);
    }
  }

  /** Where the positions of one visit lie. */
  lemma BlockHolds(a: array2<KV>, row: seq<int>, table: seq<nat>, len: nat, kvs: seq<KV>, block: nat, start: int,
                   end: int)
    requires a.Length1 > 0 && RowHolds(row, table) && Gathered(a, table, len, kvs)
    requires 0 <= start == Span(a.Length1, block) < end <= len && end <= start + a.Length1
    ensures block < |row| && 0 <= row[block] < a.Length0
    ensures forall p :: start <= p < end ==> a[row[block], p - start] == kvs[p]
  {
    var bs := a.Length1;
    PositionInBlock(bs, block, 0);
    assert kvs[start] == a[table[start / bs], start % bs];
    forall p | start <= p < end ensures a[row[block], p - start] == kvs[p] {
      PositionInBlock(bs, block, p - start);
    }
  }

  /** The walk over the block table, full blocks first and then the partial one.  A block id below
      zero is padding and is skipped. */
  method WalkBlocks(e: real -> real, q: Vec, g: nat, a: array2<KV>, row: seq<int>, seqLen: nat, scale: real,
                    ghost heads: nat, ghost table: seq<nat>, ghost kvs: seq<KV>, ghost ls: seq<real>,
                    ghost vs: seq<Vec>)
    returns (r: Registers)
    requires a.Length1 > 0 && RowHolds(row, table) && Gathered(a, table, seqLen, kvs)
    requires AllShaped(kvs, heads, |q|) && g < heads
    requires ls == Logits(q, kvs, heads, g, scale) && vs == Values(kvs, heads, |q|, g)
    ensures r == Fold(e, ls, vs, |q|, seqLen)
  {
    var full, partial := Split(a.Length1, seqLen);
    r := Start(|q|);
    var n := 0;
    for block := 0 to Visits(full, partial)
      invariant 0 <= n <= seqLen && n == Walked(a.Length1, full, partial, block) && r == Fold(e, ls, vs, |q|, n)
    {
      WalkPartitions(a.Length1, seqLen, full, partial, block);
      var end := n + Share(a.Length1, full, partial, block);
      BlockHolds(a, row, table, seqLen, kvs, block, n, end);
      if row[block] >= 0 {
        r := DecodeBlock(e, q, g, a, row[block], n, end, scale, r, heads, kvs, ls, vs);
        n := end;
      }
    }
    WalkPartitions(a.Length1, seqLen, full, partial, Visits(full, partial));
  }

  /** One program of the kernel: one sequence, one query head.  It keeps only a maximum, a sum and
      an accumulator, and reads every position once. */
  method DecodeHead(e: real -> real, q: Vec, h: nat, repeats: nat, a: array2<KV>, row: seq<int>, seqLen: nat,
                    scale: real, ghost heads: nat, ghost table: seq<nat>, ghost kvs: seq<KV>)
    returns (out: Vec)
    requires Exponential(e) && a.Length1 > 0 && seqLen >= 1 && repeats > 0
    requires RowHolds(row, table) && Gathered(a, table, seqLen, kvs)
    requires AllShaped(kvs, heads, |q|) && 0 <= h / repeats < heads
    ensures out == HeadOutput(e, q, kvs, heads, h / repeats, scale)
  {
    var g := h / repeats;
    ghost var ls, vs := Logits(q, kvs, heads, g, scale), Values(kvs, heads, |q|, g);
    var r := WalkBlocks(e, q, g, a, row, seqLen, scale, heads, table, kvs, ls, vs);
    OnePassIsSdpa(e, ls, vs, |q|, r);
    out := seq(|q|, d requires 0 <= d < |q| => r.acc[d] / r.s);
  }

  // ---------------------------------------------------------------- the reference backend

  /** Every element `n` times in a row, as tensors of kv heads are expanded to query heads. */
  function RepeatInterleave<T>(xs: seq<T>, n: nat): (r: seq<T>) {
    if xs == [] then [] else seq(n, i => xs[0]) + RepeatInterleave(xs[1..], n)
  }

  lemma {:induction false} RepeatInterleaveLength<T>(xs: seq<T>, n: nat)
    ensures |RepeatInterleave(xs, n)| == Span(n, |xs|)
  {
    if xs != [] { RepeatInterleaveLength(xs[1..], n); }
  }

  /** After the expansion, query head h finds kv head h / n: what the kernel computes by division. */
  lemma {:induction false} RepeatInterleaveAt<T>(xs: seq<T>, n: nat, h: nat)
    requires n > 0 && h < Span(n, |xs|)
    ensures |RepeatInterleave(xs, n)| == Span(n, |xs|)
    ensures 0 <= h / n < |xs| && RepeatInterleave(xs, n)[h] == xs[h / n]
  {
    RepeatInterleaveLength(xs, n);
    if h < n {
      DivModUnique(h, n, 0, h);
    } else {
      RepeatInterleaveAt(xs[1..], n, h - n);
      DivModFacts(h - n, n);
      DivModUnique(h, n, (h - n) / n + 1, (h - n) % n);
      assert xs[1..][(h - n) / n] == xs[h / n];
    }
  }

  /** The logits of a query head against its head of the expanded keys. */
  function ExpandedLogits(q: Vec, kvs: seq<KV>, heads: nat, hd: nat, n: nat, h: nat, scale: real): (ls: seq<real>)
    requires |q| == hd && n > 0 && h < Span(n, heads) && AllShaped(kvs, heads, hd)
    ensures |ls| == |kvs|
  {
    seq(|kvs|, j requires 0 <= j < |kvs| =>
      RepeatInterleaveAt(kvs[j].key, n, h);
      Logit(q, RepeatInterleave(kvs[j].key, n)[h], scale))
  }

  function ExpandedValues(kvs: seq<KV>, heads: nat, hd: nat, n: nat, h: nat): (vs: seq<Vec>)
    requires n > 0 && h < Span(n, heads) && AllShaped(kvs, heads, hd)
    ensures |vs| == |kvs| && forall j :: 0 <= j < |kvs| ==> |vs[j]| == hd
  {
    forall j | 0 <= j < |kvs|
      ensures h < |RepeatInterleave(kvs[j].value, n)| && |RepeatInterleave(kvs[j].value, n)[h]| == hd
    {
      RepeatInterleaveAt(kvs[j].value, n, h);
    }
    seq(|kvs|, j requires 0 <= j < |kvs| => RepeatInterleave(kvs[j].value, n)[h])
  }

  /** Attention over the expanded heads is attention over kv head h / n. */
  lemma ExpansionIsDivision(q: Vec, kvs: seq<KV>, heads: nat, n: nat, h: nat, scale: real)
    requires n > 0 && h < Span(n, heads) && AllShaped(kvs, heads, |q|)
    ensures 0 <= h / n < heads
    ensures ExpandedLogits(q, kvs, heads, |q|, n, h, scale) == Logits(q, kvs, heads, h / n, scale)
    ensures ExpandedValues(kvs, heads, |q|, n, h) == Values(kvs, heads, |q|, h / n)
  {
    BlockOfPosition(h, n, heads);
    forall j | 0 <= j < |kvs|
      ensures ExpandedLogits(q, kvs, heads, |q|, n, h, scale)[j] == Logits(q, kvs, heads, h / n, scale)[j]
      ensures ExpandedValues(kvs, heads, |q|, n, h)[j] == Values(kvs, heads, |q|, h / n)[j]
    {
      RepeatInterleaveAt(kvs[j].key, n, h);
      RepeatInterleaveAt(kvs[j].value, n, h);
    }
  }

  ghost predicate QueriesShaped(query: seq<Vec>, heads: nat, n: nat, hd: nat) {
    |query| == Span(n, heads) && forall h :: 0 <= h < |query| ==> |query[h]| == hd
  }

  /** What a row of queries has to produce over the entries it sees. */
  ghost predicate Attends(e: real -> real, query: seq<Vec>, kvs: seq<KV>, heads: nat, n: nat, hd: nat, scale: real,
                          out: seq<Vec>) {
    && Exponential(e) && kvs != [] && AllShaped(kvs, heads, hd) && QueriesShaped(query, heads, n, hd) && n > 0
    && |out| == |query|
    && forall h :: 0 <= h < |query| ==>
      0 <= h / n < heads && out[h] == HeadOutput(e, query[h], kvs, heads, h / n, scale)
  }

  lemma AttendsUnique(e: real -> real, query: seq<Vec>, kvs: seq<KV>, heads: nat, n: nat, hd: nat, scale: real,
                      a: seq<Vec>, b: seq<Vec>)
    requires Attends(e, query, kvs, heads, n, hd, scale, a) && Attends(e, query, kvs, heads, n, hd, scale, b)
    ensures a == b
  {
  }

  /** The reference decode of one sequence: gather everything, expand the heads, attend. */
  method ReferenceDecode(e: real -> real, query: seq<Vec>, a: array2<KV>, table: seq<nat>, kvLen: nat,
                         heads: nat, n: nat, hd: nat, scale: real) returns (out: Option<seq<Vec>>, ghost kvs: seq<KV>)
    requires Exponential(e) && a.Length1 > 0 && kvLen >= 1 && n > 0 && QueriesShaped(query, heads, n, hd)
    requires forall j :: 0 <= j < |table| ==> table[j] < a.Length0
    requires forall b, o :: 0 <= b < a.Length0 && 0 <= o < a.Length1 ==> KvShaped(a[b, o], heads, hd)
    ensures out.Some? <==> kvLen <= Span(a.Length1, |table|)
    ensures out.Some? ==> Gathered(a, table, kvLen, kvs) && Attends(e, query, kvs, heads, n, hd, scale, out.value)
  {
    kvs := [];
    var gathered := GatherPagedKv(a, table, kvLen);
    if gathered.None? { return None, []; }
    kvs := gathered.value;
    var result := [];
    for h := 0 to |query|
      invariant |result| == h && Gathered(a, table, kvLen, gathered.value) && kvs == gathered.value
      invariant forall i :: 0 <= i < h ==>
        0 <= i / n < heads && result[i] == HeadOutput(e, query[i], kvs, heads, i / n, scale)
    {
      ExpansionIsDivision(query[h], gathered.value, heads, n, h, scale);
      result := result + [Sdpa(e, ExpandedLogits(query[h], gathered.value, heads, hd, n, h, scale),
                               ExpandedValues(gathered.value, heads, hd, n, h), hd)];
    }
    out := Some(result);
  }

  /** The kernel grid over the heads of one sequence; every program writes its own row. */
  method KernelDecode(e: real -> real, query: seq<Vec>, a: array2<KV>, row: seq<int>, kvLen: int,
                      heads: nat, n: nat, hd: nat, scale: real, ghost table: seq<nat>, ghost kvs: seq<KV>)
    returns (out: Option<seq<Vec>>)
    requires Exponential(e) && a.Length1 > 0 && n > 0 && QueriesShaped(query, heads, n, hd)
    requires kvLen >= 1 ==> RowHolds(row, table) && Gathered(a, table, kvLen, kvs) && AllShaped(kvs, heads, hd)
    ensures out.Some? <==> kvLen >= 1
    ensures out.Some? ==> Attends(e, query, kvs, heads, n, hd, scale, out.value)
  {
    if kvLen < 1 { return None; }
    var result := [];
    for h := 0 to |query|
      invariant |result| == h
      invariant forall i :: 0 <= i < h ==>
        0 <= i / n < heads && result[i] == HeadOutput(e, query[i], kvs, heads, i / n, scale)
    {
      BlockOfPosition(h, n, heads);
      var head := DecodeHead(e, query[h], h, n, a, row, kvLen, scale, heads, table, kvs);
      result := result + [head];
    }
    out := Some(result);
  }

  // ---------------------------------------------------------------- causal prefill

  /** A masked logit is minus infinity, and its weight is zero. */
  function Weight(e: real -> real, b: Bound): real { if b.MinusInfinity? then 0.0 else e(b.value) }

  function MaskedDen(e: real -> real, bs: seq<Bound>): real {
    if bs == [] then 0.0 else MaskedDen(e, bs[..|bs| - 1]) + Weight(e, bs[|bs| - 1])
  }

  function MaskedWeighted(e: real -> real, bs: seq<Bound>, vs: seq<Vec>, total: real, d: nat): real
    requires |vs| == |bs| && total != 0.0 && forall j :: 0 <= j < |vs| ==> d < |vs[j]|
  {
    if bs == [] then 0.0
    else
      var k := |bs| - 1;
      MaskedWeighted(e, bs[..k], vs[..k], total, d) + (Weight(e, bs[k]) / total) * vs[k][d]
  }

  function Masked(ls: seq<real>, visible: nat): (bs: seq<Bound>)
    ensures |bs| == |ls| && forall j :: 0 <= j < |ls| ==> bs[j] == if j < visible then At(ls[j]) else MinusInfinity
  {
    seq(|ls|, j requires 0 <= j < |ls| => if j < visible then At(ls[j]) else MinusInfinity)
  }

  /** Masked positions contribute nothing: the sums are those of the visible prefix. */
  lemma {:induction false} MaskedDenIsPrefix(e: real -> real, ls: seq<real>, visible: nat)
    requires Exponential(e) && visible <= |ls|
    ensures MaskedDen(e, Masked(ls, visible)) == Den(e, ls[..visible], 0.0)
    decreases |ls|
  {
    if ls != [] {
      var k := |ls| - 1;
      assert Masked(ls, visible)[..k] == Masked(ls[..k], Min(visible, k));
      MaskedDenIsPrefix(e, ls[..k], Min(visible, k));
      assert ls[k] - 0.0 == ls[k];
      if visible == |ls| {
        assert ls[..visible] == ls && ls[..k][..k] == ls[..k];
      } else {
        assert ls[..k][..visible] == ls[..visible];
      }
    }
  }

  lemma {:induction false} MaskedWeightedIsPrefix(e: real -> real, ls: seq<real>, vs: seq<Vec>, visible: nat,
                                                  total: real, d: nat)
    requires visible <= |ls| == |vs| && total != 0.0 && forall j :: 0 <= j < |vs| ==> d < |vs[j]|
    ensures MaskedWeighted(e, Masked(ls, visible), vs, total, d) == Weighted(e, ls[..visible], vs[..visible], total,
                                                                             d)
    decreases |ls|
  {
    if ls != [] {
      var k := |ls| - 1;
      var front := Masked(ls[..k], Min(visible, k));
      assert Masked(ls, visible)[..k] == front;
      MaskedWeightedIsPrefix(e, ls[..k], vs[..k], Min(visible, k), total, d);
      if visible == |ls| {
        assert ls[..visible] == ls && vs[..visible] == vs;
        assert ls[..k][..k] == ls[..k] && vs[..k][..k] == vs[..k];
      } else {
        assert ls[..k][..visible] == ls[..visible] && vs[..k][..visible] == vs[..visible];
        MaskedLast(e, Masked(ls, visible), vs, total, d);
      }
    }
  }

  /** A masked last position adds nothing. */
  lemma MaskedLast(e: real -> real, bs: seq<Bound>, vs: seq<Vec>, total: real, d: nat)
    requires |vs| == |bs| > 0 && total != 0.0 && (forall j :: 0 <= j < |vs| ==> d < |vs[j]|)
    requires bs[|bs| - 1].MinusInfinity?
    ensures MaskedWeighted(e, bs, vs, total, d) == MaskedWeighted(e, bs[..|bs| - 1], vs[..|bs| - 1], total, d)
  {
    NoWeight(Weight(e, bs[|bs| - 1]), total, vs[|bs| - 1][d]);
  }

  lemma NoWeight(w: real, total: real, v: real)
    requires w == 0.0 && total != 0.0
    ensures (w / total) * v == 0.0
  {
  }

  /** Scaled dot-product attention with an explicit mask. */
  function MaskedSdpa(e: real -> real, ls: seq<real>, vs: seq<Vec>, hd: nat, visible: nat): (out: Vec)
    requires Exponential(e) && 0 < visible <= |ls| == |vs| && forall j :: 0 <= j < |vs| ==> |vs[j]| == hd
    ensures out == Sdpa(e, ls[..visible], vs[..visible], hd)
  {
    var bs := Masked(ls, visible);
    MaskedDenIsPrefix(e, ls, visible);
    DenPositive(e, ls[..visible], 0.0);
    var total := MaskedDen(e, bs);
    var out := seq(hd, d requires 0 <= d < hd => MaskedWeighted(e, bs, vs, total, d));
    assert forall d :: 0 <= d < hd ==> out[d] == Sdpa(e, ls[..visible], vs[..visible], hd)[d] by {
      forall d | 0 <= d < hd ensures out[d] == Sdpa(e, ls[..visible], vs[..visible], hd)[d] {
        MaskedWeightedIsPrefix(e, ls, vs, visible, total, d);
      }
    }
    out
  }

  /** One query row of a chunk: position `pos` sees keys 0 to pos, whatever else is in `full`. */
  method PrefillRow(e: real -> real, query: seq<Vec>, full: seq<KV>, pos: nat, heads: nat, n: nat, hd: nat,
                    scale: real)
    returns (out: seq<Vec>)
    requires Exponential(e) && n > 0 && pos < |full| && AllShaped(full, heads, hd)
    requires QueriesShaped(query, heads, n, hd)
    ensures Attends(e, query, full[..pos + 1], heads, n, hd, scale, out)
  {
    out := [];
    for h := 0 to |query|
      invariant |out| == h
      invariant forall i :: 0 <= i < h ==>
        0 <= i / n < heads && out[i] == HeadOutput(e, query[i], full[..pos + 1], heads, i / n, scale)
    {
      ExpansionIsDivision(query[h], full, heads, n, h, scale);
      ghost var g := h / n;
      assert Logits(query[h], full, heads, g, scale)[..pos + 1] == Logits(query[h], full[..pos + 1], heads, g, scale);
      assert Values(full, heads, hd, g)[..pos + 1] == Values(full[..pos + 1], heads, hd, g);
      out := out + [MaskedSdpa(e, ExpandedLogits(query[h], full, heads, hd, n, h, scale),
                               ExpandedValues(full, heads, hd, n, h), hd, pos + 1)];
    }
  }

  /** A chunk of queries behind `cached` positions: the offset-aware causal mask. */
  method PrefillSequence(e: real -> real, queries: seq<seq<Vec>>, full: seq<KV>, cached: nat, heads: nat, n: nat,
                         hd: nat, scale: real)
    returns (out: seq<seq<Vec>>)
    requires Exponential(e) && n > 0 && |full| == cached + |queries| && AllShaped(full, heads, hd)
    requires forall i :: 0 <= i < |queries| ==> QueriesShaped(queries[i], heads, n, hd)
    ensures |out| == |queries|
    ensures forall i :: 0 <= i < |queries| ==> Attends(e, queries[i], full[..cached + i + 1], heads, n, hd, scale,
                                                       out[i])
  {
    out := [];
    for i := 0 to |queries|
      invariant |out| == i
      invariant forall j :: 0 <= j < i ==> Attends(e, queries[j], full[..cached + j + 1], heads, n, hd, scale, out[j])
    {
      var row := PrefillRow(e, queries[i], full, cached + i, heads, n, hd, scale);
      out := out + [row];
    }
  }

  /** The reference prefill of one sequence: everything is gathered from the cache. */
  method ReferencePrefill(e: real -> real, queries: seq<seq<Vec>>, a: array2<KV>, table: seq<nat>, cached: nat,
                          heads: nat, n: nat, hd: nat, scale: real, ghost kvs: seq<KV>) returns (out: seq<seq<Vec>>)
    requires Exponential(e) && n > 0 && a.Length1 > 0 && AllShaped(kvs, heads, hd)
    requires forall i :: 0 <= i < |queries| ==> QueriesShaped(queries[i], heads, n, hd)
    requires forall j :: 0 <= j < |table| ==> table[j] < a.Length0
    requires cached + |queries| <= Span(a.Length1, |table|) && Gathered(a, table, cached + |queries|, kvs)
    ensures |out| == |queries|
    ensures forall i :: 0 <= i < |queries| ==>
      Attends(e, queries[i], kvs[..cached + i + 1], heads, n, hd, scale, out[i])
  {
    var full := GatherPagedKv(a, table, cached + |queries|);
    assert full.value == kvs;
    out := PrefillSequence(e, queries, full.value, cached, heads, n, hd, scale);
  }

  /** The fast prefill: the cached prefix is gathered, the chunk comes from this step's keys and
      values, and the rows attend to the two put together, whatever the cache holds further on. */
  method FastPrefill(e: real -> real, queries: seq<seq<Vec>>, chunk: seq<KV>, a: array2<KV>, table: seq<nat>,
                     cached: nat, heads: nat, n: nat, hd: nat, scale: real, ghost prefix: seq<KV>)
    returns (out: seq<seq<Vec>>)
    requires Exponential(e) && n > 0 && a.Length1 > 0 && |chunk| == |queries|
    requires AllShaped(prefix, heads, hd) && AllShaped(chunk, heads, hd)
    requires forall i :: 0 <= i < |queries| ==> QueriesShaped(queries[i], heads, n, hd)
    requires forall j :: 0 <= j < |table| ==> table[j] < a.Length0
    requires cached <= Span(a.Length1, |table|) && Gathered(a, table, cached, prefix)
    ensures |out| == |queries|
    ensures forall i :: 0 <= i < |queries| ==>
      Attends(e, queries[i], (prefix + chunk)[..cached + i + 1], heads, n, hd, scale, out[i])
  {
    var front := [];
    if cached > 0 {
      var gathered := GatherPagedKv(a, table, cached);
      front := gathered.value;
    }
    assert front == prefix;
    out := PrefillSequence(e, queries, front + chunk, cached, heads, n, hd, scale);
  }
}

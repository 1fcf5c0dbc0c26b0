/** What attention computes, for the kernel, the reference backend and the prefills alike: the mean of
    the values weighted by the exponentials of the scaled dot products of the query with the keys. */
module AttentionLaws {
  import opened Base
  import opened Transformer
  import opened Attention
  import opened AttentionFormula
  import opened PagedAttention

  // ---------------------------------------------------------------- the logit

  /** The logit is the scaled dot product, coordinate by coordinate. */
  lemma {:induction false} DotIsProduct(q: Vec, k: Vec)
    requires |q| == |k|
    ensures Dot(q, k) == DotProduct(q, k)
    decreases |q|
  {
    if q != [] {
      var n := |q| - 1;
      DotIsProduct(q[..n], k[..n]);
      SumEqual(n, DotTerm(q[..n], k[..n]), DotTerm(q, k));
    }
  }

  lemma LogitIsProduct(q: Vec, k: Vec, scale: real)
    requires |q| == |k|
    ensures Logit(q, k, scale) == Times(DotProduct(q, k), scale)
  {
    DotIsProduct(q, k);
  }

  /** k1 + c * k2, coordinate by coordinate. */
  function Combined(k1: Vec, c: real, k2: Vec): (k: Vec)
    requires |k1| == |k2|
    ensures |k| == |k1| && forall i :: 0 <= i < |k1| ==> k[i] == k1[i] + c * k2[i]
  {
    seq(|k1|, i requires 0 <= i < |k1| => k1[i] + c * k2[i])
  }

  function UnitVec(n: nat, i: nat): (u: Vec)
    ensures |u| == n && forall j :: 0 <= j < n ==> u[j] == if j == i then 1.0 else 0.0
  {
    seq(n, j => if j == i then 1.0 else 0.0)
  }

  /** The logit is additive and homogeneous in the key. */
  lemma LogitIsLinear(q: Vec, k1: Vec, c: real, k2: Vec, scale: real)
    requires |q| == |k1| == |k2|
    ensures Logit(q, Combined(k1, c, k2), scale) == Logit(q, k1, scale) + c * Logit(q, k2, scale)
  {
    var k := Combined(k1, c, k2);
    var scaled := (i: nat) => c * DotTerm(q, k2)(i);
    forall i: nat | i < |q| ensures DotTerm(q, k)(i) == DotTerm(q, k1)(i) + scaled(i) {
      CombinedTerm(q, k1, c, k2, i);
    }
    SumAdds(|q|, DotTerm(q, k1), scaled, DotTerm(q, k));
    SumScales(|q|, DotTerm(q, k2), c, scaled);
    LinearLogits(q, k1, c, k2, k, scale);
  }

  lemma LinearLogits(q: Vec, k1: Vec, c: real, k2: Vec, k: Vec, scale: real)
    requires |q| == |k1| == |k2| == |k| && DotProduct(q, k) == DotProduct(q, k1) + c * DotProduct(q, k2)
    ensures Logit(q, k, scale) == Logit(q, k1, scale) + c * Logit(q, k2, scale)
  {
    LogitIsProduct(q, k, scale);
    LogitIsProduct(q, k1, scale);
    LogitIsProduct(q, k2, scale);
    ScaleCombines(scale, DotProduct(q, k1), c, DotProduct(q, k2));
  }

  lemma CombinedTerm(q: Vec, k1: Vec, c: real, k2: Vec, i: nat)
    requires |q| == |k1| == |k2| && i < |q|
    ensures DotTerm(q, Combined(k1, c, k2))(i) == DotTerm(q, k1)(i) + c * DotTerm(q, k2)(i)
  {
    DotTermAt(q, Combined(k1, c, k2), i);
    DotTermAt(q, k1, i);
    DotTermAt(q, k2, i);
    TermsCombine(q[i], k1[i], c, k2[i]);
  }

  lemma TermsCombine(q: real, a: real, c: real, b: real)
    ensures q * (a + c * b) == q * a + c * (q * b)
  {
  }

  lemma ScaleCombines(s: real, a: real, c: real, b: real)
    ensures s * (a + c * b) == s * a + c * (s * b)
  {
  }

  /** On a unit vector, as key or as query, it reads the other one's coordinate. */
  lemma LogitOfUnit(q: Vec, i: nat, scale: real)
    requires i < |q|
    ensures Logit(q, UnitVec(|q|, i), scale) == Times(q[i], scale)
    ensures Logit(UnitVec(|q|, i), q, scale) == Times(q[i], scale)
  {
    var u := UnitVec(|q|, i);
    SumOfOne(|q|, DotTerm(q, u), i);
    SumOfOne(|q|, DotTerm(u, q), i);
    LogitIsProduct(q, u, scale);
    LogitIsProduct(u, q, scale);
  }

  // ---------------------------------------------------------------- the weighted mean

  /** One entry's weight and its share of coordinate d. */
  lemma TermsOfEntry(e: real -> real, q: Vec, kvs: seq<KV>, heads: nat, g: nat, scale: real, j: nat, d: nat)
    requires AllShaped(kvs, heads, |q|) && g < heads && j < |kvs| && d < |q|
    ensures WeightTerm(e, q, kvs, g, scale)(j) == e(Logits(q, kvs, heads, g, scale)[j] - 0.0)
    ensures ValueTerm(e, q, kvs, g, scale, d)(j)
         == Values(kvs, heads, |q|, g)[j][d] * e(Logits(q, kvs, heads, g, scale)[j] - 0.0)
  {
    assert KvShaped(kvs[j], heads, |q|);
    LogitIsProduct(q, kvs[j].key[g], scale);
    assert Logits(q, kvs, heads, g, scale)[j] - 0.0 == Times(DotProduct(q, kvs[j].key[g]), scale);
  }

  lemma {:induction false} DenIsSum(e: real -> real, ls: seq<real>, w: nat -> real)
    requires forall j: nat :: j < |ls| ==> w(j) == e(ls[j] - 0.0)
    ensures Den(e, ls, 0.0) == SumOf(|ls|, w)
    decreases |ls|
  {
    if ls != [] { DenIsSum(e, ls[..|ls| - 1], w); }
  }

  lemma {:induction false} NumIsSum(e: real -> real, ls: seq<real>, vs: seq<Vec>, d: nat, w: nat -> real)
    requires |vs| == |ls| && forall j :: 0 <= j < |vs| ==> d < |vs[j]|
    requires forall j: nat :: j < |ls| ==> w(j) == vs[j][d] * e(ls[j] - 0.0)
    ensures Num(e, ls, vs, 0.0, d) == SumOf(|ls|, w)
    decreases |ls|
  {
    if ls != [] { NumIsSum(e, ls[..|ls| - 1], vs[..|ls| - 1], d, w); }
  }

  lemma TimesBack(a: real, b: real)
    requires b != 0.0
    ensures (a / b) * b == a
  {
  }

  /** What a head produces is the mean of the values, weighted by the exponentials of the scaled dot
      products of the query with the keys. */
  lemma HeadOutputIsMean(e: real -> real, q: Vec, kvs: seq<KV>, heads: nat, g: nat, scale: real)
    requires Exponential(e) && kvs != [] && AllShaped(kvs, heads, |q|) && g < heads
    ensures WeightedMean(e, q, kvs, g, scale, HeadOutput(e, q, kvs, heads, g, scale))
  {
    WeightsPositive(e, q, kvs, heads, g, scale);
    var out := HeadOutput(e, q, kvs, heads, g, scale);
    forall d: nat | d < |q| ensures MeanAt(e, q, kvs, g, scale, out[d], d) {
      CoordinateIsMean(e, q, kvs, heads, g, scale, d);
    }
  }

  lemma WeightsPositive(e: real -> real, q: Vec, kvs: seq<KV>, heads: nat, g: nat, scale: real)
    requires Exponential(e) && kvs != [] && AllShaped(kvs, heads, |q|) && g < heads
    ensures SumOf(|kvs|, WeightTerm(e, q, kvs, g, scale)) == Den(e, Logits(q, kvs, heads, g, scale), 0.0) > 0.0
  {
    var ls := Logits(q, kvs, heads, g, scale);
    DenPositive(e, ls, 0.0);
    WeightsOfEntries(e, q, kvs, heads, g, scale);
    DenIsSum(e, ls, WeightTerm(e, q, kvs, g, scale));
  }

  lemma WeightsOfEntries(e: real -> real, q: Vec, kvs: seq<KV>, heads: nat, g: nat, scale: real)
    requires AllShaped(kvs, heads, |q|) && g < heads
    ensures forall j: nat :: j < |kvs| ==>
      WeightTerm(e, q, kvs, g, scale)(j) == e(Logits(q, kvs, heads, g, scale)[j] - 0.0)
  {
    forall j: nat | j < |kvs|
      ensures WeightTerm(e, q, kvs, g, scale)(j) == e(Logits(q, kvs, heads, g, scale)[j] - 0.0)
    {
      assert KvShaped(kvs[j], heads, |q|);
      LogitIsProduct(q, kvs[j].key[g], scale);
      assert Logits(q, kvs, heads, g, scale)[j] - 0.0 == Times(DotProduct(q, kvs[j].key[g]), scale);
    }
  }

  lemma CoordinateIsMean(e: real -> real, q: Vec, kvs: seq<KV>, heads: nat, g: nat, scale: real, d: nat)
    requires Exponential(e) && kvs != [] && AllShaped(kvs, heads, |q|) && g < heads && d < |q|
    ensures |HeadOutput(e, q, kvs, heads, g, scale)| == |q|
    ensures MeanAt(e, q, kvs, g, scale, HeadOutput(e, q, kvs, heads, g, scale)[d], d)
  {
    WeightsPositive(e, q, kvs, heads, g, scale);
    var ls, vs := Logits(q, kvs, heads, g, scale), Values(kvs, heads, |q|, g);
    DenPositive(e, ls, 0.0);
    WeightedIsRatio(e, ls, vs, Den(e, ls, 0.0), d);
    TimesBack(Num(e, ls, vs, 0.0, d), Den(e, ls, 0.0));
    NumeratorOfHead(e, q, kvs, heads, g, scale, ls, vs, d);
  }

  lemma NumeratorOfHead(e: real -> real, q: Vec, kvs: seq<KV>, heads: nat, g: nat, scale: real,
                        ls: seq<real>, vs: seq<Vec>, d: nat)
    requires AllShaped(kvs, heads, |q|) && g < heads && d < |q|
    requires ls == Logits(q, kvs, heads, g, scale) && vs == Values(kvs, heads, |q|, g)
    ensures Num(e, ls, vs, 0.0, d) == SumOf(|kvs|, ValueTerm(e, q, kvs, g, scale, d))
  {
    forall j: nat | j < |kvs| ensures ValueTerm(e, q, kvs, g, scale, d)(j) == vs[j][d] * e(ls[j] - 0.0) {
      TermsOfEntry(e, q, kvs, heads, g, scale, j, d);
    }
    NumIsSum(e, ls, vs, d, ValueTerm(e, q, kvs, g, scale, d));
  }

  /** For a query along coordinate i only that coordinate of the keys counts: two entries weigh as
      e(scale * k0[i]) to e(scale * k1[i]), and in general entry j weighs e(scale * kj[i]). */
  lemma UnitQueryWeights(e: real -> real, i: nat, kvs: seq<KV>, heads: nat, g: nat, hd: nat, scale: real, j: nat)
    requires i < hd && AllShaped(kvs, heads, hd) && g < heads && j < |kvs|
    ensures |kvs[j].key| == heads && |kvs[j].key[g]| == hd
    ensures WeightTerm(e, UnitVec(hd, i), kvs, g, scale)(j) == e(Times(kvs[j].key[g][i], scale))
  {
    assert KvShaped(kvs[j], heads, hd);
    var k := kvs[j].key[g];
    LogitOfUnit(k, i, scale);
    LogitIsProduct(UnitVec(hd, i), k, scale);
    assert Times(DotProduct(UnitVec(hd, i), k), scale) == Times(k[i], scale);
  }

  /** Two entries under such a query: the output is their values weighed in that ratio. */
  lemma TwoEntries(e: real -> real, i: nat, a: KV, b: KV, heads: nat, g: nat, hd: nat, scale: real, d: nat)
    requires Exponential(e) && i < hd && d < hd && KvShaped(a, heads, hd) && KvShaped(b, heads, hd) && g < heads
    ensures
      var wa, wb := e(Times(a.key[g][i], scale)), e(Times(b.key[g][i], scale));
      var out := HeadOutput(e, UnitVec(hd, i), [a, b], heads, g, scale);
      |out| == hd && out[d] * (wa + wb) == a.value[g][d] * wa + b.value[g][d] * wb
  {
    var q, kvs := UnitVec(hd, i), [a, b];
    assert kvs[0] == a && kvs[1] == b && |kvs| == 2;
    HeadOutputIsMean(e, q, kvs, heads, g, scale);
    UnitQueryWeights(e, i, kvs, heads, g, hd, scale, 0);
    UnitQueryWeights(e, i, kvs, heads, g, hd, scale, 1);
    SumOfTwo(WeightTerm(e, q, kvs, g, scale));
    SumOfTwo(ValueTerm(e, q, kvs, g, scale, d));
    ValueOfEntry(e, q, kvs, heads, g, scale, 0, d);
    ValueOfEntry(e, q, kvs, heads, g, scale, 1, d);
  }

  lemma ValueOfEntry(e: real -> real, q: Vec, kvs: seq<KV>, heads: nat, g: nat, scale: real, j: nat, d: nat)
    requires AllShaped(kvs, heads, |q|) && g < heads && j < |kvs| && d < |q|
    ensures |kvs[j].value| == heads && |kvs[j].value[g]| == |q|
    ensures ValueTerm(e, q, kvs, g, scale, d)(j) == kvs[j].value[g][d] * WeightTerm(e, q, kvs, g, scale)(j)
  {
    assert KvShaped(kvs[j], heads, |q|);
  }

  lemma SumOfTwo(f: nat -> real)
    ensures SumOf(2, f) == f(0) + f(1)
  {
    assert SumOf(1, f) == SumOf(0, f) + f(0);
    assert SumOf(0, f) == 0.0;
  }

  /** So every row of queries that attends holds the weighted means of the explicit formula. */
  lemma AttendsIsMean(e: real -> real, query: seq<Vec>, kvs: seq<KV>, heads: nat, n: nat, hd: nat, scale: real,
                      out: seq<Vec>)
    requires Attends(e, query, kvs, heads, n, hd, scale, out)
    ensures AllWeightedMeans(e, query, kvs, n, scale, out)
  {
    forall h: nat | h < |query| ensures 0 <= h / n && WeightedMean(e, query[h], kvs, h / n, scale, out[h]) {
      HeadOutputIsMean(e, query[h], kvs, heads, h / n, scale);
    }
  }

  /** So a head of the kernel that is given a unit query over two cached entries holds their values
      weighed as e(scale * ka[i]) to e(scale * kb[i]). */
  lemma AttendsToTwo(e: real -> real, query: seq<Vec>, a: KV, b: KV, heads: nat, n: nat, hd: nat, scale: real,
                     out: seq<Vec>, h: nat, i: nat, d: nat)
    requires Attends(e, query, [a, b], heads, n, hd, scale, out) && h < |query| && i < hd && d < hd
    requires query[h] == UnitVec(hd, i)
    ensures
      var g := h / n;
      && 0 <= g < heads && KvShaped(a, heads, hd) && KvShaped(b, heads, hd) && |out| == |query| && |out[h]| == hd
      && (var wa, wb := e(Times(a.key[g][i], scale)), e(Times(b.key[g][i], scale));
          out[h][d] * (wa + wb) == a.value[g][d] * wa + b.value[g][d] * wb)
  {
    assert [a, b][0] == a && [a, b][1] == b;
    TwoEntries(e, i, a, b, heads, h / n, hd, scale, d);
  }
}

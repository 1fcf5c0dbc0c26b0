/** Attention as one formula over indexed sums, written without any of the loops: what a head has to
    produce from its query, the keys and the values. */
module AttentionFormula {
  import opened Transformer
  import opened Attention

  /** f(0) + ... + f(n - 1). */
  function SumOf(n: nat, f: nat -> real): real {
    if n == 0 then 0.0 else SumOf(n - 1, f) + f(n - 1)
  }

  lemma {:induction false} SumEqual(n: nat, f: nat -> real, g: nat -> real)
    requires forall i: nat :: i < n ==> f(i) == g(i)
    ensures SumOf(n, f) == SumOf(n, g)
  {
    if n > 0 { SumEqual(n - 1, f, g); }
  }

  lemma {:induction false} SumAdds(n: nat, f: nat -> real, g: nat -> real, h: nat -> real)
    requires forall i: nat :: i < n ==> h(i) == f(i) + g(i)
    ensures SumOf(n, h) == SumOf(n, f) + SumOf(n, g)
  {
    if n > 0 { SumAdds(n - 1, f, g, h); }
  }

  lemma {:induction false} SumScales(n: nat, f: nat -> real, c: real, h: nat -> real)
    requires forall i: nat :: i < n ==> h(i) == c * f(i)
    ensures SumOf(n, h) == c * SumOf(n, f)
  {
    if n > 0 { SumScales(n - 1, f, c, h); }
  }

  /** A sum with a single term that is not zero. */
  lemma {:induction false} SumOfOne(n: nat, f: nat -> real, at: nat)
    requires forall i: nat :: i < n && i != at ==> f(i) == 0.0
    ensures SumOf(n, f) == if at < n then f(at) else 0.0
  {
    if n > 0 { SumOfOne(n - 1, f, at); }
  }

  /** q[0] * k[0] + q[1] * k[1] + ... */
  function DotTerm(q: Vec, k: Vec): nat -> real {
    (i: nat) => if i < |q| && i < |k| then q[i] * k[i] else 0.0
  }

  lemma DotTermAt(q: Vec, k: Vec, i: nat)
    requires i < |q| && i < |k|
    ensures DotTerm(q, k)(i) == q[i] * k[i]
  {
  }

  function DotProduct(q: Vec, k: Vec): real { SumOf(|q|, DotTerm(q, k)) }

  /** The unnormalised weight of entry j for a query: the exponential of the scaled dot product of
      the query with the key of kv head g. */
  function WeightTerm(e: real -> real, q: Vec, kvs: seq<KV>, g: nat, scale: real): nat -> real {
    (j: nat) => if j < |kvs| && g < |kvs[j].key| then e(Times(DotProduct(q, kvs[j].key[g]), scale)) else 0.0
  }

  /** Coordinate d of the value of entry j times its weight. */
  function ValueTerm(e: real -> real, q: Vec, kvs: seq<KV>, g: nat, scale: real, d: nat): nat -> real {
    (j: nat) =>
      if j < |kvs| && g < |kvs[j].key| && g < |kvs[j].value| && d < |kvs[j].value[g]|
      then kvs[j].value[g][d] * e(Times(DotProduct(q, kvs[j].key[g]), scale))
      else 0.0
  }

  /** `x` times the sum of the weights is the sum of the weighted coordinates d. */
  ghost predicate MeanAt(e: real -> real, q: Vec, kvs: seq<KV>, g: nat, scale: real, x: real, d: nat) {
    x * SumOf(|kvs|, WeightTerm(e, q, kvs, g, scale)) == SumOf(|kvs|, ValueTerm(e, q, kvs, g, scale, d))
  }

  /** The weighted mean of the values, coordinate by coordinate. */
  ghost predicate WeightedMean(e: real -> real, q: Vec, kvs: seq<KV>, g: nat, scale: real, out: Vec) {
    && |out| == |q|
    && SumOf(|kvs|, WeightTerm(e, q, kvs, g, scale)) > 0.0
    && forall d: nat :: d < |out| ==> MeanAt(e, q, kvs, g, scale, out[d], d)
  }

  /** The same for every query head, head h using kv head h / n. */
  ghost predicate AllWeightedMeans(e: real -> real, query: seq<Vec>, kvs: seq<KV>, n: nat, scale: real, out: seq<Vec>) {
    && n > 0 && |out| == |query|
    && forall h: nat :: h < |query| ==> 0 <= h / n && WeightedMean(e, query[h], kvs, h / n, scale, out[h])
  }
}

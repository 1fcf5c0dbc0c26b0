/** Attention over the reals: the one-pass softmax of the paged decode kernel, the two-pass
    reference, the sharing of kv heads, and the causal mask of chunked prefill. */
module Attention {
  import opened Transformer

  // ---------------------------------------------------------------- plain softmax attention

  function Plus(x: real, y: real): real { x + y }

  function Times(x: real, y: real): real { x * y }

  /** All that is used of the exponential: it is positive and turns sums into products. */
  ghost predicate Exponential(e: real -> real) {
    && (forall x :: e(x) > 0.0)
    && (forall x, y {:trigger Plus(x, y)} :: e(Plus(x, y)) == Times(e(x), e(y)))
  }

  /** Sum of e(l - c) over all logits. */
  function Den(e: real -> real, ls: seq<real>, c: real): real {
    if ls == [] then 0.0 else Den(e, ls[..|ls| - 1], c) + e(ls[|ls| - 1] - c)
  }

  /** Component d of the sum of e(l - c) * v. */
  function Num(e: real -> real, ls: seq<real>, vs: seq<Vec>, c: real, d: nat): real
    requires |vs| == |ls| && forall j :: 0 <= j < |vs| ==> d < |vs[j]|
  {
    if ls == [] then 0.0
    else
      var k := |ls| - 1;
      Num(e, ls[..k], vs[..k], c, d) + vs[k][d] * e(ls[k] - c)
  }

  /** Component d of the softmax-weighted sum of the values: every weight is e(l) over the sum. */
  function Weighted(e: real -> real, ls: seq<real>, vs: seq<Vec>, total: real, d: nat): real
    requires |vs| == |ls| && total != 0.0 && forall j :: 0 <= j < |vs| ==> d < |vs[j]|
  {
    if ls == [] then 0.0
    else
      var k := |ls| - 1;
      Weighted(e, ls[..k], vs[..k], total, d) + (e(ls[k]) / total) * vs[k][d]
  }

  lemma {:induction false} DenPositive(e: real -> real, ls: seq<real>, c: real)
    requires Exponential(e)
    ensures Den(e, ls, c) >= 0.0 && (ls != [] ==> Den(e, ls, c) > 0.0)
  {
    if ls != [] { DenPositive(e, ls[..|ls| - 1], c); }
  }

  /** Moving the reference point of one exponent. */
  lemma ExpShift(e: real -> real, l: real, c: real, n: real)
    requires Exponential(e)
    ensures e(l - c) * e(c - n) == e(l - n)
  {
    assert Plus(l - c, c - n) == l - n;
  }

  /** Rescaling a sum and its newest term together. */
  lemma ShiftTerm(e: real -> real, sum: real, v: real, l: real, c: real, n: real)
    requires Exponential(e)
    ensures (sum + v * e(l - c)) * e(c - n) == sum * e(c - n) + v * e(l - n)
  {
    ExpShift(e, l, c, n);
    TermTimes(sum, v, e(l - c), e(c - n));
  }

  lemma TermTimes(sum: real, v: real, a: real, f: real)
    ensures (sum + v * a) * f == sum * f + v * (a * f)
  {
  }

  lemma {:induction false} DenShift(e: real -> real, ls: seq<real>, c: real, n: real)
    requires Exponential(e)
    ensures Den(e, ls, c) * e(c - n) == Den(e, ls, n)
  {
    if ls != [] {
      var k := |ls| - 1;
      DenShift(e, ls[..k], c, n);
      ShiftTerm(e, Den(e, ls[..k], c), 1.0, ls[k], c, n);
    }
  }

  lemma Distribute(a: real, b: real, f: real)
    ensures (a + b) * f == a * f + b * f
  {
  }

  lemma {:induction false} NumShift(e: real -> real, ls: seq<real>, vs: seq<Vec>, c: real, n: real, d: nat)
    requires Exponential(e) && |vs| == |ls| && forall j :: 0 <= j < |vs| ==> d < |vs[j]|
    ensures Num(e, ls, vs, c, d) * e(c - n) == Num(e, ls, vs, n, d)
  {
    if ls != [] {
      var k := |ls| - 1;
      NumShift(e, ls[..k], vs[..k], c, n, d);
      ShiftTerm(e, Num(e, ls[..k], vs[..k], c, d), vs[k][d], ls[k], c, n);
    }
  }

  /** Weights sum up term by term to numerator over denominator. */
  lemma {:induction false} WeightedIsRatio(e: real -> real, ls: seq<real>, vs: seq<Vec>, total: real, d: nat)
    requires total != 0.0 && |vs| == |ls| && forall j :: 0 <= j < |vs| ==> d < |vs[j]|
    ensures Weighted(e, ls, vs, total, d) == Num(e, ls, vs, 0.0, d) / total
  {
    if ls != [] {
      var k := |ls| - 1;
      WeightedIsRatio(e, ls[..k], vs[..k], total, d);
      assert ls[k] - 0.0 == ls[k];
      RatioStep(Num(e, ls[..k], vs[..k], 0.0, d), e(ls[k]), vs[k][d], total);
    }
  }

  lemma RatioStep(n: real, w: real, v: real, total: real)
    requires total != 0.0
    ensures n / total + (w / total) * v == (n + v * w) / total
  {
    var i := 1.0 / total;
    assert n / total == n * i && w / total == w * i && (n + v * w) / total == (n + v * w) * i;
    Distribute(n, v * w, i);
    assert (w * i) * v == v * w * i;
  }

  /** Whatever point the exponents are taken relative to, the ratio is the softmax. */
  lemma {:induction false} AnyShiftIsSoftmax(e: real -> real, ls: seq<real>, vs: seq<Vec>, c: real, d: nat)
    requires Exponential(e) && ls != [] && |vs| == |ls| && forall j :: 0 <= j < |vs| ==> d < |vs[j]|
    ensures Den(e, ls, c) > 0.0 && Den(e, ls, 0.0) > 0.0
    ensures Num(e, ls, vs, c, d) / Den(e, ls, c) == Weighted(e, ls, vs, Den(e, ls, 0.0), d)
  {
    DenPositive(e, ls, c);
    DenPositive(e, ls, 0.0);
    DenShift(e, ls, c, 0.0);
    NumShift(e, ls, vs, c, 0.0, d);
    WeightedIsRatio(e, ls, vs, Den(e, ls, 0.0), d);
    Cancel(Num(e, ls, vs, c, d), Den(e, ls, c), e(c - 0.0));
  }

  lemma Cancel(a: real, b: real, f: real)
    requires b > 0.0 && f > 0.0
    ensures b * f != 0.0 && a / b == (a * f) / (b * f)
  {
    var r := a / b;
    assert a == r * b;
    assert r * b * f == r * (b * f);
  }

  // ---------------------------------------------------------------- the one-pass loop

  /** The running maximum starts at minus infinity. */
  datatype Bound = MinusInfinity | At(value: real)

  /** exp(m - n), which is 0 when m is minus infinity. */
  function ExpBelow(e: real -> real, m: Bound, n: real): real {
    if m.MinusInfinity? then 0.0 else e(m.value - n)
  }

  function MaxOf(ls: seq<real>): (m: real)
    requires ls != []
    ensures m in ls && forall l :: l in ls ==> l <= m
  {
    if |ls| == 1 then ls[0]
    else
      var k := |ls| - 1;
      var m := MaxOf(ls[..k]);
      assert ls == ls[..k] + [ls[k]];
      if ls[k] > m then ls[k] else m
  }

  /** The registers of the loop. */
  datatype Registers = Registers(m: Bound, s: real, acc: Vec)

  /** One position: rescale what is there to the new maximum, add the new term. */
  function Rescaled(e: real -> real, r: Registers, logit: real, v: Vec): (n: Registers)
    requires |v| == |r.acc|
    ensures |n.acc| == |r.acc|
  {
    var top := if r.m.MinusInfinity? || r.m.value < logit then logit else r.m.value;
    var alpha, beta := ExpBelow(e, r.m, top), e(logit - top);
    Registers(At(top), r.s * alpha + beta,
              seq(|r.acc|, d requires 0 <= d < |r.acc| => r.acc[d] * alpha + v[d] * beta))
  }

  function Start(hd: nat): Registers { Registers(MinusInfinity, 0.0, seq(hd, i => 0.0)) }

  predicate LogitsAndValues(ls: seq<real>, vs: seq<Vec>, hd: nat) {
    |vs| == |ls| && forall j :: 0 <= j < |vs| ==> |vs[j]| == hd
  }

  /** The registers after the first `n` positions. */
  function Fold(e: real -> real, ls: seq<real>, vs: seq<Vec>, hd: nat, n: nat): (r: Registers)
    requires LogitsAndValues(ls, vs, hd) && n <= |ls|
    ensures |r.acc| == hd
  {
    if n == 0 then Start(hd) else Rescaled(e, Fold(e, ls, vs, hd, n - 1), ls[n - 1], vs[n - 1])
  }

  /** The registers hold the maximum of the logits seen, and the two sums relative to it. */
  ghost predicate Online(e: real -> real, ls: seq<real>, vs: seq<Vec>, hd: nat, r: Registers) {
    && LogitsAndValues(ls, vs, hd) && |r.acc| == hd
    && (ls == [] ==> r.m == MinusInfinity && r.s == 0.0 && forall d :: 0 <= d < hd ==> r.acc[d] == 0.0)
    && (ls != [] ==> r.m == At(MaxOf(ls)) && r.s == Den(e, ls, r.m.value)
                     && forall d :: 0 <= d < hd ==> r.acc[d] == Num(e, ls, vs, r.m.value, d))
  }

  lemma OnlineStep(e: real -> real, ls: seq<real>, vs: seq<Vec>, hd: nat, r: Registers, logit: real, v: Vec)
    requires Exponential(e) && |v| == hd && Online(e, ls, vs, hd, r)
    ensures Online(e, ls + [logit], vs + [v], hd, Rescaled(e, r, logit, v))
  {
    var n := Rescaled(e, r, logit, v);
    StepMax(ls, r.m, logit, n.m.value);
    StepDen(e, ls, r.m, r.s, logit, n.m.value);
    forall d | 0 <= d < hd ensures n.acc[d] == Num(e, ls + [logit], vs + [v], n.m.value, d) {
      StepNum(e, ls, vs, r.m, r.acc[d], logit, v, n.m.value, d);
    }
    OnlineOf(e, ls + [logit], vs + [v], hd, n);
  }

  lemma OnlineOf(e: real -> real, ls: seq<real>, vs: seq<Vec>, hd: nat, r: Registers)
    requires ls != [] && LogitsAndValues(ls, vs, hd) && |r.acc| == hd
    requires r.m == At(MaxOf(ls)) && r.s == Den(e, ls, r.m.value)
    requires forall d :: 0 <= d < hd ==> r.acc[d] == Num(e, ls, vs, r.m.value, d)
    ensures Online(e, ls, vs, hd, r)
  {
  }

  /** One pass over the positions computes maximum, denominator and numerators. */
  lemma {:induction false} FoldIsOnline(e: real -> real, ls: seq<real>, vs: seq<Vec>, hd: nat, n: nat)
    requires Exponential(e) && LogitsAndValues(ls, vs, hd) && n <= |ls|
    ensures Online(e, ls[..n], vs[..n], hd, Fold(e, ls, vs, hd, n))
  {
    if n > 0 {
      FoldIsOnline(e, ls, vs, hd, n - 1);
      assert ls[..n] == ls[..n - 1] + [ls[n - 1]] && vs[..n] == vs[..n - 1] + [vs[n - 1]];
      OnlineStep(e, ls[..n - 1], vs[..n - 1], hd, Fold(e, ls, vs, hd, n - 1), ls[n - 1], vs[n - 1]);
    }
  }

  lemma StepMax(ls: seq<real>, m: Bound, logit: real, top: real)
    requires if ls == [] then m == MinusInfinity else m == At(MaxOf(ls))
    requires top == if m.MinusInfinity? || m.value < logit then logit else m.value
    ensures MaxOf(ls + [logit]) == top
  {
    assert (ls + [logit])[..|ls|] == ls;
  }

  lemma {:induction false} StepDen(e: real -> real, ls: seq<real>, m: Bound, s: real, logit: real, top: real)
    requires Exponential(e)
    requires if ls == [] then m == MinusInfinity && s == 0.0 else m.At? && s == Den(e, ls, m.value)
    ensures Den(e, ls + [logit], top) == s * ExpBelow(e, m, top) + e(logit - top)
  {
    assert (ls + [logit])[..|ls|] == ls;
    if ls != [] { DenShift(e, ls, m.value, top); }
  }

  lemma {:induction false} StepNum(e: real -> real, ls: seq<real>, vs: seq<Vec>, m: Bound, a: real, logit: real,
                                   v: Vec, top: real, d: nat)
    requires Exponential(e) && |vs| == |ls| && d < |v| && forall j :: 0 <= j < |vs| ==> d < |vs[j]|
    requires if ls == [] then m == MinusInfinity && a == 0.0 else m.At? && a == Num(e, ls, vs, m.value, d)
    ensures Num(e, ls + [logit], vs + [v], top, d) == a * ExpBelow(e, m, top) + v[d] * e(logit - top)
  {
    var ls1, vs1 := ls + [logit], vs + [v];
    assert ls1[..|ls|] == ls && vs1[..|ls|] == vs && ls1[|ls|] == logit && vs1[|ls|] == v;
    assert Num(e, ls1, vs1, top, d) == Num(e, ls, vs, top, d) + v[d] * e(logit - top);
    if ls == [] {
      assert a * ExpBelow(e, m, top) == 0.0;
    } else {
      NumShift(e, ls, vs, m.value, top, d);
    }
  }
}

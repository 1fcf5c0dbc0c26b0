/** Values and small facts shared by every layer of the engine. */
module Base {
  type Token = int

  datatype Option<+T> = None | Some(value: T)

  /** The seven states of a sequence. */
  datatype Status = Waiting | Prefill | Running | Finished | Rejected | Cancelled | TimedOut

  /** The tuning knobs the scheduler and the cache read.  `hash` stands for Python's
      built-in hash of a token tuple and is left uninterpreted. */
  datatype RawConfig = RawConfig(
    maxNumSeqs: int,
    maxNumBatchedTokens: int,
    maxNumPrefillTokens: int,
    chunkedPrefill: bool,
    chunkSize: int,
    blockSize: int,
    numBlocks: int,
    prefixCaching: bool,
    staticBatch: bool,
    hash: seq<Token> -> int)
  {
    /** The assertions made when a configuration is built. */
    predicate Valid() {
      && maxNumSeqs > 0
      && maxNumBatchedTokens > 0
      && maxNumPrefillTokens > 0
      && chunkSize > 0
      && blockSize > 0
      && numBlocks > 0
    }
  }

  type Config = c: RawConfig | c.Valid()
    witness RawConfig(4, 16, 16, true, 4, 4, 8, true, false, (ts: seq<Token>) => 0)

  function Min(a: int, b: int): int { if a <= b then a else b }

  function Max(a: int, b: int): int { if a >= b then a else b }

  /** The rounding-up quotient, written as the code writes it. */
  function CeilDiv(a: int, b: int): int
    requires b > 0
  {
    (a + b - 1) / b
  }

  lemma MulMono(a: int, b: int, k: int)
    requires a <= b && k >= 0
    ensures a * k <= b * k
  {
  }

  lemma MulOrder(a: int, b: int, k: int)
    requires k > 0
    ensures a <= b <==> a * k <= b * k
  {
    if a <= b { MulMono(a, b, k); } else { MulMono(b + 1, a, k); }
  }

  lemma DivModFacts(a: int, b: int)
    requires b > 0
    ensures a == (a / b) * b + a % b && 0 <= a % b < b
    ensures a >= 0 ==> a / b >= 0
  {
    MulOrder(0, a / b + 1, b);
    MulOrder(a / b + 1, 0, b);
  }

  /** Quotient and remainder are determined by their defining equation. */
  lemma DivModUnique(a: int, b: int, q: int, r: int)
    requires 0 <= r < b && a == q * b + r
    ensures a / b == q && a % b == r
  {
    DivModFacts(a, b);
    MulOrder(a / b + 1, q, b);
    MulOrder(q + 1, a / b, b);
  }

  /** `n` blocks of `b` positions hold `a` positions exactly when `n` is at least the
      rounding-up quotient. */
  lemma CeilDivCovers(a: int, b: int, n: int)
    requires b > 0
    ensures CeilDiv(a, b) <= n <==> a <= n * b
  {
    DivModFacts(a + b - 1, b);
    MulOrder(CeilDiv(a, b), n, b);
    MulOrder(n + 1, CeilDiv(a, b), b);
  }

  // ---------------------------------------------------------------- spans

  /** The number of positions in `n` blocks of `bs`, by repeated addition: it is n * bs, written
      so that proofs about tables and slots never meet a product of two variables. */
  function Span(bs: int, n: nat): int {
    if n == 0 then 0 else Span(bs, n - 1) + bs
  }

  lemma {:induction false} SpanIsProduct(bs: int, n: nat)
    ensures Span(bs, n) == n * bs
  {
    if n > 0 {
      SpanIsProduct(bs, n - 1);
      assert n * bs == (n - 1) * bs + bs;
    }
  }

  lemma {:induction false} SpanMono(bs: int, m: nat, n: nat)
    requires bs > 0
    ensures m <= n <==> Span(bs, m) <= Span(bs, n)
    ensures Span(bs, m) >= 0
  {
    SpanIsProduct(bs, m);
    SpanIsProduct(bs, n);
    MulOrder(m, n, bs);
    MulMono(0, m, bs);
  }

  lemma SpanCovers(a: int, bs: int, n: nat)
    requires bs > 0
    ensures CeilDiv(a, bs) <= n <==> a <= Span(bs, n)
  {
    SpanIsProduct(bs, n);
    CeilDivCovers(a, bs, n);
  }

  /** A position below the span of `n` blocks lies in one of them. */
  lemma BlockOfPosition(pos: nat, bs: int, n: nat)
    requires bs > 0
    ensures pos < Span(bs, n) <==> pos / bs < n
    ensures 0 <= pos / bs && 0 <= pos % bs < bs && pos == Span(bs, pos / bs) + pos % bs
  {
    DivModFacts(pos, bs);
    SpanIsProduct(bs, n);
    SpanIsProduct(bs, pos / bs);
    MulOrder(n, pos / bs, bs);
    MulOrder(pos / bs + 1, n, bs);
  }

  /** Block and offset can be read off a slot. */
  lemma SlotParts(bs: int, block: nat, offset: nat)
    requires bs > 0 && offset < bs
    ensures (Span(bs, block) + offset) / bs == block && (Span(bs, block) + offset) % bs == offset
    ensures Span(bs, block) + offset >= 0
  {
    SpanIsProduct(bs, block);
    SpanMono(bs, block, block);
    DivModUnique(Span(bs, block) + offset, bs, block, offset);
  }
}

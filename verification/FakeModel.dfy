/** The fake model, and what a request gets from it alone: a closed recursion over the length of
    the prompt, the block size and the vocabulary size that mentions no cache. */
module FakeModels {
  import opened Base

  function FakeKey(vocab: int, t: Token): int
    requires vocab > 0
  {
    (t * 7 + 3) % vocab
  }

  function FakeValue(vocab: int, t: Token): int
    requires vocab > 0
  {
    (t * 13 + 5) % vocab
  }

  function PrefillToken(vocab: int, t: Token): int
    requires vocab > 0
  {
    (t * 3 + 1) % vocab
  }

  function DecodeToken(vocab: int, prev: Token, bias: int): int
    requires vocab > 0
  {
    (prev + 7 + bias) % vocab
  }

  // ---------------------------------------------------------------- the text of one request

  /** The token whose key and value stand for position `pos`: the position itself inside the
      prompt, and from then on the output token that the decode at `pos` produced. */
  function LogToken(vocab: int, promptLen: nat, output: seq<Token>, pos: nat): Token
    requires vocab > 0
  {
    if pos < promptLen then pos % vocab
    else if pos - promptLen + 1 < |output| then output[pos - promptLen + 1]
    else 0
  }

  /** Keys and values of the positions `lo` to `hi` - 1, summed up without reduction. */
  function LogSum(vocab: int, promptLen: nat, output: seq<Token>, lo: nat, hi: nat): int
    requires vocab > 0
    decreases hi
  {
    if hi <= lo then 0
    else LogSum(vocab, promptLen, output, lo, hi - 1) + 20 * LogToken(vocab, promptLen, output, hi - 1) + 8
  }

  /** Where the logical block of position `pos` begins. */
  function BlockStart(bs: int, pos: nat): (lo: nat)
    requires bs > 0
    ensures lo <= pos < lo + bs
  {
    BlockOfPosition(pos, bs, pos / bs);
    SpanMono(bs, pos / bs, pos / bs);
    Span(bs, pos / bs)
  }

  /** The first `n` output tokens of a request with a prompt of `promptLen` tokens. */
  function FakeText(vocab: int, bs: int, promptLen: nat, n: nat): (text: seq<Token>)
    requires vocab > 0 && bs > 0 && promptLen > 0
    ensures |text| == n
    decreases n
  {
    if n == 0 then []
    else if n == 1 then [PrefillToken(vocab, promptLen - 1)]
    else
      var text := FakeText(vocab, bs, promptLen, n - 1);
      var end := promptLen + n - 2;
      text + [(text[n - 2] + 7 + LogSum(vocab, promptLen, text, BlockStart(bs, end - 1), end)) % vocab]
  }

  /** Shorter texts are prefixes of longer ones. */
  lemma {:induction false} FakeTextPrefix(vocab: int, bs: int, promptLen: nat, m: nat, n: nat)
    requires vocab > 0 && bs > 0 && promptLen > 0 && m <= n
    ensures FakeText(vocab, bs, promptLen, m) == FakeText(vocab, bs, promptLen, n)[..m]
    decreases n
  {
    if m < n {
      FakeTextPrefix(vocab, bs, promptLen, m, n - 1);
      if n >= 2 {
        assert FakeText(vocab, bs, promptLen, n)[..n - 1] == FakeText(vocab, bs, promptLen, n - 1);
      }
    }
  }

  // ---------------------------------------------------------------- what a block accumulates

  /** The numbers a block accumulates while the positions `lo` to `hi` - 1 are written to it. */
  function Accumulated(vocab: int, promptLen: nat, output: seq<Token>, lo: nat, hi: nat): seq<int>
    requires vocab > 0
    decreases hi
  {
    if hi <= lo then []
    else
      var t := LogToken(vocab, promptLen, output, hi - 1);
      Accumulated(vocab, promptLen, output, lo, hi - 1) + [FakeKey(vocab, t), FakeValue(vocab, t)]
  }

  function Sum(data: seq<int>): int
    decreases |data|
  {
    if data == [] then 0 else Sum(data[..|data| - 1]) + data[|data| - 1]
  }

  /** The bias a decode reads from a block. */
  function Bias(vocab: int, data: seq<int>): int
    requires vocab > 0
  {
    if data == [] then 0 else Sum(data) % vocab
  }

  lemma SumOfPair(data: seq<int>, a: int, b: int)
    ensures Sum(data + [a, b]) == Sum(data) + a + b
  {
    var all := data + [a, b];
    assert all[..|all| - 1] == data + [a];
    assert (data + [a])[..|data|] == data;
  }

  lemma ModAdd(vocab: int, a: int, b: int, k: int)
    requires vocab > 0 && a - b == k * vocab
    ensures a % vocab == b % vocab
  {
    DivModFacts(b, vocab);
    MulSplit(b / vocab, k, vocab);
    DivModUnique(a, vocab, b / vocab + k, b % vocab);
  }

  /** Reducing every single number or the whole sum comes to the same: the reduced numbers and
      the unreduced sum differ by a multiple of the vocabulary size. */
  lemma {:induction false} AccumulatedSum(vocab: int, promptLen: nat, output: seq<Token>, lo: nat,
                                          hi: nat) returns (k: int)
    requires vocab > 0
    ensures LogSum(vocab, promptLen, output, lo, hi)
         == Sum(Accumulated(vocab, promptLen, output, lo, hi)) + k * vocab
    decreases hi
  {
    if hi <= lo { return 0; }
    var j := AccumulatedSum(vocab, promptLen, output, lo, hi - 1);
    var t := LogToken(vocab, promptLen, output, hi - 1);
    SumOfPair(Accumulated(vocab, promptLen, output, lo, hi - 1), FakeKey(vocab, t), FakeValue(vocab, t));
    var c := PairSum(vocab, t);
    k := j + c;
    MulSplit(j, c, vocab);
  }

  lemma MulSplit(a: int, b: int, k: int)
    ensures (a + b) * k == a * k + b * k
  {
  }

  lemma PairSum(vocab: int, t: Token) returns (c: int)
    requires vocab > 0
    ensures FakeKey(vocab, t) + FakeValue(vocab, t) + c * vocab == 20 * t + 8
  {
    DivModFacts(t * 7 + 3, vocab);
    DivModFacts(t * 13 + 5, vocab);
    var a, b := (t * 7 + 3) / vocab, (t * 13 + 5) / vocab;
    c := a + b;
    MulSplit(a, b, vocab);
  }

  /** A decode that reads a block of the log produces the next token of the text. */
  lemma DecodeIsNext(vocab: int, bs: int, promptLen: nat, n: nat, data: seq<int>)
    requires vocab > 0 && bs > 0 && promptLen > 0 && n >= 1
    requires
      var end := promptLen + n - 1;
      data == Accumulated(vocab, promptLen, FakeText(vocab, bs, promptLen, n), BlockStart(bs, end - 1), end)
    ensures
      var text := FakeText(vocab, bs, promptLen, n);
      text + [DecodeToken(vocab, text[n - 1], Bias(vocab, data))] == FakeText(vocab, bs, promptLen, n + 1)
  {
    var text := FakeText(vocab, bs, promptLen, n);
    var end := promptLen + n - 1;
    var lo := BlockStart(bs, end - 1);
    var k := AccumulatedSum(vocab, promptLen, text, lo, end);
    DivModFacts(Sum(data), vocab);
    var total := text[n - 1] + 7 + LogSum(vocab, promptLen, text, lo, end);
    var q := Sum(data) / vocab;
    MulSplit(k, q, vocab);
    assert data != [];
    ModAdd(vocab, total, text[n - 1] + 7 + Bias(vocab, data), k + q);
  }

  // ---------------------------------------------------------------- blocks of a log

  /** What logical block `i` holds once `n` positions of the log are written. */
  function Content(vocab: int, bs: int, promptLen: nat, output: seq<Token>, n: int, i: nat): seq<int>
    requires vocab > 0 && bs > 0
  {
    SpanMono(bs, i, i);
    SpanMono(bs, i + 1, i + 1);
    Accumulated(vocab, promptLen, output, Span(bs, i), Max(0, Min(n, Span(bs, i + 1))))
  }

  /** Writing position `n` extends the block it lies in and no other. */
  lemma ContentGrows(vocab: int, bs: int, promptLen: nat, output: seq<Token>, n: nat, i: nat)
    requires vocab > 0 && bs > 0
    ensures
      var t := LogToken(vocab, promptLen, output, n);
      && 0 <= n / bs
      && Content(vocab, bs, promptLen, output, n + 1, i)
      == Content(vocab, bs, promptLen, output, n, i)
         + if i == n / bs then [FakeKey(vocab, t), FakeValue(vocab, t)] else []
  {
    BlockOfPosition(n, bs, i);
    BlockOfPosition(n, bs, i + 1);
    SpanMono(bs, i, i + 1);
  }

  /** Blocks beyond the written positions are empty. */
  lemma ContentBeyond(vocab: int, bs: int, promptLen: nat, output: seq<Token>, n: int, i: nat)
    requires vocab > 0 && bs > 0 && n <= Span(bs, i)
    ensures Content(vocab, bs, promptLen, output, n, i) == []
  {
    SpanMono(bs, i, i + 1);
  }

  /** Further output does not change what is written already. */
  lemma {:induction false} AccumulatedStable(vocab: int, promptLen: nat, a: seq<Token>, b: seq<Token>, lo: nat,
                                             hi: nat)
    requires vocab > 0 && a <= b && (hi <= promptLen || hi - promptLen < |a|)
    ensures Accumulated(vocab, promptLen, a, lo, hi) == Accumulated(vocab, promptLen, b, lo, hi)
    decreases hi
  {
    if lo < hi { AccumulatedStable(vocab, promptLen, a, b, lo, hi - 1); }
  }

  lemma ContentStable(vocab: int, bs: int, promptLen: nat, a: seq<Token>, b: seq<Token>, n: int, i: nat)
    requires vocab > 0 && bs > 0 && a <= b && (n <= promptLen || n - promptLen < |a|)
    ensures Content(vocab, bs, promptLen, a, n, i) == Content(vocab, bs, promptLen, b, n, i)
  {
    SpanMono(bs, i, i);
    SpanMono(bs, i + 1, i + 1);
    AccumulatedStable(vocab, promptLen, a, b, Span(bs, i), Max(0, Min(n, Span(bs, i + 1))));
  }
}

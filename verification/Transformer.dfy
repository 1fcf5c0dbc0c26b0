/** The reference semantics of generation: one request at a time, no cache.  Embedding,
    projections, attention and sampling are left uninterpreted; what matters is that the hidden
    state of a position depends on the keys and values of the positions up to it. */
module Transformer {
  import opened Base

  type Vec = seq<real>

  /** The keys and values of one token in one layer, one vector per kv head. */
  datatype KV = KV(key: seq<Vec>, value: seq<Vec>)

  /** embed: token to hidden state; project: layer, hidden state and position to keys and values;
      attend: layer, hidden state, position and visible entries to the next hidden state;
      sample: last hidden state to a token. */
  datatype Model = Model(
    layers: nat,
    embed: Token -> Vec,
    project: (nat, Vec, nat) -> KV,
    attend: (nat, Vec, nat, seq<KV>) -> Vec,
    sample: Vec -> Token)

  /** Hidden state entering layer `l` at position `p`. */
  function Hidden(m: Model, tokens: seq<Token>, l: nat, p: nat): Vec
    requires p < |tokens|
    decreases l, 0
  {
    if l == 0 then m.embed(tokens[p])
    else m.attend(l - 1, Hidden(m, tokens, l - 1, p), p, Entries(m, tokens, l - 1, p + 1))
  }

  function EntryAt(m: Model, tokens: seq<Token>, l: nat, j: nat): KV
    requires j < |tokens|
    decreases l, 1
  {
    m.project(l, Hidden(m, tokens, l, j), j)
  }

  /** The contiguous log of layer `l`: the entries of positions 0 to n - 1. */
  function Entries(m: Model, tokens: seq<Token>, l: nat, n: nat): (es: seq<KV>)
    requires n <= |tokens|
    ensures |es| == n
    ensures forall j :: 0 <= j < n ==> es[j] == EntryAt(m, tokens, l, j)
    decreases l, 2
  {
    seq(n, j requires 0 <= j < n => EntryAt(m, tokens, l, j))
  }

  function NextToken(m: Model, tokens: seq<Token>): Token
    requires |tokens| > 0
  {
    m.sample(Hidden(m, tokens, m.layers, |tokens| - 1))
  }

  /** Autoregressive generation of `n` tokens from a prompt, recomputed from scratch each time. */
  function Generate(m: Model, prompt: seq<Token>, n: nat): (o: seq<Token>)
    requires |prompt| > 0
    ensures |o| == n
  {
    if n == 0 then []
    else
      var o := Generate(m, prompt, n - 1);
      o + [NextToken(m, prompt + o)]
  }

  /** Causality: later tokens do not change the hidden state of a position. */
  lemma {:induction false} HiddenPrefix(m: Model, a: seq<Token>, b: seq<Token>, l: nat, p: nat)
    requires a <= b && p < |a|
    ensures Hidden(m, a, l, p) == Hidden(m, b, l, p)
    ensures EntryAt(m, a, l, p) == EntryAt(m, b, l, p)
    decreases l, 0
  {
    if l > 0 {
      HiddenPrefix(m, a, b, l - 1, p);
      EntriesPrefix(m, a, b, l - 1, p + 1);
    }
  }

  lemma {:induction false} EntriesPrefix(m: Model, a: seq<Token>, b: seq<Token>, l: nat, n: nat)
    requires a <= b && n <= |a|
    ensures Entries(m, a, l, n) == Entries(m, b, l, n)
    decreases l, 1
  {
    forall j | 0 <= j < n ensures Entries(m, a, l, n)[j] == Entries(m, b, l, n)[j] {
      HiddenPrefix(m, a, b, l, j);
    }
  }

  /** Shorter generations are prefixes of longer ones. */
  lemma {:induction false} GeneratePrefix(m: Model, prompt: seq<Token>, i: nat, n: nat)
    requires |prompt| > 0 && i <= n
    ensures Generate(m, prompt, i) <= Generate(m, prompt, n)
    decreases n - i
  {
    if i < n { GeneratePrefix(m, prompt, i, n - 1); }
  }
}

/** The cache write kernel over the flat four-dimensional buffer: one program per token, storing
    element by element, in any order. */
module FlatWrite {
  import opened Base
  import opened Transformer
  import opened PagedCache

  /** Blocks, kv heads, positions per block, head dimension. */
  datatype RawDims = Dims(blocks: nat, heads: nat, bs: nat, hd: nat)
  type Dims = g: RawDims | g.heads > 0 && g.bs > 0 && g.hd > 0 witness Dims(1, 1, 1, 1)

  // ---------------------------------------------------------------- the layout

  /** Where element d of head `head` of position `off` of block `block` lies in the buffer. */
  function Cell(g: Dims, block: nat, head: nat, off: nat, d: nat): int {
    Span(g.hd, Line(g, block, head, off)) + d
  }

  function Line(g: Dims, block: nat, head: nat, off: nat): (n: nat) {
    SpanMono(g.heads, block, block);
    SpanMono(g.bs, Span(g.heads, block) + head, 0);
    Span(g.bs, Span(g.heads, block) + head) + off
  }

  function Size(g: Dims): int { Span(g.hd, Lines(g)) }

  function Lines(g: Dims): (n: nat) {
    SpanMono(g.heads, g.blocks, 0);
    SpanMono(g.bs, Span(g.heads, g.blocks), 0);
    Span(g.bs, Span(g.heads, g.blocks))
  }

  predicate Inside(g: Dims, block: nat, head: nat, off: nat, d: nat) {
    block < g.blocks && head < g.heads && off < g.bs && d < g.hd
  }

  /** The strides as the kernel multiplies them out. */
  lemma CellFormula(g: Dims, block: nat, head: nat, off: nat, d: nat)
    ensures Cell(g, block, head, off, d) == block * g.heads * g.bs * g.hd + head * g.bs * g.hd + off * g.hd + d
  {
    SpanIsProduct(g.heads, block);
    SpanIsProduct(g.bs, Span(g.heads, block) + head);
    SpanIsProduct(g.hd, Line(g, block, head, off));
    assert (block * g.heads + head) * g.bs == block * g.heads * g.bs + head * g.bs;
    assert (block * g.heads * g.bs + head * g.bs + off) * g.hd
        == block * g.heads * g.bs * g.hd + head * g.bs * g.hd + off * g.hd;
  }

  lemma CellInRange(g: Dims, block: nat, head: nat, off: nat, d: nat)
    requires Inside(g, block, head, off, d)
    ensures 0 <= Cell(g, block, head, off, d) < Size(g)
  {
    SpanMono(g.heads, block, 0);
    SpanMono(g.heads, block + 1, g.blocks);
    LineInRange(g, Span(g.heads, block) + head, Span(g.heads, g.blocks), off);
    SpanMono(g.hd, Line(g, block, head, off) + 1, Lines(g));
    SpanMono(g.hd, Line(g, block, head, off), 0);
  }

  lemma LineInRange(g: Dims, row: nat, rows: nat, off: nat)
    requires row < rows && off < g.bs
    ensures Span(g.bs, row) + off < Span(g.bs, rows)
  {
    SpanMono(g.bs, row + 1, rows);
  }

  /** No two elements share a cell. */
  lemma CellInjective(g: Dims, b1: nat, h1: nat, o1: nat, d1: nat, b2: nat, h2: nat, o2: nat, d2: nat)
    requires h1 < g.heads && o1 < g.bs && d1 < g.hd && h2 < g.heads && o2 < g.bs && d2 < g.hd
    requires Cell(g, b1, h1, o1, d1) == Cell(g, b2, h2, o2, d2)
    ensures b1 == b2 && h1 == h2 && o1 == o2 && d1 == d2
  {
    SlotParts(g.hd, Line(g, b1, h1, o1), d1);
    SlotParts(g.hd, Line(g, b2, h2, o2), d2);
    SpanMono(g.heads, b1, 0);
    SpanMono(g.heads, b2, 0);
    SlotParts(g.bs, Span(g.heads, b1) + h1, o1);
    SlotParts(g.bs, Span(g.heads, b2) + h2, o2);
    SlotParts(g.heads, b1, h1);
    SlotParts(g.heads, b2, h2);
  }

  // ---------------------------------------------------------------- stores

  datatype Store = Store(at: int, value: real)

  /** Running stores one after the other. */
  function Apply(mem: seq<real>, ss: seq<Store>): (r: seq<real>)
    requires forall i :: 0 <= i < |ss| ==> 0 <= ss[i].at < |mem|
    ensures |r| == |mem|
    decreases |ss|
  {
    if ss == [] then mem
    else
      var k := |ss| - 1;
      Apply(mem, ss[..k])[ss[k].at := ss[k].value]
  }

  /** No two stores disagree about a cell. */
  ghost predicate Consistent(ss: seq<Store>) {
    forall s, t :: s in ss && t in ss && s.at == t.at ==> s.value == t.value
  }

  lemma {:induction false} ApplyLaw(mem: seq<real>, ss: seq<Store>)
    requires forall i :: 0 <= i < |ss| ==> 0 <= ss[i].at < |mem|
    requires Consistent(ss)
    ensures forall s :: s in ss ==> 0 <= s.at < |mem| && Apply(mem, ss)[s.at] == s.value
    ensures forall x :: 0 <= x < |mem| && (forall s :: s in ss ==> s.at != x) ==> Apply(mem, ss)[x] == mem[x]
    decreases |ss|
  {
    if ss != [] {
      var k := |ss| - 1;
      assert ss == ss[..k] + [ss[k]];
      ApplyLaw(mem, ss[..k]);
    }
  }

  /** Any order, and any repetition, of the same consistent stores leaves the same memory. */
  lemma OrderDoesNotMatter(mem: seq<real>, a: seq<Store>, b: seq<Store>)
    requires forall i :: 0 <= i < |a| ==> 0 <= a[i].at < |mem|
    requires Consistent(a) && forall s :: s in a <==> s in b
    ensures forall i :: 0 <= i < |b| ==> 0 <= b[i].at < |mem|
    ensures Apply(mem, a) == Apply(mem, b)
  {
    forall i | 0 <= i < |b| ensures 0 <= b[i].at < |mem| {
      assert b[i] in a;
    }
    ApplyLaw(mem, a);
    ApplyLaw(mem, b);
    forall x | 0 <= x < |mem| ensures Apply(mem, a)[x] == Apply(mem, b)[x] {
      if s :| s in a && s.at == x {
        assert s in b;
      }
    }
  }

  // ---------------------------------------------------------------- the programs

  /** The first `n` elements of one head vector. */
  function VectorStores(g: Dims, block: nat, head: nat, off: nat, vec: Vec, n: nat): (ss: seq<Store>)
    requires n <= |vec|
    ensures |ss| == n && forall d :: 0 <= d < n ==> ss[d] == Store(Cell(g, block, head, off, d), vec[d])
  {
    seq(n, d requires 0 <= d < n => Store(Cell(g, block, head, off, d), vec[d]))
  }

  predicate VectorsFit(g: Dims, vecs: seq<Vec>) {
    |vecs| == g.heads && forall h :: 0 <= h < |vecs| ==> |vecs[h]| == g.hd
  }

  /** The first `n` heads of one token. */
  function HeadStores(g: Dims, block: nat, off: nat, vecs: seq<Vec>, n: nat): seq<Store>
    requires n <= |vecs|
  {
    if n == 0 then []
    else HeadStores(g, block, off, vecs, n - 1) + VectorStores(g, block, n - 1, off, vecs[n - 1], |vecs[n - 1]|)
  }

  /** All stores of one program; slot -1 makes it return at once. */
  function ProgramStores(g: Dims, slot: int, vecs: seq<Vec>): seq<Store> {
    if slot < 0 then [] else HeadStores(g, slot / g.bs, slot % g.bs, vecs, |vecs|)
  }

  /** All stores of the grid, program after program. */
  function GridStores(g: Dims, slots: seq<int>, vecs: seq<seq<Vec>>): seq<Store>
    requires |vecs| == |slots|
    decreases |slots|
  {
    if slots == [] then []
    else
      var k := |slots| - 1;
      GridStores(g, slots[..k], vecs[..k]) + ProgramStores(g, slots[k], vecs[k])
  }

  /** The store of element d of head h of token t. */
  ghost predicate IsStore(g: Dims, slots: seq<int>, vecs: seq<seq<Vec>>, s: Store, t: nat, h: nat, d: nat) {
    && t < |slots| == |vecs| && slots[t] >= 0 && h < |vecs[t]| && d < |vecs[t][h]|
    && s == Store(Cell(g, slots[t] / g.bs, h, slots[t] % g.bs, d), vecs[t][h][d])
  }

  lemma {:induction false} HeadStoreOf(g: Dims, block: nat, off: nat, vecs: seq<Vec>, n: nat,
                                       s: Store) returns (h: nat, d: nat)
    requires n <= |vecs| && s in HeadStores(g, block, off, vecs, n)
    ensures h < n && d < |vecs[h]| && s == Store(Cell(g, block, h, off, d), vecs[h][d])
  {
    var last := VectorStores(g, block, n - 1, off, vecs[n - 1], |vecs[n - 1]|);
    if s in last {
      h := n - 1;
      d :| 0 <= d < |last| && last[d] == s;
    } else {
      h, d := HeadStoreOf(g, block, off, vecs, n - 1, s);
    }
  }

  lemma {:induction false} HeadStoreIn(g: Dims, block: nat, off: nat, vecs: seq<Vec>, n: nat, h: nat, d: nat)
    requires h < n <= |vecs| && d < |vecs[h]|
    ensures Store(Cell(g, block, h, off, d), vecs[h][d]) in HeadStores(g, block, off, vecs, n)
  {
    if h == n - 1 {
      assert VectorStores(g, block, h, off, vecs[h], |vecs[h]|)[d] == Store(Cell(g, block, h, off, d), vecs[h][d]);
    } else {
      HeadStoreIn(g, block, off, vecs, n - 1, h, d);
    }
  }

  /** Every store of the grid is the store of some element of some token that has a slot. */
  lemma {:induction false} GridStoreOf(g: Dims, slots: seq<int>, vecs: seq<seq<Vec>>, s: Store)
    returns (t: nat, h: nat, d: nat)
    requires |vecs| == |slots| && s in GridStores(g, slots, vecs)
    ensures IsStore(g, slots, vecs, s, t, h, d)
    decreases |slots|
  {
    var k := |slots| - 1;
    if s in ProgramStores(g, slots[k], vecs[k]) {
      t := k;
      DivModFacts(slots[k], g.bs);
      h, d := HeadStoreOf(g, slots[k] / g.bs, slots[k] % g.bs, vecs[k], |vecs[k]|, s);
    } else {
      t, h, d := GridStoreOf(g, slots[..k], vecs[..k], s);
    }
  }

  lemma {:induction false} GridStoreIn(g: Dims, slots: seq<int>, vecs: seq<seq<Vec>>, s: Store, t: nat, h: nat,
                                       d: nat)
    requires IsStore(g, slots, vecs, s, t, h, d)
    ensures s in GridStores(g, slots, vecs)
    decreases |slots|
  {
    var k := |slots| - 1;
    if t == k {
      DivModFacts(slots[k], g.bs);
      HeadStoreIn(g, slots[k] / g.bs, slots[k] % g.bs, vecs[k], |vecs[k]|, h, d);
    } else {
      GridStoreIn(g, slots[..k], vecs[..k], s, t, h, d);
    }
  }

  /** No slot but -1 occurs twice: what the wrapper asserts before it launches the grid. */
  predicate NoDuplicates(slots: seq<int>) {
    forall i, j :: 0 <= i < j < |slots| && slots[i] != -1 ==> slots[i] != slots[j]
  }

  ghost predicate GridOk(g: Dims, slots: seq<int>, vecs: seq<seq<Vec>>) {
    && |vecs| == |slots| && NoDuplicates(slots)
    && (forall t :: 0 <= t < |slots| ==> InPool(slots[t], Span(g.bs, g.blocks)))
    && (forall t :: 0 <= t < |slots| ==> VectorsFit(g, vecs[t]))
  }

  lemma StoreInRange(g: Dims, slots: seq<int>, vecs: seq<seq<Vec>>, s: Store, t: nat, h: nat, d: nat)
    requires GridOk(g, slots, vecs) && IsStore(g, slots, vecs, s, t, h, d)
    ensures 0 <= slots[t] / g.bs < g.blocks && 0 <= slots[t] % g.bs < g.bs && h < g.heads && d < g.hd
    ensures 0 <= s.at < Size(g)
  {
    assert InPool(slots[t], Span(g.bs, g.blocks)) && VectorsFit(g, vecs[t]);
    BlockOfPosition(slots[t], g.bs, g.blocks);
    CellInRange(g, slots[t] / g.bs, h, slots[t] % g.bs, d);
  }

  /** With duplicate-free slots the stores of different programs never touch one cell. */
  lemma GridConsistent(g: Dims, slots: seq<int>, vecs: seq<seq<Vec>>)
    requires GridOk(g, slots, vecs)
    ensures Consistent(GridStores(g, slots, vecs))
    ensures forall s :: s in GridStores(g, slots, vecs) ==> 0 <= s.at < Size(g)
  {
    var ss := GridStores(g, slots, vecs);
    forall s, u | s in ss && u in ss && s.at == u.at ensures s.value == u.value {
      var t1, h1, d1 := GridStoreOf(g, slots, vecs, s);
      var t2, h2, d2 := GridStoreOf(g, slots, vecs, u);
      SameCellSameStore(g, slots, vecs, s, t1, h1, d1, u, t2, h2, d2);
    }
    forall s | s in ss ensures 0 <= s.at < Size(g) {
      var t, h, d := GridStoreOf(g, slots, vecs, s);
      StoreInRange(g, slots, vecs, s, t, h, d);
    }
  }

  lemma SameCellSameStore(g: Dims, slots: seq<int>, vecs: seq<seq<Vec>>, s: Store, t1: nat, h1: nat, d1: nat,
                          u: Store, t2: nat, h2: nat, d2: nat)
    requires GridOk(g, slots, vecs) && s.at == u.at
    requires IsStore(g, slots, vecs, s, t1, h1, d1) && IsStore(g, slots, vecs, u, t2, h2, d2)
    ensures s == u
  {
    StoreInRange(g, slots, vecs, s, t1, h1, d1);
    StoreInRange(g, slots, vecs, u, t2, h2, d2);
    CellInjective(g, slots[t1] / g.bs, h1, slots[t1] % g.bs, d1, slots[t2] / g.bs, h2, slots[t2] % g.bs, d2);
    SameSlot(g.bs, slots[t1], slots[t2]);
  }

  // ---------------------------------------------------------------- against the reference

  /** The part of the entries one buffer holds: keys or values. */
  function PartsOf(entries: seq<KV>, pick: KV -> seq<Vec>): (vs: seq<seq<Vec>>)
    ensures |vs| == |entries| && forall i :: 0 <= i < |entries| ==> vs[i] == pick(entries[i])
  {
    seq(|entries|, i requires 0 <= i < |entries| => pick(entries[i]))
  }

  /** The buffer lays out the cache. */
  ghost predicate Lays(g: Dims, mem: seq<real>, cache: seq<KV>, pick: KV -> seq<Vec>) {
    && |mem| == Size(g) && |cache| == Span(g.bs, g.blocks)
    && forall s: nat :: s < |cache| ==> LaysSlot(g, mem, s, pick(cache[s]))
  }

  ghost predicate LaysSlot(g: Dims, mem: seq<real>, s: nat, vecs: seq<Vec>) {
    && VectorsFit(g, vecs) && 0 <= s / g.bs && 0 <= s % g.bs
    && forall h: nat, d: nat :: h < g.heads && d < g.hd ==>
         0 <= Cell(g, s / g.bs, h, s % g.bs, d) < |mem| && mem[Cell(g, s / g.bs, h, s % g.bs, d)] == vecs[h][d]
  }

  /** The reference keeps the last entry written to each slot; with distinct slots it is the only one. */
  lemma {:induction false} WriteAllLaw(cache: seq<KV>, slots: seq<int>, entries: seq<KV>)
    requires |slots| == |entries| && NoDuplicates(slots) && forall i :: 0 <= i < |slots| ==> InPool(slots[i], |cache|)
    ensures forall i :: 0 <= i < |slots| && slots[i] != -1 ==>
      0 <= slots[i] < |cache| && WriteAll(cache, slots, entries)[slots[i]] == entries[i]
    ensures forall s :: 0 <= s < |cache| && s !in slots ==> WriteAll(cache, slots, entries)[s] == cache[s]
    decreases |slots|
  {
    if slots != [] {
      var k := |slots| - 1;
      WriteAllLaw(cache, slots[..k], entries[..k]);
      WriteAllPrefix(cache, slots[..k], entries);
      assert slots == slots[..k] + [slots[k]];
      assert InPool(slots[k], |cache|);
    }
  }

  /** A slot some token names holds that token's vectors afterwards. */
  lemma NamedSlot(g: Dims, slots: seq<int>, vecs: seq<seq<Vec>>, mem: seq<real>, t: nat)
    requires GridOk(g, slots, vecs) && |mem| == Size(g) && t < |slots| && slots[t] >= 0
    ensures forall s :: s in GridStores(g, slots, vecs) ==> 0 <= s.at < |mem|
    ensures LaysSlot(g, Apply(mem, GridStores(g, slots, vecs)), slots[t], vecs[t])
  {
    var ss := GridStores(g, slots, vecs);
    GridConsistent(g, slots, vecs);
    ApplyLaw(mem, ss);
    assert VectorsFit(g, vecs[t]);
    DivModFacts(slots[t], g.bs);
    forall h: nat, d: nat | h < g.heads && d < g.hd
      ensures 0 <= Cell(g, slots[t] / g.bs, h, slots[t] % g.bs, d) < |mem|
      ensures Apply(mem, ss)[Cell(g, slots[t] / g.bs, h, slots[t] % g.bs, d)] == vecs[t][h][d]
    {
      var s := Store(Cell(g, slots[t] / g.bs, h, slots[t] % g.bs, d), vecs[t][h][d]);
      GridStoreIn(g, slots, vecs, s, t, h, d);
    }
  }

  /** A slot nobody names keeps every element. */
  lemma UnnamedSlot(g: Dims, slots: seq<int>, vecs: seq<seq<Vec>>, mem: seq<real>, slot: nat, old_: seq<Vec>)
    requires GridOk(g, slots, vecs) && |mem| == Size(g) && slot < Span(g.bs, g.blocks) && slot !in slots
    requires LaysSlot(g, mem, slot, old_)
    ensures forall s :: s in GridStores(g, slots, vecs) ==> 0 <= s.at < |mem|
    ensures LaysSlot(g, Apply(mem, GridStores(g, slots, vecs)), slot, old_)
  {
    var ss := GridStores(g, slots, vecs);
    GridConsistent(g, slots, vecs);
    ApplyLaw(mem, ss);
    DivModFacts(slot, g.bs);
    forall h: nat, d: nat | h < g.heads && d < g.hd
      ensures Apply(mem, ss)[Cell(g, slot / g.bs, h, slot % g.bs, d)] == mem[Cell(g, slot / g.bs, h, slot % g.bs, d)]
    {
      forall s | s in ss ensures s.at != Cell(g, slot / g.bs, h, slot % g.bs, d) {
        var t, h1, d1 := GridStoreOf(g, slots, vecs, s);
        StoreInRange(g, slots, vecs, s, t, h1, d1);
        if s.at == Cell(g, slot / g.bs, h, slot % g.bs, d) {
          CellInjective(g, slots[t] / g.bs, h1, slots[t] % g.bs, d1, slot / g.bs, h, slot % g.bs, d);
          SameSlot(g.bs, slots[t], slot);
        }
      }
    }
  }

  lemma GridIsReference(g: Dims, slots: seq<int>, entries: seq<KV>, pick: KV -> seq<Vec>, mem: seq<real>,
                        cache: seq<KV>)
    requires GridOk(g, slots, PartsOf(entries, pick)) && Lays(g, mem, cache, pick)
    ensures forall s :: s in GridStores(g, slots, PartsOf(entries, pick)) ==> 0 <= s.at < |mem|
    ensures forall i :: 0 <= i < |slots| ==> InPool(slots[i], |cache|)
    ensures Lays(g, Apply(mem, GridStores(g, slots, PartsOf(entries, pick))), WriteAll(cache, slots, entries), pick)
  {
    var vecs := PartsOf(entries, pick);
    GridConsistent(g, slots, vecs);
    var mem1, cache1 := Apply(mem, GridStores(g, slots, vecs)), WriteAll(cache, slots, entries);
    WriteAllLaw(cache, slots, entries);
    forall s: nat | s < |cache| ensures LaysSlot(g, mem1, s, pick(cache1[s])) {
      if s in slots {
        var t :| 0 <= t < |slots| && slots[t] == s;
        NamedSlot(g, slots, vecs, mem, t);
      } else {
        UnnamedSlot(g, slots, vecs, mem, s, pick(cache[s]));
      }
    }
  }

  /** The parallel write refines the sequential reference: however the stores of the grid are
      interleaved, the buffer afterwards lays out exactly the cache the reference loop leaves. */
  lemma ParallelWriteIsReference(g: Dims, slots: seq<int>, entries: seq<KV>, pick: KV -> seq<Vec>, mem: seq<real>,
                                 cache: seq<KV>, run: seq<Store>)
    requires GridOk(g, slots, PartsOf(entries, pick)) && Lays(g, mem, cache, pick)
    requires multiset(run) == multiset(GridStores(g, slots, PartsOf(entries, pick)))
    ensures forall i :: 0 <= i < |run| ==> 0 <= run[i].at < |mem|
    ensures forall i :: 0 <= i < |slots| ==> InPool(slots[i], |cache|)
    ensures Lays(g, Apply(mem, run), WriteAll(cache, slots, entries), pick)
  {
    var ss := GridStores(g, slots, PartsOf(entries, pick));
    GridConsistent(g, slots, PartsOf(entries, pick));
    GridIsReference(g, slots, entries, pick, mem, cache);
    forall s ensures s in ss <==> s in run {
      assert s in ss <==> s in multiset(ss);
      assert s in run <==> s in multiset(run);
    }
    OrderDoesNotMatter(mem, ss, run);
  }

  // ---------------------------------------------------------------- the kernel

  lemma {:induction false} ApplyAppend(mem: seq<real>, a: seq<Store>, b: seq<Store>)
    requires forall i :: 0 <= i < |a| ==> 0 <= a[i].at < |mem|
    requires forall i :: 0 <= i < |b| ==> 0 <= b[i].at < |mem|
    ensures Apply(mem, a + b) == Apply(Apply(mem, a), b)
    decreases |b|
  {
    if b == [] {
      assert a + b == a;
    } else {
      var k := |b| - 1;
      ApplyAppend(mem, a, b[..k]);
      assert (a + b)[..|a + b| - 1] == a + b[..k];
    }
  }

  /** One vector store of the kernel. */
  method StoreVector(mem: array<real>, g: Dims, block: nat, head: nat, off: nat, vec: Vec)
    requires mem.Length == Size(g) && |vec| == g.hd && block < g.blocks && head < g.heads && off < g.bs
    modifies mem
    ensures StoredTo(mem[..], old(mem[..]), VectorStores(g, block, head, off, vec, g.hd))
  {
    forall i: nat | i < g.hd ensures 0 <= Cell(g, block, head, off, i) < mem.Length {
      CellInRange(g, block, head, off, i);
    }
    ghost var before := mem[..];
    for d := 0 to g.hd
      invariant mem[..] == Apply(before, VectorStores(g, block, head, off, vec, d))
    {
      ghost var ss := VectorStores(g, block, head, off, vec, d + 1);
      assert ss[..d] == VectorStores(g, block, head, off, vec, d);
      mem[Cell(g, block, head, off, d)] := vec[d];
      assert Apply(before, ss) == Apply(before, ss[..d])[ss[d].at := ss[d].value];
    }
  }

  /** The store of one kv head, after those before it. */
  method StoreHead(mem: array<real>, g: Dims, block: nat, off: nat, vecs: seq<Vec>, head: nat, next: nat,
                   ghost before: seq<real>)
    requires mem.Length == Size(g) == |before| && VectorsFit(g, vecs)
    requires block < g.blocks && off < g.bs && head < g.heads
    requires next == head + 1
    requires StoredTo(mem[..], before, HeadStores(g, block, off, vecs, head))
    modifies mem
    ensures StoredTo(mem[..], before, HeadStores(g, block, off, vecs, next))
  {
    ghost var now := mem[..];
    StoreVector(mem, g, block, head, off, vecs[head]);
    HeadStored(g, block, off, vecs, head, next, before, now, mem[..]);
  }

  lemma HeadStored(g: Dims, block: nat, off: nat, vecs: seq<Vec>, head: nat, next: nat, before: seq<real>,
                   now: seq<real>, after: seq<real>)
    requires head < |vecs| && next == head + 1 && |vecs[head]| == g.hd && |now| == |before|
    requires StoredTo(now, before, HeadStores(g, block, off, vecs, head))
    requires StoredTo(after, now, VectorStores(g, block, head, off, vecs[head], g.hd))
    ensures StoredTo(after, before, HeadStores(g, block, off, vecs, next))
  {
    ApplyAppend(before, HeadStores(g, block, off, vecs, head), VectorStores(g, block, head, off, vecs[head], g.hd));
  }

  /** The stores `ss` turn `before` into `mem`. */
  ghost predicate StoredTo(mem: seq<real>, before: seq<real>, ss: seq<Store>) {
    (forall s :: s in ss ==> 0 <= s.at < |before|) && mem == Apply(before, ss)
  }

  /** One program: the token's block and offset, then per kv head one vector store into each of the
      two buffers. */
  method WriteProgram(keys: array<real>, values: array<real>, g: Dims, slot: int, key: seq<Vec>, value: seq<Vec>)
    requires keys != values && keys.Length == values.Length == Size(g)
    requires InPool(slot, Span(g.bs, g.blocks)) && VectorsFit(g, key) && VectorsFit(g, value)
    modifies keys, values
    ensures StoredTo(keys[..], old(keys[..]), ProgramStores(g, slot, key))
    ensures StoredTo(values[..], old(values[..]), ProgramStores(g, slot, value))
  {
    if slot == -1 { return; }
    BlockOfPosition(slot, g.bs, g.blocks);
    var block, off := slot / g.bs, slot % g.bs;
    ghost var keys0, values0 := keys[..], values[..];
    var head := 0;
    while head < g.heads
      invariant 0 <= head <= g.heads
      invariant StoredTo(keys[..], keys0, HeadStores(g, block, off, key, head))
      invariant StoredTo(values[..], values0, HeadStores(g, block, off, value, head))
    {
      var next := head + 1;
      StoreHead(keys, g, block, off, key, head, next, keys0);
      StoreHead(values, g, block, off, value, head, next, values0);
      head := next;
    }
  }

  /** The stores of the programs in the order they happen to run. */
  function RunStores(g: Dims, slots: seq<int>, vecs: seq<seq<Vec>>, order: seq<nat>): seq<Store>
    requires |vecs| == |slots| && forall i :: 0 <= i < |order| ==> order[i] < |slots|
    decreases |order|
  {
    if order == [] then []
    else
      var k := |order| - 1;
      RunStores(g, slots, vecs, order[..k]) + ProgramStores(g, slots[order[k]], vecs[order[k]])
  }

  lemma {:induction false} ProgramInGrid(g: Dims, slots: seq<int>, vecs: seq<seq<Vec>>, t: nat, s: Store)
    requires |vecs| == |slots| && t < |slots| && s in ProgramStores(g, slots[t], vecs[t])
    ensures s in GridStores(g, slots, vecs)
  {
    DivModFacts(slots[t], g.bs);
    var h, d := HeadStoreOf(g, slots[t] / g.bs, slots[t] % g.bs, vecs[t], |vecs[t]|, s);
    GridStoreIn(g, slots, vecs, s, t, h, d);
  }

  lemma {:induction false} RunInGrid(g: Dims, slots: seq<int>, vecs: seq<seq<Vec>>, order: seq<nat>, s: Store)
    requires |vecs| == |slots| && forall i :: 0 <= i < |order| ==> order[i] < |slots|
    requires s in RunStores(g, slots, vecs, order)
    ensures s in GridStores(g, slots, vecs)
    decreases |order|
  {
    var k := |order| - 1;
    if s in ProgramStores(g, slots[order[k]], vecs[order[k]]) {
      ProgramInGrid(g, slots, vecs, order[k], s);
    } else {
      RunInGrid(g, slots, vecs, order[..k], s);
    }
  }

  lemma {:induction false} ProgramInRun(g: Dims, slots: seq<int>, vecs: seq<seq<Vec>>, order: seq<nat>, t: nat,
                                        s: Store)
    requires |vecs| == |slots| && forall i :: 0 <= i < |order| ==> order[i] < |slots|
    requires t in order && s in ProgramStores(g, slots[t], vecs[t])
    ensures s in RunStores(g, slots, vecs, order)
    decreases |order|
  {
    var k := |order| - 1;
    if order[k] != t {
      assert order == order[..k] + [order[k]];
      ProgramInRun(g, slots, vecs, order[..k], t, s);
    }
  }

  lemma {:induction false} GridInProgram(g: Dims, slots: seq<int>, vecs: seq<seq<Vec>>, s: Store) returns (t: nat)
    requires |vecs| == |slots| && s in GridStores(g, slots, vecs)
    ensures t < |slots| && s in ProgramStores(g, slots[t], vecs[t])
    decreases |slots|
  {
    var k := |slots| - 1;
    if s in ProgramStores(g, slots[k], vecs[k]) {
      t := k;
    } else {
      t := GridInProgram(g, slots[..k], vecs[..k], s);
    }
  }

  /** Running every program, in whatever order, is running the grid. */
  lemma AnyOrderOfPrograms(g: Dims, slots: seq<int>, vecs: seq<seq<Vec>>, order: seq<nat>, mem: seq<real>)
    requires GridOk(g, slots, vecs) && |mem| == Size(g)
    requires (forall i :: 0 <= i < |order| ==> order[i] < |slots|) && (forall t: nat :: t < |slots| ==> t in order)
    ensures forall s :: s in GridStores(g, slots, vecs) ==> 0 <= s.at < |mem|
    ensures forall s :: s in RunStores(g, slots, vecs, order) ==> 0 <= s.at < |mem|
    ensures Apply(mem, RunStores(g, slots, vecs, order)) == Apply(mem, GridStores(g, slots, vecs))
  {
    var ss, run := GridStores(g, slots, vecs), RunStores(g, slots, vecs, order);
    GridConsistent(g, slots, vecs);
    forall s ensures s in ss <==> s in run {
      if s in ss {
        var t := GridInProgram(g, slots, vecs, s);
        ProgramInRun(g, slots, vecs, order, t, s);
      }
      if s in run { RunInGrid(g, slots, vecs, order, s); }
    }
    OrderDoesNotMatter(mem, ss, run);
  }

  /** Counting distinct slots, the way the wrapper detects duplicates. */
  method HasDuplicates(slots: seq<int>) returns (duplicates: bool)
    ensures duplicates <==> !NoDuplicates(slots)
  {
    var seen: set<int> := {};
    for i := 0 to |slots|
      invariant NoDuplicates(slots[..i]) && forall x :: x in seen <==> x in slots[..i] && x != -1
    {
      assert slots[..i + 1] == slots[..i] + [slots[i]];
      if slots[i] != -1 && slots[i] in seen {
        var j :| 0 <= j < i && slots[..i][j] == slots[i];
        assert slots[j] == slots[i];
        return true;
      }
      if slots[i] != -1 { seen := seen + {slots[i]}; }
    }
    assert slots[..|slots|] == slots;
    duplicates := false;
  }

  lemma ProgramsSoFar(g: Dims, slots: seq<int>, vecs: seq<seq<Vec>>, order: seq<nat>, i: nat, mem0: seq<real>,
                      mem: seq<real>, after: seq<real>)
    requires |vecs| == |slots| && (forall k :: 0 <= k < |order| ==> order[k] < |slots|) && i < |order|
    requires StoredTo(mem, mem0, RunStores(g, slots, vecs, order[..i]))
    requires |mem| == |mem0| && StoredTo(after, mem, ProgramStores(g, slots[order[i]], vecs[order[i]]))
    ensures StoredTo(after, mem0, RunStores(g, slots, vecs, order[..i + 1]))
  {
    assert order[..i + 1][..i] == order[..i];
    ApplyAppend(mem0, RunStores(g, slots, vecs, order[..i]), ProgramStores(g, slots[order[i]], vecs[order[i]]));
  }

  /** After every program has run, in whatever order, the buffer lays out what the reference loop
      leaves. */
  lemma AllProgramsAreReference(g: Dims, slots: seq<int>, entries: seq<KV>, pick: KV -> seq<Vec>, order: seq<nat>,
                                mem0: seq<real>, mem: seq<real>, cache: seq<KV>)
    requires GridOk(g, slots, PartsOf(entries, pick)) && Lays(g, mem0, cache, pick)
    requires (forall i :: 0 <= i < |order| ==> order[i] < |slots|) && (forall t: nat :: t < |slots| ==> t in order)
    requires StoredTo(mem, mem0, RunStores(g, slots, PartsOf(entries, pick), order))
    ensures forall i :: 0 <= i < |slots| ==> InPool(slots[i], |cache|)
    ensures Lays(g, mem, WriteAll(cache, slots, entries), pick)
  {
    AnyOrderOfPrograms(g, slots, PartsOf(entries, pick), order, mem0);
    GridIsReference(g, slots, entries, pick, mem0, cache);
  }

  function KeyOf(kv: KV): seq<Vec> { kv.key }

  function ValueOf(kv: KV): seq<Vec> { kv.value }

  /** What the launch is given: two buffers laying out one cache, entries of the right shape, and an
      order in which the programs happen to run. */
  ghost predicate LaunchOk(g: Dims, keys: seq<real>, values: seq<real>, cache: seq<KV>, slots: seq<int>,
                           entries: seq<KV>, order: seq<nat>) {
    && Lays(g, keys, cache, KeyOf) && Lays(g, values, cache, ValueOf) && |entries| == |slots|
    && (forall t :: 0 <= t < |slots| ==> InPool(slots[t], Span(g.bs, g.blocks)))
    && (forall t :: 0 <= t < |slots| ==> VectorsFit(g, entries[t].key) && VectorsFit(g, entries[t].value))
    && (forall i :: 0 <= i < |order| ==> order[i] < |slots|) && (forall t: nat :: t < |slots| ==> t in order)
  }

  lemma GridsOk(g: Dims, keys: seq<real>, values: seq<real>, cache: seq<KV>, slots: seq<int>, entries: seq<KV>,
                order: seq<nat>)
    requires LaunchOk(g, keys, values, cache, slots, entries, order) && NoDuplicates(slots)
    ensures GridOk(g, slots, PartsOf(entries, KeyOf)) && GridOk(g, slots, PartsOf(entries, ValueOf))
    ensures StoredTo(keys, keys, []) && StoredTo(values, values, [])
  {
  }

  /** Every program once, in the given order. */
  method RunPrograms(keys: array<real>, values: array<real>, g: Dims, slots: seq<int>, entries: seq<KV>,
                     order: seq<nat>)
    requires keys != values && keys.Length == values.Length == Size(g) && |entries| == |slots|
    requires GridOk(g, slots, PartsOf(entries, KeyOf)) && GridOk(g, slots, PartsOf(entries, ValueOf))
    requires forall i :: 0 <= i < |order| ==> order[i] < |slots|
    modifies keys, values
    ensures StoredTo(keys[..], old(keys[..]), RunStores(g, slots, PartsOf(entries, KeyOf), order))
    ensures StoredTo(values[..], old(values[..]), RunStores(g, slots, PartsOf(entries, ValueOf), order))
  {
    ghost var keys0, values0, ks, vs := keys[..], values[..], PartsOf(entries, KeyOf), PartsOf(entries, ValueOf);
    for i := 0 to |order|
      invariant StoredTo(keys[..], keys0, RunStores(g, slots, ks, order[..i]))
      invariant StoredTo(values[..], values0, RunStores(g, slots, vs, order[..i]))
    {
      ghost var keys1, values1 := keys[..], values[..];
      var t := order[i];
      assert ks[t] == entries[t].key && vs[t] == entries[t].value;
      WriteProgram(keys, values, g, slots[t], entries[t].key, entries[t].value);
      ProgramsSoFar(g, slots, ks, order, i, keys0, keys1, keys[..]);
      ProgramsSoFar(g, slots, vs, order, i, values0, values1, values[..]);
    }
    assert order[..|order|] == order;
  }

  /** The launch: refused, with both buffers untouched, when a slot occurs twice; otherwise one
      program per token, in an order nobody controls, leaves in both buffers the cache that the
      sequential reference leaves. */
  method CacheWrite(keys: array<real>, values: array<real>, g: Dims, slots: seq<int>, entries: seq<KV>,
                    order: seq<nat>, ghost cache: seq<KV>)
    returns (launched: bool)
    requires keys != values && LaunchOk(g, keys[..], values[..], cache, slots, entries, order)
    modifies keys, values
    ensures launched <==> NoDuplicates(slots)
    ensures !launched ==> keys[..] == old(keys[..]) && values[..] == old(values[..])
    ensures forall i :: 0 <= i < |slots| ==> InPool(slots[i], |cache|)
    ensures launched ==> Lays(g, keys[..], WriteAll(cache, slots, entries), KeyOf)
    ensures launched ==> Lays(g, values[..], WriteAll(cache, slots, entries), ValueOf)
  {
    var duplicates := HasDuplicates(slots);
    if duplicates { return false; }
    ghost var keys0, values0 := keys[..], values[..];
    GridsOk(g, keys0, values0, cache, slots, entries, order);
    RunPrograms(keys, values, g, slots, entries, order);
    AllProgramsAreReference(g, slots, entries, KeyOf, order, keys0, keys[..], cache);
    AllProgramsAreReference(g, slots, entries, ValueOf, order, values0, values[..], cache);
    launched := true;
  }
}

/** Allocating blocks for everything a step is going to write, before the model input is built. */
module Preparation {
  import opened Base
  import opened BlockSpec
  import opened BlockCoverage
  import opened Requests
  import opened EngineSpec
  import opened BlockManagement

  /** Ensuring the positions from `pos` on comes to `goal`. */
  ghost predicate Leads(cfg: Config, b: Blocks, r: Request, pos: nat, end: nat, goal: Outcome<Blocks>) {
    WellFormed(b) && pos <= end && EnsureRange(cfg, b, r.id, r.prompt, pos, end) == goal
  }

  lemma OnePosition(cfg: Config, b: Blocks, r: Request, pos: nat, end: nat, goal: Outcome<Blocks>, o: Outcome<Blocks>)
    requires Leads(cfg, b, r, pos, end, goal) && pos < end && o == EnsureBlock(cfg, b, r.id, r.prompt, pos)
    ensures if o.Oom? then goal == o else Leads(cfg, o.state, r, pos + 1, end, goal)
  {
  }

  /** One position. */
  method EnsureNext(manager: BlockManager, r: Request, pos: nat, next: nat, end: nat,
                    ghost goal: Outcome<Blocks>) returns (ok: bool)
    requires manager.Valid() && pos < end && next == pos + 1 && Leads(manager.cfg, manager.state, r, pos, end, goal)
    modifies manager`tables, manager`state, manager.allocator, manager.prefixCache, manager.tables.Values
    ensures manager.Valid() && manager.Grew()
    ensures if ok then Leads(manager.cfg, manager.state, r, next, end, goal) else goal == Oom(manager.state)
  {
    ghost var o := EnsureBlock(manager.cfg, manager.state, r.id, r.prompt, pos);
    OnePosition(manager.cfg, manager.state, r, pos, end, goal, o);
    var pid := manager.EnsureBlock(r.id, r.prompt, pos);
    ok := pid.Some?;
  }

  /** Positions `start` to `end` - 1 of one sequence, one by one; false when the pool runs dry. */
  method EnsurePositions(manager: BlockManager, r: Request, start: nat, end: nat,
                         ghost goal: Outcome<Blocks>) returns (ok: bool)
    requires manager.Valid() && Leads(manager.cfg, manager.state, r, start, end, goal)
    modifies manager`tables, manager`state, manager.allocator, manager.prefixCache, manager.tables.Values
    ensures manager.Valid() && manager.Grew()
    ensures manager.state == goal.state && ok == goal.Ok?
  {
    var pos := start;
    while pos < end
      invariant start <= pos <= end && manager.Valid() && manager.Grew()
      invariant Leads(manager.cfg, manager.state, r, pos, end, goal)
    {
      var next := pos + 1;
      var done := EnsureNext(manager, r, pos, next, end, goal);
      if !done { return false; }
      pos := next;
    }
    ok := true;
  }

  lemma RangeOfSequence(cfg: Config, b: Blocks, r: Request, start: int, end: int, goal: Outcome<Blocks>)
    requires WellFormed(b) && Lively(r) && start == KvLen(r) && end == NextEnd(cfg, r) && goal == EnsureSeq(cfg, b, r)
    ensures 0 <= start <= end && Leads(cfg, b, r, start, end, goal)
  {
    LivelyCost(cfg, r);
  }

  /** The chunk of a prefill, or the one position of a decode. */
  method EnsureSequence(manager: BlockManager, r: Request, ghost goal: Outcome<Blocks>) returns (ok: bool)
    requires manager.Valid() && Lively(r) && goal == EnsureSeq(manager.cfg, manager.state, r)
    modifies manager`tables, manager`state, manager.allocator, manager.prefixCache, manager.tables.Values
    ensures manager.Valid() && manager.Grew()
    ensures manager.state == goal.state && ok == goal.Ok?
  {
    var start, end: int;
    if r.status == Prefill {
      start, end := r.cursor, Min(r.cursor + manager.cfg.chunkSize, |r.prompt|);
    } else {
      start := |r.prompt| + r.generated - 1;
      end := start + 1;
    }
    RangeOfSequence(manager.cfg, manager.state, r, start, end, goal);
    ok := EnsurePositions(manager, r, start, end, goal);
  }

  lemma EnsureOneFurther(cfg: Config, b: Blocks, rs: seq<Request>, i: nat)
    requires WellFormed(b) && i < |rs|
    ensures
      var o := EnsureAll(cfg, b, rs[..i]);
      EnsureAll(cfg, b, rs[..i + 1]) == if o.Oom? then o else EnsureSeq(cfg, o.state, rs[i])
  {
    assert rs[..i + 1][..i] == rs[..i];
  }

  lemma {:induction false} OomIsFinal(cfg: Config, b: Blocks, rs: seq<Request>, i: nat)
    requires WellFormed(b) && i <= |rs| && EnsureAll(cfg, b, rs[..i]).Oom?
    ensures EnsureAll(cfg, b, rs) == EnsureAll(cfg, b, rs[..i])
    decreases |rs|
  {
    if i == |rs| {
      assert rs[..i] == rs;
    } else {
      assert rs[..|rs| - 1][..i] == rs[..i];
      OomIsFinal(cfg, b, rs[..|rs| - 1], i);
    }
  }

  /** Allocating for the first `i` of the batch has succeeded and led to `b`. */
  ghost predicate EnsuredTo(cfg: Config, b0: Blocks, all: seq<Request>, i: nat, b: Blocks) {
    WellFormed(b0) && i <= |all| && EnsureAll(cfg, b0, all[..i]) == Ok(b)
  }

  lemma OneSequence(cfg: Config, b0: Blocks, all: seq<Request>, i: nat, b: Blocks, goal: Outcome<Blocks>)
    requires EnsuredTo(cfg, b0, all, i, b) && i < |all| && WellFormed(b) && goal == EnsureSeq(cfg, b, all[i])
    ensures if goal.Oom? then EnsureAll(cfg, b0, all) == goal else EnsuredTo(cfg, b0, all, i + 1, goal.state)
  {
    EnsureOneFurther(cfg, b0, all, i);
    if goal.Oom? { OomIsFinal(cfg, b0, all, i + 1); }
  }

  /** The whole batch, prefills first.  Running out of blocks stops at once. */
  method EnsureBlocks(manager: BlockManager, prefills: seq<Request>, decodes: seq<Request>,
                      ghost goal: Outcome<Blocks>) returns (ok: bool)
    requires manager.Valid() && goal == EnsureAll(manager.cfg, manager.state, prefills + decodes)
    requires forall r :: r in prefills + decodes ==> Lively(r)
    modifies manager`tables, manager`state, manager.allocator, manager.prefixCache, manager.tables.Values
    ensures manager.Valid() && manager.Grew()
    ensures manager.state == goal.state && ok == goal.Ok?
  {
    var all := prefills + decodes;
    ghost var b0 := manager.state;
    for i := 0 to |all|
      invariant manager.Valid() && manager.Grew()
      invariant EnsuredTo(manager.cfg, b0, all, i, manager.state)
    {
      ghost var o := EnsureSeq(manager.cfg, manager.state, all[i]);
      OneSequence(manager.cfg, b0, all, i, manager.state, o);
      var done := EnsureSequence(manager, all[i], o);
      if !done { return false; }
    }
    assert all[..|all|] == all;
    ok := true;
  }
}

/** Who is admitted: first come, first served within the room that is left, nobody held back for any
    other reason, and in static batches nobody while somebody runs.  Stated of the pools that a
    scheduling iteration leaves, by arithmetic on seats and tokens alone. */
module Fairness {
  import opened Base
  import opened BlockSpec
  import opened BlockCoverage
  import opened Requests
  import opened ScheduleSpec
  import opened EngineSpec
  import opened EngineLaws
  import opened StepLaws

  // ---------------------------------------------------------------- what a request asks for

  /** Prompt tokens that have to be computed when `w` is taken. */
  function Uncached(cfg: Config, b: Blocks, w: Request): nat
    requires WellFormed(b)
  {
    |w.prompt| - ProbedTokens(cfg, b, w.prompt)
  }

  /** The tokens `w` needs in its first step; a prompt cached completely repeats its last chunk. */
  function FirstChunk(cfg: Config, b: Blocks, w: Request): int
    requires WellFormed(b)
  {
    if Uncached(cfg, b, w) == 0 then Min(cfg.chunkSize, |w.prompt|)
    else if cfg.chunkedPrefill then Min(cfg.chunkSize, Uncached(cfg, b, w))
    else Uncached(cfg, b, w)
  }

  /** `w` as a running request: its prompt starts after the cached part, or with the repeated chunk. */
  function Entered(cfg: Config, b: Blocks, w: Request): Request
    requires WellFormed(b)
  {
    w.(status := Prefill,
       cursor := if Uncached(cfg, b, w) == 0 then |w.prompt| - Min(cfg.chunkSize, |w.prompt|)
                 else ProbedTokens(cfg, b, w.prompt))
  }

  function AllEntered(cfg: Config, b: Blocks, ws: seq<Request>): (rs: seq<Request>)
    requires WellFormed(b)
    ensures |rs| == |ws| && forall i :: 0 <= i < |ws| ==> rs[i] == Entered(cfg, b, ws[i])
  {
    seq(|ws|, i requires 0 <= i < |ws| => Entered(cfg, b, ws[i]))
  }

  function ChunkSum(cfg: Config, b: Blocks, ws: seq<Request>): int
    requires WellFormed(b)
    decreases |ws|
  {
    if ws == [] then 0 else ChunkSum(cfg, b, ws[..|ws| - 1]) + FirstChunk(cfg, b, ws[|ws| - 1])
  }

  lemma AskedFor(cfg: Config, b: Blocks, w: Request)
    requires WellFormed(b)
    ensures FirstChunk(cfg, b, w) == AdmissionCharge(cfg, |w.prompt|, ProbedTokens(cfg, b, w.prompt))
    ensures Entered(cfg, b, w) == Admitted(cfg, b, w)
    ensures FirstChunk(cfg, b, w) >= 0
  {
  }

  // ---------------------------------------------------------------- admission leaves probes alone

  /** Two states in which every prompt finds the same prefix cached. */
  ghost predicate SameHits(b: Blocks, r: Blocks) {
    && WellFormed(b) && WellFormed(r) && b.cache == r.cache && |b.pool.refs| == |r.pool.refs|
    && forall p :: 0 <= p < |b.pool.refs| ==> (b.pool.refs[p] > 0 <==> r.pool.refs[p] > 0)
  }

  lemma SameRequests(cfg: Config, b: Blocks, r: Blocks, w: Request)
    requires SameHits(b, r)
    ensures ProbedTokens(cfg, b, w.prompt) == ProbedTokens(cfg, r, w.prompt)
  {
    ProbeStable(b, r, BlockHashes(cfg, w.prompt));
  }

  lemma {:induction false} SharingKeepsHits(b: Blocks, id: nat, hs: seq<int>)
    requires WellFormed(b) && id in b.tables
    ensures SameHits(b, ShareAll(b, id, hs))
    decreases |hs|
  {
    if hs != [] && Usable(b, hs[0]) {
      var b1 := ShareBlock(b, id, b.cache[hs[0]]);
      SharingKeepsHits(b1, id, hs[1..]);
    }
  }

  lemma RegisteringKeepsHits(cfg: Config, b: Blocks, id: nat, prompt: seq<Token>)
    requires WellFormed(b)
    ensures SameHits(b, AllocateForSeq(cfg, b, id, prompt))
  {
    var b0 := b.(tables := b.tables[id := []]);
    if cfg.prefixCaching {
      var hs := BlockHashes(cfg, prompt);
      SharingKeepsHits(b0.(hashes := b0.hashes[id := hs]), id, hs);
    }
  }

  lemma {:induction false} AdmissionKeepsHits(cfg: Config, a: Admission, rs: seq<Request>)
    requires WellFormed(a.blocks)
    ensures SameHits(a.blocks, AdmitAll(cfg, a, rs).blocks)
    decreases |rs|
  {
    if rs != [] {
      var mid, r := AdmitAll(cfg, a, rs[..|rs| - 1]), rs[|rs| - 1];
      AdmissionKeepsHits(cfg, a, rs[..|rs| - 1]);
      RegisteringKeepsHits(cfg, mid.blocks, r.id, r.prompt);
      assert AdmitAll(cfg, a, rs) == AdmitOne(cfg, mid, r);
      SameHitsTrans(a.blocks, mid.blocks, AdmitOne(cfg, mid, r).blocks);
    }
  }

  lemma SameHitsTrans(a: Blocks, b: Blocks, c: Blocks)
    requires SameHits(a, b) && (SameHits(b, c) || c == b)
    ensures SameHits(a, c)
  {
  }

  // ---------------------------------------------------------------- one pass over the waiting pool

  /** The pools of the loop only grow. */
  lemma {:induction false} PoolsGrow(cfg: Config, a: Admission, rs: seq<Request>, k: nat)
    requires WellFormed(a.blocks) && k <= |rs|
    ensures AdmitAll(cfg, a, rs[..k]).kept <= AdmitAll(cfg, a, rs).kept
    ensures AdmitAll(cfg, a, rs[..k]).rejected <= AdmitAll(cfg, a, rs).rejected
    ensures AdmitAll(cfg, a, rs[..k]).running <= AdmitAll(cfg, a, rs).running
    decreases |rs|
  {
    if k == |rs| {
      assert rs[..k] == rs;
    } else {
      var front := rs[..|rs| - 1];
      assert front[..k] == rs[..k];
      PoolsGrow(cfg, a, front, k);
    }
  }

  /** The ids found in the three pools that a pass sorts the waiting requests into. */
  datatype Fates = Fates(taken: set<nat>, refused: set<nat>, left: set<nat>)

  function FatesOf(a: Admission): Fates { Fates(Ids(a.running), Ids(a.rejected), Ids(a.kept)) }

  ghost predicate Apart(f: Fates) { f.taken !! f.refused && f.taken !! f.left && f.refused !! f.left }

  predicate Overlong(cfg: Config, a: Admission, r: Request)
    requires WellFormed(a.blocks)
  {
    a.plan.seqBudget > 0 && !Takes(cfg, a, r) && Uncached(cfg, a.blocks, r) > cfg.maxNumBatchedTokens
  }

  /** The turn of `r` puts it where `f` says. */
  ghost predicate Decided(cfg: Config, mid: Admission, r: Request, f: Fates) {
    && WellFormed(mid.blocks)
    && (r.id in f.taken <==> Takes(cfg, mid, r))
    && (r.id in f.refused <==> Overlong(cfg, mid, r))
    && (r.id in f.left <==> !Takes(cfg, mid, r) && !Overlong(cfg, mid, r))
  }

  /** Where the loop finally leaves a request was decided at its own turn. */
  lemma DecidedAtItsTurn(cfg: Config, a: Admission, rs: seq<Request>, i: nat)
    requires WellFormed(a.blocks) && i < |rs| && Apart(FatesOf(AdmitAll(cfg, a, rs)))
    ensures Decided(cfg, AdmitAll(cfg, a, rs[..i]), rs[i], FatesOf(AdmitAll(cfg, a, rs)))
    ensures AdmitAll(cfg, a, rs[..i + 1]) == AdmitOne(cfg, AdmitAll(cfg, a, rs[..i]), rs[i])
  {
    var mid := AdmitAll(cfg, a, rs[..i]);
    var next := AdmitOne(cfg, mid, rs[i]);
    assert rs[..i + 1][..i] == rs[..i];
    assert AdmitAll(cfg, a, rs[..i + 1]) == next;
    PoolsGrow(cfg, a, rs, i + 1);
    TurnFiles(cfg, mid, rs[i], AdmitAll(cfg, a, rs));
    assert Decided(cfg, mid, rs[i], FatesOf(AdmitAll(cfg, a, rs)));
  }

  lemma TurnFiles(cfg: Config, mid: Admission, r: Request, last: Admission)
    requires WellFormed(mid.blocks)
    requires var next := AdmitOne(cfg, mid, r);
      next.kept <= last.kept && next.rejected <= last.rejected && next.running <= last.running
    ensures Takes(cfg, mid, r) ==> r.id in FatesOf(last).taken
    ensures Overlong(cfg, mid, r) ==> r.id in FatesOf(last).refused
    ensures !Takes(cfg, mid, r) && !Overlong(cfg, mid, r) ==> r.id in FatesOf(last).left
  {
    var next := AdmitOne(cfg, mid, r);
    if Takes(cfg, mid, r) {
      assert next.running[|mid.running|] == Admitted(cfg, mid.blocks, r);
      assert last.running[|mid.running|].id == r.id;
    } else if Overlong(cfg, mid, r) {
      assert last.rejected[|mid.rejected|] == r;
    } else {
      assert last.kept[|mid.kept|] == r;
    }
  }

  function Part(ws: seq<Request>, ids: set<nat>): seq<Request> { Filter(ws, InSet(ids)) }

  /** The loop after `i` requests, told by the final pools: the parts in their order, and what the
      taken ones have used up. */
  ghost predicate Told(cfg: Config, a: Admission, mid: Admission, seen: seq<Request>, f: Fates)
  {
    && WellFormed(a.blocks)
    && mid.kept == a.kept + Part(seen, f.left)
    && mid.rejected == a.rejected + Part(seen, f.refused)
    && mid.running == a.running + AllEntered(cfg, a.blocks, Part(seen, f.taken))
    && mid.plan.seqBudget == a.plan.seqBudget - |Part(seen, f.taken)|
    && mid.plan.prefillBudget == a.plan.prefillBudget - ChunkSum(cfg, a.blocks, Part(seen, f.taken))
  }

  lemma PartNext(ws: seq<Request>, i: nat, ids: set<nat>)
    requires i < |ws|
    ensures ws[i].id in ids ==> Part(ws[..i + 1], ids) == Part(ws[..i], ids) + [ws[i]]
    ensures ws[i].id !in ids ==> Part(ws[..i + 1], ids) == Part(ws[..i], ids)
  {
    FilterNext(ws, i, InSet(ids));
    assert Part(ws[..i], ids) + [] == Part(ws[..i], ids);
  }

  lemma OneMoreEntered(cfg: Config, b: Blocks, ws: seq<Request>, w: Request)
    requires WellFormed(b)
    ensures AllEntered(cfg, b, ws + [w]) == AllEntered(cfg, b, ws) + [Entered(cfg, b, w)]
    ensures ChunkSum(cfg, b, ws + [w]) == ChunkSum(cfg, b, ws) + FirstChunk(cfg, b, w)
  {
    assert (ws + [w])[..|ws|] == ws;
  }

  lemma TurnTold(cfg: Config, a: Admission, mid: Admission, ws: seq<Request>, i: nat, f: Fates)
    requires WellFormed(mid.blocks) && i < |ws| && Apart(f)
    requires Told(cfg, a, mid, ws[..i], f) && SameHits(a.blocks, mid.blocks)
    requires Decided(cfg, mid, ws[i], f)
    ensures Told(cfg, a, AdmitOne(cfg, mid, ws[i]), ws[..i + 1], f)
  {
    var w := ws[i];
    PartNext(ws, i, f.taken);
    PartNext(ws, i, f.refused);
    PartNext(ws, i, f.left);
    SameRequests(cfg, a.blocks, mid.blocks, w);
    AskedFor(cfg, mid.blocks, w);
    OneMoreEntered(cfg, a.blocks, Part(ws[..i], f.taken), w);
    Longer(a.kept, Part(ws[..i], f.left), w);
    Longer(a.rejected, Part(ws[..i], f.refused), w);
    Longer(a.running, AllEntered(cfg, a.blocks, Part(ws[..i], f.taken)), Entered(cfg, a.blocks, w));
    if Takes(cfg, mid, w) {
      assert Told(cfg, a, AdmitOne(cfg, mid, w), ws[..i + 1], f);
    } else {
      assert Told(cfg, a, AdmitOne(cfg, mid, w), ws[..i + 1], f);
    }
  }

  lemma Longer(a: seq<Request>, b: seq<Request>, w: Request)
    ensures a + (b + [w]) == a + b + [w]
  {
  }

  lemma {:induction false} AllTold(cfg: Config, a: Admission, ws: seq<Request>, i: nat)
    requires WellFormed(a.blocks) && i <= |ws| && Apart(FatesOf(AdmitAll(cfg, a, ws)))
    ensures Told(cfg, a, AdmitAll(cfg, a, ws[..i]), ws[..i], FatesOf(AdmitAll(cfg, a, ws)))
    decreases i
  {
    var f := FatesOf(AdmitAll(cfg, a, ws));
    if i > 0 {
      var k := i - 1;
      var mid := AdmitAll(cfg, a, ws[..k]);
      AllTold(cfg, a, ws, k);
      DecidedAtItsTurn(cfg, a, ws, k);
      AdmissionKeepsHits(cfg, a, ws[..k]);
      TurnTold(cfg, a, mid, ws, k, f);
    } else {
      assert ws[..0] == [];
      assert Told(cfg, a, a, [], f);
    }
  }

  // ---------------------------------------------------------------- reasons

  /** The reason noted for a request that stays is true of the budgets that are left. */
  ghost predicate Reasoned(cfg: Config, b: Blocks, p: Plan, w: Request, i: Ignored) {
    && WellFormed(b) && i.id == w.id
    && (i.reason == MaxNumSeqsLimit ==> p.seqBudget <= 0)
    && (i.reason == NoTokenBudget ==>
          FirstChunk(cfg, b, w) > p.prefillBudget && Uncached(cfg, b, w) <= cfg.maxNumBatchedTokens)
    && i.reason != WaitingForNextStep
  }

  ghost predicate AllReasoned(cfg: Config, b: Blocks, a: Admission) {
    && |a.plan.ignored| == |a.kept|
    && forall j :: 0 <= j < |a.kept| ==> Reasoned(cfg, b, a.plan, a.kept[j], a.plan.ignored[j])
  }

  lemma TurnReasoned(cfg: Config, b: Blocks, a: Admission, r: Request)
    requires SameHits(b, a.blocks) && AllReasoned(cfg, b, a)
    ensures AllReasoned(cfg, b, AdmitOne(cfg, a, r))
  {
    var n := AdmitOne(cfg, a, r);
    SameRequests(cfg, b, a.blocks, r);
    AskedFor(cfg, b, r);
    AskedFor(cfg, a.blocks, r);
    if n.kept == a.kept {
      forall j | 0 <= j < |a.kept| ensures Reasoned(cfg, b, n.plan, n.kept[j], n.plan.ignored[j]) {
        assert Reasoned(cfg, b, a.plan, a.kept[j], a.plan.ignored[j]);
      }
    } else {
      assert Reasoned(cfg, b, n.plan, r, n.plan.ignored[|a.kept|]);
      forall j | 0 <= j < |a.kept| ensures Reasoned(cfg, b, n.plan, n.kept[j], n.plan.ignored[j]) {
        assert Reasoned(cfg, b, a.plan, a.kept[j], a.plan.ignored[j]);
      }
    }
  }

  lemma {:induction false} LoopReasoned(cfg: Config, a: Admission, rs: seq<Request>)
    requires WellFormed(a.blocks) && AllReasoned(cfg, a.blocks, a)
    ensures AllReasoned(cfg, a.blocks, AdmitAll(cfg, a, rs))
    decreases |rs|
  {
    if rs != [] {
      var mid, r := AdmitAll(cfg, a, rs[..|rs| - 1]), rs[|rs| - 1];
      LoopReasoned(cfg, a, rs[..|rs| - 1]);
      AdmissionKeepsHits(cfg, a, rs[..|rs| - 1]);
      TurnReasoned(cfg, a.blocks, mid, r);
      assert AdmitAll(cfg, a, rs) == AdmitOne(cfg, mid, r);
    }
  }

  // ---------------------------------------------------------------- a whole iteration

  /** Continuous batching is always open to new requests; a static batch only when the finish check
      leaves nobody running. */
  ghost predicate Open(cfg: Config, q: Queue) { !cfg.staticBatch || forall r :: r in q.running ==> ReachedLimit(r) }

  function Staying(q: Queue): seq<Request> { Filter(q.running, BelowLimit) }

  lemma OpenMayAdmit(cfg: Config, q: Queue)
    ensures MayAdmit(cfg, Staying(q)) <==> Open(cfg, q)
  {
    if Staying(q) != [] {
      var r := Staying(q)[0];
      assert r in Staying(q);
    } else {
      forall r | r in q.running ensures ReachedLimit(r) {
        assert BelowLimit(r) ==> r in Staying(q);
      }
    }
  }

  /** The loop behind an iteration that is open. */
  ghost predicate LoopOf(cfg: Config, q: Queue, a: Admission, last: Admission) {
    && a == Admission(PlanAfter(cfg, Staying(q)), [], Staying(q), [], a.blocks)
    && WellFormed(a.blocks)
    && last == AdmitAll(cfg, a, q.waiting)
    && Apart(FatesOf(last))
    && SameHits(a.blocks, last.blocks)
    && Roomy(cfg, last, |Filter(Staying(q), Decoding)|)
  }

  ghost predicate Reports(cfg: Config, q: Queue, last: Admission, n: Queue, nb: Blocks, sch: Schedule) {
    && n.waiting == last.kept && n.running == last.running && nb == last.blocks
    && n.rejected == q.rejected + last.rejected && sch.rejected == last.rejected
    && sch.ignored == last.plan.ignored
    && sch.numPrefillTokens == last.plan.prefillTokens && sch.numDecodeTokens == |Filter(Staying(q), Decoding)|
  }

  lemma TheLoop(cfg: Config, q: Queue, b: Blocks) returns (a: Admission, last: Admission)
    requires Shaped(q) && Backed(cfg, q.running, b) && Fits(cfg, q.running) && Open(cfg, q)
    ensures LoopOf(cfg, q, a, last)
    ensures Reports(cfg, q, last, RunSchedule(cfg, q, b).0, RunSchedule(cfg, q, b).1, RunSchedule(cfg, q, b).2)
  {
    var q1 := FinishPhase(q);
    var b1 := FreeAll(b, Filter(q.running, ReachedLimit));
    FinishPhaseShaped(q);
    FinishPhaseBacked(cfg, q, b);
    ContinueNeverIgnores(cfg, q1.running);
    OpenMayAdmit(cfg, q);
    a := Admission(PlanAfter(cfg, q1.running), [], q1.running, [], b1);
    last := AdmitAll(cfg, a, q.waiting);
    LoopRuns(cfg, q1, b1, a);
    AdmissionKeepsHits(cfg, a, q.waiting);
  }

  lemma LoopRuns(cfg: Config, q: Queue, b: Blocks, a: Admission)
    requires Shaped(q) && Backed(cfg, q.running, b) && Fits(cfg, q.running)
    requires a == Admission(PlanAfter(cfg, q.running), [], q.running, [], b)
    ensures var last := AdmitAll(cfg, a, q.waiting);
      Apart(FatesOf(last)) && Roomy(cfg, last, |Filter(q.running, Decoding)|)
  {
    AdmissionStarts(cfg, q, b);
    AdmitAllSteps(cfg, q, a, q.waiting, Filter(q.running, Prefilling), |Filter(q.running, Decoding)|);
  }

  /** Seats and prefill tokens that those served earlier leave for the i-th waiting request. */
  datatype Room = Room(seats: int, tokens: int)

  function RoomAt(cfg: Config, q: Queue, i: nat, n: Queue, nb: Blocks): Room
    requires WellFormed(nb) && i <= |q.waiting|
  {
    var taken := Part(q.waiting[..i], Ids(n.running));
    Room(cfg.maxNumSeqs - |Staying(q)| - |taken|,
         Min(cfg.maxNumBatchedTokens - |Filter(Staying(q), Decoding)|, cfg.maxNumPrefillTokens)
           - PrefillCost(cfg, Staying(q)) - ChunkSum(cfg, nb, taken))
  }

  lemma {:induction false} SameSums(cfg: Config, b: Blocks, r: Blocks, ws: seq<Request>)
    requires SameHits(b, r)
    ensures ChunkSum(cfg, b, ws) == ChunkSum(cfg, r, ws)
    decreases |ws|
  {
    if ws != [] {
      SameSums(cfg, b, r, ws[..|ws| - 1]);
      SameRequests(cfg, b, r, ws[|ws| - 1]);
    }
  }

  lemma SameEntered(cfg: Config, b: Blocks, r: Blocks, ws: seq<Request>)
    requires SameHits(b, r)
    ensures AllEntered(cfg, b, ws) == AllEntered(cfg, r, ws)
  {
    forall i | 0 <= i < |ws| ensures Entered(cfg, b, ws[i]) == Entered(cfg, r, ws[i]) {
      SameRequests(cfg, b, r, ws[i]);
    }
  }

  lemma RoomIsBudget(cfg: Config, q: Queue, a: Admission, last: Admission, i: nat, n: Queue)
    requires LoopOf(cfg, q, a, last) && i <= |q.waiting| && n.running == last.running
    ensures
      var mid := AdmitAll(cfg, a, q.waiting[..i]);
      && RoomAt(cfg, q, i, n, last.blocks) == Room(mid.plan.seqBudget, mid.plan.prefillBudget)
  {
    AllTold(cfg, a, q.waiting, i);
    SameSums(cfg, a.blocks, last.blocks, Part(q.waiting[..i], Ids(n.running)));
    CostSplit(cfg, Staying(q));
  }

  /** Whether `w` fits into the room. */
  ghost predicate FitsInto(cfg: Config, nb: Blocks, w: Request, room: Room)
    requires WellFormed(nb)
  {
    room.seats > 0 && FirstChunk(cfg, nb, w) <= room.tokens
  }

  ghost predicate ServedByRoom(cfg: Config, n: Queue, nb: Blocks, rejected: seq<Request>, w: Request, room: Room) {
    && WellFormed(nb)
    && (w.id in Ids(n.running) <==> FitsInto(cfg, nb, w, room))
    && (w.id in Ids(rejected) <==>
          room.seats > 0 && FirstChunk(cfg, nb, w) > room.tokens && Uncached(cfg, nb, w) > cfg.maxNumBatchedTokens)
    && (w.id in Ids(n.waiting) <==>
          room.seats <= 0
            || (FirstChunk(cfg, nb, w) > room.tokens && Uncached(cfg, nb, w) <= cfg.maxNumBatchedTokens))
  }

  /** First come, first served: what becomes of the i-th waiting request is decided, both ways, by
      the seats and tokens that the ones taken before it leave.  One that does not fit never keeps
      those behind it from being looked at. */
  lemma FirstComeFirstServed(cfg: Config, q: Queue, b: Blocks, i: nat)
    requires Shaped(q) && Backed(cfg, q.running, b) && Fits(cfg, q.running) && Open(cfg, q) && i < |q.waiting|
    ensures
      var (n, nb, sch) := RunSchedule(cfg, q, b);
      ServedByRoom(cfg, n, nb, sch.rejected, q.waiting[i], RoomAt(cfg, q, i, n, nb))
  {
    var (n, nb, sch) := RunSchedule(cfg, q, b);
    var a, last := TheLoop(cfg, q, b);
    TurnServes(cfg, q, a, last, n, nb, sch.rejected, i);
  }

  lemma TurnServes(cfg: Config, q: Queue, a: Admission, last: Admission, n: Queue, nb: Blocks,
                   rejected: seq<Request>, i: nat)
    requires LoopOf(cfg, q, a, last) && i < |q.waiting|
    requires n.running == last.running && n.waiting == last.kept && rejected == last.rejected && nb == last.blocks
    ensures ServedByRoom(cfg, n, nb, rejected, q.waiting[i], RoomAt(cfg, q, i, n, nb))
  {
    var w := q.waiting[i];
    var mid := AdmitAll(cfg, a, q.waiting[..i]);
    RoomIsBudget(cfg, q, a, last, i, n);
    DecidedAtItsTurn(cfg, a, q.waiting, i);
    AdmissionKeepsHits(cfg, a, q.waiting[..i]);
    SameRequests(cfg, a.blocks, mid.blocks, w);
    SameRequests(cfg, a.blocks, last.blocks, w);
    DecidedByRoom(cfg, mid, n, nb, rejected, w, Room(mid.plan.seqBudget, mid.plan.prefillBudget));
  }

  lemma DecidedByRoom(cfg: Config, mid: Admission, n: Queue, nb: Blocks, rejected: seq<Request>, w: Request,
                      room: Room)
    requires Decided(cfg, mid, w, Fates(Ids(n.running), Ids(rejected), Ids(n.waiting))) && WellFormed(nb)
    requires room == Room(mid.plan.seqBudget, mid.plan.prefillBudget)
    requires ProbedTokens(cfg, mid.blocks, w.prompt) == ProbedTokens(cfg, nb, w.prompt)
    ensures ServedByRoom(cfg, n, nb, rejected, w, room)
  {
    AskedFor(cfg, nb, w);
  }

  /** No pool changes anybody's place: requests stay, are rejected and enter in the order in which
      they waited, those entering behind those who stay, and nothing of a request changes but its
      status and the cursor its prompt starts from. */
  lemma PoolsKeepTheOrder(cfg: Config, q: Queue, b: Blocks)
    requires Shaped(q) && Backed(cfg, q.running, b) && Fits(cfg, q.running) && Open(cfg, q)
    ensures
      var (n, nb, sch) := RunSchedule(cfg, q, b);
      && n.waiting == Part(q.waiting, Ids(n.waiting))
      && sch.rejected == Part(q.waiting, Ids(sch.rejected)) && n.rejected == q.rejected + sch.rejected
      && n.running == Staying(q) + AllEntered(cfg, nb, Part(q.waiting, Ids(n.running)))
  {
    var a, last := TheLoop(cfg, q, b);
    LoopKeepsTheOrder(cfg, q, a, last);
  }

  lemma LoopKeepsTheOrder(cfg: Config, q: Queue, a: Admission, last: Admission)
    requires LoopOf(cfg, q, a, last)
    ensures last.kept == Part(q.waiting, Ids(last.kept))
    ensures last.rejected == Part(q.waiting, Ids(last.rejected))
    ensures last.running == Staying(q) + AllEntered(cfg, last.blocks, Part(q.waiting, Ids(last.running)))
  {
    var ws := q.waiting;
    assert ws[..|ws|] == ws;
    AllTold(cfg, a, ws, |ws|);
    SameEntered(cfg, a.blocks, last.blocks, Part(ws, Ids(last.running)));
    assert [] + Part(ws, Ids(last.kept)) == Part(ws, Ids(last.kept));
    assert [] + Part(ws, Ids(last.rejected)) == Part(ws, Ids(last.rejected));
  }

  // ---------------------------------------------------------------- who still waits

  /** What an iteration leaves of the prefill budget. */
  function TokensLeft(cfg: Config, sch: Schedule): int {
    Min(cfg.maxNumBatchedTokens - sch.numDecodeTokens, cfg.maxNumPrefillTokens) - sch.numPrefillTokens
  }

  /** No seat is left, or too few tokens for its first chunk. */
  ghost predicate NoRoomFor(cfg: Config, n: Queue, nb: Blocks, sch: Schedule, w: Request) {
    && WellFormed(nb)
    && (|n.running| == cfg.maxNumSeqs
        || (FirstChunk(cfg, nb, w) > TokensLeft(cfg, sch) && Uncached(cfg, nb, w) <= cfg.maxNumBatchedTokens))
  }

  lemma LeftIsBudget(cfg: Config, q: Queue, a: Admission, last: Admission, n: Queue, nb: Blocks, sch: Schedule)
    requires LoopOf(cfg, q, a, last) && Reports(cfg, q, last, n, nb, sch)
    ensures TokensLeft(cfg, sch) == last.plan.prefillBudget && |n.running| + last.plan.seqBudget == cfg.maxNumSeqs
    ensures last.plan.seqBudget >= 0
  {
    PrefillTokensBounded(cfg, a, q.waiting);
  }

  /** `w` waits for want of room, and the reason reported for it is the true one. */
  ghost predicate Explained(cfg: Config, n: Queue, nb: Blocks, sch: Schedule, w: Request, i: Ignored) {
    && NoRoomFor(cfg, n, nb, sch, w)
    && i.id == w.id
    && (i.reason == MaxNumSeqsLimit ==> |n.running| == cfg.maxNumSeqs)
    && (i.reason == NoTokenBudget ==> FirstChunk(cfg, nb, w) > TokensLeft(cfg, sch))
    && i.reason != WaitingForNextStep
  }

  ghost predicate NotComputable(cfg: Config, nb: Blocks, sch: Schedule, w: Request) {
    && WellFormed(nb)
    && FirstChunk(cfg, nb, w) > TokensLeft(cfg, sch) && Uncached(cfg, nb, w) > cfg.maxNumBatchedTokens
  }

  /** Nobody waits without a reason: after an iteration that is open to new requests, one that still
      waits found every seat taken, or its first chunk exceeds what is left of the prefill budget;
      and the reason reported for it is the true one.  One that is rejected could not be computed
      within one step's token budget. */
  lemma WaitsOnlyForRoom(cfg: Config, q: Queue, b: Blocks)
    requires Shaped(q) && Backed(cfg, q.running, b) && Fits(cfg, q.running) && Open(cfg, q)
    ensures
      var (n, nb, sch) := RunSchedule(cfg, q, b);
      && |sch.ignored| == |n.waiting|
      && (forall j :: 0 <= j < |n.waiting| ==> Explained(cfg, n, nb, sch, n.waiting[j], sch.ignored[j]))
      && (forall w :: w in sch.rejected ==> NotComputable(cfg, nb, sch, w))
  {
    var (n, nb, sch) := RunSchedule(cfg, q, b);
    var a, last := TheLoop(cfg, q, b);
    LoopExplains(cfg, q, a, last, n, nb, sch);
  }

  lemma LoopExplains(cfg: Config, q: Queue, a: Admission, last: Admission, n: Queue, nb: Blocks, sch: Schedule)
    requires LoopOf(cfg, q, a, last) && Reports(cfg, q, last, n, nb, sch)
    ensures |sch.ignored| == |n.waiting|
    ensures forall j :: 0 <= j < |n.waiting| ==> Explained(cfg, n, nb, sch, n.waiting[j], sch.ignored[j])
    ensures forall w :: w in sch.rejected ==> NotComputable(cfg, nb, sch, w)
  {
    LeftIsBudget(cfg, q, a, last, n, nb, sch);
    LoopReasoned(cfg, a, q.waiting);
    RejectedOverlong(cfg, a, q.waiting);
    forall j | 0 <= j < |n.waiting| ensures Explained(cfg, n, nb, sch, n.waiting[j], sch.ignored[j]) {
      assert Reasoned(cfg, a.blocks, last.plan, last.kept[j], last.plan.ignored[j]);
      SameRequests(cfg, a.blocks, nb, n.waiting[j]);
    }
    forall w | w in sch.rejected ensures NotComputable(cfg, nb, sch, w) {
      SameRequests(cfg, a.blocks, nb, w);
    }
  }

  lemma {:induction false} RejectedOverlong(cfg: Config, a: Admission, rs: seq<Request>)
    requires WellFormed(a.blocks) && a.rejected == []
    ensures forall w :: w in AdmitAll(cfg, a, rs).rejected ==>
      && FirstChunk(cfg, a.blocks, w) > AdmitAll(cfg, a, rs).plan.prefillBudget
      && Uncached(cfg, a.blocks, w) > cfg.maxNumBatchedTokens
    decreases |rs|
  {
    if rs != [] {
      var mid, r := AdmitAll(cfg, a, rs[..|rs| - 1]), rs[|rs| - 1];
      RejectedOverlong(cfg, a, rs[..|rs| - 1]);
      AdmissionKeepsHits(cfg, a, rs[..|rs| - 1]);
      SameRequests(cfg, a.blocks, mid.blocks, r);
      AskedFor(cfg, mid.blocks, r);
      assert AdmitAll(cfg, a, rs) == AdmitOne(cfg, mid, r);
    }
  }

  lemma ClosedPhase(cfg: Config, q: Queue, b: Blocks, p: Plan)
    requires WellFormed(b) && cfg.staticBatch && q.running != []
    ensures AdmitPhase(cfg, q, b, p) == Admission(p, q.waiting, q.running, [], b)
  {
  }

  lemma StayersContinue(cfg: Config, q: Queue, b: Blocks)
    requires Shaped(q) && Backed(cfg, q.running, b) && Fits(cfg, q.running)
    ensures ContinuePlan(cfg, Staying(q)) == PlanAfter(cfg, Staying(q))
  {
    FinishPhaseShaped(q);
    FinishPhaseBacked(cfg, q, b);
    ContinueNeverIgnores(cfg, Staying(q));
  }

  /** A static batch is closed while anybody of it runs on: nobody enters, nobody is rejected and
      nobody is even looked at. */
  lemma StaticBatchIsClosed(cfg: Config, q: Queue, b: Blocks, r: Request)
    requires Shaped(q) && Backed(cfg, q.running, b) && Fits(cfg, q.running)
    requires cfg.staticBatch && r in q.running && BelowLimit(r)
    ensures
      var (n, nb, sch) := RunSchedule(cfg, q, b);
      && n.waiting == q.waiting && n.running == Staying(q) && n.rejected == q.rejected
      && sch.rejected == [] && sch.ignored == []
      && nb == FreeAll(b, Filter(q.running, ReachedLimit))
  {
    assert r in Staying(q);
    StayersContinue(cfg, q, b);
    ClosedPhase(cfg, FinishPhase(q), FreeAll(b, Filter(q.running, ReachedLimit)), PlanAfter(cfg, Staying(q)));
    assert q.rejected + [] == q.rejected;
  }
}

/** Handing sampled tokens back to their requests and advancing the prefill cursors. */
module Delivery {
  import opened Base
  import opened Requests
  import opened EngineSpec
  import opened RequestQueues

  /** A request that gets a token: its first one ends the prefill, any other is appended. */
  function GiveToken(r: Request, token: Token): (n: Request)
    ensures n.id == r.id && n.prompt == r.prompt && n.cursor == r.cursor
  {
    if r.status == Prefill then r.(output := [token], generated := 1, status := Running)
    else r.(output := r.output + [token], generated := r.generated + 1)
  }

  function MoveCursor(cfg: Config, r: Request): (n: Request)
    ensures n.id == r.id
  {
    r.(cursor := Min(r.cursor + cfg.chunkSize, |r.prompt|))
  }

  /** What the two loops make of one request of the batch. */
  function Served(cfg: Config, r: Request, due: bool, token: Token): (n: Request)
    ensures n.id == r.id
  {
    var given := if due then GiveToken(r, token) else r;
    if r.status == Prefill then MoveCursor(cfg, given) else given
  }

  /** Serving a request that is due exactly when its step reaches its end is the advance of the
      specification. */
  lemma ServedIsAdvance(cfg: Config, r: Request, due: bool, token: Token)
    requires Lively(r) && due == (NextEnd(cfg, r) >= |r.prompt| + r.generated)
    ensures Served(cfg, r, due, token) == Advance(cfg, r, token)
  {
  }

  // ---------------------------------------------------------------- the loops, on values

  /** Some entries of a pool replaced by `f`. */
  ghost predicate Changed(rs: seq<Request>, ids: set<nat>, f: Request -> Request, now: seq<Request>) {
    |now| == |rs| && forall i :: 0 <= i < |rs| ==> now[i] == if rs[i].id in ids then f(rs[i]) else rs[i]
  }

  ghost predicate KeepsIds(f: Request -> Request) { forall r :: f(r).id == r.id }

  lemma ChangeOneMore(rs: seq<Request>, ids: set<nat>, f: Request -> Request, now: seq<Request>, r: Request)
    requires Distinct(rs) && Changed(rs, ids, f, now) && KeepsIds(f) && r in rs && r.id !in ids
    ensures Changed(rs, ids + {r.id}, f, Replaced(now, f(r)))
  {
    var n := Replaced(now, f(r));
    forall i | 0 <= i < |rs| ensures n[i] == if rs[i].id in ids + {r.id} then f(rs[i]) else rs[i] {
      assert now[i].id == rs[i].id;
      if rs[i].id == r.id { SameId(rs, rs[i], r); }
    }
  }

  /** Tokens for the requests named in `ids`, taken from `sample`. */
  ghost function Giving(sample: nat -> Token): (f: Request -> Request)
    ensures KeepsIds(f)
  {
    var f := (r: Request) => GiveToken(r, sample(r.id));
    assert forall r :: f(r) == GiveToken(r, sample(r.id));
    f
  }

  function IdSet(ids: seq<nat>): set<nat> { set id | id in ids }

  /** The lookup of the batch by sequence id. */
  method SequenceMap(prefills: seq<Request>, decodes: seq<Request>) returns (seqs: map<nat, Request>)
    requires Distinct(prefills + decodes)
    ensures seqs.Keys == Ids(prefills + decodes)
    ensures forall r :: r in prefills + decodes ==> seqs[r.id] == r
  {
    var all := prefills + decodes;
    seqs := map[];
    for i := 0 to |all|
      invariant seqs.Keys == Ids(all[..i])
      invariant forall j :: 0 <= j < i ==> all[j].id in seqs && seqs[all[j].id] == all[j]
    {
      assert all[..i + 1] == all[..i] + [all[i]];
      IdsAppend(all[..i], [all[i]]);
      seqs := seqs[all[i].id := all[i]];
    }
    assert all[..|all|] == all;
  }

  /** What the batch's own view of its sequences is while tokens are handed out. */
  ghost predicate Viewed(batch: seq<Request>, given: set<nat>, f: Request -> Request, seqs: map<nat, Request>) {
    && seqs.Keys == Ids(batch)
    && forall r :: r in batch ==> seqs[r.id] == if r.id in given then f(r) else r
  }

  lemma ViewOneMore(batch: seq<Request>, given: set<nat>, f: Request -> Request, seqs: map<nat, Request>, r: Request)
    requires Distinct(batch) && Viewed(batch, given, f, seqs) && r in batch && r.id !in given
    ensures Viewed(batch, given + {r.id}, f, seqs[r.id := f(r)])
  {
    forall x | x in batch ensures seqs[r.id := f(r)][x.id] == if x.id in given + {r.id} then f(x) else x {
      if x.id == r.id { SameId(batch, x, r); }
    }
    assert r.id in Ids(batch);
  }

  lemma OneMoreId(ids: seq<nat>, k: nat)
    requires k < |ids| && forall i, j :: 0 <= i < j < |ids| ==> ids[i] != ids[j]
    ensures ids[k] !in IdSet(ids[..k]) && IdSet(ids[..k + 1]) == IdSet(ids[..k]) + {ids[k]}
  {
    assert ids[..k + 1] == ids[..k] + [ids[k]];
  }

  /** Writes the sampled tokens back, pairing them with the sequence ids as far as both lists go;
      every id is named once, so each sequence gets its own token and no other. */
  method ApplyModelOutput(queue: RequestQueue, tokens: seq<Token>, ids: seq<nat>, prefills: seq<Request>,
                          decodes: seq<Request>,
                          ghost sample: nat -> Token)
    returns (seqs: map<nat, Request>)
    requires Distinct(queue.running) && Distinct(prefills + decodes)
    requires forall r :: r in prefills + decodes ==> r in queue.running
    requires |tokens| >= |ids|
    requires (forall k :: 0 <= k < |ids| ==> ids[k] in Ids(prefills + decodes) && tokens[k] == sample(ids[k]))
    requires forall j, k :: 0 <= j < k < |ids| ==> ids[j] != ids[k]
    modifies queue`running
    ensures Changed(old(queue.running), IdSet(ids), Giving(sample), queue.running)
    ensures Viewed(prefills + decodes, IdSet(ids), Giving(sample), seqs)
  {
    ghost var rs, batch, f := queue.running, prefills + decodes, Giving(sample);
    seqs := SequenceMap(prefills, decodes);
    var n := if |tokens| < |ids| then |tokens| else |ids|;
    ghost var given: set<nat> := {};
    for k := 0 to n
      invariant given == IdSet(ids[..k])
      invariant Changed(rs, given, f, queue.running) && Viewed(batch, given, f, seqs)
    {
      var id := ids[k];
      ghost var r :| r in batch && r.id == id;
      OneMoreId(ids, k);
      if id in seqs {
        var next := GiveToken(seqs[id], tokens[k]);
        ChangeOneMore(rs, given, f, queue.running, r);
        ViewOneMore(batch, given, f, seqs, r);
        assert next == f(r);
        seqs := seqs[id := next];
        queue.Update(next);
        given := given + {id};
      }
    }
    assert ids[..n] == ids;
  }

  // ---------------------------------------------------------------- cursors

  ghost function Moving(cfg: Config): (f: Request -> Request)
    ensures KeepsIds(f)
  {
    (r: Request) => MoveCursor(cfg, r)
  }

  lemma ChangedKeepsIds(rs: seq<Request>, ids: set<nat>, f: Request -> Request, now: seq<Request>)
    requires Changed(rs, ids, f, now) && KeepsIds(f)
    ensures Ids(now) == Ids(rs) && (Distinct(rs) ==> Distinct(now))
  {
    assert forall i :: 0 <= i < |rs| ==> now[i].id == rs[i].id && now[i] in now && rs[i] in rs;
  }

  /** Every prefill of the batch moves its cursor, whether or not it just got its first token. */
  method AdvanceCursors(cfg: Config, queue: RequestQueue, prefills: seq<Request>, seqs: map<nat, Request>,
                        ghost given: set<nat>, ghost f: Request -> Request,
                        ghost decodes: seq<Request>)
    requires Distinct(queue.running) && Distinct(prefills) && KeepsIds(f)
    requires Viewed(prefills + decodes, given, f, seqs)
    requires forall r :: r in prefills ==> (if r.id in given then f(r) else r) in queue.running
    modifies queue`running
    ensures Changed(old(queue.running), Ids(prefills), Moving(cfg), queue.running)
  {
    ghost var rs := queue.running;
    for k := 0 to |prefills|
      invariant Changed(rs, Ids(prefills[..k]), Moving(cfg), queue.running)
    {
      CurrentView(prefills, decodes, given, f, seqs, k);
      var r := seqs[prefills[k].id];
      ChangeOneMore(rs, Ids(prefills[..k]), Moving(cfg), queue.running, r);
      var end := Min(r.cursor + cfg.chunkSize, |r.prompt|);
      queue.Update(r.(cursor := end));
      assert Changed(rs, Ids(prefills[..k + 1]), Moving(cfg), queue.running);
    }
    assert prefills[..|prefills|] == prefills;
  }

  lemma CurrentView(prefills: seq<Request>, decodes: seq<Request>, given: set<nat>, f: Request -> Request,
                    seqs: map<nat, Request>, k: nat)
    requires Distinct(prefills) && KeepsIds(f) && Viewed(prefills + decodes, given, f, seqs) && k < |prefills|
    ensures prefills[k].id in seqs
    ensures var r := seqs[prefills[k].id];
      && r == (if prefills[k].id in given then f(prefills[k]) else prefills[k]) && r.id == prefills[k].id
      && r.id !in Ids(prefills[..k]) && Ids(prefills[..k + 1]) == Ids(prefills[..k]) + {r.id}
  {
    assert prefills[k] in prefills + decodes;
    assert prefills[..k + 1] == prefills[..k] + [prefills[k]];
    IdsAppend(prefills[..k], [prefills[k]]);
  }

  /** Both loops together advance every running request by the specification. */
  lemma DeliveryIsAdvance(cfg: Config, rs: seq<Request>, mid: seq<Request>, now: seq<Request>, given: set<nat>,
                          prefills: set<nat>, batch: set<nat>, sample: nat -> Token)
    requires Changed(rs, given, Giving(sample), mid) && Changed(mid, prefills, Moving(cfg), now)
    requires forall r :: r in rs ==> Lively(r) && r.id in batch
    requires forall r :: r in rs ==> (r.id in prefills <==> r.status == Prefill)
    requires forall r :: r in rs ==> (r.id in given <==> NextEnd(cfg, r) >= |r.prompt| + r.generated)
    ensures now == AdvanceAll(cfg, rs, batch, sample)
  {
    forall i | 0 <= i < |rs| ensures now[i] == Advance(cfg, rs[i], sample(rs[i].id)) {
      assert rs[i] in rs;
      ServedIsAdvance(cfg, rs[i], rs[i].id in given, sample(rs[i].id));
    }
  }
}

/** One scheduling round as values: budgets, what becomes of the works that are offered, and the batch they make up. */
module Picks {
  import opened BlockSpec
  import opened WorkItems
  import opened Queues
  import opened Offers

  datatype Budget = Budget(tokens: nat, seqs: nat, prefill: nat, large: nat)

  /** AllocateBlocks: blocks reserved, too few blocks, or no block manager for the executor. */
  datatype Admission = Allocated | Refused | Unknown

  /** What became of the next work of a queue. */
  datatype Offered = NoneLeft | TooCostly | Rejected(origin: Work) | PutBack(chunk: Work, origin: Work) | Taken(chunk: Work, origin: Work)

  /** How often a work has left the queues for the batch or failed. */
  function Left(o: Offered, m: Mark): nat {
    if o.Rejected? || o.Taken? then Hit(o.origin, m) else 0
  }

  datatype Kind = DecodeStep | ShortPrefill | LongPrefill

  /** The works in an executor's three queues. */
  datatype Backlog = Backlog(decodes: seq<Work>, shorts: seq<Work>, longs: seq<Work>) {
    /** The work is the last of its queue. */
    function With(kind: Kind, w: Work): Backlog {
      match kind
      case DecodeStep => this.(decodes := decodes + [w])
      case ShortPrefill => this.(shorts := shorts + [w])
      case LongPrefill => this.(longs := longs + [w])
    }
  }

  /**
   * What one pick has put together; `origins` are the works that the batch's items were cut from, and
   * `tried` are the items that blocks were asked for, in order.
   */
  datatype Picked = Picked(batch: seq<Work>, origins: seq<Work>, failed: seq<Work>, rest: Budget, tried: seq<Work>)

  predicate Affordable(b: Budget, kind: Kind, cost: nat) {
    cost <= b.tokens && b.seqs > 0 && (kind != DecodeStep ==> b.prefill > 0) && (kind == LongPrefill ==> b.large > 0)
  }

  function Charged(b: Budget, kind: Kind, cost: nat): Budget
    requires Affordable(b, kind, cost)
  {
    Budget(b.tokens - cost, b.seqs - 1, if kind == DecodeStep then b.prefill else b.prefill - 1,
           if kind == LongPrefill then b.large - 1 else b.large)
  }

  function Took(p: Picked, kind: Kind, chunk: Work, origin: Work): Picked
    requires Affordable(p.rest, kind, Cost(chunk))
  {
    Picked(p.batch + [chunk], p.origins + [origin], p.failed, Charged(p.rest, kind, Cost(chunk)), p.tried + [chunk])
  }

  /** Nothing was spent that the batch does not account for. */
  ghost predicate InBudget(p: Picked, budget: Budget, kind: Kind) {
    && p.rest.tokens + TotalCost(p.batch) == budget.tokens
    && p.rest.seqs + |p.batch| == budget.seqs
    && p.rest.prefill + (if kind == DecodeStep then 0 else |p.batch|) == budget.prefill
    && p.rest.large + (if kind == LongPrefill then |p.batch| else 0) == budget.large
    && CutFrom(p.batch, p.origins)
  }

  /** How often a work has left the queues for the batch or has failed. */
  function Gone(p: Picked, m: Mark): nat {
    Count(p.origins, m) + Count(p.failed, m)
  }

  lemma CutFromMore(batch: seq<Work>, origins: seq<Work>, c: Work, w: Work)
    requires CutFrom(batch, origins) && ChunkOf(c, w)
    ensures CutFrom(batch + [c], origins + [w])
  {
    assert (batch + [c])[..|batch|] == batch && (origins + [w])[..|batch|] == origins;
  }

  lemma TookKeeps(p: Picked, budget: Budget, kind: Kind, chunk: Work, origin: Work, m: Mark)
    requires InBudget(p, budget, kind) && Affordable(p.rest, kind, Cost(chunk)) && ChunkOf(chunk, origin)
    ensures InBudget(Took(p, kind, chunk, origin), budget, kind)
    ensures Gone(Took(p, kind, chunk, origin), m) == Gone(p, m) + Hit(origin, m)
  {
    TotalCostMore(p.batch, chunk);
    CountMore(p.origins, origin, m);
    CutFromMore(p.batch, p.origins, chunk, origin);
  }

  // ---------------------------------------------------------------- asking for blocks

  /** What one offer does to the block metadata. */
  ghost predicate Outcome(s: State, t: State, o: Offered)
    requires s.blockSize > 0
  {
    match o
    case Taken(chunk, _) => CanAllocate(s, chunk) && t == Allocate(s, chunk)
    case PutBack(chunk, _) => !CanAllocate(s, chunk) && t == Allocate(s, chunk)
    case _ => t == s
  }

  lemma RecordedTraced(s: State, t: State, u: State, p: Picked, kind: Kind, o: Offered)
    requires Traced(s, t, p.batch, p.tried) && Outcome(t, u, o) && (o.Taken? ==> Affordable(p.rest, kind, Cost(o.chunk)))
    ensures Traced(s, u, Recorded(p, kind, o).batch, Recorded(p, kind, o).tried)
  {
    if o.Taken? || o.PutBack? {
      TriedMore(s, p.tried, o.chunk);
    }
  }

  function Recorded(p: Picked, kind: Kind, o: Offered): Picked
    requires o.Taken? ==> Affordable(p.rest, kind, Cost(o.chunk))
  {
    match o
    case Rejected(w) => p.(failed := p.failed + [w])
    case Taken(chunk, w) => Took(p, kind, chunk, w)
    case PutBack(chunk, _) => p.(tried := p.tried + [chunk])
    case _ => p
  }

  lemma TakenKeeps(p: Picked, budget: Budget, kind: Kind, o: Offered, m: Mark)
    requires InBudget(p, budget, kind) && o.Taken? && Affordable(p.rest, kind, Cost(o.chunk)) && ChunkOf(o.chunk, o.origin)
    ensures InBudget(Recorded(p, kind, o), budget, kind)
    ensures Gone(Recorded(p, kind, o), m) == Gone(p, m) + Left(o, m)
    ensures Recorded(p, kind, o).batch == p.batch + [o.chunk]
  {
    TookKeeps(p, budget, kind, o.chunk, o.origin, m);
  }

  lemma RecordedKeeps(p: Picked, budget: Budget, kind: Kind, o: Offered, m: Mark)
    requires InBudget(p, budget, kind)
    requires o.Taken? ==> Affordable(p.rest, kind, Cost(o.chunk)) && ChunkOf(o.chunk, o.origin)
    ensures InBudget(Recorded(p, kind, o), budget, kind)
    ensures Gone(Recorded(p, kind, o), m) == Gone(p, m) + Left(o, m)
    ensures Recorded(p, kind, o).batch == p.batch + (if o.Taken? then [o.chunk] else [])
  {
    if o.Taken? {
      TakenKeeps(p, budget, kind, o, m);
    } else {
      if o.Rejected? {
        CountMore(p.failed, o.origin, m);
      }
      assert p.batch + [] == p.batch;
    }
  }

  function TotalCost(ws: seq<Work>): nat {
    if ws == [] then 0 else TotalCost(ws[..|ws| - 1]) + Cost(ws[|ws| - 1])
  }

  /** The tokens that a list of works computes. */
  function NewTokens(ws: seq<Work>): nat {
    if ws == [] then 0 else NewTokens(ws[..|ws| - 1]) + ws[|ws| - 1].numNewTokens
  }

  /** The cost of works that have tokens to compute is the number of these tokens. */
  lemma {:induction false} CostIsNewTokens(ws: seq<Work>)
    requires forall i :: 0 <= i < |ws| ==> (ws[i].phase == Prefill && ws[i].numNewTokens > 0) || (ws[i].phase == Decode && ws[i].numNewTokens == 1)
    ensures TotalCost(ws) == NewTokens(ws)
  {
    if ws != [] {
      CostIsNewTokens(ws[..|ws| - 1]);
    }
  }

  lemma TotalCostMore(ws: seq<Work>, w: Work)
    ensures TotalCost(ws + [w]) == TotalCost(ws) + Cost(w)
  {
    assert (ws + [w])[..|ws|] == ws;
  }

  /** The work itself, or the leading part of a prefill: same work, fewer tokens. */
  ghost predicate ChunkOf(c: Work, w: Work) {
    || c == w
    || (c == w.(numNewTokens := c.numNewTokens, tokens := c.tokens) && c.numNewTokens <= Cost(w) && c.tokens <= w.tokens)
  }

  /** Item by item, what the batch's items were cut from. */
  ghost predicate CutFrom(batch: seq<Work>, origins: seq<Work>) {
    && |origins| == |batch|
    && (batch == [] || (CutFrom(batch[..|batch| - 1], origins[..|batch| - 1]) && ChunkOf(batch[|batch| - 1], origins[|batch| - 1])))
  }

  lemma SplitIsChunk(w: Work, tokens: nat)
    requires w.phase == Prefill && w.numNewTokens <= |w.tokens| && tokens <= Cost(w)
    ensures ChunkOf(Split(w, tokens).0, w) && Cost(Split(w, tokens).0) == tokens
    ensures Split(w, tokens).0.numNewTokens <= |Split(w, tokens).0.tokens|
  {
  }

  /** The works of both lists have their allocations. */
  ghost predicate Admitted(s: State, ws: seq<Work>) {
    ws == [] || (Admitted(s, ws[..|ws| - 1]) && ws[|ws| - 1].workId in s.pending)
  }

  lemma {:induction false} AdmittedStays(s: State, t: State, ws: seq<Work>)
    requires Admitted(s, ws) && Keeps(s, t)
    ensures Admitted(t, ws)
  {
    if ws != [] {
      AdmittedStays(s, t, ws[..|ws| - 1]);
    }
  }

  lemma AdmittedMore(s: State, ws: seq<Work>, w: Work)
    requires Admitted(s, ws) && w.workId in s.pending
    ensures Admitted(s, ws + [w])
  {
    assert (ws + [w])[..|ws|] == ws;
  }

  lemma {:induction false} AdmittedConcat(s: State, t: State, a: seq<Work>, b: seq<Work>)
    requires Admitted(s, a) && Keeps(s, t) && Admitted(t, b)
    ensures Admitted(t, a + b)
    decreases |b|
  {
    if b == [] {
      AdmittedStays(s, t, a);
      assert a + b == a;
    } else {
      var n := |b| - 1;
      AdmittedConcat(s, t, a, b[..n]);
      AdmittedMore(t, a + b[..n], b[n]);
      LastAppended(a, b);
    }
  }

  /** No pending allocation has gone. */
  ghost predicate Keeps(s: State, t: State) {
    s.pending.Keys <= t.pending.Keys
  }

  // ---------------------------------------------------------------- the whole batch

  /** The batch in three parts, what its items were cut from, what failed, what blocks were asked for, and how many decodes were dequeued. */
  datatype Assembled = Assembled(
    decodes: seq<Work>,
    shorts: seq<Work>,
    longs: seq<Work>,
    origins: seq<Work>,
    failed: seq<Work>,
    tried: seq<Work>,
    dequeued: nat)
  {
    function Batch(): seq<Work> {
      decodes + shorts + longs
    }
  }

  function Assemble(d: Picked, s: Picked, l: Picked, dequeued: nat): Assembled {
    Assembled(d.batch, s.batch, l.batch, d.origins + s.origins + l.origins, d.failed + s.failed + l.failed,
              d.tried + s.tried + l.tried, dequeued)
  }

  ghost predicate WithinLimits(b: Assembled, limits: Budget) {
    && |b.Batch()| <= limits.seqs && TotalCost(b.Batch()) <= limits.tokens
    && (b.dequeued > 0 ==> |b.shorts| + |b.longs| <= limits.prefill && |b.longs| <= limits.large)
    && |b.decodes| <= b.dequeued
  }

  lemma {:induction false} TotalCostConcat(a: seq<Work>, b: seq<Work>)
    ensures TotalCost(a + b) == TotalCost(a) + TotalCost(b)
    decreases |b|
  {
    if b == [] {
      assert a + b == a;
    } else {
      TotalCostConcat(a, b[..|b| - 1]);
      TotalCostMore(a + b[..|b| - 1], b[|b| - 1]);
      LastAppended(a, b);
    }
  }

  lemma AssembleCounts(d: Picked, s: Picked, l: Picked, dequeued: nat, m: Mark)
    ensures var b := Assemble(d, s, l, dequeued);
      Count(b.origins, m) + Count(b.failed, m) == Gone(d, m) + Gone(s, m) + Gone(l, m)
  {
    CountConcat(d.origins + s.origins, l.origins, m);
    CountConcat(d.origins, s.origins, m);
    CountConcat(d.failed + s.failed, l.failed, m);
    CountConcat(d.failed, s.failed, m);
  }

  lemma {:induction false} CutFromConcat(a: seq<Work>, b: seq<Work>, c: seq<Work>, d: seq<Work>)
    requires CutFrom(a, c) && CutFrom(b, d)
    ensures CutFrom(a + b, c + d)
    decreases |b|
  {
    if b == [] {
      assert a + b == a && c + d == c;
    } else {
      var n := |b| - 1;
      CutFromConcat(a, b[..n], c, d[..n]);
      CutFromMore(a + b[..n], c + d[..n], b[n], d[n]);
      LastAppended(a, b);
      LastAppended(c, d);
    }
  }

  /** A chunk is the same work as what it was cut from. */
  lemma {:induction false} CutKeepsCount(batch: seq<Work>, origins: seq<Work>, m: Mark)
    requires CutFrom(batch, origins)
    ensures Count(batch, m) == Count(origins, m)
  {
    if batch != [] {
      CutKeepsCount(batch[..|batch| - 1], origins[..|batch| - 1], m);
    }
  }

  lemma AssembleFits(d: Picked, s: Picked, l: Picked, dequeued: nat, limits: Budget)
    requires InBudget(d, if dequeued > 0 then limits else limits.(prefill := limits.seqs, large := limits.seqs), DecodeStep)
    requires InBudget(s, d.rest, ShortPrefill) && InBudget(l, s.rest, LongPrefill) && |d.batch| <= dequeued
    ensures WithinLimits(Assemble(d, s, l, dequeued), limits)
    ensures CutFrom(Assemble(d, s, l, dequeued).Batch(), Assemble(d, s, l, dequeued).origins)
  {
    TotalCostConcat(d.batch + s.batch, l.batch);
    TotalCostConcat(d.batch, s.batch);
    CutFromConcat(d.batch, s.batch, d.origins, s.origins);
    CutFromConcat(d.batch + s.batch, l.batch, d.origins + s.origins, l.origins);
  }
}

/** The order in which a queue's works are offered blocks, which of them come back, and where a pick ends. */
module Rounds {
  import opened Wrappers
  import opened BlockSpec
  import opened WorkItems
  import opened Queues
  import opened Offers
  import opened Picks

  // ---------------------------------------------------------------- the schedulable works of a queue

  lemma {:induction false} FilteredConcat(a: seq<Work>, b: seq<Work>, ok: set<RequestId>)
    ensures Filtered(a + b, ok) == Filtered(a, ok) + Filtered(b, ok)
    decreases |b|
  {
    if b == [] {
      assert a + b == a;
    } else {
      var n := |b| - 1;
      FilteredConcat(a, b[..n], ok);
      LastAppended(a, b);
      FilteredMore(a + b[..n], b[n], ok);
      Assoc(Filtered(a, ok), Filtered(b[..n], ok), if b[n].requestId in ok then [b[n]] else []);
    }
  }

  lemma FilteredMore(ws: seq<Work>, w: Work, ok: set<RequestId>)
    ensures Filtered(ws + [w], ok) == Filtered(ws, ok) + (if w.requestId in ok then [w] else [])
  {
    assert (ws + [w])[..|ws|] == ws;
  }

  lemma FilteredHead(ws: seq<Work>, ok: set<RequestId>)
    requires ws != []
    ensures Filtered(ws, ok) == (if ws[0].requestId in ok then [ws[0]] else []) + Filtered(ws[1..], ok)
  {
    FilteredConcat([ws[0]], ws[1..], ok);
    FilteredMore([], ws[0], ok);
    assert [] + [ws[0]] == [ws[0]];
    assert ws == [ws[0]] + ws[1..];
  }

  /** Skipping to the first schedulable work drops none that is schedulable. */
  lemma {:induction false} SkippedFiltered(ws: seq<Work>, ok: set<RequestId>)
    ensures Filtered(FromSchedulable(ws, ok), ok) == Filtered(ws, ok)
    ensures FromSchedulable(ws, ok) == [] <==> Filtered(ws, ok) == []
    ensures FromSchedulable(ws, ok) != [] ==>
      && FromSchedulable(ws, ok)[0] == Filtered(ws, ok)[0]
      && Filtered(FromSchedulable(ws, ok)[1..], ok) == Filtered(ws, ok)[1..]
  {
    if ws != [] {
      FilteredHead(ws, ok);
      if ws[0].requestId !in ok {
        SkippedFiltered(ws[1..], ok);
      }
    }
  }

  // ---------------------------------------------------------------- offers in order

  /** What is offered of a work when `left` tokens are left: all of it, or its leading part. */
  function ChunkFor(w: Work, left: nat): Work {
    if w.phase == Prefill && w.numNewTokens <= |w.tokens| then Split(w, Min(Cost(w), left)).0 else w
  }

  /** The works whose blocks were refused, in order. */
  function PutBackOf(s: State, tried: seq<Work>, offered: seq<Work>): seq<Work>
    requires s.blockSize > 0 && |tried| == |offered|
  {
    if tried == [] then []
    else
      var n := |tried| - 1;
      PutBackOf(s, tried[..n], offered[..n]) + (if CanAllocate(Tried(s, tried[..n]), tried[n]) then [] else [offered[n]])
  }

  lemma PutBackMore(s: State, tried: seq<Work>, offered: seq<Work>, c: Work, w: Work)
    requires s.blockSize > 0 && |tried| == |offered|
    ensures PutBackOf(s, tried + [c], offered + [w]) ==
      PutBackOf(s, tried, offered) + (if CanAllocate(Tried(s, tried), c) then [] else [w])
  {
    assert (tried + [c])[..|tried|] == tried && (offered + [w])[..|offered|] == offered;
  }

  /** Each item is what was left of the tokens allowed of its work. */
  ghost predicate CutToFit(s: State, tokens: nat, tried: seq<Work>, offered: seq<Work>)
    requires s.blockSize > 0
  {
    && |tried| == |offered|
    && (tried == [] ||
        var n := |tried| - 1;
        && CutToFit(s, tokens, tried[..n], offered[..n]) && TotalCost(Granted(s, tried[..n])) <= tokens
        && tried[n] == ChunkFor(offered[n], tokens - TotalCost(Granted(s, tried[..n]))))
  }

  lemma CutToFitMore(s: State, tokens: nat, tried: seq<Work>, offered: seq<Work>, c: Work, w: Work)
    requires s.blockSize > 0 && CutToFit(s, tokens, tried, offered) && TotalCost(Granted(s, tried)) <= tokens
    requires c == ChunkFor(w, tokens - TotalCost(Granted(s, tried)))
    ensures CutToFit(s, tokens, tried + [c], offered + [w])
  {
    assert (tried + [c])[..|tried|] == tried && (offered + [w])[..|offered|] == offered;
  }

  lemma {:induction false} CutToFitFirst(s: State, tokens: nat, tried: seq<Work>, offered: seq<Work>)
    requires s.blockSize > 0 && CutToFit(s, tokens, tried, offered) && tried != []
    ensures tried[0] == ChunkFor(offered[0], tokens)
    decreases |tried|
  {
    var n := |tried| - 1;
    if n > 0 {
      CutToFitFirst(s, tokens, tried[..n], offered[..n]);
    } else {
      assert tried[..0] == [];
    }
  }

  /**
   * From the schedulable works `start` of a queue, `offered` were offered in order, and `now` are left: the works
   * that were refused blocks have gone to the end of the queue, and may have been offered again from there. Without a
   * block manager every work that is offered fails.
   */
  ghost predicate InOrder(s: State, p: Picked, registered: bool, start: seq<Work>, offered: seq<Work>, now: seq<Work>)
    requires s.blockSize > 0
  {
    if registered then p.failed == [] && |p.tried| == |offered| && offered + now == start + PutBackOf(s, p.tried, offered)
    else p.tried == [] && p.failed == offered && offered + now == start
  }

  /** The schedulable works of the queue after the first of them has been offered. */
  function Turned(q: seq<Work>, o: Offered): seq<Work>
    requires q != []
  {
    if o.PutBack? then q[1..] + [q[0]] else q[1..]
  }

  /** A work that was put back is the queue's last. */
  lemma QueueAfter(rest: seq<Work>, w: Work, o: Offered, ok: set<RequestId>)
    ensures var after := rest + (if o.PutBack? then [w] else []);
      Filtered(after, ok) == Filtered(rest, ok) + (if o.PutBack? && w.requestId in ok then [w] else [])
  {
    FilteredMore(rest, w, ok);
    assert rest + [] == rest && Filtered(rest, ok) + [] == Filtered(rest, ok);
  }

  /** The outcome is that of the queue's first schedulable work. */
  ghost predicate OfHead(t: State, registered: bool, q: seq<Work>, o: Offered)
    requires t.blockSize > 0
  {
    && q != [] && !o.NoneLeft? && !o.TooCostly? && o.origin == q[0]
    && (o.Rejected? <==> !registered)
    && (o.Taken? ==> CanAllocate(t, o.chunk)) && (o.PutBack? ==> !CanAllocate(t, o.chunk))
  }

  lemma Rotated(offered: seq<Work>, q: seq<Work>, start: seq<Work>, back: seq<Work>, more: seq<Work>)
    requires q != [] && offered + q == start + back
    ensures offered + [q[0]] + (q[1..] + more) == start + (back + more)
  {
    assert q == [q[0]] + q[1..];
    assert offered + [q[0]] + (q[1..] + more) == offered + q + more;
    assert start + (back + more) == start + back + more;
  }

  lemma OfferedInOrder(s: State, t: State, p: Picked, kind: Kind, registered: bool, start: seq<Work>, offered: seq<Work>, q: seq<Work>, o: Offered)
    requires Traced(s, t, p.batch, p.tried) && InOrder(s, p, registered, start, offered, q) && OfHead(t, registered, q, o)
    requires o.Taken? ==> Affordable(p.rest, kind, Cost(o.chunk))
    ensures InOrder(s, Recorded(p, kind, o), registered, start, offered + [q[0]], Turned(q, o))
  {
    var more := if o.PutBack? then [q[0]] else [];
    if registered {
      PutBackMore(s, p.tried, offered, o.chunk, q[0]);
      Rotated(offered, q, start, PutBackOf(s, p.tried, offered), more);
    } else {
      Rotated(offered, q, start, [], []);
      assert start + [] == start && q[1..] + [] == q[1..];
    }
    if !o.PutBack? {
      assert q[1..] + [] == q[1..];
    }
  }

  /** The first offer, if there is one, is of the first schedulable work, and within the budget. */
  ghost predicate Begun(offered: seq<Work>, start: seq<Work>, budget: Budget, kind: Kind) {
    offered != [] ==>
      && start != [] && offered[0] == start[0] && budget.tokens > 0 && budget.seqs > 0 && budget.prefill > 0
      && (kind == ShortPrefill ==> Cost(start[0]) <= budget.tokens) && (kind == LongPrefill ==> budget.large > 0)
  }

  lemma TurnBegins(s: State, p: Picked, kind: Kind, registered: bool, start: seq<Work>, offered: seq<Work>, q: seq<Work>, o: Offered, more: seq<Work>,
                   budget: Budget)
    requires s.blockSize > 0 && InBudget(p, budget, kind) && InOrder(s, p, registered, start, offered, q) && Begun(offered, start, budget, kind)
    requires Traced(s, Tried(s, p.tried), p.batch, p.tried) && (!registered ==> p.tried == [])
    requires more == offered + (if Stopped(o) then [] else [o.origin])
    requires !Stopped(o) ==> q != [] && o.origin == q[0] && (kind == ShortPrefill ==> Cost(q[0]) <= p.rest.tokens)
    requires p.rest.tokens > 0 && p.rest.seqs > 0 && p.rest.prefill > 0 && (kind == LongPrefill ==> p.rest.large > 0)
    ensures Begun(more, start, budget, kind)
  {
    if offered == [] && !Stopped(o) {
      assert [] + q == q && start + [] == start;
      assert more == [o.origin];
    }
  }

  lemma NoneOffered(s: State, p: Picked, registered: bool, start: seq<Work>)
    requires s.blockSize > 0 && p.tried == [] && p.failed == []
    ensures InOrder(s, p, registered, start, [], start)
  {
    assert [] + start == start + [];
  }

  /** Nothing was left to offer, or the head costs more than is left. */
  predicate Stopped(o: Offered) {
    o.NoneLeft? || o.TooCostly?
  }

  /** Without a block manager nothing is tried; with one, the items fit the tokens that are left. */
  ghost predicate FitsTokens(s: State, registered: bool, tokens: nat, p: Picked, offered: seq<Work>)
    requires s.blockSize > 0
  {
    registered ==> CutToFit(s, tokens, p.tried, offered)
  }

  lemma TurnFits(s: State, t: State, p: Picked, budget: Budget, kind: Kind, registered: bool, o: Offered, offered: seq<Work>, more: seq<Work>)
    requires InBudget(p, budget, kind) && Traced(s, t, p.batch, p.tried) && FitsTokens(s, registered, budget.tokens, p, offered)
    requires more == offered + (if Stopped(o) then [] else [o.origin])
    requires o.Taken? ==> Affordable(p.rest, kind, Cost(o.chunk))
    requires o.Taken? || o.PutBack? ==> o.chunk == ChunkFor(o.origin, p.rest.tokens)
    requires o.Rejected? ==> !registered
    ensures FitsTokens(s, registered, budget.tokens, Recorded(p, kind, o), more)
  {
    if Stopped(o) {
      assert offered + [] == offered;
    } else if registered {
      CutToFitMore(s, budget.tokens, p.tried, offered, o.chunk, o.origin);
    }
  }

  /** What is recorded of one turn of a prefill queue: the budget, the metadata, and the order. */
  lemma TurnRecorded(s: State, t: State, u: State, p: Picked, budget: Budget, kind: Kind, registered: bool, o: Offered, m: Mark,
                     start: seq<Work>, offered: seq<Work>, q: seq<Work>) returns (r: Picked, more: seq<Work>)
    requires InBudget(p, budget, kind) && Traced(s, t, p.batch, p.tried) && InOrder(s, p, registered, start, offered, q) && Outcome(t, u, o)
    requires !Stopped(o) ==> OfHead(t, registered, q, o)
    requires o.Taken? ==> Affordable(p.rest, kind, Cost(o.chunk)) && ChunkOf(o.chunk, o.origin)
    ensures r == Recorded(p, kind, o) && InBudget(r, budget, kind) && Traced(s, u, r.batch, r.tried)
    ensures Gone(r, m) == Gone(p, m) + Left(o, m) && r.batch == p.batch + (if o.Taken? then [o.chunk] else [])
    ensures more == offered + (if Stopped(o) then [] else [o.origin])
    ensures InOrder(s, r, registered, start, more, if Stopped(o) then q else Turned(q, o))
  {
    RecordedKeeps(p, budget, kind, o, m);
    RecordedTraced(s, t, u, p, kind, o);
    r := Recorded(p, kind, o);
    if Stopped(o) {
      more := offered;
    } else {
      more := offered + [o.origin];
      OfferedInOrder(s, t, p, kind, registered, start, offered, q, o);
    }
  }

  // ---------------------------------------------------------------- whole lists

  lemma OneLonger<T>(xs: seq<T>, i: nat)
    requires i < |xs|
    ensures xs[..i + 1] == xs[..i] + [xs[i]]
  {
  }

  /** The works were offered in order; those that were refused are at the end of the queue. */
  ghost predicate OfferedAll(s: State, registered: bool, p: Picked, ws: seq<Work>, before: seq<Work>, after: seq<Work>)
    requires s.blockSize > 0
  {
    && p.tried == (if registered then ws else []) && p.failed == (if registered then [] else ws)
    && after == before + (if registered then PutBackOf(s, ws, ws) else [])
  }

  lemma PutBackIff(s: State, t: State, u: State, p: Picked, o: Offered)
    requires Traced(s, t, p.batch, p.tried) && Outcome(t, u, o)
    ensures o.PutBack? ==> !CanAllocate(Tried(s, p.tried), o.chunk)
    ensures o.Taken? ==> CanAllocate(Tried(s, p.tried), o.chunk)
  {
  }

  lemma OneMoreOffered(s: State, registered: bool, p: Picked, kind: Kind, ws: seq<Work>, w: Work, o: Offered, before: seq<Work>, mid: seq<Work>)
    requires s.blockSize > 0 && OfferedAll(s, registered, p, ws, before, mid)
    requires !o.NoneLeft? && !o.TooCostly? && o.origin == w && (o.Rejected? <==> !registered) && (!o.Rejected? ==> o.chunk == w)
    requires o.PutBack? ==> !CanAllocate(Tried(s, p.tried), o.chunk)
    requires o.Taken? ==> CanAllocate(Tried(s, p.tried), o.chunk) && Affordable(p.rest, kind, Cost(o.chunk))
    ensures OfferedAll(s, registered, Recorded(p, kind, o), ws + [w], before, mid + (if o.PutBack? then [w] else []))
  {
    if registered {
      PutBackMore(s, ws, ws, w, w);
      Assoc(before, PutBackOf(s, ws, ws), if o.PutBack? then [w] else []);
    }
  }

  /** What is recorded of one decode step: the budget, the metadata, and the order. */
  lemma DecodeRecorded(s: State, t: State, u: State, p: Picked, budget: Budget, registered: bool, ws: seq<Work>, w: Work, o: Offered, m: Mark,
                       before: seq<Work>, mid: seq<Work>) returns (q: Picked)
    requires InBudget(p, budget, DecodeStep) && Traced(s, t, p.batch, p.tried) && OfferedAll(s, registered, p, ws, before, mid)
    requires Outcome(t, u, o) && !o.NoneLeft? && !o.TooCostly? && o.origin == w && (o.Rejected? <==> !registered) && (!o.Rejected? ==> o.chunk == w)
    requires Affordable(p.rest, DecodeStep, Cost(w))
    ensures q == Recorded(p, DecodeStep, o) && InBudget(q, budget, DecodeStep) && Traced(s, u, q.batch, q.tried)
    ensures Gone(q, m) == Gone(p, m) + Left(o, m) && q.batch == p.batch + (if o.Taken? then [o.chunk] else [])
    ensures OfferedAll(s, registered, q, ws + [w], before, mid + (if o.PutBack? then [w] else []))
  {
    RecordedKeeps(p, budget, DecodeStep, o, m);
    RecordedTraced(s, t, u, p, DecodeStep, o);
    PutBackIff(s, t, u, p, o);
    OneMoreOffered(s, registered, p, DecodeStep, ws, w, o, before, mid);
    q := Recorded(p, DecodeStep, o);
  }

  // ---------------------------------------------------------------- the first offer

  /** The first work of the round that is offered blocks, or the part of it that is. */
  function FirstOffer(decodes: seq<Work>, shorts: seq<Work>, longs: seq<Work>, limits: Budget): Option<Work> {
    if limits.seqs == 0 || limits.tokens == 0 then None
    else if decodes != [] then Some(decodes[0])
    else if shorts != [] && Cost(shorts[0]) <= limits.tokens then Some(shorts[0])
    else if longs != [] then Some(ChunkFor(longs[0], limits.tokens))
    else None
  }

  lemma HeadOfOrder(s: State, p: Picked, start: seq<Work>, now: seq<Work>)
    requires s.blockSize > 0 && p.tried == [] && InOrder(s, p, true, start, [], now)
    ensures now == start
  {
    assert [] + now == now && start + [] == start;
  }

  /** When no short prefill is asked for, there is none, or no budget, or the first one is too costly. */
  lemma NoShortOffer(s: State, p: Picked, start: seq<Work>, now: seq<Work>, budget: Budget, queued: nat)
    requires s.blockSize > 0 && p.tried == [] && p.batch == [] && InOrder(s, p, true, start, [], now) && InBudget(p, budget, ShortPrefill)
    requires p.rest.seqs == 0 || p.rest.tokens == 0 || p.rest.prefill == 0 || now == [] || Cost(now[0]) > p.rest.tokens || queued == 0
    requires start != [] ==> queued > 0
    ensures start == [] || Cost(start[0]) > budget.tokens || budget.seqs == 0 || budget.tokens == 0 || budget.prefill == 0
  {
    HeadOfOrder(s, p, start, now);
  }

  lemma NoLongOffer(s: State, p: Picked, start: seq<Work>, now: seq<Work>, budget: Budget, queued: nat)
    requires s.blockSize > 0 && p.tried == [] && p.batch == [] && InOrder(s, p, true, start, [], now) && InBudget(p, budget, LongPrefill)
    requires p.rest.seqs == 0 || p.rest.tokens == 0 || p.rest.prefill == 0 || p.rest.large == 0 || now == [] || queued == 0
    requires start != [] ==> queued > 0
    ensures start == [] || budget.seqs == 0 || budget.tokens == 0 || budget.prefill == 0 || budget.large == 0
  {
    HeadOfOrder(s, p, start, now);
  }

  /** What the three picks of a round asked blocks for begins with the first offer. */
  lemma FirstOfRound(s: State, decodes: seq<Work>, shorts: seq<Work>, longs: seq<Work>, limits: Budget, d: Picked, p: Picked, l: Picked,
                     offered: seq<Work>, tried: seq<Work>)
    requires s.blockSize > 0 && tried == d.tried + p.tried + l.tried
    requires d.tried == decodes && (decodes != [] ==> limits.seqs > 0 && limits.tokens > 0)
    requires decodes == [] ==> d.rest == limits.(prefill := limits.seqs, large := limits.seqs)
    requires decodes == [] ==> Begun(p.tried, shorts, d.rest, ShortPrefill)
    requires decodes == [] && p.tried == [] ==>
      && (shorts == [] || Cost(shorts[0]) > limits.tokens || limits.seqs == 0 || limits.tokens == 0)
      && p.rest == d.rest && |offered| == |l.tried| && Begun(offered, longs, p.rest, LongPrefill)
      && (l.tried != [] ==> l.tried[0] == ChunkFor(offered[0], p.rest.tokens))
      && (l.tried == [] ==> longs == [] || limits.seqs == 0 || limits.tokens == 0)
    ensures var first := FirstOffer(decodes, shorts, longs, limits);
      (tried == [] <==> first.None?) && (first.Some? ==> tried[0] == first.value)
  {
    if decodes == [] {
      assert d.tried + p.tried + l.tried == p.tried + l.tried;
    }
  }

  /** A first offer that can be granted heads the batch. */
  lemma FirstGranted(s: State, tried: seq<Work>)
    requires s.blockSize > 0 && tried != [] && CanAllocate(s, tried[0])
    ensures Granted(s, tried) != [] && Granted(s, tried)[0] == tried[0]
  {
    GrantedOne(s, tried[0]);
    TriedConcat(s, [tried[0]], tried[1..]);
    HeadAndTail(tried);
  }

  lemma GrantedOne(s: State, w: Work)
    requires s.blockSize > 0
    ensures Granted(s, [w]) == if CanAllocate(s, w) then [w] else []
  {
    assert [w][..0] == [];
  }

  lemma HeadAndTail(ws: seq<Work>)
    requires ws != []
    ensures ws == [ws[0]] + ws[1..]
  {
  }

  // ---------------------------------------------------------------- a whole round

  /** The three picks of a round, and the long prefills that were offered, before they were cut. */
  datatype Round = Round(decodes: Picked, shorts: Picked, longs: Picked, offered: seq<Work>)

  /** What ends the pick of short prefills. */
  ghost predicate ShortsEnd(p: Picked, left: seq<Work>, offered: nat, queued: nat) {
    || p.rest.seqs == 0 || p.rest.tokens == 0 || p.rest.prefill == 0
    || left == [] || Cost(left[0]) > p.rest.tokens || offered == queued
  }

  /** What ends the pick of long prefills: the last one is cut, so its cost does not. */
  ghost predicate LongsEnd(p: Picked, left: seq<Work>, offered: nat, queued: nat) {
    || p.rest.seqs == 0 || p.rest.tokens == 0 || p.rest.prefill == 0 || p.rest.large == 0
    || left == [] || offered == queued
  }

  /** Decodes, short and long prefills were offered in the order of their queues, and the long ones cut to the tokens left. */
  ghost predicate Ordered(s: State, registered: bool, r: Round, decodes: seq<Work>, shorts: seq<Work>, longs: seq<Work>,
                          shortsLeft: seq<Work>, longsLeft: seq<Work>)
    requires s.blockSize > 0
  {
    var t := Tried(s, r.decodes.tried);
    var u := Tried(t, r.shorts.tried);
    && r.decodes.tried == (if registered then decodes else []) && r.decodes.failed == (if registered then [] else decodes)
    && InOrder(t, r.shorts, registered, shorts, if registered then r.shorts.tried else r.shorts.failed, shortsLeft)
    && InOrder(u, r.longs, registered, longs, r.offered, longsLeft)
    && FitsTokens(u, registered, r.shorts.rest.tokens, r.longs, r.offered)
  }

  /** Something is asked for if there is a first offer, and that offer heads the batch if it can be granted. */
  ghost predicate Leads(s: State, b: Assembled, first: Option<Work>)
    requires s.blockSize > 0
  {
    && (b.tried == [] <==> first.None?) && (first.Some? ==> b.tried[0] == first.value)
    && (first.Some? && CanAllocate(s, first.value) ==> b.Batch() != [] && b.Batch()[0] == first.value)
  }

  /** Without a decode and without an offer of a short prefill, the long ones find the whole budget. */
  lemma NothingShort(t: State, p: Picked, shorts: seq<Work>, left: seq<Work>, budget: Budget, queued: nat)
    requires t.blockSize > 0 && p.tried == [] && p.batch == Granted(t, p.tried) && InBudget(p, budget, ShortPrefill)
    requires InOrder(t, p, true, shorts, p.tried, left) && ShortsEnd(p, left, |p.tried|, queued) && |shorts| <= queued
    ensures p.rest == budget
    ensures shorts == [] || Cost(shorts[0]) > budget.tokens || budget.seqs == 0 || budget.tokens == 0 || budget.prefill == 0
  {
    NoShortOffer(t, p, shorts, left, budget, queued);
  }

  lemma NothingLong(u: State, p: Picked, longs: seq<Work>, offered: seq<Work>, left: seq<Work>, budget: Budget, queued: nat)
    requires u.blockSize > 0 && p.tried == [] && p.batch == Granted(u, p.tried) && InBudget(p, budget, LongPrefill)
    requires InOrder(u, p, true, longs, offered, left) && LongsEnd(p, left, |offered|, queued) && |longs| <= queued
    ensures longs == [] || budget.seqs == 0 || budget.tokens == 0 || budget.prefill == 0 || budget.large == 0
  {
    assert offered == [];
    NoLongOffer(u, p, longs, left, budget, queued);
  }

  lemma PicksOrdered(s: State, t: State, u: State, registered: bool, r: Round, decodes: seq<Work>, shorts: seq<Work>, longs: seq<Work>,
                     shortsLeft: seq<Work>, longsLeft: seq<Work>)
    requires Traced(s, t, r.decodes.batch, r.decodes.tried) && Traced(t, u, r.shorts.batch, r.shorts.tried) && u.blockSize > 0
    requires r.decodes.tried == (if registered then decodes else []) && r.decodes.failed == (if registered then [] else decodes)
    requires InOrder(t, r.shorts, registered, shorts, if registered then r.shorts.tried else r.shorts.failed, shortsLeft)
    requires InOrder(u, r.longs, registered, longs, r.offered, longsLeft) && FitsTokens(u, registered, r.shorts.rest.tokens, r.longs, r.offered)
    ensures Ordered(s, registered, r, decodes, shorts, longs, shortsLeft, longsLeft)
  {
  }

  lemma RoundLeads(s: State, t: State, u: State, r: Round, decodes: seq<Work>, shorts: seq<Work>, longs: seq<Work>,
                   shortsLeft: seq<Work>, longsLeft: seq<Work>, limits: Budget, small: nat, large: nat, b: Assembled)
    requires Traced(s, t, r.decodes.batch, r.decodes.tried) && Traced(t, u, r.shorts.batch, r.shorts.tried) && u.blockSize > 0
    requires Ordered(s, true, r, decodes, shorts, longs, shortsLeft, longsLeft) && |shorts| <= small && |longs| <= large
    requires decodes == [] ==> r.decodes.rest == limits.(prefill := limits.seqs, large := limits.seqs)
    requires decodes != [] ==> limits.seqs > 0 && limits.tokens > 0
    requires InBudget(r.shorts, r.decodes.rest, ShortPrefill) && InBudget(r.longs, r.shorts.rest, LongPrefill)
    requires r.longs.batch == Granted(u, r.longs.tried)
    requires Begun(r.shorts.tried, shorts, r.decodes.rest, ShortPrefill) && Begun(r.offered, longs, r.shorts.rest, LongPrefill)
    requires ShortsEnd(r.shorts, shortsLeft, |r.shorts.tried|, small) && LongsEnd(r.longs, longsLeft, |r.offered|, large)
    requires b.tried == r.decodes.tried + r.shorts.tried + r.longs.tried && b.Batch() == Granted(s, b.tried)
    ensures Leads(s, b, FirstOffer(decodes, shorts, longs, limits))
  {
    if decodes == [] && r.shorts.tried == [] {
      NothingShort(t, r.shorts, shorts, shortsLeft, r.decodes.rest, small);
      if r.longs.tried == [] {
        NothingLong(u, r.longs, longs, r.offered, longsLeft, r.shorts.rest, large);
      } else {
        CutToFitFirst(u, r.shorts.rest.tokens, r.longs.tried, r.offered);
      }
    }
    FirstOfRound(s, decodes, shorts, longs, limits, r.decodes, r.shorts, r.longs, r.offered, b.tried);
    if b.tried != [] && CanAllocate(s, b.tried[0]) {
      FirstGranted(s, b.tried);
    }
  }

  /** The three picks together: within the limits, cut from what left the queues, and admitted one after the other. */
  lemma PicksTogether(s: State, t: State, u: State, v: State, d: Picked, p: Picked, l: Picked, dequeued: nat, limits: Budget, m: Mark)
      returns (b: Assembled)
    requires InBudget(d, if dequeued > 0 then limits else limits.(prefill := limits.seqs, large := limits.seqs), DecodeStep)
    requires InBudget(p, d.rest, ShortPrefill) && InBudget(l, p.rest, LongPrefill) && |d.batch| <= dequeued
    requires Traced(s, t, d.batch, d.tried) && Traced(t, u, p.batch, p.tried) && Traced(u, v, l.batch, l.tried)
    requires Admitted(t, d.batch) && Keeps(t, u) && Admitted(u, p.batch) && Keeps(u, v) && Admitted(v, l.batch)
    ensures b == Assemble(d, p, l, dequeued) && WithinLimits(b, limits) && CutFrom(b.Batch(), b.origins)
    ensures Count(b.Batch(), m) + Count(b.failed, m) == Gone(d, m) + Gone(p, m) + Gone(l, m)
    ensures Traced(s, v, b.Batch(), b.tried) && Admitted(v, b.Batch())
  {
    b := Assemble(d, p, l, dequeued);
    AssembleCounts(d, p, l, dequeued, m);
    AssembleFits(d, p, l, dequeued, limits);
    CutKeepsCount(b.Batch(), b.origins, m);
    AdmittedConcat(t, u, d.batch, p.batch);
    AdmittedConcat(u, v, d.batch + p.batch, l.batch);
    TracedConcat(s, t, u, d.batch, d.tried, p.batch, p.tried);
    TracedConcat(s, u, v, d.batch + p.batch, d.tried + p.tried, l.batch, l.tried);
  }

  /** The two picks of prefills, from the metadata t over u to v. */
  ghost predicate PrefillsPicked(t: State, u: State, v: State, registered: bool, p: Picked, l: Picked, offered: seq<Work>, budget: Budget,
                                 shorts: seq<Work>, longs: seq<Work>, shortsLeft: seq<Work>, longsLeft: seq<Work>, small: nat, large: nat)
  {
    && Traced(t, u, p.batch, p.tried) && Traced(u, v, l.batch, l.tried)
    && Admitted(u, p.batch) && Keeps(u, v) && Admitted(v, l.batch) && Keeps(t, u)
    && InBudget(p, budget, ShortPrefill) && InBudget(l, p.rest, LongPrefill)
    && (var first := if registered then p.tried else p.failed;
        && InOrder(t, p, registered, shorts, first, shortsLeft) && Begun(first, shorts, budget, ShortPrefill)
        && ShortsEnd(p, shortsLeft, |first|, small))
    && InOrder(u, l, registered, longs, offered, longsLeft) && FitsTokens(u, registered, p.rest.tokens, l, offered)
    && Begun(offered, longs, p.rest, LongPrefill) && LongsEnd(l, longsLeft, |offered|, large)
    && |shorts| <= small && |longs| <= large
  }

  /** The pick of decode steps, from the metadata s to t. */
  ghost predicate DecodesPicked(s: State, t: State, registered: bool, d: Picked, dequeued: nat, limits: Budget, decodes: seq<Work>) {
    && dequeued == |decodes| <= Min(limits.seqs, limits.tokens)
    && InBudget(d, if dequeued > 0 then limits else limits.(prefill := limits.seqs, large := limits.seqs), DecodeStep)
    && |d.batch| <= dequeued && Traced(s, t, d.batch, d.tried) && Admitted(t, d.batch)
    && d.tried == (if registered then decodes else []) && d.failed == (if registered then [] else decodes)
  }

  /** What the three picks of a round come to. */
  lemma WholeRound(s: State, t: State, u: State, v: State, registered: bool, r: Round, dequeued: nat, limits: Budget,
                   decodes: seq<Work>, shorts: seq<Work>, longs: seq<Work>, shortsLeft: seq<Work>, longsLeft: seq<Work>,
                   small: nat, large: nat, m: Mark) returns (b: Assembled)
    requires DecodesPicked(s, t, registered, r.decodes, dequeued, limits, decodes)
    requires PrefillsPicked(t, u, v, registered, r.shorts, r.longs, r.offered, r.decodes.rest, shorts, longs, shortsLeft, longsLeft, small, large)
    ensures b == Assemble(r.decodes, r.shorts, r.longs, dequeued) && WithinLimits(b, limits) && CutFrom(b.Batch(), b.origins)
    ensures Count(b.Batch(), m) + Count(b.failed, m) == Gone(r.decodes, m) + Gone(r.shorts, m) + Gone(r.longs, m)
    ensures Traced(s, v, b.Batch(), b.tried) && Admitted(v, b.Batch()) && Keeps(t, v)
    ensures Ordered(s, registered, r, decodes, shorts, longs, shortsLeft, longsLeft)
    ensures ShortsEnd(r.shorts, shortsLeft, if registered then |r.shorts.tried| else |r.shorts.failed|, small)
    ensures LongsEnd(r.longs, longsLeft, |r.offered|, large)
    ensures registered ==> Leads(s, b, FirstOffer(decodes, shorts, longs, limits))
  {
    b := PicksTogether(s, t, u, v, r.decodes, r.shorts, r.longs, dequeued, limits, m);
    PicksOrdered(s, t, u, registered, r, decodes, shorts, longs, shortsLeft, longsLeft);
    if registered {
      RoundLeads(s, t, u, r, decodes, shorts, longs, shortsLeft, longsLeft, limits, small, large, b);
    }
  }
}

/** The engine's steps on one executor keep its metadata in agreement with its pages. */
module HostRequests {
  import opened Hashing
  import opened Spans
  import opened BlockSpec
  import opened Bags
  import opened BlockEffects
  import opened BlockInv
  import opened RequestInv
  import opened CommitInv
  import opened ReleaseInv
  import opened TransferInv
  import opened Pages
  import opened Hosts

  /** The request's progress and prompt are as before and its leading tokens are still there. */
  ghost predicate Continues(n: Node, h: Host, m: Node, k: Host, r: RequestId) {
    && Progress(m, r) == Progress(n, r)
    && (r in h.live ==> r in k.live && k.live[r].prompt == h.live[r].prompt && h.live[r].tokens <= k.live[r].tokens)
  }

  lemma FlightStays(sha: Str -> Str, n: Node, h: Host, m: Node, k: Host, a: Allocation, it: Item)
    requires n.s.blockSize > 0 && m.s.blockSize == n.s.blockSize && FlightOk(sha, n, h, a, it)
    requires Continues(n, h, m, k, a.requestId)
    ensures FlightOk(sha, m, k, a, it)
  {
  }

  /** The allocations still pending belong to requests that continue; those that ended were not at the executor. */
  lemma FlightsStay(sha: Str -> Str, n: Node, h: Host, m: Node, k: Host)
    requires n.s.blockSize > 0 && m.s.blockSize == n.s.blockSize && FlightsOk(sha, n, h) && k.flights == h.flights
    requires forall w :: w in m.s.pending ==>
      w in n.s.pending && m.s.pending[w] == n.s.pending[w] && Continues(n, h, m, k, n.s.pending[w].requestId)
    requires forall w :: w in n.s.pending && w !in m.s.pending ==> w in h.flights && h.flights[w].stage != InFlight
    ensures FlightsOk(sha, m, k)
  {
    forall w | w in m.s.pending
      ensures w in k.flights && FlightOk(sha, m, k, m.s.pending[w], k.flights[w].item)
    {
      FlightStays(sha, n, h, m, k, n.s.pending[w], h.flights[w].item);
    }
  }

  // ---------------------------------------------------------------- a request arrives

  lemma RunFits(s: State, p: Prompt, matchable: seq<Hash>)
    requires s.blockSize > 0 && |matchable| == MaxMatched(s.blockSize, |p.tokens|)
    ensures Span(|Run(s.index, matchable)|, s.blockSize) <= |p.tokens|
  {
    MaxMatchedFits(s.blockSize, |p.tokens|);
    SpanMonotone(|Run(s.index, matchable)|, |matchable|, s.blockSize);
  }

  lemma MatchableAt(sha: Str -> Str, bs: nat, p: Prompt, i: nat)
    requires bs > 0 && i < MaxMatched(bs, |p.tokens|)
    ensures Span(i + 1, bs) <= |p.tokens|
    ensures Matchable(sha, bs, p.salt, p.tokens)[i] == ChainHash(sha, bs, p.salt, p.tokens, i)
  {
    MaxMatchedFits(bs, |p.tokens|);
    SpanOfQuotient(|p.tokens|, bs);
    HashAt(sha, bs, p.salt, p.tokens, |p.tokens| / bs, i);
  }

  lemma MatchedBlock(sha: Str -> Str, prompts: set<Prompt>, s: State, phys: Phys, p: Prompt, i: nat)
    requires s.blockSize > 0 && PublishedOk(sha, prompts, s, phys)
    requires CollisionFree(sha, prompts, s.blockSize) && p in prompts
    requires i < MaxMatched(s.blockSize, |p.tokens|)
    requires Matchable(sha, s.blockSize, p.salt, p.tokens)[i] in s.index
    ensures var b := s.index[Matchable(sha, s.blockSize, p.salt, p.tokens)[i]];
      && b < |phys| && Span(i + 1, s.blockSize) <= |p.tokens|
      && phys[b] == FullBlock(PrefixKV(p.tokens)[Span(i, s.blockSize)..Span(i + 1, s.blockSize)])
  {
    MatchableAt(sha, s.blockSize, p, i);
    NamedIsOwn(sha, prompts, s.blockSize, p, i, phys[s.index[Matchable(sha, s.blockSize, p.salt, p.tokens)[i]]]);
  }

  /** Entry i of the table holds block i of the K/V. */
  ghost predicate HoldsBlock(phys: Phys, table: seq<nat>, bs: nat, kvs: seq<KV>, i: nat)
    requires i < |table|
  {
    table[i] < |phys| && Span(i + 1, bs) <= |kvs| && phys[table[i]] == FullBlock(kvs[Span(i, bs)..Span(i + 1, bs)])
  }

  /** Blocks that hold the prompt's blocks in order hold its positions. */
  lemma BlocksAreDense(phys: Phys, table: seq<nat>, bs: nat, kvs: seq<KV>)
    requires Span(|table|, bs) <= |kvs|
    requires forall i :: 0 <= i < |table| ==> HoldsBlock(phys, table, bs, kvs, i)
    ensures Dense(phys, table, bs, kvs, Span(|table|, bs))
  {
    forall i, o | 0 <= i < |table| && 0 <= o < bs && Span(i, bs) + o < Span(|table|, bs)
      ensures HeldAt(phys, table, bs, kvs, i, o)
    {
      assert HoldsBlock(phys, table, bs, kvs, i);
      assert kvs[Span(i, bs)..Span(i + 1, bs)][o] == kvs[Span(i, bs) + o];
    }
  }

  /** The blocks a prompt matches hold exactly the prompt's own leading tokens. */
  lemma MatchedIsDense(sha: Str -> Str, prompts: set<Prompt>, s: State, phys: Phys, p: Prompt)
    requires Indexed(s) && s.blockSize > 0 && Shaped(phys, s.blockSize) && PublishedOk(sha, prompts, s, phys)
    requires CollisionFree(sha, prompts, s.blockSize) && p in prompts
    ensures var run := Run(s.index, Matchable(sha, s.blockSize, p.salt, p.tokens));
      Dense(phys, run, s.blockSize, PrefixKV(p.tokens), Span(|run|, s.blockSize))
  {
    var bs, matchable := s.blockSize, Matchable(sha, s.blockSize, p.salt, p.tokens);
    var run, kvs := Run(s.index, matchable), PrefixKV(p.tokens);
    RunFits(s, p, matchable);
    forall i | 0 <= i < |run|
      ensures HoldsBlock(phys, run, bs, kvs, i)
    {
      MatchedBlock(sha, prompts, s, phys, p, i);
    }
    BlocksAreDense(phys, run, bs, kvs);
  }

  function AfterArrival(h: Host, rid: RequestId, p: Prompt): Host {
    h.(live := h.live[rid := Live(p, p.tokens)])
  }

  lemma MatchKeepsHost(sha: Str -> Str, prompts: set<Prompt>, n: Node, h: Host, rid: RequestId, p: Prompt)
    requires Inv(n) && HostOk(sha, prompts, n, h) && rid !in n.s.tables && rid !in h.live
    requires p in prompts && CollisionFree(sha, prompts, n.s.blockSize)
    ensures HostOk(sha, prompts, NMatch(n, rid, Matchable(sha, n.s.blockSize, p.salt, p.tokens)), AfterArrival(h, rid, p))
  {
    var matchable := Matchable(sha, n.s.blockSize, p.salt, p.tokens);
    var m, run := MatchResult(n, rid, matchable);
    RunFits(n.s, p, matchable);
    if h.up {
      MatchedIsDense(sha, prompts, n.s, h.phys, p);
    }
    ArrivalKeepsHost(sha, prompts, n, h, m, rid, p, run);
  }

  lemma MatchResult(n: Node, rid: RequestId, matchable: seq<Hash>) returns (m: Node, run: seq<nat>)
    requires Inv(n) && rid !in n.s.tables
    ensures m == NMatch(n, rid, matchable) && run == Run(n.s.index, matchable)
    ensures Arrived(n, m, rid, run)
  {
    m, run := NMatch(n, rid, matchable), Run(n.s.index, matchable);
    MatchFrame(n, rid, matchable);
    forall w | w in n.s.pending
      ensures n.s.pending[w].requestId != rid
    {
      assert AllocationOk(n, n.s.pending[w]);
    }
  }

  ghost predicate Arrived(n: Node, m: Node, rid: RequestId, run: seq<nat>) {
    && |m.s.blocks| == |n.s.blocks| && m.s.blockSize == n.s.blockSize && m.s.index == n.s.index
    && m.s.pending == n.s.pending && m.s.tables == n.s.tables[rid := run]
    && m.progress == n.progress[rid := Span(|run|, n.s.blockSize)]
    && (forall w :: w in n.s.pending ==> n.s.pending[w].requestId != rid)
  }

  lemma ArrivalKeepsFlights(sha: Str -> Str, n: Node, h: Host, m: Node, rid: RequestId, p: Prompt, run: seq<nat>)
    requires n.s.blockSize > 0 && FlightsOk(sha, n, h) && Arrived(n, m, rid, run) && rid !in h.live
    ensures FlightsOk(sha, m, AfterArrival(h, rid, p))
  {
    var k := AfterArrival(h, rid, p);
    forall w | w in m.s.pending
      ensures Continues(n, h, m, k, n.s.pending[w].requestId)
    {
    }
    FlightsStay(sha, n, h, m, k);
  }

  lemma ArrivalKeepsPhysical(sha: Str -> Str, prompts: set<Prompt>, n: Node, h: Host, m: Node, rid: RequestId, p: Prompt, run: seq<nat>)
    requires Physical(sha, prompts, n, h) && rid !in h.live && Arrived(n, m, rid, run)
    requires Dense(h.phys, run, n.s.blockSize, PrefixKV(p.tokens), Span(|run|, n.s.blockSize))
    ensures Physical(sha, prompts, m, AfterArrival(h, rid, p))
  {
    var k := AfterArrival(h, rid, p);
    forall r | r in m.s.tables && r in k.live
      ensures Dense(k.phys, m.s.tables[r], m.s.blockSize, PrefixKV(k.live[r].tokens), Progress(m, r))
    {
    }
  }

  lemma ArrivalKeepsHost(sha: Str -> Str, prompts: set<Prompt>, n: Node, h: Host, m: Node, rid: RequestId, p: Prompt, run: seq<nat>)
    requires HostOk(sha, prompts, n, h) && rid !in h.live && p in prompts && Arrived(n, m, rid, run)
    requires Span(|run|, n.s.blockSize) <= |p.tokens|
    requires h.up ==> Dense(h.phys, run, n.s.blockSize, PrefixKV(p.tokens), Span(|run|, n.s.blockSize))
    ensures HostOk(sha, prompts, m, AfterArrival(h, rid, p))
  {
    ArrivalKeepsFlights(sha, n, h, m, rid, p, run);
    if h.up {
      ArrivalKeepsPhysical(sha, prompts, n, h, m, rid, p, run);
    }
  }

  // ---------------------------------------------------------------- a work is allocated

  /**
   * The work items the request state machine produces: a prefill item continues the prompt from the
   * request's progress, a decode item carries all tokens and computes the last one.
   */
  ghost predicate WorkFor(sha: Str -> Str, bs: nat, l: Live, progress: nat, w: Work)
    requires bs > 0
  {
    && w.hashesTotal == BlockHashes(sha, bs, l.prompt.salt, l.prompt.tokens)
    && match w.phase
       case Prefill =>
         && w.prefillOffset == progress && w.prefillOffset + w.numNewTokens <= |l.prompt.tokens|
         && w.tokens == l.prompt.tokens[w.prefillOffset..w.prefillOffset + w.numNewTokens]
       case Decode =>
         w.tokens == l.tokens && w.tokenCntTotal == |l.tokens| && w.numNewTokens == 1 && progress + 1 == |l.tokens|
       case Unspecified => false
  }

  /** What the pages see of the item BatchToExecute makes of a work (see ShownPages.ExecutionIsItem). */
  function ItemOf(w: Work, a: Allocation): Item
    requires w.phase == Decode ==> w.numNewTokens <= |w.tokens| && w.numNewTokens <= w.tokenCntTotal
  {
    if w.phase == Decode then
      Item(w.workId, w.requestId, w.tokens[|w.tokens| - w.numNewTokens..], w.tokenCntTotal - w.numNewTokens, a.table, a.added)
    else
      Item(w.workId, w.requestId, w.tokens, w.prefillOffset, a.table, a.added)
  }

  function AfterAllocation(h: Host, w: Work, a: Allocation): Host
    requires w.phase == Decode ==> w.numNewTokens <= |w.tokens| && w.numNewTokens <= w.tokenCntTotal
  {
    h.(flights := h.flights[w.workId := Flight(ItemOf(w, a), Allocated)])
  }

  ghost predicate MayAllocateFor(sha: Str -> Str, n: Node, h: Host, w: Work)
    requires n.s.blockSize > 0
  {
    && MayAllocate(n, w) && w.workId !in n.s.pending
    && w.requestId in h.live && WorkFor(sha, n.s.blockSize, h.live[w.requestId], Progress(n, w.requestId), w)
  }

  lemma ItemFits(sha: Str -> Str, n: Node, h: Host, w: Work, a: Allocation)
    requires n.s.blockSize > 0 && w.requestId in h.live
    requires h.live[w.requestId].prompt.tokens <= h.live[w.requestId].tokens
    requires WorkFor(sha, n.s.blockSize, h.live[w.requestId], Progress(n, w.requestId), w)
    requires a.requestId == w.requestId && a.phase == w.phase && a.hashes == w.hashesTotal && a.tokensAfterCommit == RequiredTokens(w)
    ensures FlightOk(sha, n, h, a, ItemOf(w, a))
  {
  }

  /** The request's table has grown by `added`, unless the request had none. */
  ghost predicate Granted(n: Node, m: Node, w: Work, a: Allocation, k: nat) {
    && |m.s.blocks| == |n.s.blocks| && m.s.blockSize == n.s.blockSize
    && m.s.tables == n.s.tables[w.requestId := a.table] && m.s.pending == n.s.pending[w.workId := a]
    && m.progress == n.progress
    && a.requestId == w.requestId && a.phase == w.phase && a.hashes == w.hashesTotal && a.tokensAfterCommit == RequiredTokens(w)
    && k <= |a.table| && a.table[..k] == Listed(n.s.tables, w.requestId)
    && Progress(n, w.requestId) <= Span(k, n.s.blockSize)
    && (forall x :: x in m.s.index ==> x in n.s.index && m.s.index[x] == n.s.index[x])
    && (forall v :: v in n.s.pending ==> n.s.pending[v].requestId != w.requestId)
  }

  lemma AllocateResult(n: Node, w: Work) returns (m: Node, a: Allocation, k: nat)
    requires Inv(n) && MayAllocate(n, w) && CanAllocate(n.s, w)
    ensures m == NAllocate(n, w) && a == NewAllocation(n.s, w) && Granted(n, m, w, a, k)
  {
    m, a, k := NAllocate(n, w), NewAllocation(n.s, w), |Existing(n.s, w)|;
    AllocateFrame(n, w);
    assert a.table[..k] == Existing(n.s, w);
  }

  lemma GrantKeepsDense(n: Node, h: Host, m: Node, w: Work, a: Allocation, k: nat)
    requires Granted(n, m, w, a, k) && DenseOk(n, h) && w.requestId in h.live
    requires Progress(n, w.requestId) <= |h.live[w.requestId].tokens|
    ensures DenseOk(m, h)
  {
    var r := w.requestId;
    var kvs := PrefixKV(h.live[r].tokens);
    if r in n.s.tables {
      DenseTable(h.phys, n.s.tables[r], a.table, k, n.s.blockSize, kvs, kvs, Progress(n, r));
    } else {
      SpanMonotone(0, |a.table|, n.s.blockSize);
      assert Dense(h.phys, [], n.s.blockSize, kvs, 0);
      DenseTable(h.phys, [], a.table, 0, n.s.blockSize, kvs, kvs, Progress(n, r));
    }
  }

  lemma GrantKeepsHost(sha: Str -> Str, prompts: set<Prompt>, n: Node, h: Host, m: Node, w: Work, a: Allocation, k: nat, it: Item)
    requires HostOk(sha, prompts, n, h) && Granted(n, m, w, a, k) && w.workId !in n.s.pending && w.requestId in h.live
    requires Progress(n, w.requestId) <= |h.live[w.requestId].tokens| && FlightOk(sha, m, h, a, it)
    ensures HostOk(sha, prompts, m, h.(flights := h.flights[w.workId := Flight(it, Allocated)]))
  {
    var g := h.(flights := h.flights[w.workId := Flight(it, Allocated)]);
    FlightAdded(sha, n, h, m, g, w.workId, a, it);
    if h.up {
      GrantKeepsDense(n, h, m, w, a, k);
      GrantKeepsRan(n, h, m, g, w, a, k);
    }
  }

  lemma GrantKeepsRan(n: Node, h: Host, m: Node, g: Host, w: Work, a: Allocation, k: nat)
    requires Granted(n, m, w, a, k) && RanOk(n, h) && w.workId !in n.s.pending
    requires g.phys == h.phys && g.live == h.live && w.workId in g.flights && g.flights[w.workId].stage == Allocated
    requires g.flights == h.flights[w.workId := g.flights[w.workId]]
    ensures RanOk(m, g)
  {
  }

  lemma AllocateKeepsHost(sha: Str -> Str, prompts: set<Prompt>, n: Node, h: Host, w: Work)
    requires Inv(n) && HostOk(sha, prompts, n, h) && MayAllocateFor(sha, n, h, w) && CanAllocate(n.s, w)
    ensures HostOk(sha, prompts, NAllocate(n, w), AfterAllocation(h, w, NewAllocation(n.s, w)))
  {
    var m, a, k := AllocateResult(n, w);
    ItemFits(sha, m, h, w, a);
    GrantKeepsHost(sha, prompts, n, h, m, w, a, k, ItemOf(w, a));
  }

  lemma FlightAdded(sha: Str -> Str, n: Node, h: Host, m: Node, k: Host, wid: WorkId, a: Allocation, it: Item)
    requires n.s.blockSize > 0 && m.s.blockSize == n.s.blockSize && FlightsOk(sha, n, h) && wid !in n.s.pending
    requires m.s.pending == n.s.pending[wid := a] && m.progress == n.progress
    requires k.live == h.live && k.flights == h.flights[wid := Flight(it, Allocated)]
    requires FlightOk(sha, m, h, a, it)
    ensures FlightsOk(sha, m, k)
  {
    FlightStays(sha, m, h, m, k, a, it);
    forall v | v in m.s.pending
      ensures v in k.flights && FlightOk(sha, m, k, m.s.pending[v], k.flights[v].item)
    {
      if v != wid {
        FlightStays(sha, n, h, m, k, n.s.pending[v], h.flights[v].item);
      }
    }
  }

  // ---------------------------------------------------------------- a work is committed

  /** Progress moves to the end of the work; nobody else's table or progress changes. */
  ghost predicate Committed(n: Node, m: Node, wid: WorkId, a: Allocation) {
    && wid in n.s.pending && n.s.pending[wid] == a && a.requestId in n.s.tables && n.s.tables[a.requestId] == a.table
    && |m.s.blocks| == |n.s.blocks| && m.s.blockSize == n.s.blockSize
    && m.s.tables == n.s.tables && m.s.pending == n.s.pending - {wid}
    && m.progress == n.progress[a.requestId := a.tokensAfterCommit]
    && (forall v :: v in n.s.pending && v != wid ==> n.s.pending[v].requestId != a.requestId)
    && (forall x :: x in n.s.index ==> x in m.s.index && m.s.index[x] == n.s.index[x])
  }

  lemma CommitResult(n: Node, wid: WorkId) returns (m: Node, a: Allocation)
    requires Inv(n) && wid in n.s.pending
    ensures m == NCommit(n, wid) && a == n.s.pending[wid] && Committed(n, m, wid, a)
  {
    m, a := NCommit(n, wid), n.s.pending[wid];
    CommitEffect(n, wid);
    assert AllocationOk(n, a);
  }

  lemma CommitKeepsFlights(sha: Str -> Str, prompts: set<Prompt>, n: Node, h: Host, m: Node, wid: WorkId, a: Allocation)
    requires HostOk(sha, prompts, n, h) && Committed(n, m, wid, a) && wid in h.flights && h.flights[wid].stage != InFlight
    ensures LiveOk(prompts, m, h) && FlightsOk(sha, m, h)
  {
    assert FlightOk(sha, n, h, a, h.flights[wid].item);
    forall v | v in m.s.pending
      ensures Continues(n, h, m, h, n.s.pending[v].requestId)
    {
    }
    FlightsStay(sha, n, h, m, h);
  }

  lemma CommitKeepsDense(n: Node, h: Host, m: Node, wid: WorkId, a: Allocation)
    requires DenseOk(n, h) && RanOk(n, h) && Committed(n, m, wid, a)
    requires wid in h.flights && h.flights[wid].stage == Ran(true)
    ensures DenseOk(m, h) && RanOk(m, h)
  {
  }

  /** What Commit publishes has been computed: the block holds the K/V its hash stands for. */
  lemma CommitPublishes(sha: Str -> Str, prompts: set<Prompt>, n: Node, h: Host, wid: WorkId, x: Hash)
    requires Inv(n) && HostOk(sha, prompts, n, h) && h.up && wid in n.s.pending && wid in h.flights && h.flights[wid].stage == Ran(true)
    requires x in NCommit(n, wid).s.index && x !in n.s.index
    ensures NCommit(n, wid).s.index[x] < |h.phys|
    ensures Named(sha, prompts, n.s.blockSize, x, h.phys[NCommit(n, wid).s.index[x]])
  {
    var m, a := NCommit(n, wid), n.s.pending[wid];
    CommitEffect(n, wid);
    assert PublishedFrom(Counted(n, wid), m.s, a, x);
    var i :| Published(Counted(n, wid), m.s, a, i, x);
    PublishedIsWithin(n, wid, i);
    assert AllocationOk(n, a) && FlightOk(sha, n, h, a, h.flights[wid].item);
    ComputedIsNamed(sha, prompts, n.s.blockSize, h.live[a.requestId], a, h.phys, i);
  }

  /** A full block of the prompt that has been computed is a page its hash may name. */
  lemma ComputedIsNamed(sha: Str -> Str, prompts: set<Prompt>, bs: nat, l: Live, a: Allocation, phys: Phys, i: nat)
    requires bs > 0 && Shaped(phys, bs) && l.prompt in prompts && l.prompt.tokens <= l.tokens
    requires i < |a.table| && i < |a.hashes| && a.hashes == BlockHashes(sha, bs, l.prompt.salt, l.prompt.tokens)
    requires Span(i + 1, bs) <= a.tokensAfterCommit <= |l.prompt.tokens|
    requires Dense(phys, a.table, bs, PrefixKV(l.tokens), a.tokensAfterCommit)
    ensures a.table[i] < |phys| && Named(sha, prompts, bs, a.hashes[i], phys[a.table[i]])
  {
    DenseBlock(phys, a.table, bs, PrefixKV(l.tokens), a.tokensAfterCommit, i);
    BlockOfPrompt(l, bs, i, a.tokensAfterCommit);
    SpanOfQuotient(|l.prompt.tokens|, bs);
    HashAt(sha, bs, l.prompt.salt, l.prompt.tokens, |l.prompt.tokens| / bs, i);
    assert IsBlock(sha, bs, l.prompt, i, a.hashes[i], phys[a.table[i]]);
  }

  lemma BlockOfPrompt(l: Live, bs: nat, i: nat, n: nat)
    requires l.prompt.tokens <= l.tokens && Span(i + 1, bs) <= n <= |l.prompt.tokens|
    ensures PrefixKV(l.tokens)[Span(i, bs)..Span(i + 1, bs)] == PrefixKV(l.prompt.tokens)[Span(i, bs)..Span(i + 1, bs)]
  {
    assert l.tokens[..Span(i + 1, bs)] == l.prompt.tokens[..Span(i + 1, bs)];
    SameBlockKV(l.tokens, l.prompt.tokens, bs, i);
  }

  lemma CommitKeepsHost(sha: Str -> Str, prompts: set<Prompt>, n: Node, h: Host, wid: WorkId)
    requires Inv(n) && HostOk(sha, prompts, n, h)
    requires wid in n.s.pending ==> wid in h.flights && h.flights[wid].stage == Ran(true)
    ensures HostOk(sha, prompts, NCommit(n, wid), h)
  {
    if wid in n.s.pending {
      var m, a := CommitResult(n, wid);
      CommitKeepsFlights(sha, prompts, n, h, m, wid, a);
      if h.up {
        forall x | x in m.s.index
          ensures m.s.index[x] < |h.phys| && Named(sha, prompts, m.s.blockSize, x, h.phys[m.s.index[x]])
        {
          if x !in n.s.index {
            CommitPublishes(sha, prompts, n, h, wid, x);
          }
        }
        CommitKeepsDense(n, h, m, wid, a);
      }
    }
  }

  // ---------------------------------------------------------------- a table is cut

  lemma CutKeepsFlights(sha: Str -> Str, prompts: set<Prompt>, n: Node, h: Host, m: Node, k: Host, rid: RequestId, keep: nat)
    requires n.s.blockSize > 0 && m.s.blockSize == n.s.blockSize && LiveOk(prompts, n, h) && FlightsOk(sha, n, h)
    requires keep <= |Listed(n.s.tables, rid)| && m.s.tables == CutTables(n.s.tables, rid, keep)
    requires m.progress == if keep == 0 then n.progress - {rid} else n.progress
    requires forall w :: w in m.s.pending ==> w in n.s.pending && m.s.pending[w] == n.s.pending[w] && n.s.pending[w].requestId != rid
    requires k.flights == h.flights && (k.live == h.live || (keep == 0 && k.live == h.live - {rid}))
    requires forall w :: w in n.s.pending && w !in m.s.pending ==> w in h.flights && h.flights[w].stage != InFlight
    ensures LiveOk(prompts, m, k) && FlightsOk(sha, m, k)
  {
    forall w | w in m.s.pending
      ensures Continues(n, h, m, k, n.s.pending[w].requestId)
    {
    }
    FlightsStay(sha, n, h, m, k);
  }

  lemma DropResult(n: Node, rid: RequestId, keep: nat, pending: map<WorkId, Allocation>) returns (m: Node)
    requires Inv(n) && MayDrop(n, rid, keep, pending)
    ensures m == Drop(n, rid, keep, pending) && Inv(m)
    ensures |m.s.blocks| == |n.s.blocks| && m.s.blockSize == n.s.blockSize && m.s.index == n.s.index
    ensures m.s.pending == pending && m.s.tables == CutTables(n.s.tables, rid, keep)
    ensures m.progress == if keep == 0 then n.progress - {rid} else n.progress
  {
    m := Drop(n, rid, keep, pending);
    DropInv(n, rid, keep, pending);
    DropFrame(n, rid, keep, pending);
  }

  lemma CutKeepsDense(n: Node, h: Host, m: Node, rid: RequestId, keep: nat, r: RequestId)
    requires DenseOk(n, h) && m.s.blockSize == n.s.blockSize
    requires keep <= |Listed(n.s.tables, rid)| && m.s.tables == CutTables(n.s.tables, rid, keep)
    requires m.progress == if keep == 0 then n.progress - {rid} else n.progress
    requires keep > 0 ==> Progress(n, rid) <= Span(keep, n.s.blockSize)
    requires r in m.s.tables && r in h.live
    ensures Dense(h.phys, m.s.tables[r], m.s.blockSize, PrefixKV(h.live[r].tokens), Progress(m, r))
  {
    assert r in n.s.tables;
    if r == rid {
      var kvs := PrefixKV(h.live[r].tokens);
      DenseTable(h.phys, n.s.tables[r], m.s.tables[r], keep, n.s.blockSize, kvs, kvs, Progress(n, r));
    }
  }

  lemma DropKeepsHost(sha: Str -> Str, prompts: set<Prompt>, n: Node, h: Host, k: Host, rid: RequestId, keep: nat, pending: map<WorkId, Allocation>)
    requires Inv(n) && HostOk(sha, prompts, n, h) && MayDrop(n, rid, keep, pending)
    requires k == h || (keep == 0 && k == h.(live := h.live - {rid}))
    requires forall w :: w in n.s.pending && w !in pending ==> w in h.flights && h.flights[w].stage != InFlight
    ensures HostOk(sha, prompts, Drop(n, rid, keep, pending), k)
  {
    var m := DropResult(n, rid, keep, pending);
    CutKeepsFlights(sha, prompts, n, h, m, k, rid, keep);
    if h.up {
      forall r | r in m.s.tables && r in k.live
        ensures Dense(k.phys, m.s.tables[r], m.s.blockSize, PrefixKV(k.live[r].tokens), Progress(m, r))
      {
        CutKeepsDense(n, h, m, rid, keep, r);
      }
      assert RanOk(m, k);
    }
  }

  lemma RollbackKeepsHost(sha: Str -> Str, prompts: set<Prompt>, n: Node, h: Host, wid: WorkId)
    requires Inv(n) && HostOk(sha, prompts, n, h)
    requires wid in n.s.pending ==> wid in h.flights && h.flights[wid].stage != InFlight
    ensures HostOk(sha, prompts, NRollback(n, wid), h)
  {
    if wid in n.s.pending {
      var rid, keep, pending := RollbackIsDrop(n, wid);
      DropKeepsHost(sha, prompts, n, h, h, rid, keep, pending);
    }
  }

  function AfterEnd(h: Host, rid: RequestId): Host {
    h.(live := h.live - {rid})
  }

  /** None of the request's works is at the executor. */
  ghost predicate NotInFlight(n: Node, h: Host, rid: RequestId) {
    forall w :: w in n.s.pending && n.s.pending[w].requestId == rid ==> w in h.flights && h.flights[w].stage != InFlight
  }

  lemma FreeKeepsHost(sha: Str -> Str, prompts: set<Prompt>, n: Node, h: Host, rid: RequestId)
    requires Inv(n) && HostOk(sha, prompts, n, h) && NotInFlight(n, h, rid)
    ensures HostOk(sha, prompts, NFree(n, rid), AfterEnd(h, rid))
  {
    FreeIsDrop(n, rid);
    DropKeepsHost(sha, prompts, n, h, AfterEnd(h, rid), rid, 0, OthersPending(n.s, rid));
  }

  // ---------------------------------------------------------------- a token is generated

  function AfterToken(h: Host, rid: RequestId, tok: Token): Host
    requires rid in h.live
  {
    h.(live := h.live[rid := Live(h.live[rid].prompt, h.live[rid].tokens + [tok])])
  }

  lemma TokenKeepsDense(phys: Phys, table: seq<nat>, bs: nat, tokens: seq<Token>, tok: Token, c: nat)
    requires Dense(phys, table, bs, PrefixKV(tokens), c)
    ensures Dense(phys, table, bs, PrefixKV(tokens + [tok]), c)
  {
    PrefixKVGrows(tokens, tokens + [tok]);
    var a, b := PrefixKV(tokens), PrefixKV(tokens + [tok]);
    assert a[..c] == b[..|tokens|][..c] == b[..c];
    DenseTable(phys, table, table, |table|, bs, a, b, c);
  }

  lemma TokenKeepsHost(sha: Str -> Str, prompts: set<Prompt>, n: Node, h: Host, rid: RequestId, tok: Token)
    requires HostOk(sha, prompts, n, h) && rid in h.live
    ensures HostOk(sha, prompts, n, AfterToken(h, rid, tok))
  {
    var k := AfterToken(h, rid, tok);
    FlightsStay(sha, n, h, n, k);
    if h.up {
      forall r | r in n.s.tables && r in k.live
        ensures Dense(k.phys, n.s.tables[r], n.s.blockSize, PrefixKV(k.live[r].tokens), Progress(n, r))
      {
        if r == rid { TokenKeepsDense(h.phys, n.s.tables[r], n.s.blockSize, h.live[r].tokens, tok, Progress(n, r)); }
      }
      TokenKeepsRan(n, h, rid, tok);
    }
  }

  lemma TokenKeepsRan(n: Node, h: Host, rid: RequestId, tok: Token)
    requires rid in h.live && RanOk(n, h)
    ensures RanOk(n, AfterToken(h, rid, tok))
  {
    var k := AfterToken(h, rid, tok);
    forall w | w in n.s.pending && w in k.flights && k.flights[w].stage == Ran(true) && n.s.pending[w].requestId in k.live
      ensures Dense(k.phys, n.s.pending[w].table, n.s.blockSize, PrefixKV(k.live[n.s.pending[w].requestId].tokens), n.s.pending[w].tokensAfterCommit)
    {
      var a := n.s.pending[w];
      if a.requestId == rid { TokenKeepsDense(h.phys, a.table, n.s.blockSize, h.live[rid].tokens, tok, a.tokensAfterCommit); }
    }
  }

  // ---------------------------------------------------------------- transfers

  /** Requests, tables and pending allocations are as before; only published hashes may differ. */
  ghost predicate SameRequests(n: Node, m: Node) {
    && m.s.tables == n.s.tables && m.s.pending == n.s.pending && m.progress == n.progress
    && m.s.blockSize == n.s.blockSize && |m.s.blocks| == |n.s.blocks|
  }

  lemma TransferKeepsHost(sha: Str -> Str, prompts: set<Prompt>, n: Node, m: Node, h: Host)
    requires HostOk(sha, prompts, n, h) && SameRequests(n, m)
    requires h.up ==> PublishedOk(sha, prompts, m.s, h.phys)
    ensures HostOk(sha, prompts, m, h)
  {
    FlightsStay(sha, n, h, m, h);
  }
}

/** The probe and the match, and how the request state machine's work items meet what the block manager relies on. */
module Prefixes {
  import opened Hashing
  import opened Spans
  import opened Wrappers
  import opened BlockSpec
  import opened Bags
  import opened BlockEffects
  import opened BlockInv
  import opened RequestInv
  import opened TransferInv
  import opened NodeSteps
  import opened Hosts
  import opened HostRequests
  import opened WorkItems
  import opened Lifecycle
  import opened LifeRuns

  // ---------------------------------------------------------------- the read-only probe

  lemma IndexedIsTransferable(n: Node, hashes: seq<Hash>, i: nat)
    requires Sound(n)
    ensures i < |hashes| && hashes[i] in n.s.index ==> Transferable(n.s, hashes[i])
  {
    SoundIsInv(n);
    if i < |hashes| {
      TransferableIffIndexed(n.s, hashes[i]);
    }
  }

  /**
   * In every reachable state the probe reports exactly the run that a match would take, hash by
   * hash; Run itself stops only at a hash that is not in the index.
   */
  lemma ProbeAgreesWithMatch(n: Node, matchable: seq<Hash>)
    requires Sound(n)
    ensures |TransferableRun(n.s, matchable)| == |Run(n.s.index, matchable)|
    ensures forall i :: 0 <= i < |Run(n.s.index, matchable)| ==>
      TransferableRun(n.s, matchable)[i] == matchable[i] && n.s.index[matchable[i]] == Run(n.s.index, matchable)[i]
  {
    var run, probe := Run(n.s.index, matchable), TransferableRun(n.s, matchable);
    IndexedIsTransferable(n, matchable, |probe|);
    assert |probe| <= |run| by {
      assert |run| < |probe| ==> Transferable(n.s, matchable[|run|]);
    }
  }

  /** In a reachable state the hashes that can be pinned are those that are published. */
  lemma PinnableIff(n: Node, hashes: seq<Hash>)
    requires Sound(n)
    ensures CanPin(n.s, hashes) <==> forall i :: 0 <= i < |hashes| ==> hashes[i] in n.s.index
  {
    SoundIsInv(n);
    forall i | 0 <= i < |hashes|
      ensures Transferable(n.s, hashes[i]) <==> hashes[i] in n.s.index
    {
      TransferableIffIndexed(n.s, hashes[i]);
    }
  }

  /** The cached tokens are whole blocks and never the whole of a prompt that has tokens. */
  lemma MatchLeavesWork(sha: Str -> Str, s: State, p: Prompt)
    requires s.blockSize > 0
    ensures var cached := Span(|Run(s.index, Matchable(sha, s.blockSize, p.salt, p.tokens))|, s.blockSize);
      && cached <= |p.tokens| && (p.tokens != [] ==> cached < |p.tokens|)
      && cached == |Run(s.index, Matchable(sha, s.blockSize, p.salt, p.tokens))| * s.blockSize
  {
    var run := Run(s.index, Matchable(sha, s.blockSize, p.salt, p.tokens));
    MaxMatchedFits(s.blockSize, |p.tokens|);
    SpanMonotone(|run|, MaxMatched(s.blockSize, |p.tokens|), s.blockSize);
    SpanIsProduct(|run|, s.blockSize);
  }

  /** So the branch of Create that goes straight to decoding is dead for a prompt that has tokens. */
  lemma CreateStartsWithPrefill(sha: Str -> Str, s: State, p: Prompt, req: Request, e: ExecutorId, m: PrefixMatch, workId: WorkId)
    requires s.blockSize > 0 && p.tokens != [] && req.tokenIds == p.tokens && req.promptTokens == |p.tokens|
    requires m.cachedTokens == Span(|Run(s.index, Matchable(sha, s.blockSize, p.salt, p.tokens))|, s.blockSize)
    ensures m.cachedTokens < req.promptTokens
    ensures FirstWork(Created(req, e, m), workId).phase == Prefill
  {
    MatchLeavesWork(sha, s, p);
  }

  // ---------------------------------------------------------------- work items

  lemma PrefixSlice<T>(all: seq<T>, n: nat, a: nat, b: nat)
    requires a <= b <= n <= |all|
    ensures all[..n][a..b] == all[a..b]
  {
  }

  /**
   * Whatever the scheduler made of the request so far, its queued item is what the block manager and the
   * executors count on: it continues exactly where the last commit ended.
   */
  lemma QueuedItemContinues(l: Life, cached: nat, sha: Str -> Str, bs: nat, live: Live)
    requires LifeInv(l, cached) && l.work.Some? && bs > 0
    requires live.tokens == l.req.tokenIds && live.prompt.tokens == l.req.tokenIds[..l.req.promptTokens]
    requires l.req.hashesTotal == BlockHashes(sha, bs, live.prompt.salt, live.prompt.tokens)
    ensures WorkFor(sha, bs, live, l.committed, l.work.value)
    ensures l.committed <= RequiredTokens(l.work.value)
  {
    var w := l.work.value;
    if w.phase == Prefill {
      PrefixSlice(l.req.tokenIds, l.req.promptTokens, w.prefillOffset, w.prefillOffset + w.numNewTokens);
    }
  }

  /** The same holds for the chunk the scheduler takes of it. */
  lemma ChunkContinues(l: Life, cached: nat, move: Move, sha: Str -> Str, bs: nat, live: Live)
    requires LifeInv(l, cached) && Possible(l, move) && bs > 0
    requires live.tokens == l.req.tokenIds && live.prompt.tokens == l.req.tokenIds[..l.req.promptTokens]
    requires l.req.hashesTotal == BlockHashes(sha, bs, live.prompt.salt, live.prompt.tokens)
    ensures WorkFor(sha, bs, live, l.committed, Chunk(l.work.value, move.tokens))
    ensures l.committed <= RequiredTokens(Chunk(l.work.value, move.tokens))
  {
    ChunkOk(l, cached, move);
    var w := Chunk(l.work.value, move.tokens);
    if w.phase == Prefill {
      PrefixSlice(l.req.tokenIds, l.req.promptTokens, w.prefillOffset, w.prefillOffset + w.numNewTokens);
    }
  }

  // ---------------------------------------------------------------- allocating for a request that is gone

  lemma NothingPending(n: Node, rid: RequestId)
    requires Inv(n) && rid !in n.s.tables
    ensures forall v :: v in n.s.pending ==> n.s.pending[v].requestId != rid
  {
    forall v | v in n.s.pending
      ensures n.s.pending[v].requestId != rid
    {
      assert AllocationOk(n, n.s.pending[v]);
    }
  }

  /** A block that is adopted with the table has a holder that its count does not know of. */
  lemma AdoptedBlocksAreNotCounted(n: Node, w: Work, b: nat)
    requires Inv(n) && w.requestId !in n.s.tables && InRange(w.cacheBlocks, |n.s.blocks|) && CanAllocate(n.s, w)
    requires b in w.cacheBlocks
    ensures b < |n.s.blocks| && NAllocate(n, w).s.blocks[b].refs < Holders(NAllocate(n, w))[b]
  {
    var a, m := NewAllocation(n.s, w), NAllocate(n, w);
    PopEffect(n.s, BlocksNeeded(n.s, w));
    BagInsert(n.s.tables, w.requestId, a.table);
    assert multiset(a.table) == multiset(w.cacheBlocks) + multiset(a.added);
    assert b in multiset(w.cacheBlocks);
    assert n.s.blocks[b].refs == Holders(n)[b];
    assert m.s.tables == n.s.tables[w.requestId := a.table];
  }

  /** So it is when the allocation itself is refused: the adopted table stays. */
  lemma RefusalAdoptsUncounted(n: Node, w: Work, b: nat)
    requires Inv(n) && w.requestId !in n.s.tables && InRange(w.cacheBlocks, |n.s.blocks|) && !CanAllocate(n.s, w)
    requires b in w.cacheBlocks
    ensures b < |n.s.blocks| && NAllocate(n, w).s.blocks[b].refs < Holders(NAllocate(n, w))[b]
  {
    BagInsert(n.s.tables, w.requestId, w.cacheBlocks);
    assert b in multiset(w.cacheBlocks);
    assert n.s.blocks[b].refs == Holders(n)[b];
    assert NAllocate(n, w).s.tables == n.s.tables[w.requestId := w.cacheBlocks];
  }

  /**
   * AllocateBlocks for a request that is not live takes the work item's matched blocks as they are and does
   * not count the new references, whether or not it then finds the blocks that are missing. Conservation
   * survives exactly when the item carries no matched blocks.
   */
  lemma AllocationConservesIff(n: Node, w: Work)
    requires Inv(n) && w.requestId !in n.s.tables && InRange(w.cacheBlocks, |n.s.blocks|)
    ensures Conserved(NAllocate(n, w)) <==> w.cacheBlocks == []
  {
    if w.cacheBlocks == [] {
      assert Progress(n, w.requestId) == 0;
      if CanAllocate(n.s, w) {
        NothingPending(n, w.requestId);
        AllocateConserved(n, w);
      }
    } else if CanAllocate(n.s, w) {
      AdoptedBlocksAreNotCounted(n, w, w.cacheBlocks[0]);
    } else {
      RefusalAdoptsUncounted(n, w, w.cacheBlocks[0]);
    }
  }
}

/** What a commit publishes, and how much an allocation takes, in terms of tokens and positions alone. */
module Publishing {
  import opened Hashing
  import opened Spans
  import opened BlockSpec
  import opened BlockEffects
  import opened BlockInv
  import opened CommitInv

  // ---------------------------------------------------------------- Commit

  /** Entry i of the allocation's table is full once its tokens are committed, was not published, and h is its hash. */
  predicate Completed(n: Node, a: Allocation, i: nat, h: Hash) {
    && a.phase == Prefill && i < |a.table| && i < |a.hashes| && a.hashes[i] == h
    && Span(i + 1, n.s.blockSize) <= a.tokensAfterCommit
    && a.table[i] < |n.s.blocks| && !n.s.blocks[a.table[i]].cached
  }

  lemma {:induction false} PublishAllElsewhere(u: State, a: Allocation, k: nat, b: nat)
    requires k <= |a.table| && InRange(a.table, |u.blocks|) && b < |u.blocks| && b !in a.table[..k]
    ensures PublishAll(u, a, k).blocks[b] == u.blocks[b] && PublishAll(u, a, k).blockSize == u.blockSize
  {
    if k > 0 {
      assert a.table[..k] == a.table[..k - 1] + [a.table[k - 1]];
      PublishAllElsewhere(u, a, k - 1, b);
    }
  }

  /** A full, unpublished block that occurs once in the table is published when its turn comes, unless its hash is taken. */
  lemma {:induction false} PublishAllReaches(u: State, a: Allocation, k: nat, i: nat)
    requires i < k <= |a.table| && InRange(a.table, |u.blocks|) && a.phase == Prefill && i < |a.hashes|
    requires !u.blocks[a.table[i]].cached && u.blocks[a.table[i]].tokens == u.blockSize
    requires forall j :: 0 <= j < |a.table| && j != i ==> a.table[j] != a.table[i]
    ensures a.hashes[i] in PublishAll(u, a, k).index
  {
    if i < k - 1 {
      PublishAllReaches(u, a, k - 1, i);
    } else {
      PublishAllElsewhere(u, a, i, a.table[i]);
    }
  }

  lemma CompletedIsCounted(n: Node, wid: WorkId, i: nat)
    requires Inv(n) && wid in n.s.pending && i < |n.s.pending[wid].hashes|
    requires Completed(n, n.s.pending[wid], i, n.s.pending[wid].hashes[i])
    ensures !Counted(n, wid).blocks[n.s.pending[wid].table[i]].cached
    ensures Counted(n, wid).blocks[n.s.pending[wid].table[i]].tokens == n.s.blockSize == Counted(n, wid).blockSize
    ensures var table := n.s.pending[wid].table; forall j :: 0 <= j < |table| && j != i ==> table[j] != table[i]
  {
    var a := n.s.pending[wid];
    assert AllocationOk(n, a);
    forall j | 0 <= j < |a.table| && j != i
      ensures a.table[j] != a.table[i]
    {
      UnpublishedOnce(n, a.requestId, i, a.requestId, j);
    }
    SetTokensAt(n.s.(pending := n.s.pending - {wid}), a, |a.table|, i);
    FullBlockTokens(a.tokensAfterCommit, i, n.s.blockSize);
    CommitEffect(n, wid);
  }

  /** Every completed block of a prefill has its hash in the index after the commit. */
  lemma CommitPublishes(n: Node, wid: WorkId, i: nat)
    requires Inv(n) && wid in n.s.pending && i < |n.s.pending[wid].hashes|
    requires Completed(n, n.s.pending[wid], i, n.s.pending[wid].hashes[i])
    ensures n.s.pending[wid].hashes[i] in NCommit(n, wid).s.index
  {
    CompletedIsCounted(n, wid, i);
    PublishAllReaches(Counted(n, wid), n.s.pending[wid], |n.s.pending[wid].table|, i);
  }

  lemma PublishedIsCompleted(n: Node, wid: WorkId, i: nat, h: Hash)
    requires Inv(n) && wid in n.s.pending && Published(Counted(n, wid), NCommit(n, wid).s, n.s.pending[wid], i, h)
    ensures Completed(n, n.s.pending[wid], i, h) && NCommit(n, wid).s.index[h] == n.s.pending[wid].table[i]
  {
    CommitEffect(n, wid);
    PublishedIsWithin(n, wid, i);
  }

  /**
   * After Commit the index has exactly the hashes it had and those of the blocks the commit completes. A hash
   * that was there names the block it named; a new one names a completed block of the table.
   */
  lemma CommitIndex(n: Node, wid: WorkId, h: Hash)
    requires Inv(n) && wid in n.s.pending
    ensures var a, index := n.s.pending[wid], NCommit(n, wid).s.index;
      && (h in index <==> h in n.s.index || exists i: nat :: Completed(n, a, i, h))
      && (h in n.s.index ==> index[h] == n.s.index[h])
      && (h in index && h !in n.s.index ==> exists i: nat :: Completed(n, a, i, h) && index[h] == a.table[i])
  {
    var a, m := n.s.pending[wid], NCommit(n, wid);
    CommitEffect(n, wid);
    if h in m.s.index && h !in n.s.index {
      assert PublishedFrom(Counted(n, wid), m.s, a, h);
      var i :| Published(Counted(n, wid), m.s, a, i, h);
      PublishedIsCompleted(n, wid, i, h);
    }
    if i: nat :| Completed(n, a, i, h) {
      CommitPublishes(n, wid, i);
    }
  }

  lemma UnpublishedCounts(n: Node, wid: WorkId, i: nat) returns (held: nat)
    requires Inv(n) && wid in n.s.pending && i < |n.s.pending[wid].table|
    requires n.s.pending[wid].table[i] < |n.s.blocks| && !n.s.blocks[n.s.pending[wid].table[i]].cached
    ensures held == Counted(n, wid).blocks[n.s.pending[wid].table[i]].tokens == TokensInBlock(n.s.pending[wid].tokensAfterCommit, i, n.s.blockSize)
  {
    var a := n.s.pending[wid];
    assert AllocationOk(n, a);
    forall j | 0 <= j < |a.table| && j != i
      ensures a.table[j] != a.table[i]
    {
      UnpublishedOnce(n, a.requestId, i, a.requestId, j);
    }
    SetTokensAt(n.s.(pending := n.s.pending - {wid}), a, |a.table|, i);
    held := Counted(n, wid).blocks[a.table[i]].tokens;
  }

  lemma CountsStay(n: Node, wid: WorkId, b: nat)
    requires Inv(n) && wid in n.s.pending && b < |n.s.blocks|
    ensures NCommit(n, wid).s.blocks[b].tokens == Counted(n, wid).blocks[b].tokens
  {
    CommitEffect(n, wid);
  }

  /** What the block of entry i holds after the commit: of its positions, exactly those among the committed tokens. */
  lemma CommitCounts(n: Node, wid: WorkId, i: nat, p: nat) returns (held: nat)
    requires Inv(n) && wid in n.s.pending && i < |n.s.pending[wid].table|
    requires n.s.pending[wid].table[i] < |n.s.blocks| && !n.s.blocks[n.s.pending[wid].table[i]].cached
    requires Span(i, n.s.blockSize) <= p < Span(i + 1, n.s.blockSize)
    ensures held == NCommit(n, wid).s.blocks[n.s.pending[wid].table[i]].tokens <= n.s.blockSize
    ensures p < n.s.pending[wid].tokensAfterCommit <==> p < Span(i, n.s.blockSize) + held
  {
    held := UnpublishedCounts(n, wid, i);
    CountsStay(n, wid, n.s.pending[wid].table[i]);
  }

  // ---------------------------------------------------------------- AllocateBlocks

  /** The table reaches the tokens, and no shorter extension of the existing table does. */
  predicate ShortestExtension(table: seq<nat>, existing: seq<nat>, tokens: nat, bs: nat) {
    && existing <= table && tokens <= Span(|table|, bs)
    && (|table| > |existing| ==> Span(|table| - 1, bs) < tokens)
  }

  /** Enough blocks are free to reach the tokens. */
  predicate Reachable(s: State, w: Work) {
    RequiredTokens(w) <= Span(|Existing(s, w)| + |s.free|, s.blockSize)
  }

  lemma CeilDivLeast(v: nat, d: nat, k: nat)
    requires d > 0
    ensures v <= Span(k, d) <==> CeilDiv(v, d) <= k
  {
    CeilDivCovers(v, d);
    if CeilDiv(v, d) <= k {
      SpanMonotone(CeilDiv(v, d), k, d);
    } else {
      SpanMonotone(k + 1, CeilDiv(v, d), d);
    }
  }

  /** An allocation is granted exactly when the free blocks suffice. */
  lemma GrantedIff(s: State, w: Work)
    requires s.blockSize > 0
    ensures CanAllocate(s, w) <==> Reachable(s, w)
    ensures w.workId in Allocate(s, w).pending <==> w.workId in s.pending || Reachable(s, w)
  {
    CeilDivLeast(RequiredTokens(w), s.blockSize, |Existing(s, w)| + |s.free|);
  }

  /** A granted allocation takes the oldest free blocks, as many as are missing and no more; none when the table suffices. */
  lemma AllocationIsShortest(s: State, w: Work)
    requires s.blockSize > 0 && Reachable(s, w)
    ensures w.workId in Allocate(s, w).pending
    ensures var a, t := Allocate(s, w).pending[w.workId], Allocate(s, w);
      && a.table == Existing(s, w) + a.added && a.added <= s.free && t.free == s.free[|a.added|..]
      && ShortestExtension(a.table, Existing(s, w), RequiredTokens(w), s.blockSize)
      && (RequiredTokens(w) <= Span(|Existing(s, w)|, s.blockSize) ==> a.added == [])
      && w.requestId in t.tables && t.tables[w.requestId] == a.table
      && a.requestId == w.requestId && a.phase == w.phase && a.hashes == w.hashesTotal && a.tokensAfterCommit == RequiredTokens(w)
  {
    GrantedIff(s, w);
    var a := NewAllocation(s, w);
    CeilDivLeast(RequiredTokens(w), s.blockSize, |Existing(s, w)|);
    CeilDivLeast(RequiredTokens(w), s.blockSize, |a.table|);
    if a.added != [] {
      CeilDivLeast(RequiredTokens(w), s.blockSize, |a.table| - 1);
    }
  }

  // ---------------------------------------------------------------- the order of reuse

  /** The blocks of a list that lose their last reference, in order. */
  function Unheld(s: State, ids: seq<nat>): seq<nat>
    requires InRange(ids, |s.blocks|)
  {
    if ids == [] then []
    else
      var n := |ids| - 1;
      Unheld(s, ids[..n]) + (if s.blocks[ids[n]].refs == 1 then [ids[n]] else [])
  }

  lemma {:induction false} OthersKeepRefs(s: State, ids: seq<nat>, b: nat)
    requires InRange(ids, |s.blocks|) && b < |s.blocks| && b !in ids
    ensures PushAll(s, ids).blocks[b] == s.blocks[b]
  {
    if ids != [] {
      OthersKeepRefs(s, ids[..|ids| - 1], b);
    }
  }

  /**
   * Blocks are reused in the order in which they were given back: a list that is released goes to the end of the free
   * queue, in its own order, and whatever was free before is taken first.
   */
  lemma {:induction false} ReleasedInOrder(s: State, ids: seq<nat>)
    requires InRange(ids, |s.blocks|) && forall i, j :: 0 <= i < j < |ids| ==> ids[i] != ids[j]
    ensures PushAll(s, ids).free == s.free + Unheld(s, ids)
    ensures forall n :: 0 <= n <= |s.free| ==> PushAll(s, ids).free[..n] == s.free[..n]
  {
    if ids != [] {
      var n := |ids| - 1;
      ReleasedInOrder(s, ids[..n]);
      OthersKeepRefs(s, ids[..n], ids[n]);
    } else {
      assert s.free + [] == s.free;
    }
  }
}

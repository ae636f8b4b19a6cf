/** MatchPrefix, AllocateBlocks, Commit, Rollback and FreeRequest keep the invariant of a node. */
module RequestInv {
  import opened Hashing
  import opened Spans
  import opened BlockSpec
  import opened Bags
  import opened BlockEffects
  import opened BlockInv

  // ---------------------------------------------------------------- MatchPrefix

  function NMatch(n: Node, rid: RequestId, matchable: seq<Hash>): Node
    requires Bounded(n.s)
  {
    n.(s := Match(n.s, rid, matchable),
       progress := n.progress[rid := Span(|Run(n.s.index, matchable)|, n.s.blockSize)])
  }

  lemma MatchTouched(s: State, rid: RequestId, matchable: seq<Hash>, ids: seq<nat>) returns (t: State)
    requires Bounded(s) && Queued(s) && ids == Run(s.index, matchable)
    ensures t == Match(s, rid, matchable) && |t.blocks| == |s.blocks| && t.blockSize == s.blockSize
    ensures t.index == s.index && t.pending == s.pending && t.tables == s.tables[rid := ids] && Queued(t)
    ensures forall b :: 0 <= b < |s.blocks| ==> t.blocks[b] == s.blocks[b].(refs := s.blocks[b].refs + multiset(ids)[b])
  {
    TouchAllEffect(s, ids);
    t := Match(s, rid, matchable);
  }

  lemma MatchFrame(n: Node, rid: RequestId, matchable: seq<Hash>)
    requires Inv(n)
    ensures var t, ids := NMatch(n, rid, matchable).s, Run(n.s.index, matchable);
      && |t.blocks| == |n.s.blocks| && t.blockSize == n.s.blockSize
      && t.index == n.s.index && t.pending == n.s.pending && t.tables == n.s.tables[rid := ids]
      && Queued(t) && Bounded(t)
    ensures forall b :: 0 <= b < |n.s.blocks| ==>
      NMatch(n, rid, matchable).s.blocks[b] ==
        n.s.blocks[b].(refs := n.s.blocks[b].refs + multiset(Run(n.s.index, matchable))[b])
  {
    MatchBounded(n.s, rid, matchable);
    var _ := MatchTouched(n.s, rid, matchable, Run(n.s.index, matchable));
  }

  lemma MatchConserved(n: Node, rid: RequestId, matchable: seq<Hash>)
    requires Inv(n) && rid !in n.s.tables
    ensures Conserved(NMatch(n, rid, matchable))
  {
    MatchFrame(n, rid, matchable);
    BagInsert(n.s.tables, rid, Run(n.s.index, matchable));
  }

  lemma MatchTouches(n: Node, rid: RequestId, matchable: seq<Hash>, b: nat)
    requires Inv(n) && b < |n.s.blocks|
    ensures var t := NMatch(n, rid, matchable).s.blocks[b];
      && t.cached == n.s.blocks[b].cached
      && (!n.s.blocks[b].cached ==> t == n.s.blocks[b])
  {
    MatchFrame(n, rid, matchable);
    var ids := Run(n.s.index, matchable);
    if b in multiset(ids) {
      var i :| 0 <= i < |ids| && ids[i] == b;
      assert n.s.index[matchable[i]] == b;
    }
  }

  lemma MatchExclusive(n: Node, rid: RequestId, matchable: seq<Hash>)
    requires Inv(n) && rid !in n.s.tables
    ensures Exclusive(NMatch(n, rid, matchable))
  {
    var m := NMatch(n, rid, matchable);
    MatchFrame(n, rid, matchable);
    forall r, i | r in m.s.tables && 0 <= i < |m.s.tables[r]| && Beyond(m, r, i)
      ensures m.s.tables[r][i] < |m.s.blocks|
      ensures !m.s.blocks[m.s.tables[r][i]].cached && m.s.blocks[m.s.tables[r][i]].refs == 1
    {
      if r == rid {
        SpanMonotone(i + 1, |m.s.tables[rid]|, n.s.blockSize);
        assert false;
      }
      assert Beyond(n, r, i);
      MatchTouches(n, rid, matchable, n.s.tables[r][i]);
    }
  }

  lemma MatchUnshared(n: Node, rid: RequestId, matchable: seq<Hash>)
    requires Inv(n)
    ensures Unshared(NMatch(n, rid, matchable))
  {
    var m := NMatch(n, rid, matchable);
    MatchFrame(n, rid, matchable);
    forall r, i | r in m.s.tables && 0 <= i < |m.s.tables[r]|
      ensures m.s.tables[r][i] < |m.s.blocks|
      ensures m.s.blocks[m.s.tables[r][i]].cached || m.s.blocks[m.s.tables[r][i]].refs == 1
    {
      if r == rid {
        assert n.s.index[matchable[i]] == m.s.tables[r][i];
      }
      MatchTouches(n, rid, matchable, m.s.tables[r][i]);
    }
  }

  lemma MatchPending(n: Node, rid: RequestId, matchable: seq<Hash>)
    requires Inv(n) && rid !in n.s.tables
    ensures PendingOk(NMatch(n, rid, matchable)) && ProgressOk(NMatch(n, rid, matchable))
  {
    var m := NMatch(n, rid, matchable);
    MatchFrame(n, rid, matchable);
    forall w | w in m.s.pending
      ensures AllocationOk(m, m.s.pending[w])
    {
      assert AllocationOk(n, n.s.pending[w]);
    }
  }

  lemma MatchTransfers(n: Node, rid: RequestId, matchable: seq<Hash>)
    requires Inv(n)
    ensures TransfersOk(NMatch(n, rid, matchable))
  {
    var m := NMatch(n, rid, matchable);
    MatchFrame(n, rid, matchable);
    forall t, i | t in m.reserved && 0 <= i < |m.reserved[t]|
      ensures !m.s.blocks[m.reserved[t][i]].cached && m.s.blocks[m.reserved[t][i]].refs == 1
    {
      MatchTouches(n, rid, matchable, n.reserved[t][i]);
    }
    forall t, i | t in m.pinned && 0 <= i < |m.pinned[t]|
      ensures m.s.blocks[m.pinned[t][i]].cached
    {
      MatchTouches(n, rid, matchable, n.pinned[t][i]);
    }
  }

  lemma RefsKeepIndexed(s: State, t: State)
    requires Indexed(s) && t.index == s.index && t.blockSize == s.blockSize && |t.blocks| == |s.blocks|
    requires forall b :: 0 <= b < |s.blocks| ==> t.blocks[b] == s.blocks[b].(refs := t.blocks[b].refs)
    ensures Indexed(t)
  {
  }

  lemma MatchIndexed(n: Node, rid: RequestId, matchable: seq<Hash>)
    requires Inv(n)
    ensures Indexed(NMatch(n, rid, matchable).s)
  {
    var t := MatchTouched(n.s, rid, matchable, Run(n.s.index, matchable));
    RefsKeepIndexed(n.s, t);
  }

  /** A request that is not live may match; its table is the run it matched. */
  lemma MatchInv(n: Node, rid: RequestId, matchable: seq<Hash>)
    requires Inv(n) && rid !in n.s.tables
    ensures Inv(NMatch(n, rid, matchable))
  {
    MatchFrame(n, rid, matchable);
    MatchIndexed(n, rid, matchable);
    MatchConserved(n, rid, matchable);
    MatchExclusive(n, rid, matchable);
    MatchUnshared(n, rid, matchable);
    MatchPending(n, rid, matchable);
    MatchTransfers(n, rid, matchable);
  }

  // ---------------------------------------------------------------- AllocateBlocks

  /**
   * What the engine guarantees when it allocates: the request is live, or the work item carries no
   * matched blocks; the request has no other pending allocation; and the work item does not ask for
   * fewer tokens than the request already has.
   */
  ghost predicate MayAllocate(n: Node, w: Work) {
    && InRange(w.cacheBlocks, |n.s.blocks|)
    && (w.requestId in n.s.tables || w.cacheBlocks == [])
    && (forall v :: v in n.s.pending ==> n.s.pending[v].requestId != w.requestId)
    && Progress(n, w.requestId) <= RequiredTokens(w)
  }

  function NAllocate(n: Node, w: Work): Node
    requires Bounded(n.s) && InRange(w.cacheBlocks, |n.s.blocks|)
  {
    n.(s := Allocate(n.s, w))
  }

  lemma AllocateFrame(n: Node, w: Work)
    requires Inv(n) && MayAllocate(n, w) && CanAllocate(n.s, w)
    ensures var a, t, ids := NewAllocation(n.s, w), NAllocate(n, w).s, NewAllocation(n.s, w).added;
      && ids == n.s.free[..|ids|] && a.table == Existing(n.s, w) + ids
      && |t.blocks| == |n.s.blocks| && t.blockSize == n.s.blockSize && Queued(t) && Bounded(t)
      && t.tables == n.s.tables[w.requestId := a.table]
      && t.pending == n.s.pending[w.workId := a]
      && t.index == n.s.index - Evicted(n.s.blocks, ids)
      && (forall b :: b in ids ==> b < |n.s.blocks| && n.s.blocks[b].refs == 0)
      && (forall b :: multiset(ids)[b] == if b in ids then 1 else 0)
      && (forall b :: 0 <= b < |n.s.blocks| ==> t.blocks[b] == if b in ids then Meta(Hash([]), 1, 0, false) else n.s.blocks[b])
  {
    PopEffect(n.s, BlocksNeeded(n.s, w));
    AllocateBounded(n.s, w);
  }

  /** Extending a request's table adds the new blocks to the holders. */
  lemma TableGrows(n: Node, m: Node, r: RequestId, more: seq<nat>)
    requires m.pinned == n.pinned && m.reserved == n.reserved
    requires m.s.tables == n.s.tables[r := Listed(n.s.tables, r) + more]
    ensures Holders(m) == Holders(n) + multiset(more)
  {
    BagExtend(n.s.tables, r, more);
  }

  lemma AllocateConserved(n: Node, w: Work)
    requires Inv(n) && MayAllocate(n, w) && CanAllocate(n.s, w)
    ensures Conserved(NAllocate(n, w))
  {
    AllocateFrame(n, w);
    TableGrows(n, NAllocate(n, w), w.requestId, NewAllocation(n.s, w).added);
  }

  lemma EvictedWhere(s: State, ids: seq<nat>, h: Hash)
    requires Indexed(s)
    ensures h in Evicted(s.blocks, ids) ==> h in s.index && s.index[h] in ids
  {
  }

  lemma EvictIndexed(s: State, t: State, ids: seq<nat>)
    requires Indexed(s) && |t.blocks| == |s.blocks| && t.blockSize == s.blockSize
    requires t.index == s.index - Evicted(s.blocks, ids)
    requires forall b :: 0 <= b < |s.blocks| ==> t.blocks[b] == if b in ids then Meta(Hash([]), 1, 0, false) else s.blocks[b]
    ensures Indexed(t)
  {
    forall h | h in t.index
      ensures t.index[h] < |t.blocks| && t.blocks[t.index[h]].cached && t.blocks[t.index[h]].hash == h
    {
      var b := s.index[h];
      assert b in ids ==> h in Evicted(s.blocks, ids);
    }
    forall b | 0 <= b < |t.blocks| && t.blocks[b].cached
      ensures t.blocks[b].hash in t.index && t.index[t.blocks[b].hash] == b && t.blocks[b].tokens == t.blockSize
    {
      assert b !in ids;
      EvictedWhere(s, ids, s.blocks[b].hash);
    }
  }

  lemma AllocateExclusive(n: Node, w: Work)
    requires Inv(n) && MayAllocate(n, w) && CanAllocate(n.s, w)
    ensures Exclusive(NAllocate(n, w))
  {
    var m := NAllocate(n, w);
    AllocateFrame(n, w);
    forall r, i | r in m.s.tables && 0 <= i < |m.s.tables[r]| && Beyond(m, r, i)
      ensures m.s.tables[r][i] < |m.s.blocks|
      ensures !m.s.blocks[m.s.tables[r][i]].cached && m.s.blocks[m.s.tables[r][i]].refs == 1
    {
      if r in n.s.tables && i < |n.s.tables[r]| {
        assert Beyond(n, r, i) && m.s.tables[r][i] == n.s.tables[r][i];
      } else {
        assert m.s.tables[r][i] in NewAllocation(n.s, w).added;
      }
    }
  }

  lemma AllocateUnshared(n: Node, w: Work)
    requires Inv(n) && MayAllocate(n, w) && CanAllocate(n.s, w)
    ensures Unshared(NAllocate(n, w))
  {
    var m := NAllocate(n, w);
    AllocateFrame(n, w);
    forall r, i | r in m.s.tables && 0 <= i < |m.s.tables[r]|
      ensures m.s.tables[r][i] < |m.s.blocks|
      ensures m.s.blocks[m.s.tables[r][i]].cached || m.s.blocks[m.s.tables[r][i]].refs == 1
    {
      if r in n.s.tables && i < |n.s.tables[r]| {
        assert m.s.tables[r][i] == n.s.tables[r][i];
      } else {
        assert m.s.tables[r][i] in NewAllocation(n.s, w).added;
      }
    }
  }

  lemma AllocatePending(n: Node, w: Work)
    requires Inv(n) && MayAllocate(n, w) && CanAllocate(n.s, w)
    ensures PendingOk(NAllocate(n, w)) && ProgressOk(NAllocate(n, w))
  {
    var m, a := NAllocate(n, w), NewAllocation(n.s, w);
    AllocateFrame(n, w);
    var e := |Existing(n.s, w)|;
    assert Progress(n, w.requestId) <= Span(e, n.s.blockSize);
    SpanMonotone(e, |a.table|, n.s.blockSize);
    CeilDivCovers(RequiredTokens(w), n.s.blockSize);
    SpanMonotone(CeilDiv(RequiredTokens(w), n.s.blockSize), |a.table|, n.s.blockSize);
    assert |a.table| - |a.added| == e;
    assert AllocationOk(m, a);
    forall v | v in m.s.pending
      ensures AllocationOk(m, m.s.pending[v])
    {
      if v != w.workId {
        assert AllocationOk(n, n.s.pending[v]);
      }
    }
  }

  lemma AllocateTransfers(n: Node, w: Work)
    requires Inv(n) && MayAllocate(n, w) && CanAllocate(n.s, w)
    ensures TransfersOk(NAllocate(n, w))
  {
    var m := NAllocate(n, w);
    AllocateFrame(n, w);
    forall t, i | t in m.pinned && 0 <= i < |m.pinned[t]|
      ensures m.s.blocks[m.pinned[t][i]].cached
    {
      PinnedHeld(n, t, i);
    }
  }

  lemma AllocateInv(n: Node, w: Work)
    requires Inv(n) && MayAllocate(n, w)
    ensures Inv(NAllocate(n, w))
  {
    if CanAllocate(n.s, w) {
      AllocateFrame(n, w);
      AllocateConserved(n, w);
      EvictIndexed(n.s, NAllocate(n, w).s, NewAllocation(n.s, w).added);
      AllocateExclusive(n, w);
      AllocateUnshared(n, w);
      AllocatePending(n, w);
      AllocateTransfers(n, w);
    } else {
      assert NAllocate(n, w) == n;
    }
  }
}

/** Commit: token counts, then publication of the full prompt blocks. */
module CommitInv {
  import opened Hashing
  import opened Spans
  import opened BlockSpec
  import opened Bags
  import opened BlockEffects
  import opened BlockInv

  // ---------------------------------------------------------------- the first loop

  lemma {:induction false} SetTokensFrame(s: State, a: Allocation, k: nat)
    requires k <= |a.table| && InRange(a.table, |s.blocks|)
    ensures var t := SetTokens(s, a, k); t == s.(blocks := t.blocks)
    ensures forall b :: 0 <= b < |s.blocks| ==>
      SetTokens(s, a, k).blocks[b] == s.blocks[b].(tokens := SetTokens(s, a, k).blocks[b].tokens)
    ensures forall b :: 0 <= b < |s.blocks| && b !in a.table[..k] ==> SetTokens(s, a, k).blocks[b] == s.blocks[b]
  {
    if k > 0 {
      SetTokensFrame(s, a, k - 1);
      assert a.table[..k] == a.table[..k - 1] + [a.table[k - 1]];
    }
  }

  /** Every cached entry of the table lies within the committed tokens. */
  ghost predicate CachedWithin(s: State, a: Allocation) {
    forall i :: 0 <= i < |a.table| && a.table[i] < |s.blocks| && s.blocks[a.table[i]].cached ==>
      Span(i + 1, s.blockSize) <= a.tokensAfterCommit
  }

  lemma FullBlockTokens(total: nat, i: nat, bs: nat)
    ensures Span(i + 1, bs) <= total ==> TokensInBlock(total, i, bs) == bs
    ensures TokensInBlock(total, i, bs) == bs && bs > 0 ==> Span(i + 1, bs) <= total
  {
  }

  lemma {:induction false} SetTokensKeepsFull(s: State, a: Allocation, k: nat, b: nat)
    requires k <= |a.table| && InRange(a.table, |s.blocks|) && CachedWithin(s, a)
    requires b < |s.blocks| && s.blocks[b].cached && s.blocks[b].tokens == s.blockSize
    ensures SetTokens(s, a, k).blocks[b].tokens == s.blockSize
  {
    if k > 0 {
      SetTokensKeepsFull(s, a, k - 1, b);
      if a.table[k - 1] == b {
        FullBlockTokens(a.tokensAfterCommit, k - 1, s.blockSize);
      }
    }
  }

  lemma SetTokensKeepsIndexed(s: State, a: Allocation, k: nat)
    requires k <= |a.table| && InRange(a.table, |s.blocks|) && Indexed(s) && CachedWithin(s, a)
    ensures Indexed(SetTokens(s, a, k))
  {
    SetTokensFrame(s, a, k);
    forall b | 0 <= b < |s.blocks| && s.blocks[b].cached
      ensures SetTokens(s, a, k).blocks[b].tokens == s.blockSize
    {
      SetTokensKeepsFull(s, a, k, b);
    }
  }

  /** A table entry that occurs once gets the token count of its own position. */
  lemma {:induction false} SetTokensAt(s: State, a: Allocation, k: nat, i: nat)
    requires k <= |a.table| && InRange(a.table, |s.blocks|) && i < k
    requires forall j :: 0 <= j < |a.table| && j != i ==> a.table[j] != a.table[i]
    ensures SetTokens(s, a, k).blocks[a.table[i]].tokens == TokensInBlock(a.tokensAfterCommit, i, s.blockSize)
  {
    if i < k - 1 {
      SetTokensAt(s, a, k - 1, i);
    }
    SetTokensFrame(s, a, k - 1);
  }

  // ---------------------------------------------------------------- the second loop

  lemma PublishIndexed(s: State, id: nat, h: Hash)
    requires Indexed(s) && id < |s.blocks|
    requires !s.blocks[id].cached && s.blocks[id].tokens == s.blockSize && h !in s.index
    ensures Indexed(Publish(s, id, h))
  {
  }

  /** h came into the index by publishing entry i of the table. */
  ghost predicate Published(u: State, t: State, a: Allocation, i: nat, h: Hash) {
    && i < |a.table| && i < |a.hashes| && h == a.hashes[i]
    && a.phase == Prefill
    && h in t.index && t.index[h] == a.table[i]
    && a.table[i] < |u.blocks| && !u.blocks[a.table[i]].cached && u.blocks[a.table[i]].tokens == u.blockSize
  }

  ghost predicate PublishedFrom(u: State, t: State, a: Allocation, h: Hash) {
    exists i :: Published(u, t, a, i, h)
  }

  /** What PublishAll may have changed. */
  ghost predicate Publication(u: State, t: State, a: Allocation) {
    && t == u.(blocks := t.blocks, index := t.index) && |t.blocks| == |u.blocks|
    && Indexed(t)
    && (forall b :: 0 <= b < |u.blocks| ==>
          t.blocks[b] == u.blocks[b].(hash := t.blocks[b].hash, cached := t.blocks[b].cached))
    && (forall b :: 0 <= b < |u.blocks| && (u.blocks[b].cached || !t.blocks[b].cached) ==> t.blocks[b] == u.blocks[b])
    && (forall h :: h in u.index ==> h in t.index && t.index[h] == u.index[h])
    && (forall h :: h in t.index && h !in u.index ==> PublishedFrom(u, t, a, h))
  }

  lemma PublishStep(u: State, t: State, a: Allocation, i: nat)
    requires Publication(u, t, a) && i < |a.table| && a.table[i] < |u.blocks| && Publishes(t, a, i)
    ensures Publication(u, Publish(t, a.table[i], a.hashes[i]), a)
  {
    var v := Publish(t, a.table[i], a.hashes[i]);
    PublishIndexed(t, a.table[i], a.hashes[i]);
    forall h | h in v.index && h !in u.index
      ensures PublishedFrom(u, v, a, h)
    {
      if h == a.hashes[i] {
        assert Published(u, v, a, i, h);
      } else {
        assert PublishedFrom(u, t, a, h);
        var j :| Published(u, t, a, j, h);
        assert Published(u, v, a, j, h);
      }
    }
  }

  lemma {:induction false} PublishAllEffect(u: State, a: Allocation, k: nat)
    requires k <= |a.table| && InRange(a.table, |u.blocks|) && Indexed(u)
    ensures Publication(u, PublishAll(u, a, k), a)
  {
    if k > 0 {
      PublishAllEffect(u, a, k - 1);
      var t := PublishAll(u, a, k - 1);
      assert |t.blocks| == |u.blocks|;
      if Publishes(t, a, k - 1) {
        PublishStep(u, t, a, k - 1);
      }
    }
  }

  // ---------------------------------------------------------------- the whole operation

  function NCommit(n: Node, wid: WorkId): Node
    requires Bounded(n.s)
  {
    if wid !in n.s.pending then n
    else n.(s := Commit(n.s, wid), progress := n.progress[n.s.pending[wid].requestId := n.s.pending[wid].tokensAfterCommit])
  }

  /** The state between the two loops. */
  function Counted(n: Node, wid: WorkId): State
    requires Bounded(n.s) && wid in n.s.pending
  {
    SetTokens(n.s.(pending := n.s.pending - {wid}), n.s.pending[wid], |n.s.pending[wid].table|)
  }

  lemma CachedIsWithin(n: Node, wid: WorkId)
    requires Inv(n) && wid in n.s.pending
    ensures CachedWithin(n.s, n.s.pending[wid])
  {
    var a := n.s.pending[wid];
    assert AllocationOk(n, a);
    forall i | 0 <= i < |a.table| && a.table[i] < |n.s.blocks| && n.s.blocks[a.table[i]].cached
      ensures Span(i + 1, n.s.blockSize) <= a.tokensAfterCommit
    {
      assert n.s.tables[a.requestId][i] == a.table[i];
      assert !Beyond(n, a.requestId, i);
    }
  }

  lemma CommitEffect(n: Node, wid: WorkId)
    requires Inv(n) && wid in n.s.pending
    ensures Indexed(Counted(n, wid))
    ensures Publication(Counted(n, wid), NCommit(n, wid).s, n.s.pending[wid])
    ensures Counted(n, wid) == n.s.(pending := n.s.pending - {wid}, blocks := Counted(n, wid).blocks)
    ensures forall b :: 0 <= b < |n.s.blocks| ==>
      Counted(n, wid).blocks[b] == n.s.blocks[b].(tokens := Counted(n, wid).blocks[b].tokens)
    ensures forall b :: 0 <= b < |n.s.blocks| && b !in n.s.pending[wid].table ==>
      Counted(n, wid).blocks[b] == n.s.blocks[b]
  {
    var a, s := n.s.pending[wid], n.s.(pending := n.s.pending - {wid});
    CachedIsWithin(n, wid);
    SetTokensKeepsIndexed(s, a, |a.table|);
    SetTokensFrame(s, a, |a.table|);
    assert a.table[..|a.table|] == a.table;
    PublishAllEffect(Counted(n, wid), a, |a.table|);
  }

  /** A block that Commit publishes was counted full, so its whole range of positions is committed. */
  lemma PublishedIsWithin(n: Node, wid: WorkId, i: nat)
    requires Inv(n) && wid in n.s.pending && i < |n.s.pending[wid].table|
    requires n.s.pending[wid].table[i] < |n.s.blocks|
    requires Counted(n, wid).blocks[n.s.pending[wid].table[i]].tokens == n.s.blockSize
    ensures Span(i + 1, n.s.blockSize) <= n.s.pending[wid].tokensAfterCommit
  {
    var a, s := n.s.pending[wid], n.s.(pending := n.s.pending - {wid});
    assert AllocationOk(n, a);
    assert n.s.tables[a.requestId][i] == a.table[i];
    if Beyond(n, a.requestId, i) {
      forall j | 0 <= j < |a.table| && j != i
        ensures a.table[j] != a.table[i]
      {
        if a.table[j] == a.table[i] {
          TablesShare(n, a.requestId, i, a.requestId, j);
        }
      }
      SetTokensAt(s, a, |a.table|, i);
      FullBlockTokens(a.tokensAfterCommit, i, n.s.blockSize);
    }
  }

  lemma CommitKeepsBeyond(n: Node, wid: WorkId, r: RequestId, i: nat)
    requires Inv(n) && wid in n.s.pending && r in n.s.tables && i < |n.s.tables[r]|
    requires Beyond(NCommit(n, wid), r, i)
    ensures n.s.tables[r][i] < |n.s.blocks|
    ensures !NCommit(n, wid).s.blocks[n.s.tables[r][i]].cached
    ensures NCommit(n, wid).s.blocks[n.s.tables[r][i]].refs == 1
  {
    var a := n.s.pending[wid];
    var m, b := NCommit(n, wid), n.s.tables[r][i];
    CommitEffect(n, wid);
    assert AllocationOk(n, a);
    assert Beyond(n, r, i);
    if m.s.blocks[b].cached {
      var h := m.s.blocks[b].hash;
      assert h in m.s.index && m.s.index[h] == b;
      assert h !in n.s.index;
      assert PublishedFrom(Counted(n, wid), m.s, a, h);
      var j :| Published(Counted(n, wid), m.s, a, j, h);
      PublishedIsWithin(n, wid, j);
      if r != a.requestId || i != j {
        TablesShare(n, r, i, a.requestId, j);
      }
      assert false;
    }
  }

  lemma CommitExclusive(n: Node, wid: WorkId)
    requires Inv(n) && wid in n.s.pending
    ensures Exclusive(NCommit(n, wid))
  {
    CommitEffect(n, wid);
    var m := NCommit(n, wid);
    forall r, i | r in m.s.tables && 0 <= i < |m.s.tables[r]| && Beyond(m, r, i)
      ensures m.s.tables[r][i] < |m.s.blocks|
      ensures !m.s.blocks[m.s.tables[r][i]].cached && m.s.blocks[m.s.tables[r][i]].refs == 1
    {
      CommitKeepsBeyond(n, wid, r, i);
    }
  }

  lemma CommitUnshared(n: Node, wid: WorkId)
    requires Inv(n) && wid in n.s.pending
    ensures Unshared(NCommit(n, wid))
  {
    CommitEffect(n, wid);
    var m, u := NCommit(n, wid), Counted(n, wid);
    forall r, i | r in m.s.tables && 0 <= i < |m.s.tables[r]|
      ensures m.s.tables[r][i] < |m.s.blocks|
      ensures m.s.blocks[m.s.tables[r][i]].cached || m.s.blocks[m.s.tables[r][i]].refs == 1
    {
      var b := n.s.tables[r][i];
      assert m.s.blocks[b] == u.blocks[b].(hash := m.s.blocks[b].hash, cached := m.s.blocks[b].cached);
      assert u.blocks[b] == n.s.blocks[b].(tokens := u.blocks[b].tokens);
    }
  }

  lemma CommitPending(n: Node, m: Node, wid: WorkId)
    requires PendingOk(n) && ProgressOk(n) && wid in n.s.pending
    requires m.s.tables == n.s.tables && m.s.blockSize == n.s.blockSize && m.s.pending == n.s.pending - {wid}
    requires m.progress == n.progress[n.s.pending[wid].requestId := n.s.pending[wid].tokensAfterCommit]
    ensures PendingOk(m) && ProgressOk(m)
  {
    assert AllocationOk(n, n.s.pending[wid]);
    forall v | v in m.s.pending
      ensures AllocationOk(m, m.s.pending[v])
    {
      assert AllocationOk(n, n.s.pending[v]);
    }
  }

  lemma CommitTransfers(n: Node, wid: WorkId)
    requires Inv(n) && wid in n.s.pending
    ensures TransfersOk(NCommit(n, wid))
  {
    var m, a := NCommit(n, wid), n.s.pending[wid];
    CommitEffect(n, wid);
    assert AllocationOk(n, a);
    forall t, i | t in m.reserved && 0 <= i < |m.reserved[t]|
      ensures m.reserved[t][i] < |m.s.blocks|
      ensures !m.s.blocks[m.reserved[t][i]].cached && m.s.blocks[m.reserved[t][i]].refs == 1
    {
      var b := m.reserved[t][i];
      if m.s.blocks[b].cached {
        var h := m.s.blocks[b].hash;
        assert PublishedFrom(Counted(n, wid), m.s, a, h);
        var j :| Published(Counted(n, wid), m.s, a, j, h);
        TableReservationShare(n, a.requestId, j, t, i);
        assert false;
      }
    }
  }

  lemma CommitKeepsInv(n: Node, wid: WorkId)
    requires Inv(n)
    ensures Inv(NCommit(n, wid))
  {
    if wid in n.s.pending {
      CommitEffect(n, wid);
      CommitBounded(n.s, wid);
      CommitExclusive(n, wid);
      CommitUnshared(n, wid);
      CommitPending(n, NCommit(n, wid), wid);
      CommitTransfers(n, wid);
    }
  }
}

/** Pinning, reserving, importing and releasing transfer blocks keep the invariant of a node. */
module TransferInv {
  import opened Hashing
  import opened Sequences
  import opened BlockSpec
  import opened Bags
  import opened BlockEffects
  import opened BlockInv
  import opened RequestInv

  // ---------------------------------------------------------------- pinCachedBlocks

  /** With the index and the metadata inverse to each other, only a missing hash stops a pin. */
  lemma TransferableIffIndexed(s: State, h: Hash)
    requires Indexed(s)
    ensures Transferable(s, h) <==> h in s.index
  {
  }

  function NPin(n: Node, t: TransferId, hashes: seq<Hash>): Node
    requires CanPin(n.s, hashes)
  {
    n.(s := Pin(n.s, hashes), pinned := n.pinned[t := PinnedIds(n.s, hashes)])
  }

  lemma PinFrame(n: Node, t: TransferId, hashes: seq<Hash>)
    requires Inv(n) && CanPin(n.s, hashes)
    ensures var m := NPin(n, t, hashes); SameButRefs(n.s, m.s) && Queued(m.s) && Bounded(m.s)
    ensures forall b :: 0 <= b < |n.s.blocks| ==>
      NPin(n, t, hashes).s.blocks[b].refs == n.s.blocks[b].refs + multiset(PinnedIds(n.s, hashes))[b]
    ensures forall b :: 0 <= b < |n.s.blocks| && !n.s.blocks[b].cached ==> NPin(n, t, hashes).s.blocks[b] == n.s.blocks[b]
  {
    var ids := PinnedIds(n.s, hashes);
    TouchAllEffect(n.s, ids);
    TouchAllBounded(n.s, ids);
    forall i | 0 <= i < |ids|
      ensures n.s.blocks[ids[i]].cached
    {
      assert Transferable(n.s, hashes[i]);
    }
    assert forall b :: 0 <= b < |n.s.blocks| && !n.s.blocks[b].cached ==> b !in ids;
  }

  lemma PinConserved(n: Node, t: TransferId, hashes: seq<Hash>)
    requires Inv(n) && CanPin(n.s, hashes) && t !in n.pinned
    ensures Conserved(NPin(n, t, hashes))
  {
    PinFrame(n, t, hashes);
    BagInsert(n.pinned, t, PinnedIds(n.s, hashes));
  }

  /** The block is published, or has one holder, if it was. */
  predicate Alike(before: Meta, after: Meta) {
    before.cached || before.refs == 1 ==> after.cached || after.refs == 1
  }

  lemma StillUnshared(n: Node, m: Node)
    requires Unshared(n) && m.s.tables == n.s.tables && |m.s.blocks| == |n.s.blocks|
    requires forall r, i :: r in n.s.tables && 0 <= i < |n.s.tables[r]| && n.s.tables[r][i] < |n.s.blocks| ==>
      Alike(n.s.blocks[n.s.tables[r][i]], m.s.blocks[n.s.tables[r][i]])
    ensures Unshared(m)
  {
    forall r, i | r in m.s.tables && 0 <= i < |m.s.tables[r]|
      ensures m.s.tables[r][i] < |m.s.blocks|
      ensures m.s.blocks[m.s.tables[r][i]].cached || m.s.blocks[m.s.tables[r][i]].refs == 1
    {
      assert Alike(n.s.blocks[n.s.tables[r][i]], m.s.blocks[n.s.tables[r][i]]);
    }
  }

  lemma PinUnshared(n: Node, t: TransferId, hashes: seq<Hash>)
    requires Inv(n) && CanPin(n.s, hashes)
    ensures Unshared(NPin(n, t, hashes))
  {
    PinFrame(n, t, hashes);
    StillUnshared(n, NPin(n, t, hashes));
  }

  lemma PinRest(n: Node, t: TransferId, hashes: seq<Hash>)
    requires Inv(n) && CanPin(n.s, hashes) && t !in n.pinned
    ensures var m := NPin(n, t, hashes); Exclusive(m) && ProgressOk(m) && PendingOk(m)
  {
    var m := NPin(n, t, hashes);
    PinFrame(n, t, hashes);
    forall w | w in m.s.pending
      ensures AllocationOk(m, m.s.pending[w])
    {
      assert AllocationOk(n, n.s.pending[w]);
    }
    forall r, i | r in m.s.tables && 0 <= i < |m.s.tables[r]| && Beyond(m, r, i)
      ensures m.s.tables[r][i] < |m.s.blocks|
      ensures !m.s.blocks[m.s.tables[r][i]].cached && m.s.blocks[m.s.tables[r][i]].refs == 1
    {
      assert Beyond(n, r, i);
    }
  }

  lemma PinTransfers(n: Node, t: TransferId, hashes: seq<Hash>)
    requires Inv(n) && CanPin(n.s, hashes) && t !in n.pinned
    ensures TransfersOk(NPin(n, t, hashes))
  {
    var m := NPin(n, t, hashes);
    PinFrame(n, t, hashes);
    forall u, i | u in m.pinned && 0 <= i < |m.pinned[u]|
      ensures m.pinned[u][i] < |m.s.blocks| && m.s.blocks[m.pinned[u][i]].cached
    {
      if u == t {
        assert Transferable(n.s, hashes[i]);
      }
    }
  }

  lemma PinInv(n: Node, t: TransferId, hashes: seq<Hash>)
    requires Inv(n) && CanPin(n.s, hashes) && t !in n.pinned
    ensures Inv(NPin(n, t, hashes))
  {
    PinFrame(n, t, hashes);
    PinConserved(n, t, hashes);
    PinRest(n, t, hashes);
    PinUnshared(n, t, hashes);
    PinTransfers(n, t, hashes);
  }

  // ---------------------------------------------------------------- reserveTransferBlocks

  function NReserve(n: Node, t: TransferId, k: nat): Node
    requires k <= |n.s.free|
  {
    n.(s := Pop(n.s, k), reserved := n.reserved[t := n.s.free[..k]])
  }

  lemma ReserveConserved(n: Node, t: TransferId, k: nat)
    requires Inv(n) && k <= |n.s.free| && t !in n.reserved
    ensures Conserved(NReserve(n, t, k))
  {
    PopEffect(n.s, k);
    BagInsert(n.reserved, t, n.s.free[..k]);
  }

  lemma ReserveIndexed(n: Node, t: TransferId, k: nat)
    requires Inv(n) && k <= |n.s.free|
    ensures Shape(NReserve(n, t, k)) && Indexed(NReserve(n, t, k).s)
  {
    PopEffect(n.s, k);
    PopBounded(n.s, k);
    EvictIndexed(n.s, NReserve(n, t, k).s, n.s.free[..k]);
  }

  lemma ReserveUnshared(n: Node, t: TransferId, k: nat)
    requires Inv(n) && k <= |n.s.free|
    ensures Unshared(NReserve(n, t, k))
  {
    PopEffect(n.s, k);
    StillUnshared(n, NReserve(n, t, k));
  }

  lemma ReserveRest(n: Node, t: TransferId, k: nat)
    requires Inv(n) && k <= |n.s.free| && t !in n.reserved
    ensures var m := NReserve(n, t, k); Exclusive(m) && ProgressOk(m) && PendingOk(m)
  {
    var m := NReserve(n, t, k);
    PopEffect(n.s, k);
    forall w | w in m.s.pending
      ensures AllocationOk(m, m.s.pending[w])
    {
      assert AllocationOk(n, n.s.pending[w]);
    }
    forall r, i | r in m.s.tables && 0 <= i < |m.s.tables[r]| && Beyond(m, r, i)
      ensures m.s.tables[r][i] < |m.s.blocks|
      ensures !m.s.blocks[m.s.tables[r][i]].cached && m.s.blocks[m.s.tables[r][i]].refs == 1
    {
      assert Beyond(n, r, i);
    }
  }

  lemma ReserveTransfers(n: Node, t: TransferId, k: nat)
    requires Inv(n) && k <= |n.s.free| && t !in n.reserved
    ensures TransfersOk(NReserve(n, t, k))
  {
    var m := NReserve(n, t, k);
    PopEffect(n.s, k);
    forall u, i | u in m.reserved && 0 <= i < |m.reserved[u]|
      ensures m.reserved[u][i] < |m.s.blocks|
      ensures !m.s.blocks[m.reserved[u][i]].cached && m.s.blocks[m.reserved[u][i]].refs == 1
    {
      if u == t {
        assert n.s.free[..k][i] in n.s.free[..k];
      }
    }
    forall u, i | u in m.pinned && 0 <= i < |m.pinned[u]|
      ensures m.pinned[u][i] < |m.s.blocks| && m.s.blocks[m.pinned[u][i]].cached
    {
      PinnedHeld(n, u, i);
    }
  }

  lemma ReserveInv(n: Node, t: TransferId, k: nat)
    requires Inv(n) && k <= |n.s.free| && t !in n.reserved
    ensures Inv(NReserve(n, t, k))
  {
    ReserveConserved(n, t, k);
    ReserveIndexed(n, t, k);
    ReserveRest(n, t, k);
    ReserveUnshared(n, t, k);
    ReserveTransfers(n, t, k);
  }

  // ---------------------------------------------------------------- commitImportedBlocks

  /** h came into the index as the i-th imported block. */
  ghost predicate ImportedAt(index: map<Hash, nat>, ids: seq<nat>, hashes: seq<Hash>, i: nat, h: Hash) {
    i < |ids| && i < |hashes| && h == hashes[i] && h in index && index[h] == ids[i]
  }

  ghost predicate ImportedFrom(index: map<Hash, nat>, ids: seq<nat>, hashes: seq<Hash>, h: Hash) {
    exists i :: ImportedAt(index, ids, hashes, i, h)
  }

  /** Distinct, unpublished blocks with one holder each. */
  ghost predicate Exclusively(s: State, ids: seq<nat>) {
    && Distinct(ids)
    && (forall i :: 0 <= i < |ids| ==> ids[i] < |s.blocks| && !s.blocks[ids[i]].cached && s.blocks[ids[i]].refs == 1)
  }

  /** What importing the first k blocks may have done to the index: existing copies win, every hash is there. */
  ghost predicate ImportedIndex(before: map<Hash, nat>, after: map<Hash, nat>, ids: seq<nat>, hashes: seq<Hash>, k: nat)
    requires k <= |hashes|
  {
    && (forall h :: h in before ==> h in after && after[h] == before[h])
    && (forall i :: 0 <= i < k ==> hashes[i] in after)
    && (forall h :: h in after && h !in before ==> ImportedFrom(after, ids, hashes, h))
  }

  lemma FillIndexed(s: State, id: nat, h: Hash)
    requires Indexed(s) && Queued(s) && id < |s.blocks| && !s.blocks[id].cached && h !in s.index
    ensures Indexed(Fill(s, id, h)) && Queued(Fill(s, id, h))
  {
  }

  /** The state Import leaves, for an unpublished block with one holder. */
  lemma ImportOneEffect(s: State, id: nat, h: Hash)
    requires Indexed(s) && Queued(s) && id < |s.blocks| && !s.blocks[id].cached && s.blocks[id].refs == 1
    ensures var t := Import(s, id, h);
      && Indexed(t) && Queued(t)
      && t.blockSize == s.blockSize && t.tables == s.tables && t.pending == s.pending
      && t.index == (if h in s.index then s.index else s.index[h := id])
      && t.blocks[id].refs == 0
    ensures forall b :: 0 <= b < |s.blocks| && b != id ==> Import(s, id, h).blocks[b] == s.blocks[b]
  {
    ImportIsFillThenPush(s, id, h);
    if h in s.index {
      PushFreeEffect(s, id);
    } else {
      FillIndexed(s, id, h);
      PushFreeEffect(Fill(s, id, h), id);
    }
  }

  lemma ImportIndexStep(before: map<Hash, nat>, mid: map<Hash, nat>, after: map<Hash, nat>, ids: seq<nat>, hashes: seq<Hash>, k: nat)
    requires |ids| == |hashes| && k < |ids| && ImportedIndex(before, mid, ids, hashes, k)
    requires after == if hashes[k] in mid then mid else mid[hashes[k] := ids[k]]
    ensures ImportedIndex(before, after, ids, hashes, k + 1)
  {
    forall h | h in after && h !in before
      ensures ImportedFrom(after, ids, hashes, h)
    {
      if h in mid {
        assert ImportedFrom(mid, ids, hashes, h);
        var i :| ImportedAt(mid, ids, hashes, i, h);
        assert ImportedAt(after, ids, hashes, i, h);
      } else {
        assert ImportedAt(after, ids, hashes, k, h);
      }
    }
  }

  lemma {:induction false} ImportAllElsewhere(s: State, ids: seq<nat>, hashes: seq<Hash>, k: nat, b: nat)
    requires |ids| == |hashes| && k <= |ids| && InRange(ids, |s.blocks|) && b < |s.blocks|
    requires forall i :: 0 <= i < k ==> ids[i] != b
    ensures ImportAll(s, ids, hashes, k).blocks[b] == s.blocks[b]
  {
    if k > 0 {
      ImportAllElsewhere(s, ids, hashes, k - 1, b);
    }
  }

  lemma {:induction false} ImportAllFields(s: State, ids: seq<nat>, hashes: seq<Hash>, k: nat)
    requires |ids| == |hashes| && k <= |ids| && InRange(ids, |s.blocks|)
    ensures var t := ImportAll(s, ids, hashes, k);
      t.blockSize == s.blockSize && t.tables == s.tables && t.pending == s.pending
  {
    if k > 0 {
      ImportAllFields(s, ids, hashes, k - 1);
    }
  }

  lemma {:induction false} ImportAllKeeps(s: State, ids: seq<nat>, hashes: seq<Hash>, k: nat) returns (t: State)
    requires Indexed(s) && Queued(s) && |ids| == |hashes| && k <= |ids| && InRange(ids, |s.blocks|)
    requires Exclusively(s, ids)
    ensures t == ImportAll(s, ids, hashes, k) && Indexed(t) && Queued(t)
  {
    if k == 0 {
      t := s;
    } else {
      var u := ImportAllKeeps(s, ids, hashes, k - 1);
      ImportAllElsewhere(s, ids, hashes, k - 1, ids[k - 1]);
      ImportOneEffect(u, ids[k - 1], hashes[k - 1]);
      t := Import(u, ids[k - 1], hashes[k - 1]);
    }
  }

  /** The i-th reserved block is free once it has been imported. */
  lemma {:induction false} ImportAllReleases(s: State, ids: seq<nat>, hashes: seq<Hash>, k: nat, i: nat)
    requires |ids| == |hashes| && i < k <= |ids| && InRange(ids, |s.blocks|)
    requires Exclusively(s, ids)
    ensures ImportAll(s, ids, hashes, k).blocks[ids[i]].refs == 0
  {
    if i < k - 1 {
      ImportAllReleases(s, ids, hashes, k - 1, i);
    } else {
      ImportAllElsewhere(s, ids, hashes, k - 1, ids[i]);
    }
  }

  /** When it is its turn, a reserved block is still unpublished and has one holder. */
  lemma ImportTurn(s: State, ids: seq<nat>, hashes: seq<Hash>, k: nat) returns (t: State)
    requires Indexed(s) && Queued(s) && |ids| == |hashes| && k < |ids| && InRange(ids, |s.blocks|)
    requires Exclusively(s, ids)
    ensures t == ImportAll(s, ids, hashes, k) && Indexed(t) && Queued(t)
    ensures ids[k] < |t.blocks| && !t.blocks[ids[k]].cached && t.blocks[ids[k]].refs == 1
  {
    t := ImportAllKeeps(s, ids, hashes, k);
    ImportAllElsewhere(s, ids, hashes, k, ids[k]);
  }

  lemma ImportOneIndex(t: State, id: nat, h: Hash) returns (u: State)
    requires Indexed(t) && Queued(t) && id < |t.blocks| && !t.blocks[id].cached && t.blocks[id].refs == 1
    ensures u == Import(t, id, h) && u.index == if h in t.index then t.index else t.index[h := id]
  {
    ImportOneEffect(t, id, h);
    u := Import(t, id, h);
  }

  lemma ImportAnother(s: State, ids: seq<nat>, hashes: seq<Hash>, k: nat, t: State) returns (u: State)
    requires Indexed(s) && Queued(s) && |ids| == |hashes| && 0 < k <= |ids| && InRange(ids, |s.blocks|)
    requires Exclusively(s, ids) && t == ImportAll(s, ids, hashes, k - 1)
    ensures u == ImportAll(s, ids, hashes, k)
    ensures u.index == if hashes[k - 1] in t.index then t.index else t.index[hashes[k - 1] := ids[k - 1]]
  {
    var _ := ImportTurn(s, ids, hashes, k - 1);
    u := ImportOneIndex(t, ids[k - 1], hashes[k - 1]);
  }

  lemma {:induction false} ImportAllIndex(s: State, ids: seq<nat>, hashes: seq<Hash>, k: nat) returns (u: State)
    requires Indexed(s) && Queued(s) && |ids| == |hashes| && k <= |ids| && InRange(ids, |s.blocks|)
    requires Exclusively(s, ids)
    ensures u == ImportAll(s, ids, hashes, k) && ImportedIndex(s.index, u.index, ids, hashes, k)
  {
    if k == 0 {
      u := s;
    } else {
      var t := ImportAllIndex(s, ids, hashes, k - 1);
      u := ImportAnother(s, ids, hashes, k, t);
      ImportIndexStep(s.index, t.index, u.index, ids, hashes, k - 1);
    }
  }

  lemma ReservationIsExclusive(n: Node, t: TransferId)
    requires Inv(n) && t in n.reserved
    ensures Exclusively(n.s, n.reserved[t]) && Reserved(n.s, n.reserved[t])
  {
    var ids := n.reserved[t];
    forall i, j | 0 <= i < j < |ids|
      ensures ids[i] != ids[j]
    {
      ReservationsShare(n, t, i, t, j);
    }
  }

  function NImport(n: Node, t: TransferId, hashes: seq<Hash>): Node
    requires t in n.reserved && |n.reserved[t]| == |hashes| && InRange(n.reserved[t], |n.s.blocks|)
  {
    n.(s := ImportAll(n.s, n.reserved[t], hashes, |hashes|), reserved := n.reserved - {t})
  }

  lemma ImportFrame(n: Node, t: TransferId, hashes: seq<Hash>)
    requires Inv(n) && t in n.reserved && |n.reserved[t]| == |hashes|
    ensures var s := NImport(n, t, hashes).s;
      && s.blockSize == n.s.blockSize && s.tables == n.s.tables && s.pending == n.s.pending
      && Indexed(s) && Queued(s) && Bounded(s)
      && ImportedIndex(n.s.index, s.index, n.reserved[t], hashes, |hashes|)
    ensures forall b :: 0 <= b < |n.s.blocks| && b !in n.reserved[t] ==> NImport(n, t, hashes).s.blocks[b] == n.s.blocks[b]
    ensures forall b :: b in n.reserved[t] ==> NImport(n, t, hashes).s.blocks[b].refs == 0
  {
    var ids := n.reserved[t];
    ReservationIsExclusive(n, t);
    ImportAllFields(n.s, ids, hashes, |hashes|);
    var _ := ImportAllKeeps(n.s, ids, hashes, |hashes|);
    var _ := ImportAllIndex(n.s, ids, hashes, |hashes|);
    ImportAllBounded(n.s, ids, hashes, |hashes|);
    forall b | 0 <= b < |n.s.blocks| && b !in ids
      ensures NImport(n, t, hashes).s.blocks[b] == n.s.blocks[b]
    {
      ImportAllElsewhere(n.s, ids, hashes, |hashes|, b);
    }
    forall i | 0 <= i < |ids|
      ensures NImport(n, t, hashes).s.blocks[ids[i]].refs == 0
    {
      ImportAllReleases(n.s, ids, hashes, |hashes|, i);
    }
  }

  lemma ImportConserved(n: Node, t: TransferId, hashes: seq<Hash>)
    requires Inv(n) && t in n.reserved && |n.reserved[t]| == |hashes|
    ensures Conserved(NImport(n, t, hashes))
  {
    var m, ids := NImport(n, t, hashes), n.reserved[t];
    ImportFrame(n, t, hashes);
    ReservationIsExclusive(n, t);
    BagRemove(n.reserved, t);
    forall b | 0 <= b < |m.s.blocks|
      ensures m.s.blocks[b].refs == Holders(m)[b]
    {
      DistinctCount(ids, b);
      assert n.s.blocks[b].refs == Holders(n)[b];
      assert b in ids ==> m.s.blocks[b].refs == 0;
    }
  }

  lemma ImportRest(n: Node, t: TransferId, hashes: seq<Hash>)
    requires Inv(n) && t in n.reserved && |n.reserved[t]| == |hashes|
    ensures var m := NImport(n, t, hashes); Exclusive(m) && ProgressOk(m) && PendingOk(m)
  {
    var m := NImport(n, t, hashes);
    ImportFrame(n, t, hashes);
    forall w | w in m.s.pending
      ensures AllocationOk(m, m.s.pending[w])
    {
      assert AllocationOk(n, n.s.pending[w]);
    }
    forall r, i | r in m.s.tables && 0 <= i < |m.s.tables[r]| && Beyond(m, r, i)
      ensures m.s.tables[r][i] < |m.s.blocks|
      ensures !m.s.blocks[m.s.tables[r][i]].cached && m.s.blocks[m.s.tables[r][i]].refs == 1
    {
      assert Beyond(n, r, i);
      TableNotReserved(n, r, i, t);
    }
  }

  lemma ImportUnshared(n: Node, t: TransferId, hashes: seq<Hash>)
    requires Inv(n) && t in n.reserved && |n.reserved[t]| == |hashes|
    ensures Unshared(NImport(n, t, hashes))
  {
    ImportFrame(n, t, hashes);
    forall r, i | r in n.s.tables && 0 <= i < |n.s.tables[r]|
      ensures n.s.tables[r][i] !in n.reserved[t]
    {
      TableNotReserved(n, r, i, t);
    }
    StillUnshared(n, NImport(n, t, hashes));
  }

  lemma TableNotReserved(n: Node, r: RequestId, i: nat, t: TransferId)
    requires Inv(n) && r in n.s.tables && i < |n.s.tables[r]| && t in n.reserved
    ensures n.s.tables[r][i] !in n.reserved[t]
  {
    forall j | 0 <= j < |n.reserved[t]|
      ensures n.reserved[t][j] != n.s.tables[r][i]
    {
      TableReservationShare(n, r, i, t, j);
    }
  }

  lemma ImportTransfers(n: Node, t: TransferId, hashes: seq<Hash>)
    requires Inv(n) && t in n.reserved && |n.reserved[t]| == |hashes|
    ensures TransfersOk(NImport(n, t, hashes))
  {
    var m := NImport(n, t, hashes);
    ImportFrame(n, t, hashes);
    forall u, i | u in m.reserved && 0 <= i < |m.reserved[u]|
      ensures m.reserved[u][i] < |m.s.blocks|
      ensures !m.s.blocks[m.reserved[u][i]].cached && m.s.blocks[m.reserved[u][i]].refs == 1
    {
      forall j | 0 <= j < |n.reserved[t]|
        ensures n.reserved[t][j] != n.reserved[u][i]
      {
        ReservationsShare(n, t, j, u, i);
      }
    }
    forall u, i | u in m.pinned && 0 <= i < |m.pinned[u]|
      ensures m.pinned[u][i] < |m.s.blocks| && m.s.blocks[m.pinned[u][i]].cached
    {
      assert n.pinned[u][i] !in n.reserved[t];
    }
  }

  lemma ImportInv(n: Node, t: TransferId, hashes: seq<Hash>)
    requires Inv(n) && t in n.reserved && |n.reserved[t]| == |hashes|
    ensures Inv(NImport(n, t, hashes))
  {
    ImportFrame(n, t, hashes);
    ImportConserved(n, t, hashes);
    ImportRest(n, t, hashes);
    ImportUnshared(n, t, hashes);
    ImportTransfers(n, t, hashes);
  }

  // ---------------------------------------------------------------- releaseTransferBlocks

  function NUnpin(n: Node, t: TransferId): Node
    requires t in n.pinned && InRange(n.pinned[t], |n.s.blocks|)
  {
    n.(s := PushAll(n.s, n.pinned[t]), pinned := n.pinned - {t})
  }

  function NUnreserve(n: Node, t: TransferId): Node
    requires t in n.reserved && InRange(n.reserved[t], |n.s.blocks|)
  {
    n.(s := PushAll(n.s, n.reserved[t]), reserved := n.reserved - {t})
  }

  lemma UnpinFrame(n: Node, t: TransferId)
    requires Inv(n) && t in n.pinned
    ensures var m := NUnpin(n, t); SameButRefs(n.s, m.s) && Queued(m.s) && Bounded(m.s) && Conserved(m)
    ensures forall b :: 0 <= b < |n.s.blocks| && !n.s.blocks[b].cached ==> NUnpin(n, t).s.blocks[b] == n.s.blocks[b]
  {
    BagRemove(n.pinned, t);
    PushAllEffect(n.s, n.pinned[t]);
    PushAllBounded(n.s, n.pinned[t]);
    forall b | 0 <= b < |n.s.blocks| && !n.s.blocks[b].cached
      ensures multiset(n.pinned[t])[b] == 0
    {
      assert b !in n.pinned[t];
    }
  }

  lemma UnreserveFrame(n: Node, t: TransferId)
    requires Inv(n) && t in n.reserved
    ensures var m := NUnreserve(n, t); SameButRefs(n.s, m.s) && Queued(m.s) && Bounded(m.s) && Conserved(m)
    ensures forall b :: 0 <= b < |n.s.blocks| && b !in n.reserved[t] ==> NUnreserve(n, t).s.blocks[b] == n.s.blocks[b]
  {
    BagRemove(n.reserved, t);
    PushAllEffect(n.s, n.reserved[t]);
    PushAllBounded(n.s, n.reserved[t]);
    forall b | 0 <= b < |n.s.blocks| && b !in n.reserved[t]
      ensures multiset(n.reserved[t])[b] == 0
    {
    }
  }

  lemma SamePending(n: Node, m: Node)
    requires PendingOk(n) && ProgressOk(n) && m.s.pending == n.s.pending && m.s.tables == n.s.tables
    requires m.s.blockSize == n.s.blockSize && m.progress == n.progress
    ensures PendingOk(m) && ProgressOk(m)
  {
    forall w | w in m.s.pending
      ensures AllocationOk(m, m.s.pending[w])
    {
      assert AllocationOk(n, n.s.pending[w]);
    }
  }

  lemma UnpinUnshared(n: Node, t: TransferId)
    requires Inv(n) && t in n.pinned
    ensures Unshared(NUnpin(n, t))
  {
    UnpinFrame(n, t);
    StillUnshared(n, NUnpin(n, t));
  }

  lemma UnreserveUnshared(n: Node, t: TransferId)
    requires Inv(n) && t in n.reserved
    ensures Unshared(NUnreserve(n, t))
  {
    UnreserveFrame(n, t);
    forall r, i | r in n.s.tables && 0 <= i < |n.s.tables[r]|
      ensures n.s.tables[r][i] !in n.reserved[t]
    {
      TableNotReserved(n, r, i, t);
    }
    StillUnshared(n, NUnreserve(n, t));
  }

  lemma UnpinInv(n: Node, t: TransferId)
    requires Inv(n) && t in n.pinned
    ensures Inv(NUnpin(n, t))
  {
    var m := NUnpin(n, t);
    UnpinFrame(n, t);
    UnpinUnshared(n, t);
    SamePending(n, m);
    forall r, i | r in m.s.tables && 0 <= i < |m.s.tables[r]| && Beyond(m, r, i)
      ensures m.s.tables[r][i] < |m.s.blocks|
      ensures !m.s.blocks[m.s.tables[r][i]].cached && m.s.blocks[m.s.tables[r][i]].refs == 1
    {
      assert Beyond(n, r, i);
    }
  }

  lemma UnreserveExclusive(n: Node, t: TransferId)
    requires Inv(n) && t in n.reserved
    ensures Exclusive(NUnreserve(n, t)) && TransfersOk(NUnreserve(n, t))
  {
    var m := NUnreserve(n, t);
    UnreserveFrame(n, t);
    forall r, i | r in m.s.tables && 0 <= i < |m.s.tables[r]| && Beyond(m, r, i)
      ensures m.s.tables[r][i] < |m.s.blocks|
      ensures !m.s.blocks[m.s.tables[r][i]].cached && m.s.blocks[m.s.tables[r][i]].refs == 1
    {
      assert Beyond(n, r, i);
      TableNotReserved(n, r, i, t);
    }
    forall u, i | u in m.reserved && 0 <= i < |m.reserved[u]|
      ensures m.reserved[u][i] < |m.s.blocks|
      ensures !m.s.blocks[m.reserved[u][i]].cached && m.s.blocks[m.reserved[u][i]].refs == 1
    {
      forall j | 0 <= j < |n.reserved[t]|
        ensures n.reserved[t][j] != n.reserved[u][i]
      {
        ReservationsShare(n, t, j, u, i);
      }
    }
  }

  lemma UnreserveInv(n: Node, t: TransferId)
    requires Inv(n) && t in n.reserved
    ensures Inv(NUnreserve(n, t))
  {
    UnreserveFrame(n, t);
    SamePending(n, NUnreserve(n, t));
    UnreserveExclusive(n, t);
    UnreserveUnshared(n, t);
  }
}

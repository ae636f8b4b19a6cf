/**
 The operations on one executor as seen by the engine: what each keeps and what it publishes.

 `Sound` is the invariant behind one recursive call. The verifier does not unfold a recursive predicate whose
 depth is not a literal, so proofs about several executors carry `Sound` as a plain fact about a node; SoundIsInv
 opens it where its contents are needed. The other predicates named `...Behind` hide what they hold in the same way.
 */
module NodeSteps {
  import opened Hashing
  import opened BlockSpec
  import opened Bags
  import opened BlockEffects
  import opened BlockInv
  import opened RequestInv
  import opened CommitInv
  import opened ReleaseInv
  import opened TransferInv

  ghost predicate InvBehind(n: Node, depth: nat) {
    if depth == 0 then Inv(n) else InvBehind(n, depth - 1)
  }

  ghost predicate Sound(n: Node) {
    InvBehind(n, |n.s.blocks| + 1)
  }

  lemma {:induction false} InvBehindIsInv(n: Node, depth: nat)
    ensures InvBehind(n, depth) <==> Inv(n)
  {
    if depth > 0 {
      InvBehindIsInv(n, depth - 1);
    }
  }

  lemma SoundIsInv(n: Node)
    ensures Sound(n) <==> Inv(n)
  {
    InvBehindIsInv(n, |n.s.blocks| + 1);
  }

  /** A published block that someone holds stays published under its hash. */
  ghost predicate Kept(n: Node, m: Node) {
    forall h :: h in n.s.index && n.s.index[h] < |n.s.blocks| && n.s.blocks[n.s.index[h]].refs > 0 ==>
      h in m.s.index && m.s.index[h] == n.s.index[h]
  }

  ghost predicate KeptBehind(n: Node, m: Node, depth: nat) {
    if depth == 0 then Kept(n, m) && m.s.blockSize == n.s.blockSize else KeptBehind(n, m, depth - 1)
  }

  /** Kept, hidden as Sound is. */
  ghost predicate Advances(n: Node, m: Node) {
    KeptBehind(n, m, |n.s.blocks| + 1)
  }

  lemma {:induction false} KeptBehindIsKept(n: Node, m: Node, depth: nat)
    ensures KeptBehind(n, m, depth) <==> Kept(n, m) && m.s.blockSize == n.s.blockSize
  {
    if depth > 0 {
      KeptBehindIsKept(n, m, depth - 1);
    }
  }

  lemma AdvancesIsKept(n: Node, m: Node)
    ensures Advances(n, m) <==> Kept(n, m) && m.s.blockSize == n.s.blockSize
  {
    KeptBehindIsKept(n, m, |n.s.blocks| + 1);
  }

  /** Pins and reservations are as before. */
  ghost predicate SameTransfers(n: Node, m: Node) {
    m.pinned == n.pinned && m.reserved == n.reserved
  }

  /** A pinned block stays published: the hash it was pinned under still names it. */
  lemma PinnedStays(n: Node, m: Node, t: TransferId, i: nat, h: Hash)
    requires Sound(n) && Advances(n, m) && t in n.pinned && i < |n.pinned[t]|
    requires h in n.s.index && n.s.index[h] == n.pinned[t][i]
    ensures h in m.s.index && m.s.index[h] == n.s.index[h]
  {
    SoundIsInv(n);
    AdvancesIsKept(n, m);
    PinnedHeld(n, t, i);
  }

  lemma SameBlockSize(n: Node, m: Node)
    requires Advances(n, m)
    ensures m.s.blockSize == n.s.blockSize
  {
    AdvancesIsKept(n, m);
  }

  lemma InitialSound(bs: nat, k: nat)
    requires bs > 0
    ensures Sound(Node(Initial(bs, k), map[], map[], map[]))
  {
    InitialInv(bs, k);
    SoundIsInv(Node(Initial(bs, k), map[], map[], map[]));
  }

  // ---------------------------------------------------------------- requests

  ghost function AfterMatch(n: Node, rid: RequestId, matchable: seq<Hash>): (m: Node)
    requires Sound(n)
  {
    SoundIsInv(n);
    NMatch(n, rid, matchable)
  }

  lemma MatchStep(n: Node, rid: RequestId, matchable: seq<Hash>)
    requires Sound(n) && rid !in n.s.tables
    ensures var m := AfterMatch(n, rid, matchable); Sound(m) && Advances(n, m) && SameTransfers(n, m)
  {
    SoundIsInv(n);
    var m := NMatch(n, rid, matchable);
    MatchInv(n, rid, matchable);
    MatchFrame(n, rid, matchable);
    SoundIsInv(m);
    AdvancesIsKept(n, m);
  }

  ghost function AfterAllocate(n: Node, w: Work): (m: Node)
    requires Sound(n) && MayAllocate(n, w)
  {
    SoundIsInv(n);
    NAllocate(n, w)
  }

  /** Evicting unreferenced blocks takes no hash of a referenced block out of the index. */
  lemma EvictKeeps(n: Node, m: Node, ids: seq<nat>)
    requires Indexed(n.s) && m.s.index == n.s.index - Evicted(n.s.blocks, ids)
    requires forall b :: b in ids ==> b < |n.s.blocks| && n.s.blocks[b].refs == 0
    ensures Kept(n, m)
  {
    forall h | h in n.s.index && n.s.blocks[n.s.index[h]].refs > 0
      ensures h in m.s.index
    {
      EvictedWhere(n.s, ids, h);
    }
  }

  lemma AllocateStep(n: Node, w: Work)
    requires Sound(n) && MayAllocate(n, w)
    ensures var m := AfterAllocate(n, w); Sound(m) && Advances(n, m) && SameTransfers(n, m)
  {
    SoundIsInv(n);
    AllocateInv(n, w);
    SoundIsInv(NAllocate(n, w));
    AdvancesIsKept(n, NAllocate(n, w));
    if CanAllocate(n.s, w) {
      AllocateFrame(n, w);
      EvictKeeps(n, NAllocate(n, w), NewAllocation(n.s, w).added);
    } else {
      assert NAllocate(n, w) == n;
    }
  }

  ghost function AfterCommit(n: Node, wid: WorkId): (m: Node)
    requires Sound(n)
  {
    SoundIsInv(n);
    NCommit(n, wid)
  }

  lemma CommitStep(n: Node, wid: WorkId)
    requires Sound(n)
    ensures var m := AfterCommit(n, wid); Sound(m) && Advances(n, m) && SameTransfers(n, m)
  {
    SoundIsInv(n);
    CommitKeepsInv(n, wid);
    SoundIsInv(NCommit(n, wid));
    AdvancesIsKept(n, NCommit(n, wid));
    if wid in n.s.pending {
      CommitEffect(n, wid);
    }
  }

  ghost function AfterRollback(n: Node, wid: WorkId): (m: Node)
    requires Sound(n)
  {
    SoundIsInv(n);
    NRollback(n, wid)
  }

  lemma RollbackStep(n: Node, wid: WorkId)
    requires Sound(n)
    ensures var m := AfterRollback(n, wid); Sound(m) && Advances(n, m) && SameTransfers(n, m)
  {
    SoundIsInv(n);
    RollbackInv(n, wid);
    SoundIsInv(NRollback(n, wid));
    AdvancesIsKept(n, NRollback(n, wid));
    if wid in n.s.pending {
      var rid, keep, pending := RollbackIsDrop(n, wid);
      DropFrame(n, rid, keep, pending);
    }
  }

  ghost function AfterFree(n: Node, rid: RequestId): (m: Node)
    requires Sound(n)
  {
    SoundIsInv(n);
    NFree(n, rid)
  }

  lemma FreeStep(n: Node, rid: RequestId)
    requires Sound(n)
    ensures var m := AfterFree(n, rid); Sound(m) && Advances(n, m) && SameTransfers(n, m) && rid !in m.s.tables
  {
    SoundIsInv(n);
    FreeInv(n, rid);
    SoundIsInv(NFree(n, rid));
    AdvancesIsKept(n, NFree(n, rid));
    FreeIsDrop(n, rid);
    DropFrame(n, rid, 0, OthersPending(n.s, rid));
  }

  // ---------------------------------------------------------------- transfers

  lemma PinStep(n: Node, t: TransferId, hashes: seq<Hash>)
    requires Sound(n) && CanPin(n.s, hashes) && t !in n.pinned
    ensures var m := NPin(n, t, hashes);
      && Sound(m) && Advances(n, m) && m.s.index == n.s.index
      && (forall i :: 0 <= i < |hashes| ==> hashes[i] in n.s.index && n.s.index[hashes[i]] == m.pinned[t][i])
  {
    SoundIsInv(n);
    PinInv(n, t, hashes);
    PinFrame(n, t, hashes);
    SoundIsInv(NPin(n, t, hashes));
    AdvancesIsKept(n, NPin(n, t, hashes));
    forall i | 0 <= i < |hashes|
      ensures hashes[i] in n.s.index
    {
      assert Transferable(n.s, hashes[i]);
    }
  }

  lemma ReserveStep(n: Node, t: TransferId, k: nat)
    requires Sound(n) && k <= |n.s.free| && t !in n.reserved
    ensures var m := NReserve(n, t, k); Sound(m) && Advances(n, m)
  {
    SoundIsInv(n);
    ReserveInv(n, t, k);
    SoundIsInv(NReserve(n, t, k));
    AdvancesIsKept(n, NReserve(n, t, k));
    PopEffect(n.s, k);
    EvictKeeps(n, NReserve(n, t, k), n.s.free[..k]);
  }

  lemma PinnedInRange(n: Node, t: TransferId)
    requires Sound(n)
    ensures t in n.pinned ==> InRange(n.pinned[t], |n.s.blocks|)
    ensures t in n.reserved ==> InRange(n.reserved[t], |n.s.blocks|)
  {
    SoundIsInv(n);
  }

  ghost function AfterUnpin(n: Node, t: TransferId): (m: Node)
    requires Sound(n) && t in n.pinned
  {
    PinnedInRange(n, t);
    NUnpin(n, t)
  }

  lemma UnpinStep(n: Node, t: TransferId)
    requires Sound(n) && t in n.pinned
    ensures var m := AfterUnpin(n, t);
      && Sound(m) && Advances(n, m) && m.s.index == n.s.index
      && m.reserved == n.reserved && m.pinned == n.pinned - {t}
  {
    SoundIsInv(n);
    UnpinInv(n, t);
    UnpinFrame(n, t);
    SoundIsInv(NUnpin(n, t));
    AdvancesIsKept(n, NUnpin(n, t));
  }

  ghost function AfterUnreserve(n: Node, t: TransferId): (m: Node)
    requires Sound(n) && t in n.reserved
  {
    PinnedInRange(n, t);
    NUnreserve(n, t)
  }

  lemma UnreserveStep(n: Node, t: TransferId)
    requires Sound(n) && t in n.reserved
    ensures var m := AfterUnreserve(n, t);
      && Sound(m) && Advances(n, m) && m.s.index == n.s.index
      && m.pinned == n.pinned && m.reserved == n.reserved - {t}
  {
    SoundIsInv(n);
    UnreserveInv(n, t);
    UnreserveFrame(n, t);
    SoundIsInv(NUnreserve(n, t));
    AdvancesIsKept(n, NUnreserve(n, t));
  }

  ghost function AfterImport(n: Node, t: TransferId, hashes: seq<Hash>): (m: Node)
    requires Sound(n) && t in n.reserved && |n.reserved[t]| == |hashes|
  {
    PinnedInRange(n, t);
    NImport(n, t, hashes)
  }

  /** Importing a reservation never fails; afterwards every hash is published and the reservation is gone. */
  lemma ImportStep(n: Node, t: TransferId, hashes: seq<Hash>)
    requires Sound(n) && t in n.reserved && |n.reserved[t]| == |hashes|
    ensures CanImport(n.s, n.reserved[t], hashes)
    ensures var m := AfterImport(n, t, hashes);
      && Sound(m) && Advances(n, m)
      && m.pinned == n.pinned && m.reserved == n.reserved - {t}
      && (forall h :: h in n.s.index ==> h in m.s.index && m.s.index[h] == n.s.index[h])
      && (forall i :: 0 <= i < |hashes| ==> hashes[i] in m.s.index)
  {
    SoundIsInv(n);
    ImportInv(n, t, hashes);
    ImportFrame(n, t, hashes);
    ReservationIsExclusive(n, t);
    SoundIsInv(NImport(n, t, hashes));
    AdvancesIsKept(n, NImport(n, t, hashes));
  }
}

/** Rollback and FreeRequest: both cut a request's table and release the references cut off. */
module ReleaseInv {
  import opened Hashing
  import opened Spans
  import opened BlockSpec
  import opened Bags
  import opened BlockEffects
  import opened BlockInv

  function CutTables(tables: map<RequestId, seq<nat>>, rid: RequestId, keep: nat): map<RequestId, seq<nat>>
    requires keep <= |Listed(tables, rid)|
  {
    if keep == 0 then tables - {rid} else tables[rid := Listed(tables, rid)[..keep]]
  }

  /** The state before the references are released. */
  function Detached(s: State, rid: RequestId, keep: nat, pending: map<WorkId, Allocation>): State
    requires keep <= |Listed(s.tables, rid)|
  {
    s.(tables := CutTables(s.tables, rid, keep), pending := pending)
  }

  /** The first `keep` blocks of a request's table stay; the references to the others are released. */
  function Drop(n: Node, rid: RequestId, keep: nat, pending: map<WorkId, Allocation>): Node
    requires Bounded(n.s) && keep <= |Listed(n.s.tables, rid)|
    requires forall w :: w in pending ==> w in n.s.pending && pending[w] == n.s.pending[w]
  {
    n.(s := PushAll(Detached(n.s, rid, keep, pending), Listed(n.s.tables, rid)[keep..]),
       progress := if keep == 0 then n.progress - {rid} else n.progress)
  }

  lemma BagCut(tables: map<RequestId, seq<nat>>, rid: RequestId, keep: nat)
    requires keep <= |Listed(tables, rid)|
    ensures Bag(tables) == Bag(CutTables(tables, rid, keep)) + multiset(Listed(tables, rid)[keep..])
  {
    var xs := Listed(tables, rid);
    assert xs == xs[..keep] + xs[keep..];
    assert multiset(xs) == multiset(xs[..keep]) + multiset(xs[keep..]);
    if rid in tables {
      BagRemove(tables, rid);
      if keep > 0 {
        BagInsert(tables - {rid}, rid, xs[..keep]);
        assert (tables - {rid})[rid := xs[..keep]] == tables[rid := xs[..keep]];
      }
    } else {
      assert tables - {rid} == tables;
    }
  }

  /** What Drop may cut, and which pending allocations it may keep. */
  ghost predicate MayDrop(n: Node, rid: RequestId, keep: nat, pending: map<WorkId, Allocation>) {
    && keep <= |Listed(n.s.tables, rid)|
    && (keep > 0 ==> Progress(n, rid) <= Span(keep, n.s.blockSize))
    && (forall w :: w in pending ==> w in n.s.pending && pending[w] == n.s.pending[w] && pending[w].requestId != rid)
  }

  /** Every reference that is cut off is one the block has. */
  lemma CutIsHeld(n: Node, rid: RequestId, keep: nat, b: nat)
    requires Inv(n) && keep <= |Listed(n.s.tables, rid)| && b < |n.s.blocks|
    ensures multiset(Listed(n.s.tables, rid)[keep..])[b] <= n.s.blocks[b].refs
  {
    BagCut(n.s.tables, rid, keep);
  }

  lemma DetachedBounded(s: State, rid: RequestId, keep: nat, pending: map<WorkId, Allocation>)
    requires Bounded(s) && Queued(s) && keep <= |Listed(s.tables, rid)|
    requires forall w :: w in pending ==> w in s.pending && pending[w] == s.pending[w]
    ensures Bounded(Detached(s, rid, keep, pending)) && Queued(Detached(s, rid, keep, pending))
  {
  }

  lemma DropFrame(n: Node, rid: RequestId, keep: nat, pending: map<WorkId, Allocation>)
    requires Inv(n) && MayDrop(n, rid, keep, pending)
    ensures var m := Drop(n, rid, keep, pending);
      && |m.s.blocks| == |n.s.blocks| && m.s.blockSize == n.s.blockSize && m.s.index == n.s.index
      && m.s.pending == pending && m.s.tables == CutTables(n.s.tables, rid, keep)
      && Queued(m.s) && Bounded(m.s)
    ensures forall b :: 0 <= b < |n.s.blocks| ==>
      multiset(Listed(n.s.tables, rid)[keep..])[b] <= n.s.blocks[b].refs &&
      Drop(n, rid, keep, pending).s.blocks[b] ==
        n.s.blocks[b].(refs := n.s.blocks[b].refs - multiset(Listed(n.s.tables, rid)[keep..])[b])
  {
    DetachedBounded(n.s, rid, keep, pending);
    forall b | 0 <= b < |n.s.blocks|
      ensures multiset(Listed(n.s.tables, rid)[keep..])[b] <= n.s.blocks[b].refs
    {
      CutIsHeld(n, rid, keep, b);
    }
    PushAllEffect(Detached(n.s, rid, keep, pending), Listed(n.s.tables, rid)[keep..]);
    PushAllBounded(Detached(n.s, rid, keep, pending), Listed(n.s.tables, rid)[keep..]);
  }

  lemma DropConserved(n: Node, rid: RequestId, keep: nat, pending: map<WorkId, Allocation>)
    requires Inv(n) && MayDrop(n, rid, keep, pending)
    ensures Conserved(Drop(n, rid, keep, pending))
  {
    DropFrame(n, rid, keep, pending);
    BagCut(n.s.tables, rid, keep);
  }

  /** An entry that is kept and has one holder is not among the blocks cut off. */
  lemma KeptIsNotCut(n: Node, rid: RequestId, keep: nat, r: RequestId, i: nat)
    requires Shape(n) && Conserved(n) && keep <= |Listed(n.s.tables, rid)|
    requires r in n.s.tables && i < |n.s.tables[r]| && n.s.blocks[n.s.tables[r][i]].refs == 1
    requires r == rid ==> i < keep
    ensures multiset(Listed(n.s.tables, rid)[keep..])[n.s.tables[r][i]] == 0
  {
    var b, cut := n.s.tables[r][i], Listed(n.s.tables, rid)[keep..];
    forall k | 0 <= k < |cut|
      ensures cut[k] != b
    {
      if cut[k] == b {
        TablesShare(n, r, i, rid, keep + k);
      }
    }
    assert b !in cut;
  }

  lemma DropExclusive(n: Node, rid: RequestId, keep: nat, pending: map<WorkId, Allocation>)
    requires Inv(n) && MayDrop(n, rid, keep, pending)
    ensures Exclusive(Drop(n, rid, keep, pending))
  {
    var m := Drop(n, rid, keep, pending);
    DropFrame(n, rid, keep, pending);
    forall r, i | r in m.s.tables && 0 <= i < |m.s.tables[r]| && Beyond(m, r, i)
      ensures m.s.tables[r][i] < |m.s.blocks|
      ensures !m.s.blocks[m.s.tables[r][i]].cached && m.s.blocks[m.s.tables[r][i]].refs == 1
    {
      assert Beyond(n, r, i);
      KeptIsNotCut(n, rid, keep, r, i);
    }
  }

  lemma DropUnshared(n: Node, rid: RequestId, keep: nat, pending: map<WorkId, Allocation>)
    requires Inv(n) && MayDrop(n, rid, keep, pending)
    ensures Unshared(Drop(n, rid, keep, pending))
  {
    var m := Drop(n, rid, keep, pending);
    DropFrame(n, rid, keep, pending);
    forall r, i | r in m.s.tables && 0 <= i < |m.s.tables[r]|
      ensures m.s.tables[r][i] < |m.s.blocks|
      ensures m.s.blocks[m.s.tables[r][i]].cached || m.s.blocks[m.s.tables[r][i]].refs == 1
    {
      assert m.s.tables[r][i] == n.s.tables[r][i];
      if !n.s.blocks[n.s.tables[r][i]].cached {
        KeptIsNotCut(n, rid, keep, r, i);
      }
    }
  }

  lemma DropPending(n: Node, m: Node, rid: RequestId, keep: nat, pending: map<WorkId, Allocation>)
    requires PendingOk(n) && ProgressOk(n) && MayDrop(n, rid, keep, pending)
    requires m.s.tables == CutTables(n.s.tables, rid, keep) && m.s.blockSize == n.s.blockSize && m.s.pending == pending
    requires m.progress == if keep == 0 then n.progress - {rid} else n.progress
    ensures PendingOk(m) && ProgressOk(m)
  {
    forall w | w in pending
      ensures AllocationOk(m, pending[w])
    {
      assert AllocationOk(n, n.s.pending[w]);
    }
  }

  lemma DropTransfers(n: Node, rid: RequestId, keep: nat, pending: map<WorkId, Allocation>)
    requires Inv(n) && MayDrop(n, rid, keep, pending)
    ensures TransfersOk(Drop(n, rid, keep, pending))
  {
    var m := Drop(n, rid, keep, pending);
    DropFrame(n, rid, keep, pending);
    forall t, i | t in m.reserved && 0 <= i < |m.reserved[t]|
      ensures !m.s.blocks[m.reserved[t][i]].cached && m.s.blocks[m.reserved[t][i]].refs == 1
    {
      ReservedIsNotCut(n, rid, keep, t, i);
    }
  }

  lemma ReservedIsNotCut(n: Node, rid: RequestId, keep: nat, t: TransferId, i: nat)
    requires Shape(n) && Conserved(n) && keep <= |Listed(n.s.tables, rid)| && t in n.reserved && i < |n.reserved[t]|
    requires n.s.blocks[n.reserved[t][i]].refs == 1
    ensures multiset(Listed(n.s.tables, rid)[keep..])[n.reserved[t][i]] == 0
  {
    BagCut(n.s.tables, rid, keep);
    BagZero(n.reserved, t, i);
  }

  lemma DropInv(n: Node, rid: RequestId, keep: nat, pending: map<WorkId, Allocation>)
    requires Inv(n) && MayDrop(n, rid, keep, pending)
    ensures Inv(Drop(n, rid, keep, pending))
  {
    DropFrame(n, rid, keep, pending);
    DropConserved(n, rid, keep, pending);
    DropExclusive(n, rid, keep, pending);
    DropUnshared(n, rid, keep, pending);
    DropPending(n, Drop(n, rid, keep, pending), rid, keep, pending);
    DropTransfers(n, rid, keep, pending);
  }

  // ---------------------------------------------------------------- Rollback

  function NRollback(n: Node, wid: WorkId): Node
    requires Bounded(n.s)
  {
    if wid !in n.s.pending then n
    else
      var s, rid := Rollback(n.s, wid), n.s.pending[wid].requestId;
      n.(s := s, progress := if rid in s.tables then n.progress else n.progress - {rid})
  }

  lemma {:induction false} PushAllFields(s: State, ids: seq<nat>)
    requires InRange(ids, |s.blocks|)
    ensures var t := PushAll(s, ids); t.tables == s.tables && t.index == s.index && t.pending == s.pending
  {
    if ids != [] {
      PushAllFields(s, ids[..|ids| - 1]);
    }
  }

  /** Rolling an allocation back keeps the part of the table that was there before it. */
  lemma RollbackIsDrop(n: Node, wid: WorkId) returns (rid: RequestId, keep: nat, pending: map<WorkId, Allocation>)
    requires Bounded(n.s) && PendingOk(n) && wid in n.s.pending
    ensures rid == n.s.pending[wid].requestId && pending == n.s.pending - {wid}
    ensures keep + |n.s.pending[wid].added| == |n.s.pending[wid].table|
    ensures MayDrop(n, rid, keep, pending) && NRollback(n, wid) == Drop(n, rid, keep, pending)
  {
    var a := n.s.pending[wid];
    assert AllocationOk(n, a);
    rid, keep, pending := a.requestId, |a.table| - |a.added|, n.s.pending - {wid};
    PushAllFields(Detached(n.s, rid, keep, pending), a.added);
  }

  lemma RollbackInv(n: Node, wid: WorkId)
    requires Inv(n)
    ensures Inv(NRollback(n, wid))
  {
    if wid in n.s.pending {
      var rid, keep, pending := RollbackIsDrop(n, wid);
      DropInv(n, rid, keep, pending);
    }
  }

  // ---------------------------------------------------------------- FreeRequest

  function NFree(n: Node, rid: RequestId): Node
    requires Bounded(n.s)
  {
    n.(s := FreeRequest(n.s, rid), progress := n.progress - {rid})
  }

  function OthersPending(s: State, rid: RequestId): map<WorkId, Allocation> {
    map w | w in s.pending && s.pending[w].requestId != rid :: s.pending[w]
  }

  lemma FreeIsDrop(n: Node, rid: RequestId)
    requires Inv(n)
    ensures MayDrop(n, rid, 0, OthersPending(n.s, rid))
    ensures NFree(n, rid) == Drop(n, rid, 0, OthersPending(n.s, rid))
  {
    assert Listed(n.s.tables, rid)[0..] == Listed(n.s.tables, rid);
  }

  lemma FreeInv(n: Node, rid: RequestId)
    requires Inv(n)
    ensures Inv(NFree(n, rid))
  {
    FreeIsDrop(n, rid);
    DropInv(n, rid, 0, OthersPending(n.s, rid));
  }
}

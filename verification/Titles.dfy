/** The published blocks of a request's table are published under the request's own hashes, position by position. */
module Titles {
  import opened Hashing
  import opened Spans
  import opened BlockSpec
  import opened Bags
  import opened BlockEffects
  import opened BlockInv
  import opened RequestInv
  import opened CommitInv
  import opened ReleaseInv
  import opened TransferInv
  import opened NodeSteps
  import opened Engine
  import opened EngineRuns
  import opened RequestEffects
  import opened Publishing

  ghost predicate Titled(n: Node, r: RequestId, hashes: seq<Hash>) {
    r in n.s.tables ==>
      forall i :: 0 <= i < |n.s.tables[r]| && n.s.tables[r][i] < |n.s.blocks| && n.s.blocks[n.s.tables[r][i]].cached ==>
        i < |hashes| && n.s.blocks[n.s.tables[r][i]].hash == hashes[i]
  }

  /** Whatever titles the tables had they still have. */
  ghost predicate TitlesStay(n: Node, m: Node) {
    forall r, hashes :: Titled(n, r, hashes) ==> Titled(m, r, hashes)
  }

  /** Entries may leave a table, and blocks may be unpublished; nothing is published under another hash. */
  lemma FewerTitles(n: Node, m: Node, r: RequestId, hashes: seq<Hash>)
    requires Titled(n, r, hashes) && r in m.s.tables && r in n.s.tables && |m.s.blocks| == |n.s.blocks|
    requires forall i :: 0 <= i < |m.s.tables[r]| && m.s.tables[r][i] < |m.s.blocks| && m.s.blocks[m.s.tables[r][i]].cached ==>
      && i < |n.s.tables[r]| && n.s.tables[r][i] == m.s.tables[r][i]
      && n.s.blocks[n.s.tables[r][i]].cached && n.s.blocks[n.s.tables[r][i]].hash == m.s.blocks[m.s.tables[r][i]].hash
    ensures Titled(m, r, hashes)
  {
  }

  // ---------------------------------------------------------------- requests

  lemma MatchTitles(n: Node, rid: RequestId, matchable: seq<Hash>, hashes: seq<Hash>)
    requires Inv(n) && rid !in n.s.tables && matchable <= hashes
    ensures Titled(NMatch(n, rid, matchable), rid, hashes)
  {
    var m := MatchTouched(n.s, rid, matchable, Run(n.s.index, matchable));
    RunIsPublished(n.s, matchable);
  }

  lemma RunIsPublished(s: State, matchable: seq<Hash>)
    requires Indexed(s)
    ensures var ids := Run(s.index, matchable);
      forall i :: 0 <= i < |ids| ==> ids[i] < |s.blocks| && s.blocks[ids[i]].cached && s.blocks[ids[i]].hash == matchable[i]
  {
  }

  lemma MatchKeepsTitles(n: Node, rid: RequestId, matchable: seq<Hash>, r: RequestId, hashes: seq<Hash>)
    requires Inv(n) && rid !in n.s.tables && r != rid && Titled(n, r, hashes)
    ensures Titled(NMatch(n, rid, matchable), r, hashes)
  {
    MatchFrame(n, rid, matchable);
    if r in n.s.tables {
      FewerTitles(n, NMatch(n, rid, matchable), r, hashes);
    }
  }

  lemma AllocateKeepsTitles(n: Node, w: Work, r: RequestId, hashes: seq<Hash>)
    requires Inv(n) && MayAllocate(n, w) && CanAllocate(n.s, w) && Titled(n, r, hashes)
    ensures Titled(NAllocate(n, w), r, hashes)
  {
    var m := NAllocate(n, w);
    AllocateFrame(n, w);
    if r in m.s.tables {
      forall i | 0 <= i < |m.s.tables[r]| && m.s.tables[r][i] < |m.s.blocks| && m.s.blocks[m.s.tables[r][i]].cached
        ensures r in n.s.tables && i < |n.s.tables[r]| && n.s.tables[r][i] == m.s.tables[r][i]
        ensures n.s.blocks[n.s.tables[r][i]] == m.s.blocks[m.s.tables[r][i]]
      {
        AllocatedEntry(n, w, r, i);
      }
    }
  }

  /** An entry is an old one with its block as it was, or a new one that is not published. */
  lemma AllocatedEntry(n: Node, w: Work, r: RequestId, i: nat)
    requires Inv(n) && MayAllocate(n, w) && CanAllocate(n.s, w)
    requires r in NAllocate(n, w).s.tables && i < |NAllocate(n, w).s.tables[r]|
    ensures var m := NAllocate(n, w); var b := m.s.tables[r][i];
      b < |m.s.blocks| && (m.s.blocks[b].cached ==>
        r in n.s.tables && i < |n.s.tables[r]| && n.s.tables[r][i] == b && n.s.blocks[b] == m.s.blocks[b])
  {
    AllocateFrame(n, w);
    var m, added := NAllocate(n, w), NewAllocation(n.s, w).added;
    if r == w.requestId {
      var e := |Existing(n.s, w)|;
      assert i >= e ==> m.s.tables[r][i] == added[i - e];
    }
  }

  /** A commit publishes blocks of its own table alone, each under its own hash. */
  lemma CommitKeepsTitles(n: Node, wid: WorkId, r: RequestId, hashes: seq<Hash>)
    requires Inv(n) && wid in n.s.pending && Titled(n, r, hashes)
    requires n.s.pending[wid].requestId == r ==> n.s.pending[wid].hashes == hashes
    ensures Titled(NCommit(n, wid), r, hashes)
  {
    CommitEffect(n, wid);
    var m := NCommit(n, wid);
    if r in m.s.tables {
      forall i | 0 <= i < |m.s.tables[r]| && m.s.tables[r][i] < |m.s.blocks| && m.s.blocks[m.s.tables[r][i]].cached
        ensures i < |hashes| && m.s.blocks[m.s.tables[r][i]].hash == hashes[i]
      {
        CommitTitle(n, wid, r, i, hashes);
      }
    }
  }

  lemma CommitTitle(n: Node, wid: WorkId, r: RequestId, i: nat, hashes: seq<Hash>)
    requires Inv(n) && wid in n.s.pending && Titled(n, r, hashes)
    requires n.s.pending[wid].requestId == r ==> n.s.pending[wid].hashes == hashes
    requires r in n.s.tables && i < |n.s.tables[r]| && n.s.tables[r][i] < |n.s.blocks|
    requires NCommit(n, wid).s.blocks[n.s.tables[r][i]].cached
    ensures i < |hashes| && NCommit(n, wid).s.blocks[n.s.tables[r][i]].hash == hashes[i]
  {
    var a, m, b := n.s.pending[wid], NCommit(n, wid), n.s.tables[r][i];
    CommitEffect(n, wid);
    assert AllocationOk(n, a);
    if n.s.blocks[b].cached {
      assert m.s.blocks[b] == Counted(n, wid).blocks[b];
    } else {
      var j := NewlyPublished(n, wid, b);
      if r != a.requestId || i != j {
        UnpublishedOnce(n, r, i, a.requestId, j);
      }
    }
  }

  lemma NewlyPublished(n: Node, wid: WorkId, b: nat) returns (j: nat)
    requires Inv(n) && wid in n.s.pending && b < |n.s.blocks| && !n.s.blocks[b].cached && NCommit(n, wid).s.blocks[b].cached
    ensures var a := n.s.pending[wid]; j < |a.table| && j < |a.hashes| && a.table[j] == b && NCommit(n, wid).s.blocks[b].hash == a.hashes[j]
  {
    var a, m := n.s.pending[wid], NCommit(n, wid);
    CommitEffect(n, wid);
    var h := m.s.blocks[b].hash;
    assert h in m.s.index && m.s.index[h] == b;
    assert h !in n.s.index;
    assert PublishedFrom(Counted(n, wid), m.s, a, h);
    j :| Published(Counted(n, wid), m.s, a, j, h);
  }

  lemma DropKeepsTitles(n: Node, rid: RequestId, keep: nat, pending: map<WorkId, Allocation>, r: RequestId, hashes: seq<Hash>)
    requires Inv(n) && MayDrop(n, rid, keep, pending) && Titled(n, r, hashes)
    ensures Titled(Drop(n, rid, keep, pending), r, hashes)
  {
    DropFrame(n, rid, keep, pending);
    var m := Drop(n, rid, keep, pending);
    if r in m.s.tables {
      FewerTitles(n, m, r, hashes);
    }
  }

  /** The titles stay, but request r's only under `hashes`. */
  ghost predicate TitlesStayUnder(n: Node, m: Node, r: RequestId, hashes: seq<Hash>) {
    forall q, other :: Titled(n, q, other) && (q == r ==> other == hashes) ==> Titled(m, q, other)
  }

  lemma MatchStays(n: Node, rid: RequestId, matchable: seq<Hash>, hashes: seq<Hash>)
    requires Sound(n) && rid !in n.s.tables && matchable <= hashes
    ensures TitlesStayUnder(n, AfterMatch(n, rid, matchable), rid, hashes) && Titled(AfterMatch(n, rid, matchable), rid, hashes)
  {
    SoundIsInv(n);
    MatchTitles(n, rid, matchable, hashes);
    forall q, other | Titled(n, q, other) && q != rid
      ensures Titled(AfterMatch(n, rid, matchable), q, other)
    {
      MatchKeepsTitles(n, rid, matchable, q, other);
    }
  }

  lemma AllocateStays(n: Node, w: Work)
    requires Sound(n) && MayAllocate(n, w)
    ensures TitlesStay(n, AfterAllocate(n, w))
  {
    SoundIsInv(n);
    if CanAllocate(n.s, w) {
      forall q, other | Titled(n, q, other)
        ensures Titled(AfterAllocate(n, w), q, other)
      {
        AllocateKeepsTitles(n, w, q, other);
      }
    } else {
      assert AfterAllocate(n, w) == n;
    }
  }

  lemma CommitStays(n: Node, wid: WorkId)
    requires Sound(n) && wid in n.s.pending
    ensures TitlesStayUnder(n, AfterCommit(n, wid), n.s.pending[wid].requestId, n.s.pending[wid].hashes)
  {
    SoundIsInv(n);
    var a := n.s.pending[wid];
    forall q, other | Titled(n, q, other) && (q == a.requestId ==> other == a.hashes)
      ensures Titled(AfterCommit(n, wid), q, other)
    {
      CommitKeepsTitles(n, wid, q, other);
    }
  }

  lemma RollbackStays(n: Node, wid: WorkId)
    requires Sound(n) && wid in n.s.pending
    ensures TitlesStay(n, AfterRollback(n, wid))
  {
    SoundIsInv(n);
    var rid, keep, pending := RollbackIsDrop(n, wid);
    DropStays(n, rid, keep, pending);
  }

  lemma FreeStays(n: Node, rid: RequestId)
    requires Sound(n)
    ensures TitlesStay(n, AfterFree(n, rid))
  {
    SoundIsInv(n);
    FreeIsDrop(n, rid);
    DropStays(n, rid, 0, OthersPending(n.s, rid));
  }

  lemma DropStays(n: Node, rid: RequestId, keep: nat, pending: map<WorkId, Allocation>)
    requires Inv(n) && MayDrop(n, rid, keep, pending)
    ensures TitlesStay(n, Drop(n, rid, keep, pending))
  {
    forall q, other | Titled(n, q, other)
      ensures Titled(Drop(n, rid, keep, pending), q, other)
    {
      DropKeepsTitles(n, rid, keep, pending, q, other);
    }
  }

  // ---------------------------------------------------------------- transfers

  lemma DullerTitles(n: Node, m: Node)
    requires m.s.tables == n.s.tables && |m.s.blocks| == |n.s.blocks|
    requires forall r, i :: r in n.s.tables && 0 <= i < |n.s.tables[r]| && n.s.tables[r][i] < |n.s.blocks| ==>
      Dimmed(n.s.blocks[n.s.tables[r][i]], m.s.blocks[n.s.tables[r][i]])
    ensures TitlesStay(n, m)
  {
    forall r, hashes | Titled(n, r, hashes)
      ensures Titled(m, r, hashes)
    {
      if r in m.s.tables {
        forall i | 0 <= i < |m.s.tables[r]| && m.s.tables[r][i] < |m.s.blocks| && m.s.blocks[m.s.tables[r][i]].cached
          ensures i < |hashes| && m.s.blocks[m.s.tables[r][i]].hash == hashes[i]
        {
          assert Dimmed(n.s.blocks[n.s.tables[r][i]], m.s.blocks[n.s.tables[r][i]]);
        }
      }
    }
  }

  /** Published afterwards only if it was, and then under the same hash. */
  predicate Dimmed(before: Meta, after: Meta) {
    after.cached ==> before.cached && before.hash == after.hash
  }

  lemma PinTitles(n: Node, t: TransferId, hashes: seq<Hash>)
    requires Sound(n) && CanPin(n.s, hashes)
    ensures TitlesStay(n, NPin(n, t, hashes))
  {
    SoundIsInv(n);
    PinFrame(n, t, hashes);
    DullerTitles(n, NPin(n, t, hashes));
  }

  lemma UnpinTitles(n: Node, t: TransferId)
    requires Sound(n) && t in n.pinned
    ensures TitlesStay(n, AfterUnpin(n, t))
  {
    SoundIsInv(n);
    UnpinFrame(n, t);
    DullerTitles(n, NUnpin(n, t));
  }

  lemma ReserveTitles(n: Node, t: TransferId, k: nat)
    requires Sound(n) && k <= |n.s.free|
    ensures TitlesStay(n, NReserve(n, t, k))
  {
    SoundIsInv(n);
    PopEffect(n.s, k);
    DullerTitles(n, NReserve(n, t, k));
  }

  lemma UnreserveTitles(n: Node, t: TransferId)
    requires Sound(n) && t in n.reserved
    ensures TitlesStay(n, AfterUnreserve(n, t))
  {
    SoundIsInv(n);
    UnreserveFrame(n, t);
    DullerTitles(n, NUnreserve(n, t));
  }

  lemma ImportTitles(n: Node, t: TransferId, hashes: seq<Hash>)
    requires Sound(n) && t in n.reserved && |n.reserved[t]| == |hashes|
    ensures TitlesStay(n, AfterImport(n, t, hashes))
  {
    SoundIsInv(n);
    ImportFrame(n, t, hashes);
    forall r, i | r in n.s.tables && 0 <= i < |n.s.tables[r]|
      ensures n.s.tables[r][i] !in n.reserved[t]
    {
      TableNotReserved(n, r, i, t);
    }
    DullerTitles(n, NImport(n, t, hashes));
  }

  /** The titles stay at every executor. */
  ghost predicate KeepsTitles(g: Registry, h: Registry) {
    h.nodes.Keys == g.nodes.Keys && forall e :: e in g.nodes ==> TitlesStay(g.nodes[e], h.nodes[e])
  }

  lemma OneKeepsTitles(g: Registry, e: ExecutorId, m: Node)
    requires e in g.nodes && TitlesStay(g.nodes[e], m)
    ensures KeepsTitles(g, Put(g, e, m))
  {
  }

  lemma TwoKeepTitles(g: Registry, src: ExecutorId, m: Node, dst: ExecutorId, d: Node, transfers: map<TransferId, Plan>)
    requires src in g.nodes && dst in g.nodes && src != dst && TitlesStay(g.nodes[src], m) && TitlesStay(g.nodes[dst], d)
    ensures KeepsTitles(g, Registry(g.nodes[src := m][dst := d], transfers))
  {
  }

  lemma PrepareKeepsTitles(g: Registry, t: TransferId, src: ExecutorId, dst: ExecutorId, hashes: seq<Hash>)
    requires EngineInv(g)
    ensures KeepsTitles(g, Prepare(g, t, src, dst, hashes))
  {
    if MayPin(g, t, src, dst, hashes) {
      NotYetAttributed(g, t, src);
      PinStep(g.nodes[src], t, hashes);
      PinTitles(g.nodes[src], t, hashes);
      var m := NPin(g.nodes[src], t, hashes);
      if |hashes| <= |g.nodes[dst].s.free| {
        ReserveTitles(g.nodes[dst], t, |hashes|);
        TwoKeepTitles(g, src, m, dst, NReserve(g.nodes[dst], t, |hashes|), Prepare(g, t, src, dst, hashes).transfers);
      } else {
        UnpinTitles(m, t);
        OneKeepsTitles(g, src, AfterUnpin(m, t));
      }
    }
  }

  lemma CommitPlanKeepsTitles(g: Registry, t: TransferId)
    requires EngineInv(g)
    ensures KeepsTitles(g, CommitPlan(g, t))
  {
    if t in g.transfers {
      var p := g.transfers[t];
      assert PlanOk(g.nodes, t, p);
      UnpinTitles(g.nodes[p.src], t);
      ImportTitles(g.nodes[p.dst], t, p.hashes);
      TwoKeepTitles(g, p.src, AfterUnpin(g.nodes[p.src], t), p.dst, AfterImport(g.nodes[p.dst], t, p.hashes), g.transfers - {t});
    }
  }

  lemma RollbackPlanKeepsTitles(g: Registry, t: TransferId)
    requires EngineInv(g)
    ensures KeepsTitles(g, RollbackPlan(g, t))
  {
    if t in g.transfers {
      var p := g.transfers[t];
      assert PlanOk(g.nodes, t, p);
      UnpinTitles(g.nodes[p.src], t);
      UnreserveTitles(g.nodes[p.dst], t);
      TwoKeepTitles(g, p.src, AfterUnpin(g.nodes[p.src], t), p.dst, AfterUnreserve(g.nodes[p.dst], t), g.transfers - {t});
    }
  }

  /** Transfers, and late commits and rollbacks, leave every title in place. */
  lemma ElsewhereKeepsTitles(g: Registry, s: Step)
    requires EngineInv(g) && Elsewhere(g, s)
    ensures KeepsTitles(g, Apply(g, s))
  {
    match s
    case PrepareTransfer(t, src, dst, hashes) => PrepareKeepsTitles(g, t, src, dst, hashes);
    case CommitTransfer(t) => CommitPlanKeepsTitles(g, t);
    case RollbackTransfer(t) => RollbackPlanKeepsTitles(g, t);
    case CommitWork(e, wid) => OneKeepsTitles(g, e, AfterCommit(g.nodes[e], wid));
    case RollbackWork(e, wid) => OneKeepsTitles(g, e, AfterRollback(g.nodes[e], wid));
  }
}

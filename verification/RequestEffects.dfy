/** What each step of the engine changes for the requests of an executor. */
module RequestEffects {
  import opened Hashing
  import opened Spans
  import opened BlockSpec
  import opened Bags
  import opened BlockEffects
  import opened BlockInv
  import opened RequestInv
  import opened CommitInv
  import opened ReleaseInv
  import opened TransferInv
  import opened NodeSteps
  import opened Engine
  import opened EngineRuns
  import opened HostRequests
  import opened Prefixes

  /** The allocations of all requests but r are the same. */
  ghost predicate SameAllocations(before: map<WorkId, Allocation>, after: map<WorkId, Allocation>, r: RequestId) {
    && (forall v :: v in before && before[v].requestId != r ==> v in after && after[v] == before[v])
    && (forall v :: v in after && after[v].requestId != r ==> v in before && after[v] == before[v])
  }

  ghost predicate SameTables(before: map<RequestId, seq<nat>>, after: map<RequestId, seq<nat>>, r: RequestId) {
    forall q :: q != r ==> (q in after <==> q in before) && Listed(after, q) == Listed(before, q)
  }

  /** Only the table, the progress and the pending allocation of request r may differ. */
  ghost predicate OnlyRequest(n: Node, m: Node, r: RequestId) {
    && |m.s.blocks| == |n.s.blocks| && m.s.blockSize == n.s.blockSize
    && SameTables(n.s.tables, m.s.tables, r)
    && (forall q :: q != r ==> Progress(m, q) == Progress(n, q))
    && SameAllocations(n.s.pending, m.s.pending, r)
  }

  /** Request r has no pending allocation. */
  ghost predicate Idle(n: Node, r: RequestId) {
    forall v :: v in n.s.pending ==> n.s.pending[v].requestId != r
  }

  lemma OnlyRequestTwice(n: Node, m: Node, k: Node, r: RequestId)
    requires OnlyRequest(n, m, r) && OnlyRequest(m, k, r)
    ensures OnlyRequest(n, k, r)
  {
  }

  // ---------------------------------------------------------------- one executor

  /** The blocks of the longest cached run are the request's table. */
  lemma MatchOnly(n: Node, r: RequestId, matchable: seq<Hash>) returns (m: Node)
    requires Sound(n) && r !in n.s.tables
    ensures m == AfterMatch(n, r, matchable) && OnlyRequest(n, m, r) && Idle(m, r)
    ensures r in m.s.tables && m.s.tables[r] == Run(n.s.index, matchable)
    ensures Progress(m, r) == Span(|Run(n.s.index, matchable)|, n.s.blockSize)
    ensures InRange(Run(n.s.index, matchable), |n.s.blocks|)
  {
    SoundIsInv(n);
    NothingPending(n, r);
    MatchFrame(n, r, matchable);
    m := AfterMatch(n, r, matchable);
  }

  /** A granted allocation extends the table and is pending for the work's tokens. */
  lemma AllocateOnly(n: Node, w: Work) returns (m: Node)
    requires Sound(n) && MayAllocate(n, w) && (SoundIsInv(n); CanAllocate(n.s, w)) && w.workId !in n.s.pending
    ensures m == AfterAllocate(n, w) && OnlyRequest(n, m, w.requestId) && Progress(m, w.requestId) == Progress(n, w.requestId)
    ensures w.workId in m.s.pending && m.s.pending == n.s.pending[w.workId := m.s.pending[w.workId]]
    ensures var a := m.s.pending[w.workId];
      && a.requestId == w.requestId && a.phase == w.phase && a.hashes == w.hashesTotal
      && a.tokensAfterCommit == RequiredTokens(w) && |a.table| - |a.added| == |Existing(n.s, w)|
      && w.requestId in m.s.tables && m.s.tables[w.requestId] == a.table
  {
    SoundIsInv(n);
    AllocateFrame(n, w);
    m := AfterAllocate(n, w);
  }

  /** A request's only allocation is over. */
  lemma AllocationOver(n: Node, m: Node, wid: WorkId)
    requires PendingOk(n) && wid in n.s.pending && m.s.pending == n.s.pending - {wid}
    ensures SameAllocations(n.s.pending, m.s.pending, n.s.pending[wid].requestId) && Idle(m, n.s.pending[wid].requestId)
  {
  }

  lemma CommitFields(n: Node, wid: WorkId) returns (m: Node)
    requires Inv(n) && wid in n.s.pending
    ensures m == NCommit(n, wid) && m.s.tables == n.s.tables && m.s.pending == n.s.pending - {wid}
    ensures m.s.blockSize == n.s.blockSize && |m.s.blocks| == |n.s.blocks|
    ensures m.progress == n.progress[n.s.pending[wid].requestId := n.s.pending[wid].tokensAfterCommit]
  {
    CommitEffect(n, wid);
    m := NCommit(n, wid);
  }

  /** A commit moves the request's progress to the tokens of its allocation. */
  lemma CommitOnly(n: Node, wid: WorkId) returns (m: Node, r: RequestId)
    requires Sound(n) && wid in n.s.pending
    ensures m == AfterCommit(n, wid) && r == n.s.pending[wid].requestId && OnlyRequest(n, m, r) && Idle(m, r)
    ensures m.s.tables == n.s.tables && Progress(m, r) == n.s.pending[wid].tokensAfterCommit
  {
    SoundIsInv(n);
    r := n.s.pending[wid].requestId;
    m := CommitFields(n, wid);
    AllocationOver(n, m, wid);
  }

  lemma RollbackFields(n: Node, wid: WorkId) returns (m: Node, r: RequestId, keep: nat)
    requires Inv(n) && wid in n.s.pending
    ensures m == NRollback(n, wid) && m.s.pending == n.s.pending - {wid} && r == n.s.pending[wid].requestId
    ensures keep == |n.s.pending[wid].table| - |n.s.pending[wid].added| <= |Listed(n.s.tables, r)|
    ensures m.s.tables == CutTables(n.s.tables, r, keep)
    ensures m.s.blockSize == n.s.blockSize && |m.s.blocks| == |n.s.blocks|
    ensures m.progress == if keep == 0 then n.progress - {r} else n.progress
  {
    var pending;
    r, keep, pending := RollbackIsDrop(n, wid);
    DropFrame(n, r, keep, pending);
    m := NRollback(n, wid);
  }

  lemma CutSame(tables: map<RequestId, seq<nat>>, r: RequestId, keep: nat)
    requires keep <= |Listed(tables, r)|
    ensures var after := CutTables(tables, r, keep);
      SameTables(tables, after, r) && |Listed(after, r)| == keep && (r in after <==> keep > 0)
  {
  }

  lemma NoTokensKept(n: Node, wid: WorkId)
    requires PendingOk(n) && wid in n.s.pending && |n.s.pending[wid].table| == |n.s.pending[wid].added|
    ensures Progress(n, n.s.pending[wid].requestId) == 0
  {
    assert AllocationOk(n, n.s.pending[wid]);
  }

  lemma CutOnly(n: Node, m: Node, r: RequestId, keep: nat)
    requires keep <= |Listed(n.s.tables, r)| && m.s.tables == CutTables(n.s.tables, r, keep)
    requires m.s.blockSize == n.s.blockSize && |m.s.blocks| == |n.s.blocks| && SameAllocations(n.s.pending, m.s.pending, r)
    requires m.progress == if keep == 0 then n.progress - {r} else n.progress
    requires keep == 0 ==> Progress(n, r) == 0
    ensures OnlyRequest(n, m, r) && Progress(m, r) == Progress(n, r)
    ensures |Listed(m.s.tables, r)| == keep && (r in m.s.tables <==> keep > 0)
  {
    CutSame(n.s.tables, r, keep);
  }

  /** A rollback cuts the table where the allocation found it; the progress stays. */
  lemma RollbackOnly(n: Node, wid: WorkId) returns (m: Node, r: RequestId, keep: nat)
    requires Sound(n) && wid in n.s.pending
    ensures m == AfterRollback(n, wid) && r == n.s.pending[wid].requestId && OnlyRequest(n, m, r) && Idle(m, r)
    ensures keep == |n.s.pending[wid].table| - |n.s.pending[wid].added| && Progress(m, r) == Progress(n, r)
    ensures |Listed(m.s.tables, r)| == keep && (r in m.s.tables <==> keep > 0)
  {
    SoundIsInv(n);
    m, r, keep := RollbackFields(n, wid);
    if keep == 0 { NoTokensKept(n, wid); }
    AllocationOver(n, m, wid);
    CutOnly(n, m, r, keep);
  }

  /** After FreeRequest nothing of the request is left. */
  lemma FreeOnly(n: Node, r: RequestId) returns (m: Node)
    requires Sound(n)
    ensures m == AfterFree(n, r) && OnlyRequest(n, m, r) && Idle(m, r) && r !in m.s.tables && Progress(m, r) == 0
  {
    SoundIsInv(n);
    FreeIsDrop(n, r);
    DropFrame(n, r, 0, OthersPending(n.s, r));
    m := AfterFree(n, r);
  }

  // ---------------------------------------------------------------- transfers

  lemma PinKeeps(n: Node, t: TransferId, hashes: seq<Hash>)
    requires Sound(n) && CanPin(n.s, hashes)
    ensures SameRequests(n, NPin(n, t, hashes))
  {
    SoundIsInv(n);
    PinFrame(n, t, hashes);
  }

  lemma UnpinKeeps(n: Node, t: TransferId)
    requires Sound(n) && t in n.pinned
    ensures SameRequests(n, AfterUnpin(n, t))
  {
    SoundIsInv(n);
    UnpinFrame(n, t);
  }

  lemma UnreserveKeeps(n: Node, t: TransferId)
    requires Sound(n) && t in n.reserved
    ensures SameRequests(n, AfterUnreserve(n, t))
  {
    SoundIsInv(n);
    UnreserveFrame(n, t);
  }

  lemma ImportKeeps(n: Node, t: TransferId, hashes: seq<Hash>)
    requires Sound(n) && t in n.reserved && |n.reserved[t]| == |hashes|
    ensures SameRequests(n, AfterImport(n, t, hashes))
  {
    SoundIsInv(n);
    ImportFrame(n, t, hashes);
  }

  /** The same executors, with the same requests. */
  ghost predicate KeepsRequests(g: Registry, h: Registry) {
    h.nodes.Keys == g.nodes.Keys && forall e :: e in g.nodes ==> SameRequests(g.nodes[e], h.nodes[e])
  }

  lemma PrepareKeeps(g: Registry, t: TransferId, src: ExecutorId, dst: ExecutorId, hashes: seq<Hash>)
    requires EngineInv(g)
    ensures KeepsRequests(g, Prepare(g, t, src, dst, hashes))
  {
    if MayPin(g, t, src, dst, hashes) {
      NotYetAttributed(g, t, src);
      PinStep(g.nodes[src], t, hashes);
      PinKeeps(g.nodes[src], t, hashes);
      var m := NPin(g.nodes[src], t, hashes);
      if |hashes| <= |g.nodes[dst].s.free| {
        TwoKeep(g, src, m, dst, NReserve(g.nodes[dst], t, |hashes|), Prepare(g, t, src, dst, hashes).transfers);
      } else {
        UnpinKeeps(m, t);
        OneKeeps(g, src, AfterUnpin(m, t));
      }
    }
  }

  lemma OneKeeps(g: Registry, e: ExecutorId, m: Node)
    requires e in g.nodes && SameRequests(g.nodes[e], m)
    ensures KeepsRequests(g, Put(g, e, m))
  {
  }

  lemma TwoKeep(g: Registry, src: ExecutorId, m: Node, dst: ExecutorId, d: Node, transfers: map<TransferId, Plan>)
    requires src in g.nodes && dst in g.nodes && src != dst && SameRequests(g.nodes[src], m) && SameRequests(g.nodes[dst], d)
    ensures KeepsRequests(g, Registry(g.nodes[src := m][dst := d], transfers))
  {
  }

  lemma CommitPlanKeeps(g: Registry, t: TransferId)
    requires EngineInv(g)
    ensures KeepsRequests(g, CommitPlan(g, t))
  {
    if t in g.transfers {
      var p := g.transfers[t];
      assert PlanOk(g.nodes, t, p);
      UnpinKeeps(g.nodes[p.src], t);
      ImportKeeps(g.nodes[p.dst], t, p.hashes);
      TwoKeep(g, p.src, AfterUnpin(g.nodes[p.src], t), p.dst, AfterImport(g.nodes[p.dst], t, p.hashes), g.transfers - {t});
    }
  }

  lemma RollbackPlanKeeps(g: Registry, t: TransferId)
    requires EngineInv(g)
    ensures KeepsRequests(g, RollbackPlan(g, t))
  {
    if t in g.transfers {
      var p := g.transfers[t];
      assert PlanOk(g.nodes, t, p);
      UnpinKeeps(g.nodes[p.src], t);
      UnreserveKeeps(g.nodes[p.dst], t);
      TwoKeep(g, p.src, AfterUnpin(g.nodes[p.src], t), p.dst, AfterUnreserve(g.nodes[p.dst], t), g.transfers - {t});
    }
  }

  /** Transfers, and commits and rollbacks of work that is over. */
  predicate Elsewhere(g: Registry, s: Step) {
    match s
    case PrepareTransfer(_, _, _, _) => true
    case CommitTransfer(_) => true
    case RollbackTransfer(_) => true
    case CommitWork(e, wid) => e in g.nodes && wid !in g.nodes[e].s.pending
    case RollbackWork(e, wid) => e in g.nodes && wid !in g.nodes[e].s.pending
    case _ => false
  }

  lemma ElsewhereKeeps(g: Registry, s: Step)
    requires EngineInv(g) && Elsewhere(g, s)
    ensures KeepsRequests(g, Apply(g, s))
  {
    match s
    case PrepareTransfer(t, src, dst, hashes) => PrepareKeeps(g, t, src, dst, hashes);
    case CommitTransfer(t) => CommitPlanKeeps(g, t);
    case RollbackTransfer(t) => RollbackPlanKeeps(g, t);
    case CommitWork(e, wid) => OneKeeps(g, e, AfterCommit(g.nodes[e], wid));
    case RollbackWork(e, wid) => OneKeeps(g, e, AfterRollback(g.nodes[e], wid));
  }
}

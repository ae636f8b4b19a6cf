/**
 The engine's block metadata for all executors: the registry's operations as steps, and what every
 run of them keeps.
 */
module Engine {
  import opened Hashing
  import opened BlockSpec
  import opened BlockInv
  import opened RequestInv
  import opened TransferInv
  import opened NodeSteps

  datatype Plan = Plan(src: ExecutorId, srcIds: seq<nat>, dst: ExecutorId, dstIds: seq<nat>, hashes: seq<Hash>)

  datatype Registry = Registry(nodes: map<ExecutorId, Node>, transfers: map<TransferId, Plan>)

  // ---------------------------------------------------------------- the invariant

  /** The pins and reservations of a pending transfer, and the published blocks its hashes still name. */
  ghost predicate PlanOk(nodes: map<ExecutorId, Node>, t: TransferId, p: Plan) {
    && p.src in nodes && p.dst in nodes && p.src != p.dst
    && t in nodes[p.src].pinned && nodes[p.src].pinned[t] == p.srcIds
    && t in nodes[p.dst].reserved && nodes[p.dst].reserved[t] == p.dstIds
    && |p.srcIds| == |p.hashes| == |p.dstIds|
    && nodes[p.src].s.blockSize == nodes[p.dst].s.blockSize
    && (forall i :: 0 <= i < |p.hashes| ==>
          p.hashes[i] in nodes[p.src].s.index && nodes[p.src].s.index[p.hashes[i]] == p.srcIds[i])
  }

  ghost predicate AllSound(nodes: map<ExecutorId, Node>) {
    forall e :: e in nodes ==> Sound(nodes[e])
  }

  ghost predicate PlansOk(g: Registry) {
    forall t :: t in g.transfers ==> PlanOk(g.nodes, t, g.transfers[t])
  }

  /** Every pin and every reservation belongs to a pending transfer. */
  ghost predicate Attributed(g: Registry) {
    && (forall e, t :: e in g.nodes && t in g.nodes[e].pinned ==> t in g.transfers && g.transfers[t].src == e)
    && (forall e, t :: e in g.nodes && t in g.nodes[e].reserved ==> t in g.transfers && g.transfers[t].dst == e)
  }

  ghost predicate EngineInv(g: Registry) {
    AllSound(g.nodes) && PlansOk(g) && Attributed(g)
  }

  // ---------------------------------------------------------------- steps on one executor

  function Put(g: Registry, e: ExecutorId, m: Node): Registry {
    g.(nodes := g.nodes[e := m])
  }

  lemma PutPlanOk(nodes: map<ExecutorId, Node>, e: ExecutorId, m: Node, t: TransferId, p: Plan)
    requires PlanOk(nodes, t, p) && e in nodes && Sound(nodes[e]) && Advances(nodes[e], m)
    requires p.src == e ==> t in m.pinned && m.pinned[t] == p.srcIds
    requires p.dst == e ==> t in m.reserved && m.reserved[t] == p.dstIds
    ensures PlanOk(nodes[e := m], t, p)
  {
    SameBlockSize(nodes[e], m);
    if p.src == e {
      forall i | 0 <= i < |p.hashes|
        ensures p.hashes[i] in m.s.index && m.s.index[p.hashes[i]] == p.srcIds[i]
      {
        PinnedStays(nodes[e], m, t, i, p.hashes[i]);
      }
    }
  }

  lemma PutAttributed(g: Registry, e: ExecutorId, m: Node)
    requires Attributed(g) && e in g.nodes && SameTransfers(g.nodes[e], m)
    ensures Attributed(Put(g, e, m))
  {
  }

  lemma PutPlans(g: Registry, e: ExecutorId, m: Node)
    requires PlansOk(g) && e in g.nodes && Sound(g.nodes[e]) && Advances(g.nodes[e], m) && SameTransfers(g.nodes[e], m)
    ensures PlansOk(Put(g, e, m))
  {
    forall t | t in g.transfers
      ensures PlanOk(g.nodes[e := m], t, g.transfers[t])
    {
      PutPlanOk(g.nodes, e, m, t, g.transfers[t]);
    }
  }

  /** A step that leaves pins and reservations alone keeps the invariant of the whole engine. */
  lemma PutInv(g: Registry, e: ExecutorId, m: Node)
    requires EngineInv(g) && e in g.nodes && Sound(m) && Advances(g.nodes[e], m) && SameTransfers(g.nodes[e], m)
    ensures EngineInv(Put(g, e, m))
  {
    PutAttributed(g, e, m);
    PutPlans(g, e, m);
  }

  // ---------------------------------------------------------------- steps on two executors

  lemma MinusTwice<V>(a: map<TransferId, V>, t: TransferId)
    ensures t !in a - {t} && a - {t} - {t} == a - {t}
  {
  }

  lemma OtherTransfer<V>(a: map<TransferId, V>, b: map<TransferId, V>, t: TransferId, u: TransferId)
    requires a - {t} == b - {t} && u != t
    ensures u in a <==> u in b
    ensures u in a ==> a[u] == b[u]
  {
    assert u in a <==> u in a - {t};
    assert u in b <==> u in b - {t};
    assert u in a ==> (a - {t})[u] == a[u];
    assert u in b ==> (b - {t})[u] == b[u];
  }

  /** Only the pins (at the source) and reservations (at the destination) of transfer t differ. */
  ghost predicate OnlyTransfer(g: Registry, h: Registry, t: TransferId, src: ExecutorId, m: Node, dst: ExecutorId, d: Node) {
    && src in g.nodes && dst in g.nodes && src != dst
    && h.nodes == g.nodes[src := m][dst := d]
    && m.reserved == g.nodes[src].reserved && m.pinned - {t} == g.nodes[src].pinned - {t}
    && d.pinned == g.nodes[dst].pinned && d.reserved - {t} == g.nodes[dst].reserved - {t}
    && h.transfers - {t} == g.transfers - {t}
  }

  lemma TwoNodesPlans(g: Registry, h: Registry, t: TransferId, src: ExecutorId, m: Node, dst: ExecutorId, d: Node)
    requires PlansOk(g) && OnlyTransfer(g, h, t, src, m, dst, d)
    requires Sound(g.nodes[src]) && Advances(g.nodes[src], m)
    requires Sound(g.nodes[dst]) && Advances(g.nodes[dst], d)
    requires t in h.transfers ==> PlanOk(h.nodes, t, h.transfers[t])
    ensures PlansOk(h)
  {
    forall u | u in h.transfers
      ensures PlanOk(h.nodes, u, h.transfers[u])
    {
      if u != t {
        OtherTransfer(g.transfers, h.transfers, t, u);
        OtherTransfer(g.nodes[src].pinned, m.pinned, t, u);
        OtherTransfer(g.nodes[dst].reserved, d.reserved, t, u);
        PutPlanOk(g.nodes, src, m, u, h.transfers[u]);
        PutPlanOk(g.nodes[src := m], dst, d, u, h.transfers[u]);
      }
    }
  }

  lemma TwoNodesAttributed(g: Registry, h: Registry, t: TransferId, src: ExecutorId, m: Node, dst: ExecutorId, d: Node)
    requires Attributed(g) && OnlyTransfer(g, h, t, src, m, dst, d)
    requires t in h.transfers ==> h.transfers[t].src == src && h.transfers[t].dst == dst
    requires t in g.transfers ==> g.transfers[t].src == src && g.transfers[t].dst == dst
    requires t !in h.transfers ==> t !in m.pinned && t !in d.reserved
    ensures Attributed(h)
  {
    forall e, u | e in h.nodes && u in h.nodes[e].pinned
      ensures u in h.transfers && h.transfers[u].src == e
    {
      if u != t {
        OtherTransfer(g.nodes[src].pinned, m.pinned, t, u);
        OtherTransfer(g.transfers, h.transfers, t, u);
        assert u in g.nodes[e].pinned;
      }
    }
    forall e, u | e in h.nodes && u in h.nodes[e].reserved
      ensures u in h.transfers && h.transfers[u].dst == e
    {
      if u != t {
        OtherTransfer(g.nodes[dst].reserved, d.reserved, t, u);
        OtherTransfer(g.transfers, h.transfers, t, u);
        assert u in g.nodes[e].reserved;
      }
    }
  }

  /** Two executors change together; only transfer t starts or ends. */
  lemma TwoNodesInv(g: Registry, h: Registry, t: TransferId, src: ExecutorId, m: Node, dst: ExecutorId, d: Node)
    requires EngineInv(g) && OnlyTransfer(g, h, t, src, m, dst, d)
    requires Sound(m) && Advances(g.nodes[src], m)
    requires Sound(d) && Advances(g.nodes[dst], d)
    requires t in h.transfers ==> h.transfers[t].src == src && h.transfers[t].dst == dst && PlanOk(h.nodes, t, h.transfers[t])
    requires t in g.transfers ==> g.transfers[t].src == src && g.transfers[t].dst == dst
    requires t !in h.transfers ==> t !in m.pinned && t !in d.reserved
    ensures EngineInv(h)
  {
    TwoNodesPlans(g, h, t, src, m, dst, d);
    TwoNodesAttributed(g, h, t, src, m, dst, d);
  }

  // ---------------------------------------------------------------- PrepareTransfer

  /** The checks PrepareTransfer makes before it touches a block, and the check of the pin itself. */
  predicate MayPin(g: Registry, t: TransferId, src: ExecutorId, dst: ExecutorId, hashes: seq<Hash>) {
    && t.name != "" && src != dst && hashes != []
    && src in g.nodes && dst in g.nodes
    && g.nodes[src].s.blockSize == g.nodes[dst].s.blockSize
    && t !in g.transfers
    && CanPin(g.nodes[src].s, hashes)
  }

  predicate MayPrepare(g: Registry, t: TransferId, src: ExecutorId, dst: ExecutorId, hashes: seq<Hash>) {
    MayPin(g, t, src, dst, hashes) && |hashes| <= |g.nodes[dst].s.free|
  }

  lemma NotYetAttributed(g: Registry, t: TransferId, e: ExecutorId)
    requires EngineInv(g) && t !in g.transfers && e in g.nodes
    ensures t !in g.nodes[e].pinned && t !in g.nodes[e].reserved
  {
  }

  /**
   * PrepareTransfer. When the destination is full the source blocks have already been pinned and are
   * released again, which moves the unreferenced ones to the end of the source's free queue.
   */
  ghost function Prepare(g: Registry, t: TransferId, src: ExecutorId, dst: ExecutorId, hashes: seq<Hash>): Registry
    requires EngineInv(g)
  {
    if !MayPin(g, t, src, dst, hashes) then g
    else
      NotYetAttributed(g, t, src);
      PinStep(g.nodes[src], t, hashes);
      var m := NPin(g.nodes[src], t, hashes);
      if |hashes| <= |g.nodes[dst].s.free| then
        Started(g, t, src, m, dst, NReserve(g.nodes[dst], t, |hashes|), hashes)
      else Put(g, src, AfterUnpin(m, t))
  }

  /** The state in which transfer t is pending between m and d. */
  function Started(g: Registry, t: TransferId, src: ExecutorId, m: Node, dst: ExecutorId, d: Node, hashes: seq<Hash>): Registry
    requires t in m.pinned && t in d.reserved
  {
    Registry(g.nodes[src := m][dst := d], g.transfers[t := Plan(src, m.pinned[t], dst, d.reserved[t], hashes)])
  }

  lemma StartedInv(g: Registry, t: TransferId, src: ExecutorId, m: Node, dst: ExecutorId, d: Node, hashes: seq<Hash>)
    requires EngineInv(g) && t !in g.transfers && src in g.nodes && dst in g.nodes && src != dst
    requires g.nodes[src].s.blockSize == g.nodes[dst].s.blockSize
    requires Sound(m) && Advances(g.nodes[src], m) && Sound(d) && Advances(g.nodes[dst], d)
    requires t in m.pinned && t in d.reserved
    requires m.reserved == g.nodes[src].reserved && m.pinned - {t} == g.nodes[src].pinned - {t}
    requires d.pinned == g.nodes[dst].pinned && d.reserved - {t} == g.nodes[dst].reserved - {t}
    requires |m.pinned[t]| == |hashes| == |d.reserved[t]|
    requires forall i :: 0 <= i < |hashes| ==> hashes[i] in m.s.index && m.s.index[hashes[i]] == m.pinned[t][i]
    ensures EngineInv(Started(g, t, src, m, dst, d, hashes))
  {
    SameBlockSize(g.nodes[src], m);
    SameBlockSize(g.nodes[dst], d);
    var h := Started(g, t, src, m, dst, d, hashes);
    assert PlanOk(h.nodes, t, h.transfers[t]);
    TwoNodesInv(g, h, t, src, m, dst, d);
  }

  lemma PrepareInv(g: Registry, t: TransferId, src: ExecutorId, dst: ExecutorId, hashes: seq<Hash>)
    requires EngineInv(g)
    ensures EngineInv(Prepare(g, t, src, dst, hashes))
  {
    if MayPin(g, t, src, dst, hashes) {
      NotYetAttributed(g, t, src);
      NotYetAttributed(g, t, dst);
      PinStep(g.nodes[src], t, hashes);
      if |hashes| <= |g.nodes[dst].s.free| {
        ReserveStep(g.nodes[dst], t, |hashes|);
        StartedInv(g, t, src, NPin(g.nodes[src], t, hashes), dst, NReserve(g.nodes[dst], t, |hashes|), hashes);
      } else {
        FailedPrepareInv(g, t, src, hashes);
      }
    }
  }

  lemma AdvancesTwice(n: Node, m: Node, k: Node)
    requires Advances(n, m) && m.s.index == n.s.index && k.s.index == m.s.index && Advances(m, k)
    ensures Advances(n, k)
  {
    AdvancesIsKept(n, m);
    AdvancesIsKept(m, k);
    AdvancesIsKept(n, k);
  }

  lemma FailedPrepareInv(g: Registry, t: TransferId, src: ExecutorId, hashes: seq<Hash>)
    requires EngineInv(g) && src in g.nodes && CanPin(g.nodes[src].s, hashes) && t !in g.transfers
    requires t !in g.nodes[src].pinned && Sound(NPin(g.nodes[src], t, hashes))
    ensures EngineInv(Put(g, src, AfterUnpin(NPin(g.nodes[src], t, hashes), t)))
  {
    var n, m := g.nodes[src], NPin(g.nodes[src], t, hashes);
    PinStep(n, t, hashes);
    UnpinStep(m, t);
    AdvancesTwice(n, m, AfterUnpin(m, t));
    assert m.pinned - {t} == n.pinned;
    PutInv(g, src, AfterUnpin(m, t));
  }

  // ---------------------------------------------------------------- CommitTransfer and RollbackTransfer

  /** Transfer t is over; its executors are m and d now. */
  function Settled(g: Registry, t: TransferId, m: Node, d: Node): Registry
    requires t in g.transfers
  {
    Registry(g.nodes[g.transfers[t].src := m][g.transfers[t].dst := d], g.transfers - {t})
  }

  lemma SettledInv(g: Registry, t: TransferId, src: ExecutorId, m: Node, dst: ExecutorId, d: Node)
    requires EngineInv(g) && t in g.transfers && g.transfers[t].src == src && g.transfers[t].dst == dst
    requires src in g.nodes && dst in g.nodes && src != dst
    requires Sound(m) && Advances(g.nodes[src], m) && Sound(d) && Advances(g.nodes[dst], d)
    requires m.reserved == g.nodes[src].reserved && m.pinned == g.nodes[src].pinned - {t}
    requires d.pinned == g.nodes[dst].pinned && d.reserved == g.nodes[dst].reserved - {t}
    ensures EngineInv(Settled(g, t, m, d))
  {
    MinusTwice(g.nodes[src].pinned, t);
    MinusTwice(g.nodes[dst].reserved, t);
    MinusTwice(g.transfers, t);
    TwoNodesInv(g, Settled(g, t, m, d), t, src, m, dst, d);
  }

  /** CommitTransfer; an unknown transfer changes nothing. */
  ghost function CommitPlan(g: Registry, t: TransferId): Registry
    requires EngineInv(g)
  {
    if t !in g.transfers then g
    else
      var p := g.transfers[t];
      assert PlanOk(g.nodes, t, p);
      Settled(g, t, AfterUnpin(g.nodes[p.src], t), AfterImport(g.nodes[p.dst], t, p.hashes))
  }

  /** RollbackTransfer; an unknown transfer changes nothing. */
  ghost function RollbackPlan(g: Registry, t: TransferId): Registry
    requires EngineInv(g)
  {
    if t !in g.transfers then g
    else
      var p := g.transfers[t];
      assert PlanOk(g.nodes, t, p);
      Settled(g, t, AfterUnpin(g.nodes[p.src], t), AfterUnreserve(g.nodes[p.dst], t))
  }

  lemma CommitPlanInv(g: Registry, t: TransferId)
    requires EngineInv(g)
    ensures EngineInv(CommitPlan(g, t))
  {
    if t in g.transfers {
      var p := g.transfers[t];
      assert PlanOk(g.nodes, t, p);
      UnpinStep(g.nodes[p.src], t);
      ImportStep(g.nodes[p.dst], t, p.hashes);
      SettledInv(g, t, p.src, AfterUnpin(g.nodes[p.src], t), p.dst, AfterImport(g.nodes[p.dst], t, p.hashes));
    }
  }

  lemma RollbackPlanInv(g: Registry, t: TransferId)
    requires EngineInv(g)
    ensures EngineInv(RollbackPlan(g, t))
  {
    if t in g.transfers {
      var p := g.transfers[t];
      assert PlanOk(g.nodes, t, p);
      UnpinStep(g.nodes[p.src], t);
      UnreserveStep(g.nodes[p.dst], t);
      SettledInv(g, t, p.src, AfterUnpin(g.nodes[p.src], t), p.dst, AfterUnreserve(g.nodes[p.dst], t));
    }
  }
}

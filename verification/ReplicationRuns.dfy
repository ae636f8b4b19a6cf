/** Replication transactions as steps of the whole system, and what every run keeps. */
module ReplicationRuns {
  import opened Hashing
  import opened Spans
  import opened Wrappers
  import opened BlockSpec
  import opened BlockInv
  import opened BlockEffects
  import opened RequestInv
  import opened TransferInv
  import opened NodeSteps
  import opened Engine
  import opened Pages
  import opened Hosts
  import opened HostRequests
  import opened HostPages
  import opened Replication

  // ---------------------------------------------------------------- transfer steps and the pages

  lemma PinKeepsHost(sha: Str -> Str, prompts: set<Prompt>, n: Node, h: Host, t: TransferId, hashes: seq<Hash>)
    requires Sound(n) && Faithful(sha, prompts, n, h) && CanPin(n.s, hashes)
    ensures Faithful(sha, prompts, NPin(n, t, hashes), h)
  {
    var m := NPin(n, t, hashes);
    SoundIsInv(n);
    PinFrame(n, t, hashes);
    FaithfulIsHostOk(sha, prompts, n, h);
    TransferKeepsHost(sha, prompts, n, m, h);
    FaithfulIsHostOk(sha, prompts, m, h);
  }

  lemma ReserveKeepsHost(sha: Str -> Str, prompts: set<Prompt>, n: Node, h: Host, t: TransferId, k: nat)
    requires Faithful(sha, prompts, n, h) && k <= |n.s.free|
    ensures Faithful(sha, prompts, NReserve(n, t, k), h)
  {
    var m := NReserve(n, t, k);
    FaithfulIsHostOk(sha, prompts, n, h);
    TransferKeepsHost(sha, prompts, n, m, h);
    FaithfulIsHostOk(sha, prompts, m, h);
  }

  lemma UnpinKeepsHost(sha: Str -> Str, prompts: set<Prompt>, n: Node, h: Host, t: TransferId)
    requires Sound(n) && Faithful(sha, prompts, n, h) && t in n.pinned
    ensures Faithful(sha, prompts, AfterUnpin(n, t), h)
  {
    var m := AfterUnpin(n, t);
    SoundIsInv(n);
    UnpinFrame(n, t);
    FaithfulIsHostOk(sha, prompts, n, h);
    TransferKeepsHost(sha, prompts, n, m, h);
    FaithfulIsHostOk(sha, prompts, m, h);
  }

  lemma UnreserveKeepsHost(sha: Str -> Str, prompts: set<Prompt>, n: Node, h: Host, t: TransferId)
    requires Sound(n) && Faithful(sha, prompts, n, h) && t in n.reserved
    ensures Faithful(sha, prompts, AfterUnreserve(n, t), h)
  {
    var m := AfterUnreserve(n, t);
    SoundIsInv(n);
    UnreserveFrame(n, t);
    FaithfulIsHostOk(sha, prompts, n, h);
    TransferKeepsHost(sha, prompts, n, m, h);
    FaithfulIsHostOk(sha, prompts, m, h);
  }

  /** Publishing imported blocks is right once their pages have landed. */
  lemma ImportKeepsPublished(sha: Str -> Str, prompts: set<Prompt>, s: State, t: State, plan: Plan, phys: Phys)
    requires PublishedOk(sha, prompts, s, phys) && t.blockSize == s.blockSize
    requires |plan.dstIds| == |plan.hashes| && ImportedIndex(s.index, t.index, plan.dstIds, plan.hashes, |plan.hashes|)
    requires forall i :: 0 <= i < |plan.hashes| ==> Landed(sha, prompts, s.blockSize, plan, phys, i)
    ensures PublishedOk(sha, prompts, t, phys)
  {
    forall x | x in t.index
      ensures t.index[x] < |phys| && Named(sha, prompts, t.blockSize, x, phys[t.index[x]])
    {
      if x !in s.index {
        assert ImportedFrom(t.index, plan.dstIds, plan.hashes, x);
        var i :| TransferInv.ImportedAt(t.index, plan.dstIds, plan.hashes, i, x);
        assert Landed(sha, prompts, s.blockSize, plan, phys, i);
      }
    }
  }

  lemma ImportKeepsHost(sha: Str -> Str, prompts: set<Prompt>, n: Node, h: Host, t: TransferId, plan: Plan)
    requires Sound(n) && Faithful(sha, prompts, n, h) && t in n.reserved && n.reserved[t] == plan.dstIds && |plan.dstIds| == |plan.hashes|
    requires h.up ==> forall i :: 0 <= i < |plan.hashes| ==> Landed(sha, prompts, n.s.blockSize, plan, h.phys, i)
    ensures Faithful(sha, prompts, AfterImport(n, t, plan.hashes), h)
  {
    var m := AfterImport(n, t, plan.hashes);
    SoundIsInv(n);
    ImportFrame(n, t, plan.hashes);
    FaithfulIsHostOk(sha, prompts, n, h);
    if h.up {
      ImportKeepsPublished(sha, prompts, n.s, m.s, plan, h.phys);
    }
    TransferKeepsHost(sha, prompts, n, m, h);
    FaithfulIsHostOk(sha, prompts, m, h);
  }

  // ---------------------------------------------------------------- transfer steps and the messages

  function TwoNodes(g: Registry, src: ExecutorId, m: Node, dst: ExecutorId, d: Node): map<ExecutorId, Node> {
    g.nodes[src := m][dst := d]
  }

  lemma TwoNodesFaithful(sha: Str -> Str, y: System, z: System, src: ExecutorId, m: Node, dst: ExecutorId, d: Node)
    requires AllFaithful(sha, y) && src in y.reg.nodes && dst in y.reg.nodes && src != dst
    requires z.reg.nodes == TwoNodes(y.reg, src, m, dst, d) && z.hosts == y.hosts && z.prompts == y.prompts
    requires Faithful(sha, y.prompts, m, y.hosts[src]) && Faithful(sha, y.prompts, d, y.hosts[dst])
    ensures AllFaithful(sha, z)
  {
  }

  /** The plans that are still pending are the same; executors keep their block sizes. */
  ghost predicate SamePlans(y: System, z: System) {
    && z.hosts == y.hosts && z.prompts == y.prompts && z.confirms == y.confirms && z.pushes == y.pushes
    && (forall t :: t in z.reg.transfers && t in y.used ==> t in y.reg.transfers && z.reg.transfers[t] == y.reg.transfers[t])
    && (forall e :: e in y.reg.nodes ==> e in z.reg.nodes && z.reg.nodes[e].s.blockSize == y.reg.nodes[e].s.blockSize)
  }

  lemma SamePlansMessages(sha: Str -> Str, y: System, z: System)
    requires MessagesOk(sha, y) && IdsUsed(y) && SamePlans(y, z)
    requires forall m :: m in z.triggers && m.t in z.reg.transfers && m !in y.triggers ==> m.plan == z.reg.transfers[m.t]
    ensures MessagesOk(sha, z)
  {
    forall p | p in z.pushes
      ensures PushOk(sha, z.prompts, z.reg, p)
    {
      assert PushOk(sha, y.prompts, y.reg, p);
    }
    forall t | t in z.confirms
      ensures ConfirmOk(sha, z.prompts, z.reg, z.hosts, t)
    {
      SamePlanConfirm(sha, y, z, t);
    }
  }

  lemma SamePlanConfirm(sha: Str -> Str, y: System, z: System, t: TransferId)
    requires ConfirmOk(sha, y.prompts, y.reg, y.hosts, t) && t in y.used && SamePlans(y, z)
    ensures ConfirmOk(sha, z.prompts, z.reg, z.hosts, t)
  {
  }

  /** Pending plans of z were pending in y, or are under an id that was not used yet. */
  ghost predicate PlansFrom(y: System, z: System) {
    && y.used <= z.used
    && (forall t :: t in z.reg.transfers ==> t in z.used)
    && (forall t :: t in z.reg.transfers && t in y.used ==> t in y.reg.transfers && z.reg.transfers[t] == y.reg.transfers[t])
    && (forall m :: m in z.triggers && m !in y.triggers ==> m.t in z.used && (m.t in z.reg.transfers ==> m.plan == z.reg.transfers[m.t]))
  }

  /** Two executors' metadata change; pages and confirmations do not. */
  lemma TwoNodesStep(sha: Str -> Str, y: System, z: System, src: ExecutorId, m: Node, dst: ExecutorId, d: Node)
    requires AllFaithful(sha, y) && IdsUsed(y) && MessagesOk(sha, y) && src in y.reg.nodes && dst in y.reg.nodes && src != dst
    requires z.reg.nodes == TwoNodes(y.reg, src, m, dst, d) && z.hosts == y.hosts && z.prompts == y.prompts
    requires z.confirms == y.confirms && z.pushes == y.pushes && PlansFrom(y, z)
    requires Advances(y.reg.nodes[src], m) && Advances(y.reg.nodes[dst], d)
    requires Faithful(sha, y.prompts, m, y.hosts[src]) && Faithful(sha, y.prompts, d, y.hosts[dst])
    ensures AllFaithful(sha, z) && IdsUsed(z) && MessagesOk(sha, z)
  {
    SameBlockSize(y.reg.nodes[src], m);
    SameBlockSize(y.reg.nodes[dst], d);
    TwoNodesFaithful(sha, y, z, src, m, dst, d);
    SamePlansMessages(sha, y, z);
  }

  /** PrepareTransfer under a fresh id, and the trigger that follows it. */
  ghost function AfterPrepare(y: System, t: TransferId, src: ExecutorId, dst: ExecutorId, hashes: seq<Hash>): System
    requires EngineInv(y.reg)
  {
    var g := Prepare(y.reg, t, src, dst, hashes);
    y.(reg := g, used := y.used + {t},
       triggers := if t in g.transfers then y.triggers + {Trigger(t, g.transfers[t])} else y.triggers)
  }

  lemma PlanAdded(y: System, z: System, t: TransferId, plan: Plan)
    requires IdsUsed(y) && t !in y.used && z.used == y.used + {t}
    requires z.reg.transfers == y.reg.transfers[t := plan] && z.triggers == y.triggers + {Trigger(t, plan)}
    ensures PlansFrom(y, z)
  {
  }

  lemma StartedStep(sha: Str -> Str, y: System, t: TransferId, src: ExecutorId, m: Node, dst: ExecutorId, d: Node, hashes: seq<Hash>)
    requires SystemInv(sha, y) && t !in y.used && src in y.reg.nodes && dst in y.reg.nodes && src != dst
    requires t in m.pinned && t in d.reserved && EngineInv(Started(y.reg, t, src, m, dst, d, hashes))
    requires Advances(y.reg.nodes[src], m) && Advances(y.reg.nodes[dst], d)
    requires Faithful(sha, y.prompts, m, y.hosts[src]) && Faithful(sha, y.prompts, d, y.hosts[dst])
    ensures var g := Started(y.reg, t, src, m, dst, d, hashes);
      t in g.transfers && SystemInv(sha, y.(reg := g, used := y.used + {t}, triggers := y.triggers + {Trigger(t, g.transfers[t])}))
  {
    var g := Started(y.reg, t, src, m, dst, d, hashes);
    var z := y.(reg := g, used := y.used + {t}, triggers := y.triggers + {Trigger(t, g.transfers[t])});
    PlanAdded(y, z, t, g.transfers[t]);
    TwoNodesStep(sha, y, z, src, m, dst, d);
  }

  lemma PrepareStep(sha: Str -> Str, y: System, t: TransferId, src: ExecutorId, dst: ExecutorId, hashes: seq<Hash>)
    requires SystemInv(sha, y) && t !in y.used
    ensures SystemInv(sha, AfterPrepare(y, t, src, dst, hashes))
  {
    PrepareInv(y.reg, t, src, dst, hashes);
    if MayPin(y.reg, t, src, dst, hashes) {
      var n, d := y.reg.nodes[src], y.reg.nodes[dst];
      NotYetAttributed(y.reg, t, src);
      NotYetAttributed(y.reg, t, dst);
      PinStep(n, t, hashes);
      PinKeepsHost(sha, y.prompts, n, y.hosts[src], t, hashes);
      var m := NPin(n, t, hashes);
      if |hashes| <= |d.s.free| {
        ReserveStep(d, t, |hashes|);
        ReserveKeepsHost(sha, y.prompts, d, y.hosts[dst], t, |hashes|);
        StartedStep(sha, y, t, src, m, dst, NReserve(d, t, |hashes|), hashes);
      } else {
        FailedPrepareStep(sha, y, t, src, m, dst, hashes);
      }
    } else {
      IdSpent(sha, y, t);
    }
  }

  lemma IdSpent(sha: Str -> Str, y: System, t: TransferId)
    requires SystemInv(sha, y)
    ensures SystemInv(sha, y.(used := y.used + {t}))
  {
  }

  /** One executor's metadata change; its pages do not. */
  lemma OneNodeStep(sha: Str -> Str, y: System, e: ExecutorId, a: Node) returns (z: System)
    requires SystemInv(sha, y) && e in y.reg.nodes && e in y.hosts
    requires Sound(a) && Advances(y.reg.nodes[e], a) && SameTransfers(y.reg.nodes[e], a)
    requires Faithful(sha, y.prompts, a, y.hosts[e])
    ensures z == y.(reg := Put(y.reg, e, a)) && SystemInv(sha, z)
  {
    SamePages(y.reg.nodes[e], y.hosts[e], y.hosts[e]);
    PutHostInv(sha, y, e, a, y.hosts[e], y.prompts);
    z := PutHost(y, e, a, y.hosts[e], y.prompts);
    SameHost(y, e, a);
  }

  lemma SameHost(y: System, e: ExecutorId, a: Node)
    requires e in y.hosts
    ensures PutHost(y, e, a, y.hosts[e], y.prompts) == y.(reg := Put(y.reg, e, a))
  {
    assert y.hosts[e := y.hosts[e]] == y.hosts;
  }

  lemma PinIsUndone(sha: Str -> Str, prompts: set<Prompt>, n: Node, h: Host, t: TransferId, m: Node, hashes: seq<Hash>)
    requires CanPin(n.s, hashes) && m == NPin(n, t, hashes) && t !in n.pinned
    requires Sound(m) && Advances(n, m) && m.s.index == n.s.index && Faithful(sha, prompts, m, h)
    ensures var a := AfterUnpin(m, t); Sound(a) && Advances(n, a) && SameTransfers(n, a) && Faithful(sha, prompts, a, h)
  {
    UnpinStep(m, t);
    UnpinKeepsHost(sha, prompts, m, h, t);
    AdvancesTwice(n, m, AfterUnpin(m, t));
    assert m.pinned - {t} == n.pinned;
  }

  /** The destination has too few free blocks: the pins are taken back and no transfer begins. */
  lemma FailedPrepareStep(sha: Str -> Str, y: System, t: TransferId, src: ExecutorId, m: Node, dst: ExecutorId, hashes: seq<Hash>)
    requires SystemInv(sha, y) && t !in y.used && MayPin(y.reg, t, src, dst, hashes) && |hashes| > |y.reg.nodes[dst].s.free|
    requires m == NPin(y.reg.nodes[src], t, hashes) && t !in y.reg.nodes[src].pinned
    requires Sound(m) && Advances(y.reg.nodes[src], m) && m.s.index == y.reg.nodes[src].s.index
    requires Faithful(sha, y.prompts, m, y.hosts[src])
    ensures SystemInv(sha, AfterPrepare(y, t, src, dst, hashes))
  {
    PinIsUndone(sha, y.prompts, y.reg.nodes[src], y.hosts[src], t, m, hashes);
    var z := OneNodeStep(sha, y, src, AfterUnpin(m, t));
    IdSpent(sha, z, t);
  }

  lemma SettledPlans(y: System, z: System, t: TransferId)
    requires IdsUsed(y) && z.used == y.used && z.triggers == y.triggers && z.reg.transfers == y.reg.transfers - {t}
    ensures PlansFrom(y, z)
  {
  }

  lemma SettledNodes(sha: Str -> Str, y: System, z: System, t: TransferId, p: Plan, m: Node, d: Node)
    requires AllFaithful(sha, y) && IdsUsed(y) && MessagesOk(sha, y)
    requires p.src in y.reg.nodes && p.dst in y.reg.nodes && p.src != p.dst
    requires z.reg.nodes == TwoNodes(y.reg, p.src, m, p.dst, d) && z == y.(reg := z.reg) && z.reg.transfers == y.reg.transfers - {t}
    requires Advances(y.reg.nodes[p.src], m) && Advances(y.reg.nodes[p.dst], d)
    requires Faithful(sha, y.prompts, m, y.hosts[p.src]) && Faithful(sha, y.prompts, d, y.hosts[p.dst])
    ensures AllFaithful(sha, z) && IdsUsed(z) && MessagesOk(sha, z)
  {
    SettledPlans(y, z, t);
    TwoNodesStep(sha, y, z, p.src, m, p.dst, d);
  }

  lemma SettledStep(sha: Str -> Str, y: System, t: TransferId, m: Node, d: Node) returns (z: System)
    requires SystemInv(sha, y) && t in y.reg.transfers && EngineInv(Settled(y.reg, t, m, d))
    requires var p := y.reg.transfers[t];
      && p.src in y.reg.nodes && p.dst in y.reg.nodes && p.src != p.dst
      && Advances(y.reg.nodes[p.src], m) && Advances(y.reg.nodes[p.dst], d)
      && Faithful(sha, y.prompts, m, y.hosts[p.src]) && Faithful(sha, y.prompts, d, y.hosts[p.dst])
    ensures z == y.(reg := Settled(y.reg, t, m, d)) && SystemInv(sha, z)
  {
    z := y.(reg := Settled(y.reg, t, m, d));
    SettledNodes(sha, y, z, t, y.reg.transfers[t], m, d);
  }

  /** CommitTransfer after the push was confirmed publishes only pages that have landed. */
  lemma CommitTransferStep(sha: Str -> Str, y: System, t: TransferId)
    requires SystemInv(sha, y) && (t in y.reg.transfers ==> t in y.confirms)
    ensures SystemInv(sha, y.(reg := CommitPlan(y.reg, t)))
  {
    CommitPlanInv(y.reg, t);
    if t in y.reg.transfers {
      var p := y.reg.transfers[t];
      assert PlanOk(y.reg.nodes, t, p);
      assert ConfirmOk(sha, y.prompts, y.reg, y.hosts, t);
      UnpinStep(y.reg.nodes[p.src], t);
      UnpinKeepsHost(sha, y.prompts, y.reg.nodes[p.src], y.hosts[p.src], t);
      ImportStep(y.reg.nodes[p.dst], t, p.hashes);
      ImportKeepsHost(sha, y.prompts, y.reg.nodes[p.dst], y.hosts[p.dst], t, p);
      var _ := SettledStep(sha, y, t, AfterUnpin(y.reg.nodes[p.src], t), AfterImport(y.reg.nodes[p.dst], t, p.hashes));
    }
  }

  lemma RollbackTransferStep(sha: Str -> Str, y: System, t: TransferId)
    requires SystemInv(sha, y)
    ensures SystemInv(sha, y.(reg := RollbackPlan(y.reg, t)))
  {
    RollbackPlanInv(y.reg, t);
    if t in y.reg.transfers {
      var p := y.reg.transfers[t];
      assert PlanOk(y.reg.nodes, t, p);
      UnpinStep(y.reg.nodes[p.src], t);
      UnpinKeepsHost(sha, y.prompts, y.reg.nodes[p.src], y.hosts[p.src], t);
      UnreserveStep(y.reg.nodes[p.dst], t);
      UnreserveKeepsHost(sha, y.prompts, y.reg.nodes[p.dst], y.hosts[p.dst], t);
      var _ := SettledStep(sha, y, t, AfterUnpin(y.reg.nodes[p.src], t), AfterUnreserve(y.reg.nodes[p.dst], t));
    }
  }

  // ---------------------------------------------------------------- runs

  /** What the engine and one executor do between themselves. */
  datatype Action =
    | Arrive(rid: RequestId, p: Prompt)
    | Generate(rid: RequestId, tok: Token)
    | Allocate(w: Work)
    | Submit(ws: seq<WorkId>)
    | Execute(ws: seq<WorkId>)
    | ExecuteFails(ws: seq<WorkId>, pages: Phys)
    | ExecuteRefused(ws: seq<WorkId>)
    | CommitWork(wid: WorkId)
    | RollbackWork(wid: WorkId)
    | End(rid: RequestId)
    | Crash(pages: Phys)

  datatype Event =
    | At(e: ExecutorId, a: Action)
    | PrepareTransfer(t: TransferId, src: ExecutorId, dst: ExecutorId, hashes: seq<Hash>)
    | HandleTrigger(m: Trigger)
    | HandlePush(push: Push)
    | CommitTransfer(t: TransferId)
    | RollbackTransfer(t: TransferId)

  ghost predicate SoundAt(y: System, e: ExecutorId) {
    && e in y.reg.nodes && e in y.hosts && Sound(y.reg.nodes[e])
    && (SoundIsInv(y.reg.nodes[e]); y.reg.nodes[e].s.blockSize > 0)
  }

  /**
   * The engine matches requests that are not live and allocates what its work items say; it answers
   * (commits, rolls back, ends) a work only when it is not at the executor.
   */
  ghost predicate EnabledAt(sha: Str -> Str, y: System, e: ExecutorId, a: Action)
    requires SoundAt(y, e)
  {
    var n, h := y.reg.nodes[e], y.hosts[e];
    match a
    case Arrive(rid, p) => rid !in n.s.tables && rid !in h.live && CollisionFree(sha, y.prompts + {p}, n.s.blockSize)
    case Generate(rid, _) => rid in h.live
    case Allocate(w) => MayAllocateFor(sha, n, h, w) && CanAllocate(n.s, w)
    case Submit(ws) => Submittable(n, h, ws)
    case Execute(ws) => h.up && AtExecutor(n, h, ws) && Runs(y, e, ws)
    case ExecuteFails(ws, pages) => h.up && AtExecutor(n, h, ws) && OnlyTouches(n, SetOf(ws), h.phys, pages)
    case ExecuteRefused(ws) => !h.up && AtExecutor(n, h, ws)
    case CommitWork(wid) => wid in n.s.pending ==> wid in h.flights && h.flights[wid].stage == Ran(true)
    case RollbackWork(wid) => wid in n.s.pending ==> wid in h.flights && h.flights[wid].stage != InFlight
    case End(rid) => NotInFlight(n, h, rid)
    case Crash(_) => true
  }

  /** A transfer is committed only when its push was confirmed. Messages may be handled whenever there are any. */
  ghost predicate Enabled(sha: Str -> Str, y: System, v: Event) {
    match v
    case At(e, a) => SoundAt(y, e) && EnabledAt(sha, y, e, a)
    case PrepareTransfer(t, _, _, _) => t !in y.used
    case HandleTrigger(m) => m in y.triggers && CanSend(y, m)
    case HandlePush(p) => p in y.pushes && CanReceive(y, p)
    case CommitTransfer(t) => t in y.reg.transfers ==> t in y.confirms
    case RollbackTransfer(_) => true
  }

  /** No item of the batch reads a slot that has not been written. */
  ghost predicate Runs(y: System, e: ExecutorId, ws: seq<WorkId>)
    requires SoundAt(y, e) && AtExecutor(y.reg.nodes[e], y.hosts[e], ws)
  {
    && Shaped(y.hosts[e].phys, y.reg.nodes[e].s.blockSize)
    && BatchExecuted(y.hosts[e].phys, y.reg.nodes[e].s.blockSize, Items(y.hosts[e], ws)).Some?
  }

  /** A batch at a healthy executor never reads a slot that has not been written. */
  lemma BatchSucceeds(sha: Str -> Str, y: System, e: ExecutorId, ws: seq<WorkId>)
    requires SystemInv(sha, y) && SoundAt(y, e) && y.hosts[e].up && AtExecutor(y.reg.nodes[e], y.hosts[e], ws)
    ensures Runs(y, e, ws)
  {
    var _ := ExecuteStep(sha, y, e, ws);
  }

  function Alone(y: System, e: ExecutorId, k: Host): System
    requires e in y.reg.nodes
  {
    PutHost(y, e, y.reg.nodes[e], k, y.prompts)
  }

  ghost function AfterArrive(sha: Str -> Str, y: System, e: ExecutorId, rid: RequestId, p: Prompt): System
    requires SoundAt(y, e)
  {
    PutHost(y, e, AfterMatch(y.reg.nodes[e], rid, Matchable(sha, y.reg.nodes[e].s.blockSize, p.salt, p.tokens)),
            AfterArrival(y.hosts[e], rid, p), y.prompts + {p})
  }

  ghost function AfterGrant(sha: Str -> Str, y: System, e: ExecutorId, w: Work): System
    requires SoundAt(y, e) && MayAllocateFor(sha, y.reg.nodes[e], y.hosts[e], w) && CanAllocate(y.reg.nodes[e].s, w)
  {
    PutHost(y, e, AfterAllocate(y.reg.nodes[e], w), AfterAllocation(y.hosts[e], w, NewAllocation(y.reg.nodes[e].s, w)), y.prompts)
  }

  ghost function AfterBatch(y: System, e: ExecutorId, ws: seq<WorkId>): System
    requires SoundAt(y, e) && AtExecutor(y.reg.nodes[e], y.hosts[e], ws) && Runs(y, e, ws)
  {
    Alone(y, e, Answered(y.hosts[e], BatchExecuted(y.hosts[e].phys, y.reg.nodes[e].s.blockSize, Items(y.hosts[e], ws)).value, ws, true))
  }

  function AfterReceipt(y: System, p: Push): System
    requires p.dst in y.reg.nodes && p.dst in y.hosts && |p.payload| == |p.dstIds|
  {
    var z := Alone(y, p.dst, Received(y.hosts[p.dst], p));
    z.(confirms := z.confirms + {p.t})
  }

  ghost function NextAt(sha: Str -> Str, y: System, e: ExecutorId, a: Action): System
    requires SoundAt(y, e) && EnabledAt(sha, y, e, a)
  {
    match a
    case Arrive(rid, p) => AfterArrive(sha, y, e, rid, p)
    case Generate(rid, tok) => Alone(y, e, AfterToken(y.hosts[e], rid, tok))
    case Allocate(w) => AfterGrant(sha, y, e, w)
    case Submit(ws) => Alone(y, e, Submitted(y.hosts[e], ws))
    case Execute(ws) => AfterBatch(y, e, ws)
    case ExecuteFails(ws, pages) => Alone(y, e, Answered(y.hosts[e], pages, ws, false))
    case ExecuteRefused(ws) => Alone(y, e, Answered(y.hosts[e], y.hosts[e].phys, ws, false))
    case CommitWork(wid) => PutHost(y, e, AfterCommit(y.reg.nodes[e], wid), y.hosts[e], y.prompts)
    case RollbackWork(wid) => PutHost(y, e, AfterRollback(y.reg.nodes[e], wid), y.hosts[e], y.prompts)
    case End(rid) => PutHost(y, e, AfterFree(y.reg.nodes[e], rid), AfterEnd(y.hosts[e], rid), y.prompts)
    case Crash(pages) => Alone(y, e, y.hosts[e].(up := false, phys := pages))
  }

  ghost function Next(sha: Str -> Str, y: System, v: Event): System
    requires EngineInv(y.reg) && Enabled(sha, y, v)
  {
    match v
    case At(e, a) => NextAt(sha, y, e, a)
    case PrepareTransfer(t, src, dst, hashes) => AfterPrepare(y, t, src, dst, hashes)
    case HandleTrigger(m) => y.(pushes := y.pushes + {Sent(y, m)})
    case HandlePush(p) => AfterReceipt(y, p)
    case CommitTransfer(t) => y.(reg := CommitPlan(y.reg, t))
    case RollbackTransfer(t) => y.(reg := RollbackPlan(y.reg, t))
  }

  lemma NextAtInv(sha: Str -> Str, y: System, e: ExecutorId, a: Action)
    requires SystemInv(sha, y) && SoundAt(y, e) && EnabledAt(sha, y, e, a)
    ensures SystemInv(sha, NextAt(sha, y, e, a))
  {
    match a
    case Arrive(rid, p) => ArriveStep(sha, y, e, rid, p);
    case Generate(rid, tok) => TokenStep(sha, y, e, rid, tok);
    case Allocate(w) => AllocateWorkStep(sha, y, e, w);
    case Submit(ws) => SubmitStep(sha, y, e, ws);
    case Execute(ws) => var _ := ExecuteStep(sha, y, e, ws);
    case ExecuteFails(ws, pages) => FailStep(sha, y, e, ws, pages);
    case ExecuteRefused(ws) => RefuseStep(sha, y, e, ws);
    case CommitWork(wid) => CommitWorkStep(sha, y, e, wid);
    case RollbackWork(wid) => RollbackWorkStep(sha, y, e, wid);
    case End(rid) => EndStep(sha, y, e, rid);
    case Crash(pages) => CrashStep(sha, y, e, pages);
  }

  /** Every event keeps the invariant of the whole system. */
  lemma NextInv(sha: Str -> Str, y: System, v: Event)
    requires SystemInv(sha, y) && Enabled(sha, y, v)
    ensures SystemInv(sha, Next(sha, y, v))
  {
    match v
    case At(e, a) => NextAtInv(sha, y, e, a);
    case PrepareTransfer(t, src, dst, hashes) => PrepareStep(sha, y, t, src, dst, hashes);
    case HandleTrigger(m) => SendStep(sha, y, m);
    case HandlePush(p) => ReceiveStep(sha, y, p);
    case CommitTransfer(t) => CommitTransferStep(sha, y, t);
    case RollbackTransfer(t) => RollbackTransferStep(sha, y, t);
  }

  ghost predicate Legal(sha: Str -> Str, y: System, vs: seq<Event>)
    requires SystemInv(sha, y)
    decreases |vs|
  {
    vs == [] || (Enabled(sha, y, vs[0]) && (NextInv(sha, y, vs[0]); Legal(sha, Next(sha, y, vs[0]), vs[1..])))
  }

  ghost function After(sha: Str -> Str, y: System, vs: seq<Event>): (z: System)
    requires SystemInv(sha, y) && Legal(sha, y, vs)
    ensures SystemInv(sha, z)
    decreases |vs|
  {
    if vs == [] then y
    else
      NextInv(sha, y, vs[0]);
      After(sha, Next(sha, y, vs[0]), vs[1..])
  }

  // ---------------------------------------------------------------- the start

  /** newManager at the engine, and no request or work. The pages may hold anything: nothing is published yet. */
  ghost predicate StartsFresh(n: Node, h: Host) {
    && h.live == map[] && h.flights == map[]
    && exists bs: nat, k: nat :: bs > 0 && n == Node(Initial(bs, k), map[], map[], map[]) && |h.phys| == k && Shaped(h.phys, bs)
  }

  ghost predicate IsInitial(y: System) {
    && y.hosts.Keys == y.reg.nodes.Keys && y.reg.transfers == map[]
    && y.triggers == {} && y.pushes == {} && y.confirms == {} && y.prompts == {}
    && (forall e :: e in y.reg.nodes ==> StartsFresh(y.reg.nodes[e], y.hosts[e]))
  }

  lemma InitialHost(sha: Str -> Str, n: Node, h: Host)
    requires StartsFresh(n, h)
    ensures Sound(n) && Faithful(sha, {}, n, h) && n.pinned == map[] && n.reserved == map[]
  {
    var bs: nat, k: nat :| bs > 0 && n == Node(Initial(bs, k), map[], map[], map[]) && |h.phys| == k && Shaped(h.phys, bs);
    InitialSound(bs, k);
    FaithfulIsHostOk(sha, {}, n, h);
  }

  lemma InitialSystem(sha: Str -> Str, y: System)
    requires IsInitial(y)
    ensures SystemInv(sha, y)
  {
    forall e | e in y.reg.nodes
      ensures Sound(y.reg.nodes[e]) && Faithful(sha, y.prompts, y.reg.nodes[e], y.hosts[e])
      ensures y.reg.nodes[e].pinned == map[] && y.reg.nodes[e].reserved == map[]
    {
      InitialHost(sha, y.reg.nodes[e], y.hosts[e]);
    }
  }

  // ---------------------------------------------------------------- what holds in every reachable state

  /**
   * The metadata says what the device holds: after any run, a hash that the engine has published for a
   * healthy executor names a block that is fully written with exactly the K/V of the block whose chain
   * hash it is, for every prompt that has this chain hash. Pushes may have been late, duplicated or lost.
   */
  lemma PublishedIsHeld(sha: Str -> Str, y: System, vs: seq<Event>, e: ExecutorId, p: Prompt, i: nat)
    requires IsInitial(y) && (InitialSystem(sha, y); Legal(sha, y, vs))
    requires var z := After(sha, y, vs);
      && e in z.reg.nodes && e in z.hosts && z.hosts[e].up && p in z.prompts
      && CollisionFree(sha, z.prompts, z.reg.nodes[e].s.blockSize)
      && Span(i + 1, z.reg.nodes[e].s.blockSize) <= |p.tokens|
      && ChainHash(sha, z.reg.nodes[e].s.blockSize, p.salt, p.tokens, i) in z.reg.nodes[e].s.index
    ensures var z := After(sha, y, vs);
      var bs := z.reg.nodes[e].s.blockSize;
      var b := z.reg.nodes[e].s.index[ChainHash(sha, bs, p.salt, p.tokens, i)];
      b < |z.hosts[e].phys| && z.hosts[e].phys[b] == FullBlock(PrefixKV(p.tokens)[Span(i, bs)..Span(i + 1, bs)])
  {
    InitialSystem(sha, y);
    var z := After(sha, y, vs);
    FaithfulIsHostOk(sha, z.prompts, z.reg.nodes[e], z.hosts[e]);
    var s := z.reg.nodes[e].s;
    NamedIsOwn(sha, z.prompts, s.blockSize, p, i, z.hosts[e].phys[s.index[ChainHash(sha, s.blockSize, p.salt, p.tokens, i)]]);
  }

  /**
   * Nothing else is published: after any run every hash in the index of a healthy executor is the chain hash of some
   * full block of a prompt the engine has seen, and its page holds exactly that block's K/V.
   */
  lemma IndexedIsHeld(sha: Str -> Str, y: System, vs: seq<Event>, e: ExecutorId, x: Hash) returns (p: Prompt, i: nat)
    requires IsInitial(y) && (InitialSystem(sha, y); Legal(sha, y, vs))
    requires var z := After(sha, y, vs); e in z.reg.nodes && e in z.hosts && z.hosts[e].up && x in z.reg.nodes[e].s.index
    ensures var z := After(sha, y, vs);
      var bs, b := z.reg.nodes[e].s.blockSize, z.reg.nodes[e].s.index[x];
      && p in z.prompts && Span(i + 1, bs) <= |p.tokens| && x == ChainHash(sha, bs, p.salt, p.tokens, i)
      && b < |z.hosts[e].phys| && z.hosts[e].phys[b] == FullBlock(PrefixKV(p.tokens)[Span(i, bs)..Span(i + 1, bs)])
  {
    InitialSystem(sha, y);
    var z := After(sha, y, vs);
    FaithfulIsHostOk(sha, z.prompts, z.reg.nodes[e], z.hosts[e]);
    var s := z.reg.nodes[e].s;
    assert Named(sha, z.prompts, s.blockSize, x, z.hosts[e].phys[s.index[x]]);
    p, i :| p in z.prompts && IsBlock(sha, s.blockSize, p, i, x, z.hosts[e].phys[s.index[x]]);
  }

  /** Every live request can read back exactly the K/V of its own committed tokens, in order. */
  lemma GatherReturnsOwnTokens(sha: Str -> Str, y: System, vs: seq<Event>, e: ExecutorId, rid: RequestId)
    requires IsInitial(y) && (InitialSystem(sha, y); Legal(sha, y, vs))
    requires var z := After(sha, y, vs);
      e in z.reg.nodes && e in z.hosts && z.hosts[e].up && rid in z.reg.nodes[e].s.tables
    ensures var z := After(sha, y, vs);
      var n, h := z.reg.nodes[e], z.hosts[e];
      && n.s.blockSize > 0 && rid in h.live && Progress(n, rid) <= |h.live[rid].tokens|
      && Gathered(h.phys, n.s.tables[rid], n.s.blockSize, Progress(n, rid)) == Some(PrefixKV(h.live[rid].tokens[..Progress(n, rid)]))
  {
    InitialSystem(sha, y);
    var z := After(sha, y, vs);
    var n, h := z.reg.nodes[e], z.hosts[e];
    FaithfulIsHostOk(sha, z.prompts, n, h);
    var c, kvs := Progress(n, rid), PrefixKV(h.live[rid].tokens);
    GatheredIsDense(h.phys, n.s.tables[rid], n.s.blockSize, kvs, c);
    PrefixKVTake(h.live[rid].tokens, c);
  }

  /**
   * Sharing without copying is safe: a slot that a work at the executor writes lies in a block that is
   * not in the prefix cache and that only its request holds, and no other work writes to that block.
   */
  lemma WritesArePrivate(sha: Str -> Str, y: System, vs: seq<Event>, e: ExecutorId, w: WorkId, b: nat, o: nat)
    requires IsInitial(y) && (InitialSystem(sha, y); Legal(sha, y, vs))
    requires var z := After(sha, y, vs); e in z.reg.nodes && MayTouch(z.reg.nodes[e], w, b, o)
    ensures var n := After(sha, y, vs).reg.nodes[e];
      && b < |n.s.blocks| && !n.s.blocks[b].cached && n.s.blocks[b].refs == 1
      && (forall x :: x in n.s.index ==> n.s.index[x] != b)
      && (forall v, q :: MayTouch(n, v, b, q) ==> v == w)
  {
    InitialSystem(sha, y);
    var n := After(sha, y, vs).reg.nodes[e];
    SoundIsInv(n);
    var i :| TouchesAt(n, n.s.pending[w], i, b, o);
    TouchIsPrivate(n, n.s.pending[w], w, i, b, o);
    forall v, q | MayTouch(n, v, b, q)
      ensures v == w
    {
      TouchesAreApart(n, w, v, b, o, q);
    }
  }
}

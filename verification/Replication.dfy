/**
 The whole system: the engine's registry, the executors' pages, and the messages of KV replication.

 Messages are never taken out of their sets, so each may be handled late (even after its transfer was
 rolled back and its blocks were given to someone else), more than once, or never.
 */
module Replication {
  import opened Hashing
  import opened Spans
  import opened Wrappers
  import opened Sequences
  import opened BlockSpec
  import opened BlockInv
  import opened BlockEffects
  import opened RequestInv
  import opened CommitInv
  import opened ReleaseInv
  import opened TransferInv
  import opened NodeSteps
  import opened Engine
  import opened Pages
  import opened Hosts
  import opened HostRequests
  import opened HostPages

  /** TriggerKVPush: the engine asks the source of a plan to push. */
  datatype Trigger = Trigger(t: TransferId, plan: Plan)

  /** PushKV: the source's pages, on their way to the destination's blocks. */
  datatype Push = Push(t: TransferId, dst: ExecutorId, dstIds: seq<nat>, payload: seq<seq<KV>>)

  /** `prompts` and `used` record every prompt and every transfer id there has been. */
  datatype System = System(
    reg: Registry,
    hosts: map<ExecutorId, Host>,
    prompts: set<Prompt>,
    used: set<TransferId>,
    triggers: set<Trigger>,
    pushes: set<Push>,
    confirms: set<TransferId>)

  // ---------------------------------------------------------------- the invariant

  ghost predicate HostOkBehind(sha: Str -> Str, prompts: set<Prompt>, n: Node, h: Host, depth: nat) {
    if depth == 0 then HostOk(sha, prompts, n, h) else HostOkBehind(sha, prompts, n, h, depth - 1)
  }

  /** HostOk, hidden as NodeSteps.Sound is. */
  ghost predicate Faithful(sha: Str -> Str, prompts: set<Prompt>, n: Node, h: Host) {
    HostOkBehind(sha, prompts, n, h, |n.s.blocks| + 1)
  }

  lemma {:induction false} HostOkBehindIsHostOk(sha: Str -> Str, prompts: set<Prompt>, n: Node, h: Host, depth: nat)
    ensures HostOkBehind(sha, prompts, n, h, depth) <==> HostOk(sha, prompts, n, h)
  {
    if depth > 0 {
      HostOkBehindIsHostOk(sha, prompts, n, h, depth - 1);
    }
  }

  lemma FaithfulIsHostOk(sha: Str -> Str, prompts: set<Prompt>, n: Node, h: Host)
    ensures Faithful(sha, prompts, n, h) <==> HostOk(sha, prompts, n, h)
  {
    HostOkBehindIsHostOk(sha, prompts, n, h, |n.s.blocks| + 1);
  }

  ghost predicate AllFaithful(sha: Str -> Str, y: System) {
    && y.hosts.Keys == y.reg.nodes.Keys
    && (forall e :: e in y.reg.nodes ==> Faithful(sha, y.prompts, y.reg.nodes[e], y.hosts[e]))
  }

  /** Each page of the payload holds what its hash stands for. */
  ghost predicate PayloadOk(sha: Str -> Str, prompts: set<Prompt>, bs: nat, hashes: seq<Hash>, payload: seq<seq<KV>>) {
    && |payload| == |hashes|
    && (forall i :: 0 <= i < |hashes| ==> Named(sha, prompts, bs, hashes[i], FullBlock(payload[i])))
  }

  /** A push of a transfer that is still pending carries the pages of its plan. */
  ghost predicate PushOk(sha: Str -> Str, prompts: set<Prompt>, g: Registry, p: Push) {
    p.t in g.transfers ==>
      var plan := g.transfers[p.t];
      && p.dst == plan.dst && p.dstIds == plan.dstIds && plan.dst in g.nodes
      && PayloadOk(sha, prompts, g.nodes[plan.dst].s.blockSize, plan.hashes, p.payload)
  }

  /** The i-th block of the plan holds, at the destination, what its hash stands for. */
  ghost predicate Landed(sha: Str -> Str, prompts: set<Prompt>, bs: nat, plan: Plan, phys: Phys, i: nat)
    requires i < |plan.hashes|
  {
    i < |plan.dstIds| && plan.dstIds[i] < |phys| && Named(sha, prompts, bs, plan.hashes[i], phys[plan.dstIds[i]])
  }

  /** A confirmed transfer that is still pending has its pages at the destination. */
  ghost predicate ConfirmOk(sha: Str -> Str, prompts: set<Prompt>, g: Registry, hosts: map<ExecutorId, Host>, t: TransferId) {
    t in g.transfers ==>
      var plan := g.transfers[t];
      && plan.dst in g.nodes && plan.dst in hosts
      && (hosts[plan.dst].up ==>
            forall i :: 0 <= i < |plan.hashes| ==> Landed(sha, prompts, g.nodes[plan.dst].s.blockSize, plan, hosts[plan.dst].phys, i))
  }

  ghost predicate IdsUsed(y: System) {
    && (forall t :: t in y.reg.transfers ==> t in y.used)
    && (forall m :: m in y.triggers ==> m.t in y.used)
    && (forall p :: p in y.pushes ==> p.t in y.used)
    && (forall t :: t in y.confirms ==> t in y.used)
  }

  ghost predicate MessagesOk(sha: Str -> Str, y: System) {
    && (forall m :: m in y.triggers && m.t in y.reg.transfers ==> m.plan == y.reg.transfers[m.t])
    && (forall p :: p in y.pushes ==> PushOk(sha, y.prompts, y.reg, p))
    && (forall t :: t in y.confirms ==> ConfirmOk(sha, y.prompts, y.reg, y.hosts, t))
  }

  ghost predicate SystemInv(sha: Str -> Str, y: System) {
    EngineInv(y.reg) && AllFaithful(sha, y) && IdsUsed(y) && MessagesOk(sha, y)
  }

  // ---------------------------------------------------------------- steps on one executor

  /** A fully written reserved page is not overwritten. */
  ghost predicate ReservedStay(n: Node, h: Host, k: Host) {
    && (k.up ==> h.up)
    && (k.up ==> forall t, i :: t in n.reserved && 0 <= i < |n.reserved[t]| ==> PageStays(h.phys, k.phys, n.reserved[t][i]))
  }

  ghost predicate PageStays(phys: Phys, next: Phys, b: nat) {
    b < |phys| && AllFull(phys[b]) ==> b < |next| && next[b] == phys[b]
  }

  lemma NamedIsFull(sha: Str -> Str, prompts: set<Prompt>, bs: nat, x: Hash, page: seq<Slot<KV>>)
    requires Named(sha, prompts, bs, x, page)
    ensures AllFull(page)
  {
    var p, i :| p in prompts && IsBlock(sha, bs, p, i, x, page);
  }

  lemma PayloadMore(sha: Str -> Str, prompts: set<Prompt>, more: set<Prompt>, bs: nat, hashes: seq<Hash>, payload: seq<seq<KV>>)
    requires PayloadOk(sha, prompts, bs, hashes, payload) && prompts <= more
    ensures PayloadOk(sha, more, bs, hashes, payload)
  {
    forall i | 0 <= i < |hashes|
      ensures Named(sha, more, bs, hashes[i], FullBlock(payload[i]))
    {
      NamedMore(sha, prompts, more, bs, hashes[i], FullBlock(payload[i]));
    }
  }

  function PutHost(y: System, e: ExecutorId, m: Node, k: Host, prompts: set<Prompt>): System {
    y.(reg := Put(y.reg, e, m), hosts := y.hosts[e := k], prompts := prompts)
  }

  lemma PutPush(sha: Str -> Str, y: System, e: ExecutorId, m: Node, more: set<Prompt>, p: Push)
    requires PushOk(sha, y.prompts, y.reg, p) && e in y.reg.nodes && m.s.blockSize == y.reg.nodes[e].s.blockSize && y.prompts <= more
    ensures PushOk(sha, more, Put(y.reg, e, m), p)
  {
    if p.t in y.reg.transfers {
      var plan := y.reg.transfers[p.t];
      PayloadMore(sha, y.prompts, more, y.reg.nodes[plan.dst].s.blockSize, plan.hashes, p.payload);
    }
  }

  lemma LandedStays(sha: Str -> Str, prompts: set<Prompt>, more: set<Prompt>, bs: nat, plan: Plan, phys: Phys, next: Phys, i: nat)
    requires i < |plan.hashes| && Landed(sha, prompts, bs, plan, phys, i) && prompts <= more && PageStays(phys, next, plan.dstIds[i])
    ensures Landed(sha, more, bs, plan, next, i)
  {
    var page := phys[plan.dstIds[i]];
    NamedIsFull(sha, prompts, bs, plan.hashes[i], page);
    NamedMore(sha, prompts, more, bs, plan.hashes[i], page);
  }

  lemma PutConfirm(sha: Str -> Str, y: System, e: ExecutorId, m: Node, k: Host, more: set<Prompt>, t: TransferId)
    requires EngineInv(y.reg) && ConfirmOk(sha, y.prompts, y.reg, y.hosts, t) && e in y.reg.nodes && e in y.hosts
    requires m.s.blockSize == y.reg.nodes[e].s.blockSize && y.prompts <= more
    requires ReservedStay(y.reg.nodes[e], y.hosts[e], k)
    ensures ConfirmOk(sha, more, Put(y.reg, e, m), y.hosts[e := k], t)
  {
    if t in y.reg.transfers {
      var plan := y.reg.transfers[t];
      assert PlanOk(y.reg.nodes, t, plan);
      var bs, next := y.reg.nodes[plan.dst].s.blockSize, y.hosts[e := k][plan.dst];
      if next.up {
        forall i | 0 <= i < |plan.hashes|
          ensures Landed(sha, more, bs, plan, next.phys, i)
        {
          assert PageStays(y.hosts[plan.dst].phys, next.phys, y.reg.nodes[plan.dst].reserved[t][i]);
          LandedStays(sha, y.prompts, more, bs, plan, y.hosts[plan.dst].phys, next.phys, i);
        }
      }
    }
  }

  lemma PutFaithful(sha: Str -> Str, y: System, e: ExecutorId, m: Node, k: Host, more: set<Prompt>)
    requires AllFaithful(sha, y) && e in y.reg.nodes && y.prompts <= more && Faithful(sha, more, m, k)
    ensures AllFaithful(sha, PutHost(y, e, m, k, more))
  {
    forall d | d in y.reg.nodes && d != e
      ensures Faithful(sha, more, y.reg.nodes[d], y.hosts[d])
    {
      FaithfulIsHostOk(sha, y.prompts, y.reg.nodes[d], y.hosts[d]);
      MorePrompts(sha, y.prompts, more, y.reg.nodes[d], y.hosts[d]);
      FaithfulIsHostOk(sha, more, y.reg.nodes[d], y.hosts[d]);
    }
  }

  /** A step on one executor that starts or ends no transfer. */
  lemma PutHostInv(sha: Str -> Str, y: System, e: ExecutorId, m: Node, k: Host, more: set<Prompt>)
    requires SystemInv(sha, y) && e in y.reg.nodes && y.prompts <= more
    requires Sound(m) && Advances(y.reg.nodes[e], m) && SameTransfers(y.reg.nodes[e], m)
    requires Faithful(sha, more, m, k) && ReservedStay(y.reg.nodes[e], y.hosts[e], k)
    ensures SystemInv(sha, PutHost(y, e, m, k, more))
  {
    var z := PutHost(y, e, m, k, more);
    PutInv(y.reg, e, m);
    SameBlockSize(y.reg.nodes[e], m);
    PutFaithful(sha, y, e, m, k, more);
    forall p | p in z.pushes
      ensures PushOk(sha, more, z.reg, p)
    {
      PutPush(sha, y, e, m, more, p);
    }
    forall t | t in z.confirms
      ensures ConfirmOk(sha, more, z.reg, z.hosts, t)
    {
      PutConfirm(sha, y, e, m, k, more, t);
    }
  }

  lemma SamePages(n: Node, h: Host, k: Host)
    requires k.phys == h.phys && k.up == h.up
    ensures ReservedStay(n, h, k)
  {
  }

  // ---------------------------------------------------------------- requests

  lemma ArriveStep(sha: Str -> Str, y: System, e: ExecutorId, rid: RequestId, p: Prompt)
    requires SystemInv(sha, y) && e in y.reg.nodes && rid !in y.reg.nodes[e].s.tables && rid !in y.hosts[e].live
    requires Sound(y.reg.nodes[e]) && (SoundIsInv(y.reg.nodes[e]); y.reg.nodes[e].s.blockSize > 0)
    requires CollisionFree(sha, y.prompts + {p}, y.reg.nodes[e].s.blockSize)
    ensures var m := AfterMatch(y.reg.nodes[e], rid, Matchable(sha, y.reg.nodes[e].s.blockSize, p.salt, p.tokens));
      SystemInv(sha, PutHost(y, e, m, AfterArrival(y.hosts[e], rid, p), y.prompts + {p}))
  {
    var n, h, more := y.reg.nodes[e], y.hosts[e], y.prompts + {p};
    SoundIsInv(n);
    var matchable := Matchable(sha, n.s.blockSize, p.salt, p.tokens);
    var m, k := AfterMatch(n, rid, matchable), AfterArrival(h, rid, p);
    MatchStep(n, rid, matchable);
    FaithfulIsHostOk(sha, y.prompts, n, h);
    MorePrompts(sha, y.prompts, more, n, h);
    MatchKeepsHost(sha, more, n, h, rid, p);
    FaithfulIsHostOk(sha, more, m, k);
    SamePages(n, h, k);
    PutHostInv(sha, y, e, m, k, more);
  }

  lemma TokenStep(sha: Str -> Str, y: System, e: ExecutorId, rid: RequestId, tok: Token)
    requires SystemInv(sha, y) && e in y.reg.nodes && rid in y.hosts[e].live
    ensures SystemInv(sha, PutHost(y, e, y.reg.nodes[e], AfterToken(y.hosts[e], rid, tok), y.prompts))
  {
    var n, h := y.reg.nodes[e], y.hosts[e];
    var k := AfterToken(h, rid, tok);
    FaithfulIsHostOk(sha, y.prompts, n, h);
    TokenKeepsHost(sha, y.prompts, n, h, rid, tok);
    FaithfulIsHostOk(sha, y.prompts, n, k);
    AdvancesIsKept(n, n);
    SamePages(n, h, k);
    PutHostInv(sha, y, e, n, k, y.prompts);
  }

  lemma AllocateWorkStep(sha: Str -> Str, y: System, e: ExecutorId, w: Work)
    requires SystemInv(sha, y) && e in y.reg.nodes && Sound(y.reg.nodes[e]) && (SoundIsInv(y.reg.nodes[e]); y.reg.nodes[e].s.blockSize > 0)
    requires MayAllocateFor(sha, y.reg.nodes[e], y.hosts[e], w) && CanAllocate(y.reg.nodes[e].s, w)
    ensures SystemInv(sha, PutHost(y, e, AfterAllocate(y.reg.nodes[e], w),
                                   AfterAllocation(y.hosts[e], w, NewAllocation(y.reg.nodes[e].s, w)), y.prompts))
  {
    var n, h := y.reg.nodes[e], y.hosts[e];
    var m, k := AfterAllocate(n, w), AfterAllocation(h, w, NewAllocation(n.s, w));
    SoundIsInv(n);
    AllocateStep(n, w);
    FaithfulIsHostOk(sha, y.prompts, n, h);
    AllocateKeepsHost(sha, y.prompts, n, h, w);
    FaithfulIsHostOk(sha, y.prompts, m, k);
    SamePages(n, h, k);
    PutHostInv(sha, y, e, m, k, y.prompts);
  }

  lemma CommitWorkStep(sha: Str -> Str, y: System, e: ExecutorId, wid: WorkId)
    requires SystemInv(sha, y) && e in y.reg.nodes && Sound(y.reg.nodes[e])
    requires wid in y.reg.nodes[e].s.pending ==> wid in y.hosts[e].flights && y.hosts[e].flights[wid].stage == Ran(true)
    ensures SystemInv(sha, PutHost(y, e, AfterCommit(y.reg.nodes[e], wid), y.hosts[e], y.prompts))
  {
    var n, h := y.reg.nodes[e], y.hosts[e];
    SoundIsInv(n);
    CommitStep(n, wid);
    FaithfulIsHostOk(sha, y.prompts, n, h);
    CommitKeepsHost(sha, y.prompts, n, h, wid);
    FaithfulIsHostOk(sha, y.prompts, AfterCommit(n, wid), h);
    SamePages(n, h, h);
    PutHostInv(sha, y, e, AfterCommit(n, wid), h, y.prompts);
  }

  lemma RollbackWorkStep(sha: Str -> Str, y: System, e: ExecutorId, wid: WorkId)
    requires SystemInv(sha, y) && e in y.reg.nodes && Sound(y.reg.nodes[e])
    requires wid in y.reg.nodes[e].s.pending ==> wid in y.hosts[e].flights && y.hosts[e].flights[wid].stage != InFlight
    ensures SystemInv(sha, PutHost(y, e, AfterRollback(y.reg.nodes[e], wid), y.hosts[e], y.prompts))
  {
    var n, h := y.reg.nodes[e], y.hosts[e];
    SoundIsInv(n);
    RollbackStep(n, wid);
    FaithfulIsHostOk(sha, y.prompts, n, h);
    RollbackKeepsHost(sha, y.prompts, n, h, wid);
    FaithfulIsHostOk(sha, y.prompts, AfterRollback(n, wid), h);
    SamePages(n, h, h);
    PutHostInv(sha, y, e, AfterRollback(n, wid), h, y.prompts);
  }

  lemma EndStep(sha: Str -> Str, y: System, e: ExecutorId, rid: RequestId)
    requires SystemInv(sha, y) && e in y.reg.nodes && Sound(y.reg.nodes[e]) && NotInFlight(y.reg.nodes[e], y.hosts[e], rid)
    ensures SystemInv(sha, PutHost(y, e, AfterFree(y.reg.nodes[e], rid), AfterEnd(y.hosts[e], rid), y.prompts))
  {
    var n, h := y.reg.nodes[e], y.hosts[e];
    SoundIsInv(n);
    FreeStep(n, rid);
    FaithfulIsHostOk(sha, y.prompts, n, h);
    FreeKeepsHost(sha, y.prompts, n, h, rid);
    FaithfulIsHostOk(sha, y.prompts, AfterFree(n, rid), AfterEnd(h, rid));
    SamePages(n, h, AfterEnd(h, rid));
    PutHostInv(sha, y, e, AfterFree(n, rid), AfterEnd(h, rid), y.prompts);
  }

  // ---------------------------------------------------------------- batches

  function Submitted(h: Host, ws: seq<WorkId>): Host {
    h.(flights := map w | w in h.flights :: if w in ws then Flight(h.flights[w].item, InFlight) else h.flights[w])
  }

  /** Distinct pending works that have not been submitted. */
  ghost predicate Submittable(n: Node, h: Host, ws: seq<WorkId>) {
    && (forall i :: 0 <= i < |ws| ==> ws[i] in h.flights && ws[i] in n.s.pending && h.flights[ws[i]].stage == Allocated)
    && Distinct(ws)
  }

  lemma SubmitKeepsHost(sha: Str -> Str, prompts: set<Prompt>, n: Node, h: Host, ws: seq<WorkId>)
    requires HostOk(sha, prompts, n, h) && Submittable(n, h, ws)
    ensures HostOk(sha, prompts, n, Submitted(h, ws))
  {
    var k := Submitted(h, ws);
    forall w | w in n.s.pending
      ensures w in k.flights && FlightOk(sha, n, k, n.s.pending[w], k.flights[w].item)
    {
      FlightStays(sha, n, h, n, k, n.s.pending[w], h.flights[w].item);
    }
  }

  /** A step of the executor alone. */
  lemma HostOnlyInv(sha: Str -> Str, y: System, e: ExecutorId, k: Host)
    requires SystemInv(sha, y) && e in y.reg.nodes
    requires Faithful(sha, y.prompts, y.reg.nodes[e], k) && ReservedStay(y.reg.nodes[e], y.hosts[e], k)
    ensures SystemInv(sha, PutHost(y, e, y.reg.nodes[e], k, y.prompts))
  {
    AdvancesIsKept(y.reg.nodes[e], y.reg.nodes[e]);
    PutHostInv(sha, y, e, y.reg.nodes[e], k, y.prompts);
  }

  lemma SubmitStep(sha: Str -> Str, y: System, e: ExecutorId, ws: seq<WorkId>)
    requires SystemInv(sha, y) && e in y.reg.nodes && Submittable(y.reg.nodes[e], y.hosts[e], ws)
    ensures SystemInv(sha, PutHost(y, e, y.reg.nodes[e], Submitted(y.hosts[e], ws), y.prompts))
  {
    var n, h := y.reg.nodes[e], y.hosts[e];
    FaithfulIsHostOk(sha, y.prompts, n, h);
    SubmitKeepsHost(sha, y.prompts, n, h, ws);
    FaithfulIsHostOk(sha, y.prompts, n, Submitted(h, ws));
    SamePages(n, h, Submitted(h, ws));
    HostOnlyInv(sha, y, e, Submitted(h, ws));
  }

  /** No work touches a reserved block. */
  lemma ReservedUntouched(n: Node, ws: set<WorkId>, t: TransferId, i: nat, o: nat)
    requires Inv(n) && t in n.reserved && i < |n.reserved[t]|
    ensures !TouchedBy(n, ws, n.reserved[t][i], o)
  {
    var b := n.reserved[t][i];
    if TouchedBy(n, ws, b, o) {
      var w :| w in ws && MayTouch(n, w, b, o);
      var j :| TouchesAt(n, n.s.pending[w], j, b, o);
      TouchIsPrivate(n, n.s.pending[w], w, j, b, o);
      TableReservationShare(n, n.s.pending[w].requestId, j, t, i);
    }
  }

  lemma TouchKeepsReserved(n: Node, h: Host, k: Host, ws: set<WorkId>)
    requires Inv(n) && h.up && |h.phys| == |n.s.blocks| && Shaped(h.phys, n.s.blockSize) && OnlyTouches(n, ws, h.phys, k.phys)
    ensures ReservedStay(n, h, k)
  {
    forall t, i | t in n.reserved && 0 <= i < |n.reserved[t]|
      ensures PageStays(h.phys, k.phys, n.reserved[t][i])
    {
      var b := n.reserved[t][i];
      forall o | 0 <= o < n.s.blockSize
        ensures k.phys[b][o] == h.phys[b][o]
      {
        ReservedUntouched(n, ws, t, i, o);
      }
    }
  }

  /** A batch at a healthy executor runs to its end. */
  lemma ExecuteStep(sha: Str -> Str, y: System, e: ExecutorId, ws: seq<WorkId>) returns (next: Phys)
    requires SystemInv(sha, y) && e in y.reg.nodes && y.hosts[e].up && AtExecutor(y.reg.nodes[e], y.hosts[e], ws)
    ensures y.reg.nodes[e].s.blockSize > 0 && Shaped(y.hosts[e].phys, y.reg.nodes[e].s.blockSize)
    ensures BatchExecuted(y.hosts[e].phys, y.reg.nodes[e].s.blockSize, Items(y.hosts[e], ws)) == Some(next)
    ensures SystemInv(sha, PutHost(y, e, y.reg.nodes[e], Answered(y.hosts[e], next, ws, true), y.prompts))
  {
    var n, h := y.reg.nodes[e], y.hosts[e];
    SoundIsInv(n);
    FaithfulIsHostOk(sha, y.prompts, n, h);
    next := ExecuteKeepsHost(sha, y.prompts, n, h, ws);
    FaithfulIsHostOk(sha, y.prompts, n, Answered(h, next, ws, true));
    TouchKeepsReserved(n, h, Answered(h, next, ws, true), SetOf(ws));
    HostOnlyInv(sha, y, e, Answered(h, next, ws, true));
  }

  lemma FailStep(sha: Str -> Str, y: System, e: ExecutorId, ws: seq<WorkId>, next: Phys)
    requires SystemInv(sha, y) && e in y.reg.nodes && y.hosts[e].up && AtExecutor(y.reg.nodes[e], y.hosts[e], ws)
    requires OnlyTouches(y.reg.nodes[e], SetOf(ws), y.hosts[e].phys, next)
    ensures SystemInv(sha, PutHost(y, e, y.reg.nodes[e], Answered(y.hosts[e], next, ws, false), y.prompts))
  {
    var n, h := y.reg.nodes[e], y.hosts[e];
    SoundIsInv(n);
    FaithfulIsHostOk(sha, y.prompts, n, h);
    FailedExecuteKeepsHost(sha, y.prompts, n, h, ws, next);
    FaithfulIsHostOk(sha, y.prompts, n, Answered(h, next, ws, false));
    TouchKeepsReserved(n, h, Answered(h, next, ws, false), SetOf(ws));
    HostOnlyInv(sha, y, e, Answered(h, next, ws, false));
  }

  /** A batch refused by an executor that is down: nothing is known about its pages, nothing was run. */
  lemma RefusedKeepsHost(sha: Str -> Str, prompts: set<Prompt>, n: Node, h: Host, ws: seq<WorkId>)
    requires HostOk(sha, prompts, n, h) && !h.up
    ensures HostOk(sha, prompts, n, Answered(h, h.phys, ws, false))
  {
    AnsweredFlights(sha, n, h, h.phys, ws, false);
  }

  lemma RefuseStep(sha: Str -> Str, y: System, e: ExecutorId, ws: seq<WorkId>)
    requires SystemInv(sha, y) && e in y.reg.nodes && !y.hosts[e].up
    ensures SystemInv(sha, PutHost(y, e, y.reg.nodes[e], Answered(y.hosts[e], y.hosts[e].phys, ws, false), y.prompts))
  {
    var n, h := y.reg.nodes[e], y.hosts[e];
    var k := Answered(h, h.phys, ws, false);
    FaithfulIsHostOk(sha, y.prompts, n, h);
    RefusedKeepsHost(sha, y.prompts, n, h, ws);
    FaithfulIsHostOk(sha, y.prompts, n, k);
    SamePages(n, h, k);
    HostOnlyInv(sha, y, e, k);
  }

  /** The failure latch is set, or the executor restarts under another epoch. */
  lemma CrashStep(sha: Str -> Str, y: System, e: ExecutorId, phys: Phys)
    requires SystemInv(sha, y) && e in y.reg.nodes
    ensures SystemInv(sha, PutHost(y, e, y.reg.nodes[e], y.hosts[e].(up := false, phys := phys), y.prompts))
  {
    var n, h := y.reg.nodes[e], y.hosts[e];
    var k := h.(up := false, phys := phys);
    FaithfulIsHostOk(sha, y.prompts, n, h);
    CrashKeepsHost(sha, y.prompts, n, h, phys);
    FaithfulIsHostOk(sha, y.prompts, n, k);
    HostOnlyInv(sha, y, e, k);
  }

  lemma CrashKeepsHost(sha: Str -> Str, prompts: set<Prompt>, n: Node, h: Host, phys: Phys)
    requires HostOk(sha, prompts, n, h)
    ensures HostOk(sha, prompts, n, h.(up := false, phys := phys))
  {
    var k := h.(up := false, phys := phys);
    forall w | w in n.s.pending
      ensures FlightOk(sha, n, k, n.s.pending[w], k.flights[w].item)
    {
      FlightStays(sha, n, h, n, k, n.s.pending[w], h.flights[w].item);
    }
  }

  // ---------------------------------------------------------------- messages

  /** The source's pages of a pending plan hold what its hashes stand for. */
  lemma ExportedIsPayload(sha: Str -> Str, prompts: set<Prompt>, n: Node, h: Host, ids: seq<nat>, hashes: seq<Hash>)
    requires HostOk(sha, prompts, n, h) && h.up && CanExport(h.phys, ids) && |ids| == |hashes|
    requires forall i :: 0 <= i < |hashes| ==> hashes[i] in n.s.index && n.s.index[hashes[i]] == ids[i]
    ensures PayloadOk(sha, prompts, n.s.blockSize, hashes, Exported(h.phys, ids))
  {
    forall i | 0 <= i < |hashes|
      ensures Named(sha, prompts, n.s.blockSize, hashes[i], FullBlock(Exported(h.phys, ids)[i]))
    {
      assert FullBlock(Exported(h.phys, ids)[i]) == h.phys[ids[i]];
    }
  }

  /** The source exports the pages it was told to and sends them off. */
  ghost predicate CanSend(y: System, m: Trigger) {
    m.plan.src in y.hosts && y.hosts[m.plan.src].up && CanExport(y.hosts[m.plan.src].phys, m.plan.srcIds)
  }

  function Sent(y: System, m: Trigger): Push
    requires CanSend(y, m)
  {
    Push(m.t, m.plan.dst, m.plan.dstIds, Exported(y.hosts[m.plan.src].phys, m.plan.srcIds))
  }

  lemma SentIsPlanned(sha: Str -> Str, y: System, m: Trigger)
    requires SystemInv(sha, y) && m in y.triggers && CanSend(y, m)
    ensures m.t in y.used && PushOk(sha, y.prompts, y.reg, Sent(y, m))
  {
    if m.t in y.reg.transfers {
      var plan := y.reg.transfers[m.t];
      assert PlanOk(y.reg.nodes, m.t, plan);
      FaithfulIsHostOk(sha, y.prompts, y.reg.nodes[plan.src], y.hosts[plan.src]);
      ExportedIsPayload(sha, y.prompts, y.reg.nodes[plan.src], y.hosts[plan.src], plan.srcIds, plan.hashes);
    }
  }

  lemma PushAdded(sha: Str -> Str, y: System, p: Push)
    requires SystemInv(sha, y) && p.t in y.used && PushOk(sha, y.prompts, y.reg, p)
    ensures SystemInv(sha, y.(pushes := y.pushes + {p}))
  {
  }

  lemma SendStep(sha: Str -> Str, y: System, m: Trigger)
    requires SystemInv(sha, y) && m in y.triggers && CanSend(y, m)
    ensures SystemInv(sha, y.(pushes := y.pushes + {Sent(y, m)}))
  {
    SentIsPlanned(sha, y, m);
    PushAdded(sha, y, Sent(y, m));
  }

  /** push_kv accepts: the destination is healthy and the blocks are empty. */
  ghost predicate CanReceive(y: System, p: Push) {
    && p.dst in y.hosts && p.dst in y.reg.nodes && y.hosts[p.dst].up
    && CanImportInto(y.hosts[p.dst].phys, y.reg.nodes[p.dst].s.blockSize, p.dstIds, p.payload)
  }

  function Received(h: Host, p: Push): Host
    requires |p.payload| == |p.dstIds|
  {
    h.(phys := ImportedPages(h.phys, p.dstIds, p.payload))
  }

  lemma GrowthKeepsReserved(n: Node, h: Host, phys: Phys, bs: nat)
    requires Grows(h.phys, phys) && Shaped(h.phys, bs) && Shaped(phys, bs)
    ensures ReservedStay(n, h, h.(phys := phys))
  {
    forall b | 0 <= b < |h.phys| && AllFull(h.phys[b])
      ensures phys[b] == h.phys[b]
    {
      forall o | 0 <= o < bs
        ensures phys[b][o] == h.phys[b][o]
      {
        assert h.phys[b][o].Full?;
      }
    }
  }

  lemma ReceivedLands(sha: Str -> Str, prompts: set<Prompt>, bs: nat, plan: Plan, phys: Phys, payload: seq<seq<KV>>)
    requires PayloadOk(sha, prompts, bs, plan.hashes, payload) && CanImportInto(phys, bs, plan.dstIds, payload)
    ensures forall i :: 0 <= i < |plan.hashes| ==> Landed(sha, prompts, bs, plan, ImportedPages(phys, plan.dstIds, payload), i)
  {
    forall i | 0 <= i < |plan.hashes|
      ensures Landed(sha, prompts, bs, plan, ImportedPages(phys, plan.dstIds, payload), i)
    {
      ImportedPageAt(phys, plan.dstIds, payload, i);
    }
  }

  lemma ReceiveStep(sha: Str -> Str, y: System, p: Push)
    requires SystemInv(sha, y) && p in y.pushes && CanReceive(y, p)
    ensures var z := PutHost(y, p.dst, y.reg.nodes[p.dst], Received(y.hosts[p.dst], p), y.prompts);
      SystemInv(sha, z.(confirms := z.confirms + {p.t}))
  {
    var e := p.dst;
    var n, h := y.reg.nodes[e], y.hosts[e];
    var bs, k := n.s.blockSize, Received(h, p);
    FaithfulIsHostOk(sha, y.prompts, n, h);
    ImportGrows(h.phys, bs, p.dstIds, p.payload);
    GrowthKeepsHost(sha, y.prompts, n, h, k.phys);
    FaithfulIsHostOk(sha, y.prompts, n, k);
    GrowthKeepsReserved(n, h, k.phys, bs);
    HostOnlyInv(sha, y, e, k);
    assert PushOk(sha, y.prompts, y.reg, p);
    if p.t in y.reg.transfers {
      ReceivedLands(sha, y.prompts, bs, y.reg.transfers[p.t], h.phys, p.payload);
    }
    ConfirmAdded(sha, PutHost(y, e, n, k, y.prompts), p.t);
  }

  lemma ConfirmAdded(sha: Str -> Str, z: System, t: TransferId)
    requires SystemInv(sha, z) && t in z.used && ConfirmOk(sha, z.prompts, z.reg, z.hosts, t)
    ensures SystemInv(sha, z.(confirms := z.confirms + {t}))
  {
  }
}

/** Every run of the registry: conservation of references, pins, transfers that are all or nothing. */
module EngineRuns {
  import opened Hashing
  import opened Spans
  import opened Sequences
  import opened BlockSpec
  import opened Bags
  import opened BlockEffects
  import opened BlockInv
  import opened RequestInv
  import opened ReleaseInv
  import opened TransferInv
  import opened NodeSteps
  import opened Engine

  datatype Step =
    | MatchPrefix(e: ExecutorId, rid: RequestId, matchable: seq<Hash>)
    | AllocateBlocks(e: ExecutorId, w: Work)
    | CommitWork(e: ExecutorId, wid: WorkId)
    | RollbackWork(e: ExecutorId, wid: WorkId)
    | FreeBlocks(e: ExecutorId, rid: RequestId)
    | PrepareTransfer(t: TransferId, src: ExecutorId, dst: ExecutorId, hashes: seq<Hash>)
    | CommitTransfer(t: TransferId)
    | RollbackTransfer(t: TransferId)

  /**
   * When the engine takes a step. Matching needs a request that is not live; allocating needs what
   * MayAllocate says. Everything else may happen at any time, in particular commits and rollbacks of
   * work and transfers that are over.
   */
  ghost predicate Enabled(g: Registry, s: Step) {
    match s
    case MatchPrefix(e, rid, _) => e in g.nodes && rid !in g.nodes[e].s.tables
    case AllocateBlocks(e, w) => e in g.nodes && MayAllocate(g.nodes[e], w)
    case CommitWork(e, _) => e in g.nodes
    case RollbackWork(e, _) => e in g.nodes
    case FreeBlocks(e, _) => e in g.nodes
    case PrepareTransfer(_, _, _, _) => true
    case CommitTransfer(_) => true
    case RollbackTransfer(_) => true
  }

  ghost function Apply(g: Registry, s: Step): Registry
    requires EngineInv(g) && Enabled(g, s)
  {
    match s
    case MatchPrefix(e, rid, matchable) => Put(g, e, AfterMatch(g.nodes[e], rid, matchable))
    case AllocateBlocks(e, w) => Put(g, e, AfterAllocate(g.nodes[e], w))
    case CommitWork(e, wid) => Put(g, e, AfterCommit(g.nodes[e], wid))
    case RollbackWork(e, wid) => Put(g, e, AfterRollback(g.nodes[e], wid))
    case FreeBlocks(e, rid) => Put(g, e, AfterFree(g.nodes[e], rid))
    case PrepareTransfer(t, src, dst, hashes) => Prepare(g, t, src, dst, hashes)
    case CommitTransfer(t) => CommitPlan(g, t)
    case RollbackTransfer(t) => RollbackPlan(g, t)
  }

  /** Every step keeps the invariant of the whole engine. */
  lemma ApplyInv(g: Registry, s: Step)
    requires EngineInv(g) && Enabled(g, s)
    ensures EngineInv(Apply(g, s))
  {
    match s
    case MatchPrefix(e, rid, matchable) =>
      MatchStep(g.nodes[e], rid, matchable);
      PutInv(g, e, AfterMatch(g.nodes[e], rid, matchable));
    case AllocateBlocks(e, w) =>
      AllocateStep(g.nodes[e], w);
      PutInv(g, e, AfterAllocate(g.nodes[e], w));
    case CommitWork(e, wid) =>
      CommitStep(g.nodes[e], wid);
      PutInv(g, e, AfterCommit(g.nodes[e], wid));
    case RollbackWork(e, wid) =>
      RollbackStep(g.nodes[e], wid);
      PutInv(g, e, AfterRollback(g.nodes[e], wid));
    case FreeBlocks(e, rid) =>
      FreeStep(g.nodes[e], rid);
      PutInv(g, e, AfterFree(g.nodes[e], rid));
    case PrepareTransfer(t, src, dst, hashes) => PrepareInv(g, t, src, dst, hashes);
    case CommitTransfer(t) => CommitPlanInv(g, t);
    case RollbackTransfer(t) => RollbackPlanInv(g, t);
  }

  // ---------------------------------------------------------------- runs

  /** Each step is taken when it is enabled. */
  ghost predicate Legal(g: Registry, steps: seq<Step>)
    requires EngineInv(g)
    decreases |steps|
  {
    steps == [] ||
    (Enabled(g, steps[0]) &&
     (ApplyInv(g, steps[0]); Legal(Apply(g, steps[0]), steps[1..])))
  }

  ghost function After(g: Registry, steps: seq<Step>): (h: Registry)
    requires EngineInv(g) && Legal(g, steps)
    ensures EngineInv(h)
    decreases |steps|
  {
    if steps == [] then g
    else
      ApplyInv(g, steps[0]);
      After(Apply(g, steps[0]), steps[1..])
  }

  lemma Continued(g: Registry, s: Step, rest: seq<Step>)
    requires EngineInv(g) && Enabled(g, s) && (ApplyInv(g, s); Legal(Apply(g, s), rest))
    ensures Legal(g, [s] + rest) && After(g, [s] + rest) == (ApplyInv(g, s); After(Apply(g, s), rest))
  {
    ApplyInv(g, s);
    assert ([s] + rest)[1..] == rest;
  }

  lemma StepBefore(g: Registry, s: Step, h: Registry, rest: seq<Step>)
    requires EngineInv(g) && Enabled(g, s) && h == Apply(g, s) && EngineInv(h) && Legal(h, rest)
    ensures Legal(g, [s] + rest) && After(g, [s] + rest) == After(h, rest)
  {
    Continued(g, s, rest);
  }

  lemma FirstStep(g: Registry, steps: seq<Step>) returns (h: Registry)
    requires EngineInv(g) && Legal(g, steps) && steps != []
    ensures Enabled(g, steps[0]) && h == Apply(g, steps[0]) && EngineInv(h) && Legal(h, steps[1..]) && After(g, steps) == After(h, steps[1..])
  {
    ApplyInv(g, steps[0]);
    h := Apply(g, steps[0]);
  }

  /** newManager for every executor: all blocks free, nothing pending. */
  ghost predicate IsInitial(g: Registry) {
    && g.transfers == map[]
    && (forall e :: e in g.nodes ==> exists bs: nat, k: nat ::
          bs > 0 && g.nodes[e] == Node(Initial(bs, k), map[], map[], map[]))
  }

  lemma InitialEngine(g: Registry)
    requires IsInitial(g)
    ensures EngineInv(g)
  {
    forall e | e in g.nodes
      ensures Sound(g.nodes[e])
    {
      var bs: nat, k: nat :| bs > 0 && g.nodes[e] == Node(Initial(bs, k), map[], map[], map[]);
      InitialSound(bs, k);
    }
  }

  // ---------------------------------------------------------------- conservation

  /** The ids of the blocks that someone refers to. */
  function Referenced(s: State): set<nat> {
    set b: nat | b < |s.blocks| && s.blocks[b].refs > 0
  }

  function Elements(xs: seq<nat>): set<nat> {
    set x | x in xs
  }

  /** The block ids of a pool of n blocks. */
  function Ids(n: nat): (ids: set<nat>)
    ensures forall b: nat :: b in ids <==> b < n
  {
    if n == 0 then {} else Ids(n - 1) + {n - 1}
  }

  lemma {:induction false} DistinctSize(xs: seq<nat>)
    requires Distinct(xs)
    ensures |Elements(xs)| == |xs|
  {
    if xs != [] {
      var n := |xs| - 1;
      DistinctSize(xs[..n]);
      assert xs == xs[..n] + [xs[n]];
      assert Elements(xs) == Elements(xs[..n]) + {xs[n]};
      assert xs[n] !in Elements(xs[..n]);
    }
  }

  lemma {:induction false} IdsSize(n: nat)
    ensures |Ids(n)| == n
  {
    if n > 0 {
      IdsSize(n - 1);
      assert Ids(n) == Ids(n - 1) + {n - 1};
    }
  }

  /** freeCount plus the number of referenced blocks is the pool size. */
  lemma FreePlusReferenced(s: State)
    requires Bounded(s) && Queued(s)
    ensures |s.free| + |Referenced(s)| == |s.blocks|
  {
    DistinctSize(s.free);
    IdsSize(|s.blocks|);
    var free, used := Elements(s.free), Referenced(s);
    assert free + used == Ids(|s.blocks|);
    assert free * used == {};
    assert |free + used| == |free| + |used|;
  }

  /**
   * Reference counts are conserved over every run: a block's count is the number of its occurrences
   * in request tables, pins and reservations; it is in the free queue exactly when that is zero; and
   * the free queue and the referenced blocks make up the pool.
   */
  lemma RunConservesReferences(g: Registry, steps: seq<Step>, e: ExecutorId)
    requires EngineInv(g) && Legal(g, steps) && e in g.nodes
    ensures e in After(g, steps).nodes
    ensures var n := After(g, steps).nodes[e];
      && (forall b :: 0 <= b < |n.s.blocks| ==>
            n.s.blocks[b].refs == Bag(n.s.tables)[b] + Bag(n.pinned)[b] + Bag(n.reserved)[b])
      && (forall b :: 0 <= b < |n.s.blocks| ==> (b in n.s.free <==> n.s.blocks[b].refs == 0))
      && |n.s.free| + |Referenced(n.s)| == |n.s.blocks|
  {
    SameExecutors(g, steps);
    var n := After(g, steps).nodes[e];
    SoundIsInv(n);
    FreePlusReferenced(n.s);
  }

  lemma ApplyExecutors(g: Registry, s: Step)
    requires EngineInv(g) && Enabled(g, s)
    ensures Apply(g, s).nodes.Keys == g.nodes.Keys
  {
    match s
    case CommitTransfer(t) =>
      if t in g.transfers { assert PlanOk(g.nodes, t, g.transfers[t]); }
    case RollbackTransfer(t) =>
      if t in g.transfers { assert PlanOk(g.nodes, t, g.transfers[t]); }
    case _ =>
  }

  lemma {:induction false} SameExecutors(g: Registry, steps: seq<Step>)
    requires EngineInv(g) && Legal(g, steps)
    ensures After(g, steps).nodes.Keys == g.nodes.Keys
    decreases |steps|
  {
    if steps != [] {
      ApplyExecutors(g, steps[0]);
      ApplyInv(g, steps[0]);
      SameExecutors(Apply(g, steps[0]), steps[1..]);
    }
  }

  lemma {:induction false} EmptyBag<K>(m: map<K, seq<nat>>)
    requires forall k :: k in m ==> m[k] == []
    ensures Bag(m) == multiset{}
    decreases |m|
  {
    if m != map[] {
      var k :| k in m;
      BagRemove(m, k);
      EmptyBag(m - {k});
    }
  }

  /** Once all requests and transfers have ended every block is free again. */
  lemma NothingLeaks(g: Registry, e: ExecutorId)
    requires EngineInv(g) && e in g.nodes
    requires g.transfers == map[]
    requires forall r :: r in g.nodes[e].s.tables ==> g.nodes[e].s.tables[r] == []
    ensures var s := g.nodes[e].s;
      && |s.free| == |s.blocks|
      && (forall b :: 0 <= b < |s.blocks| ==> b in s.free && s.blocks[b].refs == 0)
  {
    var n := g.nodes[e];
    SoundIsInv(n);
    EmptyBag(n.s.tables);
    assert n.pinned == map[] && n.reserved == map[];
    FreePlusReferenced(n.s);
    assert Referenced(n.s) == {};
  }

  /** A repeated FreeRequest changes nothing. */
  lemma FreeTwice(n: Node, rid: RequestId) returns (m: Node)
    requires Sound(n)
    ensures m == AfterFree(n, rid) && Sound(m) && AfterFree(m, rid).s == m.s
  {
    FreeStep(n, rid);
    m := AfterFree(n, rid);
    SoundIsInv(n);
    FreeIsDrop(n, rid);
    DropFrame(n, rid, 0, OthersPending(n.s, rid));
    FreeAbsent(m, rid);
  }

  lemma FreeAbsent(n: Node, rid: RequestId)
    requires Sound(n) && rid !in n.s.tables && forall w :: w in n.s.pending ==> n.s.pending[w].requestId != rid
    ensures AfterFree(n, rid).s == n.s
  {
    assert n.s.tables - {rid} == n.s.tables;
    assert (map w | w in n.s.pending && n.s.pending[w].requestId != rid :: n.s.pending[w]) == n.s.pending;
  }

  /** A late Commit or Rollback, and a repeated FreeRequest, change nothing. */
  lemma LateOperationsDoNothing(n: Node, wid: WorkId, rid: RequestId)
    requires Sound(n)
    ensures wid !in n.s.pending ==> AfterCommit(n, wid) == n && AfterRollback(n, wid) == n
    ensures (FreeStep(n, rid); AfterFree(AfterFree(n, rid), rid).s == AfterFree(n, rid).s)
  {
    var _ := FreeTwice(n, rid);
  }

  // ---------------------------------------------------------------- the cache index

  /**
   * The index and the block metadata are inverse in every reachable state, and published blocks are full.
   */
  lemma IndexIsInverse(g: Registry, e: ExecutorId, h: Hash, b: nat)
    requires EngineInv(g) && e in g.nodes && b < |g.nodes[e].s.blocks|
    ensures var s := g.nodes[e].s;
      && ((h in s.index && s.index[h] == b) <==> (s.blocks[b].cached && s.blocks[b].hash == h))
      && (s.blocks[b].cached ==> s.blocks[b].tokens == s.blockSize)
  {
    SoundIsInv(g.nodes[e]);
  }

  // ---------------------------------------------------------------- pins hold for the whole transaction

  /** The steps that end transfer t. */
  predicate Ends(s: Step, t: TransferId) {
    s == CommitTransfer(t) || s == RollbackTransfer(t)
  }

  /** Reserved destination blocks are distinct, unpublished, and in no request's table. */
  lemma ReservationIsPrivate(n: Node, t: TransferId)
    requires Sound(n) && t in n.reserved
    ensures Distinct(n.reserved[t])
    ensures forall h :: h in n.s.index ==> n.s.index[h] !in n.reserved[t]
    ensures forall r, k :: r in n.s.tables && 0 <= k < |n.s.tables[r]| ==> n.s.tables[r][k] !in n.reserved[t]
  {
    SoundIsInv(n);
    ReservationIsExclusive(n, t);
    forall r, k | r in n.s.tables && 0 <= k < |n.s.tables[r]|
      ensures n.s.tables[r][k] !in n.reserved[t]
    {
      TableNotReserved(n, r, k, t);
    }
    forall h | h in n.s.index
      ensures n.s.index[h] !in n.reserved[t]
    {
      assert n.s.blocks[n.s.index[h]].cached;
    }
  }

  lemma PutUnchanged(g: Registry, e: ExecutorId, m: Node, t: TransferId)
    requires t in g.transfers
    ensures t in Put(g, e, m).transfers && Put(g, e, m).transfers[t] == g.transfers[t]
  {
  }

  lemma PrepareUnchanged(g: Registry, t: TransferId, u: TransferId, src: ExecutorId, dst: ExecutorId, hashes: seq<Hash>)
    requires EngineInv(g) && t in g.transfers
    ensures t in Prepare(g, u, src, dst, hashes).transfers && Prepare(g, u, src, dst, hashes).transfers[t] == g.transfers[t]
  {
    if MayPin(g, u, src, dst, hashes) {
      NotYetAttributed(g, u, src);
      PinStep(g.nodes[src], u, hashes);
    }
  }

  lemma SettledUnchanged(g: Registry, t: TransferId, u: TransferId, m: Node, d: Node)
    requires t in g.transfers && u in g.transfers && u != t
    ensures t in Settled(g, u, m, d).transfers && Settled(g, u, m, d).transfers[t] == g.transfers[t]
  {
  }

  /** No step but its own commit or rollback touches a pending transfer. */
  lemma PlanUnchanged(g: Registry, s: Step, t: TransferId)
    requires EngineInv(g) && Enabled(g, s) && t in g.transfers && !Ends(s, t)
    ensures t in Apply(g, s).transfers && Apply(g, s).transfers[t] == g.transfers[t]
  {
    match s
    case MatchPrefix(e, rid, hs) => PutUnchanged(g, e, AfterMatch(g.nodes[e], rid, hs), t);
    case AllocateBlocks(e, w) => PutUnchanged(g, e, AfterAllocate(g.nodes[e], w), t);
    case CommitWork(e, wid) => PutUnchanged(g, e, AfterCommit(g.nodes[e], wid), t);
    case RollbackWork(e, wid) => PutUnchanged(g, e, AfterRollback(g.nodes[e], wid), t);
    case FreeBlocks(e, rid) => PutUnchanged(g, e, AfterFree(g.nodes[e], rid), t);
    case PrepareTransfer(u, src, dst, hs) => PrepareUnchanged(g, t, u, src, dst, hs);
    case CommitTransfer(u) => CommitUnchanged(g, t, u);
    case RollbackTransfer(u) => RollbackUnchanged(g, t, u);
  }

  lemma CommitUnchanged(g: Registry, t: TransferId, u: TransferId)
    requires EngineInv(g) && t in g.transfers && u != t
    ensures t in CommitPlan(g, u).transfers && CommitPlan(g, u).transfers[t] == g.transfers[t]
  {
    if u in g.transfers {
      var p := g.transfers[u];
      assert PlanOk(g.nodes, u, p);
      SettledUnchanged(g, t, u, AfterUnpin(g.nodes[p.src], u), AfterImport(g.nodes[p.dst], u, p.hashes));
    }
  }

  lemma RollbackUnchanged(g: Registry, t: TransferId, u: TransferId)
    requires EngineInv(g) && t in g.transfers && u != t
    ensures t in RollbackPlan(g, u).transfers && RollbackPlan(g, u).transfers[t] == g.transfers[t]
  {
    if u in g.transfers {
      var p := g.transfers[u];
      assert PlanOk(g.nodes, u, p);
      SettledUnchanged(g, t, u, AfterUnpin(g.nodes[p.src], u), AfterUnreserve(g.nodes[p.dst], u));
    }
  }

  /**
   * From PrepareTransfer to its commit or rollback, whatever other requests and transfers do: each
   * hash of the plan names its planned block at the source, and the reserved blocks stay distinct,
   * unpublished and outside every request table at the destination.
   */
  lemma PinsHold(g: Registry, steps: seq<Step>, t: TransferId)
    requires EngineInv(g) && Legal(g, steps) && t in g.transfers
    requires forall i :: 0 <= i < |steps| ==> !Ends(steps[i], t)
    ensures var h, p := After(g, steps), g.transfers[t];
      && t in h.transfers && h.transfers[t] == p
      && p.src in h.nodes && p.dst in h.nodes && |p.srcIds| == |p.hashes|
      && (forall i :: 0 <= i < |p.hashes| ==>
            p.hashes[i] in h.nodes[p.src].s.index && h.nodes[p.src].s.index[p.hashes[i]] == p.srcIds[i])
      && Distinct(p.dstIds)
      && (forall x :: x in h.nodes[p.dst].s.index ==> h.nodes[p.dst].s.index[x] !in p.dstIds)
      && (forall r, k :: r in h.nodes[p.dst].s.tables && 0 <= k < |h.nodes[p.dst].s.tables[r]| ==>
            h.nodes[p.dst].s.tables[r][k] !in p.dstIds)
  {
    PlanStays(g, steps, t);
    PlanHolds(After(g, steps), t);
  }

  lemma PlanHolds(h: Registry, t: TransferId)
    requires EngineInv(h) && t in h.transfers
    ensures PlanOk(h.nodes, t, h.transfers[t])
    ensures var p := h.transfers[t];
      && Distinct(p.dstIds)
      && (forall x :: x in h.nodes[p.dst].s.index ==> h.nodes[p.dst].s.index[x] !in p.dstIds)
      && (forall r, k :: r in h.nodes[p.dst].s.tables && 0 <= k < |h.nodes[p.dst].s.tables[r]| ==>
            h.nodes[p.dst].s.tables[r][k] !in p.dstIds)
  {
    assert PlanOk(h.nodes, t, h.transfers[t]);
    ReservationIsPrivate(h.nodes[h.transfers[t].dst], t);
  }

  lemma {:induction false} PlanStays(g: Registry, steps: seq<Step>, t: TransferId)
    requires EngineInv(g) && Legal(g, steps) && t in g.transfers
    requires forall i :: 0 <= i < |steps| ==> !Ends(steps[i], t)
    ensures t in After(g, steps).transfers && After(g, steps).transfers[t] == g.transfers[t]
    decreases |steps|
  {
    if steps != [] {
      assert !Ends(steps[0], t);
      PlanUnchanged(g, steps[0], t);
      var h := FirstStep(g, steps);
      PlanStays(h, steps[1..], t);
    }
  }

  // ---------------------------------------------------------------- all or nothing

  /**
   * CommitTransfer of a pending plan never fails, keeps every published hash of the destination where
   * it was, and leaves every hash of the plan matchable there.
   */
  lemma CommitPublishesAll(g: Registry, t: TransferId)
    requires EngineInv(g) && t in g.transfers
    ensures var p, h := g.transfers[t], CommitPlan(g, t);
      && p.src in g.nodes && p.dst in g.nodes && p.dst in h.nodes
      && CanImport(g.nodes[p.dst].s, p.dstIds, p.hashes)
      && (forall x :: x in g.nodes[p.dst].s.index ==>
            x in h.nodes[p.dst].s.index && h.nodes[p.dst].s.index[x] == g.nodes[p.dst].s.index[x])
      && (forall i :: 0 <= i < |p.hashes| ==> Transferable(h.nodes[p.dst].s, p.hashes[i]))
  {
    var p := g.transfers[t];
    assert PlanOk(g.nodes, t, p);
    ImportStep(g.nodes[p.dst], t, p.hashes);
    PublishedIsTransferable(AfterImport(g.nodes[p.dst], t, p.hashes), p.hashes);
  }

  lemma PublishedIsTransferable(n: Node, hashes: seq<Hash>)
    requires Sound(n) && forall i :: 0 <= i < |hashes| ==> hashes[i] in n.s.index
    ensures forall i :: 0 <= i < |hashes| ==> Transferable(n.s, hashes[i])
  {
    SoundIsInv(n);
  }

  /** Same reference counts and tables, as many free blocks, and nothing was published; the order of the free queue may differ. */
  ghost predicate Restored(s: State, t: State) {
    && |t.blocks| == |s.blocks| && t.tables == s.tables && t.pending == s.pending
    && (forall b :: 0 <= b < |s.blocks| ==> t.blocks[b].refs == s.blocks[b].refs)
    && |t.free| == |s.free|
    && (forall h :: h in t.index ==> h in s.index && t.index[h] == s.index[h])
  }

  lemma SameRefsSameFree(s: State, t: State)
    requires Bounded(s) && Queued(s) && Bounded(t) && Queued(t) && |t.blocks| == |s.blocks|
    requires forall b :: 0 <= b < |s.blocks| ==> t.blocks[b].refs == s.blocks[b].refs
    ensures |t.free| == |s.free|
  {
    FreePlusReferenced(s);
    FreePlusReferenced(t);
    assert Referenced(s) == Referenced(t);
  }

  lemma PinUnpinRestores(n: Node, t: TransferId, hashes: seq<Hash>)
    requires Sound(n) && CanPin(n.s, hashes) && t !in n.pinned
    requires Sound(NPin(n, t, hashes))
    ensures Restored(n.s, AfterUnpin(NPin(n, t, hashes), t).s)
    ensures AfterUnpin(NPin(n, t, hashes), t).s.index == n.s.index
  {
    var m := NPin(n, t, hashes);
    SoundIsInv(n);
    PinFrame(n, t, hashes);
    SoundIsInv(m);
    UnpinRefs(m, t);
    SameRefsSameFree(n.s, AfterUnpin(m, t).s);
  }

  lemma UnpinRefs(m: Node, t: TransferId)
    requires Inv(m) && t in m.pinned
    ensures var k := NUnpin(m, t); SameButRefs(m.s, k.s) && Queued(k.s) && Bounded(k.s)
    ensures forall b :: 0 <= b < |m.s.blocks| ==> NUnpin(m, t).s.blocks[b].refs == m.s.blocks[b].refs - multiset(m.pinned[t])[b]
  {
    UnpinFrame(m, t);
    BagRemove(m.pinned, t);
    forall b | 0 <= b < |m.s.blocks|
      ensures multiset(m.pinned[t])[b] <= m.s.blocks[b].refs
    {
      assert m.s.blocks[b].refs == Holders(m)[b];
    }
    PushAllEffect(m.s, m.pinned[t]);
  }

  lemma ReserveUnreserveRestores(n: Node, t: TransferId, k: nat)
    requires Sound(n) && k <= |n.s.free| && t !in n.reserved
    requires Sound(NReserve(n, t, k))
    ensures Restored(n.s, AfterUnreserve(NReserve(n, t, k), t).s)
  {
    var m := NReserve(n, t, k);
    SoundIsInv(n);
    PopEffect(n.s, k);
    SoundIsInv(m);
    UnreserveRefs(m, t);
    SameRefsSameFree(n.s, AfterUnreserve(m, t).s);
  }

  lemma UnreserveRefs(m: Node, t: TransferId)
    requires Inv(m) && t in m.reserved
    ensures var k := NUnreserve(m, t); SameButRefs(m.s, k.s) && Queued(k.s) && Bounded(k.s)
    ensures forall b :: 0 <= b < |m.s.blocks| ==>
      NUnreserve(m, t).s.blocks[b].refs == m.s.blocks[b].refs - multiset(m.reserved[t])[b]
  {
    UnreserveFrame(m, t);
    BagRemove(m.reserved, t);
    forall b | 0 <= b < |m.s.blocks|
      ensures multiset(m.reserved[t])[b] <= m.s.blocks[b].refs
    {
      assert m.s.blocks[b].refs == Holders(m)[b];
    }
    PushAllEffect(m.s, m.reserved[t]);
  }

  lemma TwoRestored(g: Registry, src: ExecutorId, a: Node, dst: ExecutorId, b: Node, e: ExecutorId)
    requires e in g.nodes && src in g.nodes && dst in g.nodes
    requires Restored(g.nodes[src].s, a.s) && Restored(g.nodes[dst].s, b.s)
    ensures Restored(g.nodes[e].s, g.nodes[src := a][dst := b][e].s)
    ensures Restored(g.nodes[e].s, g.nodes[src := a][e].s)
  {
  }

  /** A Prepare that fails restores counts, tables, the cache index and the number of free blocks everywhere. */
  lemma FailedPrepareRestores(g: Registry, t: TransferId, src: ExecutorId, dst: ExecutorId, hashes: seq<Hash>, e: ExecutorId)
    requires EngineInv(g) && e in g.nodes && !MayPrepare(g, t, src, dst, hashes)
    ensures var h := Prepare(g, t, src, dst, hashes);
      h.transfers == g.transfers && e in h.nodes && Restored(g.nodes[e].s, h.nodes[e].s) && h.nodes[e].s.index == g.nodes[e].s.index
  {
    if MayPin(g, t, src, dst, hashes) {
      NotYetAttributed(g, t, src);
      PinStep(g.nodes[src], t, hashes);
      PinUnpinRestores(g.nodes[src], t, hashes);
      UnpinStep(NPin(g.nodes[src], t, hashes), t);
      var a := AfterUnpin(NPin(g.nodes[src], t, hashes), t);
      assert Prepare(g, t, src, dst, hashes) == Put(g, src, a);
    }
  }

  /** So does a Prepare followed by its Rollback; neither publishes anything. */
  lemma RolledBackPrepareRestores(g: Registry, t: TransferId, src: ExecutorId, dst: ExecutorId, hashes: seq<Hash>, e: ExecutorId)
    requires EngineInv(g) && e in g.nodes && MayPrepare(g, t, src, dst, hashes)
    ensures EngineInv(Prepare(g, t, src, dst, hashes))
    ensures var h := RollbackPlan(Prepare(g, t, src, dst, hashes), t);
      h.transfers == g.transfers && e in h.nodes && Restored(g.nodes[e].s, h.nodes[e].s)
  {
    NotYetAttributed(g, t, src);
    NotYetAttributed(g, t, dst);
    PinStep(g.nodes[src], t, hashes);
    PinUnpinRestores(g.nodes[src], t, hashes);
    ReserveStep(g.nodes[dst], t, |hashes|);
    ReserveUnreserveRestores(g.nodes[dst], t, |hashes|);
    PrepareInv(g, t, src, dst, hashes);
    PrepareThenRollback(g, t, src, dst, hashes);
    TwoRestored(g, src, AfterUnpin(NPin(g.nodes[src], t, hashes), t),
                dst, AfterUnreserve(NReserve(g.nodes[dst], t, |hashes|), t), e);
  }

  /** Only the blocks that were reserved at the destination have lost their hashes; every other index is as before. */
  lemma RolledBackPrepareEvicts(g: Registry, t: TransferId, src: ExecutorId, dst: ExecutorId, hashes: seq<Hash>, e: ExecutorId)
    requires EngineInv(g) && e in g.nodes && MayPrepare(g, t, src, dst, hashes)
    ensures EngineInv(Prepare(g, t, src, dst, hashes))
    ensures var s, h := g.nodes[e].s, RollbackPlan(Prepare(g, t, src, dst, hashes), t);
      && e in h.nodes
      && h.nodes[e].s.index == if e == dst then s.index - Evicted(s.blocks, s.free[..|hashes|]) else s.index
  {
    NotYetAttributed(g, t, src);
    NotYetAttributed(g, t, dst);
    PinStep(g.nodes[src], t, hashes);
    ReserveStep(g.nodes[dst], t, |hashes|);
    UnpinStep(NPin(g.nodes[src], t, hashes), t);
    UnreserveStep(NReserve(g.nodes[dst], t, |hashes|), t);
    PrepareInv(g, t, src, dst, hashes);
    PrepareThenRollback(g, t, src, dst, hashes);
  }

  lemma StartedThenSettled(g: Registry, t: TransferId, src: ExecutorId, m: Node, dst: ExecutorId, d: Node, hashes: seq<Hash>, a: Node, b: Node)
    requires src != dst && t !in g.transfers && t in m.pinned && t in d.reserved
    ensures Settled(Started(g, t, src, m, dst, d, hashes), t, a, b) == Registry(g.nodes[src := a][dst := b], g.transfers)
  {
    assert g.transfers[t := Plan(src, m.pinned[t], dst, d.reserved[t], hashes)] - {t} == g.transfers;
    assert g.nodes[src := m][dst := d][src := a][dst := b] == g.nodes[src := a][dst := b];
  }

  lemma StartedNodes(g: Registry, t: TransferId, src: ExecutorId, m: Node, dst: ExecutorId, d: Node, hashes: seq<Hash>) returns (h: Registry)
    requires src != dst && t in m.pinned && t in d.reserved
    ensures h == Started(g, t, src, m, dst, d, hashes)
    ensures t in h.transfers && h.transfers[t].src == src && h.transfers[t].dst == dst
    ensures src in h.nodes && dst in h.nodes && h.nodes[src] == m && h.nodes[dst] == d
  {
    h := Started(g, t, src, m, dst, d, hashes);
  }

  lemma PrepareThenRollback(g: Registry, t: TransferId, src: ExecutorId, dst: ExecutorId, hashes: seq<Hash>)
    requires EngineInv(g) && MayPrepare(g, t, src, dst, hashes) && EngineInv(Prepare(g, t, src, dst, hashes))
    requires Sound(NPin(g.nodes[src], t, hashes)) && Sound(NReserve(g.nodes[dst], t, |hashes|))
    ensures RollbackPlan(Prepare(g, t, src, dst, hashes), t) ==
      Registry(g.nodes[src := AfterUnpin(NPin(g.nodes[src], t, hashes), t)]
                      [dst := AfterUnreserve(NReserve(g.nodes[dst], t, |hashes|), t)],
               g.transfers)
  {
    var m, d := NPin(g.nodes[src], t, hashes), NReserve(g.nodes[dst], t, |hashes|);
    var h := StartedNodes(g, t, src, m, dst, d, hashes);
    assert Prepare(g, t, src, dst, hashes) == h;
    StartedThenSettled(g, t, src, m, dst, d, hashes, AfterUnpin(m, t), AfterUnreserve(d, t));
  }
}

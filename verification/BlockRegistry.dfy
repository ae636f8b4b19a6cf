/**
 The registry: the block manager of every executor, and the transfers between them that are pending.
 `states` is the metadata that the managers hold (BlockManager.Manager.Model).
 */
module BlockRegistry {
  import opened Hashing
  import opened Wrappers
  import opened BlockSpec
  import opened BlockInv
  import opened RequestInv
  import opened TransferInv
  import opened NodeSteps
  import opened Engine
  import opened EngineRuns
  import opened BlockManager
  import opened Managers

  /** What an executor reports of itself. */
  datatype Runtime = Runtime(executorId: ExecutorId, blockSize: nat, numBlocks: nat)

  datatype RegistryError =
    | NoExecutors
    | NoRuntime
    | IdMismatch
    | BadRuntime
    | UnknownExecutor(e: ExecutorId)
    | NoTransferId
    | SameExecutor
    | NoHashes
    | BlockSizesDiffer
    | TransferExists
    | NotPinned
    | TooFewFree
    | UnknownTransfer
    | NotImported

  /** The checks of NewRegistry and newManager for one executor, in order. */
  function RuntimeError(e: ExecutorId, r: Option<Runtime>): Option<RegistryError> {
    if r.None? then Some(NoRuntime)
    else if r.value.executorId != e then Some(IdMismatch)
    else if r.value.executorId.name == "" || r.value.blockSize == 0 || r.value.numBlocks == 0 then Some(BadRuntime)
    else None
  }

  /** A usable runtime has the executor's own, nonempty id and blocks that hold tokens. */
  lemma UsableRuntime(e: ExecutorId, r: Option<Runtime>)
    ensures RuntimeError(e, r).None? <==>
      r.Some? && r.value.executorId == e && e.name != "" && r.value.blockSize > 0 && r.value.numBlocks > 0
  {
  }

  /** A plan names blocks of two different executors. */
  ghost predicate PlanFits(states: map<ExecutorId, State>, p: Plan) {
    && p.src in states && p.dst in states && p.src != p.dst
    && InRange(p.srcIds, |states[p.src].blocks|) && InRange(p.dstIds, |states[p.dst].blocks|)
  }

  ghost predicate PlansFit(states: map<ExecutorId, State>, plans: map<TransferId, Plan>) {
    forall t :: t in plans ==> PlanFits(states, plans[t])
  }

  ghost predicate FitBehind(states: map<ExecutorId, State>, plans: map<TransferId, Plan>, depth: nat) {
    if depth == 0 then PlansFit(states, plans) else FitBehind(states, plans, depth - 1)
  }

  /** PlansFit, hidden as NodeSteps.Sound is. */
  ghost predicate Planned(states: map<ExecutorId, State>, plans: map<TransferId, Plan>) {
    FitBehind(states, plans, |plans| + 1)
  }

  lemma {:induction false} FitBehindIs(states: map<ExecutorId, State>, plans: map<TransferId, Plan>, depth: nat)
    ensures FitBehind(states, plans, depth) <==> PlansFit(states, plans)
  {
    if depth > 0 {
      FitBehindIs(states, plans, depth - 1);
    }
  }

  lemma PlannedIs(states: map<ExecutorId, State>, plans: map<TransferId, Plan>)
    ensures Planned(states, plans) <==> PlansFit(states, plans)
  {
    FitBehindIs(states, plans, |plans| + 1);
  }

  /** Plans fit as long as the executors have as many blocks. */
  lemma PlannedAfter(states: map<ExecutorId, State>, next: map<ExecutorId, State>, plans: map<TransferId, Plan>)
    requires Planned(states, plans) && next.Keys == states.Keys
    requires forall e :: e in states ==> |next[e].blocks| == |states[e].blocks|
    ensures Planned(next, plans)
  {
    PlannedIs(states, plans);
    PlannedIs(next, plans);
  }

  lemma PlannedMore(states: map<ExecutorId, State>, plans: map<TransferId, Plan>, t: TransferId, p: Plan)
    requires Planned(states, plans) && PlanFits(states, p)
    ensures Planned(states, plans[t := p])
  {
    PlannedIs(states, plans);
    PlannedIs(states, plans[t := p]);
  }

  lemma PlannedLess(states: map<ExecutorId, State>, plans: map<TransferId, Plan>, t: TransferId)
    requires Planned(states, plans)
    ensures Planned(states, plans - {t}) && (t in plans ==> PlanFits(states, plans[t]))
  {
    PlannedIs(states, plans);
    PlannedIs(states, plans - {t});
  }

  /** The destination's reservation for transfer t can be imported. */
  ghost predicate Importable(states: map<ExecutorId, State>, plans: map<TransferId, Plan>, t: TransferId)
    requires Planned(states, plans) && t in plans
  {
    PlannedLess(states, plans, t);
    CanImport(states[plans[t].dst], plans[t].dstIds, plans[t].hashes)
  }

  /** The hashes of t are published at the destination and the source is unpinned. */
  ghost function TransferCommitted(states: map<ExecutorId, State>, plans: map<TransferId, Plan>, t: TransferId): map<ExecutorId, State>
    requires Planned(states, plans) && t in plans && Importable(states, plans, t)
  {
    PlannedLess(states, plans, t);
    var p := plans[t];
    states[p.dst := ImportAll(states[p.dst], p.dstIds, p.hashes, |p.dstIds|)][p.src := PushAll(states[p.src], p.srcIds)]
  }

  /** The blocks of t are given back on both sides. */
  ghost function TransferRolledBack(states: map<ExecutorId, State>, plans: map<TransferId, Plan>, t: TransferId): map<ExecutorId, State>
    requires Planned(states, plans) && t in plans
  {
    PlannedLess(states, plans, t);
    var p := plans[t];
    states[p.dst := PushAll(states[p.dst], p.dstIds)][p.src := PushAll(states[p.src], p.srcIds)]
  }

  class Registry {
    const sha: Str -> Str
    const executorIds: seq<ExecutorId>
    const managers: Fleet
    var pendingTransfers: map<TransferId, Plan>

    ghost var states: map<ExecutorId, State>

    constructor (sha: Str -> Str, executorIds: seq<ExecutorId>, managers: Fleet, ghost states: map<ExecutorId, State>)
      requires AllMirror(managers, states)
      requires forall e :: e in managers ==> managers[e].executorId == e && managers[e].sha == sha
      requires forall i :: 0 <= i < |executorIds| ==> executorIds[i] in managers
      ensures Valid()
      ensures this.sha == sha && this.executorIds == executorIds && this.managers == managers && this.states == states && pendingTransfers == map[]
    {
      this.sha, this.executorIds, this.managers, this.states, pendingTransfers := sha, executorIds, managers, states, map[];
      new;
      OwnIs(|executorIds| + 1);
      PlannedIs(states, map[]);
    }

    ghost predicate OwnBehind(depth: nat) {
      if depth == 0 then
        && (forall e :: e in managers ==> managers[e].executorId == e && managers[e].sha == sha)
        && (forall i :: 0 <= i < |executorIds| ==> executorIds[i] in managers)
      else OwnBehind(depth - 1)
    }

    /** The managers are the executors' own; hidden as NodeSteps.Sound is. */
    ghost predicate Own() {
      this !in Footprint(managers) && OwnBehind(|executorIds| + 1)
    }

    lemma {:induction false} OwnIs(depth: nat)
      ensures OwnBehind(depth) <==>
        && (forall e :: e in managers ==> managers[e].executorId == e && managers[e].sha == sha)
        && (forall i :: 0 <= i < |executorIds| ==> executorIds[i] in managers)
    {
      if depth > 0 {
        OwnIs(depth - 1);
      }
    }

    ghost predicate Valid()
      reads this, Footprint(managers)
    {
      Own() && AllMirror(managers, states) && Planned(states, pendingTransfers)
    }

    lemma BoundedAt(e: ExecutorId)
      requires Valid() && e in states
      ensures Bounded(states[e]) && states[e].blockSize == managers[e].blockSize > 0
    {
      AllMirrorIs(managers, states);
      MirrorsIs(managers[e], states[e]);
    }

    /** The manager of e has the metadata `s` now. */
    ghost method Note(e: ExecutorId, s: State)
      requires Own() && e in states && |s.blocks| == |states[e].blocks| && AllMirror(managers, states[e := s])
      requires Planned(states, pendingTransfers)
      modifies this`states
      ensures Valid() && states == old(states)[e := s]
    {
      PlannedAfter(states, states[e := s], pendingTransfers);
      states := states[e := s];
    }

    /** The managers of src and dst have the metadata that `next` says. */
    ghost method NoteBoth(src: ExecutorId, dst: ExecutorId, next: map<ExecutorId, State>)
      requires Own() && AllMirror(managers, next) && src in states && dst in states && src in next && dst in next
      requires |next[src].blocks| == |states[src].blocks| && |next[dst].blocks| == |states[dst].blocks|
      requires next == states[src := next[src]][dst := next[dst]]
      requires Planned(states, pendingTransfers)
      modifies this`states
      ensures Valid() && states == next
    {
      PlannedAfter(states, next, pendingTransfers);
      states := next;
    }

    method Forget(t: TransferId)
      requires Valid()
      modifies this`pendingTransfers
      ensures Valid() && pendingTransfers == old(pendingTransfers) - {t}
    {
      PlannedLess(states, pendingTransfers, t);
      pendingTransfers := pendingTransfers - {t};
    }

    // -------------------------------------------------------------- requests

    method ProbePrefixes(salt: Str, tokens: seq<Token>) returns (candidates: seq<Candidate>)
      requires Valid()
      ensures |candidates| == |executorIds|
      ensures forall i :: 0 <= i < |candidates| ==> Probed(executorIds[i], salt, tokens, candidates[i])
    {
      OwnIs(|executorIds| + 1);
      candidates := [];
      for i := 0 to |executorIds|
        invariant |candidates| == i
        invariant forall k :: 0 <= k < i ==> Probed(executorIds[k], salt, tokens, candidates[k])
      {
        var candidate := ProbeAt(managers, states, executorIds[i], salt, tokens);
        candidates := candidates + [candidate];
      }
    }

    /** The candidate is the run of hashes that could be transferred from e. */
    ghost predicate Probed(e: ExecutorId, salt: Str, tokens: seq<Token>, c: Candidate)
      reads this
    {
      && c.executorId == e && e in states && states[e].blockSize > 0
      && c.matchedHashes == TransferableRun(states[e], Matchable(sha, states[e].blockSize, salt, tokens))
      && c.cachedTokens == |c.matchedHashes| * states[e].blockSize
    }

    method MatchPrefix(e: ExecutorId, rid: RequestId, salt: Str, tokens: seq<Token>) returns (r: Result<PrefixMatch, RegistryError>)
      requires Valid()
      modifies this`states, Footprint(managers)
      ensures Valid() && (r.Ok? <==> e in old(states))
      ensures r.Err? ==> r.error == UnknownExecutor(e) && states == old(states)
      ensures r.Ok? ==>
        && Bounded(old(states)[e])
        && var hashes := Matchable(sha, old(states)[e].blockSize, salt, tokens);
           && states == old(states)[e := Match(old(states)[e], rid, hashes)]
           && r.value.blockIds == Run(old(states)[e].index, hashes)
           && r.value.cachedTokens == |r.value.blockIds| * old(states)[e].blockSize
           && r.value.hashesTotal == BlockHashes(sha, old(states)[e].blockSize, salt, tokens)
    {
      if e !in managers {
        return Err(UnknownExecutor(e));
      }
      BoundedAt(e);
      OwnIs(|executorIds| + 1);
      var m := MatchAt(managers, states, e, rid, salt, tokens);
      Note(e, Match(states[e], rid, Matchable(sha, states[e].blockSize, salt, tokens)));
      return Ok(m);
    }

    method AllocateBlocks(w: Work) returns (r: Result<bool, RegistryError>)
      requires Valid() && (w.executorId in states ==> InRange(w.cacheBlocks, |states[w.executorId].blocks|))
      modifies this`states, Footprint(managers)
      ensures Valid() && (r.Ok? <==> w.executorId in old(states))
      ensures r.Err? ==> r.error == UnknownExecutor(w.executorId) && states == old(states)
      ensures r.Ok? ==>
        && old(states)[w.executorId].blockSize > 0
        && r.value == CanAllocate(old(states)[w.executorId], w)
        && states == old(states)[w.executorId := Allocate(old(states)[w.executorId], w)]
    {
      var e := w.executorId;
      if e !in managers {
        return Err(UnknownExecutor(e));
      }
      BoundedAt(e);
      var ok := AllocateAt(managers, states, e, w);
      Note(e, Allocate(states[e], w));
      return Ok(ok);
    }

    method Commit(e: ExecutorId, workId: WorkId) returns (r: Result<(), RegistryError>)
      requires Valid()
      modifies this`states, Footprint(managers)
      ensures Valid() && (r.Ok? <==> e in old(states))
      ensures r.Err? ==> r.error == UnknownExecutor(e) && states == old(states)
      ensures r.Ok? ==> Bounded(old(states)[e]) && states == old(states)[e := BlockSpec.Commit(old(states)[e], workId)]
    {
      if e !in managers {
        return Err(UnknownExecutor(e));
      }
      BoundedAt(e);
      CommitAt(managers, states, e, workId);
      Note(e, BlockSpec.Commit(states[e], workId));
      return Ok(());
    }

    method Rollback(e: ExecutorId, workId: WorkId) returns (r: Result<(), RegistryError>)
      requires Valid()
      modifies this`states, Footprint(managers)
      ensures Valid() && (r.Ok? <==> e in old(states))
      ensures r.Err? ==> r.error == UnknownExecutor(e) && states == old(states)
      ensures r.Ok? ==> Bounded(old(states)[e]) && states == old(states)[e := BlockSpec.Rollback(old(states)[e], workId)]
    {
      if e !in managers {
        return Err(UnknownExecutor(e));
      }
      BoundedAt(e);
      RollbackAt(managers, states, e, workId);
      Note(e, BlockSpec.Rollback(states[e], workId));
      return Ok(());
    }

    method FreeRequest(e: ExecutorId, rid: RequestId) returns (r: Result<(), RegistryError>)
      requires Valid()
      modifies this`states, Footprint(managers)
      ensures Valid() && (r.Ok? <==> e in old(states))
      ensures r.Err? ==> r.error == UnknownExecutor(e) && states == old(states)
      ensures r.Ok? ==> Bounded(old(states)[e]) && states == old(states)[e := BlockSpec.FreeRequest(old(states)[e], rid)]
    {
      if e !in managers {
        return Err(UnknownExecutor(e));
      }
      BoundedAt(e);
      FreeAt(managers, states, e, rid);
      Note(e, BlockSpec.FreeRequest(states[e], rid));
      return Ok(());
    }

    // -------------------------------------------------------------- transfers

    /** The checks of PrepareTransfer before anything changes. */
    ghost predicate MayBegin(t: TransferId, src: ExecutorId, dst: ExecutorId, hashes: seq<Hash>)
      reads this
    {
      && t.name != "" && src != dst && hashes != [] && src in states && dst in states
      && states[src].blockSize == states[dst].blockSize && t !in pendingTransfers
    }

    method CheckBegin(t: TransferId, src: ExecutorId, dst: ExecutorId, hashes: seq<Hash>) returns (problem: Option<RegistryError>)
      requires Valid()
      ensures problem.None? <==>
        && t.name != "" && t !in pendingTransfers && src != dst && hashes != []
        && src in states && dst in states && states[dst].blockSize == states[src].blockSize
    {
      if t.name == "" {
        return Some(NoTransferId);
      }
      if src == dst {
        return Some(SameExecutor);
      }
      if hashes == [] {
        return Some(NoHashes);
      }
      if src !in managers {
        return Some(UnknownExecutor(src));
      }
      if dst !in managers {
        return Some(UnknownExecutor(dst));
      }
      BoundedAt(src);
      BoundedAt(dst);
      if managers[src].blockSize != managers[dst].blockSize {
        return Some(BlockSizesDiffer);
      }
      if t in pendingTransfers {
        return Some(TransferExists);
      }
      return None;
    }

    /**
     * PrepareTransfer: pin at the source, reserve at the destination. It begins a transfer exactly when both
     * can be done; when only the reservation fails the pins are given back.
     */
    method PrepareTransfer(t: TransferId, src: ExecutorId, dst: ExecutorId, hashes: seq<Hash>) returns (r: Result<Plan, RegistryError>)
      requires Valid()
      modifies this, Footprint(managers)
      ensures Valid()
      ensures r.Ok? <==> old(MayBegin(t, src, dst, hashes)) && CanPin(old(states)[src], hashes) && |hashes| <= |old(states)[dst].free|
      ensures r.Ok? ==>
        && r.value == Plan(src, PinnedIds(old(states)[src], hashes), dst, old(states)[dst].free[..|hashes|], hashes)
        && pendingTransfers == old(pendingTransfers)[t := r.value]
        && states == old(states)[src := Pin(old(states)[src], hashes)][dst := Pop(old(states)[dst], |hashes|)]
      ensures r.Err? ==> pendingTransfers == old(pendingTransfers)
      ensures r.Err? && !(old(MayBegin(t, src, dst, hashes)) && CanPin(old(states)[src], hashes)) ==> states == old(states)
      ensures r.Err? && old(MayBegin(t, src, dst, hashes)) && CanPin(old(states)[src], hashes) ==>
        states == old(states)[src := PushAll(Pin(old(states)[src], hashes), PinnedIds(old(states)[src], hashes))]
    {
      var problem := CheckBegin(t, src, dst, hashes);
      if problem.Some? {
        return Err(problem.value);
      }
      var setup;
      ghost var next;
      setup, next := PinAndReserve(managers, states, src, dst, hashes);
      if setup.NotCached? {
        return Err(NotPinned);
      }
      NoteBoth(src, dst, next);
      if setup.NoRoom? {
        return Err(TooFewFree);
      }
      var plan := Plan(src, setup.srcIds, dst, setup.dstIds, hashes);
      PlannedMore(states, pendingTransfers, t, plan);
      pendingTransfers := pendingTransfers[t := plan];
      return Ok(plan);
    }

    /** CommitTransfer: publish at the destination, then unpin the source. */
    method CommitTransfer(t: TransferId) returns (r: Result<(), RegistryError>)
      requires Valid()
      modifies this, Footprint(managers)
      ensures Valid()
      ensures r.Ok? <==> t in old(pendingTransfers) && Importable(old(states), old(pendingTransfers), t)
      ensures r.Err? ==> pendingTransfers == old(pendingTransfers) && states == old(states)
      ensures r.Ok? ==>
        pendingTransfers == old(pendingTransfers) - {t} && states == TransferCommitted(old(states), old(pendingTransfers), t)
    {
      if t !in pendingTransfers {
        return Err(UnknownTransfer);
      }
      var p := pendingTransfers[t];
      PlannedLess(states, pendingTransfers, t);
      var ok;
      ghost var next;
      ok, next := ImportAndRelease(managers, states, p.src, p.srcIds, p.dst, p.dstIds, p.hashes);
      if !ok {
        return Err(NotImported);
      }
      NoteBoth(p.src, p.dst, next);
      Forget(t);
      return Ok(());
    }

    /** RollbackTransfer: free the reservation, then unpin the source. */
    method RollbackTransfer(t: TransferId) returns (r: Result<(), RegistryError>)
      requires Valid()
      modifies this, Footprint(managers)
      ensures Valid()
      ensures r.Ok? <==> t in old(pendingTransfers)
      ensures r.Err? ==> r.error == UnknownTransfer && pendingTransfers == old(pendingTransfers) && states == old(states)
      ensures r.Ok? ==>
        pendingTransfers == old(pendingTransfers) - {t} && states == TransferRolledBack(old(states), old(pendingTransfers), t)
    {
      if t !in pendingTransfers {
        return Err(UnknownTransfer);
      }
      var p := pendingTransfers[t];
      PlannedLess(states, pendingTransfers, t);
      ghost var next := ReleaseBoth(managers, states, p.src, p.srcIds, p.dst, p.dstIds);
      NoteBoth(p.src, p.dst, next);
      Forget(t);
      return Ok(());
    }
  }

  /** Managers as newManager makes them of the executors' runtimes. */
  ghost predicate FreshFleet(managers: Fleet, states: map<ExecutorId, State>, sha: Str -> Str, runtimes: map<ExecutorId, Option<Runtime>>) {
    && states.Keys == managers.Keys <= runtimes.Keys
    && (forall e :: e in managers ==> managers[e].executorId == e && managers[e].sha == sha)
    && (forall e :: e in managers ==>
          RuntimeError(e, runtimes[e]).None? && states[e] == Initial(runtimes[e].value.blockSize, runtimes[e].value.numBlocks))
  }

  /** newManager for one executor. */
  method AddManager(managers: Fleet, ghost states: map<ExecutorId, State>, sha: Str -> Str, e: ExecutorId, runtimes: map<ExecutorId, Option<Runtime>>)
      returns (next: Fleet, ghost after: map<ExecutorId, State>)
    requires AllMirror(managers, states) && FreshFleet(managers, states, sha, runtimes)
    requires e in runtimes && RuntimeError(e, runtimes[e]).None?
    ensures AllMirror(next, after) && FreshFleet(next, after, sha, runtimes)
    ensures e in next && next == managers[e := next[e]] && fresh(next[e]) && fresh(next[e].blocks)
  {
    next, after := Join(managers, states, e, runtimes[e].value.blockSize, runtimes[e].value.numBlocks, sha);
  }

  ghost predicate Covered(executorIds: seq<ExecutorId>, n: nat, managers: Fleet)
    requires n <= |executorIds|
  {
    forall k :: 0 <= k < n ==> executorIds[k] in managers
  }

  lemma CoversMore(executorIds: seq<ExecutorId>, n: nat, managers: Fleet, next: Fleet)
    requires n < |executorIds| && Covered(executorIds, n, managers) && managers.Keys + {executorIds[n]} <= next.Keys
    ensures Covered(executorIds, n + 1, next)
  {
  }

  /** The loop of NewRegistry. */
  method NewManagers(sha: Str -> Str, executorIds: seq<ExecutorId>, runtimes: map<ExecutorId, Option<Runtime>>)
      returns (problem: Option<RegistryError>, managers: Fleet, ghost states: map<ExecutorId, State>)
    requires forall i :: 0 <= i < |executorIds| ==> executorIds[i] in runtimes
    ensures problem.None? <==> forall i :: 0 <= i < |executorIds| ==> RuntimeError(executorIds[i], runtimes[executorIds[i]]).None?
    ensures problem.Some? ==> exists i :: 0 <= i < |executorIds| && RuntimeError(executorIds[i], runtimes[executorIds[i]]) == problem
    ensures AllMirror(managers, states) && FreshFleet(managers, states, sha, runtimes)
    ensures problem.None? ==> forall i :: 0 <= i < |executorIds| ==> executorIds[i] in managers
    ensures forall e :: e in managers ==> fresh(managers[e]) && fresh(managers[e].blocks)
  {
    managers, states := map[], map[];
    AllMirrorIs(managers, states);
    for i := 0 to |executorIds|
      invariant Covered(executorIds, i, managers)
      invariant AllMirror(managers, states) && FreshFleet(managers, states, sha, runtimes)
      invariant forall e :: e in managers ==> fresh(managers[e]) && fresh(managers[e].blocks)
    {
      var e := executorIds[i];
      problem := RuntimeError(e, runtimes[e]);
      if problem.Some? {
        return;
      }
      ghost var before := managers;
      managers, states := AddManager(managers, states, sha, e, runtimes);
      CoversMore(executorIds, i, before, managers);
    }
    problem := None;
  }

  /** NewRegistry, given the executors' ids in the order it sorts them into. */
  method NewRegistry(sha: Str -> Str, executorIds: seq<ExecutorId>, runtimes: map<ExecutorId, Option<Runtime>>) returns (r: Result<Registry, RegistryError>)
    requires forall e :: e in executorIds <==> e in runtimes
    ensures r.Ok? <==> executorIds != [] && forall e :: e in runtimes ==> RuntimeError(e, runtimes[e]).None?
    ensures r.Err? ==> r.error == NoExecutors || exists i :: 0 <= i < |executorIds| && RuntimeError(executorIds[i], runtimes[executorIds[i]]) == Some(r.error)
    ensures r.Ok? ==> fresh(r.value) && r.value.Valid() && r.value.pendingTransfers == map[] && r.value.executorIds == executorIds
    ensures r.Ok? ==> r.value.managers.Keys == runtimes.Keys && FreshFleet(r.value.managers, r.value.states, sha, runtimes)
  {
    if executorIds == [] {
      return Err(NoExecutors);
    }
    var problem, managers;
    ghost var states;
    problem, managers, states := NewManagers(sha, executorIds, runtimes);
    if problem.Some? {
      return Err(problem.value);
    }
    assert managers.Keys == runtimes.Keys;
    var registry := new Registry(sha, executorIds, managers, states);
    return Ok(registry);
  }

  // ---------------------------------------------------------------- the registry takes the engine's steps

  /** The engine-wide state `g` of EngineRuns whose executors have the metadata `states`. */
  ghost predicate Abstracts(g: Engine.Registry, states: map<ExecutorId, State>, pending: map<TransferId, Plan>) {
    && g.nodes.Keys == states.Keys && g.transfers == pending
    && (forall e :: e in states ==> g.nodes[e].s == states[e])
  }

  lemma OneChanges(g: Engine.Registry, states: map<ExecutorId, State>, pending: map<TransferId, Plan>, e: ExecutorId, m: Node)
    requires Abstracts(g, states, pending) && e in states
    ensures Abstracts(Engine.Put(g, e, m), states[e := m.s], pending)
  {
  }

  /** The operations on one executor are the engine's steps. */
  lemma RequestStepsRefine(g: Engine.Registry, states: map<ExecutorId, State>, pending: map<TransferId, Plan>, s: Step)
    requires EngineInv(g) && Abstracts(g, states, pending) && EngineRuns.Enabled(g, s)
    ensures s.MatchPrefix? ==> Bounded(states[s.e]) && Abstracts(Apply(g, s), states[s.e := Match(states[s.e], s.rid, s.matchable)], pending)
    ensures s.AllocateBlocks? ==> Bounded(states[s.e]) && Abstracts(Apply(g, s), states[s.e := Allocate(states[s.e], s.w)], pending)
    ensures s.CommitWork? ==> Bounded(states[s.e]) && Abstracts(Apply(g, s), states[s.e := Commit(states[s.e], s.wid)], pending)
    ensures s.RollbackWork? ==> Bounded(states[s.e]) && Abstracts(Apply(g, s), states[s.e := Rollback(states[s.e], s.wid)], pending)
    ensures s.FreeBlocks? ==> Bounded(states[s.e]) && Abstracts(Apply(g, s), states[s.e := FreeRequest(states[s.e], s.rid)], pending)
  {
    if s.MatchPrefix? || s.AllocateBlocks? || s.CommitWork? || s.RollbackWork? || s.FreeBlocks? {
      SoundIsInv(g.nodes[s.e]);
      OneChanges(g, states, pending, s.e, Apply(g, s).nodes[s.e]);
    }
  }

  /** PrepareTransfer is the engine's step, in all three outcomes. */
  lemma PrepareRefines(g: Engine.Registry, states: map<ExecutorId, State>, pending: map<TransferId, Plan>,
                       t: TransferId, src: ExecutorId, dst: ExecutorId, hashes: seq<Hash>)
    requires EngineInv(g) && Abstracts(g, states, pending)
    requires t.name != "" && src != dst && hashes != [] && src in states && dst in states && states[src].blockSize == states[dst].blockSize
    requires t !in pending && CanPin(states[src], hashes)
    ensures |hashes| <= |states[dst].free| ==>
      Abstracts(Prepare(g, t, src, dst, hashes),
                states[src := Pin(states[src], hashes)][dst := Pop(states[dst], |hashes|)],
                pending[t := Plan(src, PinnedIds(states[src], hashes), dst, states[dst].free[..|hashes|], hashes)])
    ensures |hashes| > |states[dst].free| ==>
      Abstracts(Prepare(g, t, src, dst, hashes),
                states[src := PushAll(Pin(states[src], hashes), PinnedIds(states[src], hashes))], pending)
  {
    assert MayPin(g, t, src, dst, hashes);
  }

  lemma PlanRanges(g: Engine.Registry, states: map<ExecutorId, State>, pending: map<TransferId, Plan>, t: TransferId) returns (p: Plan)
    requires EngineInv(g) && Abstracts(g, states, pending) && t in pending
    ensures p == pending[t] && PlanOk(g.nodes, t, p) && p.src in states && p.dst in states && Sound(g.nodes[p.src]) && Sound(g.nodes[p.dst])
    ensures InRange(p.srcIds, |states[p.src].blocks|) && InRange(p.dstIds, |states[p.dst].blocks|) && |p.dstIds| == |p.hashes|
  {
    p := pending[t];
    assert PlanOk(g.nodes, t, p);
    PinnedInRange(g.nodes[p.src], t);
    PinnedInRange(g.nodes[p.dst], t);
  }

  lemma TwoChange(g: Engine.Registry, states: map<ExecutorId, State>, pending: map<TransferId, Plan>, t: TransferId, m: Node, d: Node)
    requires Abstracts(g, states, pending) && t in pending && pending[t].src in states && pending[t].dst in states && pending[t].src != pending[t].dst
    ensures Abstracts(Settled(g, t, m, d), states[pending[t].dst := d.s][pending[t].src := m.s], pending - {t})
  {
  }

  /** CommitTransfer always succeeds in a reachable state, and is the engine's step. */
  lemma CommitTransferRefines(g: Engine.Registry, states: map<ExecutorId, State>, pending: map<TransferId, Plan>, t: TransferId) returns (p: Plan)
    requires EngineInv(g) && Abstracts(g, states, pending) && t in pending
    ensures p == pending[t] && p.src in states && p.dst in states && CanImport(states[p.dst], p.dstIds, p.hashes)
    ensures InRange(p.srcIds, |states[p.src].blocks|) && InRange(p.dstIds, |states[p.dst].blocks|)
    ensures Abstracts(CommitPlan(g, t),
                      states[p.dst := ImportAll(states[p.dst], p.dstIds, p.hashes, |p.dstIds|)][p.src := PushAll(states[p.src], p.srcIds)],
                      pending - {t})
  {
    p := PlanRanges(g, states, pending, t);
    ImportStep(g.nodes[p.dst], t, p.hashes);
    TwoChange(g, states, pending, t, AfterUnpin(g.nodes[p.src], t), AfterImport(g.nodes[p.dst], t, p.hashes));
  }

  lemma RollbackTransferRefines(g: Engine.Registry, states: map<ExecutorId, State>, pending: map<TransferId, Plan>, t: TransferId) returns (p: Plan)
    requires EngineInv(g) && Abstracts(g, states, pending) && t in pending
    ensures p == pending[t] && p.src in states && p.dst in states
    ensures InRange(p.srcIds, |states[p.src].blocks|) && InRange(p.dstIds, |states[p.dst].blocks|)
    ensures Abstracts(RollbackPlan(g, t),
                      states[p.dst := PushAll(states[p.dst], p.dstIds)][p.src := PushAll(states[p.src], p.srcIds)], pending - {t})
  {
    p := PlanRanges(g, states, pending, t);
    TwoChange(g, states, pending, t, AfterUnpin(g.nodes[p.src], t), AfterUnreserve(g.nodes[p.dst], t));
  }
}

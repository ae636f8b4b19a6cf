/**
 The coordinator: one replication, from the choice of executors to commit or rollback.

 Replicate waits for the executors between its two halves, and anything may happen to the registry meanwhile;
 Begin is what it does before the push is triggered, Finish what it does with the answer.
 */
module Coordination {
  import opened Hashing
  import opened Wrappers
  import opened BlockSpec
  import opened BlockInv
  import opened Engine
  import opened Managers
  import opened BlockRegistry

  /** GetRuntimeStates, as far as a replication looks at it. */
  datatype ExecutorStats = ExecutorStats(executorId: ExecutorId, runtimeEpoch: nat, compatibility: string, transferEndpoint: string)

  /** The TriggerKVPush request. */
  datatype Order = Order(t: TransferId, plan: Plan, sourceEpoch: nat, destinationEpoch: nat, endpoint: string, compatibility: string)

  datatype Confirmation = Confirmation(t: TransferId, src: ExecutorId, sourceEpoch: nat, dst: ExecutorId, destinationEpoch: nat)

  /** The call failed, or returned a response (or none). */
  datatype Answer = CallFailed | Answered(response: Option<Confirmation>)

  datatype ReplicateError =
    | NoStats(e: ExecutorId)
    | WrongStats(e: ExecutorId)
    | Incompatible
    | NoEndpoint
    | NotPrepared(error: RegistryError)
    | PushFailed
    | NoResponse
    | Mismatch
    | NotCommitted(error: RegistryError)
    | RollbackFailed(cause: ReplicateError, error: RegistryError)

  type Stats = map<ExecutorId, Option<ExecutorStats>>

  /** runtimeFor */
  function StatsFor(fleet: Stats, e: ExecutorId): (r: Result<ExecutorStats, ReplicateError>)
    ensures r.Ok? <==> e in fleet && fleet[e].Some? && fleet[e].value.executorId == e
    ensures r.Ok? ==> fleet[e] == Some(r.value)
  {
    if e !in fleet || fleet[e].None? then Err(NoStats(e))
    else if fleet[e].value.executorId != e then Err(WrongStats(e))
    else Ok(fleet[e].value)
  }

  /** Replicate's own checks: both executors are there, fit each other, and the destination can be reached. */
  function FleetError(fleet: Stats, src: ExecutorId, dst: ExecutorId): (problem: Option<ReplicateError>)
    ensures problem.None? <==>
      && src in fleet && fleet[src].Some? && fleet[src].value.executorId == src
      && dst in fleet && fleet[dst].Some? && fleet[dst].value.executorId == dst
      && fleet[dst].value.compatibility == fleet[src].value.compatibility != "" && fleet[dst].value.transferEndpoint != ""
  {
    var s, d := StatsFor(fleet, src), StatsFor(fleet, dst);
    if s.Err? then Some(s.error)
    else if d.Err? then Some(d.error)
    else if s.value.compatibility == "" || s.value.compatibility != d.value.compatibility then Some(Incompatible)
    else if d.value.transferEndpoint == "" then Some(NoEndpoint)
    else None
  }

  /** validateResponse */
  function ResponseError(order: Order, answer: Answer): (problem: Option<ReplicateError>)
    ensures problem.None? <==>
      answer == Answered(Some(Confirmation(order.t, order.plan.src, order.sourceEpoch, order.plan.dst, order.destinationEpoch)))
  {
    if answer.CallFailed? then Some(PushFailed)
    else if answer.response.None? then Some(NoResponse)
    else if answer.response.value != Confirmation(order.t, order.plan.src, order.sourceEpoch, order.plan.dst, order.destinationEpoch)
      then Some(Mismatch)
    else None
  }

  class Coordinator {
    const registry: BlockRegistry.Registry

    constructor (registry: BlockRegistry.Registry)
      ensures this.registry == registry
    {
      this.registry := registry;
    }

    /** Everything up to the call: the checks, then PrepareTransfer under the fresh id `t`. */
    method Begin(fleet: Stats, t: TransferId, src: ExecutorId, dst: ExecutorId, hashes: seq<Hash>) returns (r: Result<Order, ReplicateError>)
      requires registry.Valid()
      modifies registry, Footprint(registry.managers)
      ensures registry.Valid()
      ensures FleetError(fleet, src, dst).Some? ==>
        && r == Err(FleetError(fleet, src, dst).value)
        && registry.states == old(registry.states) && registry.pendingTransfers == old(registry.pendingTransfers)
      ensures r.Ok? <==>
        && FleetError(fleet, src, dst).None? && old(registry.MayBegin(t, src, dst, hashes))
        && CanPin(old(registry.states)[src], hashes) && |hashes| <= |old(registry.states)[dst].free|
      ensures r.Ok? ==>
        && r.value.t == t && r.value.plan.hashes == hashes && r.value.plan.src == src && r.value.plan.dst == dst
        && registry.pendingTransfers == old(registry.pendingTransfers)[t := r.value.plan]
        && fleet[src].Some? && fleet[dst].Some?
        && r.value.sourceEpoch == fleet[src].value.runtimeEpoch && r.value.destinationEpoch == fleet[dst].value.runtimeEpoch
        && r.value.endpoint == fleet[dst].value.transferEndpoint && r.value.compatibility == fleet[dst].value.compatibility
      ensures r.Ok? ==>
        && r.value.plan == Plan(src, PinnedIds(old(registry.states)[src], hashes), dst, old(registry.states)[dst].free[..|hashes|], hashes)
        && registry.states == old(registry.states)[src := Pin(old(registry.states)[src], hashes)][dst := Pop(old(registry.states)[dst], |hashes|)]
      ensures r.Err? ==> registry.pendingTransfers == old(registry.pendingTransfers)
      ensures r.Err? && FleetError(fleet, src, dst).None? ==>
        if old(registry.MayBegin(t, src, dst, hashes)) && CanPin(old(registry.states)[src], hashes)
        then registry.states == old(registry.states)[src := PushAll(Pin(old(registry.states)[src], hashes), PinnedIds(old(registry.states)[src], hashes))]
        else registry.states == old(registry.states)
    {
      var problem := FleetError(fleet, src, dst);
      if problem.Some? {
        return Err(problem.value);
      }
      var source, destination := fleet[src].value, fleet[dst].value;
      var prepared := registry.PrepareTransfer(t, src, dst, hashes);
      if prepared.Err? {
        return Err(NotPrepared(prepared.error));
      }
      return Ok(Order(t, prepared.value, source.runtimeEpoch, destination.runtimeEpoch, destination.transferEndpoint, source.compatibility));
    }

    /**
     * Everything after the call. The transfer is committed exactly when the executors confirm this very transfer
     * and the reservation is still there; otherwise it is rolled back. Either way it is no longer pending.
     */
    method Finish(order: Order, answer: Answer) returns (r: Result<Plan, ReplicateError>)
      requires registry.Valid()
      modifies registry, Footprint(registry.managers)
      ensures registry.Valid()
      ensures r.Ok? <==>
        && ResponseError(order, answer).None? && order.t in old(registry.pendingTransfers)
        && Importable(old(registry.states), old(registry.pendingTransfers), order.t)
      ensures registry.pendingTransfers == old(registry.pendingTransfers) - {order.t}
      ensures order.t !in old(registry.pendingTransfers) ==> r.Err? && r.error.RollbackFailed? && registry.states == old(registry.states)
      ensures order.t in old(registry.pendingTransfers) ==>
        registry.states ==
          if r.Ok? then TransferCommitted(old(registry.states), old(registry.pendingTransfers), order.t)
          else TransferRolledBack(old(registry.states), old(registry.pendingTransfers), order.t)
      ensures r.Ok? ==> r.value == order.plan
      ensures r.Err? && order.t in old(registry.pendingTransfers) && ResponseError(order, answer).Some? ==>
        r.error == ResponseError(order, answer).value
    {
      ghost var pending := registry.pendingTransfers;
      var problem := ResponseError(order, answer);
      if problem.None? {
        var committed := registry.CommitTransfer(order.t);
        if committed.Ok? {
          return Ok(order.plan);
        }
        problem := Some(NotCommitted(committed.error));
      }
      var rolledBack := registry.RollbackTransfer(order.t);
      assert rolledBack.Err? ==> pending - {order.t} == pending;
      return Err(if rolledBack.Err? then RollbackFailed(problem.value, rolledBack.error) else problem.value);
    }
  }

  /**
   * While its transfer is pending in a reachable state, Finish does exactly one of the engine's two steps:
   * CommitTransfer when the executors confirmed, which then succeeds, and RollbackTransfer otherwise.
   */
  lemma FinishIsAStep(g: Engine.Registry, states: map<ExecutorId, State>, pending: map<TransferId, Plan>, t: TransferId, confirmed: bool) returns (p: Plan)
    requires EngineInv(g) && Abstracts(g, states, pending) && t in pending
    ensures p == pending[t] && p.src in states && p.dst in states && CanImport(states[p.dst], p.dstIds, p.hashes)
    ensures InRange(p.srcIds, |states[p.src].blocks|)
    ensures Abstracts(if confirmed then CommitPlan(g, t) else RollbackPlan(g, t),
                      states[p.dst := if confirmed then ImportAll(states[p.dst], p.dstIds, p.hashes, |p.dstIds|) else PushAll(states[p.dst], p.dstIds)]
                            [p.src := PushAll(states[p.src], p.srcIds)],
                      pending - {t})
  {
    p := CommitTransferRefines(g, states, pending, t);
    p := RollbackTransferRefines(g, states, pending, t);
  }
}

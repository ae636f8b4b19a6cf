/** The executor's service: epoch, health latch, and the two ends of a K/V push. */
module ExecutorService {
  import opened Spans
  import opened Wrappers
  import opened Pages
  import opened CacheSpec
  import opened PagedCache
  import opened KVTransfer
  import opened LayerView
  import opened Batch
  import opened Runner
  import opened Hashing
  import opened Sequences
  import opened BlockSpec

  datatype Code =
    | FailedPrecondition
    | InvalidArgument
    | ResourceExhausted
    | Unimplemented
    | Internal
    | DeadlineExceeded
    | DataLoss
    | Uncaught // what the server library answers for an exception that is not a ConnectError

  /** The identity both transfer requests carry. */
  datatype Identity = Identity(
    transferId: string,
    sourceId: string,
    sourceEpoch: nat,
    destinationId: string,
    destinationEpoch: nat,
    compatibility: string,
    hashes: seq<string>,
    destinationBlocks: seq<nat>)

  datatype PushRequest = PushRequest(id: Identity, key: Str, value: Str)

  datatype PushResponse = PushResponse(transferId: string, destinationId: string, destinationEpoch: nat)

  /** `endpointOk`: the destination endpoint is a plain http or https address. */
  datatype TriggerRequest = TriggerRequest(id: Identity, sourceBlocks: seq<nat>, endpointOk: bool)

  datatype TriggerResponse = TriggerResponse(transferId: string, sourceId: string, sourceEpoch: nat, destinationId: string, destinationEpoch: nat)

  predicate IsName(s: string) {
    0 < |s| <= 128
  }

  predicate IsBlockHash(s: string) {
    |s| == 64 && forall i :: 0 <= i < 64 ==> '0' <= s[i] <= '9' || 'a' <= s[i] <= 'f'
  }

  class ExecuteService<V(0, !new)> {
    const runner: Runner<V>
    const cache: PagedKVCache<V>
    /** None: the runner does not support K/V transfer. */
    const transfer: Option<KVTransferRuntime<V>>
    const executorId: string
    const runtimeEpoch: nat
    const maxTransferBytes: nat
    var cacheFailed: bool

    constructor (runner: Runner<V>, transfer: Option<KVTransferRuntime<V>>, executorId: string, epoch: nat, maxTransferBytes: nat)
      requires runner.Valid() && epoch > 0 && maxTransferBytes > 0 && (transfer.Some? ==> transfer.value.cache == runner.cache && transfer.value.Valid())
      ensures Valid() && !cacheFailed && this.runner == runner && this.transfer == transfer && runtimeEpoch == epoch
    {
      this.runner, this.cache, this.transfer := runner, runner.cache, transfer;
      this.executorId, runtimeEpoch, this.maxTransferBytes := executorId, epoch, maxTransferBytes;
      cacheFailed := false;
    }

    ghost predicate Valid() {
      runner.Valid() && runner.cache == cache && runtimeEpoch > 0 && (transfer.Some? ==> transfer.value.cache == cache && transfer.value.Valid())
    }

    // -------------------------------------------------------------- checks

    /** The identity is one of a transfer that this executor can take part in. */
    ghost predicate Agreed(id: Identity)
      requires Valid()
      reads this`cacheFailed
    {
      && !cacheFailed && transfer.Some?
      && IsName(id.transferId) && IsName(id.sourceId) && IsName(id.destinationId) && id.sourceEpoch > 0 && id.destinationEpoch > 0
      && id.compatibility != "" && id.compatibility == transfer.value.compatibility
      && id.destinationBlocks != [] && Distinct<int>(id.destinationBlocks)
      && |id.hashes| == |id.destinationBlocks| && (forall i :: 0 <= i < |id.hashes| ==> IsBlockHash(id.hashes[i]))
      && 2 * transfer.value.PayloadBytes(|id.destinationBlocks|) <= maxTransferBytes
    }

    /** _validate_common_transfer */
    function CommonError(id: Identity): (problem: Option<Code>)
      requires Valid()
      reads this`cacheFailed
      ensures problem.None? <==> Agreed(id)
    {
      if cacheFailed then Some(FailedPrecondition)
      else if transfer.None? then Some(Unimplemented)
      else if !IsName(id.transferId) || !IsName(id.sourceId) || id.sourceEpoch == 0 || !IsName(id.destinationId) || id.destinationEpoch == 0
        then Some(InvalidArgument)
      else if id.compatibility == "" || id.compatibility != transfer.value.compatibility then Some(FailedPrecondition)
      else if id.destinationBlocks == [] || !Distinct<int>(id.destinationBlocks) then Some(InvalidArgument)
      else if |id.hashes| != |id.destinationBlocks| || !(forall i :: 0 <= i < |id.hashes| ==> IsBlockHash(id.hashes[i]))
        then Some(InvalidArgument)
      else if 2 * transfer.value.PayloadBytes(|id.destinationBlocks|) > maxTransferBytes then Some(ResourceExhausted)
      else None
    }

    /** _validate_push */
    function PushError(id: Identity): (problem: Option<Code>)
      requires Valid()
      reads this`cacheFailed
      ensures problem.None? <==>
        && Agreed(id) && id.destinationId == executorId && id.destinationEpoch == runtimeEpoch
        && BlocksExist(id.destinationBlocks, cache.numBlocks)
    {
      if cacheFailed then Some(FailedPrecondition)
      else if id.destinationEpoch != runtimeEpoch then Some(FailedPrecondition)
      else if id.destinationId != executorId then Some(FailedPrecondition)
      else if CommonError(id).Some? then CommonError(id)
      else if !BlocksExist(id.destinationBlocks, cache.numBlocks) then Some(InvalidArgument)
      else None
    }

    /** _ensure_healthy and _validate_trigger */
    function TriggerError(request: TriggerRequest): (problem: Option<Code>)
      requires Valid()
      reads this`cacheFailed
      ensures problem.None? <==>
        && Agreed(request.id) && request.id.sourceId == executorId && request.id.sourceEpoch == runtimeEpoch
        && |request.sourceBlocks| == |request.id.destinationBlocks| && Distinct<int>(request.sourceBlocks) && request.endpointOk
    {
      if cacheFailed then Some(FailedPrecondition)
      else if request.id.sourceEpoch != runtimeEpoch then Some(FailedPrecondition)
      else if request.id.sourceId != executorId then Some(FailedPrecondition)
      else if CommonError(request.id).Some? then CommonError(request.id)
      else if |request.sourceBlocks| != |request.id.destinationBlocks| then Some(InvalidArgument)
      else if !Distinct<int>(request.sourceBlocks) then Some(InvalidArgument)
      else if !request.endpointOk then Some(InvalidArgument)
      else None
    }

    // -------------------------------------------------------------- execution

    /**
     * execute_batch: under the wrong epoch, or once the latch is set, nothing executes and nothing changes;
     * otherwise it answers what the runner does.
     */
    method ExecuteBatch(epoch: nat, items: seq<ExecuteItem>, model: Model<V>)
        returns (r: Result<seq<ExecuteResult>, Code>, ghost views: seq<seq<Paged<(V, V)>>>)
      requires Valid()
      modifies cache.keyCache, cache.valueCache, cache.validSlots
      ensures cacheFailed || epoch != runtimeEpoch ==> r == Err(FailedPrecondition) && views == [] && cache.View() == old(cache.View())
      ensures !cacheFailed && epoch == runtimeEpoch ==> r.Ok? || r == Err(Uncaught)
      ensures views == [] ==> cache.View() == old(cache.View())
      ensures views != [] ==>
        && Trail(views, items, cache.numBlocks, cache.blockSize, model)
        && BlocksExist(NewBlocks(items), cache.numBlocks) && views[0] == AllInvalidated(old(cache.View()), NewBlocks(items))
      ensures !cacheFailed && epoch == runtimeEpoch ==>
        (views == [] <==> items == [] || !ItemsOk(items, cache.blockSize) || !BlocksExist(NewBlocks(items), cache.numBlocks))
      ensures !cacheFailed && epoch == runtimeEpoch && items == [] ==> r == Ok([])
      ensures r.Ok? ==> |r.value| == |items| && (items != [] ==> Reported(r.value, views, items, cache.blockSize, model, runner.eosTokenIds))
      ensures r.Ok? && items != [] ==> |views| == |items| + 1 && cache.View() == views[|items|]
      ensures r.Err? && views != [] ==> StoppedAt(views, items, cache.numBlocks, cache.blockSize, model, cache.View())
    {
      if epoch != runtimeEpoch || cacheFailed {
        return Err(FailedPrecondition), [];
      }
      var executed;
      executed, views := runner.Execute(items, model);
      r := if executed.Ok? then Ok(executed.value) else Err(Uncaught);
    }

    // -------------------------------------------------------------- the destination

    /** The layers hold the pushed pages in the destination blocks and are unchanged elsewhere. */
    twostate predicate Landed(request: PushRequest)
      requires Valid() && transfer.Some? && SizesOk(request)
      reads cache.keyCache, cache.valueCache, cache.validSlots
    {
      forall l :: 0 <= l < cache.numLayers ==>
        cache.Layer(l) == transfer.value.LayerAfter(l, old(cache.Layer(l)), request.id.destinationBlocks, request.key, request.value)
    }

    predicate SizesOk(request: PushRequest)
      requires Valid() && transfer.Some?
    {
      && |request.key| + |request.value| <= maxTransferBytes
      && |request.key| == |request.value| == transfer.value.PayloadBytes(|request.id.destinationBlocks|)
    }

    /** The request gets past the checks whose failure changes nothing. */
    ghost predicate Admitted(request: PushRequest)
      requires Valid()
      reads this`cacheFailed, cache.keyCache, cache.valueCache, cache.validSlots
    {
      && Agreed(request.id) && request.id.destinationId == executorId && request.id.destinationEpoch == runtimeEpoch
      && transfer.value.Acceptable(request.id.destinationBlocks)
    }

    /**
     * push_kv has three outcomes, wherever the device fails. Confirmed: exactly when the request is admitted, its
     * payload has the right size and the device works, and then the blocks hold the payload and nothing else has
     * changed. Refused: the cache reads as before. Latched: exactly when an admitted import failed and its last
     * clean-up did too; this executor serves no more, and no block outside the destination has changed.
     */
    method PushKV(request: PushRequest, faults: Faults<V>) returns (r: Result<PushResponse, Code>)
      requires Valid()
      modifies this`cacheFailed, cache.keyCache, cache.valueCache, cache.validSlots
      ensures r.Ok? <==> old(Admitted(request)) && SizesOk(request) && faults.DeviceWorks()
      ensures r.Ok? ==>
        && request.id.compatibility == transfer.value.compatibility
        && request.id.destinationId == executorId && request.id.destinationEpoch == runtimeEpoch
        && |request.id.hashes| == |request.id.destinationBlocks| > 0
        && (forall i :: 0 <= i < |request.id.hashes| ==> IsBlockHash(request.id.hashes[i]))
        && |request.key| + |request.value| <= maxTransferBytes
      ensures r.Ok? ==> Landed(request) && r.value == PushResponse(request.id.transferId, executorId, runtimeEpoch)
      ensures cacheFailed <==> old(cacheFailed) || (old(Admitted(request)) && r.Err? && faults.second.Stuck?)
      ensures r.Err? && cacheFailed == old(cacheFailed) ==> cache.View() == old(cache.View())
      ensures cacheFailed && !old(cacheFailed) ==> r == Err(Internal) && cache.SameOutside(old(cache.View()), request.id.destinationBlocks)
      ensures old(cacheFailed) || request.id.destinationEpoch != runtimeEpoch ==>
        r.Err? && cacheFailed == old(cacheFailed) && cache.View() == old(cache.View())
    {
      var refusal := PushError(request.id);
      if refusal.Some? {
        return Err(refusal.value);
      }
      var valid := transfer.value.ValidateDestination(request.id.destinationBlocks);
      if valid.Err? {
        return Err(FailedPrecondition);
      }
      ghost var before := cache.View();
      transfer.value.VacantPages(request.id.destinationBlocks);
      var problem := TryImport(request, faults);
      if problem.None? {
        return Ok(PushResponse(request.id.transferId, executorId, runtimeEpoch));
      }
      var cleared := transfer.value.ClearAll(request.id.destinationBlocks, faults.second, before);
      if !cleared {
        cacheFailed := true;
        return Err(Internal);
      }
      return Err(problem.value);
    }

    /** The part of push_kv whose failures are rolled back. */
    method TryImport(request: PushRequest, faults: Faults<V>) returns (problem: Option<Code>)
      requires Valid() && transfer.Some? && transfer.value.Acceptable(request.id.destinationBlocks)
      modifies cache.keyCache, cache.valueCache, cache.validSlots
      ensures problem.None? <==> SizesOk(request) && faults.DeviceWorks()
      ensures problem.None? ==> Landed(request)
      ensures cache.SameOutside(old(cache.View()), request.id.destinationBlocks)
    {
      var blocks := request.id.destinationBlocks;
      if |request.key| + |request.value| > maxTransferBytes {
        return Some(ResourceExhausted);
      }
      if |request.key| != transfer.value.PayloadBytes(|blocks|) || |request.value| != transfer.value.PayloadBytes(|blocks|) {
        return Some(InvalidArgument);
      }
      var imported := transfer.value.ImportBlocks(blocks, request.key, request.value, faults);
      problem := if imported.Ok? then None else if faults.outOfMemory then Some(ResourceExhausted) else Some(Internal);
    }

    // -------------------------------------------------------------- the source

    /** The first half of trigger_kv_push: the request for the destination, with a snapshot of the source blocks. */
    method Snapshot(request: TriggerRequest, deadlineElapsed: bool) returns (r: Result<PushRequest, Code>)
      requires Valid()
      ensures r.Ok? ==>
        && Agreed(request.id) && !deadlineElapsed && r.value.id == request.id
        && request.id.compatibility == transfer.value.compatibility
        && request.id.sourceId == executorId && request.id.sourceEpoch == runtimeEpoch
        && |request.id.hashes| == |request.id.destinationBlocks| > 0
        && (forall i :: 0 <= i < |request.id.hashes| ==> IsBlockHash(request.id.hashes[i]))
        && |r.value.key| + |r.value.value| <= maxTransferBytes
        && var n := |request.sourceBlocks|;
           n == |request.id.destinationBlocks| &&
           |r.value.key| == |r.value.value| == transfer.value.PayloadBytes(n) &&
           forall l :: 0 <= l < cache.numLayers ==>
             CanExport(cache.Layer(l), Nats(request.sourceBlocks)) &&
             Exported(cache.Layer(l), Nats(request.sourceBlocks)) == transfer.value.Carried(l, n, r.value.key, r.value.value)
      ensures r.Ok? <==>
        && Agreed(request.id) && request.id.sourceId == executorId && request.id.sourceEpoch == runtimeEpoch
        && |request.sourceBlocks| == |request.id.destinationBlocks| && Distinct<int>(request.sourceBlocks) && request.endpointOk
        && !deadlineElapsed
        && request.sourceBlocks != [] && BlocksExist(request.sourceBlocks, cache.numBlocks) && cache.FullyWritten(request.sourceBlocks)
      ensures cacheFailed || request.id.sourceEpoch != runtimeEpoch ==> r == Err(FailedPrecondition)
    {
      var refusal := TriggerError(request);
      if refusal.Some? {
        return Err(refusal.value);
      }
      var exported := transfer.value.ExportBlocks(request.sourceBlocks);
      if exported.Err? {
        return Err(InvalidArgument);
      }
      if deadlineElapsed {
        return Err(DeadlineExceeded);
      }
      var (key, value) := exported.value;
      return Ok(PushRequest(request.id, key, value));
    }

    /** The second half: only the destination's own confirmation of this transfer is passed on. */
    function Confirmed(request: TriggerRequest, response: PushResponse): (r: Result<TriggerResponse, Code>)
      ensures r.Ok? <==> response == PushResponse(request.id.transferId, request.id.destinationId, request.id.destinationEpoch)
      ensures r.Ok? ==> r.value == TriggerResponse(request.id.transferId, executorId, runtimeEpoch, request.id.destinationId, request.id.destinationEpoch)
    {
      if response.transferId != request.id.transferId || response.destinationId != request.id.destinationId
         || response.destinationEpoch != request.id.destinationEpoch
      then Err(DataLoss)
      else Ok(TriggerResponse(request.id.transferId, executorId, runtimeEpoch, response.destinationId, response.destinationEpoch))
    }

    // -------------------------------------------------------------- release

    method ReleaseBlocks(epoch: nat, ids: seq<int>) returns (r: Result<(), Code>)
      requires Valid()
      modifies cache.validSlots
      ensures r.Ok? <==> epoch == runtimeEpoch && !cacheFailed && BlocksExist(ids, cache.numBlocks)
      ensures r.Err? ==> cache.View() == old(cache.View())
      ensures r.Ok? ==> forall l :: 0 <= l < cache.numLayers ==> cache.Layer(l) == Invalidated(old(cache.Layer(l)), Nats(ids))
    {
      if epoch != runtimeEpoch || cacheFailed {
        return Err(FailedPrecondition);
      }
      var released := cache.Release(ids);
      if released.Err? {
        return Err(Uncaught);
      }
      return Ok(());
    }
  }
}

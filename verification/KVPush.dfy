/** A K/V push from end to end: what the source sends, the destination takes, and the pages arrive as they were. */
module KVPush {
  import opened Spans
  import opened Wrappers
  import opened Pages
  import opened CacheSpec
  import opened PagedCache
  import opened KVTransfer
  import opened LayerView
  import opened Hashing
  import opened Sequences
  import opened ExecutorService

  /** A byte string as text. */
  function Text(s: Str): string {
    seq(|s|, i requires 0 <= i < |s| => s[i] as char)
  }

  /** What the engine computes as a block's hash is what the executors accept as one. */
  lemma EngineHashIsBlockHash(sha: Str -> Str, prev: Str, tokens: seq<Token>)
    requires IsSha256(sha)
    ensures IsBlockHash(Text(HashBlock(sha, prev, tokens).hex))
  {
    var digest := sha(prev + EncodeTokens(tokens));
    var text := Text(HexEncode(digest));
    forall i | 0 <= i < 64
      ensures '0' <= text[i] <= '9' || 'a' <= text[i] <= 'f'
    {
      HexEncodeIsHex(digest, i);
      assert text[i] == HexEncode(digest)[i] as char;
    }
  }

  /** Executors with the same compatibility id store K/V in the same layout. */
  ghost predicate SameLayout<V(0, !new)>(source: ExecuteService<V>, destination: ExecuteService<V>)
    requires source.Valid() && destination.Valid()
  {
    source.transfer.Some? && destination.transfer.Some? && source.transfer.value.compatibility == destination.transfer.value.compatibility ==>
      && destination.transfer.value.codec == source.transfer.value.codec
      && destination.cache.numLayers == source.cache.numLayers && destination.cache.blockSize == source.cache.blockSize
  }

  /** Each destination block holds in every layer what its source block held, and the other blocks are as before. */
  ghost predicate Copied<V(!new)>(from: seq<Paged<(V, V)>>, sources: seq<nat>, before: seq<Paged<(V, V)>>, ids: seq<nat>, after: seq<Paged<(V, V)>>) {
    && |from| == |before| == |after| && |sources| == |ids|
    && forall l :: 0 <= l < |after| ==>
         CanExport(from[l], sources) && after[l] == ImportedPages(before[l], ids, Exported(from[l], sources))
  }

  /** What lands is what was exported. */
  lemma LandsAsExported<V(0, !new)>(source: ExecuteService<V>, destination: ExecuteService<V>, key: Str, value: Str,
                                    from: seq<Paged<(V, V)>>, sources: seq<nat>, before: seq<Paged<(V, V)>>, ids: seq<nat>, after: seq<Paged<(V, V)>>)
    requires source.Valid() && destination.Valid() && SameLayout(source, destination) && source.transfer.Some? && destination.transfer.Some?
    requires source.transfer.value.compatibility == destination.transfer.value.compatibility
    requires |sources| == |ids| && |from| == |before| == |after| == source.cache.numLayers
    requires |key| == |value| == source.transfer.value.PayloadBytes(|ids|) == destination.transfer.value.PayloadBytes(|ids|)
    requires forall l :: 0 <= l < |from| ==>
      CanExport(from[l], sources) && Exported(from[l], sources) == source.transfer.value.Carried(l, |ids|, key, value)
    requires destination.cache.numLayers == |after| && forall l :: 0 <= l < |after| ==>
      after[l] == destination.transfer.value.LayerAfter(l, before[l], ids, key, value)
    ensures Copied(from, sources, before, ids, after)
  {
  }

  lemma SameSize<V(0, !new)>(source: ExecuteService<V>, destination: ExecuteService<V>, n: nat)
    requires source.Valid() && destination.Valid() && SameLayout(source, destination) && source.transfer.Some? && destination.transfer.Some?
    requires source.transfer.value.compatibility == destination.transfer.value.compatibility
    ensures destination.transfer.value.PayloadBytes(n) == source.transfer.value.PayloadBytes(n)
  {
  }

  /** The source has what is asked of it, and the request names this executor and this run of it. */
  ghost predicate CanSend<V(0, !new)>(source: ExecuteService<V>, request: TriggerRequest)
    requires source.Valid()
    reads source`cacheFailed, source.cache.keyCache, source.cache.valueCache, source.cache.validSlots
  {
    && source.Agreed(request.id) && request.id.sourceId == source.executorId && request.id.sourceEpoch == source.runtimeEpoch
    && |request.sourceBlocks| == |request.id.destinationBlocks| && Distinct<int>(request.sourceBlocks) && request.endpointOk
    && BlocksExist(request.sourceBlocks, source.cache.numBlocks) && source.cache.FullyWritten(request.sourceBlocks)
  }

  /** The destination is healthy, is the one that is named, stores K/V in the same way, and has these blocks empty. */
  ghost predicate CanReceive<V(0, !new)>(destination: ExecuteService<V>, id: Identity)
    requires destination.Valid()
    reads destination`cacheFailed, destination.cache.keyCache, destination.cache.valueCache, destination.cache.validSlots
  {
    && !destination.cacheFailed && destination.transfer.Some? && id.compatibility == destination.transfer.value.compatibility
    && id.destinationId == destination.executorId && id.destinationEpoch == destination.runtimeEpoch
    && 2 * destination.transfer.value.PayloadBytes(|id.destinationBlocks|) <= destination.maxTransferBytes
    && destination.transfer.value.Acceptable(id.destinationBlocks)
  }

  /** The push is a snapshot of the source's blocks, for the destination's blocks. */
  ghost predicate Sent<V(0, !new)>(source: ExecuteService<V>, request: TriggerRequest, push: PushRequest)
    requires source.Valid()
    reads source`cacheFailed, source.cache.keyCache, source.cache.valueCache, source.cache.validSlots
  {
    && source.Agreed(request.id) && push.id == request.id && BlocksExist(request.sourceBlocks, source.cache.numBlocks)
    && |request.sourceBlocks| == |request.id.destinationBlocks|
    && |push.key| == |push.value| == source.transfer.value.PayloadBytes(|request.sourceBlocks|)
    && forall l :: 0 <= l < source.cache.numLayers ==>
         && CanExport(source.cache.View()[l], Nats(request.sourceBlocks))
         && Exported(source.cache.View()[l], Nats(request.sourceBlocks))
              == source.transfer.value.Carried(l, |request.sourceBlocks|, push.key, push.value)
  }

  /** The source's side: a snapshot is sent exactly when the source can send it and time is left. */
  method Send<V(0, !new)>(source: ExecuteService<V>, request: TriggerRequest, deadlineElapsed: bool) returns (r: Result<PushRequest, Code>)
    requires source.Valid()
    ensures r.Ok? <==> CanSend(source, request) && !deadlineElapsed
    ensures r.Ok? ==> Sent(source, request, r.value)
  {
    r := source.Snapshot(request, deadlineElapsed);
  }

  /** The destination's side of a push that was sent: it is taken exactly when the destination can receive it. */
  method Deliver<V(0, !new)>(source: ExecuteService<V>, destination: ExecuteService<V>, request: TriggerRequest, push: PushRequest, faults: Faults<V>,
                             ghost from: seq<Paged<(V, V)>>, ghost before: seq<Paged<(V, V)>>) returns (r: Result<PushResponse, Code>)
    requires source.Valid() && destination.Valid() && SameLayout(source, destination) && Sent(source, request, push)
    requires from == source.cache.View() && before == destination.cache.View()
    modifies destination`cacheFailed, destination.cache.keyCache, destination.cache.valueCache, destination.cache.validSlots
    ensures r.Ok? <==> old(CanReceive(destination, request.id)) && faults.DeviceWorks()
    ensures r.Ok? ==> r.value == PushResponse(request.id.transferId, request.id.destinationId, request.id.destinationEpoch)
    ensures r.Ok? ==> destination.executorId == request.id.destinationId && destination.runtimeEpoch == request.id.destinationEpoch
    ensures r.Ok? ==> Copied(from, Nats(request.sourceBlocks), before, request.id.destinationBlocks, destination.cache.View())
  {
    if destination.transfer.Some? && source.transfer.value.compatibility == destination.transfer.value.compatibility {
      SameSize(source, destination, |request.sourceBlocks|);
    }
    r := destination.PushKV(push, faults);
    if r.Ok? {
      LandsAsExported(source, destination, push.key, push.value, from, Nats(request.sourceBlocks), before, request.id.destinationBlocks,
                      destination.cache.View());
    }
  }

  /**
   * trigger_kv_push, when its call arrives and is answered: it succeeds exactly when the source can send, the
   * destination can receive, time is left and the destination's device works. Then each destination block holds in every layer
   * what its source block held, and every other block of the destination is as it was.
   */
  method TriggerKVPush<V(0, !new)>(source: ExecuteService<V>, destination: ExecuteService<V>, request: TriggerRequest, deadlineElapsed: bool,
                                   faults: Faults<V>) returns (r: Result<TriggerResponse, Code>)
    requires source.Valid() && destination.Valid() && SameLayout(source, destination)
    modifies destination`cacheFailed, destination.cache.keyCache, destination.cache.valueCache, destination.cache.validSlots
    ensures r.Ok? <==> old(CanSend(source, request)) && old(CanReceive(destination, request.id)) && !deadlineElapsed && faults.DeviceWorks()
    ensures r.Ok? ==> r.value == TriggerResponse(request.id.transferId, source.executorId, source.runtimeEpoch,
                                                 destination.executorId, destination.runtimeEpoch)
    ensures r.Ok? ==> Copied(old(source.cache.View()), Nats(request.sourceBlocks), old(destination.cache.View()), request.id.destinationBlocks,
                             destination.cache.View())
  {
    ghost var from, before := source.cache.View(), destination.cache.View();
    var push := Send(source, request, deadlineElapsed);
    if push.Err? {
      return Err(push.error);
    }
    var response := Deliver(source, destination, request, push.value, faults, from, before);
    if response.Err? {
      return Err(response.error);
    }
    r := source.Confirmed(request, response.value);
  }
}

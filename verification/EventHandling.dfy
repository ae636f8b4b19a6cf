/** handleEvent: what one executor result does to the block metadata, the request and the queues. */
module EventHandling {
  import opened Hashing
  import opened Wrappers
  import opened BlockSpec
  import opened WorkItems
  import opened Lifecycle
  import opened Queues
  import opened Scheduler
  import opened ReleaseInv

  /** NoRequest: a late result. NotQueued: the successor's queue was full and the request failed. */
  datatype Handling = NoRequest | Handled | NotQueued | NotFinalized

  /** The event as it is handled: one that cannot be finalized fails its request. */
  function Finalized(e: Event, ok: bool): Event {
    if ok then e else e.(kind := RequestFailed, done := true, finishReason := Error)
  }

  /** OnEvent marks a decode event that ends its request as done. */
  predicate EndsRequest(req: Request, e: Event) {
    e.done || (e.kind == DecodeChunk && Ends(req, e))
  }

  /** Whether the work of the event is committed; otherwise it is rolled back. */
  predicate Commits(req: Request, e: Event, from: ExecutorId, err: bool) {
    from == req.executorId && !err && e.kind != RequestFailed
  }

  /** The block metadata once the work of the event is finalized. */
  function Settlement(s: State, req: Request, e: Event, from: ExecutorId, err: bool): (r: State)
    requires Bounded(s)
    ensures |r.blocks| == |s.blocks|
  {
    if Commits(req, e, from, err) then Commit(s, e.workId) else Rollback(s, e.workId)
  }

  lemma SettlementBounded(s: State, req: Request, e: Event, from: ExecutorId, err: bool)
    requires Bounded(s)
    ensures Bounded(Settlement(s, req, e, from, err))
  {
    CommitBounded(s, e.workId);
    RollbackBounded(s, e.workId);
  }

  /** The block metadata after the event, depending on whether its successor (if any) found room in its queue. */
  function HandledBlocks(s: State, registered: bool, req: Request, e: Event, from: ExecutorId, err: bool, queued: bool): State
    requires Bounded(s)
  {
    if !registered then s
    else
      SettlementBounded(s, req, e, from, err);
      var t := Settlement(s, req, e, from, err);
      if !queued || EndsRequest(req, Finalized(e, from == req.executorId)) then FreeRequest(t, e.requestId) else t
  }

  class EventHandler {
    const requests: RequestStateManager
    const queues: Scheduler

    constructor (requests: RequestStateManager, queues: Scheduler)
      ensures this.requests == requests && this.queues == queues
    {
      this.requests, this.queues := requests, queues;
    }

    /** The request is stored under its own id and served by this executor, and its matched blocks exist. */
    ghost predicate Serves(e: Event)
      reads requests
    {
      e.requestId in requests.requests ==>
        var req := requests.requests[e.requestId];
        req.requestId == e.requestId && req.executorId == queues.executorId && InRange(req.cacheBlocks, queues.numBlocks) && Reports(req, e)
    }

    method PutBlocks(s: State)
      requires queues.Valid() && Bounded(s) && |s.blocks| == |queues.blocks.blocks|
      modifies queues`blocks
      ensures queues.Valid() && queues.blocks == s
    {
      WellFormedIsBounded(s);
      queues.blocks := s;
    }

    /** Commit or Rollback of the event's work. */
    method Finalize(req: Request, e: Event, from: ExecutorId, err: bool) returns (ok: bool)
      requires queues.Valid()
      modifies queues`blocks
      ensures queues.Valid() && Bounded(old(queues.blocks))
      ensures ok <==> queues.registered && from == req.executorId
      ensures queues.blocks == if queues.registered then Settlement(old(queues.blocks), req, e, from, err) else old(queues.blocks)
    {
      WellFormedIsBounded(queues.blocks);
      if !queues.registered {
        return false;
      }
      SettlementBounded(queues.blocks, req, e, from, err);
      PutBlocks(Settlement(queues.blocks, req, e, from, err));
      return from == req.executorId;
    }

    method FreeBlocks(rid: RequestId)
      requires queues.Valid()
      modifies queues`blocks
      ensures queues.Valid() && Bounded(old(queues.blocks))
      ensures queues.blocks == if queues.registered then FreeRequest(old(queues.blocks), rid) else old(queues.blocks)
    {
      WellFormedIsBounded(queues.blocks);
      if queues.registered {
        FreeBounded(queues.blocks, rid);
        PutBlocks(FreeRequest(queues.blocks, rid));
      }
    }

    /** OnEvent, and the queue for the work that follows; if the queue is full the request fails and its blocks are freed. */
    method Advance(f: Event, workId: WorkId, ghost m: Mark) returns (queued: bool, next: Option<Work>)
      requires queues.Valid() && Serves(f) && f.requestId in requests.requests
      modifies requests, queues`blocks, queues.small, queues.large, queues.decode
      ensures queues.Valid() && Bounded(old(queues.blocks))
      ensures next == Successor(old(requests.requests)[f.requestId], f, workId) && (!queued ==> next.Some?)
      ensures requests.requests ==
        if queued then old(requests.requests)[f.requestId := Updated(old(requests.requests)[f.requestId], f)]
        else old(requests.requests) - {f.requestId}
      ensures queues.blocks == if !queued && queues.registered then FreeRequest(old(queues.blocks), f.requestId) else old(queues.blocks)
      ensures !queued <==> next.Some? && !old(queues.HasRoom(queues.KindOf(next.value)))
      ensures queues.Lists() == if queued && next.Some? then old(queues.Lists()).With(queues.KindOf(next.value), next.value) else old(queues.Lists())
      ensures Queued(m) == old(Queued(m)) + (if queued && next.Some? then Hit(next.value, m) else 0)
    {
      WellFormedIsBounded(queues.blocks);
      ghost var before := requests.requests;
      next := requests.OnEvent(f, workId);
      if next.None? {
        return true, None;
      }
      var r := queues.Enqueue(next.value, m);
      if r.Ok? {
        return true, next;
      }
      requests.Close(f.requestId);
      assert before[f.requestId := Updated(before[f.requestId], f)] - {f.requestId} == before - {f.requestId};
      FreeBlocks(f.requestId);
      queued := false;
    }

    /** The event of a request that is still there. */
    method HandleLive(req: Request, e: Event, from: ExecutorId, err: bool, workId: WorkId, ghost m: Mark)
        returns (ok: bool, queued: bool, next: Option<Work>)
      requires queues.Valid() && Serves(e) && e.requestId in requests.requests && requests.requests[e.requestId] == req
      modifies requests, queues`blocks, queues.small, queues.large, queues.decode
      ensures queues.Valid() && Bounded(old(queues.blocks)) && ok == (queues.registered && from == req.executorId)
      ensures Reports(req, Finalized(e, ok)) && next == Successor(req, Finalized(e, ok), workId) && (!queued ==> next.Some?)
      ensures queues.blocks == HandledBlocks(old(queues.blocks), queues.registered, req, e, from, err, queued)
      ensures requests.requests == if queued then old(requests.requests)[e.requestId := Updated(req, Finalized(e, ok))]
                                   else old(requests.requests) - {e.requestId}
      ensures !queued <==> next.Some? && !old(queues.HasRoom(queues.KindOf(next.value)))
      ensures queues.Lists() == if queued && next.Some? then old(queues.Lists()).With(queues.KindOf(next.value), next.value) else old(queues.Lists())
      ensures Queued(m) == old(Queued(m)) + (if queued && next.Some? then Hit(next.value, m) else 0)
    {
      ok := Finalize(req, e, from, err);
      var f := Finalized(e, ok);
      queued, next := Advance(f, workId, m);
      if queued && EndsRequest(req, f) {
        FreeBlocks(e.requestId);
      }
    }

    /**
     * handleEvent, for a result that executor `from` reported (`err`: with an error). The work is committed or rolled
     * back; the request moves on; its next work is queued, or the request fails if the queue is full; and an
     * event that ends the request frees its blocks. An event that is done frees them even when it has queued a
     * next work, and that work's request then holds no block.
     */
    method HandleEvent(e: Event, from: ExecutorId, err: bool, workId: WorkId, ghost m: Mark) returns (r: Handling, next: Option<Work>)
      requires queues.Valid() && Serves(e)
      modifies requests, queues`blocks, queues.small, queues.large, queues.decode
      ensures queues.Valid() && Bounded(old(queues.blocks))
      ensures r == NoRequest <==> e.requestId !in old(requests.requests)
      ensures r == NoRequest ==> next.None? && queues.blocks == old(queues.blocks) && requests.requests == old(requests.requests)
      ensures r != NoRequest ==>
        var req := old(requests.requests)[e.requestId];
        var ok := queues.registered && from == req.executorId;
        && Reports(req, Finalized(e, ok)) && next == Successor(req, Finalized(e, ok), workId)
        && (r == NotFinalized <==> !ok) && (r == NotQueued ==> next.Some?)
        && queues.blocks == HandledBlocks(old(queues.blocks), queues.registered, req, e, from, err, r != NotQueued)
        && requests.requests == (if r == NotQueued then old(requests.requests) - {e.requestId}
                                 else old(requests.requests)[e.requestId := Updated(req, Finalized(e, ok))])
      ensures r == NotQueued <==> next.Some? && !old(queues.HasRoom(queues.KindOf(next.value)))
      ensures queues.Lists() == if r != NotQueued && next.Some? then old(queues.Lists()).With(queues.KindOf(next.value), next.value) else old(queues.Lists())
      ensures Queued(m) == old(Queued(m)) + (if next.Some? && r != NotQueued then Hit(next.value, m) else 0)
      ensures r == Handled && e.done && next.Some? ==> e.requestId !in queues.blocks.tables && next.value.requestId == e.requestId
    {
      if e.requestId !in requests.requests {
        WellFormedIsBounded(queues.blocks);
        return NoRequest, None;
      }
      var req := requests.requests[e.requestId];
      var ok, queued;
      ok, queued, next := HandleLive(req, e, from, err, workId, m);
      if queued && ok && e.done {
        FreedIsGone(old(queues.blocks), queues.registered, req, e, from, err);
      }
      r := if !queued then NotQueued else if ok then Handled else NotFinalized;
    }

    /** How often the marked work is queued. */
    ghost function Queued(m: Mark): nat
      reads queues.small, queues.large, queues.decode
    {
      queues.Queued(m)
    }
  }

  lemma FreedIsGone(s: State, registered: bool, req: Request, e: Event, from: ExecutorId, err: bool)
    requires Bounded(s) && registered && from == req.executorId && e.done
    ensures e.requestId !in HandledBlocks(s, registered, req, e, from, err, true).tables
  {
    SettlementBounded(s, req, e, from, err);
    var t := Settlement(s, req, e, from, err);
    var table := if e.requestId in t.tables then t.tables[e.requestId] else [];
    PushAllFields(t.(tables := t.tables - {e.requestId},
                     pending := map w | w in t.pending && t.pending[w].requestId != e.requestId :: t.pending[w]), table);
  }
}

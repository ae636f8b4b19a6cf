/** The request state machine: one request per id, one work item per request at a time. */
module Lifecycle {
  import opened Hashing
  import opened Wrappers
  import opened BlockSpec
  import opened WorkItems

  datatype RequestPhase =
    PrefillReady | PrefillRunning | DecodeReady | DecodeRunning | Finished | Canceled | Timeout | Failed

  datatype FinishReason = NoReason | Stop | Length | Error

  datatype Usage = Usage(inputTokens: nat, outputTokens: nat, totalTokens: nat)

  datatype Request = Request(
    requestId: RequestId,
    executorId: ExecutorId,
    phase: RequestPhase,
    tokenIds: seq<Token>,
    promptTokens: nat,
    computedTokens: nat,
    generatedTokens: nat,
    maxTokens: nat,
    deadline: Option<nat>,
    cacheBlocks: seq<nat>,
    hashesTotal: seq<Hash>,
    usage: Usage,
    finishReason: FinishReason)

  datatype Event = Event(
    workId: WorkId,
    requestId: RequestId,
    kind: EventType,
    tokenId: Token,
    done: bool,
    usage: Usage,
    finishReason: FinishReason)

  datatype CreateError = AlreadyExists | NoBinding | UnknownExecutor

  // ---------------------------------------------------------------- what creation and events do

  /** The request as Create stores it. */
  function Created(req: Request, executorId: ExecutorId, m: PrefixMatch): Request {
    req.(phase := PrefillReady, executorId := executorId, computedTokens := m.cachedTokens,
         cacheBlocks := m.blockIds, hashesTotal := m.hashesTotal)
  }

  /** The first work item; a prompt that is fully cached would go straight to decoding. */
  function FirstWork(req: Request, workId: WorkId): Work
    requires req.computedTokens <= |req.tokenIds| && req.computedTokens <= req.promptTokens
  {
    var direct := req.computedTokens >= req.promptTokens;
    Work(workId, req.requestId, req.executorId, if direct then Decode else Prefill, req.cacheBlocks, req.hashesTotal,
         req.tokenIds[req.computedTokens..], req.computedTokens, if direct then 1 else req.promptTokens - req.computedTokens,
         |req.tokenIds|, 0, req.maxTokens)
  }

  /** The rest of the prompt, rebuilt from what has been computed. */
  function PrefillWork(req: Request, workId: WorkId): Work
    requires req.computedTokens <= req.promptTokens <= |req.tokenIds|
  {
    Work(workId, req.requestId, req.executorId, Prefill, req.cacheBlocks, req.hashesTotal,
         req.tokenIds[req.computedTokens..req.promptTokens], req.computedTokens, req.promptTokens - req.computedTokens,
         req.promptTokens, 0, req.maxTokens)
  }

  function DecodeWork(req: Request, workId: WorkId): Work {
    Work(workId, req.requestId, req.executorId, Decode, req.cacheBlocks, req.hashesTotal,
         req.tokenIds, 0, 1, |req.tokenIds|, req.generatedTokens, req.maxTokens)
  }

  /** Whether a decode event ends the request. */
  predicate Ends(req: Request, e: Event) {
    e.done || req.generatedTokens + e.usage.outputTokens >= req.maxTokens
  }

  /** The request after an event. */
  function Updated(req: Request, e: Event): Request {
    match e.kind
    case PrefillChunk =>
      var computed := req.computedTokens + e.usage.inputTokens;
      req.(computedTokens := computed, phase := PrefillRunning,
           usage := Usage(computed, req.usage.outputTokens, computed + req.generatedTokens))
    case PrefillFinished =>
      var computed := Min(req.computedTokens + e.usage.inputTokens, req.promptTokens);
      var generated := req.generatedTokens + e.usage.outputTokens;
      req.(computedTokens := computed, generatedTokens := generated, tokenIds := req.tokenIds + [e.tokenId],
           phase := DecodeReady, usage := Usage(computed, generated, computed + generated))
    case DecodeChunk =>
      var generated := req.generatedTokens + e.usage.outputTokens;
      req.(generatedTokens := generated, tokenIds := req.tokenIds + [e.tokenId],
           phase := if Ends(req, e) then Finished else DecodeRunning,
           usage := Usage(req.promptTokens, generated, req.promptTokens + generated),
           finishReason := if !Ends(req, e) then req.finishReason else if e.finishReason == NoReason then Length else e.finishReason)
    case RequestFinished => req.(phase := Finished)
    case RequestFailed => req.(phase := Failed)
    case RequestCanceled => req.(phase := Canceled)
  }

  /** A prefill chunk never reports more than the rest of the prompt; otherwise the next slice would not exist. */
  predicate Reports(req: Request, e: Event) {
    e.kind == PrefillChunk ==> req.computedTokens + e.usage.inputTokens <= req.promptTokens <= |req.tokenIds|
  }

  /** The work item that follows an event. */
  function Successor(req: Request, e: Event, workId: WorkId): Option<Work>
    requires Reports(req, e)
  {
    match e.kind
    case PrefillChunk => Some(PrefillWork(Updated(req, e), workId))
    case PrefillFinished => Some(DecodeWork(Updated(req, e), workId))
    case DecodeChunk => if Ends(req, e) then None else Some(DecodeWork(Updated(req, e), workId))
    case _ => None
  }

  predicate Over(phase: RequestPhase): (over: bool)
    ensures over <==> !(phase.PrefillReady? || phase.PrefillRunning? || phase.DecodeReady? || phase.DecodeRunning?)
  {
    phase in {Finished, Canceled, Timeout, Failed}
  }

  predicate Expired(req: Request, now: nat) {
    req.deadline.Some? && now > req.deadline.value
  }

  // ---------------------------------------------------------------- the state manager

  class RequestStateManager {
    var requests: map<RequestId, Request>
    /** The FreeRequest calls made to the block registry, in order. */
    var releases: seq<(ExecutorId, RequestId)>

    constructor ()
      ensures requests == map[] && releases == []
    {
      requests, releases := map[], [];
    }

    /** `matched` is what the registry's MatchPrefix returns for the executor that serves the request. */
    method Create(req: Request, executorIds: seq<ExecutorId>, matched: Option<PrefixMatch>, workId: WorkId) returns (r: Result<Work, CreateError>)
      requires matched.Some? ==> matched.value.cachedTokens <= req.promptTokens <= |req.tokenIds|
      modifies this
      ensures releases == old(releases)
      ensures r == Err(AlreadyExists) <==> req.requestId in old(requests)
      ensures r == Err(NoBinding) <==> req.requestId !in old(requests) && req.executorId.name == "" && |executorIds| != 1
      ensures r == Err(UnknownExecutor) <==>
        && req.requestId !in old(requests) && !(req.executorId.name == "" && |executorIds| != 1) && matched.None?
      ensures r.Err? ==> requests == old(requests)
      ensures r.Ok? ==>
        var e := if req.executorId.name == "" && |executorIds| == 1 then executorIds[0] else req.executorId;
        && matched.Some?
        && requests == old(requests)[req.requestId := Created(req, e, matched.value)]
        && r.value == FirstWork(Created(req, e, matched.value), workId)
    {
      if req.requestId in requests {
        return Err(AlreadyExists);
      }
      var before := requests;
      var stored := req.(phase := PrefillReady);
      requests := requests[req.requestId := stored];
      if req.executorId.name == "" {
        if |executorIds| != 1 {
          requests := before;
          return Err(NoBinding);
        }
        stored := stored.(executorId := executorIds[0]);
      }
      if matched.None? {
        requests := before;
        return Err(UnknownExecutor);
      }
      stored := stored.(cacheBlocks := matched.value.blockIds, hashesTotal := matched.value.hashesTotal,
                        computedTokens := matched.value.cachedTokens);
      requests := requests[req.requestId := stored];
      var work := Work(workId, stored.requestId, stored.executorId, Prefill, stored.cacheBlocks, stored.hashesTotal,
                       stored.tokenIds[stored.computedTokens..], stored.computedTokens,
                       stored.promptTokens - stored.computedTokens, |stored.tokenIds|, 0, stored.maxTokens);
      if stored.computedTokens >= stored.promptTokens {
        work := work.(phase := Decode, numNewTokens := 1);
      }
      return Ok(work);
    }

    method OnEvent(e: Event, workId: WorkId) returns (next: Option<Work>)
      requires e.requestId in requests ==> Reports(requests[e.requestId], e)
      modifies this
      ensures releases == old(releases)
      ensures e.requestId !in old(requests) ==> next == None && requests == old(requests)
      ensures e.requestId in old(requests) ==>
        && requests == old(requests)[e.requestId := Updated(old(requests)[e.requestId], e)]
        && next == Successor(old(requests)[e.requestId], e, workId)
    {
      if e.requestId !in requests {
        return None;
      }
      var req := requests[e.requestId];
      next := None;
      match e.kind {
      case PrefillChunk =>
        req := req.(computedTokens := req.computedTokens + e.usage.inputTokens, phase := PrefillRunning);
        req := req.(usage := Usage(req.computedTokens, req.usage.outputTokens, req.computedTokens + req.generatedTokens));
        next := Some(PrefillWork(req, workId));
      case PrefillFinished =>
        req := req.(computedTokens := req.computedTokens + e.usage.inputTokens);
        if req.computedTokens > req.promptTokens {
          req := req.(computedTokens := req.promptTokens);
        }
        req := req.(generatedTokens := req.generatedTokens + e.usage.outputTokens, tokenIds := req.tokenIds + [e.tokenId]);
        req := req.(usage := Usage(req.computedTokens, req.generatedTokens, req.computedTokens + req.generatedTokens),
                    phase := DecodeReady);
        next := Some(DecodeWork(req, workId));
      case DecodeChunk =>
        req := req.(generatedTokens := req.generatedTokens + e.usage.outputTokens, tokenIds := req.tokenIds + [e.tokenId]);
        req := req.(usage := Usage(req.promptTokens, req.generatedTokens, req.promptTokens + req.generatedTokens));
        if e.done || req.generatedTokens >= req.maxTokens {
          req := req.(phase := Finished, finishReason := if e.finishReason == NoReason then Length else e.finishReason);
        } else {
          req := req.(phase := DecodeRunning);
          next := Some(DecodeWork(req, workId));
        }
      case RequestFinished => req := req.(phase := Finished);
      case RequestFailed => req := req.(phase := Failed);
      case RequestCanceled => req := req.(phase := Canceled);
      }
      requests := requests[e.requestId := req];
    }

    /** deleteRequest: the request is forgotten and its blocks are given back. */
    method Delete(rid: RequestId)
      requires rid in requests
      modifies this
      ensures requests == old(requests) - {rid}
      ensures releases == old(releases) + [(old(requests)[rid].executorId, rid)]
    {
      var req := requests[rid];
      requests := requests - {rid};
      releases := releases + [(req.executorId, rid)];
    }

    /** Cancel, Fail and Finish differ in the event they publish only. A request that is gone is left alone. */
    method Close(rid: RequestId)
      modifies this
      ensures requests == old(requests) - {rid}
      ensures releases == if rid in old(requests) then old(releases) + [(old(requests)[rid].executorId, rid)] else old(releases)
    {
      if rid in requests {
        Delete(rid);
      }
    }

    /** CanSchedule; a request past its deadline is dropped on the way. */
    method CanSchedule(w: Work, now: nat) returns (ok: bool)
      modifies this
      ensures w.requestId !in old(requests) ==> !ok && requests == old(requests) && releases == old(releases)
      ensures w.requestId in old(requests) ==>
        var req := old(requests)[w.requestId];
        var late := req.deadline.Some? && req.deadline.value < now;
        && (ok <==> !late && (req.phase.PrefillReady? || req.phase.PrefillRunning? || req.phase.DecodeReady? || req.phase.DecodeRunning?))
        && requests == (if late then old(requests) - {w.requestId} else old(requests))
        && releases == (if late then old(releases) + [(req.executorId, w.requestId)] else old(releases))
    {
      if w.requestId !in requests {
        return false;
      }
      var req := requests[w.requestId];
      if Expired(req, now) {
        Delete(w.requestId);
        return false;
      }
      return !Over(req.phase);
    }
  }
}

/** From the runner's result of a work item to the engine's event: what the executor reports is what the life of a request expects. */
module Results {
  import opened Hashing
  import opened BlockSpec
  import opened Batch
  import opened WorkItems
  import opened Lifecycle
  import opened LifeRuns
  import opened Runner

  /** The event that Execute makes of the result of one of the batch's works. */
  function EventOf(w: Work, r: ExecuteResult): Event {
    Event(r.workId, r.requestId, NextPhase(w, false), r.tokenId, r.done,
          Usage(r.computedTokens, r.generatedTokens, r.computedTokens + r.generatedTokens), r.finishReason)
  }

  /**
   * A work goes out as an execute item, and its result comes back as the report of one move in the request's life. The move
   * carries the model's token exactly when the work samples, and it is done exactly when that token ends the text.
   */
  lemma ResultIsReport(w: Work, a: Allocation, bs: nat, token: Token, eos: set<Token>, tokens: nat, workId: WorkId) returns (move: Move)
    requires Sliceable(w) && w.phase != Unspecified
    ensures move.RunWork? && move.tokens == tokens && move.workId == workId
    ensures EventOf(w, ResultOf(Execution(w, a, bs), token, eos)) == LifeRuns.Reported(w, move)
    ensures Sampled(w) ==> move.tok == token
    ensures move.done <==> Sampled(w) && token in eos
    ensures move.reason == if Sampled(w) && token in eos then Stop else NoReason
  {
    var result := ResultOf(Execution(w, a, bs), token, eos);
    move := RunWork(tokens, result.tokenId, result.done, result.finishReason, workId);
  }
}

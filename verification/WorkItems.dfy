/** Work items on their way to an executor and back: chunks, execute items, event types. */
module WorkItems {
  import opened Hashing
  import opened Spans
  import opened Wrappers
  import opened BlockSpec
  import opened Batch

  // ---------------------------------------------------------------- budget.go

  /** WorkBudgetCost */
  function Cost(w: Work): nat {
    match w.phase
    case Prefill => if w.numNewTokens > 0 then w.numNewTokens else |w.tokens|
    case Decode => 1
    case Unspecified => 0
  }

  function Min(a: nat, b: nat): nat {
    if a <= b then a else b
  }

  /** splitPrefillChunk: the first `tokens` tokens of the work, and the rest if there is one. */
  function Split(w: Work, tokens: nat): (Work, Option<Work>)
    requires Min(tokens, Cost(w)) < Cost(w) ==> Min(tokens, Cost(w)) <= |w.tokens|
  {
    var n, cost := Min(tokens, Cost(w)), Cost(w);
    if n == cost then (w.(numNewTokens := n), None)
    else (w.(numNewTokens := n, tokens := w.tokens[..n]),
          Some(w.(prefillOffset := w.prefillOffset + n, numNewTokens := cost - n, tokens := w.tokens[n..])))
  }

  /** The chunk and the rest continue each other and together are the work. */
  lemma SplitTiles(w: Work, tokens: nat)
    requires w.phase == Prefill && w.numNewTokens == |w.tokens| > 0
    ensures var (chunk, rest) := Split(w, tokens);
      && chunk.prefillOffset == w.prefillOffset && chunk.numNewTokens == |chunk.tokens| == Min(tokens, |w.tokens|)
      && (rest.None? <==> tokens >= |w.tokens|)
      && (rest.None? ==> chunk == w)
      && (rest.Some? ==>
            && rest.value.prefillOffset == chunk.prefillOffset + chunk.numNewTokens
            && rest.value.numNewTokens == |rest.value.tokens| > 0
            && chunk.tokens + rest.value.tokens == w.tokens
            && rest.value.prefillOffset + rest.value.numNewTokens == w.prefillOffset + w.numNewTokens)
  {
  }

  // ---------------------------------------------------------------- transfer.go

  /** The slice BatchToExecute takes of a decode item exists. */
  predicate Sliceable(w: Work) {
    w.phase == Decode ==> w.numNewTokens <= |w.tokens| && w.numNewTokens <= w.tokenCntTotal
  }

  /** One item of BatchToExecute. */
  function Execution(w: Work, a: Allocation, blockSize: nat): ExecuteItem
    requires Sliceable(w)
  {
    if w.phase == Decode then
      ExecuteItem(w.workId, w.requestId, Decode, w.tokens[|w.tokens| - w.numNewTokens..], w.tokenCntTotal - w.numNewTokens,
                  w.generatedTokens, w.numNewTokens, blockSize, a.table, a.added, true)
    else
      ExecuteItem(w.workId, w.requestId, Prefill, w.tokens, w.prefillOffset, 0, w.numNewTokens, blockSize, a.table, a.added,
                  w.prefillOffset + w.numNewTokens >= w.tokenCntTotal)
  }

  datatype Batched = Batched(work: Work, allocation: Allocation, blockSize: nat)

  method BatchToExecute(works: seq<Batched>) returns (items: seq<ExecuteItem>)
    requires forall i :: 0 <= i < |works| ==> Sliceable(works[i].work)
    ensures |items| == |works|
    ensures forall i :: 0 <= i < |works| ==> items[i] == Execution(works[i].work, works[i].allocation, works[i].blockSize)
  {
    items := [];
    for i := 0 to |works|
      invariant |items| == i
      invariant forall j :: 0 <= j < i ==> items[j] == Execution(works[j].work, works[j].allocation, works[j].blockSize)
    {
      var w, a := works[i].work, works[i].allocation;
      if w.phase == Decode {
        items := items + [ExecuteItem(w.workId, w.requestId, Decode, w.tokens[|w.tokens| - w.numNewTokens..],
                                      w.tokenCntTotal - w.numNewTokens, w.generatedTokens, w.numNewTokens,
                                      works[i].blockSize, a.table, a.added, true)];
      } else {
        items := items + [ExecuteItem(w.workId, w.requestId, Prefill, w.tokens, w.prefillOffset, 0, w.numNewTokens,
                                      works[i].blockSize, a.table, a.added,
                                      w.prefillOffset + w.numNewTokens >= w.tokenCntTotal)];
      }
    }
  }

  // ---------------------------------------------------------------- executor.go

  datatype EventType = PrefillChunk | PrefillFinished | DecodeChunk | RequestFinished | RequestFailed | RequestCanceled

  /** nextPhase */
  function NextPhase(w: Work, failed: bool): EventType {
    if failed then RequestFailed
    else if w.phase == Prefill then
      if w.prefillOffset + w.numNewTokens >= w.tokenCntTotal then PrefillFinished else PrefillChunk
    else if w.phase == Decode then DecodeChunk
    else RequestFinished
  }

  /** The executor samples exactly when the engine will read a token out of the event. */
  lemma SampleMeansToken(w: Work, a: Allocation, blockSize: nat)
    requires Sliceable(w) && w.phase != Unspecified
    ensures Execution(w, a, blockSize).sample <==> NextPhase(w, false) in {PrefillFinished, DecodeChunk}
  {
  }

  /** The item asks for positions up to exactly the tokens its allocation has room for. */
  lemma ExecutionFitsAllocation(w: Work, a: Allocation, bs: nat)
    requires bs > 0 && Sliceable(w) && w.phase != Unspecified && (w.phase == Prefill ==> w.numNewTokens == |w.tokens|)
    requires a.tokensAfterCommit == RequiredTokens(w) <= Span(|a.table|, bs)
    ensures End(Execution(w, a, bs)) == a.tokensAfterCommit
    ensures Execution(w, a, bs).numNewTokens > 0 ==> ItemError(Execution(w, a, bs), bs) == None
  {
  }
}

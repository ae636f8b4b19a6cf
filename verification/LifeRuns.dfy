/** The whole life of one request: which chunks are executed, when it samples, and that it ends. */
module LifeRuns {
  import opened Hashing
  import opened Wrappers
  import opened BlockSpec
  import opened WorkItems
  import opened Lifecycle

  /** One prefill execution. */
  datatype Executed = Executed(offset: nat, size: nat, sampled: bool, kind: EventType)

  /** `work` is queued; `committed` is the token count of the last committed allocation. */
  datatype Life = Life(req: Request, work: Option<Work>, committed: nat, chunks: seq<Executed>, executions: nat)

  /**
   * Shorten: the scheduler took a chunk of the work, could not submit it, and queued the chunk again.
   * RunWork: a chunk (or the decode step) was executed and its event handled.
   */
  datatype Move =
    | Shorten(tokens: nat)
    | RunWork(tokens: nat, tok: Token, done: bool, reason: FinishReason, workId: WorkId)

  predicate Sampled(w: Work) {
    w.phase == Decode || w.prefillOffset + w.numNewTokens >= w.tokenCntTotal
  }

  /** What the Transformers runner reports for a work item: its prefill tokens and one token per sample. */
  function Reported(w: Work, move: Move): Event
    requires move.RunWork?
  {
    var computed, generated := if w.phase == Prefill then w.numNewTokens else 0, if Sampled(w) then 1 else 0;
    Event(w.workId, w.requestId, NextPhase(w, false), move.tok, move.done, Usage(computed, generated, computed + generated), move.reason)
  }

  function Chunk(w: Work, tokens: nat): Work
    requires w.phase == Prefill ==> w.numNewTokens == |w.tokens|
  {
    if w.phase == Prefill then Split(w, tokens).0 else w
  }

  // ---------------------------------------------------------------- the invariant

  /** Chunks that follow one another from `from` to `upTo`. */
  ghost predicate Tiles(chunks: seq<Executed>, from: nat, upTo: nat) {
    && (chunks == [] ==> from == upTo)
    && (chunks != [] ==> chunks[0].offset == from && chunks[|chunks| - 1].offset + chunks[|chunks| - 1].size == upTo)
    && (forall i :: 0 <= i < |chunks| - 1 ==> chunks[i].offset + chunks[i].size == chunks[i + 1].offset)
    && (forall i :: 0 <= i < |chunks| ==> chunks[i].size > 0)
  }

  /** A chunk samples exactly when it ends the prompt, and then its event says that the prefill is finished. */
  ghost predicate SamplesLast(chunks: seq<Executed>, prompt: nat) {
    forall i :: 0 <= i < |chunks| ==>
      && (chunks[i].sampled <==> chunks[i].offset + chunks[i].size == prompt)
      && (chunks[i].kind == PrefillFinished <==> chunks[i].sampled)
  }

  function Max(a: int, b: int): int {
    if a >= b then a else b
  }

  /** How many executions the request may still need. */
  function Remaining(l: Life): int {
    if l.work.None? then 0
    else if l.work.value.phase == Prefill then l.req.promptTokens - l.req.computedTokens + Max(1, l.req.maxTokens - 1)
    else Max(1, l.req.maxTokens - l.req.generatedTokens)
  }

  ghost predicate WorkOk(l: Life, w: Work) {
    && |l.req.tokenIds| == l.req.promptTokens + l.req.generatedTokens
    && w.requestId == l.req.requestId && w.cacheBlocks == l.req.cacheBlocks && w.hashesTotal == l.req.hashesTotal
    && match w.phase
       case Prefill =>
         && l.req.generatedTokens == 0
         && w.prefillOffset == l.req.computedTokens == l.committed
         && 1 <= w.numNewTokens == |w.tokens| && w.prefillOffset + w.numNewTokens <= l.req.promptTokens == w.tokenCntTotal
         && w.tokens == l.req.tokenIds[w.prefillOffset..w.prefillOffset + w.numNewTokens]
       case Decode =>
         && l.req.generatedTokens >= 1 && l.req.computedTokens == l.req.promptTokens
         && w == DecodeWork(l.req, w.workId) && l.committed + 1 == |l.req.tokenIds|
         && l.req.generatedTokens < Max(2, l.req.maxTokens)
       case Unspecified => false
  }

  ghost predicate LifeInv(l: Life, cached: nat) {
    && cached < l.req.promptTokens
    && |l.req.tokenIds| == l.req.promptTokens + l.req.generatedTokens
    && l.req.computedTokens <= l.req.promptTokens
    && Tiles(l.chunks, cached, l.req.computedTokens)
    && SamplesLast(l.chunks, l.req.promptTokens)
    && (l.work.Some? ==> WorkOk(l, l.work.value))
    && (l.work.None? ==> l.req.computedTokens == l.req.promptTokens && l.req.phase == Finished && 2 <= l.req.generatedTokens <= Max(2, l.req.maxTokens))
    && l.executions + Remaining(l) <= l.req.promptTokens - cached + Max(1, l.req.maxTokens - 1)
  }

  // ---------------------------------------------------------------- moves

  /** The scheduler takes at least one token of a prefill. */
  predicate Possible(l: Life, move: Move) {
    l.work.Some? && move.tokens > 0 && (l.work.value.phase == Prefill ==> l.work.value.numNewTokens == |l.work.value.tokens| > 0)
  }

  /** The work has been executed and its event handled. */
  function Handled(l: Life, w: Work, move: Move): Life
    requires move.RunWork? && Reports(l.req, Reported(w, move))
  {
    var e := Reported(w, move);
    Life(Updated(l.req, e), Successor(l.req, e, move.workId), RequiredTokens(w),
         if w.phase == Prefill then l.chunks + [Executed(w.prefillOffset, w.numNewTokens, Sampled(w), e.kind)] else l.chunks,
         l.executions + 1)
  }

  ghost function Moved(l: Life, cached: nat, move: Move): Life
    requires LifeInv(l, cached) && Possible(l, move)
  {
    var w := Chunk(l.work.value, move.tokens);
    match move
    case Shorten(_) => l.(work := Some(w))
    case RunWork(_, _, _, _, _) =>
      RunReports(l, cached, move);
      Handled(l, w, move)
  }

  /** The executor's reports are within the prompt. */
  lemma RunReports(l: Life, cached: nat, move: Move)
    requires LifeInv(l, cached) && Possible(l, move) && move.RunWork?
    ensures Reports(l.req, Reported(Chunk(l.work.value, move.tokens), move))
  {
    if l.work.value.phase == Prefill {
      SplitTiles(l.work.value, move.tokens);
    }
  }

  lemma ChunkOk(l: Life, cached: nat, move: Move)
    requires LifeInv(l, cached) && Possible(l, move)
    ensures WorkOk(l, Chunk(l.work.value, move.tokens)) && Chunk(l.work.value, move.tokens).phase == l.work.value.phase
  {
    var w := l.work.value;
    if w.phase == Prefill {
      SplitTiles(w, move.tokens);
      var n := Min(move.tokens, |w.tokens|);
      assert WorkOk(l, w) && n <= w.numNewTokens == |w.tokens|;
      assert w.tokens == l.req.tokenIds[w.prefillOffset..w.prefillOffset + w.numNewTokens];
      assert w.tokens[..n] == l.req.tokenIds[w.prefillOffset..w.prefillOffset + n];
      assert w.tokens[..|w.tokens|] == w.tokens;
    }
  }

  lemma TilesMore(chunks: seq<Executed>, from: nat, upTo: nat, c: Executed)
    requires Tiles(chunks, from, upTo) && c.offset == upTo && c.size > 0
    ensures Tiles(chunks + [c], from, upTo + c.size)
  {
    var more := chunks + [c];
    forall i | 0 <= i < |more| - 1
      ensures more[i].offset + more[i].size == more[i + 1].offset
    {
    }
  }

  lemma PrefillRuns(l: Life, cached: nat, w: Work, move: Move)
    requires LifeInv(l, cached) && l.work.Some? && WorkOk(l, w) && w.phase == Prefill && move.RunWork?
    requires Reports(l.req, Reported(w, move)) && l.work.value.phase == Prefill
    ensures LifeInv(Handled(l, w, move), cached)
  {
    TilesMore(l.chunks, cached, l.req.computedTokens, Executed(w.prefillOffset, w.numNewTokens, Sampled(w), Reported(w, move).kind));
  }

  lemma DecodeRuns(l: Life, cached: nat, w: Work, move: Move)
    requires LifeInv(l, cached) && l.work.Some? && WorkOk(l, w) && w.phase == Decode && move.RunWork?
    requires Reports(l.req, Reported(w, move)) && l.work.value.phase == Decode
    ensures LifeInv(Handled(l, w, move), cached)
  {
  }

  lemma ShortenKeeps(l: Life, cached: nat, w: Work)
    requires LifeInv(l, cached) && l.work.Some? && WorkOk(l, w) && w.phase == l.work.value.phase
    ensures LifeInv(l.(work := Some(w)), cached)
  {
  }

  lemma MovedInv(l: Life, cached: nat, move: Move)
    requires LifeInv(l, cached) && Possible(l, move)
    ensures LifeInv(Moved(l, cached, move), cached)
  {
    ChunkOk(l, cached, move);
    var w := Chunk(l.work.value, move.tokens);
    if move.RunWork? {
      RunReports(l, cached, move);
      if w.phase == Prefill {
        PrefillRuns(l, cached, w, move);
      } else {
        DecodeRuns(l, cached, w, move);
      }
    } else {
      ShortenKeeps(l, cached, w);
    }
  }

  // ---------------------------------------------------------------- whole lives

  /** The life of a request that matched `cached` tokens of its prompt. */
  function Born(req: Request, workId: WorkId): Life
    requires req.computedTokens < req.promptTokens == |req.tokenIds|
  {
    Life(req, Some(FirstWork(req, workId)), req.computedTokens, [], 0)
  }

  lemma BornInv(req: Request, workId: WorkId)
    requires req.computedTokens < req.promptTokens == |req.tokenIds| && req.generatedTokens == 0
    ensures LifeInv(Born(req, workId), req.computedTokens)
  {
    assert req.tokenIds[req.computedTokens..] == req.tokenIds[req.computedTokens..req.promptTokens];
  }

  ghost predicate Legal(l: Life, cached: nat, moves: seq<Move>)
    requires LifeInv(l, cached)
    decreases |moves|
  {
    moves == [] || (Possible(l, moves[0]) && (MovedInv(l, cached, moves[0]); Legal(Moved(l, cached, moves[0]), cached, moves[1..])))
  }

  ghost function Lived(l: Life, cached: nat, moves: seq<Move>): (m: Life)
    requires LifeInv(l, cached) && Legal(l, cached, moves)
    ensures LifeInv(m, cached)
    decreases |moves|
  {
    if moves == [] then l
    else
      MovedInv(l, cached, moves[0]);
      Lived(Moved(l, cached, moves[0]), cached, moves[1..])
  }

  lemma MovedKeeps(l: Life, cached: nat, move: Move)
    requires LifeInv(l, cached) && Possible(l, move)
    ensures var m := Moved(l, cached, move); m.req.promptTokens == l.req.promptTokens && m.req.maxTokens == l.req.maxTokens
  {
  }

  lemma {:induction false} LivedKeeps(l: Life, cached: nat, moves: seq<Move>)
    requires LifeInv(l, cached) && Legal(l, cached, moves)
    ensures var m := Lived(l, cached, moves); m.req.promptTokens == l.req.promptTokens && m.req.maxTokens == l.req.maxTokens
    decreases |moves|
  {
    if moves != [] {
      MovedKeeps(l, cached, moves[0]);
      MovedInv(l, cached, moves[0]);
      LivedKeeps(Moved(l, cached, moves[0]), cached, moves[1..]);
    }
  }

  /**
   * However the scheduler splits the prompt, and whichever chunks are queued again after a failed Submit,
   * the executed chunks tile the part of the prompt that was not cached, up to what has been computed,
   * without gap or overlap; exactly the chunk that ends the prompt samples, and its event is the only
   * PrefillFinished.
   */
  lemma ChunksTilePrompt(req: Request, workId: WorkId, moves: seq<Move>)
    requires req.computedTokens < req.promptTokens == |req.tokenIds| && req.generatedTokens == 0
    requires (BornInv(req, workId); Legal(Born(req, workId), req.computedTokens, moves))
    ensures (BornInv(req, workId);
             var l := Lived(Born(req, workId), req.computedTokens, moves);
             && Tiles(l.chunks, req.computedTokens, l.req.computedTokens)
             && SamplesLast(l.chunks, req.promptTokens)
             && l.req.computedTokens <= req.promptTokens
             && (l.work.None? || l.work.value.phase == Decode ==> l.req.computedTokens == req.promptTokens))
  {
    BornInv(req, workId);
    LivedKeeps(Born(req, workId), req.computedTokens, moves);
  }

  /** Every request ends: the number of executions is bounded by the prompt that was not cached and by MaxTokens. */
  lemma ExecutionsBounded(req: Request, workId: WorkId, moves: seq<Move>)
    requires req.computedTokens < req.promptTokens == |req.tokenIds| && req.generatedTokens == 0
    requires (BornInv(req, workId); Legal(Born(req, workId), req.computedTokens, moves))
    ensures (BornInv(req, workId);
             Lived(Born(req, workId), req.computedTokens, moves).executions
               <= req.promptTokens - req.computedTokens + Max(1, req.maxTokens - 1))
  {
    BornInv(req, workId);
    LivedKeeps(Born(req, workId), req.computedTokens, moves);
  }

  /** Each handled event that yields a successor brings the end nearer. */
  lemma RunsComeToAnEnd(l: Life, cached: nat, move: Move)
    requires LifeInv(l, cached) && Possible(l, move) && move.RunWork?
    ensures (MovedInv(l, cached, move); var m := Moved(l, cached, move);
             && 0 <= Remaining(m) < Remaining(l)
             && (l.work.value.phase == Decode ==> m.work.None? || m.work.value.phase == Decode)
             && m.executions == l.executions + 1)
  {
    ChunkOk(l, cached, move);
    MovedInv(l, cached, move);
  }

  // ---------------------------------------------------------------- what the client is told

  /** The tokens that a run's executions sampled, in order. */
  ghost function Samples(l: Life, cached: nat, moves: seq<Move>): seq<Token>
    requires LifeInv(l, cached) && Legal(l, cached, moves)
    decreases |moves|
  {
    if moves == [] then []
    else
      MovedInv(l, cached, moves[0]);
      Sample(l, moves[0]) + Samples(Moved(l, cached, moves[0]), cached, moves[1..])
  }

  /** The token of one move: a chunk that does not end its prompt yields none. */
  function Sample(l: Life, move: Move): seq<Token>
    requires Possible(l, move)
  {
    if move.RunWork? && Sampled(Chunk(l.work.value, move.tokens)) then [move.tok] else []
  }

  lemma MovedText(l: Life, cached: nat, move: Move)
    requires LifeInv(l, cached) && Possible(l, move)
    ensures Moved(l, cached, move).req.tokenIds == l.req.tokenIds + Sample(l, move)
  {
    ChunkOk(l, cached, move);
    assert l.req.tokenIds + [] == l.req.tokenIds;
  }

  /** A request's text is its prompt and then, in order, the tokens that were sampled for it. */
  lemma {:induction false} TextIsPromptAndSamples(l: Life, cached: nat, moves: seq<Move>)
    requires LifeInv(l, cached) && Legal(l, cached, moves)
    ensures Lived(l, cached, moves).req.tokenIds == l.req.tokenIds + Samples(l, cached, moves)
    decreases |moves|
  {
    if moves == [] {
      assert l.req.tokenIds + [] == l.req.tokenIds;
    } else {
      MovedInv(l, cached, moves[0]);
      MovedText(l, cached, moves[0]);
      var m := Moved(l, cached, moves[0]);
      TextIsPromptAndSamples(m, cached, moves[1..]);
      TextGoesOn(l.req.tokenIds, Sample(l, moves[0]), Samples(m, cached, moves[1..]));
    }
  }

  lemma TextGoesOn(text: seq<Token>, sample: seq<Token>, more: seq<Token>)
    ensures text + sample + more == text + (sample + more)
  {
  }

  /** The usage counts what has been computed of the prompt and what has been generated. */
  ghost predicate Accounted(req: Request) {
    req.usage == Usage(req.computedTokens, req.generatedTokens, req.computedTokens + req.generatedTokens)
  }

  /** Before its first result a request has no usage; from then on its usage is accurate. */
  ghost predicate UsageOk(l: Life) {
    if l.executions == 0 then l.req.usage == Usage(0, 0, 0) && l.req.generatedTokens == 0 else Accounted(l.req)
  }

  lemma MovedUsage(l: Life, cached: nat, move: Move)
    requires LifeInv(l, cached) && Possible(l, move) && UsageOk(l)
    ensures UsageOk(Moved(l, cached, move))
  {
    ChunkOk(l, cached, move);
  }

  lemma {:induction false} UsageIsAccurate(l: Life, cached: nat, moves: seq<Move>)
    requires LifeInv(l, cached) && Legal(l, cached, moves) && UsageOk(l)
    ensures UsageOk(Lived(l, cached, moves))
    decreases |moves|
  {
    if moves != [] {
      MovedInv(l, cached, moves[0]);
      MovedUsage(l, cached, moves[0]);
      UsageIsAccurate(Moved(l, cached, moves[0]), cached, moves[1..]);
    }
  }

  /**
   * A result is followed by a work item exactly while the request can be scheduled; a request that ends has the
   * reason that was reported, or, when none was, its length.
   */
  lemma EndsWithReason(l: Life, cached: nat, move: Move)
    requires LifeInv(l, cached) && Possible(l, move) && move.RunWork?
    ensures var m := Moved(l, cached, move);
      && (m.work.Some? <==> !Over(m.req.phase))
      && m.req.finishReason ==
           (if m.work.Some? then l.req.finishReason else if move.reason == NoReason then Length else move.reason)
  {
    ChunkOk(l, cached, move);
  }

  // ---------------------------------------------------------------- what does not hold

  /**
   * MaxTokens is not a limit on its own: the token of the prefill is followed by a decode step whatever
   * MaxTokens says. A request that no executor stops early ends with max(2, MaxTokens) tokens.
   */
  lemma TokensAtLengthLimit(l: Life, cached: nat, move: Move)
    requires LifeInv(l, cached) && Possible(l, move) && move.RunWork? && !move.done
    requires Moved(l, cached, move).work.None?
    ensures Moved(l, cached, move).req.generatedTokens == Max(2, l.req.maxTokens)
    ensures Moved(l, cached, move).req.generatedTokens > l.req.maxTokens <==> l.req.maxTokens < 2
  {
    ChunkOk(l, cached, move);
  }

  /** A request for one token: the life of its first and its second execution. */
  lemma TwoTokensForOne() returns (req: Request, workId: WorkId, moves: seq<Move>)
    ensures req.computedTokens < req.promptTokens == |req.tokenIds| && req.generatedTokens == 0 && req.maxTokens == 1
    ensures (BornInv(req, workId); Legal(Born(req, workId), req.computedTokens, moves))
    ensures forall i :: 0 <= i < |moves| ==> moves[i].RunWork? && !moves[i].done
    ensures (BornInv(req, workId);
             var end := Lived(Born(req, workId), req.computedTokens, moves);
             end.work.None? && end.req.generatedTokens == 2 > end.req.maxTokens)
  {
    req := Request(RequestId("r"), ExecutorId("e"), PrefillReady, [0], 1, 0, 0, 1, None, [], [], Usage(0, 0, 0), NoReason);
    workId := WorkId("w");
    var move := RunWork(1, 7, false, NoReason, workId);
    moves := [move, move];
    BornInv(req, workId);
    var born := Born(req, workId);
    ChunkOk(born, 0, move);
    MovedInv(born, 0, move);
    var first := Moved(born, 0, move);
    assert first.work == Some(DecodeWork(first.req, workId)) && first.req.generatedTokens == 1;
    ChunkOk(first, 0, move);
    MovedInv(first, 0, move);
    var second := Moved(first, 0, move);
    assert second.work.None? && second.req.generatedTokens == 2;
    assert moves[1..] == [move] && [move][1..] == [];
    assert Legal(second, 0, []) && Lived(second, 0, []) == second;
    assert Legal(first, 0, [move]) && Lived(first, 0, [move]) == second;
  }

  /**
   * An event that is done ends the request only when it is a decode event (or no result at all): done
   * prefill events still leave a work item in the queue.
   */
  lemma DoneLeavesWork(req: Request, e: Event, workId: WorkId)
    requires Reports(req, e) && e.done
    ensures Successor(req, e, workId).Some? <==> e.kind in {PrefillChunk, PrefillFinished}
  {
  }

  /** A one-token prompt whose first token already ends the text: a decode step is queued all the same. */
  lemma DoneAfterPrefill() returns (req: Request, e: Event, workId: WorkId)
    ensures req.promptTokens == 1 && e.kind == PrefillFinished && e.done && e.finishReason == Stop
    ensures Reports(req, e) && Successor(req, e, workId).Some? && Updated(req, e).phase == DecodeReady
  {
    req := Request(RequestId("r"), ExecutorId("e"), PrefillReady, [0], 1, 0, 0, 5, None, [], [], Usage(0, 0, 0), NoReason);
    e := Event(WorkId("w"), RequestId("r"), PrefillFinished, 2, true, Usage(1, 1, 2), Stop);
    workId := WorkId("v");
  }
}

/**
 handleEvent on an executor's metadata is the act of the serving model: a result commits its work and releases the
 request when it is over, a failure takes the work back. And what that leaves, in the terms of the metadata.
 */
module HandledActs {
  import opened Hashing
  import opened Spans
  import opened Wrappers
  import opened BlockSpec
  import opened Bags
  import opened BlockInv
  import opened CommitInv
  import opened ReleaseInv
  import opened NodeSteps
  import opened Engine
  import opened WorkItems
  import opened Lifecycle
  import opened LifeRuns
  import opened RequestEffects
  import opened ServingState
  import opened ServingRuns
  import opened EventHandling
  import opened Titles
  import opened PrefixReuse

  // ---------------------------------------------------------------- on one executor

  lemma CommittedState(n: Node, wid: WorkId)
    requires Sound(n)
    ensures Bounded(n.s) && AfterCommit(n, wid).s == Commit(n.s, wid) && Sound(AfterCommit(n, wid)) && Bounded(Commit(n.s, wid))
  {
    SoundIsInv(n);
    CommitStep(n, wid);
    SoundIsInv(AfterCommit(n, wid));
  }

  lemma RolledBackState(n: Node, wid: WorkId)
    requires Sound(n)
    ensures Bounded(n.s) && AfterRollback(n, wid).s == Rollback(n.s, wid) && Sound(AfterRollback(n, wid)) && Bounded(Rollback(n.s, wid))
  {
    SoundIsInv(n);
    RollbackStep(n, wid);
    SoundIsInv(AfterRollback(n, wid));
  }

  lemma FreedState(n: Node, r: RequestId)
    requires Sound(n)
    ensures Bounded(n.s) && AfterFree(n, r).s == FreeRequest(n.s, r)
  {
    SoundIsInv(n);
  }

  /** A result of the request's own executor commits its work; the request's blocks go if it is over or cannot go on. */
  lemma SuccessSettles(n: Node, req: Request, e: Event, queued: bool)
    requires Sound(n) && e.kind != RequestFailed
    ensures Bounded(n.s)
    ensures HandledBlocks(n.s, true, req, e, req.executorId, false, queued)
      == AfterSuccess(n, e.workId, e.requestId, !queued || EndsRequest(req, e)).s
  {
    CommittedState(n, e.workId);
    FreedState(AfterCommit(n, e.workId), e.requestId);
  }

  /** A failure, and a result of another executor, take the work back. */
  lemma FailureSettles(n: Node, req: Request, e: Event, from: ExecutorId, err: bool)
    requires Sound(n) && (from != req.executorId || e.kind == RequestFailed)
    ensures Bounded(n.s)
    ensures HandledBlocks(n.s, true, req, e, from, err, true) == AfterFailure(n, e.workId, e.requestId, from != req.executorId || e.done).s
  {
    RolledBackState(n, e.workId);
    FreedState(AfterRollback(n, e.workId), e.requestId);
  }

  // ---------------------------------------------------------------- the acts

  /** A report ends its request exactly when it is done or no work follows. */
  lemma EndsIffReleases(r: RequestId, a: Active, move: Move) returns (life: Life)
    requires Living(r, a) && a.stage.Submitted? && move.RunWork? && move.tokens == a.stage.tokens
    ensures (LivingIsLifeOk(r, a); life == Moved(a.life, a.cached, move))
    ensures var e := Reported(a.stage.chunk, move);
      && e.workId == a.stage.chunk.workId && e.requestId == r && e.kind != RequestFailed && Reports(a.life.req, e)
      && life.req == Updated(a.life.req, e) && life.work == Successor(a.life.req, e, move.workId)
      && (EndsRequest(a.life.req, e) <==> life.work.None? || move.done)
  {
    LivingIsLifeOk(r, a);
    ChunkOk(a.life, a.cached, move);
    RunReports(a.life, a.cached, move);
    life := Moved(a.life, a.cached, move);
  }

  /**
   * In every reachable state, handling the result of a submitted chunk that is not an error leaves the block metadata,
   * the request and its next work as the act Report does. If the queue for that work is full, the request's blocks are released instead.
   */
  lemma HandledIsReport(sha: Str -> Str, v: Serving, r: RequestId, move: Move)
      returns (w: Serving, a: Active, e: Event, n: Node, m: Node)
    requires ServingInv(v) && Allowed(v, Report(r, move))
    ensures w == Then(sha, v, Report(r, move)) && a == v.lives[r] && e == Reported(a.stage.chunk, move)
    ensures Home(a) in v.g.nodes && n == v.g.nodes[Home(a)] && Bounded(n.s) && w.g == Put(v.g, Home(a), m)
    ensures m.s == HandledBlocks(n.s, true, a.life.req, e, Home(a), false, true)
    ensures HandledBlocks(n.s, true, a.life.req, e, Home(a), false, false) == AfterSuccess(n, a.stage.chunk.workId, r, true).s
    ensures Reports(a.life.req, e) && (r in w.lives <==> Successor(a.life.req, e, move.workId).Some?)
    ensures r in w.lives ==>
      && w.lives[r].life.req == Updated(a.life.req, e) && w.lives[r].life.work == Successor(a.life.req, e, move.workId)
      && w.lives[r].life.work.value in w.queue
  {
    var home;
    w, a, home, n := ReportThen(sha, v, r, move);
    e := Reported(a.stage.chunk, move);
    var life := EndsIffReleases(r, a, move);
    m := AfterSuccess(n, a.stage.chunk.workId, r, Releases(v, r, move));
    SuccessSettles(n, a.life.req, e, true);
    SuccessSettles(n, a.life.req, e, false);
    ReportQueues(sha, v, r, move);
  }

  /** The next work is queued. */
  lemma ReportQueues(sha: Str -> Str, v: Serving, r: RequestId, move: Move)
    requires ServingInv(v) && Allowed(v, Report(r, move))
    ensures var life, w := MovedLife(v, r, move), Then(sha, v, Report(r, move));
      && (r in w.lives <==> life.work.Some?) && (r in w.lives ==> w.lives[r].life == life && life.work.value in w.queue)
  {
    var g := ThenIsNext(sha, v, Report(r, move));
  }

  /** The request has failed, and no work follows. */
  lemma NothingFollows(req: Request, e: Event, ok: bool, workId: WorkId) returns (f: Event)
    requires !ok || e.kind == RequestFailed
    ensures f == Finalized(e, ok) && Reports(req, f) && Successor(req, f, workId) == None && Over(Updated(req, f).phase)
    ensures f.kind == RequestFailed && (f.done <==> !ok || e.done)
  {
    f := Finalized(e, ok);
  }

  /** A failed work, and a work whose result came from another executor, leave the metadata as the act Fail does. */
  lemma HandledIsFail(sha: Str -> Str, v: Serving, r: RequestId, e: Event, from: ExecutorId, err: bool)
      returns (w: Serving, a: Active, n: Node, m: Node)
    requires ServingInv(v) && r in v.lives && v.lives[r].stage.Submitted?
    requires e.requestId == r && e.workId == v.lives[r].stage.chunk.workId && (from != Home(v.lives[r]) || e.kind == RequestFailed)
    ensures w == Then(sha, v, Fail(r, from != Home(v.lives[r]) || e.done)) && a == v.lives[r]
    ensures Home(a) in v.g.nodes && n == v.g.nodes[Home(a)] && Bounded(n.s) && w.g == Put(v.g, Home(a), m)
    ensures m.s == HandledBlocks(n.s, true, a.life.req, e, from, err, true)
  {
    var home;
    w, a, home, n := FailThen(sha, v, r, from != Home(v.lives[r]) || e.done);
    m := AfterFailure(n, e.workId, r, from != Home(v.lives[r]) || e.done);
    FailureSettles(n, a.life.req, e, from, err);
  }

  // ---------------------------------------------------------------- what that leaves

  /** A committed work's tokens count as computed; a request that is over has no table. */
  lemma SuccessLeaves(n: Node, wid: WorkId, r: RequestId, over: bool) returns (m: Node)
    requires Sound(n) && wid in n.s.pending && n.s.pending[wid].requestId == r
    ensures m == AfterSuccess(n, wid, r, over) && Idle(m, r) && wid !in m.s.pending
    ensures over ==> r !in m.s.tables
    ensures !over ==> m.s.tables == n.s.tables && Progress(m, r) == n.s.pending[wid].tokensAfterCommit
  {
    var k, q := CommitOnly(n, wid);
    CommitStep(n, wid);
    m := AfterSuccess(n, wid, r, over);
    if over {
      var f := FreeOnly(k, r);
      OnlyRequestTwice(n, k, f, r);
    }
    IdleIsOver(n, m, wid, r);
  }

  lemma IdleIsOver(n: Node, m: Node, wid: WorkId, r: RequestId)
    requires OnlyRequest(n, m, r) && Idle(m, r) && wid in n.s.pending && n.s.pending[wid].requestId == r
    ensures wid !in m.s.pending
  {
  }

  /** A failed work publishes nothing and takes back its blocks. */
  lemma FailureLeaves(n: Node, wid: WorkId, r: RequestId, done: bool) returns (m: Node)
    requires Sound(n) && wid in n.s.pending && n.s.pending[wid].requestId == r
    ensures m == AfterFailure(n, wid, r, done) && Idle(m, r) && m.s.index == n.s.index
    ensures done ==> r !in m.s.tables
    ensures !done ==> Progress(m, r) == Progress(n, r) && |Listed(m.s.tables, r)| == |n.s.pending[wid].table| - |n.s.pending[wid].added|
  {
    var k, q, keep := RollbackOnly(n, wid);
    RollbackStep(n, wid);
    RollbackKeepsIndex(n, wid);
    m := AfterFailure(n, wid, r, done);
    if done {
      var f := FreeOnly(k, r);
      FreeKeepsIndex(k, r);
    }
  }

  lemma RollbackKeepsIndex(n: Node, wid: WorkId)
    requires Sound(n) && wid in n.s.pending
    ensures AfterRollback(n, wid).s.index == n.s.index
  {
    SoundIsInv(n);
    var rid, keep, pending := RollbackIsDrop(n, wid);
    DropFrame(n, rid, keep, pending);
  }

  /** A result that ends its request: it is done, or it is the decode step that reaches MaxTokens. */
  lemma EndsWhen(r: RequestId, a: Active, move: Move)
    requires Living(r, a) && a.stage.Submitted? && move.RunWork? && move.tokens == a.stage.tokens
    ensures EndsRequest(a.life.req, Reported(a.stage.chunk, move)) <==>
      move.done || (a.stage.chunk.phase == Decode && a.life.req.generatedTokens + 1 >= a.life.req.maxTokens)
  {
    LivingIsLifeOk(r, a);
    ChunkOk(a.life, a.cached, move);
  }

  /**
   * After a result of a submitted chunk that is not an error: the chunk's end is what has been computed, or, when the result is done,
   * or is the decode step that reaches MaxTokens, or the next work finds its queue full, the request holds no block.
   */
  lemma SuccessIsProgress(v: Serving, r: RequestId, move: Move, queued: bool) returns (a: Active, n: Node, m: Node)
    requires ServingInv(v) && r in v.lives && v.lives[r].stage.Submitted? && move.RunWork? && move.tokens == v.lives[r].stage.tokens
    ensures a == v.lives[r] && Home(a) in v.g.nodes && n == v.g.nodes[Home(a)] && Bounded(n.s)
    ensures m.s == HandledBlocks(n.s, true, a.life.req, Reported(a.stage.chunk, move), Home(a), false, queued)
    ensures Idle(m, r) && a.stage.chunk.workId !in m.s.pending
    ensures var over := !queued || move.done || (a.stage.chunk.phase == Decode && a.life.req.generatedTokens + 1 >= a.life.req.maxTokens);
      && (over ==> r !in m.s.tables)
      && (!over ==> m.s.tables == n.s.tables && Progress(m, r) == RequiredTokens(a.stage.chunk))
  {
    var home;
    a, home, n := AtHome(v, r);
    SubmittedIsHeld(n, r, a);
    EndsWhen(r, a, move);
    var life := EndsIffReleases(r, a, move);
    var e := Reported(a.stage.chunk, move);
    SuccessSettles(n, a.life.req, e, queued);
    m := SuccessLeaves(n, e.workId, r, !queued || EndsRequest(a.life.req, e));
  }

  /** After a failure of a submitted chunk nothing has been published, and the request keeps what it had before the chunk, or nothing. */
  lemma FailurePublishesNothing(v: Serving, r: RequestId, e: Event, from: ExecutorId, err: bool) returns (a: Active, n: Node, m: Node)
    requires ServingInv(v) && r in v.lives && v.lives[r].stage.Submitted?
    requires e.requestId == r && e.workId == v.lives[r].stage.chunk.workId && (from != Home(v.lives[r]) || e.kind == RequestFailed)
    ensures a == v.lives[r] && Home(a) in v.g.nodes && n == v.g.nodes[Home(a)] && Bounded(n.s)
    ensures m.s == HandledBlocks(n.s, true, a.life.req, e, from, err, true)
    ensures m.s.index == n.s.index && Idle(m, r)
    ensures from != Home(a) || e.done ==> r !in m.s.tables
    ensures from == Home(a) && !e.done ==> Progress(m, r) == Progress(n, r)
    ensures from == Home(a) && !e.done ==>
      e.workId in n.s.pending && |Listed(m.s.tables, r)| == |n.s.pending[e.workId].table| - |n.s.pending[e.workId].added|
  {
    var home;
    a, home, n := AtHome(v, r);
    SubmittedIsHeld(n, r, a);
    FailureSettles(n, a.life.req, e, from, err);
    m := FailureLeaves(n, e.workId, r, from != Home(a) || e.done);
  }

  /** After the result of a prefill chunk every full block of the prompt up to the chunk's end is in the index. */
  lemma SuccessPublishes(sha: Str -> Str, v: Serving, r: RequestId, move: Move, i: nat) returns (a: Active, n: Node, m: Node)
    requires ServingInv(v) && AllTraced(sha, v) && r in v.lives && v.lives[r].stage.Submitted? && move.RunWork?
    requires move.tokens == v.lives[r].stage.tokens && v.lives[r].stage.chunk.phase == Prefill && i < |v.lives[r].life.req.hashesTotal|
    requires Home(v.lives[r]) in v.g.nodes && Span(i + 1, v.g.nodes[Home(v.lives[r])].s.blockSize) <= RequiredTokens(v.lives[r].stage.chunk)
    ensures a == v.lives[r] && n == v.g.nodes[Home(a)] && Bounded(n.s)
    ensures m.s == HandledBlocks(n.s, true, a.life.req, Reported(a.stage.chunk, move), Home(a), false, true)
    ensures a.life.req.hashesTotal[i] in m.s.index
  {
    var home;
    a, home, n := AtHome(v, r);
    SubmittedIsHeld(n, r, a);
    SubmittedCarries(v, r, a, home, n);
    var life := EndsIffReleases(r, a, move);
    var e := Reported(a.stage.chunk, move);
    SuccessSettles(n, a.life.req, e, true);
    m := AfterSuccess(n, e.workId, r, EndsRequest(a.life.req, e));
    assert Traced(sha, n, r, a);
    ChunkPublished(n, e.workId, r, EndsRequest(a.life.req, e), i);
  }

  lemma ChunkPublished(n: Node, wid: WorkId, r: RequestId, over: bool, i: nat)
    requires Sound(n) && wid in n.s.pending && i < |n.s.pending[wid].hashes| && n.s.pending[wid].phase == Prefill
    requires Titled(n, n.s.pending[wid].requestId, n.s.pending[wid].hashes) && Span(i + 1, n.s.blockSize) <= n.s.pending[wid].tokensAfterCommit
    ensures n.s.pending[wid].hashes[i] in AfterSuccess(n, wid, r, over).s.index
  {
    SoundIsInv(n);
    PromptPublished(n, wid, i);
    SuccessIndex(n, wid, r, over);
  }
}

/** In every run a committed prompt is found again: the next match of the same prompt leaves only its last tokens to compute. */
module PrefixReuse {
  import opened Hashing
  import opened Spans
  import opened Wrappers
  import opened BlockSpec
  import opened BlockInv
  import opened RequestInv
  import opened CommitInv
  import opened ReleaseInv
  import opened NodeSteps
  import opened Engine
  import EngineRuns
  import opened WorkItems
  import opened Lifecycle
  import opened LifeRuns
  import opened RequestEffects
  import opened ServingState
  import opened ServingRuns
  import opened Publishing
  import opened Titles

  function PromptOf(req: Request): seq<Token>
    requires req.promptTokens <= |req.tokenIds|
  {
    req.tokenIds[..req.promptTokens]
  }

  /** The request's hashes are those of its prompt under this salt. */
  ghost predicate HashedUnder(sha: Str -> Str, bs: nat, req: Request, salt: Str) {
    bs > 0 && req.promptTokens <= |req.tokenIds| && req.hashesTotal == BlockHashes(sha, bs, salt, PromptOf(req))
  }

  /** The request's hashes name its prompt, and what is published of its table is published under them. */
  ghost predicate Traced(sha: Str -> Str, n: Node, r: RequestId, a: Active) {
    Titled(n, r, a.life.req.hashesTotal) && exists salt :: HashedUnder(sha, n.s.blockSize, a.life.req, salt)
  }

  ghost predicate AllTraced(sha: Str -> Str, v: Serving) {
    forall r :: r in v.lives ==> Home(v.lives[r]) in v.g.nodes && Traced(sha, v.g.nodes[Home(v.lives[r])], r, v.lives[r])
  }

  // ---------------------------------------------------------------- one request changes

  lemma TracedAfter(sha: Str -> Str, v: Serving, w: Serving, e: ExecutorId, m: Node, r: RequestId, hashes: seq<Hash>)
    requires AllTraced(sha, v) && e in v.g.nodes && w.g == Put(v.g, e, m) && SameLives(v.lives, w.lives, r)
    requires m.s.blockSize == v.g.nodes[e].s.blockSize && TitlesStayUnder(v.g.nodes[e], m, r, hashes)
    requires r in w.lives ==> Home(w.lives[r]) == e && Traced(sha, m, r, w.lives[r])
    ensures AllTraced(sha, w)
  {
    forall q | q in w.lives
      ensures Home(w.lives[q]) in w.g.nodes && Traced(sha, w.g.nodes[Home(w.lives[q])], q, w.lives[q])
    {
      if q != r && Home(w.lives[q]) == e {
        assert Titled(m, q, w.lives[q].life.req.hashesTotal);
      }
    }
  }

  lemma StayIsStayUnder(n: Node, m: Node, r: RequestId, hashes: seq<Hash>)
    requires TitlesStay(n, m)
    ensures TitlesStayUnder(n, m, r, hashes)
  {
  }

  /** The same hashes, of the same prompt, still name what is published of the table. */
  lemma StillTraced(sha: Str -> Str, n: Node, m: Node, r: RequestId, a: Active, b: Active)
    requires Traced(sha, n, r, a) && m.s.blockSize == n.s.blockSize && Titled(m, r, a.life.req.hashesTotal)
    requires b.life.req.hashesTotal == a.life.req.hashesTotal && b.life.req.promptTokens == a.life.req.promptTokens
    requires a.life.req.tokenIds <= b.life.req.tokenIds
    ensures Traced(sha, m, r, b)
  {
    var salt :| HashedUnder(sha, n.s.blockSize, a.life.req, salt);
    SamePromptOf(a.life.req, b.life.req);
    assert HashedUnder(sha, m.s.blockSize, b.life.req, salt);
  }

  lemma SamePromptOf(a: Request, b: Request)
    requires a.promptTokens == b.promptTokens <= |a.tokenIds| && a.tokenIds <= b.tokenIds
    ensures PromptOf(b) == PromptOf(a)
  {
  }

  lemma ReportKeepsPrompt(r: RequestId, a: Active, move: Move) returns (life: Life)
    requires Living(r, a) && a.stage.Submitted? && move.RunWork? && move.tokens == a.stage.tokens
    ensures (LivingIsLifeOk(r, a); life == Moved(a.life, a.cached, move))
    ensures life.req.hashesTotal == a.life.req.hashesTotal && life.req.promptTokens == a.life.req.promptTokens
    ensures a.life.req.tokenIds <= life.req.tokenIds
  {
    LivingIsLifeOk(r, a);
    life := Moved(a.life, a.cached, move);
  }

  /** The chunk carries the request's hashes. */
  lemma ChunkCarriesHashes(r: RequestId, a: Active)
    requires Living(r, a) && a.stage.Submitted?
    ensures a.stage.chunk.hashesTotal == a.life.req.hashesTotal
  {
    LivingIsLifeOk(r, a);
    ChunkOk(a.life, a.cached, Shorten(a.stage.tokens));
  }

  // ---------------------------------------------------------------- the acts

  /** Request r's step at executor e leads from n to m there. */
  ghost predicate StepOf(v: Serving, w: Serving, r: RequestId, e: ExecutorId, n: Node, m: Node) {
    e in v.g.nodes && n == v.g.nodes[e] && w.g == Put(v.g, e, m) && SameLives(v.lives, w.lives, r) && m.s.blockSize == n.s.blockSize
  }

  /** An act that keeps the request and its titles. */
  lemma KeptTraces(sha: Str -> Str, v: Serving, w: Serving, r: RequestId, e: ExecutorId, n: Node, m: Node)
    requires AllTraced(sha, v) && StepOf(v, w, r, e, n, m) && r in v.lives && Home(v.lives[r]) == e
    requires TitlesStayUnder(n, m, r, v.lives[r].life.req.hashesTotal)
    requires r in w.lives ==> Home(w.lives[r]) == e && SamePrompt(v.lives[r].life.req, w.lives[r].life.req)
    ensures AllTraced(sha, w)
  {
    var hashes := v.lives[r].life.req.hashesTotal;
    assert Titled(n, r, hashes);
    if r in w.lives {
      StillTraced(sha, n, m, r, v.lives[r], w.lives[r]);
    }
    TracedAfter(sha, v, w, e, m, r, hashes);
  }

  /** The request may have grown by what it generated. */
  predicate SamePrompt(before: Request, after: Request) {
    after.hashesTotal == before.hashesTotal && after.promptTokens == before.promptTokens && before.tokenIds <= after.tokenIds
  }

  lemma ThenIsNext(sha: Str -> Str, v: Serving, act: Act) returns (g: Registry)
    requires ServingInv(v) && Allowed(v, act)
    ensures g == EngineRuns.After(v.g, (ThenIs(sha, v, act); StepsOf(sha, v, act))) && Then(sha, v, act) == Next(sha, v, act, g)
  {
    ThenIs(sha, v, act);
    g := EngineRuns.After(v.g, StepsOf(sha, v, act));
  }

  lemma BeginAfter(v: Serving, e: ExecutorId, r: RequestId, hashes: seq<Hash>) returns (n: Node, m: Node)
    requires EngineInv(v.g) && AllServed(v.g, v.lives) && e in v.g.nodes && r !in v.lives
    ensures n == v.g.nodes[e] && Sound(n) && r !in n.s.tables && m == AfterMatch(n, r, hashes) && m.s.blockSize == n.s.blockSize
    ensures EngineRuns.Legal(v.g, [EngineRuns.MatchPrefix(e, r, hashes)])
    ensures EngineRuns.After(v.g, [EngineRuns.MatchPrefix(e, r, hashes)]) == Put(v.g, e, m)
  {
    n := v.g.nodes[e];
    assert Served(n, e, v.lives);
    m := MatchOnly(n, r, hashes);
    OneStep(v.g, EngineRuns.MatchPrefix(e, r, hashes));
  }

  lemma BeginNext(sha: Str -> Str, v: Serving, req: Request, e: ExecutorId, salt: Str, workId: WorkId, g: Registry) returns (w: Serving)
    requires ServingInv(v) && Allowed(v, Begin(req, e, salt, workId))
    ensures w == Next(sha, v, Begin(req, e, salt, workId), g) && w.g == g && SameLives(v.lives, w.lives, req.requestId)
    ensures req.requestId in w.lives && Home(w.lives[req.requestId]) == e
    ensures HashedUnder(sha, v.g.nodes[e].s.blockSize, w.lives[req.requestId].life.req, salt)
    ensures w.lives[req.requestId].life.req.hashesTotal == BlockHashes(sha, v.g.nodes[e].s.blockSize, salt, req.tokenIds)
  {
    w := Next(sha, v, Begin(req, e, salt, workId), g);
    assert req.tokenIds[..req.promptTokens] == req.tokenIds;
  }

  lemma BeginThen(sha: Str -> Str, v: Serving, req: Request, e: ExecutorId, salt: Str, workId: WorkId) returns (w: Serving, n: Node, m: Node)
    requires ServingInv(v) && Allowed(v, Begin(req, e, salt, workId))
    ensures w == Then(sha, v, Begin(req, e, salt, workId)) && StepOf(v, w, req.requestId, e, n, m)
    ensures Sound(n) && req.requestId !in n.s.tables && n.s.blockSize > 0
    ensures m == AfterMatch(n, req.requestId, Matchable(sha, n.s.blockSize, salt, req.tokenIds))
    ensures req.requestId in w.lives && Home(w.lives[req.requestId]) == e && HashedUnder(sha, n.s.blockSize, w.lives[req.requestId].life.req, salt)
    ensures w.lives[req.requestId].life.req.hashesTotal == BlockHashes(sha, n.s.blockSize, salt, req.tokenIds)
  {
    n, m := BeginAfter(v, e, req.requestId, Matchable(sha, v.g.nodes[e].s.blockSize, salt, req.tokenIds));
    var g := ThenIsNext(sha, v, Begin(req, e, salt, workId));
    w := BeginNext(sha, v, req, e, salt, workId, g);
  }

  lemma MatchableIsPrefix(sha: Str -> Str, bs: nat, salt: Str, tokens: seq<Token>) returns (matchable: seq<Hash>, hashes: seq<Hash>)
    requires bs > 0
    ensures matchable == Matchable(sha, bs, salt, tokens) && hashes == BlockHashes(sha, bs, salt, tokens) && matchable <= hashes
  {
    MaxMatchedFits(bs, |tokens|);
    matchable, hashes := Matchable(sha, bs, salt, tokens), BlockHashes(sha, bs, salt, tokens);
  }

  lemma BeginTraces(sha: Str -> Str, v: Serving, req: Request, e: ExecutorId, salt: Str, workId: WorkId)
    requires ServingInv(v) && AllTraced(sha, v) && Allowed(v, Begin(req, e, salt, workId))
    ensures AllTraced(sha, Then(sha, v, Begin(req, e, salt, workId)))
  {
    var w, n, m := BeginThen(sha, v, req, e, salt, workId);
    var matchable, hashes := MatchableIsPrefix(sha, n.s.blockSize, salt, req.tokenIds);
    MatchStays(n, req.requestId, matchable, hashes);
    NewTraces(sha, v, w, req.requestId, e, n, m, salt, hashes);
  }

  lemma TracedIs(sha: Str -> Str, n: Node, r: RequestId, a: Active, salt: Str)
    requires Titled(n, r, a.life.req.hashesTotal) && HashedUnder(sha, n.s.blockSize, a.life.req, salt)
    ensures Traced(sha, n, r, a)
  {
  }

  lemma NewTraces(sha: Str -> Str, v: Serving, w: Serving, r: RequestId, e: ExecutorId, n: Node, m: Node, salt: Str, hashes: seq<Hash>)
    requires AllTraced(sha, v) && StepOf(v, w, r, e, n, m) && TitlesStayUnder(n, m, r, hashes) && Titled(m, r, hashes)
    requires r in w.lives && Home(w.lives[r]) == e && HashedUnder(sha, n.s.blockSize, w.lives[r].life.req, salt)
    requires w.lives[r].life.req.hashesTotal == hashes
    ensures AllTraced(sha, w)
  {
    TracedIs(sha, m, r, w.lives[r], salt);
    TracedAfter(sha, v, w, e, m, r, hashes);
  }

  lemma OfferNext(sha: Str -> Str, v: Serving, o: Work, tokens: nat, g: Registry) returns (w: Serving)
    requires ServingInv(v) && Allowed(v, Offer(o, tokens))
    ensures w == Next(sha, v, Offer(o, tokens), g) && w.g == g && SameLives(v.lives, w.lives, o.requestId)
    ensures o.requestId in w.lives && w.lives[o.requestId].life == v.lives[o.requestId].life
  {
    w := Next(sha, v, Offer(o, tokens), g);
  }

  lemma OfferThen(sha: Str -> Str, v: Serving, o: Work, tokens: nat) returns (w: Serving, e: ExecutorId, n: Node, m: Node, chunk: Work)
    requires ServingInv(v) && Allowed(v, Offer(o, tokens))
    ensures w == Then(sha, v, Offer(o, tokens)) && StepOf(v, w, o.requestId, e, n, m) && e == Home(v.lives[o.requestId])
    ensures Sound(n) && MayAllocate(n, chunk) && m == AfterAllocate(n, chunk)
    ensures o.requestId in w.lives && w.lives[o.requestId].life == v.lives[o.requestId].life
  {
    e := Home(v.lives[o.requestId]);
    n := OfferMayAllocate(v, o, tokens);
    chunk := Offered(v, o, tokens);
    var h;
    h, m := OfferEngine(v.g, e, chunk);
    AllocateStep(n, chunk);
    SameBlockSize(n, m);
    var g := ThenIsNext(sha, v, Offer(o, tokens));
    w := OfferNext(sha, v, o, tokens, g);
  }

  lemma OfferTraces(sha: Str -> Str, v: Serving, o: Work, tokens: nat)
    requires ServingInv(v) && AllTraced(sha, v) && Allowed(v, Offer(o, tokens))
    ensures AllTraced(sha, Then(sha, v, Offer(o, tokens)))
  {
    var w, e, n, m, chunk := OfferThen(sha, v, o, tokens);
    AllocateStays(n, chunk);
    StayIsStayUnder(n, m, o.requestId, v.lives[o.requestId].life.req.hashesTotal);
    KeptTraces(sha, v, w, o.requestId, e, n, m);
  }

  /** The node after a rollback, and after a release if the request ends. */
  ghost function AfterFailure(n: Node, wid: WorkId, r: RequestId, done: bool): Node
    requires Sound(n)
  {
    RollbackStep(n, wid);
    if done then AfterFree(AfterRollback(n, wid), r) else AfterRollback(n, wid)
  }

  ghost function AfterSuccess(n: Node, wid: WorkId, r: RequestId, over: bool): Node
    requires Sound(n)
  {
    CommitStep(n, wid);
    if over then AfterFree(AfterCommit(n, wid), r) else AfterCommit(n, wid)
  }

  lemma FailureStays(n: Node, wid: WorkId, r: RequestId, done: bool)
    requires Sound(n) && wid in n.s.pending
    ensures TitlesStay(n, AfterFailure(n, wid, r, done)) && AfterFailure(n, wid, r, done).s.blockSize == n.s.blockSize
  {
    RollbackStep(n, wid);
    RollbackStays(n, wid);
    SameBlockSize(n, AfterRollback(n, wid));
    var m := AfterRollback(n, wid);
    FreeStep(m, r);
    FreeStays(m, r);
    SameBlockSize(m, AfterFree(m, r));
  }

  lemma SuccessStays(n: Node, wid: WorkId, r: RequestId, over: bool)
    requires Sound(n) && wid in n.s.pending
    ensures TitlesStayUnder(n, AfterSuccess(n, wid, r, over), n.s.pending[wid].requestId, n.s.pending[wid].hashes)
    ensures AfterSuccess(n, wid, r, over).s.blockSize == n.s.blockSize
  {
    CommitStep(n, wid);
    CommitStays(n, wid);
    SameBlockSize(n, AfterCommit(n, wid));
    var m := AfterCommit(n, wid);
    FreeStep(m, r);
    FreeStays(m, r);
    SameBlockSize(m, AfterFree(m, r));
  }

  lemma TwoPuts(g: Registry, e: ExecutorId, n: Node, m: Node, s: EngineRuns.Step, r: RequestId)
    requires EngineInv(g) && e in g.nodes && n == g.nodes[e] && EngineRuns.Enabled(g, s) && EngineRuns.Apply(g, s) == Put(g, e, m) && Sound(m)
    ensures EngineRuns.Legal(g, [s, EngineRuns.FreeBlocks(e, r)])
    ensures EngineRuns.After(g, [s, EngineRuns.FreeBlocks(e, r)]) == Put(g, e, AfterFree(m, r))
  {
    EngineRuns.ApplyInv(g, s);
    TwoSteps(g, s, EngineRuns.FreeBlocks(e, r));
    PutTwice(g, e, m, AfterFree(m, r));
  }

  lemma RollbackApplied(g: Registry, e: ExecutorId, n: Node, wid: WorkId, r: RequestId, done: bool)
    requires EngineInv(g) && e in g.nodes && n == g.nodes[e]
    ensures Sound(n)
    ensures var steps := [EngineRuns.RollbackWork(e, wid)] + (if done then [EngineRuns.FreeBlocks(e, r)] else []);
      EngineRuns.Legal(g, steps) && EngineRuns.After(g, steps) == Put(g, e, AfterFailure(n, wid, r, done))
  {
    RollbackStep(n, wid);
    if done {
      TwoPuts(g, e, n, AfterRollback(n, wid), EngineRuns.RollbackWork(e, wid), r);
      assert [EngineRuns.RollbackWork(e, wid)] + [EngineRuns.FreeBlocks(e, r)] == [EngineRuns.RollbackWork(e, wid), EngineRuns.FreeBlocks(e, r)];
    } else {
      OneStep(g, EngineRuns.RollbackWork(e, wid));
      assert [EngineRuns.RollbackWork(e, wid)] + [] == [EngineRuns.RollbackWork(e, wid)];
    }
  }

  lemma CommitApplied(g: Registry, e: ExecutorId, n: Node, wid: WorkId, r: RequestId, over: bool)
    requires EngineInv(g) && e in g.nodes && n == g.nodes[e]
    ensures Sound(n)
    ensures var steps := [EngineRuns.CommitWork(e, wid)] + (if over then [EngineRuns.FreeBlocks(e, r)] else []);
      EngineRuns.Legal(g, steps) && EngineRuns.After(g, steps) == Put(g, e, AfterSuccess(n, wid, r, over))
  {
    CommitStep(n, wid);
    if over {
      TwoPuts(g, e, n, AfterCommit(n, wid), EngineRuns.CommitWork(e, wid), r);
      assert [EngineRuns.CommitWork(e, wid)] + [EngineRuns.FreeBlocks(e, r)] == [EngineRuns.CommitWork(e, wid), EngineRuns.FreeBlocks(e, r)];
    } else {
      OneStep(g, EngineRuns.CommitWork(e, wid));
      assert [EngineRuns.CommitWork(e, wid)] + [] == [EngineRuns.CommitWork(e, wid)];
    }
  }

  /** What an act that rolls back (Undo, Fail) leaves at the executor. */
  lemma FailThen(sha: Str -> Str, v: Serving, r: RequestId, done: bool) returns (w: Serving, a: Active, e: ExecutorId, n: Node)
    requires ServingInv(v) && Allowed(v, Fail(r, done))
    ensures w == Then(sha, v, Fail(r, done)) && a == v.lives[r] && e == Home(a) && e in v.g.nodes && n == v.g.nodes[e] && Sound(n)
    ensures a.stage.chunk.workId in n.s.pending && w.g == Put(v.g, e, AfterFailure(n, a.stage.chunk.workId, r, done))
    ensures SameLives(v.lives, w.lives, r) && (r in w.lives <==> !done) && (r in w.lives ==> w.lives[r].life == a.life)
  {
    a, e, n := AtHome(v, r);
    SubmittedIsHeld(n, r, a);
    RollbackApplied(v.g, e, n, a.stage.chunk.workId, r, done);
    var g := ThenIsNext(sha, v, Fail(r, done));
    w := FailNext(sha, v, r, done, g);
  }

  lemma FailNext(sha: Str -> Str, v: Serving, r: RequestId, done: bool, g: Registry) returns (w: Serving)
    requires ServingInv(v) && Allowed(v, Fail(r, done))
    ensures w == Next(sha, v, Fail(r, done), g) && w.g == g
    ensures SameLives(v.lives, w.lives, r) && (r in w.lives <==> !done) && (r in w.lives ==> w.lives[r].life == v.lives[r].life)
  {
    w := Next(sha, v, Fail(r, done), g);
  }

  lemma UndoThen(sha: Str -> Str, v: Serving, r: RequestId) returns (w: Serving, a: Active, e: ExecutorId, n: Node)
    requires ServingInv(v) && Allowed(v, Undo(r))
    ensures w == Then(sha, v, Undo(r)) && a == v.lives[r] && e == Home(a) && e in v.g.nodes && n == v.g.nodes[e] && Sound(n)
    ensures a.stage.chunk.workId in n.s.pending && w.g == Put(v.g, e, AfterFailure(n, a.stage.chunk.workId, r, false))
    ensures SameLives(v.lives, w.lives, r) && r in w.lives && w.lives[r].life.req == a.life.req
  {
    a, e, n := AtHome(v, r);
    SubmittedIsHeld(n, r, a);
    RollbackApplied(v.g, e, n, a.stage.chunk.workId, r, false);
    var g := ThenIsNext(sha, v, Undo(r));
    w := UndoNext(sha, v, r, g);
  }

  lemma UndoNext(sha: Str -> Str, v: Serving, r: RequestId, g: Registry) returns (w: Serving)
    requires ServingInv(v) && Allowed(v, Undo(r))
    ensures w == Next(sha, v, Undo(r), g) && w.g == g
    ensures SameLives(v.lives, w.lives, r) && r in w.lives && w.lives[r].life.req == v.lives[r].life.req
  {
    var life := UndoIsOwn(r, v.lives[r]);
    w := Next(sha, v, Undo(r), g);
  }

  lemma EndThen(sha: Str -> Str, v: Serving, r: RequestId) returns (w: Serving, e: ExecutorId, n: Node)
    requires ServingInv(v) && Allowed(v, End(r))
    ensures w == Then(sha, v, End(r)) && e == Home(v.lives[r]) && e in v.g.nodes && n == v.g.nodes[e] && Sound(n)
    ensures w.g == Put(v.g, e, AfterFree(n, r)) && SameLives(v.lives, w.lives, r) && r !in w.lives
  {
    var a;
    a, e, n := AtHome(v, r);
    OneStep(v.g, EngineRuns.FreeBlocks(e, r));
    var g := ThenIsNext(sha, v, End(r));
    w := Next(sha, v, End(r), g);
  }

  lemma ReportThen(sha: Str -> Str, v: Serving, r: RequestId, move: Move) returns (w: Serving, a: Active, e: ExecutorId, n: Node)
    requires ServingInv(v) && Allowed(v, Report(r, move))
    ensures w == Then(sha, v, Report(r, move)) && a == v.lives[r] && e == Home(a) && e in v.g.nodes && n == v.g.nodes[e] && Sound(n)
    ensures a.stage.chunk.workId in n.s.pending
    ensures w.g == Put(v.g, e, AfterSuccess(n, a.stage.chunk.workId, r, Releases(v, r, move)))
    ensures SameLives(v.lives, w.lives, r) && (r in w.lives ==> w.lives[r].life == MovedLife(v, r, move))
  {
    a, e, n := AtHome(v, r);
    SubmittedIsHeld(n, r, a);
    CommitApplied(v.g, e, n, a.stage.chunk.workId, r, Releases(v, r, move));
    var g := ThenIsNext(sha, v, Report(r, move));
    w := Next(sha, v, Report(r, move), g);
    ReportLives(v, r, move, w);
  }

  lemma ReportLives(v: Serving, r: RequestId, move: Move, w: Serving)
    requires LivesOk(v) && r in v.lives && v.lives[r].stage.Submitted? && move.RunWork? && move.tokens == v.lives[r].stage.tokens
    requires var life := MovedLife(v, r, move);
      w.lives == if life.work.None? then v.lives - {r} else v.lives[r := Active(life, v.lives[r].cached, v.lives[r].freed || move.done, Waiting)]
    ensures SameLives(v.lives, w.lives, r) && (r in w.lives ==> w.lives[r].life == MovedLife(v, r, move))
  {
  }

  lemma FailTraces(sha: Str -> Str, v: Serving, r: RequestId, done: bool)
    requires ServingInv(v) && AllTraced(sha, v) && Allowed(v, Fail(r, done))
    ensures AllTraced(sha, Then(sha, v, Fail(r, done)))
  {
    var w, a, e, n := FailThen(sha, v, r, done);
    var m := AfterFailure(n, a.stage.chunk.workId, r, done);
    FailureStays(n, a.stage.chunk.workId, r, done);
    StayIsStayUnder(n, m, r, a.life.req.hashesTotal);
    KeptTraces(sha, v, w, r, e, n, m);
  }

  lemma UndoTraces(sha: Str -> Str, v: Serving, r: RequestId)
    requires ServingInv(v) && AllTraced(sha, v) && Allowed(v, Undo(r))
    ensures AllTraced(sha, Then(sha, v, Undo(r)))
  {
    var w, a, e, n := UndoThen(sha, v, r);
    var m := AfterFailure(n, a.stage.chunk.workId, r, false);
    FailureStays(n, a.stage.chunk.workId, r, false);
    StayIsStayUnder(n, m, r, a.life.req.hashesTotal);
    KeptTraces(sha, v, w, r, e, n, m);
  }

  lemma EndTraces(sha: Str -> Str, v: Serving, r: RequestId)
    requires ServingInv(v) && AllTraced(sha, v) && Allowed(v, End(r))
    ensures AllTraced(sha, Then(sha, v, End(r)))
  {
    var w, e, n := EndThen(sha, v, r);
    var m := AfterFree(n, r);
    FreeStays(n, r);
    FreeStep(n, r);
    SameBlockSize(n, m);
    StayIsStayUnder(n, m, r, v.lives[r].life.req.hashesTotal);
    KeptTraces(sha, v, w, r, e, n, m);
  }

  lemma ReportTraces(sha: Str -> Str, v: Serving, r: RequestId, move: Move)
    requires ServingInv(v) && AllTraced(sha, v) && Allowed(v, Report(r, move))
    ensures AllTraced(sha, Then(sha, v, Report(r, move)))
  {
    var w, a, e, n := ReportThen(sha, v, r, move);
    var wid, over := a.stage.chunk.workId, Releases(v, r, move);
    SubmittedCarries(v, r, a, e, n);
    SuccessStays(n, wid, r, over);
    ReportMoves(v, r, move, a);
    KeptTraces(sha, v, w, r, e, n, AfterSuccess(n, wid, r, over));
  }

  /** What is pending for the request carries its hashes. */
  lemma SubmittedCarries(v: Serving, r: RequestId, a: Active, e: ExecutorId, n: Node)
    requires Orderly(v) && AllSound(v.g.nodes) && r in v.lives && a == v.lives[r] && e == Home(a) && e in v.g.nodes && n == v.g.nodes[e]
    requires a.stage.Submitted? && a.stage.chunk.workId in n.s.pending
    ensures var x := n.s.pending[a.stage.chunk.workId];
      x.requestId == r && x.hashes == a.life.req.hashesTotal && x.phase == a.stage.chunk.phase && x.tokensAfterCommit == RequiredTokens(a.stage.chunk)
  {
    var b, f, k := AtHome(v, r);
    ChunkCarriesHashes(r, a);
  }

  lemma ReportMoves(v: Serving, r: RequestId, move: Move, a: Active)
    requires Orderly(v) && AllSound(v.g.nodes) && r in v.lives && a == v.lives[r]
    requires a.stage.Submitted? && move.RunWork? && move.tokens == a.stage.tokens
    ensures var life := MovedLife(v, r, move); SamePrompt(a.life.req, life.req) && life.req.executorId == Home(a)
  {
    var b, f, k := AtHome(v, r);
    var life := ReportKeepsPrompt(r, a, move);
    var other := ReportIsOwn(r, a, move);
  }

  lemma OtherTraces(sha: Str -> Str, v: Serving, s: EngineRuns.Step)
    requires ServingInv(v) && AllTraced(sha, v) && Allowed(v, Other(s))
    ensures AllTraced(sha, Then(sha, v, Other(s)))
  {
    OneStep(v.g, s);
    ElsewhereKeepsTitles(v.g, s);
    ElsewhereKeeps(v.g, s);
    var g := ThenIsNext(sha, v, Other(s));
    EverywhereTraced(sha, v, Then(sha, v, Other(s)));
  }

  lemma EverywhereTraced(sha: Str -> Str, v: Serving, w: Serving)
    requires AllTraced(sha, v) && w.lives == v.lives && KeepsTitles(v.g, w.g) && KeepsRequests(v.g, w.g)
    ensures AllTraced(sha, w)
  {
    forall r | r in w.lives
      ensures Home(w.lives[r]) in w.g.nodes && Traced(sha, w.g.nodes[Home(w.lives[r])], r, w.lives[r])
    {
      var a := v.lives[r];
      assert Titled(w.g.nodes[Home(a)], r, a.life.req.hashesTotal);
      StillTraced(sha, v.g.nodes[Home(a)], w.g.nodes[Home(a)], r, a, a);
    }
  }

  lemma ActTraces(sha: Str -> Str, v: Serving, act: Act)
    requires ServingInv(v) && AllTraced(sha, v) && Allowed(v, act)
    ensures AllTraced(sha, Then(sha, v, act))
  {
    match act
    case Begin(req, e, salt, workId) => BeginTraces(sha, v, req, e, salt, workId);
    case Offer(w, tokens) => OfferTraces(sha, v, w, tokens);
    case Undo(r) => UndoTraces(sha, v, r);
    case Report(r, move) => ReportTraces(sha, v, r, move);
    case Fail(r, done) => FailTraces(sha, v, r, done);
    case End(r) => EndTraces(sha, v, r);
    case Other(s) => OtherTraces(sha, v, s);
  }

  lemma {:induction false} RunTraces(sha: Str -> Str, v: Serving, acts: seq<Act>)
    requires ServingInv(v) && AllTraced(sha, v) && AllAllowed(sha, v, acts)
    ensures AllTraced(sha, AfterAll(sha, v, acts))
    decreases |acts|
  {
    if acts != [] {
      ActTraces(sha, v, acts[0]);
      RunTraces(sha, Then(sha, v, acts[0]), acts[1..]);
    }
  }

  // ---------------------------------------------------------------- the next match

  /** When all of the prompt is committed, every full block of it has its hash in the index. */
  lemma PromptPublished(n: Node, wid: WorkId, i: nat)
    requires Inv(n) && wid in n.s.pending && i < |n.s.pending[wid].hashes| && n.s.pending[wid].phase == Prefill
    requires Titled(n, n.s.pending[wid].requestId, n.s.pending[wid].hashes)
    requires Span(i + 1, n.s.blockSize) <= n.s.pending[wid].tokensAfterCommit
    ensures n.s.pending[wid].hashes[i] in NCommit(n, wid).s.index
  {
    var a := n.s.pending[wid];
    assert AllocationOk(n, a);
    EntryInTable(a.tokensAfterCommit, |a.table|, i, n.s.blockSize);
    var b := a.table[i];
    assert b == n.s.tables[a.requestId][i];
    if n.s.blocks[b].cached {
      CommitIndex(n, wid, a.hashes[i]);
    } else {
      CommitPublishes(n, wid, i);
    }
  }

  lemma EntryInTable(tokens: nat, k: nat, i: nat, bs: nat)
    requires bs > 0 && Span(i + 1, bs) <= tokens <= Span(k, bs)
    ensures i < k
  {
    if k <= i {
      SpanMonotone(k, i, bs);
    }
  }

  lemma FreeKeepsIndex(n: Node, r: RequestId)
    requires Sound(n)
    ensures AfterFree(n, r).s.index == n.s.index
  {
    SoundIsInv(n);
    FreeIsDrop(n, r);
    DropFrame(n, r, 0, OthersPending(n.s, r));
  }

  lemma FullRun(index: map<Hash, nat>, hashes: seq<Hash>)
    requires forall i :: 0 <= i < |hashes| ==> hashes[i] in index
    ensures |Run(index, hashes)| == |hashes|
  {
  }

  lemma SuccessIndex(n: Node, wid: WorkId, r: RequestId, over: bool)
    requires Sound(n)
    ensures AfterSuccess(n, wid, r, over).s.index == AfterCommit(n, wid).s.index
  {
    CommitStep(n, wid);
    FreeKeepsIndex(AfterCommit(n, wid), r);
  }

  /** The whole prompt's matchable run is there once the pending allocation that completes the prompt is committed. */
  lemma CommittedPromptMatches(sha: Str -> Str, n: Node, wid: WorkId, salt: Str, prompt: seq<Token>)
    requires Sound(n) && wid in n.s.pending && n.s.blockSize > 0 && n.s.pending[wid].phase == Prefill
    requires Titled(n, n.s.pending[wid].requestId, n.s.pending[wid].hashes)
    requires n.s.pending[wid].hashes == BlockHashes(sha, n.s.blockSize, salt, prompt) && n.s.pending[wid].tokensAfterCommit == |prompt|
    ensures var matchable := Matchable(sha, n.s.blockSize, salt, prompt);
      |Run(AfterCommit(n, wid).s.index, matchable)| == |matchable|
  {
    SoundIsInv(n);
    var bs, matchable := n.s.blockSize, Matchable(sha, n.s.blockSize, salt, prompt);
    forall i | 0 <= i < |matchable|
      ensures matchable[i] in NCommit(n, wid).s.index
    {
      MaxMatchedFits(bs, |prompt|);
      SpanMonotone(i + 1, |matchable|, bs);
      PromptPublished(n, wid, i);
    }
    FullRun(NCommit(n, wid).s.index, matchable);
  }

  lemma SuccessFinds(sha: Str -> Str, n: Node, wid: WorkId, r: RequestId, over: bool, a: Active) returns (m: Node, salt: Str)
    requires Sound(n) && wid in n.s.pending && n.s.pending[wid].phase == Prefill && Traced(sha, n, r, a)
    requires n.s.pending[wid].requestId == r && n.s.pending[wid].hashes == a.life.req.hashesTotal
    requires n.s.pending[wid].tokensAfterCommit == a.life.req.promptTokens
    ensures m == AfterSuccess(n, wid, r, over) && HashedUnder(sha, m.s.blockSize, a.life.req, salt)
    ensures var prompt := PromptOf(a.life.req);
      var found := Span(|Run(m.s.index, Matchable(sha, m.s.blockSize, salt, prompt))|, m.s.blockSize);
      found <= |prompt| <= found + m.s.blockSize
  {
    m := AfterSuccess(n, wid, r, over);
    SuccessStays(n, wid, r, over);
    SuccessIndex(n, wid, r, over);
    salt :| HashedUnder(sha, n.s.blockSize, a.life.req, salt);
    CommittedPromptMatches(sha, n, wid, salt, PromptOf(a.life.req));
    MaxMatchedIs(n.s.blockSize, |PromptOf(a.life.req)|);
  }

  /**
   * In every run, directly after the report that ends a request's prefill, a match of the same prompt under the same
   * salt finds every block it may reuse: fewer tokens than a block and one remain to be computed.
   */
  lemma CommittedPromptIsFound(sha: Str -> Str, v: Serving, r: RequestId, move: Move) returns (m: Node, salt: Str)
    requires ServingInv(v) && AllTraced(sha, v) && Allowed(v, Report(r, move))
    requires v.lives[r].stage.chunk.phase == Prefill && RequiredTokens(v.lives[r].stage.chunk) == v.lives[r].life.req.promptTokens
    ensures var a, w := v.lives[r], Then(sha, v, Report(r, move));
      && Home(a) in w.g.nodes && m == w.g.nodes[Home(a)] && HashedUnder(sha, m.s.blockSize, a.life.req, salt)
      && var prompt := PromptOf(a.life.req);
         var found := Span(|Run(m.s.index, Matchable(sha, m.s.blockSize, salt, prompt))|, m.s.blockSize);
         found <= |prompt| <= found + m.s.blockSize
  {
    var w, a, e, n := ReportThen(sha, v, r, move);
    var wid, over := a.stage.chunk.workId, Releases(v, r, move);
    SubmittedCarries(v, r, a, e, n);
    assert Traced(sha, n, r, a);
    m, salt := SuccessFinds(sha, n, wid, r, over, a);
  }
}

/** The requests that have not ended, the queued work items, and what the engine knows of them. */
module ServingState {
  import opened Hashing
  import opened Spans
  import opened Wrappers
  import opened BlockSpec
  import opened Bags
  import opened BlockInv
  import opened RequestInv
  import opened NodeSteps
  import opened Engine
  import EngineRuns
  import opened Hosts
  import opened WorkItems
  import opened Lifecycle
  import opened LifeRuns
  import opened Prefixes
  import opened RequestEffects

  /**
   * Waiting: the request's work is queued. Submitted: a chunk of it has blocks allocated and has been submitted.
   * Stopped: it failed, and the request only waits to be closed.
   */
  datatype Stage = Waiting | Submitted(tokens: nat, chunk: Work) | Stopped

  /** A request that has not ended. `freed`: a done event has released its blocks although a work item followed. */
  datatype Active = Active(life: Life, cached: nat, freed: bool, stage: Stage)

  /** `queue` holds the queued work items of all executors; `born` and `ids` are the request and work ids used so far. */
  datatype Serving = Serving(g: Registry, lives: map<RequestId, Active>, queue: set<Work>, born: set<RequestId>, ids: set<WorkId>)

  datatype Act =
    | Begin(req: Request, e: ExecutorId, salt: Str, workId: WorkId)
    | Offer(w: Work, tokens: nat)
    | Undo(r: RequestId)
    | Report(r: RequestId, move: Move)
    | Fail(r: RequestId, done: bool)
    | End(r: RequestId)
    | Other(s: EngineRuns.Step)

  function Home(a: Active): ExecutorId {
    a.life.req.executorId
  }

  // ---------------------------------------------------------------- the invariant

  ghost predicate LifeOk(r: RequestId, a: Active) {
    && LifeInv(a.life, a.cached) && a.life.work.Some? && a.life.req.requestId == r
    && (a.stage.Submitted? ==> a.stage.tokens > 0 && a.stage.chunk == Chunk(a.life.work.value, a.stage.tokens))
  }

  ghost predicate LifeBehind(r: RequestId, a: Active, depth: nat) {
    if depth == 0 then LifeOk(r, a) else LifeBehind(r, a, depth - 1)
  }

  /** The request's work carries its id and its matched blocks. */
  predicate Named(r: RequestId, a: Active) {
    && a.life.work.Some? && a.life.work.value.requestId == r && a.life.work.value.cacheBlocks == a.life.req.cacheBlocks
    && (a.stage.Submitted? ==> a.stage.tokens > 0 && a.stage.chunk.workId == a.life.work.value.workId)
  }

  /** LifeOk, hidden as NodeSteps.Sound is, and what follows from it for the ids. */
  ghost predicate Living(r: RequestId, a: Active) {
    Named(r, a) && LifeBehind(r, a, |a.life.req.tokenIds| + 1)
  }

  lemma {:induction false} LifeBehindIsLifeOk(r: RequestId, a: Active, depth: nat)
    ensures LifeBehind(r, a, depth) <==> LifeOk(r, a)
  {
    if depth > 0 {
      LifeBehindIsLifeOk(r, a, depth - 1);
    }
  }

  lemma LivingIsLifeOk(r: RequestId, a: Active)
    ensures Living(r, a) <==> LifeOk(r, a)
  {
    LifeBehindIsLifeOk(r, a, |a.life.req.tokenIds| + 1);
    if LifeOk(r, a) {
      ChunkOk(a.life, a.cached, Shorten(if a.stage.Submitted? then a.stage.tokens else 1));
    }
  }

  ghost function ChunkOf(r: RequestId, a: Active, tokens: nat): Work
    requires Living(r, a)
  {
    LivingIsLifeOk(r, a);
    Chunk(a.life.work.value, tokens)
  }

  /** What the executor's metadata say of a request that has not ended. */
  ghost predicate ActiveOk(n: Node, r: RequestId, a: Active) {
    var matched := a.life.req.cacheBlocks;
    && InRange(matched, |n.s.blocks|)
    && Progress(n, r) <= a.life.committed && (!a.freed ==> Progress(n, r) == a.life.committed)
    && (matched != [] ==> (r in n.s.tables <==> !a.freed))
    && (r in n.s.tables ==> |matched| <= |n.s.tables[r]|)
    && (a.stage.Submitted? ==> AllocatedFor(n, r, a.stage.chunk, |matched|))
  }

  ghost predicate AllocatedFor(n: Node, r: RequestId, w: Work, matched: nat) {
    && w.workId in n.s.pending
    && var a := n.s.pending[w.workId];
       && a.requestId == r && a.phase == w.phase && a.hashes == w.hashesTotal
       && a.tokensAfterCommit == RequiredTokens(w) && matched <= |a.table| - |a.added|
  }

  ghost predicate PendingFor(lives: map<RequestId, Active>, e: ExecutorId, v: WorkId, r: RequestId) {
    r in lives && Home(lives[r]) == e && lives[r].stage.Submitted? && lives[r].stage.chunk.workId == v
  }

  /** Tables and pending allocations belong to requests that have not ended, and fit them. */
  ghost predicate Served(n: Node, e: ExecutorId, lives: map<RequestId, Active>) {
    && (forall r :: r in n.s.tables ==> r in lives && Home(lives[r]) == e)
    && (forall v :: v in n.s.pending ==> PendingFor(lives, e, v, n.s.pending[v].requestId))
    && (forall r :: r in lives && Home(lives[r]) == e ==> ActiveOk(n, r, lives[r]))
  }

  ghost predicate LivesOk(v: Serving) {
    forall r :: r in v.lives ==> r in v.born && Home(v.lives[r]) in v.g.nodes && Living(r, v.lives[r])
  }

  /** Work items have ids of their own. */
  ghost predicate IdsOk(lives: map<RequestId, Active>, ids: set<WorkId>) {
    && (forall r :: r in lives ==> lives[r].life.work.Some? && lives[r].life.work.value.workId in ids)
    && (forall q, r :: q in lives && r in lives && q != r ==> lives[q].life.work.value.workId != lives[r].life.work.value.workId)
  }

  /** A queued item is its request's next work, unless the request has ended; so a request has one at most. */
  ghost predicate QueueOk(queue: set<Work>, lives: map<RequestId, Active>, born: set<RequestId>) {
    && (forall w :: w in queue ==> w.requestId in born)
    && (forall w :: w in queue && w.requestId in lives ==>
          lives[w.requestId].life.work == Some(w) && lives[w.requestId].stage.Waiting?)
  }

  ghost predicate AllServed(g: Registry, lives: map<RequestId, Active>) {
    forall e :: e in g.nodes ==> Served(g.nodes[e], e, lives)
  }

  ghost predicate Orderly(v: Serving) {
    LivesOk(v) && AllServed(v.g, v.lives) && IdsOk(v.lives, v.ids) && QueueOk(v.queue, v.lives, v.born)
  }

  ghost predicate ServingInv(v: Serving) {
    EngineInv(v.g) && Orderly(v)
  }

  // ---------------------------------------------------------------- the acts

  /** The request as Create stores it, with what MatchPrefix found at its executor. */
  ghost function Accepted(sha: Str -> Str, n: Node, req: Request, e: ExecutorId, salt: Str): Request
    requires n.s.blockSize > 0
  {
    var ids := Run(n.s.index, Matchable(sha, n.s.blockSize, salt, req.tokenIds));
    Created(req, e, PrefixMatch(ids != [], Span(|ids|, n.s.blockSize), ids, BlockHashes(sha, n.s.blockSize, salt, req.tokenIds)))
  }

  /** The item's request lost the blocks it had matched to a done event. */
  predicate Orphaned(v: Serving, w: Work) {
    w.requestId in v.lives && v.lives[w.requestId].freed && w.cacheBlocks != []
  }

  ghost predicate Allowed(v: Serving, act: Act) {
    match act
    case Begin(req, e, _, workId) =>
      && e in v.g.nodes && v.g.nodes[e].s.blockSize > 0 && req.requestId !in v.born && workId !in v.ids
      && req.promptTokens == |req.tokenIds| > 0 && req.generatedTokens == 0
    case Offer(w, tokens) => w in v.queue && w.requestId in v.lives && tokens > 0 && !Orphaned(v, w)
    case Undo(r) => r in v.lives && v.lives[r].stage.Submitted?
    case Report(r, move) =>
      && r in v.lives && v.lives[r].stage.Submitted?
      && move.RunWork? && move.tokens == v.lives[r].stage.tokens && move.workId !in v.ids
    case Fail(r, _) => r in v.lives && v.lives[r].stage.Submitted?
    case End(r) => r in v.lives
    case Other(s) => Elsewhere(v.g, s)
  }

  /** The chunk that is offered of a queued item. */
  ghost function Offered(v: Serving, w: Work, tokens: nat): Work
    requires LivesOk(v) && w.requestId in v.lives
  {
    ChunkOf(w.requestId, v.lives[w.requestId], tokens)
  }

  ghost function MovedLife(v: Serving, r: RequestId, move: Move): Life
    requires LivesOk(v) && r in v.lives && v.lives[r].stage.Submitted? && move.tokens == v.lives[r].stage.tokens
  {
    LivingIsLifeOk(r, v.lives[r]);
    Moved(v.lives[r].life, v.lives[r].cached, move)
  }

  /** A report that is done, or that no work follows, releases the request's blocks. */
  ghost predicate Releases(v: Serving, r: RequestId, move: Move)
    requires LivesOk(v) && r in v.lives && v.lives[r].stage.Submitted? && move.tokens == v.lives[r].stage.tokens && move.RunWork?
  {
    MovedLife(v, r, move).work.None? || move.done
  }

  ghost function StepsOf(sha: Str -> Str, v: Serving, act: Act): seq<EngineRuns.Step>
    requires ServingInv(v) && Allowed(v, act)
  {
    match act
    case Begin(req, e, salt, _) =>
      [EngineRuns.MatchPrefix(e, req.requestId, Matchable(sha, v.g.nodes[e].s.blockSize, salt, req.tokenIds))]
    case Offer(w, tokens) => [EngineRuns.AllocateBlocks(Home(v.lives[w.requestId]), Offered(v, w, tokens))]
    case Undo(r) => [EngineRuns.RollbackWork(Home(v.lives[r]), v.lives[r].stage.chunk.workId)]
    case Report(r, move) =>
      var e := Home(v.lives[r]);
      [EngineRuns.CommitWork(e, v.lives[r].stage.chunk.workId)] + (if Releases(v, r, move) then [EngineRuns.FreeBlocks(e, r)] else [])
    case Fail(r, done) =>
      [EngineRuns.RollbackWork(Home(v.lives[r]), v.lives[r].stage.chunk.workId)] + (if done then [EngineRuns.FreeBlocks(Home(v.lives[r]), r)] else [])
    case End(r) => [EngineRuns.FreeBlocks(Home(v.lives[r]), r)]
    case Other(s) => [s]
  }

  ghost predicate IsGranted(v: Serving, w: Work, tokens: nat)
    requires ServingInv(v) && w in v.queue && w.requestId in v.lives
  {
    var n := v.g.nodes[Home(v.lives[w.requestId])];
    SoundIsInv(n);
    CanAllocate(n.s, Offered(v, w, tokens))
  }

  /** The requests and the queues after an act; `g` is the engine after its steps. */
  ghost function Next(sha: Str -> Str, v: Serving, act: Act, g: Registry): Serving
    requires ServingInv(v) && Allowed(v, act)
  {
    match act
    case Begin(req, e, salt, workId) =>
      var accepted := Accepted(sha, v.g.nodes[e], req, e, salt);
      BeginsWithPrefill(sha, v.g.nodes[e], req, e, salt);
      var life := Born(accepted, workId);
      Serving(g, v.lives[req.requestId := Active(life, accepted.computedTokens, false, Waiting)], v.queue + {life.work.value},
              v.born + {req.requestId}, v.ids + {workId})
    case Offer(w, tokens) =>
      if IsGranted(v, w, tokens) then
        v.(g := g, lives := v.lives[w.requestId := v.lives[w.requestId].(stage := Submitted(tokens, Offered(v, w, tokens)))],
           queue := v.queue - {w})
      else v.(g := g)
    case Undo(r) =>
      var a := v.lives[r];
      v.(g := g, lives := v.lives[r := a.(life := MovedLife(v, r, Shorten(a.stage.tokens)), stage := Waiting)], queue := v.queue + {a.stage.chunk})
    case Report(r, move) =>
      var a, life := v.lives[r], MovedLife(v, r, move);
      if life.work.None? then v.(g := g, lives := v.lives - {r})
      else v.(g := g, lives := v.lives[r := Active(life, a.cached, a.freed || move.done, Waiting)], queue := v.queue + {life.work.value},
              ids := v.ids + {move.workId})
    case Fail(r, done) => v.(g := g, lives := if done then v.lives - {r} else v.lives[r := v.lives[r].(stage := Stopped)])
    case End(r) => v.(g := g, lives := v.lives - {r})
    case Other(_) => v.(g := g)
  }

  lemma BeginsWithPrefill(sha: Str -> Str, n: Node, req: Request, e: ExecutorId, salt: Str)
    requires n.s.blockSize > 0 && req.promptTokens == |req.tokenIds| > 0
    ensures var a := Accepted(sha, n, req, e, salt); a.computedTokens < a.promptTokens == |a.tokenIds|
  {
    MatchLeavesWork(sha, n.s, Prompt(salt, req.tokenIds));
  }

  // ---------------------------------------------------------------- one request changes

  /** All requests but r are as before. */
  ghost predicate SameLives(before: map<RequestId, Active>, after: map<RequestId, Active>, r: RequestId) {
    forall q :: q != r ==> (q in after <==> q in before) && (q in after ==> after[q] == before[q])
  }

  /** What the executor's metadata say of r after a step of r. */
  ghost predicate Placed(m: Node, e: ExecutorId, lives: map<RequestId, Active>, r: RequestId) {
    && (r in lives ==> Home(lives[r]) == e && ActiveOk(m, r, lives[r]))
    && (r !in lives ==> r !in m.s.tables)
    && (forall v :: v in m.s.pending && m.s.pending[v].requestId == r ==> PendingFor(lives, e, v, r))
  }

  lemma OthersActive(n: Node, m: Node, r: RequestId, q: RequestId, a: Active)
    requires OnlyRequest(n, m, r) && q != r && ActiveOk(n, q, a)
    ensures ActiveOk(m, q, a)
  {
  }

  lemma ServedHere(n: Node, m: Node, e: ExecutorId, before: map<RequestId, Active>, after: map<RequestId, Active>, r: RequestId)
    requires Served(n, e, before) && OnlyRequest(n, m, r) && SameLives(before, after, r) && Placed(m, e, after, r)
    ensures Served(m, e, after)
  {
    forall q | q in after && Home(after[q]) == e
      ensures ActiveOk(m, q, after[q])
    {
      if q != r { OthersActive(n, m, r, q, after[q]); }
    }
    forall v | v in m.s.pending
      ensures PendingFor(after, e, v, m.s.pending[v].requestId)
    {
      if m.s.pending[v].requestId != r { assert PendingFor(before, e, v, n.s.pending[v].requestId); }
    }
  }

  lemma ServedThere(n: Node, e: ExecutorId, f: ExecutorId, before: map<RequestId, Active>, after: map<RequestId, Active>, r: RequestId)
    requires Served(n, f, before) && SameLives(before, after, r) && e != f
    requires r in before ==> Home(before[r]) == e
    requires r in after ==> Home(after[r]) == e
    ensures Served(n, f, after)
  {
    forall v | v in n.s.pending
      ensures PendingFor(after, f, v, n.s.pending[v].requestId)
    {
      assert PendingFor(before, f, v, n.s.pending[v].requestId);
    }
  }

  lemma AllServedAfter(g: Registry, e: ExecutorId, m: Node, before: map<RequestId, Active>, after: map<RequestId, Active>, r: RequestId)
    requires AllServed(g, before) && e in g.nodes && OnlyRequest(g.nodes[e], m, r) && SameLives(before, after, r) && Placed(m, e, after, r)
    requires r in before ==> Home(before[r]) == e
    ensures AllServed(Put(g, e, m), after)
  {
    forall f | f in g.nodes
      ensures Served(Put(g, e, m).nodes[f], f, after)
    {
      if f == e {
        ServedHere(g.nodes[e], m, e, before, after, r);
      } else {
        ServedThere(g.nodes[f], e, f, before, after, r);
      }
    }
  }

  // ---------------------------------------------------------------- what the lives give

  /** A chunk of a request's work is the request's own and asks for no fewer tokens than are committed. */
  lemma ChunkIsOwn(r: RequestId, a: Active, tokens: nat)
    requires Living(r, a) && tokens > 0
    ensures var w := ChunkOf(r, a, tokens);
      && w.requestId == r && w.workId == a.life.work.value.workId && w.cacheBlocks == a.life.req.cacheBlocks
      && a.life.committed <= RequiredTokens(w)
  {
    LivingIsLifeOk(r, a);
    ChunkOk(a.life, a.cached, Shorten(tokens));
  }

  /** A report commits the chunk's tokens; a work that follows is new. */
  lemma ReportIsOwn(r: RequestId, a: Active, move: Move) returns (life: Life)
    requires Living(r, a) && a.stage.Submitted? && move.RunWork? && move.tokens == a.stage.tokens
    ensures (LivingIsLifeOk(r, a); life == Moved(a.life, a.cached, move))
    ensures forall freed :: life.work.Some? ==> Living(r, Active(life, a.cached, freed, Waiting))
    ensures life.req.requestId == r && life.req.executorId == Home(a) && life.req.cacheBlocks == a.life.req.cacheBlocks
    ensures life.committed == RequiredTokens(a.stage.chunk)
    ensures life.work.Some? ==> life.work.value.workId == move.workId && life.work.value.requestId == r
  {
    LivingIsLifeOk(r, a);
    MovedInv(a.life, a.cached, move);
    life := Moved(a.life, a.cached, move);
    forall freed: bool
      ensures life.work.Some? ==> Living(r, Active(life, a.cached, freed, Waiting))
    {
      LivingIsLifeOk(r, Active(life, a.cached, freed, Waiting));
    }
  }

  lemma UndoIsOwn(r: RequestId, a: Active) returns (life: Life)
    requires Living(r, a) && a.stage.Submitted?
    ensures (LivingIsLifeOk(r, a); life == Moved(a.life, a.cached, Shorten(a.stage.tokens))) && life == a.life.(work := Some(a.stage.chunk))
    ensures Living(r, a.(life := life, stage := Waiting)) && a.stage.chunk.workId == a.life.work.value.workId && a.stage.chunk.requestId == r
  {
    LivingIsLifeOk(r, a);
    ChunkIsOwn(r, a, a.stage.tokens);
    MovedInv(a.life, a.cached, Shorten(a.stage.tokens));
    life := Moved(a.life, a.cached, Shorten(a.stage.tokens));
    LivingIsLifeOk(r, a.(life := life, stage := Waiting));
  }

  lemma BornIsOwn(sha: Str -> Str, n: Node, req: Request, e: ExecutorId, salt: Str, workId: WorkId) returns (a: Active)
    requires n.s.blockSize > 0 && req.promptTokens == |req.tokenIds| > 0 && req.generatedTokens == 0
    ensures var accepted := Accepted(sha, n, req, e, salt);
      && accepted.computedTokens < accepted.promptTokens == |accepted.tokenIds|
      && a == Active(Born(accepted, workId), accepted.computedTokens, false, Waiting)
    ensures Living(req.requestId, a) && Home(a) == e && a.life.work.value.workId == workId && a.life.work.value.requestId == req.requestId
    ensures var ids := Run(n.s.index, Matchable(sha, n.s.blockSize, salt, req.tokenIds));
      a.life.req.cacheBlocks == ids && a.life.committed == Span(|ids|, n.s.blockSize)
  {
    BeginsWithPrefill(sha, n, req, e, salt);
    var accepted := Accepted(sha, n, req, e, salt);
    BornInv(accepted, workId);
    a := Active(Born(accepted, workId), accepted.computedTokens, false, Waiting);
    LivingIsLifeOk(req.requestId, a);
  }

  // ---------------------------------------------------------------- offers

  /** A request whose work is queued has no allocation pending, and its work's id is not in use. */
  lemma WaitingIsIdle(n: Node, e: ExecutorId, lives: map<RequestId, Active>, ids: set<WorkId>, r: RequestId)
    requires Served(n, e, lives) && IdsOk(lives, ids) && r in lives && lives[r].stage.Waiting?
    requires forall q :: q in lives ==> Living(q, lives[q])
    ensures Idle(n, r) && lives[r].life.work.value.workId !in n.s.pending
  {
    forall v | v in n.s.pending
      ensures n.s.pending[v].requestId != r && v != lives[r].life.work.value.workId
    {
      var q := n.s.pending[v].requestId;
      assert PendingFor(lives, e, v, q);
    }
  }

  lemma MayAllocateWhen(n: Node, r: RequestId, a: Active, tokens: nat)
    requires ActiveOk(n, r, a) && Living(r, a) && tokens > 0 && Idle(n, r)
    ensures MayAllocate(n, ChunkOf(r, a, tokens)) <==> !(a.freed && a.life.req.cacheBlocks != [])
  {
    ChunkIsOwn(r, a, tokens);
  }

  /**
   * Whatever the scheduler offers of a queued work item is what AllocateBlocks counts on, unless the request
   * has been freed by a done event and the item carries matched blocks; then it never is.
   */
  lemma OfferMayAllocate(v: Serving, w: Work, tokens: nat) returns (n: Node)
    requires ServingInv(v) && w in v.queue && w.requestId in v.lives && tokens > 0
    ensures Home(v.lives[w.requestId]) in v.g.nodes && n == v.g.nodes[Home(v.lives[w.requestId])] && Sound(n)
    ensures MayAllocate(n, Offered(v, w, tokens)) <==> !Orphaned(v, w)
    ensures Offered(v, w, tokens).workId !in n.s.pending && Offered(v, w, tokens).requestId == w.requestId
    ensures !v.lives[w.requestId].freed ==> Progress(n, w.requestId) == v.lives[w.requestId].life.committed
  {
    var r := w.requestId;
    var a := v.lives[r];
    assert Living(r, a);
    n := v.g.nodes[Home(a)];
    assert Served(n, Home(a), v.lives);
    WaitingIsIdle(n, Home(a), v.lives, v.ids, r);
    ChunkIsOwn(r, a, tokens);
    MayAllocateWhen(n, r, a, tokens);
  }
}

/**
 The scheduler and the request state machine as they drive the engine. Every run of theirs is a run of the
 engine that takes each step when the engine is ready for it, with one exception, stated exactly.
 */
module ServingRuns {
  import opened Hashing
  import opened Spans
  import opened Wrappers
  import opened BlockSpec
  import opened Bags
  import opened BlockInv
  import opened RequestInv
  import opened NodeSteps
  import opened Engine
  import EngineRuns
  import opened HostRequests
  import opened Lifecycle
  import opened LifeRuns
  import opened Prefixes
  import opened RequestEffects
  import opened Resubmission
  import opened ServingState

  // ---------------------------------------------------------------- engine steps

  lemma OneStep(g: Registry, s: EngineRuns.Step)
    requires EngineInv(g) && EngineRuns.Enabled(g, s)
    ensures EngineRuns.Legal(g, [s]) && EngineRuns.After(g, [s]) == EngineRuns.Apply(g, s) && EngineInv(EngineRuns.Apply(g, s))
  {
    EngineRuns.ApplyInv(g, s);
    assert [s][1..] == [];
  }

  lemma TwoSteps(g: Registry, s: EngineRuns.Step, t: EngineRuns.Step)
    requires EngineInv(g) && EngineRuns.Enabled(g, s) && (EngineRuns.ApplyInv(g, s); EngineRuns.Enabled(EngineRuns.Apply(g, s), t))
    ensures EngineRuns.Legal(g, [s, t]) && (EngineRuns.ApplyInv(g, s); EngineRuns.After(g, [s, t]) == EngineRuns.Apply(EngineRuns.Apply(g, s), t))
    ensures EngineInv(EngineRuns.After(g, [s, t]))
  {
    EngineRuns.ApplyInv(g, s);
    OneStep(EngineRuns.Apply(g, s), t);
    assert [s, t][1..] == [t];
  }

  lemma PutTwice(g: Registry, e: ExecutorId, m: Node, k: Node)
    ensures Put(Put(g, e, m), e, k) == Put(g, e, k)
  {
    assert g.nodes[e := m][e := k] == g.nodes[e := k];
  }

  /** Rolling back or committing a work and then freeing its request. */
  lemma ThenFreed(g: Registry, e: ExecutorId, m: Node, r: RequestId) returns (k: Node)
    requires EngineInv(g) && e in g.nodes && Sound(m) && EngineInv(Put(g, e, m)) && OnlyRequest(g.nodes[e], m, r)
    ensures EngineRuns.Enabled(Put(g, e, m), EngineRuns.FreeBlocks(e, r))
    ensures EngineRuns.Apply(Put(g, e, m), EngineRuns.FreeBlocks(e, r)) == Put(g, e, k)
    ensures OnlyRequest(g.nodes[e], k, r) && Idle(k, r) && r !in k.s.tables && Progress(k, r) == 0
  {
    k := FreeOnly(m, r);
    OnlyRequestTwice(g.nodes[e], m, k, r);
    PutTwice(g, e, m, k);
  }

  // ---------------------------------------------------------------- every act keeps the invariant

  lemma FewerLives(v: Serving, w: Serving, r: RequestId)
    requires LivesOk(v) && IdsOk(v.lives, v.ids) && QueueOk(v.queue, v.lives, v.born) && w.g.nodes.Keys == v.g.nodes.Keys
    requires w == v.(g := w.g, lives := v.lives - {r})
    ensures LivesOk(w) && IdsOk(w.lives, w.ids) && QueueOk(w.queue, w.lives, w.born) && SameLives(v.lives, w.lives, r)
  {
  }

  lemma KeepsWorkId(v: Serving, w: Serving, r: RequestId, a: Active)
    requires LivesOk(v) && IdsOk(v.lives, v.ids) && r in v.lives && w.g.nodes.Keys == v.g.nodes.Keys
    requires w.lives == v.lives[r := a] && w.born == v.born && w.ids == v.ids
    requires Living(r, a) && v.lives[r].life.work.Some? && Home(a) == Home(v.lives[r]) && a.life.work.value.workId == v.lives[r].life.work.value.workId
    ensures LivesOk(w) && IdsOk(w.lives, w.ids) && SameLives(v.lives, w.lives, r)
  {
  }

  lemma TakesWorkId(v: Serving, w: Serving, r: RequestId, a: Active, id: WorkId)
    requires LivesOk(v) && IdsOk(v.lives, v.ids) && w.g.nodes.Keys == v.g.nodes.Keys
    requires w.lives == v.lives[r := a] && w.born == v.born + {r} && id !in v.ids && w.ids == v.ids + {id}
    requires Living(r, a) && Home(a) in v.g.nodes && a.life.work.value.workId == id
    ensures LivesOk(w) && IdsOk(w.lives, w.ids) && SameLives(v.lives, w.lives, r)
  {
  }

  /** r's work is queued, and nothing else of r was. */
  lemma QueueGrows(v: Serving, w: Serving, r: RequestId, a: Active)
    requires QueueOk(v.queue, v.lives, v.born) && (r in v.lives ==> !v.lives[r].stage.Waiting?) && (r !in v.lives ==> r !in v.born)
    requires w.lives == v.lives[r := a] && w.born == v.born + {r} && a.life.work.Some? && a.stage.Waiting?
    requires w.queue == v.queue + {a.life.work.value} && a.life.work.value.requestId == r
    ensures QueueOk(w.queue, w.lives, w.born)
  {
    forall x | x in v.queue
      ensures x.requestId != r || (x.requestId !in v.lives && x.requestId in v.born) || !v.lives[r].stage.Waiting?
    {
    }
  }

  /** The requests and queues after the act, if it changes request r to `a` and queues `more`. */
  ghost function Changed(v: Serving, g: Registry, r: RequestId, a: Active, queue: set<Work>): Serving {
    v.(g := g, lives := v.lives[r := a], queue := queue)
  }

  /** An act of one request at its executor. */
  lemma ActKeeps(v: Serving, w: Serving, e: ExecutorId, m: Node, r: RequestId)
    requires AllServed(v.g, v.lives) && e in v.g.nodes && w.g == Put(v.g, e, m)
    requires OnlyRequest(v.g.nodes[e], m, r) && SameLives(v.lives, w.lives, r) && Placed(m, e, w.lives, r)
    requires r in v.lives ==> Home(v.lives[r]) == e
    requires LivesOk(w) && IdsOk(w.lives, w.ids) && QueueOk(w.queue, w.lives, w.born)
    ensures Orderly(w)
  {
    AllServedAfter(v.g, e, m, v.lives, w.lives, r);
  }

  lemma AtHome(v: Serving, r: RequestId) returns (a: Active, e: ExecutorId, n: Node)
    requires AllSound(v.g.nodes) && Orderly(v) && r in v.lives
    ensures a == v.lives[r] && e == Home(a) && e in v.g.nodes && n == v.g.nodes[e]
    ensures Living(r, a) && Sound(n) && Served(n, e, v.lives) && ActiveOk(n, r, a) && r in v.born
  {
    a := v.lives[r];
    e := Home(a);
    n := v.g.nodes[e];
    assert Served(n, e, v.lives);
  }

  // ---------------------------------------------------------------- Begin

  lemma BeginEngine(g: Registry, e: ExecutorId, r: RequestId, hashes: seq<Hash>) returns (h: Registry, m: Node)
    requires EngineInv(g) && e in g.nodes && r !in g.nodes[e].s.tables
    ensures EngineRuns.Legal(g, [EngineRuns.MatchPrefix(e, r, hashes)]) && h == EngineRuns.After(g, [EngineRuns.MatchPrefix(e, r, hashes)])
    ensures h == Put(g, e, m) && EngineInv(h) && OnlyRequest(g.nodes[e], m, r) && Idle(m, r)
    ensures var ids := Run(g.nodes[e].s.index, hashes);
      && r in m.s.tables && m.s.tables[r] == ids && Progress(m, r) == Span(|ids|, g.nodes[e].s.blockSize) && InRange(ids, |m.s.blocks|)
  {
    OneStep(g, EngineRuns.MatchPrefix(e, r, hashes));
    m := MatchOnly(g.nodes[e], r, hashes);
    h := Put(g, e, m);
  }

  lemma BornKeeps(v: Serving, x: Serving, e: ExecutorId, m: Node, r: RequestId, a: Active, id: WorkId)
    requires Orderly(v) && r !in v.born && id !in v.ids && e in v.g.nodes && OnlyRequest(v.g.nodes[e], m, r) && Idle(m, r)
    requires Living(r, a) && Home(a) == e && a.stage.Waiting? && !a.freed && a.life.work.value.workId == id
    requires r in m.s.tables && m.s.tables[r] == a.life.req.cacheBlocks && Progress(m, r) == a.life.committed
    requires InRange(a.life.req.cacheBlocks, |m.s.blocks|)
    requires x == Serving(Put(v.g, e, m), v.lives[r := a], v.queue + {a.life.work.value}, v.born + {r}, v.ids + {id})
    ensures Orderly(x)
  {
    TakesWorkId(v, x, r, a, id);
    QueueGrows(v, x, r, a);
    ActKeeps(v, x, e, m, r);
  }

  lemma BeginKeeps(sha: Str -> Str, v: Serving, req: Request, e: ExecutorId, salt: Str, workId: WorkId) returns (g: Registry)
    requires ServingInv(v) && Allowed(v, Begin(req, e, salt, workId))
    ensures var act := Begin(req, e, salt, workId);
      && EngineRuns.Legal(v.g, StepsOf(sha, v, act)) && g == EngineRuns.After(v.g, StepsOf(sha, v, act)) && ServingInv(Next(sha, v, act, g))
  {
    var r, n := req.requestId, v.g.nodes[e];
    assert Served(n, e, v.lives);
    var m;
    g, m := BeginEngine(v.g, e, r, Matchable(sha, n.s.blockSize, salt, req.tokenIds));
    var a := BornIsOwn(sha, n, req, e, salt, workId);
    BornKeeps(v, Next(sha, v, Begin(req, e, salt, workId), g), e, m, r, a, workId);
  }

  // ---------------------------------------------------------------- Offer

  lemma OfferEngine(g: Registry, e: ExecutorId, w: Work) returns (h: Registry, m: Node)
    requires EngineInv(g) && e in g.nodes && MayAllocate(g.nodes[e], w)
    ensures EngineRuns.Legal(g, [EngineRuns.AllocateBlocks(e, w)]) && h == EngineRuns.After(g, [EngineRuns.AllocateBlocks(e, w)])
    ensures m == AfterAllocate(g.nodes[e], w) && h == Put(g, e, m) && EngineInv(h)
  {
    OneStep(g, EngineRuns.AllocateBlocks(e, w));
    m := AfterAllocate(g.nodes[e], w);
    h := Put(g, e, m);
  }

  lemma RefusedChanges(g: Registry, e: ExecutorId, w: Work)
    requires e in g.nodes && Sound(g.nodes[e]) && MayAllocate(g.nodes[e], w) && (SoundIsInv(g.nodes[e]); !CanAllocate(g.nodes[e].s, w))
    ensures Put(g, e, AfterAllocate(g.nodes[e], w)) == g
  {
    assert g.nodes[e := g.nodes[e]] == g.nodes;
  }

  /** The granted chunk's allocation is what its request is submitted with. */
  lemma OfferPlaced(n: Node, m: Node, e: ExecutorId, r: RequestId, a: Active, b: Active, lives: map<RequestId, Active>)
    requires ActiveOk(n, r, a) && a.stage.Waiting? && b.stage.Submitted? && b == a.(stage := b.stage) && Home(a) == e
    requires r in lives && lives[r] == b && Idle(n, r) && !(a.freed && a.life.req.cacheBlocks != [])
    requires var w := b.stage.chunk;
      && w.requestId == r && w.cacheBlocks == a.life.req.cacheBlocks
      && w.workId in m.s.pending && m.s.pending == n.s.pending[w.workId := m.s.pending[w.workId]]
      && var x := m.s.pending[w.workId];
         && x.requestId == r && x.phase == w.phase && x.hashes == w.hashesTotal && x.tokensAfterCommit == RequiredTokens(w) && |x.table| - |x.added| == |Existing(n.s, w)|
         && r in m.s.tables && m.s.tables[r] == x.table
    requires |m.s.blocks| == |n.s.blocks| && Progress(m, r) == Progress(n, r)
    ensures Placed(m, e, lives, r)
  {
  }

  lemma OfferSides(v: Serving, x: Serving, w: Work, b: Active)
    requires LivesOk(v) && IdsOk(v.lives, v.ids) && QueueOk(v.queue, v.lives, v.born) && w in v.queue && w.requestId in v.lives
    requires b.stage.Submitted? && b == v.lives[w.requestId].(stage := b.stage) && Living(w.requestId, b)
    requires x.g.nodes.Keys == v.g.nodes.Keys && x == Changed(v, x.g, w.requestId, b, v.queue - {w})
    ensures LivesOk(x) && IdsOk(x.lives, x.ids) && QueueOk(x.queue, x.lives, x.born) && SameLives(v.lives, x.lives, w.requestId)
  {
    KeepsWorkId(v, x, w.requestId, b);
    forall y | y in x.queue
      ensures y.requestId != w.requestId
    {
      assert y in v.queue && v.lives[w.requestId].life.work == Some(w);
    }
  }

  lemma SubmittedIsLiving(r: RequestId, a: Active, tokens: nat)
    requires Living(r, a) && tokens > 0
    ensures Living(r, a.(stage := Submitted(tokens, ChunkOf(r, a, tokens))))
  {
    LivingIsLifeOk(r, a);
    LivingIsLifeOk(r, a.(stage := Submitted(tokens, ChunkOf(r, a, tokens))));
  }

  lemma GrantedKeeps(v: Serving, w: Work, tokens: nat, x: Serving, m: Node)
    requires AllSound(v.g.nodes) && Orderly(v) && w in v.queue && w.requestId in v.lives && tokens > 0 && !Orphaned(v, w)
    requires var n, chunk := v.g.nodes[Home(v.lives[w.requestId])], Offered(v, w, tokens);
      && MayAllocate(n, chunk) && (SoundIsInv(n); CanAllocate(n.s, chunk))
      && m == AfterAllocate(n, chunk) && x.g == Put(v.g, Home(v.lives[w.requestId]), m)
    requires x == Changed(v, x.g, w.requestId, v.lives[w.requestId].(stage := Submitted(tokens, Offered(v, w, tokens))), v.queue - {w})
    ensures Orderly(x)
  {
    var r := w.requestId;
    var a, e, n := AtHome(v, r);
    var chunk := Offered(v, w, tokens);
    var b := a.(stage := Submitted(tokens, chunk));
    ChunkIsOwn(r, a, tokens);
    WaitingIsIdle(n, e, v.lives, v.ids, r);
    var k := AllocateOnly(n, chunk);
    OfferPlaced(n, m, e, r, a, b, x.lives);
    SubmittedIsLiving(r, a, tokens);
    OfferSides(v, x, w, b);
    ActKeeps(v, x, e, m, r);
  }

  lemma OfferKeeps(sha: Str -> Str, v: Serving, w: Work, tokens: nat) returns (g: Registry)
    requires ServingInv(v) && Allowed(v, Offer(w, tokens))
    ensures var act := Offer(w, tokens);
      && EngineRuns.Legal(v.g, StepsOf(sha, v, act)) && g == EngineRuns.After(v.g, StepsOf(sha, v, act)) && ServingInv(Next(sha, v, act, g))
  {
    var e := Home(v.lives[w.requestId]);
    var n := OfferMayAllocate(v, w, tokens);
    var m;
    g, m := OfferEngine(v.g, e, Offered(v, w, tokens));
    if IsGranted(v, w, tokens) {
      GrantedKeeps(v, w, tokens, Next(sha, v, Offer(w, tokens), g), m);
    } else {
      RefusedChanges(v.g, e, Offered(v, w, tokens));
    }
  }

  // ---------------------------------------------------------------- Undo

  lemma UndoEngine(g: Registry, e: ExecutorId, wid: WorkId, r: RequestId) returns (h: Registry, m: Node, keep: nat)
    requires EngineInv(g) && e in g.nodes && wid in g.nodes[e].s.pending && r == g.nodes[e].s.pending[wid].requestId
    ensures EngineRuns.Legal(g, [EngineRuns.RollbackWork(e, wid)]) && h == EngineRuns.After(g, [EngineRuns.RollbackWork(e, wid)])
    ensures h == Put(g, e, m) && EngineInv(h) && Sound(m)
    ensures OnlyRequest(g.nodes[e], m, r) && Idle(m, r) && Progress(m, r) == Progress(g.nodes[e], r)
    ensures keep == |g.nodes[e].s.pending[wid].table| - |g.nodes[e].s.pending[wid].added|
    ensures |Listed(m.s.tables, r)| == keep && (r in m.s.tables <==> keep > 0)
    ensures EngineRuns.Enabled(g, EngineRuns.RollbackWork(e, wid)) && EngineRuns.Apply(g, EngineRuns.RollbackWork(e, wid)) == h
  {
    OneStep(g, EngineRuns.RollbackWork(e, wid));
    var q;
    m, q, keep := RollbackOnly(g.nodes[e], wid);
    h := Put(g, e, m);
    RollbackStep(g.nodes[e], wid);
  }

  /** The request has the blocks it had before. */
  lemma UndoPlaced(n: Node, m: Node, e: ExecutorId, r: RequestId, a: Active, b: Active, lives: map<RequestId, Active>, keep: nat)
    requires ActiveOk(n, r, a) && OnlyRequest(n, m, r) && Idle(m, r) && Progress(m, r) == Progress(n, r)
    requires |Listed(m.s.tables, r)| == keep && (r in m.s.tables <==> keep > 0) && |a.life.req.cacheBlocks| <= keep
    requires a.life.req.cacheBlocks != [] ==> !a.freed
    requires !b.stage.Submitted? && b.life.req == a.life.req && b.life.committed == a.life.committed && b.freed == a.freed && Home(b) == e
    requires r in lives && lives[r] == b
    ensures Placed(m, e, lives, r)
  {
  }

  lemma UndoSides(v: Serving, x: Serving, r: RequestId, b: Active)
    requires LivesOk(v) && IdsOk(v.lives, v.ids) && QueueOk(v.queue, v.lives, v.born) && r in v.lives && v.lives[r].stage.Submitted?
    requires Living(r, b) && b.stage.Waiting? && Home(b) == Home(v.lives[r]) && b.life.work.value.workId == v.lives[r].life.work.value.workId
    requires x.g.nodes.Keys == v.g.nodes.Keys && x == Changed(v, x.g, r, b, v.queue + {b.life.work.value})
    ensures LivesOk(x) && IdsOk(x.lives, x.ids) && QueueOk(x.queue, x.lives, x.born) && SameLives(v.lives, x.lives, r)
  {
    KeepsWorkId(v, x, r, b);
    assert x.born == v.born + {r};
    QueueGrows(v, x, r, b);
  }

  /** A submitted work has its blocks in its request's table, so it is not an orphan. */
  lemma SubmittedIsHeld(n: Node, r: RequestId, a: Active)
    requires Sound(n) && ActiveOk(n, r, a) && a.stage.Submitted?
    ensures a.stage.chunk.workId in n.s.pending && n.s.pending[a.stage.chunk.workId].requestId == r
    ensures r in n.s.tables && (a.life.req.cacheBlocks != [] ==> !a.freed)
  {
    SoundIsInv(n);
    assert AllocationOk(n, n.s.pending[a.stage.chunk.workId]);
  }

  lemma UndoneKeeps(v: Serving, r: RequestId, a: Active, e: ExecutorId, n: Node, g: Registry, m: Node, keep: nat)
    requires Orderly(v) && r in v.lives && a == v.lives[r] && a.stage.Submitted? && e == Home(a) && e in v.g.nodes && n == v.g.nodes[e]
    requires Living(r, a) && ActiveOk(n, r, a) && (a.life.req.cacheBlocks != [] ==> !a.freed) && g == Put(v.g, e, m)
    requires OnlyRequest(n, m, r) && Idle(m, r) && Progress(m, r) == Progress(n, r)
    requires |Listed(m.s.tables, r)| == keep && (r in m.s.tables <==> keep > 0) && |a.life.req.cacheBlocks| <= keep
    ensures Orderly(Changed(v, g, r, a.(life := MovedLife(v, r, Shorten(a.stage.tokens)), stage := Waiting), v.queue + {a.stage.chunk}))
  {
    var life := UndoIsOwn(r, a);
    var b := a.(life := life, stage := Waiting);
    var x := Changed(v, g, r, b, v.queue + {a.stage.chunk});
    UndoPlaced(n, m, e, r, a, b, x.lives, keep);
    UndoSides(v, x, r, b);
    ActKeeps(v, x, e, m, r);
  }

  lemma UndoKeeps(sha: Str -> Str, v: Serving, r: RequestId) returns (g: Registry)
    requires ServingInv(v) && Allowed(v, Undo(r))
    ensures EngineRuns.Legal(v.g, StepsOf(sha, v, Undo(r))) && g == EngineRuns.After(v.g, StepsOf(sha, v, Undo(r)))
    ensures ServingInv(Next(sha, v, Undo(r), g))
  {
    var a, e, n := AtHome(v, r);
    SubmittedIsHeld(n, r, a);
    var m, keep;
    g, m, keep := UndoEngine(v.g, e, a.stage.chunk.workId, r);
    UndoneKeeps(v, r, a, e, n, g, m, keep);
  }

  // ---------------------------------------------------------------- requests that end

  lemma EndEngine(g: Registry, e: ExecutorId, r: RequestId) returns (h: Registry, m: Node)
    requires EngineInv(g) && e in g.nodes
    ensures EngineRuns.Legal(g, [EngineRuns.FreeBlocks(e, r)]) && h == EngineRuns.After(g, [EngineRuns.FreeBlocks(e, r)])
    ensures h == Put(g, e, m) && EngineInv(h) && OnlyRequest(g.nodes[e], m, r) && Idle(m, r) && r !in m.s.tables
  {
    OneStep(g, EngineRuns.FreeBlocks(e, r));
    m := FreeOnly(g.nodes[e], r);
    h := Put(g, e, m);
  }

  /** A request that has ended leaves nothing behind; its work items in the queues are dropped when they come up. */
  lemma EndedKeeps(v: Serving, x: Serving, e: ExecutorId, m: Node, r: RequestId)
    requires Orderly(v) && r in v.lives && e == Home(v.lives[r]) && e in v.g.nodes && x.g == Put(v.g, e, m)
    requires OnlyRequest(v.g.nodes[e], m, r) && Idle(m, r) && r !in m.s.tables
    requires x == v.(g := x.g, lives := v.lives - {r})
    ensures Orderly(x)
  {
    FewerLives(v, x, r);
    ActKeeps(v, x, e, m, r);
  }

  lemma EndKeeps(sha: Str -> Str, v: Serving, r: RequestId) returns (g: Registry)
    requires ServingInv(v) && Allowed(v, End(r))
    ensures EngineRuns.Legal(v.g, StepsOf(sha, v, End(r))) && g == EngineRuns.After(v.g, StepsOf(sha, v, End(r)))
    ensures ServingInv(Next(sha, v, End(r), g))
  {
    var a, e, n := AtHome(v, r);
    var m;
    g, m := EndEngine(v.g, e, r);
    EndedKeeps(v, v.(g := g, lives := v.lives - {r}), e, m, r);
  }

  lemma FailEngine(g: Registry, e: ExecutorId, wid: WorkId, r: RequestId) returns (h: Registry, k: Node)
    requires EngineInv(g) && e in g.nodes && wid in g.nodes[e].s.pending && r == g.nodes[e].s.pending[wid].requestId
    ensures var steps := [EngineRuns.RollbackWork(e, wid), EngineRuns.FreeBlocks(e, r)];
      EngineRuns.Legal(g, steps) && h == EngineRuns.After(g, steps)
    ensures h == Put(g, e, k) && EngineInv(h) && OnlyRequest(g.nodes[e], k, r) && Idle(k, r) && r !in k.s.tables
  {
    var mid, m, _ := UndoEngine(g, e, wid, r);
    k := ThenFreed(g, e, m, r);
    TwoSteps(g, EngineRuns.RollbackWork(e, wid), EngineRuns.FreeBlocks(e, r));
    h := Put(g, e, k);
  }

  lemma StoppedKeeps(v: Serving, r: RequestId, a: Active, e: ExecutorId, n: Node, g: Registry, m: Node, keep: nat)
    requires Orderly(v) && r in v.lives && a == v.lives[r] && a.stage.Submitted? && e == Home(a) && e in v.g.nodes && n == v.g.nodes[e]
    requires Living(r, a) && ActiveOk(n, r, a) && (a.life.req.cacheBlocks != [] ==> !a.freed) && g == Put(v.g, e, m)
    requires OnlyRequest(n, m, r) && Idle(m, r) && Progress(m, r) == Progress(n, r)
    requires |Listed(m.s.tables, r)| == keep && (r in m.s.tables <==> keep > 0) && |a.life.req.cacheBlocks| <= keep
    ensures Orderly(v.(g := g, lives := v.lives[r := a.(stage := Stopped)]))
  {
    var b := a.(stage := Stopped);
    var x := v.(g := g, lives := v.lives[r := b]);
    UndoPlaced(n, m, e, r, a, b, x.lives, keep);
    StoppedIsLiving(r, a);
    KeepsWorkId(v, x, r, b);
    ActKeeps(v, x, e, m, r);
  }

  lemma StoppedIsLiving(r: RequestId, a: Active)
    requires Living(r, a)
    ensures Living(r, a.(stage := Stopped))
  {
    LivingIsLifeOk(r, a);
    LivingIsLifeOk(r, a.(stage := Stopped));
  }

  lemma FailDoneKeeps(sha: Str -> Str, v: Serving, r: RequestId) returns (g: Registry)
    requires ServingInv(v) && Allowed(v, Fail(r, true))
    ensures EngineRuns.Legal(v.g, StepsOf(sha, v, Fail(r, true))) && g == EngineRuns.After(v.g, StepsOf(sha, v, Fail(r, true)))
    ensures ServingInv(Next(sha, v, Fail(r, true), g))
  {
    var a, e, n := AtHome(v, r);
    SubmittedIsHeld(n, r, a);
    var k;
    g, k := FailEngine(v.g, e, a.stage.chunk.workId, r);
    assert StepsOf(sha, v, Fail(r, true)) == [EngineRuns.RollbackWork(e, a.stage.chunk.workId), EngineRuns.FreeBlocks(e, r)];
    EndedKeeps(v, v.(g := g, lives := v.lives - {r}), e, k, r);
  }

  lemma FailOpenKeeps(sha: Str -> Str, v: Serving, r: RequestId) returns (g: Registry)
    requires ServingInv(v) && Allowed(v, Fail(r, false))
    ensures EngineRuns.Legal(v.g, StepsOf(sha, v, Fail(r, false))) && g == EngineRuns.After(v.g, StepsOf(sha, v, Fail(r, false)))
    ensures ServingInv(Next(sha, v, Fail(r, false), g))
  {
    var a, e, n := AtHome(v, r);
    SubmittedIsHeld(n, r, a);
    var m, keep;
    g, m, keep := UndoEngine(v.g, e, a.stage.chunk.workId, r);
    assert StepsOf(sha, v, Fail(r, false)) == [EngineRuns.RollbackWork(e, a.stage.chunk.workId)];
    StoppedKeeps(v, r, a, e, n, g, m, keep);
  }

  /** A failed work is rolled back; its request is freed when the event is done, and otherwise waits to be closed. */
  lemma FailKeeps(sha: Str -> Str, v: Serving, r: RequestId, done: bool) returns (g: Registry)
    requires ServingInv(v) && Allowed(v, Fail(r, done))
    ensures EngineRuns.Legal(v.g, StepsOf(sha, v, Fail(r, done))) && g == EngineRuns.After(v.g, StepsOf(sha, v, Fail(r, done)))
    ensures ServingInv(Next(sha, v, Fail(r, done), g))
  {
    if done {
      g := FailDoneKeeps(sha, v, r);
    } else {
      g := FailOpenKeeps(sha, v, r);
    }
  }

  // ---------------------------------------------------------------- reports

  lemma CommitEngine(g: Registry, e: ExecutorId, wid: WorkId, r: RequestId) returns (h: Registry, m: Node)
    requires EngineInv(g) && e in g.nodes && wid in g.nodes[e].s.pending && r == g.nodes[e].s.pending[wid].requestId
    ensures EngineRuns.Legal(g, [EngineRuns.CommitWork(e, wid)]) && h == EngineRuns.After(g, [EngineRuns.CommitWork(e, wid)])
    ensures h == Put(g, e, m) && EngineInv(h) && Sound(m)
    ensures OnlyRequest(g.nodes[e], m, r) && Idle(m, r)
    ensures m.s.tables == g.nodes[e].s.tables && Progress(m, r) == g.nodes[e].s.pending[wid].tokensAfterCommit
    ensures EngineRuns.Enabled(g, EngineRuns.CommitWork(e, wid)) && EngineRuns.Apply(g, EngineRuns.CommitWork(e, wid)) == h
  {
    OneStep(g, EngineRuns.CommitWork(e, wid));
    var q;
    m, q := CommitOnly(g.nodes[e], wid);
    h := Put(g, e, m);
    CommitStep(g.nodes[e], wid);
  }

  lemma DoneEngine(g: Registry, e: ExecutorId, wid: WorkId, r: RequestId) returns (h: Registry, k: Node)
    requires EngineInv(g) && e in g.nodes && wid in g.nodes[e].s.pending && r == g.nodes[e].s.pending[wid].requestId
    ensures var steps := [EngineRuns.CommitWork(e, wid), EngineRuns.FreeBlocks(e, r)];
      EngineRuns.Legal(g, steps) && h == EngineRuns.After(g, steps)
    ensures h == Put(g, e, k) && EngineInv(h) && OnlyRequest(g.nodes[e], k, r) && Idle(k, r) && r !in k.s.tables && Progress(k, r) == 0
  {
    var mid, m := CommitEngine(g, e, wid, r);
    k := ThenFreed(g, e, m, r);
    TwoSteps(g, EngineRuns.CommitWork(e, wid), EngineRuns.FreeBlocks(e, r));
    h := Put(g, e, k);
  }

  /** The committed chunk is the request's progress, and its next work waits. */
  lemma CommittedPlaced(n: Node, m: Node, e: ExecutorId, r: RequestId, a: Active, b: Active, lives: map<RequestId, Active>)
    requires ActiveOk(n, r, a) && a.stage.Submitted? && OnlyRequest(n, m, r) && Idle(m, r) && m.s.tables == n.s.tables
    requires Progress(m, r) == b.life.committed && b.stage.Waiting? && b.freed == a.freed
    requires b.life.req.cacheBlocks == a.life.req.cacheBlocks && Home(b) == e && r in lives && lives[r] == b
    ensures Placed(m, e, lives, r)
  {
  }

  /** A done event has released the blocks of a request whose next work waits. */
  lemma FreedPlaced(n: Node, m: Node, e: ExecutorId, r: RequestId, a: Active, b: Active, lives: map<RequestId, Active>)
    requires ActiveOk(n, r, a) && OnlyRequest(n, m, r) && Idle(m, r) && r !in m.s.tables && Progress(m, r) == 0
    requires b.stage.Waiting? && b.freed && b.life.req.cacheBlocks == a.life.req.cacheBlocks && Home(b) == e && r in lives && lives[r] == b
    ensures Placed(m, e, lives, r)
  {
  }

  lemma ReportSides(v: Serving, x: Serving, r: RequestId, b: Active, id: WorkId)
    requires LivesOk(v) && IdsOk(v.lives, v.ids) && QueueOk(v.queue, v.lives, v.born) && r in v.lives && v.lives[r].stage.Submitted?
    requires Living(r, b) && b.stage.Waiting? && Home(b) == Home(v.lives[r]) && b.life.work.value.workId == id && id !in v.ids
    requires x.g.nodes.Keys == v.g.nodes.Keys
    requires x == Changed(v, x.g, r, b, v.queue + {b.life.work.value}).(ids := v.ids + {id})
    ensures LivesOk(x) && IdsOk(x.lives, x.ids) && QueueOk(x.queue, x.lives, x.born) && SameLives(v.lives, x.lives, r)
  {
    assert x.born == v.born + {r};
    TakesWorkId(v, x, r, b, id);
    QueueGrows(v, x, r, b);
  }

  lemma ReportedKeeps(v: Serving, r: RequestId, move: Move, a: Active, e: ExecutorId, n: Node, g: Registry, m: Node)
    requires Orderly(v) && r in v.lives && a == v.lives[r] && e == Home(a) && e in v.g.nodes && n == v.g.nodes[e]
    requires a.stage.Submitted? && move.RunWork? && move.tokens == a.stage.tokens && move.workId !in v.ids
    requires Living(r, a) && ActiveOk(n, r, a) && MovedLife(v, r, move).work.Some?
    requires g == Put(v.g, e, m) && OnlyRequest(n, m, r) && Idle(m, r)
    requires move.done ==> r !in m.s.tables && Progress(m, r) == 0
    requires !move.done ==> m.s.tables == n.s.tables && Progress(m, r) == n.s.pending[a.stage.chunk.workId].tokensAfterCommit
    ensures var b := Active(MovedLife(v, r, move), a.cached, a.freed || move.done, Waiting);
      Orderly(Changed(v, g, r, b, v.queue + {b.life.work.value}).(ids := v.ids + {move.workId}))
  {
    var life := ReportIsOwn(r, a, move);
    var b := Active(life, a.cached, a.freed || move.done, Waiting);
    var x := Changed(v, g, r, b, v.queue + {life.work.value}).(ids := v.ids + {move.workId});
    if move.done {
      FreedPlaced(n, m, e, r, a, b, x.lives);
    } else {
      CommittedPlaced(n, m, e, r, a, b, x.lives);
    }
    ReportSides(v, x, r, b, move.workId);
    ActKeeps(v, x, e, m, r);
  }

  lemma DoneKeeps(sha: Str -> Str, v: Serving, r: RequestId, move: Move) returns (g: Registry)
    requires ServingInv(v) && Allowed(v, Report(r, move)) && Releases(v, r, move)
    ensures var act := Report(r, move);
      && EngineRuns.Legal(v.g, StepsOf(sha, v, act)) && g == EngineRuns.After(v.g, StepsOf(sha, v, act)) && ServingInv(Next(sha, v, act, g))
  {
    var a, e, n := AtHome(v, r);
    SubmittedIsHeld(n, r, a);
    var k;
    g, k := DoneEngine(v.g, e, a.stage.chunk.workId, r);
    assert StepsOf(sha, v, Report(r, move)) == [EngineRuns.CommitWork(e, a.stage.chunk.workId), EngineRuns.FreeBlocks(e, r)];
    if MovedLife(v, r, move).work.None? {
      EndedKeeps(v, v.(g := g, lives := v.lives - {r}), e, k, r);
    } else {
      ReportedKeeps(v, r, move, a, e, n, g, k);
    }
  }

  lemma ContinueKeeps(sha: Str -> Str, v: Serving, r: RequestId, move: Move) returns (g: Registry)
    requires ServingInv(v) && Allowed(v, Report(r, move)) && !Releases(v, r, move)
    ensures var act := Report(r, move);
      && EngineRuns.Legal(v.g, StepsOf(sha, v, act)) && g == EngineRuns.After(v.g, StepsOf(sha, v, act)) && ServingInv(Next(sha, v, act, g))
  {
    var a, e, n := AtHome(v, r);
    SubmittedIsHeld(n, r, a);
    var m;
    g, m := CommitEngine(v.g, e, a.stage.chunk.workId, r);
    assert StepsOf(sha, v, Report(r, move)) == [EngineRuns.CommitWork(e, a.stage.chunk.workId)];
    ReportedKeeps(v, r, move, a, e, n, g, m);
  }

  // ---------------------------------------------------------------- transfers and late results

  lemma SameActive(n: Node, m: Node, r: RequestId, a: Active)
    requires SameRequests(n, m) && ActiveOk(n, r, a)
    ensures ActiveOk(m, r, a)
  {
  }

  lemma SameServed(n: Node, m: Node, e: ExecutorId, lives: map<RequestId, Active>)
    requires SameRequests(n, m) && Served(n, e, lives)
    ensures Served(m, e, lives)
  {
    forall r | r in lives && Home(lives[r]) == e
      ensures ActiveOk(m, r, lives[r])
    {
      SameActive(n, m, r, lives[r]);
    }
  }

  lemma OtherKeeps(sha: Str -> Str, v: Serving, s: EngineRuns.Step) returns (g: Registry)
    requires ServingInv(v) && Allowed(v, Other(s))
    ensures EngineRuns.Legal(v.g, StepsOf(sha, v, Other(s))) && g == EngineRuns.After(v.g, StepsOf(sha, v, Other(s)))
    ensures ServingInv(Next(sha, v, Other(s), g))
  {
    OneStep(v.g, s);
    ElsewhereKeeps(v.g, s);
    g := EngineRuns.Apply(v.g, s);
    forall e | e in g.nodes
      ensures Served(g.nodes[e], e, v.lives)
    {
      SameServed(v.g.nodes[e], g.nodes[e], e, v.lives);
    }
  }

  // ---------------------------------------------------------------- runs

  /** Every act is a sequence of engine steps that are enabled one after the other, and keeps the invariant. */
  lemma ActIsEnabled(sha: Str -> Str, v: Serving, act: Act)
    requires ServingInv(v) && Allowed(v, act)
    ensures EngineRuns.Legal(v.g, StepsOf(sha, v, act)) && ServingInv(Next(sha, v, act, EngineRuns.After(v.g, StepsOf(sha, v, act))))
  {
    match act
    case Begin(req, e, salt, workId) => var g := BeginKeeps(sha, v, req, e, salt, workId);
    case Offer(w, tokens) => var g := OfferKeeps(sha, v, w, tokens);
    case Undo(r) => var g := UndoKeeps(sha, v, r);
    case Report(r, move) => if Releases(v, r, move) { var g := DoneKeeps(sha, v, r, move); } else { var g := ContinueKeeps(sha, v, r, move); }
    case Fail(r, done) => var g := FailKeeps(sha, v, r, done);
    case End(r) => var g := EndKeeps(sha, v, r);
    case Other(s) => var g := OtherKeeps(sha, v, s);
  }

  /** The state after an act. */
  ghost function Then(sha: Str -> Str, v: Serving, act: Act): (w: Serving)
    requires ServingInv(v) && Allowed(v, act)
    ensures ServingInv(w)
  {
    ActIsEnabled(sha, v, act);
    Next(sha, v, act, EngineRuns.After(v.g, StepsOf(sha, v, act)))
  }

  ghost predicate AllAllowed(sha: Str -> Str, v: Serving, acts: seq<Act>)
    requires ServingInv(v)
    decreases |acts|
  {
    acts == [] || (Allowed(v, acts[0]) && AllAllowed(sha, Then(sha, v, acts[0]), acts[1..]))
  }

  ghost function AfterAll(sha: Str -> Str, v: Serving, acts: seq<Act>): (w: Serving)
    requires ServingInv(v) && AllAllowed(sha, v, acts)
    ensures ServingInv(w)
    decreases |acts|
  {
    if acts == [] then v else AfterAll(sha, Then(sha, v, acts[0]), acts[1..])
  }

  /** The engine steps of a run, in order. */
  ghost function AllSteps(sha: Str -> Str, v: Serving, acts: seq<Act>): seq<EngineRuns.Step>
    requires ServingInv(v) && AllAllowed(sha, v, acts)
    decreases |acts|
  {
    if acts == [] then [] else StepsOf(sha, v, acts[0]) + AllSteps(sha, Then(sha, v, acts[0]), acts[1..])
  }

  lemma {:induction false} StepsThen(g: Registry, first: seq<EngineRuns.Step>, rest: seq<EngineRuns.Step>)
    requires EngineInv(g) && EngineRuns.Legal(g, first) && EngineRuns.Legal(EngineRuns.After(g, first), rest)
    ensures EngineRuns.Legal(g, first + rest) && EngineRuns.After(g, first + rest) == EngineRuns.After(EngineRuns.After(g, first), rest)
    decreases |first|
  {
    if first == [] {
      assert first + rest == rest;
    } else {
      var h := EngineRuns.FirstStep(g, first);
      StepsThen(h, first[1..], rest);
      HeadFirst(first, rest);
      EngineRuns.StepBefore(g, first[0], h, first[1..] + rest);
    }
  }

  lemma HeadFirst<T>(first: seq<T>, rest: seq<T>)
    requires first != []
    ensures first + rest == [first[0]] + (first[1..] + rest)
  {
  }

  lemma ThenIs(sha: Str -> Str, v: Serving, act: Act)
    requires ServingInv(v) && Allowed(v, act)
    ensures EngineRuns.Legal(v.g, StepsOf(sha, v, act)) && Then(sha, v, act).g == EngineRuns.After(v.g, StepsOf(sha, v, act))
  {
    ActIsEnabled(sha, v, act);
  }

  /**
   * Whatever requests come and go, however the scheduler splits and offers their works, and whatever the
   * executors report, the engine only ever takes steps that are enabled: the premises of its theorems hold in
   * every run of the scheduler and the request state machine, but for the offer of an orphaned work item.
   */
  lemma {:induction false} ServingIsEngineRun(sha: Str -> Str, v: Serving, acts: seq<Act>)
    requires ServingInv(v) && AllAllowed(sha, v, acts)
    ensures EngineRuns.Legal(v.g, AllSteps(sha, v, acts)) && AfterAll(sha, v, acts).g == EngineRuns.After(v.g, AllSteps(sha, v, acts))
    decreases |acts|
  {
    if acts != [] {
      ThenIs(sha, v, acts[0]);
      var w := Then(sha, v, acts[0]);
      ServingIsEngineRun(sha, w, acts[1..]);
      StepsThen(v.g, StepsOf(sha, v, acts[0]), AllSteps(sha, w, acts[1..]));
    }
  }

  /** A freshly started engine, no request yet. */
  lemma StartsOrderly(g: Registry)
    requires EngineRuns.IsInitial(g)
    ensures ServingInv(Serving(g, map[], {}, {}, {}))
  {
    EngineRuns.InitialEngine(g);
    forall e | e in g.nodes
      ensures Served(g.nodes[e], e, map[])
    {
      var bs: nat, k: nat :| bs > 0 && g.nodes[e] == Node(Initial(bs, k), map[], map[], map[]);
    }
  }

  /**
   * In every run, a chunk of a queued work item that the scheduler offers is what AllocateBlocks counts on,
   * exactly when the item is not orphaned; until its request is freed, the tokens that the request has
   * committed are its progress.
   */
  lemma OffersMayAllocate(sha: Str -> Str, g: Registry, acts: seq<Act>, w: Work, tokens: nat)
    requires EngineRuns.IsInitial(g) && tokens > 0
    requires (StartsOrderly(g); AllAllowed(sha, Serving(g, map[], {}, {}, {}), acts))
    requires (StartsOrderly(g); var v := AfterAll(sha, Serving(g, map[], {}, {}, {}), acts); w in v.queue && w.requestId in v.lives)
    ensures (StartsOrderly(g);
             var v := AfterAll(sha, Serving(g, map[], {}, {}, {}), acts);
             var a := v.lives[w.requestId];
             && Home(a) in v.g.nodes
             && (MayAllocate(v.g.nodes[Home(a)], Offered(v, w, tokens)) <==> !Orphaned(v, w))
             && (!a.freed ==> Progress(v.g.nodes[Home(a)], w.requestId) == a.life.committed))
  {
    StartsOrderly(g);
    var _ := OfferMayAllocate(AfterAll(sha, Serving(g, map[], {}, {}, {}), acts), w, tokens);
  }

  /** So a batch of works of different requests of one executor is what Resubmission counts on. */
  lemma BatchMayAllocate(v: Serving, e: ExecutorId, works: seq<Work>, tokens: seq<nat>, offered: seq<Work>)
    requires ServingInv(v) && e in v.g.nodes && |works| == |tokens| == |offered|
    requires forall i :: 0 <= i < |works| ==>
      && works[i] in v.queue && works[i].requestId in v.lives && Home(v.lives[works[i].requestId]) == e
      && tokens[i] > 0 && !Orphaned(v, works[i]) && offered[i] == Offered(v, works[i], tokens[i])
    ensures AllMayAllocate(v.g.nodes[e], offered)
  {
    forall i | 0 <= i < |offered|
      ensures MayAllocate(v.g.nodes[e], offered[i])
    {
      var n := OfferMayAllocate(v, works[i], tokens[i]);
    }
  }

  lemma PrefillGoesOn(r: RequestId, a: Active, move: Move)
    requires Living(r, a) && a.stage.Submitted? && move.RunWork? && move.tokens == a.stage.tokens && a.life.work.value.phase == Prefill
    ensures (LivingIsLifeOk(r, a); Moved(a.life, a.cached, move).work.Some?)
  {
    LivingIsLifeOk(r, a);
    ChunkOk(a.life, a.cached, move);
  }

  /** Every done report of a prefill whose request had matched blocks leaves such an item in the queue. */
  lemma DonePrefillOrphans(sha: Str -> Str, v: Serving, r: RequestId, move: Move) returns (w: Work)
    requires ServingInv(v) && Allowed(v, Report(r, move)) && move.done
    requires v.lives[r].life.work.Some? && v.lives[r].life.work.value.phase == Prefill && v.lives[r].life.req.cacheBlocks != []
    ensures var x := Then(sha, v, Report(r, move)); w.requestId == r && w in x.queue && Orphaned(x, w)
  {
    var a, _, _ := AtHome(v, r);
    PrefillGoesOn(r, a, move);
    var life := ReportIsOwn(r, a, move);
    w := life.work.value;
    assert Living(r, Active(life, a.cached, true, Waiting));
  }
}

/** No block is twice in one request's table, because no two blocks of one prompt have the same hash. */
module TableRuns {
  import opened Hashing
  import opened Spans
  import opened Sequences
  import opened BlockSpec
  import opened Bags
  import opened BlockEffects
  import opened BlockInv
  import opened RequestInv
  import opened CommitInv
  import opened ReleaseInv
  import opened TransferInv
  import opened NodeSteps
  import opened Engine
  import opened EngineRuns

  ghost predicate TablesApart(tables: map<RequestId, seq<nat>>) {
    forall r :: r in tables ==> Distinct(tables[r])
  }

  // ---------------------------------------------------------------- hashes

  /** The hash chain of a prompt whose own inputs do not collide. */
  ghost predicate CleanChain(sha: Str -> Str, bs: nat, salt: Str, tokens: seq<Token>) {
    IsSha256(sha) && IsSalt(salt) && forall i: nat, j: nat :: NoCollision(sha, bs, salt, tokens, i, salt, tokens, j)
  }

  lemma HashesDiffer(sha: Str -> Str, bs: nat, salt: Str, tokens: seq<Token>, k: nat, i: nat, j: nat)
    requires CleanChain(sha, bs, salt, tokens) && Span(k, bs) <= |tokens| && i < j < k
    ensures HashesTo(sha, bs, salt, tokens, k)[i] != HashesTo(sha, bs, salt, tokens, k)[j]
  {
    HashAt(sha, bs, salt, tokens, k, i);
    HashAt(sha, bs, salt, tokens, k, j);
    if ChainHash(sha, bs, salt, tokens, i) == ChainHash(sha, bs, salt, tokens, j) {
      ChainIdentifiesPrefix(sha, bs, salt, tokens, i, salt, tokens, j);
    }
  }

  /** The hashes a prompt may match are all different. */
  lemma ChainHasNoRepeats(sha: Str -> Str, bs: nat, salt: Str, tokens: seq<Token>)
    requires bs > 0 && CleanChain(sha, bs, salt, tokens)
    ensures Distinct(Matchable(sha, bs, salt, tokens))
  {
    var all, some := BlockHashes(sha, bs, salt, tokens), Matchable(sha, bs, salt, tokens);
    MaxMatchedFits(bs, |tokens|);
    SpanOfQuotient(|tokens|, bs);
    forall i, j | 0 <= i < j < |some|
      ensures some[i] != some[j]
    {
      assert some[i] == all[i] && some[j] == all[j];
      HashesDiffer(sha, bs, salt, tokens, |tokens| / bs, i, j);
    }
  }

  // ---------------------------------------------------------------- one executor

  lemma RunIsDistinct(s: State, hashes: seq<Hash>)
    requires Indexed(s) && Distinct(hashes)
    ensures Distinct(Run(s.index, hashes))
  {
    var ids := Run(s.index, hashes);
    forall i, j | 0 <= i < j < |ids|
      ensures ids[i] != ids[j]
    {
      assert s.blocks[ids[i]].hash == hashes[i] && s.blocks[ids[j]].hash == hashes[j];
    }
  }

  lemma MatchApart(n: Node, rid: RequestId, hashes: seq<Hash>)
    requires Sound(n) && TablesApart(n.s.tables) && Distinct(hashes)
    ensures TablesApart(AfterMatch(n, rid, hashes).s.tables)
  {
    SoundIsInv(n);
    MatchFrame(n, rid, hashes);
    RunIsDistinct(n.s, hashes);
  }

  lemma GrownIsDistinct(a: seq<nat>, b: seq<nat>)
    requires Distinct(a) && Distinct(b) && forall x :: x in a ==> x !in b
    ensures Distinct(a + b)
  {
    var c := a + b;
    forall i, j | 0 <= i < j < |c|
      ensures c[i] != c[j]
    {
      if i < |a| && j >= |a| {
        assert c[i] in a && c[j] in b;
      }
    }
  }

  /** A free block is in no table. */
  lemma TableNotFree(n: Node, r: RequestId, x: nat)
    requires Inv(n) && r in n.s.tables && x in n.s.tables[r]
    ensures x < |n.s.blocks| && x !in n.s.free
  {
    var i :| 0 <= i < |n.s.tables[r]| && n.s.tables[r][i] == x;
    TableHeld(n, r, i);
  }

  lemma AllocateApart(n: Node, w: Work)
    requires Sound(n) && MayAllocate(n, w) && TablesApart(n.s.tables)
    ensures TablesApart(AfterAllocate(n, w).s.tables)
  {
    SoundIsInv(n);
    if CanAllocate(n.s, w) {
      AllocateFrame(n, w);
      var a := NewAllocation(n.s, w);
      forall x | x in Existing(n.s, w)
        ensures x !in a.added
      {
        TableNotFree(n, w.requestId, x);
        assert forall y :: y in a.added ==> y in n.s.free;
      }
      assert forall i :: 0 <= i < |a.added| ==> a.added[i] == n.s.free[i];
      GrownIsDistinct(Existing(n.s, w), a.added);
    }
  }

  lemma CommitApart(n: Node, wid: WorkId)
    requires Sound(n) && TablesApart(n.s.tables)
    ensures TablesApart(AfterCommit(n, wid).s.tables)
  {
    SoundIsInv(n);
    if wid in n.s.pending {
      CommitEffect(n, wid);
    }
  }

  lemma CutApart(tables: map<RequestId, seq<nat>>, rid: RequestId, keep: nat)
    requires TablesApart(tables) && keep <= |Listed(tables, rid)|
    ensures TablesApart(CutTables(tables, rid, keep))
  {
  }

  lemma RollbackApart(n: Node, wid: WorkId)
    requires Sound(n) && TablesApart(n.s.tables)
    ensures TablesApart(AfterRollback(n, wid).s.tables)
  {
    SoundIsInv(n);
    if wid in n.s.pending {
      assert AllocationOk(n, n.s.pending[wid]);
      var rid, keep, pending := RollbackIsDrop(n, wid);
      DropFrame(n, rid, keep, pending);
      CutApart(n.s.tables, rid, keep);
    }
  }

  lemma FreeApart(n: Node, rid: RequestId)
    requires Sound(n) && TablesApart(n.s.tables)
    ensures TablesApart(AfterFree(n, rid).s.tables)
  {
    SoundIsInv(n);
    FreeIsDrop(n, rid);
    DropFrame(n, rid, 0, OthersPending(n.s, rid));
    CutApart(n.s.tables, rid, 0);
  }

  lemma {:induction false} TouchAllTables(s: State, ids: seq<nat>)
    requires InRange(ids, |s.blocks|)
    ensures TouchAll(s, ids).tables == s.tables
  {
    if ids != [] {
      TouchAllTables(s, ids[..|ids| - 1]);
    }
  }

  lemma UnpinTables(n: Node, t: TransferId)
    requires Sound(n) && t in n.pinned
    ensures AfterUnpin(n, t).s.tables == n.s.tables
  {
    SoundIsInv(n);
    PushAllFields(n.s, n.pinned[t]);
  }

  lemma UnreserveTables(n: Node, t: TransferId)
    requires Sound(n) && t in n.reserved
    ensures AfterUnreserve(n, t).s.tables == n.s.tables
  {
    SoundIsInv(n);
    PushAllFields(n.s, n.reserved[t]);
  }

  lemma ImportTables(n: Node, t: TransferId, hashes: seq<Hash>)
    requires Sound(n) && t in n.reserved && |n.reserved[t]| == |hashes|
    ensures AfterImport(n, t, hashes).s.tables == n.s.tables
  {
    SoundIsInv(n);
    ImportAllFields(n.s, n.reserved[t], hashes, |hashes|);
  }

  // ---------------------------------------------------------------- the engine

  ghost predicate AllApart(g: Registry) {
    forall e :: e in g.nodes ==> TablesApart(g.nodes[e].s.tables)
  }

  /** A match is for the hashes of some prompt, as MatchPrefix computes them. */
  ghost predicate Hashed(sha: Str -> Str, g: Registry, s: Step) {
    s.MatchPrefix? && s.e in g.nodes ==>
      exists salt, tokens :: ForPrompt(sha, g.nodes[s.e].s.blockSize, salt, tokens, s.matchable)
  }

  ghost predicate ForPrompt(sha: Str -> Str, bs: nat, salt: Str, tokens: seq<Token>, hashes: seq<Hash>) {
    bs > 0 && CleanChain(sha, bs, salt, tokens) && hashes == Matchable(sha, bs, salt, tokens)
  }

  lemma PrepareApart(g: Registry, t: TransferId, src: ExecutorId, dst: ExecutorId, hashes: seq<Hash>)
    requires EngineInv(g) && AllApart(g)
    ensures AllApart(Prepare(g, t, src, dst, hashes))
  {
    if MayPin(g, t, src, dst, hashes) {
      NotYetAttributed(g, t, src);
      PinStep(g.nodes[src], t, hashes);
      TouchAllTables(g.nodes[src].s, PinnedIds(g.nodes[src].s, hashes));
      UnpinTables(NPin(g.nodes[src], t, hashes), t);
    }
  }

  lemma CommitPlanApart(g: Registry, t: TransferId)
    requires EngineInv(g) && AllApart(g)
    ensures AllApart(CommitPlan(g, t))
  {
    if t in g.transfers {
      var p := g.transfers[t];
      assert PlanOk(g.nodes, t, p);
      UnpinTables(g.nodes[p.src], t);
      ImportTables(g.nodes[p.dst], t, p.hashes);
    }
  }

  lemma RollbackPlanApart(g: Registry, t: TransferId)
    requires EngineInv(g) && AllApart(g)
    ensures AllApart(RollbackPlan(g, t))
  {
    if t in g.transfers {
      var p := g.transfers[t];
      assert PlanOk(g.nodes, t, p);
      UnpinTables(g.nodes[p.src], t);
      UnreserveTables(g.nodes[p.dst], t);
    }
  }

  lemma PromptMatchApart(sha: Str -> Str, n: Node, rid: RequestId, hashes: seq<Hash>, salt: Str, tokens: seq<Token>)
    requires Sound(n) && TablesApart(n.s.tables) && ForPrompt(sha, n.s.blockSize, salt, tokens, hashes)
    ensures TablesApart(AfterMatch(n, rid, hashes).s.tables)
  {
    ChainHasNoRepeats(sha, n.s.blockSize, salt, tokens);
    MatchApart(n, rid, hashes);
  }

  lemma ApplyApart(sha: Str -> Str, g: Registry, s: Step)
    requires EngineInv(g) && Enabled(g, s) && AllApart(g) && Hashed(sha, g, s)
    ensures AllApart(Apply(g, s))
  {
    match s
    case MatchPrefix(e, rid, hashes) =>
      var salt, tokens :| ForPrompt(sha, g.nodes[e].s.blockSize, salt, tokens, hashes);
      PromptMatchApart(sha, g.nodes[e], rid, hashes, salt, tokens);
    case AllocateBlocks(e, w) => AllocateApart(g.nodes[e], w);
    case CommitWork(e, wid) => CommitApart(g.nodes[e], wid);
    case RollbackWork(e, wid) => RollbackApart(g.nodes[e], wid);
    case FreeBlocks(e, rid) => FreeApart(g.nodes[e], rid);
    case PrepareTransfer(t, src, dst, hashes) => PrepareApart(g, t, src, dst, hashes);
    case CommitTransfer(t) => CommitPlanApart(g, t);
    case RollbackTransfer(t) => RollbackPlanApart(g, t);
  }

  ghost predicate AllHashed(sha: Str -> Str, g: Registry, steps: seq<Step>)
    requires EngineInv(g) && Legal(g, steps)
    decreases |steps|
  {
    steps == [] || (Hashed(sha, g, steps[0]) && (ApplyInv(g, steps[0]); AllHashed(sha, Apply(g, steps[0]), steps[1..])))
  }

  /** In every run whose matches are for prompts, no request's table holds a block twice. */
  lemma {:induction false} TablesHaveNoRepeats(sha: Str -> Str, g: Registry, steps: seq<Step>, e: ExecutorId, r: RequestId)
    requires EngineInv(g) && Legal(g, steps) && AllApart(g) && AllHashed(sha, g, steps)
    ensures e in After(g, steps).nodes && r in After(g, steps).nodes[e].s.tables ==> Distinct(After(g, steps).nodes[e].s.tables[r])
    decreases |steps|
  {
    if steps != [] {
      ApplyInv(g, steps[0]);
      ApplyApart(sha, g, steps[0]);
      TablesHaveNoRepeats(sha, Apply(g, steps[0]), steps[1..], e, r);
    }
  }

  /** An engine that has just started has no tables. */
  lemma StartsApart(g: Registry)
    requires IsInitial(g)
    ensures EngineInv(g) && AllApart(g)
  {
    InitialEngine(g);
  }
}

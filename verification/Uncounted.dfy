/** A run in which a request is freed between its match and its allocation, and what the allocation then does. */
module Uncounted {
  import opened Hashing
  import opened Spans
  import opened BlockSpec
  import opened Bags
  import opened BlockInv
  import opened RequestInv
  import opened ReleaseInv
  import opened CommitInv
  import opened NodeSteps
  import opened Engine
  import opened EngineRuns
  import opened Prefixes

  const E := ExecutorId("executor")
  const FIRST := RequestId("first")
  const SECOND := RequestId("second")
  const W := WorkId("work")
  const H := Hash([1])

  /** A one-token prefill in a pool of one block of one token. */
  function PrefillOf(rid: RequestId, cacheBlocks: seq<nat>): Work {
    Work(W, rid, E, Prefill, cacheBlocks, [H], [7], 0, 1, 1, 0, 2)
  }

  function Pool(refs: nat, tokens: nat, cached: bool): seq<Meta> {
    [Meta(if cached then H else Hash([]), refs, tokens, cached)]
  }

  function PendingOne(): Allocation {
    Allocation(FIRST, Prefill, [0], [H], [0], 1)
  }

  function Blank(): State {
    State(1, Pool(0, 0, false), [0], map[], map[], map[])
  }

  function Reserving(): State {
    State(1, Pool(1, 0, false), [], map[FIRST := [0]], map[], map[W := PendingOne()])
  }

  function Published(): State {
    State(1, Pool(1, 1, true), [], map[FIRST := [0]], map[H := 0], map[])
  }

  function Idle(): State {
    State(1, Pool(0, 1, true), [0], map[], map[H := 0], map[])
  }

  function Matched(): State {
    State(1, Pool(1, 1, true), [], map[SECOND := [0]], map[H := 0], map[])
  }

  lemma BlankIsInitial()
    ensures Initial(1, 1) == Blank()
  {
  }

  lemma Allocates()
    ensures CanAllocate(Blank(), PrefillOf(FIRST, [])) && Allocate(Blank(), PrefillOf(FIRST, [])) == Reserving()
  {
    var s, w := Blank(), PrefillOf(FIRST, []);
    assert CeilDiv(1, 1) == 1;
    assert NewAllocation(s, w) == PendingOne();
    var t := Pop(s, 1);
    assert s.free[..1] == [0];
    assert t.blocks == Pool(1, 0, false);
    assert t.index == map[];
  }

  lemma Commits()
    ensures Bounded(Reserving()) && Commit(Reserving(), W) == Published()
  {
    var s, a := Reserving(), PendingOne();
    var t := s.(pending := s.pending - {W});
    assert t.pending == map[];
    assert SetTokens(t, a, 0) == t;
    var u := SetTokens(t, a, 1);
    assert u.blocks == Pool(1, 1, false);
    assert PublishAll(u, a, 0) == u;
    assert Publishes(u, a, 0);
    assert PublishAll(u, a, 1) == Publish(u, 0, H);
  }

  lemma Frees(rid: RequestId, s: State)
    requires s == State(1, Pool(1, 1, true), [], map[rid := [0]], map[H := 0], map[])
    ensures Bounded(s) && FreeRequest(s, rid) == Idle()
  {
    var t := s.(tables := s.tables - {rid}, pending := map w | w in s.pending && s.pending[w].requestId != rid :: s.pending[w]);
    assert t.tables == map[] && t.pending == map[];
    assert [0][..0] == [];
    assert PushAll(t, [0]) == PushFree(PushAll(t, []), 0);
  }

  lemma Matches()
    ensures Bounded(Idle()) && Run(Idle().index, [H]) == [0] && Match(Idle(), SECOND, [H]) == Matched()
  {
    assert [H][1..] == [];
    assert [0][..0] == [];
    var s := Idle();
    assert TouchAll(s, [0]) == Touch(TouchAll(s, []), 0);
    assert Without([0], 0) == [];
  }

  // ---------------------------------------------------------------- the run

  function One(s: State, progress: map<RequestId, nat>): Registry {
    Registry(map[E := Node(s, progress, map[], map[])], map[])
  }

  lemma Started() returns (g: Registry)
    ensures g == One(Blank(), map[]) && IsInitial(g) && EngineInv(g)
  {
    g := One(Blank(), map[]);
    BlankIsInitial();
    assert g.nodes[E] == Node(Initial(1, 1), map[], map[], map[]);
    InitialEngine(g);
  }

  lemma MayAllocateFirst(g: Registry)
    requires g == One(Blank(), map[])
    ensures Enabled(g, AllocateBlocks(E, PrefillOf(FIRST, [])))
  {
  }

  lemma AllocatesNode(n: Node)
    requires Sound(n) && n == Node(Blank(), map[], map[], map[]) && MayAllocate(n, PrefillOf(FIRST, []))
    ensures AfterAllocate(n, PrefillOf(FIRST, [])) == Node(Reserving(), map[], map[], map[])
  {
    Allocates();
  }

  lemma AllocatesThen(g: Registry) returns (h: Registry)
    requires EngineInv(g) && g == One(Blank(), map[])
    ensures Enabled(g, AllocateBlocks(E, PrefillOf(FIRST, []))) && h == Apply(g, AllocateBlocks(E, PrefillOf(FIRST, [])))
    ensures h == One(Reserving(), map[]) && EngineInv(h)
  {
    MayAllocateFirst(g);
    AllocatesNode(g.nodes[E]);
    h := One(Reserving(), map[]);
    ApplyInv(g, AllocateBlocks(E, PrefillOf(FIRST, [])));
  }

  lemma CommitsThen(g: Registry) returns (h: Registry)
    requires EngineInv(g) && g == One(Reserving(), map[])
    ensures h == Apply(g, CommitWork(E, W)) && h == One(Published(), map[FIRST := 1]) && EngineInv(h)
  {
    Commits();
    ApplyInv(g, CommitWork(E, W));
    h := One(Published(), map[FIRST := 1]);
  }

  lemma FreesThen(g: Registry, rid: RequestId) returns (h: Registry)
    requires EngineInv(g) && g == One(State(1, Pool(1, 1, true), [], map[rid := [0]], map[H := 0], map[]), map[rid := 1])
    ensures h == Apply(g, FreeBlocks(E, rid)) && h == One(Idle(), map[]) && EngineInv(h)
  {
    Frees(rid, g.nodes[E].s);
    ApplyInv(g, FreeBlocks(E, rid));
    assert map[rid := 1] - {rid} == map[];
    h := One(Idle(), map[]);
  }

  lemma MatchesThen(g: Registry) returns (h: Registry)
    requires EngineInv(g) && g == One(Idle(), map[])
    ensures Enabled(g, MatchPrefix(E, SECOND, [H])) && h == Apply(g, MatchPrefix(E, SECOND, [H]))
    ensures h == One(Matched(), map[SECOND := 1]) && EngineInv(h)
  {
    Matches();
    ApplyInv(g, MatchPrefix(E, SECOND, [H]));
    assert Span(1, 1) == Span(0, 1) + 1;
    h := One(Matched(), map[SECOND := 1]);
  }

  lemma SecondComesAndGoes(g: Registry) returns (rest: seq<Step>, h: Registry)
    requires EngineInv(g) && g == One(Idle(), map[])
    ensures Legal(g, rest) && After(g, rest) == h && h == One(Idle(), map[])
    ensures rest == [MatchPrefix(E, SECOND, [H]), FreeBlocks(E, SECOND)]
  {
    var mid := MatchesThen(g);
    h := FreesThen(mid, SECOND);
    assert [FreeBlocks(E, SECOND)] + [] == [FreeBlocks(E, SECOND)];
    Continued(mid, FreeBlocks(E, SECOND), []);
    Continued(g, MatchPrefix(E, SECOND, [H]), [FreeBlocks(E, SECOND)]);
    rest := [MatchPrefix(E, SECOND, [H])] + [FreeBlocks(E, SECOND)];
  }

  lemma FirstEnds(g: Registry) returns (steps: seq<Step>, h: Registry)
    requires EngineInv(g) && g == One(Reserving(), map[])
    ensures Legal(g, steps) && After(g, steps) == h && h == One(Idle(), map[])
    ensures |steps| == 4 && steps[2] == MatchPrefix(E, SECOND, [H])
  {
    var committed := CommitsThen(g);
    var idle := FreesThen(committed, FIRST);
    var rest;
    rest, h := SecondComesAndGoes(idle);
    Continued(committed, FreeBlocks(E, FIRST), rest);
    Continued(g, CommitWork(E, W), [FreeBlocks(E, FIRST)] + rest);
    steps := [CommitWork(E, W)] + ([FreeBlocks(E, FIRST)] + rest);
  }

  lemma TheRun() returns (g: Registry, steps: seq<Step>, n: Node)
    ensures IsInitial(g) && EngineInv(g) && Legal(g, steps) && E in After(g, steps).nodes && After(g, steps).nodes[E] == n
    ensures n == Node(Idle(), map[], map[], map[]) && Inv(n)
    ensures |steps| == 5 && steps[3] == MatchPrefix(E, SECOND, [H])
  {
    g := Started();
    var reserving := AllocatesThen(g);
    var rest, h := FirstEnds(reserving);
    Continued(g, AllocateBlocks(E, PrefillOf(FIRST, [])), rest);
    steps, n := [AllocateBlocks(E, PrefillOf(FIRST, []))] + rest, h.nodes[E];
    SoundIsInv(n);
  }

  /**
   * A reachable state in which AllocationConservesIff fails: the second request matched the block of the first
   * and was freed, and its work item is allocated afterwards with the blocks of its match.
   */
  lemma AllocatedAfterFree() returns (g: Registry, steps: seq<Step>, w: Work)
    ensures IsInitial(g) && EngineInv(g) && Legal(g, steps) && E in After(g, steps).nodes
    ensures exists i :: 0 <= i < |steps| && steps[i] == MatchPrefix(E, w.requestId, w.hashesTotal)
    ensures var n := After(g, steps).nodes[E];
      && w.requestId !in n.s.tables && w.cacheBlocks == Run(n.s.index, w.hashesTotal) != []
      && Inv(n) && InRange(w.cacheBlocks, |n.s.blocks|) && CanAllocate(n.s, w)
      && !Conserved(NAllocate(n, w))
  {
    var n;
    g, steps, n := TheRun();
    w := PrefillOf(SECOND, [0]);
    assert steps[3] == MatchPrefix(E, w.requestId, w.hashesTotal);
    Matches();
    assert CeilDiv(1, 1) == 1;
    AllocationConservesIff(n, w);
  }

  /** The same run, and a work item that asks for more blocks than there are: the refused allocation is not counted either. */
  lemma RefusedAfterFree() returns (g: Registry, steps: seq<Step>, w: Work)
    ensures IsInitial(g) && EngineInv(g) && Legal(g, steps) && E in After(g, steps).nodes
    ensures var n := After(g, steps).nodes[E];
      && w.requestId !in n.s.tables && w.cacheBlocks == Run(n.s.index, w.hashesTotal) != []
      && Inv(n) && InRange(w.cacheBlocks, |n.s.blocks|) && !CanAllocate(n.s, w)
      && !Conserved(NAllocate(n, w))
  {
    var n;
    g, steps, n := TheRun();
    w := PrefillOf(SECOND, [0]).(tokens := [7, 7, 7], numNewTokens := 3);
    Matches();
    assert CeilDiv(3, 1) == 3;
    AllocationConservesIff(n, w);
  }
}

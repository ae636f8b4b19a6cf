/**
 One executor: the engine's metadata for it next to its physical pages, and what ties the two together.
 */
module Hosts {
  import opened Hashing
  import opened Spans
  import opened BlockSpec
  import opened BlockInv
  import opened RequestInv
  import opened Pages

  datatype Prompt = Prompt(salt: Str, tokens: seq<Token>)

  /** A request the engine knows: its prompt, and its tokens so far (the prompt and what was generated). */
  datatype Live = Live(prompt: Prompt, tokens: seq<Token>)

  /** An ExecuteItem, as far as the executor's pages depend on it. */
  datatype Item = Item(
    workId: WorkId,
    requestId: RequestId,
    tokens: seq<Token>,
    computed: nat,
    table: seq<nat>,
    added: seq<nat>)

  /** Allocated: not submitted yet. InFlight: submitted. Ran: the executor has answered. */
  datatype Stage = Allocated | InFlight | Ran(ok: bool)

  datatype Flight = Flight(item: Item, stage: Stage)

  /** `up`: the executor runs under the epoch the engine knows and its failure latch is not set. */
  datatype Host = Host(phys: Phys, up: bool, live: map<RequestId, Live>, flights: map<WorkId, Flight>)

  // ---------------------------------------------------------------- what a hash means

  /** Block i of prompt p, under its name, and the page that holds its K/V. */
  ghost predicate IsBlock(sha: Str -> Str, bs: nat, p: Prompt, i: nat, x: Hash, page: seq<Slot<KV>>) {
    && Span(i + 1, bs) <= |p.tokens|
    && x == ChainHash(sha, bs, p.salt, p.tokens, i)
    && page == FullBlock(PrefixKV(p.tokens)[Span(i, bs)..Span(i + 1, bs)])
  }

  /** The page holds what the hash stands for in some prompt the system has seen. */
  ghost predicate Named(sha: Str -> Str, prompts: set<Prompt>, bs: nat, x: Hash, page: seq<Slot<KV>>) {
    exists p, i :: p in prompts && IsBlock(sha, bs, p, i, x, page)
  }

  /** Salts are well formed and no two prompts collide, for chains of this block size. */
  ghost predicate CollisionFree(sha: Str -> Str, prompts: set<Prompt>, bs: nat) {
    && IsSha256(sha)
    && (forall p :: p in prompts ==> IsSalt(p.salt))
    && (forall p, q, i: nat, j: nat {:trigger NoCollision(sha, bs, p.salt, p.tokens, i, q.salt, q.tokens, j)} ::
          p in prompts && q in prompts ==> NoCollision(sha, bs, p.salt, p.tokens, i, q.salt, q.tokens, j))
  }

  /** The name of block i of p is held by a page with exactly p's K/V, whichever prompt it was published for. */
  lemma NamedIsOwn(sha: Str -> Str, prompts: set<Prompt>, bs: nat, p: Prompt, i: nat, page: seq<Slot<KV>>)
    requires CollisionFree(sha, prompts, bs) && p in prompts && Span(i + 1, bs) <= |p.tokens|
    requires Named(sha, prompts, bs, ChainHash(sha, bs, p.salt, p.tokens, i), page)
    ensures IsBlock(sha, bs, p, i, ChainHash(sha, bs, p.salt, p.tokens, i), page)
  {
    var q, j :| q in prompts && IsBlock(sha, bs, q, j, ChainHash(sha, bs, p.salt, p.tokens, i), page);
    assert NoCollision(sha, bs, p.salt, p.tokens, i, q.salt, q.tokens, j);
    ChainIdentifiesPrefix(sha, bs, p.salt, p.tokens, i, q.salt, q.tokens, j);
    SameBlockKV(p.tokens, q.tokens, bs, i);
  }

  lemma SameBlockKV(a: seq<Token>, b: seq<Token>, bs: nat, i: nat)
    requires Span(i + 1, bs) <= |a| && Span(i + 1, bs) <= |b| && a[..Span(i + 1, bs)] == b[..Span(i + 1, bs)]
    ensures PrefixKV(a)[Span(i, bs)..Span(i + 1, bs)] == PrefixKV(b)[Span(i, bs)..Span(i + 1, bs)]
  {
    var n := Span(i + 1, bs);
    PrefixKVTake(a, n);
    PrefixKVTake(b, n);
    assert PrefixKV(a)[Span(i, bs)..n] == PrefixKV(a)[..n][Span(i, bs)..n];
    assert PrefixKV(b)[Span(i, bs)..n] == PrefixKV(b)[..n][Span(i, bs)..n];
  }

  lemma NamedMore(sha: Str -> Str, prompts: set<Prompt>, more: set<Prompt>, bs: nat, x: Hash, page: seq<Slot<KV>>)
    requires Named(sha, prompts, bs, x, page) && prompts <= more
    ensures Named(sha, more, bs, x, page)
  {
    var p, i :| p in prompts && IsBlock(sha, bs, p, i, x, page);
    assert p in more && IsBlock(sha, bs, p, i, x, page);
  }

  // ---------------------------------------------------------------- the invariant of one executor

  ghost predicate LiveOk(prompts: set<Prompt>, n: Node, h: Host) {
    && (forall r :: r in h.live ==> h.live[r].prompt in prompts && h.live[r].prompt.tokens <= h.live[r].tokens)
    && (forall r :: r in n.s.tables ==> r in h.live && Progress(n, r) <= |h.live[r].tokens|)
  }

  /** The item of a pending allocation: the request's next tokens, from its progress on, through its own table. */
  ghost predicate FlightOk(sha: Str -> Str, n: Node, h: Host, a: Allocation, it: Item)
    requires n.s.blockSize > 0
  {
    && a.requestId in h.live
    && it.requestId == a.requestId && it.table == a.table && it.added == a.added
    && it.computed == Progress(n, a.requestId)
    && it.computed + |it.tokens| == a.tokensAfterCommit <= |h.live[a.requestId].tokens|
    && it.tokens == h.live[a.requestId].tokens[it.computed..a.tokensAfterCommit]
    && (a.phase == Prefill ==>
          var p := h.live[a.requestId].prompt;
          a.tokensAfterCommit <= |p.tokens| && a.hashes == BlockHashes(sha, n.s.blockSize, p.salt, p.tokens))
  }

  ghost predicate FlightsOk(sha: Str -> Str, n: Node, h: Host)
    requires n.s.blockSize > 0
  {
    && (forall w :: w in n.s.pending ==> w in h.flights && FlightOk(sha, n, h, n.s.pending[w], h.flights[w].item))
    && (forall w :: w in h.flights && h.flights[w].stage == InFlight ==> w in n.s.pending)
  }

  /** Every published hash names a block that is fully written with exactly that prefix's K/V. */
  ghost predicate PublishedOk(sha: Str -> Str, prompts: set<Prompt>, s: State, phys: Phys) {
    forall x :: x in s.index ==> s.index[x] < |phys| && Named(sha, prompts, s.blockSize, x, phys[s.index[x]])
  }

  /** Every request's committed positions are held, in order, by its table. */
  ghost predicate DenseOk(n: Node, h: Host) {
    forall r :: r in n.s.tables && r in h.live ==>
      Dense(h.phys, n.s.tables[r], n.s.blockSize, PrefixKV(h.live[r].tokens), Progress(n, r))
  }

  /** A work that ran successfully has left the K/V of all its positions. */
  ghost predicate RanOk(n: Node, h: Host) {
    forall w :: w in n.s.pending && w in h.flights && h.flights[w].stage == Ran(true) && n.s.pending[w].requestId in h.live ==>
      Dense(h.phys, n.s.pending[w].table, n.s.blockSize, PrefixKV(h.live[n.s.pending[w].requestId].tokens), n.s.pending[w].tokensAfterCommit)
  }

  ghost predicate Physical(sha: Str -> Str, prompts: set<Prompt>, n: Node, h: Host) {
    && |h.phys| == |n.s.blocks| && Shaped(h.phys, n.s.blockSize)
    && PublishedOk(sha, prompts, n.s, h.phys)
    && DenseOk(n, h)
    && RanOk(n, h)
  }

  ghost predicate HostOk(sha: Str -> Str, prompts: set<Prompt>, n: Node, h: Host) {
    && n.s.blockSize > 0
    && LiveOk(prompts, n, h)
    && FlightsOk(sha, n, h)
    && (h.up ==> Physical(sha, prompts, n, h))
  }

  lemma MorePrompts(sha: Str -> Str, prompts: set<Prompt>, more: set<Prompt>, n: Node, h: Host)
    requires HostOk(sha, prompts, n, h) && prompts <= more
    ensures HostOk(sha, more, n, h)
  {
    if h.up {
      forall x | x in n.s.index
        ensures Named(sha, more, n.s.blockSize, x, h.phys[n.s.index[x]])
      {
        NamedMore(sha, prompts, more, n.s.blockSize, x, h.phys[n.s.index[x]]);
      }
    }
  }

  // ---------------------------------------------------------------- which slots a work may touch

  /** Slot (b, o) lies at or after the progress of the work's request, in its table. */
  ghost predicate MayTouch(n: Node, w: WorkId, b: nat, o: nat) {
    w in n.s.pending && exists i :: TouchesAt(n, n.s.pending[w], i, b, o)
  }

  ghost predicate TouchesAt(n: Node, a: Allocation, i: nat, b: nat, o: nat) {
    i < |a.table| && a.table[i] == b && o < n.s.blockSize && Span(i, n.s.blockSize) + o >= Progress(n, a.requestId)
  }

  /** Slots that differ are slots that the works `ws` may touch. */
  ghost predicate OnlyTouches(n: Node, ws: set<WorkId>, phys: Phys, next: Phys) {
    && |next| == |phys| && Shaped(next, n.s.blockSize)
    && (forall b, o :: 0 <= b < |phys| && 0 <= o < |phys[b]| && o < |next[b]| && next[b][o] != phys[b][o] ==>
          TouchedBy(n, ws, b, o))
  }

  ghost predicate TouchedBy(n: Node, ws: set<WorkId>, b: nat, o: nat) {
    exists w :: w in ws && MayTouch(n, w, b, o)
  }

  /** A slot that a work may touch lies in a block that is not in the prefix cache and that only its request holds. */
  lemma TouchIsPrivate(n: Node, a: Allocation, w: WorkId, i: nat, b: nat, o: nat)
    requires Inv(n) && w in n.s.pending && n.s.pending[w] == a && TouchesAt(n, a, i, b, o)
    ensures b < |n.s.blocks| && !n.s.blocks[b].cached && n.s.blocks[b].refs == 1
    ensures a.requestId in n.s.tables && n.s.tables[a.requestId] == a.table
  {
    assert AllocationOk(n, a);
    assert Beyond(n, a.requestId, i);
  }

  /** It is not a slot of another table entry, of this request or any other. */
  lemma TouchIsUnique(n: Node, a: Allocation, w: WorkId, i: nat, b: nat, o: nat, r: RequestId, j: nat)
    requires Inv(n) && w in n.s.pending && n.s.pending[w] == a && TouchesAt(n, a, i, b, o)
    requires r in n.s.tables && j < |n.s.tables[r]| && n.s.tables[r][j] == b
    ensures r == a.requestId && j == i
  {
    TouchIsPrivate(n, a, w, i, b, o);
    if r != a.requestId || j != i {
      TablesShare(n, a.requestId, i, r, j);
    }
  }

  /** Two works never touch the same block. */
  lemma TouchesAreApart(n: Node, v: WorkId, w: WorkId, b: nat, o: nat, q: nat)
    requires Inv(n) && MayTouch(n, v, b, o) && MayTouch(n, w, b, q)
    ensures v == w
  {
    var i :| TouchesAt(n, n.s.pending[v], i, b, o);
    var j :| TouchesAt(n, n.s.pending[w], j, b, q);
    TouchIsPrivate(n, n.s.pending[w], w, j, b, q);
    TouchIsUnique(n, n.s.pending[v], v, i, b, o, n.s.pending[w].requestId, j);
  }

  lemma TouchedBlock(n: Node, ws: set<WorkId>, b: nat, o: nat)
    requires Inv(n)
    ensures TouchedBy(n, ws, b, o) ==> b < |n.s.blocks| && !n.s.blocks[b].cached && n.s.blocks[b].refs == 1
  {
    if TouchedBy(n, ws, b, o) {
      var w :| w in ws && MayTouch(n, w, b, o);
      var i :| TouchesAt(n, n.s.pending[w], i, b, o);
      TouchIsPrivate(n, n.s.pending[w], w, i, b, o);
    }
  }

  ghost predicate OwnWork(n: Node, ws: set<WorkId>, r: RequestId) {
    exists w :: w in ws && w in n.s.pending && n.s.pending[w].requestId == r
  }

  lemma TouchedEntry(n: Node, ws: set<WorkId>, r: RequestId, i: nat, o: nat)
    requires Inv(n) && r in n.s.tables && i < |n.s.tables[r]|
    ensures TouchedBy(n, ws, n.s.tables[r][i], o) ==> OwnWork(n, ws, r) && Span(i, n.s.blockSize) + o >= Progress(n, r)
  {
    var b := n.s.tables[r][i];
    if TouchedBy(n, ws, b, o) {
      var w :| w in ws && MayTouch(n, w, b, o);
      var j :| TouchesAt(n, n.s.pending[w], j, b, o);
      TouchIsUnique(n, n.s.pending[w], w, j, b, o, r, i);
    }
  }

  lemma TouchKeepsPublished(sha: Str -> Str, prompts: set<Prompt>, n: Node, ws: set<WorkId>, phys: Phys, next: Phys)
    requires Inv(n) && |phys| == |n.s.blocks| && Shaped(phys, n.s.blockSize) && OnlyTouches(n, ws, phys, next)
    requires PublishedOk(sha, prompts, n.s, phys)
    ensures PublishedOk(sha, prompts, n.s, next)
  {
    forall x | x in n.s.index
      ensures next[n.s.index[x]] == phys[n.s.index[x]]
    {
      var b := n.s.index[x];
      forall o | 0 <= o < n.s.blockSize
        ensures next[b][o] == phys[b][o]
      {
        TouchedBlock(n, ws, b, o);
      }
    }
  }

  /** Positions of a request stay where they are unless one of the works is its own and starts before them. */
  lemma TouchKeepsDense(n: Node, ws: set<WorkId>, phys: Phys, next: Phys, r: RequestId, kvs: seq<KV>, c: nat)
    requires Inv(n) && |phys| == |n.s.blocks| && Shaped(phys, n.s.blockSize) && OnlyTouches(n, ws, phys, next)
    requires r in n.s.tables && Dense(phys, n.s.tables[r], n.s.blockSize, kvs, c)
    requires c <= Progress(n, r) || !OwnWork(n, ws, r)
    ensures Dense(next, n.s.tables[r], n.s.blockSize, kvs, c)
  {
    var table, bs := n.s.tables[r], n.s.blockSize;
    forall i, o | 0 <= i < |table| && 0 <= o < bs && Span(i, bs) + o < c
      ensures HeldAt(next, table, bs, kvs, i, o)
    {
      assert HeldAt(phys, table, bs, kvs, i, o);
      TouchedEntry(n, ws, r, i, o);
    }
  }
}

/** Execution and imports change an executor's pages and keep them in agreement with the engine's metadata. */
module HostPages {
  import opened Hashing
  import opened Spans
  import opened Wrappers
  import opened Sequences
  import opened BlockSpec
  import opened BlockInv
  import opened Pages
  import opened Hosts
  import opened HostRequests

  // ---------------------------------------------------------------- one batch

  /** The item's table names existing blocks and has room for all its positions. */
  ghost predicate TableOk(phys: Phys, bs: nat, it: Item) {
    && (forall i :: 0 <= i < |it.table| ==> it.table[i] < |phys|)
    && it.computed + |it.tokens| <= Span(|it.table|, bs)
  }

  /** _execute_one: gather the past, run the model, write the new K/V through the slot mapping. */
  ghost function Executed(phys: Phys, bs: nat, it: Item): (r: Option<Phys>)
    requires bs > 0 && Shaped(phys, bs)
    ensures r.Some? ==> |r.value| == |phys| && Shaped(r.value, bs)
  {
    var past := Gathered(phys, it.table, bs, it.computed);
    if past.Some? && TableOk(phys, bs, it) then
      Some(Written(phys, it.table, bs, Forward(past.value, it.tokens), it.computed, it.computed + |it.tokens|))
    else None
  }

  ghost function AllExecuted(phys: Phys, bs: nat, items: seq<Item>): (r: Option<Phys>)
    requires bs > 0 && Shaped(phys, bs)
    ensures r.Some? ==> |r.value| == |phys| && Shaped(r.value, bs)
    decreases |items|
  {
    if items == [] then Some(phys)
    else
      var next := Executed(phys, bs, items[0]);
      if next.Some? then AllExecuted(next.value, bs, items[1..]) else None
  }

  function AllAdded(items: seq<Item>): seq<nat> {
    if items == [] then [] else items[0].added + AllAdded(items[1..])
  }

  /** execute: the newly allocated blocks of the whole batch are invalidated, then the items run in order. */
  ghost function BatchExecuted(phys: Phys, bs: nat, items: seq<Item>): (r: Option<Phys>)
    requires bs > 0 && Shaped(phys, bs)
    ensures r.Some? ==> |r.value| == |phys| && Shaped(r.value, bs)
  {
    AllExecuted(Invalidated(phys, AllAdded(items)), bs, items)
  }

  // ---------------------------------------------------------------- the batch of an executor

  /** Distinct works that are at the executor. */
  ghost predicate AtExecutor(n: Node, h: Host, ws: seq<WorkId>) {
    && (forall i :: 0 <= i < |ws| ==> ws[i] in h.flights && ws[i] in n.s.pending && h.flights[ws[i]].stage == InFlight)
    && Distinct(ws)
  }

  function Items(h: Host, ws: seq<WorkId>): (items: seq<Item>)
    requires forall i :: 0 <= i < |ws| ==> ws[i] in h.flights
    ensures |items| == |ws| && forall i :: 0 <= i < |ws| ==> items[i] == h.flights[ws[i]].item
  {
    seq(|ws|, i requires 0 <= i < |ws| => h.flights[ws[i]].item)
  }

  function SetOf(ws: seq<WorkId>): set<WorkId> {
    set w | w in ws
  }

  /** The executor has answered for the works ws. */
  function Answered(h: Host, phys: Phys, ws: seq<WorkId>, ok: bool): Host {
    h.(phys := phys, flights := map w | w in h.flights :: if w in ws then Flight(h.flights[w].item, Ran(ok)) else h.flights[w])
  }

  // ---------------------------------------------------------------- what execution touches

  lemma {:induction false} AddedMember(items: seq<Item>, b: nat) returns (i: nat)
    requires b in AllAdded(items)
    ensures i < |items| && b in items[i].added
    decreases |items|
  {
    if b in items[0].added {
      i := 0;
    } else {
      i := AddedMember(items[1..], b);
      i := i + 1;
    }
  }

  lemma AddedAt(bs: nat, table: seq<nat>, added: seq<nat>, c: nat, b: nat) returns (i: nat)
    requires |added| <= |table| && added == table[|table| - |added|..] && c <= Span(|table| - |added|, bs) && b in added
    ensures i < |table| && table[i] == b && Span(i, bs) >= c
  {
    var j :| 0 <= j < |added| && added[j] == b;
    i := |table| - |added| + j;
    SpanMonotone(|table| - |added|, i, bs);
  }

  /** A newly allocated block lies beyond its request's progress. */
  lemma AddedIsTouched(n: Node, w: WorkId, b: nat, o: nat)
    requires w in n.s.pending && AllocationOk(n, n.s.pending[w]) && b in n.s.pending[w].added && o < n.s.blockSize
    ensures MayTouch(n, w, b, o)
  {
    var a := n.s.pending[w];
    var i := AddedAt(n.s.blockSize, a.table, a.added, Progress(n, a.requestId), b);
    assert TouchesAt(n, a, i, b, o);
  }

  lemma ReleaseTouches(sha: Str -> Str, n: Node, h: Host, ws: seq<WorkId>, phys: Phys)
    requires Inv(n) && FlightsOk(sha, n, h) && AtExecutor(n, h, ws) && Shaped(phys, n.s.blockSize)
    ensures OnlyTouches(n, SetOf(ws), phys, Invalidated(phys, AllAdded(Items(h, ws))))
  {
    var next := Invalidated(phys, AllAdded(Items(h, ws)));
    forall b, o | 0 <= b < |phys| && 0 <= o < |phys[b]| && next[b][o] != phys[b][o]
      ensures TouchedBy(n, SetOf(ws), b, o)
    {
      var i := AddedMember(Items(h, ws), b);
      assert FlightOk(sha, n, h, n.s.pending[ws[i]], h.flights[ws[i]].item);
      assert AllocationOk(n, n.s.pending[ws[i]]);
      AddedIsTouched(n, ws[i], b, o);
      assert ws[i] in SetOf(ws);
    }
  }

  /** The table entries an item writes to occur once. */
  lemma WritesApart(n: Node, w: WorkId, a: Allocation)
    requires Inv(n) && w in n.s.pending && n.s.pending[w] == a
    ensures Apart(a.table, n.s.blockSize, Progress(n, a.requestId))
    ensures forall i :: 0 <= i < |a.table| ==> a.table[i] < |n.s.blocks|
  {
    assert AllocationOk(n, a);
    forall i, j | 0 <= i < |a.table| && 0 <= j < |a.table| && i != j && Touched(n.s.blockSize, Progress(n, a.requestId), i)
      ensures a.table[i] != a.table[j]
    {
      assert Beyond(n, a.requestId, i);
      if a.table[i] == a.table[j] {
        TablesShare(n, a.requestId, i, a.requestId, j);
      }
    }
  }

  lemma WriteTouches(n: Node, w: WorkId, a: Allocation, phys: Phys, kvs: seq<KV>, end: nat)
    requires Inv(n) && w in n.s.pending && n.s.pending[w] == a && Shaped(phys, n.s.blockSize)
    requires Progress(n, a.requestId) <= end <= |kvs| && end <= Span(|a.table|, n.s.blockSize)
    requires forall i :: 0 <= i < |a.table| ==> a.table[i] < |phys|
    ensures OnlyTouches(n, {w}, phys, Written(phys, a.table, n.s.blockSize, kvs, Progress(n, a.requestId), end))
  {
    var bs, c := n.s.blockSize, Progress(n, a.requestId);
    var next := Written(phys, a.table, bs, kvs, c, end);
    forall b, o | 0 <= b < |phys| && 0 <= o < |phys[b]| && next[b][o] != phys[b][o]
      ensures TouchedBy(n, {w}, b, o)
    {
      if forall i :: 0 <= i < |a.table| && a.table[i] == b && Touched(bs, c, i) ==> Span(i, bs) + o < c || Span(i, bs) + o >= end {
        WrittenElsewhere(phys, a.table, bs, kvs, c, end, b, o);
      } else {
        var i :| 0 <= i < |a.table| && a.table[i] == b && Touched(bs, c, i) && c <= Span(i, bs) + o < end;
        assert TouchesAt(n, a, i, b, o);
        assert MayTouch(n, w, b, o);
      }
    }
  }

  lemma TouchesMore(n: Node, ws: set<WorkId>, more: set<WorkId>, a: Phys, b: Phys, c: Phys)
    requires OnlyTouches(n, ws, a, b) && OnlyTouches(n, more, b, c) && more <= ws && Shaped(a, n.s.blockSize)
    ensures OnlyTouches(n, ws, a, c)
  {
    forall x, o | 0 <= x < |a| && 0 <= o < |a[x]| && c[x][o] != a[x][o]
      ensures TouchedBy(n, ws, x, o)
    {
      if b[x][o] == a[x][o] {
        assert TouchedBy(n, more, x, o);
        var w :| w in more && MayTouch(n, w, x, o);
        assert w in ws && MayTouch(n, w, x, o);
      }
    }
  }

  // ---------------------------------------------------------------- execution succeeds

  /** The positions of the works in `done` are in the pages. */
  ghost predicate Done(n: Node, h: Host, phys: Phys, done: set<WorkId>) {
    forall w :: w in done && w in n.s.pending && n.s.pending[w].requestId in h.live ==>
      Dense(phys, n.s.pending[w].table, n.s.blockSize, PrefixKV(h.live[n.s.pending[w].requestId].tokens), n.s.pending[w].tokensAfterCommit)
  }

  /** Continuing a dense prefix with its own next tokens gives the K/V of the longer prefix. */
  lemma ForwardOfDense(tokens: seq<Token>, c: nat, end: nat)
    requires c <= end <= |tokens|
    ensures Forward(PrefixKV(tokens)[..c], tokens[c..end]) == PrefixKV(tokens[..end])
    ensures PrefixKV(tokens[..end]) == PrefixKV(tokens)[..end]
  {
    PrefixKVTake(tokens, c);
    PrefixKVTake(tokens, end);
    ForwardContinues(tokens[..c], tokens[c..end]);
    assert tokens[..c] + tokens[c..end] == tokens[..end];
  }

  lemma ExecutedFrom(phys: Phys, bs: nat, it: Item, past: seq<KV>, all: seq<KV>, end: nat) returns (next: Phys)
    requires bs > 0 && Shaped(phys, bs) && TableOk(phys, bs, it) && end == it.computed + |it.tokens| == |all|
    requires Gathered(phys, it.table, bs, it.computed) == Some(past) && Forward(past, it.tokens) == all
    ensures Executed(phys, bs, it) == Some(next) && next == Written(phys, it.table, bs, all, it.computed, end)
  {
    next := Written(phys, it.table, bs, all, it.computed, end);
  }

  /** Over a dense past an item executes: it writes the K/V of the prefix up to its end. */
  lemma ItemWrites(phys: Phys, bs: nat, it: Item, tokens: seq<Token>, end: nat) returns (next: Phys)
    requires bs > 0 && Shaped(phys, bs) && TableOk(phys, bs, it)
    requires end == it.computed + |it.tokens| <= |tokens| && it.tokens == tokens[it.computed..end]
    requires Dense(phys, it.table, bs, PrefixKV(tokens), it.computed)
    ensures Executed(phys, bs, it) == Some(next)
    ensures |PrefixKV(tokens[..end])| == end && next == Written(phys, it.table, bs, PrefixKV(tokens[..end]), it.computed, end)
  {
    var c := it.computed;
    GatheredIsDense(phys, it.table, bs, PrefixKV(tokens), c);
    ForwardOfDense(tokens, c, end);
    next := ExecutedFrom(phys, bs, it, PrefixKV(tokens)[..c], PrefixKV(tokens[..end]), end);
  }

  /** And its request's positions are dense up to its end. */
  lemma ItemDense(phys: Phys, table: seq<nat>, bs: nat, tokens: seq<Token>, c: nat, end: nat)
    requires bs > 0 && Shaped(phys, bs) && Apart(table, bs, c) && c <= end <= |tokens| && end <= Span(|table|, bs)
    requires forall i :: 0 <= i < |table| ==> table[i] < |phys|
    requires Dense(phys, table, bs, PrefixKV(tokens), c)
    ensures |PrefixKV(tokens[..end])| == end
    ensures Dense(Written(phys, table, bs, PrefixKV(tokens[..end]), c, end), table, bs, PrefixKV(tokens), end)
  {
    var kvs := PrefixKV(tokens[..end]);
    ForwardOfDense(tokens, c, end);
    assert kvs[..c] == PrefixKV(tokens)[..c];
    DenseTable(phys, table, table, |table|, bs, PrefixKV(tokens), kvs, c);
    WrittenIsDense(phys, table, bs, kvs, c, end);
    DenseTable(Written(phys, table, bs, kvs, c, end), table, table, |table|, bs, kvs, PrefixKV(tokens), end);
  }

  /** No item reads a slot that has not been written, and each leaves its request's positions dense up to its end. */
  lemma ItemRuns(n: Node, w: WorkId, a: Allocation, it: Item, tokens: seq<Token>, phys: Phys) returns (next: Phys)
    requires Inv(n) && w in n.s.pending && n.s.pending[w] == a && |phys| == |n.s.blocks| && Shaped(phys, n.s.blockSize)
    requires it.table == a.table && it.computed == Progress(n, a.requestId)
    requires it.computed + |it.tokens| == a.tokensAfterCommit <= |tokens| && it.tokens == tokens[it.computed..a.tokensAfterCommit]
    requires Dense(phys, a.table, n.s.blockSize, PrefixKV(tokens), it.computed)
    ensures Executed(phys, n.s.blockSize, it) == Some(next) && OnlyTouches(n, {w}, phys, next)
    ensures Dense(next, a.table, n.s.blockSize, PrefixKV(tokens), a.tokensAfterCommit)
  {
    var bs, c, end := n.s.blockSize, it.computed, a.tokensAfterCommit;
    assert AllocationOk(n, a);
    WritesApart(n, w, a);
    next := ItemWrites(phys, bs, it, tokens, end);
    ItemDense(phys, a.table, bs, tokens, c, end);
    WriteTouches(n, w, a, phys, PrefixKV(tokens[..end]), end);
  }

  lemma WorkOf(n: Node, w: WorkId) returns (a: Allocation)
    requires Inv(n) && w in n.s.pending
    ensures a == n.s.pending[w] && a.requestId in n.s.tables && n.s.tables[a.requestId] == a.table
    ensures Progress(n, a.requestId) <= a.tokensAfterCommit
    ensures forall v :: v in n.s.pending && v != w ==> n.s.pending[v].requestId != a.requestId
  {
    a := n.s.pending[w];
    assert AllocationOk(n, a);
  }

  lemma DoneStays(n: Node, h: Host, phys: Phys, next: Phys, done: set<WorkId>, w: WorkId)
    requires Inv(n) && |phys| == |n.s.blocks| && Shaped(phys, n.s.blockSize) && OnlyTouches(n, {w}, phys, next)
    requires Done(n, h, phys, done) && w !in done && w in n.s.pending
    ensures Done(n, h, next, done)
  {
    var _ := WorkOf(n, w);
    forall v | v in done && v in n.s.pending && n.s.pending[v].requestId in h.live
      ensures Dense(next, n.s.pending[v].table, n.s.blockSize, PrefixKV(h.live[n.s.pending[v].requestId].tokens), n.s.pending[v].tokensAfterCommit)
    {
      var a := WorkOf(n, v);
      TouchKeepsDense(n, {w}, phys, next, a.requestId, PrefixKV(h.live[a.requestId].tokens), a.tokensAfterCommit);
    }
  }

  /** What holds between two items of a batch. */
  ghost predicate Midway(n: Node, h: Host, ws: set<WorkId>, phys: Phys, done: set<WorkId>) {
    && |phys| == |n.s.blocks| && Shaped(phys, n.s.blockSize)
    && OnlyTouches(n, ws, h.phys, phys)
    && Done(n, h, phys, done)
  }

  lemma NextItem(sha: Str -> Str, prompts: set<Prompt>, n: Node, h: Host, ws: set<WorkId>, phys: Phys, done: set<WorkId>, w: WorkId) returns (next: Phys)
    requires Inv(n) && HostOk(sha, prompts, n, h) && h.up && Midway(n, h, ws, phys, done)
    requires w in ws && w !in done && w in n.s.pending && w in h.flights
    ensures Executed(phys, n.s.blockSize, h.flights[w].item) == Some(next) && Midway(n, h, ws, next, done + {w})
  {
    var a := WorkOf(n, w);
    assert FlightOk(sha, n, h, a, h.flights[w].item);
    var tokens := h.live[a.requestId].tokens;
    TouchKeepsDense(n, ws, h.phys, phys, a.requestId, PrefixKV(tokens), Progress(n, a.requestId));
    next := ItemRuns(n, w, a, h.flights[w].item, tokens, phys);
    TouchesMore(n, ws, {w}, h.phys, phys, next);
    DoneStays(n, h, phys, next, done, w);
  }

  /** The works still to run, none of which is done. */
  ghost predicate ToRun(n: Node, h: Host, ws: set<WorkId>, done: set<WorkId>, rest: seq<WorkId>) {
    AtExecutor(n, h, rest) && forall i :: 0 <= i < |rest| ==> rest[i] in ws && rest[i] !in done
  }

  lemma FirstToRun(n: Node, h: Host, ws: set<WorkId>, done: set<WorkId>, rest: seq<WorkId>)
    requires ToRun(n, h, ws, done, rest) && rest != []
    ensures rest[0] in ws && rest[0] !in done && rest[0] in n.s.pending && rest[0] in h.flights
    ensures ToRun(n, h, ws, done + {rest[0]}, rest[1..])
    ensures Items(h, rest)[0] == h.flights[rest[0]].item && Items(h, rest)[1..] == Items(h, rest[1..])
    ensures done + SetOf(rest) == done + {rest[0]} + SetOf(rest[1..])
  {
    assert rest == [rest[0]] + rest[1..];
  }

  lemma {:induction false} ItemsRun(sha: Str -> Str, prompts: set<Prompt>, n: Node, h: Host, ws: set<WorkId>, phys: Phys, done: set<WorkId>, rest: seq<WorkId>) returns (next: Phys)
    requires Inv(n) && HostOk(sha, prompts, n, h) && h.up && Midway(n, h, ws, phys, done) && ToRun(n, h, ws, done, rest)
    ensures AllExecuted(phys, n.s.blockSize, Items(h, rest)) == Some(next) && Midway(n, h, ws, next, done + SetOf(rest))
    decreases |rest|
  {
    if rest == [] {
      next := phys;
      assert done + SetOf(rest) == done;
    } else {
      FirstToRun(n, h, ws, done, rest);
      var mid := NextItem(sha, prompts, n, h, ws, phys, done, rest[0]);
      next := ItemsRun(sha, prompts, n, h, ws, mid, done + {rest[0]}, rest[1..]);
    }
  }

  lemma AnsweredFlights(sha: Str -> Str, n: Node, h: Host, phys: Phys, ws: seq<WorkId>, ok: bool)
    requires n.s.blockSize > 0 && FlightsOk(sha, n, h)
    ensures FlightsOk(sha, n, Answered(h, phys, ws, ok))
  {
    var k := Answered(h, phys, ws, ok);
    forall w | w in n.s.pending
      ensures w in k.flights && FlightOk(sha, n, k, n.s.pending[w], k.flights[w].item)
    {
      FlightStays(sha, n, h, n, k, n.s.pending[w], h.flights[w].item);
    }
  }

  /** Pages in which only the works `ws` touched their own slots. */
  lemma AnsweredKeepsHost(sha: Str -> Str, prompts: set<Prompt>, n: Node, h: Host, phys: Phys, ws: seq<WorkId>, ok: bool)
    requires Inv(n) && HostOk(sha, prompts, n, h) && h.up && AtExecutor(n, h, ws)
    requires |phys| == |n.s.blocks| && OnlyTouches(n, SetOf(ws), h.phys, phys)
    requires ok ==> Done(n, h, phys, SetOf(ws))
    ensures HostOk(sha, prompts, n, Answered(h, phys, ws, ok))
  {
    var k := Answered(h, phys, ws, ok);
    AnsweredFlights(sha, n, h, phys, ws, ok);
    TouchKeepsPublished(sha, prompts, n, SetOf(ws), h.phys, phys);
    forall r | r in n.s.tables && r in k.live
      ensures Dense(phys, n.s.tables[r], n.s.blockSize, PrefixKV(k.live[r].tokens), Progress(n, r))
    {
      TouchKeepsDense(n, SetOf(ws), h.phys, phys, r, PrefixKV(h.live[r].tokens), Progress(n, r));
    }
    AnsweredRan(n, h, phys, ws, ok);
  }

  lemma AnsweredRan(n: Node, h: Host, phys: Phys, ws: seq<WorkId>, ok: bool)
    requires Inv(n) && RanOk(n, h) && AtExecutor(n, h, ws)
    requires |h.phys| == |n.s.blocks| && Shaped(h.phys, n.s.blockSize) && OnlyTouches(n, SetOf(ws), h.phys, phys)
    requires ok ==> Done(n, h, phys, SetOf(ws))
    ensures RanOk(n, Answered(h, phys, ws, ok))
  {
    var k := Answered(h, phys, ws, ok);
    forall w | w in n.s.pending && w in k.flights && k.flights[w].stage == Ran(true) && n.s.pending[w].requestId in k.live
      ensures Dense(phys, n.s.pending[w].table, n.s.blockSize, PrefixKV(k.live[n.s.pending[w].requestId].tokens), n.s.pending[w].tokensAfterCommit)
    {
      if w in ws {
        assert w in SetOf(ws);
      } else {
        var a := WorkOf(n, w);
        OthersWork(n, ws, w);
        TouchKeepsDense(n, SetOf(ws), h.phys, phys, a.requestId, PrefixKV(h.live[a.requestId].tokens), a.tokensAfterCommit);
      }
    }
  }

  lemma OthersWork(n: Node, ws: seq<WorkId>, w: WorkId)
    requires Inv(n) && w in n.s.pending && w !in ws
    ensures !OwnWork(n, SetOf(ws), n.s.pending[w].requestId)
  {
    var _ := WorkOf(n, w);
  }

  /**
   * A batch always executes: no item reads an unwritten slot. Afterwards every published block still
   * holds its K/V, and the positions of every work of the batch are in place.
   */
  lemma ExecuteKeepsHost(sha: Str -> Str, prompts: set<Prompt>, n: Node, h: Host, ws: seq<WorkId>) returns (next: Phys)
    requires Inv(n) && HostOk(sha, prompts, n, h) && h.up && AtExecutor(n, h, ws)
    ensures BatchExecuted(h.phys, n.s.blockSize, Items(h, ws)) == Some(next)
    ensures HostOk(sha, prompts, n, Answered(h, next, ws, true)) && OnlyTouches(n, SetOf(ws), h.phys, next)
  {
    ReleaseTouches(sha, n, h, ws, h.phys);
    var blank := Invalidated(h.phys, AllAdded(Items(h, ws)));
    next := ItemsRun(sha, prompts, n, h, SetOf(ws), blank, {}, ws);
    assert {} + SetOf(ws) == SetOf(ws);
    AnsweredKeepsHost(sha, prompts, n, h, next, ws, true);
  }

  /** A batch that fails anywhere has touched only the slots of its own works. */
  lemma FailedExecuteKeepsHost(sha: Str -> Str, prompts: set<Prompt>, n: Node, h: Host, ws: seq<WorkId>, next: Phys)
    requires Inv(n) && HostOk(sha, prompts, n, h) && h.up && AtExecutor(n, h, ws)
    requires |next| == |n.s.blocks| && OnlyTouches(n, SetOf(ws), h.phys, next)
    ensures HostOk(sha, prompts, n, Answered(h, next, ws, false))
  {
    AnsweredKeepsHost(sha, prompts, n, h, next, ws, false);
  }

  // ---------------------------------------------------------------- imports

  /** Pages to which something was added, and from which nothing was taken. */
  lemma GrowthKeepsHost(sha: Str -> Str, prompts: set<Prompt>, n: Node, h: Host, phys: Phys)
    requires HostOk(sha, prompts, n, h) && (h.up ==> Grows(h.phys, phys) && Shaped(phys, n.s.blockSize))
    ensures HostOk(sha, prompts, n, h.(phys := phys))
  {
    var k := h.(phys := phys);
    forall w | w in n.s.pending
      ensures FlightOk(sha, n, k, n.s.pending[w], k.flights[w].item)
    {
      FlightStays(sha, n, h, n, k, n.s.pending[w], h.flights[w].item);
    }
    if h.up {
      forall x | x in n.s.index
        ensures Named(sha, prompts, n.s.blockSize, x, phys[n.s.index[x]])
      {
        NamedPageStays(sha, prompts, n.s.blockSize, x, h.phys, phys, n.s.index[x]);
      }
      forall r | r in n.s.tables && r in k.live
        ensures Dense(phys, n.s.tables[r], n.s.blockSize, PrefixKV(k.live[r].tokens), Progress(n, r))
      {
        DenseGrows(h.phys, phys, n.s.tables[r], n.s.blockSize, PrefixKV(k.live[r].tokens), Progress(n, r));
      }
      GrowthKeepsRan(n, h, phys);
    }
  }

  lemma GrowthKeepsRan(n: Node, h: Host, phys: Phys)
    requires RanOk(n, h) && Grows(h.phys, phys)
    ensures RanOk(n, h.(phys := phys))
  {
    var k := h.(phys := phys);
    forall w | w in n.s.pending && w in k.flights && k.flights[w].stage == Ran(true) && n.s.pending[w].requestId in k.live
      ensures Dense(phys, n.s.pending[w].table, n.s.blockSize, PrefixKV(k.live[n.s.pending[w].requestId].tokens), n.s.pending[w].tokensAfterCommit)
    {
      var a := n.s.pending[w];
      DenseGrows(h.phys, phys, a.table, n.s.blockSize, PrefixKV(k.live[a.requestId].tokens), a.tokensAfterCommit);
    }
  }

  lemma NamedPageStays(sha: Str -> Str, prompts: set<Prompt>, bs: nat, x: Hash, phys: Phys, next: Phys, b: nat)
    requires b < |phys| && Grows(phys, next) && Shaped(phys, bs) && Shaped(next, bs) && Named(sha, prompts, bs, x, phys[b])
    ensures next[b] == phys[b]
  {
    var p, i :| p in prompts && IsBlock(sha, bs, p, i, x, phys[b]);
    forall o | 0 <= o < bs
      ensures next[b][o] == phys[b][o]
    {
      assert phys[b][o].Full?;
    }
  }
}

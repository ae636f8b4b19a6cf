/**
 The runner's cache refines the pages of the system model. Each K/V term is shown as what the layers hold
 for it; whatever the model executes on terms, the runner executes on the layers.
 */
module ShownPages {
  import opened Hashing
  import opened Spans
  import opened Wrappers
  import opened Sequences
  import opened BlockSpec
  import opened BlockInv
  import opened Pages
  import opened CacheSpec
  import opened PagedCache
  import opened LayerView
  import opened Batch
  import opened Runner
  import opened WorkItems
  import opened Hosts
  import opened HostRequests
  import opened HostPages

  /** What every layer holds for a K/V term. */
  type Rendering<!V> = KV -> seq<(V, V)>

  function Rendered<V>(kvs: seq<KV>, show: Rendering<V>): (r: seq<seq<(V, V)>>)
    ensures |r| == |kvs| && forall k :: 0 <= k < |r| ==> r[k] == show(kvs[k])
  {
    seq(|kvs|, k requires 0 <= k < |kvs| => show(kvs[k]))
  }

  /** All layers show the term; all are empty; or the slot is neither, and the model does not rely on it. */
  ghost predicate ShowsSlot<V>(column: Slot<seq<(V, V)>>, slot: Slot<KV>, show: Rendering<V>) {
    match slot
    case Full(kv) => column == Full(show(kv))
    case Empty => column.Empty?
    case Partial => !column.Empty?
  }

  ghost predicate ShowsPages<V>(columns: Paged<seq<(V, V)>>, phys: Phys, bs: nat, show: Rendering<V>) {
    && |columns| == |phys| && Shaped(columns, bs) && Shaped(phys, bs)
    && (forall b, o :: 0 <= b < |phys| && 0 <= o < bs ==> ShowsSlot(columns[b][o], phys[b][o], show))
  }

  /** The cache reads `view`, and that is what the pages `phys` stand for. */
  ghost predicate Shows<V>(view: seq<Paged<(V, V)>>, n: nat, bs: nat, phys: Phys, show: Rendering<V>) {
    SameShape(view, n, bs) && ShowsPages(Columns(view, n, bs), phys, bs, show)
  }

  // ---------------------------------------------------------------- columns

  lemma {:induction false} GatheredShown<V>(columns: Paged<seq<(V, V)>>, phys: Phys, bs: nat, show: Rendering<V>, table: seq<nat>, c: nat)
      returns (past: seq<KV>)
    requires bs > 0 && ShowsPages(columns, phys, bs, show) && Gathered(phys, table, bs, c).Some?
    ensures Gathered(phys, table, bs, c) == Some(past) && Gathered(columns, table, bs, c) == Some(Rendered(past, show))
    decreases c
  {
    if c == 0 {
      past := [];
    } else {
      var b, o, _ := GatheredFrom(phys, table, bs, c - 1);
      var before := GatheredShown(columns, phys, bs, show, table, c - 1);
      assert ShowsSlot(columns[b][o], phys[b][o], show);
      GatheredNext(columns, table, bs, c - 1, Rendered(before, show), b, o);
      past := before + [phys[b][o].kv];
      assert Rendered(past, show) == Rendered(before, show) + [show(phys[b][o].kv)];
    }
  }

  lemma SetShown<V>(columns: Paged<seq<(V, V)>>, phys: Phys, bs: nat, show: Rendering<V>, b: nat, o: nat, kv: KV)
    requires ShowsPages(columns, phys, bs, show) && b < |phys| && o < bs
    ensures ShowsPages(SetSlot(columns, b, o, Full(show(kv))), SetSlot(phys, b, o, Full(kv)), bs, show)
  {
    var a, c := SetSlot(columns, b, o, Full(show(kv))), SetSlot(phys, b, o, Full(kv));
    forall x, y | 0 <= x < |phys| && 0 <= y < bs
      ensures ShowsSlot(a[x][y], c[x][y], show)
    {
      assert ShowsSlot(columns[x][y], phys[x][y], show);
    }
  }

  lemma {:induction false} WrittenShown<V>(columns: Paged<seq<(V, V)>>, phys: Phys, bs: nat, show: Rendering<V>, places: seq<Place>, kvs: seq<KV>)
    requires ShowsPages(columns, phys, bs, show) && |places| == |kvs| && Inside(places, |phys|, bs)
    ensures ShowsPages(WrittenPlaces(columns, bs, places, Rendered(kvs, show)), WrittenPlaces(phys, bs, places, kvs), bs, show)
    decreases |places|
  {
    if places != [] {
      var k := |places| - 1;
      WritesLast(columns, bs, places, Rendered(kvs, show), k);
      WritesLast(phys, bs, places, kvs, k);
      assert Rendered(kvs, show)[..k] == Rendered(kvs[..k], show);
      WrittenShown(columns, phys, bs, show, places[..k], kvs[..k]);
      SetShown(WrittenPlaces(columns, bs, places[..k], Rendered(kvs[..k], show)), WrittenPlaces(phys, bs, places[..k], kvs[..k]),
               bs, show, places[k].block, places[k].offset, kvs[k]);
    }
  }

  lemma ReleasedShown<V>(columns: Paged<seq<(V, V)>>, phys: Phys, bs: nat, show: Rendering<V>, ids: seq<nat>)
    requires ShowsPages(columns, phys, bs, show)
    ensures ShowsPages(Invalidated(columns, ids), Invalidated(phys, ids), bs, show)
  {
    var a, c := Invalidated(columns, ids), Invalidated(phys, ids);
    forall b, o | 0 <= b < |phys| && 0 <= o < bs
      ensures ShowsSlot(a[b][o], c[b][o], show)
    {
      InvalidatedAt(columns, ids, b, o);
      InvalidatedAt(phys, ids, b, o);
      assert ShowsSlot(columns[b][o], phys[b][o], show);
    }
  }

  /** A release shows as the release of the pages. */
  lemma ReleaseShown<V>(view: seq<Paged<(V, V)>>, n: nat, bs: nat, phys: Phys, show: Rendering<V>, ids: seq<nat>)
    requires Shows(view, n, bs, phys, show)
    ensures Shows(AllInvalidated(view, ids), n, bs, Invalidated(phys, ids), show)
  {
    ReleaseInView(view, ids, n, bs);
    ReleasedShown(Columns(view, n, bs), phys, bs, show, ids);
  }

  // ---------------------------------------------------------------- one item

  function PageItem(it: ExecuteItem): Item {
    Item(it.workId, it.requestId, it.tokens, it.computedTokens, it.table, it.allocatedBlocks)
  }

  function PageItems(items: seq<ExecuteItem>): (r: seq<Item>)
    ensures |r| == |items| && forall i :: 0 <= i < |r| ==> r[i] == PageItem(items[i])
  {
    seq(|items|, i requires 0 <= i < |items| => PageItem(items[i]))
  }

  /** What BatchToExecute sends for a work is, to the pages, the item the system model has in flight. */
  lemma ExecutionIsItem(w: Work, a: BlockSpec.Allocation, bs: nat)
    requires Sliceable(w)
    ensures PageItem(Execution(w, a, bs)) == ItemOf(w, a)
  {
    assert Execution(w, a, bs).computedTokens == ItemOf(w, a).computed;
  }

  /** The model computes, in every layer, what the next terms show. */
  ghost predicate ComputesFor<V>(model: Model<V>, show: Rendering<V>, layers: nat, past: seq<KV>, tokens: seq<Token>)
    requires forall kv :: |show(kv)| == layers
  {
    model(Transposed(Rendered(past, show), layers), tokens).0 == Transposed(Rendered(Forward(past, tokens)[|past|..], show), layers)
  }

  ghost predicate Computes<V>(model: Model<V>, show: Rendering<V>, layers: nat) {
    (forall kv :: |show(kv)| == layers) && forall past, tokens :: ComputesFor(model, show, layers, past, tokens)
  }

  /** The blocks of gathered positions exist, and the rest of the table does not matter. */
  lemma {:induction false} GatheredPrefix<T>(layer: Paged<T>, table: seq<nat>, k: nat, bs: nat, c: nat)
    requires bs > 0 && k <= |table| && c <= Span(k, bs)
    ensures Gathered(layer, table[..k], bs, c) == Gathered(layer, table, bs, c)
    decreases c
  {
    if c > 0 {
      GatheredPrefix(layer, table, k, bs, c - 1);
      PositionInTable(c - 1, table[..k], bs);
    }
  }

  lemma {:induction false} GatheredBlocks<T>(layer: Paged<T>, table: seq<nat>, bs: nat, c: nat, i: nat)
    requires bs > 0 && Gathered(layer, table, bs, c).Some? && Span(i, bs) < c
    ensures i < |table| && table[i] < |layer|
    decreases c
  {
    var b, o, _ := GatheredFrom(layer, table, bs, c - 1);
    if Span(i, bs) == c - 1 {
      SamePlace(bs, i, 0, c - 1);
    } else {
      GatheredBlocks(layer, table, bs, c - 1, i);
    }
  }

  lemma RequiredCovers(c: nat, bs: nat) returns (k: nat)
    requires bs > 0 && c > 0
    ensures k == Required(c, bs) && k > 0 && Span(k - 1, bs) < c <= Span(k, bs)
  {
    k := Required(c, bs);
    SpanOfQuotient(c + bs - 1, bs);
  }

  lemma RequiredBlocks<T>(layer: Paged<T>, table: seq<nat>, bs: nat, c: nat, k: nat)
    requires bs > 0 && Gathered(layer, table, bs, c).Some? && k > 0 && Span(k - 1, bs) < c
    ensures k <= |table| && BlocksExist(table[..k], |layer|)
  {
    forall i | 0 <= i < k
      ensures i < |table| && table[i] < |layer|
    {
      SpanMonotone(i, k - 1, bs);
      GatheredBlocks(layer, table, bs, c, i);
    }
    GatheredBlocks(layer, table, bs, c, k - 1);
  }

  /** What can be gathered, gather returns. */
  lemma GatherReturns<T>(layer: Paged<T>, table: seq<nat>, bs: nat, c: nat, row: seq<T>)
    requires bs > 0 && Gathered(layer, table, bs, c) == Some(row)
    ensures GatherResult(layer, bs, table, c) == Ok(row)
  {
    if c > 0 {
      var k := RequiredCovers(c, bs);
      RequiredBlocks(layer, table, bs, c, k);
      GatheredPrefix(layer, table, k, bs, c);
      assert Nats(table[..k]) == table[..k];
    }
  }

  /** A past that the pages hold is read from every layer. */
  lemma PastShown<V>(view: seq<Paged<(V, V)>>, n: nat, bs: nat, phys: Phys, show: Rendering<V>, table: seq<nat>, c: nat) returns (past: seq<KV>)
    requires bs > 0 && Shows(view, n, bs, phys, show) && Gathered(phys, table, bs, c).Some? && forall kv :: |show(kv)| == |view|
    ensures Gathered(phys, table, bs, c) == Some(past)
    ensures CanRead(view, bs, table, c) && PastOf(view, bs, table, c) == Transposed(Rendered(past, show), |view|)
  {
    var columns: Paged<seq<(V, V)>> := Columns(view, n, bs);
    past := GatheredShown(columns, phys, bs, show, table, c);
    var rows := Transposed(Rendered(past, show), |view|);
    forall l | 0 <= l < |view|
      ensures GatherResult(view[l], bs, table, c) == Ok(rows[l])
    {
      var kvs, row := GatherInView(view, n, table, bs, c, l);
      assert row == rows[l];
      GatherReturns(view[l], table, bs, c, row);
    }
    PastIs(view, bs, table, c, rows);
  }

  lemma ItemNews<V>(view: seq<Paged<(V, V)>>, n: nat, bs: nat, phys: Phys, show: Rendering<V>, it: ExecuteItem, model: Model<V>) returns (kvs: seq<KV>)
    requires bs > 0 && Shows(view, n, bs, phys, show) && Computes(model, show, |view|) && ItemError(it, bs) == None
    requires Executed(phys, bs, PageItem(it)).Some?
    ensures |kvs| == |it.tokens| && CanRead(view, bs, it.table, it.computedTokens)
    ensures News(view, bs, it, model) == Transposed(Rendered(kvs, show), |view|)
    ensures Inside(PlacesFor(it, bs), n, bs)
    ensures Executed(phys, bs, PageItem(it)) == Some(WrittenPlaces(phys, bs, PlacesFor(it, bs), kvs))
  {
    var past := PastShown(view, n, bs, phys, show, it.table, it.computedTokens);
    assert ComputesFor(model, show, |view|, past, it.tokens);
    var all := Forward(past, it.tokens);
    kvs := all[|past|..];
    var _, chunk := PlacesWrite(phys, it.table, bs, all, it.computedTokens, End(it));
    assert chunk == kvs;
  }

  lemma ChunkShown<V>(view: seq<Paged<(V, V)>>, n: nat, bs: nat, phys: Phys, show: Rendering<V>, places: seq<Place>, kvs: seq<KV>)
      returns (after: seq<Paged<(V, V)>>)
    requires Shows(view, n, bs, phys, show) && Inside(places, n, bs) && |places| == |kvs| && forall kv :: |show(kv)| == |view|
    ensures after == PlacedUpTo(view, bs, places, Transposed(Rendered(kvs, show), |view|), |view|)
    ensures Shows(after, n, bs, WrittenPlaces(phys, bs, places, kvs), show)
  {
    var rows := Transposed(Rendered(kvs, show), |view|);
    after := WriteInView(view, n, bs, places, rows);
    TransposedTwice(Rendered(kvs, show), |view|);
    WrittenShown(Columns(view, n, bs), phys, bs, show, places, kvs);
  }

  /** An item that the pages execute, the runner executes, and the cache shows the pages that result. */
  lemma ItemShown<V>(view: seq<Paged<(V, V)>>, n: nat, bs: nat, phys: Phys, show: Rendering<V>, it: ExecuteItem, model: Model<V>)
      returns (after: seq<Paged<(V, V)>>, next: Phys)
    requires bs > 0 && Shows(view, n, bs, phys, show) && Computes(model, show, |view|) && ItemError(it, bs) == None
    requires Executed(phys, bs, PageItem(it)).Some? && CanRead(view, bs, it.table, it.computedTokens)
    ensures after == RanUpTo(view, bs, it, model, |view|) && Executed(phys, bs, PageItem(it)) == Some(next)
    ensures Shows(after, n, bs, next, show)
  {
    var kvs := ItemNews(view, n, bs, phys, show, it, model);
    next := WrittenPlaces(phys, bs, PlacesFor(it, bs), kvs);
    after := ChunkShown(view, n, bs, phys, show, PlacesFor(it, bs), kvs);
  }

  lemma SlotsFit(it: ExecuteItem, n: nat, bs: nat)
    requires bs > 0 && ItemError(it, bs) == None && Apart(it.table, bs, it.computedTokens) && Inside(PlacesFor(it, bs), n, bs)
    ensures SlotsExist(SlotsOf(it, bs), Span(n, bs)) && Distinct<int>(SlotsOf(it, bs)) && |SlotsOf(it, bs)| == |it.tokens|
  {
    var places, slots := PlacesFor(it, bs), SlotsOf(it, bs);
    forall k | 0 <= k < |slots|
      ensures slots[k] < Span(n, bs)
    {
      FlatInside(places[k], n, bs);
    }
    MappingDistinct(it.table, bs, it.computedTokens, End(it));
  }

  lemma ItemCanRun<V>(view: seq<Paged<(V, V)>>, n: nat, bs: nat, phys: Phys, show: Rendering<V>, it: ExecuteItem, model: Model<V>)
    requires bs > 0 && Shows(view, n, bs, phys, show) && Computes(model, show, |view|) && ItemError(it, bs) == None
    requires Executed(phys, bs, PageItem(it)).Some? && Apart(it.table, bs, it.computedTokens)
    ensures CanRun(view, n, bs, it, model)
  {
    var kvs := ItemNews(view, n, bs, phys, show, it, model);
    SlotsFit(it, n, bs);
  }

  // ---------------------------------------------------------------- a batch

  ghost predicate AllApart(items: seq<ExecuteItem>, bs: nat) {
    forall i :: 0 <= i < |items| ==> Apart(items[i].table, bs, items[i].computedTokens)
  }

  /** The runner after the pages of the first item. */
  lemma FirstShown<V>(views: seq<seq<Paged<(V, V)>>>, items: seq<ExecuteItem>, n: nat, bs: nat, phys: Phys, show: Rendering<V>, model: Model<V>)
      returns (next: Phys)
    requires Trail(views, items, n, bs, model) && |views| > 1 && Shows(views[0], n, bs, phys, show) && Computes(model, show, |views[0]|)
    requires bs > 0 && ItemsOk(items, bs) && AllExecuted(phys, bs, PageItems(items)).Some?
    ensures Trail(views[1..], items[1..], n, bs, model) && |views[1]| == |views[0]|
    ensures Executed(phys, bs, PageItem(items[0])) == Some(next) && Shows(views[1], n, bs, next, show)
    ensures PageItems(items[1..]) == PageItems(items)[1..]
    ensures AllExecuted(next, bs, PageItems(items[1..])) == AllExecuted(phys, bs, PageItems(items))
  {
    assert RanAt(views, items, n, bs, model, 0);
    var after;
    after, next := ItemShown(views[0], n, bs, phys, show, items[0], model);
    assert PageItems(items)[1..] == PageItems(items[1..]);
    TrailRest(views, items, n, bs, model);
  }

  lemma TrailRest<V>(views: seq<seq<Paged<(V, V)>>>, items: seq<ExecuteItem>, n: nat, bs: nat, model: Model<V>)
    requires Trail(views, items, n, bs, model) && |views| > 1
    ensures Trail(views[1..], items[1..], n, bs, model)
  {
    forall i | 0 <= i < |views| - 2
      ensures RanAt(views[1..], items[1..], n, bs, model, i)
    {
      assert RanAt(views, items, n, bs, model, i + 1);
    }
  }

  /**
   * As long as the pages execute the batch, the runner does not stop at any of its items, and once all
   * have run the cache shows the pages that result.
   */
  lemma {:induction false} ItemsShown<V>(views: seq<seq<Paged<(V, V)>>>, items: seq<ExecuteItem>, n: nat, bs: nat, phys: Phys, show: Rendering<V>,
                                         model: Model<V>) returns (next: Phys)
    requires Trail(views, items, n, bs, model) && Shows(views[0], n, bs, phys, show) && Computes(model, show, |views[0]|)
    requires bs > 0 && ItemsOk(items, bs) && AllApart(items, bs) && AllExecuted(phys, bs, PageItems(items)).Some?
    ensures AllExecuted(phys, bs, PageItems(items)) == Some(next)
    ensures |views| <= |items| ==> CanRun(views[|views| - 1], n, bs, items[|views| - 1], model)
    ensures |views| == |items| + 1 ==> Shows(views[|items|], n, bs, next, show)
    decreases |views|
  {
    if |views| == 1 {
      next := AllExecuted(phys, bs, PageItems(items)).value;
      if items != [] {
        assert Executed(phys, bs, PageItems(items)[0]).Some?;
        ItemCanRun(views[0], n, bs, phys, show, items[0], model);
      }
    } else {
      var mid := FirstShown(views, items, n, bs, phys, show, model);
      next := ItemsShown(views[1..], items[1..], n, bs, mid, show, model);
    }
  }

  lemma {:induction false} AllocatedIsAdded(items: seq<ExecuteItem>)
    ensures NewBlocks(items) == AllAdded(PageItems(items))
  {
    if items != [] {
      AllocatedIsAdded(items[1..]);
      assert PageItems(items)[1..] == PageItems(items[1..]);
    }
  }

  /** The items of works at the executor write apart, and their tables and new blocks exist. */
  lemma InFlightItems(sha: Str -> Str, prompts: set<Prompt>, n: Node, h: Host, ws: seq<WorkId>, items: seq<ExecuteItem>)
    requires Inv(n) && HostOk(sha, prompts, n, h) && AtExecutor(n, h, ws) && PageItems(items) == Items(h, ws)
    ensures AllApart(items, n.s.blockSize)
    ensures forall i :: 0 <= i < |items| ==> End(items[i]) <= Span(|items[i].table|, n.s.blockSize)
  {
    forall i | 0 <= i < |items|
      ensures Apart(items[i].table, n.s.blockSize, items[i].computedTokens)
      ensures End(items[i]) <= Span(|items[i].table|, n.s.blockSize)
    {
      var a := n.s.pending[ws[i]];
      assert PageItem(items[i]) == h.flights[ws[i]].item;
      assert FlightOk(sha, n, h, a, h.flights[ws[i]].item);
      assert AllocationOk(n, a);
      WritesApart(n, ws[i], a);
    }
  }

  /**
   * Refinement: when the engine's works `ws` are at an executor whose cache shows its pages, the runner
   * never stops at an item, and after the batch the cache shows the pages the system model goes to.
   */
  lemma BatchShown<V>(sha: Str -> Str, prompts: set<Prompt>, n: Node, h: Host, ws: seq<WorkId>, items: seq<ExecuteItem>, show: Rendering<V>, model: Model<V>,
                      before: seq<Paged<(V, V)>>, views: seq<seq<Paged<(V, V)>>>) returns (next: Phys)
    requires Inv(n) && HostOk(sha, prompts, n, h) && h.up && AtExecutor(n, h, ws) && PageItems(items) == Items(h, ws)
    requires Shows(before, |n.s.blocks|, n.s.blockSize, h.phys, show) && Computes(model, show, |before|) && ItemsOk(items, n.s.blockSize)
    requires Trail(views, items, |n.s.blocks|, n.s.blockSize, model) && views[0] == AllInvalidated(before, NewBlocks(items))
    ensures BatchExecuted(h.phys, n.s.blockSize, Items(h, ws)) == Some(next)
    ensures |views| <= |items| ==> CanRun(views[|views| - 1], |n.s.blocks|, n.s.blockSize, items[|views| - 1], model)
    ensures |views| == |items| + 1 ==> Shows(views[|items|], |n.s.blocks|, n.s.blockSize, next, show)
    ensures HostOk(sha, prompts, n, Answered(h, next, ws, true))
  {
    var bs := n.s.blockSize;
    next := ExecuteKeepsHost(sha, prompts, n, h, ws);
    InFlightItems(sha, prompts, n, h, ws, items);
    AllocatedIsAdded(items);
    ReleaseShown(before, |n.s.blocks|, bs, h.phys, show, NewBlocks(items));
    var _ := ItemsShown(views, items, |n.s.blocks|, bs, Invalidated(h.phys, NewBlocks(items)), show, model);
  }

  // ---------------------------------------------------------------- slots

  lemma InFlightItem(sha: Str -> Str, prompts: set<Prompt>, n: Node, h: Host, ws: seq<WorkId>, items: seq<ExecuteItem>, i: nat)
    requires Inv(n) && HostOk(sha, prompts, n, h) && AtExecutor(n, h, ws) && PageItems(items) == Items(h, ws) && i < |items|
    ensures ws[i] in n.s.pending && items[i].table == n.s.pending[ws[i]].table
    ensures items[i].computedTokens == Progress(n, n.s.pending[ws[i]].requestId)
  {
    var a := n.s.pending[ws[i]];
    assert PageItem(items[i]) == h.flights[ws[i]].item;
    assert FlightOk(sha, n, h, a, h.flights[ws[i]].item);
  }

  /** A position from the progress on is at a place the work may touch. */
  lemma PlaceIsTouched(n: Node, w: WorkId, table: seq<nat>, p: nat)
    requires w in n.s.pending && table == n.s.pending[w].table && n.s.blockSize > 0
    requires Progress(n, n.s.pending[w].requestId) <= p < Span(|table|, n.s.blockSize)
    ensures var at := PlaceOf(table, n.s.blockSize, p); MayTouch(n, w, at.block, at.offset)
  {
    PositionInTable(p, table, n.s.blockSize);
    var at := PlaceOf(table, n.s.blockSize, p);
    assert TouchesAt(n, n.s.pending[w], p / n.s.blockSize, at.block, at.offset);
  }

  lemma SameSlotSameWork(n: Node, v: WorkId, w: WorkId, at: Place, other: Place)
    requires Inv(n) && MayTouch(n, v, at.block, at.offset) && MayTouch(n, w, other.block, other.offset)
    requires at.offset < n.s.blockSize && other.offset < n.s.blockSize && Flat(at, n.s.blockSize) == Flat(other, n.s.blockSize)
    ensures v == w
  {
    UnflatFlat(at, n.s.blockSize);
    UnflatFlat(other, n.s.blockSize);
    TouchesAreApart(n, v, w, at.block, at.offset, other.offset);
  }

  lemma SlotOf(it: ExecuteItem, bs: nat, x: nat)
    requires bs > 0 && ItemError(it, bs) == None && x < |it.tokens|
    ensures SlotsOf(it, bs)[x] == Flat(PlaceOf(it.table, bs, it.computedTokens + x), bs)
  {
  }

  lemma PositionsOfItemDiffer(it: ExecuteItem, bs: nat, x: nat, y: nat)
    requires bs > 0 && ItemError(it, bs) == None && x < |it.tokens| && y < |it.tokens| && x != y && Apart(it.table, bs, it.computedTokens)
    ensures SlotsOf(it, bs)[x] != SlotsOf(it, bs)[y]
  {
    SlotsApart(it.table, bs, it.computedTokens, it.computedTokens + x, it.computedTokens + y);
  }

  /** Where the x-th new position of an item goes. */
  function PlaceAt(it: ExecuteItem, bs: nat, x: nat): (at: Place)
    requires bs > 0 && ItemError(it, bs) == None && x < |it.tokens|
    ensures at.offset < bs
  {
    PlaceOf(it.table, bs, it.computedTokens + x)
  }

  lemma ItemIsTouched(sha: Str -> Str, prompts: set<Prompt>, n: Node, h: Host, ws: seq<WorkId>, items: seq<ExecuteItem>, i: nat, x: nat) returns (at: Place)
    requires Inv(n) && HostOk(sha, prompts, n, h) && AtExecutor(n, h, ws) && PageItems(items) == Items(h, ws) && i < |items|
    requires ItemError(items[i], n.s.blockSize) == None && x < |items[i].tokens|
    ensures at == PlaceAt(items[i], n.s.blockSize, x) && Flat(at, n.s.blockSize) == SlotsOf(items[i], n.s.blockSize)[x]
    ensures MayTouch(n, ws[i], at.block, at.offset)
  {
    InFlightItem(sha, prompts, n, h, ws, items, i);
    at := PlaceTouched(n, ws[i], items[i], x);
  }

  lemma PlaceTouched(n: Node, w: WorkId, it: ExecuteItem, x: nat) returns (at: Place)
    requires n.s.blockSize > 0 && w in n.s.pending && it.table == n.s.pending[w].table
    requires it.computedTokens == Progress(n, n.s.pending[w].requestId)
    requires ItemError(it, n.s.blockSize) == None && x < |it.tokens|
    ensures at == PlaceAt(it, n.s.blockSize, x) && Flat(at, n.s.blockSize) == SlotsOf(it, n.s.blockSize)[x]
    ensures MayTouch(n, w, at.block, at.offset)
  {
    at := PlaceAt(it, n.s.blockSize, x);
    PlaceIsTouched(n, w, it.table, it.computedTokens + x);
    SlotOf(it, n.s.blockSize, x);
  }

  /** An item in flight writes only into unpublished blocks with one holder. */
  lemma SlotsOfBatchArePrivate(sha: Str -> Str, prompts: set<Prompt>, n: Node, h: Host, ws: seq<WorkId>, items: seq<ExecuteItem>, i: nat, x: nat)
    requires Inv(n) && HostOk(sha, prompts, n, h) && AtExecutor(n, h, ws) && PageItems(items) == Items(h, ws) && i < |items|
    requires ItemError(items[i], n.s.blockSize) == None && x < |items[i].tokens|
    ensures var b := PlaceAt(items[i], n.s.blockSize, x).block; b < |n.s.blocks| && !n.s.blocks[b].cached && n.s.blocks[b].refs == 1
  {
    var at := ItemIsTouched(sha, prompts, n, h, ws, items, i, x);
    TouchedBlock(n, {ws[i]}, at.block, at.offset);
    assert TouchedBy(n, {ws[i]}, at.block, at.offset);
  }

  /** The slot mapping of a batch names no slot twice: no two items write the same slot, nor one item twice. */
  lemma SlotsOfBatchDiffer(sha: Str -> Str, prompts: set<Prompt>, n: Node, h: Host, ws: seq<WorkId>, items: seq<ExecuteItem>, i: nat, x: nat, j: nat, y: nat)
    requires Inv(n) && HostOk(sha, prompts, n, h) && AtExecutor(n, h, ws) && PageItems(items) == Items(h, ws) && i < |items| && j < |items|
    requires ItemError(items[i], n.s.blockSize) == None && ItemError(items[j], n.s.blockSize) == None
    requires x < |items[i].tokens| && y < |items[j].tokens| && (i != j || x != y)
    ensures SlotsOf(items[i], n.s.blockSize)[x] != SlotsOf(items[j], n.s.blockSize)[y]
  {
    if i == j {
      InFlightItems(sha, prompts, n, h, ws, items);
      PositionsOfItemDiffer(items[i], n.s.blockSize, x, y);
    } else {
      var at := ItemIsTouched(sha, prompts, n, h, ws, items, i, x);
      var other := ItemIsTouched(sha, prompts, n, h, ws, items, j, y);
      if Flat(at, n.s.blockSize) == Flat(other, n.s.blockSize) {
        SameSlotSameWork(n, ws[i], ws[j], at, other);
      }
    }
  }

  // ---------------------------------------------------------------- pushes

  /** The payload of every layer. */
  function AllPairs<V>(keys: Tensor<V>, values: Tensor<V>, layers: nat, m: nat, bs: nat): (payloads: seq<seq<seq<(V, V)>>>)
    requires TensorShape(keys, layers, m, bs) && TensorShape(values, layers, m, bs)
    ensures |payloads| == layers && forall l :: 0 <= l < layers ==> payloads[l] == LayerPairs(keys, values, l, m, bs)
  {
    seq(layers, l requires 0 <= l < layers => LayerPairs(keys, values, l, m, bs))
  }

  /** Every layer's payload holds that layer's part of what the terms show. */
  ghost predicate Carries<V>(payloads: seq<seq<seq<(V, V)>>>, terms: seq<seq<KV>>, bs: nat, show: Rendering<V>) {
    && Pagewise(payloads, |terms|, bs) && (forall kv :: |show(kv)| == |payloads|)
    && (forall i :: 0 <= i < |terms| ==> |terms[i]| == bs)
    && (forall l, i, o :: 0 <= l < |payloads| && 0 <= i < |terms| && 0 <= o < bs ==> payloads[l][i][o] == show(terms[i][o])[l])
  }

  lemma StackedShows<V>(payloads: seq<seq<seq<(V, V)>>>, terms: seq<seq<KV>>, bs: nat, show: Rendering<V>, i: nat, o: nat)
    requires Carries(payloads, terms, bs, show) && i < |terms| && o < bs
    ensures Stacked(payloads, |terms|, bs)[i][o] == show(terms[i][o])
  {
    var kv := Across(payloads, i, o);
    assert |kv| == |show(terms[i][o])|;
    assert kv == show(terms[i][o]);
  }

  lemma ImportedShown<V>(columns: Paged<seq<(V, V)>>, phys: Phys, bs: nat, show: Rendering<V>, ids: seq<nat>, payloads: seq<seq<seq<(V, V)>>>, terms: seq<seq<KV>>)
    requires ShowsPages(columns, phys, bs, show) && Carries(payloads, terms, bs, show) && |ids| == |terms|
    ensures ShowsPages(ImportedPages(columns, ids, Stacked(payloads, |terms|, bs)), ImportedPages(phys, ids, terms), bs, show)
  {
    var pages := Stacked(payloads, |terms|, bs);
    var a, c := ImportedPages(columns, ids, pages), ImportedPages(phys, ids, terms);
    forall b, o | 0 <= b < |phys| && 0 <= o < bs
      ensures |a[b]| == |c[b]| == bs && ShowsSlot(a[b][o], c[b][o], show)
    {
      ImportedSlot(columns, ids, pages, b, o);
      ImportedSlot(phys, ids, terms, b, o);
      if b in ids {
        StackedShows(payloads, terms, bs, show, IndexIn(ids, b), o);
      } else {
        assert ShowsSlot(columns[b][o], phys[b][o], show);
      }
    }
    assert Shaped(a, bs) && Shaped(c, bs) by {
      forall b | 0 <= b < |phys|
        ensures |a[b]| == |c[b]| == bs
      {
        assert b in ids ==> |pages[IndexIn(ids, b)]| == |terms[IndexIn(ids, b)]| == bs;
      }
    }
  }

  /** An import that carries the terms shows as the import of the terms. */
  lemma PushShown<V>(view: seq<Paged<(V, V)>>, n: nat, bs: nat, phys: Phys, show: Rendering<V>, ids: seq<nat>, payloads: seq<seq<seq<(V, V)>>>, terms: seq<seq<KV>>)
      returns (after: seq<Paged<(V, V)>>)
    requires Shows(view, n, bs, phys, show) && |payloads| == |view| && Carries(payloads, terms, bs, show) && |ids| == |terms|
    ensures after == AllImported(view, ids, payloads) && Shows(after, n, bs, ImportedPages(phys, ids, terms), show)
  {
    after := ImportInView(view, n, bs, ids, payloads);
    ImportedShown(Columns(view, n, bs), phys, bs, show, ids, payloads, terms);
  }

  /** The executor finds a block empty in every layer exactly when its page is empty. */
  lemma VacancyShown<V>(view: seq<Paged<(V, V)>>, n: nat, bs: nat, phys: Phys, show: Rendering<V>, b: nat)
    requires Shows(view, n, bs, phys, show) && b < n
    ensures AllEmpty(phys[b]) <==> forall l :: 0 <= l < |view| ==> AllEmpty(view[l][b])
  {
    VacantInView(view, n, bs, b);
    var columns: Paged<seq<(V, V)>> := Columns(view, n, bs);
    forall o | 0 <= o < bs
      ensures columns[b][o].Empty? <==> phys[b][o].Empty?
    {
      assert ShowsSlot(columns[b][o], phys[b][o], show);
    }
    assert |columns[b]| == |phys[b]| == bs;
  }

  lemma ExportableShown<V>(columns: Paged<seq<(V, V)>>, phys: Phys, bs: nat, show: Rendering<V>, ids: seq<nat>)
    requires ShowsPages(columns, phys, bs, show) && CanExport(phys, ids)
    ensures CanExport(columns, ids)
  {
    forall i | 0 <= i < |ids|
      ensures AllFull(columns[ids[i]])
    {
      forall o | 0 <= o < bs
        ensures columns[ids[i]][o] == Full(show(phys[ids[i]][o].kv))
      {
        assert AllFull(phys[ids[i]]);
        assert ShowsSlot(columns[ids[i]][o], phys[ids[i]][o], show);
      }
      assert |columns[ids[i]]| == bs;
    }
  }

  lemma ExportedSlotShown<V>(columns: Paged<seq<(V, V)>>, phys: Phys, bs: nat, show: Rendering<V>, ids: seq<nat>, i: nat, o: nat)
    requires ShowsPages(columns, phys, bs, show) && CanExport(phys, ids) && CanExport(columns, ids) && i < |ids| && o < bs
    ensures o < |Exported(columns, ids)[i]| && o < |Exported(phys, ids)[i]|
    ensures Exported(columns, ids)[i][o] == show(Exported(phys, ids)[i][o])
  {
    assert FullBlock(Exported(columns, ids)[i]) == columns[ids[i]] && FullBlock(Exported(phys, ids)[i]) == phys[ids[i]];
    assert FullBlock(Exported(columns, ids)[i])[o] == columns[ids[i]][o] && FullBlock(Exported(phys, ids)[i])[o] == phys[ids[i]][o];
    assert ShowsSlot(columns[ids[i]][o], phys[ids[i]][o], show);
  }

  lemma ExportedTerms(phys: Phys, ids: seq<nat>, bs: nat)
    requires Shaped(phys, bs) && CanExport(phys, ids)
    ensures forall i :: 0 <= i < |ids| ==> |Exported(phys, ids)[i]| == bs
  {
    forall i | 0 <= i < |ids|
      ensures |Exported(phys, ids)[i]| == bs
    {
      assert FullBlock(Exported(phys, ids)[i]) == phys[ids[i]];
    }
  }

  /** What a source exports layer by layer carries the terms of its pages. */
  lemma ExportShown<V>(view: seq<Paged<(V, V)>>, n: nat, bs: nat, phys: Phys, show: Rendering<V>, ids: seq<nat>, payloads: seq<seq<seq<(V, V)>>>)
    requires Shows(view, n, bs, phys, show) && CanExport(phys, ids) && (forall kv :: |show(kv)| == |view|) && |payloads| == |view|
    requires forall l :: 0 <= l < |view| ==> CanExport(view[l], ids) ==> payloads[l] == Exported(view[l], ids)
    ensures forall l :: 0 <= l < |view| ==> CanExport(view[l], ids)
    ensures Carries(payloads, Exported(phys, ids), bs, show)
  {
    var columns: Paged<seq<(V, V)>> := Columns(view, n, bs);
    ExportableShown(columns, phys, bs, show, ids);
    ExportInView(view, n, bs, ids);
    ExportedTerms(phys, ids, bs);
    forall l, i | 0 <= l < |view| && 0 <= i < |ids|
      ensures |payloads[l]| == |ids| && |payloads[l][i]| == bs
    {
      assert FullBlock(Exported(view[l], ids)[i]) == view[l][ids[i]];
    }
    forall l, i, o | 0 <= l < |view| && 0 <= i < |ids| && 0 <= o < bs
      ensures payloads[l][i][o] == show(Exported(phys, ids)[i][o])[l]
    {
      ExportedSlotShown(columns, phys, bs, show, ids, i, o);
      ExportedInView(view, n, bs, ids, i, o, l);
    }
  }

  /**
   * A push between two executors whose caches show their pages: what the source exports and the
   * destination imports, layer by layer, is the copy of pages that the system model makes.
   */
  lemma CopyShown<V>(view: seq<Paged<(V, V)>>, n: nat, phys: Phys, srcIds: seq<nat>, other: seq<Paged<(V, V)>>, m: nat, page: Phys, dstIds: seq<nat>,
                     bs: nat, show: Rendering<V>, payloads: seq<seq<seq<(V, V)>>>) returns (after: seq<Paged<(V, V)>>)
    requires Shows(view, n, bs, phys, show) && Shows(other, m, bs, page, show) && |other| == |view| == |payloads| && forall kv :: |show(kv)| == |view|
    requires CanExport(phys, srcIds) && |dstIds| == |srcIds|
    requires forall l :: 0 <= l < |view| ==> CanExport(view[l], srcIds) ==> payloads[l] == Exported(view[l], srcIds)
    ensures forall l :: 0 <= l < |other| ==> |payloads[l]| == |dstIds|
    ensures after == AllImported(other, dstIds, payloads) && Shows(after, m, bs, ImportedPages(page, dstIds, Exported(phys, srcIds)), show)
  {
    ExportShown(view, n, bs, phys, show, srcIds, payloads);
    after := PushShown(other, m, bs, page, show, dstIds, payloads, Exported(phys, srcIds));
  }

  /** What the snapshot of trigger_kv_push puts on the wire carries the terms of the source's pages. */
  lemma SnapshotCarries<V>(view: seq<Paged<(V, V)>>, n: nat, bs: nat, phys: Phys, show: Rendering<V>, ids: seq<nat>, keys: Tensor<V>, values: Tensor<V>)
    requires Shows(view, n, bs, phys, show) && CanExport(phys, ids) && (forall kv :: |show(kv)| == |view|)
    requires TensorShape(keys, |view|, |ids|, bs) && TensorShape(values, |view|, |ids|, bs)
    requires forall l :: 0 <= l < |view| ==> CanExport(view[l], ids) && Exported(view[l], ids) == LayerPairs(keys, values, l, |ids|, bs)
    ensures Carries(AllPairs(keys, values, |view|, |ids|, bs), Exported(phys, ids), bs, show)
  {
    ExportShown(view, n, bs, phys, show, ids, AllPairs(keys, values, |view|, |ids|, bs));
  }

  /** After push_kv has landed a wire that carries some terms, the cache shows the pages with those terms imported. */
  lemma LandedShows<V>(view: seq<Paged<(V, V)>>, after: seq<Paged<(V, V)>>, n: nat, bs: nat, phys: Phys, show: Rendering<V>, ids: seq<nat>,
                       keys: Tensor<V>, values: Tensor<V>, terms: seq<seq<KV>>)
    requires Shows(view, n, bs, phys, show) && |after| == |view| && |ids| == |terms|
    requires TensorShape(keys, |view|, |ids|, bs) && TensorShape(values, |view|, |ids|, bs)
    requires Carries(AllPairs(keys, values, |view|, |ids|, bs), terms, bs, show)
    requires forall l :: 0 <= l < |view| ==> after[l] == ImportedPages(view[l], ids, LayerPairs(keys, values, l, |ids|, bs))
    ensures Shows(after, n, bs, ImportedPages(phys, ids, terms), show)
  {
    var payloads := AllPairs(keys, values, |view|, |ids|, bs);
    var next := PushShown(view, n, bs, phys, show, ids, payloads, terms);
    assert after == next;
  }
}

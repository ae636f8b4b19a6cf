/** BatchBuilder: the items of a batch flattened into the lists the runner slices. */
module Batch {
  import opened Hashing
  import opened Spans
  import opened Wrappers
  import opened BlockSpec
  import opened Pages
  import opened CacheSpec

  datatype ExecuteItem = ExecuteItem(
    workId: WorkId,
    requestId: RequestId,
    phase: WorkPhase,
    tokens: seq<Token>,
    computedTokens: nat,
    generatedTokens: nat,
    numNewTokens: nat,
    blockSize: nat,
    table: seq<nat>,
    allocatedBlocks: seq<nat>,
    sample: bool)

  datatype BatchError = NoTokens | TokenCount | BlockSizeMismatch | NoCapacity

  datatype BatchMetadata = BatchMetadata(
    items: seq<ExecuteItem>,
    inputIds: seq<Token>,
    positions: seq<nat>,
    queryStartLocs: seq<nat>,
    contextLens: seq<nat>,
    slotMapping: seq<nat>,
    blockTables: seq<seq<int>>,
    sampleIndices: seq<nat>,
    sampleItemIndices: seq<nat>)

  function End(it: ExecuteItem): nat {
    it.computedTokens + |it.tokens|
  }

  /** The checks of one item, in order. */
  function ItemError(it: ExecuteItem, bs: nat): Option<BatchError> {
    if it.tokens == [] then Some(NoTokens)
    else if |it.tokens| != it.numNewTokens then Some(TokenCount)
    else if it.blockSize != bs then Some(BlockSizeMismatch)
    else if End(it) > Span(|it.table|, bs) then Some(NoCapacity)
    else None
  }

  ghost predicate ItemsOk(items: seq<ExecuteItem>, bs: nat) {
    forall i :: 0 <= i < |items| ==> ItemError(items[i], bs) == None
  }

  // ---------------------------------------------------------------- rows of a flat list

  /** `flat` is the rows one after the other; row i is flat[starts[i]..starts[i + 1]]. */
  ghost predicate Rows<T>(flat: seq<T>, starts: seq<nat>, rows: seq<seq<T>>) {
    && |starts| == |rows| + 1 && starts[0] == 0 && starts[|rows|] == |flat|
    && (forall i :: 0 <= i < |rows| ==> RowAt(flat, starts, rows, i))
  }

  ghost predicate RowAt<T>(flat: seq<T>, starts: seq<nat>, rows: seq<seq<T>>, i: nat)
    requires |starts| == |rows| + 1 && i < |rows|
  {
    starts[i] <= starts[i + 1] <= |flat| && flat[starts[i]..starts[i + 1]] == rows[i]
  }

  lemma RowAdded<T>(flat: seq<T>, starts: seq<nat>, rows: seq<seq<T>>, row: seq<T>)
    requires Rows(flat, starts, rows)
    ensures Rows(flat + row, starts + [|flat| + |row|], rows + [row])
  {
    var f, s, r := flat + row, starts + [|flat| + |row|], rows + [row];
    forall i | 0 <= i < |r|
      ensures RowAt(f, s, r, i)
    {
      if i < |rows| {
        assert RowAt(flat, starts, rows, i);
        assert f[starts[i]..starts[i + 1]] == flat[starts[i]..starts[i + 1]];
      }
    }
  }

  /** Starts with the same rows are the same list. */
  lemma {:induction false} RowsAgree<S, T>(a: seq<S>, b: seq<T>, starts: seq<nat>, others: seq<nat>, rows: seq<seq<S>>, cols: seq<seq<T>>, i: nat)
    requires Rows(a, starts, rows) && Rows(b, others, cols) && |rows| == |cols| && i <= |rows|
    requires forall k :: 0 <= k < |rows| ==> |rows[k]| == |cols[k]|
    ensures starts[i] == others[i]
  {
    if i > 0 {
      RowsAgree(a, b, starts, others, rows, cols, i - 1);
      assert RowAt(a, starts, rows, i - 1) && RowAt(b, others, cols, i - 1);
    }
  }

  function Range(from: nat, upTo: nat): (r: seq<nat>)
    requires from <= upTo
    ensures |r| == upTo - from && forall k :: 0 <= k < |r| ==> r[k] == from + k
  {
    seq(upTo - from, k requires 0 <= k < upTo - from => from + k)
  }

  function TokenRows(items: seq<ExecuteItem>): (rows: seq<seq<Token>>)
    ensures |rows| == |items| && forall i :: 0 <= i < |rows| ==> rows[i] == items[i].tokens
  {
    seq(|items|, i requires 0 <= i < |items| => items[i].tokens)
  }

  function PositionRows(items: seq<ExecuteItem>): (rows: seq<seq<nat>>)
    ensures |rows| == |items| && forall i :: 0 <= i < |rows| ==> rows[i] == Range(items[i].computedTokens, End(items[i]))
  {
    seq(|items|, i requires 0 <= i < |items| => Range(items[i].computedTokens, End(items[i])))
  }

  ghost function SlotRows(items: seq<ExecuteItem>, bs: nat): (rows: seq<seq<nat>>)
    requires bs > 0 && ItemsOk(items, bs)
    ensures |rows| == |items|
    ensures forall i :: 0 <= i < |rows| ==> rows[i] == SlotMapping(items[i].table, bs, items[i].computedTokens, End(items[i]))
  {
    seq(|items|, i requires 0 <= i < |items| => SlotMapping(items[i].table, bs, items[i].computedTokens, End(items[i])))
  }

  // ---------------------------------------------------------------- samples and padding

  /** The sampled items among the first k, in order, each with the index of its last token. */
  ghost predicate Samples(items: seq<ExecuteItem>, starts: seq<nat>, k: nat, indices: seq<nat>, owners: seq<nat>)
    requires k <= |items| && k < |starts|
  {
    && |indices| == |owners|
    && (forall j :: 0 <= j < |owners| ==> owners[j] < k && items[owners[j]].sample && indices[j] + 1 == starts[owners[j] + 1])
    && (forall i, j :: 0 <= i < j < |owners| ==> owners[i] < owners[j])
    && (forall i :: 0 <= i < k && items[i].sample ==> i in owners)
  }

  function MaxLength(tables: seq<seq<nat>>): (m: nat)
    ensures forall i :: 0 <= i < |tables| ==> |tables[i]| <= m
    ensures tables != [] ==> exists i :: 0 <= i < |tables| && |tables[i]| == m
  {
    if tables == [] then 0
    else
      var m := MaxLength(tables[..|tables| - 1]);
      assert forall i :: 0 <= i < |tables| - 1 ==> tables[i] == tables[..|tables| - 1][i];
      if |tables[|tables| - 1]| >= m then |tables[|tables| - 1]| else m
  }

  function Repeat(x: int, n: nat): (r: seq<int>)
    ensures |r| == n && forall i :: 0 <= i < n ==> r[i] == x
  {
    seq(n, _ => x)
  }

  /** What BatchMetadata says about its items. */
  ghost predicate Describes(m: BatchMetadata, items: seq<ExecuteItem>, bs: nat)
    requires bs > 0 && ItemsOk(items, bs)
  {
    && m.items == items
    && Rows(m.inputIds, m.queryStartLocs, TokenRows(items))
    && Rows(m.positions, m.queryStartLocs, PositionRows(items))
    && Rows(m.slotMapping, m.queryStartLocs, SlotRows(items, bs))
    && |m.contextLens| == |items| && (forall i :: 0 <= i < |items| ==> m.contextLens[i] == End(items[i]))
    && Samples(items, m.queryStartLocs, |items|, m.sampleIndices, m.sampleItemIndices)
    && |m.blockTables| == |items|
    && (forall i, j :: 0 <= i < |items| && 0 <= j < |items| ==> |m.blockTables[i]| == |m.blockTables[j]|)
    && (forall i :: 0 <= i < |items| ==> Padded(items[i].table, m.blockTables[i]))
  }

  /** The row is the table, then -1. */
  ghost predicate Padded(table: seq<nat>, row: seq<int>) {
    |table| <= |row| && forall k :: 0 <= k < |row| ==> row[k] == if k < |table| then table[k] else -1
  }

  /** build's lists while it goes through the items. */
  datatype Lists = Lists(
    inputIds: seq<Token>,
    positions: seq<nat>,
    queryStartLocs: seq<nat>,
    contextLens: seq<nat>,
    slotMapping: seq<nat>,
    blockTables: seq<seq<nat>>,
    sampleIndices: seq<nat>,
    sampleItemIndices: seq<nat>)

  ghost predicate ListsOk(lists: Lists, done: seq<ExecuteItem>, bs: nat)
    requires bs > 0
  {
    && Flattened(done, bs, lists.inputIds, lists.positions, lists.slotMapping, lists.queryStartLocs)
    && |lists.queryStartLocs| == |done| + 1
    && |lists.contextLens| == |done| && (forall i :: 0 <= i < |done| ==> lists.contextLens[i] == End(done[i]))
    && |lists.blockTables| == |done| && (forall i :: 0 <= i < |done| ==> lists.blockTables[i] == done[i].table)
    && Samples(done, lists.queryStartLocs, |done|, lists.sampleIndices, lists.sampleItemIndices)
  }

  ghost predicate BuiltBehind(lists: Lists, done: seq<ExecuteItem>, bs: nat, depth: nat)
    requires bs > 0
  {
    if depth == 0 then ListsOk(lists, done, bs) else BuiltBehind(lists, done, bs, depth - 1)
  }

  /** What the lists say about the items done, hidden as NodeSteps.Sound is. */
  ghost predicate Built(lists: Lists, done: seq<ExecuteItem>, bs: nat)
    requires bs > 0
  {
    BuiltBehind(lists, done, bs, |done| + 1)
  }

  lemma {:induction false} BuiltBehindIs(lists: Lists, done: seq<ExecuteItem>, bs: nat, depth: nat)
    requires bs > 0
    ensures BuiltBehind(lists, done, bs, depth) <==> ListsOk(lists, done, bs)
  {
    if depth > 0 {
      BuiltBehindIs(lists, done, bs, depth - 1);
    }
  }

  lemma BuiltIs(lists: Lists, done: seq<ExecuteItem>, bs: nat)
    requires bs > 0
    ensures Built(lists, done, bs) <==> ListsOk(lists, done, bs)
  {
    BuiltBehindIs(lists, done, bs, |done| + 1);
  }

  class BatchBuilder {
    const blockSize: nat

    constructor (blockSize: nat)
      requires blockSize > 0
      ensures this.blockSize == blockSize
    {
      this.blockSize := blockSize;
    }

    /** The slots of one item: its positions looked up in its table. */
    method Slots(it: ExecuteItem) returns (slots: seq<nat>)
      requires blockSize > 0 && End(it) <= Span(|it.table|, blockSize)
      ensures slots == SlotMapping(it.table, blockSize, it.computedTokens, End(it))
    {
      slots := [];
      for position := it.computedTokens to End(it)
        invariant slots == SlotMapping(it.table, blockSize, it.computedTokens, End(it))[..position - it.computedTokens]
      {
        PositionInTable(position, it.table, blockSize);
        var logicalBlock := position / blockSize;
        var blockOffset := position % blockSize;
        var physicalBlock := it.table[logicalBlock];
        SpanIsProduct(physicalBlock, blockSize);
        assert PlaceOf(it.table, blockSize, position) == Place(physicalBlock, blockOffset);
        slots := slots + [physicalBlock * blockSize + blockOffset];
      }
    }

    /** The checks of one item. */
    method Check(it: ExecuteItem) returns (problem: Option<BatchError>)
      ensures problem == ItemError(it, blockSize)
      ensures problem.None? <==>
        && |it.tokens| == it.numNewTokens > 0 && it.blockSize == blockSize
        && it.computedTokens + it.numNewTokens <= Span(|it.table|, blockSize)
    {
      if |it.tokens| == 0 {
        return Some(NoTokens);
      }
      if |it.tokens| != it.numNewTokens {
        return Some(TokenCount);
      }
      if it.blockSize != blockSize {
        return Some(BlockSizeMismatch);
      }
      SpanIsProduct(|it.table|, blockSize);
      if it.computedTokens + |it.tokens| > |it.table| * blockSize {
        return Some(NoCapacity);
      }
      return None;
    }

    /** One iteration of build's loop, for an item that passed its checks. */
    method AddItem(lists: Lists, it: ExecuteItem, ghost done: seq<ExecuteItem>) returns (next: Lists)
      requires blockSize > 0 && ItemError(it, blockSize) == None && Built(lists, done, blockSize)
      ensures Built(next, done + [it], blockSize)
    {
      BuiltIs(lists, done, blockSize);
      var slots := Slots(it);
      var end := |lists.inputIds| + |it.tokens|;
      next := Lists(
        lists.inputIds + it.tokens,
        lists.positions + Range(it.computedTokens, End(it)),
        lists.queryStartLocs + [lists.queryStartLocs[|lists.queryStartLocs| - 1] + |it.tokens|],
        lists.contextLens + [End(it)],
        lists.slotMapping + slots,
        lists.blockTables + [it.table],
        if it.sample then lists.sampleIndices + [end - 1] else lists.sampleIndices,
        if it.sample then lists.sampleItemIndices + [|lists.contextLens|] else lists.sampleItemIndices);
      RowsGrow(done, it, blockSize, lists.inputIds, lists.positions, lists.slotMapping, lists.queryStartLocs, slots);
      SamplesGrow(done, it, lists.queryStartLocs, lists.sampleIndices, lists.sampleItemIndices, end);
      BuiltIs(next, done + [it], blockSize);
    }

    method Build(items: seq<ExecuteItem>) returns (r: Result<BatchMetadata, BatchError>)
      requires blockSize > 0
      ensures r.Ok? <==> ItemsOk(items, blockSize)
      ensures r.Err? ==> exists i :: 0 <= i < |items| && ItemError(items[i], blockSize) == Some(r.error) && ItemsOk(items[..i], blockSize)
      ensures r.Ok? ==> Describes(r.value, items, blockSize)
    {
      var lists := Lists([], [], [0], [], [], [], [], []);
      BuiltIs(lists, items[..0], blockSize);
      for k := 0 to |items|
        invariant Built(lists, items[..k], blockSize)
        invariant ItemsOk(items[..k], blockSize)
      {
        var it := items[k];
        var problem := Check(it);
        if problem.Some? {
          return Err(problem.value);
        }
        assert items[..k + 1] == items[..k] + [it];
        lists := AddItem(lists, it, items[..k]);
      }
      assert items[..|items|] == items;
      r := Finish(lists, items);
    }

    method Finish(lists: Lists, items: seq<ExecuteItem>) returns (r: Result<BatchMetadata, BatchError>)
      requires blockSize > 0 && ItemsOk(items, blockSize) && Built(lists, items, blockSize)
      ensures r.Ok? && Describes(r.value, items, blockSize)
    {
      BuiltIs(lists, items, blockSize);
      var padded := Pad(lists.blockTables);
      r := Ok(BatchMetadata(items, lists.inputIds, lists.positions, lists.queryStartLocs, lists.contextLens, lists.slotMapping,
                            padded, lists.sampleIndices, lists.sampleItemIndices));
    }

    /** All tables padded with -1 to the length of the longest. */
    method Pad(tables: seq<seq<nat>>) returns (padded: seq<seq<int>>)
      ensures |padded| == |tables|
      ensures forall i, j :: 0 <= i < |padded| && 0 <= j < |padded| ==> |padded[i]| == |padded[j]|
      ensures forall i :: 0 <= i < |padded| ==> Padded(tables[i], padded[i])
    {
      var maxBlocks := MaxLength(tables);
      padded := seq(|tables|, i requires 0 <= i < |tables| && |tables[i]| <= maxBlocks => tables[i] + Repeat(-1, maxBlocks - |tables[i]|));
    }
  }

  /** The flat lists and the items so far. */
  ghost predicate Flattened(items: seq<ExecuteItem>, bs: nat, inputIds: seq<Token>, positions: seq<nat>, slotMapping: seq<nat>, starts: seq<nat>)
    requires bs > 0
  {
    && ItemsOk(items, bs)
    && Rows(inputIds, starts, TokenRows(items))
    && Rows(positions, starts, PositionRows(items))
    && Rows(slotMapping, starts, SlotRows(items, bs))
  }

  lemma SamplesGrow(done: seq<ExecuteItem>, it: ExecuteItem, starts: seq<nat>, indices: seq<nat>, owners: seq<nat>, end: nat)
    requires |starts| == |done| + 1 && Samples(done, starts, |done|, indices, owners) && end > 0
    ensures !it.sample ==> Samples(done + [it], starts + [end], |done| + 1, indices, owners)
    ensures it.sample ==> Samples(done + [it], starts + [end], |done| + 1, indices + [end - 1], owners + [|done|])
  {
    var all := done + [it];
    assert forall i :: 0 <= i < |done| ==> all[i] == done[i];
    if it.sample {
      var o := owners + [|done|];
      assert o[|owners|] == |done|;
      forall i | 0 <= i < |done| + 1 && all[i].sample
        ensures i in o
      {
        assert i < |done| ==> i in owners;
      }
    }
  }

  /** One more item adds one row to each flat list. */
  lemma RowsGrow(items: seq<ExecuteItem>, it: ExecuteItem, bs: nat, inputIds: seq<Token>, positions: seq<nat>, slotMapping: seq<nat>,
                 starts: seq<nat>, slots: seq<nat>)
    requires bs > 0 && ItemError(it, bs) == None
    requires Flattened(items, bs, inputIds, positions, slotMapping, starts)
    requires slots == SlotMapping(it.table, bs, it.computedTokens, End(it))
    ensures Flattened(items + [it], bs, inputIds + it.tokens, positions + Range(it.computedTokens, End(it)), slotMapping + slots,
                      starts + [starts[|starts| - 1] + |it.tokens|])
    ensures starts[|starts| - 1] == |inputIds| && |starts| == |items| + 1
  {
    RowAdded(inputIds, starts, TokenRows(items), it.tokens);
    RowAdded(positions, starts, PositionRows(items), Range(it.computedTokens, End(it)));
    RowAdded(slotMapping, starts, SlotRows(items, bs), slots);
    assert TokenRows(items + [it]) == TokenRows(items) + [it.tokens];
    assert PositionRows(items + [it]) == PositionRows(items) + [Range(it.computedTokens, End(it))];
    assert SlotRows(items + [it], bs) == SlotRows(items, bs) + [slots];
  }

  /**
   * What the runner slices for item i of a batch is the item's own: its tokens, its positions, and the
   * slots its table gives those positions; the sampled index is that of its last token.
   */
  lemma SlicesAreOwn(m: BatchMetadata, items: seq<ExecuteItem>, bs: nat, i: nat)
    requires bs > 0 && ItemsOk(items, bs) && Describes(m, items, bs) && i < |items|
    ensures var a, b := m.queryStartLocs[i], m.queryStartLocs[i + 1];
      && a < b <= |m.inputIds| && |m.positions| == |m.slotMapping| == |m.inputIds|
      && m.inputIds[a..b] == items[i].tokens
      && m.positions[a..b] == Range(items[i].computedTokens, End(items[i]))
      && m.slotMapping[a..b] == SlotMapping(items[i].table, bs, items[i].computedTokens, End(items[i]))
      && (items[i].sample <==> i in m.sampleItemIndices)
      && (items[i].sample ==> b - 1 in m.sampleIndices)
  {
    assert ItemError(items[i], bs) == None;
    assert RowAt(m.inputIds, m.queryStartLocs, TokenRows(items), i);
    assert RowAt(m.positions, m.queryStartLocs, PositionRows(items), i);
    assert RowAt(m.slotMapping, m.queryStartLocs, SlotRows(items, bs), i);
    if items[i].sample {
      var j :| 0 <= j < |m.sampleItemIndices| && m.sampleItemIndices[j] == i;
      assert m.sampleIndices[j] == m.queryStartLocs[i + 1] - 1;
    }
  }
}

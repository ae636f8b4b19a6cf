/** What the operations of one layer of the paged cache do, and why a paged cache is a dense sequence. */
module CacheSpec {
  import opened Spans
  import opened Wrappers
  import opened Sequences
  import opened Pages

  datatype CacheError =
    | InvalidDimensions
    | InvalidLayer
    | InvalidSlot
    | DuplicateSlots
    | KeyShape
    | ValueShape
    | NegativeLength
    | TableTooShort
    | NotWritten
    | NoBlocks
    | InvalidBlock
    | DuplicateBlocks
    | NotFullyWritten
    | NotEmpty
    | PayloadShape
    | DeviceFailed

  // ---------------------------------------------------------------- slots

  /** A slot as block and offset. */
  datatype Place = Place(block: nat, offset: nat)

  /** The flat slot of a place: block times block size plus offset (see SpanIsProduct). */
  function Flat(at: Place, bs: nat): nat {
    Span(at.block, bs) + at.offset
  }

  function Unflat(slot: nat, bs: nat): Place
    requires bs > 0
  {
    Place(slot / bs, slot % bs)
  }

  lemma UnflatFlat(at: Place, bs: nat)
    requires at.offset < bs
    ensures Unflat(Flat(at, bs), bs) == at
  {
    QuotientOfSpan(Flat(at, bs), bs, at.block);
  }

  /** The places of a layer of n blocks. */
  ghost predicate Inside(places: seq<Place>, n: nat, bs: nat) {
    forall k :: 0 <= k < |places| ==> places[k].block < n && places[k].offset < bs
  }

  lemma FlatInside(at: Place, n: nat, bs: nat)
    requires at.offset < bs
    ensures at.block < n <==> Flat(at, bs) < Span(n, bs)
  {
    if at.block < n {
      SpanMonotone(at.block + 1, n, bs);
    } else {
      SpanMonotone(n, at.block, bs);
    }
  }

  /** Where the table puts position p. */
  function PlaceOf(table: seq<nat>, bs: nat, p: nat): (at: Place)
    requires bs > 0 && p < Span(|table|, bs)
    ensures at.offset < bs
  {
    PositionInTable(p, table, bs);
    Place(table[p / bs], p % bs)
  }

  /** The places of positions from..upTo, in order. */
  function Places(table: seq<nat>, bs: nat, from: nat, upTo: nat): (places: seq<Place>)
    requires bs > 0 && from <= upTo <= Span(|table|, bs)
    ensures |places| == upTo - from
    ensures forall k :: 0 <= k < |places| ==> places[k] == PlaceOf(table, bs, from + k)
  {
    seq(upTo - from, k requires 0 <= k < upTo - from => PlaceOf(table, bs, from + k))
  }

  function Flats(places: seq<Place>, bs: nat): (slots: seq<nat>)
    ensures |slots| == |places| && forall k :: 0 <= k < |slots| ==> slots[k] == Flat(places[k], bs)
  {
    seq(|places|, k requires 0 <= k < |places| => Flat(places[k], bs))
  }

  /** The slot mapping of a chunk. */
  function SlotMapping(table: seq<nat>, bs: nat, from: nat, upTo: nat): seq<nat>
    requires bs > 0 && from <= upTo <= Span(|table|, bs)
  {
    Flats(Places(table, bs, from, upTo), bs)
  }

  /** Different positions have different slots when the blocks written to occur once in the table. */
  lemma SlotsApart(table: seq<nat>, bs: nat, from: nat, p: nat, q: nat)
    requires bs > 0 && from <= p < Span(|table|, bs) && q < Span(|table|, bs) && p != q && Apart(table, bs, from)
    ensures Flat(PlaceOf(table, bs, p), bs) != Flat(PlaceOf(table, bs, q), bs)
  {
    PositionInTable(p, table, bs);
    PositionInTable(q, table, bs);
    assert Touched(bs, from, p / bs);
    UnflatFlat(PlaceOf(table, bs, p), bs);
    UnflatFlat(PlaceOf(table, bs, q), bs);
  }

  lemma MappingDistinct(table: seq<nat>, bs: nat, from: nat, upTo: nat)
    requires bs > 0 && from <= upTo <= Span(|table|, bs) && Apart(table, bs, from)
    ensures var slots := SlotMapping(table, bs, from, upTo);
      forall j, k :: 0 <= j < k < |slots| ==> slots[j] != slots[k]
  {
    var slots := SlotMapping(table, bs, from, upTo);
    forall j, k | 0 <= j < k < |slots|
      ensures slots[j] != slots[k]
    {
      SlotsApart(table, bs, from, from + j, from + k);
    }
  }

  lemma PlacesInside(table: seq<nat>, bs: nat, from: nat, upTo: nat, n: nat)
    requires bs > 0 && from <= upTo <= Span(|table|, bs) && forall i :: 0 <= i < |table| ==> table[i] < n
    ensures Inside(Places(table, bs, from, upTo), n, bs)
  {
    var places := Places(table, bs, from, upTo);
    forall k | 0 <= k < |places|
      ensures places[k].block < n
    {
      PositionInTable(from + k, table, bs);
    }
  }

  // ---------------------------------------------------------------- write

  /** kvs[k] at places[k], for every k. */
  ghost function WrittenPlaces<T>(layer: Paged<T>, bs: nat, places: seq<Place>, kvs: seq<T>): (next: Paged<T>)
    requires Shaped(layer, bs) && |places| == |kvs| && Inside(places, |layer|, bs)
    ensures |next| == |layer| && Shaped(next, bs)
    decreases |places|
  {
    if places == [] then layer
    else
      var k := |places| - 1;
      SetSlot(WrittenPlaces(layer, bs, places[..k], kvs[..k]), places[k].block, places[k].offset, Full(kvs[k]))
  }

  lemma WriteOneMore<T>(layer: Paged<T>, bs: nat, places: seq<Place>, kvs: seq<T>, at: Place, kv: T)
    requires Shaped(layer, bs) && |places| == |kvs| && Inside(places, |layer|, bs) && at.block < |layer| && at.offset < bs
    ensures Inside(places + [at], |layer|, bs)
    ensures WrittenPlaces(layer, bs, places + [at], kvs + [kv]) == SetSlot(WrittenPlaces(layer, bs, places, kvs), at.block, at.offset, Full(kv))
  {
    assert (places + [at])[..|places|] == places && (kvs + [kv])[..|places|] == kvs;
  }

  lemma PlacesOneMore(table: seq<nat>, bs: nat, from: nat, upTo: nat)
    requires bs > 0 && from < upTo <= Span(|table|, bs)
    ensures Places(table, bs, from, upTo) == Places(table, bs, from, upTo - 1) + [PlaceOf(table, bs, upTo - 1)]
  {
  }

  lemma WrittenOneMore<T>(layer: Paged<T>, table: seq<nat>, bs: nat, kvs: seq<T>, from: nat, upTo: nat) returns (at: Place)
    requires bs > 0 && Shaped(layer, bs) && from < upTo <= |kvs| && upTo <= Span(|table|, bs)
    requires forall i :: 0 <= i < |table| ==> table[i] < |layer|
    ensures at == PlaceOf(table, bs, upTo - 1) && at.block < |layer| && at.offset < bs
    ensures Written(layer, table, bs, kvs, from, upTo) ==
      SetSlot(Written(layer, table, bs, kvs, from, upTo - 1), at.block, at.offset, Full(kvs[upTo - 1]))
  {
    PositionInTable(upTo - 1, table, bs);
    at := PlaceOf(table, bs, upTo - 1);
  }

  /** Writing a chunk through its places writes each position where the table puts it. */
  lemma {:induction false} PlacesWrite<T>(layer: Paged<T>, table: seq<nat>, bs: nat, kvs: seq<T>, from: nat, upTo: nat)
      returns (places: seq<Place>, chunk: seq<T>)
    requires bs > 0 && Shaped(layer, bs) && from <= upTo <= |kvs| && upTo <= Span(|table|, bs)
    requires forall i :: 0 <= i < |table| ==> table[i] < |layer|
    ensures places == Places(table, bs, from, upTo) && chunk == kvs[from..upTo] && Inside(places, |layer|, bs)
    ensures WrittenPlaces(layer, bs, places, chunk) == Written(layer, table, bs, kvs, from, upTo)
    decreases upTo
  {
    if from == upTo {
      places, chunk := [], [];
    } else {
      places, chunk := PlacesWrite(layer, table, bs, kvs, from, upTo - 1);
      PlacesOneMore(table, bs, from, upTo);
      var at := WrittenOneMore(layer, table, bs, kvs, from, upTo);
      WriteOneMore(layer, bs, places, chunk, at, kvs[upTo - 1]);
      places, chunk := places + [at], chunk + [kvs[upTo - 1]];
      assert chunk == kvs[from..upTo];
    }
  }

  // ---------------------------------------------------------------- gather

  /** Block ids without the padding. */
  function Nats(table: seq<int>): (r: seq<nat>)
    requires forall i :: 0 <= i < |table| ==> table[i] >= 0
    ensures |r| == |table| && forall i :: 0 <= i < |r| ==> r[i] == table[i]
  {
    seq(|table|, i requires 0 <= i < |table| => table[i] as nat)
  }

  function Required(n: nat, bs: nat): nat
    requires bs > 0
  {
    (n + bs - 1) / bs
  }

  predicate BlocksExist(ids: seq<int>, n: nat) {
    forall i :: 0 <= i < |ids| ==> 0 <= ids[i] < n
  }

  /** gather, for one layer. */
  ghost function GatherResult<T>(layer: Paged<T>, bs: nat, table: seq<int>, n: int): Result<seq<T>, CacheError>
    requires bs > 0
  {
    if n < 0 then Err(NegativeLength)
    else if n == 0 then Ok([])
    else if |table| < Required(n, bs) then Err(TableTooShort)
    else if !BlocksExist(table[..Required(n, bs)], |layer|) then Err(InvalidBlock)
    else
      var kvs := Gathered(layer, Nats(table[..Required(n, bs)]), bs, n);
      if kvs.Some? then Ok(kvs.value) else Err(NotWritten)
  }

  // ---------------------------------------------------------------- runs of chunks

  /** One step of a request's life in the cache: its next chunk, or writes and releases of others. */
  datatype CacheStep<T> = Chunk(table: seq<nat>, kvs: seq<T>) | Others(next: Paged<T>)

  /** The layer, the request's table, and what it has stored so far. */
  datatype CacheRun<T> = CacheRun(layer: Paged<T>, table: seq<nat>, stored: seq<T>)

  /** A chunk continues where the last one ended, in a table that may have grown; others keep off the table's blocks. */
  ghost predicate MayFollow<T>(r: CacheRun<T>, bs: nat, step: CacheStep<T>) {
    match step
    case Chunk(table, kvs) =>
      && r.table <= table && |r.stored| + |kvs| <= Span(|table|, bs)
      && (forall i :: 0 <= i < |table| ==> table[i] < |r.layer|)
      && Apart(table, bs, |r.stored|)
    case Others(next) =>
      |next| == |r.layer| && Shaped(next, bs) && forall i :: 0 <= i < |r.table| && r.table[i] < |next| ==> next[r.table[i]] == r.layer[r.table[i]]
  }

  ghost predicate RunOk<T>(r: CacheRun<T>, bs: nat) {
    bs > 0 && Shaped(r.layer, bs) && Dense(r.layer, r.table, bs, r.stored, |r.stored|)
  }

  ghost function Followed<T>(r: CacheRun<T>, bs: nat, step: CacheStep<T>): CacheRun<T>
    requires RunOk(r, bs) && MayFollow(r, bs, step)
  {
    match step
    case Chunk(table, kvs) =>
      PlacesInside(table, bs, |r.stored|, |r.stored| + |kvs|, |r.layer|);
      CacheRun(WrittenPlaces(r.layer, bs, Places(table, bs, |r.stored|, |r.stored| + |kvs|), kvs), table, r.stored + kvs)
    case Others(next) => r.(layer := next)
  }

  /** A dense prefix stays dense in a table that has grown, as the start of longer contents. */
  lemma GrownDense<T>(layer: Paged<T>, table: seq<nat>, grown: seq<nat>, bs: nat, stored: seq<T>, all: seq<T>)
    requires Dense(layer, table, bs, stored, |stored|) && table <= grown && stored <= all
    ensures Dense(layer, grown, bs, all, |stored|)
  {
    assert stored[..|stored|] == all[..|stored|] && table[..|table|] == grown[..|table|];
    DenseTable(layer, table, grown, |table|, bs, stored, all, |stored|);
  }

  lemma ChunkWrites<T>(layer: Paged<T>, table: seq<nat>, bs: nat, stored: seq<T>, kvs: seq<T>) returns (next: Paged<T>)
    requires bs > 0 && Shaped(layer, bs) && |stored| + |kvs| <= Span(|table|, bs)
    requires forall i :: 0 <= i < |table| ==> table[i] < |layer|
    ensures Inside(Places(table, bs, |stored|, |stored| + |kvs|), |layer|, bs)
    ensures next == WrittenPlaces(layer, bs, Places(table, bs, |stored|, |stored| + |kvs|), kvs)
    ensures next == Written(layer, table, bs, stored + kvs, |stored|, |stored| + |kvs|)
  {
    var n := |stored| + |kvs|;
    var places, chunk := PlacesWrite(layer, table, bs, stored + kvs, |stored|, n);
    assert chunk == kvs;
    next := WrittenPlaces(layer, bs, places, chunk);
  }

  /** A chunk written after the dense prefix extends it, in a table that may have grown. */
  lemma ChunkExtends<T>(layer: Paged<T>, table: seq<nat>, grown: seq<nat>, bs: nat, stored: seq<T>, kvs: seq<T>) returns (next: Paged<T>)
    requires bs > 0 && Shaped(layer, bs) && Dense(layer, table, bs, stored, |stored|)
    requires table <= grown && |stored| + |kvs| <= Span(|grown|, bs) && Apart(grown, bs, |stored|)
    requires forall i :: 0 <= i < |grown| ==> grown[i] < |layer|
    ensures Inside(Places(grown, bs, |stored|, |stored| + |kvs|), |layer|, bs)
    ensures next == WrittenPlaces(layer, bs, Places(grown, bs, |stored|, |stored| + |kvs|), kvs)
    ensures Dense(next, grown, bs, stored + kvs, |stored + kvs|)
  {
    var all := stored + kvs;
    var n := |all|;
    GrownDense(layer, table, grown, bs, stored, all);
    WrittenIsDense(layer, grown, bs, all, |stored|, n);
    next := ChunkWrites(layer, grown, bs, stored, kvs);
  }

  lemma OthersKeep<T>(r: CacheRun<T>, bs: nat, next: Paged<T>)
    requires RunOk(r, bs) && MayFollow(r, bs, Others(next))
    ensures Dense(next, r.table, bs, r.stored, |r.stored|)
  {
    forall i, o | 0 <= i < |r.table| && 0 <= o < bs && Span(i, bs) + o < |r.stored|
      ensures HeldAt(next, r.table, bs, r.stored, i, o)
    {
      assert HeldAt(r.layer, r.table, bs, r.stored, i, o);
    }
  }

  lemma FollowedOk<T>(r: CacheRun<T>, bs: nat, step: CacheStep<T>)
    requires RunOk(r, bs) && MayFollow(r, bs, step)
    ensures RunOk(Followed(r, bs, step), bs)
  {
    match step
    case Chunk(table, kvs) => var _ := ChunkExtends(r.layer, r.table, table, bs, r.stored, kvs);
    case Others(next) => OthersKeep(r, bs, next);
  }

  ghost predicate LegalRun<T>(r: CacheRun<T>, bs: nat, steps: seq<CacheStep<T>>)
    requires RunOk(r, bs)
    decreases |steps|
  {
    steps == [] || (MayFollow(r, bs, steps[0]) && (FollowedOk(r, bs, steps[0]); LegalRun(Followed(r, bs, steps[0]), bs, steps[1..])))
  }

  ghost function AfterRun<T>(r: CacheRun<T>, bs: nat, steps: seq<CacheStep<T>>): (end: CacheRun<T>)
    requires RunOk(r, bs) && LegalRun(r, bs, steps)
    ensures RunOk(end, bs)
    decreases |steps|
  {
    if steps == [] then r
    else
      FollowedOk(r, bs, steps[0]);
      AfterRun(Followed(r, bs, steps[0]), bs, steps[1..])
  }

  /** Everything a request has been given to store, in order. */
  function Stored<T>(steps: seq<CacheStep<T>>): seq<T> {
    if steps == [] then []
    else Given(steps[0]) + Stored(steps[1..])
  }

  function Given<T>(step: CacheStep<T>): seq<T> {
    match step
    case Chunk(_, kvs) => kvs
    case Others(_) => []
  }

  lemma FollowedStores<T>(r: CacheRun<T>, bs: nat, step: CacheStep<T>) returns (next: CacheRun<T>)
    requires RunOk(r, bs) && MayFollow(r, bs, step)
    ensures next == Followed(r, bs, step) && RunOk(next, bs) && next.stored == r.stored + Given(step)
  {
    FollowedOk(r, bs, step);
    next := Followed(r, bs, step);
  }

  lemma StoredThen<T>(stored: seq<T>, given: seq<T>, rest: seq<T>)
    ensures stored + given + rest == stored + (given + rest)
  {
  }

  lemma {:induction false} RunStores<T>(r: CacheRun<T>, bs: nat, steps: seq<CacheStep<T>>) returns (end: CacheRun<T>)
    requires RunOk(r, bs) && LegalRun(r, bs, steps)
    ensures end == AfterRun(r, bs, steps) && end.stored == r.stored + Stored(steps)
    decreases |steps|
  {
    if steps == [] {
      end := r;
    } else {
      var next := FollowedStores(r, bs, steps[0]);
      end := RunStores(next, bs, steps[1..]);
      StoredThen(r.stored, Given(steps[0]), Stored(steps[1..]));
    }
  }

  /**
   * The paged cache refines a dense sequence: after any run of chunks, for any block order and block
   * size and whatever others do in between, gather returns exactly what was stored, in order.
   */
  lemma GatherIsStored<T>(layer: Paged<T>, bs: nat, steps: seq<CacheStep<T>>)
    requires bs > 0 && Shaped(layer, bs) && LegalRun(CacheRun(layer, [], []), bs, steps)
    ensures var end := AfterRun(CacheRun(layer, [], []), bs, steps);
      Gathered(end.layer, end.table, bs, |Stored(steps)|) == Some(Stored(steps))
  {
    var end := RunStores(CacheRun(layer, [], []), bs, steps);
    assert [] + Stored(steps) == Stored(steps);
    GatheredIsDense(end.layer, end.table, bs, end.stored, |end.stored|);
    assert end.stored[..|end.stored|] == end.stored;
  }

  // ---------------------------------------------------------------- export, then import

  lemma GatherOneMore<T>(a: Paged<T>, aTable: seq<nat>, b: Paged<T>, bTable: seq<nat>, bs: nat, n: nat)
    requires bs > 0 && n > 0 && Gathered(a, aTable, bs, n - 1).Some? && Gathered(b, bTable, bs, n - 1) == Gathered(a, aTable, bs, n - 1)
    requires (n - 1) / bs < |aTable| && (n - 1) / bs < |bTable| && aTable[(n - 1) / bs] < |a| && bTable[(n - 1) / bs] < |b|
    requires a[aTable[(n - 1) / bs]] == b[bTable[(n - 1) / bs]]
    requires AllFull(a[aTable[(n - 1) / bs]]) && (n - 1) % bs < |a[aTable[(n - 1) / bs]]|
    ensures Gathered(a, aTable, bs, n).Some? && Gathered(b, bTable, bs, n) == Gathered(a, aTable, bs, n)
  {
  }

  lemma {:induction false} SamePagesSamePositions<T>(a: Paged<T>, aTable: seq<nat>, b: Paged<T>, bTable: seq<nat>, k: nat, bs: nat, n: nat)
    requires bs > 0 && k <= |aTable| && k <= |bTable| && n <= Span(k, bs)
    requires forall i :: 0 <= i < k ==>
      aTable[i] < |a| && bTable[i] < |b| && a[aTable[i]] == b[bTable[i]] && AllFull(a[aTable[i]]) && |a[aTable[i]]| == bs
    ensures Gathered(a, aTable, bs, n).Some? && Gathered(b, bTable, bs, n) == Gathered(a, aTable, bs, n)
    decreases n
  {
    if n > 0 {
      SamePagesSamePositions(a, aTable, b, bTable, k, bs, n - 1);
      PositionInTable(n - 1, aTable[..k], bs);
      GatherOneMore(a, aTable, b, bTable, bs, n);
    }
  }

  /**
   * Exporting the leading blocks of one table and importing them into empty blocks under another copies
   * positions: both tables read the same. Every other block of the destination stays as it is.
   */
  lemma CopyKeepsPositions<T>(src: Paged<T>, srcTable: seq<nat>, dst: Paged<T>, dstTable: seq<nat>, k: nat, bs: nat, n: nat)
    requires bs > 0 && Shaped(src, bs) && Shaped(dst, bs) && k <= |srcTable| && k <= |dstTable| && n <= Span(k, bs)
    requires CanExport(src, srcTable[..k]) && CanImportInto(dst, bs, dstTable[..k], Exported(src, srcTable[..k]))
    ensures var copy := ImportedPages(dst, dstTable[..k], Exported(src, srcTable[..k]));
      && Gathered(src, srcTable, bs, n).Some?
      && Gathered(copy, dstTable, bs, n) == Gathered(src, srcTable, bs, n)
      && (forall b :: 0 <= b < |dst| && b !in dstTable[..k] ==> copy[b] == dst[b])
  {
    var copy := ImportedPages(dst, dstTable[..k], Exported(src, srcTable[..k]));
    forall i | 0 <= i < k
      ensures srcTable[i] < |src| && dstTable[i] < |copy| && copy[dstTable[i]] == src[srcTable[i]]
      ensures AllFull(src[srcTable[i]]) && |src[srcTable[i]]| == bs
    {
      assert srcTable[..k][i] == srcTable[i] && dstTable[..k][i] == dstTable[i];
      CopiedBlock(src, srcTable[..k], dst, dstTable[..k], bs, i);
    }
    SamePagesSamePositions(src, srcTable, copy, dstTable, k, bs, n);
  }

  lemma CopiedBlock<T>(src: Paged<T>, srcIds: seq<nat>, dst: Paged<T>, dstIds: seq<nat>, bs: nat, i: nat)
    requires Shaped(src, bs) && Shaped(dst, bs) && CanExport(src, srcIds) && CanImportInto(dst, bs, dstIds, Exported(src, srcIds))
    requires i < |srcIds|
    ensures srcIds[i] < |src| && dstIds[i] < |dst| && AllFull(src[srcIds[i]]) && |src[srcIds[i]]| == bs
    ensures ImportedPages(dst, dstIds, Exported(src, srcIds))[dstIds[i]] == src[srcIds[i]]
  {
    ImportedPageAt(dst, dstIds, Exported(src, srcIds), i);
  }
}

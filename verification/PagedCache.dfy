/** The executor's paged K/V cache: tensors over layer, block and offset, updated in place. */
module PagedCache {
  import opened Spans
  import opened Wrappers
  import opened Sequences
  import opened Pages
  import opened CacheSpec

  /** The flat slots of a write, split into block and offset. */
  function Unflats(slots: seq<int>, bs: nat): (places: seq<Place>)
    requires bs > 0 && forall k :: 0 <= k < |slots| ==> slots[k] >= 0
    ensures |places| == |slots| && forall k :: 0 <= k < |slots| ==> places[k] == Unflat(slots[k], bs)
  {
    seq(|slots|, k requires 0 <= k < |slots| => Unflat(slots[k], bs))
  }

  predicate SlotsExist(slots: seq<int>, capacity: nat) {
    forall k :: 0 <= k < |slots| ==> 0 <= slots[k] < capacity
  }

  lemma UnflatsInside(slots: seq<int>, n: nat, bs: nat)
    requires bs > 0 && SlotsExist(slots, Span(n, bs))
    ensures Inside(Unflats(slots, bs), n, bs)
  {
    forall k | 0 <= k < |slots|
      ensures slots[k] / bs < n && slots[k] % bs < bs
    {
      SpanOfQuotient(slots[k], bs);
      FlatInside(Unflat(slots[k], bs), n, bs);
    }
  }

  /** The slot mapping of a chunk splits into the places of its positions. */
  lemma UnflatMapping(table: seq<nat>, bs: nat, from: nat, upTo: nat)
    requires bs > 0 && from <= upTo <= Span(|table|, bs)
    ensures Unflats(SlotMapping(table, bs, from, upTo), bs) == Places(table, bs, from, upTo)
  {
    var places := Places(table, bs, from, upTo);
    forall k | 0 <= k < |places|
      ensures Unflat(Flat(places[k], bs), bs) == places[k]
    {
      UnflatFlat(places[k], bs);
    }
  }

  function Pairs<V>(keys: seq<V>, values: seq<V>): (kvs: seq<(V, V)>)
    requires |keys| == |values|
    ensures |kvs| == |keys| && forall k :: 0 <= k < |kvs| ==> kvs[k] == (keys[k], values[k])
  {
    seq(|keys|, k requires 0 <= k < |keys| => (keys[k], values[k]))
  }

  lemma PairsMore<V>(keys: seq<V>, values: seq<V>, kv: (V, V))
    requires |keys| == |values|
    ensures Pairs(keys + [kv.0], values + [kv.1]) == Pairs(keys, values) + [kv]
  {
  }

  /** K or V of some blocks, by layer, block and offset. */
  type Tensor<V> = seq<seq<seq<V>>>

  predicate TensorShape<V>(t: Tensor<V>, layers: nat, blocks: nat, bs: nat) {
    && |t| == layers
    && (forall l :: 0 <= l < layers ==> |t[l]| == blocks)
    && (forall l, b :: 0 <= l < layers && 0 <= b < blocks ==> |t[l][b]| == bs)
  }

  /** The payload of one layer. */
  function LayerPairs<V>(keys: Tensor<V>, values: Tensor<V>, l: nat, n: nat, bs: nat): (payload: seq<seq<(V, V)>>)
    requires l < |keys| && TensorShape(keys, |keys|, n, bs) && TensorShape(values, |keys|, n, bs)
    ensures |payload| == n
  {
    seq(n, i requires 0 <= i < n => Pairs(keys[l][i], values[l][i]))
  }

  /**
   * What a device fault does to the three copies of an import: wherever they stop, the named blocks are left
   * with some keys, values and valid bits, given by layer, block and offset.
   */
  datatype Fault<!V> = NoFault | Stops(left: (nat, nat, nat) -> (V, V, bool))

  /** V stands for one layer's key (or value) vectors of one token, over all heads. */
  class PagedKVCache<V(0)> {
    const numLayers: nat
    const numBlocks: nat
    const blockSize: nat
    const keyCache: array3<V>
    const valueCache: array3<V>
    const validSlots: array3<bool>

    predicate Dimensions<W>(a: array3<W>) {
      a.Length0 == numLayers && a.Length1 == numBlocks && a.Length2 == blockSize
    }

    predicate Valid() {
      && numLayers > 0 && numBlocks > 0 && blockSize > 0
      && Dimensions(keyCache) && Dimensions(valueCache) && Dimensions(validSlots)
      && keyCache != valueCache && keyCache as object != validSlots && valueCache as object != validSlots
    }

    ghost function SlotAt(l: nat, b: nat, o: nat): Slot<(V, V)>
      requires Valid() && l < numLayers && b < numBlocks && o < blockSize
      reads keyCache, valueCache, validSlots
    {
      if validSlots[l, b, o] then Full((keyCache[l, b, o], valueCache[l, b, o])) else Empty
    }

    ghost function Page(l: nat, b: nat): (page: seq<Slot<(V, V)>>)
      requires Valid() && l < numLayers && b < numBlocks
      reads keyCache, valueCache, validSlots
      ensures |page| == blockSize && forall o :: 0 <= o < blockSize ==> page[o] == SlotAt(l, b, o)
    {
      seq(blockSize, o requires 0 <= o < blockSize reads keyCache, valueCache, validSlots => SlotAt(l, b, o))
    }

    /** What a reader can see of a layer: the contents of its valid slots. */
    ghost function Layer(l: nat): (layer: Paged<(V, V)>)
      requires Valid() && l < numLayers
      reads keyCache, valueCache, validSlots
      ensures |layer| == numBlocks && Shaped(layer, blockSize)
      ensures forall b :: 0 <= b < numBlocks ==> layer[b] == Page(l, b)
    {
      seq(numBlocks, b requires 0 <= b < numBlocks reads keyCache, valueCache, validSlots => Page(l, b))
    }

    /** All layers. */
    ghost function View(): (view: seq<Paged<(V, V)>>)
      requires Valid()
      reads keyCache, valueCache, validSlots
      ensures |view| == numLayers && forall l :: 0 <= l < numLayers ==> view[l] == Layer(l)
    {
      seq(numLayers, l requires 0 <= l < numLayers reads keyCache, valueCache, validSlots => Layer(l))
    }

    constructor (numLayers: nat, numBlocks: nat, blockSize: nat)
      requires numLayers > 0 && numBlocks > 0 && blockSize > 0
      ensures Valid() && fresh(keyCache) && fresh(valueCache) && fresh(validSlots)
      ensures this.numLayers == numLayers && this.numBlocks == numBlocks && this.blockSize == blockSize
      ensures forall l, b :: 0 <= l < numLayers && 0 <= b < numBlocks ==> AllEmpty(Layer(l)[b])
    {
      this.numLayers, this.numBlocks, this.blockSize := numLayers, numBlocks, blockSize;
      keyCache := new V[numLayers, numBlocks, blockSize];
      valueCache := new V[numLayers, numBlocks, blockSize];
      validSlots := new bool[numLayers, numBlocks, blockSize]((l, b, o) => false);
    }

    /** How write checks its arguments, in order. */
    predicate CanWrite(layer: int, slots: seq<int>, keys: seq<V>, values: seq<V>) {
      && 0 <= layer < numLayers && SlotsExist(slots, Span(numBlocks, blockSize)) && Distinct<int>(slots)
      && |keys| == |slots| && |values| == |slots|
    }

    method Write(layer: int, slots: seq<int>, keys: seq<V>, values: seq<V>) returns (r: Result<(), CacheError>)
      requires Valid()
      modifies keyCache, valueCache, validSlots
      ensures r.Ok? <==> CanWrite(layer, slots, keys, values)
      ensures r.Err? ==> forall l :: 0 <= l < numLayers ==> Layer(l) == old(Layer(l))
      ensures r.Ok? ==>
        Inside(Unflats(slots, blockSize), numBlocks, blockSize) &&
        Layer(layer) == WrittenPlaces(old(Layer(layer)), blockSize, Unflats(slots, blockSize), Pairs(keys, values))
      ensures r.Ok? ==> forall l :: 0 <= l < numLayers && l != layer ==> Layer(l) == old(Layer(l))
    {
      if !(0 <= layer < numLayers) {
        return Err(InvalidLayer);
      }
      SpanIsProduct(numBlocks, blockSize);
      if !SlotsExist(slots, numBlocks * blockSize) {
        return Err(InvalidSlot);
      }
      if !Distinct<int>(slots) {
        return Err(DuplicateSlots);
      }
      if |keys| != |slots| {
        return Err(KeyShape);
      }
      if |values| != |slots| {
        return Err(ValueShape);
      }
      UnflatsInside(slots, numBlocks, blockSize);
      CopyIn(layer, slots, keys, values);
      return Ok(());
    }

    method CopyIn(layer: nat, slots: seq<int>, keys: seq<V>, values: seq<V>)
      requires Valid() && layer < numLayers && |keys| == |values| == |slots|
      requires (forall k :: 0 <= k < |slots| ==> slots[k] >= 0) && Inside(Unflats(slots, blockSize), numBlocks, blockSize)
      modifies keyCache, valueCache, validSlots
      ensures Layer(layer) == WrittenPlaces(old(Layer(layer)), blockSize, Unflats(slots, blockSize), Pairs(keys, values))
      ensures forall l :: 0 <= l < numLayers && l != layer ==> Layer(l) == old(Layer(l))
    {
      ghost var before := Layer(layer);
      ghost var places: seq<Place>, kvs: seq<(V, V)> := [], [];
      for i := 0 to |slots|
        invariant |places| == |kvs| == i && Inside(places, numBlocks, blockSize)
        invariant places == Unflats(slots, blockSize)[..i] && kvs == Pairs(keys, values)[..i]
        invariant Layer(layer) == WrittenPlaces(before, blockSize, places, kvs)
        invariant forall l :: 0 <= l < numLayers && l != layer ==> Layer(l) == old(Layer(l))
      {
        ghost var at := Unflats(slots, blockSize)[i];
        WriteOneMore(before, blockSize, places, kvs, at, (keys[i], values[i]));
        places, kvs := places + [at], kvs + [(keys[i], values[i])];
        SetOne(layer, slots[i] / blockSize, slots[i] % blockSize, keys[i], values[i]);
      }
      assert places == Unflats(slots, blockSize) && kvs == Pairs(keys, values);
    }

    /** The view, slot by slot. */
    lemma ViewSlots()
      requires Valid()
      ensures forall l, b, o :: 0 <= l < numLayers && 0 <= b < numBlocks && 0 <= o < blockSize ==> View()[l][b][o] == SlotAt(l, b, o)
    {
      forall l, b, o | 0 <= l < numLayers && 0 <= b < numBlocks && 0 <= o < blockSize
        ensures View()[l][b][o] == SlotAt(l, b, o)
      {
        assert View()[l] == Layer(l) && Layer(l)[b] == Page(l, b);
      }
    }

    /** A layer is determined by its slots. */
    lemma LayerIs(l: nat, layer: Paged<(V, V)>)
      requires Valid() && l < numLayers && |layer| == numBlocks && Shaped(layer, blockSize)
      requires forall b, o :: 0 <= b < numBlocks && 0 <= o < blockSize ==> SlotAt(l, b, o) == layer[b][o]
      ensures Layer(l) == layer
    {
      forall b | 0 <= b < numBlocks
        ensures Page(l, b) == layer[b]
      {
      }
    }

    /** index_copy_ into both tensors and the valid bit, for one slot. */
    method SetOne(l: nat, b: nat, o: nat, key: V, value: V)
      requires Valid() && l < numLayers && b < numBlocks && o < blockSize
      modifies keyCache, valueCache, validSlots
      ensures Layer(l) == SetSlot(old(Layer(l)), b, o, Full((key, value)))
      ensures forall k :: 0 <= k < numLayers && k != l ==> Layer(k) == old(Layer(k))
    {
      ghost var before := View();
      ViewSlots();
      keyCache[l, b, o] := key;
      valueCache[l, b, o] := value;
      validSlots[l, b, o] := true;
      forall k | 0 <= k < numLayers
        ensures Layer(k) == if k == l then SetSlot(before[l], b, o, Full((key, value))) else before[k]
      {
        LayerIs(k, if k == l then SetSlot(before[l], b, o, Full((key, value))) else before[k]);
      }
    }

    method Gather(layer: int, table: seq<int>, n: int) returns (r: Result<(seq<V>, seq<V>), CacheError>)
      requires Valid()
      ensures !(0 <= layer < numLayers) ==> r == Err(InvalidLayer)
      ensures 0 <= layer < numLayers ==> r.Ok? == GatherResult(Layer(layer), blockSize, table, n).Ok?
      ensures 0 <= layer < numLayers && r.Err? ==> GatherResult(Layer(layer), blockSize, table, n) == Err(r.error)
      ensures 0 <= layer < numLayers && r.Ok? ==>
        |r.value.0| == |r.value.1| &&
        GatherResult(Layer(layer), blockSize, table, n) == Ok(Pairs(r.value.0, r.value.1))
    {
      if !(0 <= layer < numLayers) {
        return Err(InvalidLayer);
      }
      if n < 0 {
        return Err(NegativeLength);
      }
      if n == 0 {
        assert Pairs<V>([], []) == [];
        return Ok(([], []));
      }
      var required := (n + blockSize - 1) / blockSize;
      if |table| < required {
        return Err(TableTooShort);
      }
      if !BlocksExist(table[..required], numBlocks) {
        return Err(InvalidBlock);
      }
      SpanOfQuotient(n + blockSize - 1, blockSize);
      r := Select(layer, table[..required], n);
    }

    /** The indexed reads of gather. */
    method Select(layer: nat, table: seq<int>, n: nat) returns (r: Result<(seq<V>, seq<V>), CacheError>)
      requires Valid() && layer < numLayers && BlocksExist(table, numBlocks) && n <= Span(|table|, blockSize)
      ensures r.Err? ==> r.error == NotWritten && Gathered(Layer(layer), Nats(table), blockSize, n).None?
      ensures r.Ok? ==> |r.value.0| == |r.value.1| && Gathered(Layer(layer), Nats(table), blockSize, n) == Some(Pairs(r.value.0, r.value.1))
    {
      var keys: seq<V>, values: seq<V> := [], [];
      for p := 0 to n
        invariant |keys| == |values| == p
        invariant Gathered(Layer(layer), Nats(table), blockSize, p) == Some(Pairs(keys, values))
      {
        var kv := SelectOne(layer, table, p, Pairs(keys, values));
        if kv.None? {
          NoneAfter(Layer(layer), Nats(table), blockSize, p + 1, n);
          return Err(NotWritten);
        }
        PairsMore(keys, values, kv.value);
        keys, values := keys + [kv.value.0], values + [kv.value.1];
      }
      return Ok((keys, values));
    }

    method SelectOne(layer: nat, table: seq<int>, p: nat, ghost kvs: seq<(V, V)>) returns (r: Option<(V, V)>)
      requires Valid() && layer < numLayers && BlocksExist(table, numBlocks) && p < Span(|table|, blockSize)
      requires Gathered(Layer(layer), Nats(table), blockSize, p) == Some(kvs)
      ensures Gathered(Layer(layer), Nats(table), blockSize, p + 1) == if r.Some? then Some(kvs + [r.value]) else None
    {
      ghost var ids := Nats(table);
      PositionInTable(p, ids, blockSize);
      var b, o := table[p / blockSize], p % blockSize;
      r := Read(layer, b, o);
      GatheredNext(Layer(layer), ids, blockSize, p, kvs, b, o);
    }

    /** One slot, if it has been written. */
    method Read(l: nat, b: nat, o: nat) returns (r: Option<(V, V)>)
      requires Valid() && l < numLayers && b < numBlocks && o < blockSize
      ensures Layer(l)[b][o] == if r.Some? then Full(r.value) else Empty
    {
      assert Layer(l)[b] == Page(l, b) && Page(l, b)[o] == SlotAt(l, b, o);
      r := if validSlots[l, b, o] then Some((keyCache[l, b, o], valueCache[l, b, o])) else None;
    }

    method Release(ids: seq<int>) returns (r: Result<(), CacheError>)
      requires Valid()
      modifies validSlots
      ensures r == if BlocksExist(ids, numBlocks) then Ok(()) else Err(InvalidBlock)
      ensures r.Err? ==> forall l :: 0 <= l < numLayers ==> Layer(l) == old(Layer(l))
      ensures r.Ok? ==> forall l :: 0 <= l < numLayers ==> Layer(l) == Invalidated(old(Layer(l)), Nats(ids))
    {
      if ids == [] {
        forall l | 0 <= l < numLayers
          ensures Invalidated(Layer(l), Nats(ids)) == Layer(l)
        {
        }
        return Ok(());
      }
      if !BlocksExist(ids, numBlocks) {
        return Err(InvalidBlock);
      }
      ghost var before := View();
      ViewSlots();
      forall l, b, o | 0 <= l < numLayers && 0 <= b < numBlocks && 0 <= o < blockSize && b in ids {
        validSlots[l, b, o] := false;
      }
      forall l | 0 <= l < numLayers
        ensures Layer(l) == Invalidated(before[l], Nats(ids))
      {
        InvalidatedLayer(l, before[l], ids);
      }
      return Ok(());
    }

    /** A release that stops midway: some of the named valid bits are still set. */
    method ReleaseSome(ids: seq<int>, keep: (nat, nat, nat) -> bool)
      requires Valid() && BlocksExist(ids, numBlocks)
      modifies validSlots
      ensures SameOutside(old(View()), ids)
      ensures forall l, b, o :: 0 <= l < numLayers && 0 <= b < numBlocks && 0 <= o < blockSize && b in ids ==>
        SlotAt(l, b, o) == if keep(l, b, o) then old(SlotAt(l, b, o)) else Empty
    {
      ghost var before := View();
      ViewSlots();
      forall l, b, o | 0 <= l < numLayers && 0 <= b < numBlocks && 0 <= o < blockSize && b in ids && !keep(l, b, o) {
        validSlots[l, b, o] := false;
      }
      OutsideBySlots(before, ids);
    }

    lemma InvalidatedLayer(l: nat, layer: Paged<(V, V)>, ids: seq<int>)
      requires Valid() && l < numLayers && BlocksExist(ids, numBlocks) && |layer| == numBlocks && Shaped(layer, blockSize)
      requires forall b, o :: 0 <= b < numBlocks && 0 <= o < blockSize ==>
        SlotAt(l, b, o) == if b in ids then Empty else layer[b][o]
      ensures Layer(l) == Invalidated(layer, Nats(ids))
    {
      forall b, o | 0 <= b < numBlocks && 0 <= o < blockSize
        ensures SlotAt(l, b, o) == Invalidated(layer, Nats(ids))[b][o]
      {
        NatsMember(ids, b);
      }
      LayerIs(l, Invalidated(layer, Nats(ids)));
    }

    // -------------------------------------------------------------- whole blocks

    ghost predicate FullyWritten(ids: seq<int>)
      requires Valid() && BlocksExist(ids, numBlocks)
      reads keyCache, valueCache, validSlots
    {
      forall l, i :: 0 <= l < numLayers && 0 <= i < |ids| ==> AllFull(Page(l, ids[i]))
    }

    ghost predicate Vacant(ids: seq<int>)
      requires Valid() && BlocksExist(ids, numBlocks)
      reads keyCache, valueCache, validSlots
    {
      forall l, i :: 0 <= l < numLayers && 0 <= i < |ids| ==> AllEmpty(Page(l, ids[i]))
    }

    predicate AllValid(l: nat, b: nat)
      requires Valid() && l < numLayers && b < numBlocks
      reads validSlots
    {
      forall o :: 0 <= o < blockSize ==> validSlots[l, b, o]
    }

    predicate NoneValid(l: nat, b: nat)
      requires Valid() && l < numLayers && b < numBlocks
      reads validSlots
    {
      forall o :: 0 <= o < blockSize ==> !validSlots[l, b, o]
    }

    lemma PageBits(l: nat, b: nat)
      requires Valid() && l < numLayers && b < numBlocks
      ensures AllFull(Page(l, b)) <==> AllValid(l, b)
      ensures AllEmpty(Page(l, b)) <==> NoneValid(l, b)
    {
      if AllFull(Page(l, b)) {
        forall o | 0 <= o < blockSize
          ensures validSlots[l, b, o]
        {
          assert Page(l, b)[o].Full?;
        }
      }
      if AllEmpty(Page(l, b)) {
        forall o | 0 <= o < blockSize
          ensures !validSlots[l, b, o]
        {
          assert Page(l, b)[o].Empty?;
        }
      }
    }

    method CheckWritten(ids: seq<int>) returns (r: bool)
      requires Valid() && BlocksExist(ids, numBlocks)
      ensures r == FullyWritten(ids)
    {
      forall l, i | 0 <= l < numLayers && 0 <= i < |ids|
        ensures AllFull(Page(l, ids[i])) <==> AllValid(l, ids[i])
      {
        PageBits(l, ids[i]);
      }
      r := forall l, i :: 0 <= l < numLayers && 0 <= i < |ids| ==> AllValid(l, ids[i]);
    }

    method CheckVacant(ids: seq<int>) returns (r: bool)
      requires Valid() && BlocksExist(ids, numBlocks)
      ensures r == Vacant(ids)
    {
      forall l, i | 0 <= l < numLayers && 0 <= i < |ids|
        ensures AllEmpty(Page(l, ids[i])) <==> NoneValid(l, ids[i])
      {
        PageBits(l, ids[i]);
      }
      r := forall l, i :: 0 <= l < numLayers && 0 <= i < |ids| ==> NoneValid(l, ids[i]);
    }

    method ExportBlocks(ids: seq<int>) returns (r: Result<(Tensor<V>, Tensor<V>), CacheError>)
      requires Valid()
      ensures r.Ok? <==> ids != [] && BlocksExist(ids, numBlocks) && Distinct<int>(ids) && FullyWritten(ids)
      ensures r.Ok? ==>
        && TensorShape(r.value.0, numLayers, |ids|, blockSize) && TensorShape(r.value.1, numLayers, |ids|, blockSize)
        && forall l :: 0 <= l < numLayers ==>
             CanExport(Layer(l), Nats(ids)) &&
             Exported(Layer(l), Nats(ids)) == LayerPairs(r.value.0, r.value.1, l, |ids|, blockSize)
    {
      if ids == [] {
        return Err(NoBlocks);
      }
      if !BlocksExist(ids, numBlocks) {
        return Err(InvalidBlock);
      }
      if !Distinct<int>(ids) {
        return Err(DuplicateBlocks);
      }
      var full := CheckWritten(ids);
      if !full {
        return Err(NotFullyWritten);
      }
      var keys := Selected(keyCache, ids);
      var values := Selected(valueCache, ids);
      forall l | 0 <= l < numLayers
        ensures CanExport(Layer(l), Nats(ids)) && Exported(Layer(l), Nats(ids)) == LayerPairs(keys, values, l, |ids|, blockSize)
      {
        ExportedLayer(l, ids, keys, values);
      }
      return Ok((keys, values));
    }

    /** index_select over the block dimension. */
    function Selected(cache: array3<V>, ids: seq<int>): (t: Tensor<V>)
      requires Valid() && Dimensions(cache) && BlocksExist(ids, numBlocks)
      reads cache
      ensures TensorShape(t, numLayers, |ids|, blockSize)
      ensures forall l, i, o :: 0 <= l < numLayers && 0 <= i < |ids| && 0 <= o < blockSize ==> t[l][i][o] == cache[l, ids[i], o]
    {
      seq(numLayers, l requires 0 <= l < numLayers reads cache =>
        seq(|ids|, i requires 0 <= i < |ids| reads cache =>
          seq(blockSize, o requires 0 <= o < blockSize reads cache => cache[l, ids[i], o])))
    }

    lemma ExportedLayer(l: nat, ids: seq<int>, keys: Tensor<V>, values: Tensor<V>)
      requires Valid() && l < numLayers && ids != [] && BlocksExist(ids, numBlocks) && Distinct<int>(ids) && FullyWritten(ids)
      requires TensorShape(keys, numLayers, |ids|, blockSize) && TensorShape(values, numLayers, |ids|, blockSize)
      requires forall i, o :: 0 <= i < |ids| && 0 <= o < blockSize ==>
        keys[l][i][o] == keyCache[l, ids[i], o] && values[l][i][o] == valueCache[l, ids[i], o]
      ensures CanExport(Layer(l), Nats(ids)) && Exported(Layer(l), Nats(ids)) == LayerPairs(keys, values, l, |ids|, blockSize)
    {
      var nats := Nats(ids);
      forall i | 0 <= i < |ids|
        ensures AllFull(Layer(l)[nats[i]])
      {
        assert AllFull(Page(l, ids[i]));
      }
      var exported, pairs := Exported(Layer(l), nats), LayerPairs(keys, values, l, |ids|, blockSize);
      forall i | 0 <= i < |ids|
        ensures exported[i] == pairs[i]
      {
        assert FullBlock(exported[i]) == Page(l, ids[i]);
        forall o | 0 <= o < blockSize
          ensures exported[i][o] == pairs[i][o]
        {
          assert FullBlock(exported[i])[o] == SlotAt(l, ids[i], o);
        }
      }
    }

    /** The layers read as in `before`, but for the named blocks. */
    ghost predicate SameOutside(before: seq<Paged<(V, V)>>, ids: seq<int>)
      requires Valid() && |before| == numLayers && forall l :: 0 <= l < numLayers ==> |before[l]| == numBlocks
      reads keyCache, valueCache, validSlots
    {
      forall l, b :: 0 <= l < numLayers && 0 <= b < numBlocks && b !in ids ==> Page(l, b) == before[l][b]
    }

    /** What import_blocks accepts. */
    ghost predicate CanImport(ids: seq<int>, keys: Tensor<V>, values: Tensor<V>)
      requires Valid()
      reads keyCache, valueCache, validSlots
    {
      && ids != [] && BlocksExist(ids, numBlocks) && Distinct<int>(ids) && Vacant(ids)
      && TensorShape(keys, numLayers, |ids|, blockSize) && TensorShape(values, numLayers, |ids|, blockSize)
    }

    /** import_blocks succeeds exactly on acceptable input without a device fault. A fault can spoil the named blocks alone. */
    method ImportBlocks(ids: seq<int>, keys: Tensor<V>, values: Tensor<V>, fault: Fault<V>) returns (r: Result<(), CacheError>)
      requires Valid()
      modifies keyCache, valueCache, validSlots
      ensures r.Ok? <==> old(CanImport(ids, keys, values)) && fault.NoFault?
      ensures r == Err(DeviceFailed) <==> old(CanImport(ids, keys, values)) && fault.Stops?
      ensures r.Err? && r != Err(DeviceFailed) ==> forall l :: 0 <= l < numLayers ==> Layer(l) == old(Layer(l))
      ensures SameOutside(old(View()), ids)
      ensures r.Ok? ==> forall l :: 0 <= l < numLayers ==>
        Layer(l) == ImportedPages(old(Layer(l)), Nats(ids), LayerPairs(keys, values, l, |ids|, blockSize))
    {
      ghost var before := View();
      if ids == [] {
        return Err(NoBlocks);
      }
      if !BlocksExist(ids, numBlocks) {
        return Err(InvalidBlock);
      }
      if !Distinct<int>(ids) {
        return Err(DuplicateBlocks);
      }
      var vacant := CheckVacant(ids);
      if !vacant {
        return Err(NotEmpty);
      }
      if !TensorShape(keys, numLayers, |ids|, blockSize) || !TensorShape(values, numLayers, |ids|, blockSize) {
        return Err(PayloadShape);
      }
      r := CopyBlocks(ids, keys, values, fault);
    }

    /** The three copies of import_blocks, which a fault may stop anywhere. */
    method CopyBlocks(ids: seq<int>, keys: Tensor<V>, values: Tensor<V>, fault: Fault<V>) returns (r: Result<(), CacheError>)
      requires Valid() && CanImport(ids, keys, values)
      modifies keyCache, valueCache, validSlots
      ensures r == if fault.NoFault? then Ok(()) else Err(DeviceFailed)
      ensures SameOutside(old(View()), ids)
      ensures r.Ok? ==> forall l :: 0 <= l < numLayers ==>
        Layer(l) == ImportedPages(old(Layer(l)), Nats(ids), LayerPairs(keys, values, l, |ids|, blockSize))
    {
      var nats := Nats(ids);
      if fault.Stops? {
        Spoil(ids, fault.left);
        return Err(DeviceFailed);
      }
      ghost var before := View();
      VacantView(ids);
      CopyKeys(nats, keys, before);
      CopyValues(nats, values, before);
      MarkValid(nats, keys, values, before);
      ImportedOutside(ids, keys, values, before);
      return Ok(());
    }

    /** What a stopped import leaves behind. */
    method Spoil(ids: seq<int>, left: (nat, nat, nat) -> (V, V, bool))
      requires Valid() && BlocksExist(ids, numBlocks)
      modifies keyCache, valueCache, validSlots
      ensures SameOutside(old(View()), ids)
      ensures forall l, b, o :: 0 <= l < numLayers && 0 <= b < numBlocks && 0 <= o < blockSize && b in ids ==>
        SlotAt(l, b, o) == if left(l, b, o).2 then Full((left(l, b, o).0, left(l, b, o).1)) else Empty
    {
      ghost var before := View();
      ViewSlots();
      forall l, b, o | 0 <= l < numLayers && 0 <= b < numBlocks && 0 <= o < blockSize && b in ids {
        keyCache[l, b, o] := left(l, b, o).0;
      }
      forall l, b, o | 0 <= l < numLayers && 0 <= b < numBlocks && 0 <= o < blockSize && b in ids {
        valueCache[l, b, o] := left(l, b, o).1;
      }
      forall l, b, o | 0 <= l < numLayers && 0 <= b < numBlocks && 0 <= o < blockSize && b in ids {
        validSlots[l, b, o] := left(l, b, o).2;
      }
      OutsideBySlots(before, ids);
    }

    /** Blocks are the same when their slots are. */
    lemma OutsideBySlots(before: seq<Paged<(V, V)>>, ids: seq<int>)
      requires Valid() && |before| == numLayers
      requires forall l :: 0 <= l < numLayers ==> |before[l]| == numBlocks
      requires forall l, b :: 0 <= l < numLayers && 0 <= b < numBlocks ==> |before[l][b]| == blockSize
      requires forall l, b, o :: 0 <= l < numLayers && 0 <= b < numBlocks && 0 <= o < blockSize && b !in ids ==> SlotAt(l, b, o) == before[l][b][o]
      ensures SameOutside(before, ids)
    {
      forall l, b | 0 <= l < numLayers && 0 <= b < numBlocks && b !in ids
        ensures Page(l, b) == before[l][b]
      {
      }
    }

    lemma ImportedOutside(ids: seq<int>, keys: Tensor<V>, values: Tensor<V>, before: seq<Paged<(V, V)>>)
      requires Valid() && BlocksExist(ids, numBlocks) && |before| == numLayers
      requires forall l :: 0 <= l < numLayers ==> |before[l]| == numBlocks && Shaped(before[l], blockSize)
      requires TensorShape(keys, numLayers, |ids|, blockSize) && TensorShape(values, numLayers, |ids|, blockSize)
      requires forall l :: 0 <= l < numLayers ==>
        Layer(l) == ImportedPages(before[l], Nats(ids), LayerPairs(keys, values, l, |ids|, blockSize))
      ensures SameOutside(before, ids)
    {
      forall l, b | 0 <= l < numLayers && 0 <= b < numBlocks && b !in ids
        ensures Page(l, b) == before[l][b]
      {
        NatsMember(ids, b);
        assert Layer(l)[b] == Page(l, b);
      }
    }

    /** The layers read `before`, in which the blocks are empty. */
    ghost predicate Reads(before: seq<Paged<(V, V)>>, nats: seq<nat>)
      requires Valid()
      reads keyCache, valueCache, validSlots
    {
      && |before| == numLayers
      && (forall l :: 0 <= l < numLayers ==> Layer(l) == before[l])
      && (forall l, b, o :: 0 <= l < numLayers && 0 <= b < numBlocks && 0 <= o < blockSize && b in nats ==> !validSlots[l, b, o])
    }

    lemma VacantView(ids: seq<int>)
      requires Valid() && BlocksExist(ids, numBlocks) && Vacant(ids)
      ensures Reads(View(), Nats(ids))
    {
      forall l, b, o | 0 <= l < numLayers && 0 <= b < numBlocks && 0 <= o < blockSize && b in Nats(ids)
        ensures !validSlots[l, b, o]
      {
        var i := IndexIn(Nats(ids), b);
        assert AllEmpty(Page(l, ids[i]));
        PageBits(l, b);
      }
    }

    method CopyKeys(nats: seq<nat>, keys: Tensor<V>, ghost before: seq<Paged<(V, V)>>)
      requires Valid() && TensorShape(keys, numLayers, |nats|, blockSize) && Reads(before, nats)
      modifies keyCache
      ensures Reads(before, nats)
      ensures forall l, b, o :: 0 <= l < numLayers && 0 <= b < numBlocks && 0 <= o < blockSize && b in nats ==>
        keyCache[l, b, o] == keys[l][IndexIn(nats, b)][o]
    {
      ViewSlots();
      forall l, b, o | 0 <= l < numLayers && 0 <= b < numBlocks && 0 <= o < blockSize && b in nats {
        keyCache[l, b, o] := keys[l][IndexIn(nats, b)][o];
      }
      forall l | 0 <= l < numLayers
        ensures Layer(l) == before[l]
      {
        HiddenCopy(l, before[l], nats);
      }
    }

    method CopyValues(nats: seq<nat>, values: Tensor<V>, ghost before: seq<Paged<(V, V)>>)
      requires Valid() && TensorShape(values, numLayers, |nats|, blockSize) && Reads(before, nats)
      modifies valueCache
      ensures Reads(before, nats)
      ensures forall l, b, o :: 0 <= l < numLayers && 0 <= b < numBlocks && 0 <= o < blockSize && b in nats ==>
        valueCache[l, b, o] == values[l][IndexIn(nats, b)][o]
    {
      ViewSlots();
      forall l, b, o | 0 <= l < numLayers && 0 <= b < numBlocks && 0 <= o < blockSize && b in nats {
        valueCache[l, b, o] := values[l][IndexIn(nats, b)][o];
      }
      forall l | 0 <= l < numLayers
        ensures Layer(l) == before[l]
      {
        HiddenCopy(l, before[l], nats);
      }
    }

    /** Overwriting the tensors of empty blocks is not visible. */
    lemma HiddenCopy(l: nat, layer: Paged<(V, V)>, nats: seq<nat>)
      requires Valid() && l < numLayers && |layer| == numBlocks && Shaped(layer, blockSize)
      requires forall b, o :: 0 <= b < numBlocks && 0 <= o < blockSize ==>
        SlotAt(l, b, o) == layer[b][o] || (b in nats && layer[b][o].Empty? && !validSlots[l, b, o])
      ensures Layer(l) == layer
    {
      LayerIs(l, layer);
    }

    method MarkValid(nats: seq<nat>, keys: Tensor<V>, values: Tensor<V>, ghost before: seq<Paged<(V, V)>>)
      requires Valid() && Reads(before, nats)
      requires TensorShape(keys, numLayers, |nats|, blockSize) && TensorShape(values, numLayers, |nats|, blockSize)
      requires forall l, b, o :: 0 <= l < numLayers && 0 <= b < numBlocks && 0 <= o < blockSize && b in nats ==>
        keyCache[l, b, o] == keys[l][IndexIn(nats, b)][o]
      requires forall l, b, o :: 0 <= l < numLayers && 0 <= b < numBlocks && 0 <= o < blockSize && b in nats ==>
        valueCache[l, b, o] == values[l][IndexIn(nats, b)][o]
      modifies validSlots
      ensures forall l :: 0 <= l < numLayers ==>
        Layer(l) == ImportedPages(before[l], nats, LayerPairs(keys, values, l, |nats|, blockSize))
    {
      ViewSlots();
      forall l, b, o | 0 <= l < numLayers && 0 <= b < numBlocks && 0 <= o < blockSize && b in nats {
        validSlots[l, b, o] := true;
      }
      forall l | 0 <= l < numLayers
        ensures Layer(l) == ImportedPages(before[l], nats, LayerPairs(keys, values, l, |nats|, blockSize))
      {
        forall b, o | 0 <= b < numBlocks && 0 <= o < blockSize && b in nats
          ensures SlotAt(l, b, o) == Full(LayerPairs(keys, values, l, |nats|, blockSize)[IndexIn(nats, b)][o])
        {
        }
        ImportedLayer(l, before[l], nats, LayerPairs(keys, values, l, |nats|, blockSize));
      }
    }

    lemma ImportedLayer(l: nat, layer: Paged<(V, V)>, nats: seq<nat>, payload: seq<seq<(V, V)>>)
      requires Valid() && l < numLayers && |layer| == numBlocks && Shaped(layer, blockSize)
      requires |payload| == |nats| && forall i :: 0 <= i < |payload| ==> |payload[i]| == blockSize
      requires forall b, o :: 0 <= b < numBlocks && 0 <= o < blockSize && b in nats ==> SlotAt(l, b, o) == Full(payload[IndexIn(nats, b)][o])
      requires forall b, o :: 0 <= b < numBlocks && 0 <= o < blockSize && b !in nats ==> SlotAt(l, b, o) == layer[b][o]
      ensures Layer(l) == ImportedPages(layer, nats, payload)
    {
      var next := ImportedPages(layer, nats, payload);
      forall b | 0 <= b < numBlocks
        ensures Page(l, b) == next[b]
      {
      }
    }
  }

  lemma NatsMember(ids: seq<int>, b: nat)
    requires forall i :: 0 <= i < |ids| ==> ids[i] >= 0
    ensures b in ids <==> b in Nats(ids)
  {
    if b in ids {
      var i :| 0 <= i < |ids| && ids[i] == b;
      assert Nats(ids)[i] == b;
    }
  }
}

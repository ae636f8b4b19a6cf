/** Moving whole blocks of K/V over the wire: sizes, checks, import with rollback. */
module KVTransfer {
  import opened Hashing
  import opened Spans
  import opened Wrappers
  import opened Sequences
  import opened Pages
  import opened CacheSpec
  import opened PagedCache
  import opened WireFormat

  /** A release that works, or raises with some of the named valid bits still set. */
  datatype ReleaseFault = Works | Stuck(keep: (nat, nat, nat) -> bool)

  /**
   * What the device does to one push: the staging of the payload, the copies, the synchronisation after them, and
   * the two clean-ups.
   */
  datatype Faults<!V> = Faults(staging: bool, copy: Fault<V>, sync: bool, first: ReleaseFault, second: ReleaseFault, outOfMemory: bool) {
    /** Nothing fails. */
    predicate DeviceWorks() {
      !staging && copy.NoFault? && !sync
    }
  }

  /** Clearing blocks that were empty restores the layer, whatever has been left in them. */
  lemma InvalidatedSpoilt<T>(layer: Paged<T>, spoilt: Paged<T>, bs: nat, ids: seq<nat>)
    requires Shaped(layer, bs) && Shaped(spoilt, bs) && |layer| == |spoilt|
    requires forall b :: 0 <= b < |layer| && b in ids ==> AllEmpty(layer[b])
    requires forall b :: 0 <= b < |layer| && b !in ids ==> spoilt[b] == layer[b]
    ensures Invalidated(spoilt, ids) == layer
  {
    forall b | 0 <= b < |layer|
      ensures Invalidated(spoilt, ids)[b] == layer[b]
    {
      assert |layer[b]| == bs && |spoilt[b]| == bs;
    }
  }

  class KVTransferRuntime<V(0, !new)> {
    const cache: PagedKVCache<V>
    const compatibility: string
    const codec: Codec<V>

    constructor (cache: PagedKVCache<V>, compatibility: string, codec: Codec<V>)
      ensures this.cache == cache && this.compatibility == compatibility && this.codec == codec
    {
      this.cache, this.compatibility, this.codec := cache, compatibility, codec;
    }

    ghost predicate Valid() {
      cache.Valid() && Faithful(codec)
    }

    /** payload_bytes, of K alone. */
    function PayloadBytes(n: nat): (size: nat)
      ensures size == WireBytes(codec, cache.numLayers, n, cache.blockSize)
    {
      WireSize(codec, cache.numLayers, n, cache.blockSize);
      cache.numLayers * codec.heads * n * cache.blockSize * codec.headBytes
    }

    /** The tensor a payload stands for. */
    function Received(s: Str, n: nat): (t: Tensor<V>)
      requires |s| == PayloadBytes(n)
      ensures TensorShape(t, cache.numLayers, n, cache.blockSize)
    {
      Decoded(codec, s, cache.numLayers, n, cache.blockSize)
    }

    ghost predicate Acceptable(ids: seq<nat>)
      requires cache.Valid()
      reads cache.keyCache, cache.valueCache, cache.validSlots
    {
      ids != [] && Distinct<int>(ids) && BlocksExist(ids, cache.numBlocks) && cache.Vacant(ids)
    }

    method ValidateDestination(ids: seq<nat>) returns (r: Result<(), CacheError>)
      requires Valid()
      ensures r.Ok? <==> Acceptable(ids)
      ensures r.Err? ==> r.error in {DuplicateBlocks, InvalidBlock, NotEmpty}
    {
      if ids == [] || !Distinct<int>(ids) {
        return Err(DuplicateBlocks);
      }
      if !BlocksExist(ids, cache.numBlocks) {
        return Err(InvalidBlock);
      }
      var vacant := cache.CheckVacant(ids);
      if !vacant {
        return Err(NotEmpty);
      }
      return Ok(());
    }

    /** What a layer exports, given the two payloads. */
    ghost function Carried(l: nat, n: nat, key: Str, value: Str): (payload: seq<seq<(V, V)>>)
      requires l < cache.numLayers && |key| == |value| == PayloadBytes(n)
      ensures |payload| == n
    {
      LayerPairs(Received(key, n), Received(value, n), l, n, cache.blockSize)
    }

    method ExportBlocks(ids: seq<nat>) returns (r: Result<(Str, Str), CacheError>)
      requires Valid()
      ensures r.Ok? <==> ids != [] && BlocksExist(ids, cache.numBlocks) && Distinct<int>(ids) && cache.FullyWritten(ids)
      ensures r.Ok? ==>
        && |r.value.0| == |r.value.1| == PayloadBytes(|ids|)
        && forall l :: 0 <= l < cache.numLayers ==>
             CanExport(cache.Layer(l), Nats(ids)) &&
             Exported(cache.Layer(l), Nats(ids)) == Carried(l, |ids|, r.value.0, r.value.1)
    {
      var exported := cache.ExportBlocks(ids);
      if exported.Err? {
        return Err(exported.error);
      }
      var (keys, values) := exported.value;
      var n, bs := |ids|, cache.blockSize;
      DecodeEncode(codec, keys, cache.numLayers, n, bs);
      DecodeEncode(codec, values, cache.numLayers, n, bs);
      return Ok((Encoded(codec, keys, cache.numLayers, n, bs), Encoded(codec, values, cache.numLayers, n, bs)));
    }

    /** invalidate_blocks: the release and the synchronisation after it. */
    method InvalidateBlocks(ids: seq<nat>, fault: ReleaseFault) returns (ok: bool)
      requires Valid() && BlocksExist(ids, cache.numBlocks)
      modifies cache.validSlots
      ensures ok <==> fault.Works?
      ensures cache.SameOutside(old(cache.View()), ids)
      ensures ok ==> forall l :: 0 <= l < cache.numLayers ==> cache.Layer(l) == Invalidated(old(cache.Layer(l)), Nats(ids))
    {
      if fault.Stuck? {
        cache.ReleaseSome(ids, fault.keep);
        return false;
      }
      ghost var before := cache.View();
      var _ := cache.Release(ids);
      InvalidatedOutside(before, ids);
      return true;
    }

    lemma InvalidatedOutside(before: seq<Paged<(V, V)>>, ids: seq<nat>)
      requires cache.Valid() && BlocksExist(ids, cache.numBlocks) && |before| == cache.numLayers
      requires forall l :: 0 <= l < cache.numLayers ==> |before[l]| == cache.numBlocks && cache.Layer(l) == Invalidated(before[l], Nats(ids))
      ensures cache.SameOutside(before, ids)
    {
      forall l, b | 0 <= l < cache.numLayers && 0 <= b < cache.numBlocks && b !in ids
        ensures cache.Page(l, b) == before[l][b]
      {
        NatsMember(ids, b);
        assert cache.Layer(l)[b] == cache.Page(l, b);
      }
    }

    /** What a layer holds after the import. */
    ghost function LayerAfter(l: nat, layer: Paged<(V, V)>, ids: seq<nat>, key: Str, value: Str): Paged<(V, V)>
      requires l < cache.numLayers && |key| == |value| == PayloadBytes(|ids|)
    {
      ImportedPages(layer, ids, Carried(l, |ids|, key, value))
    }

    /**
     * import_blocks succeeds exactly when the blocks are acceptable, both payloads have the right size and the
     * device works. When it raises, the blocks have been cleared again, unless the clean-up itself raised; the
     * other blocks are as they were in every case.
     */
    method ImportBlocks(ids: seq<nat>, key: Str, value: Str, faults: Faults<V>) returns (r: Result<(), CacheError>)
      requires Valid()
      modifies cache.keyCache, cache.valueCache, cache.validSlots
      ensures r.Ok? <==> old(Acceptable(ids)) && |key| == |value| == PayloadBytes(|ids|) && faults.DeviceWorks()
      ensures r.Ok? ==> forall l :: 0 <= l < cache.numLayers ==> cache.Layer(l) == LayerAfter(l, old(cache.Layer(l)), ids, key, value)
      ensures r.Err? && faults.first.Works? ==> cache.View() == old(cache.View())
      ensures r.Err? && !old(Acceptable(ids)) ==> cache.View() == old(cache.View())
      ensures cache.SameOutside(old(cache.View()), ids)
    {
      var valid := ValidateDestination(ids);
      if valid.Err? {
        return valid;
      }
      var n := |ids|;
      if |key| != PayloadBytes(n) || |value| != PayloadBytes(n) {
        return Err(PayloadShape);
      }
      if faults.staging {
        return Err(DeviceFailed);
      }
      r := CopyOrClear(ids, Received(key, n), Received(value, n), faults);
    }

    /** The copy, the synchronisation, and the clean-up when either fails. */
    method CopyOrClear(ids: seq<nat>, keys: Tensor<V>, values: Tensor<V>, faults: Faults<V>) returns (r: Result<(), CacheError>)
      requires Valid() && Acceptable(ids)
      requires TensorShape(keys, cache.numLayers, |ids|, cache.blockSize) && TensorShape(values, cache.numLayers, |ids|, cache.blockSize)
      modifies cache.keyCache, cache.valueCache, cache.validSlots
      ensures r.Ok? <==> faults.copy.NoFault? && !faults.sync
      ensures r.Ok? ==> forall l :: 0 <= l < cache.numLayers ==>
        cache.Layer(l) == ImportedPages(old(cache.Layer(l)), ids, LayerPairs(keys, values, l, |ids|, cache.blockSize))
      ensures r.Err? && faults.first.Works? ==> cache.View() == old(cache.View())
      ensures cache.SameOutside(old(cache.View()), ids)
    {
      ghost var before := cache.View();
      VacantPages(ids);
      var copied := cache.ImportBlocks(ids, keys, values, faults.copy);
      NatsOfNats(ids);
      if copied.Ok? && !faults.sync {
        return Ok(());
      }
      var _ := ClearAll(ids, faults.first, before);
      return Err(DeviceFailed);
    }

    /** The blocks are empty in every layer of `before`. */
    ghost predicate Empties(before: seq<Paged<(V, V)>>, ids: seq<nat>)
      requires cache.Valid()
    {
      && |before| == cache.numLayers
      && (forall l :: 0 <= l < cache.numLayers ==> |before[l]| == cache.numBlocks && Shaped(before[l], cache.blockSize))
      && (forall l, b :: 0 <= l < cache.numLayers && 0 <= b < cache.numBlocks && b in ids ==> AllEmpty(before[l][b]))
    }

    lemma VacantPages(ids: seq<nat>)
      requires cache.Valid() && Acceptable(ids)
      ensures Empties(cache.View(), ids)
    {
      forall l, b | 0 <= l < cache.numLayers && 0 <= b < cache.numBlocks && b in ids
        ensures AllEmpty(cache.View()[l][b])
      {
        var i := IndexIn(ids, b);
        assert AllEmpty(cache.Page(l, ids[i]));
      }
    }

    /** A clean-up that works restores the cache as it was before an import into empty blocks, however that import ended. */
    method ClearAll(ids: seq<nat>, fault: ReleaseFault, ghost before: seq<Paged<(V, V)>>) returns (ok: bool)
      requires Valid() && BlocksExist(ids, cache.numBlocks) && Empties(before, ids) && cache.SameOutside(before, ids)
      modifies cache.validSlots
      ensures ok <==> fault.Works?
      ensures ok ==> cache.View() == before
      ensures cache.SameOutside(before, ids)
    {
      ghost var spoilt := cache.View();
      SpoiltLayers(before, spoilt, ids);
      ok := InvalidateBlocks(ids, fault);
      if ok {
        NatsOfNats(ids);
        forall l | 0 <= l < cache.numLayers
          ensures cache.Layer(l) == before[l]
        {
          InvalidatedSpoilt(before[l], spoilt[l], cache.blockSize, ids);
        }
      }
    }

    lemma SpoiltLayers(before: seq<Paged<(V, V)>>, spoilt: seq<Paged<(V, V)>>, ids: seq<nat>)
      requires cache.Valid() && Empties(before, ids) && cache.SameOutside(before, ids) && spoilt == cache.View()
      ensures forall l, b :: 0 <= l < cache.numLayers && 0 <= b < cache.numBlocks && b !in ids ==> spoilt[l][b] == before[l][b]
    {
      forall l, b | 0 <= l < cache.numLayers && 0 <= b < cache.numBlocks && b !in ids
        ensures spoilt[l][b] == before[l][b]
      {
        assert cache.Page(l, b) == before[l][b];
      }
    }

    lemma NatsOfNats(ids: seq<nat>)
      ensures Nats(ids) == ids
    {
    }
  }
}

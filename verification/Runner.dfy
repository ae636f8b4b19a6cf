/** The Transformers runner: a batch is executed item by item against the paged cache. */
module Runner {
  import opened Hashing
  import opened Spans
  import opened Wrappers
  import opened Sequences
  import opened BlockSpec
  import opened Pages
  import opened CacheSpec
  import opened PagedCache
  import opened LayerView
  import opened Batch
  import Lifecycle

  /** The model: every layer's past and the new tokens give every layer's new K/V and the sampled token. */
  type Model<!V> = (seq<seq<(V, V)>>, seq<Token>) -> (seq<seq<(V, V)>>, Token)

  datatype RunError = BadBatch(batch: BatchError) | BadCache(cache: CacheError) | LayerCount

  datatype ExecuteResult = ExecuteResult(
    workId: WorkId,
    requestId: RequestId,
    tokenId: Token,
    done: bool,
    finishReason: Lifecycle.FinishReason,
    computedTokens: nat,
    generatedTokens: nat)

  function Keys<V>(kvs: seq<(V, V)>): (keys: seq<V>)
    ensures |keys| == |kvs| && forall k :: 0 <= k < |keys| ==> keys[k] == kvs[k].0
  {
    seq(|kvs|, k requires 0 <= k < |kvs| => kvs[k].0)
  }

  function Values<V>(kvs: seq<(V, V)>): (values: seq<V>)
    ensures |values| == |kvs| && forall k :: 0 <= k < |values| ==> values[k] == kvs[k].1
  {
    seq(|kvs|, k requires 0 <= k < |kvs| => kvs[k].1)
  }

  lemma PairsOfParts<V>(kvs: seq<(V, V)>)
    ensures Pairs(Keys(kvs), Values(kvs)) == kvs
  {
  }

  /** What the result of an item reports. */
  function ResultOf(it: ExecuteItem, token: Token, eos: set<Token>): ExecuteResult {
    var done := it.sample && token in eos;
    ExecuteResult(it.workId, it.requestId, if it.sample then token else 0, done, if done then Lifecycle.Stop else Lifecycle.NoReason,
                  if it.phase == Prefill then it.numNewTokens else 0, if it.sample then 1 else 0)
  }

  // ---------------------------------------------------------------- one item, on all layers

  ghost predicate CanRead<V>(view: seq<Paged<(V, V)>>, bs: nat, table: seq<nat>, n: nat) {
    bs > 0 && forall l :: 0 <= l < |view| ==> GatherResult(view[l], bs, table, n).Ok?
  }

  /** Every layer's first n positions. */
  ghost function PastOf<V>(view: seq<Paged<(V, V)>>, bs: nat, table: seq<nat>, n: nat): (past: seq<seq<(V, V)>>)
    requires CanRead(view, bs, table, n)
    ensures |past| == |view| && forall l :: 0 <= l < |view| ==> GatherResult(view[l], bs, table, n) == Ok(past[l])
  {
    seq(|view|, l requires 0 <= l < |view| => GatherResult(view[l], bs, table, n).value)
  }

  lemma PastIs<V>(view: seq<Paged<(V, V)>>, bs: nat, table: seq<nat>, n: nat, past: seq<seq<(V, V)>>)
    requires bs > 0 && |past| == |view| && forall l :: 0 <= l < |view| ==> GatherResult(view[l], bs, table, n) == Ok(past[l])
    ensures CanRead(view, bs, table, n) && PastOf(view, bs, table, n) == past
  {
  }

  /** What write_new accepts: a row for every layer, as long as the slots; existing, distinct slots. */
  predicate Writes<V>(layers: nat, n: nat, bs: nat, slots: seq<nat>, news: seq<seq<(V, V)>>) {
    && |news| == layers && SlotsExist(slots, Span(n, bs)) && Distinct<int>(slots)
    && (forall l :: 0 <= l < |news| ==> |news[l]| == |slots|)
  }

  function SlotsOf(it: ExecuteItem, bs: nat): seq<nat>
    requires bs > 0 && ItemError(it, bs) == None
  {
    SlotMapping(it.table, bs, it.computedTokens, End(it))
  }

  function PlacesFor(it: ExecuteItem, bs: nat): seq<Place>
    requires bs > 0 && ItemError(it, bs) == None
  {
    Places(it.table, bs, it.computedTokens, End(it))
  }

  /** The K/V the model computes for the item's positions, from their past. */
  ghost function News<V>(view: seq<Paged<(V, V)>>, bs: nat, it: ExecuteItem, model: Model<V>): seq<seq<(V, V)>>
    requires CanRead(view, bs, it.table, it.computedTokens)
  {
    model(PastOf(view, bs, it.table, it.computedTokens), it.tokens).0
  }

  /** _execute_one succeeds: its past has been written and its slots take what the model computes. */
  ghost predicate CanRun<V>(view: seq<Paged<(V, V)>>, n: nat, bs: nat, it: ExecuteItem, model: Model<V>)
    requires bs > 0 && ItemError(it, bs) == None
  {
    CanRead(view, bs, it.table, it.computedTokens) && Writes(|view|, n, bs, SlotsOf(it, bs), News(view, bs, it, model))
  }

  /** The item's positions are written in the first k layers. */
  ghost function RanUpTo<V>(before: seq<Paged<(V, V)>>, bs: nat, it: ExecuteItem, model: Model<V>, k: nat): seq<Paged<(V, V)>>
    requires bs > 0 && ItemError(it, bs) == None && CanRead(before, bs, it.table, it.computedTokens)
  {
    PlacedUpTo(before, bs, PlacesFor(it, bs), News(before, bs, it, model), k)
  }

  /** The item has run: each layer holds the model's K/V of the item's own positions. */
  ghost predicate Ran<V>(before: seq<Paged<(V, V)>>, after: seq<Paged<(V, V)>>, n: nat, bs: nat, it: ExecuteItem, model: Model<V>)
    requires bs > 0 && ItemError(it, bs) == None
  {
    CanRun(before, n, bs, it, model) && after == RanUpTo(before, bs, it, model, |before|)
  }

  /** The item has failed: at most some layers were written, and only in the item's own slots. */
  ghost predicate Failed<V>(before: seq<Paged<(V, V)>>, after: seq<Paged<(V, V)>>, n: nat, bs: nat, it: ExecuteItem, model: Model<V>)
    requires bs > 0 && ItemError(it, bs) == None
  {
    && !CanRun(before, n, bs, it, model)
    && (after == before ||
        (CanRead(before, bs, it.table, it.computedTokens) && exists k :: FailedAfter(before, after, bs, it, model, k)))
  }

  ghost predicate FailedAfter<V>(before: seq<Paged<(V, V)>>, after: seq<Paged<(V, V)>>, bs: nat, it: ExecuteItem, model: Model<V>, k: nat)
    requires bs > 0 && ItemError(it, bs) == None && CanRead(before, bs, it.table, it.computedTokens)
  {
    k < |before| && after == RanUpTo(before, bs, it, model, k)
  }

  // ---------------------------------------------------------------- the items of a batch

  /** The blocks newly allocated for the items; releasing does not depend on their order or on repeats. */
  function NewBlocks(items: seq<ExecuteItem>): seq<nat> {
    if items == [] then [] else items[0].allocatedBlocks + NewBlocks(items[1..])
  }

  ghost predicate RanAt<V>(views: seq<seq<Paged<(V, V)>>>, items: seq<ExecuteItem>, n: nat, bs: nat, model: Model<V>, i: nat) {
    && i < |items| && i + 1 < |views| && bs > 0 && ItemError(items[i], bs) == None
    && Ran(views[i], views[i + 1], n, bs, items[i], model)
  }

  /** `views` is what the cache reads before the first item and after each item that has run. */
  ghost predicate Trail<V>(views: seq<seq<Paged<(V, V)>>>, items: seq<ExecuteItem>, n: nat, bs: nat, model: Model<V>) {
    0 < |views| <= |items| + 1 && forall i :: 0 <= i < |views| - 1 ==> RanAt(views, items, n, bs, model, i)
  }

  lemma TrailGrows<V>(views: seq<seq<Paged<(V, V)>>>, items: seq<ExecuteItem>, n: nat, bs: nat, model: Model<V>, next: seq<Paged<(V, V)>>)
    requires Trail(views, items, n, bs, model) && |views| <= |items| && bs > 0
    requires ItemError(items[|views| - 1], bs) == None && Ran(views[|views| - 1], next, n, bs, items[|views| - 1], model)
    ensures Trail(views + [next], items, n, bs, model)
  {
    var more := views + [next];
    forall i | 0 <= i < |more| - 1
      ensures RanAt(more, items, n, bs, model, i)
    {
      assert i < |views| - 1 ==> RanAt(views, items, n, bs, model, i);
    }
  }

  /** The token the model samples for the item, from what the cache reads before it. */
  ghost function TokenFor<V>(view: seq<Paged<(V, V)>>, bs: nat, it: ExecuteItem, model: Model<V>): Token
    requires CanRead(view, bs, it.table, it.computedTokens)
  {
    model(PastOf(view, bs, it.table, it.computedTokens), it.tokens).1
  }

  ghost predicate ReportedAt<V>(result: ExecuteResult, view: seq<Paged<(V, V)>>, bs: nat, it: ExecuteItem, model: Model<V>, eos: set<Token>) {
    CanRead(view, bs, it.table, it.computedTokens) && result == ResultOf(it, TokenFor(view, bs, it, model), eos)
  }

  /** The results of the first items, each from what the cache read before its item. */
  ghost predicate Reported<V>(results: seq<ExecuteResult>, views: seq<seq<Paged<(V, V)>>>, items: seq<ExecuteItem>, bs: nat, model: Model<V>, eos: set<Token>) {
    |results| <= |items| && |results| <= |views| && forall k :: 0 <= k < |results| ==> ReportedAt(results[k], views[k], bs, items[k], model, eos)
  }

  lemma ReportedMore<V>(results: seq<ExecuteResult>, views: seq<seq<Paged<(V, V)>>>, items: seq<ExecuteItem>, bs: nat, model: Model<V>, eos: set<Token>,
                        result: ExecuteResult, next: seq<Paged<(V, V)>>)
    requires Reported(results, views, items, bs, model, eos) && |views| == |results| + 1 <= |items|
    requires ReportedAt(result, views[|results|], bs, items[|results|], model, eos)
    ensures Reported(results + [result], views + [next], items, bs, model, eos)
  {
    var more := results + [result];
    forall k | 0 <= k < |more|
      ensures ReportedAt(more[k], (views + [next])[k], bs, items[k], model, eos)
    {
      assert k < |results| ==> ReportedAt(results[k], views[k], bs, items[k], model, eos);
    }
  }

  /** The first item that did not run. */
  ghost predicate StoppedAt<V>(views: seq<seq<Paged<(V, V)>>>, items: seq<ExecuteItem>, n: nat, bs: nat, model: Model<V>, view: seq<Paged<(V, V)>>) {
    && 0 < |views| <= |items| && bs > 0 && ItemError(items[|views| - 1], bs) == None
    && Failed(views[|views| - 1], view, n, bs, items[|views| - 1], model)
  }

  class Runner<V(0)> {
    const cache: PagedKVCache<V>
    const builder: BatchBuilder
    const eosTokenIds: set<Token>

    constructor (cache: PagedKVCache<V>, eosTokenIds: set<Token>)
      requires cache.Valid()
      ensures Valid() && this.cache == cache && this.eosTokenIds == eosTokenIds
    {
      this.cache, this.eosTokenIds := cache, eosTokenIds;
      builder := new BatchBuilder(cache.blockSize);
    }

    predicate Valid() {
      cache.Valid() && builder.blockSize == cache.blockSize
    }

    /** build of the cache adapter: every layer's first n positions. */
    method Past(table: seq<nat>, n: nat) returns (r: Result<seq<seq<(V, V)>>, CacheError>)
      requires Valid()
      ensures r.Ok? <==> CanRead(cache.View(), cache.blockSize, table, n)
      ensures r.Ok? ==> r.value == PastOf(cache.View(), cache.blockSize, table, n)
    {
      var past: seq<seq<(V, V)>> := [];
      for l := 0 to cache.numLayers
        invariant |past| == l
        invariant forall k :: 0 <= k < l ==> GatherResult(cache.View()[k], cache.blockSize, table, n) == Ok(past[k])
      {
        assert cache.View()[l] == cache.Layer(l);
        var gathered := cache.Gather(l, table, n);
        if gathered.Err? {
          return Err(gathered.error);
        }
        past := past + [Pairs(gathered.value.0, gathered.value.1)];
      }
      PastIs(cache.View(), cache.blockSize, table, n, past);
      return Ok(past);
    }

    /** One layer's new K/V. */
    method WriteLayer(l: nat, slots: seq<nat>, news: seq<(V, V)>) returns (r: Result<(), CacheError>)
      requires Valid() && l < cache.numLayers
      modifies cache.keyCache, cache.valueCache, cache.validSlots
      ensures r.Ok? <==> SlotsExist(slots, Span(cache.numBlocks, cache.blockSize)) && Distinct<int>(slots) && |news| == |slots|
      ensures r.Err? ==> cache.View() == old(cache.View())
      ensures r.Ok? ==>
        && Inside(Unflats(slots, cache.blockSize), cache.numBlocks, cache.blockSize)
        && cache.View() == old(cache.View())[l := WrittenPlaces(old(cache.View())[l], cache.blockSize, Unflats(slots, cache.blockSize), news)]
    {
      assert cache.View()[l] == cache.Layer(l);
      PairsOfParts(news);
      r := cache.Write(l, slots, Keys(news), Values(news));
    }

    /** write_new: layer by layer through the same slots; layers that were written stay written when a later one fails. */
    method WriteNew(slots: seq<nat>, news: seq<seq<(V, V)>>) returns (r: Result<(), RunError>, ghost written: nat)
      requires Valid()
      modifies cache.keyCache, cache.valueCache, cache.validSlots
      ensures r.Ok? <==> Writes(cache.numLayers, cache.numBlocks, cache.blockSize, slots, news)
      ensures written <= cache.numLayers && (r.Ok? <==> written == cache.numLayers)
      ensures cache.View() == PlacedUpTo(old(cache.View()), cache.blockSize, Unflats(slots, cache.blockSize), news, written)
    {
      ghost var before, bs, places := cache.View(), cache.blockSize, Unflats(slots, cache.blockSize);
      written := 0;
      PlacedNone(before, bs, places, news);
      if |news| != cache.numLayers {
        return Err(LayerCount), 0;
      }
      for l := 0 to cache.numLayers
        invariant written == l && cache.View() == PlacedUpTo(before, bs, places, news, l)
        invariant l > 0 ==> SlotsExist(slots, Span(cache.numBlocks, bs)) && Distinct<int>(slots)
        invariant forall k :: 0 <= k < l ==> |news[k]| == |slots|
      {
        var done := WriteLayer(l, slots, news[l]);
        if done.Err? {
          return Err(BadCache(done.error)), l;
        }
        var _ := PlacedMore(before, bs, places, news, l);
        written := written + 1;
      }
      return Ok(()), written;
    }

    /** _execute_one */
    method ExecuteOne(it: ExecuteItem, inputIds: seq<Token>, slots: seq<nat>, model: Model<V>) returns (r: Result<ExecuteResult, RunError>)
      requires Valid() && ItemError(it, cache.blockSize) == None && inputIds == it.tokens && slots == SlotsOf(it, cache.blockSize)
      modifies cache.keyCache, cache.valueCache, cache.validSlots
      ensures r.Ok? <==> CanRun(old(cache.View()), cache.numBlocks, cache.blockSize, it, model)
      ensures r.Ok? ==> Ran(old(cache.View()), cache.View(), cache.numBlocks, cache.blockSize, it, model)
      ensures r.Ok? ==> ReportedAt(r.value, old(cache.View()), cache.blockSize, it, model, eosTokenIds)
      ensures r.Err? ==> Failed(old(cache.View()), cache.View(), cache.numBlocks, cache.blockSize, it, model)
    {
      var past := Past(it.table, it.computedTokens);
      if past.Err? {
        return Err(BadCache(past.error));
      }
      var (news, token) := model(past.value, inputIds);
      UnflatMapping(it.table, cache.blockSize, it.computedTokens, End(it));
      var done, written := WriteNew(slots, news);
      if done.Err? {
        assert FailedAfter(old(cache.View()), cache.View(), cache.blockSize, it, model, written);
        return Err(done.error);
      }
      return Ok(ResultOf(it, token, eosTokenIds));
    }

    /**
     * execute: the batch is built, the newly allocated blocks are invalidated before anything is written, and
     * then each item runs on what the items before it left. It fails before anything changes, or at the first
     * item that cannot run, and then the items before that item have run.
     */
    method Execute(items: seq<ExecuteItem>, model: Model<V>) returns (r: Result<seq<ExecuteResult>, RunError>, ghost views: seq<seq<Paged<(V, V)>>>)
      requires Valid()
      modifies cache.keyCache, cache.valueCache, cache.validSlots
      ensures items == [] ==> r == Ok([])
      ensures views == [] ==> cache.View() == old(cache.View())
      ensures views == [] <==> items == [] || !ItemsOk(items, cache.blockSize) || !BlocksExist(NewBlocks(items), cache.numBlocks)
      ensures views != [] ==> Trail(views, items, cache.numBlocks, cache.blockSize, model)
      ensures views != [] ==> BlocksExist(NewBlocks(items), cache.numBlocks) && views[0] == AllInvalidated(old(cache.View()), NewBlocks(items))
      ensures r.Ok? && items != [] ==> |views| == |items| + 1 && cache.View() == views[|items|]
      ensures r.Ok? ==> |r.value| == |items| && (items != [] ==> Reported(r.value, views, items, cache.blockSize, model, eosTokenIds))
      ensures r.Err? && views != [] ==> StoppedAt(views, items, cache.numBlocks, cache.blockSize, model, cache.View())
    {
      views := [];
      if items == [] {
        return Ok([]), [];
      }
      var built := builder.Build(items);
      if built.Err? {
        return Err(BadBatch(built.error)), [];
      }
      var released := ReleaseAll(NewBlocks(items));
      if released.Err? {
        return Err(BadCache(released.error)), [];
      }
      r, views := RunItems(items, built.value, model);
    }

    method ReleaseAll(ids: seq<nat>) returns (r: Result<(), CacheError>)
      requires Valid()
      modifies cache.validSlots
      ensures r.Ok? <==> BlocksExist(ids, cache.numBlocks)
      ensures cache.View() == if r.Ok? then AllInvalidated(old(cache.View()), ids) else old(cache.View())
    {
      assert forall l :: 0 <= l < cache.numLayers ==> cache.View()[l] == cache.Layer(l);
      r := cache.Release(ids);
      assert r.Ok? ==> Nats(ids) == ids;
    }

    method RunItems(items: seq<ExecuteItem>, batch: BatchMetadata, model: Model<V>) returns (r: Result<seq<ExecuteResult>, RunError>, ghost views: seq<seq<Paged<(V, V)>>>)
      requires Valid() && ItemsOk(items, cache.blockSize) && Describes(batch, items, cache.blockSize)
      modifies cache.keyCache, cache.valueCache, cache.validSlots
      ensures Trail(views, items, cache.numBlocks, cache.blockSize, model) && views[0] == old(cache.View())
      ensures r.Ok? ==> |views| == |items| + 1 && cache.View() == views[|items|]
      ensures r.Ok? ==> |r.value| == |items| && Reported(r.value, views, items, cache.blockSize, model, eosTokenIds)
      ensures r.Err? ==> StoppedAt(views, items, cache.numBlocks, cache.blockSize, model, cache.View())
    {
      var results: seq<ExecuteResult> := [];
      views := [cache.View()];
      for i := 0 to |items|
        invariant |results| == i && Reported(results, views, items, cache.blockSize, model, eosTokenIds)
        invariant |views| == i + 1 && Trail(views, items, cache.numBlocks, cache.blockSize, model)
        invariant cache.View() == views[i] && views[0] == old(cache.View())
      {
        var one := RunItem(items, batch, i, model);
        if one.Err? {
          return Err(one.error), views;
        }
        ReportedMore(results, views, items, cache.blockSize, model, eosTokenIds, one.value, cache.View());
        TrailGrows(views, items, cache.numBlocks, cache.blockSize, model, cache.View());
        views := views + [cache.View()];
        results := results + [one.value];
      }
      return Ok(results), views;
    }

    /** Item i of the batch, with the slices that are its own. */
    method RunItem(items: seq<ExecuteItem>, batch: BatchMetadata, i: nat, model: Model<V>) returns (r: Result<ExecuteResult, RunError>)
      requires Valid() && ItemsOk(items, cache.blockSize) && Describes(batch, items, cache.blockSize) && i < |items|
      modifies cache.keyCache, cache.valueCache, cache.validSlots
      ensures ItemError(items[i], cache.blockSize) == None
      ensures r.Ok? ==> Ran(old(cache.View()), cache.View(), cache.numBlocks, cache.blockSize, items[i], model)
      ensures r.Ok? ==> ReportedAt(r.value, old(cache.View()), cache.blockSize, items[i], model, eosTokenIds)
      ensures r.Err? ==> Failed(old(cache.View()), cache.View(), cache.numBlocks, cache.blockSize, items[i], model)
    {
      assert ItemError(items[i], cache.blockSize) == None;
      SlicesAreOwn(batch, items, cache.blockSize, i);
      var a, b := batch.queryStartLocs[i], batch.queryStartLocs[i + 1];
      r := ExecuteOne(items[i], batch.inputIds[a..b], batch.slotMapping[a..b], model);
    }
  }
}

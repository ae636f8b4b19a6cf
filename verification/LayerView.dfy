/**
 All layers of a cache seen slot by slot: a slot is Full when every layer holds the position, Empty when
 none does. The operations on layers are the operations on slots that the system model uses.
 */
module LayerView {
  import opened Spans
  import opened Wrappers
  import opened Pages
  import opened CacheSpec

  ghost predicate SameShape<T>(layers: seq<Paged<T>>, n: nat, bs: nat) {
    |layers| > 0 && forall l :: 0 <= l < |layers| ==> |layers[l]| == n && Shaped(layers[l], bs)
  }

  function Column<T>(layers: seq<Paged<T>>, b: nat, o: nat): Slot<seq<T>>
    requires forall l :: 0 <= l < |layers| ==> b < |layers[l]| && o < |layers[l][b]|
  {
    if forall l :: 0 <= l < |layers| ==> layers[l][b][o].Empty? then Empty
    else if forall l :: 0 <= l < |layers| ==> layers[l][b][o].Full? then
      Full(seq(|layers|, l requires 0 <= l < |layers| => layers[l][b][o].kv))
    else Partial
  }

  ghost function ColumnPage<T>(layers: seq<Paged<T>>, n: nat, bs: nat, b: nat): (page: seq<Slot<seq<T>>>)
    requires SameShape(layers, n, bs) && b < n
    ensures |page| == bs && forall o :: 0 <= o < bs ==> page[o] == Column(layers, b, o)
  {
    seq(bs, o requires 0 <= o < bs => Column(layers, b, o))
  }

  ghost function Columns<T>(layers: seq<Paged<T>>, n: nat, bs: nat): (view: Paged<seq<T>>)
    requires SameShape(layers, n, bs)
    ensures |view| == n && Shaped(view, bs)
    ensures forall b :: 0 <= b < n ==> view[b] == ColumnPage(layers, n, bs, b)
  {
    seq(n, b requires 0 <= b < n => ColumnPage(layers, n, bs, b))
  }

  /** rows[l][k] read by k first. */
  function Transposed<T>(rows: seq<seq<T>>, n: nat): (cols: seq<seq<T>>)
    requires forall l :: 0 <= l < |rows| ==> |rows[l]| == n
    ensures |cols| == n
    ensures forall k :: 0 <= k < n ==> |cols[k]| == |rows|
    ensures forall k, l :: 0 <= k < n && 0 <= l < |rows| ==> cols[k][l] == rows[l][k]
  {
    seq(n, k requires 0 <= k < n => seq(|rows|, l requires 0 <= l < |rows| => rows[l][k]))
  }

  lemma TransposedTwice<T>(cols: seq<seq<T>>, n: nat)
    requires forall k :: 0 <= k < |cols| ==> |cols[k]| == n
    ensures Transposed(Transposed(cols, n), |cols|) == cols
  {
    var rows := Transposed(cols, n);
    var again := Transposed(rows, |cols|);
    forall k | 0 <= k < |cols|
      ensures again[k] == cols[k]
    {
      forall l | 0 <= l < n
        ensures again[k][l] == cols[k][l]
      {
        assert again[k][l] == rows[l][k];
      }
    }
  }

  // ---------------------------------------------------------------- release

  function AllInvalidated<T>(layers: seq<Paged<T>>, ids: seq<nat>): (next: seq<Paged<T>>)
    ensures |next| == |layers| && forall l :: 0 <= l < |next| ==> next[l] == Invalidated(layers[l], ids)
  {
    seq(|layers|, l requires 0 <= l < |layers| => Invalidated(layers[l], ids))
  }

  lemma InvalidatedAt<T>(layer: Paged<T>, ids: seq<nat>, b: nat, o: nat)
    requires b < |layer| && o < |layer[b]|
    ensures Invalidated(layer, ids)[b][o] == if b in ids then Empty else layer[b][o]
  {
  }

  lemma ColumnInvalidated<T>(layers: seq<Paged<T>>, ids: seq<nat>, n: nat, bs: nat, b: nat, o: nat)
    requires SameShape(layers, n, bs) && SameShape(AllInvalidated(layers, ids), n, bs) && b < n && o < bs
    ensures Column(AllInvalidated(layers, ids), b, o) == if b in ids then Empty else Column(layers, b, o)
  {
    forall l | 0 <= l < |layers|
      ensures AllInvalidated(layers, ids)[l][b][o] == if b in ids then Empty else layers[l][b][o]
    {
      InvalidatedAt(layers[l], ids, b, o);
    }
    if b !in ids && Column(layers, b, o).Full? {
      assert Column(AllInvalidated(layers, ids), b, o).kv == Column(layers, b, o).kv;
    }
  }

  /** Releasing blocks in every layer empties their slots. */
  lemma ReleaseInView<T>(layers: seq<Paged<T>>, ids: seq<nat>, n: nat, bs: nat)
    requires SameShape(layers, n, bs)
    ensures SameShape(AllInvalidated(layers, ids), n, bs)
    ensures Columns(AllInvalidated(layers, ids), n, bs) == Invalidated(Columns(layers, n, bs), ids)
  {
    var a, c := Columns(AllInvalidated(layers, ids), n, bs), Invalidated(Columns(layers, n, bs), ids);
    forall b | 0 <= b < n
      ensures a[b] == c[b]
    {
      forall o | 0 <= o < bs
        ensures a[b][o] == c[b][o]
      {
        ColumnInvalidated(layers, ids, n, bs, b, o);
        InvalidatedAt(Columns(layers, n, bs), ids, b, o);
      }
    }
  }

  // ---------------------------------------------------------------- write

  /** The same slot set in every layer. */
  function AllSet<T>(layers: seq<Paged<T>>, b: nat, o: nat, kv: seq<T>): (next: seq<Paged<T>>)
    requires |kv| == |layers| && forall l :: 0 <= l < |layers| ==> b < |layers[l]| && o < |layers[l][b]|
    ensures |next| == |layers| && forall l :: 0 <= l < |next| ==> next[l] == SetSlot(layers[l], b, o, Full(kv[l]))
  {
    seq(|layers|, l requires 0 <= l < |layers| => SetSlot(layers[l], b, o, Full(kv[l])))
  }

  lemma ColumnSet<T>(layers: seq<Paged<T>>, n: nat, bs: nat, b: nat, o: nat, kv: seq<T>, c: nat, q: nat)
    requires SameShape(layers, n, bs) && b < n && o < bs && |kv| == |layers| && SameShape(AllSet(layers, b, o, kv), n, bs)
    requires c < n && q < bs
    ensures Column(AllSet(layers, b, o, kv), c, q) == if c == b && q == o then Full(kv) else Column(layers, c, q)
  {
    var next: seq<Paged<T>> := AllSet(layers, b, o, kv);
    forall l | 0 <= l < |layers|
      ensures next[l][c][q] == if c == b && q == o then Full(kv[l]) else layers[l][c][q]
    {
    }
    if c == b && q == o {
      assert next[0][c][q].Full?;
      assert Column(next, c, q).kv == kv;
    } else if Column(layers, c, q).Full? {
      assert Column(next, c, q).kv == Column(layers, c, q).kv;
    }
  }

  lemma SetInView<T>(layers: seq<Paged<T>>, n: nat, bs: nat, b: nat, o: nat, kv: seq<T>) returns (next: seq<Paged<T>>)
    requires SameShape(layers, n, bs) && b < n && o < bs && |kv| == |layers|
    ensures next == AllSet(layers, b, o, kv) && SameShape(next, n, bs)
    ensures Columns(next, n, bs) == SetSlot(Columns(layers, n, bs), b, o, Full(kv))
  {
    next := AllSet(layers, b, o, kv);
    var a, d := Columns(next, n, bs), SetSlot(Columns(layers, n, bs), b, o, Full(kv));
    forall c | 0 <= c < n
      ensures a[c] == d[c]
    {
      forall q | 0 <= q < bs
        ensures a[c][q] == d[c][q]
      {
        ColumnSet(layers, n, bs, b, o, kv, c, q);
      }
    }
  }

  /** news[l] can be written to the places of layer l. */
  ghost predicate Writable<T>(layers: seq<Paged<T>>, bs: nat, places: seq<Place>, news: seq<seq<T>>, l: nat) {
    && l < |layers| && l < |news|
    && Shaped(layers[l], bs) && Inside(places, |layers[l]|, bs) && |news[l]| == |places|
  }

  /** The chunk written to the first k layers, each with its own K/V. */
  ghost function PlacedUpTo<T>(layers: seq<Paged<T>>, bs: nat, places: seq<Place>, news: seq<seq<T>>, k: nat): (next: seq<Paged<T>>)
    ensures |next| == |layers|
    ensures forall l :: 0 <= l < |layers| ==>
      next[l] == if l < k && Writable(layers, bs, places, news, l) then WrittenPlaces(layers[l], bs, places, news[l]) else layers[l]
  {
    seq(|layers|, l requires 0 <= l < |layers| =>
      if l < k && Writable(layers, bs, places, news, l) then WrittenPlaces(layers[l], bs, places, news[l]) else layers[l])
  }

  lemma PlacedMore<T>(layers: seq<Paged<T>>, bs: nat, places: seq<Place>, news: seq<seq<T>>, k: nat) returns (next: seq<Paged<T>>)
    requires Writable(layers, bs, places, news, k)
    ensures next == PlacedUpTo(layers, bs, places, news, k) && |next| == |layers| && next[k] == layers[k]
    ensures next[k := WrittenPlaces(layers[k], bs, places, news[k])] == PlacedUpTo(layers, bs, places, news, k + 1)
  {
    next := PlacedUpTo(layers, bs, places, news, k);
  }

  lemma PlacedNone<T>(layers: seq<Paged<T>>, bs: nat, places: seq<Place>, news: seq<seq<T>>)
    ensures PlacedUpTo(layers, bs, places, news, 0) == layers
  {
  }

  /** What can be written to every layer. */
  ghost predicate AllWritable<T>(layers: seq<Paged<T>>, n: nat, bs: nat, places: seq<Place>, news: seq<seq<T>>) {
    && SameShape(layers, n, bs) && |news| == |layers| && Inside(places, n, bs)
    && (forall l :: 0 <= l < |news| ==> |news[l]| == |places|)
  }

  function Firsts<T>(rows: seq<seq<T>>, k: nat): (firsts: seq<seq<T>>)
    requires forall l :: 0 <= l < |rows| ==> k <= |rows[l]|
    ensures |firsts| == |rows| && forall l :: 0 <= l < |rows| ==> firsts[l] == rows[l][..k]
  {
    seq(|rows|, l requires 0 <= l < |rows| => rows[l][..k])
  }

  lemma TransposedFirsts<T>(rows: seq<seq<T>>, k: nat)
    requires forall l :: 0 <= l < |rows| ==> |rows[l]| == k + 1
    ensures Transposed(Firsts(rows, k), k) == Transposed(rows, k + 1)[..k]
  {
    var a, c := Transposed(Firsts(rows, k), k), Transposed(rows, k + 1)[..k];
    forall i | 0 <= i < k
      ensures a[i] == c[i]
    {
      assert c[i] == Transposed(rows, k + 1)[i];
    }
  }

  lemma LastPlaced<T>(layers: seq<Paged<T>>, n: nat, bs: nat, places: seq<Place>, news: seq<seq<T>>, k: nat, before: seq<Paged<T>>)
    requires AllWritable(layers, n, bs, places, news) && |places| == k + 1
    requires before == PlacedUpTo(layers, bs, places[..k], Firsts(news, k), |layers|) && SameShape(before, n, bs)
    ensures AllSet(before, places[k].block, places[k].offset, Transposed(news, k + 1)[k]) == PlacedUpTo(layers, bs, places, news, |layers|)
  {
    var next := AllSet(before, places[k].block, places[k].offset, Transposed(news, k + 1)[k]);
    forall l | 0 <= l < |layers|
      ensures next[l] == PlacedUpTo(layers, bs, places, news, |layers|)[l]
    {
      assert Writable(layers, bs, places, news, l) && Writable(layers, bs, places[..k], Firsts(news, k), l);
    }
  }

  lemma WritesLast<T>(view: Paged<T>, bs: nat, places: seq<Place>, kvs: seq<T>, k: nat)
    requires Shaped(view, bs) && |places| == |kvs| == k + 1 && Inside(places, |view|, bs)
    ensures Inside(places[..k], |view|, bs)
    ensures WrittenPlaces(view, bs, places, kvs) ==
      SetSlot(WrittenPlaces(view, bs, places[..k], kvs[..k]), places[k].block, places[k].offset, Full(kvs[k]))
  {
  }

  lemma NothingPlaced<T>(layers: seq<Paged<T>>, n: nat, bs: nat, news: seq<seq<T>>)
    requires AllWritable(layers, n, bs, [], news)
    ensures PlacedUpTo(layers, bs, [], news, |layers|) == layers
  {
    forall l | 0 <= l < |layers|
      ensures PlacedUpTo(layers, bs, [], news, |layers|)[l] == layers[l]
    {
      assert Writable(layers, bs, [], news, l);
    }
  }

  /** Writing a chunk layer by layer fills its slots. */
  lemma {:induction false} WriteInView<T>(layers: seq<Paged<T>>, n: nat, bs: nat, places: seq<Place>, news: seq<seq<T>>) returns (next: seq<Paged<T>>)
    requires AllWritable(layers, n, bs, places, news)
    ensures next == PlacedUpTo(layers, bs, places, news, |layers|) && SameShape(next, n, bs)
    ensures Columns(next, n, bs) == WrittenPlaces(Columns(layers, n, bs), bs, places, Transposed(news, |places|))
    decreases |places|
  {
    if places == [] {
      NothingPlaced(layers, n, bs, news);
      next := layers;
    } else {
      var k := |places| - 1;
      var kvs := Transposed(news, k + 1);
      TransposedFirsts(news, k);
      var before := WriteInView(layers, n, bs, places[..k], Firsts(news, k));
      LastPlaced(layers, n, bs, places, news, k, before);
      WritesLast(Columns(layers, n, bs), bs, places, kvs, k);
      next := SetInView(before, n, bs, places[k].block, places[k].offset, kvs[k]);
    }
  }

  // ---------------------------------------------------------------- gather

  lemma ColumnFull<T>(layers: seq<Paged<T>>, n: nat, bs: nat, b: nat, o: nat)
    requires SameShape(layers, n, bs) && b < n && o < bs
    ensures Columns(layers, n, bs)[b][o] == Column(layers, b, o)
    ensures Column(layers, b, o).Full? <==> forall l :: 0 <= l < |layers| ==> layers[l][b][o].Full?
    ensures Column(layers, b, o).Full? ==> |Column(layers, b, o).kv| == |layers|
    ensures Column(layers, b, o).Full? ==> forall l :: 0 <= l < |layers| ==> layers[l][b][o] == Full(Column(layers, b, o).kv[l])
    ensures Column(layers, b, o).Empty? <==> forall l :: 0 <= l < |layers| ==> layers[l][b][o].Empty?
  {
    assert Columns(layers, n, bs)[b] == ColumnPage(layers, n, bs, b);
    if forall l :: 0 <= l < |layers| ==> layers[l][b][o].Full? {
      assert layers[0][b][o].Full?;
    }
  }

  lemma GatherOneInView<T>(layers: seq<Paged<T>>, n: nat, table: seq<nat>, bs: nat, c: nat, l: nat, row: seq<T>)
      returns (kvs: seq<seq<T>>, kv: seq<T>)
    requires bs > 0 && SameShape(layers, n, bs) && l < |layers|
    requires Gathered(Columns(layers, n, bs), table, bs, c + 1).Some? && Gathered(layers[l], table, bs, c) == Some(row)
    ensures Gathered(Columns(layers, n, bs), table, bs, c) == Some(kvs)
    ensures |kv| == |layers| && Gathered(Columns(layers, n, bs), table, bs, c + 1) == Some(kvs + [kv])
    ensures Gathered(layers[l], table, bs, c + 1) == Some(row + [kv[l]])
  {
    var b, o;
    b, o, kvs := GatheredFrom(Columns(layers, n, bs), table, bs, c);
    ColumnFull(layers, n, bs, b, o);
    kv := Column(layers, b, o).kv;
    GatheredNext(layers[l], table, bs, c, row, b, o);
  }

  /** What the slots give is what every layer gives. */
  lemma {:induction false} GatherInView<T>(layers: seq<Paged<T>>, n: nat, table: seq<nat>, bs: nat, c: nat, l: nat)
      returns (kvs: seq<seq<T>>, row: seq<T>)
    requires bs > 0 && SameShape(layers, n, bs) && l < |layers| && Gathered(Columns(layers, n, bs), table, bs, c).Some?
    ensures Gathered(Columns(layers, n, bs), table, bs, c) == Some(kvs) && Gathered(layers[l], table, bs, c) == Some(row)
    ensures |row| == |kvs| && forall k :: 0 <= k < |kvs| ==> |kvs[k]| == |layers| && row[k] == kvs[k][l]
    decreases c
  {
    if c == 0 {
      kvs, row := [], [];
    } else {
      var _, _, _ := GatheredFrom(Columns(layers, n, bs), table, bs, c - 1);
      kvs, row := GatherInView(layers, n, table, bs, c - 1, l);
      var kv;
      kvs, kv := GatherOneInView(layers, n, table, bs, c - 1, l, row);
      kvs, row := kvs + [kv], row + [kv[l]];
    }
  }

  // ---------------------------------------------------------------- export and import

  /** Blocks can be exported slot by slot exactly when they can in every layer. */
  lemma ExportInView<T>(layers: seq<Paged<T>>, n: nat, bs: nat, ids: seq<nat>)
    requires SameShape(layers, n, bs)
    ensures CanExport(Columns(layers, n, bs), ids) <==> forall l :: 0 <= l < |layers| ==> CanExport(layers[l], ids)
  {
    var view: Paged<seq<T>> := Columns(layers, n, bs);
    if CanExport(view, ids) {
      forall l | 0 <= l < |layers|
        ensures CanExport(layers[l], ids)
      {
        forall i | 0 <= i < |ids|
          ensures AllFull(layers[l][ids[i]])
        {
          forall o | 0 <= o < bs
            ensures layers[l][ids[i]][o].Full?
          {
            ColumnFull(layers, n, bs, ids[i], o);
            assert view[ids[i]][o].Full?;
          }
        }
      }
    }
    if forall l :: 0 <= l < |layers| ==> CanExport(layers[l], ids) {
      assert CanExport(layers[0], ids);
      forall i | 0 <= i < |ids|
        ensures AllFull(view[ids[i]])
      {
        forall o | 0 <= o < bs
          ensures view[ids[i]][o].Full?
        {
          ColumnFull(layers, n, bs, ids[i], o);
          forall l | 0 <= l < |layers|
            ensures layers[l][ids[i]][o].Full?
          {
            assert CanExport(layers[l], ids);
            assert AllFull(layers[l][ids[i]]);
          }
        }
      }
    }
  }

  /** Blocks are empty slot by slot exactly when they are in every layer. */
  lemma VacantInView<T>(layers: seq<Paged<T>>, n: nat, bs: nat, b: nat)
    requires SameShape(layers, n, bs) && b < n
    ensures AllEmpty(Columns(layers, n, bs)[b]) <==> forall l :: 0 <= l < |layers| ==> AllEmpty(layers[l][b])
  {
    var page: seq<Slot<seq<T>>> := Columns(layers, n, bs)[b];
    if AllEmpty(page) {
      forall l, o | 0 <= l < |layers| && 0 <= o < bs
        ensures layers[l][b][o].Empty?
      {
        ColumnFull(layers, n, bs, b, o);
        assert page[o].Empty?;
      }
    }
    if forall l :: 0 <= l < |layers| ==> AllEmpty(layers[l][b]) {
      forall o | 0 <= o < bs
        ensures page[o].Empty?
      {
        ColumnFull(layers, n, bs, b, o);
      }
    }
  }

  /** Position o of page i, over all layers. */
  function Across<T>(payloads: seq<seq<seq<T>>>, i: nat, o: nat): (kv: seq<T>)
    requires forall l :: 0 <= l < |payloads| ==> i < |payloads[l]| && o < |payloads[l][i]|
    ensures |kv| == |payloads| && forall l :: 0 <= l < |kv| ==> kv[l] == payloads[l][i][o]
  {
    seq(|payloads|, l requires 0 <= l < |payloads| => payloads[l][i][o])
  }

  /** m pages for every layer. */
  ghost predicate Pagewise<T>(payloads: seq<seq<seq<T>>>, m: nat, bs: nat) {
    forall l :: 0 <= l < |payloads| ==> |payloads[l]| == m && forall i :: 0 <= i < m ==> |payloads[l][i]| == bs
  }

  /** The pages with the contents of every layer in each position. */
  ghost function Stacked<T>(payloads: seq<seq<seq<T>>>, m: nat, bs: nat): (pages: seq<seq<seq<T>>>)
    requires Pagewise(payloads, m, bs)
    ensures |pages| == m && forall i :: 0 <= i < m ==> |pages[i]| == bs
    ensures forall i, o :: 0 <= i < m && 0 <= o < bs ==> pages[i][o] == Across(payloads, i, o)
  {
    seq(m, i requires 0 <= i < m => seq(bs, o requires 0 <= o < bs => Across(payloads, i, o)))
  }

  ghost function AllImported<T>(layers: seq<Paged<T>>, ids: seq<nat>, payloads: seq<seq<seq<T>>>): (next: seq<Paged<T>>)
    requires |payloads| == |layers| && forall l :: 0 <= l < |layers| ==> |payloads[l]| == |ids|
    ensures |next| == |layers| && forall l :: 0 <= l < |next| ==> next[l] == ImportedPages(layers[l], ids, payloads[l])
  {
    seq(|layers|, l requires 0 <= l < |layers| => ImportedPages(layers[l], ids, payloads[l]))
  }

  lemma ImportedSlot<T>(layer: Paged<T>, ids: seq<nat>, pages: seq<seq<T>>, b: nat, o: nat)
    requires |pages| == |ids| && b < |layer| && o < |layer[b]| && (b in ids ==> o < |pages[IndexIn(ids, b)]|)
    ensures o < |ImportedPages(layer, ids, pages)[b]|
    ensures ImportedPages(layer, ids, pages)[b][o] == if b in ids then Full(pages[IndexIn(ids, b)][o]) else layer[b][o]
  {
  }

  lemma ColumnImported<T>(layers: seq<Paged<T>>, n: nat, bs: nat, ids: seq<nat>, payloads: seq<seq<seq<T>>>, b: nat, o: nat)
    requires SameShape(layers, n, bs) && |payloads| == |layers| && Pagewise(payloads, |ids|, bs) && b < n && o < bs
    requires SameShape(AllImported(layers, ids, payloads), n, bs)
    ensures Column(AllImported(layers, ids, payloads), b, o) ==
      if b in ids then Full(Across(payloads, IndexIn(ids, b), o)) else Column(layers, b, o)
  {
    var next: seq<Paged<T>> := AllImported(layers, ids, payloads);
    forall l | 0 <= l < |layers|
      ensures next[l][b][o] == if b in ids then Full(payloads[l][IndexIn(ids, b)][o]) else layers[l][b][o]
    {
      ImportedSlot(layers[l], ids, payloads[l], b, o);
    }
    if b in ids {
      assert next[0][b][o].Full?;
      assert Column(next, b, o).kv == Across(payloads, IndexIn(ids, b), o);
    } else if Column(layers, b, o).Full? {
      assert Column(next, b, o).kv == Column(layers, b, o).kv;
    }
  }

  lemma ImportedShape<T>(layers: seq<Paged<T>>, n: nat, bs: nat, ids: seq<nat>, payloads: seq<seq<seq<T>>>)
    requires SameShape(layers, n, bs) && |payloads| == |layers| && Pagewise(payloads, |ids|, bs)
    ensures SameShape(AllImported(layers, ids, payloads), n, bs)
  {
    var next := AllImported(layers, ids, payloads);
    forall l, b | 0 <= l < |layers| && 0 <= b < n
      ensures |next[l][b]| == bs
    {
      assert next[l] == ImportedPages(layers[l], ids, payloads[l]);
    }
  }

  /** Importing in every layer imports the stacked pages. */
  lemma ImportInView<T>(layers: seq<Paged<T>>, n: nat, bs: nat, ids: seq<nat>, payloads: seq<seq<seq<T>>>) returns (next: seq<Paged<T>>)
    requires SameShape(layers, n, bs) && |payloads| == |layers| && Pagewise(payloads, |ids|, bs)
    ensures next == AllImported(layers, ids, payloads) && SameShape(next, n, bs)
    ensures Columns(next, n, bs) == ImportedPages(Columns(layers, n, bs), ids, Stacked(payloads, |ids|, bs))
  {
    next := AllImported(layers, ids, payloads);
    ImportedShape(layers, n, bs, ids, payloads);
    var a, c := Columns(next, n, bs), ImportedPages(Columns(layers, n, bs), ids, Stacked(payloads, |ids|, bs));
    forall b | 0 <= b < n
      ensures a[b] == c[b]
    {
      assert |c[b]| == bs;
      forall o | 0 <= o < bs
        ensures a[b][o] == c[b][o]
      {
        ColumnImported(layers, n, bs, ids, payloads, b, o);
        ImportedSlot(Columns(layers, n, bs), ids, Stacked(payloads, |ids|, bs), b, o);
      }
    }
  }

  /** What is exported slot by slot is what every layer exports. */
  lemma ExportedInView<T>(layers: seq<Paged<T>>, n: nat, bs: nat, ids: seq<nat>, i: nat, o: nat, l: nat)
    requires SameShape(layers, n, bs) && CanExport(Columns(layers, n, bs), ids) && i < |ids| && o < bs && l < |layers|
    ensures CanExport(layers[l], ids) && |Exported(layers[l], ids)[i]| == |Exported(Columns(layers, n, bs), ids)[i]| == bs
    ensures |Exported(Columns(layers, n, bs), ids)[i][o]| == |layers|
    ensures Exported(layers[l], ids)[i][o] == Exported(Columns(layers, n, bs), ids)[i][o][l]
  {
    ExportInView(layers, n, bs, ids);
    ColumnFull(layers, n, bs, ids[i], o);
    assert FullBlock(Exported(layers[l], ids)[i]) == layers[l][ids[i]];
    assert FullBlock(Exported(Columns(layers, n, bs), ids)[i]) == Columns(layers, n, bs)[ids[i]];
    assert FullBlock(Exported(layers[l], ids)[i])[o] == layers[l][ids[i]][o];
    assert FullBlock(Exported(Columns(layers, n, bs), ids)[i])[o] == Column(layers, ids[i], o);
  }
}

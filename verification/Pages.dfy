/**
 The physical pages of one executor, block by block and offset by offset, and the K/V they hold.

 K/V are free terms: the entry of a position is built from the entries before it and its own token,
 so two entries are equal exactly when they stand for the same token prefix. A slot is Full when all
 layers have written it, Empty when none has, and Partial otherwise.
 */
module Pages {
  import opened Hashing
  import opened Spans
  import opened Wrappers
  import opened Sequences

  datatype KV = KV(past: seq<KV>, token: Token)

  datatype Slot<T> = Empty | Partial | Full(kv: T)

  /** [block][offset] */
  type Paged<T> = seq<seq<Slot<T>>>

  type Phys = Paged<KV>

  // ---------------------------------------------------------------- the model's forward pass

  /** The K/V of every position of a token sequence. */
  function PrefixKV(tokens: seq<Token>): (kvs: seq<KV>)
    ensures |kvs| == |tokens|
  {
    if tokens == [] then []
    else
      var past := PrefixKV(tokens[..|tokens| - 1]);
      past + [KV(past, tokens[|tokens| - 1])]
  }

  /** Running the model over `tokens` after the positions in `past`: all positions so far. */
  function Forward(past: seq<KV>, tokens: seq<Token>): (kvs: seq<KV>)
    ensures |kvs| == |past| + |tokens|
  {
    if tokens == [] then past
    else
      var before := Forward(past, tokens[..|tokens| - 1]);
      before + [KV(before, tokens[|tokens| - 1])]
  }

  /** Computing a prompt in chunks gives the K/V of computing it at once. */
  lemma {:induction false} ForwardContinues(a: seq<Token>, b: seq<Token>)
    ensures Forward(PrefixKV(a), b) == PrefixKV(a + b)
    decreases |b|
  {
    if b == [] {
      assert a + b == a;
    } else {
      ForwardContinues(a, b[..|b| - 1]);
      assert (a + b)[..|a + b| - 1] == a + b[..|b| - 1];
    }
  }

  lemma {:induction false} PrefixKVTake(tokens: seq<Token>, n: nat)
    requires n <= |tokens|
    ensures PrefixKV(tokens)[..n] == PrefixKV(tokens[..n])
    decreases |tokens|
  {
    if n < |tokens| {
      var init := tokens[..|tokens| - 1];
      PrefixKVTake(init, n);
      assert init[..n] == tokens[..n];
    } else {
      assert tokens[..n] == tokens;
    }
  }

  lemma {:induction false} PrefixKVGrows(a: seq<Token>, b: seq<Token>)
    requires a <= b
    ensures PrefixKV(b)[..|a|] == PrefixKV(a)
  {
    PrefixKVTake(b, |a|);
    assert b[..|a|] == a;
  }

  // ---------------------------------------------------------------- tables over pages

  ghost predicate Shaped<T>(phys: Paged<T>, bs: nat) {
    forall b :: 0 <= b < |phys| ==> |phys[b]| == bs
  }

  /** The first n positions are held, in order, by the blocks of the table. */
  ghost predicate Dense<T>(phys: Paged<T>, table: seq<nat>, bs: nat, kvs: seq<T>, n: nat) {
    && n <= |kvs| && n <= Span(|table|, bs)
    && (forall i, o :: 0 <= i < |table| && 0 <= o < bs && Span(i, bs) + o < n ==> HeldAt(phys, table, bs, kvs, i, o))
  }

  ghost predicate HeldAt<T>(phys: Paged<T>, table: seq<nat>, bs: nat, kvs: seq<T>, i: nat, o: nat)
    requires i < |table| && Span(i, bs) + o < |kvs|
  {
    table[i] < |phys| && o < |phys[table[i]]| && phys[table[i]][o] == Full(kvs[Span(i, bs) + o])
  }

  /** Everything that is in a page stays there. */
  ghost predicate Grows<T>(phys: Paged<T>, next: Paged<T>) {
    && |next| == |phys|
    && (forall b, o :: 0 <= b < |phys| && 0 <= o < |phys[b]| && phys[b][o].Full? ==>
          o < |next[b]| && next[b][o] == phys[b][o])
  }

  lemma DenseGrows<T>(phys: Paged<T>, next: Paged<T>, table: seq<nat>, bs: nat, kvs: seq<T>, n: nat)
    requires Dense(phys, table, bs, kvs, n) && Grows(phys, next)
    ensures Dense(next, table, bs, kvs, n)
  {
    forall i, o | 0 <= i < |table| && 0 <= o < bs && Span(i, bs) + o < n
      ensures HeldAt(next, table, bs, kvs, i, o)
    {
      assert HeldAt(phys, table, bs, kvs, i, o);
    }
  }

  /** Dense looks only at the blocks that the n positions need. */
  lemma DenseTable<T>(phys: Paged<T>, table: seq<nat>, other: seq<nat>, k: nat, bs: nat, kvs: seq<T>, more: seq<T>, n: nat)
    requires Dense(phys, table, bs, kvs, n) && k <= |table| && k <= |other| && table[..k] == other[..k] && n <= Span(k, bs)
    requires n <= |more| && kvs[..n] == more[..n]
    ensures Dense(phys, other, bs, more, n)
  {
    SpanMonotone(k, |other|, bs);
    forall i, o | 0 <= i < |other| && 0 <= o < bs && Span(i, bs) + o < n
      ensures HeldAt(phys, other, bs, more, i, o)
    {
      if i >= k {
        SpanMonotone(k, i, bs);
      }
      assert table[..k][i] == other[..k][i];
      assert HeldAt(phys, table, bs, kvs, i, o);
      var p := Span(i, bs) + o;
      assert kvs[..n][p] == more[..n][p];
    }
  }

  // ---------------------------------------------------------------- writing positions through a table

  /** Position p of a table lies in block p / bs at offset p % bs. */
  lemma PositionInTable(p: nat, table: seq<nat>, bs: nat)
    requires bs > 0 && p < Span(|table|, bs)
    ensures p / bs < |table| && p == Span(p / bs, bs) + p % bs && p % bs < bs
  {
    SpanOfQuotient(p, bs);
    if p / bs >= |table| {
      SpanMonotone(|table|, p / bs, bs);
    }
  }

  function SetSlot<T>(phys: Paged<T>, b: nat, o: nat, s: Slot<T>): (next: Paged<T>)
    requires b < |phys| && o < |phys[b]|
    ensures |next| == |phys| && forall c :: 0 <= c < |phys| ==> |next[c]| == |phys[c]|
  {
    phys[b := phys[b][o := s]]
  }

  /** Positions from..to written into the slots the table gives them. */
  ghost function Written<T>(phys: Paged<T>, table: seq<nat>, bs: nat, kvs: seq<T>, from: nat, upTo: nat): (next: Paged<T>)
    requires bs > 0 && Shaped(phys, bs) && from <= upTo <= |kvs| && upTo <= Span(|table|, bs)
    requires forall i :: 0 <= i < |table| ==> table[i] < |phys|
    ensures |next| == |phys| && Shaped(next, bs)
    decreases upTo
  {
    if from == upTo then phys
    else
      PositionInTable(upTo - 1, table, bs);
      var q := Written(phys, table, bs, kvs, from, upTo - 1);
      SetSlot(q, table[(upTo - 1) / bs], (upTo - 1) % bs, Full(kvs[upTo - 1]))
  }

  /** Entry i of the table takes a write of a position from `from` on. */
  predicate Touched(bs: nat, from: nat, i: nat) {
    Span(i + 1, bs) > from
  }

  /** The touched entries occur once in the table. */
  ghost predicate Apart(table: seq<nat>, bs: nat, from: nat) {
    forall i, j :: 0 <= i < |table| && 0 <= j < |table| && i != j && Touched(bs, from, i) ==> table[i] != table[j]
  }

  /** A write changes only slots that the table gives to positions from..to. */
  lemma {:induction false} WrittenElsewhere<T>(phys: Paged<T>, table: seq<nat>, bs: nat, kvs: seq<T>, from: nat, upTo: nat, b: nat, o: nat)
    requires bs > 0 && Shaped(phys, bs) && from <= upTo <= |kvs| && upTo <= Span(|table|, bs)
    requires forall i :: 0 <= i < |table| ==> table[i] < |phys|
    requires b < |phys| && o < bs
    requires forall i :: 0 <= i < |table| && table[i] == b && Touched(bs, from, i) ==> Span(i, bs) + o < from || Span(i, bs) + o >= upTo
    ensures Written(phys, table, bs, kvs, from, upTo)[b][o] == phys[b][o]
    decreases upTo
  {
    if from < upTo {
      WrittenElsewhere(phys, table, bs, kvs, from, upTo - 1, b, o);
      PositionInTable(upTo - 1, table, bs);
      var i := (upTo - 1) / bs;
      if table[i] == b {
        assert Touched(bs, from, i);
      }
    }
  }

  lemma SamePlace(bs: nat, i: nat, o: nat, p: nat)
    requires bs > 0 && o < bs && Span(i, bs) + o == p
    ensures p / bs == i && p % bs == o
  {
    QuotientOfSpan(p, bs, i);
  }

  /** The last position written is in its slot. */
  lemma LastWritten<T>(phys: Paged<T>, table: seq<nat>, bs: nat, kvs: seq<T>, from: nat, p: nat, i: nat, o: nat)
    requires bs > 0 && Shaped(phys, bs) && from <= p < |kvs| && p < Span(|table|, bs)
    requires forall j :: 0 <= j < |table| ==> table[j] < |phys|
    requires i < |table| && o < bs && Span(i, bs) + o == p
    ensures Written(phys, table, bs, kvs, from, p + 1)[table[i]][o] == Full(kvs[p])
  {
    SamePlace(bs, i, o, p);
  }

  /** Writing one more position leaves the slot of an earlier one. */
  lemma EarlierStays<T>(phys: Paged<T>, table: seq<nat>, bs: nat, kvs: seq<T>, from: nat, p: nat, i: nat, o: nat)
    requires bs > 0 && Shaped(phys, bs) && from <= p < |kvs| && p < Span(|table|, bs)
    requires forall j :: 0 <= j < |table| ==> table[j] < |phys|
    requires Apart(table, bs, from) && i < |table| && o < bs && from <= Span(i, bs) + o < p
    ensures Written(phys, table, bs, kvs, from, p + 1)[table[i]][o] == Written(phys, table, bs, kvs, from, p)[table[i]][o]
  {
    PositionInTable(p, table, bs);
    assert Touched(bs, from, i);
    assert p / bs != i ==> table[i] != table[p / bs];
  }

  /** Position p is in its slot after the write. */
  lemma {:induction false} WrittenAt<T>(phys: Paged<T>, table: seq<nat>, bs: nat, kvs: seq<T>, from: nat, upTo: nat, i: nat, o: nat)
    requires bs > 0 && Shaped(phys, bs) && from <= upTo <= |kvs| && upTo <= Span(|table|, bs)
    requires forall i :: 0 <= i < |table| ==> table[i] < |phys|
    requires Apart(table, bs, from)
    requires i < |table| && o < bs && from <= Span(i, bs) + o < upTo
    ensures Written(phys, table, bs, kvs, from, upTo)[table[i]][o] == Full(kvs[Span(i, bs) + o])
    decreases upTo
  {
    if Span(i, bs) + o == upTo - 1 {
      LastWritten(phys, table, bs, kvs, from, upTo - 1, i, o);
    } else {
      WrittenAt(phys, table, bs, kvs, from, upTo - 1, i, o);
      EarlierStays(phys, table, bs, kvs, from, upTo - 1, i, o);
    }
  }

  /** A chunk written after a dense prefix extends it. */
  lemma WrittenIsDense<T>(phys: Paged<T>, table: seq<nat>, bs: nat, kvs: seq<T>, from: nat, upTo: nat)
    requires bs > 0 && Shaped(phys, bs) && from <= upTo <= |kvs| && upTo <= Span(|table|, bs)
    requires forall i :: 0 <= i < |table| ==> table[i] < |phys|
    requires Apart(table, bs, from) && Dense(phys, table, bs, kvs, from)
    ensures Dense(Written(phys, table, bs, kvs, from, upTo), table, bs, kvs, upTo)
  {
    var next := Written(phys, table, bs, kvs, from, upTo);
    forall i, o | 0 <= i < |table| && 0 <= o < bs && Span(i, bs) + o < upTo
      ensures HeldAt(next, table, bs, kvs, i, o)
    {
      if Span(i, bs) + o < from {
        assert HeldAt(phys, table, bs, kvs, i, o);
        forall j | 0 <= j < |table| && table[j] == table[i] && Touched(bs, from, j)
          ensures Span(j, bs) + o < from
        {
          assert j == i;
        }
        WrittenElsewhere(phys, table, bs, kvs, from, upTo, table[i], o);
      } else {
        WrittenAt(phys, table, bs, kvs, from, upTo, i, o);
      }
    }
  }

  // ---------------------------------------------------------------- reading positions through a table

  /** The contents of the first c positions, or nothing when a slot has not been written. */
  ghost function Gathered<T>(phys: Paged<T>, table: seq<nat>, bs: nat, c: nat): (r: Option<seq<T>>)
    requires bs > 0
    ensures r.Some? ==> |r.value| == c
  {
    if c == 0 then Some([])
    else
      var before := Gathered(phys, table, bs, c - 1);
      if before.Some? && (c - 1) / bs < |table| && table[(c - 1) / bs] < |phys|
         && (c - 1) % bs < |phys[table[(c - 1) / bs]]| && phys[table[(c - 1) / bs]][(c - 1) % bs].Full?
      then Some(before.value + [phys[table[(c - 1) / bs]][(c - 1) % bs].kv])
      else None
  }

  /** The next position, if it is there. */
  lemma GatheredNext<T>(phys: Paged<T>, table: seq<nat>, bs: nat, p: nat, kvs: seq<T>, b: nat, o: nat)
    requires bs > 0 && Gathered(phys, table, bs, p) == Some(kvs)
    requires p / bs < |table| && b == table[p / bs] && o == p % bs && b < |phys| && o < |phys[b]|
    ensures Gathered(phys, table, bs, p + 1) == if phys[b][o].Full? then Some(kvs + [phys[b][o].kv]) else None
  {
  }

  /** A position that can be gathered is in a block of the table. */
  lemma GatheredFrom<T>(phys: Paged<T>, table: seq<nat>, bs: nat, p: nat) returns (b: nat, o: nat, kvs: seq<T>)
    requires bs > 0 && Gathered(phys, table, bs, p + 1).Some?
    ensures Gathered(phys, table, bs, p) == Some(kvs)
    ensures p / bs < |table| && b == table[p / bs] && o == p % bs && b < |phys| && o < |phys[b]| && phys[b][o].Full?
    ensures Gathered(phys, table, bs, p + 1) == Some(kvs + [phys[b][o].kv])
  {
    kvs := Gathered(phys, table, bs, p).value;
    b, o := table[p / bs], p % bs;
  }

  /** Once a position cannot be read, no longer prefix can. */
  lemma {:induction false} NoneAfter<T>(phys: Paged<T>, table: seq<nat>, bs: nat, c: nat, n: nat)
    requires bs > 0 && c <= n && Gathered(phys, table, bs, c).None?
    ensures Gathered(phys, table, bs, n).None?
    decreases n
  {
    if c < n {
      NoneAfter(phys, table, bs, c, n - 1);
    }
  }

  lemma {:induction false} GatheredIsDense<T>(phys: Paged<T>, table: seq<nat>, bs: nat, kvs: seq<T>, c: nat)
    requires bs > 0 && Dense(phys, table, bs, kvs, c)
    ensures Gathered(phys, table, bs, c) == Some(kvs[..c])
    decreases c
  {
    if c > 0 {
      GatheredIsDense(phys, table, bs, kvs, c - 1);
      PositionInTable(c - 1, table, bs);
      assert HeldAt(phys, table, bs, kvs, (c - 1) / bs, (c - 1) % bs);
      assert kvs[..c] == kvs[..c - 1] + [kvs[c - 1]];
    }
  }

  // ---------------------------------------------------------------- whole blocks

  function FullBlock<T>(kvs: seq<T>): (page: seq<Slot<T>>)
    ensures |page| == |kvs| && forall o :: 0 <= o < |kvs| ==> page[o] == Full(kvs[o])
  {
    seq(|kvs|, o requires 0 <= o < |kvs| => Full(kvs[o]))
  }

  predicate AllFull<T>(page: seq<Slot<T>>) {
    forall o :: 0 <= o < |page| ==> page[o].Full?
  }

  predicate AllEmpty<T>(page: seq<Slot<T>>) {
    forall o :: 0 <= o < |page| ==> page[o].Empty?
  }

  function Contents<T>(page: seq<Slot<T>>): (kvs: seq<T>)
    requires AllFull(page)
    ensures |kvs| == |page| && forall o :: 0 <= o < |kvs| ==> page[o] == Full(kvs[o])
  {
    seq(|page|, o requires 0 <= o < |page| => page[o].kv)
  }

  /** The blocks `ids` invalidated (release, and what execute does first to new blocks). */
  function Invalidated<T>(phys: Paged<T>, ids: seq<nat>): (next: Paged<T>)
    ensures |next| == |phys|
    ensures forall b :: 0 <= b < |phys| ==> |next[b]| == |phys[b]|
  {
    seq(|phys|, b requires 0 <= b < |phys| => if b in ids then seq(|phys[b]|, _ => Empty) else phys[b])
  }

  /** What export_blocks accepts: nonempty, distinct, existing, fully written blocks. */
  predicate CanExport<T>(phys: Paged<T>, ids: seq<nat>) {
    && ids != []
    && (forall i :: 0 <= i < |ids| ==> ids[i] < |phys| && AllFull(phys[ids[i]]))
    && Distinct(ids)
  }

  function Exported<T>(phys: Paged<T>, ids: seq<nat>): (payload: seq<seq<T>>)
    requires CanExport(phys, ids)
    ensures |payload| == |ids| && forall i :: 0 <= i < |ids| ==> FullBlock(payload[i]) == phys[ids[i]]
  {
    seq(|ids|, i requires 0 <= i < |ids| => Contents(phys[ids[i]]))
  }

  /** What import_blocks accepts: nonempty, distinct, existing, empty blocks and a payload of their shape. */
  predicate CanImportInto<T>(phys: Paged<T>, bs: nat, ids: seq<nat>, payload: seq<seq<T>>) {
    && ids != [] && |payload| == |ids|
    && (forall i :: 0 <= i < |ids| ==> ids[i] < |phys| && AllEmpty(phys[ids[i]]) && |payload[i]| == bs)
    && Distinct(ids)
  }

  function IndexIn(ids: seq<nat>, b: nat): (i: nat)
    requires b in ids
    ensures i < |ids| && ids[i] == b
  {
    if ids[0] == b then 0 else 1 + IndexIn(ids[1..], b)
  }

  function ImportedPages<T>(phys: Paged<T>, ids: seq<nat>, payload: seq<seq<T>>): (next: Paged<T>)
    requires |payload| == |ids|
    ensures |next| == |phys|
    ensures forall b :: 0 <= b < |phys| ==> next[b] == if b in ids then FullBlock(payload[IndexIn(ids, b)]) else phys[b]
  {
    seq(|phys|, b requires 0 <= b < |phys| => if b in ids then FullBlock(payload[IndexIn(ids, b)]) else phys[b])
  }

  lemma ImportedPageAt<T>(phys: Paged<T>, ids: seq<nat>, payload: seq<seq<T>>, i: nat)
    requires |payload| == |ids| && i < |ids| && ids[i] < |phys|
    requires Distinct(ids)
    ensures ImportedPages(phys, ids, payload)[ids[i]] == FullBlock(payload[i])
  {
    assert IndexIn(ids, ids[i]) == i;
  }

  lemma ImportedIsEmpty<T>(phys: Paged<T>, bs: nat, ids: seq<nat>, payload: seq<seq<T>>, b: nat)
    requires CanImportInto(phys, bs, ids, payload) && b < |phys|
    ensures b in ids ==> AllEmpty(phys[b])
  {
  }

  lemma ImportedElsewhere<T>(phys: Paged<T>, bs: nat, ids: seq<nat>, payload: seq<seq<T>>, b: nat)
    requires Shaped(phys, bs) && CanImportInto(phys, bs, ids, payload) && b < |phys| && !AllEmpty(phys[b])
    ensures ImportedPages(phys, ids, payload)[b] == phys[b]
  {
    ImportedIsEmpty(phys, bs, ids, payload, b);
  }

  /** An import only fills empty blocks: everything else stays where it is. */
  lemma ImportGrows<T>(phys: Paged<T>, bs: nat, ids: seq<nat>, payload: seq<seq<T>>)
    requires Shaped(phys, bs) && CanImportInto(phys, bs, ids, payload)
    ensures var next := ImportedPages(phys, ids, payload); Grows(phys, next) && Shaped(next, bs)
  {
    var next := ImportedPages(phys, ids, payload);
    forall b | 0 <= b < |phys|
      ensures |next[b]| == bs
    {
      if b in ids {
        assert |payload[IndexIn(ids, b)]| == bs;
      }
    }
    forall b, o | 0 <= b < |phys| && 0 <= o < |phys[b]| && phys[b][o].Full?
      ensures o < |next[b]| && next[b][o] == phys[b][o]
    {
      ImportedElsewhere(phys, bs, ids, payload, b);
    }
  }

  /** A block within the dense positions holds their K/V. */
  lemma DenseBlock<T>(phys: Paged<T>, table: seq<nat>, bs: nat, kvs: seq<T>, n: nat, i: nat)
    requires bs > 0 && Shaped(phys, bs) && Dense(phys, table, bs, kvs, n) && i < |table| && Span(i + 1, bs) <= n
    ensures table[i] < |phys| && phys[table[i]] == FullBlock(kvs[Span(i, bs)..Span(i + 1, bs)])
  {
    assert HeldAt(phys, table, bs, kvs, i, 0);
    forall o | 0 <= o < bs
      ensures phys[table[i]][o] == FullBlock(kvs[Span(i, bs)..Span(i + 1, bs)])[o]
    {
      assert HeldAt(phys, table, bs, kvs, i, o);
    }
  }
}

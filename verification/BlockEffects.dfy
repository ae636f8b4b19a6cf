/** What the loops of the block manager do to reference counts and to the free queue, in closed form. */
module BlockEffects {
  import opened Hashing
  import opened Sequences
  import opened BlockSpec

  /** The free queue holds exactly the unreferenced blocks, each once. */
  ghost predicate Queued(s: State) {
    && Distinct(s.free)
    && (forall b :: 0 <= b < |s.blocks| ==> (b in s.free <==> s.blocks[b].refs == 0))
  }

  /** Only reference counts and the free queue differ. */
  ghost predicate SameButRefs(s: State, t: State) {
    && |t.blocks| == |s.blocks|
    && t.blockSize == s.blockSize && t.tables == s.tables && t.index == s.index && t.pending == s.pending
    && (forall b :: 0 <= b < |s.blocks| ==> t.blocks[b] == s.blocks[b].(refs := t.blocks[b].refs))
  }

  lemma PushFreeEffect(s: State, id: nat)
    requires Queued(s) && id < |s.blocks| && s.blocks[id].refs > 0
    ensures var t := PushFree(s, id);
      SameButRefs(s, t) && Queued(t) && t.blocks[id].refs == s.blocks[id].refs - 1
    ensures forall b :: 0 <= b < |s.blocks| && b != id ==> PushFree(s, id).blocks[b] == s.blocks[b]
  {
    var t := PushFree(s, id);
    if s.blocks[id].refs == 1 {
      assert t.free[|s.free|] == id;
      forall b | 0 <= b < |t.blocks|
        ensures b in t.free <==> t.blocks[b].refs == 0
      {
        assert b in t.free <==> b in s.free || b == id;
      }
    }
  }

  /** Releasing a list of references lowers each count by the number of its occurrences. */
  lemma {:induction false} PushAllEffect(s: State, ids: seq<nat>)
    requires Queued(s) && InRange(ids, |s.blocks|)
    requires forall b :: 0 <= b < |s.blocks| ==> multiset(ids)[b] <= s.blocks[b].refs
    ensures var t := PushAll(s, ids); SameButRefs(s, t) && Queued(t)
    ensures forall b :: 0 <= b < |s.blocks| ==> PushAll(s, ids).blocks[b].refs == s.blocks[b].refs - multiset(ids)[b]
  {
    if ids != [] {
      var n := |ids| - 1;
      assert ids == ids[..n] + [ids[n]];
      assert multiset(ids) == multiset(ids[..n]) + multiset{ids[n]};
      PushAllEffect(s, ids[..n]);
      PushFreeEffect(PushAll(s, ids[..n]), ids[n]);
    }
  }

  lemma WithoutAt(xs: seq<nat>, x: nat, i: nat)
    requires x in xs && i < |xs| - 1
    ensures |Without(xs, x)| == |xs| - 1
    ensures Without(xs, x)[i] == xs[if i < IndexOf(xs, x) then i else i + 1]
  {
  }

  lemma WithoutKeeps(xs: seq<nat>, x: nat, y: nat)
    requires y in xs && y != x
    ensures y in Without(xs, x)
  {
    if x in xs {
      var i := IndexOf(xs, y);
      WithoutAt(xs, x, if i < IndexOf(xs, x) then i else i - 1);
    }
  }

  lemma WithoutDrops(xs: seq<nat>, x: nat, i: nat)
    requires Distinct(xs)
    requires i < |Without(xs, x)|
    ensures Without(xs, x)[i] in xs && Without(xs, x)[i] != x
  {
    if x in xs {
      WithoutAt(xs, x, i);
    }
  }

  lemma WithoutDistinct(xs: seq<nat>, x: nat, i: nat, j: nat)
    requires Distinct(xs)
    requires i < j < |Without(xs, x)|
    ensures Without(xs, x)[i] != Without(xs, x)[j]
  {
    if x in xs {
      WithoutAt(xs, x, i);
      WithoutAt(xs, x, j);
    }
  }

  lemma WithoutEffect(xs: seq<nat>, x: nat)
    requires Distinct(xs)
    ensures Distinct(Without(xs, x))
    ensures forall y :: y in Without(xs, x) <==> y in xs && y != x
  {
    var ys := Without(xs, x);
    forall i, j | 0 <= i < j < |ys|
      ensures ys[i] != ys[j]
    {
      WithoutDistinct(xs, x, i, j);
    }
    forall i | 0 <= i < |ys|
      ensures ys[i] in xs && ys[i] != x
    {
      WithoutDrops(xs, x, i);
    }
    forall y | y in xs && y != x
      ensures y in ys
    {
      WithoutKeeps(xs, x, y);
    }
  }

  lemma TouchEffect(s: State, id: nat)
    requires Queued(s) && id < |s.blocks|
    ensures var t := Touch(s, id);
      SameButRefs(s, t) && Queued(t) && t.blocks[id].refs == s.blocks[id].refs + 1
    ensures forall b :: 0 <= b < |s.blocks| && b != id ==> Touch(s, id).blocks[b] == s.blocks[b]
  {
    WithoutEffect(s.free, id);
  }

  lemma {:induction false} TouchAllEffect(s: State, ids: seq<nat>)
    requires Queued(s) && InRange(ids, |s.blocks|)
    ensures var t := TouchAll(s, ids); SameButRefs(s, t) && Queued(t)
    ensures forall b :: 0 <= b < |s.blocks| ==> TouchAll(s, ids).blocks[b].refs == s.blocks[b].refs + multiset(ids)[b]
  {
    if ids != [] {
      var n := |ids| - 1;
      assert ids == ids[..n] + [ids[n]];
      assert multiset(ids) == multiset(ids[..n]) + multiset{ids[n]};
      TouchAllEffect(s, ids[..n]);
      TouchEffect(TouchAll(s, ids[..n]), ids[n]);
    }
  }

  /** Reserving n blocks: they are the oldest free ones, distinct, and come back blank with one reference. */
  lemma PopEffect(s: State, n: nat)
    requires Queued(s) && InRange(s.free, |s.blocks|) && n <= |s.free|
    ensures Queued(Pop(s, n))
    ensures forall b :: 0 <= b < |s.blocks| ==>
      Pop(s, n).blocks[b] == if b in s.free[..n] then Meta(Hash([]), 1, 0, false) else s.blocks[b]
    ensures forall b :: b in s.free[..n] ==> b < |s.blocks| && s.blocks[b].refs == 0
    ensures forall b :: multiset(s.free[..n])[b] == if b in s.free[..n] then 1 else 0
  {
    var t, ids := Pop(s, n), s.free[..n];
    assert s.free == ids + t.free;
    forall b | 0 <= b < |t.blocks|
      ensures b in t.free <==> t.blocks[b].refs == 0
    {
      assert b in s.free <==> b in ids || b in t.free;
    }
    forall b
      ensures multiset(ids)[b] == if b in ids then 1 else 0
    {
      DistinctCount(ids, b);
    }
  }

  lemma {:induction false} DistinctCount(xs: seq<nat>, x: nat)
    requires Distinct(xs)
    ensures multiset(xs)[x] == if x in xs then 1 else 0
  {
    if xs != [] {
      var n := |xs| - 1;
      assert xs == xs[..n] + [xs[n]];
      DistinctCount(xs[..n], x);
      assert multiset(xs)[x] == multiset(xs[..n])[x] + multiset{xs[n]}[x];
    }
  }
}

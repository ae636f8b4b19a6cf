/** A scheduling round on the block metadata: works ask for blocks one after the other, and a batch is rolled back. */
module Offers {
  import opened BlockSpec
  import opened Queues

  /** The state after blocks were asked for, work by work. */
  function Tried(s: State, ws: seq<Work>): (r: State)
    requires s.blockSize > 0
    ensures |r.blocks| == |s.blocks| && r.blockSize == s.blockSize
  {
    if ws == [] then s else Allocate(Tried(s, ws[..|ws| - 1]), ws[|ws| - 1])
  }

  /** The works that got their blocks. */
  function Granted(s: State, ws: seq<Work>): seq<Work>
    requires s.blockSize > 0
  {
    if ws == [] then []
    else
      var before, w := ws[..|ws| - 1], ws[|ws| - 1];
      Granted(s, before) + (if CanAllocate(Tried(s, before), w) then [w] else [])
  }

  lemma TriedMore(s: State, ws: seq<Work>, w: Work)
    requires s.blockSize > 0
    ensures Tried(s, ws + [w]) == Allocate(Tried(s, ws), w)
    ensures Granted(s, ws + [w]) == Granted(s, ws) + (if CanAllocate(Tried(s, ws), w) then [w] else [])
  {
    assert (ws + [w])[..|ws|] == ws;
  }

  lemma Assoc<T>(a: seq<T>, b: seq<T>, c: seq<T>)
    ensures a + b + c == a + (b + c)
  {
  }

  lemma {:induction false} TriedConcat(s: State, a: seq<Work>, b: seq<Work>)
    requires s.blockSize > 0
    ensures Tried(s, a + b) == Tried(Tried(s, a), b)
    ensures Granted(s, a + b) == Granted(s, a) + Granted(Tried(s, a), b)
    decreases |b|
  {
    if b == [] {
      assert a + b == a;
    } else {
      var n := |b| - 1;
      TriedConcat(s, a, b[..n]);
      TriedMore(s, a + b[..n], b[n]);
      LastAppended(a, b);
      Assoc(Granted(s, a), Granted(Tried(s, a), b[..n]), if CanAllocate(Tried(Tried(s, a), b[..n]), b[n]) then [b[n]] else []);
    }
  }

  /** The batch is what was granted, and `t` the state after all that was asked for from `s` on. */
  ghost predicate Traced(s: State, t: State, batch: seq<Work>, tried: seq<Work>) {
    s.blockSize > 0 && t == Tried(s, tried) && batch == Granted(s, tried)
  }

  lemma TracedConcat(s: State, t: State, u: State, batch: seq<Work>, tried: seq<Work>, more: seq<Work>, moreTried: seq<Work>)
    requires Traced(s, t, batch, tried) && Traced(t, u, more, moreTried)
    ensures Traced(s, u, batch + more, tried + moreTried)
  {
    TriedConcat(s, tried, moreTried);
  }

  /** The rollbacks of the first k works of a batch. */
  ghost function RolledBack(s: State, batch: seq<Work>, k: nat): (r: State)
    requires Bounded(s) && k <= |batch|
    ensures Bounded(r) && |r.blocks| == |s.blocks|
  {
    if k == 0 then s
    else
      var t := RolledBack(s, batch, k - 1);
      RollbackBounded(t, batch[k - 1].workId);
      Rollback(t, batch[k - 1].workId)
  }
}

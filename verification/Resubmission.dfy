/** A failed Submit puts the executor's block metadata back to what it was before the batch was picked. */
module Resubmission {
  import opened Hashing
  import opened BlockSpec
  import opened Bags
  import opened BlockInv
  import opened RequestInv
  import opened ReleaseInv
  import opened NodeSteps
  import opened Offers
  import opened Undo

  /** What the engine guarantees of each of the works it offers. */
  ghost predicate AllMayAllocate(n: Node, ws: seq<Work>) {
    forall i :: 0 <= i < |ws| ==> MayAllocate(n, ws[i])
  }

  // ---------------------------------------------------------------- from both ends

  lemma {:induction false} AllocateLast(n: Node, ws: seq<Work>, w: Work)
    requires Sound(n) && CanAllocateAll(n, ws) && MayAllocate(AllocateAll(n, ws), w)
    requires (SoundIsInv(AllocateAll(n, ws)); CanAllocate(AllocateAll(n, ws).s, w))
    ensures CanAllocateAll(n, ws + [w]) && AllocateAll(n, ws + [w]) == AfterAllocate(AllocateAll(n, ws), w)
    decreases |ws|
  {
    if ws == [] {
      AllocateStep(n, w);
      assert ws + [w] == [w];
    } else {
      AllocateStep(n, ws[0]);
      AllocateLast(AfterAllocate(n, ws[0]), ws[1..], w);
      HeadKept(ws, w);
    }
  }

  lemma HeadKept<T>(ws: seq<T>, w: T)
    requires ws != []
    ensures (ws + [w])[0] == ws[0] && (ws + [w])[1..] == ws[1..] + [w]
  {
  }

  lemma {:induction false} RollbackLast(n: Node, ws: seq<Work>, w: Work)
    requires Sound(n)
    ensures RollbackAll(n, ws + [w]) == AfterRollback(RollbackAll(n, ws), w.workId)
    decreases |ws|
  {
    if ws == [] {
      assert ws + [w] == [w];
      RollbackStep(n, w.workId);
    } else {
      RollbackStep(n, ws[0].workId);
      RollbackLast(AfterRollback(n, ws[0].workId), ws[1..], w);
      HeadKept(ws, w);
    }
  }

  /** The scheduler's loop of rollbacks is the engine's. */
  lemma {:induction false} RolledBackIs(n: Node, batch: seq<Work>, k: nat)
    requires Sound(n) && Bounded(n.s) && k <= |batch|
    ensures RolledBack(n.s, batch, k) == RollbackAll(n, batch[..k]).s
  {
    if k > 0 {
      RolledBackIs(n, batch, k - 1);
      RollbackLast(n, batch[..k - 1], batch[k - 1]);
      assert batch[..k] == batch[..k - 1] + [batch[k - 1]];
    }
  }

  // ---------------------------------------------------------------- offers

  /** What holds after the works `granted` have their blocks. */
  ghost predicate Advanced(n: Node, m: Node, granted: seq<Work>) {
    && Sound(m) && m.progress == n.progress && |m.s.blocks| == |n.s.blocks|
    && (forall r :: r in n.s.tables ==> r in m.s.tables)
    && (forall v :: v in m.s.pending ==> (v in n.s.pending && m.s.pending[v] == n.s.pending[v]) || m.s.pending[v].requestId in Requests(granted))
  }

  lemma StillMayAllocate(n: Node, m: Node, granted: seq<Work>, w: Work)
    requires Advanced(n, m, granted) && MayAllocate(n, w) && w.requestId !in Requests(granted)
    ensures MayAllocate(m, w)
  {
  }

  lemma AllocateAdvances(n: Node, m: Node, granted: seq<Work>, w: Work)
    requires Advanced(n, m, granted) && MayAllocate(m, w) && (SoundIsInv(m); CanAllocate(m.s, w))
    ensures Advanced(n, AfterAllocate(m, w), granted + [w])
  {
    AllocateStep(m, w);
    var k, _ := AllocateOne(m, w);
    Appended(granted, w);
  }

  /** Asking for too many blocks changes nothing. */
  lemma RefusedIsNothing(n: Node, m: Node, granted: seq<Work>, w: Work)
    requires Advanced(n, m, granted) && MayAllocate(n, w) && m.s.blockSize > 0 && !CanAllocate(m.s, w)
    ensures Allocate(m.s, w) == m.s
  {
  }

  ghost predicate DistinctRequests(ws: seq<Work>) {
    forall i, j :: 0 <= i < j < |ws| ==> ws[i].requestId != ws[j].requestId
  }

  lemma DistinctLast(ws: seq<Work>, w: Work)
    requires DistinctRequests(ws + [w])
    ensures DistinctRequests(ws) && w.requestId !in Requests(ws)
  {
    var all := ws + [w];
    assert all[|ws|] == w && forall i :: 0 <= i < |ws| ==> all[i] == ws[i];
  }

  lemma LastTried(s: State, tried: seq<Work>) returns (before: seq<Work>, w: Work, granted: seq<Work>)
    requires s.blockSize > 0 && tried != [] && DistinctRequests(Granted(s, tried))
    ensures before == tried[..|tried| - 1] && w == tried[|tried| - 1] && granted == Granted(s, before) && DistinctRequests(granted)
    ensures Tried(s, before).blockSize > 0 && Tried(s, tried) == Allocate(Tried(s, before), w)
    ensures CanAllocate(Tried(s, before), w) ==> Granted(s, tried) == granted + [w] && w.requestId !in Requests(granted)
    ensures !CanAllocate(Tried(s, before), w) ==> Granted(s, tried) == granted
  {
    before, w := tried[..|tried| - 1], tried[|tried| - 1];
    granted := Granted(s, before);
    if CanAllocate(Tried(s, before), w) {
      DistinctLast(granted, w);
    } else {
      assert granted + [] == granted;
    }
  }

  /** The state after all offers is that of the granted works allocated one after the other. */
  lemma {:induction false} TriedIsAllocated(n: Node, tried: seq<Work>) returns (m: Node)
    requires Sound(n) && n.s.blockSize > 0 && AllMayAllocate(n, tried) && DistinctRequests(Granted(n.s, tried))
    ensures CanAllocateAll(n, Granted(n.s, tried)) && m == AllocateAll(n, Granted(n.s, tried)) && m.s == Tried(n.s, tried)
    ensures Advanced(n, m, Granted(n.s, tried))
    decreases |tried|
  {
    if tried == [] {
      m := n;
    } else {
      var before, w, granted := LastTried(n.s, tried);
      assert AllMayAllocate(n, before);
      var k := TriedIsAllocated(n, before);
      m := OneMoreTried(n, before, w, granted, k);
    }
  }

  lemma OneMoreTried(n: Node, before: seq<Work>, w: Work, granted: seq<Work>, m: Node) returns (k: Node)
    requires Sound(n) && n.s.blockSize > 0 && MayAllocate(n, w) && granted == Granted(n.s, before)
    requires CanAllocateAll(n, granted) && m == AllocateAll(n, granted) && m.s == Tried(n.s, before) && Advanced(n, m, granted)
    requires CanAllocate(Tried(n.s, before), w) ==> w.requestId !in Requests(granted)
    ensures k.s == Allocate(m.s, w)
    ensures CanAllocate(Tried(n.s, before), w) ==>
      CanAllocateAll(n, granted + [w]) && k == AllocateAll(n, granted + [w]) && Advanced(n, k, granted + [w])
    ensures !CanAllocate(Tried(n.s, before), w) ==> k == m
  {
    if CanAllocate(m.s, w) {
      StillMayAllocate(n, m, granted, w);
      AllocateLast(n, granted, w);
      AllocateAdvances(n, m, granted, w);
      k := AfterAllocate(m, w);
    } else {
      RefusedIsNothing(n, m, granted, w);
      k := m;
    }
  }

  /**
   * When Submit fails, patchExecute's rollbacks restore what was there before the batch was picked: every
   * reference count, every request's blocks and the number of free blocks; nothing was published.
   */
  lemma FailedSubmitRestores(n: Node, tried: seq<Work>)
    requires Sound(n) && n.s.blockSize > 0 && Bounded(n.s) && AllMayAllocate(n, tried) && NewWorks(n, Granted(n.s, tried))
    requires Bounded(Tried(n.s, tried))
    ensures var batch := Granted(n.s, tried); Undone(n.s, RolledBack(Tried(n.s, tried), batch, |batch|))
  {
    var batch := Granted(n.s, tried);
    var m := TriedIsAllocated(n, tried);
    RolledBackIs(m, batch, |batch|);
    assert batch[..|batch|] == batch;
    FailedSubmitUndoes(n, batch);
  }
}

/** A batch whose submission fails: every allocation made for it is undone, in the order it was made. */
module Undo {
  import opened Hashing
  import opened BlockSpec
  import opened Bags
  import opened BlockEffects
  import opened BlockInv
  import opened RequestInv
  import opened ReleaseInv
  import opened NodeSteps
  import opened EngineRuns

  /** Counts, free blocks, pending allocations and every request's blocks are as before; nothing was published. */
  ghost predicate Undone(s: State, t: State) {
    && |t.blocks| == |s.blocks| && t.pending == s.pending
    && (forall b :: 0 <= b < |s.blocks| ==> t.blocks[b].refs == s.blocks[b].refs)
    && |t.free| == |s.free|
    && (forall r :: Listed(t.tables, r) == Listed(s.tables, r))
    && (forall h :: h in t.index ==> h in s.index && t.index[h] == s.index[h])
  }

  /** No two works of a batch share a request or an id, and no id is pending yet. */
  ghost predicate NewWorks(n: Node, ws: seq<Work>) {
    && (forall i, j :: 0 <= i < j < |ws| ==> ws[i].requestId != ws[j].requestId && ws[i].workId != ws[j].workId)
    && (forall i :: 0 <= i < |ws| ==> ws[i].workId !in n.s.pending)
  }

  ghost function Requests(ws: seq<Work>): set<RequestId> {
    set i | 0 <= i < |ws| :: ws[i].requestId
  }

  ghost function Ids(ws: seq<Work>): set<WorkId> {
    set i | 0 <= i < |ws| :: ws[i].workId
  }

  /** The work's request has what it had before and the blocks the work added. */
  ghost predicate Extended(before: map<RequestId, seq<nat>>, s: State, rid: RequestId, wid: WorkId) {
    && wid in s.pending && s.pending[wid].requestId == rid
    && Listed(s.tables, rid) == Listed(before, rid) + s.pending[wid].added
  }

  ghost predicate AllExtended(before: map<RequestId, seq<nat>>, s: State, ws: seq<Work>) {
    forall i :: 0 <= i < |ws| ==> Extended(before, s, ws[i].requestId, ws[i].workId)
  }

  /** Nothing was published, pinned or reserved. */
  ghost predicate NothingNew(n: Node, m: Node) {
    && |m.s.blocks| == |n.s.blocks| && m.pinned == n.pinned && m.reserved == n.reserved
    && (forall h :: h in m.s.index ==> h in n.s.index && m.s.index[h] == n.s.index[h])
  }

  ghost predicate OthersKeep(before: map<RequestId, seq<nat>>, after: map<RequestId, seq<nat>>, rids: set<RequestId>) {
    forall r :: r !in rids ==> Listed(after, r) == Listed(before, r)
  }

  ghost predicate PendingGrows(before: map<WorkId, Allocation>, after: map<WorkId, Allocation>, ids: set<WorkId>) {
    && after.Keys == before.Keys + ids
    && (forall v :: v in before ==> v in after && after[v] == before[v])
  }

  /** m is n with the works `ws` allocated on top. */
  ghost predicate OnTop(n: Node, m: Node, ws: seq<Work>) {
    && NothingNew(n, m)
    && AllExtended(n.s.tables, m.s, ws)
    && OthersKeep(n.s.tables, m.s.tables, Requests(ws))
    && PendingGrows(n.s.pending, m.s.pending, Ids(ws))
  }

  ghost predicate OnTopBehind(n: Node, m: Node, ws: seq<Work>, depth: nat) {
    if depth == 0 then OnTop(n, m, ws) else OnTopBehind(n, m, ws, depth - 1)
  }

  /** OnTop, hidden as NodeSteps.Sound is. */
  ghost predicate Stacked(n: Node, m: Node, ws: seq<Work>) {
    OnTopBehind(n, m, ws, |n.s.blocks| + 1)
  }

  lemma {:induction false} OnTopBehindIsOnTop(n: Node, m: Node, ws: seq<Work>, depth: nat)
    ensures OnTopBehind(n, m, ws, depth) <==> OnTop(n, m, ws)
  {
    if depth > 0 {
      OnTopBehindIsOnTop(n, m, ws, depth - 1);
    }
  }

  lemma StackedIsOnTop(n: Node, m: Node, ws: seq<Work>)
    ensures Stacked(n, m, ws) <==> OnTop(n, m, ws)
  {
    OnTopBehindIsOnTop(n, m, ws, |n.s.blocks| + 1);
  }

  lemma Appended(ws: seq<Work>, w: Work)
    ensures Requests(ws + [w]) == Requests(ws) + {w.requestId} && Ids(ws + [w]) == Ids(ws) + {w.workId}
  {
    var all := ws + [w];
    assert all[|ws|] == w;
    forall i | 0 <= i < |ws|
      ensures ws[i].requestId in Requests(all) && ws[i].workId in Ids(all)
    {
      assert all[i] == ws[i];
    }
  }

  lemma Tail(ws: seq<Work>)
    requires ws != []
    ensures Requests(ws) == {ws[0].requestId} + Requests(ws[1..]) && Ids(ws) == {ws[0].workId} + Ids(ws[1..])
  {
    forall i | 0 < i < |ws|
      ensures ws[i].requestId in Requests(ws[1..]) && ws[i].workId in Ids(ws[1..])
    {
      assert ws[1..][i - 1] == ws[i];
    }
  }

  lemma FirstIsNew(n: Node, ws: seq<Work>)
    requires ws != [] && NewWorks(n, ws)
    ensures Requests(ws) == {ws[0].requestId} + Requests(ws[1..]) && Ids(ws) == {ws[0].workId} + Ids(ws[1..])
    ensures ws[0].requestId !in Requests(ws[1..]) && ws[0].workId !in Ids(ws[1..]) && ws[0].workId !in n.s.pending
  {
    Tail(ws);
    assert forall i :: 0 <= i < |ws| - 1 ==> ws[1..][i] == ws[i + 1];
  }

  // ---------------------------------------------------------------- allocating

  /** The works are allocated one after the other, each with enough free blocks. */
  ghost predicate CanAllocateAll(n: Node, ws: seq<Work>)
    requires Sound(n)
    decreases |ws|
  {
    ws == [] ||
    (MayAllocate(n, ws[0]) && (SoundIsInv(n); CanAllocate(n.s, ws[0])) &&
     (AllocateStep(n, ws[0]); CanAllocateAll(AfterAllocate(n, ws[0]), ws[1..])))
  }

  ghost function AllocateAll(n: Node, ws: seq<Work>): (m: Node)
    requires Sound(n) && CanAllocateAll(n, ws)
    ensures Sound(m)
    decreases |ws|
  {
    if ws == [] then n
    else
      AllocateStep(n, ws[0]);
      AllocateAll(AfterAllocate(n, ws[0]), ws[1..])
  }

  ghost function RollbackAll(n: Node, ws: seq<Work>): (m: Node)
    requires Sound(n)
    ensures Sound(m)
    decreases |ws|
  {
    if ws == [] then n
    else
      RollbackStep(n, ws[0].workId);
      RollbackAll(AfterRollback(n, ws[0].workId), ws[1..])
  }

  lemma AllocateOne(n: Node, w: Work) returns (m: Node, added: seq<nat>)
    requires Sound(n) && MayAllocate(n, w) && (SoundIsInv(n); CanAllocate(n.s, w))
    ensures m == AfterAllocate(n, w)
    ensures |m.s.blocks| == |n.s.blocks| && m.pinned == n.pinned && m.reserved == n.reserved
    ensures w.workId in m.s.pending && m.s.pending[w.workId].requestId == w.requestId
    ensures m.s.pending[w.workId].added == added && m.s.pending == n.s.pending[w.workId := m.s.pending[w.workId]]
    ensures m.s.tables == n.s.tables[w.requestId := Listed(n.s.tables, w.requestId) + added]
    ensures forall h :: h in m.s.index ==> h in n.s.index && m.s.index[h] == n.s.index[h]
  {
    SoundIsInv(n);
    AllocateFrame(n, w);
    m, added := AfterAllocate(n, w), NewAllocation(n.s, w).added;
  }

  lemma OneExtended(before: map<RequestId, seq<nat>>, k: State, m: State, rid: RequestId, wid: WorkId, rid': RequestId, wid': WorkId, added: seq<nat>)
    requires Extended(before, k, rid, wid) && rid != rid' && wid != wid'
    requires wid' in m.pending && m.pending == k.pending[wid' := m.pending[wid']]
    requires m.tables == k.tables[rid' := Listed(k.tables, rid') + added]
    ensures Extended(before, m, rid, wid)
  {
  }

  lemma AllocateExtends(before: map<RequestId, seq<nat>>, k: State, ws: seq<Work>, w: Work, m: State, added: seq<nat>)
    requires AllExtended(before, k, ws)
    requires w.requestId !in Requests(ws) && w.workId !in Ids(ws) && Listed(k.tables, w.requestId) == Listed(before, w.requestId)
    requires w.workId in m.pending && m.pending[w.workId].requestId == w.requestId
    requires m.pending[w.workId].added == added && m.pending == k.pending[w.workId := m.pending[w.workId]]
    requires m.tables == k.tables[w.requestId := Listed(k.tables, w.requestId) + added]
    ensures AllExtended(before, m, ws + [w])
  {
    var all := ws + [w];
    forall i | 0 <= i < |all|
      ensures Extended(before, m, all[i].requestId, all[i].workId)
    {
      if i < |ws| {
        assert all[i] == ws[i];
        assert ws[i].requestId in Requests(ws) && ws[i].workId in Ids(ws);
        OneExtended(before, k, m, ws[i].requestId, ws[i].workId, w.requestId, w.workId, added);
      }
    }
  }

  /** Allocating one more work puts it on top. */
  lemma AllocateOnTop(n: Node, k: Node, ws: seq<Work>, w: Work)
    requires Sound(k) && MayAllocate(k, w) && (SoundIsInv(k); CanAllocate(k.s, w)) && Stacked(n, k, ws)
    requires w.requestId !in Requests(ws) && w.workId !in Ids(ws) && w.workId !in n.s.pending
    ensures Stacked(n, AfterAllocate(k, w), ws + [w])
  {
    StackedIsOnTop(n, k, ws);
    var m, added := AllocateOne(k, w);
    AllocatedOnTop(n, k, ws, w, m, added);
    StackedIsOnTop(n, m, ws + [w]);
  }

  lemma AllocatedOnTop(n: Node, k: Node, ws: seq<Work>, w: Work, m: Node, added: seq<nat>)
    requires OnTop(n, k, ws)
    requires w.requestId !in Requests(ws) && w.workId !in Ids(ws) && w.workId !in n.s.pending
    requires |m.s.blocks| == |k.s.blocks| && m.pinned == k.pinned && m.reserved == k.reserved
    requires w.workId in m.s.pending && m.s.pending[w.workId].requestId == w.requestId
    requires m.s.pending[w.workId].added == added && m.s.pending == k.s.pending[w.workId := m.s.pending[w.workId]]
    requires m.s.tables == k.s.tables[w.requestId := Listed(k.s.tables, w.requestId) + added]
    requires forall h :: h in m.s.index ==> h in k.s.index && m.s.index[h] == k.s.index[h]
    ensures OnTop(n, m, ws + [w])
  {
    Appended(ws, w);
    AllocateExtends(n.s.tables, k.s, ws, w, m.s, added);
  }

  lemma NewWork(n: Node, done: seq<Work>, ws: seq<Work>)
    requires ws != [] && NewWorks(n, done + ws)
    ensures ws[0].requestId !in Requests(done) && ws[0].workId !in Ids(done) && ws[0].workId !in n.s.pending
  {
    var all := done + ws;
    assert all[|done|] == ws[0];
    assert forall i :: 0 <= i < |done| ==> all[i] == done[i];
  }

  lemma Shift<T>(a: seq<T>, b: seq<T>)
    requires b != []
    ensures a + [b[0]] + b[1..] == a + b
  {
  }

  lemma {:induction false} AllocateAllOnTop(n: Node, k: Node, done: seq<Work>, ws: seq<Work>)
    requires Sound(k) && CanAllocateAll(k, ws) && Stacked(n, k, done) && NewWorks(n, done + ws)
    ensures Stacked(n, AllocateAll(k, ws), done + ws)
    decreases |ws|
  {
    if ws == [] {
      assert done + ws == done;
    } else {
      NewWork(n, done, ws);
      AllocateStep(k, ws[0]);
      AllocateOnTop(n, k, done, ws[0]);
      Shift(done, ws);
      AllocateAllOnTop(n, AfterAllocate(k, ws[0]), done + [ws[0]], ws[1..]);
    }
  }

  // ---------------------------------------------------------------- rolling back

  lemma RollbackOne(n: Node, wid: WorkId) returns (m: Node, rid: RequestId, keep: nat)
    requires Sound(n) && wid in n.s.pending
    ensures m == AfterRollback(n, wid) && rid == n.s.pending[wid].requestId
    ensures |m.s.blocks| == |n.s.blocks| && m.pinned == n.pinned && m.reserved == n.reserved && m.s.index == n.s.index
    ensures m.s.pending == n.s.pending - {wid}
    ensures keep + |n.s.pending[wid].added| == |Listed(n.s.tables, rid)|
    ensures m.s.tables == CutTables(n.s.tables, rid, keep)
  {
    SoundIsInv(n);
    assert AllocationOk(n, n.s.pending[wid]);
    var pending;
    rid, keep, pending := RollbackIsDrop(n, wid);
    DropFrame(n, rid, keep, pending);
    m := AfterRollback(n, wid);
  }

  lemma RollbackExtended(before: map<RequestId, seq<nat>>, k: State, m: State, ws: seq<Work>, rid: RequestId, wid: WorkId, keep: nat)
    requires AllExtended(before, k, ws) && rid !in Requests(ws) && wid !in Ids(ws)
    requires m.pending == k.pending - {wid} && keep <= |Listed(k.tables, rid)| && m.tables == CutTables(k.tables, rid, keep)
    ensures AllExtended(before, m, ws)
  {
    forall i | 0 <= i < |ws|
      ensures Extended(before, m, ws[i].requestId, ws[i].workId)
    {
      assert ws[i].requestId in Requests(ws) && ws[i].workId in Ids(ws);
      assert Extended(before, k, ws[i].requestId, ws[i].workId);
    }
  }

  lemma OthersStillKeep(before: map<RequestId, seq<nat>>, kt: map<RequestId, seq<nat>>, rids: set<RequestId>, rid: RequestId, keep: nat, added: seq<nat>)
    requires OthersKeep(before, kt, {rid} + rids)
    requires Listed(kt, rid) == Listed(before, rid) + added && keep + |added| == |Listed(kt, rid)|
    ensures OthersKeep(before, CutTables(kt, rid, keep), rids)
  {
    var mt := CutTables(kt, rid, keep);
    assert Listed(mt, rid) == Listed(before, rid);
    forall r | r !in rids
      ensures Listed(mt, r) == Listed(before, r)
    {
      assert r == rid || r !in {rid} + rids;
    }
  }

  lemma PendingShrinks(before: map<WorkId, Allocation>, kp: map<WorkId, Allocation>, ids: set<WorkId>, wid: WorkId)
    requires PendingGrows(before, kp, {wid} + ids) && wid !in ids && wid !in before
    ensures PendingGrows(before, kp - {wid}, ids)
  {
  }

  lemma RolledBackOnTop(n: Node, k: Node, ws: seq<Work>, m: Node, rid: RequestId, keep: nat)
    requires OnTop(n, k, ws) && ws != [] && NewWorks(n, ws)
    requires var wid := ws[0].workId;
      && wid in k.s.pending && rid == k.s.pending[wid].requestId
      && m.s.pending == k.s.pending - {wid} && keep + |k.s.pending[wid].added| == |Listed(k.s.tables, rid)|
    requires |m.s.blocks| == |k.s.blocks| && m.pinned == k.pinned && m.reserved == k.reserved && m.s.index == k.s.index
    requires m.s.tables == CutTables(k.s.tables, rid, keep)
    ensures OnTop(n, m, ws[1..])
  {
    var wid, rest := ws[0].workId, ws[1..];
    assert Extended(n.s.tables, k.s, ws[0].requestId, wid);
    FirstIsNew(n, ws);
    RollbackExtended(n.s.tables, k.s, m.s, rest, rid, wid, keep);
    OthersStillKeep(n.s.tables, k.s.tables, Requests(rest), rid, keep, k.s.pending[wid].added);
    PendingShrinks(n.s.pending, k.s.pending, Ids(rest), wid);
  }

  /** Rolling back the first work takes it off. */
  lemma RollbackOnTop(n: Node, k: Node, ws: seq<Work>)
    requires Sound(k) && Stacked(n, k, ws) && ws != [] && NewWorks(n, ws)
    ensures Stacked(n, AfterRollback(k, ws[0].workId), ws[1..])
  {
    StackedIsOnTop(n, k, ws);
    assert Extended(n.s.tables, k.s, ws[0].requestId, ws[0].workId);
    var m, rid, keep := RollbackOne(k, ws[0].workId);
    RolledBackOnTop(n, k, ws, m, rid, keep);
    StackedIsOnTop(n, m, ws[1..]);
  }

  lemma {:induction false} RollbackAllOnTop(n: Node, k: Node, ws: seq<Work>)
    requires Sound(k) && Stacked(n, k, ws) && NewWorks(n, ws)
    ensures Stacked(n, RollbackAll(k, ws), [])
    decreases |ws|
  {
    if ws != [] {
      RollbackStep(k, ws[0].workId);
      RollbackOnTop(n, k, ws);
      RollbackAllOnTop(n, AfterRollback(k, ws[0].workId), ws[1..]);
    }
  }

  // ---------------------------------------------------------------- nothing is left on top

  /** Families with the same lists have the same sum; an absent list counts as an empty one. */
  lemma {:induction false} BagOfLists(a: map<RequestId, seq<nat>>, b: map<RequestId, seq<nat>>)
    requires forall r :: Listed(a, r) == Listed(b, r)
    ensures Bag(a) == Bag(b)
    decreases |a|
  {
    if a == map[] {
      forall r | r in b
        ensures b[r] == []
      {
        assert Listed(a, r) == Listed(b, r);
      }
      EmptyBag(b);
    } else {
      var r :| r in a;
      forall q
        ensures Listed(a - {r}, q) == Listed(b - {r}, q)
      {
        assert Listed(a, q) == Listed(b, q);
      }
      BagOfLists(a - {r}, b - {r});
      BagRemove(a, r);
      assert Listed(a, r) == Listed(b, r);
      if r in b {
        BagRemove(b, r);
      } else {
        assert b - {r} == b;
      }
    }
  }

  lemma SameBag(n: Node, m: Node)
    requires Sound(n) && Sound(m) && |m.s.blocks| == |n.s.blocks| && m.pinned == n.pinned && m.reserved == n.reserved
    requires forall r :: Listed(m.s.tables, r) == Listed(n.s.tables, r)
    ensures forall b :: 0 <= b < |n.s.blocks| ==> m.s.blocks[b].refs == n.s.blocks[b].refs
    ensures |m.s.free| == |n.s.free|
  {
    SoundIsInv(n);
    SoundIsInv(m);
    BagOfLists(m.s.tables, n.s.tables);
    SameRefsSameFree(n.s, m.s);
  }

  lemma NothingOnTop(n: Node, m: Node)
    requires Sound(n) && Sound(m) && Stacked(n, m, [])
    ensures Undone(n.s, m.s)
  {
    StackedIsOnTop(n, m, []);
    assert Ids([]) == {} && Requests([]) == {};
    SameBag(n, m);
    assert m.s.pending == n.s.pending;
  }

  /**
   * When a batch cannot be submitted, rolling its works back in batch order restores every block's
   * reference count, every request's blocks and the number of free blocks, and publishes nothing.
   */
  lemma FailedSubmitUndoes(n: Node, ws: seq<Work>)
    requires Sound(n) && CanAllocateAll(n, ws) && NewWorks(n, ws)
    ensures Undone(n.s, RollbackAll(AllocateAll(n, ws), ws).s)
  {
    assert Ids([]) == {} && Requests([]) == {};
    assert OnTop(n, n, []);
    StackedIsOnTop(n, n, []);
    assert [] + ws == ws;
    AllocateAllOnTop(n, n, [], ws);
    RollbackAllOnTop(n, AllocateAll(n, ws), ws);
    NothingOnTop(n, RollbackAll(AllocateAll(n, ws), ws));
  }
}

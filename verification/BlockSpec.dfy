/**
 The block metadata of one executor as a value, and what each operation of the Go block manager
 does to it. `free` is the free queue in order, oldest first; the linked fields that implement it
 are in BlockManager.
 */
module BlockSpec {
  import opened Hashing
  import opened Spans
  import opened Wrappers

  datatype RequestId = RequestId(name: string)
  datatype WorkId = WorkId(name: string)
  datatype ExecutorId = ExecutorId(name: string)

  datatype WorkPhase = Unspecified | Prefill | Decode

  datatype Meta = Meta(hash: Hash, refs: nat, tokens: nat, cached: bool)

  datatype Allocation = Allocation(
    requestId: RequestId,
    phase: WorkPhase,
    table: seq<nat>,
    hashes: seq<Hash>,
    added: seq<nat>,
    tokensAfterCommit: nat)

  /** A WorkItem: `cacheBlocks` and `hashesTotal` are its prefix match. */
  datatype Work = Work(
    workId: WorkId,
    requestId: RequestId,
    executorId: ExecutorId,
    phase: WorkPhase,
    cacheBlocks: seq<nat>,
    hashesTotal: seq<Hash>,
    tokens: seq<Token>,
    prefillOffset: nat,
    numNewTokens: nat,
    tokenCntTotal: nat,
    generatedTokens: nat,
    maxTokens: nat)

  /** What MatchPrefix found for a prompt. */
  datatype PrefixMatch = PrefixMatch(hit: bool, cachedTokens: nat, blockIds: seq<nat>, hashesTotal: seq<Hash>)

  /** What the read-only probe reports of one executor. */
  datatype Candidate = Candidate(executorId: ExecutorId, cachedTokens: nat, matchedHashes: seq<Hash>)

  datatype State = State(
    blockSize: nat,
    blocks: seq<Meta>,
    free: seq<nat>,
    tables: map<RequestId, seq<nat>>,
    index: map<Hash, nat>,
    pending: map<WorkId, Allocation>)

  const FreshMeta := Meta(Hash([]), 0, 0, false)

  function Initial(blockSize: nat, n: nat): State {
    State(blockSize, seq(n, _ => FreshMeta), seq(n, i => i), map[], map[], map[])
  }

  /** Every block id the state mentions is a block. */
  ghost predicate InRange(ids: seq<nat>, n: nat) {
    forall i :: 0 <= i < |ids| ==> ids[i] < n
  }

  ghost predicate Bounded(s: State) {
    && s.blockSize > 0
    && InRange(s.free, |s.blocks|)
    && (forall r :: r in s.tables ==> InRange(s.tables[r], |s.blocks|))
    && (forall h :: h in s.index ==> s.index[h] < |s.blocks|)
    && (forall w :: w in s.pending ==>
          InRange(s.pending[w].table, |s.blocks|) && InRange(s.pending[w].added, |s.blocks|))
  }

  // ---------------------------------------------------------------- the free queue

  /** One reference to block `id` less; a block without references stays as it is. */
  function Released(blocks: seq<Meta>, id: nat): (r: seq<Meta>)
    requires id < |blocks|
    ensures |r| == |blocks|
  {
    if blocks[id].refs == 0 then blocks else blocks[id := blocks[id].(refs := blocks[id].refs - 1)]
  }

  function PushFree(s: State, id: nat): (r: State)
    requires id < |s.blocks|
    ensures |r.blocks| == |s.blocks|
  {
    s.(blocks := Released(s.blocks, id), free := if s.blocks[id].refs == 1 then s.free + [id] else s.free)
  }

  function PushAll(s: State, ids: seq<nat>): (r: State)
    requires InRange(ids, |s.blocks|)
    ensures |r.blocks| == |s.blocks|
  {
    if ids == [] then s
    else PushFree(PushAll(s, ids[..|ids| - 1]), ids[|ids| - 1])
  }

  function IndexOf(xs: seq<nat>, x: nat): (i: nat)
    requires x in xs
    ensures i < |xs| && xs[i] == x && x !in xs[..i]
  {
    if xs[0] == x then 0 else 1 + IndexOf(xs[1..], x)
  }

  /** The first occurrence of x taken out of xs. */
  function Without(xs: seq<nat>, x: nat): seq<nat> {
    if x in xs then xs[..IndexOf(xs, x)] + xs[IndexOf(xs, x) + 1..] else xs
  }

  function Touch(s: State, id: nat): (r: State)
    requires id < |s.blocks|
    ensures |r.blocks| == |s.blocks|
  {
    var b := s.blocks[id];
    s.(blocks := s.blocks[id := b.(refs := b.refs + 1)], free := Without(s.free, id))
  }

  function TouchAll(s: State, ids: seq<nat>): (r: State)
    requires InRange(ids, |s.blocks|)
    ensures |r.blocks| == |s.blocks|
  {
    if ids == [] then s
    else Touch(TouchAll(s, ids[..|ids| - 1]), ids[|ids| - 1])
  }

  /** The hashes the index loses when the blocks `ids` are popped. */
  function Evicted(blocks: seq<Meta>, ids: seq<nat>): set<Hash> {
    set i | i in ids && i < |blocks| && blocks[i].cached :: blocks[i].hash
  }

  /** Popped blocks are blank and have one reference. */
  function Taken(blocks: seq<Meta>, ids: seq<nat>): (r: seq<Meta>)
    ensures |r| == |blocks|
  {
    seq(|blocks|, i requires 0 <= i < |blocks| => if i in ids then FreshMeta.(refs := 1) else blocks[i])
  }

  /** The n oldest free blocks leave the queue with one reference each; the cached ones are evicted. */
  function Pop(s: State, n: nat): (r: State)
    requires n <= |s.free|
    ensures |r.blocks| == |s.blocks|
  {
    var ids := s.free[..n];
    s.(blocks := Taken(s.blocks, ids), free := s.free[n..], index := s.index - Evicted(s.blocks, ids))
  }

  // ---------------------------------------------------------------- requests

  /** The blocks of the longest run of indexed hashes. */
  function Run(index: map<Hash, nat>, hashes: seq<Hash>): (ids: seq<nat>)
    ensures |ids| <= |hashes|
    ensures forall i :: 0 <= i < |ids| ==> hashes[i] in index && ids[i] == index[hashes[i]]
    ensures |ids| < |hashes| ==> hashes[|ids|] !in index
  {
    if hashes == [] || hashes[0] !in index then []
    else [index[hashes[0]]] + Run(index, hashes[1..])
  }

  /** MatchPrefix, given the hashes a prompt may match. */
  function Match(s: State, rid: RequestId, matchable: seq<Hash>): (r: State)
    requires Bounded(s)
    ensures |r.blocks| == |s.blocks|
  {
    var ids := Run(s.index, matchable);
    var t := TouchAll(s, ids);
    t.(tables := t.tables[rid := ids])
  }

  function RequiredTokens(w: Work): nat {
    match w.phase
    case Prefill => w.prefillOffset + w.numNewTokens
    case Decode => w.tokenCntTotal
    case Unspecified => 0
  }

  /** The table a work item starts from, and the state in which it is recorded. */
  function Existing(s: State, w: Work): seq<nat> {
    if w.requestId in s.tables then s.tables[w.requestId] else w.cacheBlocks
  }

  function Adopt(s: State, w: Work): (r: State)
    ensures r.blocks == s.blocks
  {
    if w.requestId !in s.tables && w.cacheBlocks != [] then
      s.(tables := s.tables[w.requestId := w.cacheBlocks])
    else s
  }

  function BlocksNeeded(s: State, w: Work): nat
    requires s.blockSize > 0
  {
    var total := CeilDiv(RequiredTokens(w), s.blockSize);
    if total > |Existing(s, w)| then total - |Existing(s, w)| else 0
  }

  function CanAllocate(s: State, w: Work): bool
    requires s.blockSize > 0
  {
    BlocksNeeded(s, w) <= |s.free|
  }

  function NewAllocation(s: State, w: Work): Allocation
    requires s.blockSize > 0 && CanAllocate(s, w)
  {
    var ids := s.free[..BlocksNeeded(s, w)];
    Allocation(w.requestId, w.phase, Existing(s, w) + ids, w.hashesTotal, ids, RequiredTokens(w))
  }

  /** AllocateBlocks: the missing blocks are popped and the allocation is pending. With too few free blocks only the adopted table remains. */
  function Allocate(s: State, w: Work): (r: State)
    requires s.blockSize > 0
    ensures |r.blocks| == |s.blocks|
  {
    if !CanAllocate(s, w) then Adopt(s, w)
    else
      var a := NewAllocation(s, w);
      var t := Pop(s, |a.added|);
      t.(tables := t.tables[w.requestId := a.table], pending := t.pending[w.workId := a])
  }

  /** The number of tokens that block `idx` of a table holds once `total` tokens are committed. */
  function TokensInBlock(total: nat, idx: nat, bs: nat): nat {
    if total <= Span(idx, bs) then 0 else if total - Span(idx, bs) >= bs then bs else total - Span(idx, bs)
  }

  /** The first loop of Commit, for the first k entries of the table. */
  function SetTokens(s: State, a: Allocation, k: nat): (r: State)
    requires k <= |a.table| && InRange(a.table, |s.blocks|)
    ensures |r.blocks| == |s.blocks|
  {
    if k == 0 then s
    else
      var t := SetTokens(s, a, k - 1);
      var id := a.table[k - 1];
      t.(blocks := t.blocks[id := t.blocks[id].(tokens := TokensInBlock(a.tokensAfterCommit, k - 1, s.blockSize))])
  }

  predicate Publishes(s: State, a: Allocation, idx: nat)
    requires idx < |a.table| && a.table[idx] < |s.blocks|
  {
    && a.phase == Prefill
    && !s.blocks[a.table[idx]].cached
    && s.blocks[a.table[idx]].tokens == s.blockSize
    && idx < |a.hashes|
    && a.hashes[idx] !in s.index
  }

  function Publish(s: State, id: nat, h: Hash): (r: State)
    requires id < |s.blocks|
    ensures |r.blocks| == |s.blocks|
  {
    s.(blocks := s.blocks[id := s.blocks[id].(hash := h, cached := true)], index := s.index[h := id])
  }

  /** The second loop of Commit. */
  function PublishAll(s: State, a: Allocation, k: nat): (r: State)
    requires k <= |a.table| && InRange(a.table, |s.blocks|)
    ensures |r.blocks| == |s.blocks|
  {
    if k == 0 then s
    else
      var t := PublishAll(s, a, k - 1);
      if Publishes(t, a, k - 1) then Publish(t, a.table[k - 1], a.hashes[k - 1]) else t
  }

  function Commit(s: State, wid: WorkId): (r: State)
    requires Bounded(s)
    ensures |r.blocks| == |s.blocks|
  {
    if wid !in s.pending then s
    else
      var a := s.pending[wid];
      var t := SetTokens(s.(pending := s.pending - {wid}), a, |a.table|);
      PublishAll(t, a, |a.table|)
  }

  function Cut(table: seq<nat>, n: nat): seq<nat> {
    if |table| >= n then table[..|table| - n] else table
  }

  function Rollback(s: State, wid: WorkId): (r: State)
    requires Bounded(s)
    ensures |r.blocks| == |s.blocks|
  {
    if wid !in s.pending then s
    else
      var a := s.pending[wid];
      var held := if a.requestId in s.tables then s.tables[a.requestId] else [];
      var table := Cut(held, |a.added|);
      var tables := if table == [] then s.tables - {a.requestId} else s.tables[a.requestId := table];
      PushAll(s.(pending := s.pending - {wid}, tables := tables), a.added)
  }

  function FreeRequest(s: State, rid: RequestId): (r: State)
    requires Bounded(s)
    ensures |r.blocks| == |s.blocks|
  {
    var table := if rid in s.tables then s.tables[rid] else [];
    PushAll(s.(tables := s.tables - {rid},
               pending := map w | w in s.pending && s.pending[w].requestId != rid :: s.pending[w]),
            table)
  }

  // ---------------------------------------------------------------- transfers

  predicate Transferable(s: State, h: Hash) {
    && h in s.index
    && s.index[h] < |s.blocks|
    && var b := s.blocks[s.index[h]]; b.cached && b.hash == h && b.tokens == s.blockSize
  }

  /** What probePrefix reports: the leading hashes whose blocks could be pinned. */
  function TransferableRun(s: State, hashes: seq<Hash>): (hs: seq<Hash>)
    ensures |hs| <= |hashes| && hs == hashes[..|hs|]
    ensures forall i :: 0 <= i < |hs| ==> Transferable(s, hashes[i])
    ensures |hs| < |hashes| ==> !Transferable(s, hashes[|hs|])
  {
    if hashes == [] || !Transferable(s, hashes[0]) then []
    else [hashes[0]] + TransferableRun(s, hashes[1..])
  }

  predicate CanPin(s: State, hashes: seq<Hash>) {
    forall i :: 0 <= i < |hashes| ==> Transferable(s, hashes[i])
  }

  function PinnedIds(s: State, hashes: seq<Hash>): (ids: seq<nat>)
    requires CanPin(s, hashes)
    ensures |ids| == |hashes| && InRange(ids, |s.blocks|)
    ensures forall i :: 0 <= i < |ids| ==> ids[i] == s.index[hashes[i]]
  {
    seq(|hashes|, i requires 0 <= i < |hashes| => s.index[hashes[i]])
  }

  function Pin(s: State, hashes: seq<Hash>): (r: State)
    requires CanPin(s, hashes)
    ensures |r.blocks| == |s.blocks|
  {
    TouchAll(s, PinnedIds(s, hashes))
  }

  predicate Reserved(s: State, ids: seq<nat>) {
    forall i :: 0 <= i < |ids| ==> ids[i] < |s.blocks| && ids[i] !in s.free && s.blocks[ids[i]].refs > 0
  }

  /** An existing copy of h wins over the imported block. */
  predicate ExistingWins(index: map<Hash, nat>, id: nat, h: Hash) {
    h in index && index[h] != id
  }

  /** The destination block `id` as the full, published block of hash h. */
  function Fill(s: State, id: nat, h: Hash): (r: State)
    requires id < |s.blocks|
    ensures |r.blocks| == |s.blocks|
  {
    s.(blocks := s.blocks[id := Meta(h, s.blocks[id].refs, s.blockSize, true)], index := s.index[h := id])
  }

  /** One iteration of commitImportedBlocks: publish the full block unless a copy exists; end the reservation. */
  function Import(s: State, id: nat, h: Hash): (r: State)
    requires id < |s.blocks|
    ensures |r.blocks| == |s.blocks|
  {
    var b := if ExistingWins(s.index, id, h) then s.blocks[id] else Meta(h, s.blocks[id].refs, s.blockSize, true);
    s.(blocks := Released(s.blocks[id := b], id),
       free := if b.refs == 1 then s.free + [id] else s.free,
       index := if ExistingWins(s.index, id, h) then s.index else s.index[h := id])
  }

  lemma ImportIsFillThenPush(s: State, id: nat, h: Hash)
    requires id < |s.blocks|
    ensures Import(s, id, h) == PushFree(if ExistingWins(s.index, id, h) then s else Fill(s, id, h), id)
  {
    if ExistingWins(s.index, id, h) {
      assert s.blocks[id := s.blocks[id]] == s.blocks;
    }
  }

  function ImportAll(s: State, ids: seq<nat>, hashes: seq<Hash>, k: nat): (r: State)
    requires |ids| == |hashes| && k <= |ids| && InRange(ids, |s.blocks|)
    ensures |r.blocks| == |s.blocks|
  {
    if k == 0 then s
    else Import(ImportAll(s, ids, hashes, k - 1), ids[k - 1], hashes[k - 1])
  }

  predicate CanImport(s: State, ids: seq<nat>, hashes: seq<Hash>) {
    |ids| == |hashes| && Reserved(s, ids)
  }

  // ---------------------------------------------------------------- ids stay in range

  lemma {:induction false} PushAllBounded(s: State, ids: seq<nat>)
    requires Bounded(s) && InRange(ids, |s.blocks|)
    ensures Bounded(PushAll(s, ids))
  {
    if ids != [] {
      PushAllBounded(s, ids[..|ids| - 1]);
    }
  }

  lemma {:induction false} TouchAllBounded(s: State, ids: seq<nat>)
    requires Bounded(s) && InRange(ids, |s.blocks|)
    ensures Bounded(TouchAll(s, ids))
  {
    if ids != [] {
      TouchAllBounded(s, ids[..|ids| - 1]);
    }
  }

  lemma PopBounded(s: State, n: nat)
    requires Bounded(s) && n <= |s.free|
    ensures Bounded(Pop(s, n))
  {
  }

  lemma MatchBounded(s: State, rid: RequestId, matchable: seq<Hash>)
    requires Bounded(s)
    ensures Bounded(Match(s, rid, matchable))
  {
    TouchAllBounded(s, Run(s.index, matchable));
  }

  lemma AllocateBounded(s: State, w: Work)
    requires Bounded(s) && InRange(w.cacheBlocks, |s.blocks|)
    ensures Bounded(Allocate(s, w))
  {
  }

  lemma {:induction false} SetTokensBounded(s: State, a: Allocation, k: nat)
    requires Bounded(s) && k <= |a.table| && InRange(a.table, |s.blocks|)
    ensures Bounded(SetTokens(s, a, k))
  {
    if k > 0 {
      SetTokensBounded(s, a, k - 1);
    }
  }

  lemma {:induction false} PublishAllBounded(s: State, a: Allocation, k: nat)
    requires Bounded(s) && k <= |a.table| && InRange(a.table, |s.blocks|)
    ensures Bounded(PublishAll(s, a, k))
  {
    if k > 0 {
      PublishAllBounded(s, a, k - 1);
    }
  }

  lemma CommitBounded(s: State, wid: WorkId)
    requires Bounded(s)
    ensures Bounded(Commit(s, wid))
  {
    if wid in s.pending {
      var a, t := s.pending[wid], s.(pending := s.pending - {wid});
      SetTokensBounded(t, a, |a.table|);
      PublishAllBounded(SetTokens(t, a, |a.table|), a, |a.table|);
    }
  }

  lemma RollbackBounded(s: State, wid: WorkId)
    requires Bounded(s)
    ensures Bounded(Rollback(s, wid))
  {
    if wid in s.pending {
      var a := s.pending[wid];
      var table := Cut(if a.requestId in s.tables then s.tables[a.requestId] else [], |a.added|);
      var tables := if table == [] then s.tables - {a.requestId} else s.tables[a.requestId := table];
      PushAllBounded(s.(pending := s.pending - {wid}, tables := tables), a.added);
    }
  }

  lemma {:induction false} ImportAllBounded(s: State, ids: seq<nat>, hashes: seq<Hash>, k: nat)
    requires Bounded(s) && |ids| == |hashes| && k <= |ids| && InRange(ids, |s.blocks|)
    ensures Bounded(ImportAll(s, ids, hashes, k))
  {
    if k > 0 {
      ImportAllBounded(s, ids, hashes, k - 1);
    }
  }

  ghost predicate BoundedBehind(s: State, depth: nat) {
    if depth == 0 then Bounded(s) else BoundedBehind(s, depth - 1)
  }

  /** Bounded, hidden as NodeSteps.Sound is. */
  ghost predicate WellFormed(s: State) {
    BoundedBehind(s, |s.blocks| + 1)
  }

  lemma {:induction false} BoundedBehindIsBounded(s: State, depth: nat)
    ensures BoundedBehind(s, depth) <==> Bounded(s)
  {
    if depth > 0 {
      BoundedBehindIsBounded(s, depth - 1);
    }
  }

  lemma WellFormedIsBounded(s: State)
    ensures WellFormed(s) <==> Bounded(s)
  {
    BoundedBehindIsBounded(s, |s.blocks| + 1);
  }

  lemma InitialBounded(bs: nat, k: nat)
    requires bs > 0
    ensures Bounded(Initial(bs, k))
  {
  }

  lemma FreeBounded(s: State, rid: RequestId)
    requires Bounded(s)
    ensures Bounded(FreeRequest(s, rid))
  {
    var table := if rid in s.tables then s.tables[rid] else [];
    PushAllBounded(s.(tables := s.tables - {rid},
                      pending := map w | w in s.pending && s.pending[w].requestId != rid :: s.pending[w]), table);
  }
}

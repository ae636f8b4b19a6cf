/** The Go block manager: one executor's block metadata, updated in place. */
module BlockManager {
  import opened Hashing
  import opened Spans
  import opened Wrappers
  import opened Sequences
  import opened BlockSpec
  import opened FreeList

  datatype PinError = NotFound(missing: Hash) | NotTransferable(stale: Hash)

  datatype PinResult = Pinned(ids: seq<nat>) | PinFailed(error: PinError)

  datatype ImportResult = Imported | CountsDiffer | OutOfRange(id: nat) | NotReserved(id: nat)

  /** The blocks of the leading hashes. */
  ghost predicate Leading(index: map<Hash, nat>, hashes: seq<Hash>, ids: seq<nat>) {
    |ids| <= |hashes| && forall i :: 0 <= i < |ids| ==> hashes[i] in index && ids[i] == index[hashes[i]]
  }

  lemma LeadingMore(index: map<Hash, nat>, hashes: seq<Hash>, ids: seq<nat>)
    requires Leading(index, hashes, ids) && |ids| < |hashes| && hashes[|ids|] in index
    ensures Leading(index, hashes, ids + [index[hashes[|ids|]]])
  {
  }

  /** The longest run is determined by where it stops. */
  lemma RunUnique(index: map<Hash, nat>, hashes: seq<Hash>, ids: seq<nat>)
    requires Leading(index, hashes, ids)
    requires |ids| < |hashes| ==> hashes[|ids|] !in index
    ensures Run(index, hashes) == ids
  {
    var run := Run(index, hashes);
    assert |run| == |ids|;
  }

  lemma PopStep(s: State, n: nat)
    requires n < |s.free| && InRange(s.free, |s.blocks|)
    requires Distinct(s.free)
    ensures Pop(Pop(s, n), 1) == Pop(s, n + 1)
  {
    var t, u := Pop(s, n), Pop(s, n + 1);
    var id := s.free[n];
    assert s.free[..n + 1] == s.free[..n] + [id];
    assert t.free[..1] == [id];
    assert t.free[1..] == u.free;
    assert id !in s.free[..n];
    assert t.blocks[id] == s.blocks[id];
    assert Evicted(s.blocks, s.free[..n + 1]) == Evicted(s.blocks, s.free[..n]) + Evicted(t.blocks, [id]);
    assert Pop(t, 1).blocks == u.blocks;
    assert Pop(t, 1).index == u.index;
  }

  function InitialBlock(i: int, n: nat): Block {
    Block(Hash([]), 0, 0, false, true, i - 1, if i == n - 1 then -1 else i + 1)
  }

  /** A block is in the free queue exactly when nothing refers to it. */
  ghost predicate FlagsMatch(bs: seq<Block>) {
    forall i :: 0 <= i < |bs| ==> (bs[i].inFree <==> bs[i].refCount == 0)
  }

  /** The block array after popFree has taken the head `id`. */
  function PopHead(bs: seq<Block>, id: nat): seq<Block>
    requires id < |bs| && -1 <= bs[id].prev < |bs| && -1 <= bs[id].next < |bs|
  {
    var us := Unlink(bs, id);
    us[id := us[id].(hash := Hash([]), tokenCount := 0, refCount := 1, cached := false)]
  }

  lemma HeadIsFirst(bs: seq<Block>, head: int, tail: int, free: seq<nat>)
    requires Linked(bs, head, tail, free) && free != []
    ensures 0 <= head < |bs| && head == free[0] && bs[head].inFree
    ensures bs[head].prev == -1 && -1 <= bs[head].next < |bs| && bs[head].next != head
    ensures Without(free, head) == free[1..]
  {
    assert Neighbours(bs, free, 0);
    OwnNeighbour(bs, head, tail, free, 0);
    assert IndexOf(free, head) == 0;
  }

  lemma PopLinked(bs: seq<Block>, head: int, tail: int, free: seq<nat>)
    requires Linked(bs, head, tail, free) && free != []
    ensures 0 <= head < |bs| && head == free[0] && bs[head].prev == -1 && -1 <= bs[head].next < |bs| && bs[head].next != head
    ensures Linked(PopHead(bs, head), bs[head].next, if bs[head].next >= 0 then tail else -1, free[1..])
    ensures FlagsMatch(bs) ==> FlagsMatch(PopHead(bs, head))
  {
    HeadIsFirst(bs, head, tail, free);
    UnlinkEffect(bs, head, tail, free, head);
    UnlinkFrame(bs, head);
    SameLinks(Unlink(bs, head), PopHead(bs, head), bs[head].next, if bs[head].next >= 0 then tail else -1, free[1..]);
  }

  lemma PopModel(s: State, bs: seq<Block>, id: nat)
    requires s.free != [] && s.free[0] == id && s.blocks == Metas(bs) && id < |bs|
    requires -1 <= bs[id].prev < |bs| && -1 <= bs[id].next < |bs|
    requires bs[id].prev != id && bs[id].next != id
    ensures Pop(s, 1) == s.(blocks := Metas(PopHead(bs, id)), free := s.free[1..],
                            index := if bs[id].cached then s.index - {bs[id].hash} else s.index)
  {
    UnlinkFrame(bs, id);
    assert s.free[..1] == [id];
    assert Evicted(s.blocks, [id]) == if bs[id].cached then {bs[id].hash} else {};
    assert Pop(s, 1).blocks == Metas(PopHead(bs, id));
  }

  lemma PopNone(s: State)
    ensures Pop(s, 0) == s
  {
    assert Evicted(s.blocks, []) == {};
    assert Pop(s, 0).blocks == s.blocks;
  }

  lemma NotListed(bs: seq<Block>, head: int, tail: int, free: seq<nat>, id: nat)
    requires Linked(bs, head, tail, free) && id < |bs| && !bs[id].inFree
    ensures id !in free
  {
    forall k | 0 <= k < |free|
      ensures free[k] != id
    {
      assert Neighbours(bs, free, k);
    }
  }

  lemma ListedIffFlagged(bs: seq<Block>, head: int, tail: int, free: seq<nat>, id: nat)
    requires Linked(bs, head, tail, free) && id < |bs|
    ensures bs[id].inFree <==> id in free
  {
    if !bs[id].inFree {
      NotListed(bs, head, tail, free, id);
    }
  }

  lemma TransferableRunUnique(s: State, hashes: seq<Hash>, n: nat)
    requires n <= |hashes|
    requires forall k :: 0 <= k < n ==> Transferable(s, hashes[k])
    requires n < |hashes| ==> !Transferable(s, hashes[n])
    ensures TransferableRun(s, hashes) == hashes[..n]
  {
    var run := TransferableRun(s, hashes);
    assert |run| == n;
  }

  /** Adopting the cached table first and popping then gives the state Allocate describes. */
  lemma AdoptThenPop(s: State, w: Work, n: nat)
    requires s.blockSize > 0 && n == BlocksNeeded(s, w) && CanAllocate(s, w)
    ensures var a := NewAllocation(s, w);
      var t := Pop(Adopt(s, w), n);
      && a == Allocation(w.requestId, w.phase, Existing(s, w) + s.free[..n], w.hashesTotal, s.free[..n], RequiredTokens(w))
      && t.(tables := t.tables[w.requestId := a.table], pending := t.pending[w.workId := a]) == Allocate(s, w)
  {
    var a := NewAllocation(s, w);
    assert Adopt(s, w).tables[w.requestId := a.table] == s.tables[w.requestId := a.table];
    assert |a.added| == n;
  }

  function WithReference(bs: seq<Block>, id: nat): seq<Block>
    requires id < |bs|
  {
    bs[id := bs[id].(refCount := bs[id].refCount + 1)]
  }

  /** Taking a block out of the queue and counting one more reference to it. */
  lemma TouchedBlocks(before: seq<Block>, between: seq<Block>, id: nat, head: int, tail: int, free: seq<nat>)
    requires FlagsMatch(before) && id < |before| && Metas(between) == Metas(before)
    requires Linked(between, head, tail, free)
    requires forall i :: 0 <= i < |before| ==> between[i].inFree == (i != id && before[i].inFree)
    ensures Linked(WithReference(between, id), head, tail, free)
    ensures FlagsMatch(WithReference(between, id))
    ensures Metas(WithReference(between, id)) == Metas(before)[id := MetaOf(before[id]).(refs := before[id].refCount + 1)]
  {
    assert |between| == |Metas(between)|;
    forall i | 0 <= i < |before|
      ensures MetaOf(between[i]) == MetaOf(before[i])
    {
      assert Metas(between)[i] == Metas(before)[i];
    }
    SameLinks(between, WithReference(between, id), head, tail, free);
  }

  lemma WithoutInRange(xs: seq<nat>, x: nat, n: nat)
    requires InRange(xs, n)
    ensures InRange(Without(xs, x), n)
  {
  }

  class Manager {
    const executorId: ExecutorId
    const blockSize: nat
    const blocks: array<Block>
    const sha: Str -> Str

    var freeHead: int
    var freeTail: int
    var freeCount: nat

    var requestBlocks: map<RequestId, seq<nat>>
    var cachedBlocks: map<Hash, nat>
    var pendingAllocations: map<WorkId, Allocation>

    ghost var free: seq<nat>

    ghost function Model(): State
      reads this, blocks
    {
      State(blockSize, Metas(blocks[..]), free, requestBlocks, cachedBlocks, pendingAllocations)
    }

    ghost predicate ListOk()
      reads this, blocks
    {
      Linked(blocks[..], freeHead, freeTail, free) && freeCount == |free|
    }

    ghost predicate Valid()
      reads this, blocks
    {
      && ListOk()
      && Bounded(Model())
      && FlagsMatch(blocks[..])
    }

    constructor (executorId: ExecutorId, blockSize: nat, n: nat, sha: Str -> Str)
      requires blockSize > 0 && n > 0
      ensures Valid() && fresh(blocks)
      ensures this.executorId == executorId && this.blockSize == blockSize && this.sha == sha && blocks.Length == n
      ensures Model() == Initial(blockSize, n)
    {
      this.executorId := executorId;
      this.blockSize := blockSize;
      this.sha := sha;
      blocks := new Block[n](i => InitialBlock(i, n));
      freeHead, freeTail, freeCount := 0, n - 1, n;
      requestBlocks, cachedBlocks, pendingAllocations := map[], map[], map[];
      free := seq(n, i => i);
      new;
      forall i | 0 <= i < n
        ensures i in free
      {
        assert free[i] == i;
      }
      assert Metas(blocks[..]) == Initial(blockSize, n).blocks;
    }

    // -------------------------------------------------------------- queue.go

    method AppendFreeBlock(id: nat)
      requires ListOk() && id < blocks.Length && !blocks[id].inFree
      modifies this`freeHead, this`freeTail, this`freeCount, this`free, blocks
      ensures ListOk() && free == old(free) + [id]
      ensures Metas(blocks[..]) == old(Metas(blocks[..]))[id := old(MetaOf(blocks[id])).(refs := 0)]
      ensures forall i :: 0 <= i < blocks.Length ==> blocks[i].inFree == (i == id || old(blocks[i].inFree))
    {
      LinkedAppend(blocks[..], freeHead, freeTail, free, id);
      ghost var linked := Link(blocks[..], id, freeTail);
      blocks[id] := blocks[id].(refCount := 0, inFree := true, prev := freeTail, next := -1);
      if freeTail >= 0 {
        blocks[freeTail] := blocks[freeTail].(next := id);
      } else {
        freeHead := id;
      }
      assert blocks[..] == linked;
      freeTail := id;
      freeCount := freeCount + 1;
      free := free + [id];
    }

    method PushFree(id: nat)
      requires Valid() && id < blocks.Length
      modifies this, blocks
      ensures Valid() && Model() == BlockSpec.PushFree(old(Model()), id)
    {
      if blocks[id].refCount == 0 {
        return;
      }
      ghost var bs := blocks[..];
      blocks[id] := blocks[id].(refCount := blocks[id].refCount - 1);
      SameLinks(bs, blocks[..], freeHead, freeTail, free);
      if blocks[id].refCount > 0 {
        assert Model().blocks == BlockSpec.PushFree(old(Model()), id).blocks;
        return;
      }
      AppendFreeBlock(id);
      assert Model().blocks == BlockSpec.PushFree(old(Model()), id).blocks;
    }

    method RemoveFreeBlock(id: nat)
      requires ListOk() && id < blocks.Length && blocks[id].inFree
      modifies this`freeHead, this`freeTail, this`freeCount, this`free, blocks
      ensures ListOk() && free == Without(old(free), id)
      ensures Metas(blocks[..]) == old(Metas(blocks[..]))
      ensures forall i :: 0 <= i < blocks.Length ==> blocks[i].inFree == (i != id && old(blocks[i].inFree))
    {
      UnlinkEffect(blocks[..], freeHead, freeTail, free, id);
      UnlinkFrame(blocks[..], id);
      ghost var unlinked := Unlink(blocks[..], id);
      var b := blocks[id];
      if b.prev >= 0 {
        blocks[b.prev] := blocks[b.prev].(next := b.next);
      } else {
        freeHead := b.next;
      }
      if b.next >= 0 {
        blocks[b.next] := blocks[b.next].(prev := b.prev);
      } else {
        freeTail := b.prev;
      }
      blocks[id] := blocks[id].(inFree := false, next := -1, prev := -1);
      assert blocks[..] == unlinked;
      freeCount := freeCount - 1;
      free := Without(free, id);
    }

    /** The block leaves the prefix cache and the head of the queue, blank and with one reference. */
    method BlankHead(id: nat)
      requires id == freeHead < blocks.Length && blocks[id].prev == -1
      requires -1 <= blocks[id].next < blocks.Length && blocks[id].next != id
      modifies this`freeHead, this`freeTail, this`cachedBlocks, blocks
      ensures blocks[..] == PopHead(old(blocks[..]), id)
      ensures freeHead == old(blocks[id].next) && freeTail == if freeHead >= 0 then old(freeTail) else -1
      ensures cachedBlocks == if old(blocks[id].cached) then old(cachedBlocks) - {old(blocks[id].hash)} else old(cachedBlocks)
    {
      ghost var bs := blocks[..];
      if blocks[id].cached {
        cachedBlocks := cachedBlocks - {blocks[id].hash};
        blocks[id] := blocks[id].(cached := false);
      }
      blocks[id] := blocks[id].(hash := Hash([]), tokenCount := 0, refCount := 1);
      var next := blocks[id].next;
      freeHead := next;
      if next >= 0 {
        blocks[next] := blocks[next].(prev := -1);
      } else {
        freeTail := -1;
      }
      blocks[id] := blocks[id].(inFree := false, prev := -1, next := -1);
      assert blocks[..] == PopHead(bs, id);
    }

    /** popFree: the oldest free block, evicted from the prefix cache if it was there. */
    method PopFree() returns (id: nat, ok: bool)
      requires Valid()
      modifies this, blocks
      ensures ok <==> old(free) != []
      ensures !ok ==> id == 0 && Model() == old(Model()) && Valid()
      ensures ok ==> id == old(free)[0] && Valid() && Model() == Pop(old(Model()), 1)
    {
      if freeHead < 0 || freeCount == 0 {
        return 0, false;
      }
      id := freeHead;
      PopLinked(blocks[..], freeHead, freeTail, free);
      PopModel(Model(), blocks[..], id);
      BlankHead(id);
      freeCount := freeCount - 1;
      free := free[1..];
      return id, true;
    }

    // -------------------------------------------------------------- helpers of block.go

    method TouchOne(id: nat)
      requires Valid() && id < blocks.Length
      modifies this, blocks
      ensures Valid() && Model() == BlockSpec.Touch(old(Model()), id)
    {
      ghost var before := blocks[..];
      WithoutInRange(free, id, blocks.Length);
      if blocks[id].inFree {
        RemoveFreeBlock(id);
      } else {
        NotListed(blocks[..], freeHead, freeTail, free, id);
      }
      TouchedBlocks(before, blocks[..], id, freeHead, freeTail, free);
      ghost var after := WithReference(blocks[..], id);
      blocks[id] := blocks[id].(refCount := blocks[id].refCount + 1);
      assert blocks[..] == after;
    }

    method Touch(ids: seq<nat>)
      requires Valid() && InRange(ids, blocks.Length)
      modifies this, blocks
      ensures Valid() && Model() == TouchAll(old(Model()), ids)
    {
      for i := 0 to |ids|
        invariant Valid() && Model() == TouchAll(old(Model()), ids[..i])
      {
        assert ids[..i + 1][..i] == ids[..i];
        TouchOne(ids[i]);
      }
      assert ids[..|ids|] == ids;
    }

    method PushFreeAll(ids: seq<nat>)
      requires Valid() && InRange(ids, blocks.Length)
      modifies this, blocks
      ensures Valid() && Model() == PushAll(old(Model()), ids)
    {
      for i := 0 to |ids|
        invariant Valid() && Model() == PushAll(old(Model()), ids[..i])
      {
        assert ids[..i + 1][..i] == ids[..i];
        PushFree(ids[i]);
      }
      assert ids[..|ids|] == ids;
    }

    /** allocate: the n oldest free blocks, in queue order, or nothing at all. */
    method AllocateIds(n: nat) returns (ids: seq<nat>, ok: bool)
      requires Valid()
      modifies this, blocks
      ensures Valid()
      ensures ok <==> n <= |old(free)|
      ensures !ok ==> ids == [] && Model() == old(Model())
      ensures ok ==> ids == old(free)[..n] && Model() == Pop(old(Model()), n)
    {
      if freeCount < n {
        return [], false;
      }
      ids := [];
      ghost var s := Model();
      PopNone(s);
      for i := 0 to n
        invariant Valid() && i <= |s.free| && ids == s.free[..i] && Model() == Pop(s, i)
      {
        PopStep(s, i);
        var id, got := PopFree();
        if !got {
          // The number of free blocks was checked before the loop, so there is nothing to undo here.
          assert false;
        }
        ghost var bs := blocks[..];
        blocks[id] := blocks[id].(refCount := 1, inFree := false);
        assert blocks[..] == bs;
        ids := ids + [id];
      }
      return ids, true;
    }

    method BlockHashes(salt: Str, tokens: seq<Token>) returns (hashes: seq<Hash>)
      requires blockSize > 0
      ensures hashes == Hashing.BlockHashes(sha, blockSize, salt, tokens)
    {
      var fullBlocks := |tokens| / blockSize;
      SpanOfQuotient(|tokens|, blockSize);
      hashes := [];
      var prev := salt;
      for i := 0 to fullBlocks
        invariant Span(i, blockSize) <= |tokens|
        invariant hashes == HashesTo(sha, blockSize, salt, tokens, i)
        invariant prev == if i == 0 then salt else hashes[i - 1].hex
      {
        SpanMonotone(i + 1, fullBlocks, blockSize);
        var curr := HashNext(salt, tokens, i, hashes, prev);
        prev := curr.hex;
        hashes := hashes + [curr];
      }
    }

    /** One link of the chain: block i hashed after the hash of block i - 1. */
    method HashNext(salt: Str, tokens: seq<Token>, i: nat, ghost hashes: seq<Hash>, prev: Str) returns (curr: Hash)
      requires blockSize > 0 && Span(i + 1, blockSize) <= |tokens|
      requires hashes == HashesTo(sha, blockSize, salt, tokens, i) && prev == if i == 0 then salt else hashes[i - 1].hex
      ensures curr == ChainHash(sha, blockSize, salt, tokens, i)
    {
      SpanIsProduct(i, blockSize);
      NextLink(sha, blockSize, salt, tokens, i, hashes, prev);
      var start := i * blockSize;
      curr := HashBlock(sha, prev, tokens[start..start + blockSize]);
    }

    method MatchableBlockHashes(salt: Str, tokens: seq<Token>) returns (total: seq<Hash>, toMatch: seq<Hash>)
      requires blockSize > 0
      ensures total == Hashing.BlockHashes(sha, blockSize, salt, tokens)
      ensures toMatch == Matchable(sha, blockSize, salt, tokens)
    {
      total := BlockHashes(salt, tokens);
      var maxMatched := if |tokens| > 0 then (|tokens| - 1) / blockSize else 0;
      MaxMatchedFits(blockSize, |tokens|);
      toMatch := total[..if |total| < maxMatched then |total| else maxMatched];
    }

    // -------------------------------------------------------------- requests

    method MatchPrefix(rid: RequestId, salt: Str, tokens: seq<Token>) returns (m: PrefixMatch)
      requires Valid()
      modifies this, blocks
      ensures Valid()
      ensures Model() == Match(old(Model()), rid, Matchable(sha, blockSize, salt, tokens))
      ensures m.blockIds == Run(old(cachedBlocks), Matchable(sha, blockSize, salt, tokens))
      ensures m.cachedTokens == |m.blockIds| * blockSize && m.hit == (m.blockIds != [])
      ensures m.hashesTotal == Hashing.BlockHashes(sha, blockSize, salt, tokens)
    {
      var total, toMatch := MatchableBlockHashes(salt, tokens);
      m := MatchHashes(rid, total, toMatch);
    }

    /** The part of MatchPrefix that holds the lock. */
    method MatchHashes(rid: RequestId, total: seq<Hash>, toMatch: seq<Hash>) returns (m: PrefixMatch)
      requires Valid()
      modifies this, blocks
      ensures Valid() && Model() == Match(old(Model()), rid, toMatch)
      ensures m.blockIds == Run(old(cachedBlocks), toMatch)
      ensures m.cachedTokens == |m.blockIds| * blockSize && m.hit == (m.blockIds != []) && m.hashesTotal == total
    {
      var blockIds := TouchRun(toMatch);
      SetTable(rid, blockIds);
      m := PrefixMatch(blockIds != [], |blockIds| * blockSize, blockIds, total);
    }

    method TouchAnother(ghost s: State, ghost ids: seq<nat>, id: nat)
      requires Valid() && id < blocks.Length && InRange(ids, |s.blocks|) && |s.blocks| == blocks.Length
      requires Model() == TouchAll(s, ids)
      modifies this, blocks
      ensures Valid() && Model() == TouchAll(s, ids + [id]) && cachedBlocks == old(cachedBlocks)
    {
      assert (ids + [id])[..|ids|] == ids;
      TouchOne(id);
    }

    /** The loop of MatchPrefix: touch the indexed blocks up to the first hash that is missing. */
    method TouchRun(toMatch: seq<Hash>) returns (blockIds: seq<nat>)
      requires Valid()
      modifies this, blocks
      ensures blockIds == Run(old(cachedBlocks), toMatch)
      ensures Valid() && Model() == TouchAll(old(Model()), blockIds)
    {
      ghost var s := Model();
      blockIds := [];
      var i := 0;
      while i < |toMatch| && toMatch[i] in cachedBlocks
        invariant i == |blockIds| && Leading(s.index, toMatch, blockIds)
        invariant InRange(blockIds, |s.blocks|)
        invariant Valid() && Model() == TouchAll(s, blockIds) && cachedBlocks == s.index
      {
        var id := cachedBlocks[toMatch[i]];
        LeadingMore(s.index, toMatch, blockIds);
        TouchAnother(s, blockIds, id);
        blockIds := blockIds + [id];
        i := i + 1;
      }
      RunUnique(s.index, toMatch, blockIds);
    }

    /** probePrefix: reads only. */
    method ProbePrefix(salt: Str, tokens: seq<Token>) returns (c: Candidate)
      requires Valid()
      ensures c.matchedHashes == TransferableRun(Model(), Matchable(sha, blockSize, salt, tokens))
      ensures c.executorId == executorId && c.cachedTokens == |c.matchedHashes| * blockSize
    {
      var _, toMatch := MatchableBlockHashes(salt, tokens);
      var i := 0;
      while i < |toMatch| && toMatch[i] in cachedBlocks
        invariant i <= |toMatch|
        invariant forall k :: 0 <= k < i ==> Transferable(Model(), toMatch[k])
      {
        var b := blocks[cachedBlocks[toMatch[i]]];
        if !b.cached || b.hash != toMatch[i] || b.tokenCount != blockSize {
          break;
        }
        i := i + 1;
      }
      c := Candidate(executorId, i * blockSize, toMatch[..i]);
      TransferableRunUnique(Model(), toMatch, i);
    }

    method AllocateBlocks(w: Work) returns (a: Option<Allocation>)
      requires Valid() && InRange(w.cacheBlocks, blocks.Length)
      modifies this, blocks
      ensures Valid() && Model() == Allocate(old(Model()), w)
      ensures a == if CanAllocate(old(Model()), w) then Some(NewAllocation(old(Model()), w)) else None
    {
      ghost var s := Model();
      var existing := if w.requestId in requestBlocks then requestBlocks[w.requestId] else w.cacheBlocks;
      if w.requestId !in requestBlocks && |w.cacheBlocks| > 0 {
        SetTable(w.requestId, existing);
      }
      var required := RequiredTokens(w);
      var total := CeilDiv(required, blockSize);
      var n := if total > |existing| then total - |existing| else 0;
      assert n == BlocksNeeded(s, w) && Model() == Adopt(s, w);
      var added, ok := AllocateIds(n);
      if !ok {
        return None;
      }
      AdoptThenPop(s, w, n);
      var table := existing + added;
      SetTable(w.requestId, table);
      var allocation := Allocation(w.requestId, w.phase, table, w.hashesTotal, added, required);
      SetPending(w.workId, allocation);
      a := Some(allocation);
    }

    method SetTable(rid: RequestId, table: seq<nat>)
      requires Valid() && InRange(table, blocks.Length)
      modifies this`requestBlocks
      ensures Valid() && Model() == old(Model()).(tables := old(requestBlocks)[rid := table])
    {
      requestBlocks := requestBlocks[rid := table];
    }

    method SetPending(workId: WorkId, a: Allocation)
      requires Valid() && InRange(a.table, blocks.Length) && InRange(a.added, blocks.Length)
      modifies this`pendingAllocations
      ensures Valid() && Model() == old(Model()).(pending := old(pendingAllocations)[workId := a])
    {
      pendingAllocations := pendingAllocations[workId := a];
    }

    method Commit(workId: WorkId)
      requires Valid()
      modifies this, blocks
      ensures Valid() && Model() == BlockSpec.Commit(old(Model()), workId)
    {
      if workId !in pendingAllocations {
        return;
      }
      var a := pendingAllocations[workId];
      pendingAllocations := pendingAllocations - {workId};
      UpdateTokenCounts(a);
      UpdateCached(a);
    }

    /** The first loop of Commit. */
    method UpdateTokenCounts(a: Allocation)
      requires Valid() && InRange(a.table, blocks.Length)
      modifies this, blocks
      ensures Valid() && Model() == SetTokens(old(Model()), a, |a.table|)
    {
      ghost var s := Model();
      for idx := 0 to |a.table|
        invariant Valid() && Model() == SetTokens(s, a, idx)
      {
        SpanIsProduct(idx, blockSize);
        var start := idx * blockSize;
        if a.tokensAfterCommit <= start {
          SetTokenCount(a.table[idx], 0);
        } else {
          var remaining := a.tokensAfterCommit - start;
          SetTokenCount(a.table[idx], if remaining >= blockSize then blockSize else remaining);
        }
      }
    }

    method SetTokenCount(id: nat, count: nat)
      requires Valid() && id < blocks.Length
      modifies this, blocks
      ensures Valid()
      ensures var s := old(Model()); Model() == s.(blocks := s.blocks[id := s.blocks[id].(tokens := count)])
    {
      ghost var s, bs := Model(), blocks[..];
      blocks[id] := blocks[id].(tokenCount := count);
      SameLinks(bs, blocks[..], freeHead, freeTail, free);
      assert Model().blocks == s.blocks[id := s.blocks[id].(tokens := count)];
    }

    /** The second loop of Commit. */
    method UpdateCached(a: Allocation)
      requires Valid() && InRange(a.table, blocks.Length)
      modifies this, blocks
      ensures Valid() && Model() == PublishAll(old(Model()), a, |a.table|)
    {
      ghost var s := Model();
      for idx := 0 to |a.table|
        invariant Valid() && Model() == PublishAll(s, a, idx)
      {
        var id := a.table[idx];
        if a.phase != Prefill || blocks[id].cached || blocks[id].tokenCount != blockSize || idx >= |a.hashes| {
          continue;
        }
        if a.hashes[idx] in cachedBlocks {
          continue;
        }
        PublishOne(id, a.hashes[idx]);
      }
    }

    method PublishOne(id: nat, h: Hash)
      requires Valid() && id < blocks.Length
      modifies this, blocks
      ensures Valid() && Model() == Publish(old(Model()), id, h)
    {
      ghost var s, bs := Model(), blocks[..];
      blocks[id] := blocks[id].(hash := h, cached := true);
      cachedBlocks := cachedBlocks[h := id];
      SameLinks(bs, blocks[..], freeHead, freeTail, free);
      assert Model().blocks == Publish(s, id, h).blocks;
    }

    method Rollback(workId: WorkId)
      requires Valid()
      modifies this, blocks
      ensures Valid() && Model() == BlockSpec.Rollback(old(Model()), workId)
    {
      if workId !in pendingAllocations {
        return;
      }
      var a := pendingAllocations[workId];
      pendingAllocations := pendingAllocations - {workId};
      var table := if a.requestId in requestBlocks then requestBlocks[a.requestId] else [];
      if |table| >= |a.added| {
        table := table[..|table| - |a.added|];
      }
      if |table| == 0 {
        requestBlocks := requestBlocks - {a.requestId};
      } else {
        requestBlocks := requestBlocks[a.requestId := table];
      }
      PushFreeAll(a.added);
    }

    method FreeRequest(rid: RequestId)
      requires Valid()
      modifies this, blocks
      ensures Valid() && Model() == BlockSpec.FreeRequest(old(Model()), rid)
    {
      var table := if rid in requestBlocks then requestBlocks[rid] else [];
      requestBlocks := requestBlocks - {rid};
      pendingAllocations := map w | w in pendingAllocations && pendingAllocations[w].requestId != rid :: pendingAllocations[w];
      PushFreeAll(table);
    }

    // -------------------------------------------------------------- transfers

    method PinCachedBlocks(hashes: seq<Hash>) returns (r: PinResult)
      requires Valid()
      modifies this, blocks
      ensures Valid()
      ensures r.Pinned? <==> CanPin(old(Model()), hashes)
      ensures r.Pinned? ==> r.ids == PinnedIds(old(Model()), hashes) && Model() == Pin(old(Model()), hashes)
      ensures r.PinFailed? ==> Model() == old(Model())
    {
      ghost var s := Model();
      var ids: seq<nat> := [];
      for i := 0 to |hashes|
        invariant |ids| == i && Model() == s
        invariant forall k :: 0 <= k < i ==> Transferable(s, hashes[k]) && ids[k] == s.index[hashes[k]]
      {
        if hashes[i] !in cachedBlocks {
          assert !Transferable(s, hashes[i]);
          return PinFailed(NotFound(hashes[i]));
        }
        var b := blocks[cachedBlocks[hashes[i]]];
        if !b.cached || b.hash != hashes[i] || b.tokenCount != blockSize {
          assert !Transferable(s, hashes[i]);
          return PinFailed(NotTransferable(hashes[i]));
        }
        ids := ids + [cachedBlocks[hashes[i]]];
      }
      assert ids == PinnedIds(s, hashes);
      Touch(ids);
      r := Pinned(ids);
    }

    method ReserveTransferBlocks(count: nat) returns (ids: seq<nat>, ok: bool)
      requires Valid()
      modifies this, blocks
      ensures Valid()
      ensures ok <==> count <= |old(free)|
      ensures !ok ==> Model() == old(Model())
      ensures ok ==> ids == old(free)[..count] && Model() == Pop(old(Model()), count)
    {
      ids, ok := AllocateIds(count);
    }

    method CommitImportedBlocks(ids: seq<nat>, hashes: seq<Hash>) returns (r: ImportResult)
      requires Valid()
      modifies this, blocks
      ensures Valid()
      ensures r.Imported? <==> CanImport(old(Model()), ids, hashes)
      ensures r.Imported? ==> Model() == ImportAll(old(Model()), ids, hashes, |ids|)
      ensures !r.Imported? ==> Model() == old(Model())
    {
      if |ids| != |hashes| {
        return CountsDiffer;
      }
      r := CheckReserved(ids);
      if r.Imported? {
        ImportEach(ids, hashes);
      }
    }

    /** The checks of commitImportedBlocks. */
    method CheckReserved(ids: seq<nat>) returns (r: ImportResult)
      requires Valid()
      ensures r.Imported? <==> Reserved(Model(), ids)
    {
      for i := 0 to |ids|
        invariant Reserved(Model(), ids[..i])
      {
        var problem := CheckOne(ids[i]);
        if !problem.Imported? {
          assert !Reserved(Model(), ids) by {
            assert !ReservedOne(ids[i]);
          }
          return problem;
        }
        assert ReservedOne(ids[i]);
      }
      assert ids[..|ids|] == ids;
      return Imported;
    }

    ghost predicate ReservedOne(id: nat)
      reads this, blocks
    {
      id < |Model().blocks| && id !in Model().free && Model().blocks[id].refs > 0
    }

    method CheckOne(id: nat) returns (r: ImportResult)
      requires Valid()
      ensures r.Imported? <==> ReservedOne(id)
    {
      if id >= blocks.Length {
        return OutOfRange(id);
      }
      ListedIffFlagged(blocks[..], freeHead, freeTail, free, id);
      if blocks[id].inFree || blocks[id].refCount == 0 {
        return NotReserved(id);
      }
      return Imported;
    }

    /** The loop of commitImportedBlocks. */
    method ImportEach(ids: seq<nat>, hashes: seq<Hash>)
      requires Valid() && CanImport(Model(), ids, hashes)
      modifies this, blocks
      ensures Valid() && Model() == ImportAll(old(Model()), ids, hashes, |ids|)
    {
      ghost var s := Model();
      for i := 0 to |ids|
        invariant Valid() && Model() == ImportAll(s, ids, hashes, i)
      {
        ImportOne(ids[i], hashes[i]);
      }
    }

    method ImportOne(id: nat, h: Hash)
      requires Valid() && id < blocks.Length
      modifies this, blocks
      ensures Valid() && Model() == Import(old(Model()), id, h)
    {
      ghost var t, bs := Model(), blocks[..];
      ImportIsFillThenPush(t, id, h);
      if h in cachedBlocks && cachedBlocks[h] != id {
        PushFree(id);
        return;
      }
      blocks[id] := blocks[id].(hash := h, tokenCount := blockSize, cached := true);
      cachedBlocks := cachedBlocks[h := id];
      SameLinks(bs, blocks[..], freeHead, freeTail, free);
      assert Model().blocks == Fill(t, id, h).blocks;
      PushFree(id);
    }

    method ReleaseTransferBlocks(ids: seq<nat>)
      requires Valid() && InRange(ids, blocks.Length)
      modifies this, blocks
      ensures Valid() && Model() == PushAll(old(Model()), ids)
    {
      PushFreeAll(ids);
    }
  }
}

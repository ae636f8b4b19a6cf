/**
 The block managers of all executors, side by side: an operation on one of them is that operation on its
 metadata, and the others stay as they are.
 */
module Managers {
  import opened Hashing
  import opened Wrappers
  import opened BlockSpec
  import opened BlockManager
  import opened BlockInv

  type Fleet = map<ExecutorId, Manager>

  ghost predicate MirrorsBehind(m: Manager, s: State, depth: nat)
    reads m, m.blocks
  {
    if depth == 0 then m.Valid() && m.Model() == s else MirrorsBehind(m, s, depth - 1)
  }

  /** The manager has the metadata `s`; hidden as NodeSteps.Sound is. */
  ghost predicate Mirrors(m: Manager, s: State)
    reads m, m.blocks
  {
    MirrorsBehind(m, s, |s.blocks| + 1)
  }

  lemma {:induction false} MirrorsBehindIs(m: Manager, s: State, depth: nat)
    ensures MirrorsBehind(m, s, depth) <==> m.Valid() && m.Model() == s
  {
    if depth > 0 {
      MirrorsBehindIs(m, s, depth - 1);
    }
  }

  lemma MirrorsIs(m: Manager, s: State)
    ensures Mirrors(m, s) <==> m.Valid() && m.Model() == s
    ensures Mirrors(m, s) ==> Bounded(s) && s.blockSize == m.blockSize > 0 && |s.blocks| == m.blocks.Length
  {
    MirrorsBehindIs(m, s, |s.blocks| + 1);
  }

  /** No two executors share a manager or a block array. */
  ghost predicate Apart(fleet: Fleet) {
    forall e, f :: e in fleet && f in fleet && e != f ==> fleet[e] != fleet[f] && fleet[e].blocks != fleet[f].blocks
  }

  ghost function Footprint(fleet: Fleet): set<object> {
    (set e | e in fleet :: fleet[e] as object) + (set e | e in fleet :: fleet[e].blocks as object)
  }

  ghost predicate EachMirrors(fleet: Fleet, states: map<ExecutorId, State>)
    reads Footprint(fleet)
  {
    Apart(fleet) && states.Keys == fleet.Keys && forall e :: e in fleet ==> Mirrors(fleet[e], states[e])
  }

  ghost predicate EachBehind(fleet: Fleet, states: map<ExecutorId, State>, depth: nat)
    reads Footprint(fleet)
    decreases depth
  {
    if depth == 0 then EachMirrors(fleet, states) else EachBehind(fleet, states, depth - 1)
  }

  /** The managers have the metadata `states`; hidden as NodeSteps.Sound is. */
  ghost predicate AllMirror(fleet: Fleet, states: map<ExecutorId, State>)
    reads Footprint(fleet)
  {
    states.Keys == fleet.Keys && EachBehind(fleet, states, |states| + 1)
  }

  lemma {:induction false} EachBehindIs(fleet: Fleet, states: map<ExecutorId, State>, depth: nat)
    ensures EachBehind(fleet, states, depth) <==> EachMirrors(fleet, states)
  {
    if depth > 0 {
      EachBehindIs(fleet, states, depth - 1);
    }
  }

  lemma AllMirrorIs(fleet: Fleet, states: map<ExecutorId, State>)
    ensures AllMirror(fleet, states) <==> EachMirrors(fleet, states)
  {
    EachBehindIs(fleet, states, |states| + 1);
  }

  // ---------------------------------------------------------------- requests

  method MatchAt(fleet: Fleet, ghost states: map<ExecutorId, State>, e: ExecutorId, rid: RequestId, salt: Str, tokens: seq<Token>)
      returns (m: PrefixMatch)
    requires AllMirror(fleet, states) && e in fleet
    modifies fleet[e], fleet[e].blocks
    ensures Bounded(states[e])
    ensures var hashes := Matchable(fleet[e].sha, states[e].blockSize, salt, tokens);
      && AllMirror(fleet, states[e := Match(states[e], rid, hashes)])
      && m.blockIds == Run(states[e].index, hashes)
      && m.cachedTokens == |m.blockIds| * states[e].blockSize
      && m.hashesTotal == BlockHashes(fleet[e].sha, states[e].blockSize, salt, tokens)
  {
    AllMirrorIs(fleet, states);
    MirrorsIs(fleet[e], states[e]);
    m := fleet[e].MatchPrefix(rid, salt, tokens);
    MirrorsIs(fleet[e], Match(states[e], rid, Matchable(fleet[e].sha, states[e].blockSize, salt, tokens)));
    AllMirrorIs(fleet, states[e := Match(states[e], rid, Matchable(fleet[e].sha, states[e].blockSize, salt, tokens))]);
  }

  method ProbeAt(fleet: Fleet, ghost states: map<ExecutorId, State>, e: ExecutorId, salt: Str, tokens: seq<Token>) returns (c: Candidate)
    requires AllMirror(fleet, states) && e in fleet
    ensures states[e].blockSize > 0
    ensures c.matchedHashes == TransferableRun(states[e], Matchable(fleet[e].sha, states[e].blockSize, salt, tokens))
    ensures c.executorId == fleet[e].executorId && c.cachedTokens == |c.matchedHashes| * states[e].blockSize
  {
    AllMirrorIs(fleet, states);
    MirrorsIs(fleet[e], states[e]);
    c := fleet[e].ProbePrefix(salt, tokens);
  }

  method AllocateAt(fleet: Fleet, ghost states: map<ExecutorId, State>, e: ExecutorId, w: Work) returns (ok: bool)
    requires AllMirror(fleet, states) && e in fleet && InRange(w.cacheBlocks, |states[e].blocks|)
    modifies fleet[e], fleet[e].blocks
    ensures states[e].blockSize > 0 && ok == CanAllocate(states[e], w)
    ensures AllMirror(fleet, states[e := Allocate(states[e], w)])
  {
    AllMirrorIs(fleet, states);
    MirrorsIs(fleet[e], states[e]);
    var a := fleet[e].AllocateBlocks(w);
    ok := a.Some?;
    MirrorsIs(fleet[e], Allocate(states[e], w));
    AllMirrorIs(fleet, states[e := Allocate(states[e], w)]);
  }

  method CommitAt(fleet: Fleet, ghost states: map<ExecutorId, State>, e: ExecutorId, workId: WorkId)
    requires AllMirror(fleet, states) && e in fleet
    modifies fleet[e], fleet[e].blocks
    ensures Bounded(states[e]) && AllMirror(fleet, states[e := Commit(states[e], workId)])
  {
    AllMirrorIs(fleet, states);
    MirrorsIs(fleet[e], states[e]);
    fleet[e].Commit(workId);
    MirrorsIs(fleet[e], Commit(states[e], workId));
    AllMirrorIs(fleet, states[e := Commit(states[e], workId)]);
  }

  method RollbackAt(fleet: Fleet, ghost states: map<ExecutorId, State>, e: ExecutorId, workId: WorkId)
    requires AllMirror(fleet, states) && e in fleet
    modifies fleet[e], fleet[e].blocks
    ensures Bounded(states[e]) && AllMirror(fleet, states[e := Rollback(states[e], workId)])
  {
    AllMirrorIs(fleet, states);
    MirrorsIs(fleet[e], states[e]);
    fleet[e].Rollback(workId);
    MirrorsIs(fleet[e], Rollback(states[e], workId));
    AllMirrorIs(fleet, states[e := Rollback(states[e], workId)]);
  }

  method FreeAt(fleet: Fleet, ghost states: map<ExecutorId, State>, e: ExecutorId, rid: RequestId)
    requires AllMirror(fleet, states) && e in fleet
    modifies fleet[e], fleet[e].blocks
    ensures Bounded(states[e]) && AllMirror(fleet, states[e := FreeRequest(states[e], rid)])
  {
    AllMirrorIs(fleet, states);
    MirrorsIs(fleet[e], states[e]);
    fleet[e].FreeRequest(rid);
    MirrorsIs(fleet[e], FreeRequest(states[e], rid));
    AllMirrorIs(fleet, states[e := FreeRequest(states[e], rid)]);
  }

  // ---------------------------------------------------------------- transfers

  method PinOf(m: Manager, ghost s: State, hashes: seq<Hash>) returns (r: PinResult)
    requires Mirrors(m, s)
    modifies m, m.blocks
    ensures r.Pinned? <==> CanPin(s, hashes)
    ensures r.Pinned? ==> r.ids == PinnedIds(s, hashes)
    ensures Mirrors(m, if r.Pinned? then Pin(s, hashes) else s)
  {
    MirrorsIs(m, s);
    r := m.PinCachedBlocks(hashes);
    MirrorsIs(m, if r.Pinned? then Pin(s, hashes) else s);
  }

  method PinAt(fleet: Fleet, ghost states: map<ExecutorId, State>, e: ExecutorId, hashes: seq<Hash>) returns (r: PinResult)
    requires AllMirror(fleet, states) && e in fleet
    modifies fleet[e], fleet[e].blocks
    ensures r.Pinned? <==> CanPin(states[e], hashes)
    ensures r.Pinned? ==> r.ids == PinnedIds(states[e], hashes) && AllMirror(fleet, states[e := Pin(states[e], hashes)])
    ensures r.PinFailed? ==> AllMirror(fleet, states)
  {
    AllMirrorIs(fleet, states);
    r := PinOf(fleet[e], states[e], hashes);
    AllMirrorIs(fleet, if r.Pinned? then states[e := Pin(states[e], hashes)] else states);
  }

  method ReserveAt(fleet: Fleet, ghost states: map<ExecutorId, State>, e: ExecutorId, count: nat) returns (ids: seq<nat>, ok: bool)
    requires AllMirror(fleet, states) && e in fleet
    modifies fleet[e], fleet[e].blocks
    ensures ok <==> count <= |states[e].free|
    ensures ok ==> ids == states[e].free[..count] && InRange(ids, |states[e].blocks|) && AllMirror(fleet, states[e := Pop(states[e], count)])
    ensures !ok ==> AllMirror(fleet, states)
  {
    AllMirrorIs(fleet, states);
    MirrorsIs(fleet[e], states[e]);
    ids, ok := fleet[e].ReserveTransferBlocks(count);
    if ok {
      MirrorsIs(fleet[e], Pop(states[e], count));
      AllMirrorIs(fleet, states[e := Pop(states[e], count)]);
    } else {
      MirrorsIs(fleet[e], states[e]);
      AllMirrorIs(fleet, states);
    }
  }

  method ImportOf(m: Manager, ghost s: State, ids: seq<nat>, hashes: seq<Hash>) returns (r: ImportResult)
    requires Mirrors(m, s)
    modifies m, m.blocks
    ensures r.Imported? <==> CanImport(s, ids, hashes)
    ensures Mirrors(m, if r.Imported? then ImportAll(s, ids, hashes, |ids|) else s)
  {
    MirrorsIs(m, s);
    r := m.CommitImportedBlocks(ids, hashes);
    MirrorsIs(m, if r.Imported? then ImportAll(s, ids, hashes, |ids|) else s);
  }

  method ImportAt(fleet: Fleet, ghost states: map<ExecutorId, State>, e: ExecutorId, ids: seq<nat>, hashes: seq<Hash>) returns (r: ImportResult)
    requires AllMirror(fleet, states) && e in fleet
    modifies fleet[e], fleet[e].blocks
    ensures r.Imported? <==> CanImport(states[e], ids, hashes)
    ensures r.Imported? ==> AllMirror(fleet, states[e := ImportAll(states[e], ids, hashes, |ids|)])
    ensures !r.Imported? ==> AllMirror(fleet, states)
  {
    AllMirrorIs(fleet, states);
    r := ImportOf(fleet[e], states[e], ids, hashes);
    AllMirrorIs(fleet, if r.Imported? then states[e := ImportAll(states[e], ids, hashes, |ids|)] else states);
  }

  method ReleaseAt(fleet: Fleet, ghost states: map<ExecutorId, State>, e: ExecutorId, ids: seq<nat>)
    requires AllMirror(fleet, states) && e in fleet && InRange(ids, |states[e].blocks|)
    modifies fleet[e], fleet[e].blocks
    ensures AllMirror(fleet, states[e := PushAll(states[e], ids)])
  {
    AllMirrorIs(fleet, states);
    MirrorsIs(fleet[e], states[e]);
    fleet[e].ReleaseTransferBlocks(ids);
    MirrorsIs(fleet[e], PushAll(states[e], ids));
    AllMirrorIs(fleet, states[e := PushAll(states[e], ids)]);
  }

  datatype Setup = NotCached | NoRoom | SetUp(srcIds: seq<nat>, dstIds: seq<nat>)

  /** Pins at the source, then reserves at the destination; without room there, the pins are given back. */
  method PinAndReserve(fleet: Fleet, ghost states: map<ExecutorId, State>, src: ExecutorId, dst: ExecutorId, hashes: seq<Hash>)
      returns (r: Setup, ghost next: map<ExecutorId, State>)
    requires AllMirror(fleet, states) && src in fleet && dst in fleet && src != dst
    modifies fleet[src], fleet[src].blocks, fleet[dst], fleet[dst].blocks
    ensures AllMirror(fleet, next)
    ensures r.NotCached? <==> !CanPin(states[src], hashes)
    ensures r.SetUp? <==> CanPin(states[src], hashes) && |hashes| <= |states[dst].free|
    ensures r.NotCached? ==> next == states
    ensures r.NoRoom? ==> next == states[src := PushAll(Pin(states[src], hashes), PinnedIds(states[src], hashes))]
    ensures r.SetUp? ==>
      && r.srcIds == PinnedIds(states[src], hashes) && r.dstIds == states[dst].free[..|hashes|]
      && InRange(r.srcIds, |states[src].blocks|) && InRange(r.dstIds, |states[dst].blocks|)
      && next == states[src := Pin(states[src], hashes)][dst := Pop(states[dst], |hashes|)]
  {
    var pinned := PinAt(fleet, states, src, hashes);
    if pinned.PinFailed? {
      return NotCached, states;
    }
    next := states[src := Pin(states[src], hashes)];
    var dstIds, ok := ReserveAt(fleet, next, dst, |hashes|);
    if !ok {
      ReleaseAt(fleet, next, src, pinned.ids);
      SetTwice(states, src, Pin(states[src], hashes), PushAll(Pin(states[src], hashes), pinned.ids));
      return NoRoom, next[src := PushAll(next[src], pinned.ids)];
    }
    return SetUp(pinned.ids, dstIds), next[dst := Pop(states[dst], |hashes|)];
  }

  lemma SetTwice(states: map<ExecutorId, State>, e: ExecutorId, s: State, t: State)
    ensures states[e := s][e := t] == states[e := t]
  {
  }

  /** Publishes at the destination, then unpins at the source. */
  method ImportAndRelease(fleet: Fleet, ghost states: map<ExecutorId, State>, src: ExecutorId, srcIds: seq<nat>, dst: ExecutorId, dstIds: seq<nat>,
                          hashes: seq<Hash>) returns (ok: bool, ghost next: map<ExecutorId, State>)
    requires AllMirror(fleet, states) && src in fleet && dst in fleet && src != dst && InRange(srcIds, |states[src].blocks|)
    modifies fleet[src], fleet[src].blocks, fleet[dst], fleet[dst].blocks
    ensures AllMirror(fleet, next) && (ok <==> CanImport(states[dst], dstIds, hashes)) && (!ok ==> next == states)
    ensures ok ==> next == states[dst := ImportAll(states[dst], dstIds, hashes, |dstIds|)][src := PushAll(states[src], srcIds)]
  {
    var imported := ImportAt(fleet, states, dst, dstIds, hashes);
    if !imported.Imported? {
      return false, states;
    }
    next := states[dst := ImportAll(states[dst], dstIds, hashes, |dstIds|)];
    ReleaseAt(fleet, next, src, srcIds);
    return true, next[src := PushAll(states[src], srcIds)];
  }

  method ReleaseBoth(fleet: Fleet, ghost states: map<ExecutorId, State>, src: ExecutorId, srcIds: seq<nat>, dst: ExecutorId, dstIds: seq<nat>)
      returns (ghost next: map<ExecutorId, State>)
    requires AllMirror(fleet, states) && src in fleet && dst in fleet && src != dst
    requires InRange(srcIds, |states[src].blocks|) && InRange(dstIds, |states[dst].blocks|)
    modifies fleet[src], fleet[src].blocks, fleet[dst], fleet[dst].blocks
    ensures AllMirror(fleet, next) && next == states[dst := PushAll(states[dst], dstIds)][src := PushAll(states[src], srcIds)]
  {
    ReleaseAt(fleet, states, dst, dstIds);
    next := states[dst := PushAll(states[dst], dstIds)];
    ReleaseAt(fleet, next, src, srcIds);
    next := next[src := PushAll(states[src], srcIds)];
  }

  /** A new executor joins the fleet. */
  method Join(fleet: Fleet, ghost states: map<ExecutorId, State>, e: ExecutorId, blockSize: nat, n: nat, sha: Str -> Str)
      returns (next: Fleet, ghost after: map<ExecutorId, State>)
    requires AllMirror(fleet, states) && blockSize > 0 && n > 0 && (e in fleet ==> states[e] == Initial(blockSize, n))
    ensures e in next && fresh(next[e]) && fresh(next[e].blocks) && next == fleet[e := next[e]]
    ensures next[e].executorId == e && next[e].sha == sha
    ensures after == states[e := Initial(blockSize, n)] && AllMirror(next, after)
  {
    AllMirrorIs(fleet, states);
    var manager := new Manager(e, blockSize, n, sha);
    next, after := fleet[e := manager], states[e := Initial(blockSize, n)];
    MirrorsIs(manager, Initial(blockSize, n));
    AllMirrorIs(next, after);
  }
}

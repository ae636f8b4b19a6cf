/**
 One executor's metadata together with who holds its blocks, and the invariant that every
 operation of the block manager keeps.
 */
module BlockInv {
  import opened Hashing
  import opened Spans
  import opened BlockSpec
  import opened Bags
  import opened BlockEffects

  datatype TransferId = TransferId(name: string)

  /**
   * `progress` is the number of tokens a request has matched or committed. `pinned` and `reserved`
   * are the source and destination blocks of the transfers that are still pending.
   */
  datatype Node = Node(
    s: State,
    progress: map<RequestId, nat>,
    pinned: map<TransferId, seq<nat>>,
    reserved: map<TransferId, seq<nat>>)

  function Progress(n: Node, r: RequestId): nat {
    if r in n.progress then n.progress[r] else 0
  }

  // ---------------------------------------------------------------- the invariant

  ghost predicate Shape(n: Node) {
    && Bounded(n.s)
    && Queued(n.s)
    && (forall t :: t in n.pinned ==> InRange(n.pinned[t], |n.s.blocks|))
    && (forall t :: t in n.reserved ==> InRange(n.reserved[t], |n.s.blocks|))
  }

  /** Occurrences in request tables, source pins and destination reservations. */
  ghost function Holders(n: Node): multiset<nat> {
    Bag(n.s.tables) + Bag(n.pinned) + Bag(n.reserved)
  }

  ghost predicate Conserved(n: Node) {
    forall b :: 0 <= b < |n.s.blocks| ==> n.s.blocks[b].refs == Holders(n)[b]
  }

  /** The cache index and the block metadata are inverse to each other. */
  ghost predicate Indexed(s: State) {
    && (forall h :: h in s.index ==>
          s.index[h] < |s.blocks| && s.blocks[s.index[h]].cached && s.blocks[s.index[h]].hash == h)
    && (forall b :: 0 <= b < |s.blocks| && s.blocks[b].cached ==>
          s.blocks[b].hash in s.index && s.index[s.blocks[b].hash] == b && s.blocks[b].tokens == s.blockSize)
  }

  /** Entry i of r's table lies beyond the request's progress. */
  predicate Beyond(n: Node, r: RequestId, i: nat) {
    Span(i + 1, n.s.blockSize) > Progress(n, r)
  }

  /** A block beyond a request's progress is not in the prefix cache and has that one holder. */
  ghost predicate Exclusive(n: Node) {
    forall r, i :: r in n.s.tables && 0 <= i < |n.s.tables[r]| && Beyond(n, r, i) ==>
      n.s.tables[r][i] < |n.s.blocks| &&
      !n.s.blocks[n.s.tables[r][i]].cached && n.s.blocks[n.s.tables[r][i]].refs == 1
  }

  /** An unpublished block in a table has that one holder, also once its tokens are committed. */
  ghost predicate Unshared(n: Node) {
    forall r, i :: r in n.s.tables && 0 <= i < |n.s.tables[r]| ==>
      n.s.tables[r][i] < |n.s.blocks| && (n.s.blocks[n.s.tables[r][i]].cached || n.s.blocks[n.s.tables[r][i]].refs == 1)
  }

  ghost predicate ProgressOk(n: Node) {
    forall r :: r in n.progress ==> r in n.s.tables && n.progress[r] <= Span(|n.s.tables[r]|, n.s.blockSize)
  }

  ghost predicate AllocationOk(n: Node, a: Allocation) {
    && a.requestId in n.s.tables
    && a.table == n.s.tables[a.requestId]
    && |a.added| <= |a.table|
    && a.added == a.table[|a.table| - |a.added|..]
    && Progress(n, a.requestId) <= Span(|a.table| - |a.added|, n.s.blockSize)
    && Progress(n, a.requestId) <= a.tokensAfterCommit <= Span(|a.table|, n.s.blockSize)
  }

  ghost predicate PendingOk(n: Node) {
    && (forall w :: w in n.s.pending ==> AllocationOk(n, n.s.pending[w]))
    && (forall v, w :: v in n.s.pending && w in n.s.pending && v != w ==>
          n.s.pending[v].requestId != n.s.pending[w].requestId)
  }

  /** Reserved destination blocks have one holder and are unpublished; pinned source blocks are published. */
  ghost predicate TransfersOk(n: Node) {
    && (forall t, i :: t in n.reserved && 0 <= i < |n.reserved[t]| ==>
          n.reserved[t][i] < |n.s.blocks| &&
          !n.s.blocks[n.reserved[t][i]].cached && n.s.blocks[n.reserved[t][i]].refs == 1)
    && (forall t, i :: t in n.pinned && 0 <= i < |n.pinned[t]| ==>
          n.pinned[t][i] < |n.s.blocks| && n.s.blocks[n.pinned[t][i]].cached)
  }

  ghost predicate Inv(n: Node) {
    Shape(n) && Conserved(n) && Indexed(n.s) && Exclusive(n) && Unshared(n) && ProgressOk(n) && PendingOk(n) && TransfersOk(n)
  }

  // ---------------------------------------------------------------- who holds a block

  lemma TableHeld(n: Node, r: RequestId, i: nat)
    requires Shape(n) && Conserved(n) && r in n.s.tables && i < |n.s.tables[r]|
    ensures n.s.tables[r][i] < |n.s.blocks| && n.s.blocks[n.s.tables[r][i]].refs >= 1
  {
    BagZero(n.s.tables, r, i);
  }

  lemma PinnedHeld(n: Node, t: TransferId, i: nat)
    requires Shape(n) && Conserved(n) && t in n.pinned && i < |n.pinned[t]|
    ensures n.s.blocks[n.pinned[t][i]].refs >= 1
  {
    BagZero(n.pinned, t, i);
  }

  /** Two table positions with one block give it two references. */
  lemma TablesShare(n: Node, q: RequestId, i: nat, r: RequestId, j: nat)
    requires Shape(n) && Conserved(n) && q in n.s.tables && i < |n.s.tables[q]| && r in n.s.tables && j < |n.s.tables[r]|
    requires n.s.tables[q][i] == n.s.tables[r][j] && (q != r || i != j)
    ensures n.s.blocks[n.s.tables[q][i]].refs >= 2
  {
    var x := n.s.tables[q][i];
    CountOne(n.s.tables[q], i);
    CountOne(n.s.tables[r], j);
    if q == r {
      CountTwo(n.s.tables[q], if i < j then i else j, if i < j then j else i);
      BagAtLeast(n.s.tables, q, x);
    } else {
      BagTwoLists(n.s.tables, q, r, x);
    }
  }

  /** An unpublished block occurs once in all tables. */
  lemma UnpublishedOnce(n: Node, q: RequestId, i: nat, r: RequestId, j: nat)
    requires Inv(n) && q in n.s.tables && i < |n.s.tables[q]| && r in n.s.tables && j < |n.s.tables[r]| && (q != r || i != j)
    requires !n.s.blocks[n.s.tables[q][i]].cached
    ensures n.s.tables[r][j] != n.s.tables[q][i]
  {
    if n.s.tables[q][i] == n.s.tables[r][j] {
      TablesShare(n, q, i, r, j);
    }
  }

  lemma TableReservationShare(n: Node, r: RequestId, i: nat, t: TransferId, j: nat)
    requires Inv(n) && r in n.s.tables && i < |n.s.tables[r]| && t in n.reserved && j < |n.reserved[t]|
    ensures n.s.tables[r][i] != n.reserved[t][j]
  {
    BagZero(n.s.tables, r, i);
    BagZero(n.reserved, t, j);
  }

  lemma ReservationsShare(n: Node, t: TransferId, i: nat, u: TransferId, j: nat)
    requires Inv(n) && t in n.reserved && i < |n.reserved[t]| && u in n.reserved && j < |n.reserved[u]|
    requires t != u || i != j
    ensures n.reserved[t][i] != n.reserved[u][j]
  {
    var x := n.reserved[t][i];
    if x == n.reserved[u][j] {
      CountOne(n.reserved[t], i);
      CountOne(n.reserved[u], j);
      if t == u {
        CountTwo(n.reserved[t], if i < j then i else j, if i < j then j else i);
        BagAtLeast(n.reserved, t, x);
      } else {
        BagTwoLists(n.reserved, t, u, x);
      }
    }
  }

  // ---------------------------------------------------------------- initial state

  lemma InitialInv(bs: nat, k: nat)
    requires bs > 0
    ensures Inv(Node(Initial(bs, k), map[], map[], map[]))
  {
    var s := Initial(bs, k);
    forall b | 0 <= b < k
      ensures b in s.free
    {
      assert s.free[b] == b;
    }
  }
}

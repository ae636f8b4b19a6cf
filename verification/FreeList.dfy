/** The doubly linked free queue that lives inside the block array. */
module FreeList {
  import opened Hashing
  import opened Sequences
  import opened BlockSpec

  datatype Block = Block(
    hash: Hash,
    refCount: nat,
    tokenCount: nat,
    cached: bool,
    inFree: bool,
    prev: int,
    next: int)

  function MetaOf(b: Block): Meta {
    Meta(b.hash, b.refCount, b.tokenCount, b.cached)
  }

  function Metas(bs: seq<Block>): (ms: seq<Meta>)
    ensures |ms| == |bs|
    ensures forall i :: 0 <= i < |bs| ==> ms[i] == MetaOf(bs[i])
  {
    seq(|bs|, i requires 0 <= i < |bs| => MetaOf(bs[i]))
  }

  /** The links of the k-th free block. */
  ghost predicate Neighbours(bs: seq<Block>, free: seq<nat>, k: nat)
    requires k < |free|
  {
    && free[k] < |bs|
    && bs[free[k]].inFree
    && bs[free[k]].prev == (if k == 0 then -1 else free[k - 1])
    && bs[free[k]].next == (if k == |free| - 1 then -1 else free[k + 1])
  }

  function First(free: seq<nat>): int {
    if free == [] then -1 else free[0]
  }

  function Last(free: seq<nat>): int {
    if free == [] then -1 else free[|free| - 1]
  }

  /** The links of `bs` and the two ends spell out the sequence `free`. */
  ghost predicate Linked(bs: seq<Block>, head: int, tail: int, free: seq<nat>) {
    && head == First(free)
    && tail == Last(free)
    && Distinct(free)
    && (forall k :: 0 <= k < |free| ==> Neighbours(bs, free, k))
    && (forall i :: 0 <= i < |bs| && bs[i].inFree ==> i in free)
  }

  lemma SameLinks(bs: seq<Block>, cs: seq<Block>, head: int, tail: int, free: seq<nat>)
    requires Linked(bs, head, tail, free) && |bs| == |cs|
    requires forall i :: 0 <= i < |bs| ==>
      cs[i].inFree == bs[i].inFree && cs[i].prev == bs[i].prev && cs[i].next == bs[i].next
    ensures Linked(cs, head, tail, free)
  {
    forall k | 0 <= k < |free|
      ensures Neighbours(cs, free, k)
    {
      assert Neighbours(bs, free, k);
    }
  }

  function Link(bs: seq<Block>, id: nat, tail: int): seq<Block>
    requires id < |bs| && -1 <= tail < |bs|
  {
    var b := bs[id := bs[id].(refCount := 0, inFree := true, prev := tail, next := -1)];
    if tail >= 0 then b[tail := b[tail].(next := id)] else b
  }

  lemma LinkedAppend(bs: seq<Block>, head: int, tail: int, free: seq<nat>, id: nat)
    requires Linked(bs, head, tail, free)
    requires id < |bs| && !bs[id].inFree
    ensures -1 <= tail < |bs| && tail != id
    ensures Linked(Link(bs, id, tail), if tail >= 0 then head else id, id, free + [id])
  {
    if free != [] {
      assert Neighbours(bs, free, |free| - 1);
    }
    var ls, longer := Link(bs, id, tail), free + [id];
    forall k | 0 <= k < |free|
      ensures free[k] != id
    {
      assert Neighbours(bs, free, k);
    }
    forall k | 0 <= k < |longer|
      ensures Neighbours(ls, longer, k)
    {
      if k < |free| {
        assert Neighbours(bs, free, k);
        assert free[k] == tail ==> k == |free| - 1;
      }
    }
    assert longer[|free|] == id;
    forall i | 0 <= i < |ls| && ls[i].inFree
      ensures i in longer
    {
      assert i == id || bs[i].inFree;
    }
  }

  function Unlink(bs: seq<Block>, id: nat): seq<Block>
    requires id < |bs| && -1 <= bs[id].prev < |bs| && -1 <= bs[id].next < |bs|
  {
    var p, n := bs[id].prev, bs[id].next;
    var b := if p >= 0 then bs[p := bs[p].(next := n)] else bs;
    var c := if n >= 0 then b[n := b[n].(prev := p)] else b;
    c[id := c[id].(inFree := false, prev := -1, next := -1)]
  }

  lemma UnlinkAt(bs: seq<Block>, id: nat, i: nat)
    requires id < |bs| && i < |bs| && -1 <= bs[id].prev < |bs| && -1 <= bs[id].next < |bs|
    requires bs[id].prev != id && bs[id].next != id
    ensures var u := Unlink(bs, id)[i];
      && u.inFree == (bs[i].inFree && i != id)
      && (i != id ==> u.next == if i == bs[id].prev then bs[id].next else bs[i].next)
      && (i != id ==> u.prev == if i == bs[id].next then bs[id].prev else bs[i].prev)
  {
  }

  /** free without its k-th entry. */
  function CutAt(free: seq<nat>, k: nat): (rest: seq<nat>)
    requires k < |free|
    ensures |rest| == |free| - 1
    ensures forall i :: 0 <= i < |rest| ==> rest[i] == free[if i < k then i else i + 1]
  {
    free[..k] + free[k + 1..]
  }

  lemma CutAtMember(free: seq<nat>, k: nat, x: nat)
    requires k < |free| && x in free && x != free[k]
    ensures x in CutAt(free, k)
  {
    var j :| 0 <= j < |free| && free[j] == x;
    assert CutAt(free, k)[if j < k then j else j - 1] == x;
  }

  lemma CutNeighbours(bs: seq<Block>, head: int, tail: int, free: seq<nat>, k: nat, i: nat)
    requires Linked(bs, head, tail, free) && k < |free| && i < |free| - 1
    requires free[k] < |bs| && -1 <= bs[free[k]].prev < |bs| && -1 <= bs[free[k]].next < |bs|
    ensures Neighbours(Unlink(bs, free[k]), CutAt(free, k), i)
  {
    var x := if i < k then i else i + 1;
    assert Neighbours(bs, free, k) && Neighbours(bs, free, x);
    UnlinkAt(bs, free[k], free[x]);
  }

  lemma OwnNeighbour(bs: seq<Block>, head: int, tail: int, free: seq<nat>, k: nat)
    requires Linked(bs, head, tail, free) && k < |free|
    ensures free[k] < |bs| && bs[free[k]].inFree
    ensures
      var id := free[k];
      -1 <= bs[id].prev < |bs| && -1 <= bs[id].next < |bs| && bs[id].prev != id && bs[id].next != id
  {
    assert Neighbours(bs, free, k);
    if k > 0 { assert Neighbours(bs, free, k - 1); }
    if k + 1 < |free| { assert Neighbours(bs, free, k + 1); }
  }

  lemma CutKeepsFlagged(bs: seq<Block>, head: int, tail: int, free: seq<nat>, k: nat, i: nat)
    requires Linked(bs, head, tail, free) && k < |free|
    requires free[k] < |bs| && -1 <= bs[free[k]].prev < |bs| && -1 <= bs[free[k]].next < |bs|
    requires i < |bs| && Unlink(bs, free[k])[i].inFree
    ensures i in CutAt(free, k)
  {
    OwnNeighbour(bs, head, tail, free, k);
    UnlinkAt(bs, free[k], i);
    CutAtMember(free, k, i);
  }

  lemma LinkedRemove(bs: seq<Block>, head: int, tail: int, free: seq<nat>, k: nat)
    requires Linked(bs, head, tail, free) && k < |free|
    ensures free[k] < |bs|
    ensures var b := bs[free[k]];
      && -1 <= b.prev < |bs| && -1 <= b.next < |bs|
      && Linked(Unlink(bs, free[k]),
                if b.prev >= 0 then head else b.next,
                if b.next >= 0 then tail else b.prev,
                CutAt(free, k))
  {
    OwnNeighbour(bs, head, tail, free, k);
    assert Neighbours(bs, free, k);
    var us, rest := Unlink(bs, free[k]), CutAt(free, k);
    forall i | 0 <= i < |us| && us[i].inFree
      ensures i in rest
    {
      CutKeepsFlagged(bs, head, tail, free, k, i);
    }
    forall i | 0 <= i < |rest|
      ensures Neighbours(us, rest, i)
    {
      CutNeighbours(bs, head, tail, free, k, i);
    }
  }

  lemma WithoutIsCut(free: seq<nat>, k: nat)
    requires k < |free|
    requires Distinct(free)
    ensures Without(free, free[k]) == CutAt(free, k)
  {
    assert IndexOf(free, free[k]) == k;
  }

  lemma UnlinkFrame(bs: seq<Block>, id: nat)
    requires id < |bs| && -1 <= bs[id].prev < |bs| && -1 <= bs[id].next < |bs|
    requires bs[id].prev != id && bs[id].next != id
    ensures Metas(Unlink(bs, id)) == Metas(bs)
    ensures forall i :: 0 <= i < |bs| ==> Unlink(bs, id)[i].inFree == (bs[i].inFree && i != id)
  {
    var us := Unlink(bs, id);
    forall i | 0 <= i < |bs|
      ensures us[i].inFree == (bs[i].inFree && i != id) && MetaOf(us[i]) == MetaOf(bs[i])
    {
      UnlinkAt(bs, id, i);
    }
  }

  /** What is left of the queue when removeFreeBlock takes out block `id`. */
  lemma UnlinkEffect(bs: seq<Block>, head: int, tail: int, free: seq<nat>, id: nat)
    requires Linked(bs, head, tail, free) && id < |bs| && bs[id].inFree
    ensures var b := bs[id];
      && -1 <= b.prev < |bs| && -1 <= b.next < |bs| && b.prev != id && b.next != id
      && Linked(Unlink(bs, id), if b.prev >= 0 then head else b.next, if b.next >= 0 then tail else b.prev,
                Without(free, id))
      && |Without(free, id)| == |free| - 1
  {
    var k := IndexOf(free, id);
    WithoutIsCut(free, k);
    OwnNeighbour(bs, head, tail, free, k);
    LinkedRemove(bs, head, tail, free, k);
  }

  // ---------------------------------------------------------------- walking the links

  /** The ids met in n steps from `at` along the next links. */
  function Forward(bs: seq<Block>, at: int, n: nat): seq<nat>
    decreases n
  {
    if n == 0 || at < 0 || at >= |bs| then [] else [at] + Forward(bs, bs[at].next, n - 1)
  }

  function Backward(bs: seq<Block>, at: int, n: nat): seq<nat>
    decreases n
  {
    if n == 0 || at < 0 || at >= |bs| then [] else Backward(bs, bs[at].prev, n - 1) + [at]
  }

  lemma {:induction false} ForwardFrom(bs: seq<Block>, head: int, tail: int, free: seq<nat>, k: nat)
    requires Linked(bs, head, tail, free) && k < |free|
    ensures Forward(bs, free[k], |free| - k) == free[k..]
    decreases |free| - k
  {
    assert Neighbours(bs, free, k);
    if k + 1 < |free| {
      ForwardFrom(bs, head, tail, free, k + 1);
    }
  }

  lemma {:induction false} BackwardFrom(bs: seq<Block>, head: int, tail: int, free: seq<nat>, k: nat)
    requires Linked(bs, head, tail, free) && k < |free|
    ensures Backward(bs, free[k], k + 1) == free[..k + 1]
  {
    assert Neighbours(bs, free, k);
    if k > 0 {
      BackwardFrom(bs, head, tail, free, k - 1);
    }
  }

  /**
   * Following the next links from the head visits exactly the blocks flagged as free, each once,
   * and stops; following the prev links from the tail visits them in the same order backwards.
   */
  lemma WalkVisitsFreeQueue(bs: seq<Block>, head: int, tail: int, free: seq<nat>)
    requires Linked(bs, head, tail, free)
    ensures Forward(bs, head, |free|) == free == Backward(bs, tail, |free|)
    ensures forall i :: 0 <= i < |bs| ==> (bs[i].inFree <==> i in free)
    ensures free != [] ==> 0 <= tail < |bs| && 0 <= head < |bs|
    ensures free != [] ==> bs[tail].next == -1 && bs[head].prev == -1
  {
    forall k | 0 <= k < |free|
      ensures free[k] < |bs| && bs[free[k]].inFree
    {
      assert Neighbours(bs, free, k);
    }
    if free != [] {
      assert Neighbours(bs, free, 0) && Neighbours(bs, free, |free| - 1);
      ForwardFrom(bs, head, tail, free, 0);
      BackwardFrom(bs, head, tail, free, |free| - 1);
    }
  }
}

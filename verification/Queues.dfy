/** The scheduler's queues. CanSchedule is a fixed set of requests during one scheduling round. */
module Queues {
  import opened Wrappers
  import opened BlockSpec

  datatype QueueError = QueueFull

  /** One work id, followed through the queues while its request can be scheduled. */
  datatype Mark = Mark(id: WorkId, ok: set<RequestId>)

  function Hit(w: Work, m: Mark): nat {
    if w.workId == m.id && w.requestId in m.ok then 1 else 0
  }

  /** How often the marked work is in a list. */
  function Count(ws: seq<Work>, m: Mark): nat {
    if ws == [] then 0 else Count(ws[..|ws| - 1], m) + Hit(ws[|ws| - 1], m)
  }

  /** The count is zero exactly when the list does not have the marked work. */
  lemma {:induction false} CountFinds(ws: seq<Work>, m: Mark)
    ensures Count(ws, m) > 0 <==> exists i :: 0 <= i < |ws| && ws[i].workId == m.id && ws[i].requestId in m.ok
  {
    if ws != [] {
      var n := |ws| - 1;
      CountFinds(ws[..n], m);
      assert forall i :: 0 <= i < n ==> ws[i] == ws[..n][i];
    }
  }

  lemma CountMore(ws: seq<Work>, w: Work, m: Mark)
    ensures Count(ws + [w], m) == Count(ws, m) + Hit(w, m)
  {
    assert (ws + [w])[..|ws|] == ws;
  }

  /** Appending a list ends with appending its last element. */
  lemma LastAppended<T>(a: seq<T>, b: seq<T>)
    requires b != []
    ensures a + b == a + b[..|b| - 1] + [b[|b| - 1]]
  {
  }

  lemma {:induction false} CountConcat(a: seq<Work>, b: seq<Work>, m: Mark)
    ensures Count(a + b, m) == Count(a, m) + Count(b, m)
    decreases |b|
  {
    if b == [] {
      assert a + b == a;
    } else {
      CountConcat(a, b[..|b| - 1], m);
      CountMore(a + b[..|b| - 1], b[|b| - 1], m);
      LastAppended(a, b);
    }
  }

  lemma CountHead(ws: seq<Work>, m: Mark)
    requires ws != []
    ensures Count(ws, m) == Count(ws[1..], m) + Hit(ws[0], m)
  {
    assert [ws[0]][..0] == [];
    CountConcat([ws[0]], ws[1..], m);
    assert [ws[0]] + ws[1..] == ws;
  }

  lemma CountNext(ws: seq<Work>, i: nat, m: Mark)
    requires i < |ws|
    ensures Count(ws[..i + 1], m) == Count(ws[..i], m) + Hit(ws[i], m)
  {
    assert ws[..i + 1] == ws[..i] + [ws[i]];
    CountMore(ws[..i], ws[i], m);
  }

  lemma CountAll(ws: seq<Work>, m: Mark)
    ensures Count(ws[..|ws|], m) == Count(ws, m)
  {
    assert ws[..|ws|] == ws;
  }

  lemma CountParts(ws: seq<Work>, n: nat, m: Mark)
    requires n <= |ws|
    ensures Count(ws[..n], m) + Count(ws[n..], m) == Count(ws, m)
  {
    CountConcat(ws[..n], ws[n..], m);
    assert ws[..n] + ws[n..] == ws;
  }

  /** The queue from its first schedulable work on. */
  function FromSchedulable(ws: seq<Work>, ok: set<RequestId>): (r: seq<Work>)
    ensures r != [] ==> r[0].requestId in ok
  {
    if ws == [] || ws[0].requestId in ok then ws else FromSchedulable(ws[1..], ok)
  }

  lemma {:induction false} SuffixFrom(ws: seq<Work>, ok: set<RequestId>) returns (k: nat)
    ensures k <= |ws| && FromSchedulable(ws, ok) == ws[k..]
  {
    if ws == [] || ws[0].requestId in ok {
      k := 0;
    } else {
      k := SuffixFrom(ws[1..], ok);
      k := k + 1;
    }
  }

  /** Skipping works that cannot be scheduled loses none that can. */
  lemma {:induction false} SkippingLosesNothing(ws: seq<Work>, m: Mark)
    ensures Count(FromSchedulable(ws, m.ok), m) == Count(ws, m)
  {
    if ws != [] && ws[0].requestId !in m.ok {
      SkippingLosesNothing(ws[1..], m);
      CountHead(ws, m);
    }
  }

  class PrefillQueue {
    var works: seq<Work>
    const size: nat

    constructor (size: nat)
      ensures works == [] && this.size == if size == 0 then 100 else size
    {
      works, this.size := [], if size == 0 then 100 else size;
    }

    method Enqueue(w: Work) returns (r: Result<(), QueueError>)
      modifies this
      ensures r.Ok? <==> |old(works)| < size
      ensures works == if r.Ok? then old(works) + [w] else old(works)
    {
      if |works| >= size {
        return Err(QueueFull);
      }
      works := works + [w];
      return Ok(());
    }

    /** Requeue takes no notice of the size. */
    method Requeue(w: Work)
      modifies this
      ensures works == old(works) + [w]
    {
      works := works + [w];
    }

    method Pop(ok: set<RequestId>) returns (r: Option<Work>)
      modifies this
      ensures FromSchedulable(old(works), ok) == [] ==> r == None && works == []
      ensures FromSchedulable(old(works), ok) != [] ==>
        r == Some(FromSchedulable(old(works), ok)[0]) && works == FromSchedulable(old(works), ok)[1..]
    {
      while |works| > 0
        invariant FromSchedulable(works, ok) == FromSchedulable(old(works), ok)
        decreases |works|
      {
        var w := works[0];
        works := works[1..];
        if w.requestId in ok {
          return Some(w);
        }
      }
      return None;
    }

    method Peek(ok: set<RequestId>) returns (r: Option<Work>)
      modifies this
      ensures works == FromSchedulable(old(works), ok)
      ensures r == if works == [] then None else Some(works[0])
    {
      while |works| > 0
        invariant FromSchedulable(works, ok) == FromSchedulable(old(works), ok)
        decreases |works|
      {
        var w := works[0];
        if w.requestId in ok {
          return Some(w);
        }
        works := works[1..];
      }
      return None;
    }
  }

  /** The schedulable works of a list, in order. */
  function Filtered(ws: seq<Work>, ok: set<RequestId>): (r: seq<Work>)
    ensures |r| <= |ws|
    ensures forall w :: w in r ==> w in ws && w.requestId in ok
  {
    if ws == [] then []
    else
      var before := Filtered(ws[..|ws| - 1], ok);
      if ws[|ws| - 1].requestId in ok then before + [ws[|ws| - 1]] else before
  }

  lemma FilteredNext(ws: seq<Work>, i: nat, ok: set<RequestId>)
    requires i < |ws|
    ensures Filtered(ws[..i + 1], ok) == if ws[i].requestId in ok then Filtered(ws[..i], ok) + [ws[i]] else Filtered(ws[..i], ok)
    ensures ws[i..][0] == ws[i] && ws[i..][1..] == ws[i + 1..]
  {
    assert ws[..i + 1][..i] == ws[..i];
  }

  lemma {:induction false} FilteringLosesNothing(ws: seq<Work>, m: Mark)
    ensures Count(Filtered(ws, m.ok), m) == Count(ws, m)
  {
    if ws != [] {
      FilteringLosesNothing(ws[..|ws| - 1], m);
      if ws[|ws| - 1].requestId in m.ok {
        CountMore(Filtered(ws[..|ws| - 1], m.ok), ws[|ws| - 1], m);
      }
    }
  }

  class DecodeQueue {
    var works: seq<Work>
    const size: nat

    constructor (size: nat)
      ensures works == [] && this.size == if size == 0 then 100 else size
    {
      works, this.size := [], if size == 0 then 100 else size;
    }

    method Enqueue(w: Work) returns (r: Result<(), QueueError>)
      modifies this
      ensures r.Ok? <==> |old(works)| < size
      ensures works == if r.Ok? then old(works) + [w] else old(works)
    {
      if |works| >= size {
        return Err(QueueFull);
      }
      works := works + [w];
      return Ok(());
    }

    method Requeue(w: Work)
      modifies this
      ensures works == old(works) + [w]
    {
      works := works + [w];
    }

    /** Up to maxSeqs entries leave the queue; those that cannot be scheduled count but are not returned. */
    method Dequeue(maxSeqs: nat, ok: set<RequestId>) returns (list: seq<Work>)
      modifies this
      ensures var n := if maxSeqs <= |old(works)| then maxSeqs else |old(works)|;
        works == old(works)[n..] && list == Filtered(old(works)[..n], ok)
    {
      list := [];
      if maxSeqs == 0 {
        return;
      }
      ghost var before := works;
      var i := 0;
      while i < maxSeqs && |works| > 0
        invariant i <= maxSeqs && i <= |before| && works == before[i..] && list == Filtered(before[..i], ok)
      {
        FilteredNext(before, i, ok);
        var w := works[0];
        works := works[1..];
        if w.requestId in ok {
          list := list + [w];
        }
        i := i + 1;
      }
    }
  }

  /** What Dequeue takes and what it leaves are all the schedulable works there were. */
  lemma DequeueLosesNothing(ws: seq<Work>, n: nat, m: Mark)
    requires n <= |ws|
    ensures Count(Filtered(ws[..n], m.ok), m) + Count(ws[n..], m) == Count(ws, m)
  {
    FilteringLosesNothing(ws[..n], m);
    CountParts(ws, n, m);
  }
}

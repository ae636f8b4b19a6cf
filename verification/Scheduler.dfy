/**
 One executor's share of the scheduler: budgets, the three queues, and the block metadata that admits work.
 `blocks` is the value of that executor's block manager (BlockManager.Manager.Model).
 */
module Scheduler {
  import opened Hashing
  import opened Wrappers
  import opened BlockSpec
  import opened WorkItems
  import opened Queues
  import opened Offers
  import opened Picks
  import opened Rounds
  import opened BlockInv
  import opened NodeSteps
  import opened Undo
  import opened Resubmission

  class Scheduler {
    const executorId: ExecutorId
    const registered: bool
    const numBlocks: nat
    const longPrefillThreshold: nat
    const limits: Budget
    const small: PrefillQueue
    const large: PrefillQueue
    const decode: DecodeQueue
    var blocks: State

    constructor (executorId: ExecutorId, registered: bool, threshold: nat, limits: Budget, queueLength: nat, blocks: State)
      requires Bounded(blocks)
      ensures Valid() && fresh(small) && fresh(large) && fresh(decode)
      ensures this.executorId == executorId && this.registered == registered && this.limits == limits && this.blocks == blocks
      ensures small.works == [] && large.works == [] && decode.works == []
    {
      this.executorId, this.registered, longPrefillThreshold, this.limits := executorId, registered, threshold, limits;
      small := new PrefillQueue(queueLength);
      large := new PrefillQueue(queueLength);
      decode := new DecodeQueue(queueLength);
      this.blocks, numBlocks := blocks, |blocks.blocks|;
      WellFormedIsBounded(blocks);
    }

    /** The queue a work belongs to. */
    function KindOf(w: Work): (kind: Kind)
      ensures kind == DecodeStep <==> w.phase == Decode
      ensures kind == ShortPrefill <==> w.phase != Decode && w.tokenCntTotal <= longPrefillThreshold
    {
      if w.phase == Decode then DecodeStep
      else if w.tokenCntTotal <= longPrefillThreshold then ShortPrefill
      else LongPrefill
    }

    /** What every work in the queue of its kind satisfies: it is this executor's, and its chunk can be sliced. */
    ghost predicate Is(kind: Kind, w: Work) {
      && w.phase != Unspecified && KindOf(w) == kind
      && w.executorId == executorId && InRange(w.cacheBlocks, numBlocks)
      && (w.phase == Prefill ==> w.numNewTokens <= |w.tokens|)
    }

    ghost predicate All(kind: Kind, ws: seq<Work>) {
      ws == [] || (All(kind, ws[..|ws| - 1]) && Is(kind, ws[|ws| - 1]))
    }

    lemma AllMore(kind: Kind, ws: seq<Work>, w: Work)
      requires All(kind, ws) && Is(kind, w)
      ensures All(kind, ws + [w])
    {
      assert (ws + [w])[..|ws|] == ws;
    }

    lemma {:induction false} AllAt(kind: Kind, ws: seq<Work>, i: nat)
      requires All(kind, ws) && i < |ws|
      ensures Is(kind, ws[i])
    {
      if i < |ws| - 1 {
        AllAt(kind, ws[..|ws| - 1], i);
      }
    }

    lemma {:induction false} AllFrom(kind: Kind, ws: seq<Work>, k: nat)
      requires All(kind, ws) && k <= |ws|
      ensures All(kind, ws[k..])
    {
      if k < |ws| {
        AllFrom(kind, ws[..|ws| - 1], k);
        assert ws[k..][..|ws[k..]| - 1] == ws[..|ws| - 1][k..];
      }
    }

    lemma {:induction false} AllFiltered(kind: Kind, ws: seq<Work>, n: nat, ok: set<RequestId>)
      requires All(kind, ws) && n <= |ws|
      ensures All(kind, Filtered(ws[..n], ok))
    {
      if n > 0 {
        assert ws[..n][..n - 1] == ws[..n - 1];
        AllFiltered(kind, ws, n - 1, ok);
        AllAt(kind, ws, n - 1);
        if ws[n - 1].requestId in ok {
          AllMore(kind, Filtered(ws[..n - 1], ok), ws[n - 1]);
        }
      }
    }

    lemma AllSkipped(kind: Kind, ws: seq<Work>, ok: set<RequestId>)
      requires All(kind, ws)
      ensures All(kind, FromSchedulable(ws, ok))
    {
      var k := SuffixFrom(ws, ok);
      AllFrom(kind, ws, k);
    }

    /** The head of a queue and its tail. */
    lemma HeadParts(kind: Kind, ws: seq<Work>, m: Mark)
      requires All(kind, ws)
      ensures ws != [] ==> Is(kind, ws[0]) && All(kind, ws[1..]) && Count(ws, m) == Count(ws[1..], m) + Hit(ws[0], m)
    {
      if ws != [] {
        AllAt(kind, ws, 0);
        AllFrom(kind, ws, 1);
        CountHead(ws, m);
      }
    }

    ghost predicate Valid()
      reads this, small, large, decode
    {
      && small != large && WellFormed(blocks) && blocks.blockSize > 0 && |blocks.blocks| == numBlocks
      && All(ShortPrefill, small.works) && All(LongPrefill, large.works) && All(DecodeStep, decode.works)
    }

    /** How often a work is queued. */
    ghost function Queued(m: Mark): nat
      reads small, large, decode
    {
      Count(small.works, m) + Count(large.works, m) + Count(decode.works, m)
    }

    /** The registry's AllocateBlocks. */
    method AllocateBlocks(w: Work) returns (r: Admission)
      requires Valid() && InRange(w.cacheBlocks, numBlocks)
      modifies this`blocks
      ensures Valid()
      ensures r == if !registered then Unknown else if CanAllocate(old(blocks), w) then Allocated else Refused
      ensures blocks == if registered then Allocate(old(blocks), w) else old(blocks)
      ensures Keeps(old(blocks), blocks)
      ensures r == Allocated ==> w.workId in blocks.pending
    {
      if !registered {
        return Unknown;
      }
      WellFormedIsBounded(blocks);
      AllocateBounded(blocks, w);
      WellFormedIsBounded(Allocate(blocks, w));
      r := if CanAllocate(blocks, w) then Allocated else Refused;
      blocks := Allocate(blocks, w);
    }

    /** requeueWork */
    method Requeue(w: Work, ghost m: Mark)
      requires Valid() && Is(KindOf(w), w)
      modifies small, large, decode
      ensures Valid() && Queued(m) == old(Queued(m)) + Hit(w, m)
      ensures match KindOf(w)
        case DecodeStep => decode.works == old(decode.works) + [w] && small.works == old(small.works) && large.works == old(large.works)
        case ShortPrefill => small.works == old(small.works) + [w] && large.works == old(large.works) && decode.works == old(decode.works)
        case LongPrefill => large.works == old(large.works) + [w] && small.works == old(small.works) && decode.works == old(decode.works)
    {
      if w.phase == Decode {
        AllMore(DecodeStep, decode.works, w);
        CountMore(decode.works, w, m);
        decode.Requeue(w);
      } else if w.tokenCntTotal <= longPrefillThreshold {
        AllMore(ShortPrefill, small.works, w);
        CountMore(small.works, w, m);
        small.Requeue(w);
      } else {
        AllMore(LongPrefill, large.works, w);
        CountMore(large.works, w, m);
        large.Requeue(w);
      }
    }

    /** What is queued. */
    function Lists(): Backlog
      reads small, large, decode
    {
      Backlog(decode.works, small.works, large.works)
    }

    /** The queue for works of this kind is not full. */
    predicate HasRoom(kind: Kind)
      reads small, large, decode
    {
      match kind
      case DecodeStep => |decode.works| < decode.size
      case ShortPrefill => |small.works| < small.size
      case LongPrefill => |large.works| < large.size
    }

    /** Enqueue: the work is the last of its queue, unless that queue is full. */
    method Enqueue(w: Work, ghost m: Mark) returns (r: Result<(), QueueError>)
      requires Valid() && Is(KindOf(w), w)
      modifies small, large, decode
      ensures r.Ok? <==> old(HasRoom(KindOf(w)))
      ensures Lists() == if r.Ok? then old(Lists()).With(KindOf(w), w) else old(Lists())
      ensures Valid() && Queued(m) == old(Queued(m)) + (if r.Ok? then Hit(w, m) else 0)
    {
      if w.phase == Decode {
        AllMore(DecodeStep, decode.works, w);
        CountMore(decode.works, w, m);
        r := decode.Enqueue(w);
      } else if w.tokenCntTotal <= longPrefillThreshold {
        AllMore(ShortPrefill, small.works, w);
        CountMore(small.works, w, m);
        r := small.Enqueue(w);
      } else {
        AllMore(LongPrefill, large.works, w);
        CountMore(large.works, w, m);
        r := large.Enqueue(w);
      }
    }

    // -------------------------------------------------------------- budget.go

    /** Asks for the blocks of `chunk`; when there are too few, the work it was cut from goes back to its queue. */
    method Offer(chunk: Work, origin: Work, ghost m: Mark) returns (o: Offered)
      requires Valid() && chunk.cacheBlocks == origin.cacheBlocks && Is(KindOf(origin), origin)
      modifies this`blocks, small, large, decode
      ensures Valid() && (o.Rejected? || o.PutBack? || o.Taken?)
      ensures Queued(m) + Left(o, m) == old(Queued(m)) + Hit(origin, m)
      ensures Keeps(old(blocks), blocks) && Outcome(old(blocks), blocks, o)
      ensures o.origin == origin && (o.Rejected? <==> !registered) && (!o.Rejected? ==> o.chunk == chunk)
      ensures o.Taken? ==> chunk.workId in blocks.pending
      ensures small.works == old(small.works) + (if o.PutBack? && KindOf(origin) == ShortPrefill then [origin] else [])
      ensures large.works == old(large.works) + (if o.PutBack? && KindOf(origin) == LongPrefill then [origin] else [])
      ensures decode.works == old(decode.works) + (if o.PutBack? && KindOf(origin) == DecodeStep then [origin] else [])
    {
      var admission := AllocateBlocks(chunk);
      match admission {
        case Unknown => o := Rejected(origin);
        case Allocated => o := Taken(chunk, origin);
        case Refused =>
          Requeue(origin, m);
          o := PutBack(chunk, origin);
      }
    }

    /** What dequeuing keeps of the queue and what it hands out are both decode works, and nothing is lost. */
    lemma DequeueKeeps(n: nat, ok: set<RequestId>, m: Mark)
      requires Valid() && m.ok == ok
      ensures var k := if n <= |decode.works| then n else |decode.works|;
        && All(DecodeStep, decode.works[k..]) && All(DecodeStep, Filtered(decode.works[..k], ok))
        && Count(Filtered(decode.works[..k], ok), m) + Count(decode.works[k..], m) == Count(decode.works, m)
    {
      var k := if n <= |decode.works| then n else |decode.works|;
      AllFrom(DecodeStep, decode.works, k);
      AllFiltered(DecodeStep, decode.works, k, ok);
      DequeueLosesNothing(decode.works, k, m);
    }

    /** Decode steps first, one token each. If there is none, the caps on prefills are lifted. */
    method PickDecode(ok: set<RequestId>, budget: Budget, ghost m: Mark) returns (p: Picked, dequeued: nat)
      requires Valid() && m.ok == ok
      modifies this`blocks, small, large, decode
      ensures var k := Min(Min(budget.seqs, budget.tokens), |old(decode.works)|);
        var items := Filtered(old(decode.works)[..k], ok);
        && dequeued == |items| && p.tried == (if registered then items else []) && p.failed == (if registered then [] else items)
        && decode.works == old(decode.works)[k..] + (if registered then PutBackOf(old(blocks), items, items) else [])
      ensures small.works == old(small.works) && large.works == old(large.works)
      ensures Valid() && All(DecodeStep, p.batch) && |p.batch| <= dequeued
      ensures InBudget(p, if dequeued > 0 then budget else budget.(prefill := budget.seqs, large := budget.seqs), DecodeStep)
      ensures Queued(m) + Gone(p, m) == old(Queued(m))
      ensures Admitted(blocks, p.batch) && Keeps(old(blocks), blocks)
      ensures Traced(old(blocks), blocks, p.batch, p.tried)
    {
      var n := Min(budget.seqs, budget.tokens);
      DequeueKeeps(n, ok, m);
      var items := decode.Dequeue(n, ok);
      dequeued := |items|;
      if dequeued == 0 {
        NothingPutBack(items, decode.works);
        p := Picked([], [], [], budget.(prefill := budget.seqs, large := budget.seqs), []);
        return;
      }
      p := OfferDecodes(items, budget, m);
    }

    lemma RecordedAll(p: Picked, kind: Kind, o: Offered, s: State, t: State)
      requires All(kind, p.batch) && (o.Taken? ==> Is(kind, o.chunk) && Affordable(p.rest, kind, Cost(o.chunk)))
      requires Admitted(s, p.batch) && Keeps(s, t) && (o.Taken? ==> o.chunk.workId in t.pending)
      ensures All(kind, Recorded(p, kind, o).batch) && Admitted(t, Recorded(p, kind, o).batch)
    {
      AdmittedStays(s, t, p.batch);
      if o.Taken? {
        AllMore(kind, p.batch, o.chunk);
        AdmittedMore(t, p.batch, o.chunk);
      }
    }

    lemma {:induction false} DecodesCostOne(ws: seq<Work>)
      requires All(DecodeStep, ws)
      ensures TotalCost(ws) == |ws|
    {
      if ws != [] {
        DecodesCostOne(ws[..|ws| - 1]);
      }
    }

    lemma NothingPutBack(items: seq<Work>, rest: seq<Work>)
      requires items == [] && blocks.blockSize > 0
      ensures rest == rest + (if registered then PutBackOf(blocks, items, items) else [])
    {
    }

    /** The works offered so far, and how the decode queue has grown by those that were put back. */
    ghost predicate Offering(start: State, p: Picked, items: seq<Work>, i: nat, queued: seq<Work>)
      requires start.blockSize > 0 && i <= |items|
      reads decode
    {
      OfferedAll(start, registered, p, items[..i], queued, decode.works)
    }

    method OfferDecode(p: Picked, items: seq<Work>, i: nat, budget: Budget, ghost m: Mark, ghost start: State, ghost queued: seq<Work>) returns (q: Picked)
      requires Valid() && i < |items| && All(DecodeStep, items) && All(DecodeStep, p.batch) && Admitted(blocks, p.batch)
      requires InBudget(p, budget, DecodeStep) && |p.batch| <= i && |items| <= budget.tokens && |items| <= budget.seqs
      requires Traced(start, blocks, p.batch, p.tried) && Offering(start, p, items, i, queued)
      modifies this`blocks, small, large, decode
      ensures Offering(start, q, items, i + 1, queued) && small.works == old(small.works) && large.works == old(large.works)
      ensures Valid() && All(DecodeStep, q.batch) && Admitted(blocks, q.batch) && Keeps(old(blocks), blocks)
      ensures InBudget(q, budget, DecodeStep) && |q.batch| <= i + 1 && Traced(start, blocks, q.batch, q.tried)
      ensures Queued(m) + Gone(q, m) + Count(items[..i], m) == old(Queued(m)) + Gone(p, m) + Count(items[..i + 1], m)
    {
      CountNext(items, i, m);
      AllAt(DecodeStep, items, i);
      DecodesCostOne(p.batch);
      var o := Offer(items[i], items[i], m);
      ghost var r := DecodeRecorded(start, old(blocks), blocks, p, budget, registered, items[..i], items[i], o, m, queued, old(decode.works));
      RecordedAll(p, DecodeStep, o, old(blocks), blocks);
      OneLonger(items, i);
      q := Recorded(p, DecodeStep, o);
    }

    method OfferDecodes(items: seq<Work>, budget: Budget, ghost m: Mark) returns (p: Picked)
      requires Valid() && All(DecodeStep, items) && |items| <= budget.tokens && |items| <= budget.seqs
      modifies this`blocks, small, large, decode
      ensures p.tried == (if registered then items else []) && p.failed == (if registered then [] else items)
      ensures decode.works == old(decode.works) + (if registered then PutBackOf(old(blocks), items, items) else [])
      ensures small.works == old(small.works) && large.works == old(large.works)
      ensures Valid() && All(DecodeStep, p.batch) && |p.batch| <= |items|
      ensures InBudget(p, budget, DecodeStep)
      ensures Queued(m) + Gone(p, m) == old(Queued(m)) + Count(items, m)
      ensures Admitted(blocks, p.batch) && Keeps(old(blocks), blocks)
      ensures Traced(old(blocks), blocks, p.batch, p.tried)
    {
      p := Picked([], [], [], budget, []);
      for i := 0 to |items|
        invariant Valid() && All(DecodeStep, p.batch) && |p.batch| <= i
        invariant InBudget(p, budget, DecodeStep)
        invariant Queued(m) + Gone(p, m) == old(Queued(m)) + Count(items[..i], m)
        invariant Admitted(blocks, p.batch) && Keeps(old(blocks), blocks)
        invariant Traced(old(blocks), blocks, p.batch, p.tried) && Offering(old(blocks), p, items, i, old(decode.works))
        invariant small.works == old(small.works) && large.works == old(large.works)
      {
        p := OfferDecode(p, items, i, budget, m, old(blocks), old(decode.works));
      }
      CountAll(items, m);
      assert items[..|items|] == items;
    }

    /** The cost of the first short prefill that can be scheduled; those before it that cannot are gone. */
    method PeekSmall(ok: set<RequestId>, ghost m: Mark) returns (cost: Option<nat>)
      requires Valid() && m.ok == ok
      modifies small
      ensures Valid() && Queued(m) == old(Queued(m))
      ensures small.works == FromSchedulable(old(small.works), ok) && (cost.None? <==> small.works == [])
      ensures cost.Some? ==> small.works != [] && small.works[0].requestId in ok && cost.value == Cost(small.works[0])
    {
      SkippingLosesNothing(small.works, m);
      AllSkipped(ShortPrefill, small.works, ok);
      var peeked := small.Peek(ok);
      cost := if peeked.None? then None else Some(Cost(peeked.value));
    }

    method PopSmall(ok: set<RequestId>, ghost m: Mark) returns (w: Work)
      requires Valid() && small.works != [] && small.works[0].requestId in ok
      modifies small
      ensures Valid() && Is(ShortPrefill, w) && w == old(small.works[0]) && small.works == old(small.works)[1..]
      ensures Queued(m) + Hit(w, m) == old(Queued(m))
    {
      HeadParts(ShortPrefill, small.works, m);
      var popped := small.Pop(ok);
      w := popped.value;
    }

    /** The first short prefill that can be scheduled, if its cost fits. */
    method TakeSmall(ok: set<RequestId>, tokens: nat, ghost m: Mark) returns (o: Offered)
      requires Valid() && m.ok == ok
      modifies this`blocks, small, large, decode
      ensures Valid() && large.works == old(large.works) && decode.works == old(decode.works)
      ensures var q := Filtered(old(small.works), ok);
        && (o.NoneLeft? <==> q == []) && (o.TooCostly? <==> q != [] && Cost(q[0]) > tokens)
        && (Stopped(o) ==> Filtered(small.works, ok) == q)
        && (!Stopped(o) ==> OfHead(old(blocks), registered, q, o) && Filtered(small.works, ok) == Turned(q, o))
        && (o.PutBack? ==> o.chunk == o.origin)
      ensures Queued(m) + Left(o, m) == old(Queued(m))
      ensures o.Taken? ==> o.chunk == o.origin && Is(ShortPrefill, o.chunk) && Cost(o.chunk) <= tokens && o.chunk.workId in blocks.pending
      ensures Keeps(old(blocks), blocks) && Outcome(old(blocks), blocks, o)
    {
      SkippedFiltered(small.works, ok);
      var cost := PeekSmall(ok, m);
      if cost.None? {
        return NoneLeft;
      }
      if cost.value > tokens {
        return TooCostly;
      }
      var w := PopSmall(ok, m);
      ghost var rest := small.works;
      o := Offer(w, w, m);
      QueueAfter(rest, w, o, ok);
    }

    /** The works that a pick of whole works has offered, in order. */
    function OfferedBy(p: Picked): seq<Work> {
      if registered then p.tried else p.failed
    }

    /** The schedulable short prefills have been offered in order since `start`. */
    ghost predicate ShortsInOrder(before: State, p: Picked, start: seq<Work>, ok: set<RequestId>)
      requires before.blockSize > 0
      reads small
    {
      InOrder(before, p, registered, start, OfferedBy(p), Filtered(small.works, ok))
    }

    /** One turn of the loop below. */
    method StepSmall(p: Picked, ok: set<RequestId>, budget: Budget, ghost m: Mark, ghost start: State, ghost works: seq<Work>)
        returns (q: Picked, stop: bool)
      requires Valid() && All(ShortPrefill, p.batch) && InBudget(p, budget, ShortPrefill) && Admitted(blocks, p.batch) && m.ok == ok
      requires Traced(start, blocks, p.batch, p.tried) && ShortsInOrder(start, p, works, ok) && Begun(OfferedBy(p), works, budget, ShortPrefill)
      requires p.rest.seqs > 0 && p.rest.tokens > 0 && p.rest.prefill > 0
      modifies this`blocks, small, large, decode
      ensures Valid() && All(ShortPrefill, q.batch) && InBudget(q, budget, ShortPrefill)
      ensures Traced(start, blocks, q.batch, q.tried) && ShortsInOrder(start, q, works, ok) && Begun(OfferedBy(q), works, budget, ShortPrefill)
      ensures |OfferedBy(q)| == |OfferedBy(p)| + (if stop then 0 else 1)
      ensures stop ==> Filtered(small.works, ok) == [] || Cost(Filtered(small.works, ok)[0]) > q.rest.tokens
      ensures Queued(m) + Gone(q, m) == old(Queued(m)) + Gone(p, m)
      ensures Admitted(blocks, q.batch) && Keeps(old(blocks), blocks)
      ensures large.works == old(large.works) && decode.works == old(decode.works)
    {
      var o := TakeSmall(ok, p.rest.tokens, m);
      ghost var r, more := TurnRecorded(start, old(blocks), blocks, p, budget, ShortPrefill, registered, o, m, works, OfferedBy(p),
                                        Filtered(old(small.works), ok));
      TurnBegins(start, p, ShortPrefill, registered, works, OfferedBy(p), Filtered(old(small.works), ok), o, more, budget);
      RecordedAll(p, ShortPrefill, o, old(blocks), blocks);
      q, stop := Recorded(p, ShortPrefill, o), Stopped(o);
    }

    /** Short prefills, whole, offered in order until a budget is used up, the next one is too costly, or all have had their turn. */
    method PickSmallPrefill(ok: set<RequestId>, budget: Budget, ghost m: Mark) returns (p: Picked)
      requires Valid() && m.ok == ok
      modifies this`blocks, small, large, decode
      ensures ShortsInOrder(old(blocks), p, Filtered(old(small.works), ok), ok)
      ensures Begun(OfferedBy(p), Filtered(old(small.works), ok), budget, ShortPrefill)
      ensures ShortsEnd(p, Filtered(small.works, ok), |OfferedBy(p)|, |old(small.works)|)
      ensures large.works == old(large.works) && decode.works == old(decode.works)
      ensures Valid() && All(ShortPrefill, p.batch) && InBudget(p, budget, ShortPrefill)
      ensures Queued(m) + Gone(p, m) == old(Queued(m))
      ensures Admitted(blocks, p.batch) && Keeps(old(blocks), blocks)
      ensures Traced(old(blocks), blocks, p.batch, p.tried)
    {
      p := Picked([], [], [], budget, []);
      NoneOffered(old(blocks), p, registered, Filtered(small.works, ok));
      var maxScan := |small.works|;
      var scanned := 0;
      while scanned < maxScan && p.rest.seqs > 0 && p.rest.tokens > 0 && p.rest.prefill > 0
        invariant Valid() && All(ShortPrefill, p.batch) && InBudget(p, budget, ShortPrefill)
        invariant Queued(m) + Gone(p, m) == old(Queued(m))
        invariant Admitted(blocks, p.batch) && Keeps(old(blocks), blocks)
        invariant Traced(old(blocks), blocks, p.batch, p.tried)
        invariant ShortsInOrder(old(blocks), p, Filtered(old(small.works), ok), ok) && |OfferedBy(p)| == scanned <= maxScan
        invariant Begun(OfferedBy(p), Filtered(old(small.works), ok), budget, ShortPrefill)
        invariant large.works == old(large.works) && decode.works == old(decode.works)
        decreases maxScan - scanned
      {
        var stop;
        p, stop := StepSmall(p, ok, budget, m, old(blocks), Filtered(old(small.works), ok));
        if stop {
          break;
        }
        scanned := scanned + 1;
      }
    }

    method PopLarge(ok: set<RequestId>, ghost m: Mark) returns (popped: Option<Work>)
      requires Valid() && m.ok == ok
      modifies large
      ensures Valid() && (popped.Some? ==> Is(LongPrefill, popped.value))
      ensures Queued(m) + (if popped.Some? then Hit(popped.value, m) else 0) == old(Queued(m))
      ensures var q := Filtered(old(large.works), ok);
        && (popped.None? <==> q == []) && (popped.None? ==> Filtered(large.works, ok) == [])
        && (popped.Some? ==> popped.value == q[0] && Filtered(large.works, ok) == q[1..])
    {
      SkippedFiltered(large.works, ok);
      SkippingLosesNothing(large.works, m);
      AllSkipped(LongPrefill, large.works, ok);
      HeadParts(LongPrefill, FromSchedulable(large.works, ok), m);
      popped := large.Pop(ok);
    }

    /** The first long prefill that can be scheduled, cut to the tokens that are left. */
    method TakeLarge(ok: set<RequestId>, tokens: nat, ghost m: Mark) returns (o: Offered)
      requires Valid() && m.ok == ok
      modifies this`blocks, small, large, decode
      ensures Valid() && small.works == old(small.works) && decode.works == old(decode.works)
      ensures var q := Filtered(old(large.works), ok);
        && (Stopped(o) <==> q == []) && !o.TooCostly? && (Stopped(o) ==> Filtered(large.works, ok) == q)
        && (!Stopped(o) ==> OfHead(old(blocks), registered, q, o) && Filtered(large.works, ok) == Turned(q, o))
        && (o.Taken? || o.PutBack? ==> o.chunk == ChunkFor(q[0], tokens))
      ensures Queued(m) + Left(o, m) == old(Queued(m))
      ensures o.Taken? ==>
        && ChunkOf(o.chunk, o.origin) && Is(LongPrefill, o.origin) && Is(LongPrefill, o.chunk)
        && Cost(o.chunk) == Min(Cost(o.origin), tokens) && o.chunk.workId in blocks.pending
      ensures Keeps(old(blocks), blocks) && Outcome(old(blocks), blocks, o)
    {
      var popped := PopLarge(ok, m);
      if popped.None? {
        return NoneLeft;
      }
      ghost var rest := large.works;
      var w := popped.value;
      var (chunk, _) := Split(w, Min(Cost(w), tokens));
      SplitIsChunk(w, Min(Cost(w), tokens));
      ChunkIsLarge(chunk, w);
      o := Offer(chunk, w, m);
      QueueAfter(rest, w, o, ok);
    }

    lemma ChunkIsLarge(chunk: Work, w: Work)
      requires Is(LongPrefill, w) && ChunkOf(chunk, w) && chunk.numNewTokens <= |chunk.tokens|
      ensures Is(LongPrefill, chunk) && chunk.cacheBlocks == w.cacheBlocks
    {
    }

    /** The schedulable long prefills have been offered in order since `start`, each cut to the tokens left. */
    ghost predicate LongsInOrder(before: State, p: Picked, start: seq<Work>, offered: seq<Work>, tokens: nat, ok: set<RequestId>)
      requires before.blockSize > 0
      reads large
    {
      InOrder(before, p, registered, start, offered, Filtered(large.works, ok)) && FitsTokens(before, registered, tokens, p, offered)
    }

    /** One turn of the loop below. */
    method StepLarge(p: Picked, ok: set<RequestId>, budget: Budget, ghost m: Mark, ghost start: State, ghost works: seq<Work>, ghost offered: seq<Work>)
        returns (q: Picked, stop: bool, ghost more: seq<Work>)
      requires Valid() && All(LongPrefill, p.batch) && InBudget(p, budget, LongPrefill) && Admitted(blocks, p.batch) && m.ok == ok
      requires Traced(start, blocks, p.batch, p.tried) && LongsInOrder(start, p, works, offered, budget.tokens, ok)
      requires Begun(offered, works, budget, LongPrefill)
      requires p.rest.seqs > 0 && p.rest.tokens > 0 && p.rest.prefill > 0 && p.rest.large > 0
      modifies this`blocks, small, large, decode
      ensures Valid() && All(LongPrefill, q.batch) && InBudget(q, budget, LongPrefill)
      ensures Traced(start, blocks, q.batch, q.tried) && LongsInOrder(start, q, works, more, budget.tokens, ok)
      ensures |more| == |offered| + (if stop then 0 else 1) && (stop ==> Filtered(large.works, ok) == [])
      ensures Begun(more, works, budget, LongPrefill)
      ensures Queued(m) + Gone(q, m) == old(Queued(m)) + Gone(p, m)
      ensures Admitted(blocks, q.batch) && Keeps(old(blocks), blocks)
      ensures small.works == old(small.works) && decode.works == old(decode.works)
    {
      var o := TakeLarge(ok, p.rest.tokens, m);
      ghost var r;
      r, more := TurnRecorded(start, old(blocks), blocks, p, budget, LongPrefill, registered, o, m, works, offered, Filtered(old(large.works), ok));
      TurnBegins(start, p, LongPrefill, registered, works, offered, Filtered(old(large.works), ok), o, more, budget);
      TurnFits(start, old(blocks), p, budget, LongPrefill, registered, o, offered, more);
      RecordedAll(p, LongPrefill, o, old(blocks), blocks);
      q, stop := Recorded(p, LongPrefill, o), o.NoneLeft?;
    }

    /** Long prefills, offered in order until a budget is used up or all have had their turn, the last one perhaps cut short. */
    method PickLargePrefill(ok: set<RequestId>, budget: Budget, ghost m: Mark) returns (p: Picked, ghost offered: seq<Work>)
      requires Valid() && m.ok == ok
      modifies this`blocks, small, large, decode
      ensures LongsInOrder(old(blocks), p, Filtered(old(large.works), ok), offered, budget.tokens, ok)
      ensures Begun(offered, Filtered(old(large.works), ok), budget, LongPrefill)
      ensures LongsEnd(p, Filtered(large.works, ok), |offered|, |old(large.works)|)
      ensures small.works == old(small.works) && decode.works == old(decode.works)
      ensures Valid() && All(LongPrefill, p.batch) && InBudget(p, budget, LongPrefill)
      ensures Queued(m) + Gone(p, m) == old(Queued(m))
      ensures Admitted(blocks, p.batch) && Keeps(old(blocks), blocks)
      ensures Traced(old(blocks), blocks, p.batch, p.tried)
    {
      p, offered := Picked([], [], [], budget, []), [];
      NoneOffered(blocks, p, registered, Filtered(large.works, ok));
      var maxScan := |large.works|;
      var scanned := 0;
      while scanned < maxScan && p.rest.seqs > 0 && p.rest.tokens > 0 && p.rest.prefill > 0 && p.rest.large > 0
        invariant Valid() && All(LongPrefill, p.batch) && InBudget(p, budget, LongPrefill)
        invariant Queued(m) + Gone(p, m) == old(Queued(m))
        invariant Admitted(blocks, p.batch) && Keeps(old(blocks), blocks)
        invariant Traced(old(blocks), blocks, p.batch, p.tried)
        invariant LongsInOrder(old(blocks), p, Filtered(old(large.works), ok), offered, budget.tokens, ok) && |offered| == scanned <= maxScan
        invariant Begun(offered, Filtered(old(large.works), ok), budget, LongPrefill)
        invariant small.works == old(small.works) && decode.works == old(decode.works)
        decreases maxScan - scanned
      {
        var stop;
        p, stop, offered := StepLarge(p, ok, budget, m, old(blocks), Filtered(old(large.works), ok), offered);
        if stop {
          break;
        }
        scanned := scanned + 1;
      }
    }

    /** Short prefills, then long ones. */
    method PickPrefills(ok: set<RequestId>, budget: Budget, ghost m: Mark)
        returns (s: Picked, l: Picked, ghost offered: seq<Work>, ghost between: State)
      requires Valid() && m.ok == ok
      modifies this`blocks, small, large, decode
      ensures PrefillsPicked(old(blocks), between, blocks, registered, s, l, offered, budget, Filtered(old(small.works), ok),
                             Filtered(old(large.works), ok), Filtered(small.works, ok), Filtered(large.works, ok),
                             |old(small.works)|, |old(large.works)|)
      ensures decode.works == old(decode.works)
      ensures Valid() && All(ShortPrefill, s.batch) && All(LongPrefill, l.batch)
      ensures Queued(m) + Gone(s, m) + Gone(l, m) == old(Queued(m))
    {
      s := PickSmallPrefill(ok, budget, m);
      between := blocks;
      l, offered := PickLargePrefill(ok, s.rest, m);
    }

    // -------------------------------------------------------------- scheduler.go

    /** Decode steps, short prefills, long prefills. */
    method PickQueues(ok: set<RequestId>, ghost m: Mark) returns (d: Picked, s: Picked, l: Picked, dequeued: nat, ghost offered: seq<Work>,
                                                                   ghost t: State, ghost u: State)
      requires Valid() && m.ok == ok
      modifies this`blocks, small, large, decode
      ensures var k := Min(Min(limits.seqs, limits.tokens), |old(decode.works)|);
        var decodes := Filtered(old(decode.works)[..k], ok);
        && DecodesPicked(old(blocks), t, registered, d, dequeued, limits, decodes) && Keeps(old(blocks), t)
        && decode.works == old(decode.works)[k..] + (if registered then PutBackOf(old(blocks), decodes, decodes) else [])
      ensures PrefillsPicked(t, u, blocks, registered, s, l, offered, d.rest, Filtered(old(small.works), ok),
                             Filtered(old(large.works), ok), Filtered(small.works, ok), Filtered(large.works, ok),
                             |old(small.works)|, |old(large.works)|)
      ensures Valid() && All(DecodeStep, d.batch) && All(ShortPrefill, s.batch) && All(LongPrefill, l.batch)
      ensures Queued(m) + Gone(d, m) + Gone(s, m) + Gone(l, m) == old(Queued(m))
    {
      d, dequeued := PickDecode(ok, limits, m);
      t := blocks;
      s, l, offered, u := PickPrefills(ok, d.rest, m);
    }

    /**
     * pickBatch. The batch stays within the limits; whenever a decode was dequeued the caps on prefills hold
     * too; and every schedulable work (`m` marks an arbitrary one) is afterwards in exactly one place:
     * in a queue, in the batch (or cut down in it), or failed.
     */
    method PickBatch(ok: set<RequestId>, ghost m: Mark) returns (b: Assembled, ghost r: Round)
      requires Valid() && m.ok == ok
      modifies this`blocks, small, large, decode
      ensures Valid() && WithinLimits(b, limits) && CutFrom(b.Batch(), b.origins)
      ensures All(DecodeStep, b.decodes) && All(ShortPrefill, b.shorts) && All(LongPrefill, b.longs)
      ensures Queued(m) + Count(b.Batch(), m) + Count(b.failed, m) == old(Queued(m))
      ensures Admitted(blocks, b.Batch()) && Keeps(old(blocks), blocks)
      ensures Traced(old(blocks), blocks, b.Batch(), b.tried)
      ensures b == Assemble(r.decodes, r.shorts, r.longs, b.dequeued)
      ensures var k := Min(Min(limits.seqs, limits.tokens), |old(decode.works)|);
        var decodes, shorts, longs := Filtered(old(decode.works)[..k], ok), Filtered(old(small.works), ok), Filtered(old(large.works), ok);
        && Ordered(old(blocks), registered, r, decodes, shorts, longs, Filtered(small.works, ok), Filtered(large.works, ok))
        && decode.works == old(decode.works)[k..] + (if registered then PutBackOf(old(blocks), decodes, decodes) else [])
        && (registered ==> Leads(old(blocks), b, FirstOffer(decodes, shorts, longs, limits)))
      ensures ShortsEnd(r.shorts, Filtered(small.works, ok), |OfferedBy(r.shorts)|, |old(small.works)|)
      ensures LongsEnd(r.longs, Filtered(large.works, ok), |r.offered|, |old(large.works)|)
    {
      var d, s, l, dequeued;
      ghost var offered, t, u;
      d, s, l, dequeued, offered, t, u := PickQueues(ok, m);
      b, r := Assemble(d, s, l, dequeued), Round(d, s, l, offered);
      ghost var decodes := Filtered(old(decode.works)[..Min(Min(limits.seqs, limits.tokens), |old(decode.works)|)], ok);
      ghost var whole := WholeRound(old(blocks), t, u, blocks, registered, r, dequeued, limits, decodes, Filtered(old(small.works), ok),
                                    Filtered(old(large.works), ok), Filtered(small.works, ok), Filtered(large.works, ok),
                                    |old(small.works)|, |old(large.works)|, m);
    }

    /** The failure path of patchExecute: each work's blocks are rolled back and the work, or its chunk, is queued again. */
    method SubmitFailed(batch: seq<Work>, ghost m: Mark)
      requires Valid() && forall i :: 0 <= i < |batch| ==> Is(KindOf(batch[i]), batch[i])
      modifies this`blocks, small, large, decode
      ensures Valid() && Queued(m) == old(Queued(m)) + Count(batch, m)
      ensures Bounded(old(blocks)) && blocks == RolledBack(old(blocks), batch, |batch|)
    {
      ghost var before := blocks;
      WellFormedIsBounded(blocks);
      for i := 0 to |batch|
        invariant Valid() && Queued(m) == old(Queued(m)) + Count(batch[..i], m)
        invariant blocks == RolledBack(before, batch, i)
      {
        CountNext(batch, i, m);
        RollbackAndRequeue(batch[i], m);
      }
      CountAll(batch, m);
    }

    method RollbackAndRequeue(w: Work, ghost m: Mark)
      requires Valid() && Is(KindOf(w), w)
      modifies this`blocks, small, large, decode
      ensures Valid() && Queued(m) == old(Queued(m)) + Hit(w, m)
      ensures Bounded(old(blocks)) && blocks == Rollback(old(blocks), w.workId)
    {
      WellFormedIsBounded(blocks);
      RollbackBounded(blocks, w.workId);
      WellFormedIsBounded(Rollback(blocks, w.workId));
      blocks := Rollback(blocks, w.workId);
      Requeue(w, m);
    }

    /**
     * patchExecute: the batch goes to the executor, or everything it took is put back. Then the block metadata is
     * as it was before the batch was picked, whenever it was that of a sound executor `n` and the engine offered
     * what it may.
     */
    method PatchExecute(ok: set<RequestId>, accepted: bool, ghost m: Mark, ghost n: Node) returns (b: Assembled)
      requires Valid() && m.ok == ok
      modifies this`blocks, small, large, decode
      ensures Valid() && WithinLimits(b, limits) && CutFrom(b.Batch(), b.origins)
      ensures Bounded(old(blocks)) && Bounded(Tried(old(blocks), b.tried)) && b.Batch() == Granted(old(blocks), b.tried)
      ensures accepted ==> Queued(m) + Count(b.Batch(), m) + Count(b.failed, m) == old(Queued(m)) && Admitted(blocks, b.Batch())
      ensures accepted ==> blocks == Tried(old(blocks), b.tried)
      ensures !accepted ==> Queued(m) + Count(b.failed, m) == old(Queued(m))
      ensures !accepted ==> blocks == RolledBack(Tried(old(blocks), b.tried), b.Batch(), |b.Batch()|)
      ensures !accepted && n.s == old(blocks) && Sound(n) && AllMayAllocate(n, b.tried) && NewWorks(n, b.Batch()) ==> Undone(old(blocks), blocks)
    {
      WellFormedIsBounded(blocks);
      ghost var before := blocks;
      ghost var r;
      b, r := PickBatch(ok, m);
      WellFormedIsBounded(blocks);
      if n.s == before && Sound(n) && AllMayAllocate(n, b.tried) && NewWorks(n, b.Batch()) {
        FailedSubmitRestores(n, b.tried);
      }
      if b.Batch() == [] || accepted {
        return;
      }
      BatchIsQueueable(b);
      SubmitFailed(b.Batch(), m);
    }

    lemma BatchIsQueueable(b: Assembled)
      requires All(DecodeStep, b.decodes) && All(ShortPrefill, b.shorts) && All(LongPrefill, b.longs)
      ensures forall i :: 0 <= i < |b.Batch()| ==> Is(KindOf(b.Batch()[i]), b.Batch()[i])
    {
      forall i | 0 <= i < |b.Batch()|
        ensures Is(KindOf(b.Batch()[i]), b.Batch()[i])
      {
        if i < |b.decodes| {
          AllAt(DecodeStep, b.decodes, i);
        } else if i < |b.decodes| + |b.shorts| {
          AllAt(ShortPrefill, b.shorts, i - |b.decodes|);
        } else {
          AllAt(LongPrefill, b.longs, i - |b.decodes| - |b.shorts|);
        }
      }
    }
  }
}

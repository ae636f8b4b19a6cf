/** How often a block id occurs in a family of lists: the multiset sum over a map's values. */
module Bags {

  ghost function Bag<K>(m: map<K, seq<nat>>): multiset<nat> {
    if m == map[] then multiset{}
    else
      var k :| k in m;
      multiset(m[k]) + Bag(m - {k})
  }

  lemma {:induction false} BagRemove<K>(m: map<K, seq<nat>>, k: K)
    requires k in m
    ensures Bag(m) == multiset(m[k]) + Bag(m - {k})
    decreases |m|
  {
    var j :| j in m && Bag(m) == multiset(m[j]) + Bag(m - {j});
    if j != k {
      BagRemove(m - {j}, k);
      BagRemove(m - {k}, j);
      assert m - {j} - {k} == m - {k} - {j};
    }
  }

  lemma BagInsert<K>(m: map<K, seq<nat>>, k: K, xs: seq<nat>)
    requires k !in m
    ensures Bag(m[k := xs]) == multiset(xs) + Bag(m)
  {
    BagRemove(m[k := xs], k);
    assert m[k := xs] - {k} == m;
  }

  function Listed<K>(m: map<K, seq<nat>>, k: K): seq<nat> {
    if k in m then m[k] else []
  }

  lemma BagExtend<K>(m: map<K, seq<nat>>, k: K, more: seq<nat>)
    ensures Bag(m[k := Listed(m, k) + more]) == Bag(m) + multiset(more)
  {
    var xs := Listed(m, k);
    assert multiset(xs + more) == multiset(xs) + multiset(more);
    if k in m {
      BagRemove(m, k);
      BagRemove(m[k := xs + more], k);
      assert m[k := xs + more] - {k} == m - {k};
    } else {
      BagInsert(m, k, xs + more);
    }
  }

  lemma BagAtLeast<K>(m: map<K, seq<nat>>, k: K, x: nat)
    requires k in m
    ensures Bag(m)[x] >= multiset(m[k])[x]
  {
    BagRemove(m, k);
  }

  lemma BagTwoLists<K>(m: map<K, seq<nat>>, j: K, k: K, x: nat)
    requires j in m && k in m && j != k
    ensures Bag(m)[x] >= multiset(m[j])[x] + multiset(m[k])[x]
  {
    BagRemove(m, j);
    BagAtLeast(m - {j}, k, x);
  }

  lemma CountOne(xs: seq<nat>, i: nat)
    requires i < |xs|
    ensures multiset(xs)[xs[i]] >= 1
  {
    assert xs[i] in multiset(xs);
  }

  lemma CountTwo(xs: seq<nat>, i: nat, j: nat)
    requires i < j < |xs| && xs[i] == xs[j]
    ensures multiset(xs)[xs[i]] >= 2
  {
    assert xs == xs[..j] + xs[j..];
    CountOne(xs[..j], i);
    CountOne(xs[j..], 0);
  }

  /** A value the sum lacks is in none of the lists. */
  lemma BagZero<K>(m: map<K, seq<nat>>, k: K, i: nat)
    requires k in m && i < |m[k]|
    ensures Bag(m)[m[k][i]] >= 1
  {
    BagAtLeast(m, k, m[k][i]);
    CountOne(m[k], i);
  }

  lemma {:induction false} BagPositive<K>(m: map<K, seq<nat>>, x: nat) returns (k: K, i: nat)
    requires Bag(m)[x] > 0
    ensures k in m && i < |m[k]| && m[k][i] == x
    decreases |m|
  {
    var j :| j in m && Bag(m) == multiset(m[j]) + Bag(m - {j});
    if x in multiset(m[j]) {
      k := j;
      i :| 0 <= i < |m[j]| && m[j][i] == x;
    } else {
      k, i := BagPositive(m - {j}, x);
    }
  }
}

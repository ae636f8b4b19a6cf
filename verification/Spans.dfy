/** Block-sized arithmetic: the number of tokens in k blocks, and which block holds a position. */
module Spans {

  /** k blocks of bs tokens. Stated as a sum so that proofs need no products of variables. */
  function Span(k: nat, bs: nat): nat {
    if k == 0 then 0 else Span(k - 1, bs) + bs
  }

  lemma {:induction false} SpanIsProduct(k: nat, bs: nat)
    ensures Span(k, bs) == k * bs
  {
    if k > 0 {
      SpanIsProduct(k - 1, bs);
      assert k * bs == (k - 1) * bs + bs;
    }
  }

  lemma {:induction false} SpanMonotone(j: nat, k: nat, bs: nat)
    requires j <= k
    ensures Span(j, bs) <= Span(k, bs)
    decreases k
  {
    if j < k {
      SpanMonotone(j, k - 1, bs);
    }
  }

  /** n / bs full blocks fit into n tokens, and no more. */
  lemma SpanOfQuotient(n: nat, bs: nat)
    requires bs > 0
    ensures Span(n / bs, bs) <= n < Span(n / bs, bs) + bs
    ensures n == Span(n / bs, bs) + n % bs
  {
    SpanIsProduct(n / bs, bs);
    assert n == n / bs * bs + n % bs;
  }

  /** The quotient is the only block count with that property. */
  lemma QuotientOfSpan(n: nat, bs: nat, k: nat)
    requires bs > 0 && Span(k, bs) <= n < Span(k, bs) + bs
    ensures n / bs == k && n % bs == n - Span(k, bs)
  {
    SpanOfQuotient(n, bs);
    var q := n / bs;
    if q < k {
      SpanMonotone(q + 1, k, bs);
    } else if k < q {
      SpanMonotone(k + 1, q, bs);
    }
  }

  /** ceilDiv */
  function CeilDiv(v: nat, d: nat): nat
    requires d > 0
  {
    if v == 0 then 0 else (v + d - 1) / d
  }

  lemma CeilDivCovers(v: nat, d: nat)
    requires d > 0
    ensures v <= Span(CeilDiv(v, d), d) < v + d
  {
    if v > 0 {
      SpanOfQuotient(v + d - 1, d);
    }
  }
}

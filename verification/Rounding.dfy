/** Rounded quotients, stated without dividing. */
module Rounding {

  /** `q` is `n / d` rounded down. */
  predicate Floored(q: int, n: int, d: int) { q * d <= n < (q + 1) * d }

  /** `q` is `n / d` rounded up. */
  predicate Ceiled(q: int, n: int, d: int) { (q - 1) * d < n <= q * d }

  lemma FloorIs(n: int, d: int)
    requires 0 < d
    ensures Floored(n / d, n, d)
  {
    assert n == d * (n / d) + n % d;
  }

  lemma CeilIs(n: int, d: int)
    requires 0 < d
    ensures Ceiled((n + d - 1) / d, n, d)
  {
    var m := n + d - 1;
    assert m == d * (m / d) + m % d;
  }

  /** Dividing twice rounds down as dividing once. */
  lemma TwoFloors(n: int, d: int, b: int)
    requires 0 < d && 0 < b
    ensures Floored(n / d / b, n, d * b)
  {
    var a := n / d;
    var q := a / b;
    FloorIs(n, d);
    FloorIs(a, b);
    Scale(q * b, a, d);
    Scale(a + 1, (q + 1) * b, d);
    assert q * (d * b) == q * b * d;
    assert (q + 1) * (d * b) == (q + 1) * b * d;
  }

  lemma Scale(x: int, y: int, k: int)
    requires x <= y && 0 <= k
    ensures x * k <= y * k
  {
  }

  /** A floor is positive enough to pay `m` exactly when the numerator reaches that multiple. */
  lemma FloorAtLeast(q: int, n: int, d: int, m: int)
    requires 0 < d && Floored(q, n, d)
    ensures m <= q <==> m * d <= n
  {
    if m <= q {
      Scale(m, q, d);
    } else {
      Scale(q + 1, m, d);
    }
  }

  /** Rounding down has one result. */
  lemma FlooredOnce(q: int, r: int, n: int, d: int)
    requires 0 < d && Floored(q, n, d) && Floored(r, n, d)
    ensures q == r
  {
    FloorAtLeast(q, n, d, r);
    FloorAtLeast(r, n, d, q);
  }

  lemma CeiledOnce(q: int, r: int, n: int, d: int)
    requires 0 < d && Ceiled(q, n, d) && Ceiled(r, n, d)
    ensures q == r
  {
    if q < r {
      Scale(q, r - 1, d);
    } else if r < q {
      Scale(r, q - 1, d);
    }
  }
}

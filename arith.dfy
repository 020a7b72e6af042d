/** Facts about multiplication and Euclidean division that the models' proofs use. */
module Arith {
  /** Multiplying by a non-negative factor keeps the order. */
  lemma MulLe(a: int, b: int, c: int)
    requires a <= b && c >= 0
    ensures a * c <= b * c
  {
  }

  /** 0 <= a < d*(k+1) bounds a / d between 0 and k (d > 0). */
  lemma DivBounds(a: int, d: int, k: nat)
    requires d > 0 && 0 <= a < d * (k + 1)
    ensures 0 <= a / d <= k
  {
    var q, r := a / d, a % d;
    assert a == d * q + r && 0 <= r < d;
    if q < 0 {
      MulLe(q, -1, d);
    }
    if q > k {
      MulLe(k + 1, q, d);
    }
  }

  /** Euclidean division by a positive divisor is unique. */
  lemma DivExact(a: int, d: int, q: int, r: int)
    requires d > 0 && 0 <= r < d && a == d * q + r
    ensures a / d == q
  {
    var q2, r2 := a / d, a % d;
    assert a == d * q2 + r2 && 0 <= r2 < d;
    if q2 < q {
      MulLe(q2 + 1, q, d);
    }
    if q2 > q {
      MulLe(q + 1, q2, d);
    }
  }

  /** Euclidean division by a positive divisor is monotone in the dividend. */
  lemma DivMonotone(a: int, b: int, d: int)
    requires a <= b && d > 0
    ensures a / d <= b / d
  {
    var qa, ra, qb, rb := a / d, a % d, b / d, b % d;
    assert a == d * qa + ra && b == d * qb + rb;
    if qa > qb {
      MulLe(qb + 1, qa, d);
    }
  }

  /** Scaling by a factor of at least 2 keeps a difference only when it is zero. */
  lemma ScaledDifference(b: int, e: int, p: int)
    requires p >= 2
    ensures b * p - e * p == b - e <==> b == e
  {
    assert b * p - e * p == (b - e) * p;
    if b > e {
      MulLe(2, p, b - e);
    } else if b < e {
      MulLe(2, p, e - b);
      assert (b - e) * p == -((e - b) * p);
    }
  }
}

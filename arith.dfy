/** Facts of integer multiplication and division that the solver does not find unaided. */
module Arith {

  lemma DivMulUnique(v: int, d: int, q: int, m: int)
    requires 0 < d && 0 <= m < d && v == d * q + m
    ensures v / d == q && v % d == m
  {
    var q', m' := v / d, v % d;
    assert v == d * q' + m';
    if q' > q {
      MulMonotone(d, q + 1, q');
      assert false;
    } else if q' < q {
      MulMonotone(d, q' + 1, q);
      assert false;
    }
  }

  lemma MulMonotone(d: int, a: int, b: int)
    requires 0 <= d && a <= b
    ensures d * a <= d * b
  {
    assert d * b - d * a == d * (b - a);
  }

  /** Floors of ordered quotients are ordered: `s1` and `s2` are the floors of `p1 / b` and `p2 / b`. */
  lemma FloorMonotone(p1: int, p2: int, b: int, s1: int, s2: int)
    requires 0 < b && p1 <= p2
    requires s1 * b <= p1 && p2 < (s2 + 1) * b
    ensures s1 <= s2
  {
    if s1 > s2 {
      MulMonotone(b, s2 + 1, s1);
      assert false;
    }
  }

  lemma FloorDiv(a: int, b: int)
    requires 0 <= a && 0 < b
    ensures (a / b) * b <= a < (a / b + 1) * b
  {
    assert a == b * (a / b) + a % b;
  }

  /** A quotient is at most `c` when the dividend is at most `b * c`, and below it when below. */
  lemma DivBelow(a: int, b: int, c: int)
    requires 0 <= a <= b * c && 0 < b
    ensures a / b <= c
    ensures a < b * c ==> a / b < c
  {
    var q := a / b;
    FloorDiv(a, b);
    if q > c {
      MulMonotone(b, c + 1, q);
      assert false;
    }
    if a < b * c && q == c {
      assert false;
    }
  }
}

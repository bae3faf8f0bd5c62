/** C integer division and remainder.
    C's `/` truncates toward zero and `%` takes the sign of the dividend;
    Dafny's `/` and `%` are Euclidean.  Every division in the traffic-light
    sources is written with these two functions. */
module CInt {

  function Abs(a: int): (m: int)
    ensures m >= 0 && (m == a || m == -a)
  {
    if a < 0 then -a else a
  }

  /** `a / b` as C computes it (truncation toward zero); `CDivTruncates`
      states what it means. */
  function CDiv(a: int, b: int): int
    requires b != 0
  {
    if (a >= 0) == (b > 0) then Abs(a) / Abs(b) else -(Abs(a) / Abs(b))
  }

  /** `a % b` as C computes it (the sign of the dividend). */
  function CRem(a: int, b: int): (r: int)
    requires b != 0
    ensures a >= 0 ==> 0 <= r < Abs(b)
    ensures a < 0 ==> -Abs(b) < r <= 0
  {
    if a >= 0 then Abs(a) % Abs(b) else -(Abs(a) % Abs(b))
  }

  lemma MulAtLeast(d: int, x: int)
    requires d > 0 && x >= 1
    ensures d * x >= d
  {
  }

  lemma ModUnique(n: int, d: int, q: int, r: int)
    requires d > 0 && n == d * q + r && 0 <= r < d
    ensures n % d == r
  {
    var q', r' := n / d, n % d;
    assert d * (q - q') == r' - r;
    if q > q' {
      MulAtLeast(d, q - q');
    } else if q < q' {
      MulAtLeast(d, q' - q);
    }
  }

  lemma ModShift(m: int, d: int)
    requires m >= 0 && d > 0
    ensures (m + d) % d == m % d
  {
    var q, r := m / d, m % d;
    assert m + d == d * (q + 1) + r;
    ModUnique(m + d, d, q + 1, r);
  }

  lemma DivUnique(n: int, d: int, q: int, r: int)
    requires d > 0 && n == d * q + r && 0 <= r < d
    ensures n / d == q
  {
    ModUnique(n, d, q, r);
  }

  /** Adding a multiple of the divisor to a non-negative dividend does not
      change the C remainder. */
  lemma {:induction false} CRemPeriodic(a: int, b: int, k: nat)
    requires a >= 0 && b != 0
    ensures CRem(a + k * Abs(b), b) == CRem(a, b)
  {
    var d := Abs(b);
    if k > 0 {
      CRemPeriodic(a, b, k - 1);
      var m := a + (k - 1) * d;
      assert a + k * d == m + d;
      ModShift(m, d);
    }
  }

  /** `CDiv` is C's quotient: it pairs with `CRem` (`(a/b)*b + a%b == a`),
      it is the exact quotient truncated toward zero (no larger in size,
      less than one away), and it has the exact quotient's sign when it is
      not zero. */
  lemma CDivTruncates(a: int, b: int)
    requires b != 0
    ensures CDiv(a, b) * b + CRem(a, b) == a
    ensures Abs(CDiv(a, b)) * Abs(b) <= Abs(a) < (Abs(CDiv(a, b)) + 1) * Abs(b)
    ensures CDiv(a, b) > 0 ==> (a > 0) == (b > 0)
    ensures CDiv(a, b) < 0 ==> (a > 0) != (b > 0)
  {
    CDivPairs(a, b);
    CDivSize(a, b);
    CDivSign(a, b);
  }

  /** Euclidean division of a non-negative number by a positive one. */
  lemma DivBounds(m: int, d: int)
    requires m >= 0 && d > 0
    ensures (m / d) * d + m % d == m && 0 <= m % d < d
    ensures (m / d) * d <= m < (m / d) * d + d
    ensures m / d >= 0
  {
  }

  lemma CDivPairs(a: int, b: int)
    requires b != 0
    ensures CDiv(a, b) * b + CRem(a, b) == a
  {
    var m, d := Abs(a), Abs(b);
    DivBounds(m, d);
    var q0, r0 := m / d, m % d;
    var q := CDiv(a, b);
    if a >= 0 {
      if b > 0 {
        assert q * b == q0 * d;
      } else {
        assert q * b == (-q0) * (-d);
      }
    } else {
      if b > 0 {
        assert q * b == (-q0) * d;
      } else {
        assert q * b == q0 * (-d);
      }
    }
  }

  lemma CDivSize(a: int, b: int)
    requires b != 0
    ensures Abs(CDiv(a, b)) * Abs(b) <= Abs(a) < (Abs(CDiv(a, b)) + 1) * Abs(b)
  {
    var m, d := Abs(a), Abs(b);
    DivBounds(m, d);
    assert Abs(CDiv(a, b)) == m / d;
    assert (m / d + 1) * d == (m / d) * d + d;
  }

  lemma CDivSign(a: int, b: int)
    requires b != 0
    ensures CDiv(a, b) > 0 ==> (a > 0) == (b > 0)
    ensures CDiv(a, b) < 0 ==> (a > 0) != (b > 0)
  {
    var m, d := Abs(a), Abs(b);
    DivBounds(m, d);
  }

  /** For a non-negative dividend and a positive divisor C's `/` is Dafny's. */
  lemma CDivNonNeg(a: int, b: int)
    requires a >= 0 && b > 0
    ensures CDiv(a, b) == a / b && CRem(a, b) == a % b
  {
  }
}

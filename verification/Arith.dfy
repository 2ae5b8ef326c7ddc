/** The few facts of non-linear arithmetic that the error bounds rest on.  The product of reals has a
    name so that proofs can hide its definition and stay linear. */
module Arith {
  ghost function Mul(a: real, b: real): real {
    a * b
  }

  lemma Commute(a: real, b: real)
    ensures Mul(a, b) == Mul(b, a)
  {
  }

  lemma Associate(a: real, b: real, c: real)
    ensures Mul(Mul(a, b), c) == Mul(a, Mul(b, c))
  {
  }

  lemma Distribute(a: real, b: real, c: real)
    ensures Mul(a, b + c) == Mul(a, b) + Mul(a, c)
    ensures Mul(a, b - c) == Mul(a, b) - Mul(a, c)
  {
  }

  lemma Units(a: real)
    ensures Mul(1.0, a) == a && Mul(a, 1.0) == a && Mul(a, 0.0) == 0.0
  {
  }

  lemma NonNegProduct(a: real, b: real)
    requires a >= 0.0 && b >= 0.0
    ensures Mul(a, b) >= 0.0
  {
  }

  lemma PositiveProduct(a: real, b: real)
    requires a > 0.0 && b > 0.0
    ensures Mul(a, b) > 0.0
  {
  }

  lemma OfInts(a: int, b: int)
    ensures (a * b) as real == Mul(a as real, b as real)
  {
  }

  /** |d| <= e and 0 <= k <= m give |k * d| <= m * e. */
  lemma ProductBound(k: real, m: real, d: real, e: real)
    requires 0.0 <= k <= m && -e <= d <= e
    ensures -Mul(m, e) <= Mul(k, d) <= Mul(m, e)
  {
    hide Mul;
    NonNegProduct(k, e - d);
    NonNegProduct(k, e + d);
    NonNegProduct(m - k, e);
    Distribute(k, e, d);
    Commute(m - k, e);
    Distribute(e, m, k);
    Commute(e, m);
    Commute(e, k);
  }

  /** A positive common factor can be cancelled from an error bound. */
  lemma CancelBound(f: real, x: real, e: real)
    requires f > 0.0 && -Mul(f, e) <= Mul(f, x) <= Mul(f, e)
    ensures -e <= x <= e
  {
    hide Mul;
    Distribute(f, x, e);
    Distribute(f, e, x);
    if x > e { PositiveProduct(f, x - e); }
    if x < -e {
      PositiveProduct(f, -e - x);
      Distribute(f, -e, x);
      Distribute(f, 0.0, e);
      Units(f);
    }
  }

  lemma DivTimes(a: real, b: real)
    requires b != 0.0
    ensures Mul(b, a / b) == a
  {
  }

  /** A quotient of numbers 0 <= a <= b lies between 0 and 1. */
  lemma UnitQuotient(a: real, b: real, y: real)
    requires 0.0 <= a <= b && b > 0.0 && Mul(b, y) == a
    ensures 0.0 <= y <= 1.0
  {
    hide Mul;
    Units(b);
    if y < 0.0 {
      PositiveProduct(b, -y);
      Distribute(b, 0.0, y);
    }
    if y > 1.0 {
      PositiveProduct(b, y - 1.0);
      Distribute(b, y, 1.0);
    }
  }

  /** Multiplying by a factor between 0 and 1 keeps within 0 and the other factor. */
  lemma FactorBound(f: real, beta: real)
    requires f >= 0.0 && 0.0 <= beta <= 1.0
    ensures 0.0 <= Mul(f, beta) <= f
  {
    hide Mul;
    NonNegProduct(f, beta);
    NonNegProduct(f, 1.0 - beta);
    Distribute(f, 1.0, beta);
    Units(f);
  }

  // ---------------------------------------------------------------- integers

  lemma MulMono(a: nat, b: nat, c: nat)
    requires a <= b
    ensures a * c <= b * c
  {
  }

  lemma IntMulMono(a: int, b: int, c: nat)
    requires a <= b
    ensures a * c <= b * c
  {
    MulMono(0, b - a, c);
  }

  lemma DivBounds(n: int, d: int)
    requires d > 0
    ensures (n / d) * d <= n < (n / d) * d + d
  {
  }

  lemma NextMultiple(q: int, d: int)
    ensures (q + 1) * d == q * d + d
  {
  }

  lemma SameQuotient(n: int, d: int, q: int, k: int)
    requires d > 0 && q * d <= n < q * d + d && k * d <= n < k * d + d
    ensures k == q
  {
    if k < q { IntMulMono(k + 1, q, d); }
    if k > q { IntMulMono(q + 1, k, d); }
  }

  /** The quotient is the only multiple that brackets the dividend. */
  lemma DivIs(n: int, d: int, q: int)
    requires d > 0 && q * d <= n < q * d + d
    ensures n / d == q
  {
    DivBounds(n, d);
    SameQuotient(n, d, q, n / d);
  }

  /** Products and quotients of naturals, named for the same reason. */
  function Times(a: nat, b: nat): (r: nat)
    ensures r == a * b
  {
    a * b
  }

  function Quot(n: nat, d: nat): (q: nat)
    requires d >= 1
    ensures q == n / d
  {
    NonNegQuotient(n, d);
    n / d
  }

  lemma NonNegQuotient(n: nat, d: nat)
    requires d >= 1
    ensures n / d >= 0
  {
    DivBounds(n, d);
    if n / d < 0 { IntMulMono(n / d, -1, d); }
  }

  // ---------------------------------------------------------------- errors

  ghost function RAbs(x: real): real {
    if x < 0.0 then -x else x
  }

  ghost predicate Within(a: real, b: real, e: real) {
    b - e <= a <= b + e
  }

  /** p approximates ab / f to half a unit, ab approximates f * exact to f * e: the errors add up. */
  lemma RoundingChain(f: real, p: real, ab: real, exact: real, e: real)
    requires f > 0.0
    requires Within(Mul(f, p), ab, Mul(f, 0.5))
    requires Within(ab, Mul(f, exact), Mul(f, e))
    ensures Within(p, exact, e + 0.5)
  {
    hide Mul;
    Distribute(f, p, exact);
    Distribute(f, e, 0.5);
    CancelBound(f, p - exact, e + 0.5);
  }

  /** |x| <= e gives |d * x| <= |d| * e. */
  lemma ScaledError(d: real, x: real, e: real)
    requires -e <= x <= e
    ensures -Mul(RAbs(d), e) <= Mul(d, x) <= Mul(RAbs(d), e)
  {
    hide Mul;
    ProductBound(RAbs(d), RAbs(d), x, e);
    if d < 0.0 {
      Distribute(x, 0.0, d);
      Units(x);
      Commute(x, d);
      Commute(x, 0.0 - d);
      assert 0.0 - d == RAbs(d);
    }
  }

  // ---------------------------------------------------------------- powers

  ghost function RPow(y: real, n: nat): real {
    if n == 0 then 1.0 else Mul(y, RPow(y, n - 1))
  }

  lemma {:induction false} RPowUnit(y: real, n: nat)
    requires 0.0 <= y <= 1.0
    ensures 0.0 <= RPow(y, n) <= 1.0
  {
    hide Mul;
    if n > 0 {
      RPowUnit(y, n - 1);
      FactorBound(y, RPow(y, n - 1));
    }
  }

  lemma {:induction false} RPowAdd(y: real, m: nat, n: nat)
    ensures RPow(y, m + n) == Mul(RPow(y, m), RPow(y, n))
  {
    hide Mul;
    if m == 0 {
      Units(RPow(y, n));
    } else {
      RPowAdd(y, m - 1, n);
      Associate(y, RPow(y, m - 1), RPow(y, n));
    }
  }

  function Pow2(n: nat): (r: nat)
    ensures r >= 1 && (n >= 1 ==> r >= 2 && r % 2 == 0)
  {
    if n == 0 then 1 else 2 * Pow2(n - 1)
  }

  function Min(a: int, b: int): (m: int)
    ensures m <= a && m <= b && (m == a || m == b)
  {
    if a < b then a else b
  }
}

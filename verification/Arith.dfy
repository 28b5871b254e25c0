/** The few facts about products, quotients and remainders the index computations rest on. */
module Arith {
  lemma Product(a: int, b: int)
    requires a > 0 && b > 0
    ensures a * b >= a && a * b >= b
  {
  }

  lemma SmallMultiple(k: int, d: int)
    requires d > 0 && -d < k * d < d
    ensures k == 0
  {
    if k > 0 {
      Product(k, d);
    } else if k < 0 {
      Product(-k, d);
    }
  }

  /** Quotient and remainder are the only ones. */
  lemma DivUnique(x: int, q: int, r: int, d: int)
    requires d > 0 && 0 <= r < d && x == q * d + r
    ensures x / d == q && x % d == r
  {
    var q', r' := x / d, x % d;
    assert x == q' * d + r';
    assert (q - q') * d == q * d - q' * d;
    SmallMultiple(q - q', d);
  }

  lemma MulMonotone(a: int, b: int, d: int)
    requires a <= b && d >= 0
    ensures a * d <= b * d
  {
  }

  lemma DivRange(k: int, n: int, d: int)
    requires d > 0 && 0 <= k < n * d
    ensures 0 <= k / d < n && 0 <= k % d < d
  {
    var q := k / d;
    assert k == q * d + k % d;
    if q >= n {
      MulMonotone(n, q, d);
    }
  }

  lemma DivLast(n: int, d: int)
    requires n > 0 && d > 0
    ensures (n * d - 1) / d == n - 1 && (n * d - 1) % d == d - 1
  {
    assert n * d - 1 == (n - 1) * d + (d - 1);
    DivUnique(n * d - 1, n - 1, d - 1, d);
  }

  // ----- mixed-radix indices, with the arithmetic behind function symbols -----

  function Times(a: nat, b: nat): nat { a * b }

  /** The index of entry `r` of row `q`, rows being `d` long. */
  function Join(q: nat, d: nat, r: nat): nat { q * d + r }

  function Quot(x: nat, d: nat): nat
    requires d > 0
  {
    x / d
  }

  function Rem(x: nat, d: nat): nat
    requires d > 0
  {
    x % d
  }

  lemma JoinSplit(q: nat, r: nat, n: nat, d: nat)
    requires q < n && r < d
    ensures Join(q, d, r) < Times(n, d) && Quot(Join(q, d, r), d) == q && Rem(Join(q, d, r), d) == r
  {
    DivUnique(q * d + r, q, r, d);
    MulMonotone(q + 1, n, d);
    assert (q + 1) * d == q * d + d;
  }

  lemma SplitJoin(x: nat, n: nat, d: nat)
    requires x < Times(n, d)
    ensures d > 0 && Quot(x, d) < n && Rem(x, d) < d && Join(Quot(x, d), d, Rem(x, d)) == x
  {
    if d != 0 {
      DivRange(x, n, d);
    }
  }

  lemma TimesSnoc(n: nat, d: nat)
    ensures Times(n + 1, d) == Times(n, d) + d == Join(n, d, d) && Times(0, d) == 0 && Join(n, d, 0) == Times(n, d)
  {
  }

  lemma TimesBelow(a: nat, b: nat, d: nat)
    requires a <= b
    ensures Times(a, d) <= Times(b, d)
  {
    MulMonotone(a, b, d);
  }

  lemma JoinFirst(d: nat, r: nat)
    ensures Join(0, d, r) == r
  {
  }

  lemma JoinNext(q: nat, d: nat, r: nat)
    requires q > 0
    ensures Join(q, d, r) == d + Join(q - 1, d, r)
  {
    assert q * d == (q - 1) * d + d;
  }

  // ----- products of reals, behind a function symbol -----

  function Mul(a: real, b: real): real { a * b }

  lemma MulPositive(a: real, b: real)
    requires a > 0.0 && b > 0.0
    ensures Mul(a, b) > 0.0
  {
  }

  lemma MulBelow(a: real, b: real, c: real, d: real)
    requires 0.0 <= a <= c && 0.0 <= b <= d
    ensures 0.0 <= Mul(a, b) <= Mul(c, d)
  {
  }

  lemma MulNonNegative(a: real, b: real)
    requires 0.0 <= a && 0.0 <= b
    ensures 0.0 <= Mul(a, b)
  {
  }

  lemma MulCommutes(a: real, b: real)
    ensures Mul(a, b) == Mul(b, a)
  {
  }

  lemma CancelRight(a: real, b: real, c: real)
    requires c > 0.0 && Mul(a, c) <= Mul(b, c)
    ensures a <= b
  {
    if a > b {
      MulPositive(a - b, c);
    }
  }

  lemma Regroup(t: real, a: real, b: real, c: real)
    ensures Mul(Mul(Mul(a, c), Mul(b, c)), t) == Mul(Mul(t, Mul(a, b)), Mul(c, c))
  {
    assert (a * c) * (b * c) == (a * b) * (c * c);
  }

  lemma DivMul(a: real, b: real)
    requires b > 0.0
    ensures Mul(a / b, b) == a && (a > 0.0 ==> a / b > 0.0) && (a >= 0.0 ==> a / b >= 0.0)
  {
  }
}

/** Modular arithmetic as the bignum library computes it. */
module Modular {

  function Pow(b: int, e: nat): int {
    if e == 0 then 1 else b * Pow(b, e - 1)
  }

  lemma ProductAtLeast(p: int, k: int)
    requires p > 0 && k >= 1
    ensures p * k >= p
  {
  }

  /** Division with remainder is unique. */
  lemma RemainderIs(n: int, p: int, q: int, r: int)
    requires p > 0 && n == p * q + r && 0 <= r < p
    ensures n % p == r && n / p == q
  {
    var d := q - n / p;
    assert p * d == n % p - r by { assert p * d == p * q - p * (n / p); }
    if d >= 1 { ProductAtLeast(p, d); }
    if d <= -1 { ProductAtLeast(p, -d); }
  }

  lemma AddMultiple(n: int, p: int, k: int)
    requires p > 0
    ensures (n + p * k) % p == n % p
  {
    assert n + p * k == p * (n / p + k) + n % p by { assert p * (n / p + k) == p * (n / p) + p * k; }
    RemainderIs(n + p * k, p, n / p + k, n % p);
  }

  /** Congruence, in the form that composes: a difference by a multiple. */
  lemma SameRemainder(x: int, y: int, p: int) returns (k: int)
    requires p > 0 && x % p == y % p
    ensures x == y + p * k
  {
    k := x / p - y / p;
    assert p * k == p * (x / p) - p * (y / p);
  }

  lemma MultipleOut(y: int, p: int, k: int, z: int)
    ensures (y + p * k) * z == y * z + p * (k * z)
  {
    assert (y + p * k) * z == y * z + (p * k) * z;
    assert (p * k) * z == p * (k * z);
  }

  lemma MulSame(x: int, y: int, z: int, p: int)
    requires p > 0 && x % p == y % p
    ensures (x * z) % p == (y * z) % p && (z * x) % p == (z * y) % p
  {
    var k := SameRemainder(x, y, p);
    MultipleOut(y, p, k, z);
    AddMultiple(y * z, p, k * z);
  }

  lemma AddSame(x: int, y: int, z: int, p: int)
    requires p > 0 && x % p == y % p
    ensures (x + z) % p == (y + z) % p && (x - z) % p == (y - z) % p
  {
    var k := SameRemainder(x, y, p);
    AddMultiple(y + z, p, k);
    AddMultiple(y - z, p, k);
  }

  lemma ModTwice(x: int, p: int)
    requires p > 0
    ensures (x % p) % p == x % p
  {
  }

  lemma {:induction false} PowSame(x: int, y: int, n: nat, p: int)
    requires p > 0 && x % p == y % p
    ensures Pow(x, n) % p == Pow(y, n) % p
  {
    if n > 0 {
      PowSame(x, y, n - 1, p);
      MulSame(x, y, Pow(x, n - 1), p);
      MulSame(Pow(x, n - 1), Pow(y, n - 1), y, p);
    }
  }

  lemma {:induction false} PowAdd(b: int, m: nat, n: nat)
    ensures Pow(b, m + n) == Pow(b, m) * Pow(b, n)
  {
    if m > 0 {
      PowAdd(b, m - 1, n);
      assert Pow(b, m + n) == b * Pow(b, m - 1 + n);
      assert b * (Pow(b, m - 1) * Pow(b, n)) == (b * Pow(b, m - 1)) * Pow(b, n);
    }
  }

  lemma {:induction false} PowMul(b: int, m: nat, n: nat)
    ensures m * n >= 0 && Pow(Pow(b, m), n) == Pow(b, m * n)
  {
    if n > 0 {
      PowMul(b, m, n - 1);
      assert m * n == m + m * (n - 1);
      PowAdd(b, m, m * (n - 1));
    }
  }

  lemma Rearrange(a: int, b: int, x: int, y: int)
    ensures (a * b) * (x * y) == (a * x) * (b * y)
  {
    assert (a * b) * (x * y) == a * (b * (x * y));
    assert b * (x * y) == x * (b * y);
    assert a * (x * (b * y)) == (a * x) * (b * y);
  }

  lemma {:induction false} PowProduct(a: int, b: int, n: nat)
    ensures Pow(a * b, n) == Pow(a, n) * Pow(b, n)
  {
    if n > 0 {
      PowProduct(a, b, n - 1);
      Rearrange(a, b, Pow(a, n - 1), Pow(b, n - 1));
    }
  }

  lemma {:induction false} PowPositive(b: int, n: nat)
    requires b > 0
    ensures Pow(b, n) > 0
  {
    if n > 0 { PowPositive(b, n - 1); }
  }

  lemma {:induction false} PowMonotone(b: int, m: nat, n: nat)
    requires b > 0 && m <= n
    ensures Pow(b, m) <= Pow(b, n)
    decreases n - m
  {
    if m < n {
      PowMonotone(b, m, n - 1);
      PowPositive(b, n - 1);
      ProductAtLeast(Pow(b, n - 1), b);
    }
  }

  /** Exponents commute through any number of reductions: the heart of Diffie-Hellman. */
  lemma ExponentsCommute(g: int, a: nat, b: nat, p: int)
    requires p > 0
    ensures Pow(Pow(g, a) % p, b) % p == Pow(Pow(g, b) % p, a) % p
  {
    ModTwice(Pow(g, a), p);
    ModTwice(Pow(g, b), p);
    PowSame(Pow(g, a) % p, Pow(g, a), b, p);
    PowSame(Pow(g, b) % p, Pow(g, b), a, p);
    PowMul(g, a, b);
    PowMul(g, b, a);
    assert a * b == b * a;
  }

  lemma ZeroProduct(a: int, b: int)
    requires a * b == 0
    ensures a == 0 || b == 0
  {
  }

  lemma UnitFactor(a: int, m: int)
    requires a != 0 && a * m == a
    ensures m == 1
  {
    assert a * (m - 1) == 0;
    ZeroProduct(a, m - 1);
  }

  lemma ParityOfProduct(a: int, b: int)
    ensures (a * b) % 2 == (a % 2) * (b % 2)
  {
    MulSame(a, a % 2, b, 2);
    MulSame(b, b % 2, a % 2, 2);
  }
}

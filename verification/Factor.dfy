/** libkg/crypto: the factor search behind the key exchange, in 64-bit arithmetic. */
module Factor {
  import opened Modular

  const TWO64 := 0x1_0000_0000_0000_0000
  const TWO63 := 0x8000_0000_0000_0000

  type uint64 = x: int | 0 <= x < 0x1_0000_0000_0000_0000

  function Truncate(x: int): uint64 {
    x % TWO64
  }

  // --- the mathematical gcd -----------------------------------------------------------------

  ghost predicate Divides(d: nat, n: nat) {
    exists k: nat :: n == d * k
  }

  function Gcd(a: nat, b: nat): nat
    decreases b
  {
    if b == 0 then a else Gcd(b, a % b)
  }

  lemma DividesIntro(d: nat, n: nat, k: nat)
    requires n == d * k
    ensures Divides(d, n)
  {
  }

  lemma DividesSum(d: nat, a: nat, b: nat)
    requires Divides(d, a) && Divides(d, b)
    ensures Divides(d, a + b) && (a >= b ==> Divides(d, a - b))
  {
    var i: nat :| a == d * i;
    var j: nat :| b == d * j;
    Distribute(d, i, j);
    DividesIntro(d, a + b, i + j);
    if a >= b {
      if i < j {
        Distribute(d, i, j - i);
        ProductNonNegative(d, j - i);
        DividesIntro(d, a - b, 0);
      } else {
        Distribute(d, j, i - j);
        DividesIntro(d, a - b, i - j);
      }
    }
  }

  lemma ProductNonNegative(d: nat, k: nat)
    ensures d * k >= 0
  {
  }

  lemma DividesMultiple(d: nat, a: nat, k: nat)
    requires Divides(d, a)
    ensures a * k >= 0 && Divides(d, a * k)
  {
    var i: nat :| a == d * i;
    assert a * k == d * (i * k);
    DividesIntro(d, a * k, i * k);
  }

  lemma DividesRemainder(d: nat, a: nat, b: nat)
    requires b > 0 && Divides(d, b)
    ensures Divides(d, a) <==> Divides(d, a % b)
  {
    DividesMultiple(d, b, a / b);
    assert a == b * (a / b) + a % b;
    if Divides(d, a) { DividesSum(d, a, b * (a / b)); }
    if Divides(d, a % b) { DividesSum(d, a % b, b * (a / b)); }
  }

  /** The gcd is the common divisor that every common divisor divides. */
  lemma {:induction false} GcdMeaning(a: nat, b: nat, d: nat)
    ensures Divides(d, Gcd(a, b)) <==> Divides(d, a) && Divides(d, b)
    decreases b
  {
    if b == 0 {
      DividesIntro(d, 0, 0);
    } else {
      GcdMeaning(b, a % b, d);
      if Divides(d, b) { DividesRemainder(d, a, b); }
    }
  }

  lemma DividesSelf(n: nat)
    ensures Divides(n, n)
  {
    DividesIntro(n, n, 1);
  }

  lemma DividesAntisymmetric(a: nat, b: nat)
    requires Divides(a, b) && Divides(b, a)
    ensures a == b
  {
    var i: nat :| b == a * i;
    var j: nat :| a == b * j;
    if a != 0 {
      assert a * (i * j) == a by { assert (a * i) * j == a * (i * j); }
      UnitFactor(a, i * j);
      OneTimesOne(i, j);
    }
  }

  lemma OneTimesOne(i: nat, j: nat)
    requires i * j == 1
    ensures i == 1 && j == 1
  {
    if i >= 2 && j >= 1 { ProductAtLeast(i, j); }
  }

  /** Two pairs with the same common divisors have the same gcd. */
  lemma SameDivisorsSameGcd(a: nat, b: nat, c: nat, d: nat)
    requires forall x: nat :: Divides(x, a) && Divides(x, b) <==> Divides(x, c) && Divides(x, d)
    ensures Gcd(a, b) == Gcd(c, d)
  {
    var g, h := Gcd(a, b), Gcd(c, d);
    DividesSelf(g);
    DividesSelf(h);
    GcdMeaning(a, b, g);
    GcdMeaning(c, d, g);
    GcdMeaning(a, b, h);
    GcdMeaning(c, d, h);
    DividesAntisymmetric(g, h);
  }

  lemma GcdSymmetric(a: nat, b: nat)
    ensures Gcd(a, b) == Gcd(b, a)
  {
    SameDivisorsSameGcd(a, b, b, a);
  }

  lemma GcdSubtract(a: nat, b: nat)
    requires a >= b
    ensures Gcd(a - b, b) == Gcd(a, b)
  {
    forall x: nat ensures Divides(x, a - b) && Divides(x, b) <==> Divides(x, a) && Divides(x, b) {
      if Divides(x, b) {
        if Divides(x, a) { DividesSum(x, a, b); }
        if Divides(x, a - b) { DividesSum(x, a - b, b); }
      }
    }
    SameDivisorsSameGcd(a - b, b, a, b);
  }

  /** A divisor of an odd number that divides 2n divides n. */
  lemma OddDivisor(d: nat, n: nat, odd: nat)
    requires odd % 2 == 1 && Divides(d, odd)
    ensures Divides(d, 2 * n) <==> Divides(d, n)
  {
    if Divides(d, n) { DividesMultiple(d, n, 2); }
    if Divides(d, 2 * n) {
      var i: nat :| odd == d * i;
      var j: nat :| 2 * n == d * j;
      ParityOfProduct(d, i);
      ParityOfProduct(d, j);
      assert j % 2 == 0;
      assert 2 * n == 2 * (d * (j / 2)) by { assert d * (2 * (j / 2)) == 2 * (d * (j / 2)); }
      DividesIntro(d, n, j / 2);
    }
  }

  /** Halving beside an odd number keeps the gcd. */
  lemma GcdHalve(a: nat, odd: nat)
    requires odd % 2 == 1
    ensures Gcd(2 * a, odd) == Gcd(a, odd)
  {
    forall x: nat ensures Divides(x, 2 * a) && Divides(x, odd) <==> Divides(x, a) && Divides(x, odd) {
      if Divides(x, odd) { OddDivisor(x, a, odd); }
    }
    SameDivisorsSameGcd(2 * a, odd, a, odd);
  }

  lemma {:induction false} GcdDouble(a: nat, b: nat)
    ensures Gcd(2 * a, 2 * b) == 2 * Gcd(a, b)
    decreases b
  {
    if b > 0 {
      assert (2 * a) % (2 * b) == 2 * (a % b) by {
        assert a == b * (a / b) + a % b;
        assert 2 * a == 2 * b * (a / b) + 2 * (a % b) by { assert 2 * (b * (a / b)) == 2 * b * (a / b); }
        RemainderIs(2 * a, 2 * b, a / b, 2 * (a % b));
      }
      GcdDouble(b, a % b);
    }
  }

  lemma GcdSame(a: nat)
    ensures Gcd(a, a) == a
  {
    if a > 0 { assert a % a == 0; }
  }

  lemma GcdPositive(a: nat, b: nat)
    requires a > 0 || b > 0
    ensures Gcd(a, b) > 0 && (a > 0 ==> Gcd(a, b) <= a) && (b > 0 ==> Gcd(a, b) <= b)
  {
    var g := Gcd(a, b);
    DividesSelf(g);
    GcdMeaning(a, b, g);
    var i: nat :| a == g * i;
    var j: nat :| b == g * j;
    if a > 0 { PositiveFactors(g, i); ProductAtLeast(g, i); }
    if b > 0 { PositiveFactors(g, j); ProductAtLeast(g, j); }
  }

  lemma PositiveFactors(a: nat, b: nat)
    requires a * b > 0
    ensures a > 0 && b > 0
  {
  }

  // --- the binary gcd -----------------------------------------------------------------------

  method StripTwos(n: uint64, ghost odd: nat) returns (m: uint64)
    requires n > 0 && (odd % 2 == 1 || n % 2 == 1)
    ensures 0 < m <= n && m % 2 == 1 && Gcd(m, odd) == Gcd(n, odd)
  {
    m := n;
    while m % 2 == 0
      invariant 0 < m <= n && (odd % 2 == 1 || m % 2 == 1) && Gcd(m, odd) == Gcd(n, odd)
      decreases m
    {
      GcdHalve(m / 2, odd);
      m := m / 2;
    }
  }

  /** The subtracting half, for a pair that is not both even. */
  method OddGcd(x: uint64, y: uint64) returns (g: uint64)
    requires x > 0 && y > 0 && (x % 2 == 1 || y % 2 == 1)
    ensures g == Gcd(x, y)
  {
    hide Gcd;
    var a, b := x, y;
    while true
      invariant a > 0 && b > 0 && (a % 2 == 1 || b % 2 == 1) && Gcd(a, b) == Gcd(x, y)
      decreases a as int + b as int
    {
      a := StripTwos(a, b);
      GcdSymmetric(a, b);
      b := StripTwos(b, a);
      GcdSymmetric(b, a);
      if a > b {
        GcdSubtract(a, b);
        a := a - b;
      } else if b > a {
        GcdSymmetric(a, b);
        GcdSubtract(b, a);
        GcdSymmetric(b - a, a);
        b := b - a;
      } else {
        GcdSame(a);
        return a;
      }
    }
  }

  /** The shift-and-subtract gcd terminates on all 64-bit arguments, computes the gcd, and its
      closing shift does not overflow. */
  method BinaryGcd(x: uint64, y: uint64) returns (g: uint64)
    ensures g == Gcd(x, y)
  {
    var a, b := x, y;
    if a == 0 {
      GcdSymmetric(a, b);
      return b;
    }
    if b == 0 { return a; }
    hide Gcd, Scaled;
    var shift := 0;
    ScaledZero(Gcd(a, b));
    while a % 2 == 0 && b % 2 == 0
      invariant a > 0 && b > 0 && 0 <= shift && Scaled(Gcd(a, b), shift) == Gcd(x, y)
      decreases a
    {
      HalveBoth(a, b, shift);
      a, b := a / 2, b / 2;
      shift := shift + 1;
    }
    var odd := OddGcd(a, b);
    GcdPositive(x, y);
    return Scaled(odd, shift);
  }

  /** n << shift, before it is cut to 64 bits. */
  function Scaled(n: nat, shift: nat): int {
    n * Pow(2, shift)
  }

  lemma ScaledZero(n: nat)
    ensures Scaled(n, 0) == n
  {
  }

  lemma HalveBoth(a: nat, b: nat, shift: nat)
    requires a % 2 == 0 && b % 2 == 0
    ensures Scaled(Gcd(a / 2, b / 2), shift + 1) == Scaled(Gcd(a, b), shift)
  {
    GcdDouble(a / 2, b / 2);
    assert a == 2 * (a / 2) && b == 2 * (b / 2);
    hide Gcd, Scaled;
    ScaleUp(Gcd(a / 2, b / 2), shift);
  }

  lemma ScaleUp(g: nat, shift: nat)
    ensures Scaled(g, shift + 1) == Scaled(2 * g, shift)
  {
    DoubleFactor(g, Pow(2, shift));
  }

  lemma DoubleFactor(g: int, p: int)
    ensures g * (2 * p) == (2 * g) * p
  {
  }

  // --- multiplication by adding and doubling ------------------------------------------------

  /** A 64-bit sum brought below number; the sum is exact whenever number is at most 2^63. */
  method AddModulo(a: uint64, b: uint64, number: uint64) returns (s: uint64)
    requires a < number && b < number
    ensures s < number
    ensures number <= TWO63 ==> s == if a + b >= number then a + b - number else a + b
  {
    s := Truncate(a + b);
    if s >= number { s := s - number; }
  }

  /** (x*x + q) mod number, one bit of x at a time. The sums are 64-bit sums; they are exact
      whenever number is at most 2^63. */
  method SquarePlus(x: uint64, q: uint64, number: uint64) returns (c: uint64)
    requires number >= 2 && x < number && q < number
    ensures c < number
    ensures number <= TWO63 ==> c == (x * x + q) % number
  {
    hide LeftOver;
    var a: uint64, b: uint64 := x, x;
    c := q;
    while b != 0
      invariant a < number && c < number
      invariant number <= TWO63 ==> LeftOver(a, b, c, number) == LeftOver(x, x, q, number)
      decreases b
    {
      ghost var a0: nat, b0: nat, c0: nat := a, b, c;
      if b % 2 == 1 { c := AddModulo(c, a, number); }
      a := AddModulo(a, a, number);
      b := b / 2;
      if number <= TWO63 { DoubleStep(a0, b0, c0, a, c, number); }
    }
    LeftOverEnds(a, c, number);
    LeftOverStarts(x, q, number);
  }

  /** What a * b + c leaves modulo n. */
  function LeftOver(a: nat, b: nat, c: nat, n: nat): int
    requires n > 0
  {
    (a * b + c) % n
  }

  lemma LeftOverEnds(a: nat, c: nat, n: nat)
    requires c < n
    ensures LeftOver(a, 0, c, n) == c
  {
    RemainderIs(c, n, 0, c);
  }

  lemma LeftOverStarts(x: nat, q: nat, n: nat)
    requires n > 0
    ensures LeftOver(x, x, q, n) == (x * x + q) % n
  {
  }

  /** One bit of the multiplication. */
  lemma DoubleStep(a: nat, b: nat, c: nat, a1: nat, c1: nat, n: nat)
    requires n > 0 && a < n && c < n
    requires a1 == (if a + a >= n then a + a - n else a + a)
    requires c1 == (if b % 2 == 1 then if c + a >= n then c + a - n else c + a else c)
    ensures LeftOver(a1, b / 2, c1, n) == LeftOver(a, b, c, n)
  {
    var h := b / 2;
    var wraps := if a + a >= n then 1 else 0;
    var carry := if b % 2 == 1 && c + a >= n then 1 else 0;
    SplitLowBit(a, b);
    TakeMultiple(2 * a, n, wraps, h);
    OneOrNone(n, wraps);
    OneOrNone(n, carry);
    Distribute(n, wraps * h, carry);
    AddMultiple(a1 * h + c1, n, wraps * h + carry);
    assert a1 == 2 * a - n * wraps && c1 == c + (if b % 2 == 1 then a else 0) - n * carry;
    assert a1 * h == (2 * a) * h - n * (wraps * h);
    assert a * b + c == a1 * h + c1 + n * (wraps * h + carry);
  }

  lemma Distribute(n: int, x: int, y: int)
    ensures n * (x + y) == n * x + n * y
  {
  }

  lemma OneOrNone(n: int, k: int)
    requires k == 0 || k == 1
    ensures n * k == if k == 1 then n else 0
  {
  }

  lemma SplitLowBit(a: nat, b: nat)
    ensures a * b == (2 * a) * (b / 2) + (if b % 2 == 1 then a else 0)
  {
    Distribute(a, 2 * (b / 2), b % 2);
    OneOrNone(a, b % 2);
    DoubleFactor(a, b / 2);
  }

  lemma TakeMultiple(s: int, n: int, w: int, h: int)
    ensures (s - n * w) * h == s * h - n * (w * h)
  {
    Distribute(h, s, -(n * w));
    assert h * (n * w) == n * (w * h);
  }

  /** The doubling step of the loop body. */
  function Doubled(a: uint64, number: uint64): uint64
    requires a < number
  {
    var s := Truncate(a + a);
    if s >= number then s - number else s
  }

  lemma ExactDouble(a: uint64, number: uint64)
    requires a < number <= TWO63
    ensures Doubled(a, number) == (2 * a) % number
  {
    RemainderIs(a + a, TWO64, 0, a + a);
    assert Truncate(a + a) == a + a;
    hide Truncate;
    RemainderIs(2 * a, number, if 2 * a >= number then 1 else 0, Doubled(a, number));
  }

  /** The 64-bit doubling is exact for every residue exactly when number is at most 2^63. */
  lemma DoublingIsExact(number: uint64)
    requires number >= 2
    ensures (forall a: uint64 :: a < number ==> Doubled(a, number) == (2 * a) % number) <==> number <= TWO63
  {
    hide Doubled;
    if number <= TWO63 {
      forall a: uint64 | a < number ensures Doubled(a, number) == (2 * a) % number { ExactDouble(a, number); }
    } else {
      var a := number - 1;
      RemainderIs(2 * a, number, 1, number - 2);
      WrappedDouble(number);
    }
  }

  lemma WrappedDouble(number: uint64)
    requires number > TWO63
    ensures Doubled(number - 1, number) == 2 * number - 2 - TWO64
  {
    RemainderIs(2 * number - 2, TWO64, 1, 2 * number - 2 - TWO64);
  }

  // --- the search ---------------------------------------------------------------------------

  /** The sequence the search walks: repeated x*x + q modulo number. */
  function Iterate(x0: nat, q: nat, number: nat, j: nat): nat
    requires number > 0
  {
    if j == 0 then x0
    else
      var x := Iterate(x0, q, number, j - 1);
      (x * x + q) % number
  }

  function Distance(x: nat, y: nat): nat {
    if x < y then y - x else x - y
  }

  lemma GcdOfNegated(z: nat, number: nat)
    requires 0 < z <= number
    ensures Gcd(number - z, number) == Gcd(z, number)
  {
    forall d: nat ensures Divides(d, number - z) && Divides(d, number) <==> Divides(d, z) && Divides(d, number) {
      if Divides(d, number) {
        if Divides(d, z) { DividesSum(d, number, z); }
        if Divides(d, number - z) { DividesSum(d, number, number - z); }
      }
    }
    SameDivisorsSameGcd(number - z, number, z, number);
  }

  /** The number the search hands to gcd, and that gcd: the same for x - y as for y - x. */
  lemma StepGcd(x: uint64, y: uint64, number: uint64)
    requires x < number && y < number && number >= 2
    ensures var z := if x < y then Truncate(number + x - y) else x - y;
            && z < number
            && Gcd(z, number) == Gcd(Distance(x, y), number)
            && Gcd(z, number) > 0 && Divides(Gcd(z, number), number)
            && (Gcd(z, number) == number <==> x == y)
  {
    var z := if x < y then Truncate(number + x - y) else x - y;
    if x < y {
      assert z == number - (y - x);
      GcdOfNegated(y - x, number);
    }
    var g := Gcd(z, number);
    DividesSelf(g);
    GcdMeaning(z, number, g);
    GcdPositive(z, number);
    if z == 0 { GcdSymmetric(0, number); }
  }

  /** What one walk found: the gcd of number with the distance of two iterates. */
  ghost predicate FromWalk(d: nat, number: nat, q: nat, x0: nat, i: nat, j: nat)
    requires number > 0
  {
    i < j && d == Gcd(Distance(Iterate(x0, q, number, i), Iterate(x0, q, number, j)), number)
  }

  /** Iterate j is compared with the one at the greatest power of two below j, and the first with
      the start. */
  ghost predicate ComparedWith(j: nat, i: nat) {
    if j == 1 then i == 0 else i < j <= 2 * i && IsPower(i)
  }

  ghost predicate IsPower(i: nat) {
    exists e: nat :: i == Pow(2, e)
  }

  lemma PowerIntro(i: nat, e: nat)
    requires i == Pow(2, e)
    ensures IsPower(i)
  {
  }

  /** No comparison of the walk finds a divisor. */
  ghost predicate FindsNothing(number: nat, q: nat, x0: nat, lim: nat)
    requires number > 0
  {
    forall i: nat, j: nat :: 1 <= j < lim && ComparedWith(j, i) ==> FromWalk(1, number, q, x0, i, j)
  }

  /** j & (j - 1) is zero exactly for the powers of two. */
  predicate IsPowerOfTwo(j: nat) {
    j == 1 || (j > 0 && j % 2 == 0 && IsPowerOfTwo(j / 2))
  }

  lemma {:induction false} PowersOfTwo(j: nat)
    ensures IsPowerOfTwo(j) <==> IsPower(j)
    decreases j
  {
    hide IsPower;
    if j == 1 {
      PowerIntro(1, 0);
    } else if j > 0 && j % 2 == 0 {
      PowersOfTwo(j / 2);
      DoublePower(j / 2);
    } else {
      OddIsNoPower(j);
    }
  }

  lemma DoublePower(i: nat)
    ensures i > 0 ==> (IsPower(2 * i) <==> IsPower(i))
  {
    if IsPower(i) {
      var e: nat :| i == Pow(2, e);
      PowerIntro(2 * i, e + 1);
    }
    if IsPower(2 * i) && i > 0 {
      var e: nat :| 2 * i == Pow(2, e);
      assert e > 0;
      PowerIntro(i, e - 1);
    }
  }

  lemma OddIsNoPower(j: nat)
    requires j == 0 || (j % 2 == 1 && j > 1)
    ensures !IsPower(j)
  {
    forall e: nat ensures j != Pow(2, e) {
      PowPositive(2, e);
      if e > 0 { assert Pow(2, e) == 2 * Pow(2, e - 1); }
    }
  }

  /** Two powers of two less than a factor of two apart are one. */
  lemma PowersApart(a: nat, b: nat)
    requires a < b
    ensures Pow(2, b) >= 2 * Pow(2, a) > 0
    decreases b
  {
    PowPositive(2, a);
    if b > a + 1 { PowersApart(a, b - 1); }
  }

  lemma ComparedWithOne(j: nat, i: nat, k: nat)
    requires j >= 1 && ComparedWith(j, i) && ComparedWith(j, k)
    ensures i == k
  {
    if j > 1 {
      var a: nat :| i == Pow(2, a);
      var b: nat :| k == Pow(2, b);
      if a < b { PowersApart(a, b); }
      if b < a { PowersApart(b, a); }
    }
  }

  /** The mark moves to j exactly when j is a power of two. */
  lemma MarkMoves(j: nat, i: nat)
    requires j >= 1 && ComparedWith(j, i)
    ensures ComparedWith(j + 1, if IsPowerOfTwo(j) then j else i)
  {
    hide IsPower;
    PowersOfTwo(j);
    DoublePower(i);
  }

  /** One walk of at most lim - 1 steps. `d` is 1 if it found nothing, and then there is nothing
      that it could have found. */
  method Walk(number: uint64, q: uint64, x0: uint64, lim: nat) returns (d: uint64, steps: nat)
    requires number >= 2 && q < number && x0 < number
    ensures 1 <= d <= number && Divides(d, number) && (d == 1 ==> lim <= steps + 1)
    ensures number <= TWO63 && d != 1 ==>
              exists i: nat, j: nat :: 1 <= j < lim && ComparedWith(j, i) && FromWalk(d, number, q, x0, i, j)
    ensures number <= TWO63 && d == 1 ==> FindsNothing(number, q, x0, lim)
  {
    hide Gcd, Iterate, IsPowerOfTwo, ComparedWith;
    var x: uint64, y: uint64 := x0, x0;
    var j := 1;
    ghost var i := 0;
    steps := 0;
    WalkStarts(number, q, x0);
    while j < lim
      invariant 0 <= x && 0 <= y && x < number && y < number
      invariant 1 <= j && steps == j - 1 && 0 <= i < j && ComparedWith(j, i)
      invariant number <= TWO63 ==> x == Iterate(x0, q, number, j - 1) && y == Iterate(x0, q, number, i)
      invariant number <= TWO63 ==> FindsNothing(number, q, x0, j)
      decreases lim - j
    {
      steps := steps + 1;
      IterateNext(x0, q, number, j);
      x := SquarePlus(x, q, number);
      var z := if x < y then Truncate(number + x - y) else x - y;
      StepGcd(x, y, number);
      var g := BinaryGcd(z, number);
      GcdOfDistance(x, y, number);
      if g != 1 {
        d := g;
        GcdPositive(z, number);
        assert number <= TWO63 ==> FromWalk(d, number, q, x0, i, j);
        return;
      }
      if number <= TWO63 { OneMoreNothing(number, q, x0, i, j); }
      MarkMoves(j, i);
      if IsPowerOfTwo(j) {
        y := x;
        i := j;
      }
      j := j + 1;
    }
    d := 1;
    DividesIntro(1, number, number);
  }

  lemma WalkStarts(number: nat, q: nat, x0: nat)
    requires number > 0
    ensures ComparedWith(1, 0) && Iterate(x0, q, number, 0) == x0 && FindsNothing(number, q, x0, 1)
  {
  }

  lemma IterateNext(x0: nat, q: nat, number: nat, j: nat)
    requires number > 0 && j > 0
    ensures var x := Iterate(x0, q, number, j - 1); Iterate(x0, q, number, j) == (x * x + q) % number
  {
  }

  lemma GcdOfDistance(x: nat, y: nat, number: nat)
    ensures Distance(x, y) == Distance(y, x)
  {
  }

  lemma OneMoreNothing(number: nat, q: nat, x0: nat, i: nat, j: nat)
    requires number > 0 && j >= 1 && ComparedWith(j, i) && FromWalk(1, number, q, x0, i, j)
    requires FindsNothing(number, q, x0, j)
    ensures FindsNothing(number, q, x0, j + 1)
  {
    forall k: nat, m: nat | 1 <= m < j + 1 && ComparedWith(m, k) ensures FromWalk(1, number, q, x0, k, m) {
      if m == j { ComparedWithOne(j, i, k); }
    }
  }

  // --- a walk closes ------------------------------------------------------------------------

  lemma {:induction false} IterateBelow(x0: nat, q: nat, number: nat, j: nat)
    requires number > 0 && x0 < number
    ensures Iterate(x0, q, number, j) < number
  {
  }

  /** Once two iterates are equal, so are all those after them at the same distance. */
  lemma {:induction false} Repeats(x0: nat, q: nat, number: nat, a: nat, b: nat, k: nat)
    requires number > 0 && Iterate(x0, q, number, a) == Iterate(x0, q, number, b)
    ensures Iterate(x0, q, number, a + k) == Iterate(x0, q, number, b + k)
  {
    if k > 0 { Repeats(x0, q, number, a, b, k - 1); }
  }

  function FirstIterates(x0: nat, q: nat, number: nat, n: nat): set<nat>
    requires number > 0
  {
    if n == 0 then {} else FirstIterates(x0, q, number, n - 1) + {Iterate(x0, q, number, n - 1)}
  }

  lemma {:induction false} FirstIteratesAre(x0: nat, q: nat, number: nat, n: nat, x: nat)
    requires number > 0
    ensures x in FirstIterates(x0, q, number, n) <==> exists k: nat :: k < n && Iterate(x0, q, number, k) == x
  {
    hide Iterate;
    if n > 0 {
      FirstIteratesAre(x0, q, number, n - 1, x);
      assert FirstIterates(x0, q, number, n)
             == FirstIterates(x0, q, number, n - 1) + {Iterate(x0, q, number, n - 1)};
    }
  }

  /** As many iterates as there are residues, and one more, hold some residue twice. */
  lemma {:induction false} SomeTwice(x0: nat, q: nat, number: nat, n: nat) returns (a: nat, b: nat)
    requires number > 0 && x0 < number
    requires |FirstIterates(x0, q, number, n)| < n
    ensures a < b < n && Iterate(x0, q, number, a) == Iterate(x0, q, number, b)
    decreases n
  {
    var last := Iterate(x0, q, number, n - 1);
    FirstIteratesAre(x0, q, number, n - 1, last);
    if last in FirstIterates(x0, q, number, n - 1) {
      a :| a < n - 1 && Iterate(x0, q, number, a) == last;
      b := n - 1;
    } else {
      a, b := SomeTwice(x0, q, number, n - 1);
    }
  }

  lemma {:induction false} Below(n: nat) returns (s: set<nat>)
    ensures |s| == n && forall x: nat :: x in s <==> x < n
  {
    if n == 0 { return {}; }
    var t := Below(n - 1);
    s := t + {n - 1};
  }

  lemma {:induction false} Fewer(s: set<nat>, t: set<nat>)
    requires s <= t
    ensures |s| <= |t|
  {
    assert t == s + (t - s);
  }

  lemma IteratesMeet(x0: nat, q: nat, number: nat) returns (a: nat, b: nat)
    requires number > 0 && x0 < number
    ensures a < b <= number && Iterate(x0, q, number, a) == Iterate(x0, q, number, b)
  {
    var s := FirstIterates(x0, q, number, number + 1);
    var residues := Below(number);
    forall x | x in s ensures x in residues {
      FirstIteratesAre(x0, q, number, number + 1, x);
      var k: nat :| k < number + 1 && Iterate(x0, q, number, k) == x;
      IterateBelow(x0, q, number, k);
    }
    Fewer(s, residues);
    a, b := SomeTwice(x0, q, number, number + 1);
  }

  /** Some power of two lies from n on and below 2n. */
  lemma {:induction false} PowerFrom(n: nat) returns (e: nat)
    requires n > 0
    ensures n <= Pow(2, e) < 2 * n
  {
    if n == 1 { return 0; }
    e := PowerFrom(n - 1);
    if Pow(2, e) < n { e := e + 1; }
  }

  /** So a walk that is long enough for the number comes to compare two equal iterates. */
  lemma WalkCloses(number: nat, q: nat, x0: nat, lim: nat)
    requires 2 <= number && x0 < number && 4 * number <= lim
    ensures !FindsNothing(number, q, x0, lim)
  {
    hide Iterate, Gcd;
    var a, b := IteratesMeet(x0, q, number);
    var e := PowerFrom(if a > b - a then a else b - a);
    var i := Pow(2, e);
    var j := i + (b - a);
    Repeats(x0, q, number, a, b, i - a);
    SelfGcd(Iterate(x0, q, number, i), number);
    PowerIntro(i, e);
    assert ComparedWith(j, i);
    assert !FromWalk(1, number, q, x0, i, j);
  }

  lemma SelfGcd(x: nat, number: nat)
    requires number >= 2
    ensures Gcd(Distance(x, x), number) == number
  {
    GcdSymmetric(0, number);
  }

  // --- the three walks ----------------------------------------------------------------------

  /** What the generator gives a walk to go on. */
  function WalkQ(random: nat -> uint64, turn: nat, number: uint64): uint64
    requires number >= 2
  {
    (random(2 * turn) % 16 + 17) % number
  }

  function WalkStart(random: nat -> uint64, turn: nat, number: uint64): uint64
    requires number >= 2
  {
    random(2 * turn + 1) % (number - 1) + 1
  }

  function WalkLimit(turn: nat): nat {
    PowPositive(2, turn);
    0x4_0000 * Pow(2, turn)
  }

  /** The whole search, with `random` standing for the generator. It ends for every number from
      2 on and answers with a divisor. For numbers up to 2^63 a divisor other than 1 is the gcd
      of the number with the distance of two iterates that a walk compares, and 1 means that
      none of the three walks compares two whose distance has a divisor in common with the
      number; up to 2^18 that never happens. */
  method FindDivider(number: uint64, random: nat -> uint64) returns (d: uint64)
    requires number >= 2
    ensures 1 <= d <= number && Divides(d, number)
    ensures number <= TWO63 && d != 1 ==>
              exists turn: nat, i: nat, j: nat ::
                && turn < 3 && 1 <= j < WalkLimit(turn) && ComparedWith(j, i)
                && FromWalk(d, number, WalkQ(random, turn, number), WalkStart(random, turn, number), i, j)
    ensures number <= TWO63 && d == 1 ==>
              forall turn: nat :: turn < 3 ==>
                FindsNothing(number, WalkQ(random, turn, number), WalkStart(random, turn, number), WalkLimit(turn))
    ensures number <= 0x4_0000 ==> d != 1
  {
    hide ComparedWith, FromWalk, FindsNothing, Divides, WalkLimit;
    WalkLimits();
    var it := 0;
    var turn := 0;
    while turn < 3 || it < 10000
      invariant 0 <= turn <= 3
      invariant turn > 0 ==> it >= 10000
      invariant number <= TWO63 ==>
                  forall t: nat :: t < turn ==>
                    FindsNothing(number, WalkQ(random, t, number), WalkStart(random, t, number), WalkLimit(t))
      decreases 3 - turn
    {
      var q := (random(2 * turn) % 16 + 17) % number;
      var x0 := random(2 * turn + 1) % (number - 1) + 1;
      var lim := if turn == 0 then 0x4_0000 else if turn == 1 then 0x8_0000 else 0x10_0000;
      var steps;
      d, steps := Walk(number, q, x0, lim);
      it := it + steps;
      assert q == WalkQ(random, turn, number) && x0 == WalkStart(random, turn, number) && lim == WalkLimit(turn);
      if d != 1 { return; }
      turn := turn + 1;
    }
    d := 1;
    Trivially(number);
    if number <= 0x4_0000 {
      WalkCloses(number, WalkQ(random, 2, number), WalkStart(random, 2, number), WalkLimit(2));
    }
  }

  lemma WalkLimits()
    ensures WalkLimit(0) == 0x4_0000 && WalkLimit(1) == 0x8_0000 && WalkLimit(2) == 0x10_0000
  {
  }

  lemma Trivially(number: nat)
    ensures Divides(1, number)
  {
    DividesIntro(1, number, number);
  }

  /** What was found is a proper factor exactly when the two iterates differ: the search fails
      on a number only by closing a cycle. */
  lemma ProperExactlyWhenApart(d: nat, number: nat, q: nat, x0: nat, i: nat, j: nat)
    requires number >= 2 && x0 < number && FromWalk(d, number, q, x0, i, j)
    ensures d < number <==> Iterate(x0, q, number, i) != Iterate(x0, q, number, j)
    ensures d >= 1 && Divides(d, number)
  {
    var x, y := Iterate(x0, q, number, i), Iterate(x0, q, number, j);
    assert x < number && y < number;
    var z := Distance(x, y);
    DividesSelf(d);
    GcdMeaning(z, number, d);
    GcdPositive(z, number);
    if z == 0 { GcdSymmetric(0, number); }
  }
}

/** Byte arrays and the integers they stand for. */
module Bytes {
  import opened Modular

  type byte = x: int | 0 <= x < 256

  type bytes = seq<byte>

  function Zeros(n: nat): (z: bytes)
    ensures |z| == n && forall i :: 0 <= i < n ==> z[i] == 0
  {
    seq(n, _ => 0)
  }

  /** The integer a big-endian byte array stands for. */
  function Value(bs: bytes): nat {
    if bs == [] then 0 else Value(bs[..|bs| - 1]) * 256 + bs[|bs| - 1]
  }

  /** As many bytes as the number needs; zero needs none. */
  function Minimal(n: nat): bytes {
    if n == 0 then [] else Minimal(n / 256) + [n % 256]
  }

  /** Exactly `width` bytes, the low ones of the number. */
  function Fixed(n: nat, width: nat): (bs: bytes)
    ensures |bs| == width
  {
    if width == 0 then [] else Fixed(n / 256, width - 1) + [n % 256]
  }

  lemma ValueSnoc(bs: bytes, b: byte)
    ensures Value(bs + [b]) == Value(bs) * 256 + b
  {
    assert (bs + [b])[..|bs|] == bs;
  }

  lemma {:induction false} ValueBound(bs: bytes)
    ensures Value(bs) < Pow(256, |bs|)
  {
    if bs != [] { ValueBound(bs[..|bs| - 1]); }
  }

  lemma {:induction false} ValueMinimal(n: nat)
    ensures Value(Minimal(n)) == n
  {
    if n != 0 {
      ValueMinimal(n / 256);
      ValueSnoc(Minimal(n / 256), n % 256);
    }
  }

  lemma {:induction false} ValueFixed(n: nat, width: nat)
    requires n < Pow(256, width)
    ensures Value(Fixed(n, width)) == n
  {
    if width > 0 {
      assert n / 256 < Pow(256, width - 1);
      ValueFixed(n / 256, width - 1);
      ValueSnoc(Fixed(n / 256, width - 1), n % 256);
    }
  }

  /** A byte array of a given width is the only one with its value. */
  lemma {:induction false} FixedValue(bs: bytes)
    ensures Fixed(Value(bs), |bs|) == bs
  {
    if bs != [] {
      var front, last := bs[..|bs| - 1], bs[|bs| - 1];
      FixedValue(front);
      assert Value(bs) / 256 == Value(front) && Value(bs) % 256 == last;
      assert bs == front + [last];
    }
  }

  lemma {:induction false} FixedZero(width: nat)
    ensures Fixed(0, width) == Zeros(width)
  {
    if width > 0 {
      FixedZero(width - 1);
      assert Zeros(width) == Zeros(width - 1) + [0];
    }
  }

  lemma {:induction false} MinimalFits(n: nat, width: nat)
    ensures |Minimal(n)| <= width <==> n < Pow(256, width)
  {
    if n == 0 {
      PowPositive(256, width);
    } else if width > 0 {
      MinimalFits(n / 256, width - 1);
      assert n / 256 < Pow(256, width - 1) <==> n < Pow(256, width);
    }
  }

  /** Padding the minimal form on the left gives the fixed-width form. */
  lemma {:induction false} PadMinimal(n: nat, width: nat)
    requires n < Pow(256, width)
    ensures |Minimal(n)| <= width && Zeros(width - |Minimal(n)|) + Minimal(n) == Fixed(n, width)
  {
    MinimalFits(n, width);
    if n == 0 {
      FixedZero(width);
    } else {
      assert n / 256 < Pow(256, width - 1);
      PadMinimal(n / 256, width - 1);
      var k := width - |Minimal(n)|;
      assert Zeros(k) + (Minimal(n / 256) + [n % 256]) == (Zeros(k) + Minimal(n / 256)) + [n % 256];
    }
  }

  lemma {:induction false} ValueConcat(a: bytes, b: bytes)
    ensures Value(a + b) == Value(a) * Pow(256, |b|) + Value(b)
  {
    hide Value, Pow;
    if b == [] {
      ConcatNothing(a);
    } else {
      var front, last := b[..|b| - 1], b[|b| - 1];
      ValueConcat(a, front);
      assert a + b == (a + front) + [last] && b == front + [last];
      ValueSnoc(a + front, last);
      ValueSnoc(front, last);
      ShiftedSum(Value(a), Pow(256, |front|), Value(front), last);
      PowNext(256, |front|);
    }
  }

  lemma ConcatNothing(a: bytes)
    ensures Value(a + []) == Value(a) * Pow(256, 0) + Value([])
  {
    assert a + [] == a;
  }

  lemma ShiftedSum(x: int, p: int, y: int, z: int)
    ensures (x * p + y) * 256 + z == x * (256 * p) + (y * 256 + z)
  {
  }

  lemma PowNext(b: int, e: nat)
    ensures Pow(b, e + 1) == b * Pow(b, e)
  {
  }

  lemma {:induction false} ValueZeros(n: nat)
    ensures Value(Zeros(n)) == 0
  {
    if n > 0 {
      ValueZeros(n - 1);
      assert Zeros(n) == Zeros(n - 1) + [0];
      ValueSnoc(Zeros(n - 1), 0);
    }
  }

  /** Exclusive or of the low `n` bits. */
  function XorBits(a: nat, b: nat, n: nat): nat {
    if n == 0 then 0 else (a % 2 + b % 2) % 2 + 2 * XorBits(a / 2, b / 2, n - 1)
  }

  lemma {:induction false} XorBitsBound(a: nat, b: nat, n: nat)
    ensures XorBits(a, b, n) < Pow(2, n)
  {
    if n > 0 { XorBitsBound(a / 2, b / 2, n - 1); }
  }

  lemma {:induction false} XorBitsBack(a: nat, b: nat, n: nat)
    requires a < Pow(2, n)
    ensures XorBits(XorBits(a, b, n), b, n) == a
  {
    if n > 0 {
      XorBitsStep(a, b, n);
      PowNext(2, n - 1);
      XorBitsBack(a / 2, b / 2, n - 1);
      XorBitsStep(XorBits(a, b, n), b, n);
      hide XorBits, Pow;
      BitBack(a, b);
    }
  }

  lemma XorBitsStep(a: nat, b: nat, n: nat)
    requires n > 0
    ensures var x := XorBits(a, b, n);
            x / 2 == XorBits(a / 2, b / 2, n - 1) && x % 2 == (a % 2 + b % 2) % 2
  {
  }

  lemma BitBack(a: nat, b: nat)
    ensures ((a % 2 + b % 2) % 2 + b % 2) % 2 == a % 2
  {
  }

  /** Bit i of the result is set exactly when one of the two is. */
  lemma {:induction false} XorBitAt(a: nat, b: nat, n: nat, i: nat)
    requires i < n
    ensures Pow(2, i) > 0
    ensures XorBits(a, b, n) / Pow(2, i) % 2 == 1 <==> (a / Pow(2, i) % 2 == 1) != (b / Pow(2, i) % 2 == 1)
    decreases i
  {
    PowPositive(2, i);
    XorBitsStep(a, b, n);
    if i > 0 {
      PowPositive(2, i - 1);
      XorBitAt(a / 2, b / 2, n - 1, i - 1);
      PowNext(2, i - 1);
      hide XorBits, Pow;
      HalfFirst(a, Pow(2, i - 1));
      HalfFirst(b, Pow(2, i - 1));
      HalfFirst(XorBits(a, b, n), Pow(2, i - 1));
    }
  }

  lemma HalfFirst(n: nat, m: nat)
    requires m > 0
    ensures n / (2 * m) == n / 2 / m
  {
    var h := n / 2;
    assert n == 2 * h + n % 2 && h == m * (h / m) + h % m;
    assert n == 2 * m * (h / m) + (2 * (h % m) + n % 2);
    RemainderIs(n, 2 * m, h / m, 2 * (h % m) + n % 2);
  }

  function Xor(a: byte, b: byte): byte {
    XorBitsBound(a, b, 8);
    assert Pow(2, 8) == 256;
    XorBits(a, b, 8)
  }

  lemma XorBack(a: byte, b: byte)
    ensures Xor(Xor(a, b), b) == a
  {
    assert Pow(2, 8) == 256;
    XorBitsBack(a, b, 8);
  }

  /** Bytewise xor of two arrays over the length of the shorter, the rest of the longer kept. */
  function XorBytes(a: bytes, b: bytes): (r: bytes)
    ensures |r| == if |a| > |b| then |a| else |b|
  {
    if a == [] then b
    else if b == [] then a
    else [Xor(a[0], b[0])] + XorBytes(a[1..], b[1..])
  }

  lemma {:induction false} XorBytesAt(a: bytes, b: bytes, i: nat)
    requires i < |XorBytes(a, b)|
    ensures XorBytes(a, b)[i]
              == if i < |a| && i < |b| then Xor(a[i], b[i]) else if i < |a| then a[i] else b[i]
  {
    if a != [] && b != [] && i > 0 { XorBytesAt(a[1..], b[1..], i - 1); }
  }

  /** Xoring with the same array twice restores the first. */
  lemma {:induction false} XorBytesBack(a: bytes, b: bytes)
    requires |a| == |b|
    ensures XorBytes(XorBytes(a, b), b) == a
  {
    if a != [] {
      XorBytesBack(a[1..], b[1..]);
      XorBack(a[0], b[0]);
      assert XorBytes(a, b)[1..] == XorBytes(a[1..], b[1..]);
    }
  }
}

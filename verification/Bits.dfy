/** Bitwise operations on natural numbers, bit by bit, and their arithmetic meaning. */
module Bits {

  function Pow2(n: nat): (p: nat)
    ensures p > 0
  {
    if n == 0 then 1 else 2 * Pow2(n - 1)
  }

  function BitAnd(a: nat, b: nat): nat {
    if a == 0 || b == 0 then 0
    else 2 * BitAnd(a / 2, b / 2) + (if a % 2 == 1 && b % 2 == 1 then 1 else 0)
  }

  function BitOr(a: nat, b: nat): nat {
    if a == 0 then b else if b == 0 then a
    else 2 * BitOr(a / 2, b / 2) + (if a % 2 == 1 || b % 2 == 1 then 1 else 0)
  }

  lemma DoubledProduct(x: nat, y: nat, z: nat)
    requires z == x * y
    ensures 2 * z == (2 * x) * y
  {
  }

  lemma {:induction false} Pow2Sum(a: nat, b: nat)
    ensures Pow2(a + b) == Pow2(a) * Pow2(b)
  {
    if a > 0 {
      Pow2Sum(a - 1, b);
      DoubledProduct(Pow2(a - 1), Pow2(b), Pow2(a - 1 + b));
    }
  }

  lemma {:induction false} Pow2Monotone(a: nat, b: nat)
    requires a <= b
    ensures Pow2(a) <= Pow2(b)
  {
    if a < b {
      Pow2Monotone(a, b - 1);
    }
  }

  /** The low k bits of x. */
  function LowBits(x: nat, k: nat): nat {
    if k == 0 then 0 else 2 * LowBits(x / 2, k - 1) + x % 2
  }

  lemma {:induction false} LowBitsAreRemainder(x: nat, k: nat)
    ensures LowBits(x, k) == x % Pow2(k)
  {
    if k > 0 {
      LowBitsAreRemainder(x / 2, k - 1);
      HalfRemainder(x, Pow2(k - 1));
    }
  }

  lemma {:induction false} AndIsLowBits(x: nat, k: nat)
    ensures BitAnd(x, Pow2(k) - 1) == LowBits(x, k)
  {
    if k == 0 {
      assert BitAnd(x, 0) == 0;
    } else {
      AndIsLowBits(x / 2, k - 1);
      AndOdd(x, Pow2(k - 1) - 1);
    }
  }

  /** Masking with the low bits is the remainder. */
  lemma AndLowBits(x: nat, k: nat)
    ensures BitAnd(x, Pow2(k) - 1) == x % Pow2(k)
  {
    AndIsLowBits(x, k);
    LowBitsAreRemainder(x, k);
  }

  lemma AndOdd(x: nat, m: nat)
    ensures BitAnd(x, 2 * m + 1) == 2 * BitAnd(x / 2, m) + x % 2
  {
    assert (2 * m + 1) / 2 == m && (2 * m + 1) % 2 == 1;
  }

  lemma HalfRemainder(x: nat, m: nat)
    requires m > 0
    ensures x % (2 * m) == 2 * ((x / 2) % m) + x % 2
  {
    var q, r := (x / 2) / m, (x / 2) % m;
    assert x / 2 == m * q + r;
    assert x == 2 * (x / 2) + x % 2;
    assert x == (2 * m) * q + (2 * r + x % 2) by {
      assert 2 * (m * q) == (2 * m) * q;
    }
    RemainderUnique(x, 2 * m, q, 2 * r + x % 2);
  }

  lemma RemainderUnique(x: int, m: int, q: int, r: int)
    requires m > 0 && x == m * q + r && 0 <= r < m
    ensures x % m == r && x / m == q
  {
    var d := x / m - q;
    assert x == m * (x / m) + x % m;
    assert m * d == m * (x / m) - m * q;
    SmallMultiple(m, d);
  }

  lemma SmallMultiple(m: int, d: int)
    requires -m < m * d < m
    ensures d == 0
  {
    if d >= 1 {
      MulGrows(m, d);
    } else if d <= -1 {
      MulShrinks(m, d);
    }
  }

  lemma MulGrows(m: int, d: int)
    requires m > 0 && d >= 1
    ensures m * d >= m
  {
  }

  lemma MulShrinks(m: int, d: int)
    requires m > 0 && d <= -1
    ensures m * d <= -m
  {
    MulGrows(m, -d);
    assert m * -d == -(m * d);
  }

  /** A bit-or with a number shifted past the other one is an addition. */
  lemma {:induction false} OrShifted(x: nat, y: nat, s: nat)
    requires x < Pow2(s)
    ensures BitOr(x, y * Pow2(s)) == x + y * Pow2(s)
  {
    if x > 0 && y > 0 {
      var h := Pow2(s - 1);
      assert y * Pow2(s) == 2 * (y * h);
      OrShifted(x / 2, y, s - 1);
      HalfOfEven(y * h);
    }
  }

  lemma HalfOfEven(n: nat)
    ensures (2 * n) / 2 == n && (2 * n) % 2 == 0
  {
  }

  lemma {:induction false} OrCommutes(a: nat, b: nat)
    ensures BitOr(a, b) == BitOr(b, a)
  {
    if a > 0 && b > 0 {
      OrCommutes(a / 2, b / 2);
    }
  }

  /** Masking with a single bit. */
  lemma {:induction false} AndOneBit(x: nat, k: nat)
    ensures BitAnd(x, Pow2(k)) == ((x / Pow2(k)) % 2) * Pow2(k)
  {
    if x == 0 {
      assert 0 / Pow2(k) == 0;
    } else if k == 0 {
      assert BitAnd(x / 2, 0) == 0;
    } else {
      var m := Pow2(k - 1);
      AndOneBit(x / 2, k - 1);
      HalfOfEven(m);
      QuotientOfHalf(x, m);
      assert 2 * (((x / 2) / m) % 2 * m) == ((x / 2) / m) % 2 * (2 * m);
    }
  }

  lemma QuotientOfHalf(x: nat, m: nat)
    requires m > 0
    ensures x / (2 * m) == (x / 2) / m
  {
    var q, r := (x / 2) / m, (x / 2) % m;
    assert x / 2 == m * q + r && x == 2 * (x / 2) + x % 2;
    assert 2 * (m * q) == (2 * m) * q;
    RemainderUnique(x, 2 * m, q, 2 * r + x % 2);
  }

  ghost predicate IsPowerOfTwo(n: nat) {
    exists k: nat :: Pow2(k) == n
  }

  /** The usual test for a power of two. */
  predicate AndPredecessorIsZero(n: nat) {
    n != 0 && BitAnd(n, n - 1) == 0
  }

  lemma {:induction false} PowerOfTwoTest(n: nat)
    ensures AndPredecessorIsZero(n) <==> IsPowerOfTwo(n)
  {
    if n == 0 {
    } else if n == 1 {
      assert Pow2(0) == 1;
    } else if n % 2 == 1 {
      // n / 2 is nonzero, and n and n - 1 share it.
      AndSelf(n / 2);
      assert (n - 1) / 2 == n / 2;
      forall k: nat ensures Pow2(k) != n {
        if k > 0 { HalfOfEven(Pow2(k - 1)); }
      }
    } else {
      var h := n / 2;
      PowerOfTwoTest(h);
      assert (n - 1) / 2 == h - 1 && (n - 1) % 2 == 1;
      if IsPowerOfTwo(n) {
        var k: nat :| Pow2(k) == n;
        assert Pow2(k - 1) == h;
      }
      if IsPowerOfTwo(h) {
        var k: nat :| Pow2(k) == h;
        assert Pow2(k + 1) == n;
      }
    }
  }

  lemma {:induction false} AndSelf(n: nat)
    ensures BitAnd(n, n) == n
  {
    if n > 0 {
      AndSelf(n / 2);
    }
  }
}

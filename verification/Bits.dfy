/** Bits of numbers of any width, and what masks and shifts are in arithmetic. */
module Bits {
  function Pow2(n: nat): (p: nat)
    ensures p > 0
  {
    if n == 0 then 1 else 2 * Pow2(n - 1)
  }

  /** Bitwise and. */
  function And(a: nat, b: nat): nat {
    if a == 0 || b == 0 then 0
    else 2 * And(a / 2, b / 2) + if a % 2 == 1 && b % 2 == 1 then 1 else 0
  }

  /** Bitwise or. */
  function Or(a: nat, b: nat): nat {
    if a == 0 then b
    else if b == 0 then a
    else 2 * Or(a / 2, b / 2) + if a % 2 == 1 || b % 2 == 1 then 1 else 0
  }

  /** Bitwise exclusive or. */
  function Xor(a: nat, b: nat): nat {
    if a == 0 then b
    else if b == 0 then a
    else 2 * Xor(a / 2, b / 2) + if a % 2 != b % 2 then 1 else 0
  }

  function ShiftLeft(a: nat, n: nat): nat {
    if n == 0 then a else 2 * ShiftLeft(a, n - 1)
  }

  function ShiftRight(a: nat, n: nat): nat {
    if n == 0 then a else ShiftRight(a / 2, n - 1)
  }

  function TrailingZeros(a: nat): nat
    requires a > 0
  {
    if a % 2 == 1 then 0 else 1 + TrailingZeros(a / 2)
  }

  predicate IsPow2(n: nat) {
    n > 0 && (n == 1 || (n % 2 == 0 && IsPow2(n / 2)))
  }

  lemma {:induction false} TrailingZerosOfPow2(n: nat)
    ensures TrailingZeros(Pow2(n)) == n
  {
    if n > 0 {
      TrailingZerosOfPow2(n - 1);
    }
  }

  lemma MultipleGrows(d: int, p: int)
    requires p > 0
    ensures d >= 1 ==> d * p >= p
    ensures d <= -1 ==> d * p <= -p
  {
    if d >= 1 {
      assert d * p == (d - 1) * p + p;
    } else if d <= -1 {
      assert d * p == (d + 1) * p - p;
    }
  }

  /** A quotient and a remainder are determined by their equation. */
  lemma ModUnique(a: int, p: int, q: int, r: int)
    requires p > 0 && 0 <= r < p && a == q * p + r
    ensures a / p == q && a % p == r
  {
    assert (q - a / p) * p == a % p - r;
    MultipleGrows(q - a / p, p);
  }

  lemma HalfMod(a: nat, p: nat)
    requires p > 0
    ensures a % (2 * p) == 2 * (a / 2 % p) + a % 2
    ensures a / (2 * p) == a / 2 / p
  {
    var q, r := a / 2 / p, a / 2 % p;
    assert a / 2 == q * p + r;
    assert a == q * (2 * p) + (2 * r + a % 2) by {
      assert q * (2 * p) == 2 * (q * p);
    }
    ModUnique(a, 2 * p, q, 2 * r + a % 2);
  }

  lemma {:induction false} ShiftLeftIsTimes(a: nat, n: nat)
    ensures ShiftLeft(a, n) == a * Pow2(n)
  {
    if n > 0 {
      ShiftLeftIsTimes(a, n - 1);
      assert a * Pow2(n) == 2 * (a * Pow2(n - 1));
    }
  }

  lemma {:induction false} ShiftRightIsDivision(a: nat, n: nat)
    ensures ShiftRight(a, n) == a / Pow2(n)
  {
    if n > 0 {
      ShiftRightIsDivision(a / 2, n - 1);
      HalfMod(a, Pow2(n - 1));
    }
  }

  lemma {:induction false} AndBelow(a: nat, b: nat)
    ensures And(a, b) <= b
  {
    if a != 0 && b != 0 {
      AndBelow(a / 2, b / 2);
    }
  }

  lemma {:induction false} AndSame(a: nat)
    ensures And(a, a) == a
  {
    if a != 0 {
      AndSame(a / 2);
    }
  }

  lemma {:induction false} AndCommutes(a: nat, b: nat)
    ensures And(a, b) == And(b, a)
  {
    if a != 0 && b != 0 {
      AndCommutes(a / 2, b / 2);
    }
  }

  /** A mask of ones is a remainder. */
  lemma {:induction false} AndMask(a: nat, n: nat)
    ensures And(a, Pow2(n) - 1) == a % Pow2(n)
  {
    if n > 0 {
      HalfMod(a, Pow2(n - 1));
      AndMask(a / 2, n - 1);
      assert (Pow2(n) - 1) / 2 == Pow2(n - 1) - 1;
      if a != 0 {
        assert And(a, Pow2(n) - 1) == 2 * And(a / 2, Pow2(n - 1) - 1) + a % 2;
      }
    }
  }

  /** The zeros at the end of a mask clear the low bits. */
  lemma {:induction false} AndShifted(a: nat, b: nat, n: nat)
    ensures And(a, ShiftLeft(b, n)) == ShiftLeft(And(ShiftRight(a, n), b), n)
  {
    if n > 0 {
      AndShifted(a / 2, b, n - 1);
      ZeroShifted(n - 1);
    }
  }

  lemma {:induction false} ZeroShifted(n: nat)
    ensures ShiftLeft(0, n) == 0 && ShiftRight(0, n) == 0
  {
    if n > 0 {
      ZeroShifted(n - 1);
    }
  }

  /** Exclusive or with a power of two flips one bit. */
  lemma {:induction false} XorBit(a: nat, n: nat)
    ensures Xor(a, Pow2(n)) == if ShiftRight(a, n) % 2 == 0 then a + Pow2(n) else a - Pow2(n)
  {
    if n == 0 {
      XorZero(a / 2);
    } else {
      hide Xor;
      XorBit(a / 2, n - 1);
      XorEven(a, Pow2(n));
    }
  }

  lemma XorZero(a: nat)
    ensures Xor(a, 0) == Xor(0, a) == a
  {
  }

  lemma XorStep(a: nat, b: nat)
    requires a > 0 && b > 0
    ensures Xor(a, b) == 2 * Xor(a / 2, b / 2) + if a % 2 != b % 2 then 1 else 0
  {
  }

  lemma XorEven(a: nat, b: nat)
    requires b % 2 == 0
    ensures Xor(a, b) == 2 * Xor(a / 2, b / 2) + a % 2
  {
    hide Xor;
    XorZero(a);
    XorZero(b);
    XorZero(a / 2);
    XorZero(b / 2);
    if a > 0 && b > 0 {
      XorStep(a, b);
    }
  }

  lemma {:induction false} OrCommutes(a: nat, b: nat)
    ensures Or(a, b) == Or(b, a)
  {
    if a != 0 && b != 0 {
      OrCommutes(a / 2, b / 2);
    }
  }

  lemma {:induction false} AndAbsorbs(a: nat, b: nat)
    ensures And(Or(a, b), b) == b
  {
    if a == 0 || b == 0 {
      AndSame(b);
    } else {
      AndAbsorbs(a / 2, b / 2);
      assert Or(a, b) / 2 == Or(a / 2, b / 2);
      assert And(Or(a, b), b) == 2 * And(Or(a / 2, b / 2), b / 2) + b % 2;
    }
  }

  /** Or with a low number leaves the high bits. */
  lemma {:induction false} OrKeepsHigh(a: nat, low: nat, n: nat)
    requires low < Pow2(n)
    ensures ShiftRight(Or(a, low), n) == ShiftRight(a, n)
  {
    if n > 0 {
      OrKeepsHigh(a / 2, low / 2, n - 1);
    }
  }

  /** Or fills the zeros below a multiple. */
  lemma {:induction false} OrAdds(q: nat, low: nat, n: nat)
    requires low < Pow2(n)
    ensures q * Pow2(n) >= 0
    ensures Or(q * Pow2(n), low) == q * Pow2(n) + low
  {
    if n > 0 {
      var half := q * Pow2(n - 1);
      assert q * Pow2(n) == 2 * half;
      OrAdds(q, low / 2, n - 1);
    }
  }

  lemma {:induction false} Pow2Is(n: nat)
    requires IsPow2(n)
    ensures exists k: nat :: n == Pow2(k)
  {
    if n == 1 {
      assert n == Pow2(0);
    } else {
      Pow2Is(n / 2);
      var k: nat :| n / 2 == Pow2(k);
      assert n == Pow2(k + 1);
    }
  }

  lemma {:induction false} AndPrevious(n: nat)
    requires n > 0
    ensures And(n, n - 1) == 0 <==> IsPow2(n)
  {
    if n > 1 {
      if n % 2 == 0 {
        AndPrevious(n / 2);
        assert (n - 1) / 2 == n / 2 - 1;
      } else {
        AndSame(n / 2);
      }
    }
  }

  /** Masking with n - 1 is the remainder by n exactly if n is a power of two. */
  lemma MaskIsRemainder(n: nat)
    requires n > 0
    ensures (forall a: nat :: And(a, n - 1) == a % n) <==> IsPow2(n)
  {
    hide And, IsPow2;
    if IsPow2(n) {
      Pow2Is(n);
      var k: nat :| n == Pow2(k);
      forall a: nat ensures And(a, n - 1) == a % n {
        AndMask(a, k);
      }
    } else {
      AndPrevious(n);
      assert n % n == 0;
    }
  }

  lemma {:induction false} SplitPow2(m: nat, k: nat)
    requires k <= m
    ensures Pow2(m) == Pow2(m - k) * Pow2(k)
  {
    if k > 0 {
      SplitPow2(m - 1, k - 1);
    }
  }

  /** What a count has gone into its current period. */
  function Rest(n: nat, period: nat): (rest: nat)
    requires period > 0
    ensures rest < period
  {
    n % period
  }

  function Periods(n: nat, period: nat): nat
    requires period > 0
  {
    n / period
  }

  lemma RestStep(n: nat, period: nat)
    requires period > 0
    ensures Periods(n + 1, period) == if Rest(n, period) == period - 1 then Periods(n, period) + 1
        else Periods(n, period)
    ensures Periods(0, period) == 0
    ensures Rest(n + 1, period) == if Rest(n, period) == period - 1 then 0 else Rest(n, period) + 1
    ensures Rest(0, period) == 0
    ensures n < period ==> Rest(n, period) == n
  {
    Successor(n, period, n / period, n % period);
    if n < period {
      ModUnique(n, period, 0, n);
    }
  }

  lemma Successor(n: nat, p: nat, q: nat, r: nat)
    requires n == q * p + r && r < p
    ensures (n + 1) % p == if r == p - 1 then 0 else r + 1
    ensures (n + 1) / p == if r == p - 1 then q + 1 else q
  {
    if r == p - 1 {
      assert (q + 1) * p == q * p + p;
      ModUnique(n + 1, p, q + 1, 0);
    } else {
      ModUnique(n + 1, p, q, r + 1);
    }
  }
}

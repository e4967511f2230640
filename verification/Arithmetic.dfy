/** ADC and SBC, byte by byte, and what a chain of them computes over numbers of any length. */
module Arithmetic {
  import opened Words

  /** What an addition leaves in the accumulator and in the flags C and V. */
  datatype Result = Result(acc: u8, carry: bool, overflow: bool)

  function Num(b: bool): int { if b then 1 else 0 }

  /** A byte and whether the operation that made it wrapped around. */
  datatype Wrapped = Wrapped(val: u8, wrapped: bool)

  function OverflowingAdd(a: u8, b: u8): Wrapped {
    Wrapped((a + b) % 256, a + b >= 256)
  }

  function OverflowingSub(a: u8, b: u8): Wrapped {
    Wrapped((a - b) % 256, a < b)
  }

  /** Bit 7. */
  predicate Negative(b: u8) { b >= 128 }

  /** Bit 7 of the exclusive or of two bytes. */
  predicate SignsDiffer(a: u8, b: u8) { Negative(a) != Negative(b) }

  lemma SignBits(a: bv8, b: bv8)
    ensures (a & 0x80 != 0) == Negative(a as int)
    ensures ((a ^ b) & 0x80 != 0) == SignsDiffer(a as int, b as int)
  {
  }

  function AddCarry(a: u8, m: u8, c: bool): Result {
    var s1 := OverflowingAdd(m, a);
    var s2 := OverflowingAdd(s1.val, Num(c));
    Result(s2.val, s1.wrapped || s2.wrapped, !SignsDiffer(a, m) && SignsDiffer(a, s2.val))
  }

  function SubCarry(a: u8, m: u8, c: bool): Result {
    var s1 := OverflowingSub(a, m);
    var s2 := OverflowingSub(s1.val, 1 - Num(c));
    Result(s2.val, !(s1.wrapped || s2.wrapped), SignsDiffer(a, m) && SignsDiffer(a, s2.val))
  }

  /** A byte as a signed number. */
  function Signed(b: u8): int {
    if Negative(b) then b - 256 else b
  }

  lemma AdcAdds(a: u8, m: u8, c: bool)
    ensures
      var r := AddCarry(a, m, c);
      r.acc + 256 * Num(r.carry) == a + m + Num(c)
  {
  }

  lemma SbcSubtracts(a: u8, m: u8, c: bool)
    ensures
      var r := SubCarry(a, m, c);
      r.acc - 256 * Num(!r.carry) == a - m - Num(!c)
  {
  }

  lemma AdcOverflows(a: u8, m: u8, c: bool)
    ensures AddCarry(a, m, c).overflow <==> !(-128 <= Signed(a) + Signed(m) + Num(c) < 128)
  {
  }

  lemma SbcOverflows(a: u8, m: u8, c: bool)
    ensures SubCarry(a, m, c).overflow <==> !(-128 <= Signed(a) - Signed(m) - Num(!c) < 128)
  {
  }

  // ----- chains, least significant byte first

  datatype Chain = Chain(bytes: seq<u8>, carry: bool, overflow: bool)

  function AddBytes(a: seq<u8>, b: seq<u8>, c: bool): Chain
    requires |a| == |b|
  {
    if a == [] then Chain([], c, false)
    else
      var n := |a| - 1;
      var low := AddBytes(a[..n], b[..n], c);
      var r := AddCarry(a[n], b[n], low.carry);
      Chain(low.bytes + [r.acc], r.carry, r.overflow)
  }

  function SubBytes(a: seq<u8>, b: seq<u8>, c: bool): Chain
    requires |a| == |b|
  {
    if a == [] then Chain([], c, false)
    else
      var n := |a| - 1;
      var low := SubBytes(a[..n], b[..n], c);
      var r := SubCarry(a[n], b[n], low.carry);
      Chain(low.bytes + [r.acc], r.carry, r.overflow)
  }

  /** 256 to the power n. */
  function Radix(n: nat): (p: nat)
    ensures p > 0
  {
    if n == 0 then 1 else 256 * Radix(n - 1)
  }

  function Value(s: seq<u8>): int {
    if s == [] then 0 else Value(s[..|s| - 1]) + s[|s| - 1] * Radix(|s| - 1)
  }

  /** The same bytes in two's complement. */
  function SignedValue(s: seq<u8>): int
    requires s != []
  {
    Value(s[..|s| - 1]) + Signed(s[|s| - 1]) * Radix(|s| - 1)
  }

  lemma {:induction false} ValueRange(s: seq<u8>)
    ensures 0 <= Value(s) < Radix(|s|)
  {
    if s != [] {
      var n := |s| - 1;
      ValueRange(s[..n]);
      Places(Value(s[..n]), s[n], Radix(n));
    }
  }

  lemma Places(low: int, digit: int, p: int)
    requires 0 <= low < p && 0 <= digit < 256
    ensures 0 <= low + digit * p < 256 * p
  {
    assert (digit + 1) * p <= 256 * p;
    assert digit * p + p == (digit + 1) * p;
  }

  lemma Snoc(s: seq<u8>, b: u8)
    ensures Value(s + [b]) == Value(s) + b * Radix(|s|)
  {
    assert (s + [b])[..|s|] == s;
  }

  lemma AddPlace(r: int, k: int, a: int, b: int, c: int, p: int)
    requires r + 256 * k == a + b + c
    ensures r * p + k * (256 * p) == a * p + b * p + c * p
  {
    assert (r + 256 * k) * p == (a + b + c) * p;
  }

  lemma SubPlace(r: int, k: int, a: int, b: int, c: int, p: int)
    requires r - 256 * k == a - b - c
    ensures r * p - k * (256 * p) == a * p - b * p - c * p
  {
    assert (r - 256 * k) * p == (a - b - c) * p;
  }

  /** Chained ADC adds: the bytes and the carry together are the sum. */
  lemma {:induction false} AddBytesAdds(a: seq<u8>, b: seq<u8>, c: bool)
    requires |a| == |b|
    ensures |AddBytes(a, b, c).bytes| == |a|
    ensures Value(AddBytes(a, b, c).bytes) + Num(AddBytes(a, b, c).carry) * Radix(|a|) == Value(a) + Value(b) + Num(c)
  {
    if a != [] {
      var n := |a| - 1;
      var low := AddBytes(a[..n], b[..n], c);
      AddBytesAdds(a[..n], b[..n], c);
      AdcAdds(a[n], b[n], low.carry);
      var r := AddCarry(a[n], b[n], low.carry);
      hide AddCarry;
      Snoc(low.bytes, r.acc);
      AddPlace(r.acc, Num(r.carry), a[n], b[n], Num(low.carry), Radix(n));
    }
  }

  /** Chained SBC subtracts: a clear carry is a borrow of the next place. */
  lemma {:induction false} SubBytesSubtracts(a: seq<u8>, b: seq<u8>, c: bool)
    requires |a| == |b|
    ensures |SubBytes(a, b, c).bytes| == |a|
    ensures Value(SubBytes(a, b, c).bytes) - Num(!SubBytes(a, b, c).carry) * Radix(|a|) == Value(a) - Value(b) - Num(!c)
  {
    if a != [] {
      var n := |a| - 1;
      var low := SubBytes(a[..n], b[..n], c);
      SubBytesSubtracts(a[..n], b[..n], c);
      SbcSubtracts(a[n], b[n], low.carry);
      var r := SubCarry(a[n], b[n], low.carry);
      hide SubCarry;
      Snoc(low.bytes, r.acc);
      SubPlace(r.acc, Num(!r.carry), a[n], b[n], Num(!low.carry), Radix(n));
    }
  }

  /** A number is in range exactly if its top digit is. */
  lemma TopDigit(low: int, t: int, p: int)
    requires 0 <= low < p
    ensures -128 * p <= low + t * p < 128 * p <==> -128 <= t < 128
  {
    if t >= 128 {
      assert t * p >= 128 * p;
    } else if t < -128 {
      assert (t + 1) * p <= -128 * p;
    } else {
      assert t * p >= -128 * p;
      assert (t + 1) * p <= 128 * p;
    }
  }

  /** A signed sum overflows exactly if its top places do, given what the lower ones carry into them. */
  lemma TopPlaces(lowA: int, lowB: int, c: int, low: int, k: int, a: int, b: int, p: int)
    requires 0 <= low < p && low + k * p == lowA + lowB + c
    ensures -128 * p <= (lowA + a * p) + (lowB + b * p) + c < 128 * p <==> -128 <= a + b + k < 128
  {
    assert (a + b + k) * p == a * p + b * p + k * p;
    TopDigit(low, a + b + k, p);
  }

  /** After the last byte V says whether the sum overflows in two's complement. */
  lemma AddBytesOverflows(a: seq<u8>, b: seq<u8>, c: bool)
    requires |a| == |b| > 0
    ensures AddBytes(a, b, c).overflow <==>
      !(-128 * Radix(|a| - 1) <= SignedValue(a) + SignedValue(b) + Num(c) < 128 * Radix(|a| - 1))
  {
    hide AddCarry, Signed, Value;
    var n := |a| - 1;
    var low := AddBytes(a[..n], b[..n], c);
    AddBytesAdds(a[..n], b[..n], c);
    ValueRange(low.bytes);
    AdcOverflows(a[n], b[n], low.carry);
    TopPlaces(Value(a[..n]), Value(b[..n]), Num(c), Value(low.bytes), Num(low.carry), Signed(a[n]), Signed(b[n]),
        Radix(n));
  }

  lemma SubBytesOverflows(a: seq<u8>, b: seq<u8>, c: bool)
    requires |a| == |b| > 0
    ensures SubBytes(a, b, c).overflow <==>
      !(-128 * Radix(|a| - 1) <= SignedValue(a) - SignedValue(b) - Num(!c) < 128 * Radix(|a| - 1))
  {
    hide SubCarry, Signed, Value;
    var n := |a| - 1;
    var low := SubBytes(a[..n], b[..n], c);
    SubBytesSubtracts(a[..n], b[..n], c);
    ValueRange(low.bytes);
    SbcOverflows(a[n], b[n], low.carry);
    Negated(Signed(b[n]), Radix(n), Num(!low.carry));
    TopPlaces(Value(a[..n]), -Value(b[..n]), -Num(!c), Value(low.bytes), -Num(!low.carry), Signed(a[n]), -Signed(b[n]),
        Radix(n));
  }

  lemma Negated(b: int, p: int, k: int)
    ensures (-b) * p == -(b * p) && (-k) * p == -(k * p)
  {
  }

  // ----- the instructions

  /** The accumulator and the flags that addition reads and writes. */
  class Alu {
    var acc: u8
    var carry: bool
    var zero: bool
    var overflow: bool
    var negative: bool

    method Adc(fetched: u8)
      modifies this
      ensures Result(acc, carry, overflow) == AddCarry(old(acc), fetched, old(carry))
      ensures zero == (acc == 0) && negative == Negative(acc)
    {
      var a := acc;
      var s1 := OverflowingAdd(fetched, a);
      var s2 := OverflowingAdd(s1.val, if carry then 1 else 0);
      acc := s2.val;
      carry := s1.wrapped || s2.wrapped;
      overflow := !SignsDiffer(a, fetched) && SignsDiffer(a, acc);
      SetZeroNegative(acc);
    }

    method Sbc(fetched: u8)
      modifies this
      ensures Result(acc, carry, overflow) == SubCarry(old(acc), fetched, old(carry))
      ensures zero == (acc == 0) && negative == Negative(acc)
    {
      var a := acc;
      var s1 := OverflowingSub(a, fetched);
      var s2 := OverflowingSub(s1.val, if carry then 0 else 1);
      acc := s2.val;
      carry := !(s1.wrapped || s2.wrapped);
      overflow := SignsDiffer(a, fetched) && SignsDiffer(a, acc);
      SetZeroNegative(acc);
    }

    method SetZeroNegative(val: u8)
      modifies `zero, `negative
      ensures zero == (val == 0) && negative == Negative(val)
    {
      zero := val == 0;
      negative := val >= 128;
    }
  }
}

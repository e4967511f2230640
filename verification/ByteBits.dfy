/** The bits of a byte as digits of the number that it is, and the lowest digit of a word. */
module ByteBits {
  import Bits

  predicate HasBit(b: bv8, k: nat)
    requires k < 8
  {
    match k
    case 0 => b & 0x01 != 0
    case 1 => b & 0x02 != 0
    case 2 => b & 0x04 != 0
    case 3 => b & 0x08 != 0
    case 4 => b & 0x10 != 0
    case 5 => b & 0x20 != 0
    case 6 => b & 0x40 != 0
    case 7 => b & 0x80 != 0
  }

  /** Digit k of a number written in twos. */
  function Digit(n: nat, k: nat): (digit: nat)
    ensures digit < 2
  {
    n / Bits.Pow2(k) % 2
  }

  lemma Halves(b: bv8)
    ensures (b >> 1) as int == b as int / 2
  {
  }

  lemma Parity(b: bv8)
    ensures (b & 0x01 != 0) == (b as int % 2 == 1)
  {
  }

  lemma NextBit(b: bv8, k: nat)
    requires 0 < k < 8
    ensures HasBit(b, k) == HasBit(b >> 1, k - 1)
  {
  }

  lemma NextDigit(n: nat, k: nat)
    requires 0 < k
    ensures Digit(n, k) == Digit(n / 2, k - 1)
  {
    Bits.ShiftRightIsDivision(n, k);
    Bits.ShiftRightIsDivision(n / 2, k - 1);
  }

  lemma {:induction false} BitIs(b: bv8, k: nat)
    requires k < 8
    ensures HasBit(b, k) == (Digit(b as int, k) == 1)
  {
    if k == 0 {
      Parity(b);
    } else {
      NextBit(b, k);
      NextDigit(b as int, k);
      Halves(b);
      hide HasBit, Digit;
      BitIs(b >> 1, k - 1);
    }
  }

  lemma Powers()
    ensures Bits.Pow2(0) == 1 && Bits.Pow2(1) == 2 && Bits.Pow2(2) == 4 && Bits.Pow2(3) == 8
    ensures Bits.Pow2(4) == 16 && Bits.Pow2(5) == 32 && Bits.Pow2(6) == 64 && Bits.Pow2(7) == 128
  {
  }

  /** All eight of them. */
  lemma BitsAre(b: bv8)
    ensures (b & 0x01 != 0) == (b as int % 2 == 1) && (b & 0x02 != 0) == (b as int / 2 % 2 == 1)
    ensures (b & 0x04 != 0) == (b as int / 4 % 2 == 1) && (b & 0x08 != 0) == (b as int / 8 % 2 == 1)
    ensures (b & 0x10 != 0) == (b as int / 16 % 2 == 1) && (b & 0x20 != 0) == (b as int / 32 % 2 == 1)
    ensures (b & 0x40 != 0) == (b as int / 64 % 2 == 1) && (b & 0x80 != 0) == (b as int / 128 % 2 == 1)
  {
    Powers();
    hide Bits.Pow2;
    forall k | 0 <= k < 8 ensures HasBit(b, k) == (Digit(b as int, k) == 1) {
      BitIs(b, k);
    }
    assert HasBit(b, 0) == (Digit(b as int, 0) == 1) && HasBit(b, 1) == (Digit(b as int, 1) == 1);
    assert HasBit(b, 2) == (Digit(b as int, 2) == 1) && HasBit(b, 3) == (Digit(b as int, 3) == 1);
    assert HasBit(b, 4) == (Digit(b as int, 4) == 1) && HasBit(b, 5) == (Digit(b as int, 5) == 1);
    assert HasBit(b, 6) == (Digit(b as int, 6) == 1) && HasBit(b, 7) == (Digit(b as int, 7) == 1);
  }

  lemma LowThree(b: bv8)
    ensures (b & 0x07) as int == b as int % 8
  {
  }

  lemma Widens(b: bv8)
    ensures (b as bv16) as int == b as int
  {
  }

  // ----- words

  lemma Halves16(val: bv16)
    ensures (val & 0xFF00) as int + (val & 0x00FF) as int == val as int
  {
  }

  function HighOf(w: bv16): bv16 { w & 0xFF00 }

  function LowOf(w: bv16): bv16 { w & 0x00FF }

  function EvenOf(w: bv16): bv16 { w & 0xFFFE }

  function UnitOf(w: bv16): bv16 { w & 0x0001 }

  lemma HalvesOf(w: bv16)
    ensures HighOf(w) as int + LowOf(w) as int == w as int
  {
    Halves16(w);
  }

  lemma SplitLow(w: bv16)
    ensures UnitOf(LowOf(w)) as int + EvenOf(LowOf(w)) as int == LowOf(w) as int
  {
  }

  lemma Parts(w: bv16)
    ensures HighOf(EvenOf(w)) == HighOf(w) && LowOf(EvenOf(w)) == EvenOf(LowOf(w)) && UnitOf(LowOf(w)) == UnitOf(w)
  {
  }

  lemma Splits(w: bv16)
    ensures UnitOf(w) as int + EvenOf(w) as int == w as int
  {
    hide HighOf, LowOf, EvenOf, UnitOf;
    HalvesOf(w);
    HalvesOf(EvenOf(w));
    SplitLow(w);
    Parts(w);
  }

  lemma Doubles(half: bv16)
    requires half < 0x2000
    ensures (half << 1) as int == 2 * half as int
  {
  }

  lemma UnitIs(unit: bv16)
    requires unit <= 1
    ensures unit as int == if unit == 0 then 0 else 1
  {
  }

  lemma TwoParts(n: int, unit: int, half: int)
    requires n == unit + 2 * half && 0 <= unit < 2
    ensures n % 2 == unit && n / 2 == half
  {
  }

  function HalfOf(w: bv16): bv16 { w >> 1 }

  lemma EvenHalves(w: bv16)
    requires w < 0x4000
    ensures EvenOf(w) == HalfOf(w) << 1 && HalfOf(w) < 0x2000 && UnitOf(w) <= 1
  {
  }

  /** A word of fourteen bits, moved right by one place, and what falls out. */
  lemma Word14(w: bv16)
    requires w < 0x4000
    ensures HalfOf(w) as int == w as int / 2 && UnitOf(w) as int == w as int % 2
  {
    hide EvenOf, HalfOf, UnitOf;
    Splits(w);
    EvenHalves(w);
    Doubles(HalfOf(w));
    UnitIs(UnitOf(w));
    TwoParts(w as int, UnitOf(w) as int, HalfOf(w) as int);
  }
}

/** The shift registers as words: what shifting and loading a word does to the queue of its bits. */
module BitQueues {
  import opened Background

  predicate QueueBit(w: bv16, i: nat)
    requires i < 16
  {
    match i
    case 0 => w & 0x8000 != 0
    case 1 => w & 0x4000 != 0
    case 2 => w & 0x2000 != 0
    case 3 => w & 0x1000 != 0
    case 4 => w & 0x0800 != 0
    case 5 => w & 0x0400 != 0
    case 6 => w & 0x0200 != 0
    case 7 => w & 0x0100 != 0
    case 8 => w & 0x0080 != 0
    case 9 => w & 0x0040 != 0
    case 10 => w & 0x0020 != 0
    case 11 => w & 0x0010 != 0
    case 12 => w & 0x0008 != 0
    case 13 => w & 0x0004 != 0
    case 14 => w & 0x0002 != 0
    case 15 => w & 0x0001 != 0
  }

  /** The bits of a word, from the left. */
  function QueueOf(w: bv16): Queue {
    seq(16, i requires 0 <= i < 16 => QueueBit(w, i))
  }

  lemma ShiftBit(w: bv16, i: nat)
    requires i < 16
    ensures QueueBit(w << 1, i) == (i < 15 && QueueBit(w, i + 1))
  {
    match i
    case 0 =>
    case 1 =>
    case 2 =>
    case 3 =>
    case 4 =>
    case 5 =>
    case 6 =>
    case 7 =>
    case 8 =>
    case 9 =>
    case 10 =>
    case 11 =>
    case 12 =>
    case 13 =>
    case 14 =>
    case 15 =>
  }

  lemma ShiftPops(w: bv16)
    ensures QueueOf(w << 1) == Pop(QueueOf(w))
  {
    hide QueueBit;
    forall i | 0 <= i < 16 ensures QueueOf(w << 1)[i] == Pop(QueueOf(w))[i] {
      ShiftBit(w, i);
    }
  }

  lemma OrBit(w: bv16, b: bv8, i: nat)
    requires i < 16
    ensures QueueBit(w | (b as bv16), i) == (QueueBit(w, i) || (i >= 8 && PlaneBit(b, i - 8)))
  {
    match i
    case 0 =>
    case 1 =>
    case 2 =>
    case 3 =>
    case 4 =>
    case 5 =>
    case 6 =>
    case 7 =>
    case 8 =>
    case 9 =>
    case 10 =>
    case 11 =>
    case 12 =>
    case 13 =>
    case 14 =>
    case 15 =>
  }

  lemma OrLoads(w: bv16, b: bv8)
    ensures QueueOf(w | (b as bv16)) == Load(QueueOf(w), PlaneOf(b))
  {
    hide QueueBit, PlaneBit;
    forall i | 0 <= i < 16 ensures QueueOf(w | (b as bv16))[i] == Load(QueueOf(w), PlaneOf(b))[i] {
      OrBit(w, b, i);
    }
  }

  /** The two bits that fine X selects, as the color number. */
  lemma FrontBits(hi: bv16, lo: bv16, fineX: bv16, f: nat)
    requires fineX < 8 && f == fineX as int
    ensures ((((hi << fineX) & 0x8000) >> 14) | (((lo << fineX) & 0x8000) >> 15)) as bv8
         == (if QueueBit(hi, f) then 2 else 0) + (if QueueBit(lo, f) then 1 else 0)
  {
    match f
    case 0 => assert fineX == 0;
    case 1 => assert fineX == 1;
    case 2 => assert fineX == 2;
    case 3 => assert fineX == 3;
    case 4 => assert fineX == 4;
    case 5 => assert fineX == 5;
    case 6 => assert fineX == 6;
    case 7 => assert fineX == 7;
  }

  /** A sprite's color number, read from the left or, flipped, from the right. */
  lemma SpriteBits(hi: bv8, lo: bv8, shift: nat)
    requires shift < 8
    ensures ((((hi << shift) & 0x80) >> 6) | (((lo << shift) & 0x80) >> 7))
         == (if PlaneBit(hi, shift) then 2 else 0) + (if PlaneBit(lo, shift) then 1 else 0)
    ensures ((((hi >> shift) & 0x01) << 1) | ((lo >> shift) & 0x01))
         == (if PlaneBit(hi, 7 - shift) then 2 else 0) + (if PlaneBit(lo, 7 - shift) then 1 else 0)
  {
    match shift
    case 0 =>
    case 1 =>
    case 2 =>
    case 3 =>
    case 4 =>
    case 5 =>
    case 6 =>
    case 7 =>
  }
}

/** How loud the sample channel is: each bit of a byte moves the level by two. */
module SampleLevel {
  import opened Words
  import opened Bits
  import ByteBits
  import opened ApuSpec
  import opened ApuRuns
  import opened Playback

  lemma ShiftMoves(d: Dmc)
    requires d.output < 128
    ensures
      ShiftOut(d).output as int ==
        if d.outputSilent then d.output
        else if d.outputShift % 2 == 1 then (if d.output <= 125 then d.output + 2 else d.output)
        else if d.output >= 2 then d.output - 2
        else d.output
  {
  }

  lemma NextKeeps(d: Dmc, bits: u8)
    ensures NextByte(d).output == d.output && d.(outputBits := bits).output == d.output
  {
  }

  lemma CycleMoves(d: Dmc)
    requires d.output < 128
    ensures OutputCycle(d).output == ShiftOut(d).output
  {
    hide ShiftOut, NextByte;
    NextKeeps(ShiftOut(d), if d.outputBits > 1 then d.outputBits - 1 else 0);
  }

  /** A step of the output unit on a bit that is set adds 2 up to 125 and leaves 126 and 127; on a bit
    that is clear it takes 2 away from 2 on and leaves 0 and 1. A silent unit moves nothing. */
  lemma BitMoves(d: Dmc)
    requires d.output < 128
    ensures
      var level, r := d.output as int, OutputCycle(d).output as int;
      && (d.outputSilent ==> r == level)
      && (!d.outputSilent && d.outputShift % 2 == 1 && level <= 125 ==> r == level + 2)
      && (!d.outputSilent && d.outputShift % 2 == 1 && level >= 126 ==> r == level)
      && (!d.outputSilent && d.outputShift % 2 == 0 && level >= 2 ==> r == level - 2)
      && (!d.outputSilent && d.outputShift % 2 == 0 && level <= 1 ==> r == level)
  {
    hide OutputCycle, ShiftOut;
    ShiftMoves(d);
    CycleMoves(d);
  }

  /** How many of the lowest k bits of a byte are set. */
  function SetBits(byte: u8, k: nat): (count: nat)
    ensures count <= k
  {
    if k == 0 then 0 else SetBits(byte, k - 1) + byte / Pow2(k - 1) % 2
  }

  lemma TailBit(byte: u8, k: nat)
    ensures Tail(byte, k) % 2 == byte / Pow2(k) % 2
  {
    TailIs(byte, k);
    ShiftRightIsDivision(byte, k);
  }

  lemma {:induction false} LevelIs(level: u8, byte: u8, k: nat)
    requires 16 <= level <= 111 && k <= 8
    ensures Level(level, byte, k) as int == level + 4 * SetBits(byte, k) - 2 * k
  {
    hide Tail, Pow2;
    if k > 0 {
      LevelIs(level, byte, k - 1);
      TailBit(byte, k - 1);
    }
  }

  /** Eight steps on a byte with n bits set move a level in the middle by 4 n - 16. The unit then takes
    the byte from the buffer and has it filled again, or falls silent if the buffer is empty. */
  lemma ByteMoves(d: Dmc)
    requires DmcOk(d) && !d.outputSilent && d.outputBits == 8 && 16 <= d.output <= 111
    ensures
      var r := Outputs(d, 8);
      && r.output as int == d.output + 4 * SetBits(d.outputShift, 8) - 16
      && r.outputBits == 8 && r.bufferEmpty && r.buffer == d.buffer && r.outputSilent == d.bufferEmpty
      && (!d.bufferEmpty ==> r.outputShift == d.buffer)
      && r.dmaPending == (d.dmaPending || (!d.bufferEmpty && d.length > 0))
  {
    hide Outputs, DmcOk, SetBits, Level, Tail;
    ByteIsPlayed(d);
    LevelIs(d.output, d.outputShift, 8);
  }

  lemma SetBitsAre(byte: u8)
    ensures
      SetBits(byte, 8) == byte % 2 + byte / 2 % 2 + byte / 4 % 2 + byte / 8 % 2
        + byte / 16 % 2 + byte / 32 % 2 + byte / 64 % 2 + byte / 128 % 2
  {
    ByteBits.Powers();
    hide Pow2;
    assert SetBits(byte, 2) == byte % 2 + byte / 2 % 2;
    assert SetBits(byte, 4) == SetBits(byte, 2) + byte / 4 % 2 + byte / 8 % 2;
    assert SetBits(byte, 6) == SetBits(byte, 4) + byte / 16 % 2 + byte / 32 % 2;
  }
}

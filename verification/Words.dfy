/** Machine words shared by every module.

  Words that the emulator shifts and masks are bit-vectors (`bv8`, `bv16`);
  words that it only counts with are bounded integers.
*/
module Words {
  type u8 = x: int | 0 <= x < 0x100
  type u16 = x: int | 0 <= x < 0x1_0000

  /** The console model, which fixes line counts and clock dividers. */
  datatype Region = Ntsc | Pal | Dendy

  datatype ResetKind = Soft | Hard

  /** A pure memory behind a 16-bit address bus. */
  type Memory = bv16 -> bv8

  function Min(a: int, b: int): int { if a < b then a else b }

  function Max(a: int, b: int): int { if a < b then b else a }

  /** A truth value as a number. */
  function Flag(b: bool): nat { if b then 1 else 0 }
}

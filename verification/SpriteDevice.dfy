/** The sprite unit of the PPU as an object: OAM, secondary OAM and the cursors of evaluation,
  changed in place. */
module SpriteDevice {
  import opened Words
  import B = Background
  import BitQueues
  import E = SpriteEval
  import D = SpriteDraw
  import S = PpuSpec

  class SpriteUnit {
    const oamdata: array<bv8>
    const secondaryOamdata: array<bv8>
    const sprites: array<E.Sprite>
    const sprPresent: array<bool>

    var oamaddr: u8
    var oamaddrHi: E.SpriteIndex
    var oamaddrLo: E.Lane
    var secondaryOamaddr: E.SecondaryAddr
    var oamFetch: bv8
    var oamEvalDone: bool
    var overflowCount: E.Lane
    var sprInRange: bool
    var sprZeroInRange: bool
    var sprZeroVisible: bool
    var sprOverflow: bool
    var sprCount: E.SpriteCount

    ghost var state: E.Spr

    ghost predicate Valid()
      reads this, oamdata, secondaryOamdata, sprites, sprPresent
    {
      && oamdata.Length == 256 && secondaryOamdata.Length == 32 && oamdata != secondaryOamdata
      && sprites.Length == 8 && sprPresent.Length == 256 && (oamdata as object) != (sprPresent as object)
      && state.oam == oamdata[..] && state.sec == secondaryOamdata[..]
      && state.sprites == sprites[..] && state.present == sprPresent[..]
      && state.oamaddr == oamaddr && state.hi == oamaddrHi && state.lo == oamaddrLo && state.secaddr == secondaryOamaddr
      && state.fetch == oamFetch && state.done == oamEvalDone && state.countdown == overflowCount
      && state.inRange == sprInRange && state.zeroInRange == sprZeroInRange && state.zeroVisible == sprZeroVisible
      && state.overflow == sprOverflow && state.count == sprCount
    }

    constructor ()
      ensures Valid() && fresh(oamdata) && fresh(secondaryOamdata) && fresh(sprites) && fresh(sprPresent)
    {
      oamdata := new bv8[256](_ => 0xFF);
      secondaryOamdata := new bv8[32](_ => 0xFF);
      sprites := new E.Sprite[8](_ => D.BLANK_SPRITE);
      sprPresent := new bool[256](_ => false);
      oamaddr, oamaddrHi, oamaddrLo, secondaryOamaddr := 0, 0, 0, 0;
      oamFetch, oamEvalDone, overflowCount := 0, false, 0;
      sprInRange, sprZeroInRange, sprZeroVisible, sprOverflow, sprCount := false, false, false, false, 0;
      new;
      state := E.Spr(oamdata[..], 0, 0, 0, secondaryOamdata[..], 0, 0, false, 0, false, false, false, false, 0,
                     sprites[..], sprPresent[..]);
    }

    // ----- a cycle of a rendering line

    method RunCycle(cycle: nat, evaluates: bool, renders: bool, prerender: bool, ctrl: bv8, scanline: nat, mem: Memory)
      requires Valid() && 1 <= cycle <= 340
      modifies this, oamdata, secondaryOamdata, sprites, sprPresent
      ensures Valid()
      ensures state ==
        D.Cycle(old(state), cycle, evaluates, renders, prerender, S.Hit(ctrl, scanline), S.Load(ctrl, scanline, mem))
    {
      hide Valid, E.EvalCycle, D.Rendering, S.Hit, S.Load;
      if evaluates {
        if cycle <= 256 {
          EvaluateSprites(cycle, ctrl, scanline);
        } else if cycle <= 320 {
          WriteOamAddr(0);
        }
      }
      if renders {
        Render(cycle, prerender, ctrl, scanline, mem);
      }
    }

    method Render(cycle: nat, prerender: bool, ctrl: bv8, scanline: nat, mem: Memory)
      requires Valid() && 1 <= cycle <= 340
      modifies this, oamdata, sprites, sprPresent
      ensures Valid() && state == D.Rendering(old(state), cycle, prerender, S.Load(ctrl, scanline, mem))
    {
      hide Valid, D.FetchSprites, D.Spill, S.Load;
      if prerender {
        SpillByte(cycle);
        DropSprites();
      }
      if 257 <= cycle <= 320 {
        FetchSprites(cycle, ctrl, scanline, mem);
      } else if 321 <= cycle {
        FetchDummy();
      }
    }

    // ----- evaluation

    /** One cycle of evaluation, at cycle 1 to 256. */
    method EvaluateSprites(cycle: nat, ctrl: bv8, scanline: nat)
      requires Valid() && 1 <= cycle <= 256
      modifies this, secondaryOamdata
      ensures Valid() && state == E.EvalCycle(old(state), cycle, S.Hit(ctrl, scanline))
    {
      hide E.Write, E.Restart, E.Latch, E.Read, S.Hit;
      if cycle <= 64 {
        ClearSecondary();
      } else {
        if cycle == 65 {
          RestartEvaluation();
        } else if cycle == 256 {
          LatchSprites();
        }
        if cycle % 2 == 1 {
          ReadByte();
        } else {
          EvaluateWrite(ctrl, scanline);
        }
      }
    }

    method ClearSecondary()
      requires Valid()
      modifies this, secondaryOamdata
      ensures Valid() && state == old(state).(fetch := 0xFF, sec := seq(32, _ => 0xFF))
    {
      oamFetch := 0xFF;
      forall i | 0 <= i < 32 { secondaryOamdata[i] := 0xFF; }
      state := state.(fetch := 0xFF, sec := seq(32, _ => 0xFF));
    }

    method RestartEvaluation()
      requires Valid()
      modifies this
      ensures Valid() && state == E.Restart(old(state))
    {
      sprInRange, sprZeroInRange, oamEvalDone := false, false, false;
      state := state.(inRange := false, zeroInRange := false, done := false);
      RestartCursors();
    }

    method RestartCursors()
      requires Valid()
      modifies this
      ensures Valid()
      ensures state == old(state).(secaddr := 0, hi := old(state).oamaddr / 4, lo := old(state).oamaddr % 4)
    {
      secondaryOamaddr := 0;
      oamaddrHi, oamaddrLo := oamaddr / 4, oamaddr % 4;
      state := state.(secaddr := 0, hi := oamaddrHi, lo := oamaddrLo);
    }

    method LatchSprites()
      requires Valid()
      modifies this
      ensures Valid() && state == E.Latch(old(state))
    {
      sprZeroVisible := sprZeroInRange;
      sprCount := secondaryOamaddr / 4;
      state := E.Latch(state);
    }

    method ReadByte()
      requires Valid()
      modifies this
      ensures Valid() && state == E.Read(old(state))
    {
      oamFetch := oamdata[oamaddr];
      state := E.Read(state);
    }

    /** Even cycles: a byte goes to secondary OAM, or the overflow scan moves on. */
    method EvaluateWrite(ctrl: bv8, scanline: nat)
      requires Valid()
      modifies this, secondaryOamdata
      ensures Valid() && state == E.Write(old(state), S.Hit(ctrl, scanline))
    {
      hide E.Copy, E.Overflow, S.Hit, E.NextIndex;
      if oamEvalDone {
        StepSprite();
        if secondaryOamaddr >= 32 {
          FetchSecondary();
        }
      } else {
        EvaluateByte(ctrl, scanline);
      }
      PointAtByte();
    }

    method EvaluateByte(ctrl: bv8, scanline: nat)
      requires Valid() && !oamEvalDone
      modifies this, secondaryOamdata
      ensures Valid()
      ensures
        var r := old(state).(inRange := old(state).inRange || S.Hit(ctrl, scanline)(old(state).fetch));
        state == if r.secaddr < 32 then E.Copy(r) else E.Overflow(r.(fetch := r.sec[0]))
    {
      hide E.Copy, E.Overflow, S.Hit;
      CheckRange(ctrl, scanline);
      if secondaryOamaddr < 32 {
        CopyByte();
      } else {
        FetchSecondary();
        ScanOverflow();
      }
    }

    method PointAtByte()
      requires Valid()
      modifies this
      ensures Valid() && state == old(state).(oamaddr := 4 * old(state).hi + old(state).lo)
    {
      oamaddr := 4 * oamaddrHi + oamaddrLo;
      state := state.(oamaddr := 4 * state.hi + state.lo);
    }

    method FetchSecondary()
      requires Valid() && secondaryOamaddr >= 32
      modifies this
      ensures Valid() && state == old(state).(fetch := old(state).sec[0])
    {
      oamFetch := secondaryOamdata[secondaryOamaddr % 32];
      state := state.(fetch := state.sec[0]);
    }

    method StepSprite()
      requires Valid()
      modifies this
      ensures Valid() && state == old(state).(hi := E.NextIndex(old(state).hi))
    {
      oamaddrHi := (oamaddrHi + 1) % 64;
      state := state.(hi := E.NextIndex(state.hi));
    }

    /** Past the last sprite, evaluation is done. */
    method NextSprite()
      requires Valid()
      modifies this
      ensures Valid()
      ensures
        var next := E.NextIndex(old(state).hi);
        state == old(state).(hi := next, done := old(state).done || next == 0)
    {
      StepSprite();
      if oamaddrHi == 0 {
        oamEvalDone := true;
        state := state.(done := true);
      }
    }

    /** Outside a sprite, a byte is taken for a Y. */
    method CheckRange(ctrl: bv8, scanline: nat)
      requires Valid()
      modifies this
      ensures Valid() && state == old(state).(inRange := old(state).inRange || S.Hit(ctrl, scanline)(old(state).fetch))
    {
      var y, height := oamFetch as int, if S.TallSprites(ctrl) then 16 else 8;
      var covers := y <= scanline < y + height;
      HitIs(ctrl, scanline, oamFetch);
      hide S.Hit;
      if !sprInRange && covers {
        sprInRange := true;
      }
      state := state.(inRange := sprInRange);
    }

    /** A byte of the sprite goes to secondary OAM; it stays only if the sprite covers the line. */
    method CopyByte()
      requires Valid() && secondaryOamaddr < 32 && !oamEvalDone
      modifies this, secondaryOamdata
      ensures Valid() && state == E.Copy(old(state))
    {
      StoreByte();
      if sprInRange {
        KeepByte();
        if oamaddrLo + 1 == 4 {
          sprInRange := false;
          oamaddrLo := 0;
          state := state.(inRange := false, lo := 0);
          NextSprite();
        } else {
          oamaddrLo := oamaddrLo + 1;
          state := state.(lo := state.lo + 1);
        }
      } else {
        NextSprite();
      }
    }

    method StoreByte()
      requires Valid() && secondaryOamaddr < 32
      modifies this, secondaryOamdata
      ensures Valid() && state == old(state).(sec := old(state).sec[old(state).secaddr := old(state).fetch])
    {
      secondaryOamdata[secondaryOamaddr] := oamFetch;
      state := state.(sec := state.sec[state.secaddr := state.fetch]);
    }

    method KeepByte()
      requires Valid() && secondaryOamaddr < 32
      modifies this
      ensures Valid()
      ensures state == old(state).(secaddr := old(state).secaddr + 1, zeroInRange := old(state).zeroInRange
          || old(state).hi == 0)
    {
      secondaryOamaddr := secondaryOamaddr + 1;
      if oamaddrHi == 0 {
        sprZeroInRange := true;
      }
      state := state.(secaddr := secondaryOamaddr, zeroInRange := sprZeroInRange);
    }

    /** With eight sprites found: the next sprite, and wrongly the next byte of it. */
    method ScanOverflow()
      requires Valid() && !oamEvalDone
      modifies this
      ensures Valid() && state == E.Overflow(old(state))
    {
      if sprInRange {
        CountOverflow();
      } else {
        oamaddrLo := (oamaddrLo + 1) % 4;
        state := state.(lo := oamaddrLo);
        NextSprite();
      }
    }

    /** A byte in range: the flag goes up, and three bytes later the scan is over. */
    method CountOverflow()
      requires Valid() && !oamEvalDone && sprInRange
      modifies this
      ensures Valid() && state == E.Overflow(old(state))
    {
      sprOverflow := true;
      state := state.(overflow := true);
      NextLane();
      if overflowCount == 0 {
        overflowCount := 3;
        state := state.(countdown := 3);
      } else {
        CountDown();
      }
    }

    method NextLane()
      requires Valid()
      modifies this
      ensures Valid()
      ensures state == if old(state).lo == 3 then old(state).(lo := 0, hi := E.NextIndex(old(state).hi))
                       else old(state).(lo := old(state).lo + 1)
    {
      if oamaddrLo + 1 == 4 {
        oamaddrLo := 0;
        state := state.(lo := 0);
        StepSprite();
      } else {
        oamaddrLo := oamaddrLo + 1;
        state := state.(lo := state.lo + 1);
      }
    }

    method CountDown()
      requires Valid() && overflowCount > 0
      modifies this
      ensures Valid()
      ensures state == if old(state).countdown == 1 then old(state).(countdown := 0, done := true, lo := 0)
                       else old(state).(countdown := old(state).countdown - 1)
    {
      overflowCount := overflowCount - 1;
      state := state.(countdown := overflowCount);
      if overflowCount == 0 {
        oamEvalDone := true;
        oamaddrLo := 0;
        state := state.(done := true, lo := 0);
      }
    }

    // ----- loading

    /** One cycle of loading, at cycle 257 to 320: OAMADDR is pinned to 0, and a slot is loaded once
      every eight cycles. */
    method FetchSprites(cycle: nat, ctrl: bv8, scanline: nat, mem: Memory)
      requires Valid() && 257 <= cycle <= 320
      modifies this, sprites, sprPresent
      ensures Valid() && state == D.FetchSprites(old(state), cycle, S.Load(ctrl, scanline, mem))
    {
      hide D.LoadSlot, S.Load;
      WriteOamAddr(0);
      if cycle == 257 {
        ClearPresence();
      }
      if cycle % 8 == 4 {
        var tileAddr := LoadSprites(cycle, ctrl, scanline, mem);
      }
    }

    method WriteOamAddr(val: u8)
      requires Valid()
      modifies this
      ensures Valid() && state == old(state).(oamaddr := val)
    {
      oamaddr := val;
      state := state.(oamaddr := val);
    }

    method ClearPresence()
      requires Valid()
      modifies this, sprPresent
      ensures Valid() && state == old(state).(present := seq(256, _ => false))
    {
      forall i | 0 <= i < 256 { sprPresent[i] := false; }
      assert sprPresent[..] == seq(256, _ => false);
      state := state.(present := seq(256, _ => false));
    }

    /** The slot of this cycle is loaded from secondary OAM, if evaluation has filled it. Either way two
      bytes are read, at the address returned and eight bytes on. */
    method LoadSprites(cycle: nat, ctrl: bv8, scanline: nat, mem: Memory) returns (tileAddr: bv16)
      requires Valid() && 257 <= cycle <= 320
      modifies this, sprites, sprPresent
      ensures Valid() && state == D.LoadSlot(old(state), (cycle - 257) / 8, S.Load(ctrl, scanline, mem))
      ensures tileAddr ==
        D.SlotAddr(old(state), (cycle - 257) / 8, scanline, S.TallSprites(ctrl), S.SpriteBase(ctrl))
    {
      var idx := (cycle - 257) / 8;
      var o := 4 * idx;
      tileAddr := SlotAddr(idx, secondaryOamdata[o], secondaryOamdata[o + 1], secondaryOamdata[o + 2], ctrl, scanline);
      if idx < sprCount {
        var sprite := Decoded(secondaryOamdata[o], secondaryOamdata[o + 1], secondaryOamdata[o + 2],
                              secondaryOamdata[o + 3], ctrl, scanline, mem);
        LoadIs(ctrl, scanline, mem, state.sec[o..o + 4]);
        hide S.Load, D.Decode, D.SpriteAddr, D.SpriteRow;
        PlaceSprite(idx, sprite);
      }
    }

    /** Empty slots read the first row of tile $FF. */
    method SlotAddr(idx: nat, yByte: bv8, tile: bv8, attr: bv8, ctrl: bv8, scanline: nat) returns (tileAddr: bv16)
      requires Valid() && idx < 8
      requires yByte == state.sec[4 * idx] && tile == state.sec[4 * idx + 1] && attr == state.sec[4 * idx + 2]
      ensures tileAddr == D.SlotAddr(state, idx, scanline, S.TallSprites(ctrl), S.SpriteBase(ctrl))
    {
      hide D.SpriteRow, D.SpriteAddr, S.TallSprites, S.SpriteBase;
      var height := if S.TallSprites(ctrl) then 16 else 8;
      var lineOffset := LineOffset(yByte as int, height, scanline, attr & 0x80 != 0);
      var tileNumber := tile;
      if idx >= sprCount {
        lineOffset, tileNumber := 0, 0xFF;
      }
      tileAddr := PatternAddr(tileNumber, lineOffset, ctrl);
    }

    method PlaceSprite(idx: nat, sprite: E.Sprite)
      requires Valid() && idx < 8
      modifies this, sprites, sprPresent
      ensures Valid()
      ensures state == old(state).(sprites := old(state).sprites[idx := sprite],
          present := D.Mark(old(state).present, sprite.x))
    {
      sprites[idx] := sprite;
      forall i | sprite.x <= i < sprite.x + 8 && i < 256 { sprPresent[i] := true; }
      assert sprPresent[..] == D.Mark(old(sprPresent[..]), sprite.x);
      state := state.(sprites := state.sprites[idx := sprite], present := D.Mark(state.present, sprite.x));
    }

    /** A sprite from its four bytes, with the row of its pattern that this line shows. */
    static method Decoded(yByte: bv8, tile: bv8, attr: bv8, xByte: bv8, ctrl: bv8, scanline: nat, mem: Memory)
      returns (sprite: E.Sprite)
      ensures sprite == D.Decode(yByte, tile, attr, xByte, scanline, S.TallSprites(ctrl), S.SpriteBase(ctrl), mem)
    {
      hide D.SpriteRow, D.SpriteAddr, B.HighPlane;
      var height := if S.TallSprites(ctrl) then 16 else 8;
      var flipVertical := attr & 0x80 != 0;
      var lineOffset := LineOffset(yByte as int, height, scanline, flipVertical);
      var tileAddr := PatternAddr(tile, lineOffset, ctrl);
      sprite := E.Sprite(xByte as int, yByte as int, mem(tileAddr), mem(B.HighPlane(tileAddr)),
          ((attr & 0x03) << 2) | 0x10,
                         attr & 0x20 != 0, attr & 0x40 != 0, flipVertical);
    }

    static method LineOffset(y: int, height: int, scanline: nat, flipVertical: bool) returns (offset: int)
      requires height == 8 || height == 16
      ensures offset == D.SpriteRow(y, height, scanline, flipVertical)
    {
      offset := if y <= scanline < y + height then scanline - y else 0;
      if flipVertical {
        offset := height - 1 - offset;
      }
    }

    static method PatternAddr(tile: bv8, row: nat, ctrl: bv8) returns (addr: bv16)
      requires row < if S.TallSprites(ctrl) then 16 else 8
      ensures addr == D.SpriteAddr(tile, row, S.TallSprites(ctrl), S.SpriteBase(ctrl))
    {
      if S.TallSprites(ctrl) {
        var select: bv16 := if tile & 0x01 != 0 then 0x1000 else 0;
        var lineOffset := if row < 8 then row else row + 8;
        addr := (select | (((tile & 0xFE) as bv16) << 4)) | (lineOffset as bv16);
      } else {
        addr := (S.SpriteBase(ctrl) | ((tile as bv16) << 4)) | (row as bv16);
      }
    }

    // ----- drawing

    /** The first of the loaded sprites with a visible pixel in column x, and its color number. */
    method FirstVisible(x: nat) returns (k: nat, color: bv8)
      requires Valid()
      ensures k == D.FirstOpaque(state.sprites[..state.count], x, 0)
      ensures k < sprCount ==> D.InSprite(sprites[k], x) && color == D.SpritePixel(sprites[k], x)
    {
      hide D.SpritePixel;
      ghost var line := state.sprites[..state.count];
      k, color := 0, 0;
      while k < sprCount
        invariant k <= |line|
        invariant D.FirstOpaque(line, x, 0) == D.FirstOpaque(line, x, k)
      {
        var shift := x - sprites[k].x;
        if 0 <= shift <= 7 {
          color := SpriteColor(sprites[k], shift);
          if color != 0 {
            return;
          }
        }
        k := k + 1;
      }
    }

    /** What the loaded sprites make of a background pixel, and whether sprite 0 meets it there. */
    method Compose(x: nat, bgColor: bv8, bgPalette: bv8, shown: bool) returns (color: bv8, zeroHit: bool)
      requires Valid() && x < 256
      ensures D.Dot(color, zeroHit) ==
        D.Compose(x, bgColor, bgPalette, state.sprites[..state.count], shown && state.present[x], state.zeroVisible)
    {
      if shown && sprPresent[x] {
        var i, sprColor := FirstVisible(x);
        if i < sprCount {
          color, zeroHit := Overlay(x, bgColor, bgPalette, i, sprites[i], sprColor, sprZeroVisible,
              state.sprites[..state.count]);
          return;
        }
      }
      hide D.FirstOpaque, D.SpritePixel;
      color, zeroHit := bgPalette + bgColor, false;
    }

    /** Sprite i over the background, unless it hides behind it. */
    static method Overlay(x: nat, bgColor: bv8, bgPalette: bv8, i: nat, sprite: E.Sprite, sprColor: bv8,
        zeroVisible: bool, ghost line: seq<E.Sprite>)
      returns (color: bv8, zeroHit: bool)
      requires i < |line| && i == D.FirstOpaque(line, x, 0) && sprite == line[i] && sprColor == D.SpritePixel(sprite, x)
      ensures D.Dot(color, zeroHit) == D.Compose(x, bgColor, bgPalette, line, true, zeroVisible)
    {
      hide D.FirstOpaque, D.SpritePixel;
      zeroHit := i == 0 && bgColor != 0 && zeroVisible && x != 255;
      color := if bgColor == 0 || !sprite.behind then sprite.palette + sprColor else bgPalette + bgColor;
    }

    static method SpriteColor(sprite: E.Sprite, shift: nat) returns (color: bv8)
      requires shift < 8
      ensures color == D.SpritePixel(sprite, sprite.x + shift)
    {
      if sprite.flipX {
        color := FromRight(sprite.tileHi, sprite.tileLo, shift);
      } else {
        color := FromLeft(sprite.tileHi, sprite.tileLo, shift);
      }
    }

    static method FromRight(hi: bv8, lo: bv8, shift: nat) returns (color: bv8)
      requires shift < 8
      ensures color == (if B.PlaneBit(hi, 7 - shift) then 2 else 0) + (if B.PlaneBit(lo, 7 - shift) then 1 else 0)
    {
      color := (((hi >> shift) & 0x01) << 1) | ((lo >> shift) & 0x01);
      BitQueues.SpriteBits(hi, lo, shift);
      hide B.PlaneBit;
    }

    static method FromLeft(hi: bv8, lo: bv8, shift: nat) returns (color: bv8)
      requires shift < 8
      ensures color == (if B.PlaneBit(hi, shift) then 2 else 0) + (if B.PlaneBit(lo, shift) then 1 else 0)
    {
      color := (((hi << shift) & 0x80) >> 6) | (((lo << shift) & 0x80) >> 7);
      BitQueues.SpriteBits(hi, lo, shift);
      hide B.PlaneBit;
    }

    method Overflowed() returns (overflow: bool)
      requires Valid()
      ensures overflow == state.overflow
    {
      overflow := sprOverflow;
    }

    // ----- the other cycles, and the registers

    /** A cycle of the pre-render line that starts with OAMADDR at 8 or more copies a byte down. */
    method SpillByte(cycle: nat)
      requires Valid()
      modifies this, oamdata
      ensures Valid() && state == D.Spill(old(state), cycle)
    {
      if 1 <= cycle <= 8 && oamaddr >= 8 {
        var addr := cycle - 1;
        var row := oamaddr / 8 * 8;
        oamdata[addr] := oamdata[row + addr];
        assert oamdata[..] == old(oamdata[..])[addr := old(oamdata[..])[row + addr]];
        state := D.Spill(state, cycle);
      }
    }

    method DropSprites()
      requires Valid()
      modifies this
      ensures Valid() && state == old(state).(count := 0)
    {
      sprCount := 0;
      state := state.(count := 0);
    }

    method FetchDummy()
      requires Valid()
      modifies this
      ensures Valid() && state == old(state).(fetch := old(state).sec[0])
    {
      oamFetch := secondaryOamdata[0];
      state := state.(fetch := state.sec[0]);
    }

    method ClearOverflow()
      requires Valid()
      modifies this
      ensures Valid() && state == old(state).(overflow := false)
    {
      sprOverflow := false;
      state := state.(overflow := false);
    }

    /** While sprites are handled, a write only bumps the sprite index. */
    method BumpOamAddr()
      requires Valid()
      modifies this
      ensures Valid() && state == S.Bumped(old(state))
    {
      oamaddr := (oamaddr + 4) % 256;
      state := state.(oamaddr := oamaddr);
    }

    /** The byte at OAMADDR, or in secondary OAM where evaluation left off. */
    method PeekOam(loading: bool) returns (r: S.OamByte)
      requires Valid()
      ensures r == if !loading then S.OamByte(state.oam[state.oamaddr])
                   else if state.secaddr < 32 then S.OamByte(state.sec[state.secaddr])
                   else S.PastTheEnd
    {
      if !loading {
        r := S.OamByte(oamdata[oamaddr]);
      } else if secondaryOamaddr < secondaryOamdata.Length {
        r := S.OamByte(secondaryOamdata[secondaryOamaddr]);
      } else {
        r := S.PastTheEnd;
      }
    }

    /** A reset clears the cursors and the slots; OAM and what is in flight elsewhere survive. */
    method Reset(kind: ResetKind)
      requires Valid()
      modifies this, sprites, sprPresent
      ensures Valid() && state == S.ResetSpr(old(state), kind)
    {
      if kind == Hard {
        WriteOamAddr(0);
        ClearOverflow();
      }
      ResetCursors();
      ResetRange();
      ClearPresence();
      ClearSlots();
    }

    method ResetCursors()
      requires Valid()
      modifies this
      ensures Valid() && state == old(state).(secaddr := 0, fetch := 0, done := false, countdown := 0)
    {
      secondaryOamaddr, oamFetch, oamEvalDone, overflowCount := 0, 0, false, 0;
      state := state.(secaddr := 0, fetch := 0, done := false, countdown := 0);
    }

    method ResetRange()
      requires Valid()
      modifies this
      ensures Valid() && state == old(state).(inRange := false, zeroInRange := false, zeroVisible := false, count := 0)
    {
      sprInRange, sprZeroInRange, sprZeroVisible, sprCount := false, false, false, 0;
      state := state.(inRange := false, zeroInRange := false, zeroVisible := false, count := 0);
    }

    method ClearSlots()
      requires Valid()
      modifies this, sprites
      ensures Valid() && state == old(state).(sprites := seq(8, _ => D.BLANK_SPRITE))
    {
      forall i | 0 <= i < 8 { sprites[i] := D.BLANK_SPRITE; }
      assert sprites[..] == seq(8, _ => D.BLANK_SPRITE);
      state := state.(sprites := seq(8, _ => D.BLANK_SPRITE));
    }

    /** A byte written while the unit is idle; three bits of an attribute byte do not exist. */
    method StoreOamData(val: bv8)
      requires Valid()
      modifies this, oamdata
      ensures Valid() && state == S.Stored(old(state), val)
    {
      var stored := if oamaddr % 4 == 2 then val & 0xE3 else val;
      oamdata[oamaddr] := stored;
      assert oamdata[..] == old(oamdata[..])[oamaddr := stored];
      oamaddr := (oamaddr + 1) % 256;
      state := S.Stored(state, val);
    }
  }

  lemma LoadIs(ctrl: bv8, line: nat, mem: Memory, b: D.Bytes4)
    ensures S.Load(ctrl, line, mem)(b) == D.SpriteOf(b, line, S.TallSprites(ctrl), S.SpriteBase(ctrl), mem)
  {
  }

  lemma HitIs(ctrl: bv8, line: nat, y: bv8)
    ensures S.Hit(ctrl, line)(y) == (y as int <= line < y as int + (if S.TallSprites(ctrl) then 16 else 8))
  {
    assert S.Hit(ctrl, line)(y) == D.Covers(y as int, if S.TallSprites(ctrl) then 16 else 8, line);
  }
}

/** The picture processing unit as an object: the odometer, the status flags and the registers,
  changed in place, around its background unit, its sprite unit and its screen. Every method is
  tied to the step that `PpuSpec` gives for it. */
module PpuDevice {
  import opened Words
  import opened Scroll
  import opened BackgroundDevice
  import opened SpriteDevice
  import opened FrameBuffer
  import B = Background
  import E = SpriteEval
  import D = SpriteDraw
  import S = PpuSpec
  import Odometer

  class Ppu {
    const region: Region
    const mem: Memory
    const background: BackgroundUnit
    const sprites: SpriteUnit
    const frame: Frame

    var cycleCount: nat
    var resetSignal: bool
    var ctrl: bv8
    var mask: bv8
    var inVblank: bool
    var sprZeroHit: bool
    var cycle: nat
    var scanline: nat
    var masterClock: nat
    var nmiPending: bool
    var preventVbl: bool
    var openBus: bv8

    /** Everything below this object. */
    ghost function Parts(): set<object> {
      {background, background.scroll, sprites, sprites.oamdata, sprites.secondaryOamdata, sprites.sprites,
          sprites.sprPresent, frame}
      + frame.buffers
    }

    ghost predicate Valid()
      reads background, background.scroll, sprites, sprites.oamdata, sprites.secondaryOamdata, sprites.sprites,
            sprites.sprPresent, frame
    {
      background.Valid() && sprites.Valid() && frame.Valid() && Apart()
    }

    ghost predicate Apart() {
      forall b :: b in frame.buffers ==>
        && (b as object) != (sprites.oamdata as object) && (b as object) != (sprites.secondaryOamdata as object)
        && (b as object) != (sprites.sprites as object) && (b as object) != (sprites.sprPresent as object)
    }

    ghost function State(): S.Ppu
      requires Valid()
      reads this, background, background.scroll, sprites, sprites.oamdata, sprites.secondaryOamdata, sprites.sprites,
            sprites.sprPresent, frame, frame.buffers
    {
      S.Ppu(cycle, scanline, cycleCount, masterClock, ctrl, mask, inVblank, sprZeroHit, nmiPending, preventVbl,
            resetSignal, openBus, background.state, sprites.state, frame.count, frame.Front(), frame.Back())
    }

    ghost function Env(): S.Env {
      S.Env(region, mem)
    }

    constructor (region: Region, mem: Memory)
      ensures Valid() && fresh(background) && fresh(background.scroll) && fresh(sprites) && fresh(sprites.oamdata)
      ensures fresh(sprites.secondaryOamdata) && fresh(sprites.sprites) && fresh(sprites.sprPresent)
      ensures fresh(frame) && fresh(frame.buffers)
      ensures this.region == region && this.mem == mem
      ensures cycle == 0 && scanline == 0 && masterClock == 0 && cycleCount == 0
      ensures !inVblank && !nmiPending && !preventVbl && mask == 0 && ctrl == 0
    {
      hide BackgroundUnit.Valid, SpriteUnit.Valid;
      this.region, this.mem := region, mem;
      background := new BackgroundUnit();
      sprites := new SpriteUnit();
      frame := new Frame();
      cycleCount, resetSignal, ctrl, mask := 0, false, 0, 0;
      inVblank, sprZeroHit := false, false;
      cycle, scanline, masterClock := 0, 0, 0;
      nmiPending, preventVbl, openBus := false, false, 0;
      new;
    }

    // ----- rendering

    /** The color number in column x, with its palette; sprite 0 meeting the background sets the hit flag. */
    method PixelColor(x: nat) returns (color: bv8)
      requires Valid() && x < 256
      modifies `sprZeroHit
      ensures Valid()
      ensures
        var dot := S.DotAt(mask, background.state, sprites.state, x);
        color == dot.color && sprZeroHit == (old(sprZeroHit) || dot.zeroHit)
    {
      hide S.ShowSprites, S.ShowBg, S.BgColor, S.BgPalette, S.Rendering;
      var bgColor := 0;
      if S.ShowBg(mask, x) {
        bgColor := background.FrontColor();
        ShownIsRendered(mask, x);
      }
      var palette := background.FrontPalette(x);
      var zeroHit: bool;
      color, zeroHit := sprites.Compose(x, bgColor, palette, S.ShowSprites(mask, x));
      if zeroHit && S.Rendering(mask) && !sprZeroHit {
        sprZeroHit := true;
      }
    }

    method RenderPixel(x: nat)
      requires Valid() && x < 256 && scanline <= S.LAST_VISIBLE
      modifies `sprZeroHit, frame.buffers
      ensures Valid() && frame.Front() == old(frame.Front())
      ensures
        var dot := S.DotAt(mask, background.state, sprites.state, x);
        && sprZeroHit == (old(sprZeroHit) || dot.zeroHit)
        && frame.Back() == old(frame.Back())[x + 256 * scanline :=
             S.ScreenColor(mask, S.PaletteIndex(mask, background.state.scroll.v, dot), Env())]
    {
      hide S.DotAt, S.ScreenColor, S.PaletteIndex;
      var index := PixelIndex(x);
      var color := ScreenColor(index);
      frame.SetPixel(x, scanline, color);
    }

    method PixelIndex(x: nat) returns (index: bv16)
      requires Valid() && x < 256
      modifies `sprZeroHit
      ensures Valid()
      ensures
        var dot := S.DotAt(mask, background.state, sprites.state, x);
        sprZeroHit == (old(sprZeroHit) || dot.zeroHit) && index == S.PaletteIndex(mask, background.state.scroll.v, dot)
    {
      hide S.DotAt, S.InPalette, S.Rendering, Decode;
      var v := background.Addr();
      PaletteBits(v);
      if S.Rendering(mask) || v & 0x3F00 != 0x3F00 {
        var color := PixelColor(x);
        index := if color & 0x03 != 0 then color as bv16 else 0;
      } else {
        NoHitUnseen(mask, background.state, sprites.state, x);
        index := v & 0x1F;
      }
    }

    method ScreenColor(index: bv16) returns (color: bv16)
      ensures color == S.ScreenColor(mask, index, Env())
    {
      color := mem(0x3F00 + index) as bv16;
      color := color & (if mask & 0x01 != 0 then 0x30 else 0x3F);
      color := color | ((S.Emphasis(mask, region) as bv16) << 1);
    }

    // ----- a dot

    /** What a dot does while rendering is enabled: evaluation and loading of sprites, fetching of
      tiles, and the dot that odd NTSC frames leave out. */
    method RenderCycle()
      requires Valid() && 1 <= cycle <= S.LAST_CYCLE && S.Rendering(mask)
      modifies `cycle, `openBus, background, background.scroll, sprites, sprites.oamdata, sprites.secondaryOamdata,
               sprites.sprites, sprites.sprPresent
      ensures Valid()
      ensures background.state == S.BgWork(old(State()), Env()) && sprites.state == S.SprWork(old(State()), Env())
      ensures cycle == if S.SkipsDot(old(State()), Env()) then S.LAST_CYCLE else old(cycle)
      ensures openBus == if 257 <= old(cycle) <= 320 && (S.EvalLine(scanline, region) || S.RenderLine(scanline, region))
                         then 0 else old(openBus)
    {
      hide B.Work, B.TilesOf, D.Cycle, S.Rendering, S.Hit, S.Load, S.BgBase, S.EvalLine;
      hide BackgroundUnit.Valid, SpriteUnit.Valid;
      var evaluates, renders := S.EvalLine(scanline, region), S.RenderLine(scanline, region);
      var prerender := scanline == S.PrerenderLine(region);
      sprites.RunCycle(cycle, evaluates, renders, prerender, ctrl, scanline, mem);
      if (evaluates || renders) && 257 <= cycle <= 320 {
        openBus := 0;
      }
      if renders {
        background.RunCycle(cycle, prerender, ctrl, mem);
        if cycle == 339 && prerender && frame.count % 2 == 1 && region == Ntsc {
          cycle := S.LAST_CYCLE;
        }
      }
    }

    method Tick()
      requires Valid() && 1 <= cycle <= S.LAST_CYCLE
      modifies this, background, background.scroll, sprites, sprites.oamdata, sprites.secondaryOamdata, sprites.sprites,
               sprites.sprPresent, frame, frame.buffers
      ensures Valid() && State() == S.Tick(old(State()), Env())
    {
      hide S.BgWork, S.SprWork, S.DotAt, S.ScreenColor, S.PaletteIndex, S.SkipsDot, S.Tick, S.Rendering, B.Shift;
      hide BackgroundUnit.Valid, SpriteUnit.Valid;
      TickFields(State(), Env());
      TickUnits();
    }

    /** The units and the flags that a tick changes. */
    method TickUnits()
      requires Valid() && 1 <= cycle <= S.LAST_CYCLE
      modifies `cycle, `openBus, `sprZeroHit, background, background.scroll, sprites, sprites.oamdata,
               sprites.secondaryOamdata, sprites.sprites, sprites.sprPresent, frame.buffers
      ensures Valid()
      ensures background.state == B.Shift(S.BgWork(old(State()), Env()), old(cycle))
          && sprites.state == S.SprWork(old(State()), Env())
      ensures cycle == if S.SkipsDot(old(State()), Env()) then S.LAST_CYCLE else old(cycle)
      ensures openBus == if S.Rendering(mask) && 257 <= old(cycle) <= 320
                            && (S.EvalLine(scanline, region) || S.RenderLine(scanline, region)) then 0 else old(openBus)
      ensures frame.Front() == old(frame.Front())
      ensures
        if S.Drawing(old(State())) then
          var dot := S.DotAt(mask, S.BgWork(old(State()), Env()), S.SprWork(old(State()), Env()), old(cycle) - 1);
          && sprZeroHit == (old(sprZeroHit) || dot.zeroHit)
          && frame.Back() == old(frame.Back())[old(cycle) - 1 + 256 * scanline :=
               S.ScreenColor(mask, S.PaletteIndex(mask, S.BgWork(old(State()), Env()).scroll.v, dot), Env())]
        else sprZeroHit == old(sprZeroHit) && frame.Back() == old(frame.Back())
    {
      hide S.BgWork, S.SprWork, S.DotAt, S.ScreenColor, S.PaletteIndex, S.SkipsDot, S.Rendering, S.EvalLine,
          S.RenderLine, B.PopBoth;
      hide BackgroundUnit.Valid, SpriteUnit.Valid;
      var c := cycle;
      if S.Rendering(mask) {
        RenderCycle();
      } else {
        IdleWork(State(), Env());
      }
      if c <= 256 && scanline <= S.LAST_VISIBLE {
        RenderPixel(c - 1);
      }
      if c <= 256 || 321 <= c <= 336 {
        background.ShiftTiles();
      }
    }

    method StartVblank()
      requires Valid()
      modifies this
      ensures Valid() && State() == S.StartVblank(old(State()))
    {
      hide BackgroundUnit.Valid, SpriteUnit.Valid, S.NmiEnabled;
      if !preventVbl {
        inVblank := true;
        nmiPending := S.NmiEnabled(ctrl);
      }
      preventVbl := false;
    }

    method StopVblank()
      requires Valid()
      modifies this, sprites
      ensures Valid() && State() == S.StopVblank(old(State()))
    {
      hide BackgroundUnit.Valid, SpriteUnit.Valid;
      sprites.ClearOverflow();
      ClearStatus();
    }

    method ClearStatus()
      requires Valid()
      modifies this
      ensures Valid()
      ensures State() == old(State()).(zeroHit := false, vblank := false, nmiPending := false, resetSignal := false)
    {
      hide BackgroundUnit.Valid, SpriteUnit.Valid;
      sprZeroHit, inVblank, nmiPending, resetSignal := false, false, false, false;
    }

    method Clock()
      requires Valid()
      modifies this, background, background.scroll, sprites, sprites.oamdata, sprites.secondaryOamdata, sprites.sprites,
               sprites.sprPresent, frame, frame.buffers
      ensures Valid() && State() == S.Clock(old(State()), Env())
    {
      hide BackgroundUnit.Valid, SpriteUnit.Valid, S.Tick, S.NextLine, S.VblankEdges;
      CountClock();
      if cycle >= S.LAST_CYCLE {
        NextLine();
      } else {
        StepCycle();
        Tick();
        VblankEdges();
      }
    }

    method VblankEdges()
      requires Valid()
      modifies this, sprites
      ensures Valid() && State() == S.VblankEdges(old(State()), Env())
    {
      hide BackgroundUnit.Valid, SpriteUnit.Valid, S.StartVblank, S.StopVblank;
      if cycle == 1 {
        if scanline == S.VblankLine(region) {
          StartVblank();
        } else if scanline == S.PrerenderLine(region) {
          StopVblank();
        }
      }
    }

    /** The open bus decays once a frame. */
    method CountClock()
      requires Valid()
      modifies this
      ensures Valid()
      ensures State() == old(State()).(openBus := if old(State()).scanline == 0 then 0 else old(State()).openBus,
                                   clocks := old(State()).clocks + 1)
    {
      hide BackgroundUnit.Valid, SpriteUnit.Valid;
      if scanline == 0 {
        openBus := 0;
      }
      cycleCount := cycleCount + 1;
    }

    method StepCycle()
      requires Valid()
      modifies this
      ensures Valid() && State() == old(State()).(cycle := old(State()).cycle + 1)
    {
      hide BackgroundUnit.Valid, SpriteUnit.Valid;
      cycle := cycle + 1;
    }

    /** Past the last dot of a line; the buffers are swapped after the post-render lines. */
    method NextLine()
      requires Valid()
      modifies this, frame
      ensures Valid() && State() == S.NextLine(old(State()), Env())
    {
      hide BackgroundUnit.Valid, SpriteUnit.Valid, S.NextFrame;
      cycle := 0;
      scanline := scanline + 1;
      if scanline == S.VblankLine(region) - 1 {
        SwapBuffers();
      } else if scanline > S.PrerenderLine(region) {
        scanline := 0;
      }
    }

    method SwapBuffers()
      requires Valid()
      modifies this, frame
      ensures Valid()
      ensures State() == old(State()).(frame := S.NextFrame(old(State()).frame), front := old(State()).back,
          back := old(State()).front)
    {
      hide BackgroundUnit.Valid, SpriteUnit.Valid, S.NextFrame;
      frame.Increment();
    }

    method RunDot()
      requires Valid()
      modifies this, background, background.scroll, sprites, sprites.oamdata, sprites.secondaryOamdata, sprites.sprites,
               sprites.sprPresent, frame, frame.buffers
      ensures Valid() && State() == S.RunDot(old(State()), Env())
    {
      hide BackgroundUnit.Valid, SpriteUnit.Valid, S.Clock;
      Odometer.ClockCounts(State(), Env());
      Clock();
      CountDot();
    }

    method CountDot()
      requires Valid()
      modifies this
      ensures Valid() && State() == old(State()).(masterClock := old(State()).masterClock + S.ClockDivider(region))
    {
      hide BackgroundUnit.Valid, SpriteUnit.Valid;
      masterClock := masterClock + S.ClockDivider(region);
    }

    method ClockTo(clock: nat)
      requires Valid()
      modifies this, background, background.scroll, sprites, sprites.oamdata, sprites.secondaryOamdata, sprites.sprites,
               sprites.sprPresent, frame, frame.buffers
      ensures Valid() && State() == S.ClockTo(old(State()), clock, Env())
    {
      hide BackgroundUnit.Valid, SpriteUnit.Valid, S.RunDot;
      while masterClock + S.ClockDivider(region) <= clock
        invariant Valid()
        invariant S.ClockTo(old(State()), clock, Env()) == S.ClockTo(State(), clock, Env())
        decreases clock - masterClock
      {
        RunDot();
      }
    }

    // ----- registers

    method NmiPending() returns (pending: bool)
      requires Valid()
      ensures pending == State().nmiPending
    {
      hide BackgroundUnit.Valid, SpriteUnit.Valid;
      pending := nmiPending;
    }

    method OpenBus() returns (val: bv8)
      requires Valid()
      ensures val == State().openBus
    {
      hide BackgroundUnit.Valid, SpriteUnit.Valid;
      val := openBus;
    }

    method WriteCtrl(val: bv8)
      requires Valid()
      modifies this, background, background.scroll
      ensures Valid() && State() == S.WriteCtrl(old(State()), val)
    {
      hide BackgroundUnit.Valid, SpriteUnit.Valid, SelectNametable, S.NmiEnabled;
      Drive(val);
      if !resetSignal {
        background.WriteNametableSelect(val);
        SetCtrl(val);
      }
    }

    /** A write leaves its value on the bus. */
    method Drive(val: bv8)
      requires Valid()
      modifies this
      ensures Valid() && State() == S.Drive(old(State()), val)
    {
      hide BackgroundUnit.Valid, SpriteUnit.Valid;
      openBus := val;
    }

    /** Disabling NMI withdraws the request; enabling it while the flag is up makes a new one. */
    method SetCtrl(val: bv8)
      requires Valid()
      modifies this
      ensures Valid()
      ensures State() == old(State()).(ctrl := val, nmiPending := S.NmiEnabled(val)
          && (old(State()).vblank || old(State()).nmiPending))
    {
      hide BackgroundUnit.Valid, SpriteUnit.Valid, S.NmiEnabled;
      ctrl := val;
      if !S.NmiEnabled(ctrl) {
        nmiPending := false;
      } else if inVblank {
        nmiPending := true;
      }
    }

    method WriteMask(val: bv8)
      requires Valid()
      modifies this
      ensures Valid() && State() == S.WriteMask(old(State()), val)
    {
      hide BackgroundUnit.Valid, SpriteUnit.Valid;
      Drive(val);
      if !resetSignal {
        mask := val;
      }
    }

    /** Reading the status acknowledges the vertical blank; one dot before it begins, it prevents it. */
    method ReadStatus() returns (status: bv8)
      requires Valid()
      modifies this, background, background.scroll
      ensures Valid() && State() == S.ReadStatus(old(State()), Env())
      ensures status == S.StatusBits(old(State())) | (old(State()).openBus & 0x1F)
    {
      hide BackgroundUnit.Valid, SpriteUnit.Valid;
      hide S.StatusBits, S.ReadStatus;
      status := PeekStatus();
      StatusSeen(status);
    }

    method StatusSeen(status: bv8)
      requires Valid() && status == S.StatusBits(State()) | (openBus & 0x1F)
      modifies this, background, background.scroll
      ensures Valid() && State() == S.ReadStatus(old(State()), Env())
    {
      hide BackgroundUnit.Valid, SpriteUnit.Valid, S.StatusBits;
      StatusOnBus(State(), status);
      background.ResetLatch();
      Acknowledge();
      Drive(openBus | (status & 0xE0));
    }

    method PeekStatus() returns (status: bv8)
      requires Valid()
      ensures status == S.StatusBits(State()) | (openBus & 0x1F)
    {
      hide BackgroundUnit.Valid, SpriteUnit.Valid;
      var sprOverflow := sprites.Overflowed();
      status := Packed(inVblank, sprZeroHit, sprOverflow) | (openBus & 0x1F);
    }

    static function Packed(inVblank: bool, sprZeroHit: bool, sprOverflow: bool): bv8 {
      ((if inVblank then 0x80 else 0) | (if sprZeroHit then 0x40 else 0)) | (if sprOverflow then 0x20 else 0)
    }

    method Acknowledge()
      requires Valid()
      modifies this
      ensures Valid()
      ensures State() == old(State()).(nmiPending := false, vblank := false,
        preventVbl := old(State()).preventVbl || (old(State()).scanline == S.VblankLine(region)
            && old(State()).cycle == 0))
    {
      hide BackgroundUnit.Valid, SpriteUnit.Valid;
      nmiPending, inVblank := false, false;
      if scanline == S.VblankLine(region) && cycle == 0 {
        preventVbl := true;
      }
    }

    method WriteOamAddr(val: bv8)
      requires Valid()
      modifies this, sprites
      ensures Valid() && State() == S.WriteOamAddr(old(State()), val)
    {
      hide BackgroundUnit.Valid, SpriteUnit.Valid;
      Drive(val);
      sprites.WriteOamAddr(val as int);
    }

    /** OAM is written only while the unit is idle. */
    method WriteOamData(val: bv8)
      requires Valid()
      modifies this, sprites, sprites.oamdata
      ensures Valid() && State() == S.WriteOamData(old(State()), val, Env())
    {
      hide BackgroundUnit.Valid, SpriteUnit.Valid, S.Rendering, S.RenderLine, S.EvalLine, S.Bumped, S.Stored;
      Drive(val);
      StoreOamData(val, S.Rendering(mask) && (S.RenderLine(scanline, region) || S.EvalLine(scanline, region)));
    }

    method StoreOamData(val: bv8, busy: bool)
      requires Valid()
      modifies sprites, sprites.oamdata
      ensures Valid()
      ensures State() == old(State()).(spr := if busy then S.Bumped(old(State()).spr)
          else S.Stored(old(State()).spr, val))
    {
      hide BackgroundUnit.Valid, SpriteUnit.Valid, S.Bumped, S.Stored;
      if busy {
        sprites.BumpOamAddr();
      } else {
        sprites.StoreOamData(val);
      }
    }

    method PeekOamData() returns (r: S.OamByte)
      requires Valid()
      ensures r == S.PeekOamData(State())
    {
      hide BackgroundUnit.Valid, SpriteUnit.Valid, S.Rendering;
      r := sprites.PeekOam(scanline <= S.LAST_VISIBLE && S.Rendering(mask) && 257 <= cycle <= 320);
    }

    method WriteScroll(val: bv8)
      requires Valid()
      modifies this, background, background.scroll
      ensures Valid() && State() == S.WriteScroll(old(State()), val)
    {
      hide BackgroundUnit.Valid, SpriteUnit.Valid, ScrollWrite;
      Drive(val);
      if !resetSignal {
        background.WriteScroll(val);
      }
    }

    method WriteAddr(val: bv8)
      requires Valid()
      modifies this, background, background.scroll
      ensures Valid() && State() == S.WriteAddr(old(State()), val)
    {
      hide BackgroundUnit.Valid, SpriteUnit.Valid, AddrWrite;
      Drive(val);
      if !resetSignal {
        background.WriteAddr(val);
      }
    }

    /** Every access to the data port moves `v`. */
    method IncrementVramAddr()
      requires Valid()
      modifies this, background, background.scroll
      ensures Valid() && State() == S.AccessData(old(State()), Env())
    {
      hide BackgroundUnit.Valid, SpriteUnit.Valid, Advance, Right, Down, S.Rendering, S.RenderLine;
      if S.Rendering(mask) && S.RenderLine(scanline, region) {
        background.IncrementX();
        background.IncrementY();
      } else {
        background.Increment(if ctrl & 0x04 != 0 then 32 else 1);
      }
    }

    /** A read or a write of the data port: `v` moves, and the value stays on the bus. */
    method AccessPort(val: bv8)
      requires Valid()
      modifies this, background, background.scroll
      ensures Valid() && State() == S.AccessPort(old(State()), val, Env())
    {
      hide BackgroundUnit.Valid, SpriteUnit.Valid, S.AccessData;
      IncrementVramAddr();
      Drive(val);
    }

    method Reset(kind: ResetKind)
      requires Valid()
      modifies this, background, background.scroll, sprites, sprites.sprites, sprites.sprPresent, frame, frame.buffers
      ensures Valid() && State() == S.Reset(old(State()), kind)
    {
      hide BackgroundUnit.Valid, SpriteUnit.Valid, S.ResetSpr;
      ResetRegisters(kind);
      ResetPosition();
      background.ResetScroll(kind);
      frame.Reset();
      sprites.Reset(kind);
    }

    /** A soft reset leaves the status flags alone. */
    method ResetRegisters(kind: ResetKind)
      requires Valid()
      modifies this
      ensures Valid()
      ensures State() == old(State()).(resetSignal := true, ctrl := 0, mask := 0,
        vblank := if kind.Hard? then false else old(State()).vblank, zeroHit := if kind.Hard? then false
            else old(State()).zeroHit)
    {
      hide BackgroundUnit.Valid, SpriteUnit.Valid;
      resetSignal, ctrl, mask := true, 0, 0;
      if kind == Hard {
        inVblank, sprZeroHit := false, false;
      }
    }

    method ResetPosition()
      requires Valid()
      modifies this
      ensures Valid()
      ensures State() == old(State()).(cycle := 0, scanline := 0, masterClock := 0, nmiPending := false,
          preventVbl := false, openBus := 0)
    {
      hide BackgroundUnit.Valid, SpriteUnit.Valid;
      cycle, scanline, masterClock := 0, 0, 0;
      nmiPending, preventVbl, openBus := false, false, 0;
    }
  }

  /** A position in palette memory, as the bits of an address. */
  lemma PaletteBits(v: bv16)
    ensures (v & 0x3F00 == 0x3F00) == S.InPalette(Decode(v))
    ensures v & 0x1F == Decode(v).col as bv16
  {
  }

  /** A tick, field by field. */
  lemma TickFields(p: S.Ppu, env: S.Env)
    requires 1 <= p.cycle
    ensures
      var r := S.Tick(p, env);
      var dot := if S.Drawing(p) then S.DotAt(p.mask, S.BgWork(p, env), S.SprWork(p, env), p.cycle - 1)
          else D.Dot(0, false);
      && r.scanline == p.scanline && r.clocks == p.clocks && r.masterClock == p.masterClock && r.ctrl == p.ctrl
          && r.mask == p.mask
      && r.vblank == p.vblank && r.nmiPending == p.nmiPending && r.preventVbl == p.preventVbl
          && r.resetSignal == p.resetSignal
      && r.frame == p.frame && r.front == p.front
      && r.cycle == (if S.SkipsDot(p, env) then S.LAST_CYCLE else p.cycle)
      && r.openBus == (if S.Rendering(p.mask) && 257 <= p.cycle <= 320
                          && (S.EvalLine(p.scanline, env.region) || S.RenderLine(p.scanline, env.region)) then 0
                              else p.openBus)
      && r.bg == B.Shift(S.BgWork(p, env), p.cycle) && r.spr == S.SprWork(p, env)
      && r.zeroHit == (p.zeroHit || dot.zeroHit)
      && r.back == (if S.Drawing(p) then
            p.back[p.cycle - 1 + 256 * p.scanline :=
              S.ScreenColor(p.mask, S.PaletteIndex(p.mask, S.BgWork(p, env).scroll.v, dot), env)]
          else p.back)
  {
    hide S.BgWork, S.SprWork, S.DotAt, S.ScreenColor, S.PaletteIndex, S.SkipsDot, S.Rendering, B.PopBoth;
  }

  lemma StatusOnBus(p: S.Ppu, status: bv8)
    requires status == S.StatusBits(p) | (p.openBus & 0x1F)
    ensures p.openBus | (status & 0xE0) == p.openBus | S.StatusBits(p)
  {
  }

  lemma IdleWork(p: S.Ppu, env: S.Env)
    requires 1 <= p.cycle && !S.Rendering(p.mask)
    ensures S.BgWork(p, env) == p.bg && S.SprWork(p, env) == p.spr && !S.SkipsDot(p, env)
  {
  }

  lemma NoHitUnseen(mask: bv8, bg: B.Bg, spr: E.Spr, x: nat)
    requires !S.Rendering(mask) && x < 256
    ensures !S.DotAt(mask, bg, spr, x).zeroHit
  {
    if S.ShowBg(mask, x) {
      ShownIsRendered(mask, x);
    }
    hide S.ShowBg, S.Rendering, S.ShowSprites;
  }

  lemma ShownIsRendered(mask: bv8, x: int)
    requires S.ShowBg(mask, x)
    ensures S.Rendering(mask)
  {
  }
}

# TetaNES: a verified model of the emulator's timing engines

TetaNES steps every unit of the console cycle by cycle: it mutates registers, counters and shift
registers on each clock and never computes what those steps are for. This project models five groups
of that code and proves that the steps add up to what they are for:

1. **Picture processor** (`src/ppu.rs`, `src/ppu/scroll.rs`, `src/ppu/frame.rs`). The odometer of
   cycle and scanline, the packed scroll registers, the tile fetches and shift registers, sprite
   evaluation, loading and drawing, the vertical blank flag. Main results: the frame buffer holds the
   picture that is defined pixel by pixel from world coordinates, the sprites of a line and priorities;
   the flags tell what happened in the frame; frames have their length; NMI is requested exactly while
   the flag is up and enabled.
2. **CPU cycle engine** (`src/cpu.rs`, `src/cpu/instr.rs`). Master clock, catching up of the picture
   processor, interrupt sampling, and the loop that arbitrates OAM DMA and DMC DMA. Main results: the
   exact number of dots after any number of cycles, one NMI for each vertical blank over every run, and
   the page of OAM DMA delivered byte for byte under every pattern of DMC requests.
3. **Boards** (`src/mem.rs`, MMC3, MMC1, the VRC interrupt). Bank tables by mask and shift against
   division, what the registers map, the serial port of the MMC1, closed forms of two interrupt counters, and
   the lines of the picture that the counter of the MMC3 counts.
4. **Sound** (`src/apu.rs`, `src/apu/`). The bounds that keep the mixer in its tables, over every run,
   closed forms of the envelope and of sample fetching, and the bytes of a sample that are neither lost
   nor overwritten.
5. **6502 arithmetic** (`src/cpu/instr.rs`). Carry and overflow over chains of any length.

## How it is organised

Each group has a state as a value with pure step functions (`PpuSpec`, `CpuSpec`, `Mmc3Spec`,
`Mmc1Spec`, `VrcIrq`, `ApuSpec`, and the units below them in `Scroll`, `Background`, `SpriteEval`,
`SpriteDraw`), classes with the source's mutable fields whose methods are proved to take exactly those
steps (`PpuDevice`, `SpriteDevice`, `BackgroundDevice`, `ScrollDevice`, `FrameBuffer`, `CpuDevice`,
`Mmc3Device`, `Mmc1Device`, `ApuDevice`, `ApuUnit`), and the results about every run of the steps (all
other modules). A wrong step therefore breaks the method or a result about runs: the picture, for
example, is defined in `World` and `Frame` without a word about fetches, shifts or cycles.

What a step function means is stated once more in numbers, as a program or a listener sees it and without
naming the function: which bytes a sprite shows (`SpritePixels`), what registers and addresses of the
picture processor stand for (`PpuPorts`, `StartUp`), what an interrupt leaves on the stack and when it is
taken (`StackFrame`, `IrqLevel`), where an address leads (`CpuBus`), which bank shows after which writes
(`Mmc3Programs`, `Mmc1Programs`), and what the sound registers do and when (`SampleLevel`, `FrameSequence`,
`Channels`, `SoundRegisters`). A pair of a function and a method that were wrong in the same way would
contradict one of these.

`Beats` takes everything the CPU engine does apart into bus cycles with bookkeeping between them, so that
what every beat keeps holds in every run; `NmiPerBlank` and `DmcRequests` are proved that way.

`Words` and `Bits` hold machine words and what bit operations are in arithmetic. Words that the source
shifts and masks are bit-vectors; counters are bounded integers, so that every subtraction in a class
shows that it does not wrap.

## What the code does that one might not expect

These are facts of the code that the model keeps, each with the result that states it exactly.

- The nametable byte is fetched on each of cycles 337 to 340. The pattern bits do not notice, but the
  palette latches move on, so the leftmost tile of a line has the palette of the tile beside it
  (`Frame.Picture`, drawn by `Frame.PictureIsDrawn`).
- The sprite count of the next line is latched on the dot of column 255. That column shows the slots
  cut at this number, `Frame.LastDot`; `LastColumn.LastColumnIsExact` says when it is the picture, and
  `LastColumn.LastPixelIsLost` is a frame in which it is not. The background bits are right there too
  (`Frame.BackgroundIsDrawn`).
- A soft reset moves the position to the top and keeps the vertical blank flag
  (`VerticalBlank.ResetKeeps`).
- Reading $2004 while sprites are loaded indexes secondary OAM with a cursor that is one past its end
  on every line with eight sprites (`Frame.OamReadFails`, with an OAM that does it in
  `Frame.OamReadFailsThere`).
- The MMC3 bank that is called second to last is that only for an even number of banks
  (`Mmc3Banks.SecondToLastStays`), which cartridges have (`Mmc3Banks.CartridgesAreEven`), and pairs of
  1K pages can run over the end of an odd number of pages (`Mmc3Banks.ChrInside`, and over runs
  `Mmc3Banks.ChrStaysInside`).
- An MMC1 write with bit 7 set changes the control register but not the bank tables
  (`Mmc1Banks.ResetWriteLags` and, for a board that shows it, `Mmc1Banks.TablesLag`), and the last bank
  that it fixes is that of the whole ROM, not of the half that the outer bank bit selects
  (`Mmc1Banks.LastBankFixed`).
- A DMC request that is polled in the very cycle that hands over a byte is dropped
  (`DmcRequests.NoRequestIsLost`), which is what keeps a byte from being overwritten before it is played
  (`SampleLink.BytesAreConserved`).
- In its cycle mode the prescaler of the VRC interrupt grows without bound
  (`VrcIrq.CycleModeGrows`).
- The menu switch of the second pulse channel works on the first (`ApuRuns.SecondPulseStaysOn`).
- The linear counter takes bits 7 to 1 of the register, where the comment beside it names bits 6 to 0;
  both agree for two values only (`ApuRuns.LinearLoads`).
- The noise register uses fourteen bits (`ApuRuns.FeedbackInside`).
- The frame counter reports the end of its first step as 0, which also means that no step has ended, so that
  the envelopes are clocked at the ends of the second, third, fourth and last step and the lengths at those of
  the third and last; the diagram in the source has the first, second, third and fifth, and the second and
  fifth (`FrameSequence.SequenceTells`).

## Model

| member | source | states |
|---|---|---|
| Scroll.DecodeInjective | src/ppu/scroll.rs:133-158 | the packed word is determined by its five fields |
| Scroll.RightBits | src/ppu/scroll.rs:192-200 | the bit trick of `increment_x` is one tile to the right across two nametables |
| Scroll.DownBits | src/ppu/scroll.rs:206-226 | the bit trick of `increment_y` is one line down, with the wrap of rows 29 and 31 |
| Scroll.AdvanceBits | src/ppu/scroll.rs:163-166 | adding to the packed word moves the fields with their carries |
| Scroll.AttrAddrBits | src/ppu/scroll.rs:52-57 | the attribute address is that of the 4x4 block of the position |
| Scroll.RightByIsModular | src/ppu/scroll.rs:192-200 | n steps to the right add n to the world column, mod 64 |
| Scroll.DownByIsModular | src/ppu/scroll.rs:206-226 | n lines down add n to the world row, mod 480, from coarse rows up to 29 |
| ScrollDevice.PpuScroll.Write | src/ppu/scroll.rs:74-100 | the two writes of PPUSCROLL set coarse and fine X, then Y, of `t`, and flip the latch |
| ScrollDevice.PpuScroll.WriteAddr | src/ppu/scroll.rs:107-127 | the two writes of PPUADDR set the high and low byte of `t`, the second moves `v` |
| ScrollDevice.PpuScroll.Increment | src/ppu/scroll.rs:163-166 | `v` advances by the step |
| ScrollDevice.PpuScroll.CopyX | src/ppu/scroll.rs:170-176 | the horizontal fields of `v` become those of `t`, the vertical ones stay |
| ScrollDevice.PpuScroll.CopyY | src/ppu/scroll.rs:180-186 | the vertical fields of `v` become those of `t`, the horizontal ones stay |
| ScrollDevice.PpuScroll.IncrementX | src/ppu/scroll.rs:192-200 | `v` moves one tile to the right |
| ScrollDevice.PpuScroll.IncrementY | src/ppu/scroll.rs:206-226 | `v` moves one line down |
| Background.VisibleStep | src/ppu.rs:726-760 | a visible cycle keeps the shift registers, latches and `v` at the tiles of the line, pixel after pixel |
| Background.BetweenStep | src/ppu.rs:726-760 | cycles 257 to 340 move `v` to the next line and prefetch its first two tiles |
| Background.LineStep | src/ppu.rs:696-802 | one cycle of any rendered line keeps the position in the line; with `NextLine` this carries a whole frame |
| Background.NextLine | src/ppu.rs:1094-1126 | the end of a line is the start of the next, one world row further down |
| World.DrawsColor | src/ppu.rs:621-632 | the two bits taken from the shift registers at column x of line y are the pattern bits of the nametable tile at world column (scrollX + x) mod 512 and row (scrollY + y) mod 480 |
| World.DrawsLatch | src/ppu.rs:398-431 | the palette bits used at column x are those of the tile there, or of tile 1 in tile 0 |
| SpriteEval.Evaluation | src/ppu.rs:433-536 | cycles 1 to 256 with OAMADDR at 0, for every OAM: count min(8, n), the bytes of the first eight covering sprites in OAM order, sprite 0 iff it covers, overflow exactly by the diagonal scan, no scan left over |
| SpriteEval.EvaluationIsEarly | src/ppu.rs:433-536 | evaluation is done after 91 of the 95 writes before cycle 256 |
| SpriteEval.EvalStep | src/ppu.rs:433-536 | one cycle of evaluation keeps the invariant that leads there |
| SpriteEval.DiagonalIff | src/ppu.rs:433-536 | the diagonal scan from a place finds a byte exactly if some later sprite has one on the diagonal |
| SpriteEval.LateHitIff | src/ppu.rs:433-536 | overflow is: eight sprites found and a diagonal byte in range behind the eighth |
| SpriteEval.ScanEnds | src/ppu.rs:503-530 | behind a byte in range the overflow scan goes on through the next three, one at a time, and is done |
| SpriteDraw.FetchStep | src/ppu.rs:538-619 | loading slot after slot turns secondary OAM into the sprites of the line and marks the columns they occupy |
| SpriteDraw.EvaluatedBuffers | src/ppu.rs:433-536 | what evaluation leaves are the bytes of the sprites of the line |
| SpriteDraw.PresenceIsExact | src/ppu.rs:634-662 | dropping the `spr_present` test changes neither color nor sprite zero hit of any column |
| SpriteFrame.VisibleStep | src/ppu.rs:696-802 | one cycle of a visible line keeps sprites, buffers and flags those of the line |
| SpriteFrame.SlotsStep | src/ppu.rs:538-602 | one cycle of a visible line keeps all eight slots: those that a line does not fill hold what an earlier line left |
| SpriteFrame.PrerenderStep | src/ppu.rs:696-802 | one cycle of the pre-render line ends with eight spilled bytes and no sprite loaded |
| SpritePixels.HitsItsLines | src/ppu.rs:433-536 | a sprite covers the eight or, with bit 5 of the control register, sixteen lines from its Y on |
| SpritePixels.LoadsItsRow | src/ppu.rs:538-602 | for Y <= line < Y + height the two planes loaded are the bytes at base + 16 tile + (line - Y) and eight further on, with attribute bit 7 in row height - 1 - (line - Y); tall sprites take the table from bit 0 of the tile and go on in the next tile |
| SpritePixels.PixelIsColor | src/ppu.rs:634-662 | the color in column x is that of bit x - X from the left of the two bytes, or with attribute bit 6 from the right |
| SpritePixels.SpritesInPicture | src/ppu.rs:634-670 | every dot of the picture in OAM and pattern bytes: the first sprite in OAM order with a color there shows, unless attribute bit 5 puts it behind a colored background; sprite 0 hits iff it is that sprite, the background has a color and x is not 255 |
| ByteBits.BitsAre | src/ppu/ctrl.rs:23-36 | the masks of the eight bits of a byte are its digits in twos |
| SpritePixels.TopLine | src/ppu.rs:634-662 | the top line shows the background alone |
| Frame.PixelIs | src/ppu.rs:621-694 | the color and the hit of a dot computed from registers are those of the picture |
| Frame.FrameShows | src/ppu.rs:1094-1126 | from the pre-render line on, after any clocks and status reads, the frame is where it should be and has drawn what it should |
| Frame.PictureIsDrawn | src/ppu.rs:621-694 | every pixel whose dot has passed holds what the frame shows: the picture defined from world coordinates, sprites and priorities for x < 255, and the cut slots at x = 255 |
| Frame.BackgroundIsDrawn | src/ppu.rs:621-632 | on the dot of every x < 256 and y < 240 the two bits taken from the shift registers are the pattern bits at world column (scrollX + x) mod 512 and row (scrollY + y) mod 480 |
| LastColumn.LastColumnIsExact | src/ppu.rs:634-662 | column 255 of a line is the picture iff sprites are off, none of the line lies there, or the cut neither takes away the sprite that shows nor brings an old one into sight |
| LastColumn.SlotsStaySane | src/ppu.rs:579-594 | in every reachable state each slot has a sprite palette or no pixels |
| LastColumn.LastPixelIsLost | src/ppu.rs:433-536 | a lone opaque sprite at X = 248 loses its last column on its last line, and the screen color differs |
| Frame.FlagsTellTheFrame | src/ppu.rs:433-670 | at the swap, sprite zero hit holds iff some pixel of the picture hits, overflow iff some line overflows |
| Frame.ScrollOverFrame | src/ppu.rs:726-760 | at the start of visible line n, `v` is n lines below `t` mod 480 and two tiles to its right mod 64 |
| Frame.OamReadFailsThere | src/ppu.rs:945-955 | with OAM cleared the read runs past the end on each of the first eight lines |
| Frame.OamReadFails | src/ppu.rs:945-955 | reading $2004 runs past secondary OAM exactly at cycles 257 to 320 of lines with eight covering sprites or more |
| Odometer.ClockDot | src/ppu.rs:1094-1126 | one clock moves the odometer by one dot, by two where a dot is skipped, and wraps at the end of the frame |
| Odometer.DotsAddUp | src/ppu.rs:1094-1126 | over every run without reset, clocks and skipped dots make up dots and frames, and the frame number counts the swaps |
| Odometer.FrameLength | src/ppu.rs:775-789 | a frame takes 341 * (prerender + 1) clocks, one less exactly on rendered odd NTSC frames; its number rises once |
| Odometer.TwoFrames | src/ppu.rs:775-789 | two frames in a row take 178683 clocks on a rendering NTSC console, 212784 on PAL and Dendy |
| VerticalBlank.NmiIsGated | src/ppu.rs:365-396 | in every reachable state NMI is pending iff the vertical blank flag is up and NMI enabled |
| VerticalBlank.FlagStaysInBlank | src/ppu.rs:365-396 | the flag is up only between its edges, unless a soft reset found it up |
| VerticalBlank.ResetKeeps | src/ppu.rs:1159-1187 | after a reset the flag is up outside the blank iff the reset was soft and found it up |
| VerticalBlank.SuppressedExactly | src/ppu.rs:879-897 | the suppression is pending exactly if the status was read in the dot before the blank |
| VerticalBlank.BlankBegins | src/ppu.rs:365-380 | the blank begins with flag and request unless the status was read one dot earlier |
| VerticalBlank.BlankLines | src/ppu.rs:1142-1155 | lines of the blank, of rendering and of sprite evaluation by number, per region |
| SpriteDevice.SpriteUnit.EvaluateSprites | src/ppu.rs:433-536 | one cycle of evaluation, as the invariant describes it |
| SpriteDevice.SpriteUnit.EvaluateByte | src/ppu.rs:433-536 | one write cycle of evaluation: range check, copy, or overflow scan |
| SpriteDevice.SpriteUnit.LoadSprites | src/ppu.rs:538-602 | one slot is loaded and its columns are marked; the two reads are made at the address of its row, for an empty slot at that of tile $FF |
| SpriteDevice.SpriteUnit.FetchSprites | src/ppu.rs:605-619 | a sprite slot is loaded every eight cycles |
| SpriteDevice.SpriteUnit.Compose | src/ppu.rs:634-670 | color and hit of a column are those of the first opaque sprite in slot order |
| SpriteDevice.SpriteUnit.FirstVisible | src/ppu.rs:634-662 | finds the first slot with an opaque pixel in the column |
| SpriteDevice.SpriteUnit.RunCycle | src/ppu.rs:696-802 | the sprite half of a dot |
| SpriteDevice.SpriteUnit.StoreOamData | src/ppu.rs:963-982 | a byte goes to OAM with its unused bits cleared and OAMADDR moves on |
| SpriteDevice.SpriteUnit.PeekOam | src/ppu.rs:945-955 | what $2004 shows, or that the index is past the end |
| BackgroundDevice.BackgroundUnit.FetchBgNtByte | src/ppu.rs:398-412 | the nametable byte, the reload of the shift registers and the move of the palette latches |
| BackgroundDevice.BackgroundUnit.FetchBgAttrByte | src/ppu.rs:415-419 | the palette of the quarter of the attribute byte |
| BackgroundDevice.BackgroundUnit.FetchBackground | src/ppu.rs:421-431 | one cycle of the tile fetch |
| BackgroundDevice.BackgroundUnit.RunCycle | src/ppu.rs:726-760 | the background half of a dot |
| BackgroundDevice.BackgroundUnit.FrontColor | src/ppu.rs:621-632 | the color number that fine X selects |
| FrameBuffer.Frame.Increment | src/ppu/frame.rs:31-34 | the number rises and the buffers change places |
| FrameBuffer.Frame.SetPixel | src/ppu/frame.rs:43-45 | one pixel of the back buffer changes |
| PpuDevice.Ppu.PixelColor | src/ppu.rs:621-670 | color of the dot, sprite zero hit noted |
| PpuDevice.Ppu.RenderPixel | src/ppu.rs:672-694 | the pixel is drawn, or the backdrop, or the palette entry that `v` points at |
| PpuDevice.Ppu.Tick | src/ppu.rs:696-802 | one dot of work in both units |
| PpuDevice.Ppu.StartVblank | src/ppu.rs:365-380 | the flag and the request come up unless suppressed |
| PpuDevice.Ppu.StopVblank | src/ppu.rs:382-396 | flags and request go down |
| PpuDevice.Ppu.Clock | src/ppu.rs:1094-1126 | one dot of the whole processor |
| PpuDevice.Ppu.ClockTo | src/ppu.rs:1128-1133 | dots run while they end by the given master clock; the loop is `PpuSpec.ClockTo` |
| PpuDevice.Ppu.WriteCtrl | src/ppu.rs:830-854 | control write, with the request raised or lowered |
| PpuDevice.Ppu.ReadStatus | src/ppu.rs:879-897 | status with open bus bits; flag, request and latch cleared; suppression noted |
| PpuDevice.Ppu.WriteOamData | src/ppu.rs:963-982 | OAM write, or the bump of OAMADDR during rendering |
| PpuDevice.Ppu.AccessPort | src/ppu.rs:1026-1080 | a data port access moves `v` by the step or as rendering does |
| PpuDevice.Ppu.Reset | src/ppu.rs:1159-1187 | soft and hard reset |
| PpuPorts.ControlBits | src/ppu/ctrl.rs:23-36 | bits 7, 5, 4 and 3 of $2000 ask for the interrupt and tall sprites and choose the two pattern tables |
| PpuPorts.MaskBits | src/ppu/mask.rs:9-31 | bits 3 and 4 of $2001 show background and sprites, bits 1 and 2 in the left eight columns too |
| PpuPorts.StatusIs | src/ppu/status.rs:9-42 | the status is 128 for the vertical blank, 64 for the sprite 0 hit and 32 for the overflow |
| PpuPorts.StatusByte | src/ppu.rs:879-897 | a read gives that and the low five bits of the bus |
| PpuPorts.ScrollsTo | src/ppu/scroll.rs:74-100 | two scroll writes x, y put the corner of the picture x pixels and y lines from that of the nametable |
| PpuPorts.NametableIs | src/ppu/scroll.rs:233-239 | the low two control bits choose the nametable of the corner |
| PpuPorts.AdvancesBy | src/ppu/scroll.rs:163-166 | the address moves on by 1 or 32 modulo $4000 |
| PpuPorts.PortSteps | src/ppu.rs:352-363 | a data access moves the address by 32 with control bit 2 and else by 1; on a rendered line one tile right and one line down |
| PpuPorts.AddressIs | src/ppu/scroll.rs:107-127 | two address writes hi, lo name the address 256 (hi mod 64) + lo |
| PpuPorts.PaletteAddresses | src/ppu.rs:672-694 | `v` is in palette memory exactly from $3F00 on, and its entry is the address modulo 32 |
| PpuPorts.StoredIs | src/ppu.rs:963-982 | the third byte of a sprite loses bits 2 to 4, the others are kept |
| PpuPorts.IndexIs | src/ppu.rs:672-694 | dots with color 0 show entry 0; a blank screen shows the entry that `v` points at, or entry 0 |
| PpuPorts.ScreenColorIs | src/ppu.rs:672-694 | the screen holds the palette entry modulo 64, or one of four greys with mask bit 0, plus 64 times the tint, red and green exchanged outside NTSC |
| PpuPorts.QuarterIs | src/ppu/scroll.rs:52-64 | the palette of a quarter of an attribute block is the byte divided by 1, 4, 16 or 64, modulo 4 |
| StartUp.WritesAreLost | src/ppu.rs:830-876 | after a reset, whatever is written in the first 261 lines (311 outside NTSC), control and mask are zero and the scroll position is the corner; the next clock starts to listen |
| StartUp.WritesAreKept | src/ppu.rs:830-876 | a picture unit that listens holds what is written |
| StartUp.ResetKeepsSome | src/ppu.rs:1159-1187 | a soft reset keeps the address, the status flags and OAMADDR; a hard one clears them; OAM stays |
| StartUp.SpriteMemoryReads | src/ppu.rs:945-955 | $2004 shows secondary OAM at cycles 257 to 320 of rendered picture lines, else OAM at OAMADDR |
| PpuPorts.BusyWriteBumps | src/ppu.rs:963-982 | a write to busy sprite memory is lost and moves OAMADDR on by 4 |
| PpuPorts.StatusOnBus | src/ppu.rs:879-897 | a status read leaves its three bits on the bus beside what is there |
| PpuPorts.BusFades | src/ppu.rs:1094-1126 | the bus is cleared in the first line and while sprites are loaded |
| PpuPorts.StatusResetsLatch | src/ppu.rs:879-897 | a status read makes the next port write the first of two and takes flag and request back |
| Lockstep.ClockToCatchesUp | src/ppu.rs:1128-1133 | catching up runs whole dots, all that end by the clock and no more |
| Lockstep.ClockToComposes | src/ppu.rs:1128-1133 | catching up to a and then to b >= a is catching up to b |
| CpuRuns.InLockstep | src/cpu.rs:472-498 | after n cycles of any run the picture processor has run exactly the dots that fit, at every cycle or at every instruction end |
| CpuRuns.DotsPerRegion | src/cpu.rs:1060-1071 | that is 3n - 1 on NTSC and Dendy, (16n - 1) / 5 on PAL |
| CpuRuns.ModesAgree | src/cpu.rs:1007-1014 | cycle-accurate and batched runs of the same length agree on dots at instruction ends |
| CpuRuns.NmiNeedsEdge | src/cpu.rs:436-470 | between two fetches of the NMI vector lies a sampled rising edge |
| CpuRuns.LatchedIsServed | src/cpu.rs:408-470 | a latched NMI is not lost: with one more bus cycle, DMA or not, the instruction ends in its vector, and a BRK takes it |
| NmiPerBlank.EdgePerBlank | src/cpu.rs:436-470 | from any state of any cycle-accurate run with NMI armed, while neither status is read nor control written, the edges sampled are the blanks begun |
| NmiPerBlank.NmiPerBlank | src/cpu.rs:408-470 | so a blank that begins meanwhile brings exactly one fetch of the NMI vector, made or latched, and without one there is none |
| Beats.RunBeats | src/cpu.rs:408-567 | every run, with the DMA and interrupt sequences in it, is a sequence of bus cycles and bookkeeping steps |
| CpuRuns.NmiIsServed | src/cpu.rs:408-434 | an edge that was seen is served at the end of the instruction, ahead of IRQ |
| CpuSpec.TurnProgresses | src/cpu.rs:510-567 | every turn of the DMA loop brings requests left, or work and waiting left, down: the loop ends |
| Dma.PlainPages | src/cpu.rs:510-567 | the pages that hold no port are those below $20 and from $41 on |
| Dma.OamDmaDelivers | src/cpu.rs:510-567 | whenever DMC requests come in, the writes to $2004 are the 256 bytes of the page in order |
| Dma.OamDmaCost | src/cpu.rs:510-567 | OAM DMA alone takes 513 cycles from an odd count, 514 from an even one |
| Dma.DmcDmaCost | src/cpu.rs:510-567 | DMC DMA alone takes 3 cycles from an even count, 4 from an odd one, and loads the byte at the address of its request |
| Dma.DmcDmaDelivers | src/cpu.rs:510-567 | however both kinds of DMA interleave, every served DMC request gets the byte at its own address |
| DmcRequests.RequestsAccounted | src/cpu.rs:460-567 | in every state of every run each byte handed over answers a request polled after the byte before it, and DMA is due iff a request was polled since the cycle of the last byte |
| DmcRequests.NoRequestIsLost | src/cpu.rs:510-567 | every request is waiting, or answered by a byte of a later cycle, or was polled in the very cycle that handed over a byte |
| SampleLink.BytesAreConserved | src/apu/dmc.rs:104-245 | over every run of sound unit and DMA flag the bytes given to the buffer are those taken from it, in order, with the one that it holds; a byte is due only while it is empty |
| SampleLink.TakenIsPlayed | src/apu/dmc.rs:218-242 | a byte that leaves the buffer is the one that the output unit goes on with |
| OamFill.OamHoldsPage | src/ppu.rs:963-982 | OAM holds the page from OAMADDR on and OAMADDR is back where it was, if rendering is off, or if the transfer begins after the picture and its dots end before the next line on which the picture processor works with OAM |
| OamFill.OamHoldsPageInBlank | src/cpu.rs:510-567 | with rendering on, from any state of any run after the picture that leaves 1645 dots |
| OamFill.OamHoldsPageUnrendered | src/cpu.rs:510-567 | with rendering off, always |
| OamFill.StoresExactly | src/ppu.rs:963-982 | a write to $2004 stores its byte unless rendering is on and the line is one of 0 to 239, the pre-render line or, on PAL, one from 265 on |
| CpuDevice.Cpu.StartCycle | src/cpu.rs:472-484 | cycle count, master clock, catching up |
| CpuDevice.Cpu.EndCycle | src/cpu.rs:486-498 | master clock, catching up, interrupt sampling |
| CpuDevice.Cpu.IdleCycle | src/cpu.rs:1117-1120 | a cycle without the bus, as a reset takes seven of |
| CpuDevice.Cpu.HandleInterrupts | src/cpu.rs:436-470 | edge detection, delayed lines, DMC poll |
| CpuDevice.Cpu.HandleDma | src/cpu.rs:510-567 | the loop is the recursive specification that the DMA results are about |
| CpuDevice.Cpu.DmaTurn | src/cpu.rs:510-567 | one turn of the loop |
| CpuDevice.Cpu.Read | src/cpu.rs:1032-1041 | DMA first, then one read cycle |
| CpuDevice.Cpu.Write | src/cpu.rs:1047-1051 | one write cycle |
| CpuDevice.Cpu.Irq | src/cpu.rs:408-434 | interrupt sequence with NMI hijacking |
| CpuDevice.Cpu.Brk | src/cpu/instr.rs:1117-1149 | BRK with NMI hijacking and the delayed NMI put off |
| CpuDevice.Cpu.Finish | src/cpu.rs:1003-1018 | the end of an instruction in both modes |
| StackFrame.IrqEnters | src/cpu.rs:408-434 | after any run and over any DMA on the way, an interrupt leaves pc / 256, pc mod 256 and the status with bit 5 set and bit 4 clear at $0100 + SP, SP - 1 and SP - 2 around the page, no other RAM byte changed, SP lower by 3, bit 2 set and pc the word at $FFFA or $FFFE |
| StackFrame.BrkEnters | src/cpu/instr.rs:1117-1149 | BRK leaves the address behind its padding byte and the status with bits 5 and 4 set, and goes through the same vectors |
| StackFrame.RtiReturns | src/cpu/instr.rs:965-971 | RTI over such a frame restores pc, SP and the status without bits 5 and 4 |
| StackFrame.WordIs | src/cpu.rs:632-640 | a word is 256 times its high byte plus its low byte |
| StackFrame.TargetIs | src/cpu.rs:408-434 | the interrupt vectors are the words at $FFFA and $FFFE, low byte first |
| IrqLevel.IrqIsTaken | src/cpu.rs:408-470 | at the end of an instruction an IRQ is taken iff the line asked and bit 2 of the status was clear in the second-to-last cycle |
| IrqLevel.NmiIsSeen | src/cpu.rs:436-470 | an NMI is taken there iff it was latched before the second-to-last cycle or rose in it |
| IrqLevel.BrkPutsOff | src/cpu/instr.rs:1117-1149 | after BRK no NMI is taken at once |
| CpuDevice.Cpu.Rti | src/cpu/instr.rs:965-971 | status and return address are popped |
| CpuBus.PeekIs | src/bus.rs:362-388 | below $2000 an address is one of 2048 bytes, its remainder; from $4020 on it is the cartridge's |
| CpuBus.RamMirrors | src/bus.rs:362-442 | a byte written below $2000 is read at the addresses with the same remainder by 2048 and nowhere else |
| CpuBus.PortsRepeat | src/bus.rs:415-466 | from $2000 to $3FFF the remainder by eight names the port that is written |
| CpuBus.PortsAnswer | src/bus.rs:362-388 | and the port that answers |
| CpuBus.OpenBusAnswers | src/bus.rs:362-388 | addresses without a device answer the byte that was last on the bus |
| CpuBus.PageIsNamed | src/bus.rs:452-455 | $4014 asks for the page 256 times the number written, and no other address asks |
| CpuBus.PageHolds | src/cpu.rs:510-567 | byte i of page n is the byte at 256 n + i |
| CpuBus.WaitRepeats | src/cpu.rs:510-567 | the waiting cycles of DMA repeat the interrupted read, but not one of a controller |
| CpuBus.DevicesAnswer | src/bus.rs:362-388 | $4015 to $4017 answer for themselves |
| StackFrame.FramedOnTop | src/cpu.rs:586-640 | what a sequence leaves is what RTI finds |
| Arithmetic.AddBytesAdds | src/cpu/instr.rs:696-708 | chaining ADC over n bytes: A + B + c = R + C * 256^n |
| Arithmetic.SubBytesSubtracts | src/cpu/instr.rs:711-723 | chaining SBC over n bytes: A - B - (1 - c) = R - (1 - C) * 256^n |
| Arithmetic.AddBytesOverflows | src/cpu/instr.rs:696-708 | V after the last byte is overflow of n-byte two's complement addition |
| Arithmetic.SubBytesOverflows | src/cpu/instr.rs:711-723 | V after the last byte is overflow of n-byte two's complement subtraction |
| Arithmetic.SignBits | src/cpu/instr.rs:696-723 | the masked sign tests of the source are comparisons |
| Arithmetic.Alu.Adc | src/cpu/instr.rs:696-708 | ADC by two overflowing additions gives sum, carry and overflow of the specification |
| Arithmetic.Alu.Sbc | src/cpu/instr.rs:711-723 | SBC by two overflowing subtractions gives difference, borrow and overflow of the specification |
| Bits.MaskIsRemainder | src/mem.rs:127-150 | masking with n - 1 is the remainder by n for every number iff n is a power of two |
| MemBanks.MemBanks.constructor | src/mem.rs:127-144 | slot i starts at page i; the page count is at least one |
| MemBanks.MemBanks.Set | src/mem.rs:147-150 | the slot starts at the masked page and the page is inside the memory |
| MemBanks.MemBanks.SetRange | src/mem.rs:153-160 | consecutive pages from the masked one on |
| MemBanks.MemBanks.GetBank | src/mem.rs:170-184 | mask and shift give the window of the region that the address is in |
| MemBanks.MemBanks.TranslateIs | src/mem.rs:188-206 | translation is page times window plus address modulo window |
| MemBanks.MemBanks.TranslateInside | src/mem.rs:188-206 | for a memory of whole windows the result is inside it iff the page of the slot exists; for one smaller than a window iff the page is 0 and the offset fits |
| MemBanks.BanksWrap | src/mem.rs:147-150 | bank numbers wrap like a remainder for all banks iff the page count is a power of two |
| MemBanks.PairFits | src/mem.rs:153-160 | two pages from any even bank on exist iff the page count is even |
| Mmc3Banks.RegisterIs | src/mapper/m004_txrom.rs:270-302 | the address mask leaves eight register addresses: the unreachable arm is unreachable |
| Mmc3Banks.StaysSynced | src/mapper/m004_txrom.rs:115-148 | from the first bank write or reset on, the bank tables are what the registers say, over every run |
| Mmc3Banks.LastBankStays | src/mapper/m004_txrom.rs:87-148 | $E000-$FFFF maps the last bank in every state of every run of a loaded cartridge |
| Mmc3Banks.SecondToLastStays | src/mapper/m004_txrom.rs:115-128 | in every state of every run of a loaded cartridge the window that the mode bit fixes maps the second-to-last bank, iff the number of banks is even |
| Mmc3Banks.CartridgesAreEven | src/cart.rs:91-96 | a header with n banks makes 2n banks of 8K, so on every cartridge that window maps the second-to-last bank in every state of every run |
| Mmc3Banks.PrgInside | src/mapper/m004_txrom.rs:228-238 | every program address leads into the ROM, for any number of banks from two on |
| Mmc3Banks.PrgStaysInside | src/mapper/m004_txrom.rs:228-238 | in every state of every run of a loaded cartridge every program address leads into the ROM |
| Mmc3Banks.ChrStaysInside | src/mapper/m004_txrom.rs:87-147 | every pattern address stays inside its memory in every state of every run iff the number of 1K pages is at least eight and even, or above 256 |
| Mmc3Banks.ChrInside | src/mapper/m004_txrom.rs:130-147 | pattern addresses stay inside for all registers iff the number of 1K pages is even or above 256 |
| Mmc3Banks.InversionIsXor | src/mapper/m004_txrom.rs:130-147 | flipping the inversion bit maps each address as its exclusive or with $1000 was mapped |
| Mmc3Banks.ModeExchanges | src/mapper/m004_txrom.rs:115-128 | flipping the mode bit exchanges $8000 with $C000 and nothing else |
| Mmc3Irq.CounterAfter | src/mapper/m004_txrom.rs:150-177 | after a reload request the counter is a function of the number of edges, whatever else is read and written |
| Mmc3Irq.PeriodIsExact | src/mapper/m004_txrom.rs:150-177 | an enabled interrupt is raised exactly on edges numbered k(L + 1); revision A and the clone need L > 0 or the first edge |
| Mmc3Irq.FirstInterrupt | src/mapper/m004_txrom.rs:150-177 | for any sequence of accesses the interrupt is pending iff more than L edges have passed |
| Mmc3Programs.RegistersTold | src/mapper/m004_txrom.rs:240-307 | over every run each of the eight registers holds the number written last to an odd address below $A000 while it was selected |
| Mmc3Programs.PrgWindows | src/mapper/m004_txrom.rs:115-128 | over every run, with a power of two of banks, $8000 (in mode 1 $C000) shows the bank written last to register 6, $A000 that of register 7, the other two windows the last two banks |
| Mmc3Programs.ChrWindows | src/mapper/m004_txrom.rs:130-147 | registers 0 and 1 name pairs of 1K pages at $0000 and $0800, registers 2 to 5 pages from $1000 on; bit 7 of the selection exchanges the halves |
| Mmc3Programs.MirroringTold | src/mapper/m004_txrom.rs:240-307 | the nametables are horizontal iff bit 0 of the byte written last to $A000 was set, unless the cartridge has memory for four |
| Mmc3Programs.IrqRegisters | src/mapper/m004_txrom.rs:240-307 | $C000, $C001, $E000 and $E001 set the latch, ask for a reload, disable and acknowledge, enable |
| Mmc3Programs.ProgramCounts | src/mapper/m004_txrom.rs:150-177 | after writing L, reload, disable and enable, the interrupt is pending iff more than L edges have passed |
| Mmc3Programs.Acknowledged | src/mapper/m004_txrom.rs:240-307 | after a write to $E000 no access raises it again |
| Mmc3Programs.EdgeIs | src/mapper/m004_txrom.rs:150-177 | an edge is a pass from below $1000 to above, on the clone back |
| Mmc3Programs.MemoriesShow | src/mapper/m004_txrom.rs:228-238 | work RAM at $6000 and the four nametables at $2000 |
| Mmc3Programs.ResetSilences | src/mapper/m004_txrom.rs:311-315 | a reset clears counter, latch and request |
| ScanlineIrq.OneEdgePerLine | src/ppu.rs:538-619 | with background patterns at $0000 and 8x8 sprites at $1000, whatever is on the screen, every rendered line makes exactly one rising edge, at cycle 260, and one falling one, at cycle 325 |
| ScanlineIrq.InterruptOnLine | src/mapper/m004_txrom.rs:150-177 | so with latch L the interrupt is pending exactly from cycle 260 of the L-th line after the pre-render line on |
| Mmc3Device.Txrom.Load | src/mapper/m004_txrom.rs:87-108 | a loaded cartridge: identity tables, the last two banks fixed; with fewer than two banks the subtraction underflows |
| Mmc3Device.Txrom.UpdateBanks | src/mapper/m004_txrom.rs:115-148 | both tables become what the registers say |
| Mmc3Device.Txrom.ClockIrq | src/mapper/m004_txrom.rs:150-177 | edge detection, counter and request |
| Mmc3Device.Txrom.PeekIs | src/mapper/m004_txrom.rs:228-238 | what the tables map is what the specification maps |
| Mmc3Device.Txrom.MapRead | src/mapper/m004_txrom.rs:223-226 | the access is seen by the counter, then mapped |
| Mmc3Device.Txrom.MapWrite | src/mapper/m004_txrom.rs:240-307 | the eight registers, or the place that the byte goes to |
| Mmc3Device.Txrom.Reset | src/mapper/m004_txrom.rs:311-315 | registers cleared, tables rebuilt |
| Mmc1Port.PortHolds | src/mapper/m001_sxrom.rs:239-264 | in every reachable state the register is in 1..31, its lowest set bit marks how many bits are held, the bits are those of the accepted writes |
| Mmc1Port.EarlyWrite | src/mapper/m001_sxrom.rs:239-242 | a write less than two clocks after an accepted one changes nothing |
| Mmc1Port.ResetWrite | src/mapper/m001_sxrom.rs:243-245 | bit 7 empties the port and sets the mode bits, and nothing else |
| Mmc1Port.NextBit | src/mapper/m001_sxrom.rs:246-251 | bits one to four only fill the port |
| Mmc1Port.FifthBit | src/mapper/m001_sxrom.rs:252-262 | the fifth bit loads the number into the register of its address and empties the port |
| Mmc1Port.FiveWrites | src/mapper/m001_sxrom.rs:239-264 | any five spaced writes load their bits into the register that the fifth address selects |
| Mmc1Port.FiveBits | src/mapper/m001_sxrom.rs:239-264 | that number is b0 + 2 b1 + 4 b2 + 8 b3 + 16 b4 |
| Mmc1Banks.LastBankFixed | src/mapper/m001_sxrom.rs:139-143 | in mode 3 $C000-$FFFF is the last bank of the ROM, whatever the outer bank bit |
| Mmc1Banks.FirstBankFixed | src/mapper/m001_sxrom.rs:135-138 | in mode 2 $8000-$BFFF is the first bank of the selected half |
| Mmc1Banks.PrgInside | src/mapper/m001_sxrom.rs:112-146 | program windows stay inside the ROM for all registers iff the bank count is even or above what a pair can select |
| Mmc1Banks.ResetWriteLags | src/mapper/m001_sxrom.rs:243-245 | after a bit 7 write the tables are what the registers say iff the board has no banking, the mode was 3, mode 2 has one bank only, or a 32K mode has an even bank number that selects the last two banks |
| Mmc1Banks.TablesLag | src/mapper/m001_sxrom.rs:243-245 | a board on which they are not |
| Mmc1Runs.TablesFromLastUpdate | src/mapper/m001_sxrom.rs:184-289 | in every run the tables are what the registers said at the last fifth bit or reset |
| Mmc1Runs.StaysInside | src/mapper/m001_sxrom.rs:173-289 | in every state of every run every program address leads into the ROM, if it is wide enough |
| Mmc1Programs.FiveWritesLoad | src/mapper/m001_sxrom.rs:239-264 | five spaced writes load b0 + 2 b1 + 4 b2 + 8 b3 + 16 b4 into control ($8000), the pattern banks ($A000, $C000) or the program bank ($E000), by the fifth address; the other three keep their numbers, the port is empty and the windows follow |
| Mmc1Programs.RegistersTold | src/mapper/m001_sxrom.rs:239-289 | over every run each register holds the number spelled last at its addresses since the last reset; a byte of $80 or more puts control into mode 3 |
| Mmc1Programs.BankIsSwitched | src/mapper/m001_sxrom.rs:112-146 | in mode 3 five writes that spell n from $E000 on show bank n at $8000 and the last bank at $C000 |
| Mmc1Programs.PrgShows | src/mapper/m001_sxrom.rs:112-146 | the program windows of all four modes as bank numbers, with the outer bank of 512K ROMs |
| Mmc1Programs.ChrShows | src/mapper/m001_sxrom.rs:93-111 | two 4K pattern banks with control bit 4, else the pair of the first |
| Mmc1Programs.MirroringShows | src/mapper/m001_sxrom.rs:93-103 | the two low control bits name the arrangement of the nametables |
| Mmc1Programs.RamShows | src/mapper/m001_sxrom.rs:149-153 | work RAM is there on revision A, or while program bank bit 4 is clear |
| Mmc1Programs.WindowsTold | src/mapper/m001_sxrom.rs:93-289 | in every state of every run the windows show the banks that the registers named at the last completed number or reset |
| Mmc1Device.Sxrom.constructor | src/mapper/m001_sxrom.rs:65-91 | an empty port, mode 3, tables built |
| Mmc1Device.Sxrom.UpdateBanks | src/mapper/m001_sxrom.rs:93-147 | mirroring and tables follow the registers |
| Mmc1Device.Sxrom.Take | src/mapper/m001_sxrom.rs:243-264 | one accepted write |
| Mmc1Device.Sxrom.MapWrite | src/mapper/m001_sxrom.rs:184-268 | ignored, accepted, or mapped |
| Mmc1Device.Sxrom.Clock | src/mapper/m001_sxrom.rs:272-277 | the pause counts down |
| Mmc1Device.Sxrom.PeekIs | src/mapper/m001_sxrom.rs:173-182 | what the tables map is what the specification maps |
| Mmc1Device.Sxrom.Reset | src/mapper/m001_sxrom.rs:281-289 | soft and hard reset |
| VrcIrq.ControlSwitchesOn | src/mapper/vrc_irq.rs:26-37 | writing the control register starts scanline mode iff bit 1 is set and bit 2 clear, whatever bit 0 |
| VrcIrq.NoDrift | src/mapper/vrc_irq.rs:53-69 | n clocks in scanline mode tick floor(3n/341) times and leave the prescaler in 1..341, however acknowledgements fall; the counter is on iff bit 0 was set or nobody has acknowledged |
| VrcIrq.StopsAtAcknowledge | src/mapper/vrc_irq.rs:46-49 | with bit 0 clear those n clocks are the ones before the first acknowledgement |
| VrcIrq.RaisesExactly | src/mapper/vrc_irq.rs:53-69 | a clock raises the interrupt iff the counter is on and it ends a line whose number is a multiple of 256 - reload |
| VrcIrq.FirstFires | src/mapper/vrc_irq.rs:53-69 | left alone it is pending from clock ceil(341 (256 - reload) / 3) on, for either value of bit 0 |
| VrcIrq.CycleModeGrows | src/mapper/vrc_irq.rs:53-69 | in cycle mode the prescaler is 341 + 338 n and fits 16 bits iff n <= 95 |
| VrcIrq.CycleModeFires | src/mapper/vrc_irq.rs:53-69 | in cycle mode the interrupt is pending from clock number 256 - reload on |
| VrcIrq.VrcIrq.Clock | src/mapper/vrc_irq.rs:53-69 | one clock of the counter |
| VrcIrq.VrcIrq.WriteControl | src/mapper/vrc_irq.rs:26-37 | three mode bits; switching on reloads counter and prescaler |
| VrcIrq.VrcIrq.Acknowledge | src/mapper/vrc_irq.rs:46-49 | the request goes down, the counter goes on as the control bit says |
| ApuRuns.MixInTables | src/apu.rs:346-361 | after every run both table indices are in range, so the fallback is never taken |
| ApuRuns.SweepInside | src/apu/pulse.rs:94-129 | the sweep keeps the timer below $800 and never subtracts below zero |
| ApuRuns.FeedbackInside | src/apu/noise.rs:135-151 | the noise register never becomes zero and stays in fourteen bits |
| ApuRuns.OutputKeeps | src/apu/dmc.rs:218-242 | the level keeps its seven bits, and a byte is requested only while the buffer is empty |
| ApuRuns.StepKeeps | src/apu.rs:365-407 | every clock, write, answer, switch, reset and change of region keeps all bounds of the five channels |
| ApuRuns.SecondPulseStaysOn | src/apu.rs:96-104 | no run silences the second pulse channel: its switch is that of the first |
| ApuRuns.LinearLoads | src/apu/triangle.rs:86-90 | the linear counter loads the low seven bits of the register only for the values 0 and 255 |
| Playback.SequenceLength | src/apu/frame_counter.rs:102-117 | the sequences of four and five steps start over after 29830 and 37282 clocks, on PAL after 33254 and 41566 |
| Playback.EnvelopeDecays | src/apu/envelope.rs:38-54 | after a restart the volume is 15 less one for every constant + 1 clocks, down to zero or around |
| Playback.SampleIsFetched | src/apu/dmc.rs:119-245 | the bytes of a sample are fetched in order, once each; the last one, without loop, raises the interrupt |
| Playback.PulseSteps | src/apu/pulse.rs:189-197 | after a high timer write the duty cycle moves on one place every timer + 1 clocks |
| Playback.OutputsEvery | src/apu/dmc.rs:211-245 | n clocks are one step of the output unit for every timer / 2 + 1 of them |
| Playback.ByteIsPlayed | src/apu/dmc.rs:218-242 | eight steps move the level by the bits of a byte, lowest first, and then take the next byte |
| SampleLevel.BitMoves | src/apu/dmc.rs:218-226 | a set bit adds 2 up to 125 and leaves 126 and 127, a clear one takes 2 from 2 on and leaves 0 and 1 |
| SampleLevel.ByteMoves | src/apu/dmc.rs:218-242 | from a level of 16 to 111, eight steps of a byte with k set bits give level + 4 k - 16; then the next byte is taken and asked for, or the unit falls silent |
| FrameSequence.SequenceTells | src/apu.rs:133-185 | clock by clock over any number of sequences: envelopes and linear counter at four places of the sequence, lengths and sweeps at two, the interrupt in the two clocks before the end of four steps, by clock number per region |
| FrameSequence.WriteRestarts | src/apu/frame_counter.rs:66-98 | a write to $4017 starts the sequence over three clocks later, four after an odd clock, in five steps with bit 7 |
| FrameSequence.StartClocks | src/apu.rs:133-185 | five steps begin with a clock of all counters, four with none |
| Channels.ControlByte | src/apu/pulse.rs:148-153 | $4000 as 64 duty + 32 hold + 16 constant + level |
| Channels.SweepByte | src/apu/pulse.rs:155-162 | $4001 as 128 enable + 16 period + 8 negate + shift; shift 0 switches the sweep off |
| Channels.TimerBytes | src/apu/pulse.rs:164-178 | the two timer bytes make 256 (hi mod 8) + lo in either order; the high one starts period and envelope over and loads the length |
| Channels.TriangleBytes | src/apu/triangle.rs:92-103 | the same for the triangle, with the linear counter |
| Channels.NoiseBytes | src/apu/noise.rs:104-124 | $400C and $400F of the noise channel |
| Channels.LengthFalls | src/apu/length_counter.rs:41-49 | a length counter falls by one a half frame to zero, unless held |
| Channels.LinearFalls | src/apu/triangle.rs:57-66 | a reloaded linear counter stays while held and then falls by one a quarter frame to zero |
| Channels.PulseIsHeard | src/apu/pulse.rs:132-146 | the outputs over the eight places add up to 1, 2, 4 or 6 times the volume, or to nothing if length, switch, a timer below 8 or a sweep above 2047 silence the channel |
| Channels.SweepMoves | src/apu/pulse.rs:94-115 | every period + 1 half frames the timer moves by itself over 2^shift, down by one more on the second channel |
| Channels.TriangleSteps | src/apu/triangle.rs:114-133 | one of 32 steps every timer + 1 clocks |
| Channels.TriangleRests | src/apu/triangle.rs:114-133 | it rests when a counter has run out or the timer is below 2 |
| Channels.TriangleIsHeard | src/apu/triangle.rs:74-84 | up from 0 to 15 and down again; 7.5 at an inaudible pitch |
| Channels.FeedbackIs | src/apu/noise.rs:135-151 | the noise register n becomes n / 2 + $2000 if bit 0 differs from bit 1, in the short mode from bit 6 |
| Channels.FeedbackIsOneToOne | src/apu/noise.rs:135-151 | no two states of the register have the same successor |
| Channels.NoiseSteps | src/apu/noise.rs:135-151 | it moves every timer + 1 clocks |
| Channels.NoiseIsHeard | src/apu/noise.rs:92-102 | noise sounds while bit 0 of the register is clear and its length lasts |
| Channels.SampleAsks | src/apu/dmc.rs:187-208 | a channel switched on while idle and empty asks for its first byte two cycles later, three from an odd cycle |
| SoundRegisters.WritesStayApart | src/bus.rs:425-451 | a write to $4000-$4013 reaches the channel of its four registers and no other |
| SoundRegisters.SwitchesAct | src/apu.rs:326-332 | $4015 switches the channels by its bits; off, a length counter is zero |
| SoundRegisters.SampleSwitch | src/apu/dmc.rs:187-197 | bit 4 stops the sample or starts it if none plays, and takes its interrupt back |
| SoundRegisters.SampleIsNamed | src/apu/dmc.rs:176-197 | a sample named a and l starts at $C000 + 64 a and has 16 l + 1 bytes |
| SoundRegisters.FrameInterrupt | src/apu.rs:335-341 | bit 6 of $4017 disables the frame interrupt and takes it back |
| SoundRegisters.ToggleActs | src/apu.rs:96-104 | each menu switch turns its channel, that of the second pulse the first; twice is nothing |
| SoundRegisters.RegionReaches | src/apu.rs:388-393 | the region reaches three units and resets the rate of the sample channel |
| SoundRegisters.ResetIsSilent | src/apu.rs:397-407 | after a reset nothing sounds, all channels are off, no interrupt is pending and the sequence starts over |
| SoundRegisters.MixIs | src/apu.rs:346-361 | the tables are looked up by the sum of the pulses and by 3 triangle + 2 noise + sample, rounded down |
| Channels.TriangleControl | src/apu/triangle.rs:86-90 | bit 7 of $4008 holds both counters of the triangle |
| Channels.EvenLengths | src/apu/length_counter.rs:12-15 | the lengths at even numbers double from 10 and from 12 |
| Channels.OddLengths | src/apu/length_counter.rs:12-15 | those at odd ones are 254 and then the number less one |
| Channels.NoisePeriods | src/apu/noise.rs:73-116 | the period of the noise is the number in the table of its region, bit 7 chooses the short mode |
| Channels.DmcPeriods | src/apu/dmc.rs:140-167 | an output step takes half the number in the table, in clocks of two cycles |
| SampleLevel.SetBitsAre | src/apu/dmc.rs:218-226 | k is the sum of the eight bits of the byte |
| SoundRegisters.OthersAreIgnored | src/bus.rs:425-466 | other addresses change nothing of the unit |
| SoundRegisters.LevelIsSet | src/apu/dmc.rs:169-173 | $4011 sets the level to the low seven bits |
| Channels.Faster | src/apu/dmc.rs:35-42 | higher numbers are faster samples |
| Channels.Slower | src/apu/noise.rs:34-39 | and slower noise |
| ApuDevice.Pulse.ClockSweep | src/apu/pulse.rs:94-115 | the sweep on 16-bit words, without wrapping |
| ApuDevice.Pulse.Output | src/apu/pulse.rs:132-146 | the level of the channel |
| ApuDevice.Envelope.Clock | src/apu/envelope.rs:38-54 | one clock of the envelope |
| ApuDevice.Triangle.Clock | src/apu/triangle.rs:114-133 | one clock of the triangle |
| ApuDevice.Noise.Clock | src/apu/noise.rs:135-151 | one clock of the noise channel |
| ApuDevice.Dmc.Clock | src/apu/dmc.rs:211-245 | one clock of the sample channel |
| ApuDevice.Dmc.LoadBuffer | src/apu/dmc.rs:119-138 | an answered request: buffer, address, length, loop, interrupt |
| ApuDevice.Dmc.SetEnabled | src/apu/dmc.rs:187-197 | starting and stopping a sample |
| ApuDevice.FrameCounter.Clock | src/apu/frame_counter.rs:102-117 | one clock of the frame counter and the step that ended |
| ApuDevice.FrameCounter.Update | src/apu/frame_counter.rs:66-76 | a delayed write takes effect; its delay never runs below zero |
| ApuUnit.Apu.ClockFrameCounter | src/apu.rs:133-170 | quarter and half frames and the frame interrupt |
| ApuUnit.Apu.Clock | src/apu.rs:365-379 | one clock of the unit |
| ApuUnit.Apu.Write | src/apu.rs:195-341 | a register write reaches its channel |
| ApuUnit.Apu.Toggle | src/apu.rs:96-104 | the menu switches |
| ApuUnit.Apu.SetRegion | src/apu.rs:388-393 | the region reaches frame counter, noise and sample channel |
| ApuUnit.Apu.Output | src/apu.rs:346-361 | both table indices, inside their tables |
| ApuUnit.Apu.Reset | src/apu.rs:397-407 | soft and hard reset |
| ApuUnit.Apu.PeekStatus | src/apu.rs:293-317 | the status byte tells which lengths run, whether a sample has bytes left and both interrupts |
| ApuUnit.Apu.ReadStatus | src/apu.rs:278-282 | reading it takes the frame interrupt back |

## Left out

- Opcode decoding and addressing modes: an instruction is any sequence of bus cycles, register changes, BRK and its end, so the CPU results hold for every program.
- Cartridge memory behind the buses, controllers, the status of the sound unit as the CPU reads it, and the byte that a data port access transfers: answers of the environment; palette and nametable memory is a pure function during a frame.
- Lines of the APU and of boards into the CPU: IRQ and DMC requests are answers of the environment, with finitely many requests in a run (each DMC request is one poll that answers yes).
- CpuRuns.InLockstep: the clocks of APU and board that a batched run catches up on at the end of an instruction are not counted.
- Frame.PictureIsDrawn: claims frames without register accesses other than status reads, and coarse Y of `t` at most 29, because otherwise the picture is not one scene or rows 30 and 31 are drawn from attribute bytes.
- Frame.FlagsTellTheFrame: overflow is claimed for frames that no unfinished scan leads into.
- Dma.OamDmaDelivers: pages that hold ports are left out, since reading a port changes it.
- NmiPerBlank.NmiPerBlank: cycle-accurate mode, because in batches a whole blank can pass inside one instruction sequence unsampled.
- ScanlineIrq.InterruptOnLine: frames without register accesses other than status reads, because those move address line 12 too.
- SampleLink.BytesAreConserved: sound unit and DMA flag run as one machine; the requests that `CpuSpec` polls are answers of its environment.
- PpuDevice.Ppu.AccessPort: does not model the read buffer and the byte that is transferred, because memory behind the port is an answer of the environment.
- CpuDevice.Cpu.StartCycle: does not model the clock of sound unit and board in cycle-accurate mode, because they are answers of the environment here.
- CpuDevice.Cpu.Finish: does not model the batched clocks of sound unit and board, for the same reason.
- PpuDevice.Ppu: the source has one struct; the model groups its fields into a background and a sprite unit.
- ApuDevice: length counter, linear counter and sweep are values that their channel assigns, since the source changes them field by field from the channel; the ultrasonic pulse variant of the MMC5 is left out.
- Mixer: the floating point tables and the filters; the index is computed in halves because the triangle can output 7.5.
- FrameSequence.SequenceTells: counts clocks from the start of a sequence without a write to $4017 in it; FrameSequence.WriteRestarts and FrameSequence.StartClocks say what such a write does. No result compares the places with the hardware's.
- SampleLevel.ByteMoves: levels from 16 to 111, where no bit is lost at the ends; SampleLevel.BitMoves holds for all.
- Mmc3Programs.PrgWindows: bank numbers are remainders for a power of two of banks only (MemBanks.BanksWrap); for other counts the pages are those of the mask.
- Mmc3Programs.ChrWindows: a power of two of pages, for the same reason.
- Mmc1Programs.PrgShows: a power of two of banks, for the same reason.
- Mmc1Programs.ChrShows: a power of two of pages, for the same reason.
- Mmc1Programs.WindowsTold: a power of two of banks, for the same reason.
- MemBanks.MemBanks.SetRange: the debug assertion of the source is not part of the contract; PairFits, ChrInside and PrgInside say when it holds.
- VrcIrq.CycleModeGrows: the prescaler is an unbounded integer, so beyond 95 clocks of cycle mode the model does not follow the wrap of 16 bits.
- MMC1 program RAM banks are the single page that the source leaves in place.
- Other boards (MMC5, VRC6 and the simple ones), Game Genie, zapper, RAM randomisation: easier, or unfinished in the source.
- Save states, rewind, user interface, configuration, audio output, NTSC video filter: input and output, or floating point.

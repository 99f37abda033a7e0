/**
 * The LCD controller's timing (Emulator.cpp, `updateGraphics`,
 * `setLCDStatus`, `LCDEnabled`, `getColour`). A scanline lasts 456 cycles,
 * counted down by the scanline cycle counter. Within a visible line
 * (LY < 144) the status register shows mode 2 for the first 80 cycles,
 * mode 3 for the next 172 and mode 0 for the rest; lines 144..153 are the
 * vertical blank, mode 1. Entering a mode whose interrupt bit is set in
 * the status register, or reaching the line held in LYC with bit 6 set,
 * requests the LCD status interrupt (1); reaching line 144 requests the
 * vertical blank interrupt (0). The drawing of scanlines is not part of
 * this model.
 */
module Graphics {
  import opened Bits
  import opened Hardware
  import opened EmulatorState
  import opened Memory
  import opened Interrupts

  const LCDC: bv16 := 0xFF40
  const STAT: bv16 := 0xFF41
  const LY: bv16 := 0xFF44
  const LYC: bv16 := 0xFF45
  const LINE_CYCLES: int := 456
  const VBLANK_INTERRUPT: bv8 := 0
  const LCD_INTERRUPT: bv8 := 1

  /** `LCDEnabled`: bit 7 of the LCD control register. */
  function LcdEnabled(b: Bus): bool
  {
    IsBitSet(Read(b, LCDC), 7)
  }

  /** The mode of the LCD controller on `line` with `count` cycles of the line left. */
  function StatusMode(line: bv8, count: int): (mode: bv8)
    ensures mode <= 3
    ensures mode == 1 <==> line >= 144
  {
    if line >= 144 then 1
    else if count >= 376 then 2
    else if count >= 204 then 3
    else 0
  }

  /** The status byte with bits 0 and 1 set to `mode`. */
  function WithMode(status: bv8, mode: bv8): (r: bv8)
    requires mode <= 3
    ensures r & 3 == mode
    ensures r & 0xFC == status & 0xFC
  {
    if mode == 0 then BitReset(BitReset(status, 0), 1)
    else if mode == 1 then BitReset(BitSet(status, 0), 1)
    else if mode == 2 then BitSet(BitReset(status, 0), 1)
    else BitSet(BitSet(status, 0), 1)
  }

  /** Whether the status byte enables the interrupt on entering `mode`: bit 3 for mode 0, 4 for mode 1, 5 for mode 2, none for mode 3. */
  function ModeInterruptEnabled(status: bv8, mode: bv8): bool
  {
    if mode == 0 then IsBitSet(status, 3)
    else if mode == 1 then IsBitSet(status, 4)
    else if mode == 2 then IsBitSet(status, 5)
    else false
  }

  /** The status byte with the coincidence flag, bit 2, set to `coincide`. */
  function WithCoincidence(status: bv8, coincide: bool): bv8
  {
    if coincide then BitSet(status, 2) else BitReset(status, 2)
  }

  /** The mode `setLCDStatus` selects with the LCD on. */
  function CurrentMode(b: Bus, count: int): bv8
  {
    StatusMode(Read(b, LY), count)
  }

  /** The status byte `setLCDStatus` writes with the LCD on. */
  function NewStatus(b: Bus, count: int): bv8
  {
    WithCoincidence(WithMode(Read(b, STAT), CurrentMode(b, count)), Read(b, LY) == Read(b, LYC))
  }

  /** A mode is entered whose interrupt is enabled. */
  predicate ModeInterrupts(b: Bus, count: int)
  {
    ModeInterruptEnabled(WithMode(Read(b, STAT), CurrentMode(b, count)), CurrentMode(b, count))
    && CurrentMode(b, count) != Read(b, STAT) & 3
  }

  /** LY equals LYC and the coincidence interrupt, bit 6, is enabled. */
  predicate CoincidenceInterrupts(b: Bus, count: int)
  {
    Read(b, LY) == Read(b, LYC) && IsBitSet(NewStatus(b, count), 6)
  }

  /** The LCD status interrupt requested when `c` holds. */
  function RequestIf(s: State, c: bool): (t: State)
    ensures t.scanlineCycleCount == s.scanlineCycleCount && t.dividerCounter == s.dividerCounter
    ensures t.programCounter == s.programCounter && t.stackPointer == s.stackPointer
    ensures t.interruptMasterEnabled == s.interruptMasterEnabled
  {
    if c then FlagInterrupt(s, LCD_INTERRUPT) else s
  }

  /** The status register written through `writeMem`. */
  function WriteStatus(s: State, status: bv8): State
  {
    s.(bus := Write(s.bus, STAT, status))
  }

  /** With the LCD off: a full line of cycles left, LY cleared directly, and the status set to mode 1. */
  function DisabledStatus(s: State): State
  {
    WriteStatus(s.(scanlineCycleCount := LINE_CYCLES, bus := Store(s.bus, LY, 0)), BitReset(BitSet(Read(s.bus, STAT), 0), 1))
  }

  /** `setLCDStatus`. */
  function SetLcdStatus(s: State): (t: State)
    ensures t.scanlineCycleCount == if LcdEnabled(s.bus) then s.scanlineCycleCount else LINE_CYCLES
    ensures t.programCounter == s.programCounter && t.stackPointer == s.stackPointer
    ensures t.interruptMasterEnabled == s.interruptMasterEnabled && t.dividerCounter == s.dividerCounter
  {
    if !LcdEnabled(s.bus) then DisabledStatus(s)
    else
      WriteStatus(
        RequestIf(RequestIf(s, ModeInterrupts(s.bus, s.scanlineCycleCount)), CoincidenceInterrupts(s.bus, s.scanlineCycleCount)),
        NewStatus(s.bus, s.scanlineCycleCount))
  }

  /** What follows the increment of LY: the vertical blank interrupt at line 144, LY back to 0 past line 153. */
  function AfterIncrement(u: State): State
  {
    if Read(u.bus, LY) == 144 then FlagInterrupt(u, VBLANK_INTERRUPT)
    else if Read(u.bus, LY) > 153 then u.(bus := Store(u.bus, LY, 0))
    else u
  }

  /** LY incremented directly in the internal memory, and a full line of cycles left. */
  function IncrementLine(u: State): (t: State)
    ensures t.bus.internalMem[Index(LY)] == u.bus.internalMem[Index(LY)] + 1 && t.scanlineCycleCount == LINE_CYCLES
    ensures t == u.(bus := u.bus.(internalMem := t.bus.internalMem), scanlineCycleCount := LINE_CYCLES)
  {
    u.(scanlineCycleCount := LINE_CYCLES, bus := Store(u.bus, LY, u.bus.internalMem[Index(LY)] + 1))
  }

  /** The move to the next scanline. */
  function NextLine(u: State): (t: State)
    ensures t.scanlineCycleCount == LINE_CYCLES
    ensures t == u.(bus := t.bus, isHalted := t.isHalted, scanlineCycleCount := t.scanlineCycleCount)
  {
    AfterIncrement(IncrementLine(u))
  }

  /** The part of `updateGraphics` after `setLCDStatus`. */
  function Advance(u: State, cycles: int): (t: State)
    ensures !LcdEnabled(u.bus) ==> t == u
    ensures LcdEnabled(u.bus) && u.scanlineCycleCount - cycles <= 0 ==> t.scanlineCycleCount == LINE_CYCLES
    ensures t == u.(bus := t.bus, isHalted := t.isHalted, scanlineCycleCount := t.scanlineCycleCount)
  {
    if !LcdEnabled(u.bus) then u
    else if u.scanlineCycleCount - cycles <= 0 then NextLine(u)
    else u.(scanlineCycleCount := u.scanlineCycleCount - cycles)
  }

  /** `updateGraphics`. */
  function UpdateGraphics(s: State, cycles: int): (t: State)
    ensures t.programCounter == s.programCounter && t.stackPointer == s.stackPointer
    ensures t.interruptMasterEnabled == s.interruptMasterEnabled && t.dividerCounter == s.dividerCounter
  {
    Advance(SetLcdStatus(s), cycles)
  }

  /** `getColour`: the colour a palette register at `address` gives colour number `colourNum`. */
  function GetColour(b: Bus, colourNum: bv8, address: bv16): (c: Colour)
    requires colourNum < 16
    ensures colourNum < 4 ==> Shade(c) == (Read(b, address) >> (colourNum * 2)) & 3
  {
    PaletteColour(Read(b, address), colourNum)
  }

  /*
   * Reads and writes of the LCD registers.
   */

  /** The registers above 0xFF00 read as stored. */
  lemma IoRead(b: Bus, address: bv16)
    requires 0xFF00 < address
    ensures Read(b, address) == b.internalMem[Index(address)]
  {
  }

  /** A direct store to one register above 0xFF00 leaves a read of another alone. */
  lemma StoreKeepsIo(b: Bus, address: bv16, other: bv16, data: bv8)
    requires 0xFF00 < other && other != address
    ensures Read(Store(b, address, data), other) == Read(b, other)
  {
    StoreOther(b, address, other, data);
  }

  /** A write of the status register stores it and leaves a read of another register above 0xFF00 alone. */
  lemma StatusWrite(b: Bus, data: bv8, other: bv16)
    requires 0xFF00 < other && other != STAT
    ensures Read(Write(b, STAT, data), STAT) == data
    ensures Read(Write(b, STAT, data), other) == Read(b, other)
  {
    WritePlain(b, STAT, data);
    StoreKeepsIo(b, STAT, other, data);
  }

  /** Requesting an interrupt leaves the LCD registers and the counters alone. */
  lemma FlagKeepsLcd(s: State, id: bv8, other: bv16)
    requires id < 31 && 0xFF00 < other && other != REQUEST
    ensures Read(FlagInterrupt(s, id).bus, other) == Read(s.bus, other)
    ensures FlagInterrupt(s, id).scanlineCycleCount == s.scanlineCycleCount
  {
    WritePlain(s.bus, REQUEST, BitSet(Read(s.bus, REQUEST), id));
    StoreKeepsIo(s.bus, REQUEST, other, BitSet(Read(s.bus, REQUEST), id));
  }

  /** Requesting the LCD status interrupt on a condition leaves the LCD registers alone. */
  lemma RequestIfKeepsLcd(s: State, c: bool, other: bv16)
    requires 0xFF00 < other && other != REQUEST
    ensures Read(RequestIf(s, c).bus, other) == Read(s.bus, other)
    ensures RequestIf(s, c).scanlineCycleCount == s.scanlineCycleCount
  {
    if c {
      FlagKeepsLcd(s, LCD_INTERRUPT, other);
    }
  }

  /*
   * The status register.
   */

  /**
   * The status byte written with the LCD on: the mode in bits 0 and 1, the
   * coincidence of LY and LYC in bit 2, and bits 3..7 as they were.
   */
  lemma NewStatusBits(b: Bus, count: int)
    ensures NewStatus(b, count) & 3 == StatusMode(Read(b, LY), count)
    ensures IsBitSet(NewStatus(b, count), 2) == (Read(b, LY) == Read(b, LYC))
    ensures NewStatus(b, count) & 0xF8 == Read(b, STAT) & 0xF8
  {
  }

  /** With the LCD on, the status register afterwards holds `NewStatus`, and LY, LYC and LCDC are unchanged. */
  lemma EnabledStatus(s: State, other: bv16)
    requires LcdEnabled(s.bus)
    requires other == LY || other == LYC || other == LCDC
    ensures Read(SetLcdStatus(s).bus, STAT) == NewStatus(s.bus, s.scanlineCycleCount)
    ensures Read(SetLcdStatus(s).bus, other) == Read(s.bus, other)
    ensures SetLcdStatus(s).scanlineCycleCount == s.scanlineCycleCount
  {
    RequestIfKeepsLcd(s, ModeInterrupts(s.bus, s.scanlineCycleCount), other);
    RequestIfKeepsLcd(RequestIf(s, ModeInterrupts(s.bus, s.scanlineCycleCount)), CoincidenceInterrupts(s.bus, s.scanlineCycleCount), other);
    StatusWrite(RequestIf(RequestIf(s, ModeInterrupts(s.bus, s.scanlineCycleCount)), CoincidenceInterrupts(s.bus, s.scanlineCycleCount)).bus,
      NewStatus(s.bus, s.scanlineCycleCount), other);
  }

  /** With the LCD off, the status shows mode 1, LY reads 0 and a full line of cycles is left. */
  lemma DisabledResets(s: State)
    requires !LcdEnabled(s.bus)
    ensures Read(SetLcdStatus(s).bus, STAT) & 3 == 1
    ensures Read(SetLcdStatus(s).bus, LY) == 0
    ensures SetLcdStatus(s).scanlineCycleCount == LINE_CYCLES
  {
    StatusWrite(Store(s.bus, LY, 0), BitReset(BitSet(Read(s.bus, STAT), 0), 1), LY);
  }

  /** Requesting the LCD status interrupt twice is requesting it once. */
  lemma RequestIfRequests(s: State, c: bool)
    ensures Requests(RequestIf(s, c)) == if c then BitSet(Requests(s), LCD_INTERRUPT) else Requests(s)
  {
    if c {
      FlagInterruptRequests(s, LCD_INTERRUPT);
    }
  }

  /** The status write leaves the request register alone. */
  lemma WriteStatusRequests(s: State, status: bv8)
    ensures Requests(WriteStatus(s, status)) == Requests(s)
  {
    StatusWrite(s.bus, status, REQUEST);
  }

  /**
   * With the LCD on, `setLCDStatus` requests the LCD status interrupt
   * exactly when an enabled mode is entered or LY reaches LYC with the
   * coincidence interrupt enabled, and requests nothing else.
   */
  lemma EnabledRequests(s: State)
    requires LcdEnabled(s.bus)
    ensures Requests(SetLcdStatus(s)) ==
      if ModeInterrupts(s.bus, s.scanlineCycleCount) || CoincidenceInterrupts(s.bus, s.scanlineCycleCount)
      then BitSet(Requests(s), LCD_INTERRUPT) else Requests(s)
  {
    RequestIfRequests(s, ModeInterrupts(s.bus, s.scanlineCycleCount));
    RequestIfRequests(RequestIf(s, ModeInterrupts(s.bus, s.scanlineCycleCount)), CoincidenceInterrupts(s.bus, s.scanlineCycleCount));
    WriteStatusRequests(RequestIf(RequestIf(s, ModeInterrupts(s.bus, s.scanlineCycleCount)), CoincidenceInterrupts(s.bus, s.scanlineCycleCount)),
      NewStatus(s.bus, s.scanlineCycleCount));
    NoChangeWhenAlready(BitSet(Requests(s), LCD_INTERRUPT), LCD_INTERRUPT);
  }

  /** With the LCD off, `setLCDStatus` requests nothing. */
  lemma DisabledRequests(s: State)
    requires !LcdEnabled(s.bus)
    ensures Requests(SetLcdStatus(s)) == Requests(s)
  {
    StoreKeepsIo(s.bus, LY, REQUEST, 0);
    WriteStatusRequests(s.(scanlineCycleCount := LINE_CYCLES, bus := Store(s.bus, LY, 0)), BitReset(BitSet(Read(s.bus, STAT), 0), 1));
  }

  /*
   * Scanlines.
   */

  /** After the move to the next scanline, LY lies in 0..153 whatever it was before. */
  lemma NextLineInRange(u: State)
    ensures Read(NextLine(u).bus, LY) <= 153
    ensures NextLine(u).scanlineCycleCount == LINE_CYCLES
  {
    var v := IncrementLine(u);
    if Read(v.bus, LY) == 144 {
      FlagKeepsLcd(v, VBLANK_INTERRUPT, LY);
    }
  }

  /**
   * A line before 153 moves on by one; line 153 or any past it goes back
   * to 0 (0xFF wraps to 0 in the byte and stays there).
   */
  lemma NextLineCounts(u: State)
    ensures Read(u.bus, LY) < 153 ==> Read(NextLine(u).bus, LY) == Read(u.bus, LY) + 1
    ensures Read(u.bus, LY) >= 153 ==> Read(NextLine(u).bus, LY) == 0
  {
    var v := IncrementLine(u);
    if Read(v.bus, LY) == 144 {
      FlagKeepsLcd(v, VBLANK_INTERRUPT, LY);
    }
  }

  /** The move to line 144 requests the vertical blank interrupt; any other move requests nothing. */
  lemma NextLineRequests(u: State)
    ensures Requests(NextLine(u)) ==
      if Read(u.bus, LY) == 143 then BitSet(Requests(u), VBLANK_INTERRUPT) else Requests(u)
  {
    var v := IncrementLine(u);
    StoreKeepsIo(u.bus, LY, REQUEST, u.bus.internalMem[Index(LY)] + 1);
    if Read(v.bus, LY) == 144 {
      FlagInterruptRequests(v, VBLANK_INTERRUPT);
    } else if Read(v.bus, LY) > 153 {
      StoreKeepsIo(v.bus, LY, REQUEST, 0);
    }
  }

  /** The scanline cycle counter stays in 1..456 when the cycle counts are not negative. */
  lemma AdvanceKeepsCount(u: State, cycles: int)
    requires 0 < u.scanlineCycleCount <= LINE_CYCLES && 0 <= cycles
    ensures 0 < Advance(u, cycles).scanlineCycleCount <= LINE_CYCLES
  {
    if LcdEnabled(u.bus) && u.scanlineCycleCount - cycles <= 0 {
      NextLineInRange(u);
    }
  }

  /** LY stays in 0..153 across `updateGraphics`. */
  lemma UpdateKeepsLine(s: State, cycles: int)
    requires Read(s.bus, LY) <= 153
    ensures Read(UpdateGraphics(s, cycles).bus, LY) <= 153
  {
    if LcdEnabled(s.bus) {
      EnabledStatus(s, LY);
    } else {
      DisabledResets(s);
    }
    if LcdEnabled(SetLcdStatus(s).bus) && SetLcdStatus(s).scanlineCycleCount - cycles <= 0 {
      NextLineInRange(SetLcdStatus(s));
    }
  }

  /** The scanline cycle counter stays in 1..456 across `updateGraphics`. */
  lemma UpdateKeepsCount(s: State, cycles: int)
    requires 0 < s.scanlineCycleCount <= LINE_CYCLES && 0 <= cycles
    ensures 0 < UpdateGraphics(s, cycles).scanlineCycleCount <= LINE_CYCLES
  {
    if LcdEnabled(s.bus) {
      EnabledStatus(s, LY);
    } else {
      DisabledResets(s);
    }
    AdvanceKeepsCount(SetLcdStatus(s), cycles);
  }
}

/**
 * The memory map (Emulator.cpp, `readMem`, `writeMem`, `handleBanking`,
 * the `doChange*`/`doRAMBank*` helpers and `doDMATransfer`): reads and
 * writes of the 64 KiB address space, the MBC1/MBC2 bank registers the
 * cartridge area controls, and the OAM DMA copy.
 */
module Memory {
  import opened Bits
  import opened Hardware
  import opened EmulatorState

  /*
   * Address decoding.
   */

  /**
   * The cartridge offset a read of the switchable ROM area reaches. The
   * source computes `currentROMBank * 0x4000 + (address - 0x4000)` in a
   * WORD, so only the two low bits of the bank survive: banks 4 and up
   * alias banks 0..3.
   */
  function RomAddress(bank: bv8, address: bv16): (i: bv16)
    requires 0x4000 <= address <= 0x7FFF
    ensures i == ((bank & 3) as bv16 << 14) | (address - 0x4000)
  {
    ((bank as bv16) << 14) + (address - 0x4000)
  }

  /**
   * The index of the RAM bank array a read or write of the external RAM
   * area reaches, `currentRAMBank * 0x2000 + (address - 0xA000)`. With at
   * most four banks the WORD the source computes it in does not wrap: the
   * bank picks the 0x2000-byte block and the address the byte inside it.
   */
  function RamIndex(bank: bv8, address: bv16): (i: nat)
    requires bank <= 3 && 0xA000 <= address <= 0xBFFF
    ensures bank as int * RAM_BANK_SIZE <= i < (bank as int + 1) * RAM_BANK_SIZE
    ensures i < RAM_BANKS_SIZE
  {
    IndexBelow(address - 0xA000, 0x20);
    bank as int * RAM_BANK_SIZE + Index(address - 0xA000)
  }

  /**
   * The joypad register as a read sees it: the upper nibble of 0xFF00 as
   * stored, and the lower nibble taken from the direction keys (bits 3..0
   * of the joypad state) when bit 4 selects them, else from the buttons
   * (bits 7..4) when bit 5 selects them, else 0.
   */
  function JoypadRegister(register: bv8, joypadState: bv8): (r: bv8)
    ensures r & 0xF0 == register & 0xF0
    ensures !IsBitSet(register, 4) ==> r & 0x0F == joypadState & 0x0F
    ensures IsBitSet(register, 4) && !IsBitSet(register, 5) ==> r & 0x0F == joypadState >> 4
    ensures IsBitSet(register, 4) && IsBitSet(register, 5) ==> r & 0x0F == 0
  {
    if !IsBitSet(register & 0xF0, 4) then (register & 0xF0) | (joypadState & 0x0F)
    else if !IsBitSet(register & 0xF0, 5) then (register & 0xF0) | (joypadState >> 4)
    else register & 0xF0
  }

  /**
   * `readMem`: the byte a read of `address` returns. The fixed ROM bank is
   * read from the copy in the internal memory, the echo area reads the work
   * RAM 0x2000 below it, and the unusable area reads as 0.
   */
  function Read(s: Bus, address: bv16): (b: bv8)
    ensures address < 0x4000 ==> b == s.internalMem[Index(address)]
    ensures 0xE000 <= address <= 0xFDFF ==> b == s.internalMem[Index(address) - 0x2000]
    ensures 0xFEA0 <= address <= 0xFEFF ==> b == 0
  {
    if 0x4000 <= address <= 0x7FFF then s.cartridgeMem[Index(RomAddress(s.currentROMBank, address))]
    else if 0xA000 <= address <= 0xBFFF then s.ramBanks[RamIndex(s.currentRAMBank, address)]
    else if 0xE000 <= address <= 0xFDFF then IndexBelowBy(address); s.internalMem[Index(address - 0x2000)]
    else if 0xFEA0 <= address <= 0xFEFF then 0
    else if address == 0xFF00 then JoypadRegister(s.internalMem[Index(0xFF00)], s.joypadState)
    else s.internalMem[Index(address)]
  }

  /*
   * The cartridge controller.
   */

  /**
   * `doRAMBankEnable`: a write of a value whose low nibble is 0xA enables
   * the external RAM, any other value disables it. Under MBC2 the write is
   * meant to be ignored when bit 8 of the address is set, but the test
   * passes the address through a BYTE, so it never is.
   */
  function RamBankEnable(s: Bus, address: bv16, data: bv8): (t: Bus)
    ensures t == s.(enableRAM := data & 0xF == 0xA)
  {
    if s.mbc2 && IsBitSet(Low(address), 8) then s
    else s.(enableRAM := data & 0xF == 0xA)
  }

  /**
   * `doChangeLoROMBank`: under MBC2 the bank becomes the low nibble of the
   * data, 0 read as 1; otherwise the low five bits of the bank become those
   * of the data, 0 read as 1, and bits 7..5 are kept.
   */
  function LoRomBank(bank: bv8, mbc2: bool, data: bv8): (r: bv8)
    ensures mbc2 ==> r == if data & 0xF == 0 then 1 else data & 0xF
    ensures !mbc2 ==> r & 0xE0 == bank & 0xE0
    ensures !mbc2 ==> r & 0x1F == if data & 0x1F == 0 then 1 else data & 0x1F
  {
    if mbc2 then (if data & 0xF == 0 then 1 else data & 0xF)
    else (bank & 0xE0) | (if data & 0x1F == 0 then 1 else data & 0x1F)
  }

  /**
   * `doChangeHiROMBank`: bits 6..5 of the bank become bits 1..0 of the
   * data, bit 7 is cleared and bits 4..0 are kept.
   */
  function HiRomBank(bank: bv8, data: bv8): (r: bv8)
    ensures r & 0x1F == bank & 0x1F
    ensures (r >> 5) & 3 == data & 3
    ensures r & 0x80 == 0
  {
    (bank & 0x1F) | ((data & 3) << 5)
  }

  /**
   * `doChangeROMRAMMode`: bit 0 clear selects ROM banking mode, which also
   * selects RAM bank 0; bit 0 set selects RAM banking mode.
   */
  function RomRamMode(s: Bus, data: bv8): (t: Bus)
    ensures t.romBanking == (data & 1 == 0)
    ensures t.currentRAMBank == if t.romBanking then 0 else s.currentRAMBank
    ensures t == s.(romBanking := t.romBanking, currentRAMBank := t.currentRAMBank)
  {
    if data & 1 == 0 then s.(romBanking := true, currentRAMBank := 0)
    else s.(romBanking := false)
  }

  /** `handleBanking`: what a write into the ROM area does to the controller. */
  function HandleBanking(s: Bus, address: bv16, data: bv8): (t: Bus)
    requires address < 0x8000
    ensures t == s.(currentROMBank := t.currentROMBank, currentRAMBank := t.currentRAMBank,
      enableRAM := t.enableRAM, romBanking := t.romBanking)
    ensures 0x4000 <= address && !s.mbc1 ==> t == s
  {
    if address < 0x2000 then RamBankEnable(s, address, data)
    else if address <= 0x3FFF then
      if s.mbc1 || !IsBitSet(Low(address), 8) then s.(currentROMBank := LoRomBank(s.currentROMBank, s.mbc2, data))
      else s
    else if address <= 0x5FFF then
      if !s.mbc1 then s
      else if s.romBanking then s.(currentROMBank := HiRomBank(s.currentROMBank, data))
      else s.(currentRAMBank := data & 3)
    else if s.mbc1 then RomRamMode(s, data)
    else s
  }

  /*
   * Timer control.
   */

  /**
   * The number of CPU cycles per TIMA increment for the clock select in
   * bits 1..0 of TAC: 00 is 4096 Hz, 01 is 262144 Hz, 10 is 65536 Hz and
   * 11 is 16384 Hz.
   */
  function TimerPeriod(select: bv8): (cycles: int)
    requires select <= 3
  {
    if select == 0 then 1024 else if select == 1 then 16 else if select == 2 then 64 else 256
  }

  /** The frequency in hertz that each clock select stands for. */
  function TimerFrequency(select: bv8): int
    requires select <= 3
  {
    if select == 0 then 4096 else if select == 1 then 262144 else if select == 2 then 65536 else 16384
  }

  /** The CPU runs at 4194304 cycles per second. */
  const CLOCK_SPEED: int := 4194304

  /** Each period counts the cycles of one tick at its frequency. */
  lemma TimerPeriodMatchesFrequency(select: bv8)
    requires select <= 3
    ensures TimerPeriod(select) * TimerFrequency(select) == CLOCK_SPEED
  {
  }

  /**
   * A write to TAC stores the data; when it changes the clock select both
   * the timer counter and its reload value become the new period.
   */
  function WriteTac(s: Bus, data: bv8): (t: Bus)
    ensures t.internalMem == s.internalMem[Index(TAC) := data]
    ensures t == s.(internalMem := t.internalMem, timerCounter := t.timerCounter, timerUpdateConstant := t.timerUpdateConstant)
    ensures t.timerCounter == t.timerUpdateConstant || t == s.(internalMem := t.internalMem)
  {
    if s.internalMem[Index(TAC)] & 3 != data & 3 then
      Store(s, TAC, data).(timerCounter := TimerPeriod(data & 3), timerUpdateConstant := TimerPeriod(data & 3))
    else Store(s, TAC, data)
  }

  /*
   * Writes.
   */

  /** A write of the external RAM area: into the selected bank when the RAM is enabled, else nothing. */
  function WriteRam(s: Bus, address: bv16, data: bv8): (t: Bus)
    requires 0xA000 <= address <= 0xBFFF
    ensures t == s.(ramBanks := t.ramBanks)
    ensures s.enableRAM ==> t.ramBanks[RamIndex(s.currentRAMBank, address)] == data
    ensures forall i :: 0 <= i < RAM_BANKS_SIZE && i != RamIndex(s.currentRAMBank, address) ==> t.ramBanks[i] == s.ramBanks[i]
  {
    if s.enableRAM then s.(ramBanks := s.ramBanks[RamIndex(s.currentRAMBank, address) := data]) else s
  }

  /**
   * `writeMem`: the state after a write of `data` to `address`. A write to
   * the echo area calls `writeMem` again 0x2000 lower, which lands in the
   * work RAM and stores there; that store is written out directly.
   */
  function Write(s: Bus, address: bv16, data: bv8): (t: Bus)
    ensures t.cartridgeMem == s.cartridgeMem && t.joypadState == s.joypadState
    ensures address < 0x8000 ==> t.internalMem == s.internalMem && t.ramBanks == s.ramBanks
    ensures 0x8000 <= address ==> t.currentROMBank == s.currentROMBank && t.enableRAM == s.enableRAM
  {
    if address < 0x8000 then HandleBanking(s, address, data)
    else if 0xA000 <= address <= 0xBFFF then
      WriteRam(s, address, data)
    else if 0xE000 <= address <= 0xFDFF then Store(s, address - 0x2000, data)
    else if 0xFEA0 <= address <= 0xFEFF then s
    else if address == DIVIDER then Store(s, DIVIDER, 0)
    else if address == TAC then WriteTac(s, data)
    else if address == 0xFF44 then Store(s, 0xFF44, 0)
    else if address == 0xFF46 then Dma(s, (data as bv16) << 8, OAM_LENGTH)
    else Store(s, address, data)
  }

  /*
   * OAM DMA.
   */

  /** The first byte of the sprite attribute table and the length of a DMA copy. */
  const OAM: bv16 := 0xFE00
  const OAM_LENGTH: bv16 := 0xA0

  /**
   * `doDMATransfer` after its first `n` steps: step `i` reads `source + i`
   * and writes it to `OAM + i`. A write into the sprite table is a plain
   * store (`WriteIntoOam`), so the copy is written with `Store`.
   */
  function Dma(s: Bus, source: bv16, n: bv16): (t: Bus)
    requires n <= OAM_LENGTH
    ensures t == s.(internalMem := t.internalMem)
    decreases n
  {
    if n == 0 then s
    else Store(Dma(s, source, n - 1), OAM + (n - 1), Read(Dma(s, source, n - 1), source + (n - 1)))
  }

  /** Writing into the sprite attribute table stores the byte and nothing else. */
  lemma WriteIntoOam(s: Bus, i: bv16, data: bv8)
    requires i < OAM_LENGTH
    ensures Write(s, OAM + i, data) == Store(s, OAM + i, data)
  {
  }

  /** Step `n` of the copy is the `writeMem` of the byte read at `source + n` into `OAM + n`. */
  lemma DmaNext(s: Bus, source: bv16, n: bv16)
    requires n < OAM_LENGTH
    ensures Dma(s, source, n + 1) == Write(Dma(s, source, n), OAM + n, Read(Dma(s, source, n), source + n))
  {
    WriteIntoOam(Dma(s, source, n), n, Read(Dma(s, source, n), source + n));
  }

  /** A store changes only the cell it stores into. */
  lemma StoreOther(s: Bus, address: bv16, other: bv16, data: bv8)
    requires other != address
    ensures Store(s, address, data).internalMem[Index(other)] == s.internalMem[Index(other)]
  {
    IndexInjective(address, other);
  }

  /** Step `n` writes the byte it read into `OAM + n - 1`. */
  lemma DmaStepWrites(s: Bus, source: bv16, n: bv16)
    requires 0 < n <= OAM_LENGTH
    ensures Dma(s, source, n).internalMem[Index(OAM + (n - 1))] == Read(Dma(s, source, n - 1), source + (n - 1))
  {
  }

  /** Step `n` changes no other byte of the internal memory. */
  lemma DmaStepKeeps(s: Bus, source: bv16, n: bv16, a: bv16)
    requires 0 < n <= OAM_LENGTH && a != OAM + (n - 1)
    ensures Dma(s, source, n).internalMem[Index(a)] == Dma(s, source, n - 1).internalMem[Index(a)]
  {
    StoreOther(Dma(s, source, n - 1), OAM + (n - 1), a, Read(Dma(s, source, n - 1), source + (n - 1)));
  }

  /**
   * A copy from a multiple of 0x100 never reads, at a later step `j`, the
   * byte an earlier step `i` has written.
   */
  lemma SourceAhead(s: Bus, source: bv16, i: bv16, j: bv16, data: bv8)
    requires source & 0xFF == 0 && i < j < OAM_LENGTH
    ensures Read(Store(s, OAM + i, data), source + j) == Read(s, source + j)
  {
    assert source + j != OAM + i;
    ReadOtherAfterStore(s, OAM + i, source + j, data);
  }

  /** Step `n` does not change what the later steps read. */
  lemma DmaStepReads(s: Bus, source: bv16, n: bv16, j: bv16)
    requires source & 0xFF == 0 && 0 < n <= j < OAM_LENGTH
    ensures Read(Dma(s, source, n), source + j) == Read(Dma(s, source, n - 1), source + j)
  {
    SourceAhead(Dma(s, source, n - 1), source, n - 1, j, Read(Dma(s, source, n - 1), source + (n - 1)));
  }

  /** The first `n` steps leave every byte but their targets as it was. */
  lemma {:induction false} DmaKeeps(s: Bus, source: bv16, n: bv16, a: bv16)
    requires n <= OAM_LENGTH && a - OAM >= n
    ensures Dma(s, source, n).internalMem[Index(a)] == s.internalMem[Index(a)]
    decreases n
  {
    if n > 0 {
      DmaStepKeeps(s, source, n, a);
      DmaKeeps(s, source, n - 1, a);
    }
  }

  /** The bytes the copy has still to read read as they did before it started. */
  lemma {:induction false} DmaReadsAhead(s: Bus, source: bv16, n: bv16, j: bv16)
    requires source & 0xFF == 0 && n <= j < OAM_LENGTH
    ensures Read(Dma(s, source, n), source + j) == Read(s, source + j)
    decreases n
  {
    if n > 0 {
      DmaStepReads(s, source, n, j);
      DmaReadsAhead(s, source, n - 1, j);
    }
  }

  /** After `n` steps, byte `j < n` of the table holds what `source + j` read before the copy. */
  lemma {:induction false} DmaWrites(s: Bus, source: bv16, n: bv16, j: bv16)
    requires source & 0xFF == 0 && j < n <= OAM_LENGTH
    ensures Dma(s, source, n).internalMem[Index(OAM + j)] == Read(s, source + j)
    decreases n
  {
    if j == n - 1 {
      DmaStepWrites(s, source, n);
      DmaReadsAhead(s, source, n - 1, j);
    } else {
      DmaStepKeeps(s, source, n, OAM + j);
      DmaWrites(s, source, n - 1, j);
    }
  }

  /** A read of the sprite attribute table reads the internal memory. */
  lemma ReadOam(s: Bus, address: bv16)
    requires OAM <= address < OAM + OAM_LENGTH
    ensures Read(s, address) == s.internalMem[Index(address)]
  {
  }

  /** After the copy, each byte of the table reads as its source byte did. */
  lemma DmaByte(s: Bus, source: bv16, address: bv16)
    requires source & 0xFF == 0 && OAM <= address < OAM + OAM_LENGTH
    ensures Read(Dma(s, source, OAM_LENGTH), address) == Read(s, source + (address - OAM))
  {
    DmaWrites(s, source, OAM_LENGTH, address - OAM);
    assert OAM + (address - OAM) == address;
    ReadOam(Dma(s, source, OAM_LENGTH), address);
  }

  /** A write to 0xFF46 runs the copy from `data`·0x100. */
  lemma WriteStartsDma(s: Bus, data: bv8)
    ensures Write(s, 0xFF46, data) == Dma(s, (data as bv16) << 8, OAM_LENGTH)
    ensures ((data as bv16) << 8) & 0xFF == 0
  {
  }

  /**
   * A write to 0xFF46 copies the 160 bytes from `data`·0x100 on into the
   * sprite attribute table, 0xFF46 itself left as it was.
   */
  lemma DmaCopies(s: Bus, data: bv8)
    ensures forall a: bv16 :: OAM <= a < OAM + OAM_LENGTH ==>
      Read(Write(s, 0xFF46, data), a) == Read(s, ((data as bv16) << 8) + (a - OAM))
  {
    WriteStartsDma(s, data);
    var t := Dma(s, (data as bv16) << 8, OAM_LENGTH);
    forall a: bv16 | OAM <= a < OAM + OAM_LENGTH
      ensures Read(t, a) == Read(s, ((data as bv16) << 8) + (a - OAM))
    {
      DmaByte(s, (data as bv16) << 8, a);
    }
  }

  /** A DMA changes no byte outside the sprite attribute table and nothing but the internal memory. */
  lemma DmaChangesOnlyOam(s: Bus, data: bv8)
    ensures Write(s, 0xFF46, data) == s.(internalMem := Write(s, 0xFF46, data).internalMem)
    ensures forall a: bv16 :: !(OAM <= a < OAM + OAM_LENGTH) ==>
      Write(s, 0xFF46, data).internalMem[Index(a)] == s.internalMem[Index(a)]
  {
    WriteStartsDma(s, data);
    var t := Dma(s, (data as bv16) << 8, OAM_LENGTH);
    forall a: bv16 | !(OAM <= a < OAM + OAM_LENGTH)
      ensures t.internalMem[Index(a)] == s.internalMem[Index(a)]
    {
      DmaKeeps(s, (data as bv16) << 8, OAM_LENGTH, a);
    }
  }

  /*
   * Reads after writes.
   */

  /**
   * The addresses a write stores into and a read returns as they are: the
   * video RAM, the work RAM, the sprite attribute table and the I/O and
   * high RAM area except the joypad register, DIVIDER, TAC, LY (0xFF44) and
   * the DMA register (0xFF46).
   */
  predicate Plain(address: bv16)
  {
    || 0x8000 <= address <= 0x9FFF
    || 0xC000 <= address <= 0xDFFF
    || 0xFE00 <= address <= 0xFE9F
    || (0xFF00 < address && address != DIVIDER && address != TAC && address != 0xFF44 && address != 0xFF46)
  }

  /**
   * A store into the sprite attribute table leaves every other address
   * reading as it did.
   */
  lemma ReadOtherAfterStore(s: Bus, address: bv16, other: bv16, data: bv8)
    requires OAM <= address < OAM + OAM_LENGTH && other != address
    ensures Read(Store(s, address, data), other) == Read(s, other)
  {
    IndexInjective(address, other);
    if 0xE000 <= other <= 0xFDFF {
      IndexInjective(address, other - 0x2000);
    }
    IndexInjective(address, 0xFF00);
  }

  /** At a plain address, a write is a store. */
  lemma WritePlain(s: Bus, address: bv16, data: bv8)
    requires Plain(address)
    ensures Write(s, address, data) == Store(s, address, data)
  {
  }

  /** A plain address reads back what was last written to it. */
  lemma ReadAfterWrite(s: Bus, address: bv16, data: bv8)
    requires Plain(address)
    ensures Read(Write(s, address, data), address) == data
  {
    WritePlain(s, address, data);
  }

  /**
   * A write to a plain address leaves every other address reading as it
   * did, except its echo 0x2000 above it.
   */
  lemma ReadOtherAfterWrite(s: Bus, address: bv16, other: bv16, data: bv8)
    requires Plain(address) && other != address
    requires !(0xE000 <= other <= 0xFDFF && other - 0x2000 == address)
    ensures Read(Write(s, address, data), other) == Read(s, other)
  {
    WritePlain(s, address, data);
    IndexInjective(address, other);
    if 0xE000 <= other <= 0xFDFF {
      IndexInjective(address, other - 0x2000);
    }
    IndexInjective(address, 0xFF00);
  }

  /** A write to the echo area is a write to the work RAM 0x2000 below, and both read it back. */
  lemma EchoMirrorsWorkRam(s: Bus, address: bv16, data: bv8)
    requires 0xE000 <= address <= 0xFDFF
    ensures Write(s, address, data) == Write(s, address - 0x2000, data)
    ensures Read(Write(s, address, data), address) == data
    ensures Read(Write(s, address, data), address - 0x2000) == data
  {
    WritePlain(s, address - 0x2000, data);
  }

  /** A write to DIVIDER or to LY (0xFF44) stores 0 whatever the data. */
  lemma WriteResetsCounters(s: Bus, data: bv8)
    ensures Write(s, DIVIDER, data) == Store(s, DIVIDER, 0)
    ensures Write(s, 0xFF44, data) == Store(s, 0xFF44, 0)
  {
  }

  /** A write to the unusable area 0xFEA0..0xFEFF changes nothing, and the area reads as 0. */
  lemma UnusableArea(s: Bus, address: bv16, data: bv8)
    requires 0xFEA0 <= address <= 0xFEFF
    ensures Write(s, address, data) == s
    ensures Read(s, address) == 0
  {
  }

  /**
   * A write to TAC stores the data, and sets the timer counter and its
   * reload value to the period of the new clock select exactly when the
   * select changes.
   */
  lemma WriteTacPeriod(s: Bus, data: bv8)
    ensures Write(s, TAC, data).internalMem[Index(TAC)] == data
    ensures s.internalMem[Index(TAC)] & 3 != data & 3 ==>
      Write(s, TAC, data).timerCounter == TimerPeriod(data & 3) &&
      Write(s, TAC, data).timerUpdateConstant == TimerPeriod(data & 3)
    ensures s.internalMem[Index(TAC)] & 3 == data & 3 ==> Write(s, TAC, data) == Store(s, TAC, data)
  {
  }

  /*
   * Banking.
   */

  /** Banks 4 and up read the same bytes as the bank their two low bits name. */
  lemma RomBanksAlias(s: Bus, address: bv16)
    requires 0x4000 <= address <= 0x7FFF
    ensures Read(s, address) == Read(s.(currentROMBank := s.currentROMBank & 3), address)
  {
  }

  /**
   * A write to 0x2000..0x3FFF selects a ROM bank whichever controller the
   * cartridge has, the bit-8 test meant for MBC2 never holding; under MBC1
   * (or none) the low five bits of the bank are never 0 afterwards.
   */
  lemma LoRomBankWrite(s: Bus, address: bv16, data: bv8)
    requires 0x2000 <= address <= 0x3FFF
    ensures Write(s, address, data) == s.(currentROMBank := LoRomBank(s.currentROMBank, s.mbc2, data))
    ensures !s.mbc2 ==> Write(s, address, data).currentROMBank & 0x1F != 0
  {
  }

  /**
   * Under MBC1, a write to 0x4000..0x5FFF replaces bits 6..5 of the ROM bank
   * in ROM banking mode and selects RAM bank `data & 3` in RAM banking mode.
   */
  lemma HiBankWrite(s: Bus, address: bv16, data: bv8)
    requires 0x4000 <= address <= 0x5FFF && s.mbc1
    ensures s.romBanking ==> Write(s, address, data) == s.(currentROMBank := HiRomBank(s.currentROMBank, data))
    ensures !s.romBanking ==> Write(s, address, data) == s.(currentRAMBank := data & 3)
  {
  }

  /** A write into the ROM area never leaves the RAM bank outside 0..3, and mode 0 selects bank 0. */
  lemma ModeWrite(s: Bus, address: bv16, data: bv8)
    requires 0x6000 <= address <= 0x7FFF && s.mbc1
    ensures Write(s, address, data).romBanking == (data & 1 == 0)
    ensures data & 1 == 0 ==> Write(s, address, data).currentRAMBank == 0
    ensures Write(s, address, data).currentRAMBank <= 3
  {
  }

  /** Only a write of 0xA in the low nibble enables the external RAM; RAM writes are dropped while it is disabled. */
  lemma RamEnableWrite(s: Bus, address: bv16, data: bv8, other: bv16, value: bv8)
    requires address < 0x2000 && 0xA000 <= other <= 0xBFFF
    ensures Write(s, address, data).enableRAM == (data & 0xF == 0xA)
    ensures !s.enableRAM ==> Write(s, other, value) == s
  {
  }
}

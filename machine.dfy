/**
 * The `Emulator` object of Emulator.hpp with its fields updated in place.
 * The register pairs, counters and switches are fields; the internal
 * memory, the cartridge and the RAM banks are arrays of their declared
 * sizes. `Snapshot` reads the object as the `State` value the other
 * modules specify, and each method states the new state as the function
 * of the old one that specifies it there.
 */
module Machine {
  import opened Bits
  import opened Hardware
  import opened EmulatorState
  import Memory
  import Stack
  import Interrupts
  import Timers
  import Joypad
  import Graphics
  import Boot
  import Cpu
  import Decode

  class Emulator {
    var regAF: bv16
    var regBC: bv16
    var regDE: bv16
    var regHL: bv16
    var stackPointer: bv16
    var programCounter: bv16

    const internalMem: array<bv8>
    const cartridgeMem: array<bv8>
    const ramBanks: array<bv8>

    var currentROMBank: bv8
    var currentRAMBank: bv8
    var enableRAM: bool
    var mbc1: bool
    var mbc2: bool
    var romBanking: bool

    var timerCounter: int
    var timerUpdateConstant: int
    var dividerCounter: int

    var interruptMasterEnabled: bool
    var isHalted: bool
    var joypadState: bv8
    var scanlineCycleCount: int

    /** The arrays have their declared sizes and the RAM bank register names one of the four banks. */
    ghost predicate Valid()
      reads this
    {
      Sized() && currentRAMBank <= 3
    }

    /** The three arrays have the sizes Emulator.hpp declares. */
    ghost predicate Sized()
    {
      && internalMem.Length == INTERNAL_SIZE
      && cartridgeMem.Length == CARTRIDGE_SIZE
      && ramBanks.Length == RAM_BANKS_SIZE
    }

    /** The fields the memory map reads and writes, as a value. */
    function Bus(): Bus
      reads this, internalMem, cartridgeMem, ramBanks
      requires Valid()
    {
      BusState(internalMem[..], cartridgeMem[..], ramBanks[..], currentROMBank, currentRAMBank,
        enableRAM, mbc1, mbc2, romBanking, timerCounter, timerUpdateConstant, joypadState)
    }

    /** The whole object as a value. */
    function Snapshot(): State
      reads this, internalMem, cartridgeMem, ramBanks
      requires Valid()
    {
      State(regAF, regBC, regDE, regHL, stackPointer, programCounter, Bus(),
        dividerCounter, interruptMasterEnabled, isHalted, scanlineCycleCount)
    }

    /** The object before `resetCPU`: every register, counter, switch and memory cell zero, as a value-initialised `Emulator` is. */
    constructor()
      ensures Valid() && fresh(internalMem) && fresh(cartridgeMem) && fresh(ramBanks)
      ensures regAF == 0 && regBC == 0 && regDE == 0 && regHL == 0 && stackPointer == 0 && programCounter == 0
      ensures currentROMBank == 0 && currentRAMBank == 0 && !enableRAM && !mbc1 && !mbc2 && !romBanking
      ensures timerCounter == 0 && timerUpdateConstant == 0 && dividerCounter == 0
      ensures !interruptMasterEnabled && !isHalted && joypadState == 0 && scanlineCycleCount == 0
      ensures forall i :: 0 <= i < INTERNAL_SIZE ==> internalMem[i] == 0
      ensures forall i :: 0 <= i < CARTRIDGE_SIZE ==> cartridgeMem[i] == 0
      ensures forall i :: 0 <= i < RAM_BANKS_SIZE ==> ramBanks[i] == 0
    {
      regAF, regBC, regDE, regHL, stackPointer, programCounter := 0, 0, 0, 0, 0, 0;
      currentROMBank, currentRAMBank := 0, 0;
      enableRAM, mbc1, mbc2, romBanking := false, false, false, false;
      timerCounter, timerUpdateConstant, dividerCounter := 0, 0, 0;
      interruptMasterEnabled, isHalted, joypadState, scanlineCycleCount := false, false, 0, 0;
      internalMem := new bv8[INTERNAL_SIZE](_ => 0);
      cartridgeMem := new bv8[CARTRIDGE_SIZE](_ => 0);
      ramBanks := new bv8[RAM_BANKS_SIZE](_ => 0);
    }

    /*
     * Power-on and the fetch of the next opcode.
     */

    /** `resetCPU`. */
    method ResetCpu()
      requires Valid()
      modifies this, internalMem, ramBanks
      ensures Valid()
      ensures Snapshot() == Boot.Reset(old(Snapshot()))
    {
      SetRegisters(0x01B0, 0x0013, 0x00D8, 0x014D, 0xFFFE, 0x100);
      InitialiseIoRegisters();
      SelectMapper();
      ResetBanks();
      SetTimerCounters(1024, 1024, 0);
      SetLatches(false, false);
      SetJoypadAndScanline(0xFF, 456);
    }

    /** Sets the register pairs, the stack pointer and the program counter. */
    method SetRegisters(af: bv16, bc: bv16, de: bv16, hl: bv16, sp: bv16, pc: bv16)
      requires Valid()
      modifies this
      ensures Valid()
      ensures Snapshot() == old(Snapshot()).(regAF := af, regBC := bc, regDE := de, regHL := hl,
        stackPointer := sp, programCounter := pc)
    {
      SetPairs(af, bc, de);
      SetPointers(hl, sp, pc);
    }

    /** Sets the register pairs AF, BC and DE. */
    method SetPairs(af: bv16, bc: bv16, de: bv16)
      requires Valid()
      modifies this
      ensures Valid()
      ensures Snapshot() == old(Snapshot()).(regAF := af, regBC := bc, regDE := de)
    {
      regAF := af;
      regBC := bc;
      regDE := de;
    }

    /** Sets HL, the register pair that addresses memory, the stack pointer and the program counter. */
    method SetPointers(hl: bv16, sp: bv16, pc: bv16)
      requires Valid()
      modifies this
      ensures Valid()
      ensures Snapshot() == old(Snapshot()).(regHL := hl, stackPointer := sp, programCounter := pc)
    {
      regHL := hl;
      stackPointer := sp;
      programCounter := pc;
    }

    /** The bank part of `resetCPU`: ROM bank 1, the RAM banks cleared, RAM bank 0. */
    method ResetBanks()
      requires Valid()
      modifies this, ramBanks
      ensures Valid()
      ensures Snapshot() == old(Snapshot()).(bus := old(Bus()).(
        currentROMBank := 1, ramBanks := seq(RAM_BANKS_SIZE, _ => 0), currentRAMBank := 0))
    {
      currentROMBank := 1;
      forall i | 0 <= i < ramBanks.Length {
        ramBanks[i] := 0;
      }
      assert ramBanks[..] == seq(RAM_BANKS_SIZE, _ => 0);
      currentRAMBank := 0;
    }

    /** Sets the timer's period and count and the divider's count. */
    method SetTimerCounters(constant: int, counter: int, divider: int)
      requires Valid()
      modifies this
      ensures Valid()
      ensures Snapshot() == old(Snapshot()).(
        bus := old(Bus()).(timerUpdateConstant := constant, timerCounter := counter), dividerCounter := divider)
    {
      timerUpdateConstant := constant;
      timerCounter := counter;
      dividerCounter := divider;
    }

    /** Sets the interrupt master switch and the halt latch. */
    method SetLatches(ime: bool, halted: bool)
      requires Valid()
      modifies this
      ensures Valid()
      ensures Snapshot() == old(Snapshot()).(interruptMasterEnabled := ime, isHalted := halted)
    {
      interruptMasterEnabled := ime;
      isHalted := halted;
    }

    /** Sets the joypad byte and the scanline cycle counter. */
    method SetJoypadAndScanline(joypad: bv8, scanline: int)
      requires Valid()
      modifies this
      ensures Valid()
      ensures Snapshot() == old(Snapshot()).(bus := old(Bus()).(joypadState := joypad), scanlineCycleCount := scanline)
    {
      joypadState := joypad;
      scanlineCycleCount := scanline;
    }

    /** Sets the mapper switches. */
    method SetMapper(isMbc1: bool, isMbc2: bool)
      requires Valid()
      modifies this
      ensures Valid()
      ensures Snapshot() == old(Snapshot()).(bus := old(Bus()).(mbc1 := isMbc1, mbc2 := isMbc2))
    {
      mbc1 := isMbc1;
      mbc2 := isMbc2;
    }

    /** Sets the bank registers, the RAM-enable switch and the banking mode. */
    method SetBanking(romBank: bv8, ramBank: bv8, ramEnabled: bool, banking: bool)
      requires Valid() && ramBank <= 3
      modifies this
      ensures Valid()
      ensures Snapshot() == old(Snapshot()).(bus := old(Bus()).(
        currentROMBank := romBank, currentRAMBank := ramBank, enableRAM := ramEnabled, romBanking := banking))
    {
      SetBankRegisters(romBank, ramBank);
      SetBankingSwitches(ramEnabled, banking);
    }

    /** Sets the ROM and RAM bank registers. */
    method SetBankRegisters(romBank: bv8, ramBank: bv8)
      requires Valid() && ramBank <= 3
      modifies this
      ensures Valid()
      ensures Snapshot() == old(Snapshot()).(bus := old(Bus()).(currentROMBank := romBank, currentRAMBank := ramBank))
    {
      currentROMBank := romBank;
      currentRAMBank := ramBank;
    }

    /** Sets the RAM-enable switch and the banking mode. */
    method SetBankingSwitches(ramEnabled: bool, banking: bool)
      requires Valid()
      modifies this
      ensures Valid()
      ensures Snapshot() == old(Snapshot()).(bus := old(Bus()).(enableRAM := ramEnabled, romBanking := banking))
    {
      enableRAM := ramEnabled;
      romBanking := banking;
    }

    /** The stores of `resetCPU` to the I/O registers, in its order. */
    method InitialiseIoRegisters()
      requires Valid()
      modifies internalMem
      ensures internalMem[..] == Boot.Initialise(old(internalMem[..]), Boot.IO_RESET)
    {
      var k := 0;
      while k < |Boot.IO_RESET|
        invariant 0 <= k <= |Boot.IO_RESET|
        invariant internalMem[..] == Boot.Initialise(old(internalMem[..]), Boot.IO_RESET[..k])
      {
        internalMem[Boot.IO_RESET[k].address] := Boot.IO_RESET[k].value;
        assert Boot.IO_RESET[..k + 1][..k] == Boot.IO_RESET[..k];
        k := k + 1;
      }
      assert Boot.IO_RESET[..k] == Boot.IO_RESET;
    }

    /** The switch of `resetCPU` on the cartridge type byte. */
    method SelectMapper()
      requires Valid()
      modifies this
      ensures Valid()
      ensures Snapshot() == old(Snapshot()).(bus := old(Bus()).(
        mbc1 := Boot.Mapper(cartridgeMem[Boot.CARTRIDGE_TYPE]).0,
        mbc2 := Boot.Mapper(cartridgeMem[Boot.CARTRIDGE_TYPE]).1))
    {
      var isMbc1, isMbc2 := false, false;
      match cartridgeMem[Boot.CARTRIDGE_TYPE] {
        case 1 => isMbc1 := true;
        case 2 => isMbc1 := true;
        case 3 => isMbc1 := true;
        case 5 => isMbc2 := true;
        case 6 => isMbc2 := true;
        case _ =>
      }
      SetMapper(isMbc1, isMbc2);
    }

    /** `loadGame`, with the file's bytes given as `rom`; it always reports success. */
    method LoadGame(rom: seq<bv8>) returns (loaded: bool)
      requires Valid() && |rom| <= CARTRIDGE_SIZE
      modifies internalMem, cartridgeMem
      ensures Valid() && loaded
      ensures Snapshot() == Boot.Load(old(Snapshot()), rom)
    {
      ReadCartridge(rom);
      forall i | 0 <= i < Boot.ROM_WINDOW {
        internalMem[i] := cartridgeMem[i];
      }
      assert internalMem[..] == Boot.Cartridge(rom)[..Boot.ROM_WINDOW] + old(internalMem[..])[Boot.ROM_WINDOW..];
      loaded := true;
    }

    /** The cartridge array cleared, then the file's bytes read into its start. */
    method ReadCartridge(rom: seq<bv8>)
      requires Valid() && |rom| <= CARTRIDGE_SIZE
      modifies cartridgeMem
      ensures cartridgeMem[..] == Boot.Cartridge(rom)
    {
      forall i | 0 <= i < cartridgeMem.Length {
        cartridgeMem[i] := 0;
      }
      forall i | 0 <= i < |rom| {
        cartridgeMem[i] := rom[i];
      }
      assert cartridgeMem[..] == Boot.Cartridge(rom);
    }

    /** `executeNextOpcode`: the cycles the opcode took, and the state its handler leaves. */
    method ExecuteNextOpcode() returns (cycles: int)
      requires Valid()
      modifies this, internalMem, cartridgeMem, ramBanks
      ensures Valid()
      ensures match Decode.ExecuteNextOpcode(old(Snapshot()))
        case Executed(step) => Snapshot() == step.state && cycles == step.cycles
        case Undefined(t) => Snapshot() == t
    {
      ghost var s0 := Snapshot();
      var opcode := ReadMem(programCounter);
      if isHalted {
        cycles := 4;
      } else {
        StepPastOpcode();
        var outcome := Decode.ExecuteOpcode(Snapshot(), opcode);
        assert outcome == Decode.ExecuteNextOpcode(s0);
        match outcome
        case Executed(step) =>
          Restore(step.state);
          cycles := step.cycles;
        case Undefined(t) =>
          Restore(t);
          cycles := 0;
      }
    }

    /** The program counter moved past the opcode just read. */
    method StepPastOpcode()
      requires Valid()
      modifies this
      ensures Valid()
      ensures Snapshot() == Cpu.Skip(old(Snapshot()), 1)
    {
      SetPointers(regHL, stackPointer, programCounter + 1);
    }

    /** Puts the object into state `t`: how the result of an opcode handler is applied. */
    method Restore(t: State)
      requires Valid()
      modifies this, internalMem, cartridgeMem, ramBanks
      ensures Valid() && Snapshot() == t
    {
      CopyMemory(t.bus);
      RestoreFields(t);
    }

    /** Puts the registers, switches and counters of `t` into the object, whose memory already is that of `t`. */
    method RestoreFields(t: State)
      requires Valid()
      requires internalMem[..] == t.bus.internalMem && cartridgeMem[..] == t.bus.cartridgeMem && ramBanks[..] == t.bus.ramBanks
      modifies this
      ensures Valid() && Snapshot() == t
    {
      SetRegisters(t.regAF, t.regBC, t.regDE, t.regHL, t.stackPointer, t.programCounter);
      SetBanking(t.bus.currentROMBank, t.bus.currentRAMBank, t.bus.enableRAM, t.bus.romBanking);
      SetMapper(t.bus.mbc1, t.bus.mbc2);
      SetTimerCounters(t.bus.timerUpdateConstant, t.bus.timerCounter, t.dividerCounter);
      SetLatches(t.interruptMasterEnabled, t.isHalted);
      SetJoypadAndScanline(t.bus.joypadState, t.scanlineCycleCount);
    }

    /** Copies the three memory arrays of `b`. */
    method CopyMemory(b: Bus)
      requires Valid()
      modifies internalMem, cartridgeMem, ramBanks
      ensures Valid()
      ensures Snapshot() == old(Snapshot()).(bus := old(Bus()).(
        internalMem := b.internalMem, cartridgeMem := b.cartridgeMem, ramBanks := b.ramBanks))
    {
      forall i | 0 <= i < internalMem.Length {
        internalMem[i] := b.internalMem[i];
      }
      forall i | 0 <= i < cartridgeMem.Length {
        cartridgeMem[i] := b.cartridgeMem[i];
      }
      forall i | 0 <= i < ramBanks.Length {
        ramBanks[i] := b.ramBanks[i];
      }
      assert internalMem[..] == b.internalMem;
      assert cartridgeMem[..] == b.cartridgeMem;
      assert ramBanks[..] == b.ramBanks;
    }

    /*
     * The memory map.
     */

    /** `getJoypadState`: the stored upper nibble of 0xFF00 and the selected group of keys below it. */
    function GetJoypadState(): (r: bv8)
      reads this, internalMem
      requires Valid()
      ensures r == Memory.JoypadRegister(internalMem[Index(0xFF00)], joypadState)
    {
      if !IsBitSet(internalMem[Index(0xFF00)] & 0xF0, 4) then (internalMem[Index(0xFF00)] & 0xF0) | (joypadState & 0x0F)
      else if !IsBitSet(internalMem[Index(0xFF00)] & 0xF0, 5) then (internalMem[Index(0xFF00)] & 0xF0) | (joypadState >> 4)
      else internalMem[Index(0xFF00)] & 0xF0
    }

    /** `readMem`. */
    function ReadMem(address: bv16): (r: bv8)
      reads this, internalMem, cartridgeMem, ramBanks
      requires Valid()
      ensures r == Memory.Read(Bus(), address)
    {
      if 0x4000 <= address <= 0x7FFF then cartridgeMem[Index(Memory.RomAddress(currentROMBank, address))]
      else if 0xA000 <= address <= 0xBFFF then ramBanks[Memory.RamIndex(currentRAMBank, address)]
      else if 0xE000 <= address <= 0xFDFF then IndexBelowBy(address); internalMem[Index(address - 0x2000)]
      else if 0xFEA0 <= address <= 0xFEFF then 0
      else if address == 0xFF00 then GetJoypadState()
      else internalMem[Index(address)]
    }

    /** The recursion of `writeMem`: an echo write calls it once more, a write to 0xFF46 runs the DMA copy, which calls it for OAM. */
    function WriteRank(address: bv16): nat
    {
      if address == 0xFF46 then 2 else if 0xE000 <= address <= 0xFDFF then 1 else 0
    }

    /** `writeMem`. */
    method WriteMem(address: bv16, data: bv8)
      requires Valid()
      modifies this, internalMem, ramBanks
      ensures Valid()
      ensures Snapshot() == old(Snapshot()).(bus := Memory.Write(old(Bus()), address, data))
      decreases WriteRank(address), 0
    {
      if address < 0x8000 {
        HandleBanking(address, data);
      } else if 0xA000 <= address <= 0xBFFF {
        WriteExternalRam(address, data);
      } else if 0xE000 <= address <= 0xFDFF {
        Memory.EchoMirrorsWorkRam(Bus(), address, data);
        WriteMem(address - 0x2000, data);
      } else if 0xFEA0 <= address <= 0xFEFF {
      } else if address == DIVIDER {
        StoreByte(DIVIDER, 0);
      } else if address == TAC {
        WriteTimerControl(data);
      } else if address == 0xFF44 {
        StoreByte(0xFF44, 0);
      } else if address == 0xFF46 {
        DoDmaTransfer(data);
      } else {
        StoreByte(address, data);
      }
    }

    /** `internalMem[address] = data`, the store `writeMem` ends in. */
    method StoreByte(address: bv16, data: bv8)
      requires Valid()
      modifies internalMem
      ensures Snapshot() == old(Snapshot()).(bus := Store(old(Bus()), address, data))
    {
      internalMem[Index(address)] := data;
    }

    /** The external RAM case of `writeMem`: the byte goes into the selected bank only while the RAM is enabled. */
    method WriteExternalRam(address: bv16, data: bv8)
      requires Valid() && 0xA000 <= address <= 0xBFFF
      modifies ramBanks
      ensures Snapshot() == old(Snapshot()).(bus := Memory.WriteRam(old(Bus()), address, data))
    {
      if enableRAM {
        ramBanks[Memory.RamIndex(currentRAMBank, address)] := data;
      }
    }

    /** The TAC case of `writeMem`: the new clock select restarts the timer counter with its period. */
    method WriteTimerControl(data: bv8)
      requires Valid()
      modifies this, internalMem
      ensures Valid()
      ensures Snapshot() == old(Snapshot()).(bus := Memory.WriteTac(old(Bus()), data))
    {
      var currentFreq := ReadMem(TAC) & 3;
      StoreByte(TAC, data);
      var newFreq := ReadMem(TAC) & 3;
      assert newFreq == data & 3;
      if currentFreq != newFreq {
        var period := if newFreq == 0 then 1024 else if newFreq == 1 then 16 else if newFreq == 2 then 64 else 256;
        SetTimerCounters(period, period, dividerCounter);
      }
    }

    /** `handleBanking`. */
    method HandleBanking(address: bv16, data: bv8)
      requires Valid() && address < 0x8000
      modifies this
      ensures Valid()
      ensures Snapshot() == old(Snapshot()).(bus := Memory.HandleBanking(old(Bus()), address, data))
    {
      if address < 0x4000 {
        HandleLowBanking(address, data);
      } else {
        HandleHighBanking(address, data);
      }
    }

    /** The first two ranges of `handleBanking`: RAM enable below 0x2000, the low bits of the ROM bank up to 0x3FFF. */
    method HandleLowBanking(address: bv16, data: bv8)
      requires Valid() && address < 0x4000
      modifies this
      ensures Valid()
      ensures Snapshot() == old(Snapshot()).(bus := Memory.HandleBanking(old(Bus()), address, data))
    {
      if address < 0x2000 {
        DoRamBankEnable(address, data);
      } else if 0x2000 <= address <= 0x3FFF {
        if mbc1 {
          DoChangeLoRomBank(data);
        } else if !IsBitSet(Low(address), 8) {
          DoChangeLoRomBank(data);
        }
      }
    }

    /** The last two ranges of `handleBanking`: the high ROM bits or the RAM bank up to 0x5FFF, the banking mode up to 0x7FFF. */
    method HandleHighBanking(address: bv16, data: bv8)
      requires Valid() && 0x4000 <= address < 0x8000
      modifies this
      ensures Valid()
      ensures Snapshot() == old(Snapshot()).(bus := Memory.HandleBanking(old(Bus()), address, data))
    {
      if 0x4000 <= address <= 0x5FFF {
        if mbc1 {
          if romBanking {
            DoChangeHiRomBank(data);
          } else {
            DoRamBankChange(data);
          }
        }
      } else if 0x6000 <= address <= 0x7FFF {
        if mbc1 {
          DoChangeRomRamMode(data);
        }
      }
    }

    /** `doRAMBankEnable`. The bit-8 test sees the address through a BYTE. */
    method DoRamBankEnable(address: bv16, data: bv8)
      requires Valid()
      modifies this
      ensures Valid()
      ensures Snapshot() == old(Snapshot()).(bus := Memory.RamBankEnable(old(Bus()), address, data))
    {
      if mbc2 {
        if IsBitSet(Low(address), 8) {
          return;
        }
      }
      var testData := data & 0xF;
      if testData == 0xA {
        enableRAM := true;
      } else {
        enableRAM := false;
      }
    }

    /** `doChangeLoROMBank`. */
    method DoChangeLoRomBank(data: bv8)
      requires Valid()
      modifies this
      ensures Valid()
      ensures Snapshot() == old(Snapshot()).(bus := old(Bus()).(currentROMBank := Memory.LoRomBank(old(currentROMBank), mbc2, data)))
    {
      if mbc2 {
        currentROMBank := data & 0xF;
        if currentROMBank == 0 {
          currentROMBank := 1;
        }
        return;
      }
      var lower5bits := data & 0x1F;
      if lower5bits == 0 {
        lower5bits := 1;
      }
      currentROMBank := currentROMBank & 0xE0;
      currentROMBank := currentROMBank | lower5bits;
    }

    /** `doChangeHiROMBank`. */
    method DoChangeHiRomBank(data: bv8)
      requires Valid()
      modifies this
      ensures Valid()
      ensures Snapshot() == old(Snapshot()).(bus := old(Bus()).(currentROMBank := Memory.HiRomBank(old(currentROMBank), data)))
    {
      currentROMBank := currentROMBank & 0x1F;
      var high := (data & 3) << 5;
      currentROMBank := currentROMBank | high;
    }

    /** `doRAMBankChange`. */
    method DoRamBankChange(data: bv8)
      requires Valid()
      modifies this
      ensures Valid()
      ensures Snapshot() == old(Snapshot()).(bus := old(Bus()).(currentRAMBank := data & 3))
    {
      currentRAMBank := data & 3;
    }

    /** `doChangeROMRAMMode`. */
    method DoChangeRomRamMode(data: bv8)
      requires Valid()
      modifies this
      ensures Valid()
      ensures Snapshot() == old(Snapshot()).(bus := Memory.RomRamMode(old(Bus()), data))
    {
      romBanking := data & 1 == 0;
      if romBanking {
        currentRAMBank := 0;
      }
    }

    /** `doDMATransfer`: 0xA0 bytes from `data << 8` on into the sprite attribute table, one `writeMem` each. */
    method DoDmaTransfer(data: bv8)
      requires Valid()
      modifies this, internalMem, ramBanks
      ensures Valid()
      ensures Snapshot() == old(Snapshot()).(bus := Memory.Dma(old(Bus()), (data as bv16) << 8, Memory.OAM_LENGTH))
      decreases 1, 1
    {
      var address: bv16 := (data as bv16) << 8;
      ghost var start := Snapshot();
      var i: bv16 := 0;
      while i < 0xA0
        invariant i <= 0xA0 && Valid()
        invariant Snapshot() == start.(bus := Memory.Dma(start.bus, address, i))
        decreases 0xA0 - i
      {
        CopyToOam(start, address, i);
        i := i + 1;
      }
    }

    /** One iteration of the loop in `doDMATransfer`: after it, the first `i + 1` bytes of the copy from `start` are made. */
    method CopyToOam(ghost start: State, address: bv16, i: bv16)
      requires Valid() && i < 0xA0
      requires Snapshot() == start.(bus := Memory.Dma(start.bus, address, i))
      modifies this, internalMem, ramBanks
      ensures Valid()
      ensures Snapshot() == start.(bus := Memory.Dma(start.bus, address, i + 1))
      decreases 1, 0
    {
      Memory.DmaNext(start.bus, address, i);
      WriteMem(0xFE00 + i, ReadMem(address + i));
    }

    /*
     * Interrupts.
     */

    /** `flagInterrupt`. */
    method FlagInterrupt(id: bv8)
      requires Valid() && id < 31
      modifies this, internalMem, ramBanks
      ensures Valid()
      ensures Snapshot() == Interrupts.FlagInterrupt(old(Snapshot()), id)
    {
      var requestReg := ReadMem(0xFF0F);
      requestReg := BitSet(requestReg, id);
      isHalted := false;
      WriteMem(0xFF0F, requestReg);
    }

    /** `handleInterrupts`. */
    method HandleInterrupts()
      requires Valid()
      modifies this, internalMem, ramBanks
      ensures Valid()
      ensures Snapshot() == Interrupts.HandleInterrupts(old(Snapshot()))
    {
      ghost var s0 := Snapshot();
      if interruptMasterEnabled {
        var requestReg := ReadMem(0xFF0F);
        var enabledReg := ReadMem(0xFFFF);
        if requestReg & enabledReg > 0 {
          EnterInterrupt();
          ServiceRequested(requestReg, enabledReg);
          Interrupts.HandleIsService(s0);
        }
      }
    }

    /** The start of servicing: the master switch cleared, then the program counter pushed. */
    method EnterInterrupt()
      requires Valid()
      modifies this, internalMem, ramBanks
      ensures Valid()
      ensures Snapshot() == Interrupts.Entered(old(Snapshot()))
    {
      interruptMasterEnabled := false;
      PushProgramCounter();
    }

    /** The loop of `handleInterrupts` over the ids 0..4, on the two register values read before it. */
    method ServiceRequested(requestReg: bv8, enabledReg: bv8)
      requires Valid()
      modifies this, internalMem, ramBanks
      ensures Valid()
      ensures Snapshot() == Interrupts.Service(old(Snapshot()), requestReg, enabledReg, 0)
    {
      var i: bv8 := 0;
      while i < 5
        invariant i <= 5 && Valid()
        invariant Interrupts.Service(Snapshot(), requestReg, enabledReg, i) == Interrupts.Service(old(Snapshot()), requestReg, enabledReg, 0)
        decreases 5 - i
      {
        ServiceInterrupt(requestReg, enabledReg, i);
        i := i + 1;
      }
    }

    /** The push of the program counter in `handleInterrupts`: the stack pointer decremented before each byte, high byte first, each through `writeMem`. */
    method PushProgramCounter()
      requires Valid()
      modifies this, internalMem, ramBanks
      ensures Valid()
      ensures Snapshot() == Stack.Push(old(Snapshot()), old(programCounter))
    {
      ghost var s0 := Snapshot();
      var sp := stackPointer;
      var pc := programCounter;
      PushByte(sp - 1, High(pc));
      ghost var b := Bus();
      PushByte(sp - 2, Low(pc));
      Stack.PushBytesInTurn(s0.bus, sp, pc, b);
    }

    /** One byte of that push: the stack pointer moved to `newSp`, then the byte written there. */
    method PushByte(newSp: bv16, data: bv8)
      requires Valid()
      modifies this, internalMem, ramBanks
      ensures Valid()
      ensures Snapshot() == old(Snapshot()).(stackPointer := newSp, bus := Memory.Write(old(Bus()), newSp, data))
    {
      stackPointer := newSp;
      WriteMem(newSp, data);
    }

    /** One iteration of the loop in `handleInterrupts`: interrupt `i` is serviced when it is both requested and enabled. */
    method ServiceInterrupt(requestReg: bv8, enabledReg: bv8, i: bv8)
      requires Valid() && i < 5
      modifies this, internalMem, ramBanks
      ensures Valid()
      ensures Snapshot() == Interrupts.ServiceStep(old(Snapshot()), requestReg, enabledReg, i)
    {
      var isFlagged := IsBitSet(requestReg, i);
      var isEnabled := IsBitSet(enabledReg, i);
      if isFlagged && isEnabled {
        TriggerInterrupt(i);
      }
    }

    /** `triggerInterrupt`. */
    method TriggerInterrupt(id: bv8)
      requires Valid() && id < 31
      modifies this, internalMem, ramBanks
      ensures Valid()
      ensures Snapshot() == Interrupts.TriggerInterrupt(old(Snapshot()), id)
    {
      var requestReg := ReadMem(0xFF0F);
      requestReg := BitReset(requestReg, id);
      WriteMem(0xFF0F, requestReg);
      if id == 0 {
        programCounter := 0x40;
      } else if id == 1 {
        programCounter := 0x48;
      } else if id == 2 {
        programCounter := 0x50;
      } else if id == 4 {
        programCounter := 0x60;
      }
    }

    /*
     * Timers.
     */

    /** `clockEnabled`. */
    function ClockEnabled(): (r: bool)
      reads this, internalMem, cartridgeMem, ramBanks
      requires Valid()
      ensures r == Timers.ClockEnabled(Bus())
    {
      IsBitSet(ReadMem(TAC), 2)
    }

    /** `updateTimers`. */
    method UpdateTimers(cycles: int)
      requires Valid()
      modifies this, internalMem, ramBanks
      ensures Valid()
      ensures Snapshot() == Timers.UpdateTimers(old(Snapshot()), cycles)
    {
      UpdateDivider(cycles);
      UpdateTimer(cycles);
    }

    /** The divider half of `updateTimers`: 0xFF04 incremented in place once the counter reaches 256. */
    method UpdateDivider(cycles: int)
      requires Valid()
      modifies this, internalMem
      ensures Valid()
      ensures Snapshot() == Timers.TickDivider(old(Snapshot()), cycles)
    {
      dividerCounter := dividerCounter + cycles;
      if dividerCounter >= 256 {
        dividerCounter := 0;
        internalMem[Index(DIVIDER)] := internalMem[Index(DIVIDER)] + 1;
      }
    }

    /** The timer half of `updateTimers`: with the clock enabled, the counter runs down and TIMA steps when it reaches zero. */
    method UpdateTimer(cycles: int)
      requires Valid()
      modifies this, internalMem, ramBanks
      ensures Valid()
      ensures Snapshot() == Timers.TickTimer(old(Snapshot()), cycles)
    {
      if ClockEnabled() {
        timerCounter := timerCounter - cycles;
        if timerCounter <= 0 {
          timerCounter := timerUpdateConstant;
          IncrementTima();
        }
      }
    }

    /** The TIMA step of `updateTimers`: TIMA incremented, or reloaded from TMA with the timer interrupt requested when it was 0xFF. */
    method IncrementTima()
      requires Valid()
      modifies this, internalMem, ramBanks
      ensures Valid()
      ensures Snapshot() == Timers.IncrementTima(old(Snapshot()))
    {
      if ReadMem(TIMA) == 0xFF {
        WriteMem(TIMA, ReadMem(TMA));
        FlagInterrupt(2);
      } else {
        WriteMem(TIMA, ReadMem(TIMA) + 1);
      }
    }

    /*
     * The LCD.
     */

    /** `LCDEnabled`. */
    function LcdEnabled(): (r: bool)
      reads this, internalMem, cartridgeMem, ramBanks
      requires Valid()
      ensures r == Graphics.LcdEnabled(Bus())
    {
      IsBitSet(ReadMem(0xFF40), 7)
    }

    /** `setLCDStatus`. */
    method SetLcdStatus()
      requires Valid()
      modifies this, internalMem, ramBanks
      ensures Valid()
      ensures Snapshot() == Graphics.SetLcdStatus(old(Snapshot()))
    {
      var status := ReadMem(0xFF41);
      if !LcdEnabled() {
        SetDisabledStatus(status);
        return;
      }
      var currentLine := ReadMem(0xFF44);
      var currentMode := status & 0x3;
      var newMode, needInterrupt;
      status, newMode, needInterrupt := SelectMode(status, currentLine);
      ghost var s := old(Snapshot());
      assert needInterrupt && newMode != currentMode <==> Graphics.ModeInterrupts(s.bus, s.scanlineCycleCount);
      if needInterrupt && newMode != currentMode {
        FlagInterrupt(1);
      }
      Graphics.RequestIfKeepsLcd(s, Graphics.ModeInterrupts(s.bus, s.scanlineCycleCount), Graphics.LYC);
      status := CheckCoincidence(currentLine, status);
      WriteMem(0xFF41, status);
    }

    /** The LCD-off branch of `setLCDStatus`: a full line of cycles, LY cleared in place, and mode 1 written to the status register. */
    method SetDisabledStatus(status: bv8)
      requires Valid() && status == Memory.Read(Bus(), Graphics.STAT)
      modifies this, internalMem, ramBanks
      ensures Valid()
      ensures Snapshot() == Graphics.DisabledStatus(old(Snapshot()))
    {
      scanlineCycleCount := 456;
      internalMem[Index(0xFF44)] := 0;
      var newStatus := BitSet(status, 0);
      newStatus := BitReset(newStatus, 1);
      WriteMem(0xFF41, newStatus);
    }

    /** The mode selection of `setLCDStatus` with the LCD on: the mode for the line and the cycles left, the status byte showing it, and whether its interrupt is enabled. */
    method SelectMode(status: bv8, currentLine: bv8) returns (newStatus: bv8, newMode: bv8, needInterrupt: bool)
      ensures newMode == Graphics.StatusMode(currentLine, scanlineCycleCount)
      ensures newStatus == Graphics.WithMode(status, newMode)
      ensures needInterrupt == Graphics.ModeInterruptEnabled(newStatus, newMode)
    {
      newStatus := status;
      needInterrupt := false;
      if currentLine >= 144 {
        newMode := 1;
        newStatus := BitSet(newStatus, 0);
        newStatus := BitReset(newStatus, 1);
        needInterrupt := IsBitSet(newStatus, 4);
      } else if scanlineCycleCount >= 376 {
        newMode := 2;
        newStatus := BitReset(newStatus, 0);
        newStatus := BitSet(newStatus, 1);
        needInterrupt := IsBitSet(newStatus, 5);
      } else if scanlineCycleCount >= 204 {
        newMode := 3;
        newStatus := BitSet(newStatus, 0);
        newStatus := BitSet(newStatus, 1);
      } else {
        newMode := 0;
        newStatus := BitReset(newStatus, 0);
        newStatus := BitReset(newStatus, 1);
        needInterrupt := IsBitSet(newStatus, 3);
      }
    }

    /** The coincidence check of `setLCDStatus`: bit 2 of the status set when LY equals LYC, and the LCD status interrupt requested if bit 6 is set too. */
    method CheckCoincidence(currentLine: bv8, status: bv8) returns (newStatus: bv8)
      requires Valid()
      modifies this, internalMem, ramBanks
      ensures Valid()
      ensures newStatus == Graphics.WithCoincidence(status, currentLine == Memory.Read(old(Bus()), Graphics.LYC))
      ensures Snapshot() == Graphics.RequestIf(old(Snapshot()), currentLine == Memory.Read(old(Bus()), Graphics.LYC) && IsBitSet(newStatus, 6))
    {
      newStatus := status;
      if currentLine == ReadMem(0xFF45) {
        newStatus := BitSet(newStatus, 2);
        if IsBitSet(newStatus, 6) {
          FlagInterrupt(1);
        }
      } else {
        newStatus := BitReset(newStatus, 2);
      }
    }

    /** `updateGraphics`; the drawing of the scanline and of the frame is not modelled. */
    method UpdateGraphics(cycles: int)
      requires Valid()
      modifies this, internalMem, ramBanks
      ensures Valid()
      ensures Snapshot() == Graphics.UpdateGraphics(old(Snapshot()), cycles)
    {
      SetLcdStatus();
      AdvanceScanline(cycles);
    }

    /** The part of `updateGraphics` after `setLCDStatus`: with the LCD on, the cycles counted down, and the move to the next line once they run out. */
    method AdvanceScanline(cycles: int)
      requires Valid()
      modifies this, internalMem, ramBanks
      ensures Valid()
      ensures Snapshot() == Graphics.Advance(old(Snapshot()), cycles)
    {
      if !LcdEnabled() {
        return;
      }
      scanlineCycleCount := scanlineCycleCount - cycles;
      if scanlineCycleCount <= 0 {
        NextLine();
      }
    }

    /** The move to the next scanline in `updateGraphics`: LY incremented in place, the vertical blank interrupt at line 144, LY back to 0 past line 153. */
    method NextLine()
      requires Valid()
      modifies this, internalMem, ramBanks
      ensures Valid()
      ensures Snapshot() == Graphics.NextLine(old(Snapshot()))
    {
      var currentLine := IncrementLine();
      FinishLine(currentLine);
    }

    /** The rest of that move, on the LY just read back: the vertical blank interrupt at 144, LY cleared past 153. */
    method FinishLine(currentLine: bv8)
      requires Valid() && currentLine == Memory.Read(Bus(), Graphics.LY)
      modifies this, internalMem, ramBanks
      ensures Valid()
      ensures Snapshot() == Graphics.AfterIncrement(old(Snapshot()))
    {
      if currentLine == 144 {
        FlagInterrupt(0);
      } else if currentLine > 153 {
        ClearLine();
      }
    }

    /** The start of that move: LY incremented in place and read back, and a full line of cycles left. */
    method IncrementLine() returns (currentLine: bv8)
      requires Valid()
      modifies this, internalMem
      ensures Valid()
      ensures Snapshot() == Graphics.IncrementLine(old(Snapshot()))
      ensures currentLine == Memory.Read(Bus(), Graphics.LY)
    {
      BumpLine();
      currentLine := ReadMem(0xFF44);
    }

    /** LY incremented in place and a full line of cycles left. */
    method BumpLine()
      requires Valid()
      modifies this, internalMem
      ensures Valid()
      ensures Snapshot() == Graphics.IncrementLine(old(Snapshot()))
    {
      internalMem[Index(0xFF44)] := internalMem[Index(0xFF44)] + 1;
      scanlineCycleCount := 456;
    }

    /** LY cleared in place, as `updateGraphics` does past line 153. */
    method ClearLine()
      requires Valid()
      modifies internalMem
      ensures Snapshot() == old(Snapshot()).(bus := Store(old(Bus()), Graphics.LY, 0))
    {
      internalMem[Index(0xFF44)] := 0;
    }

    /*
     * The joypad.
     */

    /** `buttonPressed`. */
    method ButtonPressed(key: bv8)
      requires Valid() && key < 8
      modifies this, internalMem, ramBanks
      ensures Valid()
      ensures Snapshot() == Joypad.ButtonPressed(old(Snapshot()), key)
    {
      var previouslyUnpressed := false;
      var flagIntrpt := false;
      if IsBitSet(joypadState, key) {
        previouslyUnpressed := true;
      }
      ClearKeyBit(key);
      var directionalButton := key < 4;
      var joypadReg := internalMem[Index(0xFF00)];
      if (!IsBitSet(joypadReg, 4) && directionalButton) || (!IsBitSet(joypadReg, 5) && !directionalButton) {
        if previouslyUnpressed {
          flagIntrpt := true;
        }
      }
      if flagIntrpt {
        FlagInterrupt(4);
      }
    }

    /** The key's bit of the joypad byte cleared, as `buttonPressed` does first. */
    method ClearKeyBit(key: bv8)
      requires Valid() && key < 8
      modifies this
      ensures Valid()
      ensures Snapshot() == Joypad.ClearKey(old(Snapshot()), key)
    {
      joypadState := BitReset(joypadState, key);
    }

    /** `buttonReleased`. */
    method ButtonReleased(key: bv8)
      requires Valid() && key < 8
      modifies this
      ensures Valid()
      ensures Snapshot() == Joypad.ButtonReleased(old(Snapshot()), key)
    {
      joypadState := BitSet(joypadState, key);
    }
  }
}

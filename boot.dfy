/**
 * Power-on (Emulator.cpp, `resetCPU` and `loadGame`): the register values
 * the boot ROM would leave behind, the I/O registers it initialises, the
 * memory bank controller the cartridge header names, and the copy of a ROM
 * image into the cartridge array and the first 32 KiB of the address space.
 */
module Boot {
  import opened Hardware
  import opened EmulatorState
  import Memory
  import Timers
  import Graphics

  /** A cell of the internal memory, named by its address. */
  type Cell = i: nat | i < INTERNAL_SIZE

  /** One I/O register `resetCPU` sets, with the value it stores there. */
  datatype RegisterInit = RegisterInit(address: Cell, value: bv8)

  /** The I/O registers `resetCPU` stores to, in the order it stores them. */
  const IO_RESET: seq<RegisterInit> := [
    RegisterInit(0xFF05, 0x00), RegisterInit(0xFF06, 0x00), RegisterInit(0xFF07, 0x00),
    RegisterInit(0xFF10, 0x80), RegisterInit(0xFF11, 0xBF), RegisterInit(0xFF12, 0xF3),
    RegisterInit(0xFF14, 0xBF), RegisterInit(0xFF16, 0x3F), RegisterInit(0xFF17, 0x00),
    RegisterInit(0xFF19, 0xBF), RegisterInit(0xFF1A, 0x7F), RegisterInit(0xFF1B, 0xFF),
    RegisterInit(0xFF1C, 0x9F), RegisterInit(0xFF1E, 0xBF), RegisterInit(0xFF20, 0xFF),
    RegisterInit(0xFF21, 0x00), RegisterInit(0xFF22, 0x00), RegisterInit(0xFF23, 0xBF),
    RegisterInit(0xFF24, 0x77), RegisterInit(0xFF25, 0xF3), RegisterInit(0xFF26, 0xF1),
    RegisterInit(0xFF40, 0x91), RegisterInit(0xFF42, 0x00), RegisterInit(0xFF43, 0x00),
    RegisterInit(0xFF45, 0x00), RegisterInit(0xFF47, 0xFC), RegisterInit(0xFF48, 0xFF),
    RegisterInit(0xFF49, 0xFF), RegisterInit(0xFF4A, 0x00), RegisterInit(0xFF4B, 0x00),
    RegisterInit(0xFFFF, 0x00)]

  /** The cartridge header byte that names the memory bank controller. */
  const CARTRIDGE_TYPE: nat := 0x147

  /** The size of ROM banks 0 and 1, which `loadGame` copies into the address space. */
  const ROM_WINDOW: nat := 0x8000

  /*
   * The I/O register initialisation.
   */

  /** Memory `m` after the stores of `t`, in order. */
  function Initialise(m: seq<bv8>, t: seq<RegisterInit>): (r: seq<bv8>)
    requires |m| == INTERNAL_SIZE
    ensures |r| == INTERNAL_SIZE
  {
    if |t| == 0 then m
    else Initialise(m, t[..|t| - 1])[t[|t| - 1].address := t[|t| - 1].value]
  }

  /** Every entry of `t` names a higher cell than the one before. */
  predicate Ascending(t: seq<RegisterInit>)
  {
    forall i, j :: 0 <= i < j < |t| ==> t[i].address < t[j].address
  }

  /** `i` is the index of none of the addresses of `t`. */
  predicate Untouched(t: seq<RegisterInit>, i: nat)
  {
    forall k :: 0 <= k < |t| ==> t[k].address != i
  }

  /** From entry `k` on, each entry of `t` names a higher cell than the one before it. */
  predicate SortedFrom(t: seq<RegisterInit>, k: nat)
    decreases |t| - k
  {
    k + 1 >= |t| || (t[k].address < t[k + 1].address && SortedFrom(t, k + 1))
  }

  /** Neighbours that ascend from entry `k` on make the rest of the table ascend. */
  lemma {:induction false} SortedFromAscends(t: seq<RegisterInit>, k: nat)
    requires SortedFrom(t, k)
    ensures forall i, j :: k <= i < j < |t| ==> t[i].address < t[j].address
    decreases |t| - k
  {
    if k + 1 < |t| {
      SortedFromAscends(t, k + 1);
    }
  }

  /** The second half of the table of `resetCPU` ascends. */
  lemma ResetTableTail()
    ensures SortedFrom(IO_RESET, 15)
  {
    assert SortedFrom(IO_RESET, 30);
    assert SortedFrom(IO_RESET, 29);
    assert SortedFrom(IO_RESET, 28);
    assert SortedFrom(IO_RESET, 27);
    assert SortedFrom(IO_RESET, 26);
    assert SortedFrom(IO_RESET, 25);
    assert SortedFrom(IO_RESET, 24);
    assert SortedFrom(IO_RESET, 23);
    assert SortedFrom(IO_RESET, 22);
    assert SortedFrom(IO_RESET, 21);
    assert SortedFrom(IO_RESET, 20);
    assert SortedFrom(IO_RESET, 19);
    assert SortedFrom(IO_RESET, 18);
    assert SortedFrom(IO_RESET, 17);
    assert SortedFrom(IO_RESET, 16);
    assert SortedFrom(IO_RESET, 15);
  }

  /** The table of `resetCPU` lists each register once, in ascending order. */
  lemma ResetTableAscends()
    ensures Ascending(IO_RESET)
  {
    ResetTableTail();
    assert SortedFrom(IO_RESET, 14);
    assert SortedFrom(IO_RESET, 13);
    assert SortedFrom(IO_RESET, 12);
    assert SortedFrom(IO_RESET, 11);
    assert SortedFrom(IO_RESET, 10);
    assert SortedFrom(IO_RESET, 9);
    assert SortedFrom(IO_RESET, 8);
    assert SortedFrom(IO_RESET, 7);
    assert SortedFrom(IO_RESET, 6);
    assert SortedFrom(IO_RESET, 5);
    assert SortedFrom(IO_RESET, 4);
    assert SortedFrom(IO_RESET, 3);
    assert SortedFrom(IO_RESET, 2);
    assert SortedFrom(IO_RESET, 1);
    assert SortedFrom(IO_RESET, 0);
    SortedAscends(IO_RESET);
  }

  /** A table whose neighbours ascend ascends throughout. */
  lemma SortedAscends(t: seq<RegisterInit>)
    requires SortedFrom(t, 0)
    ensures Ascending(t)
  {
    SortedFromAscends(t, 0);
  }

  /** Each register of an ascending table ends up holding its value. */
  lemma {:induction false} InitialiseSets(m: seq<bv8>, t: seq<RegisterInit>, k: nat)
    requires |m| == INTERNAL_SIZE && Ascending(t) && k < |t|
    ensures Initialise(m, t)[t[k].address] == t[k].value
  {
    var n := |t| - 1;
    if k < n {
      var u := t[..n];
      assert u[k] == t[k];
      assert Ascending(u) by {
        forall i, j | 0 <= i < j < |u|
          ensures u[i].address < u[j].address
        {
          assert u[i] == t[i] && u[j] == t[j];
        }
      }
      InitialiseSets(m, u, k);
      assert t[k].address < t[n].address;
    }
  }

  /** A cell no entry of the table names keeps its value. */
  lemma {:induction false} InitialiseKeeps(m: seq<bv8>, t: seq<RegisterInit>, i: nat)
    requires |m| == INTERNAL_SIZE && i < INTERNAL_SIZE && Untouched(t, i)
    ensures Initialise(m, t)[i] == m[i]
  {
    if |t| > 0 {
      var u := t[..|t| - 1];
      assert Untouched(u, i) by {
        forall k | 0 <= k < |u|
          ensures u[k].address != i
        {
          assert u[k] == t[k];
        }
      }
      InitialiseKeeps(m, u, i);
    }
  }

  /** The result of the stores of an ascending table does not depend on what the named cells held before. */
  lemma InitialiseOverwrites(m: seq<bv8>, m': seq<bv8>, t: seq<RegisterInit>)
    requires |m| == INTERNAL_SIZE && |m'| == INTERNAL_SIZE && Ascending(t)
    requires forall i :: 0 <= i < INTERNAL_SIZE && Untouched(t, i) ==> m[i] == m'[i]
    ensures Initialise(m, t) == Initialise(m', t)
  {
    forall i | 0 <= i < INTERNAL_SIZE
      ensures Initialise(m, t)[i] == Initialise(m', t)[i]
    {
      if Untouched(t, i) {
        InitialiseKeeps(m, t, i);
        InitialiseKeeps(m', t, i);
      } else {
        var k :| 0 <= k < |t| && t[k].address == i;
        InitialiseSets(m, t, k);
        InitialiseSets(m', t, k);
      }
    }
  }

  /*
   * The memory bank controller.
   */

  /** The controller a cartridge type byte selects: `(MBC1, MBC2)`. */
  function Mapper(kind: bv8): (r: (bool, bool))
    ensures r.0 <==> kind == 1 || kind == 2 || kind == 3
    ensures r.1 <==> kind == 5 || kind == 6
    ensures !(r.0 && r.1)
  {
    match kind
    case 1 => (true, false)
    case 2 => (true, false)
    case 3 => (true, false)
    case 5 => (false, true)
    case 6 => (false, true)
    case _ => (false, false)
  }

  /*
   * `resetCPU`.
   */

  /** The bus after `resetCPU`; `enableRAM` and `romBanking` are not touched. */
  function ResetBus(b: Bus): Bus
  {
    b.(internalMem := Initialise(b.internalMem, IO_RESET),
       mbc1 := Mapper(b.cartridgeMem[CARTRIDGE_TYPE]).0,
       mbc2 := Mapper(b.cartridgeMem[CARTRIDGE_TYPE]).1,
       currentROMBank := 1,
       ramBanks := seq(RAM_BANKS_SIZE, _ => 0),
       currentRAMBank := 0,
       timerUpdateConstant := 1024,
       timerCounter := 1024,
       joypadState := 0xFF)
  }

  /** The state after `resetCPU`. */
  function Reset(s: State): (t: State)
    ensures t.bus.cartridgeMem == s.bus.cartridgeMem
    ensures t.bus.enableRAM == s.bus.enableRAM && t.bus.romBanking == s.bus.romBanking
    ensures forall i :: 0 <= i < RAM_BANKS_SIZE ==> t.bus.ramBanks[i] == 0
    ensures !t.interruptMasterEnabled && !t.isHalted
  {
    State(0x01B0, 0x0013, 0x00D8, 0x014D, 0xFFFE, 0x100, ResetBus(s.bus),
      0, false, false, Graphics.LINE_CYCLES)
  }

  /** Each I/O register of the table holds its value after a reset. */
  lemma ResetRegisters(s: State, k: nat)
    requires k < |IO_RESET|
    ensures Reset(s).bus.internalMem[IO_RESET[k].address] == IO_RESET[k].value
  {
    ResetTableAscends();
    InitialiseSets(s.bus.internalMem, IO_RESET, k);
  }

  /** Every other cell of the internal memory is left as it was, the ROM window included. */
  lemma ResetKeepsMemory(s: State, i: nat)
    requires i < INTERNAL_SIZE && Untouched(IO_RESET, i)
    ensures Reset(s).bus.internalMem[i] == s.bus.internalMem[i]
  {
    InitialiseKeeps(s.bus.internalMem, IO_RESET, i);
  }

  /**
   * After a reset the LCD is switched on, the timer is stopped, no
   * interrupt is enabled, the external RAM is zero and bank 1 is mapped;
   * the cartridge, the RAM-enable switch and the banking mode are kept.
   */
  lemma ResetHardware(s: State)
    ensures Graphics.LcdEnabled(Reset(s).bus)
    ensures !Timers.ClockEnabled(Reset(s).bus)
    ensures Memory.Read(Reset(s).bus, 0xFFFF) == 0
    ensures forall a :: 0xA000 <= a <= 0xBFFF ==> Memory.Read(Reset(s).bus, a) == 0
    ensures Reset(s).bus.currentROMBank == 1
    ensures Reset(s).bus.cartridgeMem == s.bus.cartridgeMem
    ensures Reset(s).bus.enableRAM == s.bus.enableRAM && Reset(s).bus.romBanking == s.bus.romBanking
  {
    ResetRegisters(s, 2);
    ResetRegisters(s, 21);
    ResetRegisters(s, 30);
  }

  /** A second reset changes nothing. */
  lemma ResetIdempotent(s: State)
    ensures Reset(Reset(s)) == Reset(s)
  {
    var m := s.bus.internalMem;
    var r := Reset(s).bus.internalMem;
    forall i | 0 <= i < INTERNAL_SIZE && Untouched(IO_RESET, i)
      ensures r[i] == m[i]
    {
      InitialiseKeeps(m, IO_RESET, i);
    }
    ResetTableAscends();
    InitialiseOverwrites(r, m, IO_RESET);
  }

  /*
   * `loadGame`.
   */

  /** The byte of the cartridge array at offset `i` once `rom` is loaded: the image, then zeros. */
  function RomByte(rom: seq<bv8>, i: nat): bv8
  {
    if i < |rom| then rom[i] else 0
  }

  /** The cartridge array holding `rom` from offset 0 and zero after it. */
  function Cartridge(rom: seq<bv8>): (c: seq<bv8>)
    requires |rom| <= CARTRIDGE_SIZE
    ensures |c| == CARTRIDGE_SIZE
    ensures forall i :: 0 <= i < CARTRIDGE_SIZE ==> c[i] == RomByte(rom, i)
  {
    rom + seq(CARTRIDGE_SIZE - |rom|, _ => 0)
  }

  /** The bus after `loadGame`: the cartridge replaced, ROM banks 0 and 1 copied to the address space. */
  function LoadBus(b: Bus, rom: seq<bv8>): (c: Bus)
    requires |rom| <= CARTRIDGE_SIZE
  {
    b.(cartridgeMem := Cartridge(rom),
       internalMem := Cartridge(rom)[..ROM_WINDOW] + b.internalMem[ROM_WINDOW..])
  }

  /** The state after `loadGame` has read `rom`. */
  function Load(s: State, rom: seq<bv8>): (t: State)
    requires |rom| <= CARTRIDGE_SIZE
    ensures t.bus.cartridgeMem[..|rom|] == rom
    ensures t.bus.internalMem[ROM_WINDOW..] == s.bus.internalMem[ROM_WINDOW..]
    ensures t == s.(bus := s.bus.(cartridgeMem := t.bus.cartridgeMem, internalMem := t.bus.internalMem))
  {
    s.(bus := LoadBus(s.bus, rom))
  }

  /** Each cell of the internal memory after a load: the image inside the ROM window, unchanged above it. */
  lemma LoadedCell(b: Bus, rom: seq<bv8>, i: nat)
    requires |rom| <= CARTRIDGE_SIZE && i < INTERNAL_SIZE
    ensures LoadBus(b, rom).internalMem[i] == if i < ROM_WINDOW then RomByte(rom, i) else b.internalMem[i]
  {
  }

  /** An address from 0x8000 up indexes a cell above the ROM window. */
  lemma AboveWindow(a: bv16)
    requires a >= 0x8000
    ensures Index(a) >= ROM_WINDOW
  {
    ByteValue(High(a), 0x80);
  }

  /** A read below 0x4000 sees the loaded image. */
  lemma LoadFixedBank(s: State, rom: seq<bv8>, a: bv16)
    requires |rom| <= CARTRIDGE_SIZE && a < 0x4000
    ensures Memory.Read(Load(s, rom).bus, a) == RomByte(rom, Index(a))
  {
    IndexBelow(a, 0x40);
    LoadedCell(s.bus, rom, Index(a));
  }

  /** A read from 0x8000 up sees what it saw before the load. */
  lemma LoadKeepsUpper(s: State, rom: seq<bv8>, a: bv16)
    requires |rom| <= CARTRIDGE_SIZE && a >= 0x8000
    ensures Memory.Read(Load(s, rom).bus, a) == Memory.Read(s.bus, a)
  {
    AboveWindow(a);
    LoadedCell(s.bus, rom, Index(a));
    if 0xE000 <= a <= 0xFDFF {
      AboveWindow(a - 0x2000);
      LoadedCell(s.bus, rom, Index(a - 0x2000));
    } else if a == 0xFF00 {
      LoadedCell(s.bus, rom, Index(0xFF00));
    }
  }

  /** With bank 1 selected, a read of the switchable area sees the image at the same offset. */
  lemma LoadSwitchableBank(s: State, rom: seq<bv8>, a: bv16)
    requires |rom| <= CARTRIDGE_SIZE && s.bus.currentROMBank == 1 && 0x4000 <= a <= 0x7FFF
    ensures Memory.Read(Load(s, rom).bus, a) == RomByte(rom, Index(a))
  {
    BankOneAddress(a);
  }

  /** Bank 1 maps the switchable area onto the same cartridge offsets. */
  lemma BankOneAddress(a: bv16)
    requires 0x4000 <= a <= 0x7FFF
    ensures Index(Memory.RomAddress(1, a)) == Index(a)
  {
    assert Memory.RomAddress(1, a) == a;
  }

  /**
   * Loading and then resetting, the order the hardware powers on in:
   * every read of the ROM area sees the image, and the bank controller is
   * the one the image's header names.
   */
  lemma LoadThenReset(s: State, rom: seq<bv8>, a: bv16)
    requires |rom| <= CARTRIDGE_SIZE && a < 0x8000
    ensures Memory.Read(Reset(Load(s, rom)).bus, a) == RomByte(rom, Index(a))
    ensures (Reset(Load(s, rom)).bus.mbc1, Reset(Load(s, rom)).bus.mbc2) == Mapper(RomByte(rom, CARTRIDGE_TYPE))
  {
    var l := Load(s, rom);
    if a < 0x4000 {
      LoadFixedBank(s, rom, a);
      ResetKeepsLow(l, a);
    } else {
      BankOneAddress(a);
    }
  }

  /** A read below 0x4000 is not disturbed by a reset. */
  lemma ResetKeepsLow(s: State, a: bv16)
    requires a < 0x4000
    ensures Memory.Read(Reset(s).bus, a) == Memory.Read(s.bus, a)
  {
    IndexBelow(a, 0x40);
    forall k | 0 <= k < |IO_RESET|
      ensures IO_RESET[k].address != Index(a)
    {
    }
    ResetKeepsMemory(s, Index(a));
  }

  /**
   * Resetting and then loading, the order Main.cpp calls them in: the
   * bank controller stays the one the previous cartridge array named, so
   * from an empty cartridge array no controller is selected whatever the
   * image's header says.
   */
  lemma ResetThenLoad(s: State, rom: seq<bv8>)
    requires |rom| <= CARTRIDGE_SIZE
    ensures (Load(Reset(s), rom).bus.mbc1, Load(Reset(s), rom).bus.mbc2) == Mapper(s.bus.cartridgeMem[CARTRIDGE_TYPE])
    ensures s.bus.cartridgeMem[CARTRIDGE_TYPE] == 0 ==> !Load(Reset(s), rom).bus.mbc1 && !Load(Reset(s), rom).bus.mbc2
  {
  }
}

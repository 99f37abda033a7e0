/**
 * The state of one `Emulator` object (Emulator.hpp) as a value. The fields
 * the memory map reads and writes (the three memory arrays, the cartridge
 * controller's bank registers, the timer counters a TAC write resets and
 * the joypad byte a read of 0xFF00 consults) form the `Bus`; the register
 * pairs, the divider counter, the interrupt switch, the halt latch and the
 * scanline cycle counter sit beside it. The `Emulator` class of module
 * Machine keeps the same fields and is specified by functions over this
 * value.
 */
module EmulatorState {
  import opened Hardware

  datatype BusState = BusState(
    internalMem: seq<bv8>, cartridgeMem: seq<bv8>, ramBanks: seq<bv8>,
    currentROMBank: bv8, currentRAMBank: bv8,
    enableRAM: bool, mbc1: bool, mbc2: bool, romBanking: bool,
    timerCounter: int, timerUpdateConstant: int, joypadState: bv8)

  /**
   * The arrays have their declared sizes and the RAM bank register names
   * one of the four banks; every operation keeps this.
   */
  predicate BusValid(b: BusState)
  {
    && |b.internalMem| == INTERNAL_SIZE
    && |b.cartridgeMem| == CARTRIDGE_SIZE
    && |b.ramBanks| == RAM_BANKS_SIZE
    && b.currentRAMBank <= 3
  }

  type Bus = b: BusState | BusValid(b)
    witness BusState(seq(INTERNAL_SIZE, _ => 0), seq(CARTRIDGE_SIZE, _ => 0), seq(RAM_BANKS_SIZE, _ => 0),
      0, 0, false, false, false, false, 0, 0, 0xFF)

  datatype State = State(
    regAF: bv16, regBC: bv16, regDE: bv16, regHL: bv16,
    stackPointer: bv16, programCounter: bv16,
    bus: Bus, dividerCounter: int,
    interruptMasterEnabled: bool, isHalted: bool, scanlineCycleCount: int)

  /** The internal memory with `data` stored at `address`, nothing else changed. */
  function Store(b: Bus, address: bv16, data: bv8): (c: Bus)
    ensures c.internalMem[Index(address)] == data
  {
    b.(internalMem := b.internalMem[Index(address) := data])
  }
}

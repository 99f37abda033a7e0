# A Game Boy emulator core in Dafny

This project models the engine of a Game Boy emulator written in C++
(`gameboy/Emulator.cpp`, with its data layout in `gameboy/Emulator.hpp`).
It covers the CPU's instruction set, the 64 KiB memory map with its MBC1/MBC2
bank switching and OAM DMA, the divider and the timer, the interrupt
controller, the joypad register, the LCD status state machine, palette
decoding, and the power-on sequence (`resetCPU`, `loadGame`). The model
then proves what these parts promise.

The modules:

- `Bits`: `isBitSet`, `bitSet` and `bitReset` on a BYTE.
- `Hardware`: the constants of `Emulator.hpp`, the `Register` union (a WORD with `high`/`low` bytes), the `COLOUR` enum and palettes.
- `EmulatorState`: the emulator's state as values.
  - `Bus` holds the fields the memory map reads and writes.
  - `State` adds the registers, the divider counter, the interrupt master switch, the halt latch and the scanline counter.
- `Memory`: `readMem`, `writeMem`, `handleBanking`, the `doChange*`/`doRAMBank*` helpers and `doDMATransfer`, as functions on `Bus`.
- `Stack`, `Interrupts`, `Timers`, `Joypad`, `Graphics`: the push of a word; `flagInterrupt`/`handleInterrupts`/`triggerInterrupt`; `updateTimers`; `buttonPressed`/`buttonReleased`; `setLCDStatus`, `updateGraphics` and `getColour`.
- `Alu`: what each arithmetic, logic, rotate and bit instruction computes.
  - The lemmas state what each result means: BCD addition and subtraction for DAA, and the instructions that undo each other.
- `Operands`, `Cpu`: every opcode handler, as a function from `State` to the new state and the cycle count.
  - `Decode` holds the two opcode switches, `executeOpcode` and `executeCBOpcode`, and `executeNextOpcode`.
- `Boot`: `resetCPU` and `loadGame`, the ROM image being given as a byte sequence.
- `Machine`: the `Emulator` object itself, a class whose fields are those of `Emulator.hpp`.
  - The internal memory, the cartridge and the RAM banks are arrays of their declared sizes.
  - Its methods update the fields in place as the C++ methods do, with the same loops (the DMA copy, the interrupt service loop).
  - Each method's postcondition ties the new object, read as a `State` through `Snapshot()`, to the function of the old state that the other modules specify and prove properties about.

The model keeps what the code does where it departs from the Game Boy's documented behaviour or from its own comments. A lemma exhibits each such place:

- ADC A,r and ADC A,(HL) add the carry twice (`Alu.AdcDoubleCarry`).
- AND/XOR/OR/CP (HL) lack a `break` and fall through into the A-register form (`Decode.FallThroughOpcodes`, `Decode.XorHlClearsA`, `Decode.CpHlAlwaysEqual`).
- SET/RES n,(HL) address `regHL.low` (`Cpu.BitWritesMissHl`).
- The switchable ROM address is computed in a WORD, so banks 4 and up alias banks 0..3 (`Memory.RomBanksAlias`).
- `isBitSet(address, 8)` sees the address through a BYTE and is always false. So every write to 0x2000..0x3FFF changes the ROM bank, whatever the controller (`Memory.LoRomBankWrite`).
- A write to 0xFF46 runs the DMA copy but does not store the byte.
- `handleInterrupts` services every requested and enabled interrupt in one call. The program counter ends at the vector of the highest-numbered one (`Interrupts.HandleJumps`).
- The serial interrupt (id 3) has no vector and leaves the program counter alone (`Interrupts.Vector`).
- Eleven opcodes have no case and leave the cycle count uninitialised (`Decode.UndefinedOpcodes`).
- `resetCPU` sets neither `enableRAM` nor `ROMBanking` (`Boot.ResetHardware`).
- `resetCPU` picks the bank controller from the cartridge array as it stands. Called before `loadGame`, as the `load` function of `gameboy/Main.cpp` does, it reads the previous cartridge (`Boot.ResetThenLoad`).

`isHalted` is used throughout `Emulator.cpp` but not declared in `Emulator.hpp`. The model gives it a field beside `InterruptMasterEnabled`. Emulator.hpp declares no constructor: the object is value-initialised (`gameboy/Main.cpp:21`, `:180`), so every field and array starts at zero (`Machine.Emulator.constructor`).

## Opcode handlers

The handlers are the functions of module `Cpu`. Each returns a `Step`: the new state and the cycle count the C++ handler returns. The contracts are stated on the lemmas about them, listed under "## Model".

| source | Dafny |
|---|---|
| gameboy/Emulator.cpp:2098-2436 | `Cpu.LdRR`, `LdRN`, `LdRHl`, `LdHlR`, `LdHlN`, `LdABc`, `LdADe`, `LdANn`, `LdBcA`, `LdDeA`, `LdNnA`, `LdAFF00n`, `LdFF00nA`, `LdAFF00C`, `LdFF00CA`, `LdiHlA`, `LdiAHl`, `LddHlA`, `LddAHl` |
| gameboy/Emulator.cpp:2454-2548 | `Cpu.LdRrNn`, `LdSpHl`, `LdNnSp`, `PushRr`, `PopRr` |
| gameboy/Emulator.cpp:2570-3530 | `Cpu.AluR`, `AluN`, `AluHl` with the `Alu` functions `Add`, `AdcDoubled`/`AdcImmediate`, `Sub`, `Sbc`, `And`, `Xor`, `Or`, `Cp` |
| gameboy/Emulator.cpp:3546-3971 | `Cpu.IncR`, `IncHl`, `DecR`, `DecHl`, `Daa`, `Cpl`, `AddHlRr`, `IncRr`, `DecRr`, `AddSpDd`, `LdHlSpDd` |
| gameboy/Emulator.cpp:3994-4875 | `Cpu.Rlca`, `Rla`, `Rrca`, `Rra`, `ShiftR`, `ShiftHl` with `Alu.Rlc`, `Rl`, `Rrc`, `Rr`, `Sla`, `Swap`, `Sra`, `Srl` |
| gameboy/Emulator.cpp:4896-5024 | `Cpu.BitNR`, `BitNHl`, `SetNR`, `SetNHl`, `ResNR`, `ResNHl` |
| gameboy/Emulator.cpp:5045-5178 | `Cpu.Ccf`, `Scf`, `Nop`, `Halt`, `Stop`, `Di`, `Ei` |
| gameboy/Emulator.cpp:5195-5582 | `Cpu.JpNn`, `JpHl`, `JpFNn`, `JrPcDd`, `JrFPcDd`, `CallNn`, `CallFNn`, `Ret`, `RetF`, `Reti`, `RstN` |
| gameboy/Emulator.cpp:221-639 | `Decode.Dispatch` (the opcode table, a list of handlers per opcode), `Decode.ExecuteOpcode` |
| gameboy/Emulator.cpp:641-984 | `Decode.DecodeCb`, `Decode.ExecuteCbOpcode` |

## Model

| member | source | states |
|---|---|---|
| Bits.Mask | gameboy/Emulator.cpp:2069-2077 | the mask `1 << position` cut to a BYTE is 0 for positions 8 and up |
| Bits.IsBitSet | gameboy/Emulator.cpp:2065-2067 | no bit from position 8 up is set in a BYTE |
| Bits.BitSet | gameboy/Emulator.cpp:2069-2072 | the bit is set afterwards; a position from 8 up leaves the byte unchanged |
| Bits.BitReset | gameboy/Emulator.cpp:2074-2077 | the bit is clear afterwards; a position from 8 up leaves the byte unchanged |
| Bits.BitSetKeepsOthers | gameboy/Emulator.cpp:2069-2072 | setting a bit leaves every other bit of the byte as it was |
| Bits.BitResetKeepsOthers | gameboy/Emulator.cpp:2074-2077 | clearing a bit leaves every other bit of the byte as it was |
| Bits.NoChangeWhenAlready | gameboy/Emulator.cpp:2065-2077 | setting a set bit, or clearing a clear one, returns the byte unchanged |
| Bits.SameBits | gameboy/Emulator.cpp:2065-2067 | two bytes on which `isBitSet` agrees at all eight positions are equal |
| Bits.ResetUndoesSet | gameboy/Emulator.cpp:2069-2077 | clearing a bit that setting made set gives back the original byte |
| Bits.SetUndoesReset | gameboy/Emulator.cpp:2069-2077 | setting a bit that clearing made clear gives back the original byte |
| Bits.BitOfAnd | gameboy/Emulator.cpp:2065-2067 | bit q of `a & v` is set exactly when it is set in both |
| Bits.BitOfOr | gameboy/Emulator.cpp:2065-2067 | bit q of `a \| v` is set exactly when it is set in either |
| Bits.BitOfXor | gameboy/Emulator.cpp:2065-2067 | bit q of `a ^ v` is set exactly when it is set in one of them |
| Hardware.FlagLayout | gameboy/Emulator.hpp:6-9 | C < H < N < Z are four distinct bit positions inside F's upper nibble |
| Hardware.TimerRegistersConsecutive | gameboy/Emulator.hpp:12-15 | DIVIDER, TIMA, TMA and TAC are four consecutive addresses |
| Hardware.RamBankIndexInBounds | gameboy/Emulator.hpp:76-77 | bank ≤ 3 and offset < 0x2000 index inside the 0x8000-byte RAM bank array |
| Hardware.High | gameboy/Emulator.hpp:24-30 | `high` is the number of whole 256s in `regstr` (`regstr / 256`) |
| Hardware.Low | gameboy/Emulator.hpp:24-30 | `low` is `regstr` modulo 256 |
| Hardware.Pair | gameboy/Emulator.hpp:24-30 | the WORD built from two bytes has them as its `high` and `low` |
| Hardware.WithHigh | gameboy/Emulator.hpp:24-30 | assigning `high` changes only that byte of `regstr` |
| Hardware.WithLow | gameboy/Emulator.hpp:24-30 | assigning `low` changes only that byte of `regstr` |
| Hardware.Index | gameboy/Emulator.hpp:73 | every WORD address indexes inside the 0x10000-byte internal memory |
| Hardware.ByteValue | gameboy/Emulator.hpp:19 | a BYTE read as an integer lies in 0..255 and keeps order and distinctness |
| Hardware.IndexInjective | gameboy/Emulator.hpp:73 | different addresses reach different cells of the internal memory |
| Hardware.IndexBelow | gameboy/Emulator.hpp:73 | an address whose high byte is below h indexes below h·256 |
| Hardware.PairOfBytes | gameboy/Emulator.hpp:24-30 | a WORD is determined by its `high` and `low` bytes |
| Hardware.RegstrValue | gameboy/Emulator.hpp:24-30 | `regstr` equals `high`·256 + `low` |
| Hardware.MaskClearsLowNibble | gameboy/Emulator.cpp:2541-2545 | `regstr &= 0xFFF0` keeps `high` and clears exactly the low nibble of `low` |
| Hardware.Shade | gameboy/Emulator.hpp:32-37 | each `COLOUR` enumerator's value is a shade id in 0..3 |
| Hardware.ColourOf | gameboy/Emulator.hpp:32-37 | the colour for shade id 0..3 is the enumerator with that value |
| Hardware.ColourOfShade | gameboy/Emulator.hpp:32-37 | shade ids and `COLOUR` enumerators correspond one to one |
| Hardware.PaletteColour | gameboy/Emulator.cpp:1891-1918 | a colour number from 4 up gets WHITE: its shift `colourNum << 1` is 8 or more, every palette bit is shifted out, so `colourID` is 0 and `case 0b00` applies (the switch has no default) |
| Hardware.PaletteRoundTrip | gameboy/Emulator.cpp:1891-1918 | decoding the palette byte that encodes four colours gives back each colour |
| Hardware.PaletteComplete | gameboy/Emulator.cpp:1891-1918 | every palette byte is the encoding of the four colours it decodes to |
| EmulatorState.Store | gameboy/Emulator.cpp:1109-1111 | a direct store puts the byte into the addressed cell of the internal memory |
| Memory.Read | gameboy/Emulator.cpp:993-1027 | `readMem`: below 0x4000 the copy of bank 0 in internal memory is read, the echo area reads the cell 0x2000 below, 0xFEA0..0xFEFF reads 0; the rest is stated by RomBanksAlias, ReadShowsKey, ReadAfterWrite and EchoMirrorsWorkRam |
| Memory.Write | gameboy/Emulator.cpp:1029-1113 | `writeMem` never changes the cartridge ROM or the joypad byte; a write below 0x8000 leaves every memory and goes to the controller; a write from 0x8000 up leaves the ROM bank and the RAM switch; per area see WritePlain, EchoMirrorsWorkRam, UnusableArea, WriteResetsCounters, WriteStartsDma |
| Memory.HandleBanking | gameboy/Emulator.cpp:1115-1148 | `handleBanking` changes only the ROM bank, RAM bank, RAM switch and mode; without MBC1 a write from 0x4000 up does nothing; per range see RamEnableWrite, LoRomBankWrite, HiBankWrite, ModeWrite |
| Memory.WriteTac | gameboy/Emulator.cpp:1065-1097 | a TAC write stores the byte into TAC only, may change only the timer counters besides, and when it does the counter equals its reload value (WriteTacPeriod gives the value) |
| Memory.WriteRam | gameboy/Emulator.cpp:1037-1045 | only the RAM banks change; with RAM enabled the addressed cell of the selected bank holds the data; every other cell keeps its value |
| Memory.RomAddress | gameboy/Emulator.cpp:996-998 | the WORD offset keeps only the two low bits of the bank above the in-bank offset |
| Memory.RamIndex | gameboy/Emulator.cpp:1002-1006 | an external RAM address lands inside the 0x2000-byte block of the selected bank |
| Memory.JoypadRegister | gameboy/Emulator.cpp:1474-1491 | the stored upper nibble of 0xFF00; below it the direction keys when bit 4 is 0, else the buttons when bit 5 is 0, else 0 |
| Memory.RamBankEnable | gameboy/Emulator.cpp:1150-1165 | the RAM is enabled exactly when the low nibble of the data is 0xA, whatever the MBC2 address bit; nothing else changes |
| Memory.LoRomBank | gameboy/Emulator.cpp:1167-1185 | MBC2: data & 0xF with 0 mapped to 1; otherwise the upper 3 bits are kept and the lower 5 bits are data & 0x1F, never 0 |
| Memory.HiRomBank | gameboy/Emulator.cpp:1187-1198 | the lower 5 bits are kept, bits 5–6 come from the data's two low bits, bit 7 is cleared |
| Memory.RomRamMode | gameboy/Emulator.cpp:1205-1217 | ROM banking mode is chosen by a clear bit 0; it forces RAM bank 0; nothing else changes |
| Memory.TimerPeriodMatchesFrequency | gameboy/Emulator.cpp:1065-1096 | each reload value times the frequency its comment names is the 4194304 Hz clock |
| Memory.Dma | gameboy/Emulator.cpp:2035-2051 | the copy changes nothing but the internal memory |
| Memory.WriteIntoOam | gameboy/Emulator.cpp:1108-1111 | a write into the sprite attribute table is a plain store |
| Memory.DmaNext | gameboy/Emulator.cpp:2046-2050 | step n of the copy is `writeMem(0xFE00 + n, readMem(source + n))` on the state the earlier steps left |
| Memory.StoreOther | gameboy/Emulator.cpp:1110-1111 | a store changes no other cell |
| Memory.DmaKeeps | gameboy/Emulator.cpp:2046-2050 | the first n steps leave every cell but their targets as it was |
| Memory.DmaReadsAhead | gameboy/Emulator.cpp:2046-2050 | for a page-aligned source, the bytes still to be copied read as before the copy began |
| Memory.DmaWrites | gameboy/Emulator.cpp:2046-2050 | after n steps, table byte j < n holds what `source + j` read before the copy |
| Memory.ReadOam | gameboy/Emulator.cpp:1025 | a read of the sprite attribute table reads the internal memory |
| Memory.DmaByte | gameboy/Emulator.cpp:2035-2051 | after the full copy each table byte reads as its source byte did |
| Memory.WriteStartsDma | gameboy/Emulator.cpp:1105-1107 | a write to 0xFF46 is the copy from `data << 8`, a page-aligned source; the byte itself is not stored |
| Memory.DmaCopies | gameboy/Emulator.cpp:2035-2051 | after a write to 0xFF46 all 0xA0 table bytes read as the source page did |
| Memory.DmaChangesOnlyOam | gameboy/Emulator.cpp:2035-2051 | a write to 0xFF46 changes no cell outside the table and nothing but the internal memory |
| Memory.ReadOtherAfterStore | gameboy/Emulator.cpp:993-1027 | a store into the table changes no read of another address |
| Memory.WritePlain | gameboy/Emulator.cpp:1108-1111 | at an address no special case claims, a write is a store |
| Memory.ReadAfterWrite | gameboy/Emulator.cpp:993-1113 | a plain address reads back the byte last written to it |
| Memory.ReadOtherAfterWrite | gameboy/Emulator.cpp:993-1113 | a write to a plain address changes no read of another address, except that address's echo |
| Memory.EchoMirrorsWorkRam | gameboy/Emulator.cpp:1048-1051 | a write to 0xE000..0xFDFF is the write to the address 0x2000 below, and both addresses read it back |
| Memory.WriteResetsCounters | gameboy/Emulator.cpp:1060-1062 | a write to DIVIDER or to 0xFF44 stores 0 whatever the data |
| Memory.UnusableArea | gameboy/Emulator.cpp:1053-1056 | a write to 0xFEA0..0xFEFF changes nothing and a read there gives 0 |
| Memory.WriteTacPeriod | gameboy/Emulator.cpp:1065-1097 | TAC stores the data; a changed clock select sets timerCounter and timerUpdateConstant to 1024/16/64/256; an unchanged one touches neither |
| Memory.RomBanksAlias | gameboy/Emulator.cpp:996-998 | ROM bank b reads the same bytes as bank b & 3 |
| Memory.LoRomBankWrite | gameboy/Emulator.cpp:1122-1127 | any write to 0x2000..0x3FFF sets the ROM bank as `doChangeLoROMBank`, with or without a controller; under MBC1 its lower 5 bits are never 0 |
| Memory.HiBankWrite | gameboy/Emulator.cpp:1130-1138 | under MBC1, a write to 0x4000..0x5FFF changes the ROM bank's upper bits in ROM banking mode, else selects RAM bank data & 3 |
| Memory.ModeWrite | gameboy/Emulator.cpp:1142-1146 | under MBC1, a write to 0x6000..0x7FFF picks the mode by bit 0; ROM mode selects RAM bank 0; the RAM bank stays in 0..3 |
| Memory.RamEnableWrite | gameboy/Emulator.cpp:1039-1044 | a write below 0x2000 enables the RAM exactly when the low nibble is 0xA; external RAM writes are dropped while disabled |
| Stack.Push | gameboy/Emulator.cpp:1257-1260 | a push moves the stack pointer down by 2 |
| Stack.PushBytesInTurn | gameboy/Emulator.cpp:1257-1260 | the two writes of a push, high byte to SP−1 first, then low byte to SP−2 |
| Stack.Top | gameboy/Emulator.cpp:2535-2548 | the popped word has the byte at SP as its `low` and the byte at SP+1 as its `high` |
| Stack.PushedBytes | gameboy/Emulator.cpp:1257-1260 | in plain memory the pushed word sits at SP−2, low byte first |
| Stack.PushedWord | gameboy/Emulator.cpp:2514-2523 | after a push in plain memory the new stack pointer points at the pushed word |
| Stack.TopOfBytes | gameboy/Emulator.cpp:2535-2548 | a pop reads back the word whose bytes lie at SP and SP+1 |
| Stack.PushThenTop | gameboy/Emulator.cpp:2514-2548 | a pop after a push reads the pushed word, and the push moved SP down by exactly 2 |
| Interrupts.FlagInterrupt | gameboy/Emulator.cpp:1239-1247 | the halt ends; the program counter, stack pointer and master switch are kept |
| Interrupts.RequestWrite | gameboy/Emulator.cpp:1246 | the request register reads back what was written to it |
| Interrupts.FlagInterruptRequests | gameboy/Emulator.cpp:1239-1247 | the request register afterwards is the old one with bit id set |
| Interrupts.Vector | gameboy/Emulator.cpp:1278-1291 | ids 0, 1, 2, 4 jump to 0x40 + 8·id (0x40, 0x48, 0x50, 0x60); id 3 and others leave the PC |
| Interrupts.TriggerInterrupt | gameboy/Emulator.cpp:1274-1292 | the stack pointer and master switch are kept |
| Interrupts.TriggerAcknowledges | gameboy/Emulator.cpp:1274-1277 | the request register afterwards is the old one with bit id cleared |
| Interrupts.ServiceStep | gameboy/Emulator.cpp:1264-1268 | an iteration keeps the stack pointer and master switch |
| Interrupts.Service | gameboy/Emulator.cpp:1263-1269 | the loop keeps the stack pointer and master switch |
| Interrupts.HandleInterrupts | gameboy/Emulator.cpp:1249-1272 | nothing changes while the master switch is off or no requested interrupt is enabled |
| Interrupts.ResetBit | gameboy/Emulator.cpp:2074-2077 | after clearing bit i, bit q is set exactly when it was and q ≠ i |
| Interrupts.StepBit | gameboy/Emulator.cpp:1264-1268 | an iteration clears request bit i exactly when interrupt i is pending and keeps the others |
| Interrupts.ServiceBit | gameboy/Emulator.cpp:1263-1269 | after iterations i..4, a request bit is set exactly when it was and the loop did not acknowledge it |
| Interrupts.LastVector | gameboy/Emulator.cpp:1278-1291 | with none of ids 0, 1, 2, 4 pending the program counter is kept |
| Interrupts.VectorStep | gameboy/Emulator.cpp:1263-1269 | the vector chosen from id i up is the one chosen from i+1 up, starting from i's vector when i is pending |
| Interrupts.PendingBit | gameboy/Emulator.cpp:1264-1266 | interrupt i is pending exactly when bit i of `request & enabled` is set |
| Interrupts.StepPc | gameboy/Emulator.cpp:1264-1268 | an iteration jumps to interrupt i's vector when it is pending, else keeps the PC |
| Interrupts.ServicePc | gameboy/Emulator.cpp:1263-1269 | after iterations i..4 the PC is the vector of the highest pending id among i..4 with a vector, or unchanged |
| Interrupts.RequestWriteKeepsWord | gameboy/Emulator.cpp:1277 | a request-register write leaves a word elsewhere on the stack alone |
| Interrupts.StepKeepsWord | gameboy/Emulator.cpp:1264-1268 | an iteration leaves a word elsewhere on the stack alone |
| Interrupts.ServiceKeepsWord | gameboy/Emulator.cpp:1263-1269 | the loop leaves a word elsewhere on the stack alone |
| Interrupts.HandleIsService | gameboy/Emulator.cpp:1249-1272 | when it services, `handleInterrupts` is the loop run with master switch off and PC pushed |
| Interrupts.HandleDisablesAndPushes | gameboy/Emulator.cpp:1254-1260 | servicing clears the master switch and moves SP down by 2 |
| Interrupts.Entered | gameboy/Emulator.cpp:1255-1260 | the entry into the service clears the master switch, moves SP down by 2 and keeps the PC and the halt latch |
| Interrupts.EnteredWord | gameboy/Emulator.cpp:1255-1260 | the entry pushes the program counter, high byte at SP+1 |
| Interrupts.ServiceKeepsPc | gameboy/Emulator.cpp:1257-1269 | the loop keeps the word the entry pushed |
| Interrupts.HandlePushesPc | gameboy/Emulator.cpp:1249-1272 | after servicing, the old PC is on top of the stack, high byte at SP+1 (plain stack, away from 0xFF0F) |
| Interrupts.HandleJumps | gameboy/Emulator.cpp:1249-1272 | after servicing, the PC is the vector of the highest-numbered pending interrupt among 0, 1, 2, 4, unchanged if only 3 |
| Interrupts.HandleAcknowledges | gameboy/Emulator.cpp:1249-1272 | servicing clears exactly the request bits 0..4 that were requested and enabled |
| Timers.TickDivider | gameboy/Emulator.cpp:1346-1352 | the divider counter restarts from 0 once it reaches 256, else accumulates the cycles |
| Timers.TickTimer | gameboy/Emulator.cpp:1354-1377 | with the clock disabled the timer half changes nothing |
| Timers.TickCountsDown | gameboy/Emulator.cpp:1354-1359 | with the clock running and cycles still left, a tick only counts `timerCounter` down by the cycles; TIMA and everything else stay |
| Timers.TickKeepsCpu | gameboy/Emulator.cpp:1354-1377 | the timer half leaves the program counter, stack pointer and divider counter alone |
| Timers.UpdateTimers | gameboy/Emulator.cpp:1300-1379 | `updateTimers` keeps PC and SP and keeps the divider counter in 0..255; its halves are stated by TickDivider, DividerIncrements, TickTimer, TickCountsDown and TickKeepsCounterInRange |
| Timers.IncrementTima | gameboy/Emulator.cpp:1359-1375 | the TIMA step keeps PC, SP, the divider and the master switch, and an overflow ends a halt; its effect on TIMA is stated by IncrementCounts, OverflowReloads and OverflowRaisesTimerInterrupt |
| Timers.DividerInRange | gameboy/Emulator.cpp:1346-1352 | the divider counter stays in 0..255 for non-negative cycle counts |
| Timers.DividerIncrements | gameboy/Emulator.cpp:1349-1352 | when the counter restarts, DIVIDER moves on by one, wrapping at 0xFF |
| Timers.DividerWaits | gameboy/Emulator.cpp:1346-1352 | before 256 cycles the memory is untouched |
| Timers.IncrementKeepsCounters | gameboy/Emulator.cpp:1365-1373 | the TIMA step leaves timerCounter and timerUpdateConstant alone |
| Timers.TickKeepsCounterInRange | gameboy/Emulator.cpp:1354-1377 | the timer counter stays in 1..period, and is reloaded with the period when it runs out |
| Timers.IncrementCounts | gameboy/Emulator.cpp:1371-1373 | TIMA below 0xFF is incremented and no interrupt is requested |
| Timers.ReloadWrite | gameboy/Emulator.cpp:1367 | the reload stores TMA into TIMA and leaves the request register |
| Timers.FlagKeepsTima | gameboy/Emulator.cpp:1369 | requesting an interrupt leaves TIMA |
| Timers.OverflowReloads | gameboy/Emulator.cpp:1365-1369 | TIMA at 0xFF is reloaded from TMA |
| Timers.OverflowRequests | gameboy/Emulator.cpp:1365-1369 | TIMA at 0xFF sets bit 2 of the request register and keeps the other requests |
| Timers.OverflowRaisesTimerInterrupt | gameboy/Emulator.cpp:1365-1369 | TIMA at 0xFF requests the timer interrupt |
| Joypad.ButtonPressed | gameboy/Emulator.cpp:1436-1468 | after a press the key reads as down (its bit clear) and only the memory and halt latch change; the request rule is stated by PressRequests and PressedState |
| Joypad.ButtonReleased | gameboy/Emulator.cpp:1470-1472 | the key's bit of the joypad byte is set, every other bit kept |
| Joypad.FlagKeepsJoypad | gameboy/Emulator.cpp:1239-1247 | requesting an interrupt leaves the joypad byte and the stored 0xFF00 |
| Joypad.PressedState | gameboy/Emulator.cpp:1436-1468 | a press leaves the joypad byte with exactly the key's bit cleared |
| Joypad.PressClearsKey | gameboy/Emulator.cpp:1436-1468 | after a press bit q is set exactly when q is not the key and it was set |
| Joypad.PressRequests | gameboy/Emulator.cpp:1436-1468 | a press requests interrupt 4 exactly when the key was up and its group is selected, and requests nothing else |
| Joypad.PressKeepsCpu | gameboy/Emulator.cpp:1436-1468 | a press keeps PC and SP; a requesting press ends a halt |
| Joypad.ReleaseUndoesPress | gameboy/Emulator.cpp:1436-1472 | releasing a key that was up before it was pressed restores the joypad byte |
| Joypad.ReadShowsKey | gameboy/Emulator.cpp:1474-1491 | bit q of a read of 0xFF00 is the selected group's key bit q |
| Joypad.PressedDirectionVisible | gameboy/Emulator.cpp:1436-1491 | after a direction key is pressed, a read selecting the direction keys shows it pressed |
| Graphics.StatusMode | gameboy/Emulator.cpp:1653-1699 | the mode is in 0..3, and is 1 exactly on lines 144 and up |
| Graphics.WithMode | gameboy/Emulator.cpp:1653-1699 | the status bits 0–1 hold the mode and bits 2–7 are kept |
| Graphics.GetColour | gameboy/Emulator.cpp:1891-1918 | colour number n gets the shade in bits 2n+1..2n of the palette register |
| Graphics.IoRead | gameboy/Emulator.cpp:1025 | the registers above 0xFF00 read as stored |
| Graphics.StoreKeepsIo | gameboy/Emulator.cpp:1606 | a direct store to one register leaves reads of another alone |
| Graphics.StatusWrite | gameboy/Emulator.cpp:1719 | the status write stores the status and leaves the other registers |
| Graphics.FlagKeepsLcd | gameboy/Emulator.cpp:1614 | requesting an interrupt leaves the LCD registers and counters |
| Graphics.RequestIfKeepsLcd | gameboy/Emulator.cpp:1702-1713 | requesting the LCD status interrupt leaves the LCD registers |
| Graphics.NewStatusBits | gameboy/Emulator.cpp:1646-1719 | with the LCD on, the status written has the mode in bits 0–1, the LY = LYC coincidence in bit 2, bits 3–7 as they were |
| Graphics.SetLcdStatus | gameboy/Emulator.cpp:1630-1721 | the cycle count is kept while the LCD is on and set to 456 while it is off; PC, SP, master switch and divider are kept; the status and requests are stated by EnabledStatus, DisabledResets, EnabledRequests, DisabledRequests |
| Graphics.EnabledStatus | gameboy/Emulator.cpp:1630-1721 | with the LCD on, STAT afterwards holds that status; LY, LYC, LCDC and the cycle count are kept |
| Graphics.DisabledResets | gameboy/Emulator.cpp:1634-1644 | with the LCD off, STAT shows mode 1, LY reads 0 and 456 cycles are left |
| Graphics.RequestIfRequests | gameboy/Emulator.cpp:1702-1713 | the request register gains bit 1 exactly when the condition holds |
| Graphics.WriteStatusRequests | gameboy/Emulator.cpp:1719 | the status write leaves the request register |
| Graphics.EnabledRequests | gameboy/Emulator.cpp:1646-1719 | with the LCD on, the LCD interrupt is requested exactly when an enabled mode is entered or LY = LYC with bit 6 set |
| Graphics.DisabledRequests | gameboy/Emulator.cpp:1634-1644 | with the LCD off nothing is requested |
| Graphics.UpdateGraphics | gameboy/Emulator.cpp:1593-1628 | `updateGraphics` keeps PC, SP, master switch and divider; its line and counter ranges are UpdateKeepsLine and UpdateKeepsCount |
| Graphics.Advance | gameboy/Emulator.cpp:1597-1627 | with the LCD off nothing changes; a line that runs out leaves 456 cycles; only the memory, halt latch and counter change |
| Graphics.IncrementLine | gameboy/Emulator.cpp:1606-1609 | LY moves on by one in the byte and 456 cycles are left; nothing else changes |
| Graphics.NextLine | gameboy/Emulator.cpp:1603-1626 | a new line leaves 456 cycles and changes only the memory, halt latch and counter; NextLineCounts and NextLineRequests state the LY and the interrupt |
| Graphics.NextLineInRange | gameboy/Emulator.cpp:1603-1626 | after a line ends, LY is in 0..153 and 456 cycles are left |
| Graphics.NextLineCounts | gameboy/Emulator.cpp:1603-1626 | lines before 153 move on by one; line 153 and every line after it, 0xFF included (it wraps to 0 in the byte), go back to 0 |
| Graphics.NextLineRequests | gameboy/Emulator.cpp:1611-1615 | moving to line 144 requests the vertical blank interrupt; no other move requests anything |
| Graphics.AdvanceKeepsCount | gameboy/Emulator.cpp:1597-1626 | the scanline counter stays in 1..456 for non-negative cycle counts |
| Graphics.UpdateKeepsLine | gameboy/Emulator.cpp:1593-1628 | `updateGraphics` keeps LY in 0..153 |
| Graphics.UpdateKeepsCount | gameboy/Emulator.cpp:1593-1628 | `updateGraphics` keeps the scanline counter in 1..456 |
| Alu.FlagsAreBits | gameboy/Emulator.hpp:6-9 | each flag predicate is `isBitSet` at that flag's position |
| Alu.Flags | gameboy/Emulator.hpp:6-9 | F holds exactly the four given flags, low nibble 0 |
| Alu.FlagsFrom | gameboy/Emulator.cpp:2578-2593 | F built by setting bits from 0 is the F with exactly those flags |
| Alu.CarryBit | gameboy/Emulator.cpp:2699 | the carry as a byte is bit 4 of F, the carry flag's position, moved down to bit 0 |
| Alu.AddOut | gameboy/Emulator.cpp:2570-2596 | Z iff the result is 0, N clear, F's low nibble 0; when the result is A + operand, the handlers' XOR test for H is the carry out of the low nibbles and their `result < A` test for C is the carry out of the byte (the sum exceeds 0xFF) |
| Alu.Add | gameboy/Emulator.cpp:2570-2596 | A + v mod 256; Z iff 0, N clear, H iff the low nibbles overflow, C iff A + v > 0xFF, low nibble 0 |
| Alu.AdcImmediate | gameboy/Emulator.cpp:2740-2770 | A + v + carry mod 256; Z iff 0, N clear, H the nibble carry and C the byte carry of A plus the byte carry + v (so a wrapped operand carries nothing); with C clear it is ADD |
| Alu.AdcDoubled | gameboy/Emulator.cpp:2697-2725 | A + v + 2·carry mod 256; Z iff 0, N clear, H iff the low nibbles of A and carry + v plus the carry exceed 0xF, C iff the result is below A |
| Alu.SubOut | gameboy/Emulator.cpp:2829-2859 | the difference plus the operand is A; H and C are the borrows from bits 4 and 8 |
| Alu.Sub | gameboy/Emulator.cpp:2829-2859 | A − v mod 256; Z iff 0, N set, H iff A's low nibble is below v's, C iff A < v |
| Alu.Sbc | gameboy/Emulator.cpp:2970-3002 | result + v + carry = A mod 256; Z iff 0, N set, H and C the borrows of A minus the byte carry + v; with C clear it is SUB |
| Alu.And | gameboy/Emulator.cpp:3114-3133 | Z iff the result is 0, H set, N and C clear |
| Alu.Xor | gameboy/Emulator.cpp:3217-3233 | only Z can be set |
| Alu.Or | gameboy/Emulator.cpp:3312-3328 | only Z can be set |
| Alu.Cp | gameboy/Emulator.cpp:3408-3437 | A unchanged; Z iff A = v, N set, H the nibble borrow, C iff A < v |
| Alu.Inc | gameboy/Emulator.cpp:3546-3573 | v + 1; Z iff 0, N clear, H iff the low nibble was 0xF, C and F's low nibble kept |
| Alu.Dec | gameboy/Emulator.cpp:3634-3660 | v − 1; Z iff 0, N set, H iff the low nibble was 0, C and F's low nibble kept |
| Alu.DaaOut | gameboy/Emulator.cpp:3750-3767 | A is the low byte of the adjusted value; H clear; C set or kept from bit 8; Z iff 0 |
| Alu.Daa | gameboy/Emulator.cpp:3717-3767 | H cleared, N kept, Z iff A is 0, a set C stays set |
| Alu.Cpl | gameboy/Emulator.cpp:3782-3796 | A complemented; N and H set; Z and C kept |
| Alu.AddWord | gameboy/Emulator.cpp:3818-3843 | HL + rr mod 2^16; N clear, Z kept, H and C the carries out of bits 11 and 15 |
| Alu.AddWordFlags | gameboy/Emulator.cpp:3826-3840 | F from the result: H from bit 12 of `result ^ hl ^ rr`, C iff the result is below HL |
| Alu.SignExtend | gameboy/Emulator.cpp:3903-3906 | the signed byte widened to a WORD keeps its low byte and fills the high byte with its sign |
| Alu.AddSigned | gameboy/Emulator.cpp:3899-3927 | SP + signed dd; Z and N clear; H and C the carries of the unsigned low-byte addition |
| Alu.AddSignedFlags | gameboy/Emulator.cpp:3910-3924 | H iff the result's low nibble is below SP's, C iff its low byte is below SP's |
| Alu.ShiftFlags | gameboy/Emulator.cpp:4164-4194 | Z iff the result is 0, N and H clear, C the bit shifted out |
| Alu.AccumulatorFlags | gameboy/Emulator.cpp:3994-4020 | Z, N and H clear, C the bit shifted out |
| Alu.Rlc | gameboy/Emulator.cpp:4164-4194 | the byte rotated left, bit 7 into C |
| Alu.Rrc | gameboy/Emulator.cpp:4353-4383 | the byte rotated right, bit 0 into C |
| Alu.Rl | gameboy/Emulator.cpp:4258-4288 | the old carry becomes bit 0, bit 7 goes into C |
| Alu.Rr | gameboy/Emulator.cpp:4447-4477 | the old carry becomes bit 7, bit 0 goes into C |
| Alu.Sla | gameboy/Emulator.cpp:4542-4569 | v·2 mod 256, bit 7 into C |
| Alu.Sra | gameboy/Emulator.cpp:4709-4736 | bit 7 kept, bit 0 into C |
| Alu.Srl | gameboy/Emulator.cpp:4798-4828 | v / 2, bit 0 into C |
| Alu.Swap | gameboy/Emulator.cpp:4628-4652 | the nibbles exchanged, C clear |
| Alu.Rlca | gameboy/Emulator.cpp:3994-4020 | RLC's result with Z cleared |
| Alu.Rla | gameboy/Emulator.cpp:4037-4063 | RL's result with Z cleared |
| Alu.Rrca | gameboy/Emulator.cpp:4079-4104 | RRC's result with Z cleared |
| Alu.Rra | gameboy/Emulator.cpp:4121-4147 | RR's result with Z cleared |
| Alu.Bit | gameboy/Emulator.cpp:4896-4911 | Z iff bit n is clear; N clear, H set, C kept |
| Alu.Ccf | gameboy/Emulator.cpp:5045-5060 | C complemented, N and H clear, Z kept |
| Alu.Scf | gameboy/Emulator.cpp:5075-5088 | C set, N and H clear, Z kept |
| Alu.ConditionHolds | gameboy/Emulator.cpp:583-613 | per opcode of the switch: JR/RET/JP/CALL 0x20, 0xC0, 0xC2, 0xC4 test NZ; 0x28, 0xC8, 0xCA, 0xCC test Z; 0x30, 0xD0, 0xD2, 0xD4 test NC; 0x38, 0xD8, 0xDA, 0xDC test C |
| Alu.RstTarget | gameboy/Emulator.cpp:5566-5582 | the target is bits 5..3 of the opcode times 8, one of 0x00..0x38 |
| Alu.AndBits | gameboy/Emulator.cpp:3114-3133 | AND acts bit by bit |
| Alu.XorBits | gameboy/Emulator.cpp:3217-3233 | XOR acts bit by bit |
| Alu.OrBits | gameboy/Emulator.cpp:3312-3328 | OR acts bit by bit |
| Alu.XorSelfClears | gameboy/Emulator.cpp:3217-3233 | XOR A with itself gives 0 with Z set |
| Alu.SubUndoesAdd | gameboy/Emulator.cpp:2829-2859 | SUB v after ADD v gives A back, borrowing exactly where the add carried |
| Alu.DecUndoesInc | gameboy/Emulator.cpp:3634-3660 | DEC after INC gives the byte back with the same H, and C passes through |
| Alu.AdcAgreesWithCarryIn | gameboy/Emulator.cpp:2740-2770 | unless the operand is 0xFF with C set, ADC A,n's C is the carry out of A + n + carry, and H that of the low nibbles when they fit |
| Alu.AdcHalfCarryFromWrappedOperand | gameboy/Emulator.cpp:2740-2770 | with C set, 0 + 0x0F + carry leaves H clear in ADC A,n and SBC A,n |
| Alu.AdcImmediateWraps | gameboy/Emulator.cpp:2740-2770 | with C set and operand 0xFF, ADC A,n leaves A unchanged and clears C |
| Alu.AdcDoubledWithoutCarry | gameboy/Emulator.cpp:2697-2725 | with C clear, ADC A,r is ADD A,r |
| Alu.AdcDoubleCarry | gameboy/Emulator.cpp:2697-2700 | with C set, ADC A,r on 0 and 0 gives 2 where ADC A,n gives 1 |
| Alu.SbcAgreesWithBorrowIn | gameboy/Emulator.cpp:2970-3002 | unless the operand is 0xFF with C set, SBC's C is the borrow of A − v − carry, and H that of the low nibbles when they fit |
| Alu.RotateBits | gameboy/Emulator.cpp:4164-4194 | rotating moves bit q to q+1 (left) or q+1 to q (right), mod 8 |
| Alu.LeftShiftBits | gameboy/Emulator.cpp:4542-4569 | RL and SLA move every bit up one place |
| Alu.RightShiftBits | gameboy/Emulator.cpp:4798-4828 | RR, SRA and SRL move every bit down one place |
| Alu.RotatesUndoEachOther | gameboy/Emulator.cpp:4353-4383 | RRC undoes RLC and RLC undoes RRC |
| Alu.RotatesThroughCarryUndoEachOther | gameboy/Emulator.cpp:4447-4477 | RR undoes RL and RL undoes RR, byte and carry alike |
| Alu.SwapAndCplInvolutions | gameboy/Emulator.cpp:4628-4652 | SWAP twice and CPL twice give the byte back |
| Alu.CarryFlagInstructions | gameboy/Emulator.cpp:5045-5088 | CCF twice gives C back; SCF then CCF clears it |
| Alu.DigitColumn | gameboy/Emulator.cpp:3717-3767 | a decimal column's digit and carry out sum the digits and carry in, as integers |
| Alu.OnesColumn | gameboy/Emulator.cpp:3717-3767 | the ones column of a BCD addition, read as integers |
| Alu.TensColumn | gameboy/Emulator.cpp:3717-3767 | the tens column of a BCD addition, read as integers |
| Alu.AddColumns | gameboy/Emulator.cpp:3717-3767 | two columns with their carries add the two numbers |
| Alu.TwoColumns | gameboy/Emulator.cpp:3717-3767 | digit-wise addition of BCD bytes is addition of their values |
| Alu.DaaOutDigits | gameboy/Emulator.cpp:3750-3767 | DAA's last step keeps both digits of the adjusted value and reports the tens carry in C |
| Alu.LowCarry | gameboy/Emulator.cpp:3727-3735 | the ones-column carry is 0 or 1 |
| Alu.LowBorrow | gameboy/Emulator.cpp:3737-3745 | the ones-column borrow is 0 or 1 |
| Alu.TensCarry | gameboy/Emulator.cpp:3750-3760 | the tens carry is 0 or 1 |
| Alu.DaaOutSum | gameboy/Emulator.cpp:3750-3767 | a column-wise sum in the adjusted value leaves the BCD sum in A and its carry in C |
| Alu.DaaOutDifference | gameboy/Emulator.cpp:3750-3767 | a column-wise difference leaves the BCD difference in A and the borrow in C |
| Alu.DaaAddColumns | gameboy/Emulator.cpp:3717-3767 | after an addition of BCD bytes, the value DAA adjusts holds their sum column by column |
| Alu.DaaAfterAddition | gameboy/Emulator.cpp:3717-3767 | DAA after ADD of BCD bytes yields a BCD byte; it plus 100·C is the sum |
| Alu.DaaAfterAdd | gameboy/Emulator.cpp:3717-3767 | ADD then DAA on BCD bytes: A is a BCD byte, and A + 100·C is the decimal sum |
| Alu.DaaSubColumns | gameboy/Emulator.cpp:3717-3767 | after a subtraction of BCD bytes, the value DAA adjusts holds their difference column by column |
| Alu.DaaAfterSubtraction | gameboy/Emulator.cpp:3717-3767 | DAA after SUB of BCD bytes yields a BCD byte; it plus y is x + 100·C |
| Alu.DaaAfterSub | gameboy/Emulator.cpp:3717-3767 | SUB then DAA on BCD bytes: A is a BCD byte, and A + y = x + 100·C |
| Operands.Set | gameboy/Emulator.hpp:24-30 | writing one 8-bit register changes no other register and not the flags |
| Operands.Set16 | gameboy/Emulator.hpp:24-30 | writing one pair or SP changes no other pair |
| Operands.PairsHoldRegisters | gameboy/Emulator.hpp:24-30 | each pair holds its two 8-bit registers, high half first |
| Cpu.Imm16 | gameboy/Emulator.cpp:2223-2226 | the immediate word has the byte at PC as `low` and the byte at PC+1 as `high` |
| Cpu.SetFlags | gameboy/Emulator.hpp:24-30 | the flag byte is replaced and no 8-bit register changes |
| Cpu.LowHl | gameboy/Emulator.cpp:4976 | the address SET/RES (HL) use is below 0x100 |
| Cpu.AddRegister | gameboy/Emulator.cpp:2570-2596 | A becomes A + r mod 256; Z iff 0; N clear; H iff low nibbles overflow; C iff A + r > 0xFF; no other register changes |
| Cpu.CompareRegister | gameboy/Emulator.cpp:3408-3437 | CP r keeps A; Z iff A = r; C iff A < r |
| Cpu.SubUndoesAddRegister | gameboy/Emulator.cpp:2829-2859 | SUB r after ADD A,r restores A for r ≠ A |
| Cpu.DecUndoesIncRegister | gameboy/Emulator.cpp:3634-3660 | DEC r after INC r restores r and keeps C |
| Cpu.SwapTwice | gameboy/Emulator.cpp:4628-4652 | SWAP r twice restores r |
| Cpu.RrcUndoesRlc | gameboy/Emulator.cpp:4353-4383 | RRC r after RLC r restores r |
| Cpu.RrUndoesRl | gameboy/Emulator.cpp:4447-4477 | RR r after RL r restores r and C |
| Cpu.BitTests | gameboy/Emulator.cpp:4896-4911 | BIT n,r sets Z iff bit n of r is clear and changes no register |
| Cpu.BitAfterSetAndReset | gameboy/Emulator.cpp:4954-5003 | BIT after SET finds the bit set, after RES finds it clear |
| Cpu.ResUndoesSet | gameboy/Emulator.cpp:4995-5003 | RES n,r after SET n,r restores an r whose bit n was clear |
| Cpu.BitWritesMissHl | gameboy/Emulator.cpp:4973-5024 | SET/RES n,(HL) address `regHL.low`, below 0x8000: no memory changes and (HL) reads as before |
| Cpu.LoadAfterStore | gameboy/Emulator.cpp:2136-2159 | LD r,(HL) after LD (HL),q loads q's value at a plain HL |
| Cpu.StoreAndIncrement | gameboy/Emulator.cpp:2375-2382 | LDI (HL),A stores A at HL and increments HL |
| Cpu.StoreAndDecrement | gameboy/Emulator.cpp:2411-2418 | LDD (HL),A stores A at HL and decrements HL |
| Cpu.WrittenWord | gameboy/Emulator.cpp:2491-2502 | a word written low byte first to two plain addresses reads back |
| Cpu.StoreStackPointer | gameboy/Emulator.cpp:2491-2502 | LD (nn),SP stores SP at nn, low byte first |
| Cpu.PopAfterPush | gameboy/Emulator.cpp:2514-2548 | POP rr after PUSH rr restores the pair (AF with F's low nibble cleared) and SP |
| Cpu.PopValue | gameboy/Emulator.cpp:2535-2548 | POP rr loads the word on top of the stack and moves SP up by 2 |
| Cpu.PopAfClearsLowNibble | gameboy/Emulator.cpp:2535-2548 | POP AF leaves F's low nibble clear and A the byte at SP+1 |
| Cpu.IncDecPairs | gameboy/Emulator.cpp:3855-3883 | INC rr and DEC rr undo each other |
| Cpu.SignedOffsetsAgree | gameboy/Emulator.cpp:3943-3971 | LD HL,SP+dd computes ADD SP,dd's SP and flags, and keeps SP |
| Cpu.JumpToSelf | gameboy/Emulator.cpp:5286-5297 | JR with displacement −2 jumps back to its own opcode |
| Cpu.ConditionalForms | gameboy/Emulator.cpp:5241-5515 | a conditional jump, call or return acts as its unconditional form when the condition holds, else only skips its operands |
| Cpu.CallPushesReturn | gameboy/Emulator.cpp:5354-5375 | CALL nn jumps to nn and pushes the address after its operand |
| Cpu.ReturnAfterCall | gameboy/Emulator.cpp:5446-5461 | RET after CALL nn continues after the call with SP restored |
| Cpu.ReturnAfterRestart | gameboy/Emulator.cpp:5566-5582 | RST jumps to one of 0x00..0x38; RET then returns after it with SP restored |
| Cpu.HaltUntilRequest | gameboy/Emulator.cpp:5114-5140 | HALT and STOP only set the halt latch; a later interrupt request clears it, keeps the PC past the opcode and sets exactly its request bit |
| Cpu.MasterSwitch | gameboy/Emulator.cpp:5151-5178 | DI and EI change only IME; after DI handleInterrupts changes nothing, after EI a pending enabled interrupt is serviced and IME goes off again |
| Cpu.ReturnFromInterrupt | gameboy/Emulator.cpp:5526-5544 | RETI is RET with IME set; after servicing an interrupt it restores the PC and SP and re-enables interrupts |
| Cpu.LoadAThroughPair | gameboy/Emulator.cpp:2189-2212 | LD A,(BC) and LD A,(DE) load A from the addressed byte and keep the other registers |
| Cpu.LoadAFromOperand | gameboy/Emulator.cpp:2223-2232 | LD A,(nn) loads A from the operand's address, keeps the other registers and steps the PC by 2 |
| Cpu.LoadAndStepHl | gameboy/Emulator.cpp:2393-2436 | LDI/LDD A,(HL) load A from the old HL, then move HL up or down by one |
| Cpu.HighPageRoundTrip | gameboy/Emulator.cpp:2340-2364 | LD A,(0xFF00+C) after LD (0xFF00+C),A gives A back at a plain register |
| Cpu.HighPageStore | gameboy/Emulator.cpp:2320-2328 | LD (0xFF00+n),A leaves A readable at 0xFF00 + n when that register is plain |
| Cpu.HighPageLoad | gameboy/Emulator.cpp:2300-2308 | LD A,(0xFF00+n) loads A from 0xFF00 + n and steps past the operand |
| Decode.UndefinedOpcodes | gameboy/Emulator.cpp:221-639 | exactly the eleven unlisted opcodes leave the cycle count undefined |
| Decode.Gaps | gameboy/Emulator.cpp:221-639 | the switch has no case for exactly the eleven opcodes |
| Decode.NoGapBelow | gameboy/Emulator.cpp:221-639 | every opcode below 0xC0 has a case |
| Decode.FallThroughOpcodes | gameboy/Emulator.cpp:442-482 | exactly 0xA6, 0xAE, 0xB6, 0xBE run two handlers; no case runs more |
| Decode.RunTwo | gameboy/Emulator.cpp:442-443 | a case of two handlers runs them in turn on the state the first leaves |
| Decode.FallThroughBlock | gameboy/Emulator.cpp:442-482 | a fall-through case is the (HL) handler followed by the A-register form of the same operation |
| Decode.XorHlClearsA | gameboy/Emulator.cpp:455-456 | XOR (HL) always ends with A = 0, Z set, in 4 cycles |
| Decode.CpHlAlwaysEqual | gameboy/Emulator.cpp:481-482 | CP (HL) always ends with Z and N set, H and C clear, A unchanged, in 4 cycles |
| Decode.AndHlCycles | gameboy/Emulator.cpp:442-443 | AND (HL) leaves the state AND_HL leaves, and reports the 4 cycles of AND A |
| Decode.OrHlCycles | gameboy/Emulator.cpp:468-469 | OR (HL) leaves the state OR_HL leaves, and reports the 4 cycles of OR A |
| Decode.ExecuteNextOpcode | gameboy/Emulator.cpp:202-219 | a halted CPU runs NOP: nothing changes and 4 cycles pass; an undefined opcode only moves the PC past itself; which opcodes are undefined is UndefinedOpcodes |
| Decode.HaltedWaits | gameboy/Emulator.cpp:211-212 | a halted CPU changes nothing and takes 4 cycles |
| Decode.SelfLoad | gameboy/Emulator.cpp:2098-2104 | LD r,r changes nothing |
| Decode.BitOpcodesOnlyTest | gameboy/Emulator.cpp:742-819 | CB opcodes 0x40..0x7F change only the flags and move PC past the opcode |
| Decode.CbBitRange | gameboy/Emulator.cpp:742-819 | CB opcodes 0x40..0x7F decode to BIT |
| Boot.Initialise | gameboy/Emulator.cpp:67-97 | the stores keep the memory's size |
| Boot.SortedFromAscends | gameboy/Emulator.cpp:67-97 | ascending neighbours make the rest of the table ascend |
| Boot.ResetTableTail | gameboy/Emulator.cpp:82-97 | the second half of the reset table ascends |
| Boot.ResetTableAscends | gameboy/Emulator.cpp:67-97 | `resetCPU` stores to each I/O register once, in ascending order |
| Boot.SortedAscends | gameboy/Emulator.cpp:67-97 | a table whose neighbours ascend ascends throughout |
| Boot.InitialiseSets | gameboy/Emulator.cpp:67-97 | each register of an ascending table ends up holding its value |
| Boot.InitialiseKeeps | gameboy/Emulator.cpp:67-97 | a cell no entry names keeps its value |
| Boot.InitialiseOverwrites | gameboy/Emulator.cpp:67-97 | the stores' result does not depend on what the named cells held |
| Boot.Mapper | gameboy/Emulator.cpp:99-111 | MBC1 exactly for types 1–3, MBC2 exactly for types 5–6, never both |
| Boot.Reset | gameboy/Emulator.cpp:55-135 | `resetCPU` keeps the cartridge, the RAM switch and the banking mode, zeroes every RAM bank, and leaves interrupts off and the CPU running; the registers are ResetRegisters, the rest ResetKeepsMemory, ResetHardware, ResetIdempotent |
| Boot.ResetRegisters | gameboy/Emulator.cpp:67-97 | after a reset each register of the table holds its value |
| Boot.ResetKeepsMemory | gameboy/Emulator.cpp:55-135 | a reset leaves every other internal memory cell alone |
| Boot.ResetHardware | gameboy/Emulator.cpp:55-135 | LCD on, timer stopped, IE 0, external RAM zero, ROM bank 1; cartridge, enableRAM and ROMBanking kept |
| Boot.ResetIdempotent | gameboy/Emulator.cpp:55-135 | a second reset changes nothing |
| Boot.Load | gameboy/Emulator.cpp:137-175 | the cartridge begins with the image, the internal memory from 0x8000 up is kept, and only the cartridge and internal memory change; see LoadFixedBank, LoadSwitchableBank, LoadKeepsUpper |
| Boot.Cartridge | gameboy/Emulator.cpp:139-172 | the cartridge array is the image followed by zeros, 2 MiB long |
| Boot.LoadedCell | gameboy/Emulator.cpp:172 | below 0x8000 the internal memory holds the image; above, it is unchanged |
| Boot.AboveWindow | gameboy/Emulator.cpp:172 | addresses from 0x8000 lie above the copied window |
| Boot.LoadFixedBank | gameboy/Emulator.cpp:137-175 | after a load, reads below 0x4000 see the image |
| Boot.LoadKeepsUpper | gameboy/Emulator.cpp:137-175 | a load changes no read from 0x8000 up |
| Boot.LoadSwitchableBank | gameboy/Emulator.cpp:137-175 | with bank 1 selected, reads of 0x4000..0x7FFF see the image at the same offset |
| Boot.BankOneAddress | gameboy/Emulator.cpp:996-998 | bank 1 maps the switchable area to the same cartridge offsets |
| Boot.LoadThenReset | gameboy/Emulator.cpp:55-175 | load then reset: ROM reads see the image and the controller is the one its header names |
| Boot.ResetKeepsLow | gameboy/Emulator.cpp:55-135 | a reset changes no read below 0x4000 |
| Boot.ResetThenLoad | gameboy/Main.cpp:117-125 | reset then load (the order of Main.cpp's `load`): the controller comes from the previous cartridge; from an empty one, none |
| Machine.Emulator.constructor | gameboy/Main.cpp:21 | a fresh object with all fields and arrays zero |
| Machine.Emulator.ResetCpu | gameboy/Emulator.cpp:55-135 | the new object is `Boot.Reset` of the old |
| Machine.Emulator.InitialiseIoRegisters | gameboy/Emulator.cpp:67-97 | the internal memory after the stores of the reset table, in order |
| Machine.Emulator.SelectMapper | gameboy/Emulator.cpp:96-111 | MBC1/MBC2 as `Boot.Mapper` of the cartridge type byte, nothing else changed |
| Machine.Emulator.ResetBanks | gameboy/Emulator.cpp:113-116 | ROM bank 1, RAM banks zero, RAM bank 0 |
| Machine.Emulator.LoadGame | gameboy/Emulator.cpp:137-175 | reports success; the new object is `Boot.Load` of the old |
| Machine.Emulator.ReadCartridge | gameboy/Emulator.cpp:139-171 | the cartridge memory is zeroed and then holds the ROM image: `Boot.Cartridge` |
| Machine.Emulator.ExecuteNextOpcode | gameboy/Emulator.cpp:202-219 | the new object and the cycle count are those of `Decode.ExecuteNextOpcode`; an undefined opcode leaves its state |
| Machine.Emulator.Restore | gameboy/Emulator.cpp:221-639 | the object is put into the state the handler computed |
| Machine.Emulator.StepPastOpcode | gameboy/Emulator.cpp:214 | the program counter moves past the opcode byte and nothing else changes (`Cpu.Skip` by 1) |
| Machine.Emulator.RestoreFields | gameboy/Emulator.cpp:221-639 | once the memories hold the handler's, the registers, latches and counters are set to it too: the whole object equals the handler's state |
| Machine.Emulator.GetJoypadState | gameboy/Emulator.cpp:1474-1491 | the byte is `Memory.JoypadRegister` of the stored 0xFF00 and the joypad byte |
| Machine.Emulator.ReadMem | gameboy/Emulator.cpp:993-1027 | the byte is `Memory.Read` of the object's memory |
| Machine.Emulator.WriteMem | gameboy/Emulator.cpp:1029-1113 | only the memory fields change, to `Memory.Write` of the old ones |
| Machine.Emulator.StoreByte | gameboy/Emulator.cpp:1110 | only the addressed cell of internal memory changes, to the byte written |
| Machine.Emulator.WriteExternalRam | gameboy/Emulator.cpp:1037-1045 | a write to 0xA000-0xBFFF is `Memory.WriteRam`: into the selected RAM bank when RAM is enabled, otherwise nothing changes |
| Machine.Emulator.WriteTimerControl | gameboy/Emulator.cpp:1065-1097 | only the memory fields change, to `Memory.WriteTac` of the old ones |
| Machine.Emulator.HandleBanking | gameboy/Emulator.cpp:1115-1148 | only the bank fields change, to `Memory.HandleBanking` of the old ones |
| Machine.Emulator.HandleLowBanking | gameboy/Emulator.cpp:1117-1127 | a write below 0x4000 (RAM enable, low ROM bank bits) has the effect `Memory.HandleBanking` gives it |
| Machine.Emulator.HandleHighBanking | gameboy/Emulator.cpp:1130-1146 | a write to 0x4000-0x7FFF (high ROM bits or RAM bank, banking mode; MBC1 only) has the effect `Memory.HandleBanking` gives it |
| Machine.Emulator.DoRamBankEnable | gameboy/Emulator.cpp:1150-1165 | only `enableRAM` changes, as `Memory.RamBankEnable` says |
| Machine.Emulator.DoChangeLoRomBank | gameboy/Emulator.cpp:1167-1185 | only `currentROMBank` changes, to `Memory.LoRomBank` of the old |
| Machine.Emulator.DoChangeHiRomBank | gameboy/Emulator.cpp:1187-1198 | only `currentROMBank` changes, to `Memory.HiRomBank` of the old |
| Machine.Emulator.DoRamBankChange | gameboy/Emulator.cpp:1200-1203 | only `currentRAMBank` changes, to data & 3 |
| Machine.Emulator.DoChangeRomRamMode | gameboy/Emulator.cpp:1205-1217 | only the mode and RAM bank change, as `Memory.RomRamMode` says |
| Machine.Emulator.DoDmaTransfer | gameboy/Emulator.cpp:2035-2051 | the loop leaves the memory `Memory.Dma` of the old, from `data << 8` |
| Machine.Emulator.CopyToOam | gameboy/Emulator.cpp:2048-2050 | one iteration extends the copy from the starting state by one byte: afterwards the first i+1 bytes of `Memory.Dma` are in place |
| Machine.Emulator.FlagInterrupt | gameboy/Emulator.cpp:1239-1247 | the new object is `Interrupts.FlagInterrupt` of the old |
| Machine.Emulator.HandleInterrupts | gameboy/Emulator.cpp:1249-1272 | the new object is `Interrupts.HandleInterrupts` of the old |
| Machine.Emulator.EnterInterrupt | gameboy/Emulator.cpp:1255-1260 | the master switch goes off and the program counter is pushed: `Interrupts.Entered` of the old object |
| Machine.Emulator.ServiceRequested | gameboy/Emulator.cpp:1263-1269 | the loop over the five interrupt bits ends in `Interrupts.Service` from bit 0 |
| Machine.Emulator.PushProgramCounter | gameboy/Emulator.cpp:1257-1260 | the new object is `Stack.Push` of the old PC |
| Machine.Emulator.PushByte | gameboy/Emulator.cpp:1257-1258 | SP set, then one byte written there through `writeMem` |
| Machine.Emulator.ServiceInterrupt | gameboy/Emulator.cpp:1264-1268 | one loop iteration is `Interrupts.ServiceStep` |
| Machine.Emulator.TriggerInterrupt | gameboy/Emulator.cpp:1274-1292 | the new object is `Interrupts.TriggerInterrupt` of the old |
| Machine.Emulator.ClockEnabled | gameboy/Emulator.cpp:1381-1384 | bit 2 of TAC |
| Machine.Emulator.UpdateTimers | gameboy/Emulator.cpp:1300-1379 | the new object is `Timers.UpdateTimers` of the old |
| Machine.Emulator.UpdateDivider | gameboy/Emulator.cpp:1346-1352 | the divider half, `Timers.TickDivider` |
| Machine.Emulator.UpdateTimer | gameboy/Emulator.cpp:1354-1377 | the timer half, `Timers.TickTimer` |
| Machine.Emulator.IncrementTima | gameboy/Emulator.cpp:1365-1373 | the TIMA step, `Timers.IncrementTima` |
| Machine.Emulator.LcdEnabled | gameboy/Emulator.cpp:1723-1725 | bit 7 of LCDC |
| Machine.Emulator.SetLcdStatus | gameboy/Emulator.cpp:1630-1721 | the new object is `Graphics.SetLcdStatus` of the old |
| Machine.Emulator.SetDisabledStatus | gameboy/Emulator.cpp:1634-1644 | the LCD-off branch, `Graphics.DisabledStatus` |
| Machine.Emulator.SelectMode | gameboy/Emulator.cpp:1646-1699 | the mode is `Graphics.StatusMode` of LY and the cycles; the status shows it; the interrupt flag is its enable bit |
| Machine.Emulator.CheckCoincidence | gameboy/Emulator.cpp:1706-1717 | bit 2 set iff LY = LYC; interrupt 1 requested iff LY = LYC and bit 6 is set |
| Machine.Emulator.UpdateGraphics | gameboy/Emulator.cpp:1593-1628 | the new object is `Graphics.UpdateGraphics` of the old |
| Machine.Emulator.AdvanceScanline | gameboy/Emulator.cpp:1597-1626 | the part after `setLCDStatus`, `Graphics.Advance` |
| Machine.Emulator.NextLine | gameboy/Emulator.cpp:1603-1626 | the move to the next scanline, `Graphics.NextLine` |
| Machine.Emulator.FinishLine | gameboy/Emulator.cpp:1612-1620 | given the new LY, line 144 requests the V-Blank interrupt and a line past 153 wraps to 0: `Graphics.AfterIncrement` |
| Machine.Emulator.IncrementLine | gameboy/Emulator.cpp:1606-1609 | the new object is `Graphics.IncrementLine` of the old; the byte returned is the new LY |
| Machine.Emulator.BumpLine | gameboy/Emulator.cpp:1606-1609 | LY incremented in place and 456 cycles left: the new object is `Graphics.IncrementLine` of the old |
| Machine.Emulator.ClearLine | gameboy/Emulator.cpp:1618-1620 | LY cleared in place, nothing else changed |
| Machine.Emulator.ButtonPressed | gameboy/Emulator.cpp:1436-1468 | the new object is `Joypad.ButtonPressed` of the old |
| Machine.Emulator.ClearKeyBit | gameboy/Emulator.cpp:1436-1440 | the key's bit of the joypad byte cleared |
| Machine.Emulator.ButtonReleased | gameboy/Emulator.cpp:1470-1472 | the new object is `Joypad.ButtonReleased` of the old |

## Left out

- File I/O in `loadGame` is not modelled. The ROM image is a parameter of `Machine.Emulator.LoadGame`, and an image over 2 MiB is excluded by its precondition: the C++ would overrun `cartridgeMem`. A file that cannot be opened is not modelled either.
- `update`, the 70224-cycle frame loop, is not modelled. The model gives single steps (`ExecuteNextOpcode`, `UpdateTimers`, `UpdateGraphics`, `HandleInterrupts`). Undefined opcodes have no cycle count, so a frame need not end.
- Machine.Emulator.ExecuteNextOpcode: for an undefined opcode it returns 0 cycles, where the C++ returns an uninitialised `int`. The contract states nothing about that count.
- Rendering is not modelled: `drawScanLine`, `renderTiles`, `renderSprites`, `renderGraphics`, `setRenderGraphics`, `doRenderPtr` and `displayPixels`. It is display output through an external function pointer. `updateGraphics` is modelled without its calls to these.
- `resetCPU`'s clearing of `doRenderPtr` and `displayPixels` is not modelled, for the same reason.
- The C++ `assert`s in `readMem`/`writeMem` (ROM banking mode ⇔ RAM bank 0) are not modelled. They are not preconditions: the object starts with `ROMBanking` false and `resetCPU` sets the RAM bank to 0, so `readMem`'s assert fails on the first read of 0xA000-0xBFFF after power-on, before any mode write; as preconditions they would exclude that state. The model keeps only the invariant that the RAM bank is in 0..3, which keeps the array index in bounds.
- Machine.Emulator: the opcode handlers are not updated in place. They are functions on `State` values, applied to the object by `Restore`, so the order of the handlers' individual field stores is not modelled.
- Machine.Emulator.InitialiseIoRegisters: the 31 stores of `resetCPU` are made by a loop over a table of the same addresses and values, in the same order.
- The `int` counters (`timerCounter`, `dividerCounter`, `scanlineCycleCount`) are unbounded integers. Their 32-bit overflow is not modelled; every lemma about them takes non-negative cycle counts, which the handlers return.
- The sound registers are stored and read as plain memory. Sound is not emulated by the source either.
- `gameboy/Main.cpp` (SDL window, keyboard input, frame pacing) is not part of this model, except for the order of its reset and load calls. Also outside it: the separate `gameboy/MMU.cpp`/`MMU.hpp` draft, `gameboy/blueprint.cpp`, the build and web scripts, and the `chip8` emulator.

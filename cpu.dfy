/**
 * The instruction handlers of Emulator.cpp (`LD_r_R` .. `RST_n`), one
 * function each, from the state before the instruction to the state after
 * it and the clock cycles the handler returns. On entry the program
 * counter already points past the opcode byte; a handler with an operand
 * reads it at the program counter and moves the program counter on. Every
 * memory access goes through `readMem`/`writeMem` (`Memory.Read`,
 * `Memory.Write`), except where noted.
 */
module Cpu {
  import opened Bits
  import opened Hardware
  import opened EmulatorState
  import opened Memory
  import opened Stack
  import opened Operands
  import Alu
  import Interrupts

  /** The state after one handler and the clock cycles it returns. */
  datatype Step = Step(state: State, cycles: int)

  /*
   * Operands in memory and the pieces every handler is built from.
   */

  /** The byte at the program counter: an immediate operand. */
  function Imm8(s: State): bv8
  {
    Read(s.bus, s.programCounter)
  }

  /** The word at the program counter, low byte first. */
  function Imm16(s: State): (nn: bv16)
    ensures Low(nn) == Read(s.bus, s.programCounter) && High(nn) == Read(s.bus, s.programCounter + 1)
  {
    Pair(Read(s.bus, s.programCounter + 1), Read(s.bus, s.programCounter))
  }

  /** The program counter moved past `n` operand bytes. */
  function Skip(s: State, n: bv16): State
  {
    s.(programCounter := s.programCounter + n)
  }

  /** `writeMem(address, data)`. */
  function WriteByte(s: State, address: bv16, data: bv8): State
  {
    s.(bus := Write(s.bus, address, data))
  }

  /** A new flag byte. */
  function SetFlags(s: State, f: bv8): (t: State)
    ensures FlagsOf(t) == f && forall q: Reg8 :: Get(t, q) == Get(s, q)
  {
    s.(regAF := WithLow(s.regAF, f))
  }

  /** Register `r` and the flags from an ALU result. */
  function SetResult(s: State, r: Reg8, out: Alu.AluOut): State
  {
    SetFlags(Set(s, r, out.result), out.flags)
  }

  /** The byte at `(HL)` and the flags from an ALU result. */
  function WriteResult(s: State, out: Alu.AluOut): State
  {
    SetFlags(WriteByte(s, s.regHL, out.result), out.flags)
  }

  /** The result of an arithmetic or logic operation on A; `immediate` selects `ADC_A_n`'s carry handling. */
  function AluResult(op: AluOp, a: bv8, v: bv8, f: bv8, immediate: bool): Alu.AluOut
  {
    match op
    case Add => Alu.Add(a, v)
    case Adc => if immediate then Alu.AdcImmediate(a, v, f) else Alu.AdcDoubled(a, v, f)
    case Sub => Alu.Sub(a, v)
    case Sbc => Alu.Sbc(a, v, f)
    case And => Alu.And(a, v)
    case Xor => Alu.Xor(a, v)
    case Or => Alu.Or(a, v)
    case Cp => Alu.Cp(a, v)
  }

  /** The result of a CB rotate or shift. */
  function ShiftResult(op: ShiftOp, v: bv8, f: bv8): Alu.AluOut
  {
    match op
    case Rlc => Alu.Rlc(v, f)
    case Rrc => Alu.Rrc(v, f)
    case Rl => Alu.Rl(v, f)
    case Rr => Alu.Rr(v, f)
    case Sla => Alu.Sla(v, f)
    case Sra => Alu.Sra(v, f)
    case Swap => Alu.Swap(v, f)
    case Srl => Alu.Srl(v, f)
  }

  /** The word `value` written through `writeMem`: the high byte to `address + 1`, then the low byte to `address`. */
  function WriteWord(b: Bus, address: bv16, value: bv16): Bus
  {
    Write(Write(b, address + 1, High(value)), address, Low(value))
  }

  /** A call: the program counter pushed, then replaced by `target`. */
  function CallTo(s: State, target: bv16): State
  {
    Push(s, s.programCounter).(programCounter := target)
  }

  /** A return: the word on top of the stack popped into the program counter. */
  function ReturnFrom(s: State): State
  {
    s.(stackPointer := s.stackPointer + 2, programCounter := Top(s.bus, s.stackPointer))
  }

  /*
   * Eight-bit loads.
   */

  function LdRR(s: State, to: Reg8, from: Reg8): Step
  {
    Step(Set(s, to, Get(s, from)), 4)
  }

  function LdRN(s: State, r: Reg8): Step
  {
    Step(Set(Skip(s, 1), r, Imm8(s)), 8)
  }

  function LdRHl(s: State, r: Reg8): Step
  {
    Step(Set(s, r, Read(s.bus, s.regHL)), 8)
  }

  function LdHlR(s: State, r: Reg8): Step
  {
    Step(WriteByte(s, s.regHL, Get(s, r)), 8)
  }

  function LdHlN(s: State): Step
  {
    Step(WriteByte(Skip(s, 1), s.regHL, Imm8(s)), 12)
  }

  function LdABc(s: State): Step
  {
    Step(Set(s, A, Read(s.bus, s.regBC)), 8)
  }

  function LdADe(s: State): Step
  {
    Step(Set(s, A, Read(s.bus, s.regDE)), 8)
  }

  function LdANn(s: State): Step
  {
    Step(Set(Skip(s, 2), A, Read(s.bus, Imm16(s))), 16)
  }

  function LdBcA(s: State): Step
  {
    Step(WriteByte(s, s.regBC, Get(s, A)), 8)
  }

  function LdDeA(s: State): Step
  {
    Step(WriteByte(s, s.regDE, Get(s, A)), 8)
  }

  function LdNnA(s: State): Step
  {
    Step(WriteByte(Skip(s, 2), Imm16(s), Get(s, A)), 16)
  }

  function LdAFF00n(s: State): Step
  {
    Step(Set(Skip(s, 1), A, Read(s.bus, 0xFF00 + Imm8(s) as bv16)), 12)
  }

  function LdFF00nA(s: State): Step
  {
    Step(WriteByte(Skip(s, 1), 0xFF00 + Imm8(s) as bv16, Get(s, A)), 12)
  }

  function LdAFF00C(s: State): Step
  {
    Step(Set(s, A, Read(s.bus, 0xFF00 + Get(s, C) as bv16)), 8)
  }

  function LdFF00CA(s: State): Step
  {
    Step(WriteByte(s, 0xFF00 + Get(s, C) as bv16, Get(s, A)), 8)
  }

  function LdiHlA(s: State): Step
  {
    Step(WriteByte(s, s.regHL, Get(s, A)).(regHL := s.regHL + 1), 8)
  }

  function LdiAHl(s: State): Step
  {
    Step(Set(s.(regHL := s.regHL + 1), A, Read(s.bus, s.regHL)), 8)
  }

  function LddHlA(s: State): Step
  {
    Step(WriteByte(s, s.regHL, Get(s, A)).(regHL := s.regHL - 1), 8)
  }

  function LddAHl(s: State): Step
  {
    Step(Set(s.(regHL := s.regHL - 1), A, Read(s.bus, s.regHL)), 8)
  }

  /*
   * Sixteen-bit loads and the stack.
   */

  function LdRrNn(s: State, r: Reg16): Step
  {
    Step(Set16(Skip(s, 2), r, Imm16(s)), 12)
  }

  function LdSpHl(s: State): Step
  {
    Step(s.(stackPointer := s.regHL), 8)
  }

  function LdNnSp(s: State): Step
  {
    Step(Skip(s, 2).(bus := WriteWord(s.bus, Imm16(s), s.stackPointer)), 20)
  }

  function PushRr(s: State, r: StackPair): Step
  {
    Step(Push(s, Get16(s, r)), 16)
  }

  /** The word `POP_rr` leaves in `r`: the popped word, with the low nibble of the flags cleared for AF. */
  function Popped(r: Reg16, value: bv16): bv16
  {
    if r == AF then value & 0xFFF0 else value
  }

  function PopRr(s: State, r: StackPair): Step
  {
    Step(Set16(s.(stackPointer := s.stackPointer + 2), r, Popped(r, Top(s.bus, s.stackPointer))), 12)
  }

  /*
   * Eight-bit arithmetic and logic.
   */

  /** `ADD_A_r` .. `CP_r`. */
  function AluR(s: State, op: AluOp, r: Reg8): Step
  {
    Step(SetResult(s, A, AluResult(op, Get(s, A), Get(s, r), FlagsOf(s), false)), 4)
  }

  /** `ADD_A_n` .. `CP_n`. */
  function AluN(s: State, op: AluOp): Step
  {
    Step(SetResult(Skip(s, 1), A, AluResult(op, Get(s, A), Imm8(s), FlagsOf(s), true)), 8)
  }

  /** `ADD_A_HL` .. `CP_HL`. */
  function AluHl(s: State, op: AluOp): Step
  {
    Step(SetResult(s, A, AluResult(op, Get(s, A), Read(s.bus, s.regHL), FlagsOf(s), false)), 8)
  }

  function IncR(s: State, r: Reg8): Step
  {
    Step(SetResult(s, r, Alu.Inc(Get(s, r), FlagsOf(s))), 4)
  }

  function IncHl(s: State): Step
  {
    Step(WriteResult(s, Alu.Inc(Read(s.bus, s.regHL), FlagsOf(s))), 12)
  }

  function DecR(s: State, r: Reg8): Step
  {
    Step(SetResult(s, r, Alu.Dec(Get(s, r), FlagsOf(s))), 4)
  }

  function DecHl(s: State): Step
  {
    Step(WriteResult(s, Alu.Dec(Read(s.bus, s.regHL), FlagsOf(s))), 12)
  }

  function Daa(s: State): Step
  {
    Step(SetResult(s, A, Alu.Daa(Get(s, A), FlagsOf(s))), 4)
  }

  function Cpl(s: State): Step
  {
    Step(SetResult(s, A, Alu.Cpl(Get(s, A), FlagsOf(s))), 4)
  }

  /*
   * Sixteen-bit arithmetic.
   */

  function AddHlRr(s: State, r: Reg16): Step
  {
    Step(SetFlags(s.(regHL := Alu.AddWord(s.regHL, Get16(s, r), FlagsOf(s)).result),
                  Alu.AddWord(s.regHL, Get16(s, r), FlagsOf(s)).flags), 8)
  }

  function IncRr(s: State, r: Reg16): Step
  {
    Step(Set16(s, r, Get16(s, r) + 1), 8)
  }

  function DecRr(s: State, r: Reg16): Step
  {
    Step(Set16(s, r, Get16(s, r) - 1), 8)
  }

  function AddSpDd(s: State): Step
  {
    Step(SetFlags(Skip(s, 1).(stackPointer := Alu.AddSigned(s.stackPointer, Imm8(s), FlagsOf(s)).result),
                  Alu.AddSigned(s.stackPointer, Imm8(s), FlagsOf(s)).flags), 16)
  }

  function LdHlSpDd(s: State): Step
  {
    Step(SetFlags(Skip(s, 1).(regHL := Alu.AddSigned(s.stackPointer, Imm8(s), FlagsOf(s)).result),
                  Alu.AddSigned(s.stackPointer, Imm8(s), FlagsOf(s)).flags), 12)
  }

  /*
   * Rotates, shifts and single bits.
   */

  function Rlca(s: State): Step
  {
    Step(SetResult(s, A, Alu.Rlca(Get(s, A), FlagsOf(s))), 4)
  }

  function Rla(s: State): Step
  {
    Step(SetResult(s, A, Alu.Rla(Get(s, A), FlagsOf(s))), 4)
  }

  function Rrca(s: State): Step
  {
    Step(SetResult(s, A, Alu.Rrca(Get(s, A), FlagsOf(s))), 4)
  }

  function Rra(s: State): Step
  {
    Step(SetResult(s, A, Alu.Rra(Get(s, A), FlagsOf(s))), 4)
  }

  /** `RLC_r` .. `SRL_r`. */
  function ShiftR(s: State, op: ShiftOp, r: Reg8): Step
  {
    Step(SetResult(s, r, ShiftResult(op, Get(s, r), FlagsOf(s))), 8)
  }

  /** `RLC_HL` .. `SRL_HL`. */
  function ShiftHl(s: State, op: ShiftOp): Step
  {
    Step(WriteResult(s, ShiftResult(op, Read(s.bus, s.regHL), FlagsOf(s))), 16)
  }

  function BitNR(s: State, n: BitIndex, r: Reg8): Step
  {
    Step(SetFlags(s, Alu.Bit(n, Get(s, r), FlagsOf(s))), 8)
  }

  function BitNHl(s: State, n: BitIndex): Step
  {
    Step(SetFlags(s, Alu.Bit(n, Read(s.bus, s.regHL), FlagsOf(s))), 12)
  }

  function SetNR(s: State, n: BitIndex, r: Reg8): Step
  {
    Step(Set(s, r, BitSet(Get(s, r), n)), 8)
  }

  /** The address `SET_n_HL` and `RES_n_HL` use: `regHL.low`, widened to a WORD. */
  function LowHl(s: State): (address: bv16)
    ensures address < 0x100
  {
    Low(s.regHL) as bv16
  }

  function SetNHl(s: State, n: BitIndex): Step
  {
    Step(WriteByte(s, LowHl(s), BitSet(Read(s.bus, LowHl(s)), n)), 16)
  }

  function ResNR(s: State, n: BitIndex, r: Reg8): Step
  {
    Step(Set(s, r, BitReset(Get(s, r), n)), 8)
  }

  function ResNHl(s: State, n: BitIndex): Step
  {
    Step(WriteByte(s, LowHl(s), BitReset(Read(s.bus, LowHl(s)), n)), 16)
  }

  /*
   * Control.
   */

  function Ccf(s: State): Step
  {
    Step(SetFlags(s, Alu.Ccf(FlagsOf(s))), 4)
  }

  function Scf(s: State): Step
  {
    Step(SetFlags(s, Alu.Scf(FlagsOf(s))), 4)
  }

  function Nop(s: State): Step
  {
    Step(s, 4)
  }

  function Halt(s: State): Step
  {
    Step(s.(isHalted := true), 4)
  }

  /** `STOP` does what `HALT` does. */
  function Stop(s: State): Step
  {
    Halt(s)
  }

  function Di(s: State): Step
  {
    Step(s.(interruptMasterEnabled := false), 4)
  }

  function Ei(s: State): Step
  {
    Step(s.(interruptMasterEnabled := true), 4)
  }

  /*
   * Jumps, calls and returns. The conditional forms take the opcode, whose
   * bits 3 and 4 select NZ, Z, NC or C (`Alu.ConditionHolds`).
   */

  function JpNn(s: State): Step
  {
    Step(s.(programCounter := Imm16(s)), 16)
  }

  function JpHl(s: State): Step
  {
    Step(s.(programCounter := s.regHL), 4)
  }

  function JpFNn(s: State, opcode: bv8): Step
  {
    if Alu.ConditionHolds(opcode, FlagsOf(s)) then Step(s.(programCounter := Imm16(s)), 16)
    else Step(Skip(s, 2), 12)
  }

  /** The program counter after the displacement byte, moved by the displacement taken as signed. */
  function Relative(s: State): bv16
  {
    s.programCounter + 1 + Alu.SignExtend(Imm8(s))
  }

  function JrPcDd(s: State): Step
  {
    Step(s.(programCounter := Relative(s)), 12)
  }

  function JrFPcDd(s: State, opcode: bv8): Step
  {
    if Alu.ConditionHolds(opcode, FlagsOf(s)) then Step(s.(programCounter := Relative(s)), 12)
    else Step(Skip(s, 1), 8)
  }

  function CallNn(s: State): Step
  {
    Step(CallTo(Skip(s, 2), Imm16(s)), 24)
  }

  function CallFNn(s: State, opcode: bv8): Step
  {
    if Alu.ConditionHolds(opcode, FlagsOf(s)) then Step(CallTo(Skip(s, 2), Imm16(s)), 24)
    else Step(Skip(s, 2), 12)
  }

  function Ret(s: State): Step
  {
    Step(ReturnFrom(s), 16)
  }

  function RetF(s: State, opcode: bv8): Step
  {
    if Alu.ConditionHolds(opcode, FlagsOf(s)) then Step(ReturnFrom(s), 20)
    else Step(s, 8)
  }

  function Reti(s: State): Step
  {
    Step(ReturnFrom(s).(interruptMasterEnabled := true), 16)
  }

  function RstN(s: State, opcode: bv8): Step
  {
    Step(CallTo(s, Alu.RstTarget(opcode)), 16)
  }

  /*
   * Properties of the handlers.
   */

  /** `ADD_A_r`: A becomes A + r modulo 256, with Z, N, H and C as the Game Boy defines them; no other register changes. */
  lemma AddRegister(s: State, r: Reg8)
    ensures Get(AluR(s, Add, r).state, A) == Get(s, A) + Get(s, r)
    ensures Alu.ZeroFlag(FlagsOf(AluR(s, Add, r).state)) == (Get(s, A) + Get(s, r) == 0)
    ensures !Alu.SubFlag(FlagsOf(AluR(s, Add, r).state))
    ensures Alu.HalfCarryFlag(FlagsOf(AluR(s, Add, r).state)) == ((Get(s, A) & 0xF) + (Get(s, r) & 0xF) > 0xF)
    ensures Alu.CarryFlag(FlagsOf(AluR(s, Add, r).state)) == (Get(s, A) as bv16 + Get(s, r) as bv16 > 0xFF)
    ensures forall q: Reg8 :: q != A ==> Get(AluR(s, Add, r).state, q) == Get(s, q)
  {
  }

  /** `CP_r` leaves A alone and sets Z exactly when A equals r, C exactly when A is below r. */
  lemma CompareRegister(s: State, r: Reg8)
    ensures Get(AluR(s, Cp, r).state, A) == Get(s, A)
    ensures Alu.ZeroFlag(FlagsOf(AluR(s, Cp, r).state)) == (Get(s, A) == Get(s, r))
    ensures Alu.CarryFlag(FlagsOf(AluR(s, Cp, r).state)) == (Get(s, A) < Get(s, r))
  {
  }

  /** `SUB r` after `ADD A,r` restores A, for any register other than A. */
  lemma SubUndoesAddRegister(s: State, r: Reg8)
    requires r != A
    ensures Get(AluR(AluR(s, Add, r).state, Sub, r).state, A) == Get(s, A)
  {
    Alu.SubUndoesAdd(Get(s, A), Get(s, r));
  }

  /** `DEC r` after `INC r` restores the register and keeps the carry flag. */
  lemma DecUndoesIncRegister(s: State, r: Reg8)
    ensures Get(DecR(IncR(s, r).state, r).state, r) == Get(s, r)
    ensures Alu.CarryFlag(FlagsOf(DecR(IncR(s, r).state, r).state)) == Alu.CarryFlag(FlagsOf(s))
  {
    Alu.DecUndoesInc(Get(s, r), FlagsOf(s));
  }

  /** `SWAP r` twice restores the register. */
  lemma SwapTwice(s: State, r: Reg8)
    ensures Get(ShiftR(ShiftR(s, Swap, r).state, Swap, r).state, r) == Get(s, r)
  {
    Alu.SwapAndCplInvolutions(Get(s, r), FlagsOf(s), FlagsOf(ShiftR(s, Swap, r).state));
  }

  /** `RRC r` undoes `RLC r`. */
  lemma RrcUndoesRlc(s: State, r: Reg8)
    ensures Get(ShiftR(ShiftR(s, Rlc, r).state, Rrc, r).state, r) == Get(s, r)
  {
    Alu.RotatesUndoEachOther(Get(s, r), FlagsOf(s), FlagsOf(ShiftR(s, Rlc, r).state));
  }

  /** `RR r` undoes `RL r`, the carry flag included. */
  lemma RrUndoesRl(s: State, r: Reg8)
    ensures Get(ShiftR(ShiftR(s, Rl, r).state, Rr, r).state, r) == Get(s, r)
    ensures Alu.CarryFlag(FlagsOf(ShiftR(ShiftR(s, Rl, r).state, Rr, r).state)) == Alu.CarryFlag(FlagsOf(s))
  {
    Alu.RotatesThroughCarryUndoEachOther(Get(s, r), FlagsOf(s));
  }

  /** `BIT n,r` sets Z exactly when bit n of r is clear, and changes no register. */
  lemma BitTests(s: State, n: BitIndex, r: Reg8)
    ensures Alu.ZeroFlag(FlagsOf(BitNR(s, n, r).state)) == !IsBitSet(Get(s, r), n)
    ensures forall q: Reg8 :: Get(BitNR(s, n, r).state, q) == Get(s, q)
  {
  }

  /** `BIT n,r` after `SET n,r` finds the bit set, after `RES n,r` finds it clear. */
  lemma BitAfterSetAndReset(s: State, n: BitIndex, r: Reg8)
    ensures !Alu.ZeroFlag(FlagsOf(BitNR(SetNR(s, n, r).state, n, r).state))
    ensures Alu.ZeroFlag(FlagsOf(BitNR(ResNR(s, n, r).state, n, r).state))
  {
    BitTests(SetNR(s, n, r).state, n, r);
    BitTests(ResNR(s, n, r).state, n, r);
  }

  /** `RES n,r` after `SET n,r` restores a register whose bit n was clear. */
  lemma ResUndoesSet(s: State, n: BitIndex, r: Reg8)
    requires !IsBitSet(Get(s, r), n)
    ensures Get(ResNR(SetNR(s, n, r).state, n, r).state, r) == Get(s, r)
  {
    ResetUndoesSet(Get(s, r), n);
  }

  /**
   * `SET_n_HL` and `RES_n_HL` address `regHL.low`, a byte in 0x00..0xFF,
   * and `writeMem` hands every address below 0x8000 to the cartridge
   * controller: neither instruction changes any memory, and in particular
   * the byte at (HL) reads as before whenever HL is a plain address.
   */
  lemma BitWritesMissHl(s: State, n: BitIndex)
    ensures SetNHl(s, n).state.bus.internalMem == s.bus.internalMem
    ensures ResNHl(s, n).state.bus.internalMem == s.bus.internalMem
    ensures SetNHl(s, n).state.bus.ramBanks == s.bus.ramBanks
    ensures ResNHl(s, n).state.bus.ramBanks == s.bus.ramBanks
    ensures Plain(s.regHL) ==> Read(SetNHl(s, n).state.bus, s.regHL) == Read(s.bus, s.regHL)
    ensures Plain(s.regHL) ==> Read(ResNHl(s, n).state.bus, s.regHL) == Read(s.bus, s.regHL)
  {
  }

  /** `LD r,(HL)` after `LD (HL),q` loads q's old value, when HL is a plain address. */
  lemma LoadAfterStore(s: State, q: Reg8, r: Reg8)
    requires Plain(s.regHL)
    ensures Get(LdRHl(LdHlR(s, q).state, r).state, r) == Get(s, q)
  {
    ReadAfterWrite(s.bus, s.regHL, Get(s, q));
  }

  /** `LDI (HL),A` stores A at HL and then steps HL up. */
  lemma StoreAndIncrement(s: State)
    requires Plain(s.regHL)
    ensures Read(LdiHlA(s).state.bus, s.regHL) == Get(s, A) && LdiHlA(s).state.regHL == s.regHL + 1
  {
    assert LdiHlA(s).state.bus == WriteByte(s, s.regHL, Get(s, A)).bus;
    ReadAfterWrite(s.bus, s.regHL, Get(s, A));
  }

  /** `LDD (HL),A` stores A at HL and then steps HL down. */
  lemma StoreAndDecrement(s: State)
    requires Plain(s.regHL)
    ensures Read(LddHlA(s).state.bus, s.regHL) == Get(s, A) && LddHlA(s).state.regHL == s.regHL - 1
  {
    assert LddHlA(s).state.bus == WriteByte(s, s.regHL, Get(s, A)).bus;
    ReadAfterWrite(s.bus, s.regHL, Get(s, A));
  }

  /** A word written to two plain addresses reads back as that word. */
  lemma WrittenWord(b: Bus, address: bv16, value: bv16)
    requires Plain(address) && Plain(address + 1)
    ensures HoldsWord(WriteWord(b, address, value), address, value)
  {
    ReadAfterWrite(Write(b, address + 1, High(value)), address, Low(value));
    ReadOtherAfterWrite(Write(b, address + 1, High(value)), address, address + 1, Low(value));
    ReadAfterWrite(b, address + 1, High(value));
  }

  /** `LD (nn),SP` stores the stack pointer at nn, low byte first. */
  lemma StoreStackPointer(s: State)
    requires Plain(Imm16(s)) && Plain(Imm16(s) + 1)
    ensures HoldsWord(LdNnSp(s).state.bus, Imm16(s), s.stackPointer)
  {
    WrittenWord(s.bus, Imm16(s), s.stackPointer);
  }

  /**
   * `POP rr` after `PUSH rr` restores the pair, with the low nibble of F
   * cleared for AF, and the stack pointer, when both stack bytes lie in
   * plain memory.
   */
  lemma PopAfterPush(s: State, r: StackPair)
    requires PushPlain(s)
    ensures Get16(PopRr(PushRr(s, r).state, r).state, r) == Popped(r, Get16(s, r))
    ensures PopRr(PushRr(s, r).state, r).state.stackPointer == s.stackPointer
  {
    var u := Push(s, Get16(s, r));
    PushThenTop(s, Get16(s, r));
    PopValue(u, r);
  }

  /** `POP rr` leaves the word on top of the stack in `rr` and moves the stack pointer up by two. */
  lemma PopValue(s: State, r: StackPair)
    ensures Get16(PopRr(s, r).state, r) == Popped(r, Top(s.bus, s.stackPointer))
    ensures PopRr(s, r).state.stackPointer == s.stackPointer + 2
  {
  }

  /** `POP AF` leaves the low nibble of F clear and A the byte above it on the stack. */
  lemma PopAfClearsLowNibble(s: State)
    ensures FlagsOf(PopRr(s, AF).state) & 0x0F == 0
    ensures Get(PopRr(s, AF).state, A) == Read(s.bus, s.stackPointer + 1)
  {
    MaskClearsLowNibble(Top(s.bus, s.stackPointer));
  }

  /** `INC rr` and `DEC rr` undo each other. */
  lemma IncDecPairs(s: State, r: Reg16)
    ensures DecRr(IncRr(s, r).state, r).state == s
    ensures IncRr(DecRr(s, r).state, r).state == s
  {
  }

  /** `LD HL,SP+dd` computes what `ADD SP,dd` would leave in SP, with the same flags. */
  lemma SignedOffsetsAgree(s: State)
    ensures LdHlSpDd(s).state.regHL == AddSpDd(s).state.stackPointer
    ensures FlagsOf(LdHlSpDd(s).state) == FlagsOf(AddSpDd(s).state)
    ensures LdHlSpDd(s).state.stackPointer == s.stackPointer
  {
  }

  /** `JR dd` with displacement 0xFE (-2) jumps back to its own opcode. */
  lemma JumpToSelf(s: State)
    requires Imm8(s) == 0xFE
    ensures JrPcDd(s).state.programCounter == s.programCounter - 1
  {
  }

  /**
   * A conditional jump, call or return does what its unconditional form
   * does when the condition holds, and otherwise only skips its operand
   * bytes.
   */
  lemma ConditionalForms(s: State, opcode: bv8)
    ensures Alu.ConditionHolds(opcode, FlagsOf(s)) ==>
      JpFNn(s, opcode) == JpNn(s) && JrFPcDd(s, opcode) == JrPcDd(s) && CallFNn(s, opcode) == CallNn(s)
      && RetF(s, opcode).state == Ret(s).state
    ensures !Alu.ConditionHolds(opcode, FlagsOf(s)) ==>
      JpFNn(s, opcode).state == Skip(s, 2) && JrFPcDd(s, opcode).state == Skip(s, 1)
      && CallFNn(s, opcode).state == Skip(s, 2) && RetF(s, opcode).state == s
  {
  }

  /** `CALL nn` jumps to nn and pushes the address of the next instruction. */
  lemma CallPushesReturn(s: State)
    requires PushPlain(Skip(s, 2))
    ensures CallNn(s).state.programCounter == Imm16(s)
    ensures HoldsWord(CallNn(s).state.bus, CallNn(s).state.stackPointer, s.programCounter + 2)
  {
    PushedWord(Skip(s, 2), Skip(s, 2).programCounter);
  }

  /** `RET` after `CALL nn` continues after the call's operand with the stack pointer restored. */
  lemma ReturnAfterCall(s: State)
    requires PushPlain(Skip(s, 2))
    ensures Ret(CallNn(s).state).state.programCounter == s.programCounter + 2
    ensures Ret(CallNn(s).state).state.stackPointer == s.stackPointer
  {
    PushThenTop(Skip(s, 2), Skip(s, 2).programCounter);
  }

  /** `RET` after `RST` returns to the instruction after the `RST`, which jumped to one of 0x00, 0x08, .., 0x38. */
  lemma ReturnAfterRestart(s: State, opcode: bv8)
    requires PushPlain(s)
    ensures RstN(s, opcode).state.programCounter <= 0x38 && RstN(s, opcode).state.programCounter & 7 == 0
    ensures Ret(RstN(s, opcode).state).state.programCounter == s.programCounter
    ensures Ret(RstN(s, opcode).state).state.stackPointer == s.stackPointer
  {
    PushThenTop(s, s.programCounter);
  }

  /*
   * The control handlers and the interrupt model.
   */

  /**
   * HALT (and STOP, the same handler) sets the halt latch and nothing else;
   * the next requested interrupt clears it, sets its request bit and leaves
   * the program counter past the HALT opcode.
   */
  lemma HaltUntilRequest(s: State, id: bv8)
    requires id < 31
    ensures Stop(s) == Halt(s) && Halt(s) == Step(s.(isHalted := true), 4)
    ensures !Interrupts.FlagInterrupt(Halt(s).state, id).isHalted
    ensures Interrupts.FlagInterrupt(Halt(s).state, id).programCounter == s.programCounter
    ensures Interrupts.Requests(Interrupts.FlagInterrupt(Halt(s).state, id))
      == BitSet(Interrupts.Requests(s), id)
  {
    Interrupts.FlagInterruptRequests(Halt(s).state, id);
  }

  /**
   * DI and EI change only the master switch. After DI no interrupt is
   * serviced; after EI a requested and enabled one is, which turns the
   * switch off again.
   */
  lemma MasterSwitch(s: State)
    ensures Di(s) == Step(s.(interruptMasterEnabled := false), 4)
    ensures Ei(s) == Step(s.(interruptMasterEnabled := true), 4)
    ensures Interrupts.HandleInterrupts(Di(s).state) == Di(s).state
    ensures Read(s.bus, Interrupts.REQUEST) & Read(s.bus, Interrupts.ENABLED) != 0
      ==> !Interrupts.HandleInterrupts(Ei(s).state).interruptMasterEnabled
  {
    if Read(s.bus, Interrupts.REQUEST) & Read(s.bus, Interrupts.ENABLED) != 0 {
      Interrupts.HandleDisablesAndPushes(Ei(s).state);
    }
  }

  /**
   * RETI is RET with the master switch turned back on, so it undoes the
   * entry into an interrupt: the program counter and stack pointer are
   * back where they were and interrupts are enabled again.
   */
  lemma ReturnFromInterrupt(s: State)
    requires Interrupts.Services(s) && PushPlain(s)
    requires s.stackPointer - 1 != Interrupts.REQUEST && s.stackPointer - 2 != Interrupts.REQUEST
    ensures Reti(s) == Step(Ret(s).state.(interruptMasterEnabled := true), Ret(s).cycles)
    ensures Reti(Interrupts.HandleInterrupts(s)).state.programCounter == s.programCounter
    ensures Reti(Interrupts.HandleInterrupts(s)).state.stackPointer == s.stackPointer
    ensures Reti(Interrupts.HandleInterrupts(s)).state.interruptMasterEnabled
  {
    var t := Interrupts.HandleInterrupts(s);
    Interrupts.HandlePushesPc(s);
    Interrupts.HandleDisablesAndPushes(s);
    TopOfBytes(t.bus, t.stackPointer, s.programCounter);
  }

  /**
   * LD A,(BC) and LD A,(DE) load A from the byte the pair addresses and
   * keep every other 8-bit register.
   */
  lemma LoadAThroughPair(s: State, r: Reg8)
    requires r != A
    ensures Get(LdABc(s).state, A) == Read(s.bus, s.regBC) && Get(LdABc(s).state, r) == Get(s, r)
    ensures Get(LdADe(s).state, A) == Read(s.bus, s.regDE) && Get(LdADe(s).state, r) == Get(s, r)
  {
    assert LdABc(s).state == Set(s, A, Read(s.bus, s.regBC));
    assert LdADe(s).state == Set(s, A, Read(s.bus, s.regDE));
  }

  /** LD A,(nn) loads A from the address in its operand and steps past it. */
  lemma LoadAFromOperand(s: State, r: Reg8)
    requires r != A
    ensures Get(LdANn(s).state, A) == Read(s.bus, Imm16(s)) && Get(LdANn(s).state, r) == Get(s, r)
    ensures LdANn(s).state.programCounter == s.programCounter + 2
  {
    assert LdANn(s).state == Set(Skip(s, 2), A, Read(s.bus, Imm16(s)));
  }

  /** LDI A,(HL) and LDD A,(HL) load A from the old HL, then move HL on by one. */
  lemma LoadAndStepHl(s: State)
    ensures Get(LdiAHl(s).state, A) == Read(s.bus, s.regHL) && LdiAHl(s).state.regHL == s.regHL + 1
    ensures Get(LddAHl(s).state, A) == Read(s.bus, s.regHL) && LddAHl(s).state.regHL == s.regHL - 1
  {
    assert LdiAHl(s).state == Set(s.(regHL := s.regHL + 1), A, Read(s.bus, s.regHL));
    assert LddAHl(s).state == Set(s.(regHL := s.regHL - 1), A, Read(s.bus, s.regHL));
  }

  /**
   * LD (0xFF00+C),A then LD A,(0xFF00+C) gives A back when that register
   * is plain memory (high RAM, for one).
   */
  lemma HighPageRoundTrip(s: State)
    requires Plain(0xFF00 + Get(s, C) as bv16)
    ensures Get(LdAFF00C(LdFF00CA(s).state).state, A) == Get(s, A)
  {
    var address := 0xFF00 + Get(s, C) as bv16;
    var t := LdFF00CA(s).state;
    assert t == WriteByte(s, address, Get(s, A));
    ReadAfterWrite(s.bus, address, Get(s, A));
    assert LdAFF00C(t).state == Set(t, A, Read(t.bus, address));
  }

  /** LD (0xFF00+n),A stores A at 0xFF00 + n, where a plain register reads it back. */
  lemma HighPageStore(s: State)
    requires Plain(0xFF00 + Imm8(s) as bv16)
    ensures Read(LdFF00nA(s).state.bus, 0xFF00 + Imm8(s) as bv16) == Get(s, A)
  {
    var address := 0xFF00 + Imm8(s) as bv16;
    assert LdFF00nA(s).state.bus == Write(s.bus, address, Get(s, A));
    ReadAfterWrite(s.bus, address, Get(s, A));
  }

  /** LD A,(0xFF00+n) loads A from 0xFF00 + n and steps past the operand. */
  lemma HighPageLoad(s: State)
    ensures Get(LdAFF00n(s).state, A) == Read(s.bus, 0xFF00 + Imm8(s) as bv16)
    ensures LdAFF00n(s).state.programCounter == s.programCounter + 1
  {
    assert LdAFF00n(s).state == Set(Skip(s, 1), A, Read(s.bus, 0xFF00 + Imm8(s) as bv16));
  }
}

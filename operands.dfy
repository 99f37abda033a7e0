/**
 * The operands of the CPU's instructions. The source passes a handler the
 * byte or word it works on by reference (`regBC.high`, `stackPointer`); a
 * `Reg8` or `Reg16` names that byte or word, and `Get`/`Set` read and
 * write it in a `State`. The flags live in the low byte of AF.
 */
module Operands {
  import opened Hardware
  import opened EmulatorState

  /** The eight-bit registers: the halves of BC, DE and HL, and A, the high half of AF. */
  datatype Reg8 = B | C | D | E | H | L | A

  /** The register pairs and the stack pointer. */
  datatype Reg16 = AF | BC | DE | HL | SP

  /** The bit number of `BIT`, `SET` and `RES`. */
  type BitIndex = n: bv8 | n < 8

  /** The pairs `PUSH_rr` and `POP_rr` are dispatched with. */
  type StackPair = r: Reg16 | r != SP witness AF

  /** The eight arithmetic and logic operations on A, in the order of opcodes 0x80..0xBF. */
  datatype AluOp = Add | Adc | Sub | Sbc | And | Xor | Or | Cp

  /** The eight rotates and shifts of CB opcodes 0x00..0x3F, in opcode order. */
  datatype ShiftOp = Rlc | Rrc | Rl | Rr | Sla | Sra | Swap | Srl

  function Get(s: State, r: Reg8): bv8
  {
    match r
    case B => High(s.regBC)
    case C => Low(s.regBC)
    case D => High(s.regDE)
    case E => Low(s.regDE)
    case H => High(s.regHL)
    case L => Low(s.regHL)
    case A => High(s.regAF)
  }

  /** Register `r` written with `v`: the other registers and the flags keep their values, and only the register pairs change. */
  function Set(s: State, r: Reg8, v: bv8): (t: State)
    ensures Get(t, r) == v
    ensures forall q: Reg8 :: q != r ==> Get(t, q) == Get(s, q)
    ensures FlagsOf(t) == FlagsOf(s)
    ensures t == s.(regAF := t.regAF, regBC := t.regBC, regDE := t.regDE, regHL := t.regHL)
  {
    match r
    case B => s.(regBC := WithHigh(s.regBC, v))
    case C => s.(regBC := WithLow(s.regBC, v))
    case D => s.(regDE := WithHigh(s.regDE, v))
    case E => s.(regDE := WithLow(s.regDE, v))
    case H => s.(regHL := WithHigh(s.regHL, v))
    case L => s.(regHL := WithLow(s.regHL, v))
    case A => s.(regAF := WithHigh(s.regAF, v))
  }

  function Get16(s: State, r: Reg16): bv16
  {
    match r
    case AF => s.regAF
    case BC => s.regBC
    case DE => s.regDE
    case HL => s.regHL
    case SP => s.stackPointer
  }

  /** Pair or stack pointer `r` written with `v`, nothing else changed. */
  function Set16(s: State, r: Reg16, v: bv16): (t: State)
    ensures Get16(t, r) == v
    ensures forall q: Reg16 :: q != r ==> Get16(t, q) == Get16(s, q)
    ensures t == s.(regAF := t.regAF, regBC := t.regBC, regDE := t.regDE, regHL := t.regHL, stackPointer := t.stackPointer)
  {
    match r
    case AF => s.(regAF := v)
    case BC => s.(regBC := v)
    case DE => s.(regDE := v)
    case HL => s.(regHL := v)
    case SP => s.(stackPointer := v)
  }

  /** The flag byte, `regAF.low`. */
  function FlagsOf(s: State): bv8
  {
    Low(s.regAF)
  }

  /** A register pair holds its two eight-bit registers, high half first. */
  lemma PairsHoldRegisters(s: State)
    ensures Get16(s, BC) == Pair(Get(s, B), Get(s, C))
    ensures Get16(s, DE) == Pair(Get(s, D), Get(s, E))
    ensures Get16(s, HL) == Pair(Get(s, H), Get(s, L))
    ensures Get16(s, AF) == Pair(Get(s, A), FlagsOf(s))
  {
    PairOfBytes(s.regBC);
    PairOfBytes(s.regDE);
    PairOfBytes(s.regHL);
    PairOfBytes(s.regAF);
  }
}

/**
 * What each arithmetic, logical, rotate and single-bit instruction of the
 * emulator computes: the new value of its target byte (or word) and the
 * new F register. The bodies follow the handlers step by step; the
 * contracts say what the result and each flag mean.
 */
module Alu {
  import opened Bits
  import opened Hardware

  /** The value an 8-bit instruction stores and the F register it leaves. */
  datatype AluOut = AluOut(result: bv8, flags: bv8)

  /** The value a 16-bit instruction stores and the F register it leaves. */
  datatype WordOut = WordOut(result: bv16, flags: bv8)

  /*
   * The four flags, read from F as the handlers read them with
   * `isBitSet(regAF.low, FLAG_...)` (FlagsAreBits).
   */
  predicate ZeroFlag(f: bv8) { f & 0x80 != 0 }
  predicate SubFlag(f: bv8) { f & 0x40 != 0 }
  predicate HalfCarryFlag(f: bv8) { f & 0x20 != 0 }
  predicate CarryFlag(f: bv8) { f & 0x10 != 0 }

  /** Each flag predicate is `isBitSet` at that flag's position. */
  lemma FlagsAreBits(f: bv8)
    ensures ZeroFlag(f) == IsBitSet(f, FLAG_ZERO) && SubFlag(f) == IsBitSet(f, FLAG_SUB)
    ensures HalfCarryFlag(f) == IsBitSet(f, FLAG_HALFCARRY) && CarryFlag(f) == IsBitSet(f, FLAG_CARRY)
  {
  }

  /** The F register holding exactly the given four flags. */
  function Flags(z: bool, n: bool, h: bool, c: bool): (f: bv8)
    ensures ZeroFlag(f) == z && SubFlag(f) == n && HalfCarryFlag(f) == h && CarryFlag(f) == c
    ensures f & 0x0F == 0
  {
    (if z then 0x80 else 0) | (if n then 0x40 else 0) | (if h then 0x20 else 0) | (if c then 0x10 else 0)
  }

  /**
   * F as the 8-bit arithmetic and logic handlers build it: start from 0 and
   * set each flag whose condition holds.
   */
  function FlagsFrom(z: bool, n: bool, h: bool, c: bool): (f: bv8)
    ensures f == Flags(z, n, h, c)
  {
    var f: bv8 := 0;
    var f := if z then BitSet(f, FLAG_ZERO) else f;
    var f := if n then BitSet(f, FLAG_SUB) else f;
    var f := if h then BitSet(f, FLAG_HALFCARRY) else f;
    if c then BitSet(f, FLAG_CARRY) else f
  }

  /** `f` with the flag at `position` set when `cond` holds and cleared otherwise. */
  function Put(f: bv8, position: bv8, cond: bool): bv8
    requires position < 8
  {
    if cond then BitSet(f, position) else BitReset(f, position)
  }

  /** The carry flag as the byte 0 or 1: bit 4 of F moved down to bit 0. */
  function CarryBit(f: bv8): (c: bv8)
    ensures c == (f >> 4) & 1
  {
    if CarryFlag(f) then 1 else 0
  }

  /*
   * 8-bit arithmetic on A. Each of these starts from F = 0, so the low
   * nibble of F always ends as 0.
   */

  /**
   * A and F after adding `toAdd` to `a` gave `result`, as the 8-bit add
   * handlers compute them: H from bit 4 of `toAdd ^ a ^ result`, C when the
   * result is below A. For the true sum these are the carries out of the
   * low nibble and out of the byte.
   */
  function AddOut(a: bv8, toAdd: bv8, result: bv8): (r: AluOut)
    ensures r.result == result
    ensures ZeroFlag(r.flags) == (result == 0) && !SubFlag(r.flags) && r.flags & 0x0F == 0
    ensures result == a + toAdd ==> HalfCarryFlag(r.flags) == ((a & 0xF) + (toAdd & 0xF) > 0xF)
    ensures result == a + toAdd ==> CarryFlag(r.flags) == (a as bv16 + toAdd as bv16 > 0xFF)
  {
    AluOut(result, FlagsFrom(result == 0, false, (toAdd ^ a ^ result) & 0x10 == 0x10, result < a))
  }

  /** ADD A, v: A + v with the carries out of bit 3 and bit 7. */
  function Add(a: bv8, v: bv8): (r: AluOut)
    ensures r.result == a + v
    ensures r.flags == Flags(r.result == 0, false, (a & 0xF) + (v & 0xF) > 0xF, a as bv16 + v as bv16 > 0xFF)
  {
    AddOut(a, v, a + v)
  }

  /**
   * ADC A, n: the carry is first added to the operand in a byte, and that
   * byte is then added to A as ADD does. When the operand does not wrap this is the
   * usual add-with-carry (AdcAgreesWithCarryIn).
   */
  function AdcImmediate(a: bv8, v: bv8, f: bv8): (r: AluOut)
    ensures r.result == a + v + CarryBit(f)
    ensures r.flags == Flags(r.result == 0, false, (a & 0xF) + ((CarryBit(f) + v) & 0xF) > 0xF,
                             a as bv16 + (CarryBit(f) + v) as bv16 > 0xFF)
    ensures !CarryFlag(f) ==> r == Add(a, v)
  {
    Add(a, CarryBit(f) + v)
  }

  /**
   * ADC A, r and ADC A, (HL): the carry is added to the operand and then
   * added again to A, so a set carry counts twice (AdcDoubleCarry). With
   * the carry clear it is ADD (AdcDoubledWithoutCarry).
   */
  function AdcDoubled(a: bv8, v: bv8, f: bv8): (r: AluOut)
    ensures r.result == a + v + CarryBit(f) + CarryBit(f)
    ensures r.flags == Flags(r.result == 0, false,
                             (a & 0xF) + ((CarryBit(f) + v) & 0xF) + CarryBit(f) > 0xF, r.result < a)
  {
    AddOut(a, CarryBit(f) + v, a + CarryBit(f) + (CarryBit(f) + v))
  }

  /**
   * A and F after subtracting `toSub` from `a`: H when the low nibble of A
   * is below that of `toSub`, C when A is below `toSub`.
   */
  function SubOut(a: bv8, toSub: bv8): (r: AluOut)
    ensures r.result + toSub == a
    ensures r.flags == Flags(r.result == 0, true, (a & 0xF) < (toSub & 0xF), a < toSub)
  {
    AluOut(a - toSub, FlagsFrom(a - toSub == 0, true, (a & 0x0F) < (toSub & 0x0F), a < toSub))
  }

  /** SUB v: A - v; H and C report a borrow from bit 4 and from bit 8. */
  function Sub(a: bv8, v: bv8): (r: AluOut)
    ensures r.result + v == a
    ensures r.flags == Flags(r.result == 0, true, (a & 0xF) < (v & 0xF), a < v)
  {
    SubOut(a, v)
  }

  /**
   * SBC A, v: the carry is added to the operand in a byte, which is then
   * subtracted as SUB does. When the operand does not wrap this is the usual
   * subtract-with-borrow (SbcAgreesWithBorrowIn).
   */
  function Sbc(a: bv8, v: bv8, f: bv8): (r: AluOut)
    ensures r.result + v + CarryBit(f) == a
    ensures r.flags == Flags(r.result == 0, true, (a & 0xF) < ((CarryBit(f) + v) & 0xF),
                             a < CarryBit(f) + v)
    ensures !CarryFlag(f) ==> r == Sub(a, v)
  {
    Sub(a, CarryBit(f) + v)
  }

  /** AND v: bitwise and (AndBits); H is always set. */
  function And(a: bv8, v: bv8): (r: AluOut)
    ensures r.flags == Flags(r.result == 0, false, true, false)
  {
    AluOut(a & v, FlagsFrom(a & v == 0, false, true, false))
  }

  /** XOR v: bitwise exclusive or (XorBits); only Z can be set. */
  function Xor(a: bv8, v: bv8): (r: AluOut)
    ensures r.flags == Flags(r.result == 0, false, false, false)
  {
    AluOut(a ^ v, FlagsFrom(a ^ v == 0, false, false, false))
  }

  /** OR v: bitwise or (OrBits); only Z can be set. */
  function Or(a: bv8, v: bv8): (r: AluOut)
    ensures r.flags == Flags(r.result == 0, false, false, false)
  {
    AluOut(a | v, FlagsFrom(a | v == 0, false, false, false))
  }

  /** CP v: the flags SUB v would leave, with A left as it was: Z when A equals v, C when A is below it. */
  function Cp(a: bv8, v: bv8): (r: AluOut)
    ensures r.result == a
    ensures r.flags == Flags(a == v, true, (a & 0xF) < (v & 0xF), a < v)
  {
    AluOut(a, FlagsFrom(a - v == 0, true, (a & 0x0F) < (v & 0x0F), a < v))
  }

  /*
   * Increment and decrement keep C and the low nibble of F.
   */

  /** INC: v + 1; H is set exactly when the low nibble was 0xF. */
  function Inc(v: bv8, f: bv8): (r: AluOut)
    ensures r.result == v + 1
    ensures ZeroFlag(r.flags) == (r.result == 0) && !SubFlag(r.flags)
    ensures HalfCarryFlag(r.flags) == (v & 0xF == 0xF)
    ensures CarryFlag(r.flags) == CarryFlag(f) && r.flags & 0x0F == f & 0x0F
  {
    AluOut(v + 1,
      Put(BitReset(Put(f, FLAG_ZERO, v + 1 == 0), FLAG_SUB),
          FLAG_HALFCARRY, IsBitSet(v, 3) && !IsBitSet(v + 1, 3)))
  }

  /** DEC: v - 1; H is set exactly when the low nibble was 0 (a borrow from bit 4). */
  function Dec(v: bv8, f: bv8): (r: AluOut)
    ensures r.result + 1 == v
    ensures ZeroFlag(r.flags) == (r.result == 0) && SubFlag(r.flags)
    ensures HalfCarryFlag(r.flags) == (v & 0xF == 0)
    ensures CarryFlag(r.flags) == CarryFlag(f) && r.flags & 0x0F == f & 0x0F
  {
    AluOut(v - 1,
      Put(BitSet(Put(f, FLAG_ZERO, v - 1 == 0), FLAG_SUB),
          FLAG_HALFCARRY, ((v - 1) ^ v ^ 1) & 0x10 == 0x10))
  }

  /*
   * DAA: decimal adjustment of A after a BCD addition or subtraction, as
   * chosen by N. The handler works on an `int`; only its low 16 bits are
   * ever observed (bit 8 for the carry, the low byte for A), so a 16-bit
   * vector carries exactly that information.
   */

  /** The first DAA step: correct the low digit. */
  function DaaLow(result: bv16, f: bv8): bv16
  {
    if !SubFlag(f) then
      if HalfCarryFlag(f) || result & 0xF > 9 then result + 0x06 else result
    else
      if HalfCarryFlag(f) then (result - 0x06) & 0xFF else result
  }

  /** The second DAA step: correct the high digit. */
  function DaaHigh(result: bv16, f: bv8): bv16
  {
    if !SubFlag(f) then
      if CarryFlag(f) || result > 0x9F then result + 0x60 else result
    else
      if CarryFlag(f) then result - 0x60 else result
  }

  /** A and F once the adjusted value `result` is known: H cleared, C set on bit 8, Z from the low byte. */
  function DaaOut(result: bv16, f: bv8): (r: AluOut)
    ensures r.result as bv16 == result & 0xFF
    ensures ZeroFlag(r.flags) == (r.result == 0) && !HalfCarryFlag(r.flags) && SubFlag(r.flags) == SubFlag(f)
    ensures CarryFlag(r.flags) == (CarryFlag(f) || result & 0x100 == 0x100)
    ensures r.flags & 0x0F == f & 0x0F
  {
    AluOut((result & 0xFF) as bv8,
      Put(if result & 0x100 == 0x100 then BitSet(BitReset(f, FLAG_HALFCARRY), FLAG_CARRY)
          else BitReset(f, FLAG_HALFCARRY),
          FLAG_ZERO, result & 0xFF == 0))
  }

  /** DAA; its BCD meaning is DaaAfterAdd and DaaAfterSub. */
  function Daa(a: bv8, f: bv8): (r: AluOut)
    ensures !HalfCarryFlag(r.flags) && SubFlag(r.flags) == SubFlag(f)
    ensures ZeroFlag(r.flags) == (r.result == 0)
    ensures CarryFlag(f) ==> CarryFlag(r.flags)
    ensures r.flags & 0x0F == f & 0x0F
  {
    DaaOut(DaaHigh(DaaLow(a as bv16, f), f), f)
  }

  /** CPL: the complement of A; sets N and H, keeps Z and C. */
  function Cpl(a: bv8, f: bv8): (r: AluOut)
    ensures r.result == !a
    ensures SubFlag(r.flags) && HalfCarryFlag(r.flags)
    ensures ZeroFlag(r.flags) == ZeroFlag(f) && CarryFlag(r.flags) == CarryFlag(f)
    ensures r.flags & 0x0F == f & 0x0F
  {
    AluOut(a ^ 0xFF, BitSet(BitSet(f, FLAG_SUB), FLAG_HALFCARRY))
  }

  /*
   * 16-bit arithmetic.
   */

  /** ADD HL, rr: H and C are the carries out of bit 11 and bit 15; Z is kept. */
  function AddWord(hl: bv16, rr: bv16, f: bv8): (r: WordOut)
    ensures r.result == hl + rr
    ensures !SubFlag(r.flags) && ZeroFlag(r.flags) == ZeroFlag(f)
    ensures HalfCarryFlag(r.flags) == ((hl & 0xFFF) + (rr & 0xFFF) > 0xFFF)
    ensures CarryFlag(r.flags) == (hl as bv32 + rr as bv32 > 0xFFFF)
    ensures r.flags & 0x0F == f & 0x0F
  {
    WordOut(hl + rr, AddWordFlags(hl, rr, hl + rr, f))
  }

  /** F after ADD HL, rr produced `result`. */
  function AddWordFlags(hl: bv16, rr: bv16, result: bv16, f: bv8): (g: bv8)
    ensures !SubFlag(g) && ZeroFlag(g) == ZeroFlag(f)
    ensures HalfCarryFlag(g) == ((result ^ hl ^ rr) & 0x1000 != 0)
    ensures CarryFlag(g) == (result < hl)
    ensures g & 0x0F == f & 0x0F
  {
    Put(Put(BitReset(f, FLAG_SUB), FLAG_HALFCARRY, (result ^ hl ^ rr) & 0x1000 != 0), FLAG_CARRY, result < hl)
  }

  /** The signed byte `dd` widened to a WORD, as the C++ conversion from `signed char` does. */
  function SignExtend(dd: bv8): (w: bv16)
    ensures Low(w) == dd
    ensures High(w) == if dd >= 0x80 then 0xFF else 0
  {
    if dd >= 0x80 then 0xFF00 | dd as bv16 else dd as bv16
  }

  /**
   * ADD SP, dd and LD HL, SP+dd: SP plus the signed offset; Z and N are
   * cleared, and H and C are the carries out of bit 3 and bit 7 of the
   * unsigned low-byte addition.
   */
  function AddSigned(sp: bv16, dd: bv8, f: bv8): (r: WordOut)
    ensures r.result == sp + SignExtend(dd)
    ensures !ZeroFlag(r.flags) && !SubFlag(r.flags)
    ensures HalfCarryFlag(r.flags) == ((sp & 0xF) + (dd as bv16 & 0xF) > 0xF)
    ensures CarryFlag(r.flags) == ((sp & 0xFF) + dd as bv16 > 0xFF)
    ensures r.flags & 0x0F == f & 0x0F
  {
    WordOut(sp + SignExtend(dd), AddSignedFlags(sp, sp + SignExtend(dd), f))
  }

  /** F after SP + dd produced `result`. */
  function AddSignedFlags(sp: bv16, result: bv16, f: bv8): (g: bv8)
    ensures !ZeroFlag(g) && !SubFlag(g)
    ensures HalfCarryFlag(g) == ((result & 0x0F) < (sp & 0x0F))
    ensures CarryFlag(g) == ((result & 0xFF) < (sp & 0xFF))
    ensures g & 0x0F == f & 0x0F
  {
    Put(Put(BitReset(BitReset(f, FLAG_ZERO), FLAG_SUB),
            FLAG_HALFCARRY, (result & 0x0F) < (sp & 0x0F)),
        FLAG_CARRY, (result & 0xFF) < (sp & 0xFF))
  }

  /*
   * Rotates and shifts. The accumulator forms (RLCA, RLA, RRCA, RRA) clear
   * Z; the CB forms set Z from the result. All clear N and H, put the bit
   * shifted out into C, and keep the low nibble of F.
   */

  /** F after a CB rotate or shift that produced `result` and shifted out `out`. */
  function ShiftFlags(f: bv8, result: bv8, out: bool): (g: bv8)
    ensures ZeroFlag(g) == (result == 0) && !SubFlag(g) && !HalfCarryFlag(g) && CarryFlag(g) == out
    ensures g & 0x0F == f & 0x0F
  {
    Put(Put(BitReset(BitReset(f, FLAG_SUB), FLAG_HALFCARRY), FLAG_ZERO, result == 0), FLAG_CARRY, out)
  }

  /** F after an accumulator rotate that shifted out `out`. */
  function AccumulatorFlags(f: bv8, out: bool): (g: bv8)
    ensures !ZeroFlag(g) && !SubFlag(g) && !HalfCarryFlag(g) && CarryFlag(g) == out
    ensures g & 0x0F == f & 0x0F
  {
    Put(BitReset(BitReset(BitReset(f, FLAG_ZERO), FLAG_SUB), FLAG_HALFCARRY), FLAG_CARRY, out)
  }

  /** The byte rotated left: bit 7 moves to bit 0 (RotateBits). */
  function RotateLeft(v: bv8): bv8
  {
    (v << 1) | (v >> 7)
  }

  /** The byte rotated right: bit 0 moves to bit 7 (RotateBits). */
  function RotateRight(v: bv8): bv8
  {
    (v >> 1) | ((v & 1) << 7)
  }

  /** RLC: rotate left, bit 7 into C. */
  function Rlc(v: bv8, f: bv8): (r: AluOut)
    ensures r.result == RotateLeft(v)
    ensures r.flags == ShiftFlags(f, r.result, IsBitSet(v, 7))
  {
    AluOut((v << 1) | (v >> 7), ShiftFlags(f, (v << 1) | (v >> 7), IsBitSet(v >> 7, 0)))
  }

  /** RRC: rotate right, bit 0 into C. */
  function Rrc(v: bv8, f: bv8): (r: AluOut)
    ensures r.result == RotateRight(v)
    ensures r.flags == ShiftFlags(f, r.result, IsBitSet(v, 0))
  {
    AluOut((v >> 1) | ((v & 1) << 7), ShiftFlags(f, (v >> 1) | ((v & 1) << 7), IsBitSet(v & 1, 0)))
  }

  /** RL: rotate left through the carry: C into bit 0, bit 7 into C (LeftShiftBits). */
  function Rl(v: bv8, f: bv8): (r: AluOut)
    ensures IsBitSet(r.result, 0) == CarryFlag(f)
    ensures r.flags == ShiftFlags(f, r.result, IsBitSet(v, 7))
  {
    AluOut((v << 1) | CarryBit(f), ShiftFlags(f, (v << 1) | CarryBit(f), IsBitSet(v >> 7, 0)))
  }

  /** RR: rotate right through the carry: C into bit 7, bit 0 into C (RightShiftBits). */
  function Rr(v: bv8, f: bv8): (r: AluOut)
    ensures IsBitSet(r.result, 7) == CarryFlag(f)
    ensures r.flags == ShiftFlags(f, r.result, IsBitSet(v, 0))
  {
    AluOut((v >> 1) | (CarryBit(f) << 7), ShiftFlags(f, (v >> 1) | (CarryBit(f) << 7), IsBitSet(v & 1, 0)))
  }

  /** SLA: shift left, bit 0 becomes 0, bit 7 into C; the result is v times 2. */
  function Sla(v: bv8, f: bv8): (r: AluOut)
    ensures r.result == v * 2
    ensures r.flags == ShiftFlags(f, r.result, IsBitSet(v, 7))
  {
    AluOut(v << 1, ShiftFlags(f, v << 1, IsBitSet(v >> 7, 0)))
  }

  /** SRA: shift right keeping bit 7, bit 0 into C (RightShiftBits). */
  function Sra(v: bv8, f: bv8): (r: AluOut)
    ensures IsBitSet(r.result, 7) == IsBitSet(v, 7)
    ensures r.flags == ShiftFlags(f, r.result, IsBitSet(v, 0))
  {
    AluOut((v >> 1) | (v & 0x80), ShiftFlags(f, (v >> 1) | (v & 0x80), IsBitSet(v & 1, 0)))
  }

  /** SRL: shift right, bit 7 becomes 0, bit 0 into C; the result is v divided by 2. */
  function Srl(v: bv8, f: bv8): (r: AluOut)
    ensures r.result == v / 2
    ensures r.flags == ShiftFlags(f, r.result, IsBitSet(v, 0))
  {
    AluOut(BitReset(v >> 1, 7), ShiftFlags(f, BitReset(v >> 1, 7), IsBitSet(v & 1, 0)))
  }

  /** SWAP: exchange the two nibbles; C is cleared. */
  function Swap(v: bv8, f: bv8): (r: AluOut)
    ensures r.result & 0x0F == v >> 4 && r.result >> 4 == v & 0x0F
    ensures r.flags == ShiftFlags(f, r.result, false)
  {
    AluOut(((v & 0x0F) << 4) | ((v & 0xF0) >> 4),
      Put(BitReset(BitReset(BitReset(f, FLAG_SUB), FLAG_HALFCARRY), FLAG_CARRY),
          FLAG_ZERO, ((v & 0x0F) << 4) | ((v & 0xF0) >> 4) == 0))
  }

  /** RLCA: RLC on A with Z cleared. */
  function Rlca(a: bv8, f: bv8): (r: AluOut)
    ensures r.result == Rlc(a, f).result
    ensures r.flags == AccumulatorFlags(f, IsBitSet(a, 7))
  {
    AluOut((a << 1) | (a >> 7), AccumulatorFlags(f, IsBitSet(a >> 7, 0)))
  }

  /** RLA: RL on A with Z cleared. */
  function Rla(a: bv8, f: bv8): (r: AluOut)
    ensures r.result == Rl(a, f).result
    ensures r.flags == AccumulatorFlags(f, IsBitSet(a, 7))
  {
    AluOut((a << 1) | CarryBit(f), AccumulatorFlags(f, IsBitSet(a >> 7, 0)))
  }

  /** RRCA: RRC on A with Z cleared. */
  function Rrca(a: bv8, f: bv8): (r: AluOut)
    ensures r.result == Rrc(a, f).result
    ensures r.flags == AccumulatorFlags(f, IsBitSet(a, 0))
  {
    AluOut((a >> 1) | ((a & 1) << 7), AccumulatorFlags(f, IsBitSet(a & 1, 0)))
  }

  /** RRA: RR on A with Z cleared. */
  function Rra(a: bv8, f: bv8): (r: AluOut)
    ensures r.result == Rr(a, f).result
    ensures r.flags == AccumulatorFlags(f, IsBitSet(a, 0))
  {
    AluOut((a >> 1) | (CarryBit(f) << 7), AccumulatorFlags(f, IsBitSet(a & 1, 0)))
  }

  /*
   * Single-bit operations and the carry-flag instructions.
   */

  /** BIT n: Z is set exactly when bit n is clear; N cleared, H set, C kept. */
  function Bit(n: bv8, v: bv8, f: bv8): (g: bv8)
    requires n < 8
    ensures ZeroFlag(g) == !IsBitSet(v, n)
    ensures !SubFlag(g) && HalfCarryFlag(g) && CarryFlag(g) == CarryFlag(f)
    ensures g & 0x0F == f & 0x0F
  {
    BitSet(BitReset(if IsBitSet(v, n) then BitReset(f, FLAG_ZERO) else BitSet(f, FLAG_ZERO), FLAG_SUB), FLAG_HALFCARRY)
  }

  /** CCF: complement C; N and H cleared, Z kept. */
  function Ccf(f: bv8): (g: bv8)
    ensures CarryFlag(g) == !CarryFlag(f)
    ensures !SubFlag(g) && !HalfCarryFlag(g) && ZeroFlag(g) == ZeroFlag(f)
    ensures g & 0x0F == f & 0x0F
  {
    Put(BitReset(BitReset(f, FLAG_SUB), FLAG_HALFCARRY), FLAG_CARRY, !CarryFlag(f))
  }

  /** SCF: set C; N and H cleared, Z kept. */
  function Scf(f: bv8): (g: bv8)
    ensures CarryFlag(g) && !SubFlag(g) && !HalfCarryFlag(g) && ZeroFlag(g) == ZeroFlag(f)
    ensures g & 0x0F == f & 0x0F
  {
    BitSet(BitReset(BitReset(f, FLAG_SUB), FLAG_HALFCARRY), FLAG_CARRY)
  }

  /**
   * The condition of a conditional jump, call or return, chosen by bits 4..3
   * of its opcode: NZ, Z, NC, C.
   */
  function ConditionHolds(opcode: bv8, f: bv8): (b: bool)
    ensures opcode in {0x20, 0xC0, 0xC2, 0xC4} ==> (b <==> !ZeroFlag(f))
    ensures opcode in {0x28, 0xC8, 0xCA, 0xCC} ==> (b <==> ZeroFlag(f))
    ensures opcode in {0x30, 0xD0, 0xD2, 0xD4} ==> (b <==> !CarryFlag(f))
    ensures opcode in {0x38, 0xD8, 0xDA, 0xDC} ==> (b <==> CarryFlag(f))
  {
    if (opcode >> 3) & 0x03 == 0 then !ZeroFlag(f)
    else if (opcode >> 3) & 0x03 == 1 then ZeroFlag(f)
    else if (opcode >> 3) & 0x03 == 2 then !CarryFlag(f)
    else CarryFlag(f)
  }

  /** The address RST jumps to: bits 5..3 of the opcode times 8. */
  function RstTarget(opcode: bv8): (t: bv16)
    ensures t <= 0x38 && t & 7 == 0
    ensures t >> 3 == ((opcode >> 3) & 7) as bv16
  {
    (((opcode >> 3) & 0x07) as bv16) * 0x08
  }

  /*
   * What the results mean, and how the instructions undo one another.
   */

  /** AND acts bit by bit. */
  lemma AndBits(a: bv8, v: bv8, q: bv8)
    requires q < 8
    ensures IsBitSet(And(a, v).result, q) == (IsBitSet(a, q) && IsBitSet(v, q))
  {
    BitOfAnd(a, v, And(a, v).result, q);
  }

  /** XOR acts bit by bit. */
  lemma XorBits(a: bv8, v: bv8, q: bv8)
    requires q < 8
    ensures IsBitSet(Xor(a, v).result, q) == (IsBitSet(a, q) != IsBitSet(v, q))
  {
    BitOfXor(a, v, Xor(a, v).result, q);
  }

  /** OR acts bit by bit. */
  lemma OrBits(a: bv8, v: bv8, q: bv8)
    requires q < 8
    ensures IsBitSet(Or(a, v).result, q) == (IsBitSet(a, q) || IsBitSet(v, q))
  {
    BitOfOr(a, v, Or(a, v).result, q);
  }

  /** XOR A with itself clears A and sets Z: the usual way to zero A. */
  lemma XorSelfClears(a: bv8)
    ensures Xor(a, a).result == 0 && ZeroFlag(Xor(a, a).flags)
  {
  }

  /**
   * Subtracting what was added gives A back, and the subtraction borrows
   * (from bit 4, from bit 8) exactly where the addition carried.
   */
  lemma SubUndoesAdd(a: bv8, v: bv8)
    ensures Sub(Add(a, v).result, v).result == a
    ensures CarryFlag(Sub(Add(a, v).result, v).flags) == CarryFlag(Add(a, v).flags)
    ensures HalfCarryFlag(Sub(Add(a, v).result, v).flags) == HalfCarryFlag(Add(a, v).flags)
  {
  }

  /** DEC undoes INC, and both see the same nibble boundary; C passes through both. */
  lemma DecUndoesInc(v: bv8, f: bv8)
    ensures Dec(Inc(v, f).result, Inc(v, f).flags).result == v
    ensures HalfCarryFlag(Dec(Inc(v, f).result, Inc(v, f).flags).flags) == HalfCarryFlag(Inc(v, f).flags)
    ensures CarryFlag(Dec(Inc(v, f).result, Inc(v, f).flags).flags) == CarryFlag(f)
  {
  }

  /**
   * ADC A, n is the usual add-with-carry whenever carry plus operand fits
   * in a byte: C reports a carry out of A + n + carry; H does so whenever
   * carry plus the operand's low nibble fits in a nibble.
   */
  lemma AdcAgreesWithCarryIn(a: bv8, v: bv8, f: bv8)
    requires !(CarryFlag(f) && v == 0xFF)
    ensures CarryFlag(AdcImmediate(a, v, f).flags) == (a as bv16 + v as bv16 + CarryBit(f) as bv16 > 0xFF)
    ensures (v & 0xF) + CarryBit(f) <= 0xF ==>
      HalfCarryFlag(AdcImmediate(a, v, f).flags) == ((a & 0xF) + (v & 0xF) + CarryBit(f) > 0xF)
  {
  }

  /**
   * H of ADC A, n is the carry out of bit 3 of A + (carry + n): with C set
   * and n = 0x0F, 0 + 0x0F + 1 carries out of the low nibble but H stays
   * clear. SBC behaves alike.
   */
  lemma AdcHalfCarryFromWrappedOperand(f: bv8)
    requires CarryFlag(f)
    ensures !HalfCarryFlag(AdcImmediate(0, 0x0F, f).flags)
    ensures !HalfCarryFlag(Sbc(0, 0x0F, f).flags)
  {
  }

  /**
   * With C set and operand 0xFF, carry plus operand wraps to 0 in a byte:
   * ADC A, n then leaves A unchanged and clears C, although A + 0xFF + 1
   * carries out of bit 7.
   */
  lemma AdcImmediateWraps(a: bv8, f: bv8)
    requires CarryFlag(f)
    ensures AdcImmediate(a, 0xFF, f) == Add(a, 0)
    ensures AdcImmediate(a, 0xFF, f).result == a && !CarryFlag(AdcImmediate(a, 0xFF, f).flags)
  {
  }

  /** With C clear, ADC A, r is ADD A, r. */
  lemma AdcDoubledWithoutCarry(a: bv8, v: bv8, f: bv8)
    requires !CarryFlag(f)
    ensures AdcDoubled(a, v, f) == Add(a, v)
  {
  }

  /** With C set, ADC A, r adds the carry twice: 0 + 0 + carry gives 2, where ADC A, n gives 1. */
  lemma AdcDoubleCarry(f: bv8)
    requires CarryFlag(f)
    ensures AdcDoubled(0, 0, f).result == 2
    ensures AdcImmediate(0, 0, f).result == 1
  {
  }

  /** SBC is the usual subtract-with-borrow whenever carry plus operand fits in a byte. */
  lemma SbcAgreesWithBorrowIn(a: bv8, v: bv8, f: bv8)
    requires !(CarryFlag(f) && v == 0xFF)
    ensures CarryFlag(Sbc(a, v, f).flags) == (a as bv16 < v as bv16 + CarryBit(f) as bv16)
    ensures (v & 0xF) + CarryBit(f) <= 0xF ==>
      HalfCarryFlag(Sbc(a, v, f).flags) == ((a & 0xF) < (v & 0xF) + CarryBit(f))
  {
  }

  /** The bits of a byte rotated left or right. */
  lemma RotateBits(v: bv8, q: bv8)
    requires q < 8
    ensures IsBitSet(RotateLeft(v), (q + 1) % 8) == IsBitSet(v, q)
    ensures IsBitSet(RotateRight(v), q) == IsBitSet(v, (q + 1) % 8)
  {
  }

  /** RL and SLA move every bit up one place. */
  lemma LeftShiftBits(v: bv8, f: bv8, q: bv8)
    requires q < 7
    ensures IsBitSet(Rl(v, f).result, q + 1) == IsBitSet(v, q)
    ensures IsBitSet(Sla(v, f).result, q + 1) == IsBitSet(v, q)
  {
  }

  /** RR, SRA and SRL move every bit down one place. */
  lemma RightShiftBits(v: bv8, f: bv8, q: bv8)
    requires q < 7
    ensures IsBitSet(Rr(v, f).result, q) == IsBitSet(v, q + 1)
    ensures IsBitSet(Sra(v, f).result, q) == IsBitSet(v, q + 1)
    ensures IsBitSet(Srl(v, f).result, q) == IsBitSet(v, q + 1)
  {
  }

  /** RRC undoes RLC, and RLC undoes RRC. */
  lemma RotatesUndoEachOther(v: bv8, f: bv8, g: bv8)
    ensures Rrc(Rlc(v, f).result, g).result == v
    ensures Rlc(Rrc(v, f).result, g).result == v
  {
  }

  /** RR undoes RL through the carry, restoring both the byte and C; and the other way round. */
  lemma RotatesThroughCarryUndoEachOther(v: bv8, f: bv8)
    ensures Rr(Rl(v, f).result, Rl(v, f).flags).result == v
    ensures CarryFlag(Rr(Rl(v, f).result, Rl(v, f).flags).flags) == CarryFlag(f)
    ensures Rl(Rr(v, f).result, Rr(v, f).flags).result == v
    ensures CarryFlag(Rl(Rr(v, f).result, Rr(v, f).flags).flags) == CarryFlag(f)
  {
  }

  /** SWAP twice, and CPL twice, give the byte back. */
  lemma SwapAndCplInvolutions(v: bv8, f: bv8, g: bv8)
    ensures Swap(Swap(v, f).result, g).result == v
    ensures Cpl(Cpl(v, f).result, g).result == v
  {
  }

  /** CCF twice gives C back; SCF then CCF clears it. */
  lemma CarryFlagInstructions(f: bv8)
    ensures CarryFlag(Ccf(Ccf(f))) == CarryFlag(f)
    ensures !CarryFlag(Ccf(Scf(f)))
  {
  }
  /*
   * DAA as decimal arithmetic: a byte holding two BCD digits, and the
   * number 0..99 it writes.
   */

  /** Both nibbles of `b` are decimal digits. */
  predicate IsBcd(b: bv8)
  {
    b & 0x0F <= 9 && b >> 4 <= 9
  }

  /** The number written by a BCD byte. */
  function BcdValue(b: bv8): int
  {
    (b >> 4) as int * 10 + (b & 0x0F) as int
  }

  /** A and F after ADD of `x` and `y` followed by DAA. */
  function DecimalAdd(x: bv8, y: bv8): AluOut
  {
    Daa(Add(x, y).result, Add(x, y).flags)
  }

  /** A and F after SUB of `y` from `x` followed by DAA. */
  function DecimalSub(x: bv8, y: bv8): AluOut
  {
    Daa(Sub(x, y).result, Sub(x, y).flags)
  }

  /** One decimal column: digit `r` with carry `c` out is the sum of digits `a`, `b` and carry `k` in. */
  lemma DigitColumn(a: bv8, b: bv8, k: bv8, c: bv8, r: bv8)
    requires a <= 9 && b <= 9 && k <= 1 && c <= 1 && r <= 9
    requires r + 10 * c == a + b + k
    ensures r as int + 10 * c as int == a as int + b as int + k as int
  {
  }

  /** The ones column of a two-digit decimal addition, read as numbers. */
  lemma OnesColumn(x: bv8, y: bv8, r: bv8, k: bv8)
    requires IsBcd(x) && IsBcd(y) && r & 0x0F <= 9 && k <= 1
    requires (r & 0x0F) + 10 * k == (x & 0x0F) + (y & 0x0F)
    ensures (r & 0x0F) as int + 10 * k as int == (x & 0x0F) as int + (y & 0x0F) as int
  {
    DigitColumn(x & 0x0F, y & 0x0F, 0, k, r & 0x0F);
  }

  /** The tens column of a two-digit decimal addition, read as numbers. */
  lemma TensColumn(x: bv8, y: bv8, r: bv8, k: bv8, c: bv8)
    requires IsBcd(x) && IsBcd(y) && r >> 4 <= 9 && k <= 1 && c <= 1
    requires (r >> 4) + 10 * c == (x >> 4) + (y >> 4) + k
    ensures (r >> 4) as int + 10 * c as int == (x >> 4) as int + (y >> 4) as int + k as int
  {
    DigitColumn(x >> 4, y >> 4, k, c, r >> 4);
  }

  /** Two decimal columns with carry `k` between them and `c` out of the tens add the two numbers. */
  lemma AddColumns(x: bv8, y: bv8, r: bv8, k: int, c: int)
    requires (r & 0x0F) as int + 10 * k == (x & 0x0F) as int + (y & 0x0F) as int
    requires (r >> 4) as int + 10 * c == (x >> 4) as int + (y >> 4) as int + k
    ensures BcdValue(r) + 100 * c == BcdValue(x) + BcdValue(y)
  {
  }

  /** Digit-wise addition of BCD bytes `x` and `y` giving `r` and carry `c` is addition of their values. */
  lemma TwoColumns(x: bv8, y: bv8, r: bv8, k: bv8, c: bv8)
    requires IsBcd(x) && IsBcd(y) && IsBcd(r) && c <= 1 && k <= 1
    requires (r & 0x0F) + 10 * k == (x & 0x0F) + (y & 0x0F)
    requires (r >> 4) + 10 * c == (x >> 4) + (y >> 4) + k
    ensures BcdValue(r) + 100 * c as int == BcdValue(x) + BcdValue(y)
  {
    OnesColumn(x, y, r, k);
    TensColumn(x, y, r, k, c);
    AddColumns(x, y, r, k as int, c as int);
  }

  /** DAA's last step keeps the two digits of the adjusted value and reports C. */
  lemma DaaOutDigits(w: bv16, f: bv8)
    ensures DaaOut(w, f).result & 0x0F == (w & 0x0F) as bv8
    ensures DaaOut(w, f).result >> 4 == ((w >> 4) & 0x0F) as bv8
    ensures CarryBit(DaaOut(w, f).flags) == TensCarry(w, f)
  {
  }

  /** The carry from the ones column of a decimal addition of `x` and `y`. */
  function LowCarry(x: bv8, y: bv8): (k: bv8)
    ensures k <= 1
  {
    if (x & 0x0F) + (y & 0x0F) >= 10 then 1 else 0
  }

  /** The borrow from the ones column of a decimal subtraction of `y` from `x`. */
  function LowBorrow(x: bv8, y: bv8): (k: bv8)
    ensures k <= 1
  {
    if (x & 0x0F) < (y & 0x0F) then 1 else 0
  }

  /** The carry out of the tens column, as DAA's last step reports it in C. */
  function TensCarry(w: bv16, f: bv8): (c: bv8)
    ensures c <= 1
  {
    if CarryFlag(f) || w & 0x100 == 0x100 then 1 else 0
  }

  /** The two digits of `w` are the column sums of `x` plus `y`, with their carries. */
  predicate SumColumns(x: bv8, y: bv8, w: bv16, f: bv8)
  {
    && w & 0x0F <= 9 && (w >> 4) & 0x0F <= 9
    && (w & 0x0F) as bv8 + 10 * LowCarry(x, y) == (x & 0x0F) + (y & 0x0F)
    && ((w >> 4) & 0x0F) as bv8 + 10 * TensCarry(w, f) == (x >> 4) + (y >> 4) + LowCarry(x, y)
  }

  /** The two digits of `w` are the column differences of `x` minus `y`, with their borrows. */
  predicate DifferenceColumns(x: bv8, y: bv8, w: bv16, f: bv8)
  {
    && w & 0x0F <= 9 && (w >> 4) & 0x0F <= 9
    && (w & 0x0F) as bv8 + (y & 0x0F) == (x & 0x0F) + 10 * LowBorrow(x, y)
    && ((w >> 4) & 0x0F) as bv8 + (y >> 4) + LowBorrow(x, y) == (x >> 4) + 10 * TensCarry(w, f)
  }

  /**
   * When the adjusted value `w` holds, digit by digit, the sum of BCD bytes
   * `x` and `y`, DAA's last step leaves that sum in A and its carry in C.
   */
  lemma DaaOutSum(x: bv8, y: bv8, w: bv16, f: bv8, out: AluOut)
    requires IsBcd(x) && IsBcd(y) && SumColumns(x, y, w, f) && out == DaaOut(w, f)
    ensures IsBcd(out.result)
    ensures BcdValue(out.result) + 100 * CarryBit(out.flags) as int == BcdValue(x) + BcdValue(y)
  {
    DaaOutDigits(w, f);
    TwoColumns(x, y, out.result, LowCarry(x, y), CarryBit(out.flags));
  }

  /**
   * When the adjusted value `w` holds, digit by digit, the difference of
   * BCD bytes `x` and `y`, DAA's last step leaves it in A and the borrow in C.
   */
  lemma DaaOutDifference(x: bv8, y: bv8, w: bv16, f: bv8, out: AluOut)
    requires IsBcd(x) && IsBcd(y) && DifferenceColumns(x, y, w, f) && out == DaaOut(w, f)
    ensures IsBcd(out.result)
    ensures BcdValue(out.result) + BcdValue(y) == BcdValue(x) + 100 * CarryBit(out.flags) as int
  {
    DaaOutDigits(w, f);
    TwoColumns(out.result, y, x, LowBorrow(x, y), CarryBit(out.flags));
  }

  /** The value DAA adjusts after an addition of BCD bytes that gave `s` holds their sum digit by digit. */
  lemma DaaAddColumns(x: bv8, y: bv8, s: bv8, f: bv8)
    requires IsBcd(x) && IsBcd(y) && s == x + y && !SubFlag(f)
    requires HalfCarryFlag(f) == ((x & 0xF) + (y & 0xF) > 0xF) && CarryFlag(f) == (x as bv16 + y as bv16 > 0xFF)
    ensures SumColumns(x, y, DaaHigh(DaaLow(s as bv16, f), f), f)
  {
  }

  /** DAA after an addition of BCD bytes that left `s` in A and `f` in F. */
  lemma DaaAfterAddition(x: bv8, y: bv8, s: bv8, f: bv8)
    requires IsBcd(x) && IsBcd(y) && s == x + y && !SubFlag(f)
    requires HalfCarryFlag(f) == ((x & 0xF) + (y & 0xF) > 0xF) && CarryFlag(f) == (x as bv16 + y as bv16 > 0xFF)
    ensures IsBcd(Daa(s, f).result)
    ensures BcdValue(Daa(s, f).result) + 100 * CarryBit(Daa(s, f).flags) as int == BcdValue(x) + BcdValue(y)
  {
    DaaAddColumns(x, y, s, f);
    DaaOutSum(x, y, DaaHigh(DaaLow(s as bv16, f), f), f, Daa(s, f));
  }

  /**
   * ADD then DAA adds two BCD numbers: A holds the last two decimal digits
   * of the sum and C the decimal carry, worth 100.
   */
  lemma DaaAfterAdd(x: bv8, y: bv8)
    requires IsBcd(x) && IsBcd(y)
    ensures IsBcd(DecimalAdd(x, y).result)
    ensures BcdValue(DecimalAdd(x, y).result) + 100 * CarryBit(DecimalAdd(x, y).flags) as int
      == BcdValue(x) + BcdValue(y)
  {
    DaaAfterAddition(x, y, Add(x, y).result, Add(x, y).flags);
  }

  /** The value DAA adjusts after a subtraction of BCD bytes that gave `d` holds their difference digit by digit. */
  lemma DaaSubColumns(x: bv8, y: bv8, d: bv8, f: bv8)
    requires IsBcd(x) && IsBcd(y) && d + y == x && SubFlag(f)
    requires HalfCarryFlag(f) == ((x & 0xF) < (y & 0xF)) && CarryFlag(f) == (x < y)
    ensures DifferenceColumns(x, y, DaaHigh(DaaLow(d as bv16, f), f), f)
  {
  }

  /** DAA after a subtraction of BCD bytes that left `d` in A and `f` in F. */
  lemma DaaAfterSubtraction(x: bv8, y: bv8, d: bv8, f: bv8)
    requires IsBcd(x) && IsBcd(y) && d + y == x && SubFlag(f)
    requires HalfCarryFlag(f) == ((x & 0xF) < (y & 0xF)) && CarryFlag(f) == (x < y)
    ensures IsBcd(Daa(d, f).result)
    ensures BcdValue(Daa(d, f).result) + BcdValue(y) == BcdValue(x) + 100 * CarryBit(Daa(d, f).flags) as int
  {
    DaaSubColumns(x, y, d, f);
    DaaOutDifference(x, y, DaaHigh(DaaLow(d as bv16, f), f), f, Daa(d, f));
  }

  /**
   * SUB then DAA subtracts two BCD numbers: A holds the difference modulo
   * 100 and C the decimal borrow, worth 100.
   */
  lemma DaaAfterSub(x: bv8, y: bv8)
    requires IsBcd(x) && IsBcd(y)
    ensures IsBcd(DecimalSub(x, y).result)
    ensures BcdValue(DecimalSub(x, y).result) + BcdValue(y)
      == BcdValue(x) + 100 * CarryBit(DecimalSub(x, y).flags) as int
  {
    DaaAfterSubtraction(x, y, Sub(x, y).result, Sub(x, y).flags);
  }
}

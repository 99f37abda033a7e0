/**
 * The opcode tables of Emulator.cpp: `executeOpcode`, `executeCBOpcode`
 * and `executeNextOpcode`. `Dispatch` gives, for each opcode, the handlers
 * its `case` runs: none for the eleven opcodes the switch does not list,
 * two for the four `(HL)` cases that have no `break` and fall through into
 * the next case, one otherwise. The opcodes 0x40..0xBF and the whole CB
 * table follow the Game Boy's regular encoding: bits 0..2 name the
 * operand (B, C, D, E, H, L, (HL), A) and bits 3..5 the destination, the
 * operation or the bit number.
 */
module Decode {
  import opened Hardware
  import opened EmulatorState
  import opened Stack
  import opened Operands
  import Cpu
  import Alu

  /** The handlers that move a byte or a word: `LD`, `LDI`, `LDD`, `PUSH` and `POP`. */
  datatype LoadInstr =
    | LdRR(to: Reg8, from: Reg8) | LdRN(r: Reg8) | LdRHl(r: Reg8) | LdHlR(r: Reg8) | LdHlN
    | LdABc | LdADe | LdANn | LdBcA | LdDeA | LdNnA
    | LdAFF00n | LdFF00nA | LdAFF00C | LdFF00CA | LdiHlA | LdiAHl | LddHlA | LddAHl
    | LdRrNn(rr: Reg16) | LdSpHl | LdNnSp | PushRr(pair: StackPair) | PopRr(pair: StackPair)

  /** The eight- and sixteen-bit arithmetic handlers. */
  datatype ArithInstr =
    | AluR(op: AluOp, r: Reg8) | AluN(op: AluOp) | AluHl(op: AluOp)
    | IncR(r: Reg8) | IncHl | DecR(r: Reg8) | DecHl | Daa | Cpl
    | AddHlRr(rr: Reg16) | IncRr(rr: Reg16) | DecRr(rr: Reg16) | AddSpDd | LdHlSpDd

  /** The rotates on A and the handlers of the CB table: shifts, `BIT`, `SET` and `RES`. */
  datatype BitInstr =
    | Rlca | Rla | Rrca | Rra
    | ShiftR(shift: ShiftOp, r: Reg8) | ShiftHl(shift: ShiftOp)
    | BitNR(n: BitIndex, r: Reg8) | BitNHl(n: BitIndex) | SetNR(n: BitIndex, r: Reg8) | SetNHl(n: BitIndex)
    | ResNR(n: BitIndex, r: Reg8) | ResNHl(n: BitIndex)

  /** The flag, CPU-control, jump, call and return handlers. */
  datatype ControlInstr =
    | Ccf | Scf | Nop | Halt | Stop | Di | Ei
    | JpNn | JpHl | JpFNn(opcode: bv8) | JrPcDd | JrFPcDd(opcode: bv8)
    | CallNn | CallFNn(opcode: bv8) | Ret | RetF(opcode: bv8) | Reti | RstN(opcode: bv8)

  /** One handler call of the switch, with its arguments, or the CB prefix, which runs the second table. */
  datatype Instr = Load(load: LoadInstr) | Arith(arith: ArithInstr) | Bits(bits: BitInstr) | Control(control: ControlInstr) | Prefix

  /** The register an operand field names; field 6 names (HL) and has no register. */
  function RegisterAt(code: bv8): Reg8
    requires code < 8 && code != 6
  {
    if code == 0 then B
    else if code == 1 then C
    else if code == 2 then D
    else if code == 3 then E
    else if code == 4 then H
    else if code == 5 then L
    else A
  }

  function AluOpAt(code: bv8): AluOp
    requires code < 8
  {
    if code == 0 then Add
    else if code == 1 then Adc
    else if code == 2 then Sub
    else if code == 3 then Sbc
    else if code == 4 then And
    else if code == 5 then Xor
    else if code == 6 then Or
    else Cp
  }

  function ShiftAt(code: bv8): ShiftOp
    requires code < 8
  {
    if code == 0 then Rlc
    else if code == 1 then Rrc
    else if code == 2 then Rl
    else if code == 3 then Rr
    else if code == 4 then Sla
    else if code == 5 then Sra
    else if code == 6 then Swap
    else Srl
  }

  /** Bits 3..5 of an opcode. */
  function Middle(opcode: bv8): (code: bv8)
    ensures code < 8
  {
    (opcode >> 3) & 7
  }

  /** Bits 0..2 of an opcode. */
  function Operand(opcode: bv8): (code: bv8)
    ensures code < 8
  {
    opcode & 7
  }

  /** Opcodes 0x40..0x7F: `LD r,R`, `LD r,(HL)`, `LD (HL),r`, and `HALT` at 0x76. */
  function LoadBlock(to: bv8, from: bv8): Instr
    requires to < 8 && from < 8
  {
    if to == 6 && from == 6 then Control(Halt)
    else if to == 6 then Load(LdHlR(RegisterAt(from)))
    else if from == 6 then Load(LdRHl(RegisterAt(to)))
    else Load(LdRR(RegisterAt(to), RegisterAt(from)))
  }

  /**
   * Opcodes 0x80..0xBF. The (HL) forms of AND, XOR, OR and CP have no
   * `break` and run the next case, the same operation on A, as well.
   */
  function AluBlock(op: bv8, from: bv8): seq<Instr>
    requires op < 8 && from < 8
  {
    if from != 6 then [Arith(AluR(AluOpAt(op), RegisterAt(from)))]
    else if op < 4 then [Arith(AluHl(AluOpAt(op)))]
    else [Arith(AluHl(AluOpAt(op))), Arith(AluR(AluOpAt(op), A))]
  }

  /** The handlers the `case` of `opcode` in `executeOpcode` runs, in order. */
  function Dispatch(opcode: bv8): seq<Instr>
  {
    if 0x40 <= opcode < 0x80 then [LoadBlock(Middle(opcode), Operand(opcode))]
    else if 0x80 <= opcode < 0xC0 then AluBlock(Middle(opcode), Operand(opcode))
    else if opcode < 0x10 then Row0(opcode)
    else if opcode < 0x20 then Row1(opcode)
    else if opcode < 0x30 then Row2(opcode)
    else if opcode < 0x40 then Row3(opcode)
    else if opcode < 0xD0 then RowC(opcode)
    else if opcode < 0xE0 then RowD(opcode)
    else if opcode < 0xF0 then RowE(opcode)
    else RowF(opcode)
  }

  /** The cases 0x00..0x0F. */
  function Row0(opcode: bv8): seq<Instr>
  {
    match opcode
    case 0x00 => [Control(Nop)]
    case 0x01 => [Load(LdRrNn(BC))]
    case 0x02 => [Load(LdBcA)]
    case 0x03 => [Arith(IncRr(BC))]
    case 0x04 => [Arith(IncR(B))]
    case 0x05 => [Arith(DecR(B))]
    case 0x06 => [Load(LdRN(B))]
    case 0x07 => [Bits(Rlca)]
    case 0x08 => [Load(LdNnSp)]
    case 0x09 => [Arith(AddHlRr(BC))]
    case 0x0A => [Load(LdABc)]
    case 0x0B => [Arith(DecRr(BC))]
    case 0x0C => [Arith(IncR(C))]
    case 0x0D => [Arith(DecR(C))]
    case 0x0E => [Load(LdRN(C))]
    case 0x0F => [Bits(Rrca)]
    case _ => []
  }

  /** The cases 0x10..0x1F. */
  function Row1(opcode: bv8): seq<Instr>
  {
    match opcode
    case 0x10 => [Control(Stop)]
    case 0x11 => [Load(LdRrNn(DE))]
    case 0x12 => [Load(LdDeA)]
    case 0x13 => [Arith(IncRr(DE))]
    case 0x14 => [Arith(IncR(D))]
    case 0x15 => [Arith(DecR(D))]
    case 0x16 => [Load(LdRN(D))]
    case 0x17 => [Bits(Rla)]
    case 0x18 => [Control(JrPcDd)]
    case 0x19 => [Arith(AddHlRr(DE))]
    case 0x1A => [Load(LdADe)]
    case 0x1B => [Arith(DecRr(DE))]
    case 0x1C => [Arith(IncR(E))]
    case 0x1D => [Arith(DecR(E))]
    case 0x1E => [Load(LdRN(E))]
    case 0x1F => [Bits(Rra)]
    case _ => []
  }

  /** The cases 0x20..0x2F. */
  function Row2(opcode: bv8): seq<Instr>
  {
    match opcode
    case 0x20 => [Control(JrFPcDd(opcode))]
    case 0x21 => [Load(LdRrNn(HL))]
    case 0x22 => [Load(LdiHlA)]
    case 0x23 => [Arith(IncRr(HL))]
    case 0x24 => [Arith(IncR(H))]
    case 0x25 => [Arith(DecR(H))]
    case 0x26 => [Load(LdRN(H))]
    case 0x27 => [Arith(Daa)]
    case 0x28 => [Control(JrFPcDd(opcode))]
    case 0x29 => [Arith(AddHlRr(HL))]
    case 0x2A => [Load(LdiAHl)]
    case 0x2B => [Arith(DecRr(HL))]
    case 0x2C => [Arith(IncR(L))]
    case 0x2D => [Arith(DecR(L))]
    case 0x2E => [Load(LdRN(L))]
    case 0x2F => [Arith(Cpl)]
    case _ => []
  }

  /** The cases 0x30..0x3F. */
  function Row3(opcode: bv8): seq<Instr>
  {
    match opcode
    case 0x30 => [Control(JrFPcDd(opcode))]
    case 0x31 => [Load(LdRrNn(SP))]
    case 0x32 => [Load(LddHlA)]
    case 0x33 => [Arith(IncRr(SP))]
    case 0x34 => [Arith(IncHl)]
    case 0x35 => [Arith(DecHl)]
    case 0x36 => [Load(LdHlN)]
    case 0x37 => [Control(Scf)]
    case 0x38 => [Control(JrFPcDd(opcode))]
    case 0x39 => [Arith(AddHlRr(SP))]
    case 0x3A => [Load(LddAHl)]
    case 0x3B => [Arith(DecRr(SP))]
    case 0x3C => [Arith(IncR(A))]
    case 0x3D => [Arith(DecR(A))]
    case 0x3E => [Load(LdRN(A))]
    case 0x3F => [Control(Ccf)]
    case _ => []
  }

  /** The cases 0xC0..0xCF. */
  function RowC(opcode: bv8): seq<Instr>
  {
    match opcode
    case 0xC0 => [Control(RetF(opcode))]
    case 0xC1 => [Load(PopRr(BC))]
    case 0xC2 => [Control(JpFNn(opcode))]
    case 0xC3 => [Control(JpNn)]
    case 0xC4 => [Control(CallFNn(opcode))]
    case 0xC5 => [Load(PushRr(BC))]
    case 0xC6 => [Arith(AluN(Add))]
    case 0xC7 => [Control(RstN(opcode))]
    case 0xC8 => [Control(RetF(opcode))]
    case 0xC9 => [Control(Ret)]
    case 0xCA => [Control(JpFNn(opcode))]
    case 0xCB => [Prefix]
    case 0xCC => [Control(CallFNn(opcode))]
    case 0xCD => [Control(CallNn)]
    case 0xCE => [Arith(AluN(Adc))]
    case 0xCF => [Control(RstN(opcode))]
    case _ => []
  }

  /** The cases 0xD0..0xDF. */
  function RowD(opcode: bv8): seq<Instr>
  {
    match opcode
    case 0xD0 => [Control(RetF(opcode))]
    case 0xD1 => [Load(PopRr(DE))]
    case 0xD2 => [Control(JpFNn(opcode))]
    case 0xD4 => [Control(CallFNn(opcode))]
    case 0xD5 => [Load(PushRr(DE))]
    case 0xD6 => [Arith(AluN(Sub))]
    case 0xD7 => [Control(RstN(opcode))]
    case 0xD8 => [Control(RetF(opcode))]
    case 0xD9 => [Control(Reti)]
    case 0xDA => [Control(JpFNn(opcode))]
    case 0xDC => [Control(CallFNn(opcode))]
    case 0xDE => [Arith(AluN(Sbc))]
    case 0xDF => [Control(RstN(opcode))]
    case _ => []
  }

  /** The cases 0xE0..0xEF. */
  function RowE(opcode: bv8): seq<Instr>
  {
    match opcode
    case 0xE0 => [Load(LdFF00nA)]
    case 0xE1 => [Load(PopRr(HL))]
    case 0xE2 => [Load(LdFF00CA)]
    case 0xE5 => [Load(PushRr(HL))]
    case 0xE6 => [Arith(AluN(And))]
    case 0xE7 => [Control(RstN(opcode))]
    case 0xE8 => [Arith(AddSpDd)]
    case 0xE9 => [Control(JpHl)]
    case 0xEA => [Load(LdNnA)]
    case 0xEE => [Arith(AluN(Xor))]
    case 0xEF => [Control(RstN(opcode))]
    case _ => []
  }

  /** The cases 0xF0..0xFF. */
  function RowF(opcode: bv8): seq<Instr>
  {
    match opcode
    case 0xF0 => [Load(LdAFF00n)]
    case 0xF1 => [Load(PopRr(AF))]
    case 0xF2 => [Load(LdAFF00C)]
    case 0xF3 => [Control(Di)]
    case 0xF5 => [Load(PushRr(AF))]
    case 0xF6 => [Arith(AluN(Or))]
    case 0xF7 => [Control(RstN(opcode))]
    case 0xF8 => [Arith(LdHlSpDd)]
    case 0xF9 => [Load(LdSpHl)]
    case 0xFA => [Load(LdANn)]
    case 0xFB => [Control(Ei)]
    case 0xFE => [Arith(AluN(Cp))]
    case 0xFF => [Control(RstN(opcode))]
    case _ => []
  }

  /** The handler `executeCBOpcode` runs for a CB opcode. */
  function DecodeCb(opcode: bv8): BitInstr
  {
    if opcode < 0x40 then
      if Operand(opcode) == 6 then ShiftHl(ShiftAt(Middle(opcode)))
      else ShiftR(ShiftAt(Middle(opcode)), RegisterAt(Operand(opcode)))
    else if opcode < 0x80 then
      if Operand(opcode) == 6 then BitNHl(Middle(opcode)) else BitNR(Middle(opcode), RegisterAt(Operand(opcode)))
    else if opcode < 0xC0 then
      if Operand(opcode) == 6 then ResNHl(Middle(opcode)) else ResNR(Middle(opcode), RegisterAt(Operand(opcode)))
    else
      if Operand(opcode) == 6 then SetNHl(Middle(opcode)) else SetNR(Middle(opcode), RegisterAt(Operand(opcode)))
  }

  /** One handler call. */
  function Exec(s: State, i: Instr): Cpu.Step
  {
    match i
    case Load(load) => ExecLoad(s, load)
    case Arith(arith) => ExecArith(s, arith)
    case Bits(bits) => ExecBits(s, bits)
    case Control(control) => ExecControl(s, control)
    case Prefix => ExecuteCbOpcode(s)
  }

  /** A load handler. */
  function ExecLoad(s: State, i: LoadInstr): Cpu.Step
  {
    match i
    case LdRR(to, from) => Cpu.LdRR(s, to, from)
    case LdRN(r) => Cpu.LdRN(s, r)
    case LdRHl(r) => Cpu.LdRHl(s, r)
    case LdHlR(r) => Cpu.LdHlR(s, r)
    case LdHlN => Cpu.LdHlN(s)
    case LdABc => Cpu.LdABc(s)
    case LdADe => Cpu.LdADe(s)
    case LdANn => Cpu.LdANn(s)
    case LdBcA => Cpu.LdBcA(s)
    case LdDeA => Cpu.LdDeA(s)
    case LdNnA => Cpu.LdNnA(s)
    case LdAFF00n => Cpu.LdAFF00n(s)
    case LdFF00nA => Cpu.LdFF00nA(s)
    case LdAFF00C => Cpu.LdAFF00C(s)
    case LdFF00CA => Cpu.LdFF00CA(s)
    case LdiHlA => Cpu.LdiHlA(s)
    case LdiAHl => Cpu.LdiAHl(s)
    case LddHlA => Cpu.LddHlA(s)
    case LddAHl => Cpu.LddAHl(s)
    case LdRrNn(rr) => Cpu.LdRrNn(s, rr)
    case LdSpHl => Cpu.LdSpHl(s)
    case LdNnSp => Cpu.LdNnSp(s)
    case PushRr(pair) => Cpu.PushRr(s, pair)
    case PopRr(pair) => Cpu.PopRr(s, pair)
  }

  /** An arithmetic handler. */
  function ExecArith(s: State, i: ArithInstr): Cpu.Step
  {
    match i
    case AluR(op, r) => Cpu.AluR(s, op, r)
    case AluN(op) => Cpu.AluN(s, op)
    case AluHl(op) => Cpu.AluHl(s, op)
    case IncR(r) => Cpu.IncR(s, r)
    case IncHl => Cpu.IncHl(s)
    case DecR(r) => Cpu.DecR(s, r)
    case DecHl => Cpu.DecHl(s)
    case Daa => Cpu.Daa(s)
    case Cpl => Cpu.Cpl(s)
    case AddHlRr(rr) => Cpu.AddHlRr(s, rr)
    case IncRr(rr) => Cpu.IncRr(s, rr)
    case DecRr(rr) => Cpu.DecRr(s, rr)
    case AddSpDd => Cpu.AddSpDd(s)
    case LdHlSpDd => Cpu.LdHlSpDd(s)
  }

  /** A rotate, shift or bit handler. */
  function ExecBits(s: State, i: BitInstr): Cpu.Step
  {
    match i
    case Rlca => Cpu.Rlca(s)
    case Rla => Cpu.Rla(s)
    case Rrca => Cpu.Rrca(s)
    case Rra => Cpu.Rra(s)
    case ShiftR(op, r) => Cpu.ShiftR(s, op, r)
    case ShiftHl(op) => Cpu.ShiftHl(s, op)
    case BitNR(n, r) => Cpu.BitNR(s, n, r)
    case BitNHl(n) => Cpu.BitNHl(s, n)
    case SetNR(n, r) => Cpu.SetNR(s, n, r)
    case SetNHl(n) => Cpu.SetNHl(s, n)
    case ResNR(n, r) => Cpu.ResNR(s, n, r)
    case ResNHl(n) => Cpu.ResNHl(s, n)
  }

  /** A flag, control or jump handler. */
  function ExecControl(s: State, i: ControlInstr): Cpu.Step
  {
    match i
    case Ccf => Cpu.Ccf(s)
    case Scf => Cpu.Scf(s)
    case Nop => Cpu.Nop(s)
    case Halt => Cpu.Halt(s)
    case Stop => Cpu.Stop(s)
    case Di => Cpu.Di(s)
    case Ei => Cpu.Ei(s)
    case JpNn => Cpu.JpNn(s)
    case JpHl => Cpu.JpHl(s)
    case JpFNn(opcode) => Cpu.JpFNn(s, opcode)
    case JrPcDd => Cpu.JrPcDd(s)
    case JrFPcDd(opcode) => Cpu.JrFPcDd(s, opcode)
    case CallNn => Cpu.CallNn(s)
    case CallFNn(opcode) => Cpu.CallFNn(s, opcode)
    case Ret => Cpu.Ret(s)
    case RetF(opcode) => Cpu.RetF(s, opcode)
    case Reti => Cpu.Reti(s)
    case RstN(opcode) => Cpu.RstN(s, opcode)
  }

  /** `executeCBOpcode`: the second opcode byte read at the program counter, which moves past it. */
  function ExecuteCbOpcode(s: State): Cpu.Step
  {
    ExecBits(Cpu.Skip(s, 1), DecodeCb(Cpu.Imm8(s)))
  }

  /** The handlers of one `case` in order; the cycles are those the last one returns. */
  function Run(s: State, instrs: seq<Instr>): Cpu.Step
    requires |instrs| > 0
    decreases |instrs|
  {
    if |instrs| == 1 then Exec(s, instrs[0])
    else Run(Exec(s, instrs[0]).state, instrs[1..])
  }

  /** What `executeOpcode` does: a step, or nothing for an opcode the switch does not list, whose cycle count is left uninitialised. */
  datatype Outcome = Executed(step: Cpu.Step) | Undefined(state: State)

  /** `executeOpcode`, with the program counter already past the opcode. */
  function ExecuteOpcode(s: State, opcode: bv8): Outcome
  {
    if |Dispatch(opcode)| == 0 then Undefined(s) else Executed(Run(s, Dispatch(opcode)))
  }

  /** `executeNextOpcode`: a halted CPU runs `NOP` without moving the program counter. */
  function ExecuteNextOpcode(s: State): (o: Outcome)
    ensures s.isHalted ==> o == Executed(Cpu.Step(s, 4))
    ensures o.Undefined? ==> !s.isHalted && o.state == Cpu.Skip(s, 1)
  {
    if s.isHalted then Executed(Cpu.Nop(s)) else ExecuteOpcode(Cpu.Skip(s, 1), Cpu.Imm8(s))
  }

  /*
   * Properties of the tables.
   */

  /** The opcodes `executeOpcode`'s switch has no case for. */
  const UNDEFINED: set<bv8> := {0xD3, 0xDB, 0xDD, 0xE3, 0xE4, 0xEB, 0xEC, 0xED, 0xF4, 0xFC, 0xFD}

  /** The `(HL)` cases without a `break`. */
  const FALL_THROUGH: set<bv8> := {0xA6, 0xAE, 0xB6, 0xBE}

  /** Exactly the eleven unlisted opcodes leave the cycle count undefined. */
  lemma UndefinedOpcodes(s: State, opcode: bv8)
    ensures ExecuteOpcode(s, opcode).Undefined? <==> opcode in UNDEFINED
  {
    Gaps(opcode);
  }

  /** The switch lists every opcode but the eleven. */
  lemma Gaps(opcode: bv8)
    ensures |Dispatch(opcode)| == 0 <==> opcode in UNDEFINED
  {
    if opcode < 0xC0 {
      NoGapBelow(opcode);
    } else if opcode < 0xD0 {
      assert |Dispatch(opcode)| == |RowC(opcode)|;
    } else if opcode < 0xE0 {
      assert |Dispatch(opcode)| == |RowD(opcode)|;
    } else if opcode < 0xF0 {
      assert |Dispatch(opcode)| == |RowE(opcode)|;
    } else {
      assert |Dispatch(opcode)| == |RowF(opcode)|;
    }
  }

  lemma NoGapBelow(opcode: bv8)
    requires opcode < 0xC0
    ensures |Dispatch(opcode)| > 0
  {
  }

  /** Exactly the four fall-through opcodes run two handlers; every other listed opcode runs one. */
  lemma FallThroughOpcodes(opcode: bv8)
    ensures |Dispatch(opcode)| == 2 <==> opcode in FALL_THROUGH
    ensures |Dispatch(opcode)| <= 2
  {
  }

  /** A case of two handlers runs them one after the other. */
  lemma RunTwo(s: State, first: Instr, second: Instr)
    ensures Run(s, [first, second]) == Exec(Exec(s, first).state, second)
  {
    assert [first, second][1..] == [second];
  }

  /** A fall-through case is the `(HL)` handler followed by the same operation with A as operand. */
  lemma FallThroughBlock(opcode: bv8)
    requires opcode in FALL_THROUGH
    ensures Dispatch(opcode) == [Arith(AluHl(AluOpAt(Middle(opcode)))), Arith(AluR(AluOpAt(Middle(opcode)), A))]
  {
    assert Dispatch(opcode) == AluBlock(Middle(opcode), Operand(opcode));
    assert Operand(opcode) == 6 && Middle(opcode) >= 4;
  }

  /** `XOR (HL)` falls through into `XOR A`, so it always leaves A zero with Z set, whatever (HL) holds. */
  lemma XorHlClearsA(s: State)
    ensures ExecuteOpcode(s, 0xAE) == Executed(Cpu.AluR(Cpu.AluHl(s, Xor).state, Xor, A))
    ensures Get(Cpu.AluR(Cpu.AluHl(s, Xor).state, Xor, A).state, A) == 0
    ensures Alu.ZeroFlag(FlagsOf(Cpu.AluR(Cpu.AluHl(s, Xor).state, Xor, A).state))
    ensures Cpu.AluR(Cpu.AluHl(s, Xor).state, Xor, A).cycles == 4
  {
    FallThroughBlock(0xAE);
    RunTwo(s, Arith(AluHl(Xor)), Arith(AluR(Xor, A)));
    Alu.XorSelfClears(Get(Cpu.AluHl(s, Xor).state, A));
  }

  /** `CP (HL)` falls through into `CP A`, so it always ends with Z and N set and H and C clear, A unchanged. */
  lemma CpHlAlwaysEqual(s: State)
    ensures ExecuteOpcode(s, 0xBE) == Executed(Cpu.AluR(Cpu.AluHl(s, Cp).state, Cp, A))
    ensures Get(Cpu.AluR(Cpu.AluHl(s, Cp).state, Cp, A).state, A) == Get(s, A)
    ensures FlagsOf(Cpu.AluR(Cpu.AluHl(s, Cp).state, Cp, A).state) == Alu.Flags(true, true, false, false)
    ensures Cpu.AluR(Cpu.AluHl(s, Cp).state, Cp, A).cycles == 4
  {
    FallThroughBlock(0xBE);
    RunTwo(s, Arith(AluHl(Cp)), Arith(AluR(Cp, A)));
  }

  /**
   * `AND (HL)` falls through into `AND A`, which changes nothing more: the
   * state is that of `AND_HL` alone, but the cycle count is the 4 of the
   * register form, not 8.
   */
  lemma AndHlCycles(s: State)
    ensures ExecuteOpcode(s, 0xA6) == Executed(Cpu.Step(Cpu.AluHl(s, And).state, 4))
  {
    FallThroughBlock(0xA6);
    RunTwo(s, Arith(AluHl(And)), Arith(AluR(And, A)));
  }

  /** `OR (HL)` likewise ends as `OR_HL` alone leaves it, in 4 cycles. */
  lemma OrHlCycles(s: State)
    ensures ExecuteOpcode(s, 0xB6) == Executed(Cpu.Step(Cpu.AluHl(s, Or).state, 4))
  {
    FallThroughBlock(0xB6);
    RunTwo(s, Arith(AluHl(Or)), Arith(AluR(Or, A)));
  }

  /** A halted CPU neither moves nor changes anything, and spends 4 cycles per step. */
  lemma HaltedWaits(s: State)
    requires s.isHalted
    ensures ExecuteNextOpcode(s) == Executed(Cpu.Step(s, 4))
  {
  }

  /** `LD r,r` changes nothing. */
  lemma SelfLoad(s: State, r: Reg8)
    ensures Cpu.LdRR(s, r, r).state == s
  {
    PairOfBytes(s.regAF);
    PairOfBytes(s.regBC);
    PairOfBytes(s.regDE);
    PairOfBytes(s.regHL);
  }

  /** CB opcodes 0x40..0x7F (`BIT`) change only the flags and the program counter. */
  lemma BitOpcodesOnlyTest(s: State)
    requires 0x40 <= Cpu.Imm8(s) < 0x80
    ensures forall q: Reg8 :: Get(ExecuteCbOpcode(s).state, q) == Get(s, q)
    ensures ExecuteCbOpcode(s).state.bus == s.bus
    ensures ExecuteCbOpcode(s).state.programCounter == s.programCounter + 1
  {
    var i := DecodeCb(Cpu.Imm8(s));
    CbBitRange(Cpu.Imm8(s));
    if i.BitNR? {
      assert ExecuteCbOpcode(s) == Cpu.BitNR(Cpu.Skip(s, 1), i.n, i.r);
    } else {
      assert ExecuteCbOpcode(s) == Cpu.BitNHl(Cpu.Skip(s, 1), i.n);
    }
  }

  lemma CbBitRange(opcode: bv8)
    requires 0x40 <= opcode < 0x80
    ensures DecodeCb(opcode).BitNR? || DecodeCb(opcode).BitNHl?
  {
  }
}

/**
 * The stack as `PUSH_rr`, `POP_rr`, the calls, the returns and the
 * interrupt service use it: a push decrements the stack pointer and
 * writes the high byte, then decrements it again and writes the low byte,
 * each write going through `writeMem`; a pop reads the low byte, then the
 * high byte, incrementing the stack pointer after each read.
 */
module Stack {
  import opened Hardware
  import opened EmulatorState
  import opened Memory

  /** The state after pushing `value`. */
  function Push(s: State, value: bv16): (t: State)
    ensures t.stackPointer == s.stackPointer - 2
  {
    s.(stackPointer := s.stackPointer - 2,
       bus := PushBytes(s.bus, s.stackPointer, value))
  }

  /** The two writes of a push at stack pointer `sp`: the high byte to `sp - 1`, then the low byte to `sp - 2`. */
  function PushBytes(b: Bus, sp: bv16, value: bv16): Bus
  {
    Write(Write(b, sp - 1, High(value)), sp - 2, Low(value))
  }

  /** The two writes of a push, one at a time: `b` is memory after the high byte's write. */
  lemma PushBytesInTurn(m: Bus, sp: bv16, value: bv16, b: Bus)
    requires b == Write(m, sp - 1, High(value))
    ensures PushBytes(m, sp, value) == Write(b, sp - 2, Low(value))
  {
  }

  /** The word a pop at stack pointer `sp` reads: low byte at `sp`, high byte at `sp + 1`. */
  function Top(b: Bus, sp: bv16): (value: bv16)
    ensures Low(value) == Read(b, sp) && High(value) == Read(b, sp + 1)
  {
    Pair(Read(b, sp + 1), Read(b, sp))
  }

  /** The bytes at `sp` and `sp + 1` are those of `value`, low byte first. */
  predicate HoldsWord(b: Bus, sp: bv16, value: bv16)
  {
    Read(b, sp) == Low(value) && Read(b, sp + 1) == High(value)
  }

  /** The two bytes a push writes, high byte above low byte. */
  lemma PushedBytes(b: Bus, sp: bv16, value: bv16)
    requires Plain(sp - 1) && Plain(sp - 2)
    ensures HoldsWord(PushBytes(b, sp, value), sp - 2, value)
  {
    ReadAfterWrite(Write(b, sp - 1, High(value)), sp - 2, Low(value));
    ReadOtherAfterWrite(Write(b, sp - 1, High(value)), sp - 2, sp - 1, Low(value));
    ReadAfterWrite(b, sp - 1, High(value));
    assert sp - 2 + 1 == sp - 1;
  }

  /** Both stack bytes of a push lie in plain memory. */
  predicate PushPlain(s: State)
  {
    Plain(s.stackPointer - 1) && Plain(s.stackPointer - 2)
  }

  /** After a push, the stack pointer points at the pushed word. */
  lemma PushedWord(s: State, value: bv16)
    requires PushPlain(s)
    ensures HoldsWord(Push(s, value).bus, Push(s, value).stackPointer, value)
  {
    PushedBytes(s.bus, s.stackPointer, value);
  }

  /** A pop reads back the word whose bytes lie at `sp` and `sp + 1`. */
  lemma TopOfBytes(b: Bus, sp: bv16, value: bv16)
    requires HoldsWord(b, sp, value)
    ensures Top(b, sp) == value
  {
    PairOfBytes(value);
  }

  /**
   * When both stack bytes lie in plain memory, a pop after a push reads
   * the pushed value back and restores the stack pointer.
   */
  lemma PushThenTop(s: State, value: bv16)
    requires PushPlain(s)
    ensures Top(Push(s, value).bus, Push(s, value).stackPointer) == value
    ensures Push(s, value).stackPointer + 2 == s.stackPointer
  {
    PushedWord(s, value);
    TopOfBytes(Push(s, value).bus, Push(s, value).stackPointer, value);
  }
}

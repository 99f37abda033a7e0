/**
 * The interrupt logic (Emulator.cpp, `flagInterrupt`, `handleInterrupts`,
 * `triggerInterrupt`). Interrupt `id` is requested by setting bit `id` of
 * the request register 0xFF0F and enabled by bit `id` of 0xFFFF.
 * `handleInterrupts` reads both registers once; when some requested
 * interrupt is enabled it clears the master switch, pushes the program
 * counter and then runs `triggerInterrupt` for every id 0..4 that was
 * requested and enabled in those two reads, so several interrupts are
 * acknowledged at once and the last one's vector wins. The serial
 * interrupt (3) has no vector: it is acknowledged and the program counter
 * is left where it was.
 */
module Interrupts {
  import opened Bits
  import opened Hardware
  import opened EmulatorState
  import opened Memory
  import opened Stack

  /** The interrupt request register and the interrupt enable register. */
  const REQUEST: bv16 := 0xFF0F
  const ENABLED: bv16 := 0xFFFF

  /** The request register as a read sees it. */
  function Requests(s: State): bv8
  {
    Read(s.bus, REQUEST)
  }

  /** `flagInterrupt`: set bit `id` of the request register and leave the halt state. */
  function FlagInterrupt(s: State, id: bv8): (t: State)
    requires id < 31
    ensures !t.isHalted
    ensures t.programCounter == s.programCounter && t.stackPointer == s.stackPointer
    ensures t.interruptMasterEnabled == s.interruptMasterEnabled
  {
    s.(isHalted := false, bus := Write(s.bus, REQUEST, BitSet(Read(s.bus, REQUEST), id)))
  }

  /** The request register reads back what was written to it. */
  lemma RequestWrite(b: Bus, data: bv8)
    ensures Read(Write(b, REQUEST, data), REQUEST) == data
  {
    ReadAfterWrite(b, REQUEST, data);
  }

  /** `flagInterrupt` sets bit `id` of the request register and keeps its other bits. */
  lemma FlagInterruptRequests(s: State, id: bv8)
    requires id < 31
    ensures Requests(FlagInterrupt(s, id)) == BitSet(Requests(s), id)
  {
    RequestWrite(s.bus, BitSet(Read(s.bus, REQUEST), id));
  }

  /**
   * The address `triggerInterrupt` jumps to: 0x40 + 8·id for V-blank (0),
   * LCD status (1), timer (2) and joypad (4); any other id, the serial
   * interrupt among them, leaves the program counter as it was.
   */
  function Vector(id: bv8, pc: bv16): (r: bv16)
    ensures id <= 4 && id != 3 ==> r == 0x40 + (id as bv16) * 8
    ensures id == 3 || id > 4 ==> r == pc
  {
    if id == 0 then 0x40
    else if id == 1 then 0x48
    else if id == 2 then 0x50
    else if id == 4 then 0x60
    else pc
  }

  /** `triggerInterrupt`: clear bit `id` of the request register and jump to its vector. */
  function TriggerInterrupt(s: State, id: bv8): (t: State)
    requires id < 31
    ensures t.stackPointer == s.stackPointer && t.interruptMasterEnabled == s.interruptMasterEnabled
  {
    s.(bus := Write(s.bus, REQUEST, BitReset(Read(s.bus, REQUEST), id)),
       programCounter := Vector(id, s.programCounter))
  }

  /** `triggerInterrupt` clears bit `id` of the request register and keeps its other bits. */
  lemma TriggerAcknowledges(s: State, id: bv8)
    requires id < 31
    ensures Requests(TriggerInterrupt(s, id)) == BitReset(Requests(s), id)
  {
    RequestWrite(s.bus, BitReset(Read(s.bus, REQUEST), id));
  }

  /** Interrupt `i` was requested and is enabled. */
  predicate Pending(request: bv8, enabled: bv8, i: bv8)
    requires i < 8
  {
    IsBitSet(request, i) && IsBitSet(enabled, i)
  }

  /** Iteration `i` of the loop in `handleInterrupts`. */
  function ServiceStep(s: State, request: bv8, enabled: bv8, i: bv8): (t: State)
    requires i < 5
    ensures t.stackPointer == s.stackPointer && t.interruptMasterEnabled == s.interruptMasterEnabled
  {
    if Pending(request, enabled, i) then TriggerInterrupt(s, i) else s
  }

  /** Iterations `i`..4 of the loop in `handleInterrupts`. */
  function Service(s: State, request: bv8, enabled: bv8, i: bv8): (t: State)
    requires i <= 5
    ensures t.stackPointer == s.stackPointer && t.interruptMasterEnabled == s.interruptMasterEnabled
    decreases (5 - i) as int
  {
    if i == 5 then s else Service(ServiceStep(s, request, enabled, i), request, enabled, i + 1)
  }

  /** `handleInterrupts`. */
  function HandleInterrupts(s: State): (t: State)
    ensures !s.interruptMasterEnabled ==> t == s
    ensures Read(s.bus, REQUEST) & Read(s.bus, ENABLED) == 0 ==> t == s
  {
    if !s.interruptMasterEnabled then s
    else if Read(s.bus, REQUEST) & Read(s.bus, ENABLED) == 0 then s
    else Service(Push(s.(interruptMasterEnabled := false), s.programCounter),
                 Read(s.bus, REQUEST), Read(s.bus, ENABLED), 0)
  }

  /*
   * The request register after the loop.
   */

  /** Bit `q` of a byte after bit `i` is cleared. */
  lemma ResetBit(data: bv8, i: bv8, q: bv8)
    requires i < 31 && q < 8
    ensures IsBitSet(BitReset(data, i), q) == (IsBitSet(data, q) && q != i)
  {
    if q != i {
      BitResetKeepsOthers(data, i, q);
    }
  }

  /** Bit `q` of the request register after iteration `i`. */
  lemma StepBit(s: State, request: bv8, enabled: bv8, i: bv8, q: bv8)
    requires i < 5 && q < 8
    ensures IsBitSet(Requests(ServiceStep(s, request, enabled, i)), q)
      == (IsBitSet(Requests(s), q) && !(q == i && Pending(request, enabled, i)))
  {
    if Pending(request, enabled, i) {
      TriggerAcknowledges(s, i);
      ResetBit(Requests(s), i, q);
    }
  }

  /**
   * After iterations `i`..4, bit `q` of the request register is set
   * exactly when it was set before and interrupt `q` is not one of those
   * the loop still had to acknowledge.
   */
  lemma {:induction false} ServiceBit(s: State, request: bv8, enabled: bv8, i: bv8, q: bv8)
    requires i <= 5 && q < 8
    ensures IsBitSet(Requests(Service(s, request, enabled, i)), q)
      == (IsBitSet(Requests(s), q) && !(i <= q < 5 && Pending(request, enabled, q)))
    decreases (5 - i) as int
  {
    if i < 5 {
      StepBit(s, request, enabled, i, q);
      ServiceBit(ServiceStep(s, request, enabled, i), request, enabled, i + 1, q);
    }
  }

  /*
   * The program counter after the loop.
   */

  /**
   * The vector of the highest-numbered interrupt among 0, 1, 2 and 4 that
   * `pending` holds, the program counter when there is none.
   */
  function LastVector(pending: bv8, pc: bv16): (r: bv16)
    ensures pending & 0x17 == 0 ==> r == pc
  {
    if pending & 0x10 != 0 then 0x60
    else if pending & 0x04 != 0 then 0x50
    else if pending & 0x02 != 0 then 0x48
    else if pending & 0x01 != 0 then 0x40
    else pc
  }

  /** One iteration moves the lowest remaining id from the pending set into the program counter. */
  lemma VectorStep(pending: bv8, i: bv8, pc: bv16)
    requires i < 5
    ensures LastVector(pending & (0xFF << (i + 1)), if pending & Mask(i) != 0 then Vector(i, pc) else pc)
      == LastVector(pending & (0xFF << i), pc)
  {
  }

  /** Whether interrupt `i` is pending, read off `request & enabled`. */
  lemma PendingBit(request: bv8, enabled: bv8, i: bv8)
    requires i < 8
    ensures Pending(request, enabled, i) == (request & enabled & Mask(i) != 0)
  {
    BitOfAnd(request, enabled, request & enabled, i);
  }

  /** The program counter after iteration `i`. */
  lemma StepPc(s: State, request: bv8, enabled: bv8, i: bv8)
    requires i < 5
    ensures ServiceStep(s, request, enabled, i).programCounter
      == if request & enabled & Mask(i) != 0 then Vector(i, s.programCounter) else s.programCounter
  {
    PendingBit(request, enabled, i);
  }

  /**
   * After iterations `i`..4 the program counter is the vector of the
   * highest-numbered pending interrupt with a vector among ids `i`..4, or
   * what it was when there is none.
   */
  lemma {:induction false} ServicePc(s: State, request: bv8, enabled: bv8, i: bv8)
    requires i <= 5
    ensures Service(s, request, enabled, i).programCounter
      == LastVector(request & enabled & (0xFF << i), s.programCounter)
    decreases (5 - i) as int
  {
    if i < 5 {
      var t := ServiceStep(s, request, enabled, i);
      assert Service(s, request, enabled, i) == Service(t, request, enabled, i + 1);
      StepPc(s, request, enabled, i);
      ServicePc(t, request, enabled, i + 1);
      VectorStep(request & enabled, i, s.programCounter);
    }
  }

  /*
   * The pushed program counter survives the loop.
   */

  /** A write to the request register leaves a word elsewhere on the stack as it was. */
  lemma RequestWriteKeepsWord(b: Bus, data: bv8, sp: bv16, value: bv16)
    requires sp != REQUEST && sp + 1 != REQUEST && HoldsWord(b, sp, value)
    ensures HoldsWord(Write(b, REQUEST, data), sp, value)
  {
    ReadOtherAfterWrite(b, REQUEST, sp, data);
    ReadOtherAfterWrite(b, REQUEST, sp + 1, data);
  }

  /** Iteration `i` leaves a word elsewhere on the stack as it was. */
  lemma StepKeepsWord(s: State, request: bv8, enabled: bv8, i: bv8, sp: bv16, value: bv16)
    requires i < 5 && sp != REQUEST && sp + 1 != REQUEST && HoldsWord(s.bus, sp, value)
    ensures HoldsWord(ServiceStep(s, request, enabled, i).bus, sp, value)
  {
    if Pending(request, enabled, i) {
      RequestWriteKeepsWord(s.bus, BitReset(Read(s.bus, REQUEST), i), sp, value);
    }
  }

  /** The loop leaves a word elsewhere on the stack as it was. */
  lemma {:induction false} ServiceKeepsWord(s: State, request: bv8, enabled: bv8, i: bv8, sp: bv16, value: bv16)
    requires i <= 5 && sp != REQUEST && sp + 1 != REQUEST && HoldsWord(s.bus, sp, value)
    ensures HoldsWord(Service(s, request, enabled, i).bus, sp, value)
    decreases (5 - i) as int
  {
    if i < 5 {
      StepKeepsWord(s, request, enabled, i, sp, value);
      ServiceKeepsWord(ServiceStep(s, request, enabled, i), request, enabled, i + 1, sp, value);
    }
  }

  /*
   * `handleInterrupts` as a whole.
   */

  /** Some requested interrupt is enabled while the master switch is on. */
  predicate Services(s: State)
  {
    s.interruptMasterEnabled && Read(s.bus, REQUEST) & Read(s.bus, ENABLED) != 0
  }

  /** The state the loop starts from: master switch off, program counter pushed. */
  function Entered(s: State): (t: State)
    ensures !t.interruptMasterEnabled && t.stackPointer == s.stackPointer - 2
    ensures t.programCounter == s.programCounter && t.isHalted == s.isHalted
  {
    Push(s.(interruptMasterEnabled := false), s.programCounter)
  }

  /** When `handleInterrupts` services, it is the loop run from the entered state. */
  lemma HandleIsService(s: State)
    requires Services(s)
    ensures HandleInterrupts(s) == Service(Entered(s), Read(s.bus, REQUEST), Read(s.bus, ENABLED), 0)
  {
  }

  /**
   * Servicing turns the master switch off and leaves the stack pointer two
   * below where it was.
   */
  lemma HandleDisablesAndPushes(s: State)
    requires Services(s)
    ensures !HandleInterrupts(s).interruptMasterEnabled
    ensures HandleInterrupts(s).stackPointer == s.stackPointer - 2
  {
    HandleIsService(s);
  }

  /** Entering the service pushes the program counter. */
  lemma EnteredWord(s: State)
    requires PushPlain(s)
    ensures HoldsWord(Entered(s).bus, Entered(s).stackPointer, s.programCounter)
  {
    assert Entered(s) == Push(s.(interruptMasterEnabled := false), s.programCounter);
    PushedWord(s.(interruptMasterEnabled := false), s.programCounter);
  }

  /** The loop keeps the word the entry pushed. */
  lemma ServiceKeepsPc(s: State)
    requires PushPlain(s)
    requires s.stackPointer - 1 != REQUEST && s.stackPointer - 2 != REQUEST
    ensures HoldsWord(Service(Entered(s), Read(s.bus, REQUEST), Read(s.bus, ENABLED), 0).bus,
                      Entered(s).stackPointer, s.programCounter)
  {
    EnteredWord(s);
    ServiceKeepsWord(Entered(s), Read(s.bus, REQUEST), Read(s.bus, ENABLED), 0,
                     Entered(s).stackPointer, s.programCounter);
  }

  /**
   * When the two stack bytes lie in plain memory other than the request
   * register, the old program counter is on the stack after servicing:
   * the low byte at the new stack pointer, the high byte above it.
   */
  lemma HandlePushesPc(s: State)
    requires Services(s) && PushPlain(s)
    requires s.stackPointer - 1 != REQUEST && s.stackPointer - 2 != REQUEST
    ensures HoldsWord(HandleInterrupts(s).bus, HandleInterrupts(s).stackPointer, s.programCounter)
  {
    HandleIsService(s);
    ServiceKeepsPc(s);
  }

  /**
   * Servicing jumps to the vector of the highest-numbered requested and
   * enabled interrupt among 0, 1, 2 and 4; when only the serial interrupt
   * is pending the program counter stays where it was.
   */
  lemma HandleJumps(s: State)
    requires Services(s)
    ensures HandleInterrupts(s).programCounter
      == LastVector(Read(s.bus, REQUEST) & Read(s.bus, ENABLED), s.programCounter)
  {
    HandleIsService(s);
    ServicePc(Entered(s), Read(s.bus, REQUEST), Read(s.bus, ENABLED), 0);
  }

  /**
   * Servicing clears in the request register every bit 0..4 that was
   * requested and enabled, and keeps every other bit as the push left it.
   */
  lemma HandleAcknowledges(s: State, q: bv8)
    requires Services(s) && q < 8
    ensures IsBitSet(Requests(HandleInterrupts(s)), q)
      == (IsBitSet(Requests(Entered(s)), q) && !(q < 5 && Pending(Read(s.bus, REQUEST), Read(s.bus, ENABLED), q)))
  {
    HandleIsService(s);
    ServiceBit(Entered(s), Read(s.bus, REQUEST), Read(s.bus, ENABLED), 0, q);
  }
}

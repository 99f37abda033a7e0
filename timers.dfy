/**
 * The timers (Emulator.cpp, `updateTimers`, `clockEnabled`). The divider
 * counter collects the cycles of each instruction; once it holds 256 or
 * more it restarts from 0 and the DIVIDER byte is incremented. While bit 2
 * of TAC enables the timer, the timer counter counts the cycles down; when
 * it reaches 0 or less it is reloaded with its period and TIMA is
 * incremented, or, when TIMA is 0xFF, reloaded from TMA with the timer
 * interrupt (2) requested.
 */
module Timers {
  import opened Bits
  import opened Hardware
  import opened EmulatorState
  import opened Memory
  import opened Interrupts

  /** `clockEnabled`: bit 2 of TAC. */
  function ClockEnabled(b: Bus): bool
  {
    IsBitSet(Read(b, TAC), 2)
  }

  /**
   * The divider half of `updateTimers`. The DIVIDER byte is incremented in
   * the internal memory directly, wrapping from 0xFF to 0.
   */
  function TickDivider(s: State, cycles: int): (t: State)
    ensures t.dividerCounter == if s.dividerCounter + cycles >= 256 then 0 else s.dividerCounter + cycles
  {
    if s.dividerCounter + cycles >= 256 then
      s.(dividerCounter := 0, bus := Store(s.bus, DIVIDER, s.bus.internalMem[Index(DIVIDER)] + 1))
    else s.(dividerCounter := s.dividerCounter + cycles)
  }

  /** TIMA one step on: incremented, or reloaded from TMA with the timer interrupt requested. */
  function IncrementTima(s: State): (t: State)
    ensures t.programCounter == s.programCounter && t.stackPointer == s.stackPointer
    ensures t.dividerCounter == s.dividerCounter && t.interruptMasterEnabled == s.interruptMasterEnabled
    ensures Read(s.bus, TIMA) == 0xFF ==> !t.isHalted
  {
    if Read(s.bus, TIMA) == 0xFF then FlagInterrupt(s.(bus := Write(s.bus, TIMA, Read(s.bus, TMA))), 2)
    else s.(bus := Write(s.bus, TIMA, Read(s.bus, TIMA) + 1))
  }

  /** The timer half of `updateTimers`. */
  function TickTimer(s: State, cycles: int): (t: State)
    ensures !ClockEnabled(s.bus) ==> t == s
  {
    if !ClockEnabled(s.bus) then s
    else if s.bus.timerCounter - cycles <= 0 then
      IncrementTima(s.(bus := s.bus.(timerCounter := s.bus.timerUpdateConstant)))
    else s.(bus := s.bus.(timerCounter := s.bus.timerCounter - cycles))
  }

  /** The timer half leaves the program counter, the stack pointer and the divider counter alone. */
  lemma TickKeepsCpu(s: State, cycles: int)
    ensures TickTimer(s, cycles).programCounter == s.programCounter
    ensures TickTimer(s, cycles).stackPointer == s.stackPointer
    ensures TickTimer(s, cycles).dividerCounter == s.dividerCounter
  {
    if ClockEnabled(s.bus) && s.bus.timerCounter - cycles <= 0 {
      var r := s.(bus := s.bus.(timerCounter := s.bus.timerUpdateConstant));
      assert TickTimer(s, cycles) == IncrementTima(r);
    }
  }

  /** `updateTimers`: the divider first, then the timer. */
  function UpdateTimers(s: State, cycles: int): (t: State)
    ensures t.programCounter == s.programCounter && t.stackPointer == s.stackPointer
    ensures 0 <= s.dividerCounter < 256 && 0 <= cycles ==> 0 <= t.dividerCounter < 256
  {
    TickKeepsCpu(TickDivider(s, cycles), cycles);
    TickTimer(TickDivider(s, cycles), cycles)
  }

  /*
   * The divider.
   */

  /** With a divider counter in 0..255 and a non-negative cycle count the counter stays in 0..255. */
  lemma DividerInRange(s: State, cycles: int)
    requires 0 <= s.dividerCounter < 256 && 0 <= cycles
    ensures 0 <= TickDivider(s, cycles).dividerCounter < 256
  {
  }

  /** When the divider counter restarts, the DIVIDER byte moves on by one, wrapping at 0xFF. */
  lemma DividerIncrements(s: State, cycles: int)
    requires s.dividerCounter + cycles >= 256
    ensures TickDivider(s, cycles).bus.internalMem[Index(DIVIDER)] == s.bus.internalMem[Index(DIVIDER)] + 1
  {
  }

  /** While the divider counter has not reached 256, the memory is untouched. */
  lemma DividerWaits(s: State, cycles: int)
    requires s.dividerCounter + cycles < 256
    ensures TickDivider(s, cycles).bus == s.bus
  {
  }

  /*
   * The timer.
   */

  /** The timer counter lies in 1..period: the invariant `resetCPU` and every TAC write establish. */
  predicate CounterInRange(b: Bus)
  {
    0 < b.timerCounter <= b.timerUpdateConstant
  }

  /** Incrementing TIMA leaves the timer counters alone. */
  lemma IncrementKeepsCounters(s: State)
    ensures IncrementTima(s).bus.timerCounter == s.bus.timerCounter
    ensures IncrementTima(s).bus.timerUpdateConstant == s.bus.timerUpdateConstant
  {
    if Read(s.bus, TIMA) == 0xFF {
      WritePlain(s.bus, TIMA, Read(s.bus, TMA));
      WritePlain(Write(s.bus, TIMA, Read(s.bus, TMA)), REQUEST, BitSet(Read(Write(s.bus, TIMA, Read(s.bus, TMA)), REQUEST), 2));
    } else {
      WritePlain(s.bus, TIMA, Read(s.bus, TIMA) + 1);
    }
  }

  /**
   * A timer tick of a non-negative cycle count keeps the counter in range,
   * and reloads it with the period whenever it runs out.
   */
  lemma TickKeepsCounterInRange(s: State, cycles: int)
    requires CounterInRange(s.bus) && 0 <= cycles
    ensures CounterInRange(TickTimer(s, cycles).bus)
    ensures ClockEnabled(s.bus) && s.bus.timerCounter - cycles <= 0 ==>
      TickTimer(s, cycles).bus.timerCounter == s.bus.timerUpdateConstant
  {
    if ClockEnabled(s.bus) && s.bus.timerCounter - cycles <= 0 {
      IncrementKeepsCounters(s.(bus := s.bus.(timerCounter := s.bus.timerUpdateConstant)));
    }
  }

  /** TIMA below 0xFF is incremented and the request register is left alone. */
  lemma IncrementCounts(s: State)
    requires Read(s.bus, TIMA) != 0xFF
    ensures Read(IncrementTima(s).bus, TIMA) == Read(s.bus, TIMA) + 1
    ensures Requests(IncrementTima(s)) == Requests(s)
  {
    ReadAfterWrite(s.bus, TIMA, Read(s.bus, TIMA) + 1);
    ReadOtherAfterWrite(s.bus, TIMA, REQUEST, Read(s.bus, TIMA) + 1);
  }

  /** Reloading TIMA stores TMA's value and keeps the request register. */
  lemma ReloadWrite(s: State)
    ensures Read(Write(s.bus, TIMA, Read(s.bus, TMA)), TIMA) == Read(s.bus, TMA)
    ensures Read(Write(s.bus, TIMA, Read(s.bus, TMA)), REQUEST) == Read(s.bus, REQUEST)
  {
    ReadAfterWrite(s.bus, TIMA, Read(s.bus, TMA));
    ReadOtherAfterWrite(s.bus, TIMA, REQUEST, Read(s.bus, TMA));
  }

  /** Requesting an interrupt leaves TIMA alone. */
  lemma FlagKeepsTima(s: State, id: bv8)
    requires id < 31
    ensures Read(FlagInterrupt(s, id).bus, TIMA) == Read(s.bus, TIMA)
  {
    ReadOtherAfterWrite(s.bus, REQUEST, TIMA, BitSet(Read(s.bus, REQUEST), id));
  }

  /**
   * With the clock running and cycles still left on the timer counter, a
   * tick only counts the counter down: TIMA and every other register and
   * counter stay as they were.
   */
  lemma TickCountsDown(s: State, cycles: int)
    requires ClockEnabled(s.bus) && s.bus.timerCounter - cycles > 0
    ensures TickTimer(s, cycles).bus.timerCounter == s.bus.timerCounter - cycles
    ensures TickTimer(s, cycles) == s.(bus := s.bus.(timerCounter := TickTimer(s, cycles).bus.timerCounter))
  {
  }

  /** TIMA at 0xFF is reloaded from TMA. */
  lemma OverflowReloads(s: State)
    requires Read(s.bus, TIMA) == 0xFF
    ensures Read(IncrementTima(s).bus, TIMA) == Read(s.bus, TMA)
  {
    ReloadWrite(s);
    FlagKeepsTima(s.(bus := Write(s.bus, TIMA, Read(s.bus, TMA))), 2);
  }

  /** TIMA at 0xFF requests the timer interrupt, bit 2 of the request register, and keeps the other requests. */
  lemma OverflowRequests(s: State)
    requires Read(s.bus, TIMA) == 0xFF
    ensures Requests(IncrementTima(s)) == BitSet(Requests(s), 2)
  {
    ReloadWrite(s);
    FlagInterruptRequests(s.(bus := Write(s.bus, TIMA, Read(s.bus, TMA))), 2);
  }

  /** Overflow requests interrupt 2 in particular. */
  lemma OverflowRaisesTimerInterrupt(s: State)
    requires Read(s.bus, TIMA) == 0xFF
    ensures IsBitSet(Requests(IncrementTima(s)), 2)
  {
    OverflowRequests(s);
  }
}

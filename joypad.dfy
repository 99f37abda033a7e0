/**
 * The joypad (Emulator.cpp, `buttonPressed`, `buttonReleased`). The
 * emulator keeps the state of the eight keys in its own joypad byte, a
 * cleared bit meaning pressed: bits 0..3 are the direction keys (right,
 * left, up, down) and bits 4..7 the buttons (A, B, select, start). A read
 * of 0xFF00 shows one of the two groups, as bits 4 and 5 of the stored
 * register select (`Memory.JoypadRegister`). A press of a key that was up
 * requests the joypad interrupt (4) when the stored register selects the
 * key's group.
 */
module Joypad {
  import opened Bits
  import opened Hardware
  import opened EmulatorState
  import opened Memory
  import opened Interrupts

  const JOYPAD: bv16 := 0xFF00
  const JOYPAD_INTERRUPT: bv8 := 4

  /** The stored register selects the group of `key`: bit 4 cleared for the direction keys, bit 5 for the buttons. */
  predicate GroupSelected(register: bv8, key: bv8)
  {
    (!IsBitSet(register, 4) && key < 4) || (!IsBitSet(register, 5) && !(key < 4))
  }

  /** Whether a press of `key` requests the joypad interrupt: the key was up and its group is selected. */
  predicate PressInterrupts(s: State, key: bv8)
    requires key < 8
  {
    IsBitSet(s.bus.joypadState, key) && GroupSelected(s.bus.internalMem[Index(JOYPAD)], key)
  }

  /** The joypad byte with the key's bit cleared, nothing else changed. */
  function ClearKey(s: State, key: bv8): State
    requires key < 8
  {
    s.(bus := s.bus.(joypadState := BitReset(s.bus.joypadState, key)))
  }

  /** `buttonPressed`: the key's bit cleared, and the joypad interrupt requested when `PressInterrupts` holds. */
  function ButtonPressed(s: State, key: bv8): (t: State)
    requires key < 8
    ensures !IsBitSet(t.bus.joypadState, key)
    ensures t == s.(bus := t.bus, isHalted := t.isHalted)
  {
    if PressInterrupts(s, key) then FlagInterrupt(ClearKey(s, key), JOYPAD_INTERRUPT)
    else ClearKey(s, key)
  }

  /** `buttonReleased`: the key's bit set again. */
  function ButtonReleased(s: State, key: bv8): (t: State)
    requires key < 8
    ensures IsBitSet(t.bus.joypadState, key)
    ensures forall q: bv8 :: q < 8 && q != key ==> IsBitSet(t.bus.joypadState, q) == IsBitSet(s.bus.joypadState, q)
  {
    forall q: bv8 | q < 8 && q != key
      ensures IsBitSet(BitSet(s.bus.joypadState, key), q) == IsBitSet(s.bus.joypadState, q)
    {
      BitSetKeepsOthers(s.bus.joypadState, key, q);
    }
    s.(bus := s.bus.(joypadState := BitSet(s.bus.joypadState, key)))
  }

  /** Requesting an interrupt leaves the joypad byte and the stored joypad register alone. */
  lemma FlagKeepsJoypad(s: State, id: bv8)
    requires id < 31
    ensures FlagInterrupt(s, id).bus.joypadState == s.bus.joypadState
    ensures FlagInterrupt(s, id).bus.internalMem[Index(JOYPAD)] == s.bus.internalMem[Index(JOYPAD)]
  {
    WritePlain(s.bus, REQUEST, BitSet(Read(s.bus, REQUEST), id));
    IndexInjective(REQUEST, JOYPAD);
  }

  /** A press leaves the joypad byte with the key's bit cleared. */
  lemma PressedState(s: State, key: bv8)
    requires key < 8
    ensures ButtonPressed(s, key).bus.joypadState == BitReset(s.bus.joypadState, key)
  {
    if PressInterrupts(s, key) {
      FlagKeepsJoypad(ClearKey(s, key), JOYPAD_INTERRUPT);
    }
  }

  /** A press clears exactly the key's bit of the joypad byte. */
  lemma PressClearsKey(s: State, key: bv8, q: bv8)
    requires key < 8 && q < 8
    ensures IsBitSet(ButtonPressed(s, key).bus.joypadState, q) == (q != key && IsBitSet(s.bus.joypadState, q))
  {
    PressedState(s, key);
    if q != key {
      BitResetKeepsOthers(s.bus.joypadState, key, q);
    }
  }

  /** A press requests the joypad interrupt exactly when the key was up and its group is selected, and changes no other request. */
  lemma PressRequests(s: State, key: bv8)
    requires key < 8
    ensures Requests(ButtonPressed(s, key)) ==
      if PressInterrupts(s, key) then BitSet(Requests(s), JOYPAD_INTERRUPT) else Requests(s)
  {
    var u := ClearKey(s, key);
    assert Requests(u) == Requests(s);
    if PressInterrupts(s, key) {
      FlagInterruptRequests(u, JOYPAD_INTERRUPT);
    }
  }

  /** A press leaves the program counter and stack alone; a requesting press also ends a halt. */
  lemma PressKeepsCpu(s: State, key: bv8)
    requires key < 8
    ensures ButtonPressed(s, key).programCounter == s.programCounter
    ensures ButtonPressed(s, key).stackPointer == s.stackPointer
    ensures PressInterrupts(s, key) ==> !ButtonPressed(s, key).isHalted
  {
  }

  /** Releasing a key that was up before it was pressed restores the joypad byte. */
  lemma ReleaseUndoesPress(s: State, key: bv8)
    requires key < 8 && IsBitSet(s.bus.joypadState, key)
    ensures ButtonReleased(ButtonPressed(s, key), key).bus.joypadState == s.bus.joypadState
  {
    PressedState(s, key);
    SetUndoesReset(s.bus.joypadState, key);
  }

  /** Bit `q` of the low nibble of a joypad read: the selected group's key bit. */
  lemma ReadShowsKey(b: Bus, q: bv8)
    requires q < 4
    ensures !IsBitSet(b.internalMem[Index(JOYPAD)], 4) ==>
      IsBitSet(Read(b, JOYPAD), q) == IsBitSet(b.joypadState, q)
    ensures IsBitSet(b.internalMem[Index(JOYPAD)], 4) && !IsBitSet(b.internalMem[Index(JOYPAD)], 5) ==>
      IsBitSet(Read(b, JOYPAD), q) == IsBitSet(b.joypadState, q + 4)
    ensures IsBitSet(b.internalMem[Index(JOYPAD)], 4) && IsBitSet(b.internalMem[Index(JOYPAD)], 5) ==>
      !IsBitSet(Read(b, JOYPAD), q)
  {
  }

  /** After a direction key is pressed, a read of 0xFF00 selecting the direction keys shows it pressed. */
  lemma PressedDirectionVisible(s: State, key: bv8)
    requires key < 4 && !IsBitSet(s.bus.internalMem[Index(JOYPAD)], 4)
    ensures !IsBitSet(Read(ButtonPressed(s, key).bus, JOYPAD), key)
  {
    FlagKeepsJoypad(ClearKey(s, key), JOYPAD_INTERRUPT);
    ReadShowsKey(ButtonPressed(s, key).bus, key);
    PressedState(s, key);
  }
}

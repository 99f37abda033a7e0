/**
 * The emulator's bit utilities: testing, setting and clearing one bit of a
 * byte. The position is a C++ `int` whose values in the emulator lie in
 * 0..8, so it is held in a byte here. The byte is promoted to `int` before
 * shifting, so a position of 8 or more reads as 0 and a mask built from it
 * has no bit inside the byte (`isBitSet(address, 8)` on a WORD address that
 * was narrowed to a BYTE is therefore always false).
 */
module Bits {

  /** The part of the mask `1 << position` that falls inside a byte. */
  function Mask(position: bv8): (m: bv8)
    ensures position >= 8 ==> m == 0
  {
    if position < 8 then 1 << position else 0
  }

  /** Bit `position` of `data`, counting from the least significant bit. */
  function IsBitSet(data: bv8, position: bv8): (r: bool)
    requires position < 32
    ensures position >= 8 ==> !r
  {
    data & Mask(position) != 0
  }

  /** `data` with bit `position` set. */
  function BitSet(data: bv8, position: bv8): (r: bv8)
    requires position < 31
    ensures position < 8 ==> IsBitSet(r, position)
    ensures position >= 8 ==> r == data
  {
    data | Mask(position)
  }

  /** `data` with bit `position` cleared. */
  function BitReset(data: bv8, position: bv8): (r: bv8)
    requires position < 31
    ensures !IsBitSet(r, position)
    ensures position >= 8 ==> r == data
  {
    data & !Mask(position)
  }

  /** Setting a bit leaves every other bit as it was. */
  lemma BitSetKeepsOthers(data: bv8, position: bv8, q: bv8)
    requires position < 31 && q < 8 && q != position
    ensures IsBitSet(BitSet(data, position), q) == IsBitSet(data, q)
  {
  }

  /** Clearing a bit leaves every other bit as it was. */
  lemma BitResetKeepsOthers(data: bv8, position: bv8, q: bv8)
    requires position < 31 && q < 8 && q != position
    ensures IsBitSet(BitReset(data, position), q) == IsBitSet(data, q)
  {
  }

  /** Setting a bit that is already set, or clearing one that is clear, changes nothing. */
  lemma NoChangeWhenAlready(data: bv8, position: bv8)
    requires position < 8
    ensures IsBitSet(data, position) ==> BitSet(data, position) == data
    ensures !IsBitSet(data, position) ==> BitReset(data, position) == data
  {
  }

  /** Two bytes that agree on all eight bits are equal. */
  lemma {:induction false} SameBits(a: bv8, b: bv8)
    requires forall q: bv8 :: q < 8 ==> IsBitSet(a, q) == IsBitSet(b, q)
    ensures a == b
  {
    assert IsBitSet(a, 0) == IsBitSet(b, 0);
    assert IsBitSet(a, 1) == IsBitSet(b, 1);
    assert IsBitSet(a, 2) == IsBitSet(b, 2);
    assert IsBitSet(a, 3) == IsBitSet(b, 3);
    assert IsBitSet(a, 4) == IsBitSet(b, 4);
    assert IsBitSet(a, 5) == IsBitSet(b, 5);
    assert IsBitSet(a, 6) == IsBitSet(b, 6);
    assert IsBitSet(a, 7) == IsBitSet(b, 7);
  }

  /** Clearing a bit undoes setting it, on a byte where it was clear. */
  lemma ResetUndoesSet(data: bv8, position: bv8)
    requires position < 8 && !IsBitSet(data, position)
    ensures BitReset(BitSet(data, position), position) == data
  {
  }

  /** Setting a bit undoes clearing it, on a byte where it was set. */
  lemma SetUndoesReset(data: bv8, position: bv8)
    requires position < 8 && IsBitSet(data, position)
    ensures BitSet(BitReset(data, position), position) == data
  {
  }

  /** Bit `q` of `a & v`, `a | v` and `a ^ v` from bit `q` of `a` and `v`. */
  lemma BitOfAnd(a: bv8, v: bv8, r: bv8, q: bv8)
    requires q < 8 && r == a & v
    ensures IsBitSet(r, q) == (IsBitSet(a, q) && IsBitSet(v, q))
  {
  }

  lemma BitOfOr(a: bv8, v: bv8, r: bv8, q: bv8)
    requires q < 8 && r == a | v
    ensures IsBitSet(r, q) == (IsBitSet(a, q) || IsBitSet(v, q))
  {
  }

  lemma BitOfXor(a: bv8, v: bv8, r: bv8, q: bv8)
    requires q < 8 && r == a ^ v
    ensures IsBitSet(r, q) == (IsBitSet(a, q) != IsBitSet(v, q))
  {
  }
}

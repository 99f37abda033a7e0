/**
 * The data layout of the emulator (Emulator.hpp): flag positions inside F,
 * the timer register addresses, the `Register` union that lets a 16-bit
 * register pair be read as one WORD or as its two bytes, the sizes of the
 * memory arrays, and the four shades of the `COLOUR` enum.
 */
module Hardware {
  import opened Bits

  // Bit positions of the flags inside register F.
  const FLAG_ZERO: bv8 := 7
  const FLAG_SUB: bv8 := 6
  const FLAG_HALFCARRY: bv8 := 5
  const FLAG_CARRY: bv8 := 4

  // Addresses of the timer registers.
  const DIVIDER: bv16 := 0xFF04
  const TIMA: bv16 := 0xFF05
  const TMA: bv16 := 0xFF06
  const TAC: bv16 := 0xFF07

  // Sizes of the memory arrays.
  const INTERNAL_SIZE: nat := 0x10000
  const CARTRIDGE_SIZE: nat := 0x200000
  const RAM_BANKS_SIZE: nat := 0x8000
  const RAM_BANK_SIZE: nat := 0x2000

  /** The flag positions are four distinct bits of F's upper nibble. */
  lemma FlagLayout()
    ensures 4 <= FLAG_CARRY < FLAG_HALFCARRY < FLAG_SUB < FLAG_ZERO < 8
  {
  }

  /** The four timer registers occupy consecutive addresses. */
  lemma TimerRegistersConsecutive()
    ensures TIMA == DIVIDER + 1 && TMA == TIMA + 1 && TAC == TMA + 1
  {
  }

  /** Four RAM banks of 0x2000 bytes fill the RAM bank array exactly. */
  lemma RamBankIndexInBounds(bank: nat, offset: nat)
    requires bank <= 3 && offset < RAM_BANK_SIZE
    ensures bank * RAM_BANK_SIZE + offset < RAM_BANKS_SIZE
  {
  }

  /*
   * The `Register` union: `regstr` overlays `low` (the byte at the lower
   * address) and `high`, so on a little-endian host `high` is bits 15..8.
   */

  /** The `high` byte of a register pair: the number of whole 256s in `regstr`. */
  function High(r: bv16): (h: bv8)
    ensures h as bv16 == r / 256
  {
    (r >> 8) as bv8
  }

  /** The `low` byte of a register pair: `regstr` modulo 256. */
  function Low(r: bv16): (l: bv8)
    ensures l as bv16 == r % 256
  {
    (r & 0xFF) as bv8
  }

  /** The WORD whose bytes are `high` and `low`. */
  function Pair(high: bv8, low: bv8): (r: bv16)
    ensures High(r) == high && Low(r) == low
  {
    ((high as bv16) << 8) | (low as bv16)
  }

  /** Assigning the `high` byte changes only that byte of `regstr`. */
  function WithHigh(r: bv16, high: bv8): (s: bv16)
    ensures High(s) == high && Low(s) == Low(r)
  {
    Pair(high, Low(r))
  }

  /** Assigning the `low` byte changes only that byte of `regstr`. */
  function WithLow(r: bv16, low: bv8): (s: bv16)
    ensures High(s) == High(r) && Low(s) == low
  {
    Pair(High(r), low)
  }

  /**
   * The array index a WORD address stands for, `high`·256 + `low`; every
   * WORD address is an index of the internal memory.
   */
  function Index(address: bv16): (i: nat)
    ensures i < INTERNAL_SIZE
  {
    High(address) as int * 256 + Low(address) as int
  }

  /** A byte as an integer lies in 0..255, and different bytes are different integers. */
  lemma ByteValue(x: bv8, y: bv8)
    ensures 0 <= x as int < 256
    ensures x != y ==> x as int != y as int
    ensures x < y ==> x as int < y as int
  {
  }

  /** An address 0x2000 lower indexes the cell 0x2000 lower. */
  lemma IndexBelowBy(address: bv16)
    requires 0x2000 <= address
    ensures Index(address - 0x2000) == Index(address) - 0x2000
  {
  }

  /** Different addresses index different cells. */
  lemma IndexInjective(a: bv16, b: bv16)
    requires a != b
    ensures Index(a) != Index(b)
  {
    assert High(a) != High(b) || Low(a) != Low(b);
    ByteValue(Low(a), Low(b));
    ByteValue(Low(b), Low(a));
    if High(a) != High(b) {
      ByteValue(High(a), High(b));
    }
  }

  /** An address below `h`·256 has an index below `h`·256. */
  lemma IndexBelow(address: bv16, h: bv8)
    requires High(address) < h
    ensures Index(address) < h as int * 256
  {
    ByteValue(High(address), h);
    ByteValue(Low(address), Low(address));
  }

  /** A WORD is determined by its two bytes. */
  lemma PairOfBytes(r: bv16)
    ensures Pair(High(r), Low(r)) == r
  {
  }

  /** `regstr` is `high`·256 + `low`. */
  lemma RegstrValue(r: bv16)
    ensures r == High(r) as bv16 * 256 + Low(r) as bv16
  {
  }

  /** `regstr &= 0xFFF0` keeps the high byte and clears the low nibble of the low byte. */
  lemma MaskClearsLowNibble(r: bv16)
    ensures High(r & 0xFFF0) == High(r)
    ensures Low(r & 0xFFF0) == Low(r) & 0xF0
  {
  }

  /** The shades a palette can assign, in the order of the `COLOUR` enum. */
  datatype Colour = White | LightGray | DarkGray | Black

  /** The value of each `COLOUR` enumerator. */
  function Shade(c: Colour): (id: bv8)
    ensures id < 4
  {
    match c
    case White => 0
    case LightGray => 1
    case DarkGray => 2
    case Black => 3
  }

  /** The colour a two-bit shade id stands for. */
  function ColourOf(id: bv8): (c: Colour)
    requires id < 4
    ensures Shade(c) == id
  {
    if id == 0 then White
    else if id == 1 then LightGray
    else if id == 2 then DarkGray
    else Black
  }

  /** Shade ids and enumerators correspond one to one. */
  lemma ColourOfShade(c: Colour)
    ensures ColourOf(Shade(c)) == c
  {
  }

  /**
   * The colour a palette byte assigns to colour number `colourNum`: bits
   * 2n+1..2n hold the shade of colour number n. The shift is done on an
   * `int`, so a colour number past 3 shifts every palette bit out.
   */
  function PaletteColour(palette: bv8, colourNum: bv8): (c: Colour)
    requires colourNum < 16
    ensures colourNum >= 4 ==> c == White
  {
    var shift := (colourNum as bv16) << 1;
    var colourID := if shift < 8 then (palette >> shift) & 3 else 0;
    ColourOf(colourID)
  }

  /** The palette byte that gives colour number n the colour `cn`. */
  function Palette(c0: Colour, c1: Colour, c2: Colour, c3: Colour): bv8
  {
    (Shade(c3) << 6) | (Shade(c2) << 4) | (Shade(c1) << 2) | Shade(c0)
  }

  /** Decoding an encoded palette gives back each colour. */
  lemma PaletteRoundTrip(c0: Colour, c1: Colour, c2: Colour, c3: Colour)
    ensures var p := Palette(c0, c1, c2, c3);
      PaletteColour(p, 0) == c0 && PaletteColour(p, 1) == c1 &&
      PaletteColour(p, 2) == c2 && PaletteColour(p, 3) == c3
  {
    var p := Palette(c0, c1, c2, c3);
    assert (p >> 0) & 3 == Shade(c0);
    assert (p >> 2) & 3 == Shade(c1);
    assert (p >> 4) & 3 == Shade(c2);
    assert (p >> 6) & 3 == Shade(c3);
    ColourOfShade(c0);
    ColourOfShade(c1);
    ColourOfShade(c2);
    ColourOfShade(c3);
  }

  /** Every palette byte is the encoding of the four colours it assigns. */
  lemma PaletteComplete(p: bv8)
    ensures Palette(PaletteColour(p, 0), PaletteColour(p, 1), PaletteColour(p, 2), PaletteColour(p, 3)) == p
  {
    assert Shade(PaletteColour(p, 0)) == p & 3;
    assert Shade(PaletteColour(p, 1)) == (p >> 2) & 3;
    assert Shade(PaletteColour(p, 2)) == (p >> 4) & 3;
    assert Shade(PaletteColour(p, 3)) == (p >> 6) & 3;
  }
}

/** Fixed-width machine values of the emulator and the wrapping arithmetic the
    CPU performs on them.  C# `byte`, `ushort` (aliased `Word` in the source)
    and `uint` (aliased `uint32`) become bounded integers; the unchecked
    wrap-around of C# arithmetic and the truncating casts `(byte)` and
    `(Word)` are written out as the `Wrap…` functions below. */
module Words {

  const BYTE_RANGE: int := 0x100
  const WORD_RANGE: int := 0x1_0000
  const U32_RANGE: int := 0x1_0000_0000

  type Byte = x: int | 0 <= x < BYTE_RANGE
  type Word = x: int | 0 <= x < WORD_RANGE
  type U32 = x: int | 0 <= x < U32_RANGE

  /** `(byte)x`: truncation to 8 bits. */
  function WrapByte(x: int): (b: Byte)
    ensures 0 <= x < BYTE_RANGE ==> b == x
    ensures (b - x) % BYTE_RANGE == 0
  {
    x % BYTE_RANGE
  }

  /** `(Word)x`, and `++`/`--` on a `Word`: truncation to 16 bits. */
  function WrapWord(x: int): (w: Word)
    ensures 0 <= x < WORD_RANGE ==> w == x
    ensures (w - x) % WORD_RANGE == 0
  {
    x % WORD_RANGE
  }

  /** Unchecked `uint` arithmetic: truncation to 32 bits. */
  function WrapU32(x: int): (c: U32)
    ensures 0 <= x < U32_RANGE ==> c == x
    ensures (c - x) % U32_RANGE == 0
  {
    x % U32_RANGE
  }

  /** `(Word)(highByte << 8 | lowByte)`: the little-endian word made of two bytes. */
  function MakeWord(low: Byte, high: Byte): (w: Word)
    ensures LowByte(w) == low && HighByte(w) == high
  {
    high * BYTE_RANGE + low
  }

  /** The low-order byte of a word. */
  function LowByte(w: Word): Byte
  {
    w % BYTE_RANGE
  }

  /** The high-order byte of a word. */
  function HighByte(w: Word): Byte
  {
    w / BYTE_RANGE
  }

  /** Splitting a word into its bytes and joining them again gives the word back. */
  lemma WordRoundTrip(w: Word)
    ensures MakeWord(LowByte(w), HighByte(w)) == w
  {
  }

  /** `address & 0xFF00`: the first address of the 256-byte page holding `a`. */
  function Page(a: Word): (p: Word)
    ensures HighByte(p) == HighByte(a) && LowByte(p) == 0
  {
    HighByte(a) * BYTE_RANGE
  }

  /** `(Word)(base + index) & 0xFF00 != base & 0xFF00`: indexing `base`
      (with 16-bit wrap) lands on a different page. */
  predicate PageCrossed(base: Word, index: Byte)
  {
    Page(WrapWord(base + index)) != Page(base)
  }

  /** The page-crossing test on high bytes agrees with a carry out of the low
      byte, including the wrap from page 0xFF00 back to page 0. */
  lemma PageCrossedIffCarry(base: Word, index: Byte)
    ensures PageCrossed(base, index) <==> LowByte(base) + index >= BYTE_RANGE
  {
  }

  /** `(byte)(zeroPageAddress + index)`: a zero-page address indexed with
      8-bit wrap-around; it never leaves page 0. */
  function ZeroPageIndexed(base: Byte, index: Byte): (a: Word)
    ensures a == (base + index) % BYTE_RANGE
    ensures HighByte(a) == 0
  {
    WrapByte(base + index)
  }

  /** For a fixed operand, distinct indexes reach distinct zero-page cells. */
  lemma ZeroPageIndexedInjective(base: Byte, i: Byte, j: Byte)
    ensures ZeroPageIndexed(base, i) == ZeroPageIndexed(base, j) <==> i == j
  {
    var ai := if base + i < BYTE_RANGE then base + i else base + i - BYTE_RANGE;
    var aj := if base + j < BYTE_RANGE then base + j else base + j - BYTE_RANGE;
    assert ZeroPageIndexed(base, i) == ai;
    assert ZeroPageIndexed(base, j) == aj;
  }

  /** `(sbyte)offset`: the two's-complement reading of a byte. */
  function Signed(b: Byte): (v: int)
    ensures -128 <= v < 128
    ensures WrapByte(v) == b
  {
    if b < 0x80 then b else b - BYTE_RANGE
  }

  /** `(Word)(PC + (sbyte)offset)`: a signed displacement from `pc`,
      truncated to 16 bits. */
  function Displace(pc: Word, offset: Byte): (a: Word)
    ensures offset < 0x80 ==> a == WrapWord(pc + offset)
    ensures offset >= 0x80 ==> a == WrapWord(pc + WORD_RANGE - (BYTE_RANGE - offset))
  {
    WrapWord(pc + Signed(offset))
  }
}

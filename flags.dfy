/** The processor status register and the flag helpers of the CPU.  The
    status register is a bit field, so it is kept as an 8-bit bit-vector; the
    helpers are the pure bit operations of the source's `IsFlagSet`,
    `IsBitSet`, `SetFlag`, `ClearFlag` and `ToggleFlag`. */
module Flags {

  /** The status register. */
  type Status = bv8

  /** `ProcessorFlags`: the named bits of the status register (bit 5 is unused). */
  datatype ProcessorFlag = C | Z | I | D | B | V | N

  /** The bit position of each flag in the status register. */
  function BitPosition(f: ProcessorFlag): (k: nat)
    ensures k < 8 && k != 5
  {
    match f
    case C => 0
    case Z => 1
    case I => 2
    case D => 3
    case B => 4
    case V => 6
    case N => 7
  }

  /** `1 << k` as a status byte, for a bit position `k` below 8. */
  function Bit(k: nat): Status
    requires k < 8
  {
    match k
    case 0 => 0x01
    case 1 => 0x02
    case 2 => 0x04
    case 3 => 0x08
    case 4 => 0x10
    case 5 => 0x20
    case 6 => 0x40
    case _ => 0x80
  }

  /** `Bit` is the shift the source writes. */
  lemma BitIsShift(k: nat)
    requires k < 8
    ensures Bit(k) == 1 << k
  {
    if k == 0 {
    } else if k == 1 {
    } else if k == 2 {
    } else if k == 3 {
    } else if k == 4 {
    } else if k == 5 {
    } else if k == 6 {
    } else {
    }
  }

  /** `1 << (int)bitPosition`: the mask of a flag. */
  function Mask(f: ProcessorFlag): (m: Status)
    ensures m == Bit(BitPosition(f))
  {
    match f
    case C => 0x01
    case Z => 0x02
    case I => 0x04
    case D => 0x08
    case B => 0x10
    case V => 0x40
    case N => 0x80
  }

  /** Distinct flags occupy distinct bits. */
  lemma MasksDisjoint(f: ProcessorFlag, g: ProcessorFlag)
    requires f != g
    ensures Mask(f) & Mask(g) == 0
  {
  }

  /** `IsFlagSet(StatusFlags, bitPosition)`. */
  predicate IsFlagSet(status: Status, f: ProcessorFlag)
  {
    status & Mask(f) != 0
  }

  /** `IsBitSet(Register, bitPosition)`.  The C# method tests the status
      register field, not its `Register` argument, and `1 << bitPosition`
      uses the low five bits of the shift count; so the result depends on the
      status byte alone. */
  function IsBitSet(status: Status, register: int, bitPosition: int): (r: bool)
    ensures bitPosition == BitPosition(N) ==> (r <==> IsFlagSet(status, N))
    ensures bitPosition % 32 >= 8 ==> !r
  {
    var k := bitPosition % 32;
    k < 8 && status & Bit(k) != 0
  }

  /** `StatusFlags |= (byte)(1 << bitPosition)` on a copy of the status byte. */
  function SetFlag(status: Status, f: ProcessorFlag): Status
  {
    status | Mask(f)
  }

  /** `StatusFlags &= (byte)~(1 << bitPosition)` on a copy of the status byte. */
  function ClearFlag(status: Status, f: ProcessorFlag): Status
  {
    status & !Mask(f)
  }

  /** `StatusFlags ^= (byte)(1 << bitPosition)` on a copy of the status byte. */
  function ToggleFlag(status: Status, f: ProcessorFlag): Status
  {
    status ^ Mask(f)
  }

  // Bit-vector facts about one mask `m`, stated over plain bytes so that the
  // solver meets no flag definitions while it proves them.

  lemma OrMask(s: Status, m: Status)
    ensures (s | m) & m == m
    ensures (s | m) & !m == s & !m
  {
  }

  lemma AndNotMask(s: Status, m: Status)
    ensures (s & !m) & m == 0
    ensures (s & !m) & !m == s & !m
  {
  }

  lemma XorMask(s: Status, m: Status)
    ensures (s ^ m) & m == (s & m) ^ m
    ensures (s ^ m) & !m == s & !m
  {
  }

  lemma XorTwice(s: Status, m: Status)
    ensures (s ^ m) ^ m == s
  {
  }

  lemma OrTwice(s: Status, m: Status)
    ensures (s | m) | m == s | m
  {
  }

  lemma AndNotTwice(s: Status, m: Status)
    ensures (s & !m) & !m == s & !m
  {
  }

  lemma AndNotAfterOr(s: Status, m: Status)
    ensures (s | m) & !m == s & !m
  {
  }

  /** SetFlag sets the flag and keeps every other bit of the byte. */
  lemma SetFlagEffect(status: Status, f: ProcessorFlag)
    ensures IsFlagSet(SetFlag(status, f), f)
    ensures SetFlag(status, f) & !Mask(f) == status & !Mask(f)
  {
    OrMask(status, Mask(f));
  }

  /** ClearFlag clears the flag and keeps every other bit of the byte. */
  lemma ClearFlagEffect(status: Status, f: ProcessorFlag)
    ensures !IsFlagSet(ClearFlag(status, f), f)
    ensures ClearFlag(status, f) & !Mask(f) == status & !Mask(f)
  {
    AndNotMask(status, Mask(f));
  }

  /** ToggleFlag inverts the flag and keeps every other bit of the byte. */
  lemma ToggleFlagEffect(status: Status, f: ProcessorFlag)
    ensures IsFlagSet(ToggleFlag(status, f), f) == !IsFlagSet(status, f)
    ensures ToggleFlag(status, f) & !Mask(f) == status & !Mask(f)
  {
    XorMask(status, Mask(f));
  }

  /** A byte that keeps every bit outside the mask of `f` keeps the bit of
      every other flag. */
  lemma KeptOutside(status: Status, r: Status, f: ProcessorFlag, g: ProcessorFlag)
    requires f != g
    requires r & !Mask(f) == status & !Mask(f)
    ensures IsFlagSet(r, g) == IsFlagSet(status, g)
  {
    var m, n := Mask(f), Mask(g);
    MasksDisjoint(f, g);
    Within(r, m, n);
    Within(status, m, n);
    assert r & n == status & n;
  }

  /** Setting one flag leaves every other named flag as it was. */
  lemma SetKeepsOthers(status: Status, f: ProcessorFlag, g: ProcessorFlag)
    requires f != g
    ensures IsFlagSet(SetFlag(status, f), g) == IsFlagSet(status, g)
  {
    SetFlagEffect(status, f);
    KeptOutside(status, SetFlag(status, f), f, g);
  }

  /** Clearing one flag leaves every other named flag as it was. */
  lemma ClearKeepsOthers(status: Status, f: ProcessorFlag, g: ProcessorFlag)
    requires f != g
    ensures IsFlagSet(ClearFlag(status, f), g) == IsFlagSet(status, g)
  {
    ClearFlagEffect(status, f);
    KeptOutside(status, ClearFlag(status, f), f, g);
  }

  /** Toggling one flag leaves every other named flag as it was. */
  lemma ToggleKeepsOthers(status: Status, f: ProcessorFlag, g: ProcessorFlag)
    requires f != g
    ensures IsFlagSet(ToggleFlag(status, f), g) == IsFlagSet(status, g)
  {
    ToggleFlagEffect(status, f);
    KeptOutside(status, ToggleFlag(status, f), f, g);
  }

  lemma Within(x: Status, m: Status, n: Status)
    requires m & n == 0
    ensures x & n == (x & !m) & n
  {
  }

  /** Toggling a flag twice restores the status byte. */
  lemma ToggleTwice(status: Status, f: ProcessorFlag)
    ensures ToggleFlag(ToggleFlag(status, f), f) == status
  {
    XorTwice(status, Mask(f));
  }

  /** Setting a flag is idempotent. */
  lemma SetTwice(status: Status, f: ProcessorFlag)
    ensures SetFlag(SetFlag(status, f), f) == SetFlag(status, f)
  {
    OrTwice(status, Mask(f));
  }

  /** Clearing a flag is idempotent. */
  lemma ClearTwice(status: Status, f: ProcessorFlag)
    ensures ClearFlag(ClearFlag(status, f), f) == ClearFlag(status, f)
  {
    AndNotTwice(status, Mask(f));
  }

  /** Clearing after setting is the same as clearing. */
  lemma ClearAfterSet(status: Status, f: ProcessorFlag)
    ensures ClearFlag(SetFlag(status, f), f) == ClearFlag(status, f)
  {
    AndNotAfterOr(status, Mask(f));
  }
}

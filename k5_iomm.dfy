/**
 * The K5-J721E IOMM pin-multiplexing register layout
 * (arch/arm/src/k5-j721e/hardware/k5_j721e_iomm.h): 31 PINMMR registers of
 * four 8-bit pin fields each, and the kicker registers that unlock them.
 * The macros are unsigned 32-bit arithmetic, so they are written over bv32.
 */
module K5Iomm {

  /** K5_J721E_IOMM_BASE */
  const IommBase: bv32 := 0xffff_ea00

  const Kick0Offset: bv32 := 0x38
  const Kick1Offset: bv32 := 0x3c
  const Kick0: bv32 := IommBase + Kick0Offset
  const Kick1: bv32 := IommBase + Kick1Offset

  const Kick0Unlock: bv32 := 0x83e7_0b13
  const Kick1Unlock: bv32 := 0x95a4_f1e0
  const Kick0Lock: bv32 := 0
  const Kick1Lock: bv32 := 0

  /** The enumerated K5_J721E_IOMM_PINMMR0_OFFSET .. PINMMR30_OFFSET. */
  const PinmmrOffsets: seq<bv32> :=
      [0x110, 0x114, 0x118, 0x11c, 0x120, 0x124, 0x128, 0x12c]
    + [0x130, 0x134, 0x138, 0x13c, 0x140, 0x144, 0x148, 0x14c]
    + [0x150, 0x154, 0x158, 0x15c, 0x160, 0x164, 0x168, 0x16c]
    + [0x170, 0x174, 0x178, 0x17c, 0x180, 0x184, 0x188]

  /** K5_J721E_IOMM_PINMMR_OFFSET(n) */
  function PinmmrOffset(n: bv32): bv32
  {
    0x110 + (n << 2)
  }

  /** K5_J721E_IOMM_PINMMR(n) */
  function Pinmmr(n: bv32): bv32
  {
    IommBase + PinmmrOffset(n)
  }

  /** IOMM_PINMMR_REGNDX(n): the PINMMR register holding pin n. */
  function RegNdx(n: bv32): bv32
  {
    n >> 2
  }

  /** IOMM_PINMMR_PINSHIFT(n): the position of pin n's field in its register. */
  function PinShift(n: bv32): bv32
  {
    (n & 3) << 3
  }

  /** IOMM_PINMMR_PINMASK(n) */
  function PinMask(n: bv32): bv32
  {
    0xff << PinShift(n)
  }

  /** IOMM_PINMMR_PINVALUE(n, v) */
  function PinValue(n: bv32, v: bv32): bv32
  {
    v << PinShift(n)
  }

  /** The offset macro agrees with every enumerated PINMMRn offset. */
  lemma PinmmrOffsetsAgree(n: bv32)
    requires n < 31
    ensures |PinmmrOffsets| == 31
    ensures PinmmrOffset(n) == PinmmrOffsets[n]
  {
  }

  /** The registers of the 8-bit indices that pinmux entries carry are distinct. */
  lemma PinmmrDistinct(m: bv32, n: bv32)
    requires m < 256 && n < 256 && m != n
    ensures Pinmmr(m) != Pinmmr(n)
  {
  }

  /** No PINMMR register of an 8-bit index is a kicker register. */
  lemma PinmmrNotKick(n: bv32)
    requires n < 256
    ensures Pinmmr(n) != Kick0 && Pinmmr(n) != Kick1
  {
  }

  lemma PinShiftAligned(n: bv32)
    ensures PinShift(n) == 0 || PinShift(n) == 8 || PinShift(n) == 16 || PinShift(n) == 24
  {
  }

  /** Register index and field position recover the pin number. */
  lemma PinIndexRoundTrip(n: bv32)
    ensures RegNdx(n) * 4 + PinShift(n) / 8 == n
  {
  }

  /** Two different pins of one register have disjoint fields. */
  lemma PinMasksDisjoint(m: bv32, n: bv32)
    requires RegNdx(m) == RegNdx(n) && m != n
    ensures PinMask(m) & PinMask(n) == 0
  {
  }

  /** The four pins of register r cover all of its 32 bits. */
  lemma PinMasksCover(r: bv32)
    requires r < 0x4000_0000
    ensures PinMask(4 * r) | PinMask(4 * r + 1) | PinMask(4 * r + 2) | PinMask(4 * r + 3) == 0xffff_ffff
  {
  }

  /** A byte value lands inside its pin's field. */
  lemma PinValueInMask(n: bv32, v: bv32)
    requires v < 256
    ensures PinValue(n, v) & !PinMask(n) == 0
  {
  }

  /** The 124 pins 0..123 live in PINMMR0..PINMMR30. */
  lemma RegNdxBound(n: bv32)
    requires n < 124
    ensures RegNdx(n) <= 30
  {
  }
}

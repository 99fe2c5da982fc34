/**
 * The VS1053 volume and tone arithmetic (drivers/audio/vs1053.c,
 * vs1053_logapprox, vs1053_setvolume and vs1053_setbass): percentages and
 * balance become SCI_VOL and SCI_BASS register words.
 */
module Vs1053Levels {

  type int16 = x: int | -0x8000 <= x < 0x8000
  type uint8 = x: int | 0 <= x < 0x100

  /**
   * g_logtable: SCI_VOL attenuation in 0.5 dB steps for 0, 2, 4, ... 100
   * percent, one row per 10 percent.
   */
  const LogTable: seq<nat> :=
      [254, 170, 140, 122, 110]
    + [100, 92, 85, 80, 74]
    + [70, 66, 62, 59, 55]
    + [52, 49, 47, 44, 42]
    + [40, 38, 36, 34, 32]
    + [30, 28, 27, 25, 24]
    + [22, 21, 19, 18, 17]
    + [15, 14, 13, 12, 11]
    + [10, 9, 8, 7, 6]
    + [5, 4, 3, 2, 1]
    + [0]

  /** Balance is in tenths of a percent; 500 is centred. */
  const BalanceMax: int := 1000
  const BalanceCentre: int := 500

  /**
   * vs1053_logapprox: the attenuation for a volume percentage, the floored
   * mean of the two table entries around it, and none from 100 percent up.
   */
  function LogApprox(percent: int): (r: nat)
    requires 0 <= percent
    ensures r <= 254
    ensures percent >= 100 ==> r == 0
    ensures percent < 100 ==> LogTable[(percent + 1) / 2] <= r <= LogTable[percent / 2]
  {
    if percent >= 100 then 0
    else
      var i, j := percent / 2, (percent + 1) / 2;
      assert j == i || j == i + 1;
      TableStep(i);
      TableBound(i);
      (LogTable[i] + LogTable[j]) / 2
  }

  /** Adjacent table entries never increase. */
  lemma TableStep(k: nat)
    requires k < |LogTable| - 1
    ensures LogTable[k + 1] <= LogTable[k]
  {
  }

  lemma TableBound(k: nat)
    requires k < |LogTable|
    ensures LogTable[k] <= 254
  {
  }

  lemma {:induction false} LogTableDescends(i: nat, j: nat)
    requires i <= j < |LogTable|
    ensures LogTable[j] <= LogTable[i]
    decreases j - i
  {
    if i < j {
      TableStep(i);
      LogTableDescends(i + 1, j);
    }
  }

  /** A louder percentage never gets more attenuation. */
  lemma LogApproxAntitone(p: int, q: int)
    requires 0 <= p <= q
    ensures LogApprox(q) <= LogApprox(p)
  {
    if q < 100 {
      LogTableDescends(p / 2, q / 2);
      LogTableDescends((p + 1) / 2, (q + 1) / 2);
    }
  }

  /** On an even percentage the table entry is returned exactly. */
  lemma LogApproxOnGrid(p: int)
    requires 0 <= p < 100 && p % 2 == 0
    ensures LogApprox(p) == LogTable[p / 2]
  {
    assert (p + 1) / 2 == p / 2;
  }

  /** C's `/` on int: truncation toward zero. */
  function CDiv(a: int, b: int): (q: int)
    requires b > 0
    ensures a >= 0 ==> q * b <= a < q * b + b
    ensures a < 0 ==> q * b - b < a <= q * b
  {
    if a >= 0 then a / b else -((-a) / b)
  }

  /** Conversion of an int to uint32_t. */
  function U32(x: int): (r: nat)
    ensures r < 0x1_0000_0000
    ensures 0 <= x < 0x1_0000_0000 ==> r == x
  {
    x % 0x1_0000_0000
  }

  /** The in-place clamp of dev->balance at the top of vs1053_setvolume. */
  function ClampBalance(balance: int16): (b: int16)
    ensures b <= BalanceMax
    ensures balance <= BalanceMax ==> b == balance
    ensures balance > BalanceMax ==> b == BalanceMax
  {
    if balance > BalanceMax then BalanceMax else balance
  }

  /** leftlevel: full volume up to centre balance, then scaled down to 0 at 1000. */
  function LeftLevel(volume: int16, balance: int16): nat
    requires balance <= BalanceMax
  {
    U32(if balance <= BalanceCentre then volume
        else if balance == BalanceMax then 0
        else CDiv(volume * (BalanceMax - balance), BalanceCentre))
  }

  /** rightlevel: 0 at balance 0, scaled up to full volume at centre and beyond. */
  function RightLevel(volume: int16, balance: int16): nat
  {
    U32(if balance >= BalanceCentre then volume
        else if balance == 0 then 0
        else CDiv(volume * balance, BalanceCentre))
  }

  /**
   * The SCI_VOL word: left attenuation in the high byte, right in the low
   * byte. Both bytes are below 256, so `(left << 8) | right` is the sum
   * below.
   */
  function VolumeWord(volume: int16, balance: int16): (w: nat)
    requires balance <= BalanceMax
    ensures w < 0x1_0000
  {
    PackBytes(LogApprox(LeftLevel(volume, balance) / 10), LogApprox(RightLevel(volume, balance) / 10))
  }

  /** Two bytes packed high/low into a 16-bit word; each can be read back. */
  function PackBytes(hi: nat, lo: nat): (w: nat)
    requires hi < 256 && lo < 256
    ensures w < 0x1_0000
    ensures w / 256 == hi && w % 256 == lo
  {
    hi * 256 + lo
  }

  /** The two channel attenuations can be read back from the SCI_VOL word. */
  lemma VolumeWordFields(volume: int16, balance: int16)
    requires balance <= BalanceMax
    ensures VolumeWord(volume, balance) / 256 == LogApprox(LeftLevel(volume, balance) / 10)
    ensures VolumeWord(volume, balance) % 256 == LogApprox(RightLevel(volume, balance) / 10)
  {
  }

  lemma MulMono(a: int, b: int, c: int)
    requires 0 <= a && b <= c
    ensures a * b <= a * c
  {
  }

  lemma DivMono(a: int, b: int, d: int)
    requires 0 <= a <= b && 0 < d
    ensures a / d <= b / d
  {
    var qa, qb := a / d, b / d;
    assert a == qa * d + a % d && b == qb * d + b % d;
    if qa > qb {
      MulMono(d, qb + 1, qa);
      assert false;
    }
  }

  /** A level scaled by `part`/500 with part < 500 stays within 0..volume. */
  lemma ScaledLevel(volume: int16, part: int)
    requires 0 <= volume && 0 < part < BalanceCentre
    ensures 0 <= CDiv(volume * part, BalanceCentre) <= volume
  {
    MulMono(volume, part, BalanceCentre);
  }

  /**
   * For a volume in range, each channel level lies between 0 and the volume;
   * the side the balance leans to keeps full volume, and the far end of the
   * balance silences the other channel.
   */
  lemma ChannelLevels(volume: int16, balance: int16)
    requires 0 <= volume && 0 <= balance <= BalanceMax
    ensures LeftLevel(volume, balance) <= volume && RightLevel(volume, balance) <= volume
    ensures balance <= BalanceCentre ==> LeftLevel(volume, balance) == volume
    ensures balance >= BalanceCentre ==> RightLevel(volume, balance) == volume
    ensures balance == BalanceMax ==> LeftLevel(volume, balance) == 0
    ensures balance == 0 ==> RightLevel(volume, balance) == 0
  {
    if BalanceCentre < balance < BalanceMax {
      ScaledLevel(volume, BalanceMax - balance);
    }
    if 0 < balance < BalanceCentre {
      ScaledLevel(volume, balance);
    }
  }

  /** Left and right are mirror images about the centre balance. */
  lemma BalanceMirror(volume: int16, balance: int16)
    requires 0 <= balance <= BalanceMax
    ensures LeftLevel(volume, balance) == RightLevel(volume, BalanceMax - balance)
  {
  }

  /** Raising the volume (within 0..1000) never raises either channel's attenuation. */
  lemma LouderVolume(v1: int16, v2: int16, balance: int16)
    requires 0 <= v1 <= v2 && 0 <= balance <= BalanceMax
    ensures VolumeWord(v2, balance) / 256 <= VolumeWord(v1, balance) / 256
    ensures VolumeWord(v2, balance) % 256 <= VolumeWord(v1, balance) % 256
  {
    LevelMonotone(v1, v2, balance);
    VolumeWordFields(v1, balance);
    VolumeWordFields(v2, balance);
    LogApproxAntitone(LeftLevel(v1, balance) / 10, LeftLevel(v2, balance) / 10);
    LogApproxAntitone(RightLevel(v1, balance) / 10, RightLevel(v2, balance) / 10);
  }

  /** Scaling by part/500 keeps the order of two volumes. */
  lemma ScaledMono(v1: int16, v2: int16, part: int)
    requires 0 <= v1 <= v2 && 0 < part < BalanceCentre
    ensures CDiv(v1 * part, BalanceCentre) <= CDiv(v2 * part, BalanceCentre)
  {
    MulMono(part, v1, v2);
    DivMono(v1 * part, v2 * part, BalanceCentre);
  }

  /** Each channel's level grows with the volume at a fixed balance. */
  lemma LevelMonotone(v1: int16, v2: int16, balance: int16)
    requires 0 <= v1 <= v2 && 0 <= balance <= BalanceMax
    ensures LeftLevel(v1, balance) <= LeftLevel(v2, balance)
    ensures RightLevel(v1, balance) <= RightLevel(v2, balance)
  {
    if BalanceCentre < balance < BalanceMax {
      ScaledLevel(v1, BalanceMax - balance);
      ScaledLevel(v2, BalanceMax - balance);
      ScaledMono(v1, v2, BalanceMax - balance);
    }
    if 0 < balance < BalanceCentre {
      ScaledLevel(v1, balance);
      ScaledLevel(v2, balance);
      ScaledMono(v1, v2, balance);
    }
  }

  /**
   * A volume word from outside 0..999, including one that wrapped negative
   * on its way into the int16 field, plays the centred channels unattenuated.
   */
  lemma OutOfRangeVolumeIsFull(volume: int16)
    requires volume < 0 || volume >= 1000
    ensures VolumeWord(volume, BalanceCentre) == 0
  {
    assert LeftLevel(volume, BalanceCentre) / 10 >= 100;
    assert RightLevel(volume, BalanceCentre) / 10 >= 100;
  }

  // ---------------------------------------------------------------------
  // vs1053_setbass

  /** Boost in 1.5 dB (treble) or 1 dB (bass) steps: 0..15 for 0..100 percent. */
  function Boost(level: uint8): (b: nat)
    ensures level <= 100 ==> b <= 15
  {
    15 * level / 100
  }

  /** Both corner-frequency fields are fixed at 15. */
  const ToneRange: bv32 := 15

  /** The SCI_BASS word as written through the 16-bit register interface. */
  function BassWord(bass: uint8, treble: uint8): bv16
  {
    ToneWord(Boost(treble) as bv32, Boost(bass) as bv32)
  }

  /** (treble << 12) | (15 << 8) | (bass << 4) | 15, truncated to 16 bits. */
  function ToneWord(treble: bv32, bass: bv32): bv16
    requires treble < 64 && bass < 64
  {
    (((treble << 12) | (ToneRange << 8) | (bass << 4) | ToneRange) & 0xffff) as bv16
  }

  lemma ToneWordFields(treble: bv32, bass: bv32)
    requires treble <= 15 && bass <= 15
    ensures ToneWord(treble, bass) >> 12 == treble as bv16
    ensures (ToneWord(treble, bass) >> 8) & 0xf == ToneRange as bv16
    ensures (ToneWord(treble, bass) >> 4) & 0xf == bass as bv16
    ensures ToneWord(treble, bass) & 0xf == ToneRange as bv16
  {
  }

  /**
   * For levels of at most 100 (as vs1053_configure clamps them) each 4-bit
   * field of SCI_BASS holds its own value.
   */
  lemma BassWordFields(bass: uint8, treble: uint8)
    requires bass <= 100 && treble <= 100
    ensures (BassWord(bass, treble) >> 12) as int == Boost(treble)
    ensures (BassWord(bass, treble) >> 8) & 0xf == ToneRange as bv16
    ensures ((BassWord(bass, treble) >> 4) & 0xf) as int == Boost(bass)
    ensures BassWord(bass, treble) & 0xf == ToneRange as bv16
  {
    var t, b := Boost(treble) as bv32, Boost(bass) as bv32;
    ToneWordFields(t, b);
    NarrowBoost(treble);
    NarrowBoost(bass);
  }

  /** A boost of at most 15 survives the trip through bv32 and bv16. */
  lemma NarrowBoost(level: uint8)
    requires level <= 100
    ensures ((Boost(level) as bv32) as bv16) as int == Boost(level)
  {
  }
}

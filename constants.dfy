/** The constants of the ADS1115 driver header: the chip addresses, the values
    each configuration-register setting may take (every one of them already
    shifted into its place in the 16-bit word), the register pointers and the
    default low-threshold difference.

    A C++ `enum class X: uint16_t` can hold any 16-bit value through a cast;
    here each one becomes a subset type of `bv16` (or `bv8`) holding exactly
    its named constants. */
module AdsConstants {

  /** Raw difference between the high and the derived low comparator threshold. */
  const DefaultLowThresholdDiff: bv16 := 5

  // ---------------------------------------------------------------------------
  // Addresses selected by the ADR pin strap

  const AddressGnd: bv8 := 0x48
  const AddressVcc: bv8 := 0x49
  const AddressSda: bv8 := 0x4A
  const AddressScl: bv8 := 0x4B

  predicate IsAddress(a: bv8) {
    a == AddressGnd || a == AddressVcc || a == AddressSda || a == AddressScl
  }
  type AdsAddress = a: bv8 | IsAddress(a) witness AddressGnd

  // ---------------------------------------------------------------------------
  // The bit range of each setting in the configuration register

  const ComparatorAssertMask: bv16 := 0x0003    // bits 1:0
  const ComparatorLatchingMask: bv16 := 0x0004  // bit 2
  const ComparatorPolarityMask: bv16 := 0x0008  // bit 3
  const ComparatorModeMask: bv16 := 0x0010      // bit 4
  const SampleSpeedMask: bv16 := 0x00E0         // bits 7:5
  const AdsModeMask: bv16 := 0x0100             // bit 8
  const GainMask: bv16 := 0x0E00                // bits 11:9
  const MuxMask: bv16 := 0x7000                 // bits 14:12
  const OsMask: bv16 := 0x8000                  // bit 15

  // ---------------------------------------------------------------------------
  // PGA gain (bits 11:9)

  const GainTwoThirds: bv16 := 0x0
  const GainOne: bv16 := 0x1 << 9
  const GainTwo: bv16 := 0x2 << 9
  const GainFour: bv16 := 0x3 << 9
  const GainEight: bv16 := 0x4 << 9
  const GainSixteen: bv16 := 0x5 << 9

  predicate IsGain(g: bv16) {
    g == GainTwoThirds || g == GainOne || g == GainTwo ||
    g == GainFour || g == GainEight || g == GainSixteen
  }
  type AdsGain = g: bv16 | IsGain(g)

  /** The gain constants kept for compatibility with the Adafruit ADS1x15 library. */
  const GAIN_TWOTHIRDS: bv16 := 0x0000
  const GAIN_ONE: bv16 := 0x0200
  const GAIN_TWO: bv16 := 0x0400
  const GAIN_FOUR: bv16 := 0x0600
  const GAIN_EIGHT: bv16 := 0x0800
  const GAIN_SIXTEEN: bv16 := 0x0A00

  // ---------------------------------------------------------------------------
  // Data rate in samples per second (bits 7:5)

  const Sps8: bv16 := 0x0
  const Sps16: bv16 := 0x1 << 5
  const Sps32: bv16 := 0x2 << 5
  const Sps64: bv16 := 0x3 << 5
  const Sps128: bv16 := 0x4 << 5
  const Sps250: bv16 := 0x5 << 5
  const Sps475: bv16 := 0x6 << 5
  const Sps860: bv16 := 0x7 << 5

  predicate IsSampleSpeed(s: bv16) {
    s == Sps8 || s == Sps16 || s == Sps32 || s == Sps64 ||
    s == Sps128 || s == Sps250 || s == Sps475 || s == Sps860
  }
  type AdsSampleSpeed = s: bv16 | IsSampleSpeed(s)

  // ---------------------------------------------------------------------------
  // Comparator settings (bits 4:0)

  const TraditionalComparator: bv16 := 0x0
  const WindowComparator: bv16 := 0x1 << 4
  predicate IsComparatorMode(m: bv16) { m == TraditionalComparator || m == WindowComparator }
  type ComparatorModeConfig = m: bv16 | IsComparatorMode(m)

  const ActiveLow: bv16 := 0x0
  const ActiveHigh: bv16 := 0x1 << 3
  predicate IsComparatorPolarity(p: bv16) { p == ActiveLow || p == ActiveHigh }
  type ComparatorPolarityConfig = p: bv16 | IsComparatorPolarity(p)

  const NonLatching: bv16 := 0x0
  const Latching: bv16 := 0x1 << 2
  predicate IsComparatorLatching(l: bv16) { l == NonLatching || l == Latching }
  type ComparatorLatchingConfig = l: bv16 | IsComparatorLatching(l)

  const AssertAfterOne: bv16 := 0x0
  const AssertAfterTwo: bv16 := 0x1
  const AssertAfterFour: bv16 := 0x2
  const DisableAndSetHighImpedance: bv16 := 0x3
  predicate IsComparatorAssert(q: bv16) {
    q == AssertAfterOne || q == AssertAfterTwo || q == AssertAfterFour || q == DisableAndSetHighImpedance
  }
  type ComparatorAssertConfig = q: bv16 | IsComparatorAssert(q)

  // ---------------------------------------------------------------------------
  // Input multiplexer (bits 14:12)

  const MuxDifferential01: bv16 := 0x0
  const MuxDifferential03: bv16 := 0x1 << 12
  const MuxDifferential13: bv16 := 0x2 << 12
  const MuxDifferential23: bv16 := 0x3 << 12
  const MuxChannel0: bv16 := 0x4 << 12
  const MuxChannel1: bv16 := 0x5 << 12
  const MuxChannel2: bv16 := 0x6 << 12
  const MuxChannel3: bv16 := 0x7 << 12

  predicate IsDifferentialMux(m: bv16) {
    m == MuxDifferential01 || m == MuxDifferential03 || m == MuxDifferential13 || m == MuxDifferential23
  }
  predicate IsSingleEndedMux(m: bv16) {
    m == MuxChannel0 || m == MuxChannel1 || m == MuxChannel2 || m == MuxChannel3
  }
  predicate IsMux(m: bv16) { IsDifferentialMux(m) || IsSingleEndedMux(m) }
  type MuxConfig = m: bv16 | IsMux(m)

  // ---------------------------------------------------------------------------
  // Private settings of the driver class: OS bit (15) and operating mode (bit 8)

  const OsNoEffect: bv16 := 0x0                        // when written
  const OsPerformingConversion: bv16 := 0x0            // when read
  const OsStartSingleConversion: bv16 := 0x1 << 15     // when written
  const OsNotPerformingConversion: bv16 := 0x1 << 15   // when read
  predicate IsOs(o: bv16) { o == OsNoEffect || o == OsStartSingleConversion }
  type OsConfig = o: bv16 | IsOs(o)

  const ContinuousConversion: bv16 := 0x0
  const SingleShotConversion: bv16 := 0x1 << 8
  predicate IsAdsMode(m: bv16) { m == ContinuousConversion || m == SingleShotConversion }
  type AdsModeConfig = m: bv16 | IsAdsMode(m)

  // ---------------------------------------------------------------------------
  // Register pointers

  const ConversionRegister: bv8 := 0x0
  const ConfigRegister: bv8 := 0x1
  const LowThresholdRegister: bv8 := 0x2
  const HighThresholdRegister: bv8 := 0x3

  // ---------------------------------------------------------------------------
  // Facts about the tables

  /** The four strap settings give four different bus addresses, each in
      0x48 to 0x4B (so each fits the 7-bit address space). */
  lemma AddressesAreDistinctSevenBit(a: AdsAddress)
    ensures |{AddressGnd, AddressVcc, AddressSda, AddressScl}| == 4
    ensures 0x48 <= a <= 0x4B
  {
    assert IsAddress(a);
  }

  /** The default threshold difference is five raw codes. */
  lemma DefaultLowThresholdDiffIsFive()
    ensures DefaultLowThresholdDiff as int == 5
  {
  }

  /** Every gain is k << 9 for some k in 0..5, so it lies inside bits 11:9. */
  lemma GainIsShiftedIndex(g: AdsGain)
    ensures g >> 9 <= 5 && (g >> 9) << 9 == g
    ensures g & !GainMask == 0
  {
    assert IsGain(g);
  }

  /** The compatibility gain constants are the same words as the gain enumeration. */
  lemma CompatibilityGainsAgree()
    ensures GAIN_TWOTHIRDS == GainTwoThirds && GAIN_ONE == GainOne && GAIN_TWO == GainTwo
    ensures GAIN_FOUR == GainFour && GAIN_EIGHT == GainEight && GAIN_SIXTEEN == GainSixteen
  {
  }

  /** The eight data rates are k << 5 for k in 0..7: they lie inside bits 7:5,
      and every bit pattern of that range is exactly one of them. */
  lemma SampleSpeedFillsField(w: bv16)
    ensures IsSampleSpeed(w) <==> w & !SampleSpeedMask == 0
    ensures IsSampleSpeed(w) ==> (w >> 5) << 5 == w
  {
  }

  /** The eight multiplexer settings fill bits 14:12: differential pairs are
      0..3 << 12 and single channels 4..7 << 12. */
  lemma MuxFillsField(w: bv16)
    ensures IsMux(w) <==> w & !MuxMask == 0
    ensures IsDifferentialMux(w) <==> IsMux(w) && w >> 12 <= 3
    ensures IsSingleEndedMux(w) <==> IsMux(w) && 4 <= w >> 12
  {
  }

  /** Each comparator setting occupies only its own bits; the queue field uses
      all four patterns of bits 1:0, with 3 meaning "disabled". */
  lemma ComparatorSettingsInTheirBits(w: bv16)
    ensures IsComparatorMode(w) <==> w & !ComparatorModeMask == 0
    ensures IsComparatorPolarity(w) <==> w & !ComparatorPolarityMask == 0
    ensures IsComparatorLatching(w) <==> w & !ComparatorLatchingMask == 0
    ensures IsComparatorAssert(w) <==> w & !ComparatorAssertMask == 0
    ensures DisableAndSetHighImpedance == 3
  {
  }

  /** Starting a single conversion is bit 15; single-shot mode is bit 8 set,
      continuous mode bit 8 clear. */
  lemma OsAndModeBits(w: bv16)
    ensures IsOs(w) <==> w & !OsMask == 0
    ensures IsAdsMode(w) <==> w & !AdsModeMask == 0
    ensures OsStartSingleConversion == OsMask && SingleShotConversion == AdsModeMask
  {
  }

  /** The nine field masks, from bit 0 upwards. */
  const FieldMasks: seq<bv16> := [ComparatorAssertMask, ComparatorLatchingMask, ComparatorPolarityMask,
                                  ComparatorModeMask, SampleSpeedMask, AdsModeMask, GainMask, MuxMask, OsMask]

  /** The nine masks are pairwise disjoint and together cover the whole word. */
  lemma MasksPartitionWord()
    ensures |FieldMasks| == 9
    ensures forall i, j :: 0 <= i < j < |FieldMasks| ==> FieldMasks[i] & FieldMasks[j] == 0
    ensures ComparatorAssertMask | ComparatorLatchingMask | ComparatorPolarityMask | ComparatorModeMask |
            SampleSpeedMask | AdsModeMask | GainMask | MuxMask | OsMask == 0xFFFF
  {
  }
}

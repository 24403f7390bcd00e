/** The configuration-register codec of the driver: packing the nine settings
    into the 16-bit configuration word, and the small tables around it (the
    settling delay of each data rate, the multiplexer setting of each single
    channel, the derived low threshold and the millivolts per raw code). */
module AdsCodec {
  import opened AdsConstants

  datatype Option<T> = None | Some(value: T)

  /** The nine settings that make up the configuration word, each holding one
      of the values of its enumeration. */
  datatype ConfigFields = ConfigFields(
    comparatorAssertConfig: ComparatorAssertConfig,
    comparatorLatching: ComparatorLatchingConfig,
    comparatorPolarity: ComparatorPolarityConfig,
    comparatorMode: ComparatorModeConfig,
    sampleSpeed: AdsSampleSpeed,
    adsMode: AdsModeConfig,
    gain: AdsGain,
    muxConfig: MuxConfig,
    osConfig: OsConfig)

  /** Every setting of a ConfigFields lies inside its own mask. */
  lemma FieldsInTheirMasks(f: ConfigFields)
    ensures f.comparatorAssertConfig & !ComparatorAssertMask == 0
    ensures f.comparatorLatching & !ComparatorLatchingMask == 0
    ensures f.comparatorPolarity & !ComparatorPolarityMask == 0
    ensures f.comparatorMode & !ComparatorModeMask == 0
    ensures f.sampleSpeed & !SampleSpeedMask == 0
    ensures f.adsMode & !AdsModeMask == 0
    ensures f.gain & !GainMask == 0
    ensures f.muxConfig & !MuxMask == 0
    ensures f.osConfig & !OsMask == 0
  {
    assert IsComparatorAssert(f.comparatorAssertConfig);
    assert IsComparatorLatching(f.comparatorLatching);
    assert IsComparatorPolarity(f.comparatorPolarity);
    assert IsComparatorMode(f.comparatorMode);
    assert IsSampleSpeed(f.sampleSpeed);
    assert IsAdsMode(f.adsMode);
    assert IsGain(f.gain);
    assert IsMux(f.muxConfig);
    assert IsOs(f.osConfig);
  }

  /** The configuration word: the bitwise OR of the nine settings. Masking the
      word with a setting's mask gives back exactly that setting. */
  function BuildConfigRegister(f: ConfigFields): (w: bv16)
    ensures w & ComparatorAssertMask == f.comparatorAssertConfig
    ensures w & ComparatorLatchingMask == f.comparatorLatching
    ensures w & ComparatorPolarityMask == f.comparatorPolarity
    ensures w & ComparatorModeMask == f.comparatorMode
    ensures w & SampleSpeedMask == f.sampleSpeed
    ensures w & AdsModeMask == f.adsMode
    ensures w & GainMask == f.gain
    ensures w & MuxMask == f.muxConfig
    ensures w & OsMask == f.osConfig
  {
    FieldsInTheirMasks(f);
    f.comparatorAssertConfig |
    f.comparatorLatching |
    f.comparatorPolarity |
    f.comparatorMode |
    f.sampleSpeed |
    f.adsMode |
    f.gain |
    f.muxConfig |
    f.osConfig
  }

  /** Reads the nine settings back out of a configuration word. Every bit
      pattern of every field but the gain names a setting; the gain field has
      two patterns (6 and 7) that name none, and only those words fail. */
  function DecodeConfigRegister(w: bv16): (r: Option<ConfigFields>)
    ensures r.Some? <==> IsGain(w & GainMask)
  {
    if IsGain(w & GainMask) then
      MaskedFieldsAreSettings(w);
      Some(ConfigFields(
        w & ComparatorAssertMask, w & ComparatorLatchingMask, w & ComparatorPolarityMask,
        w & ComparatorModeMask, w & SampleSpeedMask, w & AdsModeMask,
        w & GainMask, w & MuxMask, w & OsMask))
    else
      None
  }

  /** A configuration made of the masked parts of a word encodes to that word. */
  lemma BuildIsMaskedParts(w: bv16, f: ConfigFields)
    requires f.comparatorAssertConfig == w & ComparatorAssertMask && f.comparatorLatching == w & ComparatorLatchingMask
    requires f.comparatorPolarity == w & ComparatorPolarityMask && f.comparatorMode == w & ComparatorModeMask
    requires f.sampleSpeed == w & SampleSpeedMask && f.adsMode == w & AdsModeMask && f.gain == w & GainMask
    requires f.muxConfig == w & MuxMask && f.osConfig == w & OsMask
    ensures BuildConfigRegister(f) == w
  {
    MaskedFieldsReassemble(w);
  }

  /** Every field of any word other than the gain names one of its settings. */
  lemma MaskedFieldsAreSettings(w: bv16)
    ensures IsComparatorAssert(w & ComparatorAssertMask)
    ensures IsComparatorLatching(w & ComparatorLatchingMask)
    ensures IsComparatorPolarity(w & ComparatorPolarityMask)
    ensures IsComparatorMode(w & ComparatorModeMask)
    ensures IsSampleSpeed(w & SampleSpeedMask)
    ensures IsAdsMode(w & AdsModeMask)
    ensures IsMux(w & MuxMask)
    ensures IsOs(w & OsMask)
  {
    SampleSpeedFillsField(w & SampleSpeedMask);
    MuxFillsField(w & MuxMask);
    ComparatorSettingsInTheirBits(w & ComparatorAssertMask);
    ComparatorSettingsInTheirBits(w & ComparatorLatchingMask);
    ComparatorSettingsInTheirBits(w & ComparatorPolarityMask);
    ComparatorSettingsInTheirBits(w & ComparatorModeMask);
    OsAndModeBits(w & AdsModeMask);
    OsAndModeBits(w & OsMask);
  }

  /** The nine masked parts of a word OR back to the word. */
  lemma MaskedFieldsReassemble(w: bv16)
    ensures (w & ComparatorAssertMask) | (w & ComparatorLatchingMask) | (w & ComparatorPolarityMask) |
            (w & ComparatorModeMask) | (w & SampleSpeedMask) | (w & AdsModeMask) |
            (w & GainMask) | (w & MuxMask) | (w & OsMask) == w
  {
  }

  /** Every word that decodes is the encoding of what it decodes to. */
  lemma BuildDecode(w: bv16)
    ensures DecodeConfigRegister(w).Some? ==> BuildConfigRegister(DecodeConfigRegister(w).value) == w
  {
    if DecodeConfigRegister(w).Some? {
      BuildIsMaskedParts(w, DecodeConfigRegister(w).value);
    }
  }

  /** Decoding an encoded configuration gives back the settings. */
  lemma DecodeBuild(f: ConfigFields)
    ensures DecodeConfigRegister(BuildConfigRegister(f)) == Some(f)
  {
  }

  /** The packing is one-to-one: two configurations have the same word exactly
      when they are the same. */
  lemma BuildInjective(f: ConfigFields, g: ConfigFields)
    ensures BuildConfigRegister(f) == BuildConfigRegister(g) <==> f == g
  {
  }

  /** The settings a newly constructed driver holds: the comparator disabled,
      non-latching, active low and traditional; single-shot mode; channel 0;
      and the start-conversion bit. */
  function ConstructorFields(gain: AdsGain, dataRate: AdsSampleSpeed): (f: ConfigFields) {
    ConfigFields(DisableAndSetHighImpedance, NonLatching, ActiveLow, TraditionalComparator,
                 dataRate, SingleShotConversion, gain, MuxChannel0, OsStartSingleConversion)
  }

  /** The word of a newly constructed driver is 0xC103 with the gain and the
      data rate ORed in; with the default gain (2/3) and rate (64 SPS) it is 0xC163. */
  lemma ConstructorWord(gain: AdsGain, dataRate: AdsSampleSpeed)
    ensures BuildConfigRegister(ConstructorFields(gain, dataRate)) == 0xC103 | gain | dataRate
    ensures BuildConfigRegister(ConstructorFields(GainTwoThirds, Sps64)) == 0xC163
  {
  }

  // ---------------------------------------------------------------------------
  // Settling delay of a single-shot reading

  /** The delay in milliseconds before a single-shot result is read; a word
      that is not a data rate gets the longest delay. */
  function DelayForSampleSpeed(s: bv16): (ms: nat)
    ensures 3 <= ms <= 126
    ensures !IsSampleSpeed(s) ==> ms == 126
  {
    if s == Sps8 then 126
    else if s == Sps16 then 64
    else if s == Sps32 then 33
    else if s == Sps64 then 17
    else if s == Sps128 then 9
    else if s == Sps250 then 5
    else if s == Sps475 then 4
    else if s == Sps860 then 3
    else 126
  }

  /** The conversions per second that each data-rate setting names. */
  function SamplesPerSecond(s: AdsSampleSpeed): (sps: nat) {
    if s == Sps8 then 8
    else if s == Sps16 then 16
    else if s == Sps32 then 32
    else if s == Sps64 then 64
    else if s == Sps128 then 128
    else if s == Sps250 then 250
    else if s == Sps475 then 475
    else 860
  }

  /** The delay always outlasts one conversion period at the configured rate. */
  lemma DelayOutlastsConversion(s: AdsSampleSpeed)
    ensures DelayForSampleSpeed(s) * SamplesPerSecond(s) > 1000
  {
    assert IsSampleSpeed(s);
  }

  /** A faster data rate never waits as long: the table strictly decreases. */
  lemma DelayStrictlyDecreasing(a: AdsSampleSpeed, b: AdsSampleSpeed)
    requires a < b
    ensures DelayForSampleSpeed(a) > DelayForSampleSpeed(b)
    ensures SamplesPerSecond(a) < SamplesPerSecond(b)
  {
    assert IsSampleSpeed(a) && IsSampleSpeed(b);
  }

  // ---------------------------------------------------------------------------
  // Multiplexer setting of a single channel

  /** The channel (0 to 3) that a single-ended multiplexer setting reads. */
  function SingleEndedChannel(m: bv16): (c: bv8)
    requires IsSingleEndedMux(m)
    ensures c <= 3
  {
    ((m >> 12) - 4) as bv8
  }

  /** The multiplexer setting reading `channel` against ground; any channel
      above 3 falls back to channel 0. */
  function MuxConfigOfSingleChannel(channel: bv8): (m: MuxConfig)
    ensures IsSingleEndedMux(m)
    ensures channel <= 3 ==> SingleEndedChannel(m) == channel
    ensures channel > 3 ==> m == MuxChannel0
  {
    if channel == 0 then MuxChannel0
    else if channel == 1 then MuxChannel1
    else if channel == 2 then MuxChannel2
    else if channel == 3 then MuxChannel3
    else MuxChannel0
  }

  /** Every single-ended setting is the one of its own channel. */
  lemma SingleEndedRoundTrip(m: bv16)
    requires IsSingleEndedMux(m)
    ensures MuxConfigOfSingleChannel(SingleEndedChannel(m)) == m
  {
  }

  /** Each differential pair sits below the single-channel settings. */
  lemma DifferentialBelowSingleEnded(d: MuxConfig, c: bv8)
    requires IsDifferentialMux(d)
    ensures d < MuxConfigOfSingleChannel(c)
  {
  }

  // ---------------------------------------------------------------------------
  // Derived low threshold

  /** The low threshold used when only the high one is given: five codes
      below it, but never below zero. */
  function DefaultLowThreshold(high: bv16): (low: bv16)
    ensures low <= high
    ensures high > DefaultLowThresholdDiff ==> low + DefaultLowThresholdDiff == high
    ensures high <= DefaultLowThresholdDiff ==> low == 0
  {
    if high > DefaultLowThresholdDiff then high - DefaultLowThresholdDiff else 0
  }

  // ---------------------------------------------------------------------------
  // Millivolts per raw code

  /** The full-scale range in millivolts documented for each gain. */
  function FullScaleMillivolts(g: AdsGain): (mv: real) {
    if g == GainTwoThirds then 6144.0
    else if g == GainOne then 4096.0
    else if g == GainTwo then 2048.0
    else if g == GainFour then 1024.0
    else if g == GainEight then 512.0
    else 256.0
  }

  /** The scale table as the driver writes it, including 0.03215 for gain four. */
  function MillivoltsPerRawValueAsWritten(g: bv16): (mv: real)
    ensures !IsGain(g) ==> mv == 0.0
  {
    if g == GainTwoThirds then 0.1875
    else if g == GainOne then 0.125
    else if g == GainTwo then 0.0625
    else if g == GainFour then 0.03215
    else if g == GainEight then 0.015625
    else if g == GainSixteen then 0.0078125
    else 0.0
  }

  /** As written, gain four does not give its documented 1024 mV full scale
      over the 32768 positive codes. */
  lemma AsWrittenGainFourScaleIsWrong()
    ensures MillivoltsPerRawValueAsWritten(GainFour) * 32768.0 != FullScaleMillivolts(GainFour)
    ensures MillivoltsPerRawValueAsWritten(GainFour) * 32768.0 == 1053.4912
  {
  }

  /** The scale table with gain four corrected to 0.03125 mV: every gain's scale
      times the 32768 positive codes is its full-scale range, and a word that
      is not a gain scales to 0. */
  function MillivoltsPerRawValue(g: bv16): (mv: real)
    ensures IsGain(g) ==> mv * 32768.0 == FullScaleMillivolts(g)
    ensures !IsGain(g) ==> mv == 0.0
  {
    if g == GainTwoThirds then 0.1875
    else if g == GainOne then 0.125
    else if g == GainTwo then 0.0625
    else if g == GainFour then 0.03125
    else if g == GainEight then 0.015625
    else if g == GainSixteen then 0.0078125
    else 0.0
  }

  /** The correction changes gain four only. */
  lemma ScaleCorrectionOnlyGainFour(g: bv16)
    ensures g != GainFour ==> MillivoltsPerRawValue(g) == MillivoltsPerRawValueAsWritten(g)
  {
  }
}

/** Bus traffic of a few whole sequences on a newly constructed session, as
    its callers can work it out from the session's contracts alone. */
module AdsScenarios {
  import opened AdsConstants
  import opened AdsCodec
  import opened AdsSession

  /** A default session (address 0x48, gain 2/3, 64 SPS) reading channel 0:
      the word 0xC163, a wait of 17 ms, then one read of the conversion
      register, whose contents are returned. */
  method DefaultSessionReadsChannelZero(reply: bv16) returns (ads: Ads1115Plus, code: bv16)
    ensures code == reply
    ensures ads.trace == [Write(AddressGnd, ConfigRegister, 0xC163), Delay(17), Read(AddressGnd, ConversionRegister)]
  {
    ads := new Ads1115Plus();
    ConstructorWord(GainTwoThirds, Sps64);
    code := ads.ReadChannelRaw(0, reply);
  }

  /** Starting continuous conversion on a new session does not switch the
      operating mode: the word written, 0x8163, still has bit 8 (single-shot) set. */
  method ContinuousStartKeepsSingleShotMode() returns (ads: Ads1115Plus)
    ensures ads.trace == [Write(AddressGnd, ConfigRegister, 0x8163)]
    ensures ads.trace[0].value & AdsModeMask == SingleShotConversion
  {
    ads := new Ads1115Plus();
    ads.StartContinousConversionMode01();
  }

  /** After a comparator start with high threshold 3 (so the low threshold is
      clamped to 0), a single-shot reading of channel 1 writes a word, 0xD060,
      whose bit 8 is clear: the chip is left in continuous mode, with the
      thresholds of the comparator start still in place. */
  method ComparatorThenSingleShotRead(reply: bv16) returns (ads: Ads1115Plus, code: bv16)
    ensures code == reply
    ensures ads.trace == [Write(AddressGnd, HighThresholdRegister, 3), Write(AddressGnd, LowThresholdRegister, 0),
                          Write(AddressGnd, ConfigRegister, 0xC060),
                          Write(AddressGnd, ConfigRegister, 0xD060), Delay(17), Read(AddressGnd, ConversionRegister)]
    ensures ads.trace[3].value & AdsModeMask == ContinuousConversion
    ensures RegisterAfter(ads.trace, ConfigRegister) == Some(0xD060)
    ensures RegisterAfter(ads.trace, HighThresholdRegister) == Some(3)
    ensures RegisterAfter(ads.trace, LowThresholdRegister) == Some(0)
  {
    ads := new Ads1115Plus();
    ads.StartComparatorSingleEnded(0, 3);
    code := ads.ReadChannelRaw(1, reply);
  }

  /** A setter sends the configuration word only in continuous mode and only
      when asked to. */
  method SettersWriteThroughOnlyInContinuousMode() returns (ads: Ads1115Plus)
    ensures ads.trace == [Write(AddressGnd, HighThresholdRegister, 100), Write(AddressGnd, LowThresholdRegister, 95),
                          Write(AddressGnd, ConfigRegister, 0xC260), Write(AddressGnd, ConfigRegister, 0xC460)]
  {
    ads := new Ads1115Plus();
    ads.SetGain(GainOne);
    ads.StartComparatorSingleEnded(0, 100);
    ads.SetGain(GainFour, false);
    ads.SetGain(GainTwo);
  }
}

/** The device session: one driver object per ADS1115 chip. It keeps the nine
    configuration-register settings and the chip's address; setters change one
    setting, reads and mode starts set the multiplexer (and the comparator) and
    then run a fixed sequence of register writes, a delay and register reads.

    The bus is the ghost `trace` of the transactions the driver has issued.
    What the chip sends back is not known to the driver; each method that reads
    a register takes the register's contents as the parameter `reply`. */
module AdsSession {
  import opened AdsConstants
  import opened AdsCodec
  import opened BusFraming

  /** One bus transaction issued by the driver. */
  datatype BusEvent =
    | Write(addr: bv8, reg: bv8, value: bv16)  // register pointer, high byte, low byte
    | Read(addr: bv8, reg: bv8)                // register pointer, then two bytes requested
    | Delay(ms: nat)                           // a blocking wait

  /** Every transaction but a delay goes to `addr`. */
  predicate AddressedTo(e: BusEvent, addr: bv8) {
    e.Delay? || e.addr == addr
  }

  /** A write to the configuration register has the start-conversion bit set. */
  predicate ConfigWriteStartsConversion(e: BusEvent) {
    e.Write? && e.reg == ConfigRegister ==> e.value & OsMask == OsStartSingleConversion
  }

  /** Every transaction of `t` goes to `addr` and every configuration word in
      `t` has the start-conversion bit set. */
  predicate TraceFits(t: seq<BusEvent>, addr: bv8)
  {
    |t| == 0 ||
    (TraceFits(t[..|t| - 1], addr) && AddressedTo(t[|t| - 1], addr) && ConfigWriteStartsConversion(t[|t| - 1]))
  }

  /** `TraceFits` says the same of every transaction, one by one. */
  lemma {:induction false} TraceFitsEach(t: seq<BusEvent>, addr: bv8)
    ensures TraceFits(t, addr) <==>
            forall i :: 0 <= i < |t| ==> AddressedTo(t[i], addr) && ConfigWriteStartsConversion(t[i])
    decreases |t|
  {
    if |t| > 0 {
      var init := t[..|t| - 1];
      TraceFitsEach(init, addr);
      assert forall i :: 0 <= i < |init| ==> init[i] == t[i];
    }
  }

  /** One more transaction that fits keeps the trace fitting. */
  lemma TraceFitsAppend(t: seq<BusEvent>, e: BusEvent, addr: bv8)
    requires TraceFits(t, addr) && AddressedTo(e, addr) && ConfigWriteStartsConversion(e)
    ensures TraceFits(t + [e], addr)
  {
    assert (t + [e])[..|t|] == t;
  }

  /** What the chip's register `reg` holds after the transactions `t`, as far as
      the driver has set it: the value of the last write to `reg`, if any. */
  function RegisterAfter(t: seq<BusEvent>, reg: bv8): (v: Option<bv16>)
  {
    if |t| == 0 then None
    else if t[|t| - 1].Write? && t[|t| - 1].reg == reg then Some(t[|t| - 1].value)
    else RegisterAfter(t[..|t| - 1], reg)
  }

  /** Running `u` after `t` leaves `reg` as `u` sets it, or as `t` left it when
      `u` does not write it. */
  lemma {:induction false} RegisterAfterAppend(t: seq<BusEvent>, u: seq<BusEvent>, reg: bv8)
    ensures RegisterAfter(t + u, reg) ==
            if RegisterAfter(u, reg).Some? then RegisterAfter(u, reg) else RegisterAfter(t, reg)
    decreases |u|
  {
    if |u| == 0 {
      assert t + u == t;
    } else {
      var init := u[..|u| - 1];
      assert (t + u)[..|t + u| - 1] == t + init;
      assert (t + u)[|t + u| - 1] == u[|u| - 1];
      RegisterAfterAppend(t, init, reg);
    }
  }

  /** A transaction other than a write to `reg` leaves `reg` as it was. */
  lemma RegisterAfterOther(t: seq<BusEvent>, e: BusEvent, reg: bv8)
    requires !(e.Write? && e.reg == reg)
    ensures RegisterAfter(t + [e], reg) == RegisterAfter(t, reg)
  {
    RegisterAfterAppend(t, [e], reg);
  }

  /** The three writes of a comparator start leave the high threshold, the low
      threshold and the configuration word in their registers. */
  lemma ComparatorStartRegisters(t: seq<BusEvent>, addr: bv8, high: bv16, low: bv16, word: bv16)
    ensures var t' := t + [Write(addr, HighThresholdRegister, high), Write(addr, LowThresholdRegister, low)]
                        + [Write(addr, ConfigRegister, word)];
            RegisterAfter(t', HighThresholdRegister) == Some(high) &&
            RegisterAfter(t', LowThresholdRegister) == Some(low) &&
            RegisterAfter(t', ConfigRegister) == Some(word)
  {
    var wh, wl, wc := Write(addr, HighThresholdRegister, high), Write(addr, LowThresholdRegister, low),
                      Write(addr, ConfigRegister, word);
    var u := [wh, wl, wc];
    assert t + [wh, wl] + [wc] == t + u;
    assert u == [wh, wl] + [wc] && [wh, wl] == [wh] + [wl];
    RegisterAfterOther([wh], wl, HighThresholdRegister);
    RegisterAfterOther([wh, wl], wc, HighThresholdRegister);
    RegisterAfterOther([wh, wl], wc, LowThresholdRegister);
    RegisterAfterAppend(t, u, HighThresholdRegister);
    RegisterAfterAppend(t, u, LowThresholdRegister);
    RegisterAfterAppend(t, u, ConfigRegister);
  }

  /** `t'` leaves every register as `t` left it. */
  ghost predicate RegistersUnchanged(t: seq<BusEvent>, t': seq<BusEvent>) {
    forall r :: RegisterAfter(t', r) == RegisterAfter(t, r)
  }

  /** `t'` leaves every register but `reg` as `t` left it. */
  ghost predicate OthersUnchanged(t: seq<BusEvent>, t': seq<BusEvent>, reg: bv8) {
    forall r :: r != reg ==> RegisterAfter(t', r) == RegisterAfter(t, r)
  }

  class Ads1115Plus {
    var address: AdsAddress
    var gain: AdsGain
    var sampleSpeed: AdsSampleSpeed
    var osConfig: OsConfig
    var muxConfig: MuxConfig
    var adsMode: AdsModeConfig
    var comparatorMode: ComparatorModeConfig
    var comparatorPolarity: ComparatorPolarityConfig
    var comparatorLatching: ComparatorLatchingConfig
    var comparatorAssertConfig: ComparatorAssertConfig

    /** The bus transactions issued so far, oldest first. */
    ghost var trace: seq<BusEvent>

    /** The start-conversion bit is set once, in the constructor, so it is in
        every configuration word; and all traffic goes to this chip. */
    ghost predicate Valid()
      reads this
    {
      osConfig == OsStartSingleConversion && TraceFits(trace, address)
    }

    /** The nine settings as a value. */
    function Fields(): (f: ConfigFields)
      reads this`comparatorAssertConfig, this`comparatorLatching, this`comparatorPolarity, this`comparatorMode,
            this`sampleSpeed, this`adsMode, this`gain, this`muxConfig, this`osConfig
    {
      ConfigFields(comparatorAssertConfig, comparatorLatching, comparatorPolarity, comparatorMode,
                   sampleSpeed, adsMode, gain, muxConfig, osConfig)
    }

    /** The configuration word of the current settings. In a valid session it
        always carries the start-conversion bit; `AdsCodec.DecodeBuild` reads
        the settings back out of it. */
    function BuildConfigRegister(): (w: bv16)
      reads this
      ensures Valid() ==> w & OsMask == OsStartSingleConversion
    {
      AdsCodec.BuildConfigRegister(Fields())
    }

    /** The delay in milliseconds of a single-shot reading at the current data rate. */
    function DelayForChannelReading(): (ms: nat)
      reads this
      ensures 3 <= ms <= 126 && ms * SamplesPerSecond(sampleSpeed) > 1000
    {
      DelayOutlastsConversion(sampleSpeed);
      DelayForSampleSpeed(sampleSpeed)
    }

    /** The transaction that writes the current configuration word. */
    ghost function ConfigWrite(): BusEvent
      reads this
    {
      Write(address, ConfigRegister, BuildConfigRegister())
    }

    /** What a setter sends: the configuration word, but only when asked to
        and only in continuous mode. */
    ghost function WriteThrough(updateConfig: bool): seq<BusEvent>
      reads this
    {
      if updateConfig && adsMode == ContinuousConversion then [ConfigWrite()] else []
    }

    /** The three transactions of a single-shot reading. */
    ghost function SingleShotEvents(): seq<BusEvent>
      reads this
    {
      [ConfigWrite(), Delay(DelayForChannelReading()), Read(address, ConversionRegister)]
    }

    /** The chip's configuration register holds the word of the current settings. */
    ghost predicate ChipInSync()
      reads this
    {
      RegisterAfter(trace, ConfigRegister) == Some(BuildConfigRegister())
    }

    /** When the chip is in sync, its configuration register decodes to exactly
        the session's settings. */
    lemma ChipHoldsSettings()
      requires ChipInSync()
      ensures RegisterAfter(trace, ConfigRegister).Some?
      ensures DecodeConfigRegister(RegisterAfter(trace, ConfigRegister).value) == Some(Fields())
    {
      DecodeBuild(Fields());
    }

    constructor (address: AdsAddress := AddressGnd, gain: AdsGain := GainTwoThirds,
                 dataRate: AdsSampleSpeed := Sps64)
      ensures Valid()
      ensures this.address == address && Fields() == ConstructorFields(gain, dataRate)
      ensures trace == []
    {
      this.address := address;
      this.gain := gain;
      this.sampleSpeed := dataRate;
      comparatorAssertConfig := DisableAndSetHighImpedance;
      comparatorLatching := NonLatching;
      comparatorPolarity := ActiveLow;
      comparatorMode := TraditionalComparator;
      adsMode := SingleShotConversion;
      muxConfig := MuxChannel0;
      osConfig := OsStartSingleConversion;
      trace := [];
    }

    // -------------------------------------------------------------------------
    // Register transfers

    /** Sends the pointer `reg`, then bits 15:8 and bits 7:0 of `value`; the
        chip's register receives `value`. */
    method WriteToAds(i2cAddress: bv8, reg: bv8, value: bv16)
      modifies this`trace
      ensures trace == old(trace) + [Write(i2cAddress, reg, value)]
      ensures RegisterAfter(trace, reg) == Some(value) && OthersUnchanged(old(trace), trace, reg)
    {
      var frame := WriteFrame(reg, value);
      trace := trace + [Write(i2cAddress, frame[0], JoinBytes(frame[1], frame[2]))];
      forall r | r != reg
        ensures RegisterAfter(trace, r) == RegisterAfter(old(trace), r)
      {
        RegisterAfterOther(old(trace), Write(i2cAddress, reg, value), r);
      }
    }

    /** Selects the register `reg` and receives two bytes, `hi` first and `lo`
        second; the first byte becomes bits 15:8 of the result. */
    method ReadFromAds(i2cAddress: bv8, reg: bv8, hi: bv8, lo: bv8) returns (value: bv16)
      modifies this`trace
      ensures trace == old(trace) + [Read(i2cAddress, reg)]
      ensures RegistersUnchanged(old(trace), trace)
      ensures HighByte(value) == hi && LowByte(value) == lo
    {
      trace := trace + [Read(i2cAddress, reg)];
      forall r
        ensures RegisterAfter(trace, r) == RegisterAfter(old(trace), r)
      {
        RegisterAfterOther(old(trace), Read(i2cAddress, reg), r);
      }
      value := JoinBytes(hi, lo);
      SplitJoin(hi, lo);
    }

    /** Writes the current configuration word to the configuration register. */
    method WriteCurrentConfig()
      requires Valid()
      modifies this`trace
      ensures Valid()
      ensures trace == old(trace) + [ConfigWrite()]
      ensures ChipInSync() && OthersUnchanged(old(trace), trace, ConfigRegister)
    {
      var configRegister := BuildConfigRegister();
      WriteToAds(address, ConfigRegister, configRegister);
    }

    /** The blocking wait, recorded as a transaction. */
    method DelayMs(ms: nat)
      requires Valid()
      modifies this`trace
      ensures Valid()
      ensures trace == old(trace) + [Delay(ms)]
      ensures RegistersUnchanged(old(trace), trace)
    {
      trace := trace + [Delay(ms)];
      forall r
        ensures RegisterAfter(trace, r) == RegisterAfter(old(trace), r)
      {
        RegisterAfterOther(old(trace), Delay(ms), r);
      }
    }

    // -------------------------------------------------------------------------
    // Getters and setters

    /** Each getter returns the setting the configuration word carries in its bits. */
    function GetGain(): (g: AdsGain)
      reads this
      ensures g == gain && BuildConfigRegister() & GainMask == g
    {
      gain
    }

    function GetSampleSpeed(): (s: AdsSampleSpeed)
      reads this
      ensures s == sampleSpeed && BuildConfigRegister() & SampleSpeedMask == s
    {
      sampleSpeed
    }

    function GetComparatorLatching(): (l: ComparatorLatchingConfig)
      reads this
      ensures l == comparatorLatching && BuildConfigRegister() & ComparatorLatchingMask == l
    {
      comparatorLatching
    }

    function GetComparatorMode(): (m: ComparatorModeConfig)
      reads this
      ensures m == comparatorMode && BuildConfigRegister() & ComparatorModeMask == m
    {
      comparatorMode
    }

    function GetComparatorPolarity(): (p: ComparatorPolarityConfig)
      reads this
      ensures p == comparatorPolarity && BuildConfigRegister() & ComparatorPolarityMask == p
    {
      comparatorPolarity
    }

    function GetComparatorAssert(): (q: ComparatorAssertConfig)
      reads this
      ensures q == comparatorAssertConfig && BuildConfigRegister() & ComparatorAssertMask == q
    {
      comparatorAssertConfig
    }

    method SetGain(gain: AdsGain, updateConfig: bool := true)
      requires Valid()
      modifies this`gain, this`trace
      ensures Valid()
      ensures Fields() == old(Fields()).(gain := gain) && GetGain() == gain
      ensures trace == old(trace) + WriteThrough(updateConfig)
      ensures updateConfig && adsMode == ContinuousConversion ==> ChipInSync()
    {
      this.gain := gain;
      if updateConfig && adsMode == ContinuousConversion {
        WriteCurrentConfig();
      }
    }

    method SetSampleSpeed(speed: AdsSampleSpeed, updateConfig: bool := true)
      requires Valid()
      modifies this`sampleSpeed, this`trace
      ensures Valid()
      ensures Fields() == old(Fields()).(sampleSpeed := speed) && GetSampleSpeed() == speed
      ensures trace == old(trace) + WriteThrough(updateConfig)
      ensures updateConfig && adsMode == ContinuousConversion ==> ChipInSync()
    {
      sampleSpeed := speed;
      if updateConfig && adsMode == ContinuousConversion {
        WriteCurrentConfig();
      }
    }

    method SetComparatorLatching(comparatorLatching: ComparatorLatchingConfig, updateConfig: bool := true)
      requires Valid()
      modifies this`comparatorLatching, this`trace
      ensures Valid()
      ensures Fields() == old(Fields()).(comparatorLatching := comparatorLatching)
      ensures GetComparatorLatching() == comparatorLatching
      ensures trace == old(trace) + WriteThrough(updateConfig)
      ensures updateConfig && adsMode == ContinuousConversion ==> ChipInSync()
    {
      this.comparatorLatching := comparatorLatching;
      if updateConfig && adsMode == ContinuousConversion {
        WriteCurrentConfig();
      }
    }

    method SetComparatorMode(comparatorMode: ComparatorModeConfig, updateConfig: bool := true)
      requires Valid()
      modifies this`comparatorMode, this`trace
      ensures Valid()
      ensures Fields() == old(Fields()).(comparatorMode := comparatorMode)
      ensures GetComparatorMode() == comparatorMode
      ensures trace == old(trace) + WriteThrough(updateConfig)
      ensures updateConfig && adsMode == ContinuousConversion ==> ChipInSync()
    {
      this.comparatorMode := comparatorMode;
      if updateConfig && adsMode == ContinuousConversion {
        WriteCurrentConfig();
      }
    }

    method SetComparatorPolarity(comparatorPolarity: ComparatorPolarityConfig, updateConfig: bool := true)
      requires Valid()
      modifies this`comparatorPolarity, this`trace
      ensures Valid()
      ensures Fields() == old(Fields()).(comparatorPolarity := comparatorPolarity)
      ensures GetComparatorPolarity() == comparatorPolarity
      ensures trace == old(trace) + WriteThrough(updateConfig)
      ensures updateConfig && adsMode == ContinuousConversion ==> ChipInSync()
    {
      this.comparatorPolarity := comparatorPolarity;
      if updateConfig && adsMode == ContinuousConversion {
        WriteCurrentConfig();
      }
    }

    method SetComparatorAssert(comparatorQueue: ComparatorAssertConfig, updateConfig: bool := true)
      requires Valid()
      modifies this`comparatorAssertConfig, this`trace
      ensures Valid()
      ensures Fields() == old(Fields()).(comparatorAssertConfig := comparatorQueue)
      ensures GetComparatorAssert() == comparatorQueue
      ensures trace == old(trace) + WriteThrough(updateConfig)
      ensures updateConfig && adsMode == ContinuousConversion ==> ChipInSync()
    {
      comparatorAssertConfig := comparatorQueue;
      if updateConfig && adsMode == ContinuousConversion {
        WriteCurrentConfig();
      }
    }

    // -------------------------------------------------------------------------
    // Single-shot readings

    /** Writes the configuration, waits the data rate's delay and reads the
        conversion register. The operating mode is left as it is. */
    method CurrentConfigSingleShotRead(reply: bv16) returns (code: bv16)
      requires Valid()
      modifies this`trace
      ensures Valid()
      ensures code == reply
      ensures trace == old(trace) + SingleShotEvents()
      ensures ChipInSync() && OthersUnchanged(old(trace), trace, ConfigRegister)
    {
      WriteCurrentConfig();
      var readingDelay := DelayForChannelReading();
      DelayMs(readingDelay);
      code := ReadFromAds(address, ConversionRegister, HighByte(reply), LowByte(reply));
      JoinSplit(reply);
    }

    /** Reads `channel` against ground; a channel above 3 gives 0 and touches
        neither the settings nor the bus. */
    method ReadAdcSingleEnded(channel: bv8, reply: bv16) returns (r: bv16)
      requires Valid()
      modifies this`muxConfig, this`trace
      ensures Valid()
      ensures channel > 3 ==> r == 0 && Fields() == old(Fields()) && trace == old(trace)
      ensures channel <= 3 ==> Fields() == old(Fields()).(muxConfig := MuxConfigOfSingleChannel(channel))
      ensures channel <= 3 ==> r == reply && SingleEndedChannel(muxConfig) == channel
      ensures channel <= 3 ==> trace == old(trace) + SingleShotEvents()
      ensures channel <= 3 ==> ChipInSync() && OthersUnchanged(old(trace), trace, ConfigRegister)
    {
      if channel > 3 {
        return 0;
      }
      muxConfig := MuxConfigOfSingleChannel(channel);
      r := CurrentConfigSingleShotRead(reply);
    }

    method ReadChannelRaw(channel: bv8, reply: bv16) returns (r: bv16)
      requires Valid()
      modifies this`muxConfig, this`trace
      ensures Valid()
      ensures channel > 3 ==> r == 0 && Fields() == old(Fields()) && trace == old(trace)
      ensures channel <= 3 ==> Fields() == old(Fields()).(muxConfig := MuxConfigOfSingleChannel(channel))
      ensures channel <= 3 ==> r == reply && SingleEndedChannel(muxConfig) == channel
      ensures channel <= 3 ==> trace == old(trace) + SingleShotEvents()
      ensures channel <= 3 ==> ChipInSync() && OthersUnchanged(old(trace), trace, ConfigRegister)
    {
      r := ReadAdcSingleEnded(channel, reply);
    }

    /** A single-shot reading on any multiplexer setting. */
    method ReadRawOnMux(mux: MuxConfig, reply: bv16) returns (code: bv16)
      requires Valid()
      modifies this`muxConfig, this`trace
      ensures Valid()
      ensures code == reply
      ensures Fields() == old(Fields()).(muxConfig := mux)
      ensures trace == old(trace) + SingleShotEvents()
      ensures ChipInSync() && OthersUnchanged(old(trace), trace, ConfigRegister)
    {
      muxConfig := mux;
      code := CurrentConfigSingleShotRead(reply);
    }

    method ReadDifferentialRaw01(reply: bv16) returns (code: bv16)
      requires Valid()
      modifies this`muxConfig, this`trace
      ensures Valid()
      ensures code == reply
      ensures Fields() == old(Fields()).(muxConfig := MuxDifferential01)
      ensures trace == old(trace) + SingleShotEvents()
      ensures ChipInSync() && OthersUnchanged(old(trace), trace, ConfigRegister)
    {
      muxConfig := MuxDifferential01;
      code := CurrentConfigSingleShotRead(reply);
    }

    method ReadDifferentialRaw03(reply: bv16) returns (code: bv16)
      requires Valid()
      modifies this`muxConfig, this`trace
      ensures Valid()
      ensures code == reply
      ensures Fields() == old(Fields()).(muxConfig := MuxDifferential03)
      ensures trace == old(trace) + SingleShotEvents()
      ensures ChipInSync() && OthersUnchanged(old(trace), trace, ConfigRegister)
    {
      muxConfig := MuxDifferential03;
      code := CurrentConfigSingleShotRead(reply);
    }

    method ReadDifferentialRaw13(reply: bv16) returns (code: bv16)
      requires Valid()
      modifies this`muxConfig, this`trace
      ensures Valid()
      ensures code == reply
      ensures Fields() == old(Fields()).(muxConfig := MuxDifferential13)
      ensures trace == old(trace) + SingleShotEvents()
      ensures ChipInSync() && OthersUnchanged(old(trace), trace, ConfigRegister)
    {
      muxConfig := MuxDifferential13;
      code := CurrentConfigSingleShotRead(reply);
    }

    method ReadDifferentialRaw23(reply: bv16) returns (code: bv16)
      requires Valid()
      modifies this`muxConfig, this`trace
      ensures Valid()
      ensures code == reply
      ensures Fields() == old(Fields()).(muxConfig := MuxDifferential23)
      ensures trace == old(trace) + SingleShotEvents()
      ensures ChipInSync() && OthersUnchanged(old(trace), trace, ConfigRegister)
    {
      muxConfig := MuxDifferential23;
      code := CurrentConfigSingleShotRead(reply);
    }

    // -------------------------------------------------------------------------
    // Comparator mode

    /** Sets the multiplexer and the four comparator settings, switches to
        continuous mode, then writes the high threshold, the low threshold and
        the configuration word, in that order. */
    method StartComparatorModeOnMux(mux: MuxConfig, highThreshold: bv16, lowThreshold: bv16,
                                    comparatorLatching: ComparatorLatchingConfig := NonLatching,
                                    comparatorMode: ComparatorModeConfig := TraditionalComparator,
                                    comparatorPolarity: ComparatorPolarityConfig := ActiveLow,
                                    comparatorQueue: ComparatorAssertConfig := AssertAfterOne)
      requires Valid()
      modifies this`muxConfig, this`comparatorAssertConfig, this`comparatorLatching,
               this`comparatorMode, this`comparatorPolarity, this`adsMode, this`trace
      ensures Valid()
      ensures Fields() == old(Fields()).(muxConfig := mux, comparatorAssertConfig := comparatorQueue,
                                         comparatorLatching := comparatorLatching, comparatorMode := comparatorMode,
                                         comparatorPolarity := comparatorPolarity, adsMode := ContinuousConversion)
      ensures trace == old(trace) + [Write(address, HighThresholdRegister, highThreshold),
                                     Write(address, LowThresholdRegister, lowThreshold)] + [ConfigWrite()]
      ensures ChipInSync()
      ensures RegisterAfter(trace, HighThresholdRegister) == Some(highThreshold)
      ensures RegisterAfter(trace, LowThresholdRegister) == Some(lowThreshold)
    {
      SetComparatorFields(mux, comparatorLatching, comparatorMode, comparatorPolarity, comparatorQueue);
      WriteThresholds(highThreshold, lowThreshold);
      WriteCurrentConfig();
      ComparatorStartRegisters(old(trace), address, highThreshold, lowThreshold, BuildConfigRegister());
    }

    /** The settings step of a comparator start: the multiplexer, the four
        comparator settings and continuous mode, with nothing sent. */
    method SetComparatorFields(mux: MuxConfig, comparatorLatching: ComparatorLatchingConfig,
                               comparatorMode: ComparatorModeConfig, comparatorPolarity: ComparatorPolarityConfig,
                               comparatorQueue: ComparatorAssertConfig)
      requires Valid()
      modifies this`muxConfig, this`comparatorAssertConfig, this`comparatorLatching,
               this`comparatorMode, this`comparatorPolarity, this`adsMode
      ensures Valid()
      ensures Fields() == old(Fields()).(muxConfig := mux, comparatorAssertConfig := comparatorQueue,
                                         comparatorLatching := comparatorLatching, comparatorMode := comparatorMode,
                                         comparatorPolarity := comparatorPolarity, adsMode := ContinuousConversion)
    {
      muxConfig := mux;
      comparatorAssertConfig := comparatorQueue;
      this.comparatorLatching := comparatorLatching;
      this.comparatorMode := comparatorMode;
      this.comparatorPolarity := comparatorPolarity;
      adsMode := ContinuousConversion;
    }

    /** The two threshold writes of a comparator start: the high threshold
        register first, then the low one. */
    method WriteThresholds(highThreshold: bv16, lowThreshold: bv16)
      requires Valid()
      modifies this`trace
      ensures Valid()
      ensures trace == old(trace) + [Write(address, HighThresholdRegister, highThreshold),
                                     Write(address, LowThresholdRegister, lowThreshold)]
    {
      WriteToAds(address, HighThresholdRegister, highThreshold);
      TraceFitsAppend(old(trace), Write(address, HighThresholdRegister, highThreshold), address);
      ghost var highSet := trace;
      WriteToAds(address, LowThresholdRegister, lowThreshold);
      TraceFitsAppend(highSet, Write(address, LowThresholdRegister, lowThreshold), address);
    }

    /** Comparator mode on a single channel (a channel above 3 means channel 0). */
    method StartComparatorMode(channel: bv8, highThreshold: bv16, lowThreshold: bv16,
                               comparatorLatching: ComparatorLatchingConfig := NonLatching,
                               comparatorMode: ComparatorModeConfig := TraditionalComparator,
                               comparatorPolarity: ComparatorPolarityConfig := ActiveLow,
                               comparatorQueue: ComparatorAssertConfig := AssertAfterOne)
      requires Valid()
      modifies this`muxConfig, this`comparatorAssertConfig, this`comparatorLatching,
               this`comparatorMode, this`comparatorPolarity, this`adsMode, this`trace
      ensures Valid()
      ensures Fields() == old(Fields()).(muxConfig := MuxConfigOfSingleChannel(channel),
                                         comparatorAssertConfig := comparatorQueue,
                                         comparatorLatching := comparatorLatching, comparatorMode := comparatorMode,
                                         comparatorPolarity := comparatorPolarity, adsMode := ContinuousConversion)
      ensures trace == old(trace) + [Write(address, HighThresholdRegister, highThreshold),
                                     Write(address, LowThresholdRegister, lowThreshold)] + [ConfigWrite()]
      ensures ChipInSync()
      ensures RegisterAfter(trace, HighThresholdRegister) == Some(highThreshold)
      ensures RegisterAfter(trace, LowThresholdRegister) == Some(lowThreshold)
    {
      var mux := MuxConfigOfSingleChannel(channel);
      StartComparatorModeOnMux(mux, highThreshold, lowThreshold, comparatorLatching, comparatorMode,
                               comparatorPolarity, comparatorQueue);
    }

    /** Comparator mode on a single channel with the low threshold derived from
        the high one. */
    method StartComparatorSingleEnded(channel: bv8, highThreshold: bv16,
                                      comparatorLatching: ComparatorLatchingConfig := NonLatching,
                                      comparatorMode: ComparatorModeConfig := TraditionalComparator,
                                      comparatorPolarity: ComparatorPolarityConfig := ActiveLow,
                                      comparatorQueue: ComparatorAssertConfig := AssertAfterOne)
      requires Valid()
      modifies this`muxConfig, this`comparatorAssertConfig, this`comparatorLatching,
               this`comparatorMode, this`comparatorPolarity, this`adsMode, this`trace
      ensures Valid()
      ensures Fields() == old(Fields()).(muxConfig := MuxConfigOfSingleChannel(channel),
                                         comparatorAssertConfig := comparatorQueue,
                                         comparatorLatching := comparatorLatching, comparatorMode := comparatorMode,
                                         comparatorPolarity := comparatorPolarity, adsMode := ContinuousConversion)
      ensures trace == old(trace) + [Write(address, HighThresholdRegister, highThreshold),
                                     Write(address, LowThresholdRegister, DefaultLowThreshold(highThreshold))]
                           + [ConfigWrite()]
      ensures ChipInSync()
      ensures RegisterAfter(trace, HighThresholdRegister) == Some(highThreshold)
      ensures RegisterAfter(trace, LowThresholdRegister) == Some(DefaultLowThreshold(highThreshold))
    {
      var lowThreshold := DefaultLowThreshold(highThreshold);
      StartComparatorMode(channel, highThreshold, lowThreshold, comparatorLatching, comparatorMode,
                          comparatorPolarity, comparatorQueue);
    }

    method StartComparatorMode01(highThreshold: bv16, lowThreshold: bv16,
                                 comparatorLatching: ComparatorLatchingConfig := NonLatching,
                                 comparatorMode: ComparatorModeConfig := TraditionalComparator,
                                 comparatorPolarity: ComparatorPolarityConfig := ActiveLow,
                                 comparatorQueue: ComparatorAssertConfig := AssertAfterOne)
      requires Valid()
      modifies this`muxConfig, this`comparatorAssertConfig, this`comparatorLatching,
               this`comparatorMode, this`comparatorPolarity, this`adsMode, this`trace
      ensures Valid()
      ensures Fields() == old(Fields()).(muxConfig := MuxDifferential01, comparatorAssertConfig := comparatorQueue,
                                         comparatorLatching := comparatorLatching, comparatorMode := comparatorMode,
                                         comparatorPolarity := comparatorPolarity, adsMode := ContinuousConversion)
      ensures trace == old(trace) + [Write(address, HighThresholdRegister, highThreshold),
                                     Write(address, LowThresholdRegister, lowThreshold)] + [ConfigWrite()]
      ensures ChipInSync()
      ensures RegisterAfter(trace, HighThresholdRegister) == Some(highThreshold)
      ensures RegisterAfter(trace, LowThresholdRegister) == Some(lowThreshold)
    {
      StartComparatorModeOnMux(MuxDifferential01, highThreshold, lowThreshold, comparatorLatching,
                               comparatorMode, comparatorPolarity, comparatorQueue);
    }

    method StartComparatorMode03(highThreshold: bv16, lowThreshold: bv16,
                                 comparatorLatching: ComparatorLatchingConfig := NonLatching,
                                 comparatorMode: ComparatorModeConfig := TraditionalComparator,
                                 comparatorPolarity: ComparatorPolarityConfig := ActiveLow,
                                 comparatorQueue: ComparatorAssertConfig := AssertAfterOne)
      requires Valid()
      modifies this`muxConfig, this`comparatorAssertConfig, this`comparatorLatching,
               this`comparatorMode, this`comparatorPolarity, this`adsMode, this`trace
      ensures Valid()
      ensures Fields() == old(Fields()).(muxConfig := MuxDifferential03, comparatorAssertConfig := comparatorQueue,
                                         comparatorLatching := comparatorLatching, comparatorMode := comparatorMode,
                                         comparatorPolarity := comparatorPolarity, adsMode := ContinuousConversion)
      ensures trace == old(trace) + [Write(address, HighThresholdRegister, highThreshold),
                                     Write(address, LowThresholdRegister, lowThreshold)] + [ConfigWrite()]
      ensures ChipInSync()
      ensures RegisterAfter(trace, HighThresholdRegister) == Some(highThreshold)
      ensures RegisterAfter(trace, LowThresholdRegister) == Some(lowThreshold)
    {
      StartComparatorModeOnMux(MuxDifferential03, highThreshold, lowThreshold, comparatorLatching,
                               comparatorMode, comparatorPolarity, comparatorQueue);
    }

    method StartComparatorMode13(highThreshold: bv16, lowThreshold: bv16,
                                 comparatorLatching: ComparatorLatchingConfig := NonLatching,
                                 comparatorMode: ComparatorModeConfig := TraditionalComparator,
                                 comparatorPolarity: ComparatorPolarityConfig := ActiveLow,
                                 comparatorQueue: ComparatorAssertConfig := AssertAfterOne)
      requires Valid()
      modifies this`muxConfig, this`comparatorAssertConfig, this`comparatorLatching,
               this`comparatorMode, this`comparatorPolarity, this`adsMode, this`trace
      ensures Valid()
      ensures Fields() == old(Fields()).(muxConfig := MuxDifferential13, comparatorAssertConfig := comparatorQueue,
                                         comparatorLatching := comparatorLatching, comparatorMode := comparatorMode,
                                         comparatorPolarity := comparatorPolarity, adsMode := ContinuousConversion)
      ensures trace == old(trace) + [Write(address, HighThresholdRegister, highThreshold),
                                     Write(address, LowThresholdRegister, lowThreshold)] + [ConfigWrite()]
      ensures ChipInSync()
      ensures RegisterAfter(trace, HighThresholdRegister) == Some(highThreshold)
      ensures RegisterAfter(trace, LowThresholdRegister) == Some(lowThreshold)
    {
      StartComparatorModeOnMux(MuxDifferential13, highThreshold, lowThreshold, comparatorLatching,
                               comparatorMode, comparatorPolarity, comparatorQueue);
    }

    method StartComparatorMode23(highThreshold: bv16, lowThreshold: bv16,
                                 comparatorLatching: ComparatorLatchingConfig := NonLatching,
                                 comparatorMode: ComparatorModeConfig := TraditionalComparator,
                                 comparatorPolarity: ComparatorPolarityConfig := ActiveLow,
                                 comparatorQueue: ComparatorAssertConfig := AssertAfterOne)
      requires Valid()
      modifies this`muxConfig, this`comparatorAssertConfig, this`comparatorLatching,
               this`comparatorMode, this`comparatorPolarity, this`adsMode, this`trace
      ensures Valid()
      ensures Fields() == old(Fields()).(muxConfig := MuxDifferential23, comparatorAssertConfig := comparatorQueue,
                                         comparatorLatching := comparatorLatching, comparatorMode := comparatorMode,
                                         comparatorPolarity := comparatorPolarity, adsMode := ContinuousConversion)
      ensures trace == old(trace) + [Write(address, HighThresholdRegister, highThreshold),
                                     Write(address, LowThresholdRegister, lowThreshold)] + [ConfigWrite()]
      ensures ChipInSync()
      ensures RegisterAfter(trace, HighThresholdRegister) == Some(highThreshold)
      ensures RegisterAfter(trace, LowThresholdRegister) == Some(lowThreshold)
    {
      StartComparatorModeOnMux(MuxDifferential23, highThreshold, lowThreshold, comparatorLatching,
                               comparatorMode, comparatorPolarity, comparatorQueue);
    }

    // -------------------------------------------------------------------------
    // Continuous conversion mode

    /** Sets the multiplexer, disables the comparator and writes the
        configuration word. The operating mode is left as it is. */
    method StartContinousConversionModeOnMux(mux: MuxConfig)
      requires Valid()
      modifies this`muxConfig, this`comparatorAssertConfig, this`trace
      ensures Valid()
      ensures Fields() == old(Fields()).(muxConfig := mux, comparatorAssertConfig := DisableAndSetHighImpedance)
      ensures trace == old(trace) + [ConfigWrite()]
      ensures ChipInSync() && OthersUnchanged(old(trace), trace, ConfigRegister)
    {
      muxConfig := mux;
      comparatorAssertConfig := DisableAndSetHighImpedance;
      WriteCurrentConfig();
    }

    method StartContinousConversionMode(channel: bv8)
      requires Valid()
      modifies this`muxConfig, this`comparatorAssertConfig, this`trace
      ensures Valid()
      ensures Fields() == old(Fields()).(muxConfig := MuxConfigOfSingleChannel(channel),
                                         comparatorAssertConfig := DisableAndSetHighImpedance)
      ensures trace == old(trace) + [ConfigWrite()]
      ensures ChipInSync() && OthersUnchanged(old(trace), trace, ConfigRegister)
    {
      var mux := MuxConfigOfSingleChannel(channel);
      StartContinousConversionModeOnMux(mux);
    }

    method StartContinousConversionMode01()
      requires Valid()
      modifies this`muxConfig, this`comparatorAssertConfig, this`trace
      ensures Valid()
      ensures Fields() == old(Fields()).(muxConfig := MuxDifferential01, comparatorAssertConfig := DisableAndSetHighImpedance)
      ensures trace == old(trace) + [ConfigWrite()]
      ensures ChipInSync() && OthersUnchanged(old(trace), trace, ConfigRegister)
    {
      StartContinousConversionModeOnMux(MuxDifferential01);
    }

    method StartContinousConversionMode03()
      requires Valid()
      modifies this`muxConfig, this`comparatorAssertConfig, this`trace
      ensures Valid()
      ensures Fields() == old(Fields()).(muxConfig := MuxDifferential03, comparatorAssertConfig := DisableAndSetHighImpedance)
      ensures trace == old(trace) + [ConfigWrite()]
      ensures ChipInSync() && OthersUnchanged(old(trace), trace, ConfigRegister)
    {
      StartContinousConversionModeOnMux(MuxDifferential03);
    }

    method StartContinousConversionMode13()
      requires Valid()
      modifies this`muxConfig, this`comparatorAssertConfig, this`trace
      ensures Valid()
      ensures Fields() == old(Fields()).(muxConfig := MuxDifferential13, comparatorAssertConfig := DisableAndSetHighImpedance)
      ensures trace == old(trace) + [ConfigWrite()]
      ensures ChipInSync() && OthersUnchanged(old(trace), trace, ConfigRegister)
    {
      StartContinousConversionModeOnMux(MuxDifferential13);
    }

    method StartContinousConversionMode23()
      requires Valid()
      modifies this`muxConfig, this`comparatorAssertConfig, this`trace
      ensures Valid()
      ensures Fields() == old(Fields()).(muxConfig := MuxDifferential23, comparatorAssertConfig := DisableAndSetHighImpedance)
      ensures trace == old(trace) + [ConfigWrite()]
      ensures ChipInSync() && OthersUnchanged(old(trace), trace, ConfigRegister)
    {
      StartContinousConversionModeOnMux(MuxDifferential23);
    }

    /** Reads the conversion register once, with no configuration write and no delay. */
    method GetLastConversionResults(reply: bv16) returns (code: bv16)
      requires Valid()
      modifies this`trace
      ensures Valid()
      ensures code == reply
      ensures trace == old(trace) + [Read(address, ConversionRegister)]
      ensures RegistersUnchanged(old(trace), trace)
    {
      code := ReadFromAds(address, ConversionRegister, HighByte(reply), LowByte(reply));
      JoinSplit(reply);
    }

    /** A latched alert is released by reading the conversion register. */
    method ClearComparatorLatch(reply: bv16)
      requires Valid()
      modifies this`trace
      ensures Valid()
      ensures trace == old(trace) + [Read(address, ConversionRegister)]
      ensures RegistersUnchanged(old(trace), trace)
    {
      var _ := GetLastConversionResults(reply);
    }
  }
}

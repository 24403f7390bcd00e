# ADS1115 driver: configuration-register codec and device session

This project models the core of the Ads1115Plus Arduino driver for the ADS1115
16-bit analog-to-digital converter, and proves properties of the model.

- **Chip constants** (`constants.dfy`, module `AdsConstants`). These are the
  header's enumerations: the four pin-strap addresses, and the gain, data-rate,
  multiplexer, comparator, operating-mode and start-conversion settings. Each
  setting is already shifted into its bit range of the configuration word. The
  file also holds the register pointers and the default low-threshold
  difference. A C++ `enum class X: uint16_t` has `uint16_t` as its underlying
  type, so a cast can give it any 16-bit value, not only a named one. The model
  gives each enumeration a subset type of `bv16` (or `bv8`) holding exactly its
  named constants, and uses these types where the driver's interface takes the
  enumeration. The codec functions over plain `bv16` words still model the
  code's fallbacks for other values (see "## Left out").
- **Register codec** (`codec.dfy`, module `AdsCodec`):
  - `BuildConfigRegister` ORs the nine settings into the configuration word.
  - `DecodeConfigRegister` reads the settings back out of a word.
  - It also holds the table of settling delays per data rate, the
    channel-to-multiplexer mapping with its fallback to channel 0, the derived
    low threshold (high − 5, clamped to 0), and the millivolts-per-code table.
- **Bus framing** (`framing.dfy`, module `BusFraming`):
  - A register write sends the pointer, then the high byte, then the low byte.
  - A register read joins the two received bytes as high then low.
  - `AsInt16` gives the signed meaning of a raw conversion word.
- **Device session** (`session.dfy`, module `AdsSession`). The class
  `Ads1115Plus` holds the chip address and the nine 16-bit setting fields, plus
  a ghost `trace` of bus transactions. A transaction is `Write(addr, reg,
  value)`, `Read(addr, reg)` or `Delay(ms)`. The chip's replies are not known to
  the driver, so every method that reads a register takes the register's
  contents as a parameter `reply`. The object invariant `Valid()` says two
  things:
  - the start-conversion bit is set (it is assigned only in the constructor),
    so every configuration word on the trace has bit 15 set;
  - every transaction goes to the session's own address.

  `RegisterAfter(trace, reg)` is what the chip's register `reg` holds after
  the trace: the last value written to it. `ChipInSync()` says that the
  configuration register holds the word of the session's current settings.
  Every single-shot reading of a channel 0 to 3, a differential pair or a
  multiplexer setting, and every comparator or continuous start, leaves the
  chip in sync. A single-ended reading of a channel above 3 sends nothing, and
  `getLastConversionResults` and `clearComparatorLatch` send no configuration
  write. A setter leaves the chip in sync only when it writes through, in
  continuous mode.
- **Scenarios** (`scenarios.dfy`, module `AdsScenarios`). These are whole call
  sequences on a new session, with the exact bus traffic each produces. They
  are derived from the session's contracts alone.

Behaviour modelled as the code has it:

- `currentConfigSingleShotRead` never sets the operating mode to single-shot.
  Its header comment (src/ads1115_plus.h:288-292) leaves that to the caller.
  So after a comparator start, a "single-shot" reading writes a
  continuous-mode word (`AdsScenarios.ComparatorThenSingleShotRead`).
- `startContinousConversionModeOnMux` never sets the operating mode to
  continuous, although its header comments (src/ads1115_plus.h:506-511 and
  538-543) say it starts the continuous conversion mode. On a new session the
  word it writes still has the single-shot bit
  (`AdsScenarios.ContinuousStartKeepsSingleShotMode`).
- A single-shot reading is one 3-byte configuration write, a delay, a 1-byte
  pointer write (src/Ads1115Plus.cpp:46-48) and a 2-byte read
  (src/Ads1115Plus.cpp:49-50). The model records the pointer write and the
  read together as one `Read` transaction.
- For the data rate, the multiplexer selector and the channel argument, the
  code's fallbacks (126 ms; channel 0; the sentinel 0 for a channel above 3)
  are modelled, not an error result.
- `int16_t` and `uint16_t` conversion results are the same 16 bits, so the
  model keeps every raw result as a `bv16` word. `AsInt16` gives its signed
  value.

## Model

| member | source | states |
|---|---|---|
| `AdsConstants.AddressesAreDistinctSevenBit` | src/ads1115_plus.h:17-30 | the four strap addresses are four different values, and every address lies between 0x48 and 0x4B, inside the 7-bit address space |
| `AdsConstants.DefaultLowThresholdDiffIsFive` | src/ads1115_plus.h:14 | the default low-threshold difference is 5 raw codes |
| `AdsConstants.GainIsShiftedIndex` | src/ads1115_plus.h:36-55 | every gain is k << 9 with k at most 5, and lies inside mask 0x0E00 |
| `AdsConstants.CompatibilityGainsAgree` | src/ads1115_plus.h:76-95 | each Adafruit-compatible gain constant equals the matching gain setting |
| `AdsConstants.SampleSpeedFillsField` | src/ads1115_plus.h:61-70 | a word is a data rate exactly when it lies inside mask 0x00E0 (so the eight rates are the eight distinct values k << 5) |
| `AdsConstants.MuxFillsField` | src/ads1115_plus.h:166-191 | a word is a multiplexer setting exactly when it lies inside 0x7000; differential pairs are 0..3 << 12, single channels 4..7 << 12 |
| `AdsConstants.ComparatorSettingsInTheirBits` | src/ads1115_plus.h:101-159 | comparator mode, polarity, latching and queue are exactly the words inside 0x10, 0x08, 0x04 and 0x03; "disabled" is 3 |
| `AdsConstants.OsAndModeBits` | src/ads1115_plus.h:248-263 | the start-conversion setting is bit 15; single-shot mode is bit 8 set and continuous mode bit 8 clear |
| `AdsConstants.MasksPartitionWord` | src/Ads1115Plus.cpp:408-416 | the nine field masks are pairwise disjoint and together cover 0xFFFF |
| `AdsCodec.FieldsInTheirMasks` | src/Ads1115Plus.cpp:406-417 | every setting held in a configuration lies inside its own mask |
| `AdsCodec.BuildConfigRegister` | src/Ads1115Plus.cpp:406-417 | masking the configuration word with any field's mask gives back exactly that setting |
| `AdsCodec.DecodeConfigRegister` | src/Ads1115Plus.cpp:406-417 | reading the settings out of a word succeeds exactly when its gain bits name a gain |
| `AdsCodec.BuildDecode` | src/Ads1115Plus.cpp:406-417 | any word that decodes is the configuration word of the settings it decodes to |
| `AdsCodec.DecodeBuild` | src/Ads1115Plus.cpp:406-417 | decoding the configuration word of any settings gives back those settings |
| `AdsCodec.BuildInjective` | src/Ads1115Plus.cpp:406-417 | two configurations have the same word exactly when they are equal |
| `AdsCodec.ConstructorWord` | src/Ads1115Plus.cpp:54-68 | a new session's word is 0xC103 ORed with its gain and data rate; with the defaults it is 0xC163 |
| `AdsCodec.DelayForSampleSpeed` | src/Ads1115Plus.cpp:374-404 | the delay is between 3 and 126 ms, and a word that is not a data rate gets 126 ms |
| `AdsCodec.DelayOutlastsConversion` | src/Ads1115Plus.cpp:374-404 | for every data rate, the delay in ms times the conversions per second exceeds 1000, so the wait outlasts one conversion |
| `AdsCodec.DelayStrictlyDecreasing` | src/Ads1115Plus.cpp:374-404 | a higher data-rate setting is a faster rate with a strictly shorter delay (126, 64, 33, 17, 9, 5, 4, 3) |
| `AdsCodec.MuxConfigOfSingleChannel` | src/Ads1115Plus.cpp:349-364 | the result is a single-ended setting that reads `channel` when it is 0 to 3, and channel 0 otherwise |
| `AdsCodec.SingleEndedRoundTrip` | src/Ads1115Plus.cpp:349-364 | every single-ended setting is the mapping of its own channel |
| `AdsCodec.DifferentialBelowSingleEnded` | src/ads1115_plus.h:166-191 | every differential-pair setting is below every single-channel setting |
| `AdsCodec.DefaultLowThreshold` | src/Ads1115Plus.cpp:145-148 | the derived low threshold is never above the high one and never wraps: it is 5 below a high threshold above 5, and 0 otherwise |
| `AdsCodec.MillivoltsPerRawValueAsWritten` | src/Ads1115Plus.cpp:319-344 | the scale table as written: a word that is not a gain scales to 0 |
| `AdsCodec.AsWrittenGainFourScaleIsWrong` | src/Ads1115Plus.cpp:332-333 | the written gain-four scale times 32768 is 1053.4912 mV, not the documented 1024 mV full scale |
| `AdsCodec.MillivoltsPerRawValue` | src/ads1115_plus.h:36-55 | corrected table: each gain's scale times 32768 positive codes is its documented full-scale range; a non-gain gets 0 |
| `AdsCodec.ScaleCorrectionOnlyGainFour` | src/Ads1115Plus.cpp:319-344 | the corrected table agrees with the written one for every word except gain four |
| `BusFraming.HighByte` | src/Ads1115Plus.cpp:39 | the second byte sent holds bits 15:8 of the value |
| `BusFraming.LowByte` | src/Ads1115Plus.cpp:40 | the third byte sent holds bits 7:0 of the value |
| `BusFraming.JoinBytes` | src/Ads1115Plus.cpp:50 | the first byte received becomes bits 15:8 and the second bits 7:0 |
| `BusFraming.JoinSplit` | src/Ads1115Plus.cpp:36-51 | splitting a value into its two bytes and joining them gives back the value |
| `BusFraming.SplitJoin` | src/Ads1115Plus.cpp:36-51 | joining two bytes and splitting the word gives back the two bytes |
| `BusFraming.WriteFrame` | src/Ads1115Plus.cpp:36-42 | a register write is three bytes: the pointer, then the two bytes that join to the value |
| `BusFraming.ParseWriteFrame` | src/Ads1115Plus.cpp:36-42 | any three-byte frame is the write frame of the pointer and value read out of it |
| `BusFraming.ParseWriteFrameRoundTrip` | src/Ads1115Plus.cpp:36-42 | a write frame parses back to the pointer and value it was made from |
| `BusFraming.AsInt16` | src/Ads1115Plus.cpp:219-221 | a conversion word's signed value is in -32768..32767 and is negative exactly when bit 15 is set |
| `AdsSession.RegisterAfterAppend` | src/Ads1115Plus.cpp:36-42 | after two runs of transactions, a register holds what the second run last wrote to it, or else what the first left in it |
| `AdsSession.RegisterAfterOther` | src/Ads1115Plus.cpp:45-51 | a read, a delay or a write to another register leaves a register's contents unchanged |
| `AdsSession.ComparatorStartRegisters` | src/Ads1115Plus.cpp:179-184 | the three writes of a comparator start leave the high threshold in register 3, the low threshold in register 2 and the word in register 1 |
| `AdsSession.TraceFitsEach` | src/Ads1115Plus.cpp:54-68 | the trace invariant holds exactly when every single transaction goes to the session's address and every configuration word in it has bit 15 set |
| `AdsSession.TraceFitsAppend` | src/Ads1115Plus.cpp:36-42 | one more transaction to the same address, which sets bit 15 if it writes a configuration word, keeps the trace invariant |
| `AdsSession.Ads1115Plus.ChipHoldsSettings` | src/Ads1115Plus.cpp:310-313 | when the chip is in sync, its configuration register decodes to exactly the session's nine settings |
| `AdsSession.Ads1115Plus.BuildConfigRegister` | src/Ads1115Plus.cpp:406-417 | the word of a valid session has the start-conversion bit 15 set; with `ChipHoldsSettings` and `AdsCodec.DecodeBuild` it decodes to exactly the session's settings |
| `AdsSession.Ads1115Plus.DelayForChannelReading` | src/Ads1115Plus.cpp:374-404 | the wait for the session's data rate is between 3 and 126 ms and outlasts one conversion at that rate |
| `AdsSession.Ads1115Plus.GetGain` | src/Ads1115Plus.cpp:76-78 | returns the gain setting, which is what the configuration word carries under the gain mask |
| `AdsSession.Ads1115Plus.GetSampleSpeed` | src/Ads1115Plus.cpp:87-89 | returns the data-rate setting, which is what the word carries under the data-rate mask |
| `AdsSession.Ads1115Plus.GetComparatorLatching` | src/Ads1115Plus.cpp:105-107 | returns the latching setting, which is what the word carries under the latching mask |
| `AdsSession.Ads1115Plus.GetComparatorMode` | src/Ads1115Plus.cpp:116-118 | returns the comparator mode, which is what the word carries under the comparator-mode mask |
| `AdsSession.Ads1115Plus.GetComparatorPolarity` | src/Ads1115Plus.cpp:127-130 | returns the polarity setting, which is what the word carries under the polarity mask |
| `AdsSession.Ads1115Plus.GetComparatorAssert` | src/Ads1115Plus.cpp:139-141 | returns the queue setting, which is what the word carries under the queue mask |
| `AdsSession.Ads1115Plus.constructor` | src/Ads1115Plus.cpp:54-68 | a new session holds the given address, gain and data rate and the constructor's settings, and has sent nothing |
| `AdsSession.Ads1115Plus.WriteToAds` | src/Ads1115Plus.cpp:36-42 | a register write adds exactly one Write of the value to the given register and address |
| `AdsSession.Ads1115Plus.ReadFromAds` | src/Ads1115Plus.cpp:45-51 | a register read adds exactly one Read and changes no register; the result has the first received byte high and the second low |
| `AdsSession.Ads1115Plus.WriteCurrentConfig` | src/Ads1115Plus.cpp:310-313 | adds exactly one Write of the current configuration word to register 1: the chip is then in sync and no other register changes |
| `AdsSession.Ads1115Plus.DelayMs` | src/Ads1115Plus.cpp:369 | the blocking wait adds one Delay of the given length and changes no register |
| `AdsSession.Ads1115Plus.SetGain` | src/Ads1115Plus.cpp:76-85 | only the gain changes and the getter returns the new gain; a config write happens iff updateConfig holds and the mode is continuous, and then the chip is in sync |
| `AdsSession.Ads1115Plus.SetSampleSpeed` | src/Ads1115Plus.cpp:87-96 | only the data rate changes and the getter returns it; a config write happens iff updateConfig holds and the mode is continuous, and then the chip is in sync |
| `AdsSession.Ads1115Plus.SetComparatorLatching` | src/Ads1115Plus.cpp:98-107 | only the latching setting changes, the getter returns it, and the same write-through rule holds, with the chip in sync after a write |
| `AdsSession.Ads1115Plus.SetComparatorMode` | src/Ads1115Plus.cpp:109-118 | only the comparator mode changes, the getter returns it, and the same write-through rule holds, with the chip in sync after a write |
| `AdsSession.Ads1115Plus.SetComparatorPolarity` | src/Ads1115Plus.cpp:120-130 | only the polarity changes, the getter returns it, and the same write-through rule holds, with the chip in sync after a write |
| `AdsSession.Ads1115Plus.SetComparatorAssert` | src/Ads1115Plus.cpp:132-141 | only the queue setting changes, the getter returns it, and the same write-through rule holds, with the chip in sync after a write |
| `AdsSession.Ads1115Plus.CurrentConfigSingleShotRead` | src/Ads1115Plus.cpp:366-372 | no setting changes (the mode included); the trace gains exactly the config write, the rate's delay and one conversion read; the chip is in sync with the threshold registers untouched; the value read is returned |
| `AdsSession.Ads1115Plus.ReadAdcSingleEnded` | src/Ads1115Plus.cpp:233-242 | channel above 3: result 0, no change, no traffic; channel 0 to 3: only the multiplexer changes (to that channel), then the single-shot sequence returns the value read and leaves the chip in sync |
| `AdsSession.Ads1115Plus.ReadChannelRaw` | src/Ads1115Plus.cpp:229-231 | the same as the single-ended reading it delegates to |
| `AdsSession.Ads1115Plus.ReadRawOnMux` | src/Ads1115Plus.cpp:295-298 | only the multiplexer changes, to the given setting, then the single-shot sequence returns the value read and leaves the chip in sync |
| `AdsSession.Ads1115Plus.ReadDifferentialRaw01` | src/Ads1115Plus.cpp:244-247 | the multiplexer becomes the 0-1 pair, then the single-shot sequence returns the value read and leaves the chip in sync |
| `AdsSession.Ads1115Plus.ReadDifferentialRaw03` | src/Ads1115Plus.cpp:249-252 | the multiplexer becomes the 0-3 pair, then the single-shot sequence returns the value read and leaves the chip in sync |
| `AdsSession.Ads1115Plus.ReadDifferentialRaw13` | src/Ads1115Plus.cpp:254-257 | the multiplexer becomes the 1-3 pair, then the single-shot sequence returns the value read and leaves the chip in sync |
| `AdsSession.Ads1115Plus.ReadDifferentialRaw23` | src/Ads1115Plus.cpp:259-262 | the multiplexer becomes the 2-3 pair, then the single-shot sequence returns the value read and leaves the chip in sync |
| `AdsSession.Ads1115Plus.StartComparatorModeOnMux` | src/Ads1115Plus.cpp:171-185 | sets the multiplexer, the four comparator settings and continuous mode, nothing else; then writes register 3 (high), register 2 (low) and the config word, in that order, leaving the chip in sync and holding both thresholds |
| `AdsSession.Ads1115Plus.SetComparatorFields` | src/Ads1115Plus.cpp:172-177 | the multiplexer and the four comparator settings take the given values and the mode becomes continuous; the gain, data rate and start bit keep theirs, and nothing is sent |
| `AdsSession.Ads1115Plus.WriteThresholds` | src/Ads1115Plus.cpp:179-181 | the high threshold is written to register 3, then the low one to register 2 |
| `AdsSession.Ads1115Plus.StartComparatorMode` | src/Ads1115Plus.cpp:150-153 | the comparator start on the channel's multiplexer setting (channel 0 for a channel above 3) |
| `AdsSession.Ads1115Plus.StartComparatorSingleEnded` | src/Ads1115Plus.cpp:145-148 | the comparator start with the low threshold derived from the high one |
| `AdsSession.Ads1115Plus.StartComparatorMode01` | src/Ads1115Plus.cpp:155-157 | the comparator start on the 0-1 differential pair |
| `AdsSession.Ads1115Plus.StartComparatorMode03` | src/Ads1115Plus.cpp:159-161 | the comparator start on the 0-3 differential pair |
| `AdsSession.Ads1115Plus.StartComparatorMode13` | src/Ads1115Plus.cpp:163-165 | the comparator start on the 1-3 differential pair |
| `AdsSession.Ads1115Plus.StartComparatorMode23` | src/Ads1115Plus.cpp:167-169 | the comparator start on the 2-3 differential pair |
| `AdsSession.Ads1115Plus.StartContinousConversionModeOnMux` | src/Ads1115Plus.cpp:208-217 | only the multiplexer and the queue setting (disabled, 3) change, and the mode stays as it was; exactly one config write is sent, leaving the chip in sync |
| `AdsSession.Ads1115Plus.StartContinousConversionMode` | src/Ads1115Plus.cpp:187-190 | the continuous start on the channel's multiplexer setting |
| `AdsSession.Ads1115Plus.StartContinousConversionMode01` | src/Ads1115Plus.cpp:192-194 | the continuous start on the 0-1 differential pair |
| `AdsSession.Ads1115Plus.StartContinousConversionMode03` | src/Ads1115Plus.cpp:196-198 | the continuous start on the 0-3 differential pair |
| `AdsSession.Ads1115Plus.StartContinousConversionMode13` | src/Ads1115Plus.cpp:200-202 | the continuous start on the 1-3 differential pair |
| `AdsSession.Ads1115Plus.StartContinousConversionMode23` | src/Ads1115Plus.cpp:204-206 | the continuous start on the 2-3 differential pair |
| `AdsSession.Ads1115Plus.GetLastConversionResults` | src/Ads1115Plus.cpp:219-221 | no setting and no register changes; exactly one conversion read, with no config write and no delay; the value read is returned |
| `AdsSession.Ads1115Plus.ClearComparatorLatch` | src/Ads1115Plus.cpp:304-306 | no setting and no register changes; exactly one conversion read |
| `AdsScenarios.DefaultSessionReadsChannelZero` | src/Ads1115Plus.cpp:229-242 | a default session reading channel 0 sends Write(0x48, 1, 0xC163), Delay(17), Read(0x48, 0) and returns the value read |
| `AdsScenarios.ContinuousStartKeepsSingleShotMode` | src/Ads1115Plus.cpp:208-217 | on a new session a continuous start writes 0x8163, whose single-shot bit is set |
| `AdsScenarios.ComparatorThenSingleShotRead` | src/Ads1115Plus.cpp:366-372 | after a comparator start with high threshold 3 (low clamped to 0), a single-shot read writes 0xD060, whose mode bit says continuous; the chip then holds 0xD060 and the thresholds 3 and 0 |
| `AdsScenarios.SettersWriteThroughOnlyInContinuousMode` | src/Ads1115Plus.cpp:80-85 | a gain change sends nothing in single-shot mode or with updateConfig false, and sends the new word in continuous mode |

## Findings

| source | as written | input that shows it | evidently intended | confidence | as-written member | corrected member |
|---|---|---|---|---|---|---|
| src/Ads1115Plus.cpp:332-333 | the millivolts-per-code scale for gain four is 0.03215 | gain four: 0.03215 × 32768 = 1053.4912 mV, but the documented full scale is 1.024 V and the LSB is 31.25 µV | 0.03125 (1024 mV / 32768), in line with the other five gains | high; not executed | `AdsCodec.AsWrittenGainFourScaleIsWrong` (about `AdsCodec.MillivoltsPerRawValueAsWritten`) | `AdsCodec.MillivoltsPerRawValue` |

## Left out

- The two-wire transport is replaced by the ghost trace of register transactions and the `reply` parameters. This covers `begin`, `i2cReadByte`, `i2cWriteByte`, the `Wire` calls and the `ARDUINO` version branches, which belong to a foreign library.
- `delay()` is recorded only as a `Delay(ms)` transaction. The real-time blocking is not modelled.
- What the chip converts is not modelled. Conversion results come in through the `reply` parameters.
- The `double` conversions are left out because they are floating point. This covers `rawValueToMillivolts`, `millivoltsToRawValue`, `readChannelMillivolts`, `readDifferentialMillivolts01/03/13/23`, `readMillivoltsOnMux`, `getLastConversionMillivolts` and the current-gain overload of `millivoltsPerRawValue`. The scale table itself is modelled with exact reals.
- `readADC_Differential_0_1` and `readADC_Differential_2_3` are left out. Each is a one-line delegation to `readDifferentialRaw01` or `readDifferentialRaw23`, which are modelled.
- Concurrency and several sessions on one bus are left out; the driver has neither.
- AdsSession.Ads1115Plus.ReadFromAds: the source joins two `Wire.read()` calls with `|`, and C++ leaves the order of those two calls unspecified. The model assumes the documented order: the high byte is read first.
- Enumeration values outside the named ones: the session's nine setting fields and the enumeration parameters of `AdsSession.Ads1115Plus.constructor`, the six setters (`SetGain` to `SetComparatorAssert`), `StartComparatorModeOnMux` and the comparator starts that call it, `StartContinousConversionModeOnMux` and `ReadRawOnMux` take only the named values. The source accepts any value cast to the enumeration and ORs it unchanged into the word (src/Ads1115Plus.cpp:406-417); for example `(AdsSampleSpeed)0x0100` would also set the mode bit. The codec functions over plain `bv16` words, `AdsCodec.DelayForSampleSpeed` and `AdsCodec.MillivoltsPerRawValue`, do model the code's fallbacks for such values.
- AdsSession.Ads1115Plus.constructor: the address is typed as one of the four strap addresses. The source stores it as a plain byte, but only ever assigns it from that enumeration.
- Default arguments: `startComparatorMode01` to `startComparatorMode23` repeat in their definitions the default arguments the header already declares. The model gives them the header's defaults once.

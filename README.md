# ps4000lib-rs in Dafny

This project models the core of ps4000lib-rs, a Rust wrapper around the
PicoScope 4000 driver for the PS4262 oscilloscope. The wrapper configures
the two input channels A and B and arms or disarms a simple trigger. It
captures one block of samples and converts the returned ADC codes to
millivolts.

The driver is not part of this model. Every driver entry point becomes a
`Call` value (`Ps4000Api.Call`). A `Driver` object appends each call it
receives to its `trace` and answers it from an `Oracle`. The oracle is a
fixed value: a status per call, the opened handle, the sample interval
per timebase, the number of samples returned, the overflow flags, and the
codes written into each channel's buffer.

The operations that talk to the driver are methods: `ChannelConfig::update`
is `Channels.ChannelConfig.Update`, and the device operations of `PS4262`
are methods of `Engine.PS4262`. Each method's contract says that the calls
it issues and the result it returns are those of a pure specification:
- a `Run` (calls + result) for the update, the trigger steps, the timebase
  search, the block handler and the collect functions;
- an `OpenRun` (calls + outcome) for `new`;
- a `Closing` (calls + result + new handle) for `close`.

The trigger builders, the `BlockData` accessors and the conversions
compute values and are functions. Lemmas about the specifications state:
- fail-fast: every checked call before a driver error returned OK;
- the exact call sequence of a capture;
- the least-timebase search;
- the contents of the captured block;
- the conversion round trip and scaling laws.

Modules follow the source files:

| module | file |
|---|---|
| `Ps4000Api` | the driver's types and call shapes (the FFI bindings are not modelled) |
| `Errors` | `check_pico_status!` of lib.rs and the error type |
| `Attenuations` | attenuation.rs |
| `Ranges` | range.rs |
| `Resolution` | the range-under-attenuation lookup used by channel.rs and ps4000.rs |
| `Channels` | channel.rs |
| `Triggers` | trigger.rs |
| `Conversion` | `convert_adc_to_mv` / `convert_mv_to_adc` of ps4000.rs |
| `Blocks` | block_data.rs |
| `Engine` | ps4000.rs |

The lookup of a range under an attenuation (`range.into_range(attenuation)`
and `range.mv(attenuation)`) is called by the source, but its definition is
not part of this model. It is the parameter `Resolution.Resolver`.
`Resolution.DocumentedResolve` is one concrete resolver with the documented
behaviour, and the lemmas about it are proved. Everything else holds for
any resolver, or states the property of the resolver that it relies on.

Several revisions of the source disagree on how attenuation is stored:
- channel.rs, attenuation.rs and ps4000.rs keep it as the `Attenuation` enum;
- block_data.rs:26 and trigger.rs:125 keep it as an integer.

This model follows the enum revision throughout. `convert_adc_to_mv`
applies the attenuation factor once, and `get_mv` does not multiply by it
a second time.

## Model

| member | source | states |
|---|---|---|
| Ps4000Api.WrapI32 | src/ps4000.rs:273 | the i32 result differs from the exact product by a multiple of 2^32 and equals it whenever the product fits in i32 |
| Errors.CheckPicoStatus | src/lib.rs:19-27 | the result is Ok exactly when the status is PICO_OK, otherwise the error carries that status |
| Errors.IssueFailFast | src/lib.rs:19-27 | one checked call is fail-fast: an error result is that call's non-OK status |
| Errors.ThenFailFast | src/lib.rs:19-27 | sequencing two fail-fast steps with `?` is fail-fast: on a driver error every earlier checked call returned OK and the last call is the failing one |
| Attenuations.Value | src/attenuation.rs:20-27 | the factor is 1 exactly for X1 and 10 exactly for X10 |
| Attenuations.TenfoldFactor | src/attenuation.rs:23-24 | the X10 factor is ten times the X1 factor |
| Ranges.Ordinal | src/range.rs:17-31 | each range has its position in the declaration order |
| Ranges.RangeToHardware | src/range.rs:33-51 | each range maps to the driver range whose code is its declaration position |
| Ranges.RangeToHardwareInjective | src/range.rs:33-51 | two ranges map to the same driver range only if they are equal |
| Ranges.Mv | src/range.rs:54-70 | the full-scale voltage lies between 10 mV and 100 000 mV |
| Ranges.MvStrictlyIncreasing | src/range.rs:54-70 | one range comes before another in declaration order exactly when its full scale is smaller |
| Ranges.MvDecade | src/range.rs:56-68 | moving three positions up multiplies the full scale by ten |
| Resolution.DocumentedResolve | src/channel.rs:55 | under X1 every range resolves to itself; under X10 the range fails exactly when it is one of the three smallest; a resolved range times the factor gives back the requested full scale |
| Resolution.DocumentedResolveIsSound | src/channel.rs:55 | the documented resolver is the identity at X1 and keeps the full scale at the probe tip |
| Resolution.DocumentedFailures | src/channel.rs:55 | resolution fails exactly for 10, 20 and 50 mV under X10 |
| Conversion.FullScaleMv | src/ps4000.rs:273 | the resolved full scale that multiplies the code lies between 10 mV and 100 000 mV |
| Conversion.Scale | src/ps4000.rs:273-274 | dividing the product by the maximum code and multiplying by the factor keeps its sign and its zero |
| Conversion.AdcToMv | src/ps4000.rs:272-275 | a reading is zero exactly for code 0 and positive exactly for a positive code |
| Conversion.MvToAdc | src/ps4000.rs:277-280 | a threshold code is zero exactly for 0 mV and positive exactly for a positive voltage |
| Conversion.AdcRoundTrip | src/ps4000.rs:272-280 | converting a code to millivolts and back gives the same code |
| Conversion.FullScaleReading | src/ps4000.rs:272-275 | the maximum code reads as the resolved full scale times the attenuation factor |
| Conversion.AttenuationScaling | src/ps4000.rs:272-275 | with a resolver that is the identity at X1, an X10 reading is ten times the X1 reading on the resolved range |
| Conversion.NominalScale | src/ps4000.rs:272-275 | with a resolver that keeps the full scale, a reading is the code times the nominal range over the maximum code, whatever the attenuation |
| Conversion.AdcToMvAsWritten | src/ps4000.rs:272-275 | the conversion with the product in i32 as written equals the exact one whenever the product fits in i32 |
| Conversion.AsWrittenExactIffFits | src/ps4000.rs:273 | the as-written conversion, with its 32-bit product, agrees with the exact one exactly when the product fits in i32 |
| Conversion.ProductFitsBelow100V | src/ps4000.rs:273 | for full scales up to 50 V the product of any i16 code stays within i32 |
| Conversion.AsWrittenOverflowsAt100V | src/ps4000.rs:273 | the positive code 32767 on the 100 V range reads negative as written, and positive exactly |
| Channels.ChannelToHardware | src/channel.rs:27-34 | A maps to PS4000_CHANNEL_A and B to PS4000_CHANNEL_B, whose codes are the slots 0 and 1 |
| Channels.ChannelToHardwareInjective | src/channel.rs:27-34 | distinct channels map to distinct driver channels |
| Channels.ChannelConfig.New | src/channel.rs:61-70 | a new configuration keeps the channel and handle and is enabled, DC, ±5 V, ×1 |
| Channels.ChannelConfig.UpdateSpec | src/channel.rs:47-59 | an unresolvable range fails before any call; otherwise there is exactly one set-channel call with the handle, channel, enable flag 1/0, coupling and resolved range, and the result is its status; the step is fail-fast |
| Channels.ChannelConfig.Update | src/channel.rs:47-59 | the calls issued and the result are those of `UpdateSpec` |
| Triggers.DirectionToHardware | src/trigger.rs:37-53 | only the None direction maps to the driver's NONE |
| Triggers.DirectionToHardwareInjective | src/trigger.rs:37-53 | distinct directions map to distinct driver directions |
| Triggers.ModeToHardware | src/trigger.rs:61-68 | Level maps to LEVEL and Window to WINDOW, each exactly |
| Triggers.ModeToHardwareInjective | src/trigger.rs:61-68 | distinct modes map to distinct driver modes |
| Triggers.StateToHardware | src/trigger.rs:76-84 | DoNotCare, True and False map exactly to CONDITION_DONT_CARE, CONDITION_TRUE and CONDITION_FALSE |
| Triggers.StateToHardwareInjective | src/trigger.rs:76-84 | distinct states map to distinct driver conditions |
| Triggers.Trigger.New | src/trigger.rs:97-106 | a new trigger keeps channel, threshold and direction, with no delay, no pre-trigger samples and no auto-trigger |
| Triggers.Trigger.WithPreTriggerSamples | src/trigger.rs:108-111 | only the pre-trigger count changes |
| Triggers.Trigger.WithDelay | src/trigger.rs:113-116 | only the delay changes |
| Triggers.Trigger.WithAutoTriggerMs | src/trigger.rs:118-121 | only the auto-trigger time changes |
| Triggers.Trigger.GetProperties | src/trigger.rs:123-148 | two level-mode records, A then B, each with the threshold code as both bounds and hysteresis 2560 at ×1 and 256 at ×10 |
| Triggers.Trigger.GetConditions | src/trigger.rs:150-168 | one record in which exactly the trigger channel is True and every other source is DoNotCare |
| Triggers.Trigger.GetDirections | src/trigger.rs:170-182 | the trigger channel gets the trigger's direction, the other channel NONE |
| Blocks.BlockData.New | src/block_data.rs:30-46 | the block keeps every field it is given |
| Blocks.BlockData.TimeIntervalNs | src/block_data.rs:48-50 | a non-negative interval is kept; a negative one becomes its 64-bit unsigned reinterpretation |
| Blocks.BlockData.GetAdc | src/block_data.rs:52-58 | the codes are the first min(sample count, buffer length) entries of the channel's max buffer |
| Blocks.BlockData.GetMv | src/block_data.rs:60-69 | one reading per code, each the conversion of that code under the stored range and attenuation |
| Blocks.GetMvNominalScale | src/block_data.rs:60-69 | with a resolver that keeps the full scale, each reading is its code scaled to the nominal range, so the attenuation is applied once |
| Engine.StartTimebaseAsWritten | src/ps4000.rs:254 | the start is undefined exactly for rate 0 (the division panics); for rates up to 10 MHz it is 10 MHz / rate − 1, and for any faster rate it wraps to u32::MAX |
| Engine.StartTimebaseWrapsAbove10MHz | src/ps4000.rs:254 | a 20 MHz rate gives the start timebase 4294967295 as written |
| Engine.StartTimebase | src/ps4000.rs:254 | the start exists exactly for rates 1..10 MHz; it is the largest t with (t+1)·rate ≤ 10 MHz and agrees with the as-written value there |
| Engine.SampleCountAsWritten | src/ps4000.rs:135 | `buffer_size as i32` keeps counts up to i32::MAX and turns larger ones negative, by 2^32 |
| Engine.SampleCountNegativeAbove2GiB | src/ps4000.rs:135 | a count of 2^31 becomes −2^31 |
| Engine.PostTriggerAsWritten | src/ps4000.rs:192 | the post-trigger count as written is count − pre modulo 2^32, and exactly count − pre when the count fits in i32 and the difference does too |
| Engine.PostTriggerNegative | src/ps4000.rs:192 | 10 pre-trigger samples out of 5 give −5 post-trigger samples as written |
| Engine.PostTriggerAgreesWhenValid | src/ps4000.rs:192 | with count ≤ i32::MAX and 0 ≤ pre ≤ count the as-written post-trigger count is count − pre and not negative |
| Engine.Probes | src/ps4000.rs:175-186 | the probes from one timebase to another are one get-timebase call per timebase, in order |
| Engine.SearchSpec | src/ps4000.rs:175-186 | the search probes its start first; a found timebase is at or after the start and accepted by the driver; the only failure is NoValidTimebase |
| Engine.SearchFindsLeast | src/ps4000.rs:175-186 | the search returns the least accepted timebase from the start and probes exactly every timebase up to it; it fails only when none from the start on is accepted |
| Engine.SearchFailFast | src/ps4000.rs:175-186 | the search issues only get-timebase calls, whose status is not checked |
| Engine.PushSpec | src/ps4000.rs:252 | pushing both configurations succeeds only if both ranges resolve |
| Engine.Zeros | src/ps4000.rs:136-141 | the buffers start as `count` zeros |
| Engine.Filled | src/ps4000.rs:224-232 | after get-values, each buffer holds the written codes and zeros after them, at its registered length |
| Engine.DefaultConfigs | src/ps4000.rs:54-60 | the opened unit holds A's configuration in slot 0 and B's in slot 1 |
| Engine.BlockSpec | src/ps4000.rs:127-245 | invalid counts are rejected with InvalidSampleCounts before any call, and that error arises only then; valid counts start with set-data-buffers for A; a block records the returned sample count |
| Engine.CaptureSpec | src/ps4000.rs:247-270 | a capture succeeds only with a valid rate, valid counts and both ranges resolving; InvalidSampleRate arises exactly when push and trigger step succeed and the rate is 0 or above 10 MHz, and then no call follows the trigger step |
| Engine.PushFailFast | src/ps4000.rs:252 | pushing A then B stops at the first error |
| Engine.TriggerFailFast | src/ps4000.rs:80-125 | disarming A then B, or arming the trigger, stops at the first error |
| Engine.BuffersFailFast | src/ps4000.rs:143-170 | registering A's then B's buffers stops at the first error |
| Engine.TailFailFast | src/ps4000.rs:188-232 | run-block, ready poll, stop and get-values stop at the first error |
| Engine.BlockFailFast | src/ps4000.rs:127-245 | the whole block handler is fail-fast |
| Engine.CaptureFailFast | src/ps4000.rs:247-270 | both collect functions are fail-fast |
| Engine.CaptureSnapshot | src/ps4000.rs:202-242 | a captured block records, per channel, the range and attenuation at capture time (which resolve), the returned sample count, buffers of the requested length, and codes that are the driver's written codes followed by zeros, up to min(returned, requested) |
| Engine.ThenFollows | src/ps4000.rs:252-255 | a step that keeps to one plan followed by a step that keeps to another keeps to their concatenation |
| Engine.PushFollows | src/ps4000.rs:252 | pushing the configurations keeps to the two set-channel calls A then B |
| Engine.TriggerFollows | src/ps4000.rs:80-125 | the trigger step keeps to the two disarm calls, or to the single arm call |
| Engine.TailFollows | src/ps4000.rs:188-232 | the tail keeps to run-block, is-ready, stop, get-values |
| Engine.BlockFollows | src/ps4000.rs:127-245 | the block handler keeps to buffers A and B, the timebase probes up to the one found, then the tail |
| Engine.CaptureFollowsPlan | src/ps4000.rs:247-270 | a capture issues a prefix of set-channel A, B, the trigger step, buffers, probes from the start timebase to the one found, run-block, is-ready, stop, get-values; all of it on success, and a driver error otherwise; run-block splits the count into pre + post and uses the found timebase |
| Engine.CaptureComposes | src/ps4000.rs:247-270 | when both ranges resolve and the rate is valid, a capture is push, then the trigger step, then the block handler |
| Engine.OpenSpec | src/ps4000.rs:46-65 | open-unit is the first call; the open fails exactly when its status is not OK, and then it is the only call and its status is the error |
| Engine.OpenOutcomes | src/ps4000.rs:46-65 | open-unit comes first and its failure is returned with its status; a successful open issues exactly open-unit, then A's and B's default configuration on the opened handle, both of which resolve; with a resolver that is the identity at ×1, a panic means the last set-channel call was rejected by the driver |
| Engine.CloseSpec | src/ps4000.rs:67-78 | a negative handle closes with no call; otherwise one close-unit call whose status is the result, the handle becomes −1 on success and is unchanged on an error |
| Engine.CloseIdempotent | src/ps4000.rs:67-78 | after a successful close, closing again issues no call and succeeds |
| Engine.PS4262.Init | src/ps4000.rs:54-60 | a new unit holds the given handle and the default configurations of A and B |
| Engine.PS4262.New | src/ps4000.rs:46-65 | the calls issued and the outcome are those of `OpenSpec`; a unit is returned exactly on success, with the opened handle and the default configurations |
| Engine.PS4262.Close | src/ps4000.rs:67-78 | the calls, result and new handle are those of `CloseSpec` |
| Engine.PS4262.Config | src/ps4000.rs:283-292 | indexing by a channel gives slot 0 for A and slot 1 for B, whose driver channel is that channel |
| Engine.PS4262.Configure | src/ps4000.rs:294-301 | writing through the mutable index changes only the public fields of that channel's configuration and leaves the other channel's unchanged |
| Engine.PS4262.DisableTrigger | src/ps4000.rs:80-103 | the calls and result are those of `DisableSpec`: disarm A, then B if A succeeded |
| Engine.PS4262.SetTrigger | src/ps4000.rs:105-125 | exactly one arm call with the threshold converted under the trigger channel's range and attenuation, and its status as the result |
| Engine.PS4262.FindTimebase | src/ps4000.rs:175-186 | the calls and result of the search loop are those of `SearchSpec` |
| Engine.PS4262.RegisterBuffers | src/ps4000.rs:136-170 | the calls and result are those of `BuffersSpec` |
| Engine.PS4262.RunAndFetch | src/ps4000.rs:188-232 | the calls and result are those of `TailSpec` |
| Engine.PS4262.BlockDataHandler | src/ps4000.rs:127-245 | the calls and result are those of `BlockSpec` |
| Engine.PS4262.PushChannels | src/ps4000.rs:252 | the calls and result are those of `PushSpec` |
| Engine.PS4262.Prepare | src/ps4000.rs:252-253 | the calls and result are those of `PrepareSpec`: push, then disarm or arm |
| Engine.PS4262.CollectBlockImmediate | src/ps4000.rs:247-258 | the calls and result are those of `CaptureSpec` with no trigger |
| Engine.PS4262.CollectBlockTriggered | src/ps4000.rs:260-270 | the calls and result are those of `CaptureSpec` with the trigger |

## Left out

- The foreign-function layer: loading ps4000.dll, the raw pointers handed to the driver and the driver itself are replaced by `Driver` and its `Oracle`.
- Threads: the capture thread of `block_data_handler` is joined at once, and `JoinHandle<Result<..>>` is flattened into one `Result`.
- The ready-poll loop (src/ps4000.rs:213-219) is one is-ready call that reports ready. Repeated not-ready answers cannot be modelled with a per-call oracle.
- The driver's per-call answers are one fixed oracle, so two identical calls always get the same status.
- The writes the driver makes into the min buffers are not modelled. They stay zero.
- The driver's numeric codes for channels, ranges, coupling, directions, modes and states are symbolic datatypes. Only the channel and range constants carry a code, their position in the vendor enumeration; the source uses the constants by name.
- PS4262_MAX_VALUE is taken as 32767, the PS4262's maximum ADC code. The vendor header that defines it is not part of this model.
- `into_range` and `mv(attenuation)` are not part of this model. They are the `Resolver` parameter.
- Conversion.MvToAdc: returns the exact real threshold. The f64 rounding and the saturating `as i16` cast at src/ps4000.rs:279 are not modelled.
- Conversion.AdcToMv: is exact real arithmetic. f64 rounding is not modelled.
- Engine.PS4262.SetTrigger: requires the trigger channel's range to resolve under its attenuation. The source unwraps there and panics otherwise. The collect functions reach it only after the update of both channels succeeded, which implies it.
- Engine.BlockSpec: rejects a count above i32::MAX, or a pre-trigger count outside 0..count, with InvalidSampleCounts before set-data-buffers. The source casts the count at src/ps4000.rs:135 and goes on to register the buffers, probe timebases and run the block with the wrapped counts (see Findings).
- Engine.CaptureSpec: rejects a rate of 0 or above 10 MHz with InvalidSampleRate after the trigger step and before set-data-buffers. The source panics on the division by zero or on the u32 underflow at src/ps4000.rs:254 and 268, or wraps the start timebase in a release build (see Findings).
- Engine.SearchSpec: the timebase search stops at u32::MAX with `NoValidTimebase`. The loop at src/ps4000.rs:175-186 has no bound and would overflow `timebase += 1`.
- Blocks.BlockData.New: follows the 7-argument call at src/ps4000.rs:234-242, which passes the overflow flags and the enum attenuations. It does not follow the 6-argument signature at src/block_data.rs:30-37.
- Blocks.BlockData.GetMv: does not multiply by the attenuation again as src/block_data.rs:67 does, because that revision's `convert_adc_to_mv` does not apply it.
- Triggers.Trigger.GetProperties: takes the attenuation enum instead of the integer of src/trigger.rs:125. The threshold converts `value_mv` once under that attenuation, and the hysteresis is 2560 divided by the factor.
- `Engine.PS4262.Prepare` is a shared helper for the two collect functions. It issues exactly the calls of their first two lines.
- The re-exports and the rest of lib.rs, and main.rs, are not part of this model.

## Findings

| source | as written | input that shows it | evidently intended | confidence | as-written member | corrected member |
|---|---|---|---|---|---|---|
| src/ps4000.rs:273 | `raw as i32 * range.mv(attenuation)` is an i32 product | code 32767 on the 100 V range at ×1: 3 276 700 000 exceeds i32::MAX and reads negative in a release build (a panic in a debug build) | the product taken without overflow, e.g. in i64 or f64 | high, not executed | Conversion.AsWrittenOverflowsAt100V | Conversion.AsWrittenExactIffFits |
| src/ps4000.rs:254 | `10000000 / sample_rate - 1` in u32 | rate 0 divides by zero; rate 20 000 000 gives 0 − 1, which wraps to 4294967295 (a panic in a debug build) | rates above 10 MHz and rate 0 rejected with an error | high, not executed | Engine.StartTimebaseWrapsAbove10MHz | Engine.StartTimebase |
| src/ps4000.rs:135 | `buffer_size as i32` with no check | a count of 2^31 samples is registered, probed and run as −2^31 | reject counts above i32::MAX with an error | medium, not executed | Engine.SampleCountNegativeAbove2GiB | Engine.BlockSpec |
| src/ps4000.rs:192 | `sample_count - no_of_pre_trigger_samples` with no check | 5 samples with 10 pre-trigger samples gives −5 post-trigger samples passed to run-block | reject a pre-trigger count outside 0..sample_count | medium, not executed | Engine.PostTriggerNegative | Engine.PostTriggerAgreesWhenValid |

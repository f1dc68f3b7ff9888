/**
 * The vendor driver boundary of the PicoScope 4000 series (the ps4000 API as
 * bound by pico_sys_dynamic and pico_common): the integer widths it uses, its
 * enumerated constants, the calls the wrapper issues, and a driver object that
 * records every call in a trace and answers each from an oracle. What the
 * driver does with a call is not modelled.
 */
module Ps4000Api {

  type I16 = x: int | -0x8000 <= x < 0x8000
  type I32 = x: int | -0x8000_0000 <= x < 0x8000_0000
  type U32 = x: int | 0 <= x < 0x1_0000_0000

  const I32_MAX: int := 0x7FFF_FFFF
  const U32_MAX: int := 0xFFFF_FFFF

  /** The value of `x` in 32-bit two's complement, as Rust's wrapping `i32` arithmetic gives it. */
  function WrapI32(x: int): (w: I32)
    ensures (x - w) % 0x1_0000_0000 == 0
    ensures -0x8000_0000 <= x < 0x8000_0000 ==> w == x
  {
    var m := x % 0x1_0000_0000;
    if m < 0x8000_0000 then m else m - 0x1_0000_0000
  }

  /** PICO_STATUS: PICO_OK is 0, every other value reports an error. */
  type Status = int
  const OK: Status := 0

  /** PS4262_MAX_VALUE: the ADC code of a full-scale reading. */
  const PS4262_MAX_VALUE: int := 32767

  /** PS4000_CHANNEL (the two channels of a PS4262). */
  datatype HwChannel = HwChannelA | HwChannelB

  /** The numeric value of a PS4000_CHANNEL constant. */
  function ChannelCode(c: HwChannel): nat
  {
    match c
    case HwChannelA => 0
    case HwChannelB => 1
  }

  /** PS4000_RANGE: PS4000_10MV through PS4000_100V. */
  datatype HwRange =
    | Hw10mV | Hw20mV | Hw50mV | Hw100mV | Hw200mV | Hw500mV
    | Hw1V | Hw2V | Hw5V | Hw10V | Hw20V | Hw50V | Hw100V

  /** The numeric value of a PS4000_RANGE constant (its position in the vendor enumeration). */
  function RangeCode(r: HwRange): nat
  {
    match r
    case Hw10mV => 0
    case Hw20mV => 1
    case Hw50mV => 2
    case Hw100mV => 3
    case Hw200mV => 4
    case Hw500mV => 5
    case Hw1V => 6
    case Hw2V => 7
    case Hw5V => 8
    case Hw10V => 9
    case Hw20V => 10
    case Hw50V => 11
    case Hw100V => 12
  }

  /** The coupling code the driver takes (from pico_common's PicoCoupling). */
  datatype HwCoupling = HwAc | HwDc

  /** THRESHOLD_DIRECTION, by constant name. */
  datatype HwDirection =
    | HwAbove | HwBelow | HwRising | HwFalling | HwRisingOrFalling
    | HwInside | HwOutside | HwEnter | HwExit | HwEnterOrExit
    | HwNone

  /** THRESHOLD_MODE. */
  datatype HwThresholdMode = HwLevel | HwWindow

  /** TRIGGER_STATE: CONDITION_DONT_CARE, CONDITION_TRUE, CONDITION_FALSE. */
  datatype HwTriggerState = HwDontCare | HwTrue | HwFalse

  /** RATIO_MODE (only RATIO_MODE_NONE is used). */
  datatype HwRatioMode = HwRatioNone

  /** One call into the driver, with the arguments the wrapper passes. */
  datatype Call =
    | OpenUnit
    | CloseUnit(handle: I16)
    | SetChannel(handle: I16, channel: HwChannel, enabled: I16, coupling: HwCoupling, range: HwRange)
    | SetSimpleTrigger(handle: I16, enable: I16, source: HwChannel, threshold: real,
                       direction: HwDirection, delay: U32, autoTriggerMs: I32)
    | SetDataBuffers(handle: I16, channel: HwChannel, maxLength: nat, minLength: nat, bufferLength: I32)
    | GetTimebase(handle: I16, timebase: U32, noSamples: I32, oversample: I16, segmentIndex: U32)
    | RunBlock(handle: I16, preTrigger: I32, postTrigger: I32, timebase: U32, oversample: I16, segmentIndex: U32)
    | IsReady(handle: I16)
    | Stop(handle: I16)
    | GetValues(handle: I16, startIndex: U32, noOfSamples: U32, downSampleRatio: U32,
                mode: HwRatioMode, segmentIndex: U32)

  /**
   * What the driver answers: the status of each call, the handle open-unit
   * writes, the sample interval get-timebase writes for a timebase, the sample
   * count get-values writes back for a requested count, the overflow flags, and
   * the codes the driver writes into each channel's registered buffer.
   */
  datatype Oracle = Oracle(
    status: Call -> Status,
    openedHandle: I16,
    interval: U32 -> I32,
    returned: U32 -> U32,
    overflow: I16,
    written: HwChannel -> seq<I16>)

  /** The loaded driver library: every call is appended to `trace` and answered by `oracle`. */
  class Driver {
    var trace: seq<Call>
    const oracle: Oracle

    constructor (oracle: Oracle)
      ensures this.oracle == oracle && trace == []
    {
      this.oracle := oracle;
      trace := [];
    }

    method Issue(c: Call) returns (s: Status)
      modifies this
      ensures trace == old(trace) + [c]
      ensures s == oracle.status(c)
    {
      trace := trace + [c];
      s := oracle.status(c);
    }
  }
}

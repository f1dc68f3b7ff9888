/**
 * trigger.rs: the trigger descriptor, its builders, and the parameter sets
 * derived from it for the driver's multi-condition trigger calls.
 */
module Triggers {
  import opened Ps4000Api
  import opened Ranges
  import opened Attenuations
  import opened Resolution
  import opened Channels
  import opened Conversion

  datatype ThresholdDirection =
    // level mode
    | Above | Below | Rising | Falling | RisingOrFalling
    // window mode
    | Inside | Outside | Enter | Exit | EnterOrExit
    | None

  /** `From<ThresholdDirection> for THRESHOLD_DIRECTION`: each to the constant of the same name. */
  function DirectionToHardware(d: ThresholdDirection): (hw: HwDirection)
    ensures d == ThresholdDirection.None <==> hw == HwNone
  {
    match d
    case Above => HwAbove
    case Below => HwBelow
    case Rising => HwRising
    case Falling => HwFalling
    case RisingOrFalling => HwRisingOrFalling
    case Inside => HwInside
    case Outside => HwOutside
    case Enter => HwEnter
    case Exit => HwExit
    case EnterOrExit => HwEnterOrExit
    case None => HwNone
  }

  /** The eleven directions go to eleven distinct driver constants. */
  lemma DirectionToHardwareInjective(d1: ThresholdDirection, d2: ThresholdDirection)
    ensures DirectionToHardware(d1) == DirectionToHardware(d2) <==> d1 == d2
  {
  }

  datatype ThresholdMode = Level | Window

  /** `From<ThresholdMode> for THRESHOLD_MODE`: Level to LEVEL, Window to WINDOW. */
  function ModeToHardware(m: ThresholdMode): (hw: HwThresholdMode)
    ensures m == Level <==> hw == HwLevel
    ensures m == Window <==> hw == HwWindow
  {
    match m
    case Level => HwLevel
    case Window => HwWindow
  }

  lemma ModeToHardwareInjective(m1: ThresholdMode, m2: ThresholdMode)
    ensures ModeToHardware(m1) == ModeToHardware(m2) <==> m1 == m2
  {
  }

  datatype TriggerState = DoNotCare | True | False

  /** `From<TriggerState> for TRIGGER_STATE`: each state to the condition constant of the same name. */
  function StateToHardware(s: TriggerState): (hw: HwTriggerState)
    ensures s == DoNotCare <==> hw == HwDontCare
    ensures s == True <==> hw == HwTrue
    ensures s == False <==> hw == HwFalse
  {
    match s
    case DoNotCare => HwDontCare
    case True => HwTrue
    case False => HwFalse
  }

  lemma StateToHardwareInjective(s1: TriggerState, s2: TriggerState)
    ensures StateToHardware(s1) == StateToHardware(s2) <==> s1 == s2
  {
  }

  /** tTriggerChannelProperties: threshold codes (before the i16 cast), hysteresis, channel, mode. */
  datatype TriggerChannelProperties = TriggerChannelProperties(
    thresholdUpper: real,
    thresholdUpperHysteresis: nat,
    thresholdLower: real,
    thresholdLowerHysteresis: nat,
    channel: HwChannel,
    thresholdMode: HwThresholdMode)

  /** tTriggerConditions: one state per trigger source. */
  datatype TriggerConditions = TriggerConditions(
    channelA: HwTriggerState,
    channelB: HwTriggerState,
    channelC: HwTriggerState,
    channelD: HwTriggerState,
    external: HwTriggerState,
    aux: HwTriggerState,
    pulseWidthQualifier: HwTriggerState)

  /** A threshold trigger on one channel (`Trigger`). */
  datatype Trigger = Trigger(
    channel: Channel,
    valueMv: real,
    dir: ThresholdDirection,
    preTriggerSamples: I32,
    delay: U32,
    autoTriggerMs: I32)
  {
    /** `Trigger::new`: channel, direction and threshold as given; delay, pre-trigger count and timeout 0. */
    static function New(channel: Channel, dir: ThresholdDirection, valueMv: real): (t: Trigger)
      ensures t.channel == channel && t.dir == dir && t.valueMv == valueMv
      ensures t.delay == 0 && t.preTriggerSamples == 0 && t.autoTriggerMs == 0
    {
      Trigger(channel, valueMv, dir, 0, 0, 0)
    }

    /** `with_no_of_pre_trigger_samples`: sets that count and nothing else. */
    function WithPreTriggerSamples(n: I32): (t: Trigger)
      ensures t.preTriggerSamples == n
      ensures t.channel == channel && t.valueMv == valueMv && t.dir == dir
      ensures t.delay == delay && t.autoTriggerMs == autoTriggerMs
    {
      this.(preTriggerSamples := n)
    }

    /** `with_delay`: sets the delay and nothing else. */
    function WithDelay(d: U32): (t: Trigger)
      ensures t.delay == d
      ensures t.channel == channel && t.valueMv == valueMv && t.dir == dir
      ensures t.preTriggerSamples == preTriggerSamples && t.autoTriggerMs == autoTriggerMs
    {
      this.(delay := d)
    }

    /** `with_auto_trigger_ms`: sets the auto-trigger timeout and nothing else. */
    function WithAutoTriggerMs(ms: I32): (t: Trigger)
      ensures t.autoTriggerMs == ms
      ensures t.channel == channel && t.valueMv == valueMv && t.dir == dir
      ensures t.preTriggerSamples == preTriggerSamples && t.delay == delay
    {
      this.(autoTriggerMs := ms)
    }

    /**
     * `get_properties`: a level-mode record for A and for B, each with the
     * threshold as an ADC code for both bounds, and hysteresis 2560 divided by
     * the attenuation factor.
     */
    function GetProperties(att: Attenuation, range: Range, resolve: Resolver): (ps: seq<TriggerChannelProperties>)
      requires Resolves(resolve, range, att)
      ensures |ps| == 2 && ps[0].channel == HwChannelA && ps[1].channel == HwChannelB
      ensures forall i :: 0 <= i < 2 ==>
        && ps[i].thresholdMode == HwLevel
        && ps[i].thresholdUpper == ps[i].thresholdLower == MvToAdc(valueMv, att, range, resolve)
        && ps[i].thresholdUpperHysteresis == ps[i].thresholdLowerHysteresis == 2560 / Value(att)
        && (att == X1 ==> ps[i].thresholdUpperHysteresis == 2560)
        && (att == X10 ==> ps[i].thresholdUpperHysteresis == 256)
    {
      var adc := MvToAdc(valueMv, att, range, resolve);
      var hysteresis := 256 * 10 / Value(att);
      [ TriggerChannelProperties(adc, hysteresis, adc, hysteresis, ChannelToHardware(A), ModeToHardware(Level)),
        TriggerChannelProperties(adc, hysteresis, adc, hysteresis, ChannelToHardware(B), ModeToHardware(Level)) ]
    }

    /** `get_conditions`: one record; the trigger channel is True, every other source DoNotCare. */
    function GetConditions(): (cs: seq<TriggerConditions>)
      ensures |cs| == 1
      ensures cs[0].channelA == HwTrue <==> channel == A
      ensures cs[0].channelB == HwTrue <==> channel == B
      ensures channel == A ==> cs[0].channelB == HwDontCare
      ensures channel == B ==> cs[0].channelA == HwDontCare
      ensures cs[0].channelC == cs[0].channelD == cs[0].external == cs[0].aux
           == cs[0].pulseWidthQualifier == HwDontCare
    {
      [ TriggerConditions(
          StateToHardware(if channel == A then True else DoNotCare),
          StateToHardware(if channel == B then True else DoNotCare),
          StateToHardware(DoNotCare),
          StateToHardware(DoNotCare),
          StateToHardware(DoNotCare),
          StateToHardware(DoNotCare),
          StateToHardware(DoNotCare)) ]
    }

    /** `get_directions`: [A, B]; the trigger channel gets the direction, the other NONE. */
    function GetDirections(): (ds: seq<HwDirection>)
      ensures |ds| == 2
      ensures ds[Slot(channel)] == DirectionToHardware(dir)
      ensures ds[Slot(Other(channel))] == HwNone
    {
      var chA := if channel == A then DirectionToHardware(dir) else DirectionToHardware(ThresholdDirection.None);
      var chB := if channel == B then DirectionToHardware(dir) else DirectionToHardware(ThresholdDirection.None);
      [chA, chB]
    }
  }
}

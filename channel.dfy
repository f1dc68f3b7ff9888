/**
 * channel.rs: the two channels, and the per-channel configuration with the
 * step that pushes it to the driver (`ChannelConfig::update`).
 */
module Channels {
  import opened Ps4000Api
  import opened Errors
  import opened Wrappers
  import opened Ranges
  import opened Attenuations
  import opened Resolution

  datatype Channel = A | B

  /** The slot of a channel in the engine's two-element configuration array. */
  function Slot(ch: Channel): nat
  {
    match ch
    case A => 0
    case B => 1
  }

  /** The other of the two channels. */
  function Other(ch: Channel): Channel
  {
    match ch
    case A => B
    case B => A
  }

  /** `From<Channel> for PS4000_CHANNEL`: A is PS4000_CHANNEL_A, B is PS4000_CHANNEL_B. */
  function ChannelToHardware(ch: Channel): (hw: HwChannel)
    ensures ch == A <==> hw == HwChannelA
    ensures ch == B <==> hw == HwChannelB
    ensures ChannelCode(hw) == Slot(ch)
  {
    match ch
    case A => HwChannelA
    case B => HwChannelB
  }

  lemma ChannelToHardwareInjective(c1: Channel, c2: Channel)
    ensures ChannelToHardware(c1) == ChannelToHardware(c2) <==> c1 == c2
  {
  }

  /** pico_common's PicoCoupling. */
  datatype Coupling = AC | DC

  function CouplingToHardware(c: Coupling): HwCoupling
  {
    match c
    case AC => HwAc
    case DC => HwDc
  }

  /** The settings of one channel: `enable`, `coupling`, `range` and `attenuation` are public. */
  datatype ChannelConfig = ChannelConfig(
    handle: I16,
    enable: bool,
    channel: HwChannel,
    coupling: Coupling,
    range: Range,
    attenuation: Attenuation)
  {
    /** `ChannelConfig::new`: the given channel and handle, enabled, DC, ±5 V, ×1. */
    static function New(channel: HwChannel, handle: I16): (cfg: ChannelConfig)
      ensures cfg.channel == channel && cfg.handle == handle
      ensures cfg.enable && cfg.coupling == DC && cfg.range == Range5v && cfg.attenuation == X1
    {
      ChannelConfig(handle, true, channel, DC, Range5v, X1)
    }

    /** The set-channel call for this configuration once its range resolved to `hw`. */
    function SetChannelCall(hw: Range): Call
    {
      SetChannel(handle, channel, if enable then 1 else 0, CouplingToHardware(coupling), RangeToHardware(hw))
    }

    /**
     * What `update` does: resolve the range under the attenuation (failing
     * before any call), then one set-channel call whose status is the result.
     */
    function UpdateSpec(resolve: Resolver, o: Oracle): (run: Run<()>)
      ensures !Resolves(resolve, range, attenuation) ==> run == Run([], Err(InvalidRange))
      ensures Resolves(resolve, range, attenuation) ==>
        && |run.calls| == 1
        && run.calls[0].SetChannel?
        && run.calls[0].handle == handle
        && run.calls[0].channel == channel
        && (run.calls[0].enabled == 1 <==> enable)
        && (run.calls[0].enabled == 0 <==> !enable)
        && run.calls[0].coupling == CouplingToHardware(coupling)
        && run.calls[0].range == RangeToHardware(Resolved(resolve, range, attenuation))
        && (run.result.Ok? <==> o.status(run.calls[0]) == OK)
        && (run.result.Err? ==> run.result.error == Pico(o.status(run.calls[0])))
      ensures FailFast(run, o)
    {
      match resolve(range, attenuation)
      case None => Run([], Err(InvalidRange))
      case Some(hw) => Issue(SetChannelCall(hw), o)
    }

    /** `ChannelConfig::update`: push this configuration to the driver. */
    method Update(drv: Driver, resolve: Resolver) returns (r: Result<()>)
      modifies drv
      ensures drv.trace == old(drv.trace) + UpdateSpec(resolve, drv.oracle).calls
      ensures r == UpdateSpec(resolve, drv.oracle).result
    {
      var hw := resolve(range, attenuation);
      if hw.None? {
        return Err(InvalidRange);
      }
      var s := drv.Issue(SetChannelCall(hw.value));
      r := CheckPicoStatus(s);
    }
  }
}

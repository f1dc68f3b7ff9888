/**
 * block_data.rs: the immutable result of one block capture, holding the
 * registered buffers, the per-channel range and attenuation as they were at
 * capture time, and the sample interval the driver reported.
 */
module Blocks {
  import opened Ps4000Api
  import opened Ranges
  import opened Attenuations
  import opened Resolution
  import opened Channels
  import opened Conversion

  function Min(a: nat, b: nat): nat
  {
    if a <= b then a else b
  }

  datatype BlockData = BlockData(
    sampleCount: nat,
    overflow: I16,
    timeInterval: I32,
    minPinned: map<HwChannel, seq<I16>>,
    maxPinned: map<HwChannel, seq<I16>>,
    range: map<HwChannel, Range>,
    attenuation: map<HwChannel, Attenuation>)
  {
    /** `BlockData::new`: every argument stored as given (the u32 count widened). */
    static function New(sampleCount: U32, overflow: I16, timeInterval: I32,
                        minPinned: map<HwChannel, seq<I16>>, maxPinned: map<HwChannel, seq<I16>>,
                        range: map<HwChannel, Range>, attenuation: map<HwChannel, Attenuation>): (b: BlockData)
      ensures b.sampleCount == sampleCount && b.overflow == overflow && b.timeInterval == timeInterval
      ensures b.minPinned == minPinned && b.maxPinned == maxPinned
      ensures b.range == range && b.attenuation == attenuation
    {
      BlockData(sampleCount, overflow, timeInterval, minPinned, maxPinned, range, attenuation)
    }

    /** `time_interval`: the stored nanoseconds, an i32 converted to u64 (sign-extending). */
    function TimeIntervalNs(): (ns: nat)
      ensures timeInterval >= 0 ==> ns == timeInterval
      ensures timeInterval < 0 ==> ns == timeInterval + 0x1_0000_0000_0000_0000
    {
      if timeInterval >= 0 then timeInterval else timeInterval + 0x1_0000_0000_0000_0000
    }

    /** `get_adc`: the first `sample_count` codes of the channel's max buffer (fewer if the buffer is shorter). */
    function GetAdc(ch: Channel): (s: seq<I16>)
      requires ChannelToHardware(ch) in maxPinned
      ensures |s| == Min(sampleCount, |maxPinned[ChannelToHardware(ch)]|)
      ensures |s| <= sampleCount
      ensures forall i :: 0 <= i < |s| ==> s[i] == maxPinned[ChannelToHardware(ch)][i]
    {
      var buffer := maxPinned[ChannelToHardware(ch)];
      buffer[..Min(sampleCount, |buffer|)]
    }

    /** `get_mv`: each code of `get_adc` converted under the stored range and attenuation. */
    function GetMv(ch: Channel, resolve: Resolver): (v: seq<real>)
      requires ChannelToHardware(ch) in maxPinned
      requires ChannelToHardware(ch) in range && ChannelToHardware(ch) in attenuation
      requires Resolves(resolve, range[ChannelToHardware(ch)], attenuation[ChannelToHardware(ch)])
      ensures |v| == |GetAdc(ch)|
      ensures forall i :: 0 <= i < |v| ==>
        v[i] == AdcToMv(GetAdc(ch)[i], attenuation[ChannelToHardware(ch)], range[ChannelToHardware(ch)], resolve)
    {
      var hw := ChannelToHardware(ch);
      var codes := GetAdc(ch);
      seq(|codes|, i requires 0 <= i < |codes| => AdcToMv(codes[i], attenuation[hw], range[hw], resolve))
    }
  }

  /**
   * With a resolution that keeps the full scale, every reading is its code
   * scaled to the stored nominal range: the attenuation is applied once.
   */
  lemma GetMvNominalScale(b: BlockData, ch: Channel, resolve: Resolver, i: nat)
    requires PreservesFullScale(resolve)
    requires ChannelToHardware(ch) in b.maxPinned
    requires ChannelToHardware(ch) in b.range && ChannelToHardware(ch) in b.attenuation
    requires Resolves(resolve, b.range[ChannelToHardware(ch)], b.attenuation[ChannelToHardware(ch)])
    requires i < |b.GetAdc(ch)|
    ensures b.GetMv(ch, resolve)[i]
         == (b.GetAdc(ch)[i] * Mv(b.range[ChannelToHardware(ch)])) as real / PS4262_MAX_VALUE as real
  {
    var hw := ChannelToHardware(ch);
    NominalScale(b.GetAdc(ch)[i], b.attenuation[hw], b.range[hw], resolve);
  }
}

/**
 * ps4000.rs: the acquisition engine for a PS4262. It owns the unit handle and
 * the two channel configurations, and runs a block capture as a fail-fast
 * sequence of driver calls: push both channels, disarm or arm the trigger,
 * register the buffers, search for a timebase the driver accepts, run the
 * block, wait for it, stop and fetch the values.
 *
 * Each step is specified by a pure function giving the calls it issues and
 * its result (`...Spec`); the methods of `PS4262` are proved to issue exactly
 * those calls and return exactly that result, and the lemmas state what the
 * specifications guarantee.
 */
module Engine {
  import opened Ps4000Api
  import opened Errors
  import opened Wrappers
  import opened Ranges
  import opened Attenuations
  import opened Resolution
  import opened Channels
  import opened Triggers
  import opened Conversion
  import opened Blocks

  const MAX_CHANNELS: nat := 2

  /** The device's base clock: timebase t samples every (t + 1) / 10 MHz. */
  const BASE_CLOCK_HZ: int := 10_000_000

  // ---------------------------------------------------------------------------
  // The start timebase, `10000000 / sample_rate - 1` in u32

  /**
   * The start timebase as written: `None` where the division panics (a zero
   * rate); the subtraction wraps as in a release build.
   */
  function StartTimebaseAsWritten(rate: U32): (t: Option<U32>)
    ensures t.None? <==> rate == 0
    ensures 0 < rate <= BASE_CLOCK_HZ ==> t == Option.Some(BASE_CLOCK_HZ / rate - 1)
    ensures rate > BASE_CLOCK_HZ ==> t == Option.Some(U32_MAX)
  {
    if rate == 0 then Option.None
    else Option.Some((BASE_CLOCK_HZ / rate - 1 + 0x1_0000_0000) % 0x1_0000_0000)
  }

  /** Asking for 20 MHz selects the slowest timebase there is. */
  lemma StartTimebaseWrapsAbove10MHz()
    ensures StartTimebaseAsWritten(20_000_000) == Option.Some(U32_MAX)
  {
  }

  /**
   * The start timebase: the largest timebase whose sample rate is at least
   * the requested one; no timebase for a zero rate or one above the base clock.
   */
  function StartTimebase(rate: U32): (t: Option<U32>)
    ensures t.None? <==> rate == 0 || rate > BASE_CLOCK_HZ
    ensures t.Some? ==> (t.value + 1) * rate <= BASE_CLOCK_HZ < (t.value + 2) * rate
    ensures t.Some? ==> StartTimebaseAsWritten(rate) == t
  {
    if rate == 0 || rate > BASE_CLOCK_HZ then Option.None
    else
      var q := BASE_CLOCK_HZ / rate;
      assert q * rate <= BASE_CLOCK_HZ < (q + 1) * rate by {
        assert BASE_CLOCK_HZ == q * rate + BASE_CLOCK_HZ % rate;
      }
      Option.Some(q - 1)
  }

  // ---------------------------------------------------------------------------
  // Pre- and post-trigger counts

  /** `buffer_size as i32`: a count above i32::MAX turns negative. */
  function SampleCountAsWritten(count: U32): (c: I32)
    ensures count <= I32_MAX ==> c == count
    ensures count > I32_MAX ==> c == count - 0x1_0000_0000 < 0
  {
    WrapI32(count)
  }

  /** A count of 2^31 samples is registered and run as -2^31. */
  lemma SampleCountNegativeAbove2GiB()
    ensures SampleCountAsWritten(0x8000_0000) == -0x8000_0000
  {
  }

  /** `sample_count - no_of_pre_trigger_samples` as written, in i32 after the cast of the count. */
  function PostTriggerAsWritten(count: U32, pre: I32): (r: I32)
    ensures (r - (SampleCountAsWritten(count) - pre)) % 0x1_0000_0000 == 0
    ensures count <= I32_MAX && -0x8000_0000 <= count - pre <= I32_MAX ==> r == count - pre
  {
    WrapI32(SampleCountAsWritten(count) - pre)
  }

  /** A pre-trigger count above the sample count sends a negative post-trigger count. */
  lemma PostTriggerNegative()
    ensures PostTriggerAsWritten(5, 10) == -5
  {
  }

  /** The counts run-block can take: the count fits an i32 and the pre-trigger count lies within it. */
  predicate ValidCounts(count: U32, pre: I32)
  {
    count <= I32_MAX && 0 <= pre <= count
  }

  /** Where the counts are valid, the source's subtraction is exact and not negative. */
  lemma PostTriggerAgreesWhenValid(count: U32, pre: I32)
    requires ValidCounts(count, pre)
    ensures PostTriggerAsWritten(count, pre) == count - pre >= 0
  {
  }

  // ---------------------------------------------------------------------------
  // The timebase search

  function ProbeCall(handle: I16, count: I32, t: U32): Call
  {
    GetTimebase(handle, t, count, 1, 0)
  }

  predicate Accepts(o: Oracle, handle: I16, count: I32, t: U32)
  {
    o.status(ProbeCall(handle, count, t)) == OK
  }

  /** The get-timebase calls for every timebase from `from` to `to`. */
  function Probes(handle: I16, count: I32, from: U32, to: U32): (s: seq<Call>)
    requires from <= to
    ensures |s| == to - from + 1
    ensures forall i :: 0 <= i < |s| ==> s[i] == ProbeCall(handle, count, from + i)
  {
    seq(to - from + 1, i requires 0 <= i < to - from + 1 => ProbeCall(handle, count, from + i))
  }

  /**
   * The search from `t`: try each timebase in turn until get-timebase accepts
   * one. The source's loop has no bound; here it ends with an error after the
   * largest u32 timebase, where the source's `timebase += 1` would overflow.
   */
  function SearchSpec(handle: I16, count: I32, t: U32, o: Oracle): (run: Run<U32>)
    ensures |run.calls| >= 1 && run.calls[0] == ProbeCall(handle, count, t)
    ensures run.result.Ok? ==> t <= run.result.value && Accepts(o, handle, count, run.result.value)
    ensures run.result.Err? ==> run.result.error == NoValidTimebase
    decreases U32_MAX - t
  {
    var c := ProbeCall(handle, count, t);
    if o.status(c) == OK then Run([c], Ok(t))
    else if t == U32_MAX then Run([c], Err(NoValidTimebase))
    else
      var rest := SearchSpec(handle, count, t + 1, o);
      Run([c] + rest.calls, rest.result)
  }

  /** One step of the search: a probe, then either its verdict or the rest of the search. */
  lemma SearchUnfolds(handle: I16, count: I32, t: U32, o: Oracle)
    ensures var c := ProbeCall(handle, count, t);
      && (o.status(c) == OK ==> SearchSpec(handle, count, t, o) == Run([c], Ok(t)))
      && (o.status(c) != OK && t == U32_MAX ==> SearchSpec(handle, count, t, o) == Run([c], Err(NoValidTimebase)))
      && (o.status(c) != OK && t < U32_MAX ==>
            && SearchSpec(handle, count, t, o).calls == [c] + SearchSpec(handle, count, t + 1, o).calls
            && SearchSpec(handle, count, t, o).result == SearchSpec(handle, count, t + 1, o).result)
  {
  }

  lemma ProbesCons(handle: I16, count: I32, t: U32, to: U32)
    requires t < to
    ensures Probes(handle, count, t, to) == [ProbeCall(handle, count, t)] + Probes(handle, count, t + 1, to)
  {
    var p := Probes(handle, count, t, to);
    var q := [ProbeCall(handle, count, t)] + Probes(handle, count, t + 1, to);
    assert |p| == |q|;
    forall i | 0 <= i < |p| ensures p[i] == q[i] {
      if i > 0 {
        assert q[i] == Probes(handle, count, t + 1, to)[i - 1];
      }
    }
  }

  /**
   * The search finds the least accepted timebase at or after the start, having
   * probed every timebase up to it in order; it fails only when no timebase
   * from the start on is accepted.
   */
  lemma {:induction false} SearchFindsLeast(handle: I16, count: I32, t: U32, o: Oracle)
    ensures var run := SearchSpec(handle, count, t, o);
      && (run.result.Ok? ==>
            && t <= run.result.value
            && Accepts(o, handle, count, run.result.value)
            && (forall k: U32 :: t <= k < run.result.value ==> !Accepts(o, handle, count, k))
            && run.calls == Probes(handle, count, t, run.result.value))
      && (run.result.Err? ==>
            && run.result.error == NoValidTimebase
            && (forall k: U32 :: t <= k ==> !Accepts(o, handle, count, k))
            && run.calls == Probes(handle, count, t, U32_MAX))
    decreases U32_MAX - t
  {
    var c := ProbeCall(handle, count, t);
    if o.status(c) != OK && t < U32_MAX {
      SearchFindsLeast(handle, count, t + 1, o);
      var rest := SearchSpec(handle, count, t + 1, o);
      if rest.result.Ok? {
        ProbesCons(handle, count, t, rest.result.value);
      } else {
        ProbesCons(handle, count, t, U32_MAX);
      }
    }
  }

  lemma SearchFailFast(handle: I16, count: I32, t: U32, o: Oracle)
    ensures FailFast(SearchSpec(handle, count, t, o), o)
  {
    SearchFindsLeast(handle, count, t, o);
    var run := SearchSpec(handle, count, t, o);
    var last := if run.result.Ok? then run.result.value else U32_MAX;
    forall i | 0 <= i < |run.calls| ensures !Checked(run.calls[i]) {
      assert run.calls[i] == Probes(handle, count, t, last)[i] == ProbeCall(handle, count, t + i);
    }
  }

  // ---------------------------------------------------------------------------
  // The steps of a capture

  /** The engine's two configurations: A's in slot 0 and B's in slot 1. */
  predicate WellFormed(cfgs: seq<ChannelConfig>)
  {
    |cfgs| == MAX_CHANNELS && cfgs[0].channel == HwChannelA && cfgs[1].channel == HwChannelB
  }

  predicate AllResolve(cfgs: seq<ChannelConfig>, resolve: Resolver)
    requires |cfgs| == MAX_CHANNELS
  {
    Resolves(resolve, cfgs[0].range, cfgs[0].attenuation) && Resolves(resolve, cfgs[1].range, cfgs[1].attenuation)
  }

  /** `channels.iter().try_for_each(|ch| ch.update())`: push A, then B, stopping at the first error. */
  function PushSpec(cfgs: seq<ChannelConfig>, resolve: Resolver, o: Oracle): (run: Run<()>)
    requires |cfgs| == MAX_CHANNELS
    ensures run.result.Ok? ==> AllResolve(cfgs, resolve)
  {
    Then(cfgs[0].UpdateSpec(resolve, o), cfgs[1].UpdateSpec(resolve, o))
  }

  /** The set-simple-trigger call that disarms one channel. */
  function DisableCall(handle: I16, ch: Channel): Call
  {
    SetSimpleTrigger(handle, 0, ChannelToHardware(ch), 0.0, DirectionToHardware(ThresholdDirection.None), 0, 0)
  }

  /** `disable_trigger`: disarm A, then B. */
  function DisableSpec(handle: I16, o: Oracle): Run<()>
  {
    Then(Issue(DisableCall(handle, A), o), Issue(DisableCall(handle, B), o))
  }

  /** The set-simple-trigger call of `set_trigger`: arm the trigger channel with its threshold as an ADC code. */
  function ArmCall(handle: I16, cfgs: seq<ChannelConfig>, cond: Trigger, resolve: Resolver): Call
    requires |cfgs| == MAX_CHANNELS
    requires Resolves(resolve, cfgs[Slot(cond.channel)].range, cfgs[Slot(cond.channel)].attenuation)
  {
    var cfg := cfgs[Slot(cond.channel)];
    SetSimpleTrigger(handle, 1, ChannelToHardware(cond.channel),
                     MvToAdc(cond.valueMv, cfg.attenuation, cfg.range, resolve),
                     DirectionToHardware(cond.dir), cond.delay, cond.autoTriggerMs)
  }

  /** The trigger step: disarm both channels for an immediate capture, arm the trigger otherwise. */
  function TriggerCalls(handle: I16, cfgs: seq<ChannelConfig>, trig: Option<Trigger>, resolve: Resolver): seq<Call>
    requires |cfgs| == MAX_CHANNELS && AllResolve(cfgs, resolve)
  {
    if trig.None? then [DisableCall(handle, A), DisableCall(handle, B)]
    else [ArmCall(handle, cfgs, trig.value, resolve)]
  }

  function TriggerSpec(handle: I16, cfgs: seq<ChannelConfig>, trig: Option<Trigger>, resolve: Resolver, o: Oracle): Run<()>
    requires |cfgs| == MAX_CHANNELS && AllResolve(cfgs, resolve)
  {
    if trig.None? then DisableSpec(handle, o)
    else Issue(ArmCall(handle, cfgs, trig.value, resolve), o)
  }

  /** The pre-trigger count: 0 for an immediate capture, the trigger's otherwise. */
  function PreTrigger(trig: Option<Trigger>): I32
  {
    if trig.None? then 0 else trig.value.preTriggerSamples
  }

  /** The set-data-buffers call registering a channel's max and min buffers of `count` samples. */
  function BufferCall(handle: I16, cfg: ChannelConfig, count: U32): Call
    requires count <= I32_MAX
  {
    SetDataBuffers(handle, cfg.channel, count, count, count)
  }

  /** A zero-filled buffer. */
  function Zeros(n: nat): (s: seq<I16>)
    ensures |s| == n && forall i :: 0 <= i < n ==> s[i] == 0
  {
    seq(n, _ => 0)
  }

  /** A zero-filled buffer of `n` codes after the driver wrote `w` into it. */
  function Filled(n: nat, w: seq<I16>): (s: seq<I16>)
    ensures |s| == n
    ensures forall i :: 0 <= i < n ==> s[i] == if i < |w| then w[i] else 0
  {
    seq(n, i requires 0 <= i < n => if i < |w| then w[i] else 0)
  }

  /** Register A's buffers, then B's. */
  function BuffersSpec(handle: I16, cfgs: seq<ChannelConfig>, count: U32, o: Oracle): Run<()>
    requires |cfgs| == MAX_CHANNELS && count <= I32_MAX
  {
    Then(Issue(BufferCall(handle, cfgs[0], count), o), Issue(BufferCall(handle, cfgs[1], count), o))
  }

  /** The calls after the timebase is found: run-block, one ready poll, stop, get-values. */
  function TailCalls(handle: I16, count: U32, pre: I32, tb: U32): seq<Call>
    requires ValidCounts(count, pre)
  {
    [ RunBlock(handle, pre, count - pre, tb, 1, 0),
      IsReady(handle),
      Stop(handle),
      GetValues(handle, 0, count, 1, HwRatioNone, 0) ]
  }

  function TailSpec(handle: I16, count: U32, pre: I32, tb: U32, o: Oracle): Run<()>
    requires ValidCounts(count, pre)
  {
    var calls := TailCalls(handle, count, pre, tb);
    Then(Issue(calls[0], o), Then(Issue(calls[1], o), Then(Issue(calls[2], o), Issue(calls[3], o))))
  }

  /** The result built once the values are fetched, from the buffers and the configurations at capture time. */
  function Collected(cfgs: seq<ChannelConfig>, count: U32, tb: U32, o: Oracle): BlockData
    requires WellFormed(cfgs)
  {
    BlockData.New(
      o.returned(count), o.overflow, o.interval(tb),
      map[cfgs[0].channel := Zeros(count), cfgs[1].channel := Zeros(count)],
      map[cfgs[0].channel := Filled(count, o.written(cfgs[0].channel)),
          cfgs[1].channel := Filled(count, o.written(cfgs[1].channel))],
      map[cfgs[0].channel := cfgs[0].range, cfgs[1].channel := cfgs[1].range],
      map[cfgs[0].channel := cfgs[0].attenuation, cfgs[1].channel := cfgs[1].attenuation])
  }

  /**
   * `block_data_handler`: check the counts, register both buffers, search the
   * timebase from `start`, run the block, wait, stop, fetch the values.
   */
  function BlockSpec(handle: I16, cfgs: seq<ChannelConfig>, count: U32, start: U32, pre: I32, o: Oracle): (run: Run<BlockData>)
    requires WellFormed(cfgs)
    ensures run.result == Err(InvalidSampleCounts) <==> !ValidCounts(count, pre)
    ensures !ValidCounts(count, pre) ==> run.calls == []
    ensures ValidCounts(count, pre) ==> |run.calls| >= 1 && run.calls[0] == BufferCall(handle, cfgs[0], count)
    ensures run.result.Ok? ==> run.result.value.sampleCount == o.returned(count)
  {
    if !ValidCounts(count, pre) then Run([], Err(InvalidSampleCounts))
    else
      var buffers := BuffersSpec(handle, cfgs, count, o);
      if buffers.result.Err? then Run(buffers.calls, Err(buffers.result.error))
      else
        var search := SearchSpec(handle, count, start, o);
        if search.result.Err? then Run(buffers.calls + search.calls, Err(search.result.error))
        else
          var tail := TailSpec(handle, count, pre, search.result.value, o);
          Run(buffers.calls + search.calls + tail.calls,
              if tail.result.Err? then Err(tail.result.error)
              else Ok(Collected(cfgs, count, search.result.value, o)))
  }

  /** The first steps of `collect_block_immediate` and `collect_block_triggered`: push both configurations, then the trigger step. */
  function PrepareSpec(handle: I16, cfgs: seq<ChannelConfig>, trig: Option<Trigger>, resolve: Resolver, o: Oracle): Run<()>
    requires |cfgs| == MAX_CHANNELS
  {
    var push := PushSpec(cfgs, resolve, o);
    if push.result.Err? then push
    else Then(push, TriggerSpec(handle, cfgs, trig, resolve, o))
  }

  /** `collect_block_immediate` (no trigger) and `collect_block_triggered`. */
  function CaptureSpec(handle: I16, cfgs: seq<ChannelConfig>, count: U32, rate: U32,
                       trig: Option<Trigger>, resolve: Resolver, o: Oracle): (run: Run<BlockData>)
    requires WellFormed(cfgs)
    ensures run.result.Ok? ==> StartTimebase(rate).Some? && ValidCounts(count, PreTrigger(trig)) && AllResolve(cfgs, resolve)
    ensures run.result == Err(InvalidSampleRate)
        <==> PrepareSpec(handle, cfgs, trig, resolve, o).result.Ok? && StartTimebase(rate).None?
    ensures StartTimebase(rate).None? ==> run.calls == PrepareSpec(handle, cfgs, trig, resolve, o).calls
  {
    var prep := PrepareSpec(handle, cfgs, trig, resolve, o);
    var start := StartTimebase(rate);
    if prep.result.Err? then Run(prep.calls, Err(prep.result.error))
    else if start.None? then Run(prep.calls, Err(InvalidSampleRate))
    else Then(prep, BlockSpec(handle, cfgs, count, start.value, PreTrigger(trig), o))
  }

  lemma AppendAssoc(a: seq<Call>, b: seq<Call>, c: seq<Call>)
    ensures a + b + c == a + (b + c)
  {
  }

  /**
   * The three ways a capture can go, for any configurations: the
   * preparation fails, the rate has no start timebase, or the block handler
   * runs. The collect methods follow this case split step by step.
   */
  lemma CaptureSteps(handle: I16, cfgs: seq<ChannelConfig>, count: U32, rate: U32,
                     trig: Option<Trigger>, resolve: Resolver, o: Oracle)
    requires WellFormed(cfgs)
    ensures var prep := PrepareSpec(handle, cfgs, trig, resolve, o);
            var spec := CaptureSpec(handle, cfgs, count, rate, trig, resolve, o);
      && (prep.result.Err? ==> spec == Run(prep.calls, Err(prep.result.error)))
      && (prep.result.Ok? && StartTimebase(rate).None? ==> spec == Run(prep.calls, Err(InvalidSampleRate)))
      && (prep.result.Ok? && StartTimebase(rate).Some? ==>
            var block := BlockSpec(handle, cfgs, count, StartTimebase(rate).value, PreTrigger(trig), o);
            spec == Run(prep.calls + block.calls, block.result))
  {
  }

  // ---------------------------------------------------------------------------
  // What a capture guarantees

  /** Pushing the configurations, disarming, arming, registering the buffers and the tail are each fail-fast. */
  lemma PushFailFast(cfgs: seq<ChannelConfig>, resolve: Resolver, o: Oracle)
    requires |cfgs| == MAX_CHANNELS
    ensures FailFast(PushSpec(cfgs, resolve, o), o)
  {
    ThenFailFast(cfgs[0].UpdateSpec(resolve, o), cfgs[1].UpdateSpec(resolve, o), o);
  }

  lemma TriggerFailFast(handle: I16, cfgs: seq<ChannelConfig>, trig: Option<Trigger>, resolve: Resolver, o: Oracle)
    requires |cfgs| == MAX_CHANNELS && AllResolve(cfgs, resolve)
    ensures FailFast(TriggerSpec(handle, cfgs, trig, resolve, o), o)
  {
    if trig.None? {
      IssueFailFast(DisableCall(handle, A), o);
      IssueFailFast(DisableCall(handle, B), o);
      ThenFailFast(Issue(DisableCall(handle, A), o), Issue(DisableCall(handle, B), o), o);
    } else {
      IssueFailFast(ArmCall(handle, cfgs, trig.value, resolve), o);
    }
  }

  lemma BuffersFailFast(handle: I16, cfgs: seq<ChannelConfig>, count: U32, o: Oracle)
    requires |cfgs| == MAX_CHANNELS && count <= I32_MAX
    ensures FailFast(BuffersSpec(handle, cfgs, count, o), o)
  {
    IssueFailFast(BufferCall(handle, cfgs[0], count), o);
    IssueFailFast(BufferCall(handle, cfgs[1], count), o);
    ThenFailFast(Issue(BufferCall(handle, cfgs[0], count), o), Issue(BufferCall(handle, cfgs[1], count), o), o);
  }

  lemma TailFailFast(handle: I16, count: U32, pre: I32, tb: U32, o: Oracle)
    requires ValidCounts(count, pre)
    ensures FailFast(TailSpec(handle, count, pre, tb, o), o)
  {
    var c := TailCalls(handle, count, pre, tb);
    IssueFailFast(c[0], o);
    IssueFailFast(c[1], o);
    IssueFailFast(c[2], o);
    IssueFailFast(c[3], o);
    ThenFailFast(Issue(c[2], o), Issue(c[3], o), o);
    ThenFailFast(Issue(c[1], o), Then(Issue(c[2], o), Issue(c[3], o)), o);
    ThenFailFast(Issue(c[0], o), Then(Issue(c[1], o), Then(Issue(c[2], o), Issue(c[3], o))), o);
  }

  /** A block capture stops at the first failing checked call and reports that call's status. */
  lemma BlockFailFast(handle: I16, cfgs: seq<ChannelConfig>, count: U32, start: U32, pre: I32, o: Oracle)
    requires WellFormed(cfgs)
    ensures FailFast(BlockSpec(handle, cfgs, count, start, pre, o), o)
  {
    if ValidCounts(count, pre) {
      var buffers := BuffersSpec(handle, cfgs, count, o);
      BuffersFailFast(handle, cfgs, count, o);
      var search := SearchSpec(handle, count, start, o);
      SearchFailFast(handle, count, start, o);
      if buffers.result.Err? {
        ThenFailFast<BlockData>(buffers, Run([], Err(InvalidSampleCounts)), o);
      } else if search.result.Err? {
        SearchFindsLeast(handle, count, start, o);
        ThenFailFast<BlockData>(buffers, Run(search.calls, Err(search.result.error)), o);
      } else {
        var tail := TailSpec(handle, count, pre, search.result.value, o);
        TailFailFast(handle, count, pre, search.result.value, o);
        var rest := Run(tail.calls,
                        if tail.result.Err? then Err(tail.result.error)
                        else Ok(Collected(cfgs, count, search.result.value, o)));
        ThenFailFast(Run(search.calls, Ok(())), rest, o);
        ThenFailFast(buffers, Then(Run(search.calls, Ok(())), rest), o);
        AppendAssoc(buffers.calls, search.calls, tail.calls);
      }
    }
  }

  /**
   * Every capture is fail-fast: on a driver error the last call issued is the
   * one that failed, with the status reported, and every checked call before it
   * succeeded; on any other outcome every checked call succeeded.
   */
  lemma CaptureFailFast(handle: I16, cfgs: seq<ChannelConfig>, count: U32, rate: U32,
                        trig: Option<Trigger>, resolve: Resolver, o: Oracle)
    requires WellFormed(cfgs)
    ensures FailFast(CaptureSpec(handle, cfgs, count, rate, trig, resolve, o), o)
  {
    var push := PushSpec(cfgs, resolve, o);
    PushFailFast(cfgs, resolve, o);
    var prep := PrepareSpec(handle, cfgs, trig, resolve, o);
    if push.result.Ok? {
      TriggerFailFast(handle, cfgs, trig, resolve, o);
      ThenFailFast(push, TriggerSpec(handle, cfgs, trig, resolve, o), o);
    }
    var start := StartTimebase(rate);
    if prep.result.Err? {
      ThenFailFast<BlockData>(prep, Run([], Err(InvalidSampleRate)), o);
    } else if start.None? {
      ThenFailFast<BlockData>(prep, Run([], Err(InvalidSampleRate)), o);
    } else {
      BlockFailFast(handle, cfgs, count, start.value, PreTrigger(trig), o);
      ThenFailFast(prep, BlockSpec(handle, cfgs, count, start.value, PreTrigger(trig), o), o);
    }
  }

  /**
   * A successful capture holds a snapshot of the configurations it ran with:
   * each channel's range and attenuation, a max buffer of `count` codes, and
   * `get_adc` returns what the driver wrote, cut to the count it returned.
   */
  lemma CaptureSnapshot(handle: I16, cfgs: seq<ChannelConfig>, count: U32, rate: U32,
                        trig: Option<Trigger>, resolve: Resolver, o: Oracle, ch: Channel)
    requires WellFormed(cfgs)
    requires CaptureSpec(handle, cfgs, count, rate, trig, resolve, o).result.Ok?
    ensures var b := CaptureSpec(handle, cfgs, count, rate, trig, resolve, o).result.value;
            var hw := ChannelToHardware(ch);
      && hw in b.maxPinned && hw in b.minPinned && hw in b.range && hw in b.attenuation
      && b.range[hw] == cfgs[Slot(ch)].range
      && b.attenuation[hw] == cfgs[Slot(ch)].attenuation
      && Resolves(resolve, b.range[hw], b.attenuation[hw])
      && b.sampleCount == o.returned(count)
      && |b.maxPinned[hw]| == |b.minPinned[hw]| == count
      && |b.GetAdc(ch)| == Min(o.returned(count), count)
      && (forall i :: 0 <= i < |b.GetAdc(ch)| ==>
            b.GetAdc(ch)[i] == if i < |o.written(hw)| then o.written(hw)[i] else 0)
  {
    var push := PushSpec(cfgs, resolve, o);
    assert AllResolve(cfgs, resolve);
    var start := StartTimebase(rate).value;
    var search := SearchSpec(handle, count, start, o);
    assert CaptureSpec(handle, cfgs, count, rate, trig, resolve, o).result.value
        == Collected(cfgs, count, search.result.value, o);
  }

  /** Where each step keeps to `plan`: a prefix of it, all of it on success, a driver error otherwise. */
  predicate Follows<T>(run: Run<T>, plan: seq<Call>)
  {
    && run.calls <= plan
    && (run.result.Ok? ==> run.calls == plan)
    && (run.result.Err? ==> run.result.error.Pico?)
  }

  lemma ThenFollows<T>(first: Run<()>, next: Run<T>, p: seq<Call>, q: seq<Call>)
    requires Follows(first, p) && Follows(next, q)
    ensures Follows(Then(first, next), p + q)
  {
    if first.result.Ok? {
      assert first.calls + next.calls == p + next.calls;
    } else {
      assert first.calls == (p + q)[..|first.calls|];
    }
  }

  /** The calls of a capture whose configurations resolve, whose counts and rate are valid, and whose search finds `found`. */
  function Plan(handle: I16, cfgs: seq<ChannelConfig>, count: U32, trig: Option<Trigger>,
                resolve: Resolver, start: U32, found: U32): (plan: seq<Call>)
    requires WellFormed(cfgs) && AllResolve(cfgs, resolve)
    requires ValidCounts(count, PreTrigger(trig)) && start <= found
  {
    [ cfgs[0].SetChannelCall(Resolved(resolve, cfgs[0].range, cfgs[0].attenuation)),
      cfgs[1].SetChannelCall(Resolved(resolve, cfgs[1].range, cfgs[1].attenuation)) ]
    + TriggerCalls(handle, cfgs, trig, resolve)
    + [BufferCall(handle, cfgs[0], count), BufferCall(handle, cfgs[1], count)]
    + Probes(handle, count, start, found)
    + TailCalls(handle, count, PreTrigger(trig), found)
  }

  lemma PushFollows(cfgs: seq<ChannelConfig>, resolve: Resolver, o: Oracle)
    requires |cfgs| == MAX_CHANNELS && AllResolve(cfgs, resolve)
    ensures Follows(PushSpec(cfgs, resolve, o),
                    [ cfgs[0].SetChannelCall(Resolved(resolve, cfgs[0].range, cfgs[0].attenuation)),
                      cfgs[1].SetChannelCall(Resolved(resolve, cfgs[1].range, cfgs[1].attenuation)) ])
  {
    var sc0 := cfgs[0].SetChannelCall(Resolved(resolve, cfgs[0].range, cfgs[0].attenuation));
    var sc1 := cfgs[1].SetChannelCall(Resolved(resolve, cfgs[1].range, cfgs[1].attenuation));
    ThenFollows(cfgs[0].UpdateSpec(resolve, o), cfgs[1].UpdateSpec(resolve, o), [sc0], [sc1]);
  }

  lemma TriggerFollows(handle: I16, cfgs: seq<ChannelConfig>, trig: Option<Trigger>, resolve: Resolver, o: Oracle)
    requires |cfgs| == MAX_CHANNELS && AllResolve(cfgs, resolve)
    ensures Follows(TriggerSpec(handle, cfgs, trig, resolve, o), TriggerCalls(handle, cfgs, trig, resolve))
  {
    if trig.None? {
      ThenFollows(Issue(DisableCall(handle, A), o), Issue(DisableCall(handle, B), o),
                  [DisableCall(handle, A)], [DisableCall(handle, B)]);
    }
  }

  lemma TailFollows(handle: I16, count: U32, pre: I32, tb: U32, o: Oracle)
    requires ValidCounts(count, pre)
    ensures Follows(TailSpec(handle, count, pre, tb, o), TailCalls(handle, count, pre, tb))
  {
    var c := TailCalls(handle, count, pre, tb);
    ThenFollows(Issue(c[2], o), Issue(c[3], o), [c[2]], [c[3]]);
    ThenFollows(Issue(c[1], o), Then(Issue(c[2], o), Issue(c[3], o)), [c[1]], [c[2]] + [c[3]]);
    ThenFollows(Issue(c[0], o), Then(Issue(c[1], o), Then(Issue(c[2], o), Issue(c[3], o))),
                [c[0]], [c[1]] + ([c[2]] + [c[3]]));
    assert [c[0]] + ([c[1]] + ([c[2]] + [c[3]])) == c;
  }

  lemma BlockFollows(handle: I16, cfgs: seq<ChannelConfig>, count: U32, start: U32, pre: I32, o: Oracle)
    requires WellFormed(cfgs) && ValidCounts(count, pre)
    requires SearchSpec(handle, count, start, o).result.Ok?
    ensures var found := SearchSpec(handle, count, start, o).result.value;
      && start <= found
      && Follows(BlockSpec(handle, cfgs, count, start, pre, o),
                 [BufferCall(handle, cfgs[0], count), BufferCall(handle, cfgs[1], count)]
                 + (Probes(handle, count, start, found) + TailCalls(handle, count, pre, found)))
  {
    var search := SearchSpec(handle, count, start, o);
    SearchFindsLeast(handle, count, start, o);
    var found := search.result.value;
    var b0 := Issue(BufferCall(handle, cfgs[0], count), o);
    var b1 := Issue(BufferCall(handle, cfgs[1], count), o);
    ThenFollows(b0, b1, [BufferCall(handle, cfgs[0], count)], [BufferCall(handle, cfgs[1], count)]);
    var tail := TailSpec(handle, count, pre, found, o);
    TailFollows(handle, count, pre, found, o);
    var rest := Run(tail.calls, if tail.result.Err? then Err(tail.result.error)
                                else Ok(Collected(cfgs, count, found, o)));
    var probes := Probes(handle, count, start, found);
    ThenFollows(Run(search.calls, Ok(())), rest, probes, TailCalls(handle, count, pre, found));
    ThenFollows(Then(b0, b1), Then(Run(search.calls, Ok(())), rest),
                [BufferCall(handle, cfgs[0], count), BufferCall(handle, cfgs[1], count)],
                probes + TailCalls(handle, count, pre, found));
    assert (Then(b0, b1).result.Ok? ==>
      Then(b0, b1).calls + (search.calls + tail.calls) == Then(b0, b1).calls + search.calls + tail.calls);
  }

  /**
   * With resolvable configurations, valid counts, a valid rate and a timebase
   * the driver accepts, a capture issues a prefix of its plan: all of it when
   * it succeeds, and otherwise it stops on a driver error. Run-block receives
   * pre- and post-trigger counts adding up to the sample count.
   */
  lemma CaptureFollowsPlan(handle: I16, cfgs: seq<ChannelConfig>, count: U32, rate: U32,
                           trig: Option<Trigger>, resolve: Resolver, o: Oracle)
    requires WellFormed(cfgs) && AllResolve(cfgs, resolve) && ValidCounts(count, PreTrigger(trig))
    requires StartTimebase(rate).Some?
    requires SearchSpec(handle, count, StartTimebase(rate).value, o).result.Ok?
    ensures var start := StartTimebase(rate).value;
            var found := SearchSpec(handle, count, start, o).result.value;
      && start <= found
      && var plan := Plan(handle, cfgs, count, trig, resolve, start, found);
      && Follows(CaptureSpec(handle, cfgs, count, rate, trig, resolve, o), plan)
      && plan[|plan| - 4].RunBlock?
      && plan[|plan| - 4].preTrigger + plan[|plan| - 4].postTrigger == count
      && plan[|plan| - 4].timebase == found
  {
    var start := StartTimebase(rate).value;
    var pre := PreTrigger(trig);
    BlockFollows(handle, cfgs, count, start, pre, o);
    var found := SearchSpec(handle, count, start, o).result.value;
    var push := PushSpec(cfgs, resolve, o);
    var sc := [ cfgs[0].SetChannelCall(Resolved(resolve, cfgs[0].range, cfgs[0].attenuation)),
                cfgs[1].SetChannelCall(Resolved(resolve, cfgs[1].range, cfgs[1].attenuation)) ];
    PushFollows(cfgs, resolve, o);
    var arm := TriggerSpec(handle, cfgs, trig, resolve, o);
    var armCalls := TriggerCalls(handle, cfgs, trig, resolve);
    TriggerFollows(handle, cfgs, trig, resolve, o);
    var block := BlockSpec(handle, cfgs, count, start, pre, o);
    var blockCalls := [BufferCall(handle, cfgs[0], count), BufferCall(handle, cfgs[1], count)]
                      + (Probes(handle, count, start, found) + TailCalls(handle, count, pre, found));
    ThenFollows(arm, block, armCalls, blockCalls);
    ThenFollows(push, Then(arm, block), sc, armCalls + blockCalls);
    CaptureComposes(handle, cfgs, count, rate, trig, resolve, o);
    PlanSplits(handle, cfgs, count, trig, resolve, start, found);
  }

  /**
   * Where both ranges resolve and the rate is valid, a capture is the plain
   * `?`-chain of its three steps, the form the plan lemmas compose.
   */
  lemma CaptureComposes(handle: I16, cfgs: seq<ChannelConfig>, count: U32, rate: U32,
                        trig: Option<Trigger>, resolve: Resolver, o: Oracle)
    requires WellFormed(cfgs) && AllResolve(cfgs, resolve) && StartTimebase(rate).Some?
    ensures CaptureSpec(handle, cfgs, count, rate, trig, resolve, o)
         == Then(PushSpec(cfgs, resolve, o),
                 Then(TriggerSpec(handle, cfgs, trig, resolve, o),
                      BlockSpec(handle, cfgs, count, StartTimebase(rate).value, PreTrigger(trig), o)))
  {
    var push := PushSpec(cfgs, resolve, o);
    var arm := TriggerSpec(handle, cfgs, trig, resolve, o);
    var block := BlockSpec(handle, cfgs, count, StartTimebase(rate).value, PreTrigger(trig), o);
    if push.result.Ok? && arm.result.Ok? {
      assert push.calls + arm.calls + block.calls == push.calls + (arm.calls + block.calls);
    }
  }

  lemma PlanSplits(handle: I16, cfgs: seq<ChannelConfig>, count: U32, trig: Option<Trigger>,
                   resolve: Resolver, start: U32, found: U32)
    requires WellFormed(cfgs) && AllResolve(cfgs, resolve)
    requires ValidCounts(count, PreTrigger(trig)) && start <= found
    ensures var plan := Plan(handle, cfgs, count, trig, resolve, start, found);
      && plan == [ cfgs[0].SetChannelCall(Resolved(resolve, cfgs[0].range, cfgs[0].attenuation)),
                   cfgs[1].SetChannelCall(Resolved(resolve, cfgs[1].range, cfgs[1].attenuation)) ]
                 + (TriggerCalls(handle, cfgs, trig, resolve)
                    + ([BufferCall(handle, cfgs[0], count), BufferCall(handle, cfgs[1], count)]
                       + (Probes(handle, count, start, found) + TailCalls(handle, count, PreTrigger(trig), found))))
      && plan[|plan| - 4] == TailCalls(handle, count, PreTrigger(trig), found)[0]
  {
  }

  // ---------------------------------------------------------------------------
  // Opening and closing the unit

  /** How `new` ends: with a unit, with the open call's error, or in a panic on a failed channel update. */
  datatype Opening = Opened | OpenFailed(error: Error) | Panicked(error: Error)

  datatype OpenRun = OpenRun(calls: seq<Call>, outcome: Opening)

  /** The configurations `new` installs: A then B, on the opened handle, with the defaults. */
  function DefaultConfigs(handle: I16): (cfgs: seq<ChannelConfig>)
    ensures WellFormed(cfgs)
  {
    [ChannelConfig.New(HwChannelA, handle), ChannelConfig.New(HwChannelB, handle)]
  }

  /** `PS4262::new`: open the unit, then push both default configurations, unwrapping each result. */
  function OpenSpec(resolve: Resolver, o: Oracle): (run: OpenRun)
    ensures |run.calls| >= 1 && run.calls[0] == OpenUnit
    ensures run.outcome.OpenFailed? <==> o.status(OpenUnit) != OK
    ensures run.outcome.OpenFailed? ==> run.calls == [OpenUnit] && run.outcome.error == Pico(o.status(OpenUnit))
  {
    var open := Issue(OpenUnit, o);
    if open.result.Err? then OpenRun(open.calls, OpenFailed(open.result.error))
    else
      var push := PushSpec(DefaultConfigs(o.openedHandle), resolve, o);
      OpenRun(open.calls + push.calls, if push.result.Err? then Panicked(push.result.error) else Opened)
  }

  /**
   * Opening calls open-unit first and fails with its status when that is not
   * OK. With a resolution that is the identity at ×1 the default ±5 V
   * configurations always resolve, so `new` panics only when the driver
   * rejects a set-channel call, and that call is the last one issued.
   */
  lemma OpenOutcomes(resolve: Resolver, o: Oracle)
    ensures var run := OpenSpec(resolve, o);
      && |run.calls| >= 1 && run.calls[0] == OpenUnit
      && (run.outcome.OpenFailed? <==> o.status(OpenUnit) != OK)
      && (run.outcome.OpenFailed? ==> run.calls == [OpenUnit] && run.outcome.error == Pico(o.status(OpenUnit)))
      && (run.outcome.Opened? ==>
            var cfgs := DefaultConfigs(o.openedHandle);
            && AllResolve(cfgs, resolve)
            && run.calls == [ OpenUnit,
                              cfgs[0].SetChannelCall(Resolved(resolve, Range5v, X1)),
                              cfgs[1].SetChannelCall(Resolved(resolve, Range5v, X1)) ])
      && (IdentityAtX1(resolve) && run.outcome.Panicked? ==>
            && run.outcome.error.Pico?
            && run.calls[|run.calls| - 1].SetChannel?
            && o.status(run.calls[|run.calls| - 1]) == run.outcome.error.status != OK)
  {
    var run := OpenSpec(resolve, o);
    if o.status(OpenUnit) == OK {
      var cfgs := DefaultConfigs(o.openedHandle);
      var push := PushSpec(cfgs, resolve, o);
      if IdentityAtX1(resolve) {
        assert resolve(Range5v, X1) == Some(Range5v);
        assert AllResolve(cfgs, resolve);
        PushFollows(cfgs, resolve, o);
      }
      if push.result.Ok? {
        PushFollows(cfgs, resolve, o);
      }
    }
  }

  /** The outcome of `close`: the calls, the result and the handle afterwards. */
  datatype Closing = Closing(calls: seq<Call>, result: Result<()>, handle: I16)

  /** `close`: nothing on a negative handle; otherwise close-unit, and the handle becomes -1 only if it succeeded. */
  function CloseSpec(handle: I16, o: Oracle): (c: Closing)
    ensures handle < 0 ==> c == Closing([], Ok(()), handle)
    ensures handle >= 0 ==> c.calls == [CloseUnit(handle)]
    ensures handle >= 0 ==> (c.result.Ok? <==> o.status(CloseUnit(handle)) == OK)
    ensures c.result.Err? ==> c.result.error == Pico(o.status(CloseUnit(handle))) && c.handle == handle
    ensures c.result.Ok? ==> c.handle < 0
    ensures handle >= 0 && c.result.Ok? ==> c.handle == -1
  {
    if handle < 0 then Closing([], Ok(()), handle)
    else
      var r := CheckPicoStatus(o.status(CloseUnit(handle)));
      Closing([CloseUnit(handle)], r, if r.Ok? then -1 else handle)
  }

  /** Closing is idempotent: after a successful close, closing again issues nothing and succeeds. */
  lemma CloseIdempotent(handle: I16, o: Oracle)
    requires CloseSpec(handle, o).result.Ok?
    ensures var h := CloseSpec(handle, o).handle;
      CloseSpec(h, o) == Closing([], Ok(()), h)
  {
  }

  // ---------------------------------------------------------------------------
  // The oscilloscope

  /** A PS4262: the unit handle and the two channel configurations, talking to the driver `drv`. */
  class PS4262 {
    var handle: I16
    const channels: array<ChannelConfig>
    const drv: Driver
    const resolve: Resolver

    ghost predicate Valid()
      reads channels
    {
      channels.Length == MAX_CHANNELS && WellFormed(channels[..])
    }

    constructor Init(drv: Driver, resolve: Resolver, handle: I16)
      ensures Valid() && fresh(channels)
      ensures this.drv == drv && this.resolve == resolve && this.handle == handle
      ensures channels[..] == DefaultConfigs(handle)
    {
      this.drv := drv;
      this.resolve := resolve;
      this.handle := handle;
      channels := new ChannelConfig[2][ChannelConfig.New(HwChannelA, handle), ChannelConfig.New(HwChannelB, handle)];
    }

    /** `PS4262::new`. */
    static method New(drv: Driver, resolve: Resolver) returns (outcome: Opening, pico: PS4262?)
      modifies drv
      ensures drv.trace == old(drv.trace) + OpenSpec(resolve, drv.oracle).calls
      ensures outcome == OpenSpec(resolve, drv.oracle).outcome
      ensures outcome.Opened? <==> pico != null
      ensures pico != null ==>
        && fresh(pico) && fresh(pico.channels) && pico.Valid()
        && pico.drv == drv && pico.resolve == resolve
        && pico.handle == drv.oracle.openedHandle
        && pico.channels[..] == DefaultConfigs(drv.oracle.openedHandle)
    {
      var s := drv.Issue(OpenUnit);
      var r := CheckPicoStatus(s);
      if r.Err? {
        return OpenFailed(r.error), null;
      }
      var p := new PS4262.Init(drv, resolve, drv.oracle.openedHandle);
      var ra := p.channels[0].Update(drv, resolve);
      if ra.Err? {
        return Panicked(ra.error), null;
      }
      var rb := p.channels[1].Update(drv, resolve);
      if rb.Err? {
        return Panicked(rb.error), null;
      }
      return Opened, p;
    }

    /** `close`. */
    method Close() returns (r: Result<()>)
      modifies this, drv
      ensures drv.trace == old(drv.trace) + CloseSpec(old(handle), drv.oracle).calls
      ensures r == CloseSpec(old(handle), drv.oracle).result
      ensures handle == CloseSpec(old(handle), drv.oracle).handle
    {
      if handle < 0 {
        return Ok(());
      }
      var s := drv.Issue(CloseUnit(handle));
      r := CheckPicoStatus(s);
      if r.Err? {
        return;
      }
      handle := -1;
    }

    /** `Index<Channel>`: A's configuration is in slot 0, B's in slot 1. */
    function Config(ch: Channel): (cfg: ChannelConfig)
      reads channels
      requires Valid()
      ensures cfg == channels[Slot(ch)]
      ensures cfg.channel == ChannelToHardware(ch)
    {
      match ch
      case A => channels[0]
      case B => channels[1]
    }

    /**
     * `IndexMut<Channel>` followed by assignments to the public fields: the
     * channel's configuration takes the new values and keeps its handle and
     * channel; the other channel's configuration is untouched.
     */
    method Configure(ch: Channel, enable: bool, coupling: Coupling, range: Range, attenuation: Attenuation)
      requires Valid()
      modifies channels
      ensures Valid()
      ensures channels[Slot(ch)] == old(channels[Slot(ch)]).(enable := enable, coupling := coupling,
                                                              range := range, attenuation := attenuation)
      ensures channels[Slot(Other(ch))] == old(channels[Slot(Other(ch))])
    {
      var i := match ch case A => 0 case B => 1;
      channels[i] := channels[i].(enable := enable, coupling := coupling, range := range, attenuation := attenuation);
    }

    /** `disable_trigger`. */
    method DisableTrigger() returns (r: Result<()>)
      modifies drv
      ensures drv.trace == old(drv.trace) + DisableSpec(handle, drv.oracle).calls
      ensures r == DisableSpec(handle, drv.oracle).result
    {
      var s := drv.Issue(DisableCall(handle, A));
      r := CheckPicoStatus(s);
      if r.Err? {
        return;
      }
      s := drv.Issue(DisableCall(handle, B));
      r := CheckPicoStatus(s);
    }

    /** `set_trigger`: the threshold is converted under the trigger channel's current range and attenuation. */
    method SetTrigger(cond: Trigger) returns (r: Result<()>)
      requires Valid()
      requires Resolves(resolve, Config(cond.channel).range, Config(cond.channel).attenuation)
      modifies drv
      ensures drv.trace == old(drv.trace) + [ArmCall(handle, channels[..], cond, resolve)]
      ensures r == CheckPicoStatus(drv.oracle.status(ArmCall(handle, channels[..], cond, resolve)))
    {
      var cfg := Config(cond.channel);
      var s := drv.Issue(SetSimpleTrigger(handle, 1, ChannelToHardware(cond.channel),
                                          MvToAdc(cond.valueMv, cfg.attenuation, cfg.range, resolve),
                                          DirectionToHardware(cond.dir), cond.delay, cond.autoTriggerMs));
      r := CheckPicoStatus(s);
    }

    /** The loop of `block_data_handler` that increments the timebase until get-timebase accepts it. */
    method FindTimebase(count: I32, start: U32) returns (r: Result<U32>)
      modifies drv
      ensures drv.trace == old(drv.trace) + SearchSpec(handle, count, start, drv.oracle).calls
      ensures r == SearchSpec(handle, count, start, drv.oracle).result
    {
      ghost var total := SearchSpec(handle, count, start, drv.oracle);
      var t := start;
      while true
        invariant start <= t
        invariant drv.trace + SearchSpec(handle, count, t, drv.oracle).calls == old(drv.trace) + total.calls
        invariant SearchSpec(handle, count, t, drv.oracle).result == total.result
        decreases U32_MAX - t
      {
        SearchUnfolds(handle, count, t, drv.oracle);
        var s := drv.Issue(ProbeCall(handle, count, t));
        if s == OK {
          return Ok(t);
        }
        if t == U32_MAX {
          return Err(NoValidTimebase);
        }
        t := t + 1;
      }
    }

    /** The two set-data-buffers calls of `block_data_handler`, A's buffers then B's. */
    method RegisterBuffers(count: U32) returns (r: Result<()>)
      requires Valid() && count <= I32_MAX
      modifies drv
      ensures drv.trace == old(drv.trace) + BuffersSpec(handle, channels[..], count, drv.oracle).calls
      ensures r == BuffersSpec(handle, channels[..], count, drv.oracle).result
    {
      var s := drv.Issue(BufferCall(handle, Config(A), count));
      r := CheckPicoStatus(s);
      if r.Err? {
        return;
      }
      s := drv.Issue(BufferCall(handle, Config(B), count));
      r := CheckPicoStatus(s);
    }

    /** Run the block on the found timebase, then (in the capture thread) poll once, stop and fetch the values. */
    method RunAndFetch(count: U32, pre: I32, tb: U32) returns (r: Result<()>)
      requires ValidCounts(count, pre)
      modifies drv
      ensures drv.trace == old(drv.trace) + TailSpec(handle, count, pre, tb, drv.oracle).calls
      ensures r == TailSpec(handle, count, pre, tb, drv.oracle).result
    {
      var s := drv.Issue(RunBlock(handle, pre, count - pre, tb, 1, 0));
      r := CheckPicoStatus(s);
      if r.Err? {
        return;
      }
      s := drv.Issue(IsReady(handle));
      r := CheckPicoStatus(s);
      if r.Err? {
        return;
      }
      s := drv.Issue(Stop(handle));
      r := CheckPicoStatus(s);
      if r.Err? {
        return;
      }
      s := drv.Issue(GetValues(handle, 0, count, 1, HwRatioNone, 0));
      r := CheckPicoStatus(s);
    }

    /**
     * `block_data_handler`, with the capture thread joined: register both
     * buffers, search the timebase, run the block, then poll, stop and fetch.
     */
    method BlockDataHandler(bufferSize: U32, timebase: U32, preTrigger: I32) returns (r: Result<BlockData>)
      requires Valid()
      modifies drv
      ensures drv.trace == old(drv.trace) + BlockSpec(handle, channels[..], bufferSize, timebase, preTrigger, drv.oracle).calls
      ensures r == BlockSpec(handle, channels[..], bufferSize, timebase, preTrigger, drv.oracle).result
    {
      ghost var before := drv.trace;
      ghost var cfgs := channels[..];
      ghost var spec := BlockSpec(handle, cfgs, bufferSize, timebase, preTrigger, drv.oracle);
      if !ValidCounts(bufferSize, preTrigger) {
        return Err(InvalidSampleCounts);
      }
      var a := Config(A);
      var b := Config(B);
      var minPinned := map[a.channel := Zeros(bufferSize), b.channel := Zeros(bufferSize)];
      var maxPinned := map[a.channel := Zeros(bufferSize), b.channel := Zeros(bufferSize)];
      ghost var buffers := BuffersSpec(handle, cfgs, bufferSize, drv.oracle);
      var registered := RegisterBuffers(bufferSize);
      if registered.Err? {
        assert spec == Run(buffers.calls, Err(registered.error));
        return Err(registered.error);
      }
      ghost var search := SearchSpec(handle, bufferSize, timebase, drv.oracle);
      var found := FindTimebase(bufferSize, timebase);
      if found.Err? {
        AppendAssoc(before, buffers.calls, search.calls);
        return Err(found.error);
      }
      var interval := drv.oracle.interval(found.value);
      var ranges := map[a.channel := a.range, b.channel := b.range];
      var attenuations := map[a.channel := a.attenuation, b.channel := b.attenuation];
      ghost var tail := TailSpec(handle, bufferSize, preTrigger, found.value, drv.oracle);
      var fetched := RunAndFetch(bufferSize, preTrigger, found.value);
      AppendAssoc(before, buffers.calls, search.calls);
      AppendAssoc(before, buffers.calls + search.calls, tail.calls);
      if fetched.Err? {
        return Err(fetched.error);
      }
      // the driver has written the captured codes into the registered max buffers
      maxPinned := map[a.channel := Filled(bufferSize, drv.oracle.written(a.channel)),
                       b.channel := Filled(bufferSize, drv.oracle.written(b.channel))];
      r := Ok(BlockData.New(drv.oracle.returned(bufferSize), drv.oracle.overflow, interval,
                            minPinned, maxPinned, ranges, attenuations));
      assert spec.result == Ok(Collected(cfgs, bufferSize, found.value, drv.oracle));
    }

    /** Push both configurations, stopping at the first error. */
    method PushChannels() returns (r: Result<()>)
      requires Valid()
      modifies drv
      ensures drv.trace == old(drv.trace) + PushSpec(channels[..], resolve, drv.oracle).calls
      ensures r == PushSpec(channels[..], resolve, drv.oracle).result
    {
      r := channels[0].Update(drv, resolve);
      if r.Err? {
        return;
      }
      r := channels[1].Update(drv, resolve);
    }

    /** The shared first lines of the two collect functions: push both configurations, then disarm or arm the trigger. */
    method Prepare(trig: Option<Trigger>) returns (r: Result<()>)
      requires Valid()
      modifies drv
      ensures drv.trace == old(drv.trace) + PrepareSpec(handle, channels[..], trig, resolve, drv.oracle).calls
      ensures r == PrepareSpec(handle, channels[..], trig, resolve, drv.oracle).result
    {
      ghost var before := drv.trace;
      ghost var push := PushSpec(channels[..], resolve, drv.oracle);
      r := PushChannels();
      if r.Err? {
        return;
      }
      ghost var arm := TriggerSpec(handle, channels[..], trig, resolve, drv.oracle);
      if trig.None? {
        r := DisableTrigger();
      } else {
        r := SetTrigger(trig.value);
      }
      AppendAssoc(before, push.calls, arm.calls);
    }

    /** `collect_block_immediate`. */
    method CollectBlockImmediate(sampleCount: U32, sampleRate: U32) returns (r: Result<BlockData>)
      requires Valid()
      modifies drv
      ensures drv.trace == old(drv.trace)
        + CaptureSpec(handle, channels[..], sampleCount, sampleRate, Option.None, resolve, drv.oracle).calls
      ensures r == CaptureSpec(handle, channels[..], sampleCount, sampleRate, Option.None, resolve, drv.oracle).result
    {
      CaptureSteps(handle, channels[..], sampleCount, sampleRate, Option.None, resolve, drv.oracle);
      ghost var before := drv.trace;
      var prepared := Prepare(Option.None);
      if prepared.Err? {
        return Err(prepared.error);
      }
      var start := StartTimebase(sampleRate);
      if start.None? {
        return Err(InvalidSampleRate);
      }
      ghost var prep := PrepareSpec(handle, channels[..], Option.None, resolve, drv.oracle);
      ghost var block := BlockSpec(handle, channels[..], sampleCount, start.value, 0, drv.oracle);
      r := BlockDataHandler(sampleCount, start.value, 0);
      AppendAssoc(before, prep.calls, block.calls);
    }

    /** `collect_block_triggered`, with the capture thread joined. */
    method CollectBlockTriggered(sampleCount: U32, sampleRate: U32, cond: Trigger) returns (r: Result<BlockData>)
      requires Valid()
      modifies drv
      ensures drv.trace == old(drv.trace)
        + CaptureSpec(handle, channels[..], sampleCount, sampleRate, Option.Some(cond), resolve, drv.oracle).calls
      ensures r == CaptureSpec(handle, channels[..], sampleCount, sampleRate, Option.Some(cond), resolve, drv.oracle).result
    {
      CaptureSteps(handle, channels[..], sampleCount, sampleRate, Option.Some(cond), resolve, drv.oracle);
      ghost var before := drv.trace;
      var prepared := Prepare(Option.Some(cond));
      if prepared.Err? {
        return Err(prepared.error);
      }
      var start := StartTimebase(sampleRate);
      if start.None? {
        return Err(InvalidSampleRate);
      }
      ghost var prep := PrepareSpec(handle, channels[..], Option.Some(cond), resolve, drv.oracle);
      ghost var block := BlockSpec(handle, channels[..], sampleCount, start.value, cond.preTriggerSamples, drv.oracle);
      r := BlockDataHandler(sampleCount, start.value, cond.preTriggerSamples);
      AppendAssoc(before, prep.calls, block.calls);
    }
  }
}

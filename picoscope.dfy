/**
 * The acquisition session: the PicoScope object, its configuration fields,
 * its output buffer and capture summary, and the driver calls each operation
 * makes, in order.
 */
module Session {
  import opened Base
  import opened Ps6000Api
  import opened ScopeTypes
  import opened PicoHelpers

  /** fetchData's `return -1`, converted to the unsigned PICO_STATUS. */
  const NOT_READY: Status := 0xFFFF_FFFF
  /** The status the configuration setters return for a rejected value. */
  const REJECTED: Status := 1

  /** The two GetUnitInfo calls of setInfo; none when the handle is 0. */
  function InfoCalls(handle: Int16): seq<Call> {
    if handle != 0 then [GetUnitInfo(handle, PICO_VARIANT_INFO), GetUnitInfo(handle, PICO_BATCH_AND_SERIAL)]
    else []
  }

  /** The five calls of setTrigger, in order. */
  function SetTriggerCalls(handle: Int16, properties: seq<TriggerChannelProperties>,
                           conditions: seq<TriggerConditions>, directions: TriggerDirections,
                           pwq: Pwq, delay: Option<UInt32>, auxOutputEnabled: int,
                           autoTriggerMilliseconds: int): seq<Call>
  {
    [SetTriggerChannelProperties(handle, properties, auxOutputEnabled, autoTriggerMilliseconds)] +
    ([SetTriggerChannelConditions(handle, conditions)] +
    ([SetTriggerChannelDirections(handle, directions)] +
    ([SetTriggerDelay(handle, delay)] +
    ([SetPulseWidthQualifier(handle, pwq)] + []))))
  }

  /** The trigger of doTriggerSet: a level on channel D, hysteresis 256 * 10 codes. */
  function TriggerSource(level: Int16): TriggerChannelProperties {
    TriggerChannelProperties(level, 256 * 10, level, 256 * 10, PS6000_CHANNEL_D, Level)
  }

  /** Channel D must be true, every other source is "don't care". */
  const TRIGGER_CONDITIONS :=
    TriggerConditions(DontCare, DontCare, DontCare, StateTrue, DontCare, DontCare, DontCare)

  /** Rising edge on channel D, no direction anywhere else. */
  const TRIGGER_DIRECTIONS :=
    TriggerDirections(NoDirection, NoDirection, NoDirection, Rising, NoDirection, NoDirection)

  /** The memset(0) pulse-width qualifier. */
  const ZERO_PWQ := Pwq(0, 0, 0, 0, 0)

  /** The SetChannel call for channel `i`: channels A and B get the offset, C and D get 0. */
  function ChannelCall(handle: Int16, cs: seq<ChannelSettings>, i: nat, offset: real, bandwidth: int): Call
    requires i < |cs|
  {
    SetChannel(handle, PS6000_CHANNEL_A + i, cs[i].enabled, cs[i].dcCoupled, cs[i].range,
               if i == 0 || i == 1 then offset else 0.0, bandwidth)
  }

  /** The SetChannel calls for channels A to D. */
  function ChannelCalls(handle: Int16, cs: seq<ChannelSettings>, offset: real, bandwidth: int): (r: seq<Call>)
    requires |cs| == PS6000_MAX_CHANNELS
  {
    [ChannelCall(handle, cs, 0, offset, bandwidth), ChannelCall(handle, cs, 1, offset, bandwidth),
     ChannelCall(handle, cs, 2, offset, bandwidth), ChannelCall(handle, cs, 3, offset, bandwidth)]
  }

  /**
   * The driver calls of a first digitizer setup after the trigger: ETS off,
   * the four channels, the memory segments, the number of captures.
   */
  function DigitizerCalls(handle: Int16, cs: seq<ChannelSettings>, offset: real, bandwidth: int, segments: int): (r: seq<Call>)
    requires |cs| == PS6000_MAX_CHANNELS
    ensures |r| == 7
  {
    [SetEts(handle, PS6000_ETS_OFF, 0, 0)] + ChannelCalls(handle, cs, offset, bandwidth)
      + [MemorySegments(handle, segments)] + [SetNoOfCaptures(handle, segments)]
  }

  /** `k` IsReady polls. */
  function Polls(handle: Int16, k: nat): (r: seq<Call>)
    ensures |r| == k
  {
    if k == 0 then [] else Polls(handle, k - 1) + [IsReady(handle)]
  }

  /** The SetDataBufferBulk calls binding segments 0 .. k - 1 to channel A, in that order. */
  function BindCalls(handle: Int16, samples: int, k: nat): (r: seq<Call>)
    ensures |r| == k
  {
    if k == 0 then []
    else BindCalls(handle, samples, k - 1) + [SetDataBufferBulk(handle, PS6000_CHANNEL_A, samples, k - 1, PS6000_RATIO_MODE_NONE)]
  }

  /**
   * The five calls doTriggerSet makes through setTrigger for unit `u`: a
   * 2000 mV level on channel D in ADC codes of its range, and the delay in
   * samples (undefined when the conversion overflows).
   */
  function TriggerSetupCalls(u: Unit, delayTime: real, rate: real): seq<Call>
    requires |u.channelSettings| == PS6000_MAX_CHANNELS
    requires 0 <= u.channelSettings[PS6000_CHANNEL_D].range < PS6000_MAX_RANGES
  {
    var level := MvToADC(2000, u.channelSettings[PS6000_CHANNEL_D].range);
    SetTriggerCalls(u.handle, [TriggerSource(level)], [TRIGGER_CONDITIONS], TRIGGER_DIRECTIONS,
                    ZERO_PWQ, DelayCount(delayTime, rate), 0, 0)
  }

  /** The RunBlock call of doAcquisition: no pre-trigger samples, oversample 1, segment 0. */
  function RunBlockCall(handle: Int16, samples: int, rate: real): Call {
    RunBlock(handle, 0, samples, TimeBase(rate), 1, 0)
  }

  /** The bulk read of fetchData: segments 0 .. segments - 1, no downsampling. */
  function BulkCall(handle: Int16, segments: int): Call {
    GetValuesBulk(handle, 0, segments - 1, 1, PS6000_RATIO_MODE_NONE)
  }

  /** The poll after history `h` ends the wait: a status other than PICO_OK, or the ready flag. */
  ghost predicate PollStops(drv: Driver, h: seq<Call>, handle: Int16) {
    drv.status(h, IsReady(handle)) != PICO_OK || drv.readyOf(h) != 0
  }

  /**
   * A first setDigitizer reaches SetNoOfCaptures, and so the allocation,
   * exactly when ETS, the four channels and the memory segmentation were all
   * answered PICO_OK.
   */
  lemma {:induction false} DigitizerReached(drv: Driver, h: seq<Call>, calls: seq<Call>)
    requires |calls| == 7
    ensures |drv.FailFast(h, calls).0| == 7 <==> drv.AnsweredOk(h, calls[..6])
  {
    assert calls == calls[..6] + [calls[6]];
    drv.FailFastAppend(h, calls[..6], [calls[6]]);
    drv.FailFastOkIff(h, calls[..6]);
    drv.FailFastIssued(h, calls[..6]);
    drv.FailFastSingle(h + calls[..6], calls[6]);
  }

  class PicoScope {
    /** The vendor driver the session talks to. */
    const drv: Driver
    /** sdDataList, the capture summary. */
    const sdDataList: ScopeData

    var nSamples: Int32
    var nSegments: Int32
    /** In GHz. */
    var lfAcquisitionRate: real
    /** In seconds. */
    var lfSampleInterval: real
    /** In seconds. */
    var lfDelayTime: real
    var nSegmentOffset: Int32
    /** The output buffer; null when none is held. */
    var pcData: array?<Int8>

    var nModelNumber: Int32
    var uAllUnit: Unit
    /** A PS6000_RANGE code. */
    var nFullScale: Int32
    var lfOffset: real
    var nCoupling: Int32
    var nBandwidth: Int32

    var nTbNextSegmentPad: Int32
    var nBufferLength: Int32
    var nTimeOut: Int32
    var isOpened: bool
    var isAcquisitionReady: bool

    /** The buffers SAFE_FREE has released, oldest first. */
    ghost var freed: seq<array<Int8>>

    /**
     * The invariant every operation keeps: the horizontal and trigger settings
     * are ones the setters accept, the sample interval and segment offset are
     * derived from them, the unit record has its four channels with a valid
     * range code on the trigger channel, and the model is one setInfo produces.
     */
    ghost predicate Valid()
      reads this
    {
      && HorizontalAccepted(lfAcquisitionRate, nSamples, nSegments)
      && lfSampleInterval == 1.0 / (lfAcquisitionRate * 1e9)
      && nSegmentOffset == nSamples
      && DelayAccepted(lfDelayTime)
      && nTbNextSegmentPad == 0
      && |uAllUnit.channelSettings| == PS6000_MAX_CHANNELS
      && 0 <= uAllUnit.channelSettings[PS6000_CHANNEL_D].range < PS6000_MAX_RANGES
      && nModelNumber in {MODEL_PS6402C, MODEL_PS6404C, MODEL_PS6404D}
    }

    /**
     * The defaults of the header. The constructor of main.cpp leaves the unit record and the
     * ready flag uninitialised; here they start zeroed and false.
     */
    constructor (drv: Driver)
      ensures Valid() && this.drv == drv && fresh(sdDataList)
      ensures !isOpened && !isAcquisitionReady && pcData == null && freed == []
      ensures nSamples == DEFAULT_NUM_SAMPLE && nSegments == DEFAULT_NUM_SEGMENT
      ensures lfAcquisitionRate == DEFAULT_SAMPLE_RATE && lfSampleInterval == DEFAULT_SAMPLE_INTERVAL
      ensures nSegmentOffset == DEFAULT_NUM_SAMPLE && lfDelayTime == DEFAULT_DELAYTIME
      ensures nFullScale == Truncate(DEFAULT_VERTICAL_FULLSCALE) == PS6000_10MV
      ensures lfOffset == DEFAULT_VERTICAL_OFFSET && nCoupling == DEFAULT_VERTICAL_COUPLING
      ensures nBandwidth == DEFAULT_VERTICAL_BANDWIDTH && nTbNextSegmentPad == 0
      ensures nTimeOut == DEFAULT_TIMEOUT && nBufferLength == 0 && nModelNumber == MODEL_PS6402C
      ensures uAllUnit == ZERO_UNIT && sdDataList.IsCleared()
    {
      this.drv := drv;
      sdDataList := new ScopeData();
      isOpened := false;
      isAcquisitionReady := false;
      nSamples := DEFAULT_NUM_SAMPLE;
      nSegments := DEFAULT_NUM_SEGMENT;
      lfAcquisitionRate := DEFAULT_SAMPLE_RATE;
      lfSampleInterval := DEFAULT_SAMPLE_INTERVAL;
      nSegmentOffset := DEFAULT_NUM_SAMPLE;
      lfDelayTime := DEFAULT_DELAYTIME;
      nFullScale := Truncate(DEFAULT_VERTICAL_FULLSCALE);
      lfOffset := DEFAULT_VERTICAL_OFFSET;
      nCoupling := DEFAULT_VERTICAL_COUPLING;
      nBandwidth := DEFAULT_VERTICAL_BANDWIDTH;
      nTbNextSegmentPad := 0;
      nTimeOut := DEFAULT_TIMEOUT;
      nBufferLength := 0;
      pcData := null;
      nModelNumber := MODEL_PS6402C;
      uAllUnit := ZERO_UNIT;
      freed := [];
      new;
      sdDataList.Clear();
    }

    /** open: a zeroed unit record that keeps the handle and status OpenUnit reports; opened on PICO_OK. */
    method Open() returns (s: Status)
      requires Valid()
      modifies this`uAllUnit, this`isOpened, drv
      ensures Valid()
      ensures drv.log == old(drv.log) + [OpenUnit]
      ensures s == drv.status(old(drv.log), OpenUnit)
      ensures uAllUnit == ZERO_UNIT.(handle := drv.handleOf(old(drv.log)), openStatus := Wrap16(s), complete := 1)
      ensures isOpened == (old(isOpened) || s == PICO_OK)
    {
      uAllUnit := ZERO_UNIT;
      var handle;
      handle, s := drv.OpenUnit();
      uAllUnit := uAllUnit.(handle := handle, openStatus := Wrap16(s), complete := 1);
      if s == PICO_OK {
        isOpened := true;
      }
    }

    /** close: closed afterwards whatever CloseUnit answers. */
    method Close() returns (s: Status)
      requires Valid()
      modifies this`isOpened, drv
      ensures Valid() && !isOpened
      ensures drv.log == old(drv.log) + [CloseUnit(uAllUnit.handle)]
      ensures s == drv.status(old(drv.log), CloseUnit(uAllUnit.handle))
    {
      s := drv.Request(CloseUnit(uAllUnit.handle));
      isOpened := false;
    }

    method IsOpen() returns (r: bool)
      requires Valid()
      ensures Valid() && r == isOpened
    {
      r := isOpened;
    }

    /**
     * setConfigVertical: stores range and offset as given; the coupling is
     * always DC 50 ohm and the bandwidth limit is the model's (see
     * EffectiveBandwidth). Always succeeds.
     */
    method SetConfigVertical(fullScale: Int32, offset: real, coupling: Int32, bandwidth: Int32) returns (s: Status)
      requires Valid()
      modifies this`nFullScale, this`lfOffset, this`nCoupling, this`nBandwidth
      ensures Valid() && s == PICO_OK
      ensures nFullScale == fullScale && lfOffset == offset && nCoupling == PS6000_DC_50R
      ensures nBandwidth == EffectiveBandwidth(bandwidth, nModelNumber)
    {
      var bw := bandwidth;
      if bw != PS6000_BW_FULL {
        if nModelNumber == MODEL_PS6402C {
          bw := PS6000_BW_20MHZ;
        } else {
          bw := PS6000_BW_25MHZ;
        }
      }
      nFullScale := fullScale;
      lfOffset := offset;
      nCoupling := PS6000_DC_50R;
      nBandwidth := bw;
      s := 0;
    }

    /**
     * setConfigHorizontal: rate within [0.05, 5.0] GHz widened by 1e-6, 1 to
     * 262144 samples and 1 to 2000 segments; otherwise returns 1 and keeps the
     * previous settings.
     */
    method SetConfigHorizontal(rate: real, samples: Int32, segments: Int32) returns (s: Status)
      requires Valid()
      modifies this`lfAcquisitionRate, this`lfSampleInterval, this`nSamples, this`nSegments, this`nSegmentOffset
      ensures Valid()
      ensures s == PICO_OK <==> HorizontalAccepted(rate, samples, segments)
      ensures s == PICO_OK || s == REJECTED
      ensures s == PICO_OK ==>
                && lfAcquisitionRate == rate && nSamples == samples && nSegments == segments
                && lfSampleInterval == 1.0 / (rate * 1e9) && nSegmentOffset == samples
      ensures s != PICO_OK ==>
                && lfAcquisitionRate == old(lfAcquisitionRate) && lfSampleInterval == old(lfSampleInterval)
                && nSamples == old(nSamples) && nSegments == old(nSegments) && nSegmentOffset == old(nSegmentOffset)
    {
      if rate < 0.05 - 1e-6 || rate > 5.0 + 1e-6 {
        return 1;
      }
      if samples < 1 || samples > 256 * 1024 {
        return 1;
      }
      if segments < 1 || segments > 2000 {
        return 1;
      }
      lfAcquisitionRate := rate;
      lfSampleInterval := 1.0 / (rate * 1e9);
      nSamples := samples;
      nSegments := segments;
      nSegmentOffset := samples;
      s := 0;
    }

    /** setConfigTrigger: a delay within [-2e-8 * 262144, 10.0] s is stored; otherwise returns 1. */
    method SetConfigTrigger(delay: real) returns (s: Status)
      requires Valid()
      modifies this`lfDelayTime
      ensures Valid()
      ensures s == PICO_OK <==> DelayAccepted(delay)
      ensures s == PICO_OK || s == REJECTED
      ensures lfDelayTime == if s == PICO_OK then delay else old(lfDelayTime)
    {
      if delay < -2e-8 * 256.0 * 1024.0 || delay > 10.0 {
        return 1;
      }
      lfDelayTime := delay;
      s := 0;
    }

    /** SAFE_FREE(pcData). */
    method FreeData()
      modifies this`pcData, this`freed
      ensures (freed, pcData) == SafeFree(old(pcData), old(freed))
    {
      if pcData != null {
        freed := freed + [pcData];
        pcData := null;
      }
    }

    /** A fresh, zero-filled buffer of samples * (segments + 1) bytes is held. */
    ghost predicate Allocated()
      reads this, pcData
    {
      && pcData != null
      && nBufferLength == nSamples * (nSegments + 1)
      && pcData.Length == nBufferLength
      && forall i :: 0 <= i < pcData.Length ==> pcData[i] == 0
    }

    /** The unit record and model number setInfo leaves, from unit `u` and driver history `h`. */
    ghost function InfoResult(u: Unit, h: seq<Call>): (Unit, int)
      reads this
      requires |u.channelSettings| == PS6000_MAX_CHANNELS
    {
      if u.handle == 0 then (u, nModelNumber)
      else
        var line := drv.InfoText(h, PICO_VARIANT_INFO, 7);
        var model := ModelOf(VariantCode(line));
        var serial := drv.InfoText(h + [GetUnitInfo(u.handle, PICO_VARIANT_INFO)], PICO_BATCH_AND_SERIAL, 10);
        (ChannelMap(u, model, nFullScale, nCoupling).(modelString := line, serial := serial), model)
    }

    /**
     * setInfo: with a non-zero handle, reads the variant text into a 7-byte
     * buffer, decodes the model and sets up the channel map, then reads the
     * serial into a 10-byte buffer. With handle 0 it does nothing.
     */
    method SetInfo()
      requires Valid()
      modifies this`uAllUnit, this`nModelNumber, drv
      ensures Valid()
      ensures drv.log == old(drv.log) + InfoCalls(old(uAllUnit.handle))
      ensures (uAllUnit, nModelNumber as int) == old(InfoResult(uAllUnit, drv.log))
    {
      if uAllUnit.handle != 0 {
        var handle := uAllUnit.handle;
        var line := drv.GetUnitInfo(handle, PICO_VARIANT_INFO, 7);
        var variant := VariantCode(line);
        var model := ModelOf(variant);
        uAllUnit := ChannelMap(uAllUnit, model, nFullScale, nCoupling).(modelString := line);
        nModelNumber := model;
        var serial := drv.GetUnitInfo(handle, PICO_BATCH_AND_SERIAL, 10);
        uAllUnit := uAllUnit.(serial := serial);
      }
    }

    /**
     * setTrigger: channel properties, conditions, directions, delay and
     * pulse-width qualifier, in that order, stopping at the first failure.
     */
    method SetTrigger(handle: Int16, properties: seq<TriggerChannelProperties>,
                      conditions: seq<TriggerConditions>, directions: TriggerDirections,
                      pwq: Pwq, delay: Option<UInt32>, auxOutputEnabled: int,
                      autoTriggerMilliseconds: int) returns (s: Status)
      modifies drv
      ensures var r := drv.FailFast(old(drv.log), SetTriggerCalls(handle, properties, conditions, directions,
                                                                  pwq, delay, auxOutputEnabled, autoTriggerMilliseconds));
              drv.log == old(drv.log) + r.0 && s == r.1
    {
      var c0 := SetTriggerChannelProperties(handle, properties, auxOutputEnabled, autoTriggerMilliseconds);
      var c1 := SetTriggerChannelConditions(handle, conditions);
      var c2 := SetTriggerChannelDirections(handle, directions);
      var c3 := SetTriggerDelay(handle, delay);
      var c4 := SetPulseWidthQualifier(handle, pwq);
      ghost var t4: seq<Call> := [c4] + [];
      ghost var t3 := [c3] + t4;
      ghost var t2 := [c2] + t3;
      ghost var t1 := [c1] + t2;
      ghost var h0 := drv.log;
      drv.FailFastCons(h0, c0, t1);
      s := drv.Request(c0);
      if s != PICO_OK {
        return;
      }
      ghost var h1 := drv.log;
      drv.FailFastCons(h1, c1, t2);
      s := drv.Request(c1);
      if s != PICO_OK {
        assert h0 + ([c0] + [c1]) == drv.log;
        return;
      }
      ghost var h2 := drv.log;
      drv.FailFastCons(h2, c2, t3);
      s := drv.Request(c2);
      if s != PICO_OK {
        assert h0 + ([c0] + ([c1] + [c2])) == drv.log;
        return;
      }
      ghost var h3 := drv.log;
      drv.FailFastCons(h3, c3, t4);
      s := drv.Request(c3);
      if s != PICO_OK {
        assert h0 + ([c0] + ([c1] + ([c2] + [c3]))) == drv.log;
        return;
      }
      ghost var h4 := drv.log;
      drv.FailFastCons(h4, c4, []);
      s := drv.Request(c4);
      if s != PICO_OK {
        assert h0 + ([c0] + ([c1] + ([c2] + ([c3] + [c4])))) == drv.log;
        return;
      }
      assert [c4] + [] == [c4];
      assert h0 + ([c0] + ([c1] + ([c2] + ([c3] + ([c4] + []))))) == drv.log;
    }

    /** doTriggerSet: the trigger of TriggerSetupCalls, whose status is discarded. */
    method DoTriggerSet()
      requires Valid()
      modifies drv
      ensures drv.log == old(drv.log) + drv.FailFast(old(drv.log), TriggerSetupCalls(uAllUnit, lfDelayTime, lfAcquisitionRate)).0
    {
      var level := MvToADC(2000, uAllUnit.channelSettings[PS6000_CHANNEL_D].range);
      var delay := DelayCount(lfDelayTime, lfAcquisitionRate);
      var ignored := SetTrigger(uAllUnit.handle, [TriggerSource(level)], [TRIGGER_CONDITIONS], TRIGGER_DIRECTIONS,
                                ZERO_PWQ, delay, 0, 0);
    }

    /**
     * setDigitizer: releases the buffer and clears the summary; on a first
     * setup (not bRepeat) reads the unit info, sets the trigger, and runs the
     * fail-fast DigitizerCalls. A new zero-filled buffer is allocated unless
     * one of ETS, the channels or the memory segmentation failed; the
     * status of SetNoOfCaptures is returned even when it failed.
     */
    method SetDigitizer(bRepeat: bool) returns (s: Status)
      requires Valid()
      modifies this`pcData, this`freed, this`nBufferLength, this`uAllUnit, this`nModelNumber, drv, sdDataList
      ensures Valid()
      ensures freed == SafeFree(old(pcData), old(freed)).0
      ensures sdDataList.IsCleared() && sdDataList.nTotalShots == old(sdDataList.nTotalShots)
      ensures bRepeat ==>
                && drv.log == old(drv.log) && s == PICO_OK
                && uAllUnit == old(uAllUnit) && nModelNumber == old(nModelNumber)
                && Allocated() && fresh(pcData)
      ensures !bRepeat ==>
                && (uAllUnit, nModelNumber as int) == old(InfoResult(uAllUnit, drv.log))
                && var h0 := old(drv.log) + InfoCalls(old(uAllUnit.handle));
                   var t := drv.FailFast(h0, TriggerSetupCalls(uAllUnit, lfDelayTime, lfAcquisitionRate));
                   var d := drv.FailFast(h0 + t.0, DigitizerCalls(uAllUnit.handle, uAllUnit.channelSettings,
                                                                  lfOffset, nBandwidth, nSegments));
                   && drv.log == h0 + t.0 + d.0
                   && s == d.1
                   && (|d.0| == 7 ==> Allocated() && fresh(pcData))
                   && (|d.0| < 7 ==> pcData == null && nBufferLength == old(nBufferLength))
    {
      FreeData();
      sdDataList.Clear();
      if bRepeat {
        Allocate();
        s := PICO_OK;
      } else {
        s := FirstSetup();
      }
    }

    /**
     * The device setup of a first setDigitizer: unit info, trigger, the
     * fail-fast DigitizerCalls, and the buffer when SetNoOfCaptures was reached.
     */
    method FirstSetup() returns (s: Status)
      requires Valid() && pcData == null
      modifies this`pcData, this`nBufferLength, this`uAllUnit, this`nModelNumber, drv
      ensures Valid()
      ensures (uAllUnit, nModelNumber as int) == old(InfoResult(uAllUnit, drv.log))
      ensures var h0 := old(drv.log) + InfoCalls(old(uAllUnit.handle));
              var t := drv.FailFast(h0, TriggerSetupCalls(uAllUnit, lfDelayTime, lfAcquisitionRate));
              var d := drv.FailFast(h0 + t.0, DigitizerCalls(uAllUnit.handle, uAllUnit.channelSettings,
                                                             lfOffset, nBandwidth, nSegments));
              && drv.log == h0 + t.0 + d.0
              && s == d.1
              && (|d.0| == 7 ==> Allocated() && fresh(pcData))
              && (|d.0| < 7 ==> pcData == null && nBufferLength == old(nBufferLength))
    {
      SetInfo();
      DoTriggerSet();
      var reached;
      s, reached := ConfigureDevice(uAllUnit.handle, uAllUnit.channelSettings, lfOffset, nBandwidth, nSegments);
      if reached {
        Allocate();
      }
    }

    /**
     * The driver calls of setDigitizer after the trigger, as a fail-fast run
     * of DigitizerCalls; `reached` tells whether SetNoOfCaptures was issued.
     */
    method ConfigureDevice(handle: Int16, cs: seq<ChannelSettings>, offset: real, bandwidth: Int32, segments: Int32)
      returns (s: Status, reached: bool)
      requires |cs| == PS6000_MAX_CHANNELS
      modifies drv
      ensures var d := drv.FailFast(old(drv.log), DigitizerCalls(handle, cs, offset, bandwidth, segments));
              drv.log == old(drv.log) + d.0 && s == d.1 && reached == (|d.0| == 7)
    {
      var nCaptures := segments;
      ghost var h := drv.log;
      ghost var ets := [SetEts(handle, PS6000_ETS_OFF, 0, 0)];
      ghost var channels := ChannelCalls(handle, cs, offset, bandwidth);
      ghost var memory := [MemorySegments(handle, segments)];
      ghost var captures := [SetNoOfCaptures(handle, nCaptures)];
      drv.FailFastAppend(h, ets + channels + memory, captures);
      drv.FailFastAppend(h, ets + channels, memory);
      drv.FailFastAppend(h, ets, channels);
      drv.FailFastSingle(h, ets[0]);

      reached := false;
      s := drv.Request(SetEts(handle, PS6000_ETS_OFF, 0, 0));
      if s != PICO_OK {
        return;
      }

      s := SetChannels(handle, cs, offset, bandwidth);
      drv.FailFastIssued(h + ets, channels);
      if s != PICO_OK {
        return;
      }
      assert drv.log == h + (ets + channels);

      drv.FailFastSingle(h + (ets + channels), memory[0]);
      s := drv.Request(MemorySegments(handle, segments));
      if s != PICO_OK {
        return;
      }

      assert drv.log == h + (ets + channels + memory);
      drv.FailFastSingle(h + (ets + channels + memory), captures[0]);
      s := drv.Request(SetNoOfCaptures(handle, nCaptures));
      reached := true;
    }

    /**
     * The channel loop of setDigitizer: SetChannel for A to D, stopping at the
     * first failure; the offset goes to channels A and B only.
     */
    method SetChannels(handle: Int16, cs: seq<ChannelSettings>, offset: real, bandwidth: Int32) returns (s: Status)
      requires |cs| == PS6000_MAX_CHANNELS
      modifies drv
      ensures var r := drv.FailFast(old(drv.log), ChannelCalls(handle, cs, offset, bandwidth));
              drv.log == old(drv.log) + r.0 && s == r.1
    {
      ghost var h := drv.log;
      ghost var all := ChannelCalls(handle, cs, offset, bandwidth);
      assert h + [] == h;
      s := PICO_OK;
      for i := 0 to 4
        invariant drv.log == h + all[..i]
        invariant drv.FailFast(h, all[..i]) == (all[..i], PICO_OK) && s == PICO_OK
      {
        var channelOffset := if i == 0 || i == 1 then offset else 0.0;
        var call := SetChannel(handle, PS6000_CHANNEL_A + i, cs[i].enabled, cs[i].dcCoupled, cs[i].range,
                               channelOffset, bandwidth);
        assert all[..i + 1] == all[..i] + [call];
        drv.FailFastAppend(h, all[..i], [call]);
        drv.FailFastSingle(h + all[..i], call);
        s := drv.Request(call);
        if s != PICO_OK {
          assert all == all[..i + 1] + all[i + 1..];
          drv.FailFastAppend(h, all[..i + 1], all[i + 1..]);
          return;
        }
      }
      assert all[..4] == all;
    }

    /** The allocation of setDigitizer: nSamples * (nSegments + 1) zero bytes. */
    method Allocate()
      requires Valid()
      modifies this`nBufferLength, this`pcData
      ensures Valid() && Allocated() && fresh(pcData)
    {
      BufferLengthFits(nSamples, nSegments);
      nBufferLength := nSamples * (nSegments + 1);
      pcData := new Int8[nBufferLength](_ => 0);
    }

    /** doAcquisition: clears the ready flag and arms one block capture at the timebase of the rate. */
    method DoAcquisition() returns (s: Status)
      requires Valid()
      modifies this`isAcquisitionReady, drv
      ensures Valid() && !isAcquisitionReady
      ensures drv.log == old(drv.log) + [RunBlockCall(uAllUnit.handle, nSamples, lfAcquisitionRate)]
      ensures s == drv.status(old(drv.log), RunBlockCall(uAllUnit.handle, nSamples, lfAcquisitionRate))
    {
      var nTimeBase := TimeBase(lfAcquisitionRate);
      isAcquisitionReady := false;
      s := drv.Request(RunBlock(uAllUnit.handle, 0, nSamples, nTimeBase, 1, 0));
    }

    /**
     * waitForAcquisition: polls IsReady until a poll fails or reports ready;
     * `polls` counts the polls before the last. The ready flag is raised when
     * the last poll reported ready, and never lowered. The device must stop
     * the wait at some poll; otherwise the C++ code never returns.
     */
    method WaitForAcquisition() returns (s: Status, ghost polls: nat)
      requires Valid()
      requires exists k: nat :: PollStops(drv, drv.log + Polls(uAllUnit.handle, k), uAllUnit.handle)
      modifies this`isAcquisitionReady, drv
      ensures Valid()
      ensures drv.log == old(drv.log) + Polls(uAllUnit.handle, polls + 1)
      ensures PollStops(drv, old(drv.log) + Polls(uAllUnit.handle, polls), uAllUnit.handle)
      ensures forall k :: 0 <= k < polls ==> !PollStops(drv, old(drv.log) + Polls(uAllUnit.handle, k), uAllUnit.handle)
      ensures s == drv.status(old(drv.log) + Polls(uAllUnit.handle, polls), IsReady(uAllUnit.handle))
      ensures isAcquisitionReady
                == (old(isAcquisitionReady) || drv.readyOf(old(drv.log) + Polls(uAllUnit.handle, polls)) != 0)
    {
      var handle := uAllUnit.handle;
      ghost var h := drv.log;
      ghost var bound: nat :| PollStops(drv, h + Polls(handle, bound), handle);
      var ready: Int16 := 0;
      polls := 0;
      while true
        invariant polls <= bound && isAcquisitionReady == old(isAcquisitionReady)
        invariant drv.log == h + Polls(handle, polls)
        invariant forall k :: 0 <= k < polls ==> !PollStops(drv, h + Polls(handle, k), handle)
        decreases bound - polls
      {
        ready, s := drv.IsReady(handle);
        assert Polls(handle, polls) + [IsReady(handle)] == Polls(handle, polls + 1);
        if s != PICO_OK || ready != 0 {
          break;
        }
        polls := polls + 1;
      }
      assert ready == drv.readyOf(h + Polls(handle, polls));
      if ready != 0 {
        isAcquisitionReady := true;
      }
    }

    /** fetchData reaches the copy: the capture is ready and GetNoOfCaptures reports one or more captures. */
    ghost predicate FetchCopies()
      reads this, drv
    {
      && isAcquisitionReady
      && drv.status(drv.log, GetNoOfCaptures(uAllUnit.handle)) == PICO_OK
      && drv.capturesOf(drv.log) != 0
    }

    /**
     * fetchData: when ready, and the device reports completed captures, binds
     * one buffer per segment, reads all segments in bulk, stores the high
     * byte of each sample at segment * nSamples + sample, stops the device,
     * fills the summary and returns the status of Stop. Without a ready
     * capture it returns -1; without captures it stops the device and
     * returns the status of GetNoOfCaptures.
     */
    method FetchData() returns (s: Status)
      requires Valid()
      requires FetchCopies() ==> pcData != null && nSamples * nSegments <= pcData.Length
      modifies drv, sdDataList, pcData
      ensures Valid()
      ensures !old(isAcquisitionReady) ==>
                && s == NOT_READY && drv.log == old(drv.log)
                && (pcData != null ==> unchanged(pcData)) && unchanged(sdDataList)
      ensures old(isAcquisitionReady) && !old(FetchCopies()) ==>
                && drv.log == old(drv.log) + [GetNoOfCaptures(uAllUnit.handle), Stop(uAllUnit.handle)]
                && s == drv.status(old(drv.log), GetNoOfCaptures(uAllUnit.handle))
                && (pcData != null ==> unchanged(pcData)) && unchanged(sdDataList)
      ensures old(FetchCopies()) ==>
                var handle := uAllUnit.handle;
                var hb := old(drv.log) + [GetNoOfCaptures(handle)] + BindCalls(handle, nSamples, nSegments);
                && pcData != null
                && drv.log == hb + [BulkCall(handle, nSegments), Stop(handle)]
                && s == drv.status(hb + [BulkCall(handle, nSegments)], Stop(handle))
                && (forall k :: 0 <= k < nSamples * nSegments ==>
                      pcData[k] == Copied(hb, k))
                && (forall k :: nSamples * nSegments <= k < pcData.Length ==> pcData[k] == old(pcData[k]))
                && sdDataList.Summarises(nSamples, lfAcquisitionRate * 1e9, nSegments)
                && sdDataList.nRealShots == old(sdDataList.nRealShots)
                && sdDataList.nTotalShots == old(sdDataList.nTotalShots)
    {
      if !isAcquisitionReady {
        return NOT_READY;
      }

      var handle := uAllUnit.handle;
      var nCompletedCaptures;
      nCompletedCaptures, s := drv.GetNoOfCaptures(handle);
      if s != PICO_OK || nCompletedCaptures == 0 {
        var ignored := drv.Request(Stop(handle));
        return;
      }

      s := Transfer(handle);
    }

    /**
     * The part of fetchData after a successful GetNoOfCaptures: bind, bulk
     * read, copy, stop, and the summary; the status is that of Stop.
     */
    method Transfer(handle: Int16) returns (s: Status)
      requires Valid()
      requires pcData != null && nSamples * nSegments <= pcData.Length
      modifies drv, sdDataList, pcData
      ensures var hb := old(drv.log) + BindCalls(handle, nSamples, nSegments);
              && drv.log == hb + [BulkCall(handle, nSegments), Stop(handle)]
              && s == drv.status(hb + [BulkCall(handle, nSegments)], Stop(handle))
              && (forall k :: 0 <= k < nSamples * nSegments ==> pcData[k] == Copied(hb, k))
              && (forall k :: nSamples * nSegments <= k < pcData.Length ==> pcData[k] == old(pcData[k]))
      ensures sdDataList.Summarises(nSamples, lfAcquisitionRate * 1e9, nSegments)
      ensures sdDataList.nRealShots == old(sdDataList.nRealShots)
      ensures sdDataList.nTotalShots == old(sdDataList.nTotalShots)
    {
      BindBuffers(handle, nSamples, nSegments);
      ghost var hb := drv.log;
      var native;
      native, s := drv.GetValuesBulk(handle, nSegments, nSamples);
      CopySegments(native, hb);

      s := drv.Request(Stop(handle));

      sdDataList.Summarise(nSamples, lfAcquisitionRate * 1e9, nSegments);
    }

    /** The binding loop of fetchData: one SetDataBufferBulk per segment; the statuses are overwritten unread. */
    method BindBuffers(handle: Int16, samples: Int32, segments: Int32)
      requires segments >= 0
      modifies drv
      ensures drv.log == old(drv.log) + BindCalls(handle, samples, segments)
    {
      ghost var h := drv.log;
      assert h + [] == h;
      for capture := 0 to segments
        invariant drv.log == h + BindCalls(handle, samples, capture)
      {
        var ignored := drv.Request(SetDataBufferBulk(handle, PS6000_CHANNEL_A, samples, capture, PS6000_RATIO_MODE_NONE));
      }
    }

    /** The byte fetchData stores at `k`: sample k % nSamples of segment k / nSamples, shifted right by 8 bits. */
    ghost function Copied(hb: seq<Call>, k: int): Int8
      reads this
      requires nSamples > 0
    {
      Shift8(drv.sampleOf(hb, k / nSamples, k % nSamples))
    }

    /**
     * The copy loop of fetchData: sample j of segment c, shifted right by 8
     * bits, goes to c * nSamples + j; the rest of the buffer keeps its bytes.
     */
    method CopySegments(native: seq<seq<Int16>>, ghost hb: seq<Call>)
      requires Valid()
      requires pcData != null && nSamples * nSegments <= pcData.Length
      requires |native| == nSegments
      requires forall c :: 0 <= c < nSegments ==>
                 |native[c]| == nSamples && forall j :: 0 <= j < nSamples ==> native[c][j] == drv.sampleOf(hb, c, j)
      modifies pcData
      ensures forall k :: 0 <= k < nSamples * nSegments ==> pcData[k] == Copied(hb, k)
      ensures forall k :: nSamples * nSegments <= k < pcData.Length ==> pcData[k] == old(pcData[k])
    {
      ghost var done := 0;
      for capture := 0 to nSegments
        invariant done == capture * nSamples
        invariant forall k :: 0 <= k < done ==> pcData[k] == Copied(hb, k)
        invariant forall k :: done <= k < pcData.Length ==> pcData[k] == old(pcData[k])
      {
        var nIndex := capture * nSamples;
        MulLeMono(capture + 1, nSegments, nSamples);
        assert (capture + 1) * nSamples == nIndex + nSamples;
        CopySegment(capture, nIndex, native[capture], hb);
        done := nIndex + nSamples;
      }
      assert done == nSamples * nSegments;
    }

    /** One pass of the copy loop: segment `capture` goes to nIndex .. nIndex + nSamples - 1. */
    method CopySegment(capture: nat, nIndex: nat, samples: seq<Int16>, ghost hb: seq<Call>)
      requires Valid() && pcData != null
      requires nIndex == capture * nSamples && nIndex + nSamples <= pcData.Length
      requires |samples| == nSamples
      requires forall j :: 0 <= j < nSamples ==> samples[j] == drv.sampleOf(hb, capture, j)
      modifies pcData
      ensures forall k :: nIndex <= k < nIndex + nSamples ==> pcData[k] == Copied(hb, k)
      ensures forall k :: 0 <= k < pcData.Length && !(nIndex <= k < nIndex + nSamples) ==> pcData[k] == old(pcData[k])
    {
      for j := 0 to nSamples
        invariant forall k :: nIndex <= k < nIndex + j ==> pcData[k] == Copied(hb, k)
        invariant forall k :: 0 <= k < pcData.Length && !(nIndex <= k < nIndex + j) ==> pcData[k] == old(pcData[k])
      {
        FlatIndex(capture, j, nSamples);
        pcData[nIndex + j] := Shift8(samples[j]);
      }
    }

    method GetBufferLength() returns (r: Int32)
      ensures r == nBufferLength
    {
      r := nBufferLength;
    }

    /** Segments follow each other without padding. */
    method GetNextSegmentPad() returns (r: Int32)
      requires Valid()
      ensures r == 0
    {
      r := nTbNextSegmentPad;
    }

    /** Segment k starts at k * nSamples in the buffer. */
    method GetSegmentOffset() returns (r: Int32)
      requires Valid()
      ensures r == nSamples
    {
      r := nSegmentOffset;
    }

    method GetScopeDataList() returns (r: ScopeData)
      ensures r == sdDataList
    {
      r := sdDataList;
    }

    method GetData() returns (r: array?<Int8>)
      ensures r == pcData
    {
      r := pcData;
    }

    method GetSegmentCount() returns (r: Int32)
      ensures r == nSegments
    {
      r := nSegments;
    }

    /** setData: the session takes `pData` over, releasing the buffer it held. */
    method SetData(pData: array?<Int8>)
      requires Valid()
      modifies this`pcData, this`freed
      ensures Valid()
      ensures pcData == pData && freed == SafeFree(old(pcData), old(freed)).0
    {
      FreeData();
      pcData := pData;
    }

    /** ~PicoScope: the held buffer is released. */
    method Destroy()
      requires Valid()
      modifies this`pcData, this`freed
      ensures Valid()
      ensures (freed, pcData) == SafeFree(old(pcData), old(freed))
    {
      FreeData();
    }
  }
}

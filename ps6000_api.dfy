/**
 * The part of the vendor's PS6000 driver interface that the session uses.
 *
 * The driver itself is not modelled: `Driver` is an oracle that records every
 * call in `log` and answers each call with values that are an arbitrary, fixed
 * function of the calls made before it and of the call itself. Nothing is
 * assumed about those answers, so every property proved with a `Driver` holds
 * for every behaviour the device could show.
 *
 * The numeric codes below are those of the vendor headers ps6000Api.h and
 * PicoStatus.h, which are not part of this model. Only the range codes are
 * used as numbers (they index the millivolt table of the ADC conversion);
 * everywhere else the codes are only passed through to the driver, and no
 * proof depends on their values.
 */
module Ps6000Api {
  import opened Base

  /** PICO_STATUS is an unsigned 32-bit code; PICO_OK means success. */
  type Status = UInt32
  const PICO_OK: Status := 0

  const PS6000_CHANNEL_A := 0
  const PS6000_CHANNEL_D := 3
  const PS6000_MAX_CHANNELS := 4

  const PS6000_AC := 0
  const PS6000_DC_1M := 1
  const PS6000_DC_50R := 2

  const PS6000_10MV := 0
  const PS6000_50MV := 2
  const PS6000_5V := 8
  const PS6000_20V := 10
  const PS6000_MAX_RANGES := 12

  const PS6000_BW_FULL := 0
  const PS6000_BW_20MHZ := 1
  const PS6000_BW_25MHZ := 2

  const PS6000_ETS_OFF := 0
  const PS6000_RATIO_MODE_NONE := 0

  /** The largest ADC code of a sample (full scale of the selected range). */
  const PS6000_MAX_VALUE := 32512

  /** Info kinds of GetUnitInfo. */
  const PICO_VARIANT_INFO := 3
  const PICO_BATCH_AND_SERIAL := 4

  /**
   * Trigger value types. Their numeric encodings play no part in the model;
   * two constructors here may stand for one code on the device (the vendor
   * header may give "no direction" the code of "rising").
   */
  datatype TriggerState = DontCare | StateTrue | StateFalse
  datatype ThresholdDirection = NoDirection | Rising
  datatype ThresholdMode = Level | Window

  datatype TriggerChannelProperties = TriggerChannelProperties(
    thresholdUpper: Int16, hysteresisUpper: int,
    thresholdLower: Int16, hysteresisLower: int,
    channel: int, thresholdMode: ThresholdMode)

  datatype TriggerConditions = TriggerConditions(
    channelA: TriggerState, channelB: TriggerState, channelC: TriggerState,
    channelD: TriggerState, external: TriggerState, aux: TriggerState,
    pulseWidthQualifier: TriggerState)

  datatype TriggerDirections = TriggerDirections(
    channelA: ThresholdDirection, channelB: ThresholdDirection,
    channelC: ThresholdDirection, channelD: ThresholdDirection,
    ext: ThresholdDirection, aux: ThresholdDirection)

  /**
   * A pulse-width qualifier. The session only ever passes an all-zero one:
   * no condition array, zero counts, the direction and type whose codes are 0.
   */
  datatype Pwq = Pwq(nConditions: int, direction: int, lower: UInt32, upper: UInt32, pulseWidthType: int)

  /** One driver call with the arguments that reach the device. */
  datatype Call =
    | OpenUnit
    | CloseUnit(handle: Int16)
    | GetUnitInfo(handle: Int16, info: int)
    | SetEts(handle: Int16, mode: int, etsCycles: int, etsInterleave: int)
    | SetChannel(handle: Int16, channel: int, enabled: Int16, coupling: Int16,
                 range: Int16, analogueOffset: real, bandwidth: int)
    | MemorySegments(handle: Int16, nSegments: int)
    | SetNoOfCaptures(handle: Int16, nCaptures: int)
    | SetTriggerChannelProperties(handle: Int16, properties: seq<TriggerChannelProperties>,
                                  auxOutputEnable: int, autoTriggerMilliseconds: int)
    | SetTriggerChannelConditions(handle: Int16, conditions: seq<TriggerConditions>)
    | SetTriggerChannelDirections(handle: Int16, directions: TriggerDirections)
      /** `None` stands for an argument the C conversion leaves undefined. */
    | SetTriggerDelay(handle: Int16, delay: Option<UInt32>)
    | SetPulseWidthQualifier(handle: Int16, pwq: Pwq)
    | RunBlock(handle: Int16, preTriggerSamples: int, postTriggerSamples: int,
               timebase: int, oversample: int, segmentIndex: int)
    | IsReady(handle: Int16)
    | GetNoOfCaptures(handle: Int16)
    | SetDataBufferBulk(handle: Int16, channel: int, bufferLength: int, waveform: int, ratioMode: int)
    | GetValuesBulk(handle: Int16, fromSegment: int, toSegment: int, downSampleRatio: int, ratioMode: int)
    | Stop(handle: Int16)

  /** The prefix of a call sequence up to `done`, followed by what `r` reports for the rest. */
  function Prepend(done: seq<Call>, r: (seq<Call>, Status)): (seq<Call>, Status) {
    (done + r.0, r.1)
  }

  class Driver {
    /** Every call made so far, oldest first. */
    var log: seq<Call>

    /** The status the device returns for a call, given the calls before it. */
    const status: (seq<Call>, Call) -> Status
    /** The handle OpenUnit writes. */
    const handleOf: seq<Call> -> Int16
    /** The ready flag IsReady writes. */
    const readyOf: seq<Call> -> Int16
    /** The completed-capture count GetNoOfCaptures writes. */
    const capturesOf: seq<Call> -> UInt32
    /** The text GetUnitInfo writes for an info kind. */
    const infoOf: (seq<Call>, int) -> string
    /** Sample `j` of segment `c` that GetValuesBulk writes into the bound buffers. */
    const sampleOf: (seq<Call>, int, int) -> Int16

    constructor (status: (seq<Call>, Call) -> Status, handleOf: seq<Call> -> Int16,
                 readyOf: seq<Call> -> Int16, capturesOf: seq<Call> -> UInt32,
                 infoOf: (seq<Call>, int) -> string, sampleOf: (seq<Call>, int, int) -> Int16)
      ensures log == []
      ensures this.status == status && this.handleOf == handleOf && this.readyOf == readyOf
      ensures this.capturesOf == capturesOf && this.infoOf == infoOf && this.sampleOf == sampleOf
    {
      log := [];
      this.status, this.handleOf, this.readyOf := status, handleOf, readyOf;
      this.capturesOf, this.infoOf, this.sampleOf := capturesOf, infoOf, sampleOf;
    }

    /** A call whose only answer is its status. */
    method Request(c: Call) returns (s: Status)
      modifies this
      ensures log == old(log) + [c] && s == status(old(log), c)
    {
      s := status(log, c);
      log := log + [c];
    }

    method OpenUnit() returns (handle: Int16, s: Status)
      modifies this
      ensures log == old(log) + [Call.OpenUnit]
      ensures handle == handleOf(old(log)) && s == status(old(log), Call.OpenUnit)
    {
      handle, s := handleOf(log), status(log, Call.OpenUnit);
      log := log + [Call.OpenUnit];
    }

    /** Writes the info text into a buffer of `size` bytes, so at most size - 1 characters and the NUL. */
    method GetUnitInfo(handle: Int16, info: int, size: nat) returns (line: string)
      requires size > 0
      modifies this
      ensures log == old(log) + [Call.GetUnitInfo(handle, info)]
      ensures line == InfoText(old(log), info, size)
    {
      line := InfoText(log, info, size);
      log := log + [Call.GetUnitInfo(handle, info)];
    }

    function InfoText(h: seq<Call>, info: int, size: nat): (line: string)
      requires size > 0
      ensures |line| < size && line <= infoOf(h, info)
      ensures |line| == if |infoOf(h, info)| < size then |infoOf(h, info)| else size - 1
    {
      var t := infoOf(h, info);
      if |t| < size then t else t[..size - 1]
    }

    method IsReady(handle: Int16) returns (ready: Int16, s: Status)
      modifies this
      ensures log == old(log) + [Call.IsReady(handle)]
      ensures ready == readyOf(old(log)) && s == status(old(log), Call.IsReady(handle))
    {
      ready, s := readyOf(log), status(log, Call.IsReady(handle));
      log := log + [Call.IsReady(handle)];
    }

    method GetNoOfCaptures(handle: Int16) returns (n: UInt32, s: Status)
      modifies this
      ensures log == old(log) + [Call.GetNoOfCaptures(handle)]
      ensures n == capturesOf(old(log)) && s == status(old(log), Call.GetNoOfCaptures(handle))
    {
      n, s := capturesOf(log), status(log, Call.GetNoOfCaptures(handle));
      log := log + [Call.GetNoOfCaptures(handle)];
    }

    /**
     * Bulk retrieval of segments 0 .. segments - 1 into the buffers bound by
     * SetDataBufferBulk; `native` is what those buffers hold afterwards.
     */
    method GetValuesBulk(handle: Int16, segments: nat, samples: nat) returns (native: seq<seq<Int16>>, s: Status)
      requires segments > 0
      modifies this
      ensures log == old(log) + [Call.GetValuesBulk(handle, 0, segments - 1, 1, PS6000_RATIO_MODE_NONE)]
      ensures s == status(old(log), Call.GetValuesBulk(handle, 0, segments - 1, 1, PS6000_RATIO_MODE_NONE))
      ensures |native| == segments
      ensures forall c :: 0 <= c < segments ==>
                |native[c]| == samples && forall j :: 0 <= j < samples ==> native[c][j] == sampleOf(old(log), c, j)
    {
      var call := Call.GetValuesBulk(handle, 0, segments - 1, 1, PS6000_RATIO_MODE_NONE);
      var h := log;
      native := seq(segments, c => seq(samples, j => sampleOf(h, c, j)));
      s := status(log, call);
      log := log + [call];
    }

    /** Every call of `calls`, issued in order after history `h`, is answered PICO_OK. */
    ghost predicate AnsweredOk(h: seq<Call>, calls: seq<Call>)
      decreases |calls|
    {
      calls == [] || (status(h, calls[0]) == PICO_OK && AnsweredOk(h + [calls[0]], calls[1..]))
    }

    /**
     * The calls a fail-fast sequence issues after history `h` and the status it
     * returns: it issues `calls` in order and stops at the first answer that is
     * not PICO_OK, returning that answer, or PICO_OK when every call succeeded.
     */
    ghost function FailFast(h: seq<Call>, calls: seq<Call>): (seq<Call>, Status)
      decreases |calls|
    {
      if calls == [] then ([], PICO_OK)
      else
        var s := status(h, calls[0]);
        if s != PICO_OK then ([calls[0]], s)
        else Prepend([calls[0]], FailFast(h + [calls[0]], calls[1..]))
    }

    /**
     * What a fail-fast sequence does: it issues a prefix of `calls`; it returns
     * PICO_OK only when it issued them all and each was answered PICO_OK;
     * otherwise the last call it issued is the first one answered with
     * something else, and that answer is what it returns.
     */
    lemma {:induction false} FailFastSpec(h: seq<Call>, calls: seq<Call>)
      ensures var r := FailFast(h, calls);
        && r.0 <= calls
        && (r.1 == PICO_OK ==> r.0 == calls && AnsweredOk(h, calls))
        && (r.1 != PICO_OK ==>
              && r.0 != []
              && AnsweredOk(h, r.0[..|r.0| - 1])
              && status(h + r.0[..|r.0| - 1], r.0[|r.0| - 1]) == r.1)
      decreases |calls|
    {
      if calls != [] {
        var c := calls[0];
        if status(h, c) == PICO_OK {
          var h' := h + [c];
          FailFastSpec(h', calls[1..]);
          var r' := FailFast(h', calls[1..]);
          var r := FailFast(h, calls);
          assert r == ([c] + r'.0, r'.1);
          assert calls == [c] + calls[1..];
          if r.1 != PICO_OK {
            var k := |r.0| - 1;
            assert r.0[..k] == [c] + r'.0[..k - 1];
            assert h + r.0[..k] == h' + r'.0[..k - 1];
          }
        } else {
          assert h + [] == h;
        }
      }
    }

    /**
     * A fail-fast run of `a + b` is the run of `a`, continued by a run of `b`
     * exactly when every call of `a` succeeded.
     */
    lemma {:induction false} FailFastAppend(h: seq<Call>, a: seq<Call>, b: seq<Call>)
      ensures FailFast(h, a + b)
                == if FailFast(h, a).1 == PICO_OK then Prepend(a, FailFast(h + a, b)) else FailFast(h, a)
      decreases |a|
    {
      if a == [] {
        assert [] + b == b && h + [] == h;
        assert [] + FailFast(h, b).0 == FailFast(h, b).0;
      } else {
        var c := a[0];
        assert (a + b)[0] == c && (a + b)[1..] == a[1..] + b;
        if status(h, c) == PICO_OK {
          FailFastAppend(h + [c], a[1..], b);
          assert h + [c] + a[1..] == h + a;
          assert [c] + a[1..] == a;
          var x := FailFast(h + a, b);
          assert [c] + (a[1..] + x.0) == a + x.0;
        }
      }
    }

    /** A fail-fast run of one call issues it and returns its answer. */
    lemma FailFastSingle(h: seq<Call>, c: Call)
      ensures FailFast(h, [c]) == ([c], status(h, c))
    {
      assert [c][1..] == [] && [c] + [] == [c];
    }

    /** A fail-fast run issues at most its calls, and all of them when it succeeds. */
    lemma FailFastIssued(h: seq<Call>, calls: seq<Call>)
      ensures |FailFast(h, calls).0| <= |calls|
      ensures FailFast(h, calls).1 == PICO_OK ==> FailFast(h, calls).0 == calls
    {
      FailFastSpec(h, calls);
    }

    /** A fail-fast run of `[c] + rest` issues `c` and goes on with `rest` exactly when `c` succeeds. */
    lemma FailFastCons(h: seq<Call>, c: Call, rest: seq<Call>)
      ensures FailFast(h, [c] + rest)
                == if status(h, c) != PICO_OK then ([c], status(h, c)) else Prepend([c], FailFast(h + [c], rest))
    {
      assert ([c] + rest)[0] == c && ([c] + rest)[1..] == rest;
    }

    /** A fail-fast sequence returns PICO_OK exactly when every one of its calls is answered PICO_OK. */
    lemma {:induction false} FailFastOkIff(h: seq<Call>, calls: seq<Call>)
      ensures FailFast(h, calls).1 == PICO_OK <==> AnsweredOk(h, calls)
      decreases |calls|
    {
      if calls != [] && status(h, calls[0]) == PICO_OK {
        FailFastOkIff(h + [calls[0]], calls[1..]);
      }
    }
  }
}

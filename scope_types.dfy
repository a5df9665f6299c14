/**
 * The declarations of the session header: default settings, the model codes,
 * the per-channel and per-unit records, the capture summary and SAFE_FREE.
 */
module ScopeTypes {
  import opened Base
  import opened Ps6000Api

  const DEFAULT_CHANNEL := 1
  const DEFAULT_NUM_SAMPLE := 10000
  const DEFAULT_NUM_SEGMENT := 20
  /** In GHz. */
  const DEFAULT_SAMPLE_RATE := 2.0
  /** In seconds. */
  const DEFAULT_SAMPLE_INTERVAL := 1.0 / (DEFAULT_SAMPLE_RATE * 1e9)
  const DEFAULT_DELAYTIME := 0.0
  const DEFAULT_VERTICAL_FULLSCALE := 0.2
  const DEFAULT_VERTICAL_OFFSET := 0.0
  const DEFAULT_VERTICAL_COUPLING := 3
  const DEFAULT_VERTICAL_BANDWIDTH := 0
  const DEFAULT_USED_CHANNEL := 0x0000_0001
  const DEFAULT_TIMEOUT := 20000

  const MODEL_NONE := 0
  const MODEL_PS6402 := 0x6402
  const MODEL_PS6402A := 0xA402
  const MODEL_PS6402B := 0xB402
  const MODEL_PS6402C := 0xC402
  const MODEL_PS6402D := 0xD402
  const MODEL_PS6403 := 0x6403
  const MODEL_PS6403A := 0xA403
  const MODEL_PS6403B := 0xB403
  const MODEL_PS6403C := 0xC403
  const MODEL_PS6403D := 0xD403
  const MODEL_PS6404 := 0x6404
  const MODEL_PS6404A := 0xA404
  const MODEL_PS6404B := 0xB404
  const MODEL_PS6404C := 0xC404
  const MODEL_PS6404D := 0xD404
  const MODEL_PS6407 := 0x6407

  datatype ChannelSettings = ChannelSettings(dcCoupled: Int16, range: Int16, enabled: Int16)

  /** The unit record; `modelString` and `serial` are the C strings held in its byte arrays. */
  datatype Unit = Unit(
    handle: Int16,
    model: int,
    modelString: string,
    serial: string,
    complete: Int16,
    openStatus: Int16,
    openProgress: Int16,
    firstRange: int,
    lastRange: int,
    channelCount: Int16,
    awg: bool,
    channelSettings: seq<ChannelSettings>,
    awgBufferSize: Int32,
    analogueOffset: real)

  /** A unit record after memset(0): every field zero, every string empty. */
  const ZERO_UNIT := Unit(0, MODEL_NONE, "", "", 0, 0, 0, 0, 0, 0, false,
                          seq(PS6000_MAX_CHANNELS, _ => ChannelSettings(0, 0, 0)), 0, 0.0)

  /** The capture summary (SCOPE_DATA): the double fields as reals. */
  class ScopeData {
    var nLength: Int32
    var absoluteInitialX: real
    var relativeInitialX: real
    var actualSamples: Int32
    var gain: real
    var offset: real
    var xIncrement: real
    var samplingRate: real
    var nShots: Int32
    var nRealShots: Int32
    /** Declared but never assigned; it holds whatever the storage held. */
    var nTotalShots: Int32

    /** A summary whose fields hold arbitrary values, as an uninitialised struct does. */
    constructor ()
    {
    }

    /** SCOPE_DATA::clear: zeroes every field except nTotalShots. */
    method Clear()
      modifies this
      ensures IsCleared()
      ensures nTotalShots == old(nTotalShots)
    {
      nLength := 0;
      absoluteInitialX := 0.0;
      relativeInitialX := 0.0;
      actualSamples := 0;
      gain := 0.0;
      offset := 0.0;
      xIncrement := 0.0;
      samplingRate := 0.0;
      nShots := 0;
      nRealShots := 0;
    }

    ghost predicate IsCleared()
      reads this
    {
      && nLength == 0 && actualSamples == 0 && nShots == 0 && nRealShots == 0
      && absoluteInitialX == 0.0 && relativeInitialX == 0.0 && gain == 0.0
      && offset == 0.0 && xIncrement == 0.0 && samplingRate == 0.0
    }

    /** The summary fetchData fills after a capture; nRealShots and nTotalShots are left as they were. */
    method Summarise(samples: Int32, rateHz: real, shots: Int32)
      modifies this
      ensures Summarises(samples, rateHz, shots)
      ensures nRealShots == old(nRealShots) && nTotalShots == old(nTotalShots)
    {
      nLength := samples;
      absoluteInitialX := 0.0;
      actualSamples := samples;
      gain := 0.0;
      offset := 0.0;
      relativeInitialX := 0.0;
      xIncrement := 0.0;
      samplingRate := rateHz;
      nShots := shots;
    }

    /** The summary of a fetched capture: `samples` per shot, `shots` shots, `rateHz` samples per second. */
    ghost predicate Summarises(samples: int, rateHz: real, shots: int)
      reads this
    {
      && nLength == samples && actualSamples == samples && nShots == shots
      && absoluteInitialX == 0.0 && relativeInitialX == 0.0 && gain == 0.0
      && offset == 0.0 && xIncrement == 0.0 && samplingRate == rateHz
    }
  }

  /**
   * SAFE_FREE(ptr): the pointer afterwards, and the list of buffers released
   * so far. A NULL pointer is left alone; any other is released and set to NULL.
   */
  ghost function SafeFree(ptr: array?<Int8>, freed: seq<array<Int8>>): (seq<array<Int8>>, array?<Int8>)
  {
    (if ptr == null then freed else freed + [ptr], null)
  }

  /** Applying SAFE_FREE twice has the effect of applying it once: nothing is released twice. */
  lemma SafeFreeIdempotent(ptr: array?<Int8>, freed: seq<array<Int8>>)
    ensures var once := SafeFree(ptr, freed);
      SafeFree(once.1, once.0) == once
  {
  }
}

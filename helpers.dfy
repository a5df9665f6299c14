/**
 * The expression-only helpers of the session: the rate tolerance test and the
 * timebase table, the millivolt to ADC-code scaling, the decoding of the
 * variant string into a model code, the channel map set up for every model,
 * the trigger delay count, and the range checks of the configuration setters.
 */
module PicoHelpers {
  import opened Base
  import opened Ps6000Api
  import opened ScopeTypes

  // ---------------------------------------------------------------------------
  // Rate tolerance and timebase

  const TOLERANCE := 1e-6

  /** inRange: `v` lies strictly inside the open window of half-width 1e-6 around `base`. */
  predicate InRange(base: real, v: real)
    ensures InRange(base, v) <==> (if v >= base then v - base else base - v) < TOLERANCE
  {
    v > base - TOLERANCE && v < base + TOLERANCE
  }

  /** getTimeBase: the canonical rates, tried in this order, with their timebase codes. */
  function TimeBase(rate: real): (code: UInt32)
    ensures code in {1, 2, 3, 4, 5, 6, 8}
    ensures code != FALLBACK_TIMEBASE ==>
              exists k :: 0 <= k < |TIMEBASE_TABLE| && InRange(TIMEBASE_TABLE[k].0, rate) && TIMEBASE_TABLE[k].1 == code
  {
    if InRange(2.5, rate) then assert TIMEBASE_TABLE[0] == (2.5, 1); 1
    else if InRange(1.25, rate) then 2
    else if InRange(0.625, rate) then assert TIMEBASE_TABLE[2] == (0.625, 3); 3
    else if InRange(0.3125, rate) then assert TIMEBASE_TABLE[3] == (0.3125, 4); 4
    else if InRange(0.15625, rate) then assert TIMEBASE_TABLE[4] == (0.15625, 5); 5
    else if InRange(0.078125, rate) then assert TIMEBASE_TABLE[5] == (0.078125, 6); 6
    else if InRange(0.0390625, rate) then assert TIMEBASE_TABLE[6] == (0.0390625, 8); 8
    else 2
  }

  /** The same table as data: canonical rate (GHz) and its code, in priority order. */
  const TIMEBASE_TABLE: seq<(real, UInt32)> :=
    [(2.5, 1), (1.25, 2), (0.625, 3), (0.3125, 4), (0.15625, 5), (0.078125, 6), (0.0390625, 8)]
  const FALLBACK_TIMEBASE: UInt32 := 2

  /** Reference lookup: the code of the first entry whose window holds `rate`, else the fallback. */
  function FirstMatch(table: seq<(real, UInt32)>, rate: real): UInt32 {
    if table == [] then FALLBACK_TIMEBASE
    else if InRange(table[0].0, rate) then table[0].1
    else FirstMatch(table[1..], rate)
  }

  lemma TimeBaseIsTableLookup(rate: real)
    ensures TimeBase(rate) == FirstMatch(TIMEBASE_TABLE, rate)
  {
    var t0 := TIMEBASE_TABLE;
    var t1 := [(1.25, 2 as UInt32), (0.625, 3), (0.3125, 4), (0.15625, 5), (0.078125, 6), (0.0390625, 8)];
    var t2 := t1[1..];
    var t3 := t2[1..];
    var t4 := t3[1..];
    var t5 := t4[1..];
    var t6 := t5[1..];
    var t7 := t6[1..];
    assert t0[1..] == t1 && t7 == [];
    assert FirstMatch(t0, rate) == if InRange(2.5, rate) then 1 else FirstMatch(t1, rate);
    assert FirstMatch(t1, rate) == if InRange(1.25, rate) then 2 else FirstMatch(t2, rate);
    assert FirstMatch(t2, rate) == if InRange(0.625, rate) then 3 else FirstMatch(t3, rate);
    assert FirstMatch(t3, rate) == if InRange(0.3125, rate) then 4 else FirstMatch(t4, rate);
    assert FirstMatch(t4, rate) == if InRange(0.15625, rate) then 5 else FirstMatch(t5, rate);
    assert FirstMatch(t5, rate) == if InRange(0.078125, rate) then 6 else FirstMatch(t6, rate);
    assert FirstMatch(t6, rate) == if InRange(0.0390625, rate) then 8 else FirstMatch(t7, rate);
  }

  /** Each canonical rate gets its own code. */
  lemma TimeBaseCanonical(k: nat)
    requires k < |TIMEBASE_TABLE|
    ensures TimeBase(TIMEBASE_TABLE[k].0) == TIMEBASE_TABLE[k].1
  {
  }

  /**
   * The windows do not overlap, so every rate inside the window of entry `k`
   * gets that entry's code, whatever the priority order.
   */
  lemma TimeBaseWindow(k: nat, rate: real)
    requires k < |TIMEBASE_TABLE| && InRange(TIMEBASE_TABLE[k].0, rate)
    ensures TimeBase(rate) == TIMEBASE_TABLE[k].1
  {
  }

  /** A rate outside every window is not coerced to the nearest rate: it gets the fallback code 2. */
  lemma TimeBaseFallback(rate: real)
    requires forall k :: 0 <= k < |TIMEBASE_TABLE| ==> !InRange(TIMEBASE_TABLE[k].0, rate)
    ensures TimeBase(rate) == FALLBACK_TIMEBASE
  {
    assert !InRange(TIMEBASE_TABLE[0].0, rate) && !InRange(TIMEBASE_TABLE[1].0, rate);
    assert !InRange(TIMEBASE_TABLE[2].0, rate) && !InRange(TIMEBASE_TABLE[3].0, rate);
    assert !InRange(TIMEBASE_TABLE[4].0, rate) && !InRange(TIMEBASE_TABLE[5].0, rate);
    assert !InRange(TIMEBASE_TABLE[6].0, rate);
  }

  /** The window is open: a rate exactly 1e-6 away from a canonical rate is outside it. */
  lemma TimeBaseWindowIsOpen()
    ensures TimeBase(2.5 - TOLERANCE) == 2 && TimeBase(0.0390625 + TOLERANCE) == 2
    ensures TimeBase(2.5 - TOLERANCE / 2.0) == 1
    ensures TimeBase(1.0) == 2 && TimeBase(DEFAULT_SAMPLE_RATE) == 2 && TimeBase(5.0) == 2
  {
  }

  // ---------------------------------------------------------------------------
  // Millivolts to ADC codes

  /** Full scale of each range code, in millivolts. */
  const INPUT_RANGES: seq<int> := [10, 20, 50, 100, 200, 500, 1000, 2000, 5000, 10000, 20000, 50000]

  /**
   * mvToADC: (mv * PS6000_MAX_VALUE) / inputRanges[ch] in C int arithmetic
   * (the product cannot overflow for a 16-bit `mv`), truncated to int16_t.
   * While |mv| is within the range's full scale no truncation happens and the
   * result is the scaled value rounded toward zero.
   */
  function MvToADC(mv: Int16, ch: Int16): (r: Int16)
    requires 0 <= ch < PS6000_MAX_RANGES
    ensures 0 <= mv <= INPUT_RANGES[ch] ==>
              0 <= r <= PS6000_MAX_VALUE && r * INPUT_RANGES[ch] <= mv * PS6000_MAX_VALUE < (r + 1) * INPUT_RANGES[ch]
    ensures -INPUT_RANGES[ch] <= mv < 0 ==>
              -PS6000_MAX_VALUE <= r <= 0 && (r - 1) * INPUT_RANGES[ch] < mv * PS6000_MAX_VALUE <= r * INPUT_RANGES[ch]
  {
    var range := INPUT_RANGES[ch];
    var q := CDiv(mv * PS6000_MAX_VALUE, range);
    ScaledInRange(mv, range, q);
    Wrap16(q)
  }

  lemma {:induction false} ScaledInRange(mv: int, range: int, q: int)
    requires 10 <= range && q == CDiv(mv * PS6000_MAX_VALUE, range)
    ensures -range <= mv <= range ==> -PS6000_MAX_VALUE <= q <= PS6000_MAX_VALUE
  {
    if 0 <= mv <= range {
      assert q * range <= mv * PS6000_MAX_VALUE <= PS6000_MAX_VALUE * range;
      MulLeCancel(q, PS6000_MAX_VALUE, range);
    } else if -range <= mv < 0 {
      assert -PS6000_MAX_VALUE * range <= mv * PS6000_MAX_VALUE <= q * range;
      MulLeCancel(-PS6000_MAX_VALUE, q, range);
    }
  }

  lemma MulLeCancel(a: int, b: int, c: int)
    requires c > 0 && a * c <= b * c
    ensures a <= b
  {
  }

  lemma MulLeMono(a: int, b: int, c: int)
    requires a <= b && c >= 0
    ensures a * c <= b * c
  {
  }

  /**
   * The 2000 mV trigger threshold: on the 5 V range it is 13004; on range code 0
   * (a unit record never filled in) the quotient 6502400 does not fit and is
   * truncated to 14336.
   */
  lemma TriggerThresholds()
    ensures MvToADC(2000, PS6000_5V as Int16) == 13004
    ensures MvToADC(2000, PS6000_10MV as Int16) == 14336
  {
  }

  // ---------------------------------------------------------------------------
  // Decimal text, atoi and the variant string

  predicate IsDigit(c: char) {
    '0' <= c <= '9'
  }

  predicate IsSpace(c: char) {
    c == ' ' || c == '\t' || c == '\n' || c == '\r' || c as int == 0x0B || c as int == 0x0C
  }

  function DigitValue(c: char): int
    requires IsDigit(c)
  {
    c as int - '0' as int
  }

  /** The digits of `n` in base ten, most significant first, without leading zeros. */
  function Decimal(n: nat): (s: string)
    ensures 0 < |s| && forall i :: 0 <= i < |s| ==> IsDigit(s[i])
  {
    var last := [((n % 10) + '0' as int) as char];
    if n < 10 then last else Decimal(n / 10) + last
  }

  /** Accumulates the leading run of digits of `s` onto `acc`. */
  function Digits(s: string, acc: int): (r: int)
    ensures acc >= 0 ==> r >= acc
    decreases |s|
  {
    if s == [] || !IsDigit(s[0]) then acc else Digits(s[1..], acc * 10 + DigitValue(s[0]))
  }

  /** atoi: skips leading white space, reads an optional sign, then the leading digits. */
  function Atoi(s: string): (r: int)
    ensures s == [] || !(IsSpace(s[0]) || IsDigit(s[0]) || s[0] == '+' || s[0] == '-') ==> r == 0
    ensures s != [] && (IsDigit(s[0]) || s[0] == '+') ==> r >= 0
    ensures s != [] && s[0] == '-' ==> r <= 0
    decreases |s|
  {
    if s != [] && IsSpace(s[0]) then Atoi(s[1..])
    else if s != [] && s[0] == '-' then -Digits(s[1..], 0)
    else if s != [] && s[0] == '+' then Digits(s[1..], 0)
    else Digits(s, 0)
  }

  lemma {:induction false} DigitsOfDigitRun(ds: string, rest: string, acc: int)
    requires forall i :: 0 <= i < |ds| ==> IsDigit(ds[i])
    requires rest == [] || !IsDigit(rest[0])
    ensures Digits(ds + rest, acc) == Digits(ds, acc)
    decreases |ds|
  {
    if ds != [] {
      assert (ds + rest)[1..] == ds[1..] + rest;
      DigitsOfDigitRun(ds[1..], rest, acc * 10 + DigitValue(ds[0]));
    } else {
      assert ds + rest == rest;
    }
  }

  lemma {:induction false} DigitsAppend(ds: string, c: char, acc: int)
    requires forall i :: 0 <= i < |ds| ==> IsDigit(ds[i])
    requires IsDigit(c)
    ensures Digits(ds + [c], acc) == Digits(ds, acc) * 10 + DigitValue(c)
    decreases |ds|
  {
    if ds == [] {
      assert [] + [c] == [c];
      assert [c][1..] == [];
    } else {
      assert (ds + [c])[1..] == ds[1..] + [c];
      DigitsAppend(ds[1..], c, acc * 10 + DigitValue(ds[0]));
    }
  }

  /** Round trip: atoi reads back the decimal text of `n`, whatever non-digit follows it. */
  lemma {:induction false} AtoiDecimal(n: nat, rest: string)
    requires rest == [] || !IsDigit(rest[0])
    ensures Atoi(Decimal(n) + rest) == n
  {
    var d := Decimal(n);
    assert (d + rest)[0] == d[0];
    DigitsOfDigitRun(d, rest, 0);
    DigitsOfDecimal(n);
  }

  lemma {:induction false} DigitsOfDecimal(n: nat)
    ensures Digits(Decimal(n), 0) == n
    decreases n
  {
    var c := ((n % 10) + '0' as int) as char;
    if n < 10 {
      assert Decimal(n) == [c];
      assert [c][1..] == [];
    } else {
      DigitsOfDecimal(n / 10);
      DigitsAppend(Decimal(n / 10), c, 0);
    }
  }

  /** strlen of the text the driver wrote: up to the first NUL. */
  function StrLen(s: string): (n: nat)
    ensures n <= |s| && '\0' !in s[..n] && (n < |s| ==> s[n] == '\0')
  {
    if s == [] || s[0] == '\0' then 0 else 1 + StrLen(s[1..])
  }

  /**
   * The variant arithmetic of setInfo: atoi of the variant text; for a five
   * character text whose number is 6404 a trailing 'D' adds 0xBB00 and 'C'
   * adds 0xAB00; for 6402 a trailing 'C' adds 0xAB00.
   */
  function VariantCode(line: string): (r: int)
    ensures r - Atoi(line) in {0, 0xAB00, 0xBB00}
    ensures r != Atoi(line) ==>
              && StrLen(line) == 5 && Atoi(line) in {6402, 6404}
              && line[4] == (if r - Atoi(line) == 0xBB00 then 'D' else 'C')
    ensures r - Atoi(line) == 0xBB00 ==> Atoi(line) == 6404
  {
    var variant := Atoi(line);
    if StrLen(line) != 5 then variant
    else if variant == 6404 then
      (if line[4] == 'D' then variant + 0xBB00 else if line[4] == 'C' then variant + 0xAB00 else variant)
    else if variant == 6402 then
      (if line[4] == 'C' then variant + 0xAB00 else variant)
    else variant
  }

  /** The switch of setInfo: only 6404D and 6402C are recognised, everything else is taken as 6404C. */
  function ModelOf(variant: int): (model: int)
    ensures model in {MODEL_PS6404D, MODEL_PS6402C, MODEL_PS6404C}
    ensures model == MODEL_PS6404D <==> variant == MODEL_PS6404D
    ensures model == MODEL_PS6402C <==> variant == MODEL_PS6402C
  {
    if variant == MODEL_PS6404D then MODEL_PS6404D
    else if variant == MODEL_PS6402C then MODEL_PS6402C
    else MODEL_PS6404C
  }

  lemma {:induction false} DecimalOfFourDigits(n: nat)
    requires 1000 <= n <= 9999
    ensures |Decimal(n)| == 4
  {
    assert Decimal(n) == Decimal(n / 10) + [((n % 10) + '0' as int) as char];
    assert Decimal(n / 10) == Decimal(n / 100) + [((n / 10 % 10) + '0' as int) as char];
    assert Decimal(n / 100) == Decimal(n / 1000) + [((n / 100 % 10) + '0' as int) as char];
  }

  /**
   * A variant text made of a four-digit model number and a letter decodes to
   * the number plus 0xBB00 for 6404D and plus 0xAB00 for 6404C and 6402C,
   * and to the bare number otherwise; the model is 6404D or 6402C exactly for
   * those two texts, and 6404C for every other one.
   */
  lemma {:induction false} VariantOfModelName(n: nat, letter: char)
    requires 1000 <= n <= 9999 && !IsDigit(letter) && letter != '\0'
    ensures var code := VariantCode(Decimal(n) + [letter]);
      && code == (if n == 6404 && letter == 'D' then n + 0xBB00
                  else if (n == 6404 || n == 6402) && letter == 'C' then n + 0xAB00
                  else n)
      && (ModelOf(code) == MODEL_PS6404D <==> n == 6404 && letter == 'D')
      && (ModelOf(code) == MODEL_PS6402C <==> n == 6402 && letter == 'C')
  {
    var line := Decimal(n) + [letter];
    AtoiDecimal(n, [letter]);
    DecimalOfFourDigits(n);
    assert line[4] == letter;
    assert StrLen(line) == 5 by {
      assert forall i :: 0 <= i < 4 ==> line[i] == Decimal(n)[i] && IsDigit(line[i]);
      StrLenNoNul(line);
    }
  }

  lemma {:induction false} StrLenNoNul(s: string)
    requires '\0' !in s
    ensures StrLen(s) == |s|
    decreases |s|
  {
    if s != [] {
      assert s == [s[0]] + s[1..];
      StrLenNoNul(s[1..]);
    }
  }

  /** The three texts the code recognises land exactly on the enumeration's model codes. */
  lemma VariantCodes()
    ensures VariantCode("6404D") == MODEL_PS6404D
    ensures VariantCode("6404C") == MODEL_PS6404C
    ensures VariantCode("6402C") == MODEL_PS6402C
  {
    assert Decimal(6404) == "6404" && Decimal(6402) == "6402";
    assert "6404D" == Decimal(6404) + ['D'] && "6404C" == Decimal(6404) + ['C'];
    assert "6402C" == Decimal(6402) + ['C'];
    VariantOfModelName(6404, 'D');
    VariantOfModelName(6404, 'C');
    VariantOfModelName(6402, 'C');
  }

  /**
   * The decoding checks only the length and the number: the five-digit text
   * of a model code (54276 for 0xD404, 50178 for 0xC402) is taken for that model.
   */
  lemma VariantCodeAliases(code: nat)
    requires code == MODEL_PS6404D || code == MODEL_PS6402C
    ensures ModelOf(VariantCode(Decimal(code))) == code
  {
    VariantOfNumber(code, Decimal(code));
  }

  /** A five-digit text without a NUL decodes to its number: no suffix arithmetic applies. */
  lemma {:induction false} VariantOfNumber(n: nat, line: string)
    requires 10000 <= n <= 99999 && line == Decimal(n)
    ensures VariantCode(line) == n
  {
    assert Decimal(n) == Decimal(n / 10) + [((n % 10) + '0' as int) as char];
    DecimalOfFourDigits(n / 10);
    assert line + [] == line;
    AtoiDecimal(n, []);
    StrLenNoNul(line);
  }

  /**
   * The unit record as every branch of setInfo's switch leaves it (the
   * branches differ only in the model code): ranges 50 mV to 20 V, two
   * channels, AWG; channel A carries the configured range and coupling and is
   * enabled, channels B and C are disabled, channel D is the 5 V DC 50-ohm
   * trigger input and is enabled.
   */
  function ChannelMap(u: Unit, model: int, fullScale: Int32, coupling: Int32): (r: Unit)
    requires |u.channelSettings| == PS6000_MAX_CHANNELS
    ensures |r.channelSettings| == PS6000_MAX_CHANNELS
    ensures r.channelSettings[0] == ChannelSettings(Wrap16(coupling), Wrap16(fullScale), 1)
    ensures r.channelSettings[1] == u.channelSettings[1].(enabled := 0)
    ensures r.channelSettings[2] == u.channelSettings[2].(enabled := 0)
    ensures r.channelSettings[3] == ChannelSettings(PS6000_DC_50R as Int16, PS6000_5V as Int16, 1)
    ensures r.model == model && r.handle == u.handle
  {
    var cs := u.channelSettings;
    u.(model := model, firstRange := PS6000_50MV, lastRange := PS6000_20V, channelCount := 2,
       awg := true, awgBufferSize := 0,
       channelSettings := [ChannelSettings(Wrap16(coupling), Wrap16(fullScale), 1),
                           cs[1].(enabled := 0), cs[2].(enabled := 0),
                           ChannelSettings(PS6000_DC_50R as Int16, PS6000_5V as Int16, 1)])
  }

  // ---------------------------------------------------------------------------
  // Trigger delay

  /**
   * The delay count `uint32_t(int(delay * (rate * 1e9)))`: the double is
   * truncated toward zero to int, which C leaves undefined when the result is
   * outside the int range (None here); the int then wraps into uint32_t.
   */
  function DelayCount(delay: real, rate: real): (r: Option<UInt32>)
    ensures var t := Truncate(delay * (rate * 1e9));
      && (r.Some? <==> -0x8000_0000 <= t < 0x8000_0000)
      && (r.Some? ==> (r.value - t) % 0x1_0000_0000 == 0)
      && (r.Some? && t >= 0 ==> r.value == t)
  {
    var t := Truncate(delay * (rate * 1e9));
    if -0x8000_0000 <= t < 0x8000_0000 then Some(WrapU32(t)) else None
  }

  /** setConfigTrigger's accepted delays, in seconds. */
  predicate DelayAccepted(delay: real) {
    !(delay < -2e-8 * 256.0 * 1024.0 || delay > 10.0)
  }

  /** setConfigHorizontal's accepted rate (GHz), samples per segment and segment count. */
  predicate HorizontalAccepted(rate: real, samples: int, segments: int) {
    && !(rate < 0.05 - TOLERANCE || rate > 5.0 + TOLERANCE)
    && !(samples < 1 || samples > 256 * 1024)
    && !(segments < 1 || segments > 2000)
  }

  /**
   * Settings both setters accept reach conversions C leaves undefined (the
   * longest delay at the highest rate), and a negative delay wraps into a huge
   * unsigned count.
   */
  lemma DelayCountFlaws()
    ensures DelayAccepted(10.0) && HorizontalAccepted(5.0, DEFAULT_NUM_SAMPLE, DEFAULT_NUM_SEGMENT)
    ensures DelayCount(10.0, 5.0) == None
    ensures DelayAccepted(-0.001) && HorizontalAccepted(1.0, DEFAULT_NUM_SAMPLE, DEFAULT_NUM_SEGMENT)
    ensures DelayCount(-0.001, 1.0) == Some(0x1_0000_0000 - 1_000_000)
  {
    assert Truncate(10.0 * (5.0 * 1e9)) == 50_000_000_000;
    assert Truncate(-0.001 * (1.0 * 1e9)) == -1_000_000;
  }

  /** The bandwidth setConfigVertical stores: full bandwidth is kept, any other limit becomes the model's. */
  function EffectiveBandwidth(requested: int, model: int): (bw: int)
    ensures bw == PS6000_BW_FULL <==> requested == PS6000_BW_FULL
    ensures bw != PS6000_BW_FULL ==> (bw == PS6000_BW_20MHZ <==> model == MODEL_PS6402C)
    ensures bw != PS6000_BW_FULL ==> (bw == PS6000_BW_25MHZ <==> model != MODEL_PS6402C)
  {
    if requested != PS6000_BW_FULL then
      (if model == MODEL_PS6402C then PS6000_BW_20MHZ else PS6000_BW_25MHZ)
    else requested
  }

  // ---------------------------------------------------------------------------
  // Buffer layout

  /**
   * For accepted sizes the buffer length samples * (segments + 1) and every
   * flat index segment * samples + j stay within int32_t.
   */
  lemma {:induction false} BufferLengthFits(samples: int, segments: int)
    requires 1 <= samples <= 256 * 1024 && 1 <= segments <= 2000
    ensures 0 < samples * segments < samples * (segments + 1) <= 524_550_144 < 0x8000_0000
  {
    assert samples * (segments + 1) == samples * segments + samples;
    assert samples * segments <= samples * 2000 <= 256 * 1024 * 2000;
  }

  /** The flat index of sample `j` of segment `c` recovers `c` and `j`. */
  lemma {:induction false} FlatIndex(c: int, j: int, n: int)
    requires 0 <= c && 0 <= j < n
    ensures (c * n + j) / n == c && (c * n + j) % n == j
  {
    var k := c * n + j;
    assert k == (k / n) * n + k % n && 0 <= k % n < n;
    assert (k / n - c) * n == j - k % n;
    MulLeCancel(k / n - c, 0, n);
    MulLeCancel(0, k / n - c, n);
  }
}

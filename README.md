# PicoScope PS6000 acquisition session

This project models the `PicoScope` class of a Node.js binding for PicoScope
6000-series digitizers. It covers the class itself (main.cpp) and the declarations it
depends on (main.h). The session opens the instrument, validates the vertical,
horizontal and trigger settings, and sets up the digitizer: ETS off, four
channels, memory segments, number of captures and a trigger on channel D. It then
arms a block capture, polls until the device is ready, and harvests the segments
into one flat byte buffer (each 16-bit sample shifted right by 8 bits). Finally
it fills a capture summary.

The vendor driver (`ps6000*`) is not modelled. `Ps6000Api.Driver` is an oracle:
it records every call in `log`, and answers each call with values that are an
arbitrary, fixed function of the calls made before it. Every property below therefore
holds for every behaviour the device could show. The driver calls of an operation
are stated as an exact sequence of `Call` values appended to the log. Fail-fast
sequences are specified by `Driver.FailFast`, and `Driver.FailFastSpec` proves
what it means.

Files: `base.dfy` (C integer widths and conversions), `ps6000_api.dfy` (the driver
interface), `scope_types.dfy` (main.h: defaults, model codes, records,
`SCOPE_DATA`, `SAFE_FREE`), `helpers.dfy` (the expression-only helpers),
`picoscope.dfy` (the session class).

C semantics are written out where they matter:
- int16_t and uint32_t conversions (`Wrap16`, `WrapU32`);
- truncating integer division (`CDiv`);
- double-to-int truncation (`Truncate`);
- the arithmetic `>> 8` (`Shift8`);
- `return -1` from a function returning the unsigned `PICO_STATUS` (`NOT_READY` = 0xFFFFFFFF).

Rates, delays and offsets are `real`, and their comparisons are exact.

The model follows the code as written, including these cases:
- A failed `open` leaves `isOpened` as it was, rather than marking the session closed.
- `setDigitizer` discards the status of the trigger setup (main.cpp:143) and goes on.
- A failing `SetNoOfCaptures` still allocates the buffer and its status is returned.
- `fetchData` copies after `GetValuesBulk` whatever its status, and returns the status of `Stop`, which overwrites that of `GetValuesBulk`.
- `fetchData` returns OK when `GetNoOfCaptures` succeeds but reports zero captures.
- main.h declares a double `lfFullScale`, while main.cpp stores a `PS6000_RANGE` in `nFullScale`. The model follows main.cpp: the default 0.2 truncates to range code 0 (10 mV).

## Model

| member | source | states |
|---|---|---|
| Base.Wrap16 | main.cpp:37 | the int16_t conversion keeps the value modulo 2^16 and is the identity on the int16_t range |
| Base.WrapU32 | main.cpp:582 | the uint32_t conversion is reduction modulo 2^32 and the identity on non-negative values below 2^32 |
| Base.CDiv | main.cpp:335 | C division truncates toward zero: the quotient times the divisor lies within one divisor of the dividend, on the dividend's side of zero |
| Base.Truncate | main.cpp:582 | double-to-int conversion truncates toward zero |
| Base.Shift8 | main.cpp:256 | `v >> 8` is the floor of v / 256 (arithmetic, sign-preserving) |
| Base.Shift8Boundaries | main.cpp:256 | 0, 32767, -32768 and -1 shift to 0, 127, -128 and -1 |
| Ps6000Api.Driver.Request | main.cpp:50 | a call whose only answer is its status appends the call to the log and returns the device's status |
| Ps6000Api.Driver.OpenUnit | main.cpp:35 | OpenUnit is logged and returns the device's handle and status |
| Ps6000Api.Driver.GetUnitInfo | main.cpp:347 | GetUnitInfo is logged and writes the info text cut to the buffer size |
| Ps6000Api.Driver.InfoText | main.cpp:347 | the text written into a buffer of n bytes is a prefix of the device's text: all of it when it is shorter than n, otherwise its first n - 1 characters |
| Ps6000Api.Driver.IsReady | main.cpp:206 | IsReady is logged and returns the device's ready flag and status |
| Ps6000Api.Driver.GetNoOfCaptures | main.cpp:228 | GetNoOfCaptures is logged and returns the completed-capture count and status |
| Ps6000Api.Driver.GetValuesBulk | main.cpp:249 | the bulk read of segments 0 .. n - 1 is logged; segment c's buffer then holds the device's sample j at index j |
| Ps6000Api.Driver.FailFastSpec | main.cpp:482-524 | a fail-fast sequence issues a prefix of its calls; it returns OK only when it issued all of them and each answered OK; otherwise the last call issued is the first non-OK one, and its answer is returned |
| Ps6000Api.Driver.FailFastOkIff | main.cpp:482-524 | a fail-fast sequence returns OK exactly when every call is answered OK |
| Ps6000Api.Driver.FailFastAppend | main.cpp:145-173 | a fail-fast run of a + b is the run of a, continued with the run of b exactly when a succeeded |
| ScopeTypes.ScopeData.Clear | main.h:105-117 | clear zeroes nLength, actualSamples, nShots, nRealShots and every double field, and leaves nTotalShots unchanged |
| ScopeTypes.ScopeData.Summarise | main.cpp:274-282 | the fetched summary: nLength = actualSamples = samples, nShots = segments, samplingRate = rate * 1e9, the other doubles 0; nRealShots and nTotalShots unchanged |
| ScopeTypes.SafeFreeIdempotent | main.h:24 | SAFE_FREE twice has the effect of SAFE_FREE once: nothing is released twice |
| PicoHelpers.InRange | main.cpp:323-329 | inRange holds exactly when the distance between the two values is below 1e-6 (both bounds strict) |
| PicoHelpers.TimeBase | main.cpp:527-544 | getTimeBase yields one of 1, 2, 3, 4, 5, 6, 8, and a code other than the fallback 2 only for a rate inside that code's window; TimeBaseIsTableLookup, TimeBaseWindow and TimeBaseFallback state the rest |
| PicoHelpers.TimeBaseIsTableLookup | main.cpp:527-544 | getTimeBase is the first-match lookup in the table of canonical rates, with fallback 2 |
| PicoHelpers.TimeBaseCanonical | main.cpp:527-544 | each canonical rate maps to its own code 1, 2, 3, 4, 5, 6, 8 |
| PicoHelpers.TimeBaseWindow | main.cpp:323-329 | every rate strictly inside a canonical rate's ±1e-6 window gets that rate's code |
| PicoHelpers.TimeBaseFallback | main.cpp:543 | a rate outside every window gets code 2; it is not moved to the nearest rate |
| PicoHelpers.TimeBaseWindowIsOpen | main.cpp:325 | the window is open: exactly 1e-6 away is outside; 1.0, 2.0 and 5.0 GHz get the fallback |
| PicoHelpers.MvToADC | main.cpp:331-336 | within the range's full scale, the ADC code is mv * 32512 / range rounded toward zero, and it lies within ±32512 |
| PicoHelpers.ScaledInRange | main.cpp:335 | the scaled quotient of a millivolt value within full scale fits ±32512, so no int16_t truncation happens |
| PicoHelpers.TriggerThresholds | main.cpp:548 | the 2000 mV trigger level is 13004 on the 5 V range, and truncates to 14336 on a never-filled range code 0 |
| PicoHelpers.Atoi | main.cpp:348-353 | atoi is 0 for a text that starts with no number, non-negative after a digit or '+', non-positive after '-'; AtoiDecimal states the round trip |
| PicoHelpers.AtoiDecimal | main.cpp:348 | atoi reads back the decimal text of n, whatever non-digit follows it |
| PicoHelpers.StrLen | main.cpp:351 | strlen is the index of the first NUL, or the whole length |
| PicoHelpers.VariantOfModelName | main.cpp:348-380 | a four-digit number and a letter decode to n + 0xBB00 for 6404D, n + 0xAB00 for 6404C and 6402C, n otherwise; the model is 6404D or 6402C exactly for those texts |
| PicoHelpers.VariantCode | main.cpp:348-380 | the decoded variant is atoi of the text plus 0, 0xAB00 or 0xBB00; an offset is added only to a five-character text of 6402 or 6404, 0xBB00 only for 6404 with 'D' and 0xAB00 only with 'C'; VariantOfModelName and VariantCodes state the rest |
| PicoHelpers.VariantOfNumber | main.cpp:348-380 | a five-digit text decodes to its own number: no suffix arithmetic applies to it |
| PicoHelpers.VariantCodeAliases | main.cpp:351-384 | the five-digit texts of the codes 0xD404 and 0xC402 (54276, 50178) are taken for the 6404D and the 6402C, since only the length and the number are checked |
| PicoHelpers.VariantCodes | main.h:31-42 | "6404D", "6404C" and "6402C" decode exactly to MODEL_PS6404D, MODEL_PS6404C and MODEL_PS6402C |
| PicoHelpers.ModelOf | main.cpp:382-464 | setInfo's switch yields 6404D or 6402C exactly for those codes, and 6404C for every other variant |
| PicoHelpers.ChannelMap | main.cpp:383-463 | every model gets A = configured range and coupling, enabled; B and C disabled; D = 5 V DC 50 ohm, enabled; the handle kept |
| PicoHelpers.DelayCount | main.cpp:582 | the delay count is defined exactly when the truncated product fits int, and is then that int modulo 2^32 |
| PicoHelpers.DelayCountFlaws | main.cpp:582 | accepted settings (10 s at 5 GHz) make the conversion undefined, and a negative delay wraps to a huge count |
| PicoHelpers.EffectiveBandwidth | main.cpp:70-77 | full bandwidth is kept; any other limit becomes 20 MHz exactly for the 6402C and 25 MHz otherwise |
| PicoHelpers.BufferLengthFits | main.cpp:176 | for accepted sizes the buffer length and every flat index fit int32_t |
| PicoHelpers.FlatIndex | main.cpp:253-256 | index c * n + j recovers segment c and sample j |
| Session.DigitizerReached | main.cpp:145-177 | the first setup reaches SetNoOfCaptures, and so the allocation, exactly when ETS, the four channels and the memory segmentation all answered OK |
| Session.PicoScope.constructor | main.cpp:3-23 | the defaults: 10000 samples, 20 segments, 2.0 GHz, interval 1 / (rate * 1e9), delay 0, range code 0, timeout 20000, no buffer, model 6402C, summary cleared; they satisfy the setters' checks |
| Session.PicoScope.Open | main.cpp:30-44 | a zeroed unit record with OpenUnit's handle and status and complete set; opened when OpenUnit succeeds |
| Session.PicoScope.Close | main.cpp:46-55 | CloseUnit on the handle; closed whatever it returns |
| Session.PicoScope.IsOpen | main.cpp:63-66 | reports the open flag |
| Session.PicoScope.SetConfigVertical | main.cpp:68-88 | stores range and offset, forces DC 50 ohm coupling, stores the model's bandwidth limit, returns 0 |
| Session.PicoScope.SetConfigHorizontal | main.cpp:90-114 | returns 0 exactly for rates within [0.05, 5.0] ± 1e-6, 1 to 262144 samples and 1 to 2000 segments, and then sets them, the interval and nSegmentOffset = nSamples; otherwise returns 1 and changes nothing |
| Session.PicoScope.SetConfigTrigger | main.cpp:116-126 | returns 0 exactly for delays within [-2e-8 * 262144, 10] s, and then stores the delay; otherwise returns 1 and changes nothing |
| Session.PicoScope.FreeData | main.h:24 | SAFE_FREE(pcData): a held buffer is released and the pointer is null |
| Session.PicoScope.SetInfo | main.cpp:338-469 | with a non-zero handle: the variant and serial GetUnitInfo calls, the decoded model and the channel map; with handle 0: nothing |
| Session.PicoScope.SetTrigger | main.cpp:471-525 | properties, conditions, directions, delay and pulse-width qualifier, as a fail-fast sequence whose status is returned |
| Session.PicoScope.DoTriggerSet | main.cpp:546-586 | setTrigger with the 2000 mV rising level on channel D, the delay count and a zero qualifier; the status is discarded |
| Session.PicoScope.SetDigitizer | main.cpp:128-183 | buffer released and summary cleared; repeat: no driver calls, OK, new zero buffer; first setup: info, trigger, fail-fast ETS / channels / segments / captures, the new zero buffer only when captures was reached, and its status |
| Session.PicoScope.FirstSetup | main.cpp:140-180 | the non-repeat half of setDigitizer: the driver calls in order, and the buffer allocated exactly when SetNoOfCaptures was issued |
| Session.PicoScope.ConfigureDevice | main.cpp:145-173 | ETS off, the four channels, memory segments and captures = segments, as a fail-fast sequence |
| Session.PicoScope.SetChannels | main.cpp:150-165 | SetChannel for A to D in order, stopping at the first failure; A and B get the offset, C and D 0 |
| Session.PicoScope.Allocate | main.cpp:176-177 | nBufferLength = nSamples * (nSegments + 1), and a fresh buffer of that many zero bytes |
| Session.PicoScope.DoAcquisition | main.cpp:185-195 | clears the ready flag and issues RunBlock with the rate's timebase; returns its status |
| Session.PicoScope.WaitForAcquisition | main.cpp:197-216 | IsReady until the first poll that fails or reports ready; its status is returned; the flag is raised exactly when that poll reported ready |
| Session.PicoScope.FetchData | main.cpp:218-285 | not ready: -1, no calls, nothing changed; failed or zero capture count: Stop, that status, nothing changed; otherwise bind, bulk read, byte c * nSamples + j = sample j of segment c >> 8, the tail untouched, Stop's status, summary filled |
| Session.PicoScope.Transfer | main.cpp:235-284 | bind, bulk read, copy, Stop, summary; the status is Stop's |
| Session.PicoScope.BindBuffers | main.cpp:242-245 | one SetDataBufferBulk per segment, in order, on channel A |
| Session.PicoScope.CopySegments | main.cpp:251-258 | every byte below nSegments * nSamples is its sample shifted right by 8; the rest of the buffer is untouched |
| Session.PicoScope.CopySegment | main.cpp:253-257 | one segment is copied to nIndex .. nIndex + nSamples - 1, and nothing else is written |
| Session.PicoScope.GetBufferLength | main.cpp:287-290 | the buffer length |
| Session.PicoScope.GetNextSegmentPad | main.cpp:292-295 | segments are not padded: 0 |
| Session.PicoScope.GetSegmentOffset | main.cpp:297-300 | segment k starts at k * nSamples: the offset is nSamples |
| Session.PicoScope.GetScopeDataList | main.cpp:302-305 | the session's own summary |
| Session.PicoScope.GetData | main.cpp:307-310 | the buffer held |
| Session.PicoScope.GetSegmentCount | main.cpp:312-315 | the segment count |
| Session.PicoScope.SetData | main.cpp:317-321 | the held buffer is released and the given one taken over |
| Session.PicoScope.Destroy | main.cpp:25-28 | the destructor releases the held buffer |

## Left out

- The vendor driver itself: its answers are arbitrary functions of the call history. The numeric enum codes come from the vendor headers (ps6000Api.h, PicoStatus.h), which are not part of this model.
- main_wrap.cpp (the Node/V8 argument marshalling, worker scheduling and the global singleton), index.js, test.js and test2.js: these are binding glue and scripts that need hardware.
- Floating point: rates, delays, the sample interval, the summary's sampling rate and the `(float)` offset cast are exact reals. Rounding and NaN are not modelled.
- `_sleep(1)` in the poll loop: timing is not modelled.
- `calloc`/`free` of the scratch buffers in fetchData, and an allocation failure: the native buffers become a sequence and allocation always succeeds. SAFE_FREE is modelled by the ghost list `freed`.
- `resetDevice`: a stub that returns PICO_OK. `acquisitionCallback`: declared only. The unused `bIsSAR` parameters of doAcquisition and fetchData.
- The `maxSamples` output of MemorySegments, the overflow flags of GetValuesBulk and the unused `r` of GetUnitInfo are not modelled. The session code never reads them.
- `lGetSamples` (main.cpp:248) is passed to GetValuesBulk uninitialised, and the driver reads it on entry as the number of samples requested. The model does not represent that argument, so the bulk read always delivers nSamples per segment.
- The statuses of GetUnitInfo and SetDataBufferBulk are discarded by the code. The model drops them too.
- The constructor leaves the unit record and `isAcquisitionReady` uninitialised. The model starts them at the all-zero record and false.
- Session.PicoScope.SetInfo: memcpy copies the whole 8-byte `modelString` from the 7-byte line buffer, one byte past its end. The model keeps only the text up to the NUL.
- Session.PicoScope.WaitForAcquisition: requires that some future poll fails or reports ready. Without that, the C++ code loops forever.
- Session.PicoScope.FetchData: requires a buffer of at least nSamples * nSegments bytes when the copy is reached. main.cpp writes through a null or short buffer there, which is undefined behaviour.
- PicoHelpers.MvToADC: the result is stated only for millivolt values within the range's full scale. Outside it, the int16_t truncation is applied but the result is not characterised further.
- PicoHelpers.DelayCount: a conversion C leaves undefined is `None`, and the delay argument then carries no value.

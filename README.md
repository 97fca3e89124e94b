# quad-control sensor drivers in Dafny

This project models the sensor layer of the quad-control flight board firmware. It covers four pieces:

- the BMP085 barometer driver;
- the register encoding and decoding of the HMC5883L magnetometer and MPU6050 accelerometer/gyroscope drivers;
- the two-slot `Reading` buffer that polls all three sensors once per loop iteration.

The model proves properties of each.

**BMP085** (`bmp085_calibration.dfy`, `bmp085_compensation.dfy`, `bmp085.dfy`). The driver reads its acquisition without blocking:

- `check_reading` is a three-phase machine (Ready, Waiting_UT, Waiting_UP) written as a fall-through `switch`;
- each phase is gated by the wrap-aware `between` timer macro;
- `read_calibration` decodes eleven big-endian calibration words;
- `read_raw` runs the fixed-point temperature and pressure compensation.

The `Barometer` class keeps the driver's fields. Its `CheckReading` method keeps the fall-through structure and is proved equal to `Poll`, a single-dispatch reference step. The lemmas about `Poll` give the phase-by-phase behaviour, the at-most-one-phase-per-call property and the cycle over any series of calls. The compensation is a pure function, `CompensateAsWritten`. It has 32-bit two's-complement wrap-around (also where signed overflow is undefined in C++), the source's signed/unsigned conversions, arithmetic shifts and truncating division.

**HMC5883L** (`hmc5883l.dfy`):

- the configuration fields and fluent setters;
- the three configuration bytes `init` packs, with every setting recovered from its bit field;
- the X, Z, Y order of the six data bytes, proved as a round trip.

**MPU6050** (`mpu6050.dfy`):

- the scale settings and setters;
- the four `init` writes;
- the accelerometer decode;
- the gyro drift correction with its arithmetic shift, proved as a round trip.

**Reading** (`quad_control.dfy`). The buffer is a class over a two-element array and a cursor. `GetReadings` advances the cursor, writes one slot in place and polls the modelled barometer. It is proved equal to the pure `Step` on a `Ring` value. Lemmas about `Step` cover the cursor's alternation, that the other slot is left alone, the stale-pressure behaviour and which slot `print` shows.

`bits.dfy` defines the C integer semantics every driver uses:

- the target has a 32-bit `int`;
- signed conversions wrap (two's complement);
- signed arithmetic overflow and left shifts of negative values, which C++ leaves undefined, are modelled as two's-complement wrap-around (`(int32_t)mc << 11` is mc · 2048, wrapped);
- `>>` on a signed value is floor division by 2^k;
- C `/` truncates toward zero.

Bus traffic is a list of `BusOp` records. The bytes a device returns and the clock reading are parameters.

Facts about the code that the model pins down:

- Temperature and pressure persist in the same slot, so a call whose barometer poll is not Ready shows what that slot held two calls earlier, not the previous call's values (`QuadControl.StaleValuesFromTwoCallsBack`).
- `between` is not invariant under shifting both instants around the clock, while the true elapsed time `Elapsed` is (see Findings).
- The pressure step as written never reads `ac3` (`Bmp085Compensation.AsWrittenIgnoresAc3`).
- Both divisions of `read_raw` are unguarded, so the model requires non-zero divisors.
- The code computes no roll, pitch or heading, and has no accessor for the latest reading besides `print`.
- A Ready result always means a fresh sample: a call returns Ready exactly when that same call completed the pressure read (`Bmp085.PollReadyIff`).

## Model

| member | source | states |
|---|---|---|
| Bits.Wrap16 | lib/BMP085/BMP085.h:29 | conversion to `int16_t` gives the in-range value congruent to the input modulo 2^16 |
| Bits.Wrap32 | lib/BMP085/BMP085.h:118-139 | an `int32_t` result is the in-range value congruent to the exact result modulo 2^32 |
| Bits.ToU32 | lib/BMP085/BMP085.h:133-134 | conversion to `uint32_t`/`unsigned long` keeps the value modulo 2^32 |
| Bits.ToU16 | lib/BMP085/BMP085.h:52 | conversion to `uint16_t` keeps the value modulo 2^16 |
| Bits.Shr | lib/BMP085/BMP085.h:121 | signed `x >> k` is the floor of x / 2^k: r·2^k ≤ x < (r+1)·2^k, and the sign is kept |
| Bits.CDiv | lib/BMP085/BMP085.h:122 | C division truncates: the remainder is smaller than the divisor in magnitude and never has the opposite sign of the dividend |
| Bits.Word16 | lib/BMP085/BMP085.h:99 | hi << 8 or-ed with lo has hi as its high byte and lo as its low byte |
| Bits.Word24 | lib/BMP085/BMP085.h:106-107 | the 24-bit big-endian value is below 2^24, with the high byte above the 16-bit word of the other two |
| Bits.SignedHighOrLow | lib/BMP085/BMP085.h:29 | sign-extending the high byte alone and or-ing in the low byte gives the two's-complement reading of the whole word |
| Bits.I16RoundTrip | lib/MPU6050/MPU6050.h:65 | decoding the two bytes a device sends for a signed word gives the word back |
| Bits.I16BytesRoundTrip | lib/MPU6050/MPU6050.h:65 | re-encoding a decoded signed word gives the two bytes back |
| Bits.U16RoundTrip | lib/BMP085/BMP085.h:99 | decoding the two bytes of an unsigned word gives the word back |
| Bits.U16BytesRoundTrip | lib/BMP085/BMP085.h:99 | re-encoding a decoded unsigned word gives the two bytes back |
| Bits.DecodeEncodeWords | lib/BMP085/BMP085.h:28-40 | decoding the big-endian byte stream of a word sequence gives the words back |
| Bits.EncodeDecodeWords | lib/BMP085/BMP085.h:28-40 | re-encoding the words decoded from an even-length stream gives the stream back |
| Bits.DecodeWordsAt | lib/BMP085/BMP085.h:30-40 | word k of a decoded stream is the big-endian word at byte offset 2k |
| Bmp085Calibration.EncodeCalibration | lib/BMP085/BMP085.h:28-40 | the 22-byte register image of a calibration set: its eleven words big-endian, in the order `read_calibration` reads them; `CalibrationRoundTrip` and `DecodeCalibration` prove it the exact inverse of the decode |
| Bmp085Calibration.DecodeCalibration | lib/BMP085/BMP085.h:26-41 | the eleven coefficients decoded from 22 bytes are the one calibration set whose register image is exactly those bytes |
| Bmp085Calibration.DecodeCalibrationOffsets | lib/BMP085/BMP085.h:30-40 | each coefficient is the word at offset 0, 2, …, 20: ac4–ac6 unsigned, the others two's-complement |
| Bmp085Calibration.CalibrationRoundTrip | lib/BMP085/BMP085.h:51-52 | decoding the register image of any calibration set gives the set back |
| Bmp085Compensation.TemperatureX1 | lib/BMP085/BMP085.h:121 | X1 with 32-bit wrap and arithmetic shift; `ExactX1` proves it the floor of (ut − ac6)·ac5 / 2^15, in 17 bits, whenever the product fits |
| Bmp085Compensation.TemperatureDivisor | lib/BMP085/BMP085.h:122 | the divisor X1 + md; `TemperatureFormula` proves it equal to the unwrapped sum when the product of line 121 fits |
| Bmp085Compensation.B5 | lib/BMP085/BMP085.h:122-123 | b5 = X1 + trunc(mc·2^11 / (X1 + md)); `TemperatureFormula` states it without wrap-around, `ExampleTemperature` gives 2400 on the worked example |
| Bmp085Compensation.Temperature | lib/BMP085/BMP085.h:124 | (b5 + 8) >> 4 in 0.1 °C; `TemperatureFormula` and `ExampleTemperature` (150) |
| Bmp085Compensation.B3 | lib/BMP085/BMP085.h:125-129 | b3 from b6 = b5 − 4000 and the b2 and ac2 terms; `B3IgnoresAc3` and `ExampleB3` (422) |
| Bmp085Compensation.B4AsWritten | lib/BMP085/BMP085.h:130-133 | b4 with line 130's X1 overwritten and line 127's X2 reused; `B4AsWrittenIgnoresAc3` and `ExampleB4` (32769) |
| Bmp085Compensation.B4 | lib/BMP085/BMP085.h:130-133 | corrected: b4 from the ac3 and b1 terms; `ExampleB4` (33457) and `DatasheetExample` |
| Bmp085Compensation.B7AsWritten | lib/BMP085/BMP085.h:134 | (up − b3) as `unsigned long` times 50000 >> oss, stored in the signed b7; `ExampleB7` (1171050000) |
| Bmp085Compensation.PressureQuotientAsWritten | lib/BMP085/BMP085.h:135 | the signed b7 against 0x08000000, both divisions by the unsigned b4; `PressureQuotientPrecise` (0 ≤ b7 < 0x08000000: equal to the published step) and `PressureQuotientCoarse` (b7 ≥ 0x08000000: its value and its distance from the precise quotient) cover every b7 ≥ 0; a negative b7 is not characterized |
| Bmp085Compensation.PressureQuotient | lib/BMP085/BMP085.h:135 | corrected: the published step with threshold 0x80000000 and an unsigned 32-bit doubling; `PressureQuotientExact` proves it exact below the threshold |
| Bmp085Compensation.PressureCorrection | lib/BMP085/BMP085.h:136-139 | the second-order correction of P with 32-bit wrap; `ExampleCorrections` (71472 → 71432, 70003 → 69964) |
| Bmp085Compensation.CompensateAsWritten | lib/BMP085/BMP085.h:121-139 | `read_raw`'s arithmetic as written; `TemperatureFormula`, `TemperatureIndependentOfPressure`, `AsWrittenIgnoresAc3` and `DatasheetExampleAsWritten` state its properties |
| Bmp085Compensation.Compensate | lib/BMP085/BMP085.h:121-139 | corrected: the compensation with lines 130-132 and 135 as published; `DatasheetExample` gives 150 and 69964 Pa |
| Bmp085Compensation.TemperatureFormula | lib/BMP085/BMP085.h:121-124 | when (ut − ac6)·ac5 fits in 32 bits, the divisor is X1 + md, b5 = X1 + trunc(mc·2^11 / (X1 + md)) and temperature = (b5 + 8) >> 4, with no wrap anywhere |
| Bmp085Compensation.ExactX1 | lib/BMP085/BMP085.h:121 | without overflow, X1 is the floor of (ut − ac6)·ac5 / 2^15 and fits in 17 bits |
| Bmp085Compensation.CDivBound | lib/BMP085/BMP085.h:122 | a truncated quotient is no larger in magnitude than its dividend |
| Bmp085Compensation.TemperatureIndependentOfPressure | lib/BMP085/BMP085.h:121-124 | the temperature depends neither on the raw pressure nor on the oversampling setting |
| Bmp085Compensation.AsWrittenIgnoresAc3 | lib/BMP085/BMP085.h:130-131 | the code as written never reads ac3: changing it changes neither definedness nor the result |
| Bmp085Compensation.TemperatureStageIgnoresAc3 | lib/BMP085/BMP085.h:121-123 | the temperature stage does not read ac3 |
| Bmp085Compensation.PressureStagesIgnoreAc3 | lib/BMP085/BMP085.h:125-133 | b3 and the as-written b4 do not read ac3 |
| Bmp085Compensation.B3IgnoresAc3 | lib/BMP085/BMP085.h:125-129 | b3 does not read ac3 |
| Bmp085Compensation.B4AsWrittenIgnoresAc3 | lib/BMP085/BMP085.h:130-133 | the as-written b4 does not read ac3 |
| Bmp085Compensation.DatasheetExample | lib/BMP085/BMP085.h:121-139 | with the corrected stages, the published worked example (UT 27898, UP 23843, oss 0) gives 15.0 °C and 69964 Pa |
| Bmp085Compensation.DatasheetExampleAsWritten | lib/BMP085/BMP085.h:121-139 | the code as written gives b4 = 32769 and 71432 Pa on that example |
| Bmp085Compensation.ExampleTemperature | lib/BMP085/BMP085.h:121-124 | worked example: X1 = 4743, X1 + md = 7611, b5 = 2400, temperature 150 |
| Bmp085Compensation.ExampleB3 | lib/BMP085/BMP085.h:125-129 | worked example: b3 = 422 |
| Bmp085Compensation.ExampleB7 | lib/BMP085/BMP085.h:134 | worked example: b7 = 1171050000 |
| Bmp085Compensation.ExampleB4 | lib/BMP085/BMP085.h:130-133 | worked example: b4 = 32769 as written, 33457 corrected |
| Bmp085Compensation.ExampleQuotients | lib/BMP085/BMP085.h:135 | worked example: P = 71472 as written, 70003 corrected |
| Bmp085Compensation.ExampleCorrections | lib/BMP085/BMP085.h:136-139 | worked example: the second-order correction maps 71472 to 71432 and 70003 to 69964 |
| Bmp085Compensation.ExampleOneDeviationFixed | lib/BMP085/BMP085.h:130-135 | worked example with only one deviation corrected: the b4 stage alone gives 69963 Pa, line 135 alone gives 71433 Pa, so the published 69964 Pa needs both |
| Bmp085Compensation.ExampleQuotientsOneFixed | lib/BMP085/BMP085.h:135 | worked example: P = 70002 with the corrected b4 and the as-written threshold, 71473 with the as-written b4 and the published step |
| Bmp085Compensation.ExampleCorrectionsOneFixed | lib/BMP085/BMP085.h:136-139 | worked example: the second-order correction maps 70002 to 69963 and 71473 to 71433 |
| Bmp085Compensation.ThresholdDropsLowBit | lib/BMP085/BMP085.h:135 | the 0x08000000 threshold sends b7 = 1171050000 through (b7 / b4)·2, giving 70002 instead of 70003 |
| Bmp085Compensation.PressureQuotientExact | lib/BMP085/BMP085.h:135 | corrected step: for every b7 below 2^31, doubling b7 in unsigned 32 bits does not wrap, so the quotient is exactly floor(2·b7 / b4) |
| Bmp085Compensation.PressureQuotientPrecise | lib/BMP085/BMP085.h:135 | as written, for every b7 from 0 below 0x08000000: the precise branch gives exactly the published step's quotient |
| Bmp085Compensation.PressureQuotientCoarse | lib/BMP085/BMP085.h:135 | as written, for every b7 ≥ 0x08000000: P = 2·floor(b7 / b4), which is floor(2·b7 / b4) or one less, and P equals the published step's quotient if and only if 2·(b7 mod b4) < b4 |
| Bmp085.WaitUp | lib/BMP085/BMP085.h:84 | the pressure conversion waits 4500, 7500, 13500 and 25500 µs by oss; `PollWaitingUP` and `StandardBoundary` use it as the strict deadline |
| Bmp085.PressureCommand | lib/BMP085/BMP085.h:100 | 0x34 or-ed with oss << 6 carries oss in bits 6–7 and 0x34 below them |
| Bmp085.Between | lib/BMP085/BMP085.h:88 | `between(a, b)` is a − b without a wrap, and one short of 2^32 + a − b after a wrap; it never overflows |
| Bmp085.Elapsed | lib/BMP085/BMP085.h:88 | corrected: the elapsed time is the one value in range that, added to b modulo 2^32, gives a |
| Bmp085.BetweenVersusElapsed | lib/BMP085/BMP085.h:88 | `between` equals the true elapsed time when the clock has not wrapped, and is exactly one less when it has |
| Bmp085.ElapsedShiftInvariant | lib/BMP085/BMP085.h:88 | the true elapsed time is unchanged when both instants are shifted around the clock |
| Bmp085.BetweenWrapOffByOne | lib/BMP085/BMP085.h:88 | one microsecond across the wrap reads as 0, elsewhere as 1 |
| Bmp085.RawTemperature | lib/BMP085/BMP085.h:99 | ut lies in 0..65535 |
| Bmp085.RawPressure | lib/BMP085/BMP085.h:106-107 | the 24-bit big-endian reply shifted right by 8 − oss; `RawPressureRange` bounds it by 2^(16+oss) |
| Bmp085.RawPressureRange | lib/BMP085/BMP085.h:106-107 | up = 24-bit value >> (8 − oss) lies in 0 .. 2^(16+oss) − 1 |
| Bmp085.Poll | lib/BMP085/BMP085.h:81-112 | one `check_reading` call as a single dispatch on the phase; `PollFromReady`, `PollWaitingUT`, `PollWaitingUP`, `PollAdvancesAtMostOnePhase`, `PollReadyIff` and `RunFollowsCycle` state its behaviour, and `Barometer.CheckReading` is proved equal to it |
| Bmp085.PollFromReady | lib/BMP085/BMP085.h:91-96 | from Ready: write 0x2E to 0xF4, restart the timer, and always end in Waiting_UT |
| Bmp085.PollWaitingUT | lib/BMP085/BMP085.h:95-102 | in Waiting_UT: nothing while elapsed ≤ 4500; then ut = b0·256 + b1, the pressure command is written, the timer restarts, and the state is Waiting_UP |
| Bmp085.PollWaitingUP | lib/BMP085/BMP085.h:103-108 | in Waiting_UP: nothing while elapsed ≤ wait_up[oss]; then up < 2^(16+oss) is read and the state is Ready |
| Bmp085.PollAdvancesAtMostOnePhase | lib/BMP085/BMP085.h:90-111 | one call moves at most one phase along the cycle, leaves a waiting phase only after its wait strictly passed, and issues bus traffic exactly when it moves |
| Bmp085.PollReadyIff | lib/BMP085/BMP085.h:103-111 | a call returns Ready if and only if it began in Waiting_UP and completed the pressure read |
| Bmp085.RunFollowsCycle | lib/BMP085/BMP085.h:81-112 | over any series of calls each state is its predecessor's phase or the next in Ready → Waiting_UT → Waiting_UP → Ready |
| Bmp085.FullCycle | lib/BMP085/BMP085.h:90-108 | three calls spaced past the waits take Ready to Ready through both waiting phases, with ut and up from the second and third replies |
| Bmp085.StandardBoundary | lib/BMP085/BMP085.h:104 | at the Standard setting the pressure phase still waits at exactly 7500 µs and completes at 7501 µs |
| Bmp085.Int16Macro | lib/BMP085/BMP085.h:29 | the `int16(x)` macro gives the two's-complement big-endian word at offset x |
| Bmp085.Barometer.constructor | lib/BMP085/BMP085.h:66-68 | a new driver has ultra-low oversampling and state Ready |
| Bmp085.Barometer.SetOss | lib/BMP085/BMP085.h:70-73 | sets only oss and returns the same object |
| Bmp085.Barometer.ReadCalibration | lib/BMP085/BMP085.h:26-42 | one 22-byte read from 0xAA; the eleven coefficients become the decoded calibration set |
| Bmp085.Barometer.Init | lib/BMP085/BMP085.h:75-78 | reads the calibration and starts the timer at the current time |
| Bmp085.Barometer.CheckReading | lib/BMP085/BMP085.h:81-112 | the fall-through switch updates state, timer, ut and up and issues the bus traffic exactly as `Poll` says, and returns the new state |
| Bmp085.Barometer.ReadRaw | lib/BMP085/BMP085.h:115-140 | outside Ready it returns the state and leaves both outputs unchanged; in Ready it stores the as-written compensated temperature and pressure and returns no value |
| Hmc5883l.ConfigA | lib/HMC5883L/HMC5883L.h:136 | 0x80 or-ed with avg << 5 and rate << 2; `ConfigAFields` recovers every field and `PositiveBiasLost` shows the missing measurement mode |
| Hmc5883l.ConfigAFields | lib/HMC5883L/HMC5883L.h:136 | configuration A has bit 7 set, averaging recoverable from bits 5–6, rate from bits 2–4, and bits 0–1 clear |
| Hmc5883l.MeasurementModeNotSent | lib/HMC5883L/HMC5883L.h:135-143 | configurations that differ only in measurement mode put identical bytes on the bus |
| Hmc5883l.ConfigAWithMode | lib/HMC5883L/HMC5883L.h:136 | corrected: configuration A with the measurement mode in bits 0–1; every setting is recoverable |
| Hmc5883l.PositiveBiasLost | lib/HMC5883L/HMC5883L.h:136 | with the defaults and positive bias, the driver sends 0xF0 where the device needs 0xF1 |
| Hmc5883l.ConfigB | lib/HMC5883L/HMC5883L.h:137 | `gain << 5`; `ConfigBFields` recovers the gain |
| Hmc5883l.ConfigBFields | lib/HMC5883L/HMC5883L.h:137 | configuration B carries the gain in bits 5–7 and zeros below |
| Hmc5883l.ModeByte | lib/HMC5883L/HMC5883L.h:138 | 0x80 or-ed with the mode; `ModeByteFields` recovers the mode |
| Hmc5883l.ModeByteFields | lib/HMC5883L/HMC5883L.h:138 | the mode byte has bit 7 set, the mode in bits 0–1 and zeros between |
| Hmc5883l.InitTraffic | lib/HMC5883L/HMC5883L.h:140-142 | exactly three writes to 0x1E, to registers 0, 1 and 2 in order, each carrying its settings in their bit fields |
| Hmc5883l.DecodeXZY | lib/HMC5883L/HMC5883L.h:146-152 | x from bytes 0–1, z from 2–3 and y from 4–5, each a signed big-endian word; the device-order encoding of the result is exactly the bytes read |
| Hmc5883l.XZYRoundTrip | lib/HMC5883L/HMC5883L.h:150-152 | decoding the bytes the device sends for a reading gives the reading back |
| Hmc5883l.Compass.constructor | lib/HMC5883L/HMC5883L.h:96-102 | defaults: Avg8, Rate_1500, Normal, Gain_1090, Single_Measurement, declination 0 |
| Hmc5883l.Compass.SetMeasureAvg | lib/HMC5883L/HMC5883L.h:104-107 | sets only the averaging and returns the same object |
| Hmc5883l.Compass.SetDataRate | lib/HMC5883L/HMC5883L.h:109-112 | sets only the rate and returns the same object |
| Hmc5883l.Compass.SetGain | lib/HMC5883L/HMC5883L.h:114-117 | sets only the gain and returns the same object |
| Hmc5883l.Compass.SetMeasureMode | lib/HMC5883L/HMC5883L.h:119-122 | sets only the measurement mode and returns the same object |
| Hmc5883l.Compass.SetMode | lib/HMC5883L/HMC5883L.h:124-127 | sets only the mode and returns the same object |
| Hmc5883l.Compass.SetDeclination | lib/HMC5883L/HMC5883L.h:129-132 | sets only the declination and returns the same object |
| Hmc5883l.Compass.Init | lib/HMC5883L/HMC5883L.h:135-144 | writes the three configuration bytes of the current settings and returns 0 |
| Hmc5883l.Compass.ReadRaw | lib/HMC5883L/HMC5883L.h:146-154 | one six-byte read from 0x03, decoded in X, Z, Y order; returns 0 |
| Mpu6050.ScaleByte | lib/MPU6050/MPU6050.h:40-41 | `scale << 3` carries the scale in bits 3–4 and zeros elsewhere |
| Mpu6050.InitTraffic | lib/MPU6050/MPU6050.h:39-42 | four writes to 0x68, in order 0x1A ← 0, 0x1B ← gyro scale in bits 3–4, 0x1C ← accel scale in bits 3–4, 0x6B ← 1 |
| Mpu6050.ScaleByteInjective | lib/MPU6050/MPU6050.h:40-41 | two scale settings give the same byte if and only if they are equal |
| Mpu6050.Word | lib/MPU6050/MPU6050.h:65 | the `i16(n)` macro, once converted to `int16_t`, is the signed big-endian word at offset n |
| Mpu6050.DecodeAxes | lib/MPU6050/MPU6050.h:66-69 | the accelerometer triple is the signed big-endian words at offsets 0, 2 and 4; its encoding is exactly the bytes read |
| Mpu6050.AxesRoundTrip | lib/MPU6050/MPU6050.h:66-69 | decoding the bytes the sensor sends for three axes gives them back |
| Mpu6050.CorrectedAxis | lib/MPU6050/MPU6050.h:72-74 | a gyro axis is the signed raw word minus (drift >> scale), wrapped to 16 bits, and exactly that difference when it fits |
| Mpu6050.CorrectedAxisRoundTrip | lib/MPU6050/MPU6050.h:72-74 | adding the correction back to a corrected axis recovers the signed raw reading |
| Mpu6050.CorrectedGyro | lib/MPU6050/MPU6050.h:70-74 | the three gyro words at offsets 0, 2, 4, each less its drift shifted by the scale; `CorrectedAxis`, `CorrectedAxisRoundTrip` and `ZeroGyroAtFinestShift` state it |
| Mpu6050.DriftCorrections | lib/MPU6050/MPU6050.h:71-74 | the corrections at each scale; the negative drift shifts toward minus infinity (−940 >> 3 = −118) |
| Mpu6050.ZeroGyroAtFinestShift | lib/MPU6050/MPU6050.h:70-74 | an all-zero gyro reading at the 2000 dps scale comes out as (−56, 118, −31) |
| Mpu6050.InitIgnoresAd0 | lib/MPU6050/MPU6050.h:11 | every `init` write goes to the fixed address 0x68, whatever AD0 holds |
| Mpu6050.Sensor.constructor | lib/MPU6050/MPU6050.h:33-36 | defaults: AD0 low, 250 dps, 4 g |
| Mpu6050.Sensor.Init | lib/MPU6050/MPU6050.h:38-44 | issues the four `init` writes for the current scales and returns the same object |
| Mpu6050.Sensor.SetGyroScale | lib/MPU6050/MPU6050.h:46-49 | sets only the gyro scale and returns the same object |
| Mpu6050.Sensor.SetAccelScale | lib/MPU6050/MPU6050.h:51-54 | sets only the accelerometer scale and returns the same object |
| Mpu6050.Sensor.SetAd0 | lib/MPU6050/MPU6050.h:56-59 | sets only ad0 and returns the same object; the traffic a later `init` issues is the same as before the call |
| Mpu6050.Sensor.ReadRaw | lib/MPU6050/MPU6050.h:61-76 | reads six bytes at 0x3B and six at 0x43; the accelerometer triple is decoded and each gyro axis is drift-corrected at the current scale |
| QuadControl.NextSlot | lib/quad-control/quad-control.h:27 | the cursor moves to the other of the two slots |
| QuadControl.Fill | lib/quad-control/quad-control.h:30-36 | motion, magnetometer and time are always replaced; temperature and pressure are replaced when the barometer is ready and kept otherwise |
| QuadControl.Step | lib/quad-control/quad-control.h:27-36 | a call moves the cursor, refills the slot it lands on, and leaves the slot it left unchanged |
| QuadControl.Initial | lib/quad-control/quad-control.h:21-22 | the cursor starts on the last slot, and each slot holds its own unspecified contents |
| QuadControl.FirstCallWritesSlotZero | lib/quad-control/quad-control.h:21-28 | the first call writes slot 0 and leaves slot 1 as it was |
| QuadControl.CursorAlternates | lib/quad-control/quad-control.h:27 | after n calls the cursor has moved n places modulo 2 |
| QuadControl.StaleValuesFromTwoCallsBack | lib/quad-control/quad-control.h:34-35 | a not-ready call shows the temperature and pressure its slot received two calls earlier |
| QuadControl.PreviousLatestKept | lib/quad-control/quad-control.h:27-28 | the reading shown before a call stays in the slot the cursor just left |
| QuadControl.Reading.constructor | lib/quad-control/quad-control.h:21-22 | a new buffer has its cursor on slot 1; the two slots start with independent contents |
| QuadControl.Reading.GetReadings | lib/quad-control/quad-control.h:24-37 | the slot array changes as `Step` says, with ready meaning the barometer's poll returned Ready; the barometer changes as its own step says; the bus sees the compass's six-byte read at 0x1E/0x03, then the barometer's poll |
| QuadControl.Reading.Print | lib/quad-control/quad-control.h:40 | shows the slot under the cursor |

## Left out

- I2C transport (`i2c_read`, `i2c_write` in all three drivers): replaced by the list of bus operations and by the bytes each read returns. Short reads, which leave buffer bytes unset, are not modelled.
- `micros()` and `millis()`: the current time is a parameter.
- Floating point: the BMP085 `scale`, `read_scale` and both `altitude` overloads; the HMC5883L `read_scaled` and its −4096 sentinel; the MPU6050 `read_scaled`, `scale_gyro`, `scale_accel` and `read_temperature`. The float fields (declination, the magnetometer vector, temperature in `Reads`) are opaque `real` values.
- `getMotion6` and `calculate`, called by `get_readings`: they are not defined in the drivers. Each call receives the values they deliver as inputs.
- `compass->read_scaled` inside `get_readings` is a float computation; its result is an input too. Its data read (six bytes at 0x1E, register 0x03, through `read_raw`) is part of `GetReadings`'s traffic.
- The MPU6050's bus traffic inside `get_readings`: `getMotion6` is not defined in the driver, so `GetReadings`'s traffic holds only the compass read and the barometer poll.
- `Serial` output in `Reading::print`: only the choice of slot is modelled.
- Roll, pitch, heading and tilt compensation: the code has none.
- Concurrency: the firmware runs one cooperative loop.
- The unused ID registers and constants of the HMC5883L (`ADDR_ID_*`, `ID_*`) and the BMP085 sea-level constant `p0`: no modelled operation reads them.
- Bmp085.Barometer.ReadRaw: requires both divisors to be non-zero, because the source divides unguarded and C leaves the result undefined.
- Bmp085.Barometer.ReadRaw: on the Ready path the source stores both outputs and then reaches the end of the non-void function without a `return`, which is undefined behaviour in C++; the status `NoValue` stands for that missing result, and the model promises nothing about the value a caller would see.
- Bmp085.Barometer.constructor: the source leaves the other fields uninitialised; the contract states only the two it sets.
- QuadControl.Reading.constructor: the source's slot contents start unspecified; the model takes one parameter per slot.

## Findings

The driver members (`Barometer.CheckReading`, `Barometer.ReadRaw`, `Compass.Init`) compute what the code as written computes, so that they describe the firmware as it runs. Each corrected definition sits beside its as-written counterpart, and the intended property is proved about it.

| source | as written | input that shows it | evidently intended | confidence | as-written member | corrected member |
|---|---|---|---|---|---|---|
| lib/BMP085/BMP085.h:130-132 | X1 = ac3·b6 >> 13 is overwritten at once, so X3 adds the b1 term to line 127's ac2 term and ac3 is never read | published calibration, UT 27898, UP 23843, oss 0: b4 = 32769 (`ExampleB4`); the 71432 Pa of the code as written also includes line 135's deviation, and with only this stage corrected the result is 69963 Pa (`ExampleOneDeviationFixed`) | X1 = ac3·b6 >> 13 and X2 = b1 term, giving b4 = 33457; together with the corrected line 135 this yields the published 69964 Pa | high, not executed | Bmp085Compensation.DatasheetExampleAsWritten | Bmp085Compensation.DatasheetExample |
| lib/BMP085/BMP085.h:135 | threshold 0x08000000 sends every b7 from 2^27 to 2^31 through (b7 / b4)·2, which drops the quotient's low bit whenever 2·(b7 mod b4) ≥ b4 | b7 = 1171050000, b4 = 33457: 70002 (`ThresholdDropsLowBit`) | threshold 0x80000000 with an unsigned b7, so b7·2 / b4 = 70003 whenever the doubling cannot wrap | medium, not executed | Bmp085Compensation.PressureQuotientCoarse | Bmp085Compensation.PressureQuotientExact |
| lib/BMP085/BMP085.h:88 | after a wrap `between` adds ULONG_MAX − b, one short of the modulus | between(0, ULONG_MAX) = 0, though one microsecond has passed | the modular difference (a − b) mod 2^32 | medium, not executed | Bmp085.BetweenWrapOffByOne | Bmp085.ElapsedShiftInvariant |
| lib/HMC5883L/HMC5883L.h:136 | configuration A omits `measurement_mode`, so `set_measure_mode` never reaches the device | positive bias with the defaults: 0xF0 sent where the device needs 0xF1 | or the measurement mode into bits 0–1 | medium, not executed | Hmc5883l.PositiveBiasLost | Hmc5883l.ConfigAWithMode |

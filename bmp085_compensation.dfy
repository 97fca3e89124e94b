/**
  The BMP085 fixed-point compensation of `read_raw` (lib/BMP085/BMP085.h:115-140),
  as a pure function of the raw readings, the calibration set and the
  oversampling setting.

  Types follow the source: ut, up, X1, X2, X3, b3, b5, b6, b7 and P are
  `int32_t`, b4 is `uint32_t`, the calibration words are 16-bit.  Every int32
  operation wraps (see module Bits); the two divisions are unguarded in the
  source, so the functions require their divisors to be non-zero.

  The code as written differs from the published compensation algorithm in
  two places (see README, Findings): the stage of lines 130-132 and the
  threshold of line 135.  Both versions are given; `CompensateAsWritten` is
  the one the driver computes.
 */
module Bmp085Compensation {
  import opened Bits
  import opened Bmp085Calibration

  /** The oversampling setting, enum OSS: Ultra_Low = 0 .. Ultra_High = 3. */
  type Oss = o: int | 0 <= o <= 3

  const ULTRA_LOW: Oss := 0
  const STANDARD: Oss := 1
  const HIGH: Oss := 2
  const ULTRA_HIGH: Oss := 3

  /** Temperature in 0.1 degree C and pressure in Pa. */
  datatype Compensated = Compensated(temperature: I32, pressure: I32)

  /** Line 121: X1 = ((ut - ac6) * ac5) >> 15. */
  function TemperatureX1(ut: I32, c: Calibration): I32
  {
    Shr(Wrap32((ut - c.ac6) * c.ac5), 15)
  }

  /** The divisor X1 + md of line 122. */
  function TemperatureDivisor(ut: I32, c: Calibration): I32
  {
    Wrap32(TemperatureX1(ut, c) + c.md)
  }

  /** Lines 122-123: b5 = X1 + ((int32_t)mc << 11) / (X1 + md). */
  function B5(ut: I32, c: Calibration): I32
    requires TemperatureDivisor(ut, c) != 0
  {
    var x1 := TemperatureX1(ut, c);
    Wrap32(x1 + CDiv(c.mc * 2048, TemperatureDivisor(ut, c)))
  }

  /** Line 124: temperature = (b5 + 8) >> 4. */
  function Temperature(b5: I32): I32
  {
    Shr(Wrap32(b5 + 8), 4)
  }

  /** Line 129: b3 = ((((int32_t)ac1 << 2) + X3) << oss) + 2) >> 2. */
  function B3(b5: I32, c: Calibration, oss: Oss): I32
  {
    var b6 := Wrap32(b5 - 4000);
    var x1 := Shr(Wrap32(c.b2 * Shr(Wrap32(b6 * b6), 12)), 11);
    var x2 := Shr(Wrap32(c.ac2 * b6), 11);
    var x3 := Wrap32(x1 + x2);
    Shr(Wrap32((c.ac1 * 4 + x3) * Pow2(oss) + 2), 2)
  }

  /**
    Lines 125-133 as written: line 130's X1 is overwritten by line 131 before
    it is used, and X2 still holds line 127's value when line 132 adds it.
   */
  function B4AsWritten(b5: I32, c: Calibration): U32
  {
    var b6 := Wrap32(b5 - 4000);
    var x2 := Shr(Wrap32(c.ac2 * b6), 11);
    var x1 := Shr(Wrap32(c.b1 * Shr(Wrap32(b6 * b6), 12)), 16);
    var x3 := Shr(Wrap32(x1 + x2 + 2), 2);
    ToU32(c.ac4 * ToU32(x3 + 32768)) / Pow2(15)
  }

  /**
    The same stage as the published algorithm has it:
    X1 = (ac3 * b6) >> 13, X2 = (b1 * ((b6 * b6) >> 12)) >> 16.
   */
  function B4(b5: I32, c: Calibration): U32
  {
    var b6 := Wrap32(b5 - 4000);
    var x1 := Shr(Wrap32(c.ac3 * b6), 13);
    var x2 := Shr(Wrap32(c.b1 * Shr(Wrap32(b6 * b6), 12)), 16);
    var x3 := Shr(Wrap32(x1 + x2 + 2), 2);
    ToU32(c.ac4 * ToU32(x3 + 32768)) / Pow2(15)
  }

  /**
    Line 134 as written: (up - b3) is converted to `unsigned long`, multiplied
    by 50000UL >> oss, and the product stored in the signed b7.
   */
  function B7AsWritten(up: I32, b3: I32, oss: Oss): I32
  {
    Wrap32(ToU32(ToU32(up - b3) * (50000 / Pow2(oss))))
  }

  /**
    Line 135 as written: the signed b7 is compared with 0x08000000; both
    divisions are by the unsigned b4, so the dividend is converted to
    `uint32_t` first, and the unsigned quotient is stored in the signed P.
   */
  function PressureQuotientAsWritten(b7: I32, b4: U32): I32
    requires b4 != 0
  {
    if b7 < 0x0800_0000 then Wrap32(ToU32(Wrap32(b7 * 2)) / b4)
    else Wrap32(ToU32((ToU32(b7) / b4) * 2))
  }

  /**
    The published step: B7 is `unsigned long`, and the precise form
    (B7 * 2) / B4 is taken below 0x80000000; the doubling is an unsigned
    32-bit product like every other operation of that step.
   */
  function PressureQuotient(b7: U32, b4: U32): I32
    requires b4 != 0
  {
    if b7 < 0x8000_0000 then Wrap32(ToU32(b7 * 2) / b4)
    else Wrap32(ToU32((b7 / b4) * 2))
  }

  /** Lines 136-139: the second-order correction of P. */
  function PressureCorrection(p: I32): I32
  {
    var x1 := Shr(Wrap32(Wrap32(Shr(p, 8) * Shr(p, 8)) * 3038), 16);
    var x2 := Shr(Wrap32(-7357 * p), 16);
    Wrap32(p + Shr(Wrap32(x1 + x2 + 3791), 4))
  }

  /** Both divisions of the code as written have a non-zero divisor. */
  predicate DefinedAsWritten(ut: I32, c: Calibration)
  {
    TemperatureDivisor(ut, c) != 0 && B4AsWritten(B5(ut, c), c) != 0
  }

  /** Both divisions of the published algorithm have a non-zero divisor. */
  predicate Defined(ut: I32, c: Calibration)
  {
    TemperatureDivisor(ut, c) != 0 && B4(B5(ut, c), c) != 0
  }

  /** `read_raw`'s arithmetic, lines 121-139, exactly as written. */
  function CompensateAsWritten(ut: I32, up: I32, c: Calibration, oss: Oss): Compensated
    requires DefinedAsWritten(ut, c)
  {
    var b5 := B5(ut, c);
    var b3 := B3(b5, c, oss);
    var p := PressureQuotientAsWritten(B7AsWritten(up, b3, oss), B4AsWritten(b5, c));
    Compensated(Temperature(b5), PressureCorrection(p))
  }

  /** The compensation with the two deviations of the source corrected. */
  function Compensate(ut: I32, up: I32, c: Calibration, oss: Oss): Compensated
    requires Defined(ut, c)
  {
    var b5 := B5(ut, c);
    var b3 := B3(b5, c, oss);
    var b7 := ToU32((up - b3) * (50000 / Pow2(oss)));
    var p := PressureQuotient(b7, B4(b5, c));
    Compensated(Temperature(b5), PressureCorrection(p))
  }

  /**
    The temperature, when (ut - ac6) * ac5 fits in 32 bits, is the exact
    fixed-point formula with no wrap-around anywhere: (b5 + 8) >> 4 with
    b5 = X1 + trunc(mc * 2^11 / (X1 + md)) and X1 = floor((ut - ac6) * ac5 / 2^15).
   */
  lemma TemperatureFormula(ut: I32, up: I32, c: Calibration, oss: Oss)
    requires DefinedAsWritten(ut, c)
    requires -0x8000_0000 <= (ut - c.ac6) * c.ac5 < 0x8000_0000
    ensures var x1 := ((ut - c.ac6) * c.ac5) / 0x8000;
            && x1 + c.md != 0
            && TemperatureDivisor(ut, c) == x1 + c.md
            && B5(ut, c) == x1 + CDiv(c.mc * 2048, x1 + c.md)
            && CompensateAsWritten(ut, up, c, oss).temperature
                 == (x1 + CDiv(c.mc * 2048, x1 + c.md) + 8) / 16
  {
    var x1 := ((ut - c.ac6) * c.ac5) / 0x8000;
    ExactX1(ut, c);
    Wrap32InRange(x1 + c.md);
    var q := CDiv(c.mc * 2048, x1 + c.md);
    assert Abs(q) <= Abs(c.mc * 2048) by {
      CDivBound(c.mc * 2048, x1 + c.md);
    }
    Wrap32InRange(x1 + q);
    Wrap32InRange(x1 + q + 8);
  }

  /** Without overflow, line 121's X1 is the floor of (ut - ac6) * ac5 / 2^15, a 17-bit value. */
  lemma ExactX1(ut: I32, c: Calibration)
    requires -0x8000_0000 <= (ut - c.ac6) * c.ac5 < 0x8000_0000
    ensures TemperatureX1(ut, c) == ((ut - c.ac6) * c.ac5) / 0x8000
    ensures -0x1_0000 <= TemperatureX1(ut, c) < 0x1_0000
  {
    var prod := (ut - c.ac6) * c.ac5;
    Wrap32InRange(prod);
    Pow2Values();
    assert TemperatureX1(ut, c) == Shr(prod, 15);
  }

  /** A truncated quotient is no larger in magnitude than its dividend. */
  lemma CDivBound(a: int, b: int)
    requires b != 0
    ensures Abs(CDiv(a, b)) <= Abs(a)
  {
    var q := Abs(a) / Abs(b);
    assert q * Abs(b) <= Abs(a);
    assert q <= q * Abs(b);
  }

  /**
    The temperature does not depend on the raw pressure or on the
    oversampling setting.
   */
  lemma TemperatureIndependentOfPressure(ut: I32, up1: I32, up2: I32, c: Calibration, o1: Oss, o2: Oss)
    requires DefinedAsWritten(ut, c)
    ensures CompensateAsWritten(ut, up1, c, o1).temperature
         == CompensateAsWritten(ut, up2, c, o2).temperature
  {
  }

  /**
    Because line 130's X1 is dead, the code as written never reads ac3:
    changing ac3 changes neither whether the result is defined nor the result.
   */
  lemma AsWrittenIgnoresAc3(ut: I32, up: I32, c: Calibration, oss: Oss, ac3: I16)
    ensures DefinedAsWritten(ut, c.(ac3 := ac3)) == DefinedAsWritten(ut, c)
    ensures DefinedAsWritten(ut, c) ==>
      CompensateAsWritten(ut, up, c.(ac3 := ac3), oss) == CompensateAsWritten(ut, up, c, oss)
  {
    var c' := c.(ac3 := ac3);
    TemperatureStageIgnoresAc3(ut, c, ac3);
    if TemperatureDivisor(ut, c) != 0 {
      PressureStagesIgnoreAc3(B5(ut, c), c, oss, ac3);
    }
  }

  lemma TemperatureStageIgnoresAc3(ut: I32, c: Calibration, ac3: I16)
    ensures TemperatureDivisor(ut, c.(ac3 := ac3)) == TemperatureDivisor(ut, c)
    ensures TemperatureDivisor(ut, c) != 0 ==> B5(ut, c.(ac3 := ac3)) == B5(ut, c)
  {
    var c' := c.(ac3 := ac3);
    assert c'.ac5 == c.ac5 && c'.ac6 == c.ac6 && c'.md == c.md && c'.mc == c.mc;
  }

  lemma PressureStagesIgnoreAc3(b5: I32, c: Calibration, oss: Oss, ac3: I16)
    ensures B3(b5, c.(ac3 := ac3), oss) == B3(b5, c, oss)
    ensures B4AsWritten(b5, c.(ac3 := ac3)) == B4AsWritten(b5, c)
  {
    B3IgnoresAc3(b5, c, oss, ac3);
    B4AsWrittenIgnoresAc3(b5, c, ac3);
  }

  lemma B3IgnoresAc3(b5: I32, c: Calibration, oss: Oss, ac3: I16)
    ensures B3(b5, c.(ac3 := ac3), oss) == B3(b5, c, oss)
  {
    var c' := c.(ac3 := ac3);
    assert c'.ac1 == c.ac1 && c'.ac2 == c.ac2 && c'.b2 == c.b2;
  }

  lemma B4AsWrittenIgnoresAc3(b5: I32, c: Calibration, ac3: I16)
    ensures B4AsWritten(b5, c.(ac3 := ac3)) == B4AsWritten(b5, c)
  {
    var c' := c.(ac3 := ac3);
    assert c'.ac2 == c.ac2 && c'.ac4 == c.ac4 && c'.b1 == c.b1;
  }

  /** The calibration set of the published worked example. */
  const DATASHEET_CALIBRATION: Calibration :=
    Calibration(408, -72, -14383, 32741, 32757, 23153, 6190, 4, -32768, -8711, 2868)

  /**
    The published worked example (UT = 27898, UP = 23843, oss = 0) gives
    15.0 degree C and 69964 Pa with the corrected compensation.
   */
  lemma DatasheetExample()
    ensures Defined(27898, DATASHEET_CALIBRATION)
    ensures Compensate(27898, 23843, DATASHEET_CALIBRATION, ULTRA_LOW) == Compensated(150, 69964)
  {
    ExampleTemperature();
    ExampleB3();
    ExampleB4();
    ExampleB7();
    ExampleQuotients();
    ExampleCorrections();
  }

  /**
    The code as written does not reproduce the worked example: b4 is 32769
    instead of 33457, and the pressure comes out as 71432 Pa.
   */
  lemma DatasheetExampleAsWritten()
    ensures DefinedAsWritten(27898, DATASHEET_CALIBRATION)
    ensures B4AsWritten(2400, DATASHEET_CALIBRATION) == 32769
    ensures CompensateAsWritten(27898, 23843, DATASHEET_CALIBRATION, ULTRA_LOW) == Compensated(150, 71432)
  {
    ExampleTemperature();
    ExampleB3();
    ExampleB4();
    ExampleB7();
    ExampleQuotients();
    ExampleCorrections();
  }

  /** Worked-example step: X1 = 4743, b5 = 2400 and 15.0 degree C. */
  lemma ExampleTemperature()
    ensures TemperatureX1(27898, DATASHEET_CALIBRATION) == 4743
    ensures TemperatureDivisor(27898, DATASHEET_CALIBRATION) == 7611
    ensures B5(27898, DATASHEET_CALIBRATION) == 2400
    ensures Temperature(2400) == 150
  {
    Pow2Values();
    assert Shr(Wrap32((27898 - 23153) * 32757), 15) == 4743;
    assert CDiv(-8711 * 2048, 7611) == -2343;
  }

  /** Worked-example step: b6 = -1600 and b3 = 422. */
  lemma ExampleB3()
    ensures B3(2400, DATASHEET_CALIBRATION, 0) == 422
  {
    Pow2Values();
    assert Wrap32(2400 - 4000) == -1600;
    assert Wrap32(-1600 * -1600) == 2560000;
    assert Shr(2560000, 12) == 625;
    assert Shr(Wrap32(4 * 625), 11) == 1;
    assert Shr(Wrap32(-72 * -1600), 11) == 56;
    assert Wrap32(1 + 56) == 57;
    assert Shr(Wrap32((408 * 4 + 57) * Pow2(0) + 2), 2) == 422;
  }

  /** Worked-example step: b7 = (23843 - 422) * 50000 fits in 31 bits. */
  lemma ExampleB7()
    ensures ToU32((23843 - 422) * (50000 / Pow2(0))) == 1171050000
    ensures B7AsWritten(23843, 422, 0) == 1171050000
  {
    assert Pow2(0) == 1;
    assert ToU32(23843 - 422) == 23421;
    assert ToU32(23421 * 50000) == 1171050000;
  }

  /** Worked-example step: b4 as written and as published. */
  lemma ExampleB4()
    ensures B4AsWritten(2400, DATASHEET_CALIBRATION) == 32769
    ensures B4(2400, DATASHEET_CALIBRATION) == 33457
  {
    Pow2Values();
    assert Wrap32(2400 - 4000) == -1600;
    assert Shr(Wrap32(-72 * -1600), 11) == 56;
    assert Shr(Wrap32(-1600 * -1600), 12) == 625;
    assert Shr(Wrap32(6190 * 625), 16) == 59;
    assert Shr(Wrap32(-14383 * -1600), 13) == 2809;
    assert Shr(Wrap32(59 + 56 + 2), 2) == 29;
    assert ToU32(32741 * ToU32(29 + 32768)) / Pow2(15) == 32769;
    assert Shr(Wrap32(2809 + 59 + 2), 2) == 717;
    assert ToU32(32741 * ToU32(717 + 32768)) / Pow2(15) == 33457;
  }

  /** Worked-example step: the quotient P of line 135 for both b4 values. */
  lemma ExampleQuotients()
    ensures PressureQuotientAsWritten(1171050000, 32769) == 71472
    ensures PressureQuotient(1171050000, 33457) == 70003
  {
    assert ToU32(1171050000) / 32769 == 35736;
    assert Wrap32(ToU32(35736 * 2)) == 71472;
    assert ToU32(1171050000 * 2) == 2342100000;
    assert 2342100000 / 33457 == 70003;
  }

  /** Worked-example step: the second-order correction of lines 136-139. */
  lemma ExampleCorrections()
    ensures PressureCorrection(71472) == 71432
    ensures PressureCorrection(70003) == 69964
  {
    Pow2Values();
    assert Shr(70003, 8) == 273;
    assert Shr(Wrap32(Wrap32(273 * 273) * 3038), 16) == 3454;
    assert Shr(Wrap32(-7357 * 70003), 16) == -7859;
    assert Shr(Wrap32(3454 - 7859 + 3791), 4) == -39;
    assert Shr(71472, 8) == 279;
    assert Shr(Wrap32(Wrap32(279 * 279) * 3038), 16) == 3608;
    assert Shr(Wrap32(-7357 * 71472), 16) == -8024;
    assert Shr(Wrap32(3608 - 8024 + 3791), 4) == -40;
  }

  /**
    The two deviations each move the worked example's pressure on their
    own: with only the b4 stage of lines 130-132 corrected the result is
    69963 Pa, and with only line 135 corrected it is 71433 Pa; both
    corrections together are needed for the published 69964 Pa.
   */
  lemma ExampleOneDeviationFixed()
    ensures B4(2400, DATASHEET_CALIBRATION) == 33457 && B4AsWritten(2400, DATASHEET_CALIBRATION) == 32769
    ensures PressureCorrection(PressureQuotientAsWritten(1171050000, B4(2400, DATASHEET_CALIBRATION))) == 69963
    ensures PressureCorrection(PressureQuotient(1171050000, B4AsWritten(2400, DATASHEET_CALIBRATION))) == 71433
  {
    ExampleB4();
    ExampleQuotientsOneFixed();
    ExampleCorrectionsOneFixed();
  }

  /** Worked-example step: the quotient P when only one of the two deviations is corrected. */
  lemma ExampleQuotientsOneFixed()
    ensures PressureQuotientAsWritten(1171050000, 33457) == 70002
    ensures PressureQuotient(1171050000, 32769) == 71473
  {
    assert ToU32(1171050000) / 33457 == 35001;
    assert ToU32(1171050000 * 2) == 2342100000;
    assert 2342100000 / 32769 == 71473;
  }

  /** Worked-example step: the second-order correction of those two quotients. */
  lemma ExampleCorrectionsOneFixed()
    ensures PressureCorrection(70002) == 69963
    ensures PressureCorrection(71473) == 71433
  {
    Pow2Values();
    assert Shr(70002, 8) == 273;
    assert Shr(Wrap32(Wrap32(273 * 273) * 3038), 16) == 3454;
    assert Shr(Wrap32(-7357 * 70002), 16) == -7859;
    assert Shr(Wrap32(3454 - 7859 + 3791), 4) == -39;
    assert Shr(71473, 8) == 279;
    assert Shr(Wrap32(Wrap32(279 * 279) * 3038), 16) == 3608;
    assert Shr(Wrap32(-7357 * 71473), 16) == -8024;
    assert Shr(Wrap32(3608 - 8024 + 3791), 4) == -40;
  }

  /**
    Line 135's threshold sends every b7 from 2^27 up to 2^31 through the
    coarse branch (b7 / b4) * 2, which drops the low bit of the quotient: with
    the worked example's b7 and the published b4 it gives 70002 where the
    published step gives 70003.
   */
  lemma ThresholdDropsLowBit()
    ensures PressureQuotientAsWritten(1171050000, 33457) == 70002
    ensures PressureQuotient(1171050000, 33457) == 70003
  {
  }

  /**
    In the published step, doubling a b7 below 2^31 cannot wrap the unsigned
    32-bit product, so the quotient is the exact floor(2 * b7 / b4).
   */
  lemma PressureQuotientExact(b7: U32, b4: U32)
    requires b4 != 0 && b7 < 0x8000_0000
    ensures ToU32(b7 * 2) == b7 * 2
    ensures PressureQuotient(b7, b4) == Wrap32(b7 * 2 / b4)
  {
    ToU32InRange(b7 * 2);
  }

  /**
    Line 135 as written, for every b7 from 0x08000000 up: the coarse branch
    yields 2 * floor(b7 / b4), which is floor(2 * b7 / b4) or one less, and
    it agrees with the published step exactly when the remainder of b7 / b4
    is below half of b4.
   */
  lemma PressureQuotientCoarse(b7: I32, b4: U32)
    requires 0x0800_0000 <= b7 && b4 != 0
    ensures 0 <= b7 * 2 / b4 - 2 * (b7 / b4) <= 1
    ensures PressureQuotientAsWritten(b7, b4) == Wrap32(2 * (b7 / b4))
    ensures PressureQuotientAsWritten(b7, b4) == PressureQuotient(b7, b4)
        <==> 2 * (b7 % b4) < b4
  {
    var q := b7 / b4;
    HalvedQuotient(b7, b4);
    CoarseQuotientInRange(b7, b4);
    ToU32InRange(b7);
    ToU32InRange(2 * q);
    assert PressureQuotientAsWritten(b7, b4) == Wrap32(2 * q);
    PressureQuotientExact(b7, b4);
    assert PressureQuotient(b7, b4) == Wrap32(b7 * 2 / b4);
    if b4 >= 2 {
      Wrap32InRange(2 * q);
      Wrap32InRange(b7 * 2 / b4);
    }
  }

  /**
    Line 135 as written, for every b7 from 0 up to 0x08000000: the precise
    branch doubles without wrapping and agrees with the published step.
   */
  lemma PressureQuotientPrecise(b7: I32, b4: U32)
    requires 0 <= b7 < 0x0800_0000 && b4 != 0
    ensures PressureQuotientAsWritten(b7, b4) == PressureQuotient(b7, b4)
  {
    Wrap32InRange(b7 * 2);
    ToU32InRange(b7 * 2);
  }

  /**
    For a b7 below 2^31 the doubled coarse quotient fits in 32 bits, and in
    31 bits together with the precise one when the divisor is at least 2;
    with divisor 1 the two coincide.
   */
  lemma CoarseQuotientInRange(b7: int, b4: int)
    requires 0 <= b7 < 0x8000_0000 && 1 <= b4
    ensures 0 <= 2 * (b7 / b4) < 0x1_0000_0000
    ensures b4 >= 2 ==> 2 * (b7 / b4) < 0x8000_0000 && b7 * 2 / b4 < 0x8000_0000
    ensures b4 == 1 ==> b7 % b4 == 0 && b7 * 2 / b4 == 2 * (b7 / b4)
  {
    var q := b7 / b4;
    FloorDivBounds(b7, b4);
    HalvedQuotient(b7, b4);
    if b4 >= 2 {
      assert q * b4 <= b7;
      MulSigns(q, b4 - 2);
      assert q * (b4 - 2) == q * b4 - 2 * q;
    } else {
      DivModUnique(b7, 1, b7, 0);
    }
  }

  lemma ToU32InRange(x: int)
    requires 0 <= x < 0x1_0000_0000
    ensures ToU32(x) == x
  {
    DivModUnique(x, 0x1_0000_0000, 0, x);
  }

  /**
    Halving before dividing loses at most the low bit of the quotient:
    floor(2x / d) is 2 * floor(x / d), plus one exactly when the remainder
    x mod d is at least half of d.
   */
  lemma HalvedQuotient(x: int, d: int)
    requires 0 <= x && 1 <= d
    ensures x * 2 / d - 2 * (x / d) == (if 2 * (x % d) < d then 0 else 1)
  {
    var q, r := x / d, x % d;
    assert x * 2 == (2 * q) * d + 2 * r;
    if 2 * r < d {
      DivModUnique(x * 2, d, 2 * q, 2 * r);
    } else {
      assert x * 2 == (2 * q + 1) * d + (2 * r - d);
      DivModUnique(x * 2, d, 2 * q + 1, 2 * r - d);
    }
  }
}

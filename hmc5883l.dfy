/**
  The HMC5883L three-axis magnetometer driver (lib/HMC5883L/HMC5883L.h):
  its configuration fields and fluent setters, the three configuration bytes
  `init` packs and writes, and the decode of the six data bytes, which the
  device sends in the order X, Z, Y.
 */
module Hmc5883l {
  import opened Bits
  import opened Bus

  const I2C_ADDRESS: Byte := 0x1E
  const CONFIG_A_REGISTER: Byte := 0x00
  const CONFIG_B_REGISTER: Byte := 0x01
  const MODE_REGISTER: Byte := 0x02
  const X_MSB_REGISTER: Byte := 0x03

  /** Samples averaged per measurement: 1, 2, 4 or 8. */
  type MeasureAvg = x: int | 0 <= x <= 3
  const AVG1: MeasureAvg := 0
  const AVG2: MeasureAvg := 1
  const AVG4: MeasureAvg := 2
  const AVG8: MeasureAvg := 3

  /** Output rate, 0.75 Hz up to 75 Hz; 7 is marked not used. */
  type DataRate = x: int | 0 <= x <= 7
  const RATE_0075: DataRate := 0
  const RATE_0150: DataRate := 1
  const RATE_0300: DataRate := 2
  const RATE_0750: DataRate := 3
  const RATE_1500: DataRate := 4
  const RATE_3000: DataRate := 5
  const RATE_7500: DataRate := 6
  const NOT_USED: DataRate := 7

  /** Normal, positive bias, negative bias, reserved. */
  type MeasurementMode = x: int | 0 <= x <= 3
  const NORMAL: MeasurementMode := 0
  const POSITIVE_BIAS: MeasurementMode := 1
  const NEGATIVE_BIAS: MeasurementMode := 2
  const REVERSED: MeasurementMode := 3

  /** Gain setting, 1370 LSb/Gauss down to 230 LSb/Gauss. */
  type Gain = x: int | 0 <= x <= 7
  const GAIN_1370: Gain := 0
  const GAIN_1090: Gain := 1
  const GAIN_820: Gain := 2
  const GAIN_660: Gain := 3
  const GAIN_440: Gain := 4
  const GAIN_390: Gain := 5
  const GAIN_330: Gain := 6
  const GAIN_230: Gain := 7

  type Mode = x: int | 0 <= x <= 2
  const CONTINUOUS_MEASUREMENT: Mode := 0
  const SINGLE_MEASUREMENT: Mode := 1
  const IDLE: Mode := 2

  // ---------------------------------------------------------------------
  // Configuration bytes

  /** `0x80 | avg << 5 | rate << 2`, the byte written to configuration register A. */
  function ConfigA(avg: MeasureAvg, rate: DataRate): Byte
  {
    0x80 + avg * 32 + rate * 4
  }

  /**
    Configuration register A holds bit 7 set, the averaging in bits 5-6 and
    the rate in bits 2-4; both settings can be read back from the byte.
    Bits 0-1, where the device takes the measurement mode, are always clear.
   */
  lemma ConfigAFields(avg: MeasureAvg, rate: DataRate)
    ensures BitField(ConfigA(avg, rate), 7, 1) == 1
    ensures BitField(ConfigA(avg, rate), 5, 2) == avg
    ensures BitField(ConfigA(avg, rate), 2, 3) == rate
    ensures BitField(ConfigA(avg, rate), 0, 2) == 0
  {
    Pow2Values();
    var x := ConfigA(avg, rate);
    DivModUnique(x, 128, 1, avg * 32 + rate * 4);
    DivModUnique(1, 2, 0, 1);
    DivModUnique(x, 32, 4 + avg, rate * 4);
    DivModUnique(4 + avg, 4, 1, avg);
    DivModUnique(x, 4, 32 + avg * 8 + rate, 0);
    DivModUnique(32 + avg * 8 + rate, 8, 4 + avg, rate);
    DivModUnique(x, 1, x, 0);
  }

  /**
    The measurement mode never reaches the device: two configurations that
    differ only in it put the same three bytes on the bus.
   */
  lemma MeasurementModeNotSent(avg: MeasureAvg, rate: DataRate, gain: Gain, mode: Mode,
                               m1: MeasurementMode, m2: MeasurementMode)
    ensures InitTraffic(Config(avg, rate, m1, gain, mode))
         == InitTraffic(Config(avg, rate, m2, gain, mode))
  {
  }

  /**
    Configuration register A with the measurement mode or-ed into bits 0-1,
    as the device expects it; every setting can be read back.
   */
  function ConfigAWithMode(avg: MeasureAvg, rate: DataRate, m: MeasurementMode): (b: Byte)
    ensures BitField(b, 0, 2) == m
    ensures BitField(b, 5, 2) == avg && BitField(b, 2, 3) == rate && BitField(b, 7, 1) == 1
  {
    Pow2Values();
    var x := ConfigA(avg, rate) + m;
    DivModUnique(x, 1, x, 0);
    DivModUnique(x, 4, 32 + avg * 8 + rate, m);
    DivModUnique(32 + avg * 8 + rate, 8, 4 + avg, rate);
    DivModUnique(x, 32, 4 + avg, rate * 4 + m);
    DivModUnique(4 + avg, 4, 1, avg);
    DivModUnique(x, 128, 1, avg * 32 + rate * 4 + m);
    DivModUnique(1, 2, 0, 1);
    x
  }

  /** A positive-bias configuration the as-written byte cannot express. */
  lemma PositiveBiasLost()
    ensures ConfigA(AVG8, RATE_1500) == 0xF0
    ensures ConfigAWithMode(AVG8, RATE_1500, POSITIVE_BIAS) == 0xF1
  {
  }

  /** `gain << 5`, the byte written to configuration register B. */
  function ConfigB(gain: Gain): Byte
  {
    gain * 32
  }

  /** The gain sits in bits 5-7 of register B; the low five bits are clear. */
  lemma ConfigBFields(gain: Gain)
    ensures BitField(ConfigB(gain), 5, 3) == gain
    ensures BitField(ConfigB(gain), 0, 5) == 0
  {
    Pow2Values();
    var x := ConfigB(gain);
    DivModUnique(x, 32, gain, 0);
    DivModUnique(gain, 8, 0, gain);
    DivModUnique(x, 1, x, 0);
  }

  /** `0x80 | mode`, the byte written to the mode register. */
  function ModeByte(mode: Mode): Byte
  {
    0x80 + mode
  }

  /** The mode register gets bit 7 set and the mode in bits 0-1. */
  lemma ModeByteFields(mode: Mode)
    ensures BitField(ModeByte(mode), 7, 1) == 1
    ensures BitField(ModeByte(mode), 0, 2) == mode
    ensures BitField(ModeByte(mode), 2, 5) == 0
  {
    Pow2Values();
    var x := ModeByte(mode);
    DivModUnique(x, 128, 1, mode);
    DivModUnique(1, 2, 0, 1);
    DivModUnique(x, 1, x, 0);
    DivModUnique(x, 4, 32, mode);
    DivModUnique(32, 32, 1, 0);
  }

  /** The driver's configuration fields, the float declination aside. */
  datatype Config = Config(avg: MeasureAvg, rate: DataRate, measurementMode: MeasurementMode,
                           gain: Gain, mode: Mode)

  /**
    What `init` puts on the bus: three single-byte writes to the magnetometer,
    to configuration A, configuration B and the mode register in that order,
    each carrying its settings in the bit positions above.
   */
  function InitTraffic(c: Config): (t: seq<BusOp>)
    ensures |t| == 3
    ensures forall i :: 0 <= i < 3 ==> t[i].Write? && t[i].device == I2C_ADDRESS && t[i].register == i
    ensures BitField(t[0].value, 5, 2) == c.avg && BitField(t[0].value, 2, 3) == c.rate
    ensures BitField(t[1].value, 5, 3) == c.gain && BitField(t[2].value, 0, 2) == c.mode
  {
    ConfigAFields(c.avg, c.rate);
    ConfigBFields(c.gain);
    ModeByteFields(c.mode);
    [Write(I2C_ADDRESS, CONFIG_A_REGISTER, ConfigA(c.avg, c.rate)),
     Write(I2C_ADDRESS, CONFIG_B_REGISTER, ConfigB(c.gain)),
     Write(I2C_ADDRESS, MODE_REGISTER, ModeByte(c.mode))]
  }

  // ---------------------------------------------------------------------
  // Data decode

  /** The six bytes the device sends for a reading: X, then Z, then Y, each high byte first. */
  function EncodeXZY(t: Triple): (buf: seq<Byte>)
    ensures |buf| == 6
  {
    EncodeI16(t.x) + EncodeI16(t.z) + EncodeI16(t.y)
  }

  /**
    The reading in six data bytes: x from bytes 0-1, z from bytes 2-3 and y
    from bytes 4-5, each a two's-complement big-endian word.  It is the one
    reading whose encoding is exactly the bytes read.
   */
  function DecodeXZY(buf: seq<Byte>): (t: Triple)
    requires |buf| == 6
    ensures t.x == I16At(buf, 0) && t.z == I16At(buf, 2) && t.y == I16At(buf, 4)
    ensures EncodeXZY(t) == buf
  {
    var t := Triple(Wrap16(Word16(buf[0], buf[1])),
                    Wrap16(Word16(buf[4], buf[5])),
                    Wrap16(Word16(buf[2], buf[3])));
    I16BytesRoundTrip(buf, 0);
    I16BytesRoundTrip(buf, 2);
    I16BytesRoundTrip(buf, 4);
    assert buf == buf[0..2] + buf[2..4] + buf[4..6];
    t
  }

  /** Decoding what the device sends for a reading gives the reading back. */
  lemma XZYRoundTrip(t: Triple)
    ensures DecodeXZY(EncodeXZY(t)) == t
  {
    var buf := EncodeXZY(t);
    assert buf[0..2] == EncodeI16(t.x) && buf[2..4] == EncodeI16(t.z) && buf[4..6] == EncodeI16(t.y);
    I16RoundTrip(t.x);
    I16RoundTrip(t.z);
    I16RoundTrip(t.y);
  }

  // ---------------------------------------------------------------------
  // The driver object

  class Compass {
    var measureAvg: MeasureAvg
    var dataRate: DataRate
    var measurementMode: MeasurementMode
    var gain: Gain
    var mode: Mode
    /** A float in the driver; kept as an opaque number. */
    var declination: real

    function Settings(): Config
      reads this
    {
      Config(measureAvg, dataRate, measurementMode, gain, mode)
    }

    /** Eight-sample averaging, single measurement, normal bias, 15 Hz, gain 1090, no declination. */
    constructor ()
      ensures Settings() == Config(AVG8, RATE_1500, NORMAL, GAIN_1090, SINGLE_MEASUREMENT)
      ensures declination == 0.0
    {
      measureAvg := AVG8;
      mode := SINGLE_MEASUREMENT;
      measurementMode := NORMAL;
      dataRate := RATE_1500;
      gain := GAIN_1090;
      declination := 0.0;
    }

    method SetMeasureAvg(ma: MeasureAvg) returns (self: Compass)
      modifies this`measureAvg
      ensures measureAvg == ma && self == this
    {
      measureAvg := ma;
      self := this;
    }

    method SetDataRate(dr: DataRate) returns (self: Compass)
      modifies this`dataRate
      ensures dataRate == dr && self == this
    {
      dataRate := dr;
      self := this;
    }

    method SetGain(g: Gain) returns (self: Compass)
      modifies this`gain
      ensures gain == g && self == this
    {
      gain := g;
      self := this;
    }

    method SetMeasureMode(m: MeasurementMode) returns (self: Compass)
      modifies this`measurementMode
      ensures measurementMode == m && self == this
    {
      measurementMode := m;
      self := this;
    }

    method SetMode(m: Mode) returns (self: Compass)
      modifies this`mode
      ensures mode == m && self == this
    {
      mode := m;
      self := this;
    }

    method SetDeclination(d: real) returns (self: Compass)
      modifies this`declination
      ensures declination == d && self == this
    {
      declination := d;
      self := this;
    }

    /** `init`: packs the three configuration bytes, writes them and reports success. */
    method Init() returns (status: int, traffic: seq<BusOp>)
      ensures status == 0
      ensures traffic == InitTraffic(Settings())
    {
      var confA := ConfigA(measureAvg, dataRate);
      var confB := ConfigB(gain);
      var m := ModeByte(mode);
      traffic := [Write(I2C_ADDRESS, CONFIG_A_REGISTER, confA)];
      traffic := traffic + [Write(I2C_ADDRESS, CONFIG_B_REGISTER, confB)];
      traffic := traffic + [Write(I2C_ADDRESS, MODE_REGISTER, m)];
      status := 0;
    }

    /**
      `read_raw`: one six-byte read from the X high-byte register, decoded in
      the device's X, Z, Y order; it always reports success.
     */
    method ReadRaw(reply: seq<Byte>) returns (status: int, x: I16, y: I16, z: I16, traffic: seq<BusOp>)
      requires |reply| == 6
      ensures status == 0
      ensures traffic == [Read(I2C_ADDRESS, X_MSB_REGISTER, 6)]
      ensures Triple(x, y, z) == DecodeXZY(reply)
    {
      traffic := [Read(I2C_ADDRESS, X_MSB_REGISTER, 6)];
      x := Wrap16(Word16(reply[0], reply[1]));
      z := Wrap16(Word16(reply[2], reply[3]));
      y := Wrap16(Word16(reply[4], reply[5]));
      status := 0;
    }
  }
}

/**
  The MPU6050 accelerometer and gyroscope driver (lib/MPU6050/MPU6050.h):
  its three settings and fluent setters, the four register writes of `init`,
  and `read_raw`, which decodes two six-byte bursts and subtracts a fixed
  gyro drift, scaled down by the full-scale setting, from each gyro axis.
 */
module Mpu6050 {
  import opened Bits
  import opened Bus

  /** The bus address; it does not follow the AD0 setting. */
  const I2C_ADDRESS: Byte := 0x68
  const CONFIG_REGISTER: Byte := 0x1A
  const GYRO_CONFIG_REGISTER: Byte := 0x1B
  const ACCEL_CONFIG_REGISTER: Byte := 0x1C
  const POWER_REGISTER: Byte := 0x6B
  const ACCEL_REGISTER: Byte := 0x3B
  const GYRO_REGISTER: Byte := 0x43

  type Ad0 = x: int | 0 <= x <= 1
  const AD0_LOW: Ad0 := 0
  const AD0_HIGH: Ad0 := 1

  /** Gyro full scale: 250, 500, 1000 or 2000 degrees per second. */
  type GyroScale = x: int | 0 <= x <= 3
  const FS_250: GyroScale := 0
  const FS_500: GyroScale := 1
  const FS_1000: GyroScale := 2
  const FS_2000: GyroScale := 3

  /** Accelerometer full scale: 2, 4, 8 or 16 g. */
  type AccelScale = x: int | 0 <= x <= 3
  const FS_2G: AccelScale := 0
  const FS_4G: AccelScale := 1
  const FS_8G: AccelScale := 2
  const FS_16G: AccelScale := 3

  /** The gyro drift at the finest scale; a constant the driver only reads. */
  const DRIFT: Triple := Triple(450, -940, 250)

  // ---------------------------------------------------------------------
  // Configuration

  /** `scale << 3`: a full-scale setting in bits 3-4 of its configuration register. */
  function ScaleByte(s: int): (b: Byte)
    requires 0 <= s <= 3
    ensures BitField(b, 3, 2) == s
    ensures BitField(b, 0, 3) == 0 && BitField(b, 5, 3) == 0
  {
    Pow2Values();
    var x := s * 8;
    DivModUnique(x, 8, s, 0);
    DivModUnique(s, 4, 0, s);
    DivModUnique(x, 1, x, 0);
    DivModUnique(x, 32, 0, x);
    x
  }

  /**
    What `init` puts on the bus: four single-byte writes to the sensor, in
    order: the configuration register cleared, the two full-scale settings,
    and the wake-up with the gyro clock reference.
   */
  function InitTraffic(gyro: GyroScale, accel: AccelScale): (t: seq<BusOp>)
    ensures |t| == 4 && forall i :: 0 <= i < 4 ==> t[i].Write? && t[i].device == I2C_ADDRESS
    ensures t[0].register == 0x1A && t[0].value == 0
    ensures t[1].register == 0x1B && BitField(t[1].value, 3, 2) == gyro
    ensures t[2].register == 0x1C && BitField(t[2].value, 3, 2) == accel
    ensures t[3].register == 0x6B && t[3].value == 1
  {
    [Write(I2C_ADDRESS, CONFIG_REGISTER, 0x00),
     Write(I2C_ADDRESS, GYRO_CONFIG_REGISTER, ScaleByte(gyro)),
     Write(I2C_ADDRESS, ACCEL_CONFIG_REGISTER, ScaleByte(accel)),
     Write(I2C_ADDRESS, POWER_REGISTER, 0x01)]
  }

  /** The full-scale settings can be read back from the bytes `init` writes. */
  lemma ScaleByteInjective(s1: int, s2: int)
    requires 0 <= s1 <= 3 && 0 <= s2 <= 3
    ensures ScaleByte(s1) == ScaleByte(s2) <==> s1 == s2
  {
    assert BitField(ScaleByte(s1), 3, 2) == s1;
    assert BitField(ScaleByte(s2), 3, 2) == s2;
  }

  // ---------------------------------------------------------------------
  // Data decode

  /** The six bytes the sensor sends for three axes, x, y, z, each high byte first. */
  function EncodeAxes(t: Triple): (buf: seq<Byte>)
    ensures |buf| == 6
  {
    EncodeI16(t.x) + EncodeI16(t.y) + EncodeI16(t.z)
  }

  /** The driver's `i16(n)` macro, `(int16_t)buffer[n] << 8 | buffer[n + 1]`, before any conversion. */
  function Word(buf: seq<Byte>, n: nat): (w: U16)
    requires n + 2 <= |buf|
    ensures Wrap16(w) == I16At(buf, n)
  {
    buf[n] as int * 256 + buf[n + 1] as int
  }

  /**
    Three axes in six data bytes: the two's-complement big-endian words at
    offsets 0, 2 and 4.  It is the one triple whose encoding is the bytes read.
   */
  function DecodeAxes(buf: seq<Byte>): (t: Triple)
    requires |buf| == 6
    ensures t.x == I16At(buf, 0) && t.y == I16At(buf, 2) && t.z == I16At(buf, 4)
    ensures EncodeAxes(t) == buf
  {
    var t := Triple(Wrap16(Word(buf, 0)), Wrap16(Word(buf, 2)), Wrap16(Word(buf, 4)));
    I16BytesRoundTrip(buf, 0);
    I16BytesRoundTrip(buf, 2);
    I16BytesRoundTrip(buf, 4);
    assert buf == buf[0..2] + buf[2..4] + buf[4..6];
    t
  }

  /** Decoding what the sensor sends for three axes gives them back. */
  lemma AxesRoundTrip(t: Triple)
    ensures DecodeAxes(EncodeAxes(t)) == t
  {
    var buf := EncodeAxes(t);
    assert buf[0..2] == EncodeI16(t.x) && buf[2..4] == EncodeI16(t.y) && buf[4..6] == EncodeI16(t.z);
    I16RoundTrip(t.x);
    I16RoundTrip(t.y);
    I16RoundTrip(t.z);
  }

  /**
    One gyro axis: the raw word minus the drift shifted right by the scale,
    converted to `int16_t`.  It is the signed reading less the correction,
    wrapped, and equal to it whenever that difference fits in 16 bits.
   */
  function CorrectedAxis(w: U16, drift: I16, scale: GyroScale): (g: I16)
    ensures (Wrap16(w) - Shr(drift, scale) - g) % 0x1_0000 == 0
    ensures -0x8000 <= Wrap16(w) - Shr(drift, scale) < 0x8000 ==> g == Wrap16(w) - Shr(drift, scale)
  {
    Wrap16(w - Shr(drift, scale))
  }

  /** Adding the correction back to a corrected axis recovers the signed raw reading. */
  lemma CorrectedAxisRoundTrip(w: U16, drift: I16, scale: GyroScale)
    ensures Wrap16(CorrectedAxis(w, drift, scale) + Shr(drift, scale)) == Wrap16(w)
  {
    var d := Shr(drift, scale);
    var g := CorrectedAxis(w, drift, scale);
    var k := (w - d - g) / 0x1_0000;
    assert g + d == w - k * 0x1_0000;
    Wrap16Periodic(w, -k);
  }

  lemma Wrap16Periodic(x: int, k: int)
    ensures Wrap16(x + k * 0x1_0000) == Wrap16(x)
  {
    assert (x + k * 0x1_0000) % 0x1_0000 == x % 0x1_0000;
  }

  /** The three gyro axes with their drift corrections at the given scale. */
  function CorrectedGyro(buf: seq<Byte>, scale: GyroScale): Triple
    requires |buf| == 6
  {
    Triple(CorrectedAxis(Word(buf, 0), DRIFT.x, scale),
           CorrectedAxis(Word(buf, 2), DRIFT.y, scale),
           CorrectedAxis(Word(buf, 4), DRIFT.z, scale))
  }

  /**
    The corrections the driver subtracts at each scale.  The shift is
    arithmetic: the negative y drift rounds toward minus infinity.
   */
  lemma DriftCorrections()
    ensures Shr(450, 0) == 450 && Shr(-940, 0) == -940 && Shr(250, 0) == 250
    ensures Shr(450, 1) == 225 && Shr(-940, 1) == -470 && Shr(250, 1) == 125
    ensures Shr(450, 2) == 112 && Shr(-940, 2) == -235 && Shr(250, 2) == 62
    ensures Shr(450, 3) == 56 && Shr(-940, 3) == -118 && Shr(250, 3) == 31
  {
    Pow2Values();
  }

  /**
    A gyro reading of zero at the 2000 dps scale comes out as the negated
    corrections: (-56, 118, -31).
   */
  lemma ZeroGyroAtFinestShift()
    ensures CorrectedGyro([0, 0, 0, 0, 0, 0], FS_2000) == Triple(-56, 118, -31)
  {
    DriftCorrections();
    var buf: seq<Byte> := [0, 0, 0, 0, 0, 0];
    assert Word(buf, 0) == 0 && Word(buf, 2) == 0 && Word(buf, 4) == 0;
  }

  // ---------------------------------------------------------------------
  // The driver object

  class Sensor {
    var ad0: Ad0
    var gyroScale: GyroScale
    var accelScale: AccelScale

    /** AD0 low, 250 dps, 4 g. */
    constructor ()
      ensures ad0 == AD0_LOW && gyroScale == FS_250 && accelScale == FS_4G
    {
      ad0 := AD0_LOW;
      gyroScale := FS_250;
      accelScale := FS_4G;
    }

    /** `init`: the four configuration writes; the bus address ignores AD0. */
    method Init() returns (self: Sensor, traffic: seq<BusOp>)
      ensures self == this
      ensures traffic == InitTraffic(gyroScale, accelScale)
    {
      traffic := [Write(I2C_ADDRESS, CONFIG_REGISTER, 0x00)];
      traffic := traffic + [Write(I2C_ADDRESS, GYRO_CONFIG_REGISTER, ScaleByte(gyroScale))];
      traffic := traffic + [Write(I2C_ADDRESS, ACCEL_CONFIG_REGISTER, ScaleByte(accelScale))];
      traffic := traffic + [Write(I2C_ADDRESS, POWER_REGISTER, 0x01)];
      self := this;
    }

    method SetGyroScale(g: GyroScale) returns (self: Sensor)
      modifies this`gyroScale
      ensures gyroScale == g && self == this
    {
      gyroScale := g;
      self := this;
    }

    method SetAccelScale(a: AccelScale) returns (self: Sensor)
      modifies this`accelScale
      ensures accelScale == a && self == this
    {
      accelScale := a;
      self := this;
    }

    /**
      `set_AD0` records the pin level only: the bus address stays 0x68, so
      the traffic a later `init` issues is what it was before the call.  This
      holds by construction: the frame leaves both scales alone and the
      address is the constant of line 11.
     */
    method SetAd0(a: Ad0) returns (self: Sensor)
      modifies this`ad0
      ensures ad0 == a && self == this
      ensures InitTraffic(gyroScale, accelScale) == InitTraffic(old(gyroScale), old(accelScale))
    {
      ad0 := a;
      self := this;
    }

    /**
      `read_raw`: six bytes from the accelerometer registers, decoded as they
      are, then six bytes from the gyro registers, each axis less its drift
      correction at the current scale.
     */
    method ReadRaw(accelReply: seq<Byte>, gyroReply: seq<Byte>)
      returns (accel: Triple, gyro: Triple, traffic: seq<BusOp>)
      requires |accelReply| == 6 && |gyroReply| == 6
      ensures traffic == [Read(I2C_ADDRESS, ACCEL_REGISTER, 6), Read(I2C_ADDRESS, GYRO_REGISTER, 6)]
      ensures accel == DecodeAxes(accelReply)
      ensures gyro == CorrectedGyro(gyroReply, gyroScale)
    {
      traffic := [Read(I2C_ADDRESS, ACCEL_REGISTER, 6)];
      accel := DecodeAxes(accelReply);
      traffic := traffic + [Read(I2C_ADDRESS, GYRO_REGISTER, 6)];
      gyro := CorrectedGyro(gyroReply, gyroScale);
    }
  }

  /**
    Whatever AD0 is set to, `init` talks to the same address with the same
    bytes.  It holds by construction: `InitTraffic` takes no AD0 level.
   */
  lemma InitIgnoresAd0(gyro: GyroScale, accel: AccelScale)
    ensures forall op :: op in InitTraffic(gyro, accel) ==> op.device == 0x68
  {
  }
}

/**
  The BMP085 barometer driver (lib/BMP085/BMP085.h): the non-blocking
  acquisition state machine of `check_reading`, its wrap-aware timer test,
  the calibration read and the `read_raw` entry point.

  The clock (`micros()`) is a parameter.  The I2C transport is replaced by
  the list of bus transactions a call issues and by the bytes the device
  returns to its reads.
 */
module Bmp085 {
  import opened Bits
  import opened Bus
  import opened Bmp085Calibration
  import opened Bmp085Compensation

  const I2C_ADDRESS: Byte := 0x77
  const CONTROL_REGISTER: Byte := 0xF4
  const DATA_REGISTER: Byte := 0xF6
  const CALIBRATION_REGISTER: Byte := 0xAA
  const TEMPERATURE_COMMAND: Byte := 0x2E

  /** `unsigned long` is 32 bits on the target; `micros()` wraps at 2^32. */
  const ULONG_MAX: int := 0xFFFF_FFFF
  type ULong = x: int | 0 <= x <= ULONG_MAX

  /** Conversion wait for the temperature, in microseconds. */
  const WAIT_UT: nat := 4500

  /** Conversion wait for the pressure at each oversampling setting. */
  function WaitUp(oss: Oss): nat
  {
    [4500, 7500, 13500, 25500][oss]
  }

  /** `0x34 | (oss << 6)`: the oversampling setting occupies bits 6-7. */
  function PressureCommand(oss: Oss): (b: Byte)
    ensures b / 64 == oss && b % 64 == 0x34
  {
    0x34 + oss * 64
  }

  // ---------------------------------------------------------------------
  // Elapsed time

  /**
    The `between(a, b)` macro: a - b, or a + (ULONG_MAX - b) once the clock
    has wrapped.  Neither branch can overflow an `unsigned long`.
   */
  function Between(a: ULong, b: ULong): (r: ULong)
    ensures a >= b ==> b + r == a
    ensures a < b ==> b + r + 1 == a + 0x1_0000_0000
  {
    if a >= b then a - b else a + (ULONG_MAX - b)
  }

  /**
    The time elapsed from b to a on a clock that wraps at 2^32: the one
    value in range that, added to b modulo 2^32, gives a.
   */
  function Elapsed(a: ULong, b: ULong): (r: ULong)
    ensures (b + r) % 0x1_0000_0000 == a
  {
    (a - b) % 0x1_0000_0000
  }

  /**
    `between` is the true elapsed time when the clock has not wrapped, and
    exactly one less than it when it has.
   */
  lemma BetweenVersusElapsed(a: ULong, b: ULong)
    ensures a >= b ==> Between(a, b) == Elapsed(a, b)
    ensures a < b ==> Between(a, b) == Elapsed(a, b) - 1
  {
    if a < b {
      assert (a - b) % 0x1_0000_0000 == a - b + 0x1_0000_0000;
    }
  }

  /**
    The elapsed time does not change when both instants are shifted by the
    same amount around the clock.
   */
  lemma ElapsedShiftInvariant(a: ULong, b: ULong, k: ULong)
    ensures Elapsed((a + k) % 0x1_0000_0000, (b + k) % 0x1_0000_0000) == Elapsed(a, b)
  {
    var m := 0x1_0000_0000;
    var a', b' := (a + k) % m, (b + k) % m;
    assert a' == a + k || a' == a + k - m;
    assert b' == b + k || b' == b + k - m;
    assert a' - b' == a - b || a' - b' == a - b + m || a' - b' == a - b - m;
  }

  /**
    `between` is not: one microsecond measured across the wrap reads as 0,
    measured anywhere else it reads as 1.
   */
  lemma BetweenWrapOffByOne()
    ensures Between(1, 0) == 1 && Elapsed(1, 0) == 1
    ensures Between(0, ULONG_MAX) == 0 && Elapsed(0, ULONG_MAX) == 1
  {
  }

  // ---------------------------------------------------------------------
  // Acquisition state machine

  /** The driver's `state`: Ready = 0, Waiting_UT = 1, Waiting_UP = 2. */
  datatype Phase = Ready | WaitingUT | WaitingUP
  {
    function Code(): int
    {
      match this
      case Ready => 0
      case WaitingUT => 1
      case WaitingUP => 2
    }

    /** The phase that follows this one in the acquisition cycle. */
    function Next(): Phase
    {
      match this
      case Ready => WaitingUT
      case WaitingUT => WaitingUP
      case WaitingUP => Ready
    }
  }

  /** The fields `check_reading` reads and updates. */
  datatype Acquisition = Acquisition(phase: Phase, lastCheck: ULong, ut: I32, up: I32)

  /** What one call does: the new acquisition state and the bus traffic it issued. */
  datatype PollResult = PollResult(next: Acquisition, traffic: seq<BusOp>)

  /** Line 99: the uncompensated temperature, `(b0 << 8) | b1`. */
  function RawTemperature(reply: seq<Byte>): (ut: I32)
    requires |reply| >= 2
    ensures 0 <= ut < 0x1_0000
  {
    Word16(reply[0], reply[1])
  }

  /**
    Lines 106-107: the uncompensated pressure, the 24-bit big-endian value
    shifted right by 8 - oss.  With a 16-bit `int`, `buffer[0] << 16` would
    be undefined; with the 32-bit `int` of this model it is the 24-bit value.
   */
  function RawPressure(reply: seq<Byte>, oss: Oss): I32
    requires |reply| >= 3
  {
    Shr(Word24(reply[0], reply[1], reply[2]), 8 - oss)
  }

  /** The raw pressure has 16 + oss significant bits. */
  lemma RawPressureRange(reply: seq<Byte>, oss: Oss)
    requires |reply| >= 3
    ensures 0 <= RawPressure(reply, oss) < Pow2(16 + oss)
  {
    var w := Word24(reply[0], reply[1], reply[2]);
    Pow2Add(16 + oss, 8 - oss);
    Pow2Values();
    assert Pow2(24) == Pow2(16 + oss) * Pow2(8 - oss);
    assert Pow2(24) == 0x100_0000 by {
      Pow2Add(16, 8);
    }
    MulLessCancel(RawPressure(reply, oss), Pow2(16 + oss), Pow2(8 - oss));
  }

  lemma MulLessCancel(r: int, m: int, d: int)
    requires d >= 1 && r * d < m * d
    ensures r < m
  {
    MulSigns(r - m, d);
  }

  /**
    The acquisition step as a single dispatch on the phase: each phase
    either waits or completes its bus work and moves to the next phase.
   */
  function Poll(a: Acquisition, now: ULong, reply: seq<Byte>, oss: Oss): PollResult
    requires |reply| == 3
  {
    match a.phase
    case Ready =>
      PollResult(a.(phase := WaitingUT, lastCheck := now),
                 [Write(I2C_ADDRESS, CONTROL_REGISTER, TEMPERATURE_COMMAND)])
    case WaitingUT =>
      if Between(now, a.lastCheck) <= WAIT_UT then PollResult(a, [])
      else
        PollResult(a.(phase := WaitingUP, lastCheck := now, ut := RawTemperature(reply)),
                   [Read(I2C_ADDRESS, DATA_REGISTER, 2),
                    Write(I2C_ADDRESS, CONTROL_REGISTER, PressureCommand(oss))])
    case WaitingUP =>
      if Between(now, a.lastCheck) <= WaitUp(oss) then PollResult(a, [])
      else
        PollResult(a.(phase := Ready, up := RawPressure(reply, oss)),
                   [Read(I2C_ADDRESS, DATA_REGISTER, 3)])
  }

  /** The wait that gates leaving a phase. */
  function Deadline(p: Phase, oss: Oss): nat
  {
    match p
    case Ready => 0
    case WaitingUT => WAIT_UT
    case WaitingUP => WaitUp(oss)
  }

  /**
    A call in Ready starts the temperature conversion, restarts the timer and
    always ends in Waiting_UT: the fall-through test sees 0 elapsed.
   */
  lemma PollFromReady(a: Acquisition, now: ULong, reply: seq<Byte>, oss: Oss)
    requires |reply| == 3 && a.phase == Ready
    ensures Poll(a, now, reply, oss).next == a.(phase := WaitingUT, lastCheck := now)
    ensures Poll(a, now, reply, oss).traffic == [Write(0x77, 0xF4, 0x2E)]
  {
  }

  /**
    In Waiting_UT nothing happens until strictly more than 4500 us have
    elapsed; then the raw temperature is read, the pressure conversion
    started and the timer restarted.
   */
  lemma PollWaitingUT(a: Acquisition, now: ULong, reply: seq<Byte>, oss: Oss)
    requires |reply| == 3 && a.phase == WaitingUT
    ensures var r := Poll(a, now, reply, oss);
      if Between(now, a.lastCheck) <= 4500 then r.next == a && r.traffic == []
      else
        && r.next.phase == WaitingUP && r.next.lastCheck == now && r.next.up == a.up
        && r.next.ut / 256 == reply[0] && r.next.ut % 256 == reply[1] && 0 <= r.next.ut <= 65535
        && r.traffic == [Read(0x77, 0xF6, 2), Write(0x77, 0xF4, PressureCommand(oss))]
  {
  }

  /**
    In Waiting_UP nothing happens until strictly more than the table's wait
    for oss has elapsed; then the raw pressure is read, with 16 + oss bits,
    and the machine is Ready.  The timer is not restarted.
   */
  lemma PollWaitingUP(a: Acquisition, now: ULong, reply: seq<Byte>, oss: Oss)
    requires |reply| == 3 && a.phase == WaitingUP
    ensures var r := Poll(a, now, reply, oss);
      if Between(now, a.lastCheck) <= WaitUp(oss) then r.next == a && r.traffic == []
      else
        && r.next == a.(phase := Ready, up := RawPressure(reply, oss))
        && 0 <= r.next.up < Pow2(16 + oss)
        && r.traffic == [Read(0x77, 0xF6, 3)]
  {
    RawPressureRange(reply, oss);
  }

  /**
    One call moves at most one phase along the cycle Ready, Waiting_UT,
    Waiting_UP, and it leaves a waiting phase only once that phase's wait has
    strictly passed.  It issues bus traffic exactly when it moves.
   */
  lemma PollAdvancesAtMostOnePhase(a: Acquisition, now: ULong, reply: seq<Byte>, oss: Oss)
    requires |reply| == 3
    ensures var r := Poll(a, now, reply, oss);
      && (r.next.phase == a.phase || r.next.phase == a.phase.Next())
      && (r.next.phase != a.phase ==> Between(now, a.lastCheck) > Deadline(a.phase, oss) || a.phase == Ready)
      && (r.next.phase == a.phase <==> r.traffic == [])
      && (r.next.phase == a.phase ==> r.next == a)
  {
  }

  /**
    A call ends in Ready exactly when it began in Waiting_UP and completed the
    pressure read, so Ready from a call means a fresh (ut, up) pair.
   */
  lemma PollReadyIff(a: Acquisition, now: ULong, reply: seq<Byte>, oss: Oss)
    requires |reply| == 3
    ensures Poll(a, now, reply, oss).next.phase == Ready
      <==> a.phase == WaitingUP && Between(now, a.lastCheck) > WaitUp(oss)
  {
  }

  /** One call of the driver: the clock reading and the bytes the device returns. */
  datatype Call = Call(now: ULong, reply: seq<Byte>)

  ghost predicate WellFormed(calls: seq<Call>)
  {
    forall i :: 0 <= i < |calls| ==> |calls[i].reply| == 3
  }

  /** The states after each of a series of calls. */
  function Run(a: Acquisition, calls: seq<Call>, oss: Oss): (states: seq<Acquisition>)
    requires WellFormed(calls)
    ensures |states| == |calls|
    decreases calls
  {
    if calls == [] then []
    else
      var n := Poll(a, calls[0].now, calls[0].reply, oss).next;
      [n] + Run(n, calls[1..], oss)
  }

  /** A phase change allowed by the cycle: staying put or moving to the next phase. */
  predicate Advances(before: Phase, after: Phase)
  {
    after == before || after == before.Next()
  }

  /** The phase before state i of a run that started in phase `start`. */
  function Prior(start: Phase, s: seq<Acquisition>, i: nat): Phase
    requires i < |s|
  {
    if i == 0 then start else s[i - 1].phase
  }

  /**
    Over any series of calls the phases follow the cycle Ready, Waiting_UT,
    Waiting_UP, Ready: each state is its predecessor's phase or the next one.
   */
  lemma {:induction false} RunFollowsCycle(a: Acquisition, calls: seq<Call>, oss: Oss)
    requires WellFormed(calls)
    ensures forall i :: 0 <= i < |calls| ==>
      Advances(Prior(a.phase, Run(a, calls, oss), i), Run(a, calls, oss)[i].phase)
    decreases calls
  {
    if calls != [] {
      var n := Poll(a, calls[0].now, calls[0].reply, oss).next;
      PollAdvancesAtMostOnePhase(a, calls[0].now, calls[0].reply, oss);
      assert WellFormed(calls[1..]) by {
        forall i | 0 <= i < |calls[1..]| ensures |calls[1..][i].reply| == 3 {
          assert calls[1..][i] == calls[i + 1];
        }
      }
      RunFollowsCycle(n, calls[1..], oss);
      var s := Run(a, calls, oss);
      var t := Run(n, calls[1..], oss);
      assert s == [n] + t;
      forall i | 0 <= i < |s|
        ensures Advances(Prior(a.phase, s, i), s[i].phase)
      {
        if i > 0 {
          assert s[i] == t[i - 1];
          assert Prior(a.phase, s, i) == Prior(n.phase, t, i - 1);
        }
      }
    }
  }

  /**
    A full cycle: from Ready, a call at t0, a call more than 4500 us later and
    a call more than the pressure wait after that return Waiting_UT,
    Waiting_UP and Ready, with ut and up decoded from the second and third
    replies.
   */
  lemma FullCycle(a: Acquisition, t0: ULong, t1: ULong, t2: ULong,
                  r0: seq<Byte>, r1: seq<Byte>, r2: seq<Byte>, oss: Oss)
    requires a.phase == Ready && |r0| == 3 && |r1| == 3 && |r2| == 3
    requires Between(t1, t0) > WAIT_UT && Between(t2, t1) > WaitUp(oss)
    ensures var s := Run(a, [Call(t0, r0), Call(t1, r1), Call(t2, r2)], oss);
      && s[0].phase == WaitingUT && s[1].phase == WaitingUP && s[2].phase == Ready
      && s[2].ut == RawTemperature(r1) && s[2].up == RawPressure(r2, oss)
  {
    var calls := [Call(t0, r0), Call(t1, r1), Call(t2, r2)];
    var s0 := Poll(a, t0, r0, oss).next;
    var s1 := Poll(s0, t1, r1, oss).next;
    var s2 := Poll(s1, t2, r2, oss).next;
    assert calls[1..] == [Call(t1, r1), Call(t2, r2)];
    assert calls[1..][1..] == [Call(t2, r2)];
    assert calls[1..][1..][1..] == [];
    assert Run(s1, [Call(t2, r2)], oss) == [s2];
    assert Run(s0, [Call(t1, r1), Call(t2, r2)], oss) == [s1, s2];
    assert Run(a, calls, oss) == [s0, s1, s2];
  }

  /**
    At the Standard setting the pressure phase waits 7500 us: a call exactly
    at the boundary still waits, one microsecond later it completes.
   */
  lemma StandardBoundary(a: Acquisition, reply: seq<Byte>)
    requires a.phase == WaitingUP && a.lastCheck == 1000 && |reply| == 3
    ensures Poll(a, 8500, reply, STANDARD).next.phase == WaitingUP
    ensures Poll(a, 8501, reply, STANDARD).next.phase == Ready
  {
  }

  // ---------------------------------------------------------------------
  // The driver object

  /** What `read_raw` hands back as its `int` result. */
  datatype Status =
    | Returned(code: int)
      /** Control reaches the end of the non-void function: no value is returned. */
    | NoValue

  class Barometer {
    var oss: Oss
    var phase: Phase
    var lastCheck: ULong
    var ut: I32
    var up: I32
    var ac1: I16
    var ac2: I16
    var ac3: I16
    var ac4: U16
    var ac5: U16
    var ac6: U16
    var b1: I16
    var b2: I16
    var mb: I16
    var mc: I16
    var md: I16

    function Coefficients(): Calibration
      reads this
    {
      Calibration(ac1, ac2, ac3, ac4, ac5, ac6, b1, b2, mb, mc, md)
    }

    function Acq(): Acquisition
      reads this
    {
      Acquisition(phase, lastCheck, ut, up)
    }

    /** Ultra-low oversampling, state Ready; the other fields are not initialised. */
    constructor ()
      ensures oss == ULTRA_LOW && phase == Ready
    {
      oss := ULTRA_LOW;
      phase := Ready;
    }

    method SetOss(o: Oss) returns (self: Barometer)
      modifies this`oss
      ensures oss == o && self == this
    {
      oss := o;
      self := this;
    }

    /**
      Reads the 22 calibration bytes from 0xAA and stores the eleven
      coefficients, each through the driver's `int16` macro; the unsigned
      ones go through the `uint16_t` conversion.
     */
    method ReadCalibration(reply: seq<Byte>) returns (traffic: seq<BusOp>)
      requires |reply| == CALIBRATION_SIZE
      modifies this`ac1, this`ac2, this`ac3, this`ac4, this`ac5, this`ac6,
               this`b1, this`b2, this`mb, this`mc, this`md
      ensures traffic == [Read(I2C_ADDRESS, CALIBRATION_REGISTER, 22)]
      ensures Coefficients() == DecodeCalibration(reply)
    {
      traffic := [Read(I2C_ADDRESS, CALIBRATION_REGISTER, 22)];
      ac1 := Int16Macro(reply, 0);
      ac2 := Int16Macro(reply, 2);
      ac3 := Int16Macro(reply, 4);
      ac4 := ToU16(Int16Macro(reply, 6));
      ac5 := ToU16(Int16Macro(reply, 8));
      ac6 := ToU16(Int16Macro(reply, 10));
      b1 := Int16Macro(reply, 12);
      b2 := Int16Macro(reply, 14);
      mb := Int16Macro(reply, 16);
      mc := Int16Macro(reply, 18);
      md := Int16Macro(reply, 20);
      DecodeCalibrationOffsets(reply);
      ToU16OfWrap16(U16At(reply, 6));
      ToU16OfWrap16(U16At(reply, 8));
      ToU16OfWrap16(U16At(reply, 10));
    }

    /** `init`: the calibration read, then the timer starts at `now`. */
    method Init(now: ULong, reply: seq<Byte>) returns (traffic: seq<BusOp>)
      requires |reply| == CALIBRATION_SIZE
      modifies this`ac1, this`ac2, this`ac3, this`ac4, this`ac5, this`ac6,
               this`b1, this`b2, this`mb, this`mc, this`md, this`lastCheck
      ensures traffic == [Read(I2C_ADDRESS, CALIBRATION_REGISTER, 22)]
      ensures Coefficients() == DecodeCalibration(reply) && lastCheck == now
    {
      traffic := ReadCalibration(reply);
      lastCheck := now;
    }

    /**
      `check_reading`, with its fall-through switch: each case that issues a
      command moves to the next case, which then compares against the timer just
      restarted.  It does what `Poll` says and returns the new state.
     */
    method CheckReading(now: ULong, reply: seq<Byte>) returns (result: Phase, traffic: seq<BusOp>)
      requires |reply| == 3
      modifies this`phase, this`lastCheck, this`ut, this`up
      ensures Acq() == Poll(old(Acq()), now, reply, oss).next
      ensures traffic == Poll(old(Acq()), now, reply, oss).traffic
      ensures result == phase
    {
      traffic := [];
      if phase == Ready {
        traffic := traffic + [Write(I2C_ADDRESS, CONTROL_REGISTER, TEMPERATURE_COMMAND)];
        lastCheck := now;
        phase := WaitingUT;
      }
      if phase == WaitingUT {
        if Between(now, lastCheck) <= WAIT_UT {
          return phase, traffic;
        }
        traffic := traffic + [Read(I2C_ADDRESS, DATA_REGISTER, 2)];
        ut := Word16(reply[0], reply[1]);
        traffic := traffic + [Write(I2C_ADDRESS, CONTROL_REGISTER, PressureCommand(oss))];
        phase := WaitingUP;
        lastCheck := now;
      }
      if phase == WaitingUP {
        if Between(now, lastCheck) <= WaitUp(oss) {
          return phase, traffic;
        }
        traffic := traffic + [Read(I2C_ADDRESS, DATA_REGISTER, 3)];
        up := Shr(Word24(reply[0], reply[1], reply[2]), 8 - oss);
        phase := Ready;
      }
      result := phase;
    }

    /**
      `read_raw`: outside Ready it returns the state and leaves both outputs
      as they were; in Ready it stores the compensated temperature and
      pressure and then runs off the end of the function without a return
      value.
     */
    method ReadRaw(temp0: I32, pressure0: I32) returns (status: Status, temp: I32, pressure: I32)
      requires phase == Ready ==> DefinedAsWritten(ut, Coefficients())
      ensures phase != Ready ==> status == Returned(phase.Code()) && temp == temp0 && pressure == pressure0
      ensures phase == Ready ==>
        && status == NoValue
        && Compensated(temp, pressure) == CompensateAsWritten(ut, up, Coefficients(), oss)
    {
      if phase != Ready {
        return Returned(phase.Code()), temp0, pressure0;
      }
      var r := CompensateAsWritten(ut, up, Coefficients(), oss);
      status, temp, pressure := NoValue, r.temperature, r.pressure;
    }
  }

  /** The driver's `int16(x)` macro: `(int16_t)(buffer[x] << 8) | buffer[x + 1]`. */
  function Int16Macro(buf: seq<Byte>, i: nat): (v: I16)
    requires i + 2 <= |buf|
    ensures v == I16At(buf, i)
  {
    SignedHighOrLow(buf[i], buf[i + 1]);
    Wrap16(buf[i] as int * 256) + buf[i + 1] as int
  }
}

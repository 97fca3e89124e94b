/**
  The quad-control `Reading` buffer (lib/quad-control/quad-control.h): two
  slots of sensor readings and a cursor.  Each `get_readings` call moves the
  cursor to the other slot and overwrites it in place; temperature and
  pressure are refreshed only when the barometer reports a finished
  acquisition.  `print` shows the slot under the cursor.

  The accelerometer/gyro burst (`getMotion6`), the float scaling of the
  magnetometer reading, the compensated temperature and pressure
  (`calculate`) and the millisecond clock come from code outside this model;
  each call receives the values they would deliver as one `Reads` record.
  The magnetometer's raw data read and the barometer's poll are the modelled
  HMC5883L and BMP085 drivers.
 */
module QuadControl {
  import opened Bits
  import opened Bus
  import Bmp085
  import Hmc5883l

  const SIZE: nat := 2

  /** A triple of floats, kept as opaque numbers. */
  datatype Vector = Vector(x: real, y: real, z: real)

  /** One slot: a full set of sensor readings and the time they were taken. */
  datatype Reads = Reads(accel: Triple, gyro: Triple, meg: Vector,
                         temperature: real, pressure: U32, time: U32)

  /** The cursor after it advances: the other slot. */
  function NextSlot(p: nat): (q: nat)
    requires p < SIZE
    ensures q < SIZE && q != p
  {
    (p + 1) % SIZE
  }

  /**
    The slot as one call leaves it: the motion, magnetometer and time fields
    are always the new ones; temperature and pressure are new when the
    barometer is ready and otherwise what the slot held before.
   */
  function Fill(slot: Reads, incoming: Reads, ready: bool): (r: Reads)
    ensures r.accel == incoming.accel && r.gyro == incoming.gyro && r.meg == incoming.meg && r.time == incoming.time
    ensures ready ==> r == incoming
    ensures !ready ==> r.temperature == slot.temperature && r.pressure == slot.pressure
  {
    if ready then incoming else incoming.(temperature := slot.temperature, pressure := slot.pressure)
  }

  /** The buffer's contents and cursor. */
  datatype Ring = Ring(slots: seq<Reads>, ptr: nat)
  {
    predicate Valid()
    {
      |slots| == SIZE && ptr < SIZE
    }
  }

  /** The slot `print` shows. */
  function Latest(r: Ring): Reads
    requires r.Valid()
  {
    r.slots[r.ptr]
  }

  /**
    One `get_readings` call on the buffer: the cursor moves to the other slot,
    that slot is refilled, and the slot the cursor left is untouched.
   */
  function Step(r: Ring, incoming: Reads, ready: bool): (s: Ring)
    requires r.Valid()
    ensures s.Valid() && s.ptr == NextSlot(r.ptr)
    ensures s.slots[s.ptr] == Fill(r.slots[s.ptr], incoming, ready)
    ensures s.slots[r.ptr] == r.slots[r.ptr]
  {
    var p := NextSlot(r.ptr);
    Ring(r.slots[p := Fill(r.slots[p], incoming, ready)], p)
  }

  /**
    The buffer as the constructor leaves it: the cursor on the last slot, the
    two slots holding whatever their storage held.
   */
  function Initial(slot0: Reads, slot1: Reads): (r: Ring)
    ensures r.Valid() && r.ptr == SIZE - 1
    ensures r.slots[0] == slot0 && r.slots[1] == slot1
  {
    Ring([slot0, slot1], SIZE - 1)
  }

  /** The first call writes slot 0 and leaves slot 1 as it was. */
  lemma FirstCallWritesSlotZero(slot0: Reads, slot1: Reads, incoming: Reads, ready: bool)
    ensures Step(Initial(slot0, slot1), incoming, ready).ptr == 0
    ensures Latest(Step(Initial(slot0, slot1), incoming, ready)).time == incoming.time
    ensures Step(Initial(slot0, slot1), incoming, ready).slots[1] == slot1
  {
  }

  /** One call's inputs: what the producers deliver and whether the barometer was ready. */
  datatype Update = Update(incoming: Reads, ready: bool)

  /** The buffer after a series of calls. */
  function After(r: Ring, updates: seq<Update>): (s: Ring)
    requires r.Valid()
    ensures s.Valid()
    decreases |updates|
  {
    if updates == [] then r
    else After(Step(r, updates[0].incoming, updates[0].ready), updates[1..])
  }

  /**
    The cursor stays within the two slots and alternates: after n calls it
    has moved n places modulo 2.
   */
  lemma {:induction false} CursorAlternates(r: Ring, updates: seq<Update>)
    requires r.Valid()
    ensures After(r, updates).ptr == (r.ptr + |updates|) % SIZE
    decreases |updates|
  {
    if updates != [] {
      var s := Step(r, updates[0].incoming, updates[0].ready);
      CursorAlternates(s, updates[1..]);
      assert s.ptr == (r.ptr + 1) % SIZE;
    }
  }

  /**
    A call that finds the barometer not ready shows the temperature and
    pressure its slot received two calls earlier, not those of the previous
    call: the second call writes back into the slot the first one left.
   */
  lemma StaleValuesFromTwoCallsBack(r: Ring, f1: Reads, ready1: bool, f2: Reads)
    requires r.Valid()
    ensures var s2 := Step(Step(r, f1, ready1), f2, false);
      && s2.ptr == r.ptr
      && Latest(s2).temperature == Latest(r).temperature
      && Latest(s2).pressure == Latest(r).pressure
  {
    var s1 := Step(r, f1, ready1);
    assert NextSlot(s1.ptr) == r.ptr;
  }

  /**
    The reading shown before a call is still in the buffer afterwards, in the
    slot the cursor just left.
   */
  lemma PreviousLatestKept(r: Ring, incoming: Reads, ready: bool)
    requires r.Valid()
    ensures var s := Step(r, incoming, ready);
      s.slots[NextSlot(s.ptr)] == Latest(r)
  {
    var s := Step(r, incoming, ready);
    assert NextSlot(s.ptr) == r.ptr;
  }

  class Reading {
    var reading: array<Reads>
    var currentPtr: nat

    ghost predicate Valid()
      reads this
    {
      reading.Length == SIZE && currentPtr < SIZE
    }

    function Contents(): Ring
      reads this, reading
    {
      Ring(reading[..], currentPtr)
    }

    /**
      The cursor starts on the last slot, so the first call fills slot 0.  The
      slots' initial contents are whatever the storage held, one value each.
     */
    constructor (slot0: Reads, slot1: Reads)
      ensures Valid() && fresh(reading)
      ensures Contents() == Initial(slot0, slot1)
    {
      var slots := new Reads[SIZE](i => if i == 0 then slot0 else slot1);
      assert slots[..] == [slot0, slot1];
      reading := slots;
      currentPtr := SIZE - 1;
    }

    /**
      `get_readings`: advances the cursor, overwrites the motion and
      magnetometer fields of the slot it lands on, polls the barometer and
      copies the compensated values only when it reports Ready, then stamps
      the time.  The buffer changes as `Step` says and the barometer as its
      own acquisition step says.  The bus traffic is the compass's six-byte
      data read (`read_scaled` goes through `read_raw`) followed by the
      barometer's poll.
     */
    method GetReadings(compass: Hmc5883l.Compass, compassReply: seq<Byte>,
                       barometer: Bmp085.Barometer, incoming: Reads, now: Bmp085.ULong, reply: seq<Byte>)
      returns (traffic: seq<BusOp>)
      requires Valid() && |compassReply| == 6 && |reply| == 3
      modifies this`currentPtr, reading
      modifies barometer`phase, barometer`lastCheck, barometer`ut, barometer`up
      ensures Valid() && reading == old(reading)
      ensures var polled := Bmp085.Poll(old(barometer.Acq()), now, reply, barometer.oss);
        && barometer.Acq() == polled.next
        && traffic == [Read(Hmc5883l.I2C_ADDRESS, Hmc5883l.X_MSB_REGISTER, 6)] + polled.traffic
        && Contents() == Step(old(Contents()), incoming, polled.next.phase == Bmp085.Ready)
    {
      currentPtr := (currentPtr + 1) % SIZE;
      var p := currentPtr;
      reading[p] := reading[p].(accel := incoming.accel, gyro := incoming.gyro);
      var _, _, _, _, compassTraffic := compass.ReadRaw(compassReply);
      reading[p] := reading[p].(meg := incoming.meg);
      var state, baroTraffic := barometer.CheckReading(now, reply);
      traffic := compassTraffic + baroTraffic;
      if state == Bmp085.Ready {
        reading[p] := reading[p].(temperature := incoming.temperature, pressure := incoming.pressure);
      }
      reading[p] := reading[p].(time := incoming.time);
    }

    /** `print` shows the slot under the cursor: the one the last call wrote. */
    method Print() returns (shown: Reads)
      requires Valid()
      ensures shown == Latest(Contents())
    {
      shown := reading[currentPtr];
    }
  }
}

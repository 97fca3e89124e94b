/**
  Fixed-width integer semantics shared by the three sensor drivers.

  The drivers are C++ on a target with a 32-bit `int` and `long`.  Dafny's
  integers are unbounded, so every width, wrap-around and conversion the
  C code relies on is written out here:
  - a signed 32-bit operation whose exact result does not fit is taken to
    wrap (two's complement), which is what the targets' compilers emit;
  - `>>` on a signed value is an arithmetic shift, i.e. floor division by 2^k;
  - C `/` truncates toward zero, unlike Dafny's Euclidean `/`.
  Since wrapping is a ring homomorphism, a chain of `+`, `-` and `*` that wraps
  after each step equals one wrap of the exact chain; the models use that.
 */
module Bits {

  type Byte = b: int | 0 <= b < 256
  type I16 = x: int | -0x8000 <= x < 0x8000
  type U16 = x: int | 0 <= x < 0x1_0000
  type I32 = x: int | -0x8000_0000 <= x < 0x8000_0000
  type U32 = x: int | 0 <= x < 0x1_0000_0000

  /** Three signed 16-bit axis readings. */
  datatype Triple = Triple(x: I16, y: I16, z: I16)

  function Pow2(k: nat): (r: nat)
    ensures r >= 1
  {
    if k == 0 then 1 else 2 * Pow2(k - 1)
  }

  lemma {:induction false} Pow2Add(a: nat, b: nat)
    ensures Pow2(a + b) == Pow2(a) * Pow2(b)
  {
    if a > 0 {
      Pow2Add(a - 1, b);
      calc {
        Pow2(a + b);
        2 * Pow2(a - 1 + b);
        2 * (Pow2(a - 1) * Pow2(b));
        (2 * Pow2(a - 1)) * Pow2(b);
      }
    }
  }

  /** Conversion of any integer to `int16_t`: the value in range congruent modulo 2^16. */
  function Wrap16(x: int): (r: I16)
    ensures (x - r) % 0x1_0000 == 0
  {
    var m := x % 0x1_0000;
    if m < 0x8000 then m else m - 0x1_0000
  }

  /** Conversion of any integer to `int32_t`: the value in range congruent modulo 2^32. */
  function Wrap32(x: int): (r: I32)
    ensures (x - r) % 0x1_0000_0000 == 0
  {
    var m := x % 0x1_0000_0000;
    if m < 0x8000_0000 then m else m - 0x1_0000_0000
  }

  /** Conversion of any integer to `uint32_t` (or a 32-bit `unsigned long`). */
  function ToU32(x: int): (r: U32)
    ensures (x - r) % 0x1_0000_0000 == 0
  {
    x % 0x1_0000_0000
  }

  /** Conversion of any integer to `uint16_t`. */
  function ToU16(x: int): (r: U16)
    ensures (x - r) % 0x1_0000 == 0
  {
    x % 0x1_0000
  }

  lemma Wrap32InRange(x: int)
    requires -0x8000_0000 <= x < 0x8000_0000
    ensures Wrap32(x) == x
  {
  }

  /** Arithmetic right shift `x >> k`: the floor of x / 2^k. */
  function Shr(x: int, k: nat): (r: int)
    ensures r * Pow2(k) <= x < r * Pow2(k) + Pow2(k)
    ensures 0 <= x ==> 0 <= r <= x
    ensures x < 0 ==> x <= r < 0
  {
    FloorDivBounds(x, Pow2(k));
    x / Pow2(k)
  }

  lemma FloorDivBounds(x: int, d: int)
    requires d >= 1
    ensures 0 <= x ==> 0 <= x / d <= x
    ensures x < 0 ==> x <= x / d < 0
  {
    var q, rem := x / d, x % d;
    assert x == q * d + rem && 0 <= rem < d;
    assert (q + 1) * d == q * d + d;
    assert q * (d - 1) == q * d - q;
    assert (q + 1) * (d - 1) == (q + 1) * d - (q + 1);
    MulSigns(q + 1, d);
    MulSigns(q, d);
    MulSigns(q, d - 1);
    MulSigns(q + 1, d - 1);
  }

  lemma MulSigns(a: int, b: int)
    requires b >= 0
    ensures a <= 0 ==> a * b <= 0
    ensures a >= 0 ==> a * b >= 0
  {
  }

  /** The powers of two the drivers shift by. */
  lemma Pow2Values()
    ensures Pow2(0) == 1 && Pow2(1) == 2 && Pow2(2) == 4 && Pow2(3) == 8
    ensures Pow2(4) == 16 && Pow2(5) == 32 && Pow2(6) == 64 && Pow2(7) == 128
    ensures Pow2(8) == 256 && Pow2(11) == 2048 && Pow2(12) == 4096
    ensures Pow2(13) == 8192 && Pow2(15) == 0x8000 && Pow2(16) == 0x1_0000
  {
  }

  function Abs(x: int): nat
  {
    if x < 0 then -x else x
  }

  /**
    C's integer division `a / b`, which truncates toward zero: the remainder
    `a - r * b` is smaller than `b` in magnitude and never has the opposite
    sign of `a`.
   */
  function CDiv(a: int, b: int): (r: int)
    requires b != 0
    ensures Abs(a - r * b) < Abs(b)
    ensures a - r * b == 0 || (a - r * b < 0 <==> a < 0)
  {
    TruncatedRemainder(a, b);
    if (a < 0) == (b < 0) then Abs(a) / Abs(b) else -(Abs(a) / Abs(b))
  }

  /** The remainder of the truncated quotient, case by case on the signs. */
  lemma TruncatedRemainder(a: int, b: int)
    requires b != 0
    ensures var q := Abs(a) / Abs(b);
      var r := if (a < 0) == (b < 0) then q else -q;
      && Abs(a - r * b) < Abs(b)
      && (a - r * b == 0 || (a - r * b < 0 <==> a < 0))
  {
    var q := Abs(a) / Abs(b);
    var rem := Abs(a) % Abs(b);
    assert Abs(a) == q * Abs(b) + rem && 0 <= rem < Abs(b);
    if a >= 0 && b > 0 {
      assert a - q * b == rem;
    } else if a >= 0 {
      assert q * b == -(q * Abs(b));
      assert a - (-q) * b == rem;
    } else if b > 0 {
      assert a - (-q) * b == -rem;
    } else {
      assert q * b == -(q * Abs(b));
      assert a - q * b == -rem;
    }
  }

  /** Division by a positive constant, from a known quotient and remainder. */
  lemma DivModUnique(x: int, d: int, q: int, r: int)
    requires d > 0 && x == q * d + r && 0 <= r < d
    ensures x / d == q && x % d == r
  {
    var q', r' := x / d, x % d;
    assert x == q' * d + r' && 0 <= r' < d;
    assert (q - q') * d == r' - r;
    if q > q' {
      MulSigns(q - q' - 1, d);
    } else if q < q' {
      MulSigns(q' - q - 1, d);
    }
  }

  /** The big-endian 16-bit word `hi << 8 | lo`. */
  function Word16(hi: Byte, lo: Byte): (w: U16)
    ensures w / 256 == hi && w % 256 == lo
  {
    hi * 256 + lo
  }

  /** The big-endian 24-bit word `hi << 16 | mid << 8 | lo`. */
  function Word24(hi: Byte, mid: Byte, lo: Byte): (w: nat)
    ensures w < 0x100_0000
    ensures w / 0x1_0000 == hi && w % 0x1_0000 == Word16(mid, lo)
  {
    hi * 0x1_0000 + mid * 256 + lo
  }

  /** The unsigned big-endian word at offset i. */
  function U16At(buf: seq<Byte>, i: nat): U16
    requires i + 2 <= |buf|
  {
    Word16(buf[i], buf[i + 1])
  }

  /** The two's-complement big-endian word at offset i. */
  function I16At(buf: seq<Byte>, i: nat): I16
    requires i + 2 <= |buf|
  {
    Wrap16(U16At(buf, i))
  }

  /** The two bytes, high first, that a device sends for the unsigned word w. */
  function EncodeU16(w: U16): (s: seq<Byte>)
    ensures |s| == 2
  {
    [w / 256, w % 256]
  }

  /** The two bytes, high first, that a device sends for the signed word v. */
  function EncodeI16(v: I16): (s: seq<Byte>)
    ensures |s| == 2
  {
    EncodeU16(ToU16(v))
  }

  /** Converting a signed word to unsigned and reading it back as signed is the identity. */
  lemma Wrap16OfToU16(v: I16)
    ensures Wrap16(ToU16(v)) == v
  {
    if v >= 0 {
      assert ToU16(v) == v;
    } else {
      assert ToU16(v) == v + 0x1_0000;
    }
  }

  /** Reading a word as signed and converting it back to unsigned is the identity. */
  lemma ToU16OfWrap16(w: U16)
    ensures ToU16(Wrap16(w)) == w
  {
    if w < 0x8000 {
      assert Wrap16(w) == w;
    } else {
      assert Wrap16(w) == w - 0x1_0000;
      assert (w - 0x1_0000) % 0x1_0000 == w;
    }
  }

  lemma U16RoundTrip(w: U16)
    ensures U16At(EncodeU16(w), 0) == w
  {
  }

  lemma I16RoundTrip(v: I16)
    ensures I16At(EncodeI16(v), 0) == v
  {
    assert U16At(EncodeI16(v), 0) == ToU16(v);
    Wrap16OfToU16(v);
  }

  lemma U16BytesRoundTrip(buf: seq<Byte>, i: nat)
    requires i + 2 <= |buf|
    ensures EncodeU16(U16At(buf, i)) == buf[i..i + 2]
  {
  }

  lemma I16BytesRoundTrip(buf: seq<Byte>, i: nat)
    requires i + 2 <= |buf|
    ensures EncodeI16(I16At(buf, i)) == buf[i..i + 2]
  {
    ToU16OfWrap16(U16At(buf, i));
  }

  /** The byte stream, high byte first, of a sequence of 16-bit words. */
  function EncodeWords(ws: seq<U16>): (s: seq<Byte>)
    ensures |s| == 2 * |ws|
  {
    if ws == [] then [] else EncodeU16(ws[0]) + EncodeWords(ws[1..])
  }

  /** The 16-bit words, high byte first, of a byte stream of even length. */
  function DecodeWords(buf: seq<Byte>): (ws: seq<U16>)
    requires |buf| % 2 == 0
    ensures |ws| == |buf| / 2
  {
    if buf == [] then [] else [Word16(buf[0], buf[1])] + DecodeWords(buf[2..])
  }

  lemma {:induction false} DecodeEncodeWords(ws: seq<U16>)
    ensures DecodeWords(EncodeWords(ws)) == ws
  {
    if ws != [] {
      var s := EncodeWords(ws);
      assert s[2..] == EncodeWords(ws[1..]);
      DecodeEncodeWords(ws[1..]);
    }
  }

  lemma {:induction false} EncodeDecodeWords(buf: seq<Byte>)
    requires |buf| % 2 == 0
    ensures EncodeWords(DecodeWords(buf)) == buf
  {
    if buf != [] {
      var ws := DecodeWords(buf);
      assert ws[1..] == DecodeWords(buf[2..]);
      EncodeDecodeWords(buf[2..]);
      assert buf == buf[..2] + buf[2..];
    }
  }

  /** Word k of a decoded stream is the big-endian word at byte offset 2k. */
  lemma {:induction false} DecodeWordsAt(buf: seq<Byte>, k: nat)
    requires |buf| % 2 == 0 && k < |buf| / 2
    ensures DecodeWords(buf)[k] == U16At(buf, 2 * k)
  {
    if k > 0 {
      DecodeWordsAt(buf[2..], k - 1);
    }
  }

  /**
    The drivers' `(int16_t)(hi << 8) | lo`: the high byte is sign-extended on
    its own, and the low byte, whose bits do not overlap it, is or-ed in.  The
    result is the two's-complement reading of the whole word.
   */
  lemma SignedHighOrLow(hi: Byte, lo: Byte)
    ensures Wrap16(hi * 256) + lo == Wrap16(Word16(hi, lo))
  {
  }

  /** Bits lo .. lo + width - 1 of a non-negative x. */
  function BitField(x: nat, lo: nat, width: nat): (r: nat)
    ensures r < Pow2(width)
  {
    (x / Pow2(lo)) % Pow2(width)
  }
}

/** What a driver puts on the I2C bus: one record per transaction. */
module Bus {
  import opened Bits

  datatype BusOp =
    | Write(device: Byte, register: Byte, value: Byte)
    | Read(device: Byte, register: Byte, count: nat)
}

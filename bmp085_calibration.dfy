/**
  The BMP085's factory calibration: eleven 16-bit words stored big-endian
  from register 0xAA on.  ac4, ac5 and ac6 are unsigned, the other eight are
  two's-complement signed (lib/BMP085/BMP085.h:51-52).
 */
module Bmp085Calibration {
  import opened Bits

  const CALIBRATION_SIZE: nat := 22

  datatype Calibration = Calibration(
    ac1: I16, ac2: I16, ac3: I16,
    ac4: U16, ac5: U16, ac6: U16,
    b1: I16, b2: I16, mb: I16, mc: I16, md: I16)

  /** The eleven words in register order, as the device stores them. */
  function Words(c: Calibration): (ws: seq<U16>)
    ensures |ws| == 11
  {
    [ToU16(c.ac1), ToU16(c.ac2), ToU16(c.ac3), c.ac4, c.ac5, c.ac6,
     ToU16(c.b1), ToU16(c.b2), ToU16(c.mb), ToU16(c.mc), ToU16(c.md)]
  }

  /** The 22 bytes the device stores for a calibration set, in register order. */
  function EncodeCalibration(c: Calibration): (buf: seq<Byte>)
    ensures |buf| == CALIBRATION_SIZE
  {
    EncodeWords(Words(c))
  }

  /**
    The coefficients decoded from a 22-byte calibration read: each is the
    big-endian word at offset 0, 2, ..., 20, read as unsigned for ac4, ac5 and
    ac6 and as two's-complement for the others.  The result is the one set
    whose encoding is exactly the bytes read.
   */
  function DecodeCalibration(buf: seq<Byte>): (c: Calibration)
    requires |buf| == CALIBRATION_SIZE
    ensures EncodeCalibration(c) == buf
  {
    var w := DecodeWords(buf);
    var c := Calibration(
      Wrap16(w[0]), Wrap16(w[1]), Wrap16(w[2]), w[3], w[4], w[5],
      Wrap16(w[6]), Wrap16(w[7]), Wrap16(w[8]), Wrap16(w[9]), Wrap16(w[10]));
    WordsOfDecoded(w);
    assert Words(c) == w;
    EncodeDecodeWords(buf);
    c
  }

  lemma WordsOfDecoded(w: seq<U16>)
    requires |w| == 11
    ensures ToU16(Wrap16(w[0])) == w[0] && ToU16(Wrap16(w[1])) == w[1]
    ensures ToU16(Wrap16(w[2])) == w[2] && ToU16(Wrap16(w[6])) == w[6]
    ensures ToU16(Wrap16(w[7])) == w[7] && ToU16(Wrap16(w[8])) == w[8]
    ensures ToU16(Wrap16(w[9])) == w[9] && ToU16(Wrap16(w[10])) == w[10]
  {
    ToU16OfWrap16(w[0]);
    ToU16OfWrap16(w[1]);
    ToU16OfWrap16(w[2]);
    ToU16OfWrap16(w[6]);
    ToU16OfWrap16(w[7]);
    ToU16OfWrap16(w[8]);
    ToU16OfWrap16(w[9]);
    ToU16OfWrap16(w[10]);
  }

  /** Each coefficient is the big-endian word at its register offset. */
  lemma DecodeCalibrationOffsets(buf: seq<Byte>)
    requires |buf| == CALIBRATION_SIZE
    ensures var c := DecodeCalibration(buf);
      && c.ac1 == I16At(buf, 0) && c.ac2 == I16At(buf, 2) && c.ac3 == I16At(buf, 4)
      && c.ac4 == U16At(buf, 6) && c.ac5 == U16At(buf, 8) && c.ac6 == U16At(buf, 10)
      && c.b1 == I16At(buf, 12) && c.b2 == I16At(buf, 14) && c.mb == I16At(buf, 16)
      && c.mc == I16At(buf, 18) && c.md == I16At(buf, 20)
  {
    forall k | 0 <= k < 11
      ensures DecodeWords(buf)[k] == U16At(buf, 2 * k)
    {
      DecodeWordsAt(buf, k);
    }
  }

  /** Decoding what the device stores gives back the calibration set. */
  lemma CalibrationRoundTrip(c: Calibration)
    ensures DecodeCalibration(EncodeCalibration(c)) == c
  {
    DecodeEncodeWords(Words(c));
    Wrap16OfToU16(c.ac1);
    Wrap16OfToU16(c.ac2);
    Wrap16OfToU16(c.ac3);
    Wrap16OfToU16(c.b1);
    Wrap16OfToU16(c.b2);
    Wrap16OfToU16(c.mb);
    Wrap16OfToU16(c.mc);
    Wrap16OfToU16(c.md);
  }
}

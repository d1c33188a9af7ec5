// The encode and decode mixers (Mixers.h): the encoder adds five sixths of
// the side-path signal to the input, the decoder subtracts it. Both divide
// by six with C's truncating division.

module Mixers {
  import opened CInt

  /** MixersEncode(I, S) = (I * 6 + S * 5) / 6. With a silent side path the
    * input passes unchanged. */
  function Encode(i: int, s: int): (r: int)
    ensures s == 0 ==> r == i
    ensures Abs(6 * r - (6 * i + 5 * s)) < 6
  {
    Div(i * 6 + s * 5, 6)
  }

  /** MixersDecode(I, S) = (I * 6 - S * 5) / 6: the encoder's mix with the
    * side-path signal negated. */
  function Decode(i: int, s: int): (r: int)
    ensures r == Encode(i, -s)
  {
    Div(i * 6 - s * 5, 6)
  }

  /** Decoding an encoded sample with the same side-path signal returns the
    * original sample to within one unit of truncation. */
  lemma DecodeEncode(i: int, s: int)
    ensures Abs(Decode(Encode(i, s), s) - i) <= 1
  {
    var e := Encode(i, s);
    var rem := (6 * i + 5 * s) - 6 * e;
    assert -6 < rem < 6;
    assert e * 6 - s * 5 == i * 6 - rem;
  }

  /** When five sixths of the side signal is a whole number the round trip
    * is exact. */
  lemma DecodeEncodeExact(i: int, s: int)
    requires s % 6 == 0
    ensures Decode(Encode(i, s), s) == i
  {
    var k := s / 6;
    assert i * 6 + s * 5 == (i + 5 * k) * 6;
    DivExact(i + 5 * k, 6);
    assert (i + 5 * k) * 6 - s * 5 == i * 6;
    DivExact(i, 6);
  }

  /** Both mixers are monotone in the input sample. */
  lemma EncodeMonotone(i: int, i': int, s: int)
    requires i <= i'
    ensures Encode(i, s) <= Encode(i', s)
    ensures Decode(i, s) <= Decode(i', s)
  {
    DivMonotone(i * 6 + s * 5, i' * 6 + s * 5, 6);
    DivMonotone(i * 6 - s * 5, i' * 6 - s * 5, 6);
  }
}

/** Little-endian encoding of the fixed-width fields and samples that the WAV
    codec reads and writes. */
module LittleEndian {
  import opened Common

  function EncodeU16(x: U16): (b: seq<Byte>)
    ensures |b| == 2
  {
    [x % 0x100, x / 0x100]
  }

  function DecodeU16(b: seq<Byte>): U16
    requires |b| == 2
  {
    b[0] as int + 0x100 * (b[1] as int)
  }

  /** Four bytes, low half first. */
  function EncodeU32(x: U32): (b: seq<Byte>)
    ensures |b| == 4
  {
    EncodeU16(x % 0x1_0000) + EncodeU16(x / 0x1_0000)
  }

  function DecodeU32(b: seq<Byte>): U32
    requires |b| == 4
  {
    DecodeU16(b[..2]) + 0x1_0000 * DecodeU16(b[2..])
  }

  lemma U16RoundTrip(x: U16)
    ensures DecodeU16(EncodeU16(x)) == x
  {
  }

  /** Decoding is injective: two bytes are determined by the value they decode to. */
  lemma U16BytesRoundTrip(b: seq<Byte>)
    requires |b| == 2
    ensures EncodeU16(DecodeU16(b)) == b
  {
    var x := DecodeU16(b);
    assert x % 0x100 == b[0] && x / 0x100 == b[1];
  }

  lemma U32RoundTrip(x: U32)
    ensures DecodeU32(EncodeU32(x)) == x
  {
    var lo, hi := x % 0x1_0000, x / 0x1_0000;
    var b := EncodeU32(x);
    assert b[..2] == EncodeU16(lo) && b[2..] == EncodeU16(hi);
    U16RoundTrip(lo);
    U16RoundTrip(hi);
  }

  lemma U32BytesRoundTrip(b: seq<Byte>)
    requires |b| == 4
    ensures EncodeU32(DecodeU32(b)) == b
  {
    var lo, hi := DecodeU16(b[..2]), DecodeU16(b[2..]);
    var x := DecodeU32(b);
    assert x % 0x1_0000 == lo && x / 0x1_0000 == hi;
    U16BytesRoundTrip(b[..2]);
    U16BytesRoundTrip(b[2..]);
    assert b == b[..2] + b[2..];
  }

  /** Four bytes decode to x exactly when they are the encoding of x. */
  lemma U32Match(b: seq<Byte>, x: U32)
    requires |b| == 4
    ensures DecodeU32(b) == x <==> b == EncodeU32(x)
  {
    U32BytesRoundTrip(b);
    U32RoundTrip(x);
  }

  /** An int16_t sample in two's complement, two bytes. */
  function EncodeI16(v: Int16): (b: seq<Byte>)
    ensures |b| == 2
  {
    EncodeU16(if v < 0 then v + 0x1_0000 else v)
  }

  function DecodeI16(b: seq<Byte>): Int16
    requires |b| == 2
  {
    var u := DecodeU16(b);
    if u >= 0x8000 then u - 0x1_0000 else u
  }

  lemma I16RoundTrip(v: Int16)
    ensures DecodeI16(EncodeI16(v)) == v
  {
    U16RoundTrip(if v < 0 then v + 0x1_0000 else v);
  }

  /** The storage of int16 samples, sample after sample. */
  function EncodeI16s(xs: seq<Int16>): (b: seq<Byte>)
    ensures |b| == 2 * |xs|
  {
    if xs == [] then [] else EncodeI16(xs[0]) + EncodeI16s(xs[1..])
  }

  /** Reads as many whole int16 samples as the bytes hold. */
  function DecodeI16s(b: seq<Byte>): (xs: seq<Int16>)
    ensures |xs| == |b| / 2
  {
    if |b| < 2 then [] else [DecodeI16(b[..2])] + DecodeI16s(b[2..])
  }

  lemma {:induction false} I16sRoundTrip(xs: seq<Int16>)
    ensures DecodeI16s(EncodeI16s(xs)) == xs
  {
    if xs != [] {
      var b := EncodeI16s(xs);
      assert b[..2] == EncodeI16(xs[0]) && b[2..] == EncodeI16s(xs[1..]);
      I16RoundTrip(xs[0]);
      I16sRoundTrip(xs[1..]);
    }
  }

  /** The storage of 32-bit float samples, each as its four-byte pattern. */
  function EncodeF32s(xs: seq<F32>): (b: seq<Byte>)
    ensures |b| == 4 * |xs|
  {
    if xs == [] then [] else EncodeU32(xs[0]) + EncodeF32s(xs[1..])
  }

  function DecodeF32s(b: seq<Byte>): (xs: seq<F32>)
    ensures |xs| == |b| / 4
  {
    if |b| < 4 then [] else [DecodeU32(b[..4])] + DecodeF32s(b[4..])
  }

  lemma {:induction false} F32sRoundTrip(xs: seq<F32>)
    ensures DecodeF32s(EncodeF32s(xs)) == xs
  {
    if xs != [] {
      var b := EncodeF32s(xs);
      assert b[..4] == EncodeU32(xs[0]) && b[4..] == EncodeF32s(xs[1..]);
      U32RoundTrip(xs[0]);
      F32sRoundTrip(xs[1..]);
    }
  }
}

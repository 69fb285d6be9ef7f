/** The per-sample scaling of caSoundToF and caSoundToI, on real numbers:
    float rounding is not represented, which leaves the sign and the
    magnitude of each conversion exact. */
module Scaling {
  import opened Common

  /** The conversion of a float to int16_t: truncation toward zero. */
  function Trunc(x: real): int
  {
    if x >= 0.0 then x.Floor else -((-x).Floor)
  }

  /** caSoundToF as written: each sample divided by -32768. */
  function ToFloatAsWritten(x: Int16): real
  {
    x as real / -32768.0
  }

  /** The int16 to float scaling evidently intended: each sample divided
      by 32768, into [-1, 1) and with its sign kept. */
  function ToFloat(x: Int16): (f: real)
    ensures -1.0 <= f < 1.0
    ensures f < 0.0 <==> x < 0
    ensures f == 0.0 <==> x == 0
  {
    x as real / 32768.0
  }

  /** caSoundToI: each sample multiplied by 32767 and truncated. A value
      in [-1, 1] lands in the int16 range. */
  function ToInt(f: real): (r: int)
    ensures -1.0 <= f <= 1.0 ==> -0x7fff <= r <= 0x7fff
  {
    TruncBounds(f * 32767.0);
    Trunc(f * 32767.0)
  }

  /** Truncation moves toward zero by less than one. */
  lemma TruncBounds(x: real)
    ensures 0.0 <= x ==> x - 1.0 < Trunc(x) as real <= x
    ensures x < 0.0 ==> x <= Trunc(x) as real < x + 1.0
  {
  }

  /** Truncation commutes with negation. */
  lemma TruncNegate(x: real)
    ensures Trunc(-x) == -Trunc(x)
  {
  }

  /** As written, converting a sample to float and back gives the negation
      of what the intended scaling gives. */
  lemma ToFloatAsWrittenNegates(x: Int16)
    ensures ToInt(ToFloatAsWritten(x)) == -ToInt(ToFloat(x))
  {
    assert ToFloatAsWritten(x) * 32767.0 == -(ToFloat(x) * 32767.0);
    TruncNegate(ToFloat(x) * 32767.0);
  }

  /** So 1000 comes back as -999. */
  lemma ToFloatAsWrittenFlipsSign()
    ensures ToInt(ToFloatAsWritten(1000)) == -999
  {
    ToFloatAsWrittenNegates(1000);
    ScaledRoundTrip(1000);
  }

  /** With the intended scaling, converting a sample to float and back
      keeps its sign and moves it exactly one unit toward zero (because
      32767 / 32768 is just below one). */
  lemma ScaledRoundTrip(x: Int16)
    ensures 0 < x ==> ToInt(ToFloat(x)) == x - 1
    ensures x == 0 ==> ToInt(ToFloat(x)) == 0
    ensures x < 0 ==> ToInt(ToFloat(x)) == x + 1
  {
    var v := ToFloat(x) * 32767.0;
    assert v == x as real - x as real / 32768.0;
    TruncBounds(v);
    if 0 < x {
      assert x as real - 1.0 < v < x as real;
    } else if x < 0 {
      assert x as real < v <= x as real + 1.0;
    }
  }
}

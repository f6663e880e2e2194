/** The numeric value of an IEEE 754 binary32 bit pattern, as the property
    layer reads `f32` telemetry fields. Finite patterns (normal and
    subnormal) are decoded exactly; the non-finite patterns (exponent field
    255: infinities and NaNs) have no real value and read as 0.0. */
module Float32 {
  import opened Primitives

  function Pow2(n: nat): (r: nat)
    ensures r >= 1
  {
    if n == 0 then 1 else 2 * Pow2(n - 1)
  }

  function SignBit(w: uint32): nat { w / 0x8000_0000 }
  function ExponentField(w: uint32): nat { (w / 0x80_0000) % 0x100 }
  function MantissaField(w: uint32): nat { w % 0x80_0000 }

  predicate IsFinite(w: uint32) { ExponentField(w) != 0xff }

  /** The magnitude encoded by the exponent and mantissa fields. */
  function Magnitude(w: uint32): (m: real)
    ensures m >= 0.0
  {
    var e, f := ExponentField(w), MantissaField(w);
    if e == 0xff then 0.0
    else if e == 0 then (f as real) / (Pow2(149 - e) as real)
    else if e >= 150 then ((0x80_0000 + f) * Pow2(e - 150)) as real
    else ((0x80_0000 + f) as real) / (Pow2(150 - e) as real)
  }

  function Value(w: uint32): (v: real)
    ensures SignBit(w) == 0 ==> v >= 0.0
    ensures SignBit(w) == 1 ==> v <= 0.0
    ensures !IsFinite(w) ==> v == 0.0
  {
    if SignBit(w) == 0 then Magnitude(w) else -Magnitude(w)
  }

  // Bit patterns used by the end-to-end scenario of the property layer.
  const F32_1000: uint32 := 0x447A_0000
  const F32_5000: uint32 := 0x459C_4000
  const F32_8000: uint32 := 0x45FA_0000

  lemma Value1000()
    ensures Value(F32_1000) == 1000.0
  {
    assert Pow2(14) == 16384 by { assert Pow2(7) == 128; }
    assert ExponentField(F32_1000) == 136 && MantissaField(F32_1000) == 0x7A_0000;
  }

  lemma Value5000()
    ensures Value(F32_5000) == 5000.0
  {
    assert Pow2(11) == 2048 by { assert Pow2(5) == 32; }
    assert ExponentField(F32_5000) == 139 && MantissaField(F32_5000) == 0x1C_4000;
  }

  lemma Value8000()
    ensures Value(F32_8000) == 8000.0
  {
    assert Pow2(11) == 2048 by { assert Pow2(5) == 32; }
    assert ExponentField(F32_8000) == 139 && MantissaField(F32_8000) == 0x7A_0000;
  }
}

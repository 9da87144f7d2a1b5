/** The floating-point pieces the delay line uses, over exact reals: `linintf`
    and the conversion of a float position to `uint32_t`. */
module FloatMath {
  import opened IntMath

  function Min(a: real, b: real): real { if a <= b then a else b }

  function Max(a: real, b: real): real { if a <= b then b else a }

  /** `linintf(fr, x0, x1)`: the point a fraction `fr` of the way from x0 to x1. */
  function Linint(fr: real, x0: real, x1: real): (r: real)
    ensures fr == 0.0 ==> r == x0
    ensures fr == 1.0 ==> r == x1
    ensures fr == 0.5 ==> r == (x0 + x1) / 2.0
    ensures 0.0 <= fr <= 1.0 ==> Min(x0, x1) <= r <= Max(x0, x1)
  {
    LinintBetween(fr, x0, x1);
    x0 + fr * (x1 - x0)
  }

  /** A fraction in [0, 1] of a difference lies between 0 and that difference. */
  lemma LinintBetween(fr: real, x0: real, x1: real)
    ensures 0.0 <= fr <= 1.0 ==> Min(x0, x1) <= x0 + fr * (x1 - x0) <= Max(x0, x1)
  {
    if 0.0 <= fr <= 1.0 {
      var d := x1 - x0;
      if d >= 0.0 {
        MulNonneg(fr, d);
        MulNonneg(1.0 - fr, d);
      } else {
        MulNonneg(fr, -d);
        MulNonneg(1.0 - fr, -d);
      }
    }
  }

  lemma MulNonneg(a: real, b: real)
    requires a >= 0.0 && b >= 0.0
    ensures a * b >= 0.0
  {
  }

  /** C's conversion `(uint32_t)x` of a float: truncation toward zero, defined
      when the truncated value fits, that is for -1 < x < 2^32. */
  function TruncToU32(x: real): (b: U32)
    requires -1.0 < x < U32_MODULUS as real
    ensures 0.0 <= x ==> b as real <= x < b as real + 1.0
    ensures x < 0.0 ==> b == 0
  {
    if x < 0.0 then 0 else x.Floor
  }
}

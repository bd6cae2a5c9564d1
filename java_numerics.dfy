/** Java numeric conversions used by the cropping pipeline, stated over
    mathematical reals and integers.

    A Java `float` or `double` is modelled by the real number it denotes;
    NaN and the infinities never arise from the inputs modelled here. */
module JavaNumerics {

  /** The range of a Java `int`. */
  const IntMin: int := -0x8000_0000
  const IntMax: int := 0x7fff_ffff

  predicate InIntRange(x: real) {
    IntMin as real <= x <= IntMax as real
  }

  /** The integer nearest to `x` in the direction of zero. */
  function TruncateTowardZero(x: real): (r: int)
    ensures 0.0 <= x ==> r as real <= x < r as real + 1.0
    ensures x < 0.0 ==> r as real - 1.0 < x <= r as real
  {
    if x >= 0.0 then x.Floor else -((-x).Floor)
  }

  /** The narrowing conversion `(int) x` from `float` or `double` to `int`
      (section 5.1.3 of the Java Language Specification): round toward zero,
      then saturate at the bounds of `int`. */
  function NarrowToInt(x: real): (r: int)
    ensures IntMin <= r <= IntMax
    ensures InIntRange(x) && 0.0 <= x ==> r as real <= x < r as real + 1.0
    ensures InIntRange(x) && x < 0.0 ==> r as real - 1.0 < x <= r as real
    ensures x >= IntMax as real ==> r == IntMax
    ensures x <= IntMin as real ==> r == IntMin
  {
    var t := TruncateTowardZero(x);
    if t > IntMax then IntMax else if t < IntMin then IntMin else t
  }

  /** `Math.ceil(x)`: the least integer not below `x`. */
  function Ceil(x: real): (r: int)
    ensures x <= r as real < x + 1.0
  {
    -((-x).Floor)
  }
}

/** Clamp and guard helpers of src/functions/util.h.
    All scalars of the source (lengths, areas, cosines) are reals here. */
module Util {
  import opened MathLib
  import opened Definitions

  /** `clamp(num, min, max)`: the source asserts min <= max. */
  function Clamp(num: real, min: real, max: real): (r: real)
    requires min <= max
    ensures min <= r <= max
    ensures min <= num <= max ==> r == num
    ensures num < min ==> r == min
    ensures num > max ==> r == max
  {
    if num < min then min else if num > max then max else num
  }

  /** The clamped value is the point of [min, max] nearest to num. */
  lemma ClampIsNearest(num: real, min: real, max: real, y: real)
    requires min <= max
    requires min <= y <= max
    ensures Dist(Clamp(num, min, max), num) <= Dist(y, num)
  {
  }

  function Dist(a: real, b: real): real { if a < b then b - a else a - b }

  /** Clamping twice is clamping once. */
  lemma ClampIdempotent(num: real, min: real, max: real)
    requires min <= max
    ensures Clamp(Clamp(num, min, max), min, max) == Clamp(num, min, max)
  {
  }

  /** Clamp is monotone in its first argument. */
  lemma ClampMonotone(a: real, b: real, min: real, max: real)
    requires min <= max && a <= b
    ensures Clamp(a, min, max) <= Clamp(b, min, max)
  {
  }

  function ClampCosine(mu: real): (r: real)
    ensures -1.0 <= r <= 1.0
    ensures -1.0 <= mu <= 1.0 ==> r == mu
  {
    Clamp(mu, -1.0, 1.0)
  }

  /** `std::max(d, 0.0 * m)`. */
  function ClampDistance(d: real): (r: real)
    ensures 0.0 <= r
    ensures 0.0 <= d ==> r == d
    ensures d < 0.0 ==> r == 0.0
  {
    if d < 0.0 * M then 0.0 * M else d
  }

  function ClampRadius(atmosphere: AtmosphereParameters, r: real): (res: real)
    requires atmosphere.bottomRadius <= atmosphere.topRadius
    ensures atmosphere.bottomRadius <= res <= atmosphere.topRadius
    ensures atmosphere.bottomRadius <= r <= atmosphere.topRadius ==> res == r
  {
    Clamp(r, atmosphere.bottomRadius, atmosphere.topRadius)
  }

  /** `sqrt(std::max(a, 0.0 * m2))`: sqrt is never applied to a negative number. */
  function SafeSqrt(lib: Libm, a: real): (r: real)
    ensures 0.0 <= a ==> r == lib.sqrt(a)
    ensures a < 0.0 ==> r == lib.sqrt(0.0)
    ensures SqrtLaws(lib.sqrt) ==> 0.0 <= r
    ensures SqrtLaws(lib.sqrt) && a < 0.0 ==> r == 0.0
  {
    SqrtOfZero(lib.sqrt);
    lib.sqrt(if a < 0.0 * M2 then 0.0 * M2 else a)
  }

  /** With the sqrt laws, SafeSqrt(a) squared gives back max(a, 0). */
  lemma SafeSqrtSquared(lib: Libm, a: real)
    requires SqrtLaws(lib.sqrt)
    ensures SafeSqrt(lib, a) * SafeSqrt(lib, a) == (if a < 0.0 then 0.0 else a)
  {
    if 0.0 <= a {
      assert Square(lib.sqrt(a)) == a;
    }
  }
}

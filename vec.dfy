/** The 2- and 3-component vectors of src/vec.h over reals (the source's `Vec2d`/`Vec3d`).
    The vectors are values; the in-place operators `+=` and `-=` are methods of the classes
    `MutableVec2` and `MutableVec3`, which hold a vector whose fields they update one by one. */
module Vec {
  import opened MathLib

  datatype Vec2 = Vec2(x: real, y: real)
  {
    /** `explicit Vec2(Type x)`: both components set to s. */
    static function Splat(s: real): Vec2 { Vec2(s, s) }

    function Add(b: Vec2): Vec2 { Vec2(x + b.x, y + b.y) }

    /** `operator-` as the source writes it: `-=` subtracts b.x from BOTH components. */
    function Sub(b: Vec2): Vec2 { Vec2(x - b.x, y - b.x) }

    /** The component-wise difference that `operator-` evidently means, as Vec3 has it. */
    function SubIntended(b: Vec2): Vec2 { Vec2(x - b.x, y - b.y) }

    function Neg(): Vec2 { Vec2(-x, -y) }

    function Scale(s: real): Vec2 { Vec2(x * s, y * s) }

    function DivScalar(s: real): Vec2
      requires s != 0.0
    {
      Vec2(x / s, y / s)
    }

    /** `operator/(Vec2)`, component by component: the driver turns a texel coordinate
        into a uv with it. */
    function Div(b: Vec2): Vec2
      requires b.x != 0.0 && b.y != 0.0
    {
      Vec2(x / b.x, y / b.y)
    }

    function Mul(b: Vec2): Vec2 { Vec2(x * b.x, y * b.y) }
  }

  datatype Vec3 = Vec3(x: real, y: real, z: real)
  {
    static function Splat(s: real): Vec3 { Vec3(s, s, s) }

    function Add(b: Vec3): Vec3 { Vec3(x + b.x, y + b.y, z + b.z) }

    function Sub(b: Vec3): Vec3 { Vec3(x - b.x, y - b.y, z - b.z) }

    function Neg(): Vec3 { Vec3(-x, -y, -z) }

    function Scale(s: real): Vec3 { Vec3(x * s, y * s, z * s) }

    function DivScalar(s: real): Vec3
      requires s != 0.0
    {
      Vec3(x / s, y / s, z / s)
    }

    function Mul(b: Vec3): Vec3 { Vec3(x * b.x, y * b.y, z * b.z) }

    /** Each component is at least / at most c. */
    predicate AllAtLeast(c: real) { c <= x && c <= y && c <= z }
    predicate AllAtMost(c: real) { x <= c && y <= c && z <= c }
    predicate AllPositive() { 0.0 < x && 0.0 < y && 0.0 < z }
  }

  /** The dot product.  A vector's product with itself is its squared length: never
      negative, zero for the zero vector and positive for every other. */
  function Dot(a: Vec3, b: Vec3): (r: real)
    ensures a == b ==> 0.0 <= r
    ensures a == b ==> (a == Vec3(0.0, 0.0, 0.0) <==> !(0.0 < r))
  {
    SumOfSquaresPositive(a.x, a.y, a.z);
    a.x * b.x + a.y * b.y + a.z * b.z
  }

  /** x^2 + y^2 + z^2 is non-negative, and positive away from the origin. */
  lemma SumOfSquaresPositive(x: real, y: real, z: real)
    ensures 0.0 <= x * x + y * y + z * z
    ensures x != 0.0 || y != 0.0 || z != 0.0 ==> 0.0 < x * x + y * y + z * z
  {
    SquareNonNegative(x);
    SquareNonNegative(y);
    SquareNonNegative(z);
    if x != 0.0 { SquarePositive(x); }
    if y != 0.0 { SquarePositive(y); }
    if z != 0.0 { SquarePositive(z); }
  }

  /** The cross product: orthogonal to both operands, and zero for a vector with itself. */
  function Cross(a: Vec3, b: Vec3): (r: Vec3)
    ensures Dot(r, a) == 0.0 && Dot(r, b) == 0.0
    ensures a == b ==> r == Vec3(0.0, 0.0, 0.0)
  {
    Vec3(a.y * b.z - a.z * b.y, a.z * b.x - a.x * b.z, a.x * b.y - a.y * b.x)
  }

  /** `std::max` / `std::min` of two reals: the larger / smaller of the two. */
  function MaxReal(a: real, b: real): (r: real)
    ensures a <= r && b <= r && (r == a || r == b)
  {
    if a < b then b else a
  }

  function MinReal(a: real, b: real): (r: real)
    ensures r <= a && r <= b && (r == a || r == b)
  {
    if b < a then b else a
  }

  /** Component-wise maximum: each component is the larger of the two. */
  function Max(a: Vec3, b: Vec3): (r: Vec3)
    ensures a.x <= r.x && b.x <= r.x && (r.x == a.x || r.x == b.x)
    ensures a.y <= r.y && b.y <= r.y && (r.y == a.y || r.y == b.y)
    ensures a.z <= r.z && b.z <= r.z && (r.z == a.z || r.z == b.z)
  {
    Vec3(MaxReal(a.x, b.x), MaxReal(a.y, b.y), MaxReal(a.z, b.z))
  }

  /** Component-wise minimum: each component is the smaller of the two. */
  function Min(a: Vec3, b: Vec3): (r: Vec3)
    ensures r.x <= a.x && r.x <= b.x && (r.x == a.x || r.x == b.x)
    ensures r.y <= a.y && r.y <= b.y && (r.y == a.y || r.y == b.y)
    ensures r.z <= a.z && r.z <= b.z && (r.z == a.z || r.z == b.z)
  {
    Vec3(MinReal(a.x, b.x), MinReal(a.y, b.y), MinReal(a.z, b.z))
  }

  /** Component-wise exponential, with the scalar exp of the math library. */
  function Exp(lib: Libm, v: Vec3): (r: Vec3)
    ensures ExpLaws(lib.exp) ==> r.AllPositive()
    ensures ExpLaws(lib.exp) && v.AllAtMost(0.0) ==> r.AllAtMost(1.0)
    ensures ExpLaws(lib.exp) && v == Vec3(0.0, 0.0, 0.0) ==> r == Vec3(1.0, 1.0, 1.0)
  {
    Vec3(lib.exp(v.x), lib.exp(v.y), lib.exp(v.z))
  }

  /** The component-wise operators of Vec3 form a vector space over the reals:
      subtraction undoes addition, negation is scaling by -1, division undoes scaling,
      and component-wise product with a splat is scaling. */
  lemma Vec3Algebra(a: Vec3, b: Vec3, s: real)
    ensures a.Add(b) == b.Add(a)
    ensures a.Add(b).Sub(b) == a
    ensures a.Add(a.Neg()) == Vec3.Splat(0.0)
    ensures a.Neg() == a.Scale(-1.0)
    ensures a.Mul(Vec3.Splat(s)) == a.Scale(s)
    ensures s != 0.0 ==> a.Scale(s).DivScalar(s) == a
  {
  }

  /** The same laws for Vec2, except that the source's subtraction is not the inverse of
      addition (see Vec2SubAsWritten). */
  lemma Vec2Algebra(a: Vec2, b: Vec2, s: real)
    ensures a.Add(b) == b.Add(a)
    ensures a.Neg() == a.Scale(-1.0)
    ensures a.Mul(Vec2.Splat(s)) == a.Scale(s)
    ensures s != 0.0 ==> a.Scale(s).DivScalar(s) == a
    ensures b.x != 0.0 && b.y != 0.0 ==> a.Mul(b).Div(b) == a
  {
  }

  /** As written, `a - b` takes b.x from both components, so (a - b) + b gives back a, and
      `a - b` agrees with the component-wise difference, exactly when b.x == b.y. */
  lemma Vec2SubAsWritten(a: Vec2, b: Vec2)
    ensures a.Sub(b) == Vec2(a.x - b.x, a.y - b.x)
    ensures a.Sub(b).Add(b) == a <==> b.x == b.y
    ensures a.Sub(b) == a.SubIntended(b) <==> b.x == b.y
  {
    if a.Sub(b).Add(b) == a {
      assert a.y - b.x + b.y == a.y;
    }
  }

  /** The intended subtraction undoes addition, on every pair of vectors. */
  lemma Vec2SubIntendedInverse(a: Vec2, b: Vec2)
    ensures a.SubIntended(b).Add(b) == a
    ensures a.Add(b).SubIntended(b) == a
    ensures a.SubIntended(b) == a.Add(b.Neg())
  {
  }

  /** min(a, b) + max(a, b) == a + b: the two pick complementary components. */
  lemma MinMaxBounds(a: Vec3, b: Vec3)
    ensures Min(a, b).Add(Max(a, b)) == a.Add(b)
  {
  }

  /** A `Vec2` object whose fields `+=` and `-=` update in place. */
  class MutableVec2 {
    var x: real
    var y: real

    function Value(): Vec2
      reads this
    {
      Vec2(x, y)
    }

    constructor (v: Vec2)
      ensures Value() == v
    {
      x, y := v.x, v.y;
    }

    /** `operator+=`. */
    method AddAssign(b: Vec2)
      modifies this
      ensures Value() == old(Value()).Add(b)
    {
      x := x + b.x;
      y := y + b.y;
    }

    /** `operator-=`, as written: b.x is subtracted from y as well. */
    method SubAssign(b: Vec2)
      modifies this
      ensures Value() == old(Value()).Sub(b)
      ensures y == old(y) - b.x
    {
      x := x - b.x;
      y := y - b.x;
    }
  }

  /** `Vec2::operator+`: copy *this, then `+=`. */
  method Vec2Plus(a: Vec2, b: Vec2) returns (r: Vec2)
    ensures r == a.Add(b)
  {
    var ret := new MutableVec2(a);
    ret.AddAssign(b);
    r := ret.Value();
  }

  /** `Vec2::operator-`: copy *this, then `-=`. */
  method Vec2Minus(a: Vec2, b: Vec2) returns (r: Vec2)
    ensures r == a.Sub(b)
    ensures r.x == a.x - b.x && r.y == a.y - b.x
  {
    var ret := new MutableVec2(a);
    ret.SubAssign(b);
    r := ret.Value();
  }

  /** A `Vec3` object whose fields `+=` updates in place. */
  class MutableVec3 {
    var x: real
    var y: real
    var z: real

    function Value(): Vec3
      reads this
    {
      Vec3(x, y, z)
    }

    constructor (v: Vec3)
      ensures Value() == v
    {
      x, y, z := v.x, v.y, v.z;
    }

    /** `operator+=`. */
    method AddAssign(b: Vec3)
      modifies this
      ensures Value() == old(Value()).Add(b)
      ensures Value().Sub(b) == old(Value())
    {
      x := x + b.x;
      y := y + b.y;
      z := z + b.z;
    }
  }
}

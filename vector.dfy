/** A 2D vector with real components: the ideal-arithmetic meaning of class
    Vector2D. The const members (arithmetic, comparisons, dot, cross,
    perpendicular, inverted) return new values and are functions on the value
    type Vec2; the assignment operators and setInverted overwrite the two
    components in place and are methods of the class Vector2D.
 */
module Vector {

  /** The value of a vector: its two components. */
  datatype Vec2 = Vec2(x: real, y: real)

  /** What the default constructor builds: the vector that `==` the scalar 0. */
  function Zero(): (r: Vec2)
    ensures EqualsScalar(r, 0.0)
  {
    Vec2(0.0, 0.0)
  }

  /** The single-value constructor: both components set to `value`. */
  function Splat(value: real): (r: Vec2)
    ensures EqualsScalar(r, value)
  {
    Vec2(value, value)
  }

  // --Arithmetic operators--

  /** Vector addition. */
  function Add(a: Vec2, b: Vec2): Vec2 {
    Vec2(a.x + b.x, a.y + b.y)
  }

  /** Vector subtraction: the result is the vector that, added to `b`, gives `a`. */
  function Sub(a: Vec2, b: Vec2): (r: Vec2)
    ensures Add(r, b) == a
  {
    Vec2(a.x - b.x, a.y - b.y)
  }

  /** Scalar addition: adding `s` to both components is adding the vector (s, s). */
  function AddScalar(v: Vec2, s: real): (r: Vec2)
    ensures r == Add(v, Splat(s))
  {
    Vec2(v.x + s, v.y + s)
  }

  /** Scalar subtraction undoes scalar addition. */
  function SubScalar(v: Vec2, s: real): (r: Vec2)
    ensures AddScalar(r, s) == v
    ensures r == Sub(v, Splat(s))
  {
    Vec2(v.x - s, v.y - s)
  }

  /** Component-wise product; the meaning of `*=` by a vector (there is no
      binary form). */
  function Hadamard(a: Vec2, b: Vec2): Vec2 {
    Vec2(a.x * b.x, a.y * b.y)
  }

  /** Scalar multiplication: the component-wise product with (s, s); the result
      lies on the line through the origin and `v`. */
  function MulScalar(v: Vec2, s: real): (r: Vec2)
    ensures r == Hadamard(v, Splat(s))
    ensures Cross(v, r) == 0.0
  {
    Vec2(v.x * s, v.y * s)
  }

  /** Scalar division, guarded: dividing by zero gives the zero vector,
      otherwise the result is the vector that scaled by `s` gives back `v`. */
  function DivScalar(v: Vec2, s: real): (r: Vec2)
    ensures s == 0.0 ==> r == Zero()
    ensures s != 0.0 ==> MulScalar(r, s) == v
  {
    if s == 0.0 then Vec2(0.0, 0.0) else Vec2(v.x / s, v.y / s)
  }

  /** Component-wise guarded division; the meaning of `/=` by a vector (there is
      no binary form). Each component is decided on its own: it is zero when the
      divisor's matching component is zero, and otherwise it is the quotient. */
  function DivComponents(v: Vec2, w: Vec2): (r: Vec2)
    ensures w.x == 0.0 ==> r.x == 0.0
    ensures w.x != 0.0 ==> r.x * w.x == v.x
    ensures w.y == 0.0 ==> r.y == 0.0
    ensures w.y != 0.0 ==> r.y * w.y == v.y
  {
    Vec2(if w.x == 0.0 then 0.0 else v.x / w.x,
         if w.y == 0.0 then 0.0 else v.y / w.y)
  }

  // --Logical operators--

  /** Vector equality: component-wise comparison is equality of the values. */
  function Equals(a: Vec2, b: Vec2): (r: bool)
    ensures r <==> a == b
  {
    a.x == b.x && a.y == b.y
  }

  /** Scalar equality: the vector equals `s` exactly when it is (s, s). */
  function EqualsScalar(v: Vec2, s: real): (r: bool)
    ensures r <==> v == Vec2(s, s)
  {
    v.x == s && v.y == s
  }

  /** Vector inequality is the negation of vector equality. */
  function NotEquals(a: Vec2, b: Vec2): (r: bool)
    ensures r <==> !Equals(a, b)
  {
    a.x != b.x || a.y != b.y
  }

  /** Scalar inequality is the negation of scalar equality. */
  function NotEqualsScalar(v: Vec2, s: real): (r: bool)
    ensures r <==> !EqualsScalar(v, s)
  {
    v.x != s || v.y != s
  }

  // --Vector specific members--

  /** Dot product; a vector's dot product with itself is never negative. */
  function Dot(a: Vec2, b: Vec2): (r: real)
    ensures a == b ==> r >= 0.0
  {
    a.x * b.x + a.y * b.y
  }

  /** The result of `perpendicular`: (y, -x). It is orthogonal to `v` and has
      the same squared length. */
  function Perpendicular(v: Vec2): (r: Vec2)
    ensures Dot(v, r) == 0.0
    ensures Dot(r, r) == Dot(v, v)
  {
    Vec2(v.y, -v.x)
  }

  /** 2D cross product (the z component of the 3D one): the dot product of `a`
      with the perpendicular of `b`. */
  function Cross(a: Vec2, b: Vec2): (r: real)
    ensures r == Dot(a, Perpendicular(b))
  {
    a.x * b.y - a.y * b.x
  }

  /** The result of `inverted`: the additive inverse. */
  function Inverted(v: Vec2): (r: Vec2)
    ensures Add(v, r) == Zero()
  {
    Vec2(-v.x, -v.y)
  }

  /** A vector object whose two components the assignment operators overwrite.
      Every operand `other` is a Vec2 because the source takes it by value: it
      is a copy made before the receiver changes. */
  class Vector2D {
    var x: real
    var y: real

    /** The value the object currently holds. */
    function Value(): Vec2
      reads this
    {
      Vec2(x, y)
    }

    /** Default constructor: both components zero. */
    constructor ()
      ensures Value() == Zero()
    {
      x, y := 0.0, 0.0;
    }

    /** Constructor from the two components. */
    constructor FromComponents(x0: real, y0: real)
      ensures Value() == Vec2(x0, y0)
    {
      x, y := x0, y0;
    }

    /** Single-value constructor: the new vector `==` its value. */
    constructor FromValue(value: real)
      ensures Value() == Splat(value)
      ensures EqualsScalar(Value(), value)
    {
      x, y := value, value;
    }

    /** Copy constructor. */
    constructor Copy(other: Vector2D)
      ensures Value() == other.Value()
    {
      x, y := other.x, other.y;
    }

    // --Assignment operators--

    /** Vector assignment. */
    method Assign(other: Vec2)
      modifies this
      ensures Value() == other
    {
      x := other.x;
      y := other.y;
    }

    /** Scalar assignment: the receiver then `==` the scalar. */
    method AssignScalar(s: real)
      modifies this
      ensures Value() == Splat(s)
      ensures EqualsScalar(Value(), s)
    {
      x := s;
      y := s;
    }

    /** `+=` by a vector agrees with binary `+`. */
    method AddAssign(other: Vec2)
      modifies this
      ensures Value() == Add(old(Value()), other)
    {
      x := x + other.x;
      y := y + other.y;
    }

    /** `+=` by a scalar agrees with binary scalar `+`. */
    method AddAssignScalar(s: real)
      modifies this
      ensures Value() == AddScalar(old(Value()), s)
    {
      x := x + s;
      y := y + s;
    }

    /** `-=` by a vector agrees with binary `-`. */
    method SubAssign(other: Vec2)
      modifies this
      ensures Value() == Sub(old(Value()), other)
    {
      x := x - other.x;
      y := y - other.y;
    }

    /** `-=` by a scalar agrees with binary scalar `-`. */
    method SubAssignScalar(s: real)
      modifies this
      ensures Value() == SubScalar(old(Value()), s)
    {
      x := x - s;
      y := y - s;
    }

    /** `*=` by a vector is the component-wise product. */
    method MulAssign(other: Vec2)
      modifies this
      ensures Value() == Hadamard(old(Value()), other)
    {
      x := x * other.x;
      y := y * other.y;
    }

    /** `*=` by a scalar agrees with binary scalar `*`. */
    method MulAssignScalar(s: real)
      modifies this
      ensures Value() == MulScalar(old(Value()), s)
    {
      x := x * s;
      y := y * s;
    }

    /** `/=` by a vector: each component guarded on its own divisor component. */
    method DivAssign(other: Vec2)
      modifies this
      ensures Value() == DivComponents(old(Value()), other)
    {
      if other.x == 0.0 {
        x := 0.0;
      } else {
        x := x / other.x;
      }
      if other.y == 0.0 {
        y := 0.0;
      } else {
        y := y / other.y;
      }
    }

    /** `/=` by a scalar agrees with binary scalar `/`, so dividing by zero
        leaves the zero vector. */
    method DivAssignScalar(s: real)
      modifies this
      ensures Value() == DivScalar(old(Value()), s)
    {
      if s == 0.0 {
        x, y := 0.0, 0.0;
      } else {
        x, y := x / s, y / s;
      }
    }

    /** Stores the inverted vector in the receiver and returns a copy of it. */
    method SetInverted() returns (r: Vec2)
      modifies this
      ensures Value() == Inverted(old(Value()))
      ensures r == Value()
    {
      Assign(Inverted(Value()));
      r := Value();
    }
  }
}

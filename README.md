# Vector2D: a verified model of the 2D vector type

The repository's only logic is the header-only class `Vector2D`, a pair of
components `x_`, `y_` with arithmetic, compound assignment, comparison and a
few geometric helpers. This project models it in Dafny with `real`
components, i.e. the ideal-arithmetic meaning of the `float` code.

- `vector.dfy`, module `Vector`: the value type `Vec2` and one function per
  `const` member (binary `+ - * /` by vector or scalar, `==`, `!=`, `dot`,
  `cross`, `perpendicular`, `inverted`), plus the class `Vector2D` whose
  fields `x`, `y` the constructors, the assignment and compound-assignment
  operators and `setInverted` overwrite in place. Each method's contract states
  the whole new value: for the compound assignments, the matching operation
  (a binary function, or `Hadamard` / `DivComponents` where the source has no
  binary form) applied to `old(Value())`; for `=`, the operand itself.
- `vector_laws.dfy`, module `VectorLaws`: identities across the operations
  (inverse pairs, involution of `inverted`, antisymmetry of `cross`,
  `perpendicular` as a clockwise quarter turn, zero cross / zero dot as
  collinearity / orthogonality, Lagrange's identity).

Modelling decisions:

- Every operand of the operators is taken by value in the source
  (`const Vector2D other`), so the class methods take a `Vec2` value: the
  operand is a copy made before the receiver changes, and `v /= v` is well
  defined.
- The source has no binary vector `*` or `/`; `Hadamard` and `DivComponents`
  are the specification functions for `*=` and `/=` by a vector.
- Every member of the C++ class is private (a `class` with no access
  specifier, include/math/Vector2D.hpp:7); the model treats them as usable.
- The comment on `perpendicular` says "90 degrees counter-clockwise", but
  the code returns `(y, -x)`, the clockwise quarter turn. The model follows
  the code, and `VectorLaws.PerpendicularIsClockwise` proves the direction.
- The assignment operators return `void` in the source; `setInverted`
  returns a copy of the updated receiver.

## Model

| member | source | states |
|---|---|---|
| Vector.Zero | include/math/Vector2D.hpp:13 | the value the default constructor builds `==` the scalar 0 |
| Vector.Splat | include/math/Vector2D.hpp:19 | the vector built from one value `==` that value (scalar equality) |
| Vector.Add | include/math/Vector2D.hpp:37-39 | no contract of its own; its partners are `Sub`, whose result added to `b` gives back `a`, and `VectorLaws.AddLaws` |
| Vector.Sub | include/math/Vector2D.hpp:27-29 | vector subtraction undoes vector addition: `(a - b) + b == a` |
| Vector.SubScalar | include/math/Vector2D.hpp:32-34 | scalar subtraction undoes scalar addition and is subtraction of `(s, s)` |
| Vector.AddScalar | include/math/Vector2D.hpp:42-44 | scalar addition is vector addition of `(s, s)` |
| Vector.MulScalar | include/math/Vector2D.hpp:47-49 | scalar product is the component-wise product with `(s, s)` and is collinear with the operand (zero cross product) |
| Vector.Hadamard | include/math/Vector2D.hpp:97-100 | no contract of its own; it specifies `*=` by a vector, and `VectorLaws.DivComponentsUndoesHadamard` proves that `/=` by the same vector undoes it in its non-zero components |
| Vector.DivScalar | include/math/Vector2D.hpp:52-56 | division by 0 gives the zero vector; otherwise the result scaled by `s` gives back the operand |
| Vector.DivComponents | include/math/Vector2D.hpp:109-116 | each component is 0 when the divisor's component is 0, otherwise it times the divisor's component is the operand's component |
| Vector.Equals | include/math/Vector2D.hpp:128-130 | component-wise `==` holds exactly when the two values are equal |
| Vector.EqualsScalar | include/math/Vector2D.hpp:133-135 | `v == s` holds exactly when `v` is `(s, s)` |
| Vector.NotEquals | include/math/Vector2D.hpp:138-140 | vector `!=` is the negation of vector `==` |
| Vector.NotEqualsScalar | include/math/Vector2D.hpp:143-145 | scalar `!=` is the negation of scalar `==` |
| Vector.Dot | include/math/Vector2D.hpp:150-152 | a vector's dot product with itself is never negative (more in `VectorLaws.DotLaws`) |
| Vector.Cross | include/math/Vector2D.hpp:155-157 | `a.cross(b) == a.dot(b.perpendicular())` |
| Vector.Perpendicular | include/math/Vector2D.hpp:178-180 | the perpendicular is orthogonal to the operand and keeps its dot product with itself |
| Vector.Inverted | include/math/Vector2D.hpp:183-185 | the inverted vector is the additive inverse: `v + v.inverted()` is zero |
| Vector.Vector2D.constructor | include/math/Vector2D.hpp:13 | the default constructor builds the zero vector |
| Vector.Vector2D.FromComponents | include/math/Vector2D.hpp:16 | the two-value constructor stores the components given |
| Vector.Vector2D.FromValue | include/math/Vector2D.hpp:19 | the single-value constructor builds a vector that `==` its value |
| Vector.Vector2D.Copy | include/math/Vector2D.hpp:22 | the copy constructor builds a vector equal to its argument |
| Vector.Vector2D.Assign | include/math/Vector2D.hpp:61-64 | after vector assignment the receiver holds the operand |
| Vector.Vector2D.AssignScalar | include/math/Vector2D.hpp:67-70 | after scalar assignment the receiver `==` the scalar |
| Vector.Vector2D.AddAssign | include/math/Vector2D.hpp:73-76 | `v += w` leaves `old(v) + w` |
| Vector.Vector2D.AddAssignScalar | include/math/Vector2D.hpp:79-82 | `v += s` leaves `old(v) + s` |
| Vector.Vector2D.SubAssign | include/math/Vector2D.hpp:85-88 | `v -= w` leaves `old(v) - w` |
| Vector.Vector2D.SubAssignScalar | include/math/Vector2D.hpp:91-94 | `v -= s` leaves `old(v) - s` |
| Vector.Vector2D.MulAssign | include/math/Vector2D.hpp:97-100 | `v *= w` leaves the component-wise product of `old(v)` and `w` |
| Vector.Vector2D.MulAssignScalar | include/math/Vector2D.hpp:103-106 | `v *= s` leaves `old(v) * s` |
| Vector.Vector2D.DivAssign | include/math/Vector2D.hpp:109-116 | `v /= w` leaves the guarded component-wise quotient; a zero divisor component zeroes that component only |
| Vector.Vector2D.DivAssignScalar | include/math/Vector2D.hpp:119-123 | `v /= s` leaves `old(v) / s`, which is the zero vector when `s` is 0 |
| Vector.Vector2D.SetInverted | include/math/Vector2D.hpp:188-191 | stores the inverted old value in the receiver and returns that same value |
| VectorLaws.AddLaws | include/math/Vector2D.hpp:37-39 | vector addition is commutative and associative with the zero vector as identity |
| VectorLaws.DivScalarByNonZero | include/math/Vector2D.hpp:47-56 | for `s != 0`, `(v * s) / s == v` and `v / s == v * (1 / s)` |
| VectorLaws.DivComponentsIndependent | include/math/Vector2D.hpp:109-116 | each component of `v /= w` depends only on the same component of `v` and `w` |
| VectorLaws.DivComponentsUndoesHadamard | include/math/Vector2D.hpp:97-116 | `/=` by `w` after `*=` by `w` restores every component where `w` is non-zero and leaves 0 where it is zero |
| VectorLaws.DivComponentsBySplat | include/math/Vector2D.hpp:109-123 | `/=` by the vector `(s, s)` agrees with `/=` by the scalar `s`, also for `s == 0` |
| VectorLaws.DivComponentsBySelf | include/math/Vector2D.hpp:109-116 | dividing a vector by a copy of itself leaves 1 in non-zero components and 0 in zero ones |
| VectorLaws.ComparisonLaws | include/math/Vector2D.hpp:128-145 | scalar `==` is `==` against the single-value vector; `==` is reflexive and `!=` irreflexive |
| VectorLaws.DotLaws | include/math/Vector2D.hpp:150-152 | dot is symmetric; a vector's dot with itself is positive unless the vector is zero |
| VectorLaws.InvertedInvolution | include/math/Vector2D.hpp:183-185 | `v.inverted().inverted() == v`; inverting is scaling by -1 and subtracting from zero |
| VectorLaws.PerpendicularTwiceIsInverted | include/math/Vector2D.hpp:178-185 | applying `perpendicular` twice equals `inverted` |
| VectorLaws.PerpendicularPreservesProducts | include/math/Vector2D.hpp:150-157 | `perpendicular` preserves dot and cross products of any two vectors |
| VectorLaws.PerpendicularIsClockwise | include/math/Vector2D.hpp:177-180 | `perpendicular` is the clockwise quarter turn; for a non-zero vector it differs from the counter-clockwise one and its cross product with the vector is negative |
| VectorLaws.CrossAntisymmetric | include/math/Vector2D.hpp:155-157 | `a.cross(b) == -b.cross(a)` and `v.cross(v) == 0` |
| VectorLaws.CrossZeroIffCollinear | include/math/Vector2D.hpp:155-157 | the cross product is zero exactly when one vector is zero or the other is a multiple of it |
| VectorLaws.DotZeroIffPerpendicularMultiple | include/math/Vector2D.hpp:150-152 | for a non-zero `a`, `a.dot(b) == 0` exactly when `b` is a multiple of `a.perpendicular()` |
| VectorLaws.DotCrossLagrange | include/math/Vector2D.hpp:150-157 | `dot(a,b)^2 + cross(a,b)^2 == dot(a,a) * dot(b,b)` |

## Left out

- `magnitude`, `normalized` and `setNormal` (include/math/Vector2D.hpp:160-175): they rest on `sqrt` and on the truthiness of a `float` (`!magnitude`), floating-point numerics with no exact real statement beyond the zero case.
- `operator<<` (include/math/Vector2D.hpp:194-196): stream output; it also lacks its `return os`, so it has no specifiable result.
- IEEE `float` behaviour (rounding, NaN, infinities, signed zero, overflow): components are `real`, so `-0.0f` is not a distinct value (for instance `inverted` of (0, 0) is (-0, -0) in the source and (0, 0) here) and NaN comparisons are not modelled.
- src/main.cpp: a window and event-polling loop with no logic; it is not part of this model.

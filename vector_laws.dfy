/** Identities that tie the operations of module Vector to each other and to
    their geometric meaning. */
module VectorLaws {
  import opened Vector

  /** Vector addition is commutative and associative, with Zero as identity. */
  lemma AddLaws(a: Vec2, b: Vec2, c: Vec2)
    ensures Add(a, b) == Add(b, a)
    ensures Add(Add(a, b), c) == Add(a, Add(b, c))
    ensures Add(a, Zero()) == a
  {
  }

  /** Scalar division by a non-zero scalar undoes scalar multiplication, and
      is multiplication by the reciprocal. */
  lemma DivScalarByNonZero(v: Vec2, s: real)
    requires s != 0.0
    ensures DivScalar(MulScalar(v, s), s) == v
    ensures DivScalar(v, s) == MulScalar(v, 1.0 / s)
  {
  }

  /** The guard of vector `/=` is per component: one component of the result
      depends only on the same component of the two operands. */
  lemma DivComponentsIndependent(v: Vec2, w: Vec2, v': Vec2, w': Vec2)
    ensures v.x == v'.x && w.x == w'.x ==> DivComponents(v, w).x == DivComponents(v', w').x
    ensures v.y == v'.y && w.y == w'.y ==> DivComponents(v, w).y == DivComponents(v', w').y
  {
  }

  /** Vector `/=` by `b` undoes vector `*=` by `b` in every component where
      `b` is non-zero, and leaves 0 where it is zero. */
  lemma DivComponentsUndoesHadamard(a: Vec2, b: Vec2)
    ensures DivComponents(Hadamard(a, b), b)
            == Vec2(if b.x == 0.0 then 0.0 else a.x, if b.y == 0.0 then 0.0 else a.y)
  {
  }

  /** Vector `/=` by (s, s) does what scalar `/=` by s does, including s == 0. */
  lemma DivComponentsBySplat(v: Vec2, s: real)
    ensures DivComponents(v, Splat(s)) == DivScalar(v, s)
  {
  }

  /** Dividing a vector by a copy of itself gives 1 in every non-zero
      component and 0 in every zero one. */
  lemma DivComponentsBySelf(v: Vec2)
    ensures DivComponents(v, v).x == (if v.x == 0.0 then 0.0 else 1.0)
    ensures DivComponents(v, v).y == (if v.y == 0.0 then 0.0 else 1.0)
  {
  }

  /** Scalar `==` is vector `==` against the single-value constructor, and
      vector `==` is reflexive (so `!=` is irreflexive). */
  lemma ComparisonLaws(a: Vec2, s: real)
    ensures EqualsScalar(a, s) == Equals(a, Splat(s))
    ensures Equals(a, a) && !NotEquals(a, a)
  {
  }

  /** The dot product is symmetric, and a vector's dot product with itself is
      non-negative, and positive unless the vector is zero. */
  lemma DotLaws(a: Vec2, b: Vec2)
    ensures Dot(a, b) == Dot(b, a)
    ensures Dot(a, a) >= 0.0
    ensures a != Zero() ==> Dot(a, a) > 0.0
  {
    if a != Zero() {
      calc {
        Dot(a, a);
      ==
        a.x * a.x + a.y * a.y;
      >
        0.0;
      }
    }
  }

  /** Inverting twice gives back the vector; inverting is negation. */
  lemma InvertedInvolution(v: Vec2)
    ensures Inverted(Inverted(v)) == v
    ensures Inverted(v) == MulScalar(v, -1.0)
    ensures Inverted(v) == Sub(Zero(), v)
  {
  }

  /** Applying perpendicular twice is the same as inverting. */
  lemma PerpendicularTwiceIsInverted(v: Vec2)
    ensures Perpendicular(Perpendicular(v)) == Inverted(v)
  {
  }

  /** Perpendicular is a rotation: it preserves dot and cross products. */
  lemma PerpendicularPreservesProducts(a: Vec2, b: Vec2)
    ensures Dot(Perpendicular(a), Perpendicular(b)) == Dot(a, b)
    ensures Cross(Perpendicular(a), Perpendicular(b)) == Cross(a, b)
  {
  }

  /** The rotation by +90 degrees (counter-clockwise), as the rotation matrix
      gives it. */
  function QuarterTurnCounterClockwise(v: Vec2): Vec2 {
    Vec2(-v.y, v.x)
  }

  /** Perpendicular returns the clockwise quarter turn, the opposite of the
      counter-clockwise one: the cross product of a non-zero vector with its
      perpendicular is negative. */
  lemma PerpendicularIsClockwise(v: Vec2)
    ensures Perpendicular(v) == Inverted(QuarterTurnCounterClockwise(v))
    ensures v != Zero() ==> Perpendicular(v) != QuarterTurnCounterClockwise(v)
    ensures v != Zero() ==> Cross(v, Perpendicular(v)) < 0.0
    ensures v != Zero() ==> Cross(v, QuarterTurnCounterClockwise(v)) > 0.0
  {
  }

  /** The cross product is antisymmetric, so a vector's cross product with
      itself is zero. */
  lemma CrossAntisymmetric(a: Vec2, b: Vec2)
    ensures Cross(a, b) == -Cross(b, a)
    ensures Cross(a, a) == 0.0
  {
  }

  /** The cross product is zero exactly when the two vectors lie on one line
      through the origin. */
  lemma CrossZeroIffCollinear(a: Vec2, b: Vec2)
    ensures Cross(a, b) == 0.0 <==> (a == Zero() || exists k :: b == MulScalar(a, k))
  {
    if Cross(a, b) == 0.0 && a != Zero() {
      var k := if a.x != 0.0 then b.x / a.x else b.y / a.y;
      assert b == MulScalar(a, k);
    }
  }

  /** A non-zero vector's dot product with another is zero exactly when the
      other is a multiple of its perpendicular. */
  lemma DotZeroIffPerpendicularMultiple(a: Vec2, b: Vec2)
    requires a != Zero()
    ensures Dot(a, b) == 0.0 <==> exists k :: b == MulScalar(Perpendicular(a), k)
  {
    if Dot(a, b) == 0.0 {
      var k := if a.x != 0.0 then -b.y / a.x else b.x / a.y;
      assert b == MulScalar(Perpendicular(a), k);
    }
  }

  /** Lagrange's identity in the plane: the squared dot and cross products add
      up to the product of the squared lengths. */
  lemma DotCrossLagrange(a: Vec2, b: Vec2)
    ensures Dot(a, b) * Dot(a, b) + Cross(a, b) * Cross(a, b) == Dot(a, a) * Dot(b, b)
  {
  }
}

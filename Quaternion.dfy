/** The quaternion algebra of the attitude engine: the Hamilton product, the
    inverse, the sandwich-product rotation, the squared norm, the change of
    basis and componentwise equality. A quaternion (r, x, y, z) either is a
    rotation operator or embeds the 3-vector (x, y, z) with r = 0. */
module QuaternionAlgebra {
  import opened LinearAlgebra
  import opened Trig
  import opened RealIdentities

  datatype Quaternion = Quaternion(r: real, x: real, y: real, z: real) {
    /** The vector part (x, y, z). */
    function Vector(): Vec3 {
      Vec3(x, y, z)
    }
  }

  const One: Quaternion := Quaternion(1.0, 0.0, 0.0, 0.0)
  const ZeroQ: Quaternion := Quaternion(0.0, 0.0, 0.0, 0.0)

  /** The 3-vector v embedded with a zero real part. */
  function Pure(v: Vec3): Quaternion {
    Quaternion(0.0, v.x, v.y, v.z)
  }

  predicate IsPure(q: Quaternion) {
    q.r == 0.0
  }

  function ScaleQ(k: real, q: Quaternion): Quaternion {
    Quaternion(k * q.r, k * q.x, k * q.y, k * q.z)
  }

  function Conjugate(q: Quaternion): Quaternion {
    Quaternion(q.r, -q.x, -q.y, -q.z)
  }

  /** norm() without the square root: r² + x² + y² + z². */
  function NormSquared(q: Quaternion): real {
    q.r * q.r + q.x * q.x + q.y * q.y + q.z * q.z
  }

  /** qMultiply: the Hamilton product of (r0, x0, y0, z0) and
      (r1, x1, y1, z1), taken component by component. */
  function QMultiply(r0: real, x0: real, y0: real, z0: real, r1: real, x1: real, y1: real, z1: real): Quaternion {
    Quaternion(r0 * r1 - x0 * x1 - y0 * y1 - z0 * z1,
               r0 * x1 + x0 * r1 + y0 * z1 - z0 * y1,
               r0 * y1 - x0 * z1 + y0 * r1 + z0 * x1,
               r0 * z1 + x0 * y1 - y0 * x1 + z0 * r1)
  }

  /** The product a b, with the components passed as rotate() passes them. */
  function Multiply(a: Quaternion, b: Quaternion): Quaternion {
    QMultiply(a.r, a.x, a.y, a.z, b.r, b.x, b.y, b.z)
  }

  /** qInverse: each component divided by the squared norm, the vector part
      negated. It is defined when the squared norm is nonzero and is then a
      two-sided inverse for the Hamilton product. */
  function Inverse(q: Quaternion): (inv: Quaternion)
    requires NormSquared(q) != 0.0
    ensures Multiply(q, inv) == One && Multiply(inv, q) == One
  {
    var n := NormSquared(q);
    var inv := Quaternion(q.r / n, -q.x / n, -q.y / n, -q.z / n);
    InverseIsScaledConjugate(q);
    ConjugateProducts(q);
    MultiplyScaleRight(1.0 / n, q, Conjugate(q));
    MultiplyScaleLeft(1.0 / n, Conjugate(q), q);
    ReciprocalCancels(n);
    inv
  }

  /** The rotation operator of rotate(): (cos(θ/2), axis.x sin(θ/2),
      axis.y sin(θ/2), axis.z sin(θ/2)). The axis is used as given, without
      normalisation, and its real part is ignored. */
  function Operator(axis: Quaternion, angle: real, t: Trig): Quaternion {
    var c, s := t.cos(angle / 2.0), t.sin(angle / 2.0);
    Quaternion(c, axis.x * s, axis.y * s, axis.z * s)
  }

  /** rotate() divides by the squared norm of its operator. */
  ghost predicate RotationDefined(axis: Quaternion, angle: real, t: Trig) {
    NormSquared(Operator(axis, angle, t)) != 0.0
  }

  /** rotate(): the sandwich product q v q⁻¹ with the operator q. */
  function Rotate(v: Quaternion, axis: Quaternion, angle: real, t: Trig): Quaternion
    requires RotationDefined(axis, angle, t)
  {
    var q := Operator(axis, angle, t);
    var intermediate := Multiply(q, v);
    var inverse := Inverse(q);
    Multiply(intermediate, inverse)
  }

  /** An axis whose vector part has unit length. */
  predicate UnitAxis(axis: Quaternion) {
    Dot(axis.Vector(), axis.Vector()) == 1.0
  }

  /** coordinateTransform: the vector part of q expressed in the basis whose
      vectors are the vector parts of the three axes. */
  function CoordinateTransform(q: Quaternion, xAxis: Quaternion, yAxis: Quaternion, zAxis: Quaternion): (t: Quaternion)
    ensures IsPure(t)
  {
    var output := MatVec(Columns(xAxis.Vector(), yAxis.Vector(), zAxis.Vector()), q.Vector());
    Quaternion(0.0, output.x, output.y, output.z)
  }

  /** equals: all four components agree. */
  predicate Equals(a: Quaternion, b: Quaternion)
    ensures Equals(a, b) <==> a == b
  {
    a.r == b.r && a.x == b.x && a.y == b.y && a.z == b.z
  }

  // ---------------------------------------------------------------------------
  // Laws of the product

  /** The squared norm is never negative and vanishes only at zero. */
  lemma NormSquaredSign(q: Quaternion)
    ensures NormSquared(q) >= 0.0
    ensures NormSquared(q) == 0.0 <==> q == ZeroQ
  {
    SquareNonNegative(q.r);
    SquareNonNegative(q.x);
    SquareNonNegative(q.y);
    SquareNonNegative(q.z);
    if NormSquared(q) == 0.0 {
      SumOfNonNegativesZero(q.r * q.r, q.x * q.x, q.y * q.y, q.z * q.z);
      SquareZero(q.r);
      SquareZero(q.x);
      SquareZero(q.y);
      SquareZero(q.z);
    }
  }

  lemma MultiplyScaleRight(k: real, a: Quaternion, b: Quaternion)
    ensures Multiply(a, ScaleQ(k, b)) == ScaleQ(k, Multiply(a, b))
  {
    var c := ScaleQ(k, b);
    var p, s := Multiply(a, c), Multiply(a, b);
    ScaleRightComponents(k, a.r, a.x, a.y, a.z, b.r, b.x, b.y, b.z, c.r, c.x, c.y, c.z, p.r, p.x, p.y, p.z, s.r, s.x, s.y, s.z);
  }

  lemma MultiplyScaleLeft(k: real, a: Quaternion, b: Quaternion)
    ensures Multiply(ScaleQ(k, a), b) == ScaleQ(k, Multiply(a, b))
  {
    var c := ScaleQ(k, a);
    var p, s := Multiply(c, b), Multiply(a, b);
    ScaleLeftComponents(k, a.r, a.x, a.y, a.z, b.r, b.x, b.y, b.z, c.r, c.x, c.y, c.z, p.r, p.x, p.y, p.z, s.r, s.x, s.y, s.z);
  }

  /** q q* = q* q = |q|², a real quaternion. */
  lemma ConjugateProducts(q: Quaternion)
    ensures Multiply(q, Conjugate(q)) == Quaternion(NormSquared(q), 0.0, 0.0, 0.0)
    ensures Multiply(Conjugate(q), q) == Quaternion(NormSquared(q), 0.0, 0.0, 0.0)
  {
    var c := Conjugate(q);
    var p, s := Multiply(q, c), Multiply(c, q);
    ConjugateProductComponents(q.r, q.x, q.y, q.z, c.r, c.x, c.y, c.z, p.r, p.x, p.y, p.z, s.r, s.x, s.y, s.z, NormSquared(q));
  }

  lemma InverseIsScaledConjugate(q: Quaternion)
    requires NormSquared(q) != 0.0
    ensures Quaternion(q.r / NormSquared(q), -q.x / NormSquared(q), -q.y / NormSquared(q), -q.z / NormSquared(q))
         == ScaleQ(1.0 / NormSquared(q), Conjugate(q))
  {
    var n := NormSquared(q);
    DivisionIsScaling(q.r, n);
    DivisionIsScaling(-q.x, n);
    DivisionIsScaling(-q.y, n);
    DivisionIsScaling(-q.z, n);
  }

  /** (1, 0, 0, 0) is the unit of the product. */
  lemma MultiplyOne(q: Quaternion)
    ensures Multiply(One, q) == q && Multiply(q, One) == q
  {
    var e := One;
    var p, s := Multiply(e, q), Multiply(q, e);
    UnitProductComponents(e.r, e.x, e.y, e.z, q.r, q.x, q.y, q.z, p.r, p.x, p.y, p.z, s.r, s.x, s.y, s.z);
  }

  /** A real quaternion (n, 0, 0, 0) multiplies as the scalar n. */
  lemma MultiplyReal(n: real, q: Quaternion)
    ensures Multiply(Quaternion(n, 0.0, 0.0, 0.0), q) == ScaleQ(n, q)
    ensures Multiply(q, Quaternion(n, 0.0, 0.0, 0.0)) == ScaleQ(n, q)
  {
    var e := Quaternion(n, 0.0, 0.0, 0.0);
    var p, s := Multiply(e, q), Multiply(q, e);
    RealFactorComponents(n, e.r, e.x, e.y, e.z, q.r, q.x, q.y, q.z, p.r, p.x, p.y, p.z, s.r, s.x, s.y, s.z);
  }

  lemma MultiplyAssociative(a: Quaternion, b: Quaternion, c: Quaternion)
    ensures Multiply(Multiply(a, b), c) == Multiply(a, Multiply(b, c))
  {
    var p := Multiply(a, b);
    var q := Multiply(p, c);
    var s := Multiply(b, c);
    var t := Multiply(a, s);
    AssociativityComponents(a.r, a.x, a.y, a.z, b.r, b.x, b.y, b.z, c.r, c.x, c.y, c.z,
                            p.r, p.x, p.y, p.z, q.r, q.x, q.y, q.z, s.r, s.x, s.y, s.z, t.r, t.x, t.y, t.z);
  }

  /** The product of two pure quaternions carries minus the dot product in
      its real part and the cross product in its vector part. */
  lemma MultiplyPure(u: Vec3, v: Vec3)
    ensures Multiply(Pure(u), Pure(v)).r == -Dot(u, v)
    ensures Multiply(Pure(u), Pure(v)).Vector() == Cross(u, v)
  {
    var a, b := Pure(u), Pure(v);
    var p := Multiply(a, b);
    PureProductComponents(a.r, a.x, a.y, a.z, b.r, b.x, b.y, b.z, p.r, p.x, p.y, p.z);
  }

  /** The conjugate of a product is the product of the conjugates, reversed. */
  lemma ConjugateOfProduct(a: Quaternion, b: Quaternion)
    ensures Conjugate(Multiply(a, b)) == Multiply(Conjugate(b), Conjugate(a))
  {
    var p := Multiply(a, b);
    var d, e := Conjugate(b), Conjugate(a);
    var s := Multiply(d, e);
    ConjugateReverseComponents(a.r, a.x, a.y, a.z, b.r, b.x, b.y, b.z, p.r, p.x, p.y, p.z, d.r, d.x, d.y, d.z, e.r, e.x, e.y, e.z, s.r, s.x, s.y, s.z);
  }

  /** |a b|² = |a|² |b|², by |a b|² = a b b* a* = a |b|² a* = |a|² |b|². */
  lemma NormSquaredMultiplicative(a: Quaternion, b: Quaternion)
    ensures NormSquared(Multiply(a, b)) == NormSquared(a) * NormSquared(b)
  {
    var p := Multiply(a, b);
    var ca, cb := Conjugate(a), Conjugate(b);
    var na, nb := NormSquared(a), NormSquared(b);
    ConjugateProducts(p);
    ConjugateOfProduct(a, b);
    MultiplyAssociative(a, b, Multiply(cb, ca));
    MultiplyAssociative(b, cb, ca);
    ConjugateProducts(b);
    MultiplyReal(nb, ca);
    MultiplyScaleRight(nb, a, ca);
    ConjugateProducts(a);
    assert Quaternion(NormSquared(p), 0.0, 0.0, 0.0) == ScaleQ(nb, Quaternion(na, 0.0, 0.0, 0.0));
  }

  lemma NormSquaredScale(k: real, q: Quaternion)
    ensures NormSquared(ScaleQ(k, q)) == (k * k) * NormSquared(q)
  {
    var c := ScaleQ(k, q);
    ScaledNormIdentity(k, q.r, q.x, q.y, q.z, c.r, c.x, c.y, c.z, NormSquared(q), NormSquared(c));
  }

  lemma NormSquaredConjugate(q: Quaternion)
    ensures NormSquared(Conjugate(q)) == NormSquared(q)
  {
    var c := Conjugate(q);
    ConjugateNormIdentity(q.r, q.x, q.y, q.z, c.r, c.x, c.y, c.z, NormSquared(q), NormSquared(c));
  }

  // ---------------------------------------------------------------------------
  // Laws of rotate()

  /** The sandwich q w q⁻¹ keeps the real part of w. */
  lemma SandwichRealPart(q: Quaternion, w: Quaternion)
    requires NormSquared(q) != 0.0
    ensures Multiply(Multiply(q, w), Inverse(q)).r == w.r
  {
    var n := NormSquared(q);
    var k := 1.0 / n;
    var i, c := Multiply(q, w), Conjugate(q);
    var x := Multiply(i, c);
    InverseIsScaledConjugate(q);
    MultiplyScaleRight(k, i, c);
    SandwichRealPartComponents(q.r, q.x, q.y, q.z, w.r, w.x, w.y, w.z, i.r, i.x, i.y, i.z,
                               c.r, c.x, c.y, c.z, x.r, x.x, x.y, x.z, n);
    ReciprocalCancels(n);
    ReciprocalScaleIdentity(k, n, w.r, x.r, Multiply(i, Inverse(q)).r);
  }

  /** A pure quaternion stays pure under rotate(). */
  lemma RotatePure(v: Quaternion, axis: Quaternion, angle: real, t: Trig)
    requires RotationDefined(axis, angle, t)
    requires IsPure(v)
    ensures IsPure(Rotate(v, axis, angle, t))
  {
    SandwichRealPart(Operator(axis, angle, t), v);
  }

  /** The squared norm of the inverse is the reciprocal of the squared norm. */
  lemma InverseNormSquared(q: Quaternion)
    requires NormSquared(q) != 0.0
    ensures NormSquared(Inverse(q)) * NormSquared(q) == 1.0
  {
    var n := NormSquared(q);
    var k := 1.0 / n;
    var c := Conjugate(q);
    InverseIsScaledConjugate(q);
    NormSquaredScale(k, c);
    NormSquaredConjugate(q);
    ReciprocalCancels(n);
    InverseNormIdentity(NormSquared(Inverse(q)), k, n);
  }

  /** rotate() preserves the squared norm. */
  lemma RotatePreservesNormSquared(v: Quaternion, axis: Quaternion, angle: real, t: Trig)
    requires RotationDefined(axis, angle, t)
    ensures NormSquared(Rotate(v, axis, angle, t)) == NormSquared(v)
  {
    var q := Operator(axis, angle, t);
    var i, inv := Multiply(q, v), Inverse(q);
    NormSquaredMultiplicative(i, inv);
    NormSquaredMultiplicative(q, v);
    InverseNormSquared(q);
    SandwichNormIdentity(NormSquared(Multiply(i, inv)), NormSquared(i), NormSquared(inv), NormSquared(q), NormSquared(v));
  }

  /** rotate() preserves the dot product of pure quaternions. */
  lemma RotatePreservesDot(u: Vec3, v: Vec3, axis: Quaternion, angle: real, t: Trig)
    requires RotationDefined(axis, angle, t)
    ensures Dot(Rotate(Pure(u), axis, angle, t).Vector(), Rotate(Pure(v), axis, angle, t).Vector()) == Dot(u, v)
  {
    var q := Operator(axis, angle, t);
    var inv := Inverse(q);
    var ru, rv := Rotate(Pure(u), axis, angle, t), Rotate(Pure(v), axis, angle, t);
    var qu, qv := Multiply(q, Pure(u)), Multiply(q, Pure(v));
    RotatePure(Pure(u), axis, angle, t);
    RotatePure(Pure(v), axis, angle, t);
    assert ru == Pure(ru.Vector()) && rv == Pure(rv.Vector());
    MultiplyPure(ru.Vector(), rv.Vector());
    MultiplyPure(u, v);
    // ru rv = q u q⁻¹ q v q⁻¹ = q (u v) q⁻¹
    MultiplyAssociative(qu, inv, rv);
    MultiplyAssociative(inv, qv, inv);
    MultiplyAssociative(inv, q, Pure(v));
    MultiplyOne(Pure(v));
    MultiplyAssociative(qu, Pure(v), inv);
    MultiplyAssociative(q, Pure(u), Pure(v));
    SandwichRealPart(q, Multiply(Pure(u), Pure(v)));
  }

  /** With angle 0 the operator is (1, 0, 0, 0). */
  lemma OperatorZeroAngle(axis: Quaternion, t: Trig)
    requires Laws(t)
    ensures Operator(axis, 0.0, t) == One
    ensures RotationDefined(axis, 0.0, t)
  {
    assert 0.0 / 2.0 == 0.0;
    ZeroFactor(axis.x, t.sin(0.0));
    ZeroFactor(axis.y, t.sin(0.0));
    ZeroFactor(axis.z, t.sin(0.0));
    InverseOne();
    assert NormSquared(Operator(axis, 0.0, t)) == NormSquared(One);
  }

  lemma InverseOne()
    ensures NormSquared(One) == 1.0 && Inverse(One) == One
  {
  }

  /** With angle 0 rotate() returns its input. */
  lemma RotateZeroAngle(v: Quaternion, axis: Quaternion, t: Trig)
    requires Laws(t)
    ensures RotationDefined(axis, 0.0, t) && Rotate(v, axis, 0.0, t) == v
  {
    var q := Operator(axis, 0.0, t);
    OperatorZeroAngle(axis, t);
    InverseOne();
    MultiplyOne(v);
  }

  /** The operator commutes with every quaternion whose vector part is
      parallel to the axis, so rotate() leaves such a quaternion unchanged. */
  lemma RotateCommuting(v: Quaternion, axis: Quaternion, angle: real, t: Trig)
    requires RotationDefined(axis, angle, t)
    requires Cross(axis.Vector(), v.Vector()) == Zero
    ensures Rotate(v, axis, angle, t) == v
  {
    var q := Operator(axis, angle, t);
    var p, u := Multiply(q, v), Multiply(v, q);
    CommutingComponents(axis.r, axis.x, axis.y, axis.z, angle, t, v.r, v.x, v.y, v.z,
                        q.r, q.x, q.y, q.z, p.r, p.x, p.y, p.z, u.r, u.x, u.y, u.z);
    MultiplyAssociative(v, q, Inverse(q));
    MultiplyOne(v);
  }

  /** A unit axis turns into a unit operator under the trigonometric laws. */
  lemma OperatorUnit(axis: Quaternion, angle: real, t: Trig)
    requires Laws(t) && UnitAxis(axis)
    ensures NormSquared(Operator(axis, angle, t)) == 1.0
    ensures RotationDefined(axis, angle, t)
  {
    var o := Operator(axis, angle, t);
    var a := Pure(axis.Vector());
    var c, s := t.cos(angle / 2.0), t.sin(angle / 2.0);
    OperatorNormIdentity(c, s, a.r, a.x, a.y, a.z, o.r, o.x, o.y, o.z, NormSquared(a), NormSquared(o));
    UnitOperatorIdentity(c, s, NormSquared(a), NormSquared(o));
  }

  /** The inverse of a unit quaternion is its conjugate. */
  lemma UnitInverse(q: Quaternion)
    requires NormSquared(q) == 1.0
    ensures Inverse(q) == Conjugate(q)
  {
    var n := NormSquared(q);
    DivisionByOne(q.r, n);
    DivisionByOne(-q.x, n);
    DivisionByOne(-q.y, n);
    DivisionByOne(-q.z, n);
  }

  /** For a unit axis and trigonometric functions of the right parity,
      rotating by -θ undoes rotating by θ. */
  lemma RotateRoundTrip(v: Quaternion, axis: Quaternion, angle: real, t: Trig)
    requires Laws(t) && Parity(t) && UnitAxis(axis)
    ensures RotationDefined(axis, angle, t) && RotationDefined(axis, -angle, t)
    ensures Rotate(Rotate(v, axis, angle, t), axis, -angle, t) == v
  {
    var q := Operator(axis, angle, t);
    OperatorUnit(axis, angle, t);
    OperatorUnit(axis, -angle, t);
    var c := Conjugate(q);
    var h := angle / 2.0;
    assert -angle / 2.0 == -h;
    var s, s' := t.sin(h), t.sin(-h);
    NegatedFactor(axis.x, s, s');
    NegatedFactor(axis.y, s, s');
    NegatedFactor(axis.z, s, s');
    assert Operator(axis, -angle, t) == c;
    UnitInverse(q);
    NormSquaredConjugate(q);
    UnitInverse(c);
    assert Inverse(c) == q;
    ConjugateProducts(q);
    var w := Multiply(q, v);
    // c ((q v) c) q = ((c q) v) (c q) = v
    MultiplyAssociative(c, w, c);
    MultiplyAssociative(c, q, v);
    MultiplyOne(v);
    MultiplyAssociative(v, c, q);
  }

  // ---------------------------------------------------------------------------
  // Laws of coordinateTransform

  /** The result is x xAxis + y yAxis + z zAxis. */
  lemma CoordinateTransformCombination(q: Quaternion, xAxis: Quaternion, yAxis: Quaternion, zAxis: Quaternion)
    ensures CoordinateTransform(q, xAxis, yAxis, zAxis).Vector()
         == Add(Add(Scale(q.x, xAxis.Vector()), Scale(q.y, yAxis.Vector())), Scale(q.z, zAxis.Vector()))
  {
    MatVecColumns(Columns(xAxis.Vector(), yAxis.Vector(), zAxis.Vector()), q.Vector());
  }

  /** The standard axes give the identity change of basis. */
  lemma CoordinateTransformStandardBasis(q: Quaternion)
    ensures CoordinateTransform(q, Pure(Vec3(1.0, 0.0, 0.0)), Pure(Vec3(0.0, 1.0, 0.0)), Pure(Vec3(0.0, 0.0, 1.0)))
         == Pure(q.Vector())
  {
    var t := CoordinateTransform(q, Pure(Vec3(1.0, 0.0, 0.0)), Pure(Vec3(0.0, 1.0, 0.0)), Pure(Vec3(0.0, 0.0, 1.0)));
    MatVecIdentity(q.Vector());
    assert t.Vector() == MatVec(Identity, q.Vector());
  }

  // ---------------------------------------------------------------------------
  // The real identities restated on quaternion components, so that the laws
  // above can pass the components of the quaternions they are about

  lemma ScaleRightComponents(k: real, a0: real, a1: real, a2: real, a3: real, b0: real, b1: real, b2: real, b3: real, c0: real, c1: real, c2: real, c3: real, p0: real, p1: real, p2: real, p3: real, s0: real, s1: real, s2: real, s3: real)
    requires Quaternion(c0, c1, c2, c3) == ScaleQ(k, Quaternion(b0, b1, b2, b3))
    requires Quaternion(p0, p1, p2, p3) == QMultiply(a0, a1, a2, a3, c0, c1, c2, c3)
    requires Quaternion(s0, s1, s2, s3) == QMultiply(a0, a1, a2, a3, b0, b1, b2, b3)
    ensures p0 == k * s0 && p1 == k * s1 && p2 == k * s2 && p3 == k * s3
  {
    ScaleRightIdentity(k, a0, a1, a2, a3, b0, b1, b2, b3, c0, c1, c2, c3, p0, p1, p2, p3, s0, s1, s2, s3);
  }

  lemma ScaleLeftComponents(k: real, a0: real, a1: real, a2: real, a3: real, b0: real, b1: real, b2: real, b3: real, c0: real, c1: real, c2: real, c3: real, p0: real, p1: real, p2: real, p3: real, s0: real, s1: real, s2: real, s3: real)
    requires Quaternion(c0, c1, c2, c3) == ScaleQ(k, Quaternion(a0, a1, a2, a3))
    requires Quaternion(p0, p1, p2, p3) == QMultiply(c0, c1, c2, c3, b0, b1, b2, b3)
    requires Quaternion(s0, s1, s2, s3) == QMultiply(a0, a1, a2, a3, b0, b1, b2, b3)
    ensures p0 == k * s0 && p1 == k * s1 && p2 == k * s2 && p3 == k * s3
  {
    ScaleLeftIdentity(k, a0, a1, a2, a3, b0, b1, b2, b3, c0, c1, c2, c3, p0, p1, p2, p3, s0, s1, s2, s3);
  }

  lemma ConjugateProductComponents(q0: real, q1: real, q2: real, q3: real, c0: real, c1: real, c2: real, c3: real, p0: real, p1: real, p2: real, p3: real, s0: real, s1: real, s2: real, s3: real, n: real)
    requires Quaternion(c0, c1, c2, c3) == Conjugate(Quaternion(q0, q1, q2, q3))
    requires n == NormSquared(Quaternion(q0, q1, q2, q3))
    requires Quaternion(p0, p1, p2, p3) == QMultiply(q0, q1, q2, q3, c0, c1, c2, c3)
    requires Quaternion(s0, s1, s2, s3) == QMultiply(c0, c1, c2, c3, q0, q1, q2, q3)
    ensures p0 == n && p1 == 0.0 && p2 == 0.0 && p3 == 0.0
    ensures s0 == n && s1 == 0.0 && s2 == 0.0 && s3 == 0.0
  {
    ConjugateProductIdentity(q0, q1, q2, q3, c0, c1, c2, c3, p0, p1, p2, p3, s0, s1, s2, s3, n);
  }

  lemma UnitProductComponents(e0: real, e1: real, e2: real, e3: real, b0: real, b1: real, b2: real, b3: real, p0: real, p1: real, p2: real, p3: real, s0: real, s1: real, s2: real, s3: real)
    requires Quaternion(e0, e1, e2, e3) == One
    requires Quaternion(p0, p1, p2, p3) == QMultiply(e0, e1, e2, e3, b0, b1, b2, b3)
    requires Quaternion(s0, s1, s2, s3) == QMultiply(b0, b1, b2, b3, e0, e1, e2, e3)
    ensures p0 == b0 && p1 == b1 && p2 == b2 && p3 == b3
    ensures s0 == b0 && s1 == b1 && s2 == b2 && s3 == b3
  {
    UnitProductIdentity(e0, e1, e2, e3, b0, b1, b2, b3, p0, p1, p2, p3, s0, s1, s2, s3);
  }

  lemma RealFactorComponents(n: real, e0: real, e1: real, e2: real, e3: real, c0: real, c1: real, c2: real, c3: real, p0: real, p1: real, p2: real, p3: real, s0: real, s1: real, s2: real, s3: real)
    requires Quaternion(e0, e1, e2, e3) == Quaternion(n, 0.0, 0.0, 0.0)
    requires Quaternion(p0, p1, p2, p3) == QMultiply(e0, e1, e2, e3, c0, c1, c2, c3)
    requires Quaternion(s0, s1, s2, s3) == QMultiply(c0, c1, c2, c3, e0, e1, e2, e3)
    ensures p0 == n * c0 && p1 == n * c1 && p2 == n * c2 && p3 == n * c3
    ensures s0 == n * c0 && s1 == n * c1 && s2 == n * c2 && s3 == n * c3
  {
    RealFactorIdentity(n, e0, e1, e2, e3, c0, c1, c2, c3, p0, p1, p2, p3, s0, s1, s2, s3);
  }

  lemma AssociativityComponents(a0: real, a1: real, a2: real, a3: real, b0: real, b1: real, b2: real, b3: real, c0: real, c1: real, c2: real, c3: real,
                                p0: real, p1: real, p2: real, p3: real, q0: real, q1: real, q2: real, q3: real, s0: real, s1: real, s2: real, s3: real, t0: real, t1: real, t2: real, t3: real)
    requires Quaternion(p0, p1, p2, p3) == QMultiply(a0, a1, a2, a3, b0, b1, b2, b3)
    requires Quaternion(q0, q1, q2, q3) == QMultiply(p0, p1, p2, p3, c0, c1, c2, c3)
    requires Quaternion(s0, s1, s2, s3) == QMultiply(b0, b1, b2, b3, c0, c1, c2, c3)
    requires Quaternion(t0, t1, t2, t3) == QMultiply(a0, a1, a2, a3, s0, s1, s2, s3)
    ensures q0 == t0 && q1 == t1 && q2 == t2 && q3 == t3
  {
    AssociativityIdentity(a0, a1, a2, a3, b0, b1, b2, b3, c0, c1, c2, c3, p0, p1, p2, p3, q0, q1, q2, q3, s0, s1, s2, s3, t0, t1, t2, t3);
  }

  lemma PureProductComponents(a0: real, a1: real, a2: real, a3: real, b0: real, b1: real, b2: real, b3: real, p0: real, p1: real, p2: real, p3: real)
    requires a0 == 0.0 && b0 == 0.0
    requires Quaternion(p0, p1, p2, p3) == QMultiply(a0, a1, a2, a3, b0, b1, b2, b3)
    ensures p0 == -(a1 * b1 + a2 * b2 + a3 * b3)
    ensures p1 == a2 * b3 - a3 * b2 && p2 == a3 * b1 - a1 * b3 && p3 == a1 * b2 - a2 * b1
  {
    PureProductIdentity(a0, a1, a2, a3, b0, b1, b2, b3, p0, p1, p2, p3);
  }

  lemma ConjugateReverseComponents(a0: real, a1: real, a2: real, a3: real, b0: real, b1: real, b2: real, b3: real, p0: real, p1: real, p2: real, p3: real, d0: real, d1: real, d2: real, d3: real, e0: real, e1: real, e2: real, e3: real, s0: real, s1: real, s2: real, s3: real)
    requires Quaternion(p0, p1, p2, p3) == QMultiply(a0, a1, a2, a3, b0, b1, b2, b3)
    requires Quaternion(d0, d1, d2, d3) == Conjugate(Quaternion(b0, b1, b2, b3))
    requires Quaternion(e0, e1, e2, e3) == Conjugate(Quaternion(a0, a1, a2, a3))
    requires Quaternion(s0, s1, s2, s3) == QMultiply(d0, d1, d2, d3, e0, e1, e2, e3)
    ensures s0 == p0 && s1 == -p1 && s2 == -p2 && s3 == -p3
  {
    ConjugateReverseIdentity(a0, a1, a2, a3, b0, b1, b2, b3, p0, p1, p2, p3, d0, d1, d2, d3, e0, e1, e2, e3, s0, s1, s2, s3);
  }

  lemma SandwichRealPartComponents(q0: real, q1: real, q2: real, q3: real, v0: real, v1: real, v2: real, v3: real,
                                   i0: real, i1: real, i2: real, i3: real, c0: real, c1: real, c2: real, c3: real,
                                   x0: real, x1: real, x2: real, x3: real, n: real)
    requires Quaternion(i0, i1, i2, i3) == QMultiply(q0, q1, q2, q3, v0, v1, v2, v3)
    requires Quaternion(c0, c1, c2, c3) == Conjugate(Quaternion(q0, q1, q2, q3))
    requires Quaternion(x0, x1, x2, x3) == QMultiply(i0, i1, i2, i3, c0, c1, c2, c3)
    requires n == NormSquared(Quaternion(q0, q1, q2, q3))
    ensures x0 == n * v0
  {
    SandwichRealPartIdentity(q0, q1, q2, q3, v0, v1, v2, v3, i0, i1, i2, i3, c0, c1, c2, c3, x0, n);
  }

  lemma CommutingComponents(a0: real, a1: real, a2: real, a3: real, angle: real, t: Trig,
                            v0: real, v1: real, v2: real, v3: real, q0: real, q1: real, q2: real, q3: real,
                            p0: real, p1: real, p2: real, p3: real, u0: real, u1: real, u2: real, u3: real)
    requires Cross(Vec3(a1, a2, a3), Vec3(v1, v2, v3)) == Zero
    requires Quaternion(q0, q1, q2, q3) == Operator(Quaternion(a0, a1, a2, a3), angle, t)
    requires Quaternion(p0, p1, p2, p3) == QMultiply(q0, q1, q2, q3, v0, v1, v2, v3)
    requires Quaternion(u0, u1, u2, u3) == QMultiply(v0, v1, v2, v3, q0, q1, q2, q3)
    ensures p0 == u0 && p1 == u1 && p2 == u2 && p3 == u3
  {
    var s := t.sin(angle / 2.0);
    var x := Cross(Vec3(a1, a2, a3), Vec3(v1, v2, v3));
    CommutatorIdentity(q0, s, a1, a2, a3, v0, v1, v2, v3, q0, q1, q2, q3, p0, p1, p2, p3, u0, u1, u2, u3,
                       x.x, x.y, x.z);
    ZeroFactor(s, x.x);
    ZeroFactor(s, x.y);
    ZeroFactor(s, x.z);
  }
}

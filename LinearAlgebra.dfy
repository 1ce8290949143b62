/** Three-vector helpers of the attitude engine: dot product, cross product and
    a 3x3 matrix-vector product whose matrix is given as three columns. */
module LinearAlgebra {
  import opened RealIdentities

  /** A three-element list of doubles, modelled over the reals. */
  datatype Vec3 = Vec3(x: real, y: real, z: real)

  /** A 3x3 matrix given as a list of three lists; list k is column k. */
  datatype Mat3 = Columns(c0: Vec3, c1: Vec3, c2: Vec3)

  const Zero: Vec3 := Vec3(0.0, 0.0, 0.0)

  function Add(u: Vec3, v: Vec3): Vec3 {
    Vec3(u.x + v.x, u.y + v.y, u.z + v.z)
  }

  function Sub(u: Vec3, v: Vec3): Vec3 {
    Vec3(u.x - v.x, u.y - v.y, u.z - v.z)
  }

  function Scale(k: real, u: Vec3): Vec3 {
    Vec3(k * u.x, k * u.y, k * u.z)
  }

  function Neg(u: Vec3): Vec3 {
    Vec3(-u.x, -u.y, -u.z)
  }

  /** dotProduct3x3 */
  function Dot(u: Vec3, v: Vec3): real {
    u.x * v.x + u.y * v.y + u.z * v.z
  }

  /** crossProduct3x3 */
  function Cross(u: Vec3, v: Vec3): Vec3 {
    Vec3(u.y * v.z - u.z * v.y,
         u.z * v.x - u.x * v.z,
         u.x * v.y - u.y * v.x)
  }

  /** matrixVectorMult3x3: matrixA.get(k) is column k, so the product is the
      combination of the columns weighted by the vector's coordinates. */
  function MatVec(m: Mat3, v: Vec3): Vec3 {
    var a11, a12, a13 := m.c0.x, m.c1.x, m.c2.x;
    var a21, a22, a23 := m.c0.y, m.c1.y, m.c2.y;
    var a31, a32, a33 := m.c0.z, m.c1.z, m.c2.z;
    Vec3(v.x * a11 + v.y * a12 + v.z * a13,
         v.x * a21 + v.y * a22 + v.z * a23,
         v.x * a31 + v.y * a32 + v.z * a33)
  }

  const Identity: Mat3 := Columns(Vec3(1.0, 0.0, 0.0), Vec3(0.0, 1.0, 0.0), Vec3(0.0, 0.0, 1.0))

  lemma DotSymmetric(u: Vec3, v: Vec3)
    ensures Dot(u, v) == Dot(v, u)
  {
  }

  /** The cross product is orthogonal to both of its arguments. */
  lemma CrossOrthogonal(u: Vec3, v: Vec3)
    ensures Dot(u, Cross(u, v)) == 0.0 && Dot(v, Cross(u, v)) == 0.0
  {
  }

  lemma CrossAntiCommutative(u: Vec3, v: Vec3)
    ensures Cross(u, v) == Neg(Cross(v, u))
  {
  }

  lemma CrossSelfIsZero(u: Vec3)
    ensures Cross(u, u) == Zero
  {
  }

  lemma CrossOfScaled(k: real, u: Vec3, v: Vec3)
    ensures Cross(Scale(k, u), v) == Scale(k, Cross(u, v))
  {
    var w := Scale(k, u);
    var c, d := Cross(w, v), Cross(u, v);
    CrossScaleComponents(k, u.x, u.y, u.z, v.x, v.y, v.z, w.x, w.y, w.z, c.x, c.y, c.z, d.x, d.y, d.z);
  }

  /** The product is linear in its vector argument. */
  lemma MatVecLinear(m: Mat3, a: real, u: Vec3, b: real, v: Vec3)
    ensures MatVec(m, Add(Scale(a, u), Scale(b, v))) == Add(Scale(a, MatVec(m, u)), Scale(b, MatVec(m, v)))
  {
    var w := Add(Scale(a, u), Scale(b, v));
    var o, ou, ov := MatVec(m, w), MatVec(m, u), MatVec(m, v);
    MatVecLinearComponents(a, b, m.c0.x, m.c0.y, m.c0.z, m.c1.x, m.c1.y, m.c1.z, m.c2.x, m.c2.y, m.c2.z,
                           u.x, u.y, u.z, v.x, v.y, v.z, w.x, w.y, w.z,
                           o.x, o.y, o.z, ou.x, ou.y, ou.z, ov.x, ov.y, ov.z);
  }

  /** Column k of the matrix is weighted by coordinate k of the vector. */
  lemma MatVecColumns(m: Mat3, v: Vec3)
    ensures MatVec(m, v) == Add(Add(Scale(v.x, m.c0), Scale(v.y, m.c1)), Scale(v.z, m.c2))
  {
  }

  /** The standard columns give the identity map. */
  lemma MatVecIdentity(v: Vec3)
    ensures MatVec(Identity, v) == v
  {
  }

  // ---------------------------------------------------------------------------
  // The real identities restated on vector components

  lemma CrossScaleComponents(k: real, u0: real, u1: real, u2: real, v0: real, v1: real, v2: real,
                             w0: real, w1: real, w2: real, c0: real, c1: real, c2: real, d0: real, d1: real, d2: real)
    requires Vec3(w0, w1, w2) == Scale(k, Vec3(u0, u1, u2))
    requires Vec3(c0, c1, c2) == Cross(Vec3(w0, w1, w2), Vec3(v0, v1, v2))
    requires Vec3(d0, d1, d2) == Cross(Vec3(u0, u1, u2), Vec3(v0, v1, v2))
    ensures c0 == k * d0 && c1 == k * d1 && c2 == k * d2
  {
    CrossScaleIdentity(k, u0, u1, u2, v0, v1, v2, w0, w1, w2, c0, c1, c2, d0, d1, d2);
  }

  lemma MatVecLinearComponents(a: real, b: real, m00: real, m01: real, m02: real, m10: real, m11: real, m12: real,
                               m20: real, m21: real, m22: real, u0: real, u1: real, u2: real, v0: real, v1: real, v2: real,
                               w0: real, w1: real, w2: real, o0: real, o1: real, o2: real,
                               p0: real, p1: real, p2: real, q0: real, q1: real, q2: real)
    requires Vec3(w0, w1, w2) == Add(Scale(a, Vec3(u0, u1, u2)), Scale(b, Vec3(v0, v1, v2)))
    requires Vec3(o0, o1, o2) == MatVec(Columns(Vec3(m00, m01, m02), Vec3(m10, m11, m12), Vec3(m20, m21, m22)), Vec3(w0, w1, w2))
    requires Vec3(p0, p1, p2) == MatVec(Columns(Vec3(m00, m01, m02), Vec3(m10, m11, m12), Vec3(m20, m21, m22)), Vec3(u0, u1, u2))
    requires Vec3(q0, q1, q2) == MatVec(Columns(Vec3(m00, m01, m02), Vec3(m10, m11, m12), Vec3(m20, m21, m22)), Vec3(v0, v1, v2))
    ensures o0 == a * p0 + b * q0 && o1 == a * p1 + b * q1 && o2 == a * p2 + b * q2
  {
    RowLinearIdentity(a, b, u0, u1, u2, v0, v1, v2, m00, m10, m20, w0, w1, w2, o0, p0, q0);
    RowLinearIdentity(a, b, u0, u1, u2, v0, v1, v2, m01, m11, m21, w0, w1, w2, o1, p1, q1);
    RowLinearIdentity(a, b, u0, u1, u2, v0, v1, v2, m02, m12, m22, w0, w1, w2, o2, p2, q2);
  }
}

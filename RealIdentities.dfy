/** Identities over the reals behind the quaternion laws. Each lemma takes
    every intermediate value of a computation as a parameter together with
    the equation that defines it, so that its proof is a polynomial identity
    in the remaining parameters; the laws in QuaternionAlgebra instantiate
    them with the components of actual quaternions. */
module RealIdentities {

  lemma ReciprocalCancels(n: real)
    requires n != 0.0
    ensures (1.0 / n) * n == 1.0
  {
  }

  lemma DivisionIsScaling(a: real, n: real)
    requires n != 0.0
    ensures a / n == (1.0 / n) * a
  {
  }

  lemma DivisionByOne(a: real, n: real)
    requires n == 1.0
    ensures a / n == a
  {
  }

  lemma SquareNonNegative(a: real)
    ensures a * a >= 0.0
  {
    if a < 0.0 {
      assert a * a == (-a) * (-a);
    }
  }

  /** A nonzero real has a reciprocal, so its square is nonzero. */
  lemma SquareZero(a: real)
    ensures a * a == 0.0 ==> a == 0.0
  {
    if a != 0.0 {
      var b := 1.0 / a;
      assert a * b == 1.0;
      assert (a * a) * (b * b) == (a * b) * (a * b);
    }
  }

  lemma SumOfNonNegativesZero(a: real, b: real, c: real, d: real)
    requires a >= 0.0 && b >= 0.0 && c >= 0.0 && d >= 0.0
    requires a + b + c + d == 0.0
    ensures a == 0.0 && b == 0.0 && c == 0.0 && d == 0.0
  {
  }

  lemma ZeroFactor(s: real, x: real)
    requires x == 0.0
    ensures s * x == 0.0 && x * s == 0.0
  {
  }

  /** a (k b) = k (a b) for the Hamilton product, with c = k b, p = a c and
      s = a b. */
  lemma ScaleRightIdentity(k: real,
                           a0: real, a1: real, a2: real, a3: real, b0: real, b1: real, b2: real, b3: real,
                           c0: real, c1: real, c2: real, c3: real, p0: real, p1: real, p2: real, p3: real,
                           s0: real, s1: real, s2: real, s3: real)
    requires c0 == k * b0 && c1 == k * b1 && c2 == k * b2 && c3 == k * b3
    requires p0 == a0 * c0 - a1 * c1 - a2 * c2 - a3 * c3
    requires p1 == a0 * c1 + a1 * c0 + a2 * c3 - a3 * c2
    requires p2 == a0 * c2 - a1 * c3 + a2 * c0 + a3 * c1
    requires p3 == a0 * c3 + a1 * c2 - a2 * c1 + a3 * c0
    requires s0 == a0 * b0 - a1 * b1 - a2 * b2 - a3 * b3
    requires s1 == a0 * b1 + a1 * b0 + a2 * b3 - a3 * b2
    requires s2 == a0 * b2 - a1 * b3 + a2 * b0 + a3 * b1
    requires s3 == a0 * b3 + a1 * b2 - a2 * b1 + a3 * b0
    ensures p0 == k * s0 && p1 == k * s1 && p2 == k * s2 && p3 == k * s3
  {
  }

  /** (k a) b = k (a b), with c = k a, p = c b and s = a b. */
  lemma ScaleLeftIdentity(k: real,
                          a0: real, a1: real, a2: real, a3: real, b0: real, b1: real, b2: real, b3: real,
                          c0: real, c1: real, c2: real, c3: real, p0: real, p1: real, p2: real, p3: real,
                          s0: real, s1: real, s2: real, s3: real)
    requires c0 == k * a0 && c1 == k * a1 && c2 == k * a2 && c3 == k * a3
    requires p0 == c0 * b0 - c1 * b1 - c2 * b2 - c3 * b3
    requires p1 == c0 * b1 + c1 * b0 + c2 * b3 - c3 * b2
    requires p2 == c0 * b2 - c1 * b3 + c2 * b0 + c3 * b1
    requires p3 == c0 * b3 + c1 * b2 - c2 * b1 + c3 * b0
    requires s0 == a0 * b0 - a1 * b1 - a2 * b2 - a3 * b3
    requires s1 == a0 * b1 + a1 * b0 + a2 * b3 - a3 * b2
    requires s2 == a0 * b2 - a1 * b3 + a2 * b0 + a3 * b1
    requires s3 == a0 * b3 + a1 * b2 - a2 * b1 + a3 * b0
    ensures p0 == k * s0 && p1 == k * s1 && p2 == k * s2 && p3 == k * s3
  {
  }

  /** q q* = q* q = (n, 0, 0, 0) with c = q*, p = q c and s = c q. */
  lemma ConjugateProductIdentity(q0: real, q1: real, q2: real, q3: real, c0: real, c1: real, c2: real, c3: real,
                                 p0: real, p1: real, p2: real, p3: real, s0: real, s1: real, s2: real, s3: real,
                                 n: real)
    requires c0 == q0 && c1 == -q1 && c2 == -q2 && c3 == -q3
    requires n == q0 * q0 + q1 * q1 + q2 * q2 + q3 * q3
    requires p0 == q0 * c0 - q1 * c1 - q2 * c2 - q3 * c3
    requires p1 == q0 * c1 + q1 * c0 + q2 * c3 - q3 * c2
    requires p2 == q0 * c2 - q1 * c3 + q2 * c0 + q3 * c1
    requires p3 == q0 * c3 + q1 * c2 - q2 * c1 + q3 * c0
    requires s0 == c0 * q0 - c1 * q1 - c2 * q2 - c3 * q3
    requires s1 == c0 * q1 + c1 * q0 + c2 * q3 - c3 * q2
    requires s2 == c0 * q2 - c1 * q3 + c2 * q0 + c3 * q1
    requires s3 == c0 * q3 + c1 * q2 - c2 * q1 + c3 * q0
    ensures p0 == n && p1 == 0.0 && p2 == 0.0 && p3 == 0.0
    ensures s0 == n && s1 == 0.0 && s2 == 0.0 && s3 == 0.0
  {
  }

  /** The product of two pure quaternions: real part minus the dot product,
      vector part the cross product. */
  lemma PureProductIdentity(a0: real, a1: real, a2: real, a3: real, b0: real, b1: real, b2: real, b3: real,
                            p0: real, p1: real, p2: real, p3: real)
    requires a0 == 0.0 && b0 == 0.0
    requires p0 == a0 * b0 - a1 * b1 - a2 * b2 - a3 * b3
    requires p1 == a0 * b1 + a1 * b0 + a2 * b3 - a3 * b2
    requires p2 == a0 * b2 - a1 * b3 + a2 * b0 + a3 * b1
    requires p3 == a0 * b3 + a1 * b2 - a2 * b1 + a3 * b0
    ensures p0 == -(a1 * b1 + a2 * b2 + a3 * b3)
    ensures p1 == a2 * b3 - a3 * b2 && p2 == a3 * b1 - a1 * b3 && p3 == a1 * b2 - a2 * b1
  {
  }

  /** (1, 0, 0, 0) is a two-sided unit: p = e b and s = b e. */
  lemma UnitProductIdentity(e0: real, e1: real, e2: real, e3: real, b0: real, b1: real, b2: real, b3: real,
                            p0: real, p1: real, p2: real, p3: real, s0: real, s1: real, s2: real, s3: real)
    requires e0 == 1.0 && e1 == 0.0 && e2 == 0.0 && e3 == 0.0
    requires p0 == e0 * b0 - e1 * b1 - e2 * b2 - e3 * b3
    requires p1 == e0 * b1 + e1 * b0 + e2 * b3 - e3 * b2
    requires p2 == e0 * b2 - e1 * b3 + e2 * b0 + e3 * b1
    requires p3 == e0 * b3 + e1 * b2 - e2 * b1 + e3 * b0
    requires s0 == b0 * e0 - b1 * e1 - b2 * e2 - b3 * e3
    requires s1 == b0 * e1 + b1 * e0 + b2 * e3 - b3 * e2
    requires s2 == b0 * e2 - b1 * e3 + b2 * e0 + b3 * e1
    requires s3 == b0 * e3 + b1 * e2 - b2 * e1 + b3 * e0
    ensures p0 == b0 && p1 == b1 && p2 == b2 && p3 == b3
    ensures s0 == b0 && s1 == b1 && s2 == b2 && s3 == b3
  {
  }

  /** (a b) c = a (b c), with p = a b, q = p c, s = b c and t = a s. */
  lemma AssociativityIdentity(a0: real, a1: real, a2: real, a3: real, b0: real, b1: real, b2: real, b3: real,
                              c0: real, c1: real, c2: real, c3: real, p0: real, p1: real, p2: real, p3: real,
                              q0: real, q1: real, q2: real, q3: real, s0: real, s1: real, s2: real, s3: real,
                              t0: real, t1: real, t2: real, t3: real)
    requires p0 == a0 * b0 - a1 * b1 - a2 * b2 - a3 * b3
    requires p1 == a0 * b1 + a1 * b0 + a2 * b3 - a3 * b2
    requires p2 == a0 * b2 - a1 * b3 + a2 * b0 + a3 * b1
    requires p3 == a0 * b3 + a1 * b2 - a2 * b1 + a3 * b0
    requires q0 == p0 * c0 - p1 * c1 - p2 * c2 - p3 * c3
    requires q1 == p0 * c1 + p1 * c0 + p2 * c3 - p3 * c2
    requires q2 == p0 * c2 - p1 * c3 + p2 * c0 + p3 * c1
    requires q3 == p0 * c3 + p1 * c2 - p2 * c1 + p3 * c0
    requires s0 == b0 * c0 - b1 * c1 - b2 * c2 - b3 * c3
    requires s1 == b0 * c1 + b1 * c0 + b2 * c3 - b3 * c2
    requires s2 == b0 * c2 - b1 * c3 + b2 * c0 + b3 * c1
    requires s3 == b0 * c3 + b1 * c2 - b2 * c1 + b3 * c0
    requires t0 == a0 * s0 - a1 * s1 - a2 * s2 - a3 * s3
    requires t1 == a0 * s1 + a1 * s0 + a2 * s3 - a3 * s2
    requires t2 == a0 * s2 - a1 * s3 + a2 * s0 + a3 * s1
    requires t3 == a0 * s3 + a1 * s2 - a2 * s1 + a3 * s0
    ensures q0 == t0 && q1 == t1 && q2 == t2 && q3 == t3
  {
  }

  /** (a b)* = b* a*, with p = a b, d = b*, e = a* and s = d e. */
  lemma ConjugateReverseIdentity(a0: real, a1: real, a2: real, a3: real, b0: real, b1: real, b2: real, b3: real,
                                 p0: real, p1: real, p2: real, p3: real, d0: real, d1: real, d2: real, d3: real,
                                 e0: real, e1: real, e2: real, e3: real, s0: real, s1: real, s2: real, s3: real)
    requires p0 == a0 * b0 - a1 * b1 - a2 * b2 - a3 * b3
    requires p1 == a0 * b1 + a1 * b0 + a2 * b3 - a3 * b2
    requires p2 == a0 * b2 - a1 * b3 + a2 * b0 + a3 * b1
    requires p3 == a0 * b3 + a1 * b2 - a2 * b1 + a3 * b0
    requires d0 == b0 && d1 == -b1 && d2 == -b2 && d3 == -b3
    requires e0 == a0 && e1 == -a1 && e2 == -a2 && e3 == -a3
    requires s0 == d0 * e0 - d1 * e1 - d2 * e2 - d3 * e3
    requires s1 == d0 * e1 + d1 * e0 + d2 * e3 - d3 * e2
    requires s2 == d0 * e2 - d1 * e3 + d2 * e0 + d3 * e1
    requires s3 == d0 * e3 + d1 * e2 - d2 * e1 + d3 * e0
    ensures s0 == p0 && s1 == -p1 && s2 == -p2 && s3 == -p3
  {
  }

  /** A real quaternion e = (n, 0, 0, 0) scales from either side: p = e c
      and s = c e. */
  lemma RealFactorIdentity(n: real, e0: real, e1: real, e2: real, e3: real, c0: real, c1: real, c2: real, c3: real,
                           p0: real, p1: real, p2: real, p3: real, s0: real, s1: real, s2: real, s3: real)
    requires e0 == n && e1 == 0.0 && e2 == 0.0 && e3 == 0.0
    requires p0 == e0 * c0 - e1 * c1 - e2 * c2 - e3 * c3
    requires p1 == e0 * c1 + e1 * c0 + e2 * c3 - e3 * c2
    requires p2 == e0 * c2 - e1 * c3 + e2 * c0 + e3 * c1
    requires p3 == e0 * c3 + e1 * c2 - e2 * c1 + e3 * c0
    requires s0 == c0 * e0 - c1 * e1 - c2 * e2 - c3 * e3
    requires s1 == c0 * e1 + c1 * e0 + c2 * e3 - c3 * e2
    requires s2 == c0 * e2 - c1 * e3 + c2 * e0 + c3 * e1
    requires s3 == c0 * e3 + c1 * e2 - c2 * e1 + c3 * e0
    ensures p0 == n * c0 && p1 == n * c1 && p2 == n * c2 && p3 == n * c3
    ensures s0 == n * c0 && s1 == n * c1 && s2 == n * c2 && s3 == n * c3
  {
  }

  /** |k a|² = k² |a|², with c = k a. */
  lemma ScaledNormIdentity(k: real, a0: real, a1: real, a2: real, a3: real, c0: real, c1: real, c2: real, c3: real,
                           na: real, nc: real)
    requires c0 == k * a0 && c1 == k * a1 && c2 == k * a2 && c3 == k * a3
    requires na == a0 * a0 + a1 * a1 + a2 * a2 + a3 * a3
    requires nc == c0 * c0 + c1 * c1 + c2 * c2 + c3 * c3
    ensures nc == (k * k) * na
  {
  }

  /** |q*|² = |q|², with c = q*. */
  lemma ConjugateNormIdentity(q0: real, q1: real, q2: real, q3: real, c0: real, c1: real, c2: real, c3: real,
                              nq: real, nc: real)
    requires c0 == q0 && c1 == -q1 && c2 == -q2 && c3 == -q3
    requires nq == q0 * q0 + q1 * q1 + q2 * q2 + q3 * q3
    requires nc == c0 * c0 + c1 * c1 + c2 * c2 + c3 * c3
    ensures nc == nq
  {
  }

  /** The real part of q v q* is |q|² times the real part of v, with
      i = q v, c = q* and r = i c. */
  lemma SandwichRealPartIdentity(q0: real, q1: real, q2: real, q3: real, v0: real, v1: real, v2: real, v3: real,
                                 i0: real, i1: real, i2: real, i3: real, c0: real, c1: real, c2: real, c3: real,
                                 r0: real, n: real)
    requires i0 == q0 * v0 - q1 * v1 - q2 * v2 - q3 * v3
    requires i1 == q0 * v1 + q1 * v0 + q2 * v3 - q3 * v2
    requires i2 == q0 * v2 - q1 * v3 + q2 * v0 + q3 * v1
    requires i3 == q0 * v3 + q1 * v2 - q2 * v1 + q3 * v0
    requires c0 == q0 && c1 == -q1 && c2 == -q2 && c3 == -q3
    requires r0 == i0 * c0 - i1 * c1 - i2 * c2 - i3 * c3
    requires n == q0 * q0 + q1 * q1 + q2 * q2 + q3 * q3
    ensures r0 == n * v0
  {
  }

  /** k (n v0) = v0 once k n = 1, with x0 = n v0 and r0 = k x0. */
  lemma ReciprocalScaleIdentity(k: real, n: real, v0: real, x0: real, r0: real)
    requires k * n == 1.0 && x0 == n * v0 && r0 == k * x0
    ensures r0 == v0
  {
    assert r0 == (k * n) * v0;
  }

  /** a (-s) = -(a s) for the negated sine of an operator. */
  lemma NegatedFactor(a: real, s: real, t: real)
    requires t == -s
    ensures a * t == -(a * s)
  {
  }

  /** With q⁻¹ = k q* and k |q|² = 1, |q⁻¹|² = k² |q|² is the reciprocal of |q|². */
  lemma InverseNormIdentity(ninv: real, k: real, nq: real)
    requires k * nq == 1.0 && ninv == (k * k) * nq
    ensures ninv * nq == 1.0
  {
    assert ninv * nq == (k * nq) * (k * nq);
  }

  /** The squared norms along q v q⁻¹: |q v q⁻¹|² = |q|² |v|² |q⁻¹|² = |v|². */
  lemma SandwichNormIdentity(nr: real, ni: real, ninv: real, nq: real, nv: real)
    requires nr == ni * ninv && ni == nq * nv && ninv * nq == 1.0
    ensures nr == nv
  {
    assert nr == (ninv * nq) * nv;
  }

  /** The commutator of q = (c, s a) and v = (v0, w) is (0, 2 s (a × w)), with
      x = a × w, p = q v and u = v q. */
  lemma CommutatorIdentity(c: real, s: real, a1: real, a2: real, a3: real, v0: real, v1: real, v2: real, v3: real,
                           q0: real, q1: real, q2: real, q3: real, p0: real, p1: real, p2: real, p3: real,
                           u0: real, u1: real, u2: real, u3: real, x1: real, x2: real, x3: real)
    requires q0 == c && q1 == a1 * s && q2 == a2 * s && q3 == a3 * s
    requires x1 == a2 * v3 - a3 * v2 && x2 == a3 * v1 - a1 * v3 && x3 == a1 * v2 - a2 * v1
    requires p0 == q0 * v0 - q1 * v1 - q2 * v2 - q3 * v3
    requires p1 == q0 * v1 + q1 * v0 + q2 * v3 - q3 * v2
    requires p2 == q0 * v2 - q1 * v3 + q2 * v0 + q3 * v1
    requires p3 == q0 * v3 + q1 * v2 - q2 * v1 + q3 * v0
    requires u0 == v0 * q0 - v1 * q1 - v2 * q2 - v3 * q3
    requires u1 == v0 * q1 + v1 * q0 + v2 * q3 - v3 * q2
    requires u2 == v0 * q2 - v1 * q3 + v2 * q0 + v3 * q1
    requires u3 == v0 * q3 + v1 * q2 - v2 * q1 + v3 * q0
    ensures p0 == u0
    ensures p1 == u1 + 2.0 * (s * x1) && p2 == u2 + 2.0 * (s * x2) && p3 == u3 + 2.0 * (s * x3)
  {
  }

  /** |(c, s a)|² = c² + s² |a|² for a pure a, with o = (c, s a). */
  lemma OperatorNormIdentity(c: real, s: real, a0: real, a1: real, a2: real, a3: real,
                             o0: real, o1: real, o2: real, o3: real, na: real, no: real)
    requires a0 == 0.0
    requires o0 == c && o1 == a1 * s && o2 == a2 * s && o3 == a3 * s
    requires na == a0 * a0 + a1 * a1 + a2 * a2 + a3 * a3
    requires no == o0 * o0 + o1 * o1 + o2 * o2 + o3 * o3
    ensures no == c * c + (s * s) * na
  {
  }

  lemma UnitOperatorIdentity(c: real, s: real, na: real, no: real)
    requires no == c * c + (s * s) * na && na == 1.0 && s * s + c * c == 1.0
    ensures no == 1.0
  {
  }

  /** (k u) × v = k (u × v), with w = k u, c = w × v and d = u × v. */
  lemma CrossScaleIdentity(k: real, u0: real, u1: real, u2: real, v0: real, v1: real, v2: real,
                           w0: real, w1: real, w2: real, c0: real, c1: real, c2: real, d0: real, d1: real, d2: real)
    requires w0 == k * u0 && w1 == k * u1 && w2 == k * u2
    requires c0 == w1 * v2 - w2 * v1 && c1 == w2 * v0 - w0 * v2 && c2 == w0 * v1 - w1 * v0
    requires d0 == u1 * v2 - u2 * v1 && d1 == u2 * v0 - u0 * v2 && d2 == u0 * v1 - u1 * v0
    ensures c0 == k * d0 && c1 == k * d1 && c2 == k * d2
  {
  }

  /** One row r of a matrix product is linear: with w = a u + b v,
      w · r = a (u · r) + b (v · r). */
  lemma RowLinearIdentity(a: real, b: real, u0: real, u1: real, u2: real, v0: real, v1: real, v2: real,
                          r0: real, r1: real, r2: real, w0: real, w1: real, w2: real, o: real, ou: real, ov: real)
    requires w0 == a * u0 + b * v0 && w1 == a * u1 + b * v1 && w2 == a * u2 + b * v2
    requires o == w0 * r0 + w1 * r1 + w2 * r2
    requires ou == u0 * r0 + u1 * r1 + u2 * r2
    requires ov == v0 * r0 + v1 * r1 + v2 * r2
    ensures o == a * ou + b * ov
  {
  }

  // ---------------------------------------------------------------------------
  // Identities behind the simulator

  lemma QuotientCancels(a: real, n: real)
    requires n != 0.0
    ensures (a / n) * n == a
  {
  }

  /** ((n / m) s) m = n s: the impulse identity of a torque step. */
  lemma ImpulseIdentity(n: real, m: real, s: real)
    requires m != 0.0
    ensures ((n / m) * s) * m == n * s
  {
    QuotientCancels(n, m);
  }

  /** a m = -(b m) with m nonzero gives a = -b. */
  lemma CancelNegated(a: real, b: real, m: real)
    requires m != 0.0 && a * m == -(b * m)
    ensures a == -b
  {
    assert (a + b) * m == 0.0;
  }

  /** Two points with px d = x and pe (k d) = k x have the same quotient. */
  lemma SameQuotient(x: real, d: real, k: real, px: real, pe: real)
    requires d != 0.0 && k != 0.0
    requires px * d == x && pe * (k * d) == k * x
    ensures pe == px
  {
    assert (pe - px) * (k * d) == 0.0;
  }

  /** A point strictly inside the sphere of radius 100 has z below 100. */
  lemma SphereBound(r: real, x: real, y: real, z: real)
    requires r == 0.0 && r * r + x * x + y * y + z * z < 100.0 * 100.0
    ensures z != 100.0
  {
    SquareNonNegative(x);
    SquareNonNegative(y);
  }

  lemma NonzeroProduct(a: real, b: real)
    requires a != 0.0 && b != 0.0
    ensures a * b != 0.0
  {
  }

  /** The turn of three screen points is the shoelace sum. */
  lemma ShoelaceIdentity(x0: real, y0: real, x1: real, y1: real, x2: real, y2: real)
    ensures (x1 - x0) * (y2 - y1) - (y1 - y0) * (x2 - x1)
            == (x0 * y1 - x1 * y0) + (x1 * y2 - x2 * y1) + (x2 * y0 - x0 * y2)
  {
  }
}

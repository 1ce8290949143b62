/** The attitude simulator service: per-axis spin rates, the three body axes
    as quaternions and the spacecraft's polygons. A step rotates every vertex
    and the axes, a torque adds to the spin rates, and the visible polygons are
    the perspective-projected ones that face the viewer. */
module AttitudeModelService {
  import opened RealIdentities
  import opened LinearAlgebra
  import opened Trig
  import opened QuaternionAlgebra

  /** A vertex: a list of coordinates of which the first three are x, y, z. */
  type Coords = seq<real>

  type Polygon = seq<Coords>

  /** The viewer sits on the z axis at this distance from the origin. */
  const ViewingDistance: real := 100.0

  // ---------------------------------------------------------------------------
  // The private per-point rotation

  /** The vector parts agree, the test rotate() uses to skip an axis. */
  predicate SameVector(a: Quaternion, b: Quaternion) {
    a.x == b.x && a.y == b.y && a.z == b.z
  }

  /** Every rotation that rotate() performs on q has an invertible operator. */
  ghost predicate AxisRotationsDefined(q: Quaternion, xAxis: Quaternion, yAxis: Quaternion, zAxis: Quaternion,
                                       ax: real, ay: real, az: real, t: Trig) {
    && (!SameVector(q, xAxis) ==> RotationDefined(xAxis, ax, t))
    && (!SameVector(q, yAxis) ==> RotationDefined(yAxis, ay, t))
    && (!SameVector(q, zAxis) ==> RotationDefined(zAxis, az, t))
  }

  /** All three axis rotations have invertible operators. */
  ghost predicate AxesDefined(xAxis: Quaternion, yAxis: Quaternion, zAxis: Quaternion, ax: real, ay: real, az: real, t: Trig) {
    RotationDefined(xAxis, ax, t) && RotationDefined(yAxis, ay, t) && RotationDefined(zAxis, az, t)
  }

  /** The private rotate(): about the x, then the y, then the z axis, skipping
      an axis whenever the ORIGINAL q has that axis's vector part. */
  function RotateAboutAxes(q: Quaternion, xAxis: Quaternion, yAxis: Quaternion, zAxis: Quaternion,
                           ax: real, ay: real, az: real, t: Trig): Quaternion
    requires AxisRotationsDefined(q, xAxis, yAxis, zAxis, ax, ay, az, t)
  {
    var q1 := if SameVector(q, xAxis) then q else Rotate(q, xAxis, ax, t);
    var q2 := if SameVector(q, yAxis) then q1 else Rotate(q1, yAxis, ay, t);
    if SameVector(q, zAxis) then q2 else Rotate(q2, zAxis, az, t)
  }

  /** The three rotations applied in turn with no skipping. */
  function RotateInTurn(q: Quaternion, xAxis: Quaternion, yAxis: Quaternion, zAxis: Quaternion,
                        ax: real, ay: real, az: real, t: Trig): Quaternion
    requires AxesDefined(xAxis, yAxis, zAxis, ax, ay, az, t)
  {
    Rotate(Rotate(Rotate(q, xAxis, ax, t), yAxis, ay, t), zAxis, az, t)
  }

  /** The per-point rotation keeps pure points pure and keeps the squared norm. */
  lemma RotateAboutAxesPreserves(q: Quaternion, xAxis: Quaternion, yAxis: Quaternion, zAxis: Quaternion,
                                 ax: real, ay: real, az: real, t: Trig)
    requires AxisRotationsDefined(q, xAxis, yAxis, zAxis, ax, ay, az, t)
    ensures NormSquared(RotateAboutAxes(q, xAxis, yAxis, zAxis, ax, ay, az, t)) == NormSquared(q)
    ensures IsPure(q) ==> IsPure(RotateAboutAxes(q, xAxis, yAxis, zAxis, ax, ay, az, t))
  {
    var q1 := if SameVector(q, xAxis) then q else Rotate(q, xAxis, ax, t);
    if !SameVector(q, xAxis) {
      RotatePreservesNormSquared(q, xAxis, ax, t);
      if IsPure(q) { RotatePure(q, xAxis, ax, t); }
    }
    var q2 := if SameVector(q, yAxis) then q1 else Rotate(q1, yAxis, ay, t);
    if !SameVector(q, yAxis) {
      RotatePreservesNormSquared(q1, yAxis, ay, t);
      if IsPure(q1) { RotatePure(q1, yAxis, ay, t); }
    }
    if !SameVector(q, zAxis) {
      RotatePreservesNormSquared(q2, zAxis, az, t);
      if IsPure(q2) { RotatePure(q2, zAxis, az, t); }
    }
  }

  /** Skipping the x axis is harmless: rotating q about its own direction
      leaves it fixed, so when q matches neither the y nor the z axis the
      private rotate() is the plain composition of the three rotations. */
  lemma RotateAboutAxesFirstSkip(q: Quaternion, xAxis: Quaternion, yAxis: Quaternion, zAxis: Quaternion,
                                 ax: real, ay: real, az: real, t: Trig)
    requires AxesDefined(xAxis, yAxis, zAxis, ax, ay, az, t)
    requires !SameVector(q, yAxis) && !SameVector(q, zAxis)
    ensures RotateAboutAxes(q, xAxis, yAxis, zAxis, ax, ay, az, t) == RotateInTurn(q, xAxis, yAxis, zAxis, ax, ay, az, t)
  {
    if SameVector(q, xAxis) {
      assert xAxis.Vector() == q.Vector();
      CrossSelfIsZero(q.Vector());
      RotateCommuting(q, xAxis, ax, t);
    }
  }

  /** A sine and cosine that satisfy the laws: (0, 1) at zero and (0.6, 0.8)
      everywhere else. */
  const SampleTrig: Trig := Trig(a => if a == 0.0 then 0.0 else 0.6, a => if a == 0.0 then 1.0 else 0.8)

  lemma SampleTrigLaws()
    ensures Laws(SampleTrig)
  {
    forall a: real ensures SampleTrig.sin(a) * SampleTrig.sin(a) + SampleTrig.cos(a) * SampleTrig.cos(a) == 1.0 {
      if a != 0.0 {
        assert SampleTrig.sin(a) == 0.6 && SampleTrig.cos(a) == 0.8;
      }
    }
  }

  const XAxis: Quaternion := Pure(Vec3(1.0, 0.0, 0.0))
  const YAxis: Quaternion := Pure(Vec3(0.0, 1.0, 0.0))
  const ZAxis: Quaternion := Pure(Vec3(0.0, 0.0, 1.0))

  /** A rotation whose operator has squared norm 1 is the sandwich with the
      operator's conjugate. */
  lemma RotateByUnitOperator(v: Quaternion, axis: Quaternion, angle: real, t: Trig, q: Quaternion)
    requires Operator(axis, angle, t) == q && NormSquared(q) == 1.0
    ensures RotationDefined(axis, angle, t)
    ensures Rotate(v, axis, angle, t) == Multiply(Multiply(q, v), Conjugate(q))
  {
    UnitInverse(q);
  }

  /** With the sample functions a turn by 1 about x has operator (0.8, 0.6, 0, 0). */
  lemma SampleTurnX(v: Quaternion)
    ensures RotationDefined(XAxis, 1.0, SampleTrig)
    ensures Rotate(v, XAxis, 1.0, SampleTrig) == Multiply(Multiply(Quaternion(0.8, 0.6, 0.0, 0.0), v), Quaternion(0.8, -0.6, 0.0, 0.0))
  {
    var q := Quaternion(0.8, 0.6, 0.0, 0.0);
    assert SampleTrig.cos(1.0 / 2.0) == 0.8 && SampleTrig.sin(1.0 / 2.0) == 0.6;
    assert Operator(XAxis, 1.0, SampleTrig) == q;
    assert NormSquared(q) == 1.0;
    RotateByUnitOperator(v, XAxis, 1.0, SampleTrig, q);
  }

  /** Likewise about y, with operator (0.8, 0, 0.6, 0). */
  lemma SampleTurnY(v: Quaternion)
    ensures RotationDefined(YAxis, 1.0, SampleTrig)
    ensures Rotate(v, YAxis, 1.0, SampleTrig) == Multiply(Multiply(Quaternion(0.8, 0.0, 0.6, 0.0), v), Quaternion(0.8, 0.0, -0.6, 0.0))
  {
    var q := Quaternion(0.8, 0.0, 0.6, 0.0);
    assert SampleTrig.cos(1.0 / 2.0) == 0.8 && SampleTrig.sin(1.0 / 2.0) == 0.6;
    assert Operator(YAxis, 1.0, SampleTrig) == q;
    assert NormSquared(q) == 1.0;
    RotateByUnitOperator(v, YAxis, 1.0, SampleTrig, q);
  }

  /** The two sandwich products of the sample, evaluated. */
  lemma SampleProducts()
    ensures Multiply(Multiply(Quaternion(0.8, 0.6, 0.0, 0.0), YAxis), Quaternion(0.8, -0.6, 0.0, 0.0)) == Pure(Vec3(0.0, 0.28, 0.96))
    ensures Multiply(Multiply(Quaternion(0.8, 0.0, 0.6, 0.0), Pure(Vec3(0.0, 0.28, 0.96))), Quaternion(0.8, 0.0, -0.6, 0.0))
            == Pure(Vec3(0.9216, 0.28, 0.2688))
  {
    assert Multiply(Quaternion(0.8, 0.6, 0.0, 0.0), YAxis) == Quaternion(0.0, 0.0, 0.8, 0.6);
    assert Multiply(Quaternion(0.8, 0.0, 0.6, 0.0), Pure(Vec3(0.0, 0.28, 0.96))) == Quaternion(-0.168, 0.576, 0.224, 0.768);
  }

  /** The y axis turned about the x axis. */
  lemma SampleFirstTurn()
    ensures RotationDefined(XAxis, 1.0, SampleTrig)
    ensures Rotate(YAxis, XAxis, 1.0, SampleTrig) == Pure(Vec3(0.0, 0.28, 0.96))
  {
    SampleTurnX(YAxis);
    SampleProducts();
  }

  /** That point turned about the y axis. */
  lemma SampleSecondTurn()
    ensures RotationDefined(YAxis, 1.0, SampleTrig)
    ensures Rotate(Pure(Vec3(0.0, 0.28, 0.96)), YAxis, 1.0, SampleTrig) == Pure(Vec3(0.9216, 0.28, 0.2688))
  {
    SampleTurnY(Pure(Vec3(0.0, 0.28, 0.96)));
    SampleProducts();
  }

  /** A turn by 0 changes nothing. */
  lemma SampleStill(v: Quaternion, axis: Quaternion)
    ensures RotationDefined(axis, 0.0, SampleTrig) && Rotate(v, axis, 0.0, SampleTrig) == v
  {
    SampleTrigLaws();
    RotateZeroAngle(v, axis, SampleTrig);
  }

  /** The later skips are not harmless, because they test the original q and
      not the point already rotated about the x axis: the y axis, turned about
      the x axis, is then not turned about the y axis. */
  lemma RotateAboutAxesLaterSkip()
    ensures AxesDefined(XAxis, YAxis, ZAxis, 1.0, 1.0, 0.0, SampleTrig)
    ensures RotateAboutAxes(YAxis, XAxis, YAxis, ZAxis, 1.0, 1.0, 0.0, SampleTrig) == Pure(Vec3(0.0, 0.28, 0.96))
    ensures RotateInTurn(YAxis, XAxis, YAxis, ZAxis, 1.0, 1.0, 0.0, SampleTrig) == Pure(Vec3(0.9216, 0.28, 0.2688))
  {
    assert !SameVector(YAxis, XAxis) && SameVector(YAxis, YAxis) && !SameVector(YAxis, ZAxis);
    SampleFirstTurn();
    SampleSecondTurn();
    SampleStill(Pure(Vec3(0.0, 0.28, 0.96)), ZAxis);
    SampleStill(Pure(Vec3(0.9216, 0.28, 0.2688)), ZAxis);
  }

  /** Likewise about z, with operator (0.8, 0, 0, 0.6). */
  lemma SampleTurnZ(v: Quaternion)
    ensures RotationDefined(ZAxis, 1.0, SampleTrig)
    ensures Rotate(v, ZAxis, 1.0, SampleTrig) == Multiply(Multiply(Quaternion(0.8, 0.0, 0.0, 0.6), v), Quaternion(0.8, 0.0, 0.0, -0.6))
  {
    var q := Quaternion(0.8, 0.0, 0.0, 0.6);
    assert SampleTrig.cos(1.0 / 2.0) == 0.8 && SampleTrig.sin(1.0 / 2.0) == 0.6;
    assert Operator(ZAxis, 1.0, SampleTrig) == q;
    assert NormSquared(q) == 1.0;
    RotateByUnitOperator(v, ZAxis, 1.0, SampleTrig, q);
  }

  /** The x axis turned about z by 1: the x axis step() computes for rates (1, 0, 1). */
  const SampleNewX: Quaternion := Pure(Vec3(0.28, 0.96, 0.0))

  /** The y axis turned about SampleNewX by 1. */
  const SampleTurnedY: Quaternion := Pure(Vec3(0.193536, 0.943552, 0.2688))

  lemma SampleProductsZ()
    ensures Multiply(Quaternion(0.8, 0.0, 0.0, 0.6), Quaternion(0.0, 1.0, 0.0, 0.0)) == Quaternion(0.0, 0.8, 0.6, 0.0)
    ensures Multiply(Quaternion(0.0, 0.8, 0.6, 0.0), Quaternion(0.8, 0.0, 0.0, -0.6)) == Quaternion(0.0, 0.28, 0.96, 0.0)
  {
  }

  lemma SampleProductsNewX1()
    ensures Multiply(Quaternion(0.8, 0.168, 0.576, 0.0), Quaternion(0.0, 0.0, 1.0, 0.0)) == Quaternion(-0.576, 0.0, 0.8, 0.168)
  {
  }

  lemma SampleProductsNewX2()
    ensures Multiply(Quaternion(-0.576, 0.0, 0.8, 0.168), Quaternion(0.8, -0.168, -0.576, 0.0)) == Quaternion(0.0, 0.193536, 0.943552, 0.2688)
  {
  }

  lemma SampleOperatorNewX()
    ensures NormSquared(Quaternion(0.8, 0.168, 0.576, 0.0)) == 1.0
  {
  }

  lemma SampleNewXTurn()
    ensures RotationDefined(ZAxis, 1.0, SampleTrig)
    ensures Rotate(XAxis, ZAxis, 1.0, SampleTrig) == SampleNewX
  {
    SampleTurnZ(XAxis);
    SampleProductsZ();
  }

  lemma SampleTurnAboutNewX()
    ensures RotationDefined(SampleNewX, 1.0, SampleTrig)
    ensures Rotate(YAxis, SampleNewX, 1.0, SampleTrig) == SampleTurnedY
  {
    var q := Quaternion(0.8, 0.168, 0.576, 0.0);
    assert SampleTrig.cos(1.0 / 2.0) == 0.8 && SampleTrig.sin(1.0 / 2.0) == 0.6;
    assert Operator(SampleNewX, 1.0, SampleTrig) == q;
    SampleOperatorNewX();
    RotateByUnitOperator(YAxis, SampleNewX, 1.0, SampleTrig, q);
    SampleProductsNewX1();
    SampleProductsNewX2();
  }

  /** step() does not keep the body axes orthogonal. With rates (1, 0, 1),
      step length 1 and the sample sine and cosine, the new x axis is
      (0.28, 0.96, 0). The y axis is then turned about that new x axis, which
      the untouched x axis would not have been turned about, and the two new
      axes have dot product 0.193536 = 3024/15625 instead of 0. */
  lemma RotateAxesDrift()
    ensures AxisRotationsDefined(XAxis, XAxis, YAxis, ZAxis, 1.0, 0.0, 1.0, SampleTrig)
    ensures var newX := RotateAboutAxes(XAxis, XAxis, YAxis, ZAxis, 1.0, 0.0, 1.0, SampleTrig);
            && AxisRotationsDefined(YAxis, newX, YAxis, ZAxis, 1.0, 0.0, 1.0, SampleTrig)
            && var newY := RotateAboutAxes(YAxis, newX, YAxis, ZAxis, 1.0, 0.0, 1.0, SampleTrig);
            Dot(newX.Vector(), newY.Vector()) == 0.193536
  {
    SampleNewXAxis();
    SampleNewYAxis();
    SampleAxesDot();
  }

  /** The x axis after step() with rates (1, 0, 1): it is turned about z only. */
  lemma SampleNewXAxis()
    ensures AxisRotationsDefined(XAxis, XAxis, YAxis, ZAxis, 1.0, 0.0, 1.0, SampleTrig)
    ensures RotateAboutAxes(XAxis, XAxis, YAxis, ZAxis, 1.0, 0.0, 1.0, SampleTrig) == SampleNewX
  {
    assert SameVector(XAxis, XAxis) && !SameVector(XAxis, YAxis) && !SameVector(XAxis, ZAxis);
    SampleStill(XAxis, YAxis);
    SampleNewXTurn();
  }

  /** The y axis after step(): turned about the new x axis, not about y, then about z. */
  lemma SampleNewYAxis()
    ensures RotationDefined(ZAxis, 1.0, SampleTrig)
    ensures AxisRotationsDefined(YAxis, SampleNewX, YAxis, ZAxis, 1.0, 0.0, 1.0, SampleTrig)
    ensures RotateAboutAxes(YAxis, SampleNewX, YAxis, ZAxis, 1.0, 0.0, 1.0, SampleTrig) == Rotate(SampleTurnedY, ZAxis, 1.0, SampleTrig)
  {
    assert !SameVector(YAxis, SampleNewX) && SameVector(YAxis, YAxis) && !SameVector(YAxis, ZAxis);
    SampleTurnAboutNewX();
    SampleTurnZ(SampleTurnedY);
  }

  /** The turn about z keeps the dot product, which is the x coordinate of SampleTurnedY. */
  lemma SampleAxesDot()
    ensures RotationDefined(ZAxis, 1.0, SampleTrig)
    ensures Dot(SampleNewX.Vector(), Rotate(SampleTurnedY, ZAxis, 1.0, SampleTrig).Vector()) == 0.193536
  {
    assert Pure(XAxis.Vector()) == XAxis && Pure(SampleTurnedY.Vector()) == SampleTurnedY;
    SampleNewXTurn();
    RotatePreservesDot(XAxis.Vector(), SampleTurnedY.Vector(), ZAxis, 1.0, SampleTrig);
  }

  /** Rotating by zero about every axis changes nothing, so step()'s test for
      a nonzero angle does not change its outcome. */
  lemma RotateAboutAxesZero(q: Quaternion, xAxis: Quaternion, yAxis: Quaternion, zAxis: Quaternion, t: Trig)
    requires Laws(t)
    ensures AxesDefined(xAxis, yAxis, zAxis, 0.0, 0.0, 0.0, t)
    ensures RotateAboutAxes(q, xAxis, yAxis, zAxis, 0.0, 0.0, 0.0, t) == q
  {
    RotateZeroAngle(q, xAxis, t);
    RotateZeroAngle(q, yAxis, t);
    RotateZeroAngle(q, zAxis, t);
  }

  // ---------------------------------------------------------------------------
  // The body axes

  /** A body axis: a pure quaternion of unit squared norm. */
  predicate UnitPure(q: Quaternion) {
    IsPure(q) && NormSquared(q) == 1.0
  }

  /** Every rotation about the axis has an invertible operator. */
  ghost predicate RotatableAbout(axis: Quaternion, t: Trig) {
    forall angle: real :: RotationDefined(axis, angle, t)
  }

  lemma UnitPureRotatable(axis: Quaternion, t: Trig)
    requires Laws(t) && UnitPure(axis)
    ensures RotatableAbout(axis, t)
  {
    assert UnitAxis(axis);
    forall angle: real ensures RotationDefined(axis, angle, t) {
      OperatorUnit(axis, angle, t);
    }
  }

  /** An axis stays a unit pure quaternion through the private rotate(). */
  lemma RotateAboutAxesUnitPure(q: Quaternion, xAxis: Quaternion, yAxis: Quaternion, zAxis: Quaternion,
                                ax: real, ay: real, az: real, t: Trig)
    requires AxisRotationsDefined(q, xAxis, yAxis, zAxis, ax, ay, az, t)
    requires UnitPure(q)
    ensures UnitPure(RotateAboutAxes(q, xAxis, yAxis, zAxis, ax, ay, az, t))
  {
    RotateAboutAxesPreserves(q, xAxis, yAxis, zAxis, ax, ay, az, t);
  }

  // ---------------------------------------------------------------------------
  // Rotating the polygons

  /** The point (0, x, y, z) that step() builds from a vertex. */
  function VertexQuaternion(c: Coords): Quaternion
    requires |c| >= 3
  {
    Quaternion(0.0, c[0], c[1], c[2])
  }

  /** The vertex with coordinates 0 to 2 overwritten by the rotated point. */
  function RotateVertex(c: Coords, xAxis: Quaternion, yAxis: Quaternion, zAxis: Quaternion,
                        ax: real, ay: real, az: real, t: Trig): (r: Coords)
    requires |c| >= 3 && AxisRotationsDefined(VertexQuaternion(c), xAxis, yAxis, zAxis, ax, ay, az, t)
    ensures |r| == |c| && r[3..] == c[3..]
    ensures VertexQuaternion(r) == RotateAboutAxes(VertexQuaternion(c), xAxis, yAxis, zAxis, ax, ay, az, t)
  {
    var q := RotateAboutAxes(VertexQuaternion(c), xAxis, yAxis, zAxis, ax, ay, az, t);
    RotateAboutAxesPreserves(VertexQuaternion(c), xAxis, yAxis, zAxis, ax, ay, az, t);
    c[0 := q.x][1 := q.y][2 := q.z]
  }

  /** Every vertex has the three coordinates step() reads. */
  predicate Rotatable(ps: seq<Polygon>) {
    forall i, j :: 0 <= i < |ps| && 0 <= j < |ps[i]| ==> |ps[i][j]| >= 3
  }

  function RotatePolygon(p: Polygon, xAxis: Quaternion, yAxis: Quaternion, zAxis: Quaternion,
                         ax: real, ay: real, az: real, t: Trig): (r: Polygon)
    requires forall j :: 0 <= j < |p| ==> |p[j]| >= 3
    requires AxesDefined(xAxis, yAxis, zAxis, ax, ay, az, t)
  {
    seq(|p|, j requires 0 <= j < |p| => RotateVertex(p[j], xAxis, yAxis, zAxis, ax, ay, az, t))
  }

  /** The polygons after step()'s nested loops. */
  function RotateScene(ps: seq<Polygon>, xAxis: Quaternion, yAxis: Quaternion, zAxis: Quaternion,
                       ax: real, ay: real, az: real, t: Trig): (r: seq<Polygon>)
    requires Rotatable(ps) && AxesDefined(xAxis, yAxis, zAxis, ax, ay, az, t)
    ensures |r| == |ps|
    ensures forall i :: 0 <= i < |r| ==> |r[i]| == |ps[i]|
    ensures forall i, j :: 0 <= i < |r| && 0 <= j < |r[i]| ==> |r[i][j]| == |ps[i][j]| && r[i][j][3..] == ps[i][j][3..]
  {
    seq(|ps|, i requires 0 <= i < |ps| => RotatePolygon(ps[i], xAxis, yAxis, zAxis, ax, ay, az, t))
  }

  /** With zero angles the scene comes back unchanged. */
  lemma RotateSceneZero(ps: seq<Polygon>, xAxis: Quaternion, yAxis: Quaternion, zAxis: Quaternion, t: Trig)
    requires Rotatable(ps) && Laws(t)
    ensures AxesDefined(xAxis, yAxis, zAxis, 0.0, 0.0, 0.0, t)
    ensures RotateScene(ps, xAxis, yAxis, zAxis, 0.0, 0.0, 0.0, t) == ps
  {
    RotateAboutAxesZero(ZeroQ, xAxis, yAxis, zAxis, t);
    var r := RotateScene(ps, xAxis, yAxis, zAxis, 0.0, 0.0, 0.0, t);
    forall i, j | 0 <= i < |ps| && 0 <= j < |ps[i]|
      ensures r[i][j] == ps[i][j]
    {
      var c := ps[i][j];
      RotateAboutAxesZero(VertexQuaternion(c), xAxis, yAxis, zAxis, t);
      assert r[i][j] == RotateVertex(c, xAxis, yAxis, zAxis, 0.0, 0.0, 0.0, t);
      assert r[i][j][..3] == c[..3];
      assert r[i][j] == r[i][j][..3] + r[i][j][3..];
      assert c == c[..3] + c[3..];
    }
    forall i | 0 <= i < |ps|
      ensures r[i] == ps[i]
    {
    }
  }

  // ---------------------------------------------------------------------------
  // The viewing sphere

  /** A vertex strictly closer to the origin than the viewer. */
  predicate InsideViewingSphere(c: Coords) {
    |c| >= 3 && NormSquared(VertexQuaternion(c)) < ViewingDistance * ViewingDistance
  }

  /** Every polygon has a triangle to test and every vertex lies inside the
      viewing sphere. */
  predicate InsideScene(ps: seq<Polygon>) {
    forall i :: 0 <= i < |ps| ==> |ps[i]| >= 3 && forall j :: 0 <= j < |ps[i]| ==> InsideViewingSphere(ps[i][j])
  }

  /** Rotations keep the squared norm, so the scene stays inside the sphere. */
  lemma RotateSceneInside(ps: seq<Polygon>, xAxis: Quaternion, yAxis: Quaternion, zAxis: Quaternion,
                          ax: real, ay: real, az: real, t: Trig)
    requires InsideScene(ps) && AxesDefined(xAxis, yAxis, zAxis, ax, ay, az, t)
    ensures Rotatable(ps) && InsideScene(RotateScene(ps, xAxis, yAxis, zAxis, ax, ay, az, t))
  {
    var r := RotateScene(ps, xAxis, yAxis, zAxis, ax, ay, az, t);
    forall i, j | 0 <= i < |r| && 0 <= j < |r[i]|
      ensures InsideViewingSphere(r[i][j])
    {
      var c := ps[i][j];
      assert r[i][j] == RotateVertex(c, xAxis, yAxis, zAxis, ax, ay, az, t);
      RotateAboutAxesPreserves(VertexQuaternion(c), xAxis, yAxis, zAxis, ax, ay, az, t);
    }
  }

  // ---------------------------------------------------------------------------
  // Perspective projection

  /** get2DProjectedSpacecraftCoords divides by 1 - z/100. */
  predicate Projectable(c: Coords) {
    |c| >= 3 && c[2] != ViewingDistance
  }

  /** The perspective divisor 1 - z/100 of a vertex at depth z. */
  function Perspective(z: real): real {
    1.0 - z / ViewingDistance
  }

  /** get2DProjectedSpacecraftCoords: x and y divided by the perspective
      divisor, z kept. */
  function Project(c: Coords): (p: Coords)
    requires Projectable(c)
    ensures |p| == 3 && p[2] == c[2]
    ensures p[0] * Perspective(c[2]) == c[0] && p[1] * Perspective(c[2]) == c[1]
  {
    var d := Perspective(c[2]);
    QuotientCancels(c[0], d);
    QuotientCancels(c[1], d);
    [c[0] / d, c[1] / d, c[2]]
  }

  /** Points in the screen plane z = 0 are left where they are. */
  lemma ProjectScreenPlane(c: Coords)
    requires |c| >= 3 && c[2] == 0.0
    ensures Projectable(c) && Project(c) == c[..3]
  {
  }

  /** All points on the line of sight from the viewer (0, 0, 100) through c
      project to the same screen point. */
  lemma ProjectAlongSightLine(c: Coords, k: real)
    requires Projectable(c) && k != 0.0
    ensures var e := [k * c[0], k * c[1], ViewingDistance + k * (c[2] - ViewingDistance)];
            Projectable(e) && Project(e)[0] == Project(c)[0] && Project(e)[1] == Project(c)[1]
  {
    var e := [k * c[0], k * c[1], ViewingDistance + k * (c[2] - ViewingDistance)];
    var d := Perspective(c[2]);
    assert Perspective(e[2]) == k * d;
    NonzeroProduct(k, d);
    SameQuotient(c[0], d, k, Project(c)[0], Project(e)[0]);
    SameQuotient(c[1], d, k, Project(c)[1], Project(e)[1]);
  }

  /** A vertex inside the viewing sphere can be projected. */
  lemma InsideProjectable(c: Coords)
    requires InsideViewingSphere(c)
    ensures Projectable(c)
  {
    SphereBound(0.0, c[0], c[1], c[2]);
  }

  predicate ProjectablePolygon(p: Polygon) {
    |p| >= 3 && forall j :: 0 <= j < |p| ==> Projectable(p[j])
  }

  /** Every polygon has a triangle and every vertex can be projected. */
  predicate Viewable(ps: seq<Polygon>) {
    forall i :: 0 <= i < |ps| ==> ProjectablePolygon(ps[i])
  }

  lemma InsideSceneViewable(ps: seq<Polygon>)
    requires InsideScene(ps)
    ensures Viewable(ps)
  {
    forall i, j | 0 <= i < |ps| && 0 <= j < |ps[i]|
      ensures Projectable(ps[i][j])
    {
      InsideProjectable(ps[i][j]);
    }
  }

  function ProjectPolygon(p: Polygon): (r: Polygon)
    requires forall j :: 0 <= j < |p| ==> Projectable(p[j])
  {
    seq(|p|, j requires 0 <= j < |p| => Project(p[j]))
  }

  /** The stream-mapped copy of the polygons in getVisible2DProjectedSpacecraftPolygons. */
  function ProjectScene(ps: seq<Polygon>): (r: seq<Polygon>)
    requires Viewable(ps)
    ensures |r| == |ps|
    ensures forall i :: 0 <= i < |r| ==> |r[i]| == |ps[i]| && HasTriangle(r[i])
  {
    seq(|ps|, i requires 0 <= i < |ps| => ProjectPolygon(ps[i]))
  }

  // ---------------------------------------------------------------------------
  // Back-face culling

  /** The first three vertices, each with three coordinates. */
  predicate HasTriangle(p: Polygon) {
    |p| >= 3 && |p[0]| >= 3 && |p[1]| >= 3 && |p[2]| >= 3
  }

  function Corner(c: Coords): Vec3
    requires |c| >= 3
  {
    Vec3(c[0], c[1], c[2])
  }

  /** The z component of cross(b - a, c - b). */
  function Turn(a: Vec3, b: Vec3, c: Vec3): real {
    Cross(Sub(b, a), Sub(c, b)).z
  }

  /** The turn of the polygon's first three vertices. */
  function Orientation(p: Polygon): real
    requires HasTriangle(p)
  {
    Turn(Corner(p[0]), Corner(p[1]), Corner(p[2]))
  }

  /** A polygon faces the viewer when its screen-space normal points out of the screen. */
  predicate FacesViewer(p: Polygon)
    requires HasTriangle(p)
  {
    Orientation(p) > 0.0
  }

  /** Traversing the triangle backwards negates the orientation, so of the two
      orders at most one faces the viewer. */
  lemma OrientationReversed(p: Polygon)
    requires HasTriangle(p)
    ensures HasTriangle([p[2], p[1], p[0]] + p[3..])
    ensures Orientation([p[2], p[1], p[0]] + p[3..]) == -Orientation(p)
    ensures FacesViewer(p) ==> !FacesViewer([p[2], p[1], p[0]] + p[3..])
  {
    var r := [p[2], p[1], p[0]] + p[3..];
    assert r[0] == p[2] && r[1] == p[1] && r[2] == p[0];
    TurnReversed(Corner(p[0]), Corner(p[1]), Corner(p[2]));
  }

  lemma TurnReversed(a: Vec3, b: Vec3, c: Vec3)
    ensures Turn(c, b, a) == -Turn(a, b, c)
  {
    var u, v := Sub(b, a), Sub(c, b);
    assert Sub(b, c) == Neg(v) && Sub(a, b) == Neg(u);
    CrossAntiCommutative(v, u);
    assert Cross(Neg(v), Neg(u)) == Cross(v, u);
  }

  /** Twice the signed area of the screen triangle (x0, y0), (x1, y1), (x2, y2),
      by the shoelace formula; positive when the vertices turn counter-clockwise. */
  function SignedArea2(p: Polygon): real
    requires HasTriangle(p)
  {
    (p[0][0] * p[1][1] - p[1][0] * p[0][1]) + (p[1][0] * p[2][1] - p[2][0] * p[1][1]) + (p[2][0] * p[0][1] - p[0][0] * p[2][1])
  }

  /** The culling test is the shoelace sign: it depends on the screen x and y
      of the first three vertices alone. */
  lemma OrientationIsSignedArea(p: Polygon)
    requires HasTriangle(p)
    ensures Orientation(p) == SignedArea2(p)
  {
    var a, b, c := Corner(p[0]), Corner(p[1]), Corner(p[2]);
    TurnComponents(a.x, a.y, a.z, b.x, b.y, b.z, c.x, c.y, c.z, Orientation(p));
    ShoelaceIdentity(a.x, a.y, b.x, b.y, c.x, c.y);
  }

  /** The turn in screen coordinates: (b - a) × (c - b) restricted to x and y. */
  lemma TurnComponents(a0: real, a1: real, a2: real, b0: real, b1: real, b2: real, c0: real, c1: real, c2: real, w: real)
    requires w == Turn(Vec3(a0, a1, a2), Vec3(b0, b1, b2), Vec3(c0, c1, c2))
    ensures w == (b0 - a0) * (c1 - b1) - (b1 - a1) * (c0 - b0)
  {
  }

  /** The polygons that face the viewer, in their original order. */
  function VisiblePolygons(ps: seq<Polygon>): (r: seq<Polygon>)
    requires forall i :: 0 <= i < |ps| ==> HasTriangle(ps[i])
    ensures |r| <= |ps|
    ensures forall p :: p in r ==> p in ps && FacesViewer(p)
  {
    if ps == [] then []
    else (if FacesViewer(ps[0]) then [ps[0]] else []) + VisiblePolygons(ps[1..])
  }

  /** Every polygon that faces the viewer is kept. */
  lemma {:induction false} VisibleComplete(ps: seq<Polygon>, i: int)
    requires forall k :: 0 <= k < |ps| ==> HasTriangle(ps[k])
    requires 0 <= i < |ps| && FacesViewer(ps[i])
    ensures ps[i] in VisiblePolygons(ps)
  {
    if i > 0 {
      assert ps[1..][i - 1] == ps[i];
      VisibleComplete(ps[1..], i - 1);
    }
  }

  /** The filter distributes over concatenation, so it keeps the order. */
  lemma {:induction false} VisibleAppend(a: seq<Polygon>, b: seq<Polygon>)
    requires forall k :: 0 <= k < |a| ==> HasTriangle(a[k])
    requires forall k :: 0 <= k < |b| ==> HasTriangle(b[k])
    ensures forall k :: 0 <= k < |a + b| ==> HasTriangle((a + b)[k])
    ensures VisiblePolygons(a + b) == VisiblePolygons(a) + VisiblePolygons(b)
  {
    if a == [] {
      assert a + b == b;
    } else {
      assert (a + b)[1..] == a[1..] + b;
      VisibleAppend(a[1..], b);
    }
  }

  /** One more polygon is kept exactly when it faces the viewer. */
  lemma VisibleSnoc(ps: seq<Polygon>, p: Polygon)
    requires forall k :: 0 <= k < |ps| ==> HasTriangle(ps[k])
    requires HasTriangle(p)
    ensures forall k :: 0 <= k < |ps + [p]| ==> HasTriangle((ps + [p])[k])
    ensures VisiblePolygons(ps + [p]) == VisiblePolygons(ps) + (if FacesViewer(p) then [p] else [])
  {
    VisibleAppend(ps, [p]);
    assert [p][1..] == [];
  }

  /** The filtering loop of the visible-polygon query: a polygon is kept when
      the normal of its first three vertices points out of the screen. */
  method KeepFacing(projected: seq<Polygon>) returns (visible: seq<Polygon>)
    requires forall k :: 0 <= k < |projected| ==> HasTriangle(projected[k])
    ensures visible == VisiblePolygons(projected)
  {
    visible := [];
    var i := 0;
    while i < |projected|
      invariant 0 <= i <= |projected|
      invariant visible == VisiblePolygons(projected[..i])
    {
      assert projected[..i + 1] == projected[..i] + [projected[i]];
      VisibleSnoc(projected[..i], projected[i]);
      if FacesViewer(projected[i]) {
        visible := visible + [projected[i]];
      }
      i := i + 1;
    }
    assert projected[..i] == projected;
  }

  // ---------------------------------------------------------------------------
  // Torque

  function Abs(a: real): (r: real)
    ensures r >= 0.0 && (r == a || r == -a)
  {
    if a < 0.0 then -a else a
  }

  /** The moment of inertia about the torque axis: the inertia vector taken
      into the body axes and projected on the torque axis, without sign. */
  function MomentAbout(torqueAxis: Vec3, inertiaX: real, inertiaY: real, inertiaZ: real,
                       xAxis: Quaternion, yAxis: Quaternion, zAxis: Quaternion): real
  {
    Abs(Dot(torqueAxis, CoordinateTransform(Quaternion(0.0, inertiaX, inertiaY, inertiaZ), xAxis, yAxis, zAxis).Vector()))
  }

  /** With the body axes still on the standard axes the moment is the inertia
      vector itself projected on the torque axis. */
  lemma MomentAboutStandardAxes(torqueAxis: Vec3, inertiaX: real, inertiaY: real, inertiaZ: real)
    ensures MomentAbout(torqueAxis, inertiaX, inertiaY, inertiaZ, XAxis, YAxis, ZAxis)
         == Abs(Dot(torqueAxis, Vec3(inertiaX, inertiaY, inertiaZ)))
  {
    CoordinateTransformStandardBasis(Quaternion(0.0, inertiaX, inertiaY, inertiaZ));
  }

  /** The change of spin rate: torque over moment, times the duration. */
  function AngularVelocityDelta(moment: real, torqueNewtonMeters: real, numSeconds: real): real
    requires moment != 0.0
  {
    (torqueNewtonMeters / moment) * numSeconds
  }

  /** The angular impulse law: moment times the change of rate equals torque
      times duration. */
  lemma AngularImpulse(moment: real, torqueNewtonMeters: real, numSeconds: real)
    requires moment != 0.0
    ensures AngularVelocityDelta(moment, torqueNewtonMeters, numSeconds) * moment == torqueNewtonMeters * numSeconds
  {
    ImpulseIdentity(torqueNewtonMeters, moment, numSeconds);
  }

  /** A spin rate about a body axis after a change of rate about the torque
      axis: the change is shared out by the axis's component along the torque. */
  function SpunUp(rate: real, delta: real, torqueAxis: Vec3, axis: Quaternion): real {
    rate + delta * Dot(torqueAxis, axis.Vector())
  }

  /** An opposite torque of the same duration produces the opposite change. */
  lemma OppositeTorque(moment: real, torqueNewtonMeters: real, numSeconds: real)
    requires moment != 0.0
    ensures AngularVelocityDelta(moment, -torqueNewtonMeters, numSeconds) == -AngularVelocityDelta(moment, torqueNewtonMeters, numSeconds)
  {
    var d1, d2 := AngularVelocityDelta(moment, -torqueNewtonMeters, numSeconds), AngularVelocityDelta(moment, torqueNewtonMeters, numSeconds);
    AngularImpulse(moment, -torqueNewtonMeters, numSeconds);
    AngularImpulse(moment, torqueNewtonMeters, numSeconds);
    CancelNegated(d1, d2, moment);
  }

  /** Applying a torque and then the opposite torque for the same duration
      leaves every spin rate where it was. */
  lemma TorqueUndone(rate: real, moment: real, torqueNewtonMeters: real, numSeconds: real, torqueAxis: Vec3, axis: Quaternion)
    requires moment != 0.0
    ensures SpunUp(SpunUp(rate, AngularVelocityDelta(moment, torqueNewtonMeters, numSeconds), torqueAxis, axis),
                   AngularVelocityDelta(moment, -torqueNewtonMeters, numSeconds), torqueAxis, axis) == rate
  {
    OppositeTorque(moment, torqueNewtonMeters, numSeconds);
  }

  // ---------------------------------------------------------------------------
  // The service

  /** AttitudeModelServiceImpl: the spin rates, the body axes and the polygons. */
  class AttitudeModel {
    /** The sine and cosine of the runtime. */
    const trig: Trig
    const momentOfInertiaX: real
    const momentOfInertiaY: real
    const momentOfInertiaZ: real
    var radiansPerSecondX: real
    var radiansPerSecondY: real
    var radiansPerSecondZ: real
    var xAxis: Quaternion
    var yAxis: Quaternion
    var zAxis: Quaternion
    var polygons: seq<Polygon>

    /** The trigonometric laws hold and each body axis is a unit pure
        quaternion. The last three conjuncts follow from the others
        (UnitPureRotatable); they are kept here because the contracts of Step
        and RotateAxes apply RotateAboutAxes to the old axes, and a contract
        must be well-formed from its preconditions alone. */
    ghost predicate Valid()
      reads this
    {
      && Laws(trig)
      && UnitPure(xAxis) && UnitPure(yAxis) && UnitPure(zAxis)
      && RotatableAbout(xAxis, trig) && RotatableAbout(yAxis, trig) && RotatableAbout(zAxis, trig)
    }

    /** The polygons and the moments of inertia are given; the spin rates start
        at zero and the body axes at the standard basis. */
    constructor (initialPolygons: seq<Polygon>, inertiaX: real, inertiaY: real, inertiaZ: real, t: Trig)
      requires Laws(t)
      ensures Valid()
      ensures trig == t && polygons == initialPolygons
      ensures momentOfInertiaX == inertiaX && momentOfInertiaY == inertiaY && momentOfInertiaZ == inertiaZ
      ensures radiansPerSecondX == 0.0 && radiansPerSecondY == 0.0 && radiansPerSecondZ == 0.0
      ensures xAxis == XAxis && yAxis == YAxis && zAxis == ZAxis
    {
      trig := t;
      momentOfInertiaX, momentOfInertiaY, momentOfInertiaZ := inertiaX, inertiaY, inertiaZ;
      radiansPerSecondX, radiansPerSecondY, radiansPerSecondZ := 0.0, 0.0, 0.0;
      xAxis, yAxis, zAxis := XAxis, YAxis, ZAxis;
      polygons := initialPolygons;
      UnitPureRotatable(XAxis, t);
      UnitPureRotatable(YAxis, t);
      UnitPureRotatable(ZAxis, t);
    }

    /** The visible polygons of the current state. */
    method Init() returns (visible: seq<Polygon>)
      requires Viewable(polygons)
      ensures visible == VisiblePolygons(ProjectScene(polygons))
    {
      visible := GetVisible2DProjectedSpacecraftPolygons();
    }

    /** Projects every polygon, then keeps, in order, those facing the viewer. */
    method GetVisible2DProjectedSpacecraftPolygons() returns (visible: seq<Polygon>)
      requires Viewable(polygons)
      ensures visible == VisiblePolygons(ProjectScene(polygons))
    {
      var projected := ProjectScene(polygons);
      visible := KeepFacing(projected);
    }

    /** Turns every vertex and the three axes by the rates divided by the step,
        the axes one after the other, then returns the visible polygons. */
    method Step(stepSeconds: real) returns (visible: seq<Polygon>)
      requires Valid() && stepSeconds != 0.0
      requires InsideScene(polygons)
      modifies this
      ensures Valid() && InsideScene(polygons) && Viewable(polygons)
      ensures radiansPerSecondX == old(radiansPerSecondX)
      ensures radiansPerSecondY == old(radiansPerSecondY)
      ensures radiansPerSecondZ == old(radiansPerSecondZ)
      ensures var ax, ay, az := old(radiansPerSecondX) / stepSeconds, old(radiansPerSecondY) / stepSeconds, old(radiansPerSecondZ) / stepSeconds;
        if ax == 0.0 && ay == 0.0 && az == 0.0 then
          polygons == old(polygons) && xAxis == old(xAxis) && yAxis == old(yAxis) && zAxis == old(zAxis)
        else
          && polygons == RotateScene(old(polygons), old(xAxis), old(yAxis), old(zAxis), ax, ay, az, trig)
          && xAxis == RotateAboutAxes(old(xAxis), old(xAxis), old(yAxis), old(zAxis), ax, ay, az, trig)
          && yAxis == RotateAboutAxes(old(yAxis), xAxis, old(yAxis), old(zAxis), ax, ay, az, trig)
          && zAxis == RotateAboutAxes(old(zAxis), xAxis, yAxis, old(zAxis), ax, ay, az, trig)
      ensures visible == VisiblePolygons(ProjectScene(polygons))
    {
      var ax := radiansPerSecondX / stepSeconds;
      var ay := radiansPerSecondY / stepSeconds;
      var az := radiansPerSecondZ / stepSeconds;
      if ax != 0.0 || ay != 0.0 || az != 0.0 {
        RotateSceneInside(polygons, xAxis, yAxis, zAxis, ax, ay, az, trig);
        RotateVertices(ax, ay, az);
        RotateAxes(ax, ay, az);
      }
      InsideSceneViewable(polygons);
      visible := GetVisible2DProjectedSpacecraftPolygons();
    }

    /** step()'s nested loops: every vertex of every polygon is turned. */
    method RotateVertices(ax: real, ay: real, az: real)
      requires Rotatable(polygons) && AxesDefined(xAxis, yAxis, zAxis, ax, ay, az, trig)
      modifies this`polygons
      ensures polygons == RotateScene(old(polygons), xAxis, yAxis, zAxis, ax, ay, az, trig)
    {
      var i := 0;
      while i < |polygons|
        invariant 0 <= i <= |polygons| == |old(polygons)|
        invariant forall k :: 0 <= k < i ==> polygons[k] == RotatePolygon(old(polygons)[k], xAxis, yAxis, zAxis, ax, ay, az, trig)
        invariant forall k :: i <= k < |polygons| ==> polygons[k] == old(polygons)[k]
      {
        RotatePolygonVertices(i, ax, ay, az);
        i := i + 1;
      }
    }

    /** The inner loop of step(): the vertices of polygon i are turned in place. */
    method RotatePolygonVertices(i: int, ax: real, ay: real, az: real)
      requires 0 <= i < |polygons|
      requires forall j :: 0 <= j < |polygons[i]| ==> |polygons[i][j]| >= 3
      requires AxesDefined(xAxis, yAxis, zAxis, ax, ay, az, trig)
      modifies this`polygons
      ensures polygons == old(polygons)[i := RotatePolygon(old(polygons)[i], xAxis, yAxis, zAxis, ax, ay, az, trig)]
    {
      var j := 0;
      while j < |polygons[i]|
        invariant |polygons| == |old(polygons)|
        invariant 0 <= j <= |polygons[i]| == |old(polygons)[i]|
        invariant forall k :: 0 <= k < |polygons| && k != i ==> polygons[k] == old(polygons)[k]
        invariant forall m :: 0 <= m < j ==> polygons[i][m] == RotateVertex(old(polygons)[i][m], xAxis, yAxis, zAxis, ax, ay, az, trig)
        invariant forall m :: j <= m < |polygons[i]| ==> polygons[i][m] == old(polygons)[i][m]
      {
        var coords := polygons[i][j];
        var q := RotateAboutAxes(VertexQuaternion(coords), xAxis, yAxis, zAxis, ax, ay, az, trig);
        coords := coords[0 := q.x][1 := q.y][2 := q.z];
        polygons := polygons[i := polygons[i][j := coords]];
        j := j + 1;
      }
      assert polygons[i] == RotatePolygon(old(polygons)[i], xAxis, yAxis, zAxis, ax, ay, az, trig);
    }

    /** The three axis updates of step(), each seeing the axes already updated. */
    method RotateAxes(ax: real, ay: real, az: real)
      requires Valid()
      modifies this`xAxis, this`yAxis, this`zAxis
      ensures Valid()
      ensures xAxis == RotateAboutAxes(old(xAxis), old(xAxis), old(yAxis), old(zAxis), ax, ay, az, trig)
      ensures yAxis == RotateAboutAxes(old(yAxis), xAxis, old(yAxis), old(zAxis), ax, ay, az, trig)
      ensures zAxis == RotateAboutAxes(old(zAxis), xAxis, yAxis, old(zAxis), ax, ay, az, trig)
    {
      RotateAboutAxesUnitPure(xAxis, xAxis, yAxis, zAxis, ax, ay, az, trig);
      xAxis := RotateAboutAxes(xAxis, xAxis, yAxis, zAxis, ax, ay, az, trig);
      UnitPureRotatable(xAxis, trig);
      RotateAboutAxesUnitPure(yAxis, xAxis, yAxis, zAxis, ax, ay, az, trig);
      yAxis := RotateAboutAxes(yAxis, xAxis, yAxis, zAxis, ax, ay, az, trig);
      UnitPureRotatable(yAxis, trig);
      RotateAboutAxesUnitPure(zAxis, xAxis, yAxis, zAxis, ax, ay, az, trig);
      zAxis := RotateAboutAxes(zAxis, xAxis, yAxis, zAxis, ax, ay, az, trig);
      UnitPureRotatable(zAxis, trig);
    }

    /** Adds to each spin rate the angular velocity change times the torque
        axis's component along that body axis; returns the z axis. */
    method ApplyTorque(torque: Quaternion, torqueNewtonMeters: real, numSeconds: real) returns (zAxisVector: Vec3)
      requires MomentAbout(torque.Vector(), momentOfInertiaX, momentOfInertiaY, momentOfInertiaZ, xAxis, yAxis, zAxis) != 0.0
      modifies this
      ensures xAxis == old(xAxis) && yAxis == old(yAxis) && zAxis == old(zAxis) && polygons == old(polygons)
      ensures Valid() == old(Valid())
      ensures var delta := old(AngularVelocityDelta(MomentAbout(torque.Vector(), momentOfInertiaX, momentOfInertiaY, momentOfInertiaZ,
                                                                xAxis, yAxis, zAxis), torqueNewtonMeters, numSeconds));
        && radiansPerSecondX == SpunUp(old(radiansPerSecondX), delta, torque.Vector(), xAxis)
        && radiansPerSecondY == SpunUp(old(radiansPerSecondY), delta, torque.Vector(), yAxis)
        && radiansPerSecondZ == SpunUp(old(radiansPerSecondZ), delta, torque.Vector(), zAxis)
      ensures zAxisVector == zAxis.Vector()
    {
      var torqueAxis := torque.Vector();
      zAxisVector := zAxis.Vector();
      var momentOfInertia := MomentAbout(torqueAxis, momentOfInertiaX, momentOfInertiaY, momentOfInertiaZ, xAxis, yAxis, zAxis);
      var angularVelocityDelta := AngularVelocityDelta(momentOfInertia, torqueNewtonMeters, numSeconds);
      radiansPerSecondX := SpunUp(radiansPerSecondX, angularVelocityDelta, torqueAxis, xAxis);
      radiansPerSecondY := SpunUp(radiansPerSecondY, angularVelocityDelta, torqueAxis, yAxis);
      radiansPerSecondZ := SpunUp(radiansPerSecondZ, angularVelocityDelta, torqueAxis, zAxis);
    }

    /** The current x-axis; a unit pure quaternion while the object is valid. */
    method GetXAxisQuarternion() returns (q: Quaternion)
      ensures q == xAxis && (Valid() ==> UnitPure(q))
    {
      q := xAxis;
    }

    /** The current y-axis; a unit pure quaternion while the object is valid. */
    method GetYAxisQuarternion() returns (q: Quaternion)
      ensures q == yAxis && (Valid() ==> UnitPure(q))
    {
      q := yAxis;
    }

    /** The current z-axis; a unit pure quaternion while the object is valid. */
    method GetZAxisQuarternion() returns (q: Quaternion)
      ensures q == zAxis && (Valid() ==> UnitPure(q))
    {
      q := zAxis;
    }
  }
}


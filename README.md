# Spacecraft attitude engine, modelled in Dafny

This project models the attitude engine of the spacecraft propagator service:

- the quaternion algebra of `Quarternion`: the Hamilton product, the inverse, the
  sandwich-product rotation, the norm (as its square), the change of basis and
  componentwise equality (`Quaternion.dfy`, module `QuaternionAlgebra`);
- the three-vector helpers of `LinearAlgebra`: dot product, cross product and the
  3x3 matrix-vector product whose inner lists are the matrix's columns
  (`LinearAlgebra.dfy`, module `LinearAlgebra`);
- the simulator `AttitudeModelServiceImpl` (`AttitudeModel.dfy`, module
  `AttitudeModelService`). It is a class with three per-axis spin rates, three
  body-axis quaternions and the nested polygon list. `Step` turns every vertex in
  place, in nested loops, and then reassigns the three axes one after the other.
  `ApplyTorque` adds to the spin rates. The visible-polygon query projects every
  vertex in perspective and keeps the polygons whose screen-space cross product
  points at the viewer. The private per-point `rotate()` and the projection of
  one vertex are pure functions.

`double` is modelled as `real`, so every quotient is exact and the algebraic laws
of the quaternions hold exactly. `Math.sin` and `Math.cos` come in as a value of
type `Trig.Trig`, a pair of functions. The laws the proofs need are stated as the
ghost predicates `Laws` and `Parity`:

- sin² + cos² = 1;
- cos 0 = 1 and sin 0 = 0;
- cosine is even and sine is odd.

Every division of the source becomes a precondition that its divisor is nonzero:

- the operator's squared norm in `rotate()`;
- the step length;
- the moment of inertia about the torque axis;
- the perspective divisor 1 − z/100.

`RealIdentities.dfy` holds the identities over plain reals that these proofs
reduce to.

A few things the code does that a reader might not expect. The model does
the same, except for the zero step, which it excludes:

- **Change of basis.** `coordinateTransform` multiplies by the matrix whose
  columns are the three axes. It is not a shortest-arc rotation between two unit
  vectors.
- **Spin.** Spin is three per-axis scalars. It is not an axis plus a magnitude, and
  there is no zero-rotation threshold.
- **Zero step.** `step` does not reject a zero step length. The angles then
  become NaN or infinite, the nonzero test lets them through, and every
  coordinate and every axis becomes NaN. The reals cannot express this, so
  `AttitudeModel.Step` requires a nonzero step.
- **Angle.** `step` divides each rate by the step length to get the angle. The
  model does the same (`AttitudeModel.Step`).
- **Axes drift apart.** `step` does not keep the three body axes orthogonal.
  The y axis is turned about the x axis that was just updated, and each skip in
  the private `rotate()` tests the original point. Take rates (1, 0, 1), a step
  of 1, and a sine and cosine of 0.6 and 0.8 at every nonzero angle. The new x
  axis is then (0.28, 0.96, 0), and its dot product with the new y axis is
  0.193536 rather than 0 (`AttitudeModelService.RotateAxesDrift`). Each axis
  does stay of unit length (`AttitudeModel.RotateAxes`).

## Model

| member | source | states |
|---|---|---|
| `LinearAlgebra.Dot` | src/main/java/com/spacecraftpropagator/model/LinearAlgebra.java:30-33 | dotProduct3x3. Its symmetry is `DotSymmetric` |
| `LinearAlgebra.Cross` | src/main/java/com/spacecraftpropagator/model/LinearAlgebra.java:35-44 | crossProduct3x3. Its laws are `CrossAntiCommutative`, `CrossSelfIsZero`, `CrossOrthogonal` and `CrossOfScaled` |
| `LinearAlgebra.MatVec` | src/main/java/com/spacecraftpropagator/model/LinearAlgebra.java:46-70 | matrixVectorMult3x3. Its meaning is given by `MatVecColumns`, `MatVecLinear` and `MatVecIdentity` |
| `LinearAlgebra.DotSymmetric` | src/main/java/com/spacecraftpropagator/model/LinearAlgebra.java:30-33 | dot(u, v) = dot(v, u) |
| `LinearAlgebra.CrossOrthogonal` | src/main/java/com/spacecraftpropagator/model/LinearAlgebra.java:35-44 | the cross product is orthogonal to both of its arguments |
| `LinearAlgebra.CrossAntiCommutative` | src/main/java/com/spacecraftpropagator/model/LinearAlgebra.java:35-44 | cross(u, v) = −cross(v, u) |
| `LinearAlgebra.CrossSelfIsZero` | src/main/java/com/spacecraftpropagator/model/LinearAlgebra.java:39-41 | cross(u, u) is the zero vector |
| `LinearAlgebra.CrossOfScaled` | src/main/java/com/spacecraftpropagator/model/LinearAlgebra.java:35-44 | scaling the first argument scales the cross product by the same factor |
| `LinearAlgebra.MatVecColumns` | src/main/java/com/spacecraftpropagator/model/LinearAlgebra.java:46-69 | list k of the matrix is column k, so the product is x·col0 + y·col1 + z·col2 |
| `LinearAlgebra.MatVecLinear` | src/main/java/com/spacecraftpropagator/model/LinearAlgebra.java:63-69 | the product is linear in the vector: M(a u + b v) = a Mu + b Mv |
| `LinearAlgebra.MatVecIdentity` | src/main/java/com/spacecraftpropagator/model/LinearAlgebra.java:63-69 | the columns (1,0,0), (0,1,0), (0,0,1) give back the input vector |
| `QuaternionAlgebra.NormSquared` | src/main/java/com/spacecraftpropagator/model/Quarternion.java:92-94 | norm() without the square root. Its laws are `NormSquaredSign`, `NormSquaredScale`, `NormSquaredConjugate` and `NormSquaredMultiplicative` |
| `QuaternionAlgebra.QMultiply` | src/main/java/com/spacecraftpropagator/model/Quarternion.java:109-122 | qMultiply, component by component. Its laws are `MultiplyPure`, `MultiplyOne`, `MultiplyAssociative` and `NormSquaredMultiplicative` |
| `QuaternionAlgebra.Multiply` | src/main/java/com/spacecraftpropagator/model/Quarternion.java:74-80 | qMultiply called with the components of two quaternions, as rotate() calls it |
| `QuaternionAlgebra.Operator` | src/main/java/com/spacecraftpropagator/model/Quarternion.java:69-72 | the operator built from the axis and angle. Its laws are `OperatorZeroAngle` and `OperatorUnit` |
| `QuaternionAlgebra.Rotate` | src/main/java/com/spacecraftpropagator/model/Quarternion.java:53-90 | the sandwich product rotate(). Its laws are `RotatePure`, `RotatePreservesNormSquared`, `RotatePreservesDot`, `RotateZeroAngle`, `RotateCommuting` and `RotateRoundTrip` |
| `QuaternionAlgebra.NormSquaredSign` | src/main/java/com/spacecraftpropagator/model/Quarternion.java:92-94 | r²+x²+y²+z² is never negative and is zero exactly for the zero quaternion |
| `QuaternionAlgebra.NormSquaredScale` | src/main/java/com/spacecraftpropagator/model/Quarternion.java:92-94 | scaling by k multiplies the squared norm by k² |
| `QuaternionAlgebra.NormSquaredConjugate` | src/main/java/com/spacecraftpropagator/model/Quarternion.java:92-94 | the conjugate has the same squared norm |
| `QuaternionAlgebra.MultiplyPure` | src/main/java/com/spacecraftpropagator/model/Quarternion.java:117-120 | for two pure quaternions the product has real part −dot(u, v) and vector part cross(u, v) |
| `QuaternionAlgebra.MultiplyOne` | src/main/java/com/spacecraftpropagator/model/Quarternion.java:117-120 | (1, 0, 0, 0) is a two-sided unit of the product |
| `QuaternionAlgebra.MultiplyReal` | src/main/java/com/spacecraftpropagator/model/Quarternion.java:117-120 | multiplying by (n, 0, 0, 0) on either side scales by n |
| `QuaternionAlgebra.MultiplyScaleRight` | src/main/java/com/spacecraftpropagator/model/Quarternion.java:117-120 | a (k b) = k (a b) |
| `QuaternionAlgebra.MultiplyScaleLeft` | src/main/java/com/spacecraftpropagator/model/Quarternion.java:117-120 | (k a) b = k (a b) |
| `QuaternionAlgebra.MultiplyAssociative` | src/main/java/com/spacecraftpropagator/model/Quarternion.java:117-120 | the product is associative |
| `QuaternionAlgebra.ConjugateProducts` | src/main/java/com/spacecraftpropagator/model/Quarternion.java:117-120 | q q* = q* q = (\|q\|², 0, 0, 0) |
| `QuaternionAlgebra.ConjugateOfProduct` | src/main/java/com/spacecraftpropagator/model/Quarternion.java:117-120 | (a b)* = b* a* |
| `QuaternionAlgebra.NormSquaredMultiplicative` | src/main/java/com/spacecraftpropagator/model/Quarternion.java:117-120 | \|a b\|² = \|a\|² \|b\|² |
| `QuaternionAlgebra.Inverse` | src/main/java/com/spacecraftpropagator/model/Quarternion.java:124-127 | defined when the squared norm is nonzero, and then a two-sided inverse: q q⁻¹ = q⁻¹ q = (1, 0, 0, 0) |
| `QuaternionAlgebra.InverseIsScaledConjugate` | src/main/java/com/spacecraftpropagator/model/Quarternion.java:124-127 | the components qInverse computes are the conjugate scaled by 1/\|q\|² |
| `QuaternionAlgebra.InverseNormSquared` | src/main/java/com/spacecraftpropagator/model/Quarternion.java:124-127 | \|q⁻¹\|² \|q\|² = 1 |
| `QuaternionAlgebra.InverseOne` | src/main/java/com/spacecraftpropagator/model/Quarternion.java:124-127 | the unit is its own inverse |
| `QuaternionAlgebra.UnitInverse` | src/main/java/com/spacecraftpropagator/model/Quarternion.java:124-127 | for squared norm 1 the inverse is the conjugate |
| `QuaternionAlgebra.OperatorZeroAngle` | src/main/java/com/spacecraftpropagator/model/Quarternion.java:69-72 | angle 0 builds the operator (1, 0, 0, 0), whatever the axis |
| `QuaternionAlgebra.OperatorUnit` | src/main/java/com/spacecraftpropagator/model/Quarternion.java:69-72 | for an axis with a unit vector part the operator has squared norm 1, so rotate() is defined |
| `QuaternionAlgebra.SandwichRealPart` | src/main/java/com/spacecraftpropagator/model/Quarternion.java:74-80 | q w q⁻¹ has the real part of w |
| `QuaternionAlgebra.RotatePure` | src/main/java/com/spacecraftpropagator/model/Quarternion.java:69-80 | rotating a pure quaternion gives a pure quaternion |
| `QuaternionAlgebra.RotatePreservesNormSquared` | src/main/java/com/spacecraftpropagator/model/Quarternion.java:69-80 | rotate() keeps the squared norm, for any axis whose operator is invertible |
| `QuaternionAlgebra.RotatePreservesDot` | src/main/java/com/spacecraftpropagator/model/Quarternion.java:69-80 | rotating two pure quaternions about the same axis keeps their dot product |
| `QuaternionAlgebra.RotateZeroAngle` | src/main/java/com/spacecraftpropagator/model/Quarternion.java:69-80 | rotating by angle 0 returns the input |
| `QuaternionAlgebra.RotateCommuting` | src/main/java/com/spacecraftpropagator/model/Quarternion.java:69-80 | a quaternion whose vector part is parallel to the axis (zero cross product) is left unchanged |
| `QuaternionAlgebra.RotateRoundTrip` | src/main/java/com/spacecraftpropagator/model/Quarternion.java:69-80 | about a unit axis, rotating by θ and then by −θ returns the input |
| `QuaternionAlgebra.CoordinateTransform` | src/main/java/com/spacecraftpropagator/model/Quarternion.java:96-107 | the result has real part 0 |
| `QuaternionAlgebra.CoordinateTransformCombination` | src/main/java/com/spacecraftpropagator/model/Quarternion.java:98-106 | the vector part is x·xAxis + y·yAxis + z·zAxis |
| `QuaternionAlgebra.CoordinateTransformStandardBasis` | src/main/java/com/spacecraftpropagator/model/Quarternion.java:96-107 | with the standard axes the result is (0, x, y, z) |
| `QuaternionAlgebra.Equals` | src/main/java/com/spacecraftpropagator/model/Quarternion.java:140-147 | holds exactly when all four components agree, that is, exactly when the two quaternions are equal |
| `AttitudeModelService.SameVector` | src/main/java/com/spacecraftpropagator/services/AttitudeModelServiceImpl.java:212-222 | the skip test of the private rotate() at lines 212, 217 and 222: the x, y and z components of q equal those of the axis |
| `AttitudeModelService.RotateAboutAxes` | src/main/java/com/spacecraftpropagator/services/AttitudeModelServiceImpl.java:210-227 | the private rotate(). Its laws are `RotateAboutAxesPreserves`, `RotateAboutAxesFirstSkip`, `RotateAboutAxesLaterSkip`, `RotateAboutAxesZero` and `RotateAboutAxesUnitPure` |
| `AttitudeModelService.RotateAxesDrift` | src/main/java/com/spacecraftpropagator/services/AttitudeModelServiceImpl.java:112-113 | with rates (1, 0, 1) and sine 0.6, cosine 0.8, the x and y axes that step() computes have dot product 0.193536, so they are no longer orthogonal |
| `AttitudeModelService.RotateAboutAxesPreserves` | src/main/java/com/spacecraftpropagator/services/AttitudeModelServiceImpl.java:210-227 | the private rotate() keeps the squared norm and keeps pure points pure |
| `AttitudeModelService.RotateAboutAxesFirstSkip` | src/main/java/com/spacecraftpropagator/services/AttitudeModelServiceImpl.java:211-214 | skipping the x axis is harmless: if q matches neither the y nor the z axis, the result is the plain x-then-y-then-z composition |
| `AttitudeModelService.RotateAboutAxesLaterSkip` | src/main/java/com/spacecraftpropagator/services/AttitudeModelServiceImpl.java:216-224 | the y and z skips test the original q and not the point already turned. With sine 0.6 and cosine 0.8, the y axis turned about x by 1 and then about y by 1 ends at (0, 0.28, 0.96) in rotate(), but at (0.9216, 0.28, 0.2688) in the composition |
| `AttitudeModelService.RotateAboutAxesZero` | src/main/java/com/spacecraftpropagator/services/AttitudeModelServiceImpl.java:210-227 | zero angles return q, so the nonzero-angle test in step() does not change its outcome |
| `AttitudeModelService.UnitPureRotatable` | src/main/java/com/spacecraftpropagator/model/Quarternion.java:69-77 | every rotation about a unit pure axis has an invertible operator |
| `AttitudeModelService.RotateAboutAxesUnitPure` | src/main/java/com/spacecraftpropagator/services/AttitudeModelServiceImpl.java:112-114 | an axis that is a unit pure quaternion stays one through the private rotate() |
| `AttitudeModelService.VertexQuaternion` | src/main/java/com/spacecraftpropagator/services/AttitudeModelServiceImpl.java:103 | the pure quaternion (0, x, y, z) built from a vertex's first three coordinates |
| `AttitudeModelService.RotatePolygon` | src/main/java/com/spacecraftpropagator/services/AttitudeModelServiceImpl.java:101-109 | the polygon after the inner vertex loop: every vertex replaced by `RotateVertex` of it, so its length and later coordinates are kept |
| `AttitudeModelService.RotateVertex` | src/main/java/com/spacecraftpropagator/services/AttitudeModelServiceImpl.java:102-108 | coordinates 0-2 become the rotated point, the length and all later coordinates are kept |
| `AttitudeModelService.RotateScene` | src/main/java/com/spacecraftpropagator/services/AttitudeModelServiceImpl.java:99-110 | the number of polygons, the vertex count of every polygon, every vertex's length and its coordinates from index 3 on are kept |
| `AttitudeModelService.RotateSceneZero` | src/main/java/com/spacecraftpropagator/services/AttitudeModelServiceImpl.java:98-110 | turning the scene by zero angles gives it back unchanged |
| `AttitudeModelService.RotateSceneInside` | src/main/java/com/spacecraftpropagator/services/AttitudeModelServiceImpl.java:99-110 | a scene strictly inside the viewing sphere stays inside it when turned |
| `AttitudeModelService.Perspective` | src/main/java/com/spacecraftpropagator/services/AttitudeModelServiceImpl.java:235-236 | the divisor 1 − z/100 of the projection; `Project` states that x and y times it give back the original x and y |
| `AttitudeModelService.Project` | src/main/java/com/spacecraftpropagator/services/AttitudeModelServiceImpl.java:229-245 | defined when z ≠ 100. Gives three coordinates: z is kept, and x and y times the divisor 1 − z/100 give back the original x and y |
| `AttitudeModelService.ProjectScreenPlane` | src/main/java/com/spacecraftpropagator/services/AttitudeModelServiceImpl.java:235-237 | points at z = 0 are left where they are |
| `AttitudeModelService.ProjectAlongSightLine` | src/main/java/com/spacecraftpropagator/services/AttitudeModelServiceImpl.java:235-237 | every point on the line from the viewer (0, 0, 100) through a vertex projects to the same screen point |
| `AttitudeModelService.InsideProjectable` | src/main/java/com/spacecraftpropagator/services/AttitudeModelServiceImpl.java:40 | a vertex closer to the origin than the viewing distance can be projected |
| `AttitudeModelService.InsideSceneViewable` | src/main/java/com/spacecraftpropagator/services/AttitudeModelServiceImpl.java:174-176 | a scene inside the viewing sphere can be projected vertex by vertex |
| `AttitudeModelService.ProjectPolygon` | src/main/java/com/spacecraftpropagator/services/AttitudeModelServiceImpl.java:175 | one polygon with every vertex projected, in order |
| `AttitudeModelService.ProjectScene` | src/main/java/com/spacecraftpropagator/services/AttitudeModelServiceImpl.java:174-176 | the projected copy has as many polygons, and as many vertices per polygon, as the original, and each has a triangle to test |
| `AttitudeModelService.Turn` | src/main/java/com/spacecraftpropagator/services/AttitudeModelServiceImpl.java:189-200 | the z component of cross(b − a, c − b); `TurnReversed` and `OrientationIsSignedArea` give its meaning |
| `AttitudeModelService.Orientation` | src/main/java/com/spacecraftpropagator/services/AttitudeModelServiceImpl.java:189-200 | `Turn` of a polygon's first three projected vertices |
| `AttitudeModelService.FacesViewer` | src/main/java/com/spacecraftpropagator/services/AttitudeModelServiceImpl.java:200 | the cull test: `Orientation` is greater than 0. `OrientationReversed` shows that a polygon and its reversal never both pass |
| `AttitudeModelService.TurnReversed` | src/main/java/com/spacecraftpropagator/services/AttitudeModelServiceImpl.java:189-200 | walking the three vertices backwards negates cross(p1 − p0, p2 − p1).z |
| `AttitudeModelService.OrientationReversed` | src/main/java/com/spacecraftpropagator/services/AttitudeModelServiceImpl.java:189-201 | reversing the first three vertices negates the test value, so of a polygon and its reversal at most one is kept |
| `AttitudeModelService.OrientationIsSignedArea` | src/main/java/com/spacecraftpropagator/services/AttitudeModelServiceImpl.java:189-200 | the test value is twice the signed (shoelace) area of the screen triangle, so the z coordinates play no part |
| `AttitudeModelService.VisiblePolygons` | src/main/java/com/spacecraftpropagator/services/AttitudeModelServiceImpl.java:189-203 | keeps only polygons of the input that face the viewer, and never more than the input holds |
| `AttitudeModelService.VisibleComplete` | src/main/java/com/spacecraftpropagator/services/AttitudeModelServiceImpl.java:200-201 | every polygon that faces the viewer is kept |
| `AttitudeModelService.VisibleAppend` | src/main/java/com/spacecraftpropagator/services/AttitudeModelServiceImpl.java:189-203 | the filter distributes over concatenation, so the original order is kept |
| `AttitudeModelService.VisibleSnoc` | src/main/java/com/spacecraftpropagator/services/AttitudeModelServiceImpl.java:200-202 | one more polygon is appended to the result exactly when it faces the viewer |
| `AttitudeModelService.KeepFacing` | src/main/java/com/spacecraftpropagator/services/AttitudeModelServiceImpl.java:189-203 | the loop's result is exactly the order-keeping filter of the projected polygons |
| `AttitudeModelService.Abs` | src/main/java/com/spacecraftpropagator/services/AttitudeModelServiceImpl.java:133 | Math.abs: non-negative and equal to a or −a |
| `AttitudeModelService.MomentAbout` | src/main/java/com/spacecraftpropagator/services/AttitudeModelServiceImpl.java:128-133 | the moment of inertia about the torque axis. Its value with untouched axes is `MomentAboutStandardAxes` |
| `AttitudeModelService.AngularVelocityDelta` | src/main/java/com/spacecraftpropagator/services/AttitudeModelServiceImpl.java:136-137 | torque / moment · seconds. Its laws are `AngularImpulse` and `OppositeTorque` |
| `AttitudeModelService.SpunUp` | src/main/java/com/spacecraftpropagator/services/AttitudeModelServiceImpl.java:141-152 | one rate plus the change times the torque axis's component along that body axis. Undoing it is `TorqueUndone` |
| `AttitudeModelService.MomentAboutStandardAxes` | src/main/java/com/spacecraftpropagator/services/AttitudeModelServiceImpl.java:128-133 | with untouched body axes the moment about the torque axis is \|dot(torque axis, inertia vector)\| |
| `AttitudeModelService.AngularImpulse` | src/main/java/com/spacecraftpropagator/services/AttitudeModelServiceImpl.java:136-137 | moment × change of rate = torque × duration |
| `AttitudeModelService.OppositeTorque` | src/main/java/com/spacecraftpropagator/services/AttitudeModelServiceImpl.java:136-137 | the opposite torque for the same time gives the opposite change of rate |
| `AttitudeModelService.TorqueUndone` | src/main/java/com/spacecraftpropagator/services/AttitudeModelServiceImpl.java:141-152 | a torque and then the opposite torque, with the same moment and duration, leave each spin rate where it was |
| `AttitudeModelService.AttitudeModel.constructor` | src/main/java/com/spacecraftpropagator/services/AttitudeModelServiceImpl.java:46-84 | rates start at 0 and the axes at the standard basis. The polygons and inertia are the given values, and the object invariant holds |
| `AttitudeModelService.AttitudeModel.Init` | src/main/java/com/spacecraftpropagator/services/AttitudeModelServiceImpl.java:86-89 | returns the visible polygons of the current state |
| `AttitudeModelService.AttitudeModel.GetVisible2DProjectedSpacecraftPolygons` | src/main/java/com/spacecraftpropagator/services/AttitudeModelServiceImpl.java:172-208 | returns, in order, exactly the projected polygons that face the viewer, and changes nothing |
| `AttitudeModelService.AttitudeModel.Step` | src/main/java/com/spacecraftpropagator/services/AttitudeModelServiceImpl.java:91-118 | see below |
| `AttitudeModelService.AttitudeModel.RotateVertices` | src/main/java/com/spacecraftpropagator/services/AttitudeModelServiceImpl.java:99-110 | the outer loop leaves the scene turned vertex by vertex |
| `AttitudeModelService.AttitudeModel.RotatePolygonVertices` | src/main/java/com/spacecraftpropagator/services/AttitudeModelServiceImpl.java:101-109 | the inner loop turns the vertices of polygon i in place and leaves every other polygon alone |
| `AttitudeModelService.AttitudeModel.RotateAxes` | src/main/java/com/spacecraftpropagator/services/AttitudeModelServiceImpl.java:112-114 | see below |
| `AttitudeModelService.AttitudeModel.ApplyTorque` | src/main/java/com/spacecraftpropagator/services/AttitudeModelServiceImpl.java:120-155 | see below |
| `AttitudeModelService.AttitudeModel.GetXAxisQuarternion` | src/main/java/com/spacecraftpropagator/services/AttitudeModelServiceImpl.java:157-160 | returns the current x axis, a unit pure quaternion while the object is valid |
| `AttitudeModelService.AttitudeModel.GetYAxisQuarternion` | src/main/java/com/spacecraftpropagator/services/AttitudeModelServiceImpl.java:161-164 | the same for the y axis |
| `AttitudeModelService.AttitudeModel.GetZAxisQuarternion` | src/main/java/com/spacecraftpropagator/services/AttitudeModelServiceImpl.java:166-169 | the same for the z axis |

What the three "see below" rows state:

- **`AttitudeModel.Step`**
  - The angles are the rates divided by the step length.
  - When all three angles are zero, the polygons and the axes are unchanged.
  - Otherwise the polygons are the turned scene. The axes are updated in turn: the y and z updates see the x axis (and then the y axis) already updated.
  - The rates are unchanged.
  - The object invariant is kept, together with the scene staying inside the viewing sphere.
  - The result is the visible set of the new state.
- **`AttitudeModel.RotateAxes`**
  - The axes are reassigned in sequence, each one through the private rotate() with the axes already updated.
  - Each axis stays a unit pure quaternion.
- **`AttitudeModel.ApplyTorque`**
  - It requires a nonzero moment of inertia about the torque axis. That moment is the absolute value of the dot product of the torque axis with the inertia vector taken into the body axes.
  - Each rate is increased by (torque / moment · seconds) · dot(torque axis, body axis).
  - The axes, the polygons and the validity of the object are unchanged.
  - It returns the vector part of the z axis.

## Left out

- Loading the polygons and the moments of inertia from JSON files in the constructor is file I/O. The constructor takes them as parameters.
- Logging, `synchronized` and the Spring wiring. The service is modelled as a sequential object.
- Floating-point rounding, and the `Infinity`/`NaN` that a division by zero produces: the model computes over the reals and requires each divisor to be nonzero.
- `AttitudeModelService.AttitudeModel.Step`: requires a nonzero step length. With a zero step the source turns every vertex and axis into NaN instead of failing.
- `Math.sqrt`: `norm()` is modelled as its square, `NormSquared`.
- `Math.sin` and `Math.cos`: these are a parameter with stated laws, not the runtime's functions.
- `QuaternionAlgebra.Equals`: compares values over the reals. `Objects.equals` on boxed doubles has its own treatment of `NaN` and of −0.0, which does not arise over the reals.
- `AttitudeModelService.Project`: reals cannot be null, so the branch that returns the input list unchanged when a coordinate is null is not modelled.
- `AttitudeModelService.AttitudeModel.Step`: requires every vertex to lie strictly inside the viewing sphere. This is a sufficient condition that the rotation keeps. The source only needs each rotated vertex to have z ≠ 100 so that the projection divides by a nonzero number.
- `AttitudeModelService.AttitudeModel.Step`, `AttitudeModelService.AttitudeModel.Init` and `AttitudeModelService.AttitudeModel.GetVisible2DProjectedSpacecraftPolygons`: require every polygon to have at least three vertices and every vertex at least three coordinates. The source reads them without checking and fails on shorter lists.
- `AttitudeModelService.AttitudeModel.Step`: requires the object invariant `Valid()`. The constructor establishes it and every operation keeps it. Under it, each axis is a unit pure quaternion, so every rotation of the step is defined.
- `AttitudeModelService.AttitudeModel.ApplyTorque`: requires the moment about the torque axis to be nonzero. The source divides by it without a check.
- The vertices are values in the model. In the source, `coords.set` writes through a shared `List<Double>`, so a vertex list shared between two polygons would be turned twice. The model does not capture that aliasing.
- `QuaternionAlgebra.CoordinateTransform`: its own contract says only that the result is pure. The full vector is stated by `CoordinateTransformCombination`.
- `SpacecraftPropagatorController.java`, `TorqueRecord.java`, `AttitudeModelService.java`, `CacheConfig.java`, `SpringSecurityConfig.java` and `RestResponseEntityExceptionHandler.java` are HTTP, data-holder, interface and framework code. They are not part of this model.
- The browser page that draws the polygons is not part of this model.

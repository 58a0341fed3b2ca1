# Camera: a verified model of a quaternion camera state engine

This project models a small header-only C camera library. It has two parts.

- **`camera.h`**: a `Camera` record plus the operations on it.
  - The record holds a target point, a target distance, an orientation quaternion, a mode bitmask, two pending-change accumulators (movement and rotation) and six angle limits.
  - `camera_move` and `camera_rotate` only add into the accumulators.
  - `camera_look_at` builds an orthonormal basis and overwrites the orientation with its quaternion.
  - `camera_view_matrix` is the resolve step. It clamps the pending rotation, composes it into the orientation in the order the mode asks for, and renormalises. Then it moves the target along a movement basis (projected onto the world plane in that mode), clears both accumulators and writes a 16-slot view matrix into a caller's buffer.
- **`camera_math_default.h`**: the vector and quaternion helpers this engine uses. These are the conjugate, the Hamilton product, the rotation of a vector by a quaternion, add, scale, negate, cross, min, max, normalisation, the Euler angles, the axis-angle quaternion and the rotation matrix.

Everything is modelled over the mathematical reals.

- **Transcendental functions.** `sqrtf`, `powf`, `sinf`, `cosf`, `atan2f` and `asinf` are total functions carried in a `MathLib` value that every operation needing them takes as a parameter. The predicate `Lawful` lists the only facts assumed about them:
  - `sqrt` of a positive number is positive and squares back to it;
  - `pow(x, -0.5)` of a positive `x` is positive and squares to `1/x`;
  - `sin(0) = 0` and `cos(0) = 1`.
- **Module `CameraMath`** (`camera_math.dfy`) holds the helpers as pure functions. `cm_matrixFromQuat` is the exception: it is an imperative method that fills an `array<real>` of 16 slots.
- **Module `CameraEngine`** (`camera_engine.dfy`) holds the camera.
  - `class Camera` has the struct's fields.
  - Each of its methods changes only the fields named in its `modifies` clause. Each states its new state in terms of specification functions: `ClampedRotation`, `RotatedOrientation`, `ResolvedOrientation`, `MovementBasis`, `MovedTarget`, `LookAtOrientation` and `ViewMatrixOf`.
  - The properties the library promises are proved about those functions as lemmas.

`camera_init` stores the all-zero quaternion, not the identity (`camera.h:218`). The model follows the code. The first resolve turns this quaternion into the identity through the zero-norm fallback of `cm_normalizeQuat`. `FirstResolveDiscardsRotation` shows a consequence: any rotation requested before that first resolve is lost. Until then `camera_forward`, `camera_up` and `camera_right` all return the zero vector, and `camera_eye` returns the target whatever the distance (`InitialAxesAreZero`).

## Model

| member | source | states |
|---|---|---|
| CameraMath.Min | camera_math_default.h:155-157 | the result is one of the arguments and is at most both |
| CameraMath.Max | camera_math_default.h:159-161 | the result is one of the arguments and is at least both |
| CameraMath.InvertInvolutive | camera_math_default.h:93-98 | conjugating twice gives back the quaternion |
| CameraMath.InvertIdentity | camera_math_default.h:93-98 | the conjugate of (0,0,0,1) is (0,0,0,1) |
| CameraMath.MulQuatIdentity | camera_math_default.h:100-119 | the Hamilton product with (0,0,0,1) on either side returns the other operand |
| CameraMath.MulQuatZero | camera_math_default.h:100-119 | the product with the all-zero quaternion on either side is the all-zero quaternion |
| CameraMath.InvertOfProduct | camera_math_default.h:93-119 | invert(a*b) == invert(b)*invert(a) for all quaternions |
| CameraMath.RotateByIdentity | camera_math_default.h:121-129 | rotating a vector by (0,0,0,1) returns the vector |
| CameraMath.VectorArithmetic | camera_math_default.h:131-143 | add is commutative and associative with zero as its unit; scaling by 0 gives zero and by 1 the vector |
| CameraMath.NegateArithmetic | camera_math_default.h:224-229 | negating twice is the identity and a + (-a) == 0 |
| CameraMath.CrossAntiCommutes | camera_math_default.h:145-153 | cross(a, b) == negate(cross(b, a)) |
| CameraMath.CrossOrthogonal | camera_math_default.h:145-153 | cross(a, b) is orthogonal to both a and b |
| CameraMath.CrossNormSq | camera_math_default.h:145-153 | Lagrange's identity: the squared length of cross(a, b) is the product of the squared lengths of a and b minus (a . b)^2 |
| CameraMath.Orthonormal | camera.h:268-271 | definition only: three unit, pairwise perpendicular rows with cross(right, up) == forward; properties in LookAtBasisOrthonormal and QuatFromBasisRoundTrip |
| CameraMath.CrossOfCross | camera_math_default.h:145-153 | cross(a, cross(b, a)) == b for a unit a perpendicular to b |
| CameraMath.DotScale | camera_math_default.h:139-143 | scaling a vector by k scales its dot product with any vector by k |
| CameraMath.NormalizeQuat | camera_math_default.h:199-215 | a non-positive squared norm gives (0,0,0,1); otherwise all four components are scaled by one common positive factor |
| CameraMath.NormalizeQuatIsUnit | camera_math_default.h:199-215 | the result of normalisation always has squared norm 1 |
| CameraMath.NormalizeQuatFixesUnit | camera_math_default.h:199-215 | a unit quaternion is returned unchanged |
| CameraMath.NormalizeVec3 | camera_math_default.h:217-222 | a non-zero vector is scaled by a positive factor; the zero vector is returned as it is |
| CameraMath.NormalizeVec3IsUnit | camera_math_default.h:217-222 | a non-zero vector normalises to a vector of length 1 |
| CameraMath.FromAxisAngleZero | camera_math_default.h:185-197 | a zero angle around any axis gives (0,0,0,1) |
| CameraMath.Invert | camera_math_default.h:93-98 | definition only: negates x, y and z and keeps w; properties in InvertInvolutive, InvertIdentity and InvertOfProduct |
| CameraMath.MulQuat | camera_math_default.h:100-119 | definition only: the Hamilton product component by component; properties in MulQuatIdentity, MulQuatZero and InvertOfProduct |
| CameraMath.Mul | camera_math_default.h:121-129 | definition only: the vector part of invert(q) * (v, 0) * q; property in RotateByIdentity |
| CameraMath.Add | camera_math_default.h:131-136 | definition only: componentwise sum; properties in VectorArithmetic |
| CameraMath.Scale | camera_math_default.h:138-143 | definition only: componentwise product with a scalar; properties in VectorArithmetic and DotScale |
| CameraMath.Negate | camera_math_default.h:224-229 | definition only: negates every component; properties in NegateArithmetic |
| CameraMath.Cross | camera_math_default.h:145-153 | definition only: the cross product; properties in CrossAntiCommutes and CrossOrthogonal |
| CameraMath.ToEuler | camera_math_default.h:167-183 | definition only, over the abstract atan2 and asin |
| CameraMath.FromAxisAngle | camera_math_default.h:185-197 | definition only, over the abstract sin and cos; property in FromAxisAngleZero |
| CameraMath.RotationMatrix | camera_math_default.h:231-271 | the 16 slots in the order the buffer is written; properties in RotationMatrixFixedSlots and RotationMatrixOfIdentity |
| CameraMath.MatrixFromQuat | camera_math_default.h:231-271 | all 16 slots of the buffer hold the rotation matrix of the quaternion afterwards |
| CameraMath.RotationMatrixFixedSlots | camera_math_default.h:231-271 | slots 3, 7, 11, 12, 13 and 14 are 0 and slot 15 is 1 for every quaternion |
| CameraMath.RotationMatrixOfIdentity | camera_math_default.h:231-271 | the quaternion (0,0,0,1) gives the 4x4 identity matrix |
| CameraEngine.ModePresets | camera.h:119-147 | FIRST_PERSON == THIRD_PERSON == 0x7, ORBITAL == 0x5, FREE == 0, and the three clamp bits together are 0x1C |
| CameraEngine.InitialAxesAreZero | camera.h:213-253 | with the all-zero quaternion camera_init stores, forward, up and right are the zero vector and the eye is the target for every distance |
| CameraEngine.EyeAtZeroDistance | camera.h:250-253 | the eye equals the target when the distance is 0 |
| CameraEngine.IdentityForward | camera.h:235-238 | with the identity orientation the forward axis is the world forward |
| CameraEngine.IdentityUp | camera.h:240-243 | with the identity orientation the up axis is the world up |
| CameraEngine.IdentityRight | camera.h:245-248 | with the identity orientation the right axis is the world right |
| CameraEngine.ForwardLength | camera.h:235-238 | the squared length of the forward axis is the square of the orientation's squared norm |
| CameraEngine.UpLength | camera.h:240-243 | the squared length of the up axis is the square of the orientation's squared norm |
| CameraEngine.RightLength | camera.h:245-248 | the squared length of the right axis is the square of the orientation's squared norm |
| CameraEngine.UnitOrientationAxesAreUnit | camera.h:176-183 | a unit orientation gives unit-length forward, up and right axes |
| CameraEngine.AccumulateIsTotal | camera.h:255-263 | a run of move (or rotate) calls leaves the accumulator at its old value plus the sum of the offsets |
| CameraEngine.TotalOfConcat | camera.h:255-263 | the sum over two runs of calls is the sum of their sums |
| CameraEngine.AccumulateOrderIrrelevant | camera.h:255-263 | two runs of move (or rotate) calls commute |
| CameraEngine.BranchOf | camera.h:287-322 | the trace formula is taken exactly when m0+m5+m10 > 0; otherwise the branch of a strictly largest diagonal entry is taken, and whichever branch is taken has a largest entry |
| CameraEngine.QuatFromBasisLeadingComponent | camera.h:287-322 | the component each branch takes from the square root is positive: w in the trace branch, x, y or z in the dominant-entry branches |
| CameraEngine.LookAtBasisOrthogonal | camera.h:270-271 | the derived right is orthogonal to the given forward and up, and the new up is orthogonal to forward and right |
| CameraEngine.LookAtBasisOrthonormal | camera.h:268-271 | for a unit forward and an up not parallel to it, right, the new up and forward are unit, pairwise perpendicular and right-handed |
| CameraEngine.ForwardOfFormula | camera.h:235-238 | the forward axis of q is (2(xz + wy), 2(yz - wx), w^2 - x^2 - y^2 + z^2) |
| CameraEngine.ForwardFromProducts | camera.h:276-322 | a quaternion whose pairwise products are the ones the rotation matrix with forward row f fixes is a unit quaternion with forward axis f |
| CameraEngine.QuatRelations | camera.h:276-322 | definition only: the seven relations between the unscaled components of a branch's quaternion and the matrix entries |
| CameraEngine.ScaledQuatRoundTrip | camera.h:276-322 | Quat(p k, q k, r k, s k) with k^2 n = 1/4 and those relations is a unit quaternion with forward axis f |
| CameraEngine.TraceRelations | camera.h:276-296 | an orthonormal right-handed basis satisfies the relations for the trace formula's components (m6 - m9, m8 - m2, m1 - m4, trace + 1) |
| CameraEngine.RightDominantRelations | camera.h:298-305 | an orthonormal right-handed basis satisfies the relations for the m0-dominant formula's components |
| CameraEngine.UpDominantRelations | camera.h:306-313 | an orthonormal right-handed basis satisfies the relations for the m5-dominant formula's components |
| CameraEngine.ForwardDominantRelations | camera.h:314-321 | an orthonormal right-handed basis satisfies the relations for the m10-dominant formula's components |
| CameraEngine.TraceScale | camera.h:291-293 | s = 0.5 / sqrt(trace + 1) is positive, s^2 (trace + 1) = 1/4 and 0.25 / s = (trace + 1) s |
| CameraEngine.DominantScale | camera.h:300 | s = 2 sqrt(d) of a positive d is positive and s^2 = 4 d |
| CameraEngine.DominantFields | camera.h:300-304 | with k = 1/s and s^2 = 4 d: k^2 d = 1/4, 0.25 s = d k and a / s = a k |
| CameraEngine.TraceBranchIs | camera.h:289-296 | when the trace is positive the conversion is the trace formula |
| CameraEngine.TraceQuatRoundTrip | camera.h:291-296 | the trace formula on an orthonormal basis is a unit quaternion whose forward axis is the forward row |
| CameraEngine.TraceBranchRoundTrip | camera.h:289-296 | in the trace branch the conversion of an orthonormal basis is a unit quaternion with forward axis the forward row |
| CameraEngine.RightDominantIs | camera.h:298-305 | in the m0-dominant branch the conversion is its formula |
| CameraEngine.RightDominantQuatRoundTrip | camera.h:300-304 | the m0-dominant formula on an orthonormal basis is a unit quaternion whose forward axis is the forward row |
| CameraEngine.RightDominantRoundTrip | camera.h:298-305 | the same for the m0-dominant branch of the conversion |
| CameraEngine.UpDominantIs | camera.h:306-313 | in the m5-dominant branch the conversion is its formula |
| CameraEngine.UpDominantQuatRoundTrip | camera.h:308-312 | the m5-dominant formula on an orthonormal basis is a unit quaternion whose forward axis is the forward row |
| CameraEngine.UpDominantRoundTrip | camera.h:306-313 | the same for the m5-dominant branch of the conversion |
| CameraEngine.ForwardDominantIs | camera.h:314-321 | in the m10-dominant branch the conversion is its formula |
| CameraEngine.ForwardDominantQuatRoundTrip | camera.h:316-320 | the m10-dominant formula on an orthonormal basis is a unit quaternion whose forward axis is the forward row |
| CameraEngine.ForwardDominantRoundTrip | camera.h:314-321 | the same for the m10-dominant branch of the conversion |
| CameraEngine.QuatFromBasisRoundTrip | camera.h:276-322 | whichever branch is taken, the quaternion of an orthonormal right-handed basis has unit norm and its forward axis is the basis' forward row |
| CameraEngine.LookAtRoundTrip | camera.h:198-322 | for a unit forward and an up not parallel to it, camera_look_at stores a unit quaternion whose forward axis is the given forward |
| CameraEngine.LookAtRight | camera.h:270 | definition only: cross(up, forward), normalised; properties in LookAtBasisOrthogonal and LookAtBasisOrthonormal |
| CameraEngine.TraceQuat | camera.h:291-296 | definition only: the trace formula for the scale s; property in TraceQuatRoundTrip |
| CameraEngine.Accumulate | camera.h:255-263 | definition only: the accumulator after a run of move (or rotate) calls; properties in AccumulateIsTotal and AccumulateOrderIrrelevant |
| CameraEngine.Total | camera.h:255-263 | definition only: the sum of a run of offsets; properties in AccumulateIsTotal and TotalOfConcat |
| CameraEngine.HasFlag | camera.h:333 | definition only: the `mode & FLAG` test, true when the flag's bits are set in the mode; used by every mode-dependent member |
| CameraEngine.ClampDelta | camera.h:331-349 | the clamped delta is at most max - angle and, when min <= max, at least min - angle; a delta already in that range is kept; a delta at or above max - angle becomes max - angle, and one at or below min - angle becomes min - angle when min <= max; with min > max the result is always max - angle |
| CameraEngine.ClampPerAxis | camera.h:329-350 | each axis is clamped exactly when its own flag is set and is left untouched otherwise; with no clamp flag nothing changes |
| CameraEngine.ClampedPitchInRange | camera.h:333-337 | with the pitch flag set and ordered limits, current pitch plus the clamped delta lies within [minPitch, maxPitch] |
| CameraEngine.HeaderExamplePitchLimitsPinPitch | camera.h:55-57 | with the header example's limits maxPitch = -p, minPitch = p, every pending pitch becomes the one that turns the camera to maxPitch |
| CameraEngine.OrderedPitchLimitsKeepRange | camera.h:49 | with minPitch = -p below maxPitch = p, pitch plus the clamped delta lies in [-p, p] and an in-range delta is kept |
| CameraEngine.RollIgnoredWhenDisabled | camera.h:360-365 | with roll disabled the roll component of the accumulator has no effect on the new orientation |
| CameraEngine.ZeroRotationKeepsOrientation | camera.h:355-371 | a zero pending rotation leaves the orientation unchanged before renormalisation, in every mode |
| CameraEngine.ResolvedOrientationIsUnit | camera.h:355-373 | the orientation after the resolve step is always a unit quaternion |
| CameraEngine.ResolveWithoutRotationKeepsUnitOrientation | camera.h:329-373 | with nothing pending and the current Euler angles within the limits of every flagged axis, a unit orientation survives the resolve exactly, in every mode |
| CameraEngine.NoClampFlagIsWithinLimits | camera.h:329 | without clamp flags every orientation counts as within the limits |
| CameraEngine.ResolvedAxesAreUnit | camera.h:176-183 | after every resolve the forward, up and right axes have unit length |
| CameraEngine.FirstResolveDiscardsRotation | camera.h:213-233 | from the all-zero quaternion camera_init stores, the resolve gives the identity whatever rotation is pending |
| CameraEngine.MovementBasis | camera.h:383-416 | in world-plane mode forward and right have y == 0 and up is the world up; otherwise the basis is the camera's own forward, up and right; WorldPlaneBasisDirections gives the directions of the flattened axes |
| CameraEngine.NormalizeVec3IsUnitAlong | camera_math_default.h:217-222 | a normalised vector is the input scaled to unit length by a positive factor, or the zero vector itself |
| CameraEngine.WorldPlaneBasisDirections | camera.h:387-414 | in world-plane mode, in each of the five cases of the near-vertical tests, the movement forward and right are unit-length positive multiples of the flattened camera axis or its substitute (-up or up for forward, up or -up for right) |
| CameraEngine.WorldPlaneMovementKeepsAltitude | camera.h:387-426 | in world-plane mode the target's y changes by exactly the up component of the pending movement |
| CameraEngine.ZeroMovementKeepsTarget | camera.h:418-426 | a zero pending movement leaves the target where it is, for any basis |
| CameraEngine.ForwardOf | camera.h:235-238 | definition only: world forward rotated by the conjugate orientation; properties in IdentityForward and ForwardLength |
| CameraEngine.UpOf | camera.h:240-243 | definition only: world up rotated by the conjugate orientation; properties in IdentityUp and UpLength |
| CameraEngine.RightOf | camera.h:245-248 | definition only: world right rotated by the conjugate orientation; properties in IdentityRight and RightLength |
| CameraEngine.EyeOf | camera.h:250-253 | definition only: the target moved back along forward by the distance; property in EyeAtZeroDistance |
| CameraEngine.Camera.Forward | camera.h:235-238 | definition only: ForwardOf of the current orientation |
| CameraEngine.Camera.Up | camera.h:240-243 | definition only: UpOf of the current orientation |
| CameraEngine.Camera.Right | camera.h:245-248 | definition only: RightOf of the current orientation |
| CameraEngine.Camera.Eye | camera.h:250-253 | definition only: EyeOf of the current target, distance and orientation |
| CameraEngine.QuatFromBasis | camera.h:276-322 | definition only: the four-branch conversion, dispatched on BranchOf; properties in QuatFromBasisLeadingComponent and QuatFromBasisRoundTrip |
| CameraEngine.LookAtOrientation | camera.h:268-322 | definition only: the quaternion of the re-orthogonalised basis; properties in LookAtBasisOrthogonal and LookAtRoundTrip |
| CameraEngine.ClampedRotation | camera.h:329-350 | definition only: the accumulator clamped per flag; properties in ClampPerAxis and ClampedPitchInRange |
| CameraEngine.RotatedOrientation | camera.h:355-371 | definition only: the composition in the mode's order; properties in RollIgnoredWhenDisabled and ZeroRotationKeepsOrientation |
| CameraEngine.ResolvedOrientation | camera.h:329-373 | definition only: clamp, compose, renormalise; properties in ResolvedOrientationIsUnit, ResolvedAxesAreUnit, ResolveWithoutRotationKeepsUnitOrientation and FirstResolveDiscardsRotation |
| CameraEngine.MovedTarget | camera.h:418-426 | definition only: the target plus the three scaled axes; properties in WorldPlaneMovementKeepsAltitude and ZeroMovementKeepsTarget |
| CameraEngine.ViewMatrixOf | camera.h:435-446 | the 16 slots of the view matrix; properties in ViewMatrixLayout |
| CameraEngine.ViewMatrixLayout | camera.h:435-446 | slots 3, 7 and 11 are 0, slot 15 is 1, slots 12-14 hold -eye rotated by the orientation, and slots 0-11 are the rotation matrix |
| CameraEngine.Camera.Init | camera.h:213-233 | zero target, zero distance, the all-zero quaternion, free mode, zero accumulators and zero limits |
| CameraEngine.Camera.Move | camera.h:255-258 | only the movement accumulator changes, to its old value plus the offset; the eye stays where it was |
| CameraEngine.Camera.Rotate | camera.h:260-263 | only the rotation accumulator changes, to its old value plus the angles; the forward axis stays as it was |
| CameraEngine.Camera.LookAt | camera.h:198-323 | only the orientation changes, to the quaternion of the re-orthogonalised basis; for a unit forward and an up not parallel to it the camera then looks along the given forward and the orientation has unit norm |
| CameraEngine.Camera.ViewMatrix | camera.h:325-448 | both accumulators end at zero; the orientation is the clamped, composed and renormalised one and has unit norm; the target has moved along the movement basis, by exactly the up amount in y in world-plane mode, and not at all when no movement was pending; the buffer holds the view matrix of the new orientation and eye |
| CameraEngine.Camera.ResolveOrientation | camera.h:329-378 | the rotation accumulator ends at zero and the orientation is the resolved unit quaternion |
| CameraEngine.Camera.ClampRotation | camera.h:329-350 | the rotation accumulator becomes its per-flag clamped value against the current Euler angles |
| CameraEngine.Camera.UpdateOrientation | camera.h:355-378 | the orientation becomes the normalised composition and the rotation accumulator is zero |
| CameraEngine.Camera.ComposeRotation | camera.h:355-371 | the orientation becomes yaw * (orientation * pitch) with roll disabled, else orientation * pitch * yaw * roll |
| CameraEngine.Camera.MovementAxes | camera.h:383-416 | the three axes returned are the movement basis of the mode and orientation |
| CameraEngine.Camera.UpdateTargetPosition | camera.h:383-431 | the target moves along the movement basis, by exactly the up amount in y in world-plane mode and not at all for zero movement; the movement accumulator ends at zero |
| CameraEngine.WriteViewMatrix | camera.h:435-446 | every slot of the buffer holds the view matrix of the orientation and eye |

## Findings

| source | as written | input that shows it | evidently intended | confidence | as-written member | corrected member |
|---|---|---|---|---|---|---|
| camera.h:55-57 | the pitch-clamping example sets maxPitch = -pi/2 and minPitch = pi/2, against the rule at camera.h:49 that min must be smaller than max | any pending pitch with those limits: the clamp (camera.h:335-336) always yields maxPitch - pitch, so every resolve turns the camera to -pi/2 | minPitch = -pi/2 and maxPitch = pi/2 | not executed; read from the header comment and the clamp code | CameraEngine.HeaderExamplePitchLimitsPinPitch | CameraEngine.OrderedPitchLimitsKeepRange |

## Left out

- IEEE-754 single precision: all arithmetic is over the reals. Rounding, NaN and infinity are not modelled. The near-vertical tests compare reals against the constant 0.0001 exactly.
- The transcendental functions are uninterpreted: nothing is assumed about them beyond the facts in `Lawful`. `cm_toEuler` and `cm_fromAxisAngle` are modelled with their bodies over these functions. No trigonometric property of them is proved beyond `FromAxisAngleZero`.
- CameraMath.NormalizeVec3: for the zero vector the C code divides by zero and yields NaN. The model returns the zero vector unchanged.
- The claim that one rotate call turns the camera by exactly the angle given (`camera.h:13`) is not proved. It needs trigonometric identities.
- The claim that the no-roll composition order induces no roll (`camera.h:360`) is not proved, for the same reason.
- That the pitch stays within its limits after the resolve is not proved. It needs the Euler angle extraction to invert the composition, which fails near ±π/2 and depends on the trigonometric functions. `ClampedPitchInRange` proves the arithmetic part: the current pitch plus the clamped delta stays in range.
- `camera_math_bx.h` is not part of this model: each of its functions forwards to a library whose code is not shown.
- The header guard, the `CAMERA_IMPLEMENTATION` switch, the macro plumbing and the `static` local in `camera_init` are not modelled. A constructor stands in for them.
- The output buffer: the C code trusts the caller to pass 16 floats. The model requires an array of length 16.
- CameraEngine.Camera.LookAt: the orientation is assigned once, from the four-branch function. The C code writes the four components one at a time; the resulting value is the same. The contract proves the forward axis and the unit norm, in all four branches, for a unit forward and an up not parallel to it. It does not prove that the up and right axes afterwards are the re-orthogonalised up and the derived right: that needs the same kind of identities for the other two matrix rows. For an up parallel to forward the C code normalises the zero vector (a NaN); the model's basis is then degenerate and nothing is proved about it.
- CameraMath.MatrixFromQuat: the slots are filled from the matrix function in one parallel assignment, not one statement per slot; the resulting buffer is the same.
- CameraEngine.Camera.ViewMatrix: the body runs as a sequence of step methods with the same order of field updates as the C code.

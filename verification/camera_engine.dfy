/**
  The camera state engine of camera.h: one camera whose move, rotate and
  look-at calls only record pending changes (or, for look-at, overwrite the
  orientation), and whose resolve step (camera_view_matrix) clamps the pending
  rotation, applies it to the orientation quaternion, renormalises, moves the
  target point and writes a 4x4 view matrix into a caller's buffer.

  The steps of the resolve are specified by the functions below; the class
  Camera carries the struct's fields and its methods are proved against them.
*/
module CameraEngine {
  import opened CameraMath

  const WORLD_FORWARD: Vec3 := Vec3(0.0, 0.0, 1.0)
  const WORLD_UP: Vec3 := Vec3(0.0, 1.0, 0.0)
  const WORLD_RIGHT: Vec3 := Vec3(1.0, 0.0, 0.0)

  // Mode flags, combined with bitwise or.
  const MODE_DISABLE_ROLL: bv32 := 0x0000_0001
  const MODE_MOVE_IN_WORLDPLANE: bv32 := 0x0000_0002
  const MODE_CLAMP_PITCH_ANGLE: bv32 := 0x0000_0004
  const MODE_CLAMP_YAW_ANGLE: bv32 := 0x0000_0008
  const MODE_CLAMP_ROLL_ANGLE: bv32 := 0x0000_0010
  const MODE_CLAMP_ANY: bv32 := MODE_CLAMP_PITCH_ANGLE | MODE_CLAMP_YAW_ANGLE | MODE_CLAMP_ROLL_ANGLE

  // Preset modes.
  const MODE_FREE: bv32 := 0
  const MODE_FIRST_PERSON: bv32 := MODE_DISABLE_ROLL | MODE_MOVE_IN_WORLDPLANE | MODE_CLAMP_PITCH_ANGLE
  const MODE_THIRD_PERSON: bv32 := MODE_FIRST_PERSON
  const MODE_ORBITAL: bv32 := MODE_DISABLE_ROLL | MODE_CLAMP_PITCH_ANGLE

  /** Tolerance of the near-vertical tests in world-plane movement. */
  const EPSILON: real := 0.0001

  predicate HasFlag(mode: bv32, flags: bv32)
  {
    mode & flags != 0
  }

  lemma ModePresets()
    ensures MODE_FIRST_PERSON == 0x7 && MODE_THIRD_PERSON == MODE_FIRST_PERSON
    ensures MODE_ORBITAL == 0x5 && MODE_FREE == 0
    ensures MODE_CLAMP_ANY == 0x1C
  {
  }

  /** The six clamp limits of the camera, in radians. */
  datatype AngleLimits = AngleLimits(
    minPitch: real, maxPitch: real,
    minYaw: real, maxYaw: real,
    minRoll: real, maxRoll: real)

  // ----- Accessors: functions of the resolved state only -----

  /** camera_forward: world forward rotated by the inverse orientation. */
  function ForwardOf(q: Quat): Vec3
  {
    Mul(WORLD_FORWARD, Invert(q))
  }

  function UpOf(q: Quat): Vec3
  {
    Mul(WORLD_UP, Invert(q))
  }

  function RightOf(q: Quat): Vec3
  {
    Mul(WORLD_RIGHT, Invert(q))
  }

  /** camera_eye: the target moved back along forward by the distance. */
  function EyeOf(target: Vec3, distance: real, q: Quat): Vec3
  {
    Add(target, Scale(ForwardOf(q), -distance))
  }

  lemma EyeAtZeroDistance(target: Vec3, q: Quat)
    ensures EyeOf(target, 0.0, q) == target
  {
  }

  /** The orientation camera_init stores is the zero quaternion, not the
      identity: until the first resolve all three axes are the zero vector and
      the eye is the target whatever the distance. */
  lemma InitialAxesAreZero(target: Vec3, distance: real)
    ensures ForwardOf(ZERO_QUAT) == ZERO && UpOf(ZERO_QUAT) == ZERO && RightOf(ZERO_QUAT) == ZERO
    ensures EyeOf(target, distance, ZERO_QUAT) == target
  {
  }

  /** With the identity orientation the camera axes are the world axes. */
  lemma IdentityForward()
    ensures ForwardOf(IDENTITY) == WORLD_FORWARD
  {
    RotateByConjugateIdentity(WORLD_FORWARD);
  }

  lemma IdentityUp()
    ensures UpOf(IDENTITY) == WORLD_UP
  {
    RotateByConjugateIdentity(WORLD_UP);
  }

  lemma IdentityRight()
    ensures RightOf(IDENTITY) == WORLD_RIGHT
  {
    RotateByConjugateIdentity(WORLD_RIGHT);
  }

  lemma RotateByConjugateIdentity(v: Vec3)
    ensures Mul(v, Invert(IDENTITY)) == v
  {
    InvertIdentity();
    RotateByIdentity(v);
  }

  /** Rotating a world axis by the conjugate scales its squared length by
      the square of the quaternion's squared norm. */
  lemma ForwardLength(q: Quat)
    ensures Dot(ForwardOf(q), ForwardOf(q)) == NormSq(q) * NormSq(q)
  {
  }

  lemma UpLength(q: Quat)
    ensures Dot(UpOf(q), UpOf(q)) == NormSq(q) * NormSq(q)
  {
  }

  lemma RightLength(q: Quat)
    ensures Dot(RightOf(q), RightOf(q)) == NormSq(q) * NormSq(q)
  {
  }

  /** A unit orientation has unit-length camera axes. */
  lemma UnitOrientationAxesAreUnit(q: Quat)
    requires NormSq(q) == 1.0
    ensures Dot(ForwardOf(q), ForwardOf(q)) == 1.0
    ensures Dot(UpOf(q), UpOf(q)) == 1.0
    ensures Dot(RightOf(q), RightOf(q)) == 1.0
  {
    ForwardLength(q);
    UpLength(q);
    RightLength(q);
  }

  // ----- Accumulation: consecutive camera_move / camera_rotate calls -----

  /** The accumulator after one call per delta, in order. */
  function Accumulate(acc: Vec3, deltas: seq<Vec3>): Vec3
    decreases |deltas|
  {
    if deltas == [] then acc else Accumulate(Add(acc, deltas[0]), deltas[1..])
  }

  /** The sum of the deltas. */
  function Total(deltas: seq<Vec3>): Vec3
    decreases |deltas|
  {
    if deltas == [] then ZERO else Add(deltas[0], Total(deltas[1..]))
  }

  /** Only the summed deltas matter. */
  lemma {:induction false} AccumulateIsTotal(acc: Vec3, deltas: seq<Vec3>)
    ensures Accumulate(acc, deltas) == Add(acc, Total(deltas))
    decreases |deltas|
  {
    if deltas == [] {
      VectorArithmetic(acc, acc, acc);
    } else {
      AccumulateIsTotal(Add(acc, deltas[0]), deltas[1..]);
      VectorArithmetic(acc, deltas[0], Total(deltas[1..]));
    }
  }

  lemma {:induction false} TotalOfConcat(a: seq<Vec3>, b: seq<Vec3>)
    ensures Total(a + b) == Add(Total(a), Total(b))
    decreases |a|
  {
    if a == [] {
      assert a + b == b;
      VectorArithmetic(Total(b), ZERO, ZERO);
      VectorArithmetic(ZERO, Total(b), ZERO);
    } else {
      assert (a + b)[0] == a[0];
      assert (a + b)[1..] == a[1..] + b;
      TotalOfConcat(a[1..], b);
      VectorArithmetic(a[0], Total(a[1..]), Total(b));
    }
  }

  /** Two batches of calls commute: their order before a resolve is irrelevant. */
  lemma AccumulateOrderIrrelevant(acc: Vec3, a: seq<Vec3>, b: seq<Vec3>)
    ensures Accumulate(acc, a + b) == Accumulate(acc, b + a)
  {
    AccumulateIsTotal(acc, a + b);
    AccumulateIsTotal(acc, b + a);
    TotalOfConcat(a, b);
    TotalOfConcat(b, a);
    VectorArithmetic(Total(a), Total(b), ZERO);
  }

  // ----- Look-at: orthonormal basis to quaternion -----

  /** Which formula of the trace-based matrix-to-quaternion method is used. */
  datatype Branch = Trace | RightDominant | UpDominant | ForwardDominant

  /** The branch for diagonal entries m0, m5, m10: the direct formula when the
      trace is positive, otherwise the largest diagonal entry. */
  function BranchOf(m0: real, m5: real, m10: real): (b: Branch)
    ensures b == Trace <==> m0 + m5 + m10 > 0.0
    ensures b == RightDominant ==> m0 > m5 && m0 > m10
    ensures b == UpDominant ==> m5 >= m0 && m5 > m10
    ensures b == ForwardDominant ==> m10 >= m0 && m10 >= m5
    ensures m0 + m5 + m10 <= 0.0 && m0 > m5 && m0 > m10 ==> b == RightDominant
    ensures m0 + m5 + m10 <= 0.0 && m5 > m0 && m5 > m10 ==> b == UpDominant
    ensures m0 + m5 + m10 <= 0.0 && m10 > m0 && m10 > m5 ==> b == ForwardDominant
  {
    if m0 + m5 + m10 > 0.0 then Trace
    else if m0 > m5 && m0 > m10 then RightDominant
    else if m5 > m10 then UpDominant
    else ForwardDominant
  }

  /** The quaternion of the rotation matrix with rows right, up, forward,
      by the four-branch trace method. Every square root is taken of a
      positive number (the branch conditions alone imply it), so no branch
      divides by zero. */
  function QuatFromBasis(right: Vec3, up: Vec3, forward: Vec3, m: MathLib): Quat
    requires Lawful(m)
  {
    var m0, m1, m2 := right.x, right.y, right.z;
    var m4, m5, m6 := up.x, up.y, up.z;
    var m8, m9, m10 := forward.x, forward.y, forward.z;
    var trace := m0 + m5 + m10;
    match BranchOf(m0, m5, m10)
    case Trace =>
      TraceQuat(right, up, forward, 0.5 / m.sqrt(trace + 1.0))
    case RightDominant =>
      var s := 2.0 * m.sqrt(1.0 + m0 - m5 - m10);
      Quat(0.25 * s, (m4 + m1) / s, (m8 + m2) / s, (m6 - m9) / s)
    case UpDominant =>
      var s := 2.0 * m.sqrt(1.0 + m5 - m0 - m10);
      Quat((m4 + m1) / s, 0.25 * s, (m9 + m6) / s, (m8 - m2) / s)
    case ForwardDominant =>
      var s := 2.0 * m.sqrt(1.0 + m10 - m0 - m5);
      Quat((m8 + m2) / s, (m9 + m6) / s, 0.25 * s, (m1 - m4) / s)
  }

  /** The formula of the trace branch, for the scale s = 0.5 / sqrt(trace + 1). */
  function TraceQuat(right: Vec3, up: Vec3, forward: Vec3, s: real): Quat
    requires s > 0.0
  {
    Quat((up.z - forward.y) * s, (forward.x - right.z) * s, (right.y - up.x) * s, 0.25 / s)
  }

  /** The component a branch computes from the square root is positive:
      w for the trace formula, x, y or z for the dominant-entry formulas. */
  lemma QuatFromBasisLeadingComponent(right: Vec3, up: Vec3, forward: Vec3, m: MathLib)
    requires Lawful(m)
    ensures var q := QuatFromBasis(right, up, forward, m);
      match BranchOf(right.x, up.y, forward.z)
      case Trace => q.w > 0.0
      case RightDominant => q.x > 0.0
      case UpDominant => q.y > 0.0
      case ForwardDominant => q.z > 0.0
  {
    var trace := right.x + up.y + forward.z;
    if trace > 0.0 {
      var s := 0.5 / m.sqrt(trace + 1.0);
      assert s > 0.0;
      assert 0.25 / s > 0.0;
    }
  }

  /** The right axis camera_look_at derives: cross(up, forward), normalised. */
  function LookAtRight(forward: Vec3, up: Vec3, m: MathLib): Vec3
    requires Lawful(m)
  {
    NormalizeVec3(Cross(up, forward), m)
  }

  /** The orientation camera_look_at stores. */
  function LookAtOrientation(forward: Vec3, up: Vec3, m: MathLib): Quat
    requires Lawful(m)
  {
    var right := LookAtRight(forward, up, m);
    QuatFromBasis(right, Cross(forward, right), forward, m)
  }

  /** The basis look-at builds is re-orthogonalised: right is perpendicular to
      the given forward and up, and the new up to forward and right. */
  lemma LookAtBasisOrthogonal(forward: Vec3, up: Vec3, m: MathLib)
    requires Lawful(m)
    ensures Dot(LookAtRight(forward, up, m), forward) == 0.0
    ensures Dot(LookAtRight(forward, up, m), up) == 0.0
    ensures Dot(Cross(forward, LookAtRight(forward, up, m)), forward) == 0.0
    ensures Dot(Cross(forward, LookAtRight(forward, up, m)), LookAtRight(forward, up, m)) == 0.0
  {
    var c := Cross(up, forward);
    CrossOrthogonal(up, forward);
    var right := LookAtRight(forward, up, m);
    if Dot(c, c) > 0.0 {
      var k :| k > 0.0 && right == Scale(c, k);
      DotScale(c, forward, k);
      DotScale(c, up, k);
    }
    CrossOrthogonal(forward, right);
  }

  // ----- The look-at round trip -----

  /** The forward axis of q written out: the third row of its rotation matrix. */
  lemma ForwardOfFormula(q: Quat)
    ensures ForwardOf(q) == Vec3(2.0 * (q.x * q.z + q.w * q.y), 2.0 * (q.y * q.z - q.w * q.x), q.w * q.w - q.x * q.x - q.y * q.y + q.z * q.z)
  {
  }

  /** A quaternion whose pairwise products match the entries of a rotation
      matrix with forward row f (t1 being the trace plus one) is a unit
      quaternion with forward axis f. */
  lemma ForwardFromProducts(q: Quat, f: Vec3, rz: real, uz: real, t1: real)
    requires q.x * q.z == 0.25 * (f.x + rz) && q.w * q.y == 0.25 * (f.x - rz)
    requires q.y * q.z == 0.25 * (uz + f.y) && q.w * q.x == 0.25 * (uz - f.y)
    requires q.w * q.w == 0.25 * t1
    requires q.x * q.x + q.y * q.y - q.z * q.z == 0.25 * (t1 - 4.0 * f.z)
    requires q.x * q.x + q.y * q.y + q.z * q.z == 0.25 * (4.0 - t1)
    ensures ForwardOf(q) == f
    ensures NormSq(q) == 1.0
  {
    ForwardOfFormula(q);
  }

  /** The relations that the rows of a rotation matrix impose on the unscaled
      components (p, q, r, s) of its quaternion, n being the square of the
      scale and f the forward row; rz, uz are the matrix entries m2 and m6
      and t1 the trace plus one. */
  predicate QuatRelations(f: Vec3, p: real, q: real, r: real, s: real, n: real, rz: real, uz: real, t1: real)
  {
    && p * r == n * (f.x + rz) && s * q == n * (f.x - rz)
    && q * r == n * (uz + f.y) && s * p == n * (uz - f.y)
    && s * s == n * t1
    && p * p + q * q - r * r == n * (t1 - 4.0 * f.z)
    && p * p + q * q + r * r == n * (4.0 - t1)
  }

  /** x = a k and y = b k with k^2 n = 1/4 and a b = n c: x y = c / 4. */
  lemma ScaledProduct(x: real, y: real, a: real, b: real, k: real, n: real, c: real)
    requires x == a * k && y == b * k
    requires k * k * n == 0.25
    requires a * b == n * c
    ensures x * y == 0.25 * c
  {
    calc {
      x * y;
      (a * b) * (k * k);
      c * (k * k * n);
    }
  }

  /** The squares of x = a k, y = b k, z = c k under the same scale. */
  lemma ScaledSquares(x: real, y: real, z: real, a: real, b: real, c: real, k: real, n: real, d: real, e: real)
    requires x == a * k && y == b * k && z == c * k
    requires k * k * n == 0.25
    requires a * a + b * b - c * c == n * d
    requires a * a + b * b + c * c == n * e
    ensures x * x + y * y - z * z == 0.25 * d
    ensures x * x + y * y + z * z == 0.25 * e
  {
    calc {
      x * x + y * y - z * z;
      (a * a + b * b - c * c) * (k * k);
      d * (k * k * n);
    }
    calc {
      x * x + y * y + z * z;
      (a * a + b * b + c * c) * (k * k);
      e * (k * k * n);
    }
  }

  /** Quat(p k, q k, r k, s k) with k^2 n = 1/4 and the relations of a rotation
      matrix is a unit quaternion with forward axis f. */
  lemma ScaledQuatRoundTrip(quat: Quat, f: Vec3, p: real, q: real, r: real, s: real, k: real, n: real, rz: real, uz: real, t1: real)
    requires quat.x == p * k && quat.y == q * k && quat.z == r * k && quat.w == s * k
    requires k * k * n == 0.25
    requires QuatRelations(f, p, q, r, s, n, rz, uz, t1)
    ensures ForwardOf(quat) == f
    ensures NormSq(quat) == 1.0
  {
    ScaledQuatProducts(quat, p, q, r, s, k, n, f.x + rz, f.x - rz, uz + f.y, uz - f.y, t1, t1 - 4.0 * f.z, 4.0 - t1);
    ForwardFromProducts(quat, f, rz, uz, t1);
  }

  /** The seven products of the components of Quat(p k, q k, r k, s k). */
  lemma ScaledQuatProducts(quat: Quat, p: real, q: real, r: real, s: real, k: real, n: real, c1: real, c2: real, c3: real, c4: real, c5: real, c6: real, c7: real)
    requires quat.x == p * k && quat.y == q * k && quat.z == r * k && quat.w == s * k
    requires k * k * n == 0.25
    requires p * r == n * c1 && s * q == n * c2 && q * r == n * c3 && s * p == n * c4 && s * s == n * c5
    requires p * p + q * q - r * r == n * c6 && p * p + q * q + r * r == n * c7
    ensures quat.x * quat.z == 0.25 * c1 && quat.w * quat.y == 0.25 * c2
    ensures quat.y * quat.z == 0.25 * c3 && quat.w * quat.x == 0.25 * c4
    ensures quat.w * quat.w == 0.25 * c5
    ensures quat.x * quat.x + quat.y * quat.y - quat.z * quat.z == 0.25 * c6
    ensures quat.x * quat.x + quat.y * quat.y + quat.z * quat.z == 0.25 * c7
  {
    ScaledProduct(quat.x, quat.z, p, r, k, n, c1);
    ScaledProduct(quat.w, quat.y, s, q, k, n, c2);
    ScaledProduct(quat.y, quat.z, q, r, k, n, c3);
    ScaledProduct(quat.w, quat.x, s, p, k, n, c4);
    ScaledProduct(quat.w, quat.w, s, s, k, n, c5);
    ScaledSquares(quat.x, quat.y, quat.z, p, q, r, k, n, c6, c7);
  }

  // The relations each branch needs, each one a polynomial identity of an
  // orthonormal right-handed basis (rows r, u, f).

  lemma TraceXZ(r: Vec3, u: Vec3, f: Vec3)
    requires Orthonormal(r, u, f)
    ensures (u.z - f.y) * (r.y - u.x) == (r.x + u.y + f.z + 1.0) * (f.x + r.z)
  {
  }
  lemma TraceYZ(r: Vec3, u: Vec3, f: Vec3)
    requires Orthonormal(r, u, f)
    ensures (f.x - r.z) * (r.y - u.x) == (r.x + u.y + f.z + 1.0) * (u.z + f.y)
  {
  }
  lemma TraceSquaresDiff(r: Vec3, u: Vec3, f: Vec3)
    requires Orthonormal(r, u, f)
    ensures var t1 := r.x + u.y + f.z + 1.0;
      (u.z - f.y) * (u.z - f.y) + (f.x - r.z) * (f.x - r.z) - (r.y - u.x) * (r.y - u.x) == t1 * (t1 - 4.0 * f.z)
  {
  }
  lemma TraceSquaresSum(r: Vec3, u: Vec3, f: Vec3)
    requires Orthonormal(r, u, f)
    ensures var t1 := r.x + u.y + f.z + 1.0;
      (u.z - f.y) * (u.z - f.y) + (f.x - r.z) * (f.x - r.z) + (r.y - u.x) * (r.y - u.x) == t1 * (4.0 - t1)
  {
  }
  lemma RightWY(r: Vec3, u: Vec3, f: Vec3)
    requires Orthonormal(r, u, f)
    ensures (u.z - f.y) * (u.x + r.y) == (1.0 + r.x - u.y - f.z) * (f.x - r.z)
  {
  }
  lemma RightYZ(r: Vec3, u: Vec3, f: Vec3)
    requires Orthonormal(r, u, f)
    ensures (u.x + r.y) * (f.x + r.z) == (1.0 + r.x - u.y - f.z) * (u.z + f.y)
  {
  }
  lemma RightWW(r: Vec3, u: Vec3, f: Vec3)
    requires Orthonormal(r, u, f)
    ensures (u.z - f.y) * (u.z - f.y) == (1.0 + r.x - u.y - f.z) * (r.x + u.y + f.z + 1.0)
  {
  }
  lemma RightSquaresDiff(r: Vec3, u: Vec3, f: Vec3)
    requires Orthonormal(r, u, f)
    ensures var d, t1 := 1.0 + r.x - u.y - f.z, r.x + u.y + f.z + 1.0;
      d * d + (u.x + r.y) * (u.x + r.y) - (f.x + r.z) * (f.x + r.z) == d * (t1 - 4.0 * f.z)
  {
  }
  lemma RightSquaresSum(r: Vec3, u: Vec3, f: Vec3)
    requires Orthonormal(r, u, f)
    ensures var d, t1 := 1.0 + r.x - u.y - f.z, r.x + u.y + f.z + 1.0;
      d * d + (u.x + r.y) * (u.x + r.y) + (f.x + r.z) * (f.x + r.z) == d * (4.0 - t1)
  {
  }

  lemma UpXZ(r: Vec3, u: Vec3, f: Vec3)
    requires Orthonormal(r, u, f)
    ensures (u.x + r.y) * (f.y + u.z) == (1.0 + u.y - r.x - f.z) * (f.x + r.z)
  {
  }
  lemma UpWX(r: Vec3, u: Vec3, f: Vec3)
    requires Orthonormal(r, u, f)
    ensures (f.x - r.z) * (u.x + r.y) == (1.0 + u.y - r.x - f.z) * (u.z - f.y)
  {
  }
  lemma UpWW(r: Vec3, u: Vec3, f: Vec3)
    requires Orthonormal(r, u, f)
    ensures (f.x - r.z) * (f.x - r.z) == (1.0 + u.y - r.x - f.z) * (r.x + u.y + f.z + 1.0)
  {
  }
  lemma UpSquaresDiff(r: Vec3, u: Vec3, f: Vec3)
    requires Orthonormal(r, u, f)
    ensures var d, t1 := 1.0 + u.y - r.x - f.z, r.x + u.y + f.z + 1.0;
      (u.x + r.y) * (u.x + r.y) + d * d - (f.y + u.z) * (f.y + u.z) == d * (t1 - 4.0 * f.z)
  {
  }
  lemma UpSquaresSum(r: Vec3, u: Vec3, f: Vec3)
    requires Orthonormal(r, u, f)
    ensures var d, t1 := 1.0 + u.y - r.x - f.z, r.x + u.y + f.z + 1.0;
      (u.x + r.y) * (u.x + r.y) + d * d + (f.y + u.z) * (f.y + u.z) == d * (4.0 - t1)
  {
  }

  lemma ForwardWY(r: Vec3, u: Vec3, f: Vec3)
    requires Orthonormal(r, u, f)
    ensures (r.y - u.x) * (f.y + u.z) == (1.0 + f.z - r.x - u.y) * (f.x - r.z)
  {
  }
  lemma ForwardWX(r: Vec3, u: Vec3, f: Vec3)
    requires Orthonormal(r, u, f)
    ensures (r.y - u.x) * (f.x + r.z) == (1.0 + f.z - r.x - u.y) * (u.z - f.y)
  {
  }
  lemma ForwardWW(r: Vec3, u: Vec3, f: Vec3)
    requires Orthonormal(r, u, f)
    ensures (r.y - u.x) * (r.y - u.x) == (1.0 + f.z - r.x - u.y) * (r.x + u.y + f.z + 1.0)
  {
  }
  lemma ForwardSquaresDiff(r: Vec3, u: Vec3, f: Vec3)
    requires Orthonormal(r, u, f)
    ensures var d, t1 := 1.0 + f.z - r.x - u.y, r.x + u.y + f.z + 1.0;
      (f.x + r.z) * (f.x + r.z) + (f.y + u.z) * (f.y + u.z) - d * d == d * (t1 - 4.0 * f.z)
  {
  }
  lemma ForwardSquaresSum(r: Vec3, u: Vec3, f: Vec3)
    requires Orthonormal(r, u, f)
    ensures var d, t1 := 1.0 + f.z - r.x - u.y, r.x + u.y + f.z + 1.0;
      (f.x + r.z) * (f.x + r.z) + (f.y + u.z) * (f.y + u.z) + d * d == d * (4.0 - t1)
  {
  }

  /** The relations for the trace branch, with p, q, r, s = m6 - m9, m8 - m2,
      m1 - m4, trace + 1. */
  lemma TraceRelations(r: Vec3, u: Vec3, f: Vec3)
    requires Orthonormal(r, u, f)
    ensures var t1 := r.x + u.y + f.z + 1.0;
      QuatRelations(f, u.z - f.y, f.x - r.z, r.y - u.x, t1, t1, r.z, u.z, t1)
  {
    TraceXZ(r, u, f); TraceYZ(r, u, f); TraceSquaresDiff(r, u, f); TraceSquaresSum(r, u, f);
  }

  /** The relations for the m0-dominant branch, with p, q, r, s = d, m4 + m1,
      m8 + m2, m6 - m9 and d = 1 + m0 - m5 - m10. */
  lemma RightDominantRelations(r: Vec3, u: Vec3, f: Vec3)
    requires Orthonormal(r, u, f)
    ensures var d := 1.0 + r.x - u.y - f.z;
      QuatRelations(f, d, u.x + r.y, f.x + r.z, u.z - f.y, d, r.z, u.z, r.x + u.y + f.z + 1.0)
  {
    RightWY(r, u, f); RightYZ(r, u, f); RightWW(r, u, f); RightSquaresDiff(r, u, f); RightSquaresSum(r, u, f);
  }

  /** The relations for the m5-dominant branch, with p, q, r, s = m4 + m1, d,
      m9 + m6, m8 - m2 and d = 1 + m5 - m0 - m10. */
  lemma UpDominantRelations(r: Vec3, u: Vec3, f: Vec3)
    requires Orthonormal(r, u, f)
    ensures var d := 1.0 + u.y - r.x - f.z;
      QuatRelations(f, u.x + r.y, d, f.y + u.z, f.x - r.z, d, r.z, u.z, r.x + u.y + f.z + 1.0)
  {
    UpXZ(r, u, f); UpWX(r, u, f); UpWW(r, u, f); UpSquaresDiff(r, u, f); UpSquaresSum(r, u, f);
  }

  /** The relations for the m10-dominant branch, with p, q, r, s = m8 + m2,
      m9 + m6, d, m1 - m4 and d = 1 + m10 - m0 - m5. */
  lemma ForwardDominantRelations(r: Vec3, u: Vec3, f: Vec3)
    requires Orthonormal(r, u, f)
    ensures var d := 1.0 + f.z - r.x - u.y;
      QuatRelations(f, f.x + r.z, f.y + u.z, d, r.y - u.x, d, r.z, u.z, r.x + u.y + f.z + 1.0)
  {
    ForwardWY(r, u, f); ForwardWX(r, u, f); ForwardWW(r, u, f); ForwardSquaresDiff(r, u, f); ForwardSquaresSum(r, u, f);
  }

  /** The scale of the trace branch, s = 1 / (2 sqrt(t1)): s^2 t1 = 1/4, and w = 1/(4 s) = t1 s. */
  lemma TraceScale(t1: real, m: MathLib)
    requires Lawful(m)
    requires t1 > 1.0
    ensures var s := 0.5 / m.sqrt(t1);
      s > 0.0 && s * s * t1 == 0.25 && 0.25 / s == t1 * s
  {
    var root := m.sqrt(t1);
    assert root > 0.0 && root * root == t1;
    var s := 0.5 / root;
    assert s * root == 0.5;
    calc {
      s * s * t1;
      (s * root) * (s * root);
    }
  }

  /** The scale of a dominant-entry branch, s = 2 sqrt(d): s^2 = 4 d. */
  lemma DominantScale(d: real, m: MathLib)
    requires Lawful(m)
    requires d > 0.0
    ensures var s := 2.0 * m.sqrt(d);
      s > 0.0 && s * s == 4.0 * d
  {
    var root := m.sqrt(d);
    assert root > 0.0 && root * root == d;
  }

  /** With k = 1/s and s^2 = 4 d: k^2 d = 1/4, s/4 = d k and a/s = a k. */
  lemma DominantFields(s: real, d: real, a: real, b: real, c: real)
    requires s > 0.0 && s * s == 4.0 * d
    ensures var k := 1.0 / s;
      && k * k * d == 0.25 && 0.25 * s == d * k
      && a / s == a * k && b / s == b * k && c / s == c * k
  {
    var k := 1.0 / s;
    assert k * s == 1.0;
    calc {
      k * k * d;
      k * k * (s * s) * 0.25;
      (k * s) * (k * s) * 0.25;
    }
    calc {
      d * k;
      0.25 * (s * s) * k;
      0.25 * s * (s * k);
    }
  }

  /** In the trace branch the conversion is the trace formula. */
  lemma TraceBranchIs(r: Vec3, u: Vec3, f: Vec3, m: MathLib)
    requires Lawful(m)
    requires BranchOf(r.x, u.y, f.z) == Trace
    ensures QuatFromBasis(r, u, f, m) == TraceQuat(r, u, f, 0.5 / m.sqrt(r.x + u.y + f.z + 1.0))
  {
    TraceScale(r.x + u.y + f.z + 1.0, m);
  }

  /** The trace formula on an orthonormal basis gives a unit quaternion whose
      forward axis is the basis' forward row. */
  lemma TraceQuatRoundTrip(r: Vec3, u: Vec3, f: Vec3, s: real)
    requires Orthonormal(r, u, f)
    requires s > 0.0 && s * s * (r.x + u.y + f.z + 1.0) == 0.25 && 0.25 / s == (r.x + u.y + f.z + 1.0) * s
    ensures ForwardOf(TraceQuat(r, u, f, s)) == f
    ensures NormSq(TraceQuat(r, u, f, s)) == 1.0
  {
    var t1 := r.x + u.y + f.z + 1.0;
    TraceRelations(r, u, f);
    ScaledQuatRoundTrip(TraceQuat(r, u, f, s), f, u.z - f.y, f.x - r.z, r.y - u.x, t1, s, t1, r.z, u.z, t1);
  }

  lemma TraceBranchRoundTrip(r: Vec3, u: Vec3, f: Vec3, m: MathLib)
    requires Lawful(m) && Orthonormal(r, u, f)
    requires BranchOf(r.x, u.y, f.z) == Trace
    ensures ForwardOf(QuatFromBasis(r, u, f, m)) == f
    ensures NormSq(QuatFromBasis(r, u, f, m)) == 1.0
  {
    TraceScale(r.x + u.y + f.z + 1.0, m);
    TraceBranchIs(r, u, f, m);
    TraceQuatRoundTrip(r, u, f, 0.5 / m.sqrt(r.x + u.y + f.z + 1.0));
  }

  // The three dominant-entry branches, in the same three steps.

  lemma RightDominantIs(r: Vec3, u: Vec3, f: Vec3, m: MathLib)
    requires Lawful(m)
    requires BranchOf(r.x, u.y, f.z) == RightDominant
    ensures var s := 2.0 * m.sqrt(1.0 + r.x - u.y - f.z);
      QuatFromBasis(r, u, f, m) == Quat(0.25 * s, (u.x + r.y) / s, (f.x + r.z) / s, (u.z - f.y) / s)
  {
  }

  lemma RightDominantQuatRoundTrip(r: Vec3, u: Vec3, f: Vec3, s: real)
    requires Orthonormal(r, u, f)
    requires s > 0.0 && s * s == 4.0 * (1.0 + r.x - u.y - f.z)
    ensures var q := Quat(0.25 * s, (u.x + r.y) / s, (f.x + r.z) / s, (u.z - f.y) / s);
      ForwardOf(q) == f && NormSq(q) == 1.0
  {
    var d := 1.0 + r.x - u.y - f.z;
    DominantFields(s, d, u.x + r.y, f.x + r.z, u.z - f.y);
    RightDominantRelations(r, u, f);
    ScaledQuatRoundTrip(Quat(0.25 * s, (u.x + r.y) / s, (f.x + r.z) / s, (u.z - f.y) / s), f,
      d, u.x + r.y, f.x + r.z, u.z - f.y, 1.0 / s, d, r.z, u.z, r.x + u.y + f.z + 1.0);
  }

  lemma RightDominantRoundTrip(r: Vec3, u: Vec3, f: Vec3, m: MathLib)
    requires Lawful(m) && Orthonormal(r, u, f)
    requires BranchOf(r.x, u.y, f.z) == RightDominant
    ensures ForwardOf(QuatFromBasis(r, u, f, m)) == f
    ensures NormSq(QuatFromBasis(r, u, f, m)) == 1.0
  {
    DominantScale(1.0 + r.x - u.y - f.z, m);
    RightDominantIs(r, u, f, m);
    RightDominantQuatRoundTrip(r, u, f, 2.0 * m.sqrt(1.0 + r.x - u.y - f.z));
  }

  lemma UpDominantIs(r: Vec3, u: Vec3, f: Vec3, m: MathLib)
    requires Lawful(m)
    requires BranchOf(r.x, u.y, f.z) == UpDominant
    ensures var s := 2.0 * m.sqrt(1.0 + u.y - r.x - f.z);
      QuatFromBasis(r, u, f, m) == Quat((u.x + r.y) / s, 0.25 * s, (f.y + u.z) / s, (f.x - r.z) / s)
  {
  }

  lemma UpDominantQuatRoundTrip(r: Vec3, u: Vec3, f: Vec3, s: real)
    requires Orthonormal(r, u, f)
    requires s > 0.0 && s * s == 4.0 * (1.0 + u.y - r.x - f.z)
    ensures var q := Quat((u.x + r.y) / s, 0.25 * s, (f.y + u.z) / s, (f.x - r.z) / s);
      ForwardOf(q) == f && NormSq(q) == 1.0
  {
    var d := 1.0 + u.y - r.x - f.z;
    DominantFields(s, d, u.x + r.y, f.y + u.z, f.x - r.z);
    UpDominantRelations(r, u, f);
    ScaledQuatRoundTrip(Quat((u.x + r.y) / s, 0.25 * s, (f.y + u.z) / s, (f.x - r.z) / s), f,
      u.x + r.y, d, f.y + u.z, f.x - r.z, 1.0 / s, d, r.z, u.z, r.x + u.y + f.z + 1.0);
  }

  lemma UpDominantRoundTrip(r: Vec3, u: Vec3, f: Vec3, m: MathLib)
    requires Lawful(m) && Orthonormal(r, u, f)
    requires BranchOf(r.x, u.y, f.z) == UpDominant
    ensures ForwardOf(QuatFromBasis(r, u, f, m)) == f
    ensures NormSq(QuatFromBasis(r, u, f, m)) == 1.0
  {
    DominantScale(1.0 + u.y - r.x - f.z, m);
    UpDominantIs(r, u, f, m);
    UpDominantQuatRoundTrip(r, u, f, 2.0 * m.sqrt(1.0 + u.y - r.x - f.z));
  }

  lemma ForwardDominantIs(r: Vec3, u: Vec3, f: Vec3, m: MathLib)
    requires Lawful(m)
    requires BranchOf(r.x, u.y, f.z) == ForwardDominant
    ensures var s := 2.0 * m.sqrt(1.0 + f.z - r.x - u.y);
      QuatFromBasis(r, u, f, m) == Quat((f.x + r.z) / s, (f.y + u.z) / s, 0.25 * s, (r.y - u.x) / s)
  {
  }

  lemma ForwardDominantQuatRoundTrip(r: Vec3, u: Vec3, f: Vec3, s: real)
    requires Orthonormal(r, u, f)
    requires s > 0.0 && s * s == 4.0 * (1.0 + f.z - r.x - u.y)
    ensures var q := Quat((f.x + r.z) / s, (f.y + u.z) / s, 0.25 * s, (r.y - u.x) / s);
      ForwardOf(q) == f && NormSq(q) == 1.0
  {
    var d := 1.0 + f.z - r.x - u.y;
    DominantFields(s, d, f.x + r.z, f.y + u.z, r.y - u.x);
    ForwardDominantRelations(r, u, f);
    ScaledQuatRoundTrip(Quat((f.x + r.z) / s, (f.y + u.z) / s, 0.25 * s, (r.y - u.x) / s), f,
      f.x + r.z, f.y + u.z, d, r.y - u.x, 1.0 / s, d, r.z, u.z, r.x + u.y + f.z + 1.0);
  }

  lemma ForwardDominantRoundTrip(r: Vec3, u: Vec3, f: Vec3, m: MathLib)
    requires Lawful(m) && Orthonormal(r, u, f)
    requires BranchOf(r.x, u.y, f.z) == ForwardDominant
    ensures ForwardOf(QuatFromBasis(r, u, f, m)) == f
    ensures NormSq(QuatFromBasis(r, u, f, m)) == 1.0
  {
    DominantScale(1.0 + f.z - r.x - u.y, m);
    ForwardDominantIs(r, u, f, m);
    ForwardDominantQuatRoundTrip(r, u, f, 2.0 * m.sqrt(1.0 + f.z - r.x - u.y));
  }

  /** Converting an orthonormal right-handed basis gives a unit quaternion
      whose forward axis is the basis' forward row, whichever branch is taken. */
  lemma QuatFromBasisRoundTrip(r: Vec3, u: Vec3, f: Vec3, m: MathLib)
    requires Lawful(m) && Orthonormal(r, u, f)
    ensures ForwardOf(QuatFromBasis(r, u, f, m)) == f
    ensures NormSq(QuatFromBasis(r, u, f, m)) == 1.0
  {
    match BranchOf(r.x, u.y, f.z)
    case Trace => TraceBranchRoundTrip(r, u, f, m);
    case RightDominant => RightDominantRoundTrip(r, u, f, m);
    case UpDominant => UpDominantRoundTrip(r, u, f, m);
    case ForwardDominant => ForwardDominantRoundTrip(r, u, f, m);
  }

  /** For a unit forward and an up not parallel to it, the basis look-at
      builds (right, the new up, forward) is orthonormal and right-handed. */
  lemma LookAtBasisOrthonormal(forward: Vec3, up: Vec3, m: MathLib)
    requires Lawful(m)
    requires Dot(forward, forward) == 1.0
    requires Dot(Cross(up, forward), Cross(up, forward)) > 0.0
    ensures var right := LookAtRight(forward, up, m);
      Orthonormal(right, Cross(forward, right), forward)
  {
    var right := LookAtRight(forward, up, m);
    NormalizeVec3IsUnit(Cross(up, forward), m);
    LookAtBasisOrthogonal(forward, up, m);
    CrossNormSq(forward, right);
    CrossOfCross(right, forward);
  }

  /** camera_look_at stores a unit quaternion whose forward axis is the given
      forward, for a unit forward and an up not parallel to it. */
  lemma LookAtRoundTrip(forward: Vec3, up: Vec3, m: MathLib)
    requires Lawful(m)
    requires Dot(forward, forward) == 1.0
    requires Dot(Cross(up, forward), Cross(up, forward)) > 0.0
    ensures ForwardOf(LookAtOrientation(forward, up, m)) == forward
    ensures NormSq(LookAtOrientation(forward, up, m)) == 1.0
  {
    LookAtBasisOrthonormal(forward, up, m);
    var right := LookAtRight(forward, up, m);
    QuatFromBasisRoundTrip(right, Cross(forward, right), forward, m);
  }

  // ----- Resolve, step 1: clamping the pending rotation -----

  /** The pending delta limited so that angle + delta stays below hi and, when
      the limits are ordered, above lo: min(hi - angle, max(lo - angle, delta)). */
  function ClampDelta(delta: real, angle: real, lo: real, hi: real): (r: real)
    ensures r <= hi - angle
    ensures lo <= hi ==> lo - angle <= r
    ensures lo - angle <= delta <= hi - angle ==> r == delta
    ensures r == delta || r == lo - angle || r == hi - angle
    ensures delta >= hi - angle ==> r == hi - angle
    ensures lo <= hi && delta <= lo - angle ==> r == lo - angle
    ensures lo > hi ==> r == hi - angle
  {
    Min(hi - angle, Max(lo - angle, delta))
  }

  /** The rotation accumulator after the clamp step, for current Euler angles. */
  function ClampedRotation(mode: bv32, acc: Vec3, angles: Vec3, limits: AngleLimits): Vec3
  {
    if HasFlag(mode, MODE_CLAMP_ANY) then
      Vec3(
        if HasFlag(mode, MODE_CLAMP_PITCH_ANGLE)
        then ClampDelta(acc.x, angles.x, limits.minPitch, limits.maxPitch) else acc.x,
        if HasFlag(mode, MODE_CLAMP_YAW_ANGLE)
        then ClampDelta(acc.y, angles.y, limits.minYaw, limits.maxYaw) else acc.y,
        if HasFlag(mode, MODE_CLAMP_ROLL_ANGLE)
        then ClampDelta(acc.z, angles.z, limits.minRoll, limits.maxRoll) else acc.z)
    else
      acc
  }

  /** Each axis is clamped exactly when its own flag is set, and an axis whose
      flag is clear is passed on untouched. */
  lemma ClampPerAxis(mode: bv32, acc: Vec3, angles: Vec3, limits: AngleLimits)
    ensures var r := ClampedRotation(mode, acc, angles, limits);
      && r.x == (if HasFlag(mode, MODE_CLAMP_PITCH_ANGLE)
                 then ClampDelta(acc.x, angles.x, limits.minPitch, limits.maxPitch) else acc.x)
      && r.y == (if HasFlag(mode, MODE_CLAMP_YAW_ANGLE)
                 then ClampDelta(acc.y, angles.y, limits.minYaw, limits.maxYaw) else acc.y)
      && r.z == (if HasFlag(mode, MODE_CLAMP_ROLL_ANGLE)
                 then ClampDelta(acc.z, angles.z, limits.minRoll, limits.maxRoll) else acc.z)
  {
  }

  /** With a clamp flag set, the clamped pitch keeps pitch + delta in range. */
  lemma ClampedPitchInRange(mode: bv32, acc: Vec3, angles: Vec3, limits: AngleLimits)
    requires HasFlag(mode, MODE_CLAMP_PITCH_ANGLE)
    requires limits.minPitch <= limits.maxPitch
    ensures limits.minPitch <= angles.x + ClampedRotation(mode, acc, angles, limits).x <= limits.maxPitch
  {
    ClampPerAxis(mode, acc, angles, limits);
  }

  /** The pitch limits of the clamping example in the header comment,
      maxPitch = -p and minPitch = p, are reversed: every pending pitch is
      replaced by the one that turns the camera to maxPitch. */
  lemma HeaderExamplePitchLimitsPinPitch(delta: real, angle: real, p: real)
    requires p > 0.0
    ensures ClampDelta(delta, angle, p, -p) == -p - angle
  {
  }

  /** The limits the header's rule asks for (min below max), minPitch = -p
      and maxPitch = p, keep pitch plus delta within [-p, p] and keep every
      delta that already does. */
  lemma OrderedPitchLimitsKeepRange(delta: real, angle: real, p: real)
    requires p > 0.0
    ensures -p <= angle + ClampDelta(delta, angle, -p, p) <= p
    ensures -p <= angle + delta <= p ==> ClampDelta(delta, angle, -p, p) == delta
  {
  }

  // ----- Resolve, step 2: applying the rotation -----

  /** The orientation after applying the (clamped) pending rotation, before
      renormalisation. Without roll: yaw * (orientation * pitch); with roll:
      orientation * pitch * yaw * roll. */
  function RotatedOrientation(mode: bv32, q: Quat, acc: Vec3, m: MathLib): Quat
  {
    var pitch := FromAxisAngle(WORLD_RIGHT, acc.x, m);
    var yaw := FromAxisAngle(WORLD_UP, acc.y, m);
    if HasFlag(mode, MODE_DISABLE_ROLL) then
      MulQuat(yaw, MulQuat(q, pitch))
    else
      MulQuat(MulQuat(MulQuat(q, pitch), yaw), FromAxisAngle(WORLD_FORWARD, acc.z, m))
  }

  /** The orientation the resolve step stores. */
  function ResolvedOrientation(mode: bv32, q: Quat, acc: Vec3, limits: AngleLimits, m: MathLib): Quat
    requires Lawful(m)
  {
    NormalizeQuat(RotatedOrientation(mode, q, ClampedRotation(mode, acc, ToEuler(q, m), limits), m), m)
  }

  /** With roll disabled the roll component of the accumulator has no effect. */
  lemma RollIgnoredWhenDisabled(mode: bv32, q: Quat, a: Vec3, b: Vec3, m: MathLib)
    requires HasFlag(mode, MODE_DISABLE_ROLL)
    requires a.x == b.x && a.y == b.y
    ensures RotatedOrientation(mode, q, a, m) == RotatedOrientation(mode, q, b, m)
  {
  }

  /** A zero pending rotation leaves the orientation as it is, in every mode. */
  lemma ZeroRotationKeepsOrientation(mode: bv32, q: Quat, m: MathLib)
    requires Lawful(m)
    ensures RotatedOrientation(mode, q, ZERO, m) == q
  {
    FromAxisAngleZero(WORLD_RIGHT, m);
    FromAxisAngleZero(WORLD_UP, m);
    FromAxisAngleZero(WORLD_FORWARD, m);
    MulQuatIdentity(q);
  }

  /** The resolved orientation is always a unit quaternion. */
  lemma ResolvedOrientationIsUnit(mode: bv32, q: Quat, acc: Vec3, limits: AngleLimits, m: MathLib)
    requires Lawful(m)
    ensures NormSq(ResolvedOrientation(mode, q, acc, limits, m)) == 1.0
  {
    NormalizeQuatIsUnit(RotatedOrientation(mode, q, ClampedRotation(mode, acc, ToEuler(q, m), limits), m), m);
  }

  /** The Euler angles lie within the limits of every axis whose clamp flag
      is set. */
  predicate WithinLimits(mode: bv32, angles: Vec3, limits: AngleLimits)
  {
    && (HasFlag(mode, MODE_CLAMP_PITCH_ANGLE) ==> limits.minPitch <= angles.x <= limits.maxPitch)
    && (HasFlag(mode, MODE_CLAMP_YAW_ANGLE) ==> limits.minYaw <= angles.y <= limits.maxYaw)
    && (HasFlag(mode, MODE_CLAMP_ROLL_ANGLE) ==> limits.minRoll <= angles.z <= limits.maxRoll)
  }

  /** Resolving nothing keeps a unit orientation exactly, in every mode whose
      flagged angles are within their limits (always so without clamp flags). */
  lemma ResolveWithoutRotationKeepsUnitOrientation(mode: bv32, q: Quat, limits: AngleLimits, m: MathLib)
    requires Lawful(m)
    requires WithinLimits(mode, ToEuler(q, m), limits)
    requires NormSq(q) == 1.0
    ensures ResolvedOrientation(mode, q, ZERO, limits, m) == q
  {
    ClampPerAxis(mode, ZERO, ToEuler(q, m), limits);
    assert ClampedRotation(mode, ZERO, ToEuler(q, m), limits) == ZERO;
    ZeroRotationKeepsOrientation(mode, q, m);
    NormalizeQuatFixesUnit(q, m);
  }

  /** Without clamp flags every orientation is within the limits. */
  lemma NoClampFlagIsWithinLimits(mode: bv32, angles: Vec3, limits: AngleLimits)
    requires !HasFlag(mode, MODE_CLAMP_ANY)
    ensures WithinLimits(mode, angles, limits)
  {
  }

  /** After every resolve the camera axes have unit length. */
  lemma ResolvedAxesAreUnit(mode: bv32, q: Quat, acc: Vec3, limits: AngleLimits, m: MathLib)
    requires Lawful(m)
    ensures var r := ResolvedOrientation(mode, q, acc, limits, m);
      && Dot(ForwardOf(r), ForwardOf(r)) == 1.0
      && Dot(UpOf(r), UpOf(r)) == 1.0
      && Dot(RightOf(r), RightOf(r)) == 1.0
  {
    ResolvedOrientationIsUnit(mode, q, acc, limits, m);
    UnitOrientationAxesAreUnit(ResolvedOrientation(mode, q, acc, limits, m));
  }

  /** From the all-zero quaternion camera_init stores, the first resolve yields
      the identity whatever rotation is pending: that rotation is lost. */
  lemma FirstResolveDiscardsRotation(mode: bv32, acc: Vec3, limits: AngleLimits, m: MathLib)
    requires Lawful(m)
    ensures ResolvedOrientation(mode, ZERO_QUAT, acc, limits, m) == IDENTITY
  {
    var r := ClampedRotation(mode, acc, ToEuler(ZERO_QUAT, m), limits);
    var pitch := FromAxisAngle(WORLD_RIGHT, r.x, m);
    var yaw := FromAxisAngle(WORLD_UP, r.y, m);
    MulQuatZero(pitch);
    MulQuatZero(yaw);
    MulQuatZero(FromAxisAngle(WORLD_FORWARD, r.z, m));
    assert RotatedOrientation(mode, ZERO_QUAT, r, m) == ZERO_QUAT;
  }

  // ----- Resolve, step 4: moving the target -----

  /** The three directions the pending movement is scaled along. */
  datatype Basis = Basis(forward: Vec3, up: Vec3, right: Vec3)

  /** The movement basis for an orientation. In world-plane mode a
      near-vertical forward is replaced by -up or up (or, failing that, a
      near-vertical right by up or -up), forward and right are flattened to
      the horizontal plane and normalised, and up becomes the world up. */
  function MovementBasis(mode: bv32, q: Quat, m: MathLib): (b: Basis)
    requires Lawful(m)
    ensures HasFlag(mode, MODE_MOVE_IN_WORLDPLANE) ==>
      b.forward.y == 0.0 && b.right.y == 0.0 && b.up == WORLD_UP
    ensures !HasFlag(mode, MODE_MOVE_IN_WORLDPLANE) ==>
      b.forward == ForwardOf(q) && b.up == UpOf(q) && b.right == RightOf(q)
  {
    var forward, up, right := ForwardOf(q), UpOf(q), RightOf(q);
    if HasFlag(mode, MODE_MOVE_IN_WORLDPLANE) then
      var (f, r) :=
        if forward.y > 1.0 - EPSILON then (Negate(up), right)
        else if forward.y < -1.0 + EPSILON then (up, right)
        else if right.y > 1.0 - EPSILON then (forward, up)
        else if right.y < -1.0 + EPSILON then (forward, Negate(up))
        else (forward, right);
      Basis(NormalizeVec3(f.(y := 0.0), m), WORLD_UP, NormalizeVec3(r.(y := 0.0), m))
    else
      Basis(forward, up, right)
  }

  /** a is v scaled to unit length by a positive factor, or v itself when v
      is the zero vector. */
  ghost predicate UnitAlong(a: Vec3, v: Vec3)
  {
    if Dot(v, v) > 0.0 then
      Dot(a, a) == 1.0 && exists k: real :: k > 0.0 && a == Scale(v, k)
    else
      a == v
  }

  lemma NormalizeVec3IsUnitAlong(v: Vec3, m: MathLib)
    requires Lawful(m)
    ensures UnitAlong(NormalizeVec3(v, m), v)
  {
    if Dot(v, v) > 0.0 {
      NormalizeVec3IsUnit(v, m);
    }
  }

  /** In world-plane mode the movement forward and right are the camera's
      own forward and right, or their near-vertical substitutes, flattened to
      the horizontal plane and brought to unit length. */
  lemma WorldPlaneBasisDirections(mode: bv32, q: Quat, m: MathLib)
    requires Lawful(m)
    requires HasFlag(mode, MODE_MOVE_IN_WORLDPLANE)
    ensures var f, u, r, b := ForwardOf(q), UpOf(q), RightOf(q), MovementBasis(mode, q, m);
      && (f.y > 1.0 - EPSILON ==>
            UnitAlong(b.forward, Negate(u).(y := 0.0)) && UnitAlong(b.right, r.(y := 0.0)))
      && (f.y < -1.0 + EPSILON ==>
            UnitAlong(b.forward, u.(y := 0.0)) && UnitAlong(b.right, r.(y := 0.0)))
      && (-1.0 + EPSILON <= f.y <= 1.0 - EPSILON && r.y > 1.0 - EPSILON ==>
            UnitAlong(b.forward, f.(y := 0.0)) && UnitAlong(b.right, u.(y := 0.0)))
      && (-1.0 + EPSILON <= f.y <= 1.0 - EPSILON && r.y < -1.0 + EPSILON ==>
            UnitAlong(b.forward, f.(y := 0.0)) && UnitAlong(b.right, Negate(u).(y := 0.0)))
      && (-1.0 + EPSILON <= f.y <= 1.0 - EPSILON && -1.0 + EPSILON <= r.y <= 1.0 - EPSILON ==>
            UnitAlong(b.forward, f.(y := 0.0)) && UnitAlong(b.right, r.(y := 0.0)))
  {
    var f, u, r := ForwardOf(q), UpOf(q), RightOf(q);
    NormalizeVec3IsUnitAlong(f.(y := 0.0), m);
    NormalizeVec3IsUnitAlong(u.(y := 0.0), m);
    NormalizeVec3IsUnitAlong(r.(y := 0.0), m);
    NormalizeVec3IsUnitAlong(Negate(u).(y := 0.0), m);
  }

  /** The target after moving by acc = (forward, up, right) along a basis. */
  function MovedTarget(target: Vec3, b: Basis, acc: Vec3): Vec3
  {
    Add(Add(Add(target, Scale(b.forward, acc.x)), Scale(b.up, acc.y)), Scale(b.right, acc.z))
  }

  /** World-plane movement changes altitude by exactly the up component. */
  lemma WorldPlaneMovementKeepsAltitude(target: Vec3, mode: bv32, q: Quat, acc: Vec3, m: MathLib)
    requires Lawful(m)
    requires HasFlag(mode, MODE_MOVE_IN_WORLDPLANE)
    ensures MovedTarget(target, MovementBasis(mode, q, m), acc).y == target.y + acc.y
  {
    var b := MovementBasis(mode, q, m);
    assert b.forward.y * acc.x == 0.0 && b.right.y * acc.z == 0.0;
  }

  /** No pending movement leaves the target where it is, in every mode. */
  lemma ZeroMovementKeepsTarget(target: Vec3, b: Basis)
    ensures MovedTarget(target, b, ZERO) == target
  {
  }

  // ----- Resolve, step 6: the view matrix -----

  /** The rotation matrix of q with the translation -eye (rotated by q) in
      slots 12 to 14. */
  function ViewMatrixOf(q: Quat, eye: Vec3): (r: seq<real>)
    ensures |r| == 16
  {
    var t := Mul(Negate(eye), q);
    RotationMatrix(q)[12 := t.x][13 := t.y][14 := t.z]
  }

  lemma ViewMatrixLayout(q: Quat, eye: Vec3)
    ensures var v := ViewMatrixOf(q, eye); var t := Mul(Negate(eye), q);
      && |v| == 16
      && v[3] == 0.0 && v[7] == 0.0 && v[11] == 0.0 && v[15] == 1.0
      && v[12] == t.x && v[13] == t.y && v[14] == t.z
      && v[..12] == RotationMatrix(q)[..12]
  {
    RotationMatrixFixedSlots(q);
  }

  // ----- The camera -----

  /** The camera struct: every field is state the operations update in place. */
  class Camera {
    var targetPosition: Vec3
    var targetDistance: real
    var orientation: Quat
    var mode: bv32

    // Pending changes, cleared by ViewMatrix.
    var movementAccumulator: Vec3
    var rotationAccumulator: Vec3

    // Angle clamping limits.
    var minPitch: real
    var maxPitch: real
    var minYaw: real
    var maxYaw: real
    var minRoll: real
    var maxRoll: real

    function Limits(): AngleLimits
      reads this
    {
      AngleLimits(minPitch, maxPitch, minYaw, maxYaw, minRoll, maxRoll)
    }

    /** camera_init. The orientation is the all-zero quaternion, not the
        identity; the first resolve turns it into the identity. */
    constructor Init()
      ensures targetPosition == ZERO && targetDistance == 0.0
      ensures orientation == ZERO_QUAT && mode == MODE_FREE
      ensures movementAccumulator == ZERO && rotationAccumulator == ZERO
      ensures Limits() == AngleLimits(0.0, 0.0, 0.0, 0.0, 0.0, 0.0)
    {
      targetPosition := Vec3(0.0, 0.0, 0.0);
      targetDistance := 0.0;
      orientation := Quat(0.0, 0.0, 0.0, 0.0);
      mode := MODE_FREE;
      movementAccumulator := Vec3(0.0, 0.0, 0.0);
      rotationAccumulator := Vec3(0.0, 0.0, 0.0);
      minPitch, maxPitch := 0.0, 0.0;
      minYaw, maxYaw := 0.0, 0.0;
      minRoll, maxRoll := 0.0, 0.0;
    }

    function Forward(): Vec3
      reads this
    {
      ForwardOf(orientation)
    }

    function Up(): Vec3
      reads this
    {
      UpOf(orientation)
    }

    function Right(): Vec3
      reads this
    {
      RightOf(orientation)
    }

    function Eye(): Vec3
      reads this
    {
      EyeOf(targetPosition, targetDistance, orientation)
    }

    /** camera_move: records (forward, up, right) offsets; the eye does not
        move until the next ViewMatrix. */
    method Move(offset: Vec3)
      modifies this`movementAccumulator
      ensures movementAccumulator == Add(old(movementAccumulator), offset)
      ensures Eye() == old(Eye())
    {
      movementAccumulator := Add(movementAccumulator, offset);
    }

    /** camera_rotate: records (pitch, yaw, roll) angles; the orientation does
        not change until the next ViewMatrix. */
    method Rotate(angles: Vec3)
      modifies this`rotationAccumulator
      ensures rotationAccumulator == Add(old(rotationAccumulator), angles)
      ensures Forward() == old(Forward())
    {
      rotationAccumulator := Add(rotationAccumulator, angles);
    }

    /** camera_look_at: re-orthogonalises the basis and overwrites the
        orientation with its quaternion; no other field changes. */
    method LookAt(forward: Vec3, up: Vec3, m: MathLib)
      requires Lawful(m)
      modifies this`orientation
      ensures orientation == LookAtOrientation(forward, up, m)
      ensures Dot(forward, forward) == 1.0 && Dot(Cross(up, forward), Cross(up, forward)) > 0.0 ==>
        Forward() == forward && NormSq(orientation) == 1.0
    {
      var right := NormalizeVec3(Cross(up, forward), m);
      var up' := Cross(forward, right);
      orientation := QuatFromBasis(right, up', forward, m);
      if Dot(forward, forward) == 1.0 && Dot(Cross(up, forward), Cross(up, forward)) > 0.0 {
        LookAtRoundTrip(forward, up, m);
      }
    }

    /** camera_view_matrix, the resolve step: clamps and applies the pending
        rotation, applies the pending movement, clears both accumulators and
        writes the view matrix into out. */
    method ViewMatrix(out: array<real>, m: MathLib)
      requires Lawful(m)
      requires out.Length == 16
      modifies this`rotationAccumulator, this`orientation
      modifies this`movementAccumulator, this`targetPosition, out
      ensures rotationAccumulator == ZERO
      ensures movementAccumulator == ZERO
      ensures orientation == ResolvedOrientation(mode, old(orientation), old(rotationAccumulator), AngleLimits(minPitch, maxPitch, minYaw, maxYaw, minRoll, maxRoll), m)
      ensures NormSq(orientation) == 1.0
      ensures targetPosition == MovedTarget(old(targetPosition), MovementBasis(mode, orientation, m), old(movementAccumulator))
      ensures HasFlag(mode, MODE_MOVE_IN_WORLDPLANE) ==>
        targetPosition.y == old(targetPosition.y) + old(movementAccumulator.y)
      ensures old(movementAccumulator) == ZERO ==> targetPosition == old(targetPosition)
      ensures forall i :: 0 <= i < 16 ==> out[i] == ViewMatrixOf(orientation, Eye())[i]
    {
      ResolveOrientation(m);
      UpdateTargetPosition(m);
      WriteViewMatrix(out, orientation, Eye());
    }

    /** The rotation half of the resolve step: clamp, compose, renormalise,
        clear the rotation accumulator. */
    method ResolveOrientation(m: MathLib)
      requires Lawful(m)
      modifies this`rotationAccumulator, this`orientation
      ensures rotationAccumulator == ZERO
      ensures orientation == ResolvedOrientation(mode, old(orientation), old(rotationAccumulator), AngleLimits(minPitch, maxPitch, minYaw, maxYaw, minRoll, maxRoll), m)
      ensures NormSq(orientation) == 1.0
    {
      ClampRotation(m);
      UpdateOrientation(m);
      ResolvedOrientationIsUnit(mode, old(orientation), old(rotationAccumulator), AngleLimits(minPitch, maxPitch, minYaw, maxYaw, minRoll, maxRoll), m);
    }

    /** "Clamp angles": limits each pending angle whose clamp flag is set
        against the current Euler angles; the others are left as they are. */
    method ClampRotation(m: MathLib)
      modifies this`rotationAccumulator
      ensures rotationAccumulator == ClampedRotation(mode, old(rotationAccumulator), ToEuler(orientation, m), AngleLimits(minPitch, maxPitch, minYaw, maxYaw, minRoll, maxRoll))
    {
      if HasFlag(mode, MODE_CLAMP_ANY) {
        var angles := ToEuler(orientation, m);
        if HasFlag(mode, MODE_CLAMP_PITCH_ANGLE) {
          rotationAccumulator := rotationAccumulator.(x := Max(minPitch - angles.x, rotationAccumulator.x));
          rotationAccumulator := rotationAccumulator.(x := Min(maxPitch - angles.x, rotationAccumulator.x));
        }
        if HasFlag(mode, MODE_CLAMP_YAW_ANGLE) {
          rotationAccumulator := rotationAccumulator.(y := Max(minYaw - angles.y, rotationAccumulator.y));
          rotationAccumulator := rotationAccumulator.(y := Min(maxYaw - angles.y, rotationAccumulator.y));
        }
        if HasFlag(mode, MODE_CLAMP_ROLL_ANGLE) {
          rotationAccumulator := rotationAccumulator.(z := Max(minRoll - angles.z, rotationAccumulator.z));
          rotationAccumulator := rotationAccumulator.(z := Min(maxRoll - angles.z, rotationAccumulator.z));
        }
      }
    }

    /** "Update orientation": composes the pending rotation into the
        orientation, renormalises it and clears the accumulator. */
    method UpdateOrientation(m: MathLib)
      requires Lawful(m)
      modifies this`orientation, this`rotationAccumulator
      ensures orientation == NormalizeQuat(RotatedOrientation(mode, old(orientation), old(rotationAccumulator), m), m)
      ensures rotationAccumulator == ZERO
    {
      ComposeRotation(m);
      orientation := NormalizeQuat(orientation, m);

      rotationAccumulator := rotationAccumulator.(x := 0.0);
      rotationAccumulator := rotationAccumulator.(y := 0.0);
      rotationAccumulator := rotationAccumulator.(z := 0.0);
    }

    /** Multiplies the pitch and yaw rotations, and the roll rotation unless
        roll is disabled, into the orientation in the mode's order. */
    method ComposeRotation(m: MathLib)
      modifies this`orientation
      ensures orientation == RotatedOrientation(mode, old(orientation), rotationAccumulator, m)
    {
      var pitch := FromAxisAngle(WORLD_RIGHT, rotationAccumulator.x, m);
      var yaw := FromAxisAngle(WORLD_UP, rotationAccumulator.y, m);
      if HasFlag(mode, MODE_DISABLE_ROLL) {
        orientation := MulQuat(orientation, pitch);
        orientation := MulQuat(yaw, orientation);
      } else {
        var roll := FromAxisAngle(WORLD_FORWARD, rotationAccumulator.z, m);
        orientation := MulQuat(orientation, pitch);
        orientation := MulQuat(orientation, yaw);
        orientation := MulQuat(orientation, roll);
      }
    }

    /** The three directions "Update target_position" moves along, with the
        world-plane projection and its near-vertical special cases. */
    method MovementAxes(m: MathLib) returns (forward: Vec3, up: Vec3, right: Vec3)
      requires Lawful(m)
      ensures Basis(forward, up, right) == MovementBasis(mode, orientation, m)
    {
      forward := Forward();
      up := Up();
      right := Right();
      if HasFlag(mode, MODE_MOVE_IN_WORLDPLANE) {
        if forward.y > 1.0 - EPSILON {
          forward := Negate(up);
        } else if forward.y < -1.0 + EPSILON {
          forward := up;
        } else if right.y > 1.0 - EPSILON {
          right := up;
        } else if right.y < -1.0 + EPSILON {
          right := Negate(up);
        }
        forward := forward.(y := 0.0);
        forward := NormalizeVec3(forward, m);
        right := right.(y := 0.0);
        right := NormalizeVec3(right, m);
        up := WORLD_UP;
      }
    }

    /** "Update target_position": moves the target by the pending movement
        along the movement axes and clears the accumulator. */
    method UpdateTargetPosition(m: MathLib)
      requires Lawful(m)
      modifies this`targetPosition, this`movementAccumulator
      ensures targetPosition == MovedTarget(old(targetPosition), MovementBasis(mode, orientation, m), old(movementAccumulator))
      ensures HasFlag(mode, MODE_MOVE_IN_WORLDPLANE) ==>
        targetPosition.y == old(targetPosition.y) + old(movementAccumulator.y)
      ensures old(movementAccumulator) == ZERO ==> targetPosition == old(targetPosition)
      ensures movementAccumulator == ZERO
    {
      if HasFlag(mode, MODE_MOVE_IN_WORLDPLANE) {
        WorldPlaneMovementKeepsAltitude(targetPosition, mode, orientation, movementAccumulator, m);
      }
      ZeroMovementKeepsTarget(targetPosition, MovementBasis(mode, orientation, m));
      var forward, up, right := MovementAxes(m);

      forward := Scale(forward, movementAccumulator.x);
      up := Scale(up, movementAccumulator.y);
      right := Scale(right, movementAccumulator.z);

      targetPosition := Add(targetPosition, forward);
      targetPosition := Add(targetPosition, up);
      targetPosition := Add(targetPosition, right);

      movementAccumulator := movementAccumulator.(x := 0.0);
      movementAccumulator := movementAccumulator.(y := 0.0);
      movementAccumulator := movementAccumulator.(z := 0.0);
    }

  }

  /** "Generate view matrix": the rotation matrix of the orientation, then
      the negated eye, rotated by the orientation, in slots 12 to 14. */
  method WriteViewMatrix(out: array<real>, orientation: Quat, eye: Vec3)
    requires out.Length == 16
    modifies out
    ensures forall i :: 0 <= i < 16 ==> out[i] == ViewMatrixOf(orientation, eye)[i]
  {
    MatrixFromQuat(out, orientation);
    var translation := Negate(eye);
    translation := Mul(translation, orientation);
    out[12] := translation.x;
    out[13] := translation.y;
    out[14] := translation.z;
  }
}

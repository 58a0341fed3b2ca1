/**
  The vector and quaternion algebra the camera is built on (the default math
  backend, camera_math_default.h), over exact reals instead of 32-bit floats.

  The polynomial helpers are ordinary functions. The transcendental functions
  of the C math library (sqrtf, powf, sinf, cosf, atan2f, asinf) are not
  defined here: they are supplied as a MathLib value, and Lawful states the
  few facts about them that the proofs use.
*/
module CameraMath {

  datatype Vec3 = Vec3(x: real, y: real, z: real)

  /** A quaternion with vector part (x, y, z) and scalar part w. */
  datatype Quat = Quat(x: real, y: real, z: real, w: real)

  const ZERO: Vec3 := Vec3(0.0, 0.0, 0.0)
  const IDENTITY: Quat := Quat(0.0, 0.0, 0.0, 1.0)
  const ZERO_QUAT: Quat := Quat(0.0, 0.0, 0.0, 0.0)

  /** The transcendental functions the backend calls, left uninterpreted. */
  datatype MathLib = MathLib(
    sqrt: real -> real,          // sqrtf
    pow: (real, real) -> real,   // powf
    sin: real -> real,           // sinf
    cos: real -> real,           // cosf
    atan2: (real, real) -> real, // atan2f
    asin: real -> real)          // asinf

  /** The only facts about the transcendental functions the model relies on. */
  ghost predicate Lawful(m: MathLib)
  {
    && (forall x: real :: x > 0.0 ==> m.sqrt(x) > 0.0 && m.sqrt(x) * m.sqrt(x) == x)
    && (forall x: real :: x > 0.0 ==> m.pow(x, -0.5) > 0.0 && m.pow(x, -0.5) * m.pow(x, -0.5) * x == 1.0)
    && m.sin(0.0) == 0.0
    && m.cos(0.0) == 1.0
  }

  /** Conjugate: negates the vector part (cm_invert). */
  function Invert(a: Quat): Quat
  {
    var Quat(x, y, z, w) := a;
    Quat(-x, -y, -z, w)
  }

  /** Hamilton product a * b (cm_mulQuat). */
  function MulQuat(a: Quat, b: Quat): Quat
  {
    var Quat(x1, y1, z1, w1) := a;
    var Quat(x2, y2, z2, w2) := b;
    Quat(
      w1 * x2 + x1 * w2 + y1 * z2 - z1 * y2,
      w1 * y2 - x1 * z2 + y1 * w2 + z1 * x2,
      w1 * z2 + x1 * y2 - y1 * x2 + z1 * w2,
      w1 * w2 - x1 * x2 - y1 * y2 - z1 * z2)
  }

  /** Rotates v by q through the sandwich product invert(q) * v * q (cm_mul). */
  function Mul(v: Vec3, q: Quat): Vec3
  {
    var Vec3(x, y, z) := v;
    var Quat(rx, ry, rz, _) := MulQuat(MulQuat(Invert(q), Quat(x, y, z, 0.0)), q);
    Vec3(rx, ry, rz)
  }

  function Add(a: Vec3, b: Vec3): Vec3
  {
    Vec3(a.x + b.x, a.y + b.y, a.z + b.z)
  }

  function Scale(a: Vec3, b: real): Vec3
  {
    Vec3(a.x * b, a.y * b, a.z * b)
  }

  function Negate(a: Vec3): Vec3
  {
    Vec3(-a.x, -a.y, -a.z)
  }

  function Cross(a: Vec3, b: Vec3): Vec3
  {
    Vec3(
      a.y * b.z - a.z * b.y,
      a.z * b.x - a.x * b.z,
      a.x * b.y - a.y * b.x)
  }

  function Dot(a: Vec3, b: Vec3): real
  {
    a.x * b.x + a.y * b.y + a.z * b.z
  }

  /** cm_min: the smaller argument, the second one on a tie. */
  function Min(a: real, b: real): (r: real)
    ensures r == a || r == b
    ensures r <= a && r <= b
  {
    if a < b then a else b
  }

  /** cm_max: the larger argument, the second one on a tie. */
  function Max(a: real, b: real): (r: real)
    ensures r == a || r == b
    ensures a <= r && b <= r
  {
    if a > b then a else b
  }

  /** Euler angles (pitch, yaw, roll) of a quaternion (cm_toEuler). */
  function ToEuler(a: Quat, m: MathLib): Vec3
  {
    var xsq := a.x * a.x;
    var ysq := a.y * a.y;
    var zsq := a.z * a.z;
    Vec3(
      m.atan2(2.0 * (a.x * a.w - a.y * a.z), 1.0 - 2.0 * (xsq + zsq)),
      m.atan2(2.0 * (a.y * a.w + a.x * a.z), 1.0 - 2.0 * (ysq + zsq)),
      m.asin(2.0 * (a.x * a.y + a.z * a.w)))
  }

  /** Rotation by angle around axis (cm_fromAxisAngle). */
  function FromAxisAngle(axis: Vec3, angle: real, m: MathLib): Quat
  {
    var ha := angle * 0.5;
    var sa := m.sin(ha);
    Quat(axis.x * sa, axis.y * sa, axis.z * sa, m.cos(ha))
  }

  function NormSq(a: Quat): real
  {
    a.x * a.x + a.y * a.y + a.z * a.z + a.w * a.w
  }

  function ScaleQuat(a: Quat, k: real): Quat
  {
    Quat(a.x * k, a.y * k, a.z * k, a.w * k)
  }

  /** cm_normalizeQuat: multiplies by norm^-0.5, or gives the identity when
      the squared norm is not positive. */
  function NormalizeQuat(a: Quat, m: MathLib): (r: Quat)
    requires Lawful(m)
    ensures NormSq(a) <= 0.0 ==> r == IDENTITY
    ensures NormSq(a) > 0.0 ==> exists k: real :: k > 0.0 && r == ScaleQuat(a, k)
  {
    var norm := NormSq(a);
    if 0.0 < norm then
      var invNorm := m.pow(norm, -0.5);
      assert invNorm > 0.0;
      ScaleQuat(a, invNorm)
    else
      IDENTITY
  }

  /** cm_normalizeVec3: divides by the length. The C code yields NaN for the
      zero vector; the model returns that (zero) vector unchanged. */
  function NormalizeVec3(a: Vec3, m: MathLib): (r: Vec3)
    requires Lawful(m)
    ensures Dot(a, a) <= 0.0 ==> r == a
    ensures Dot(a, a) > 0.0 ==> exists k: real :: k > 0.0 && r == Scale(a, k)
  {
    var lenSq := Dot(a, a);
    if lenSq > 0.0 then
      var invLen := 1.0 / m.sqrt(lenSq);
      assert invLen > 0.0;
      Scale(a, invLen)
    else
      a
  }

  /** The 4x4 rotation matrix of a quaternion, in the slot order
      cm_matrixFromQuat writes. */
  function RotationMatrix(q: Quat): (r: seq<real>)
    ensures |r| == 16
  {
    var x2 := q.x + q.x;
    var y2 := q.y + q.y;
    var z2 := q.z + q.z;
    var x2x := x2 * q.x;
    var x2y := x2 * q.y;
    var x2z := x2 * q.z;
    var x2w := x2 * q.w;
    var y2y := y2 * q.y;
    var y2z := y2 * q.z;
    var y2w := y2 * q.w;
    var z2z := z2 * q.z;
    var z2w := z2 * q.w;
    [ 1.0 - (y2y + z2z), x2y - z2w, x2z + y2w, 0.0,
      x2y + z2w, 1.0 - (x2x + z2z), y2z - x2w, 0.0,
      x2z - y2w, y2z + x2w, 1.0 - (x2x + y2y), 0.0,
      0.0, 0.0, 0.0, 1.0 ]
  }

  /** cm_matrixFromQuat: fills all 16 slots of a caller's buffer in place
      with the rotation matrix of the quaternion. */
  method MatrixFromQuat(result: array<real>, rotation: Quat)
    requires result.Length == 16
    modifies result
    ensures result[..] == RotationMatrix(rotation)
  {
    var matrix := RotationMatrix(rotation);
    forall i | 0 <= i < 16 {
      result[i] := matrix[i];
    }
  }

  // Algebraic facts about the helpers.

  lemma InvertInvolutive(a: Quat)
    ensures Invert(Invert(a)) == a
  {
  }

  lemma MulQuatIdentity(a: Quat)
    ensures MulQuat(IDENTITY, a) == a
    ensures MulQuat(a, IDENTITY) == a
  {
  }

  lemma MulQuatZero(a: Quat)
    ensures MulQuat(ZERO_QUAT, a) == ZERO_QUAT
    ensures MulQuat(a, ZERO_QUAT) == ZERO_QUAT
  {
  }

  /** The conjugate of a product is the product of the conjugates, reversed. */
  lemma InvertOfProduct(a: Quat, b: Quat)
    ensures Invert(MulQuat(a, b)) == MulQuat(Invert(b), Invert(a))
  {
    ConjugateProductParts(a, b, Invert(a), Invert(b));
  }

  /** The four components of InvertOfProduct, with the conjugates c and d
      as separate quaternions so that each side matches an unfolded product. */
  lemma ConjugateProductParts(a: Quat, b: Quat, c: Quat, d: Quat)
    requires c == Quat(-a.x, -a.y, -a.z, a.w)
    requires d == Quat(-b.x, -b.y, -b.z, b.w)
    ensures -(a.w * b.x + a.x * b.w + a.y * b.z - a.z * b.y) == d.w * c.x + d.x * c.w + d.y * c.z - d.z * c.y
    ensures -(a.w * b.y - a.x * b.z + a.y * b.w + a.z * b.x) == d.w * c.y - d.x * c.z + d.y * c.w + d.z * c.x
    ensures -(a.w * b.z + a.x * b.y - a.y * b.x + a.z * b.w) == d.w * c.z + d.x * c.y - d.y * c.x + d.z * c.w
    ensures a.w * b.w - a.x * b.x - a.y * b.y - a.z * b.z == d.w * c.w - d.x * c.x - d.y * c.y - d.z * c.z
  {
  }

  lemma InvertIdentity()
    ensures Invert(IDENTITY) == IDENTITY
  {
  }

  lemma RotateByIdentity(v: Vec3)
    ensures Mul(v, IDENTITY) == v
  {
    MulQuatIdentity(Quat(v.x, v.y, v.z, 0.0));
  }

  lemma CrossAntiCommutes(a: Vec3, b: Vec3)
    ensures Cross(a, b) == Negate(Cross(b, a))
  {
  }

  lemma CrossOrthogonal(a: Vec3, b: Vec3)
    ensures Dot(Cross(a, b), a) == 0.0
    ensures Dot(Cross(a, b), b) == 0.0
  {
  }

  /** The rows of a rotation matrix: unit, pairwise perpendicular, right-handed. */
  predicate Orthonormal(r: Vec3, u: Vec3, f: Vec3)
  {
    && Dot(r, r) == 1.0 && Dot(u, u) == 1.0 && Dot(f, f) == 1.0
    && Dot(r, u) == 0.0 && Dot(r, f) == 0.0 && Dot(u, f) == 0.0
    && Cross(r, u) == f
  }

  /** Lagrange's identity: |a x b|^2 = |a|^2 |b|^2 - (a . b)^2. */
  lemma CrossNormSq(a: Vec3, b: Vec3)
    ensures Dot(Cross(a, b), Cross(a, b)) == Dot(a, a) * Dot(b, b) - Dot(a, b) * Dot(a, b)
  {
  }

  /** a x (b x a) = b for a unit a perpendicular to b. */
  lemma CrossOfCross(a: Vec3, b: Vec3)
    requires Dot(a, a) == 1.0 && Dot(a, b) == 0.0
    ensures Cross(a, Cross(b, a)) == b
  {
    var c := Cross(a, Cross(b, a));
    assert c.x == b.x * Dot(a, a) - a.x * Dot(a, b);
    assert c.y == b.y * Dot(a, a) - a.y * Dot(a, b);
    assert c.z == b.z * Dot(a, a) - a.z * Dot(a, b);
  }

  lemma DotScale(a: Vec3, b: Vec3, k: real)
    ensures Dot(Scale(a, k), b) == k * Dot(a, b)
  {
  }

  lemma VectorArithmetic(a: Vec3, b: Vec3, c: Vec3)
    ensures Add(a, b) == Add(b, a)
    ensures Add(Add(a, b), c) == Add(a, Add(b, c))
    ensures Add(a, ZERO) == a
    ensures Scale(a, 0.0) == ZERO
    ensures Scale(a, 1.0) == a
  {
  }

  lemma NegateArithmetic(a: Vec3)
    ensures Negate(Negate(a)) == a
    ensures Add(a, Negate(a)) == ZERO
  {
  }

  /** Over the reals, normalisation always yields a unit quaternion. */
  lemma NormalizeQuatIsUnit(a: Quat, m: MathLib)
    requires Lawful(m)
    ensures NormSq(NormalizeQuat(a, m)) == 1.0
  {
    var n := NormSq(a);
    if 0.0 < n {
      var k := m.pow(n, -0.5);
      assert k * k * n == 1.0;
      calc {
        NormSq(ScaleQuat(a, k));
        (a.x * k) * (a.x * k) + (a.y * k) * (a.y * k) + (a.z * k) * (a.z * k) + (a.w * k) * (a.w * k);
        k * k * n;
      }
    }
  }

  lemma SquareAwayFromOne(k: real)
    ensures k > 1.0 ==> k * k > 1.0
    ensures 0.0 < k < 1.0 ==> k * k < 1.0
  {
    if k > 1.0 {
      assert k * k > 1.0 * k;
    }
    if 0.0 < k < 1.0 {
      assert k * k < 1.0 * k;
    }
  }

  /** A unit quaternion is left exactly as it is. */
  lemma NormalizeQuatFixesUnit(a: Quat, m: MathLib)
    requires Lawful(m)
    requires NormSq(a) == 1.0
    ensures NormalizeQuat(a, m) == a
  {
    var k := m.pow(1.0, -0.5);
    assert k > 0.0 && k * k == 1.0;
    SquareAwayFromOne(k);
  }

  /** Normalising a non-zero vector yields a unit vector. */
  lemma NormalizeVec3IsUnit(a: Vec3, m: MathLib)
    requires Lawful(m)
    requires Dot(a, a) > 0.0
    ensures Dot(NormalizeVec3(a, m), NormalizeVec3(a, m)) == 1.0
  {
    var n := Dot(a, a);
    var s := m.sqrt(n);
    assert s > 0.0 && s * s == n;
    var k := 1.0 / s;
    assert k * s == 1.0;
    calc {
      Dot(Scale(a, k), Scale(a, k));
      (a.x * k) * (a.x * k) + (a.y * k) * (a.y * k) + (a.z * k) * (a.z * k);
      k * k * n;
      k * k * (s * s);
      (k * s) * (k * s);
      1.0;
    }
  }

  lemma FromAxisAngleZero(axis: Vec3, m: MathLib)
    requires Lawful(m)
    ensures FromAxisAngle(axis, 0.0, m) == IDENTITY
  {
    assert 0.0 * 0.5 == 0.0;
  }

  /** The slots of the rotation matrix that do not depend on the quaternion. */
  lemma RotationMatrixFixedSlots(q: Quat)
    ensures RotationMatrix(q)[3] == 0.0 && RotationMatrix(q)[7] == 0.0 && RotationMatrix(q)[11] == 0.0
    ensures RotationMatrix(q)[12] == 0.0 && RotationMatrix(q)[13] == 0.0 && RotationMatrix(q)[14] == 0.0
    ensures RotationMatrix(q)[15] == 1.0
  {
  }

  lemma RotationMatrixOfIdentity()
    ensures RotationMatrix(IDENTITY) ==
      [ 1.0, 0.0, 0.0, 0.0,
        0.0, 1.0, 0.0, 0.0,
        0.0, 0.0, 1.0, 0.0,
        0.0, 0.0, 0.0, 1.0 ]
  {
  }
}

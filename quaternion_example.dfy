/** The reference computations of the gmtl quaternion example: one point in
    its implicit (Point3f) and explicit (Point4f) homogeneous forms, one
    axis-angle turned into both a rotation matrix and a quaternion, and the
    checks the example writes out side by side, which here are lemmas. The
    general lemmas hold for every normalised axis-angle; Example instantiates
    them with the example's own values. */
module QuaternionExample {
  import opened Linear
  import opened Quaternions
  import opened AxisAngles

  /** p1, implicit homogeneous form. */
  const P1: Vec3 := Vec3(5.0, -3.0, 7.0)

  /** p2, the same point in explicit homogeneous form. */
  const P2: Vec4 := Vec4(5.0, -3.0, 7.0, 1.0)

  /** rot_axis before gmtl::normalize. */
  const RotAxis: Vec3 := Vec3(1.0, 1.0, 1.0)

  /** The offset given to makeTrans for tran_mat. */
  const Offset: Vec3 := Vec3(-1.0, 5.0, -2.0)

  /** v, the local translation vector in explicit homogeneous form. */
  const LocalMove: Vec4 := Vec4(7.0, -6.0, 1.0, 0.0)

  /** The axis-angle aa: rot_axis normalised (len is its length, the square
      root of 3) and the angle given by its half-angle sine and cosine. */
  function ExampleAxisAngle(len: real, half: Angle): (aa: AxisAngle)
    requires 0.0 <= len && len * len == 3.0
    ensures IsUnitAxis(aa.axis) && Scale3(len, aa.axis) == RotAxis
  {
    assert len != 0.0;
    AxisAngle(half, Normalize(RotAxis, len))
  }

  /** q * (v, 0) * conj(q) and rot_mat * v agree on every free vector when
      q and rot_mat come from the same normalised axis-angle. */
  lemma QuatRotationIsMatrixRotation(aa: AxisAngle, v: Vec3)
    requires IsAngle(aa.angle) && IsUnitAxis(aa.axis)
    ensures Data(RotateVec(QuatOf(aa), v)) == MulVec(MatrixOf(aa), AsVector(v))
  {
    RotateIsMatrix(QuatOf(aa), v);
    MatrixOfIsQuatMatrix(aa);
  }

  /** "p1 after matrix rotation" equals "p1 after quaternion rotation":
      the xyz of q * (p, 0) * q_con is rot_mat * p for a Point3f p. */
  lemma PointRotation(aa: AxisAngle, p: Vec3)
    requires IsAngle(aa.angle) && IsUnitAxis(aa.axis)
    ensures Xyz(Data(RotateVec(QuatOf(aa), p))) == XformPoint3(MatrixOf(aa), p)
  {
    QuatRotationIsMatrixRotation(aa, p);
    PointAndVectorAgree(MatrixOf(aa), p);
  }

  /** Local translation of the pose (p, q): p + (q * (v, 0) * q_con).mData
      equals p + rot_mat * v, and the sum is still a point (w = 1) because
      the rotated vector keeps w = 0. */
  lemma LocalTranslation(aa: AxisAngle, p: Vec4, v: Vec4)
    requires IsAngle(aa.angle) && IsUnitAxis(aa.axis)
    requires IsPoint(p) && IsVector(v)
    ensures Add4(p, Data(RotateVec(QuatOf(aa), Xyz(v)))) == Add4(p, MulVec(MatrixOf(aa), v))
    ensures IsPoint(Add4(p, Data(RotateVec(QuatOf(aa), Xyz(v)))))
  {
    QuatRotationIsMatrixRotation(aa, Xyz(v));
    assert AsVector(Xyz(v)) == v;
    RotateIsPure(QuatOf(aa), Xyz(v));
  }

  /** A Point3f and the equal Point4f (w = 1 written out) give the same
      coordinates under a product of affine matrices, the Point4f result is
      still a point, and the product applies its right factor first. */
  lemma ImplicitAndExplicitPoint(a: Mat4, b: Mat4, p: Vec3)
    requires IsAffine(a) && IsAffine(b)
    ensures IsAffine(MatMul(a, b))
    ensures XformPoint3(MatMul(a, b), p) == Xyz(MulVec(MatMul(a, b), AsPoint(p)))
    ensures IsPoint(MulVec(MatMul(a, b), AsPoint(p)))
    ensures MulVec(MatMul(a, b), AsPoint(p)) == MulVec(a, MulVec(b, AsPoint(p)))
  {
    AffineKeepsW(MatMul(a, b), AsPoint(p));
    MatMulVec(a, b, AsPoint(p));
  }

  /** q built from a normalised axis-angle has unit norm, so q * q_con is
      the identity quaternion (0, 0, 0, 1) and so is q_con * q. */
  lemma ConjIsInverse(aa: AxisAngle)
    requires IsAngle(aa.angle) && IsUnitAxis(aa.axis)
    ensures IsUnit(QuatOf(aa))
    ensures Mul(QuatOf(aa), Conj(QuatOf(aa))) == IdentityQuat
    ensures Mul(Conj(QuatOf(aa)), QuatOf(aa)) == IdentityQuat
  {
    UnitConjIsInverse(QuatOf(aa));
  }

  /** The example's own values, first the two forms of p under
      rot_mat * tran_mat (rot_mat is affine, as every MatrixOf is): the
      Point3f and Point4f results agree and the latter is still a point. */
  lemma ExamplePointForms(rot: Mat4)
    requires IsAffine(rot)
    ensures XformPoint3(MatMul(rot, MakeTrans(Offset)), P1) == Xyz(MulVec(MatMul(rot, MakeTrans(Offset)), P2))
    ensures IsPoint(MulVec(MatMul(rot, MakeTrans(Offset)), P2))
  {
    P1IsP2();
    ImplicitAndExplicitPoint(rot, MakeTrans(Offset), P1);
  }

  /** tran_mat is applied first: it takes p2 to (4, 2, 5, 1), which
      rot_mat then rotates. */
  lemma ExampleTranslateFirst(rot: Mat4)
    ensures MulVec(MatMul(rot, MakeTrans(Offset)), P2) == MulVec(rot, Vec4(4.0, 2.0, 5.0, 1.0))
  {
    TranslateP2();
    MatMulVec(rot, MakeTrans(Offset), P2);
  }

  lemma P1IsP2()
    ensures AsPoint(P1) == P2
  {
  }

  lemma TranslateP2()
    ensures MulVec(MakeTrans(Offset), P2) == Vec4(4.0, 2.0, 5.0, 1.0)
  {
  }

  /** Then p1 rotated by the matrix and by the quaternion, p2 moved by v
      through either path, and q * q_con. */
  lemma ExampleRotation(len: real, half: Angle)
    requires 0.0 <= len && len * len == 3.0 && IsAngle(half)
    ensures Xyz(Data(RotateVec(QuatOf(ExampleAxisAngle(len, half)), P1)))
              == XformPoint3(MatrixOf(ExampleAxisAngle(len, half)), P1)
    ensures Add4(P2, Data(RotateVec(QuatOf(ExampleAxisAngle(len, half)), Xyz(LocalMove))))
              == Add4(P2, MulVec(MatrixOf(ExampleAxisAngle(len, half)), LocalMove))
    ensures Mul(QuatOf(ExampleAxisAngle(len, half)), Conj(QuatOf(ExampleAxisAngle(len, half))))
              == IdentityQuat
  {
    var aa := ExampleAxisAngle(len, half);
    PointRotation(aa, P1);
    LocalTranslation(aa, P2, LocalMove);
    ConjIsInverse(aa);
  }
}

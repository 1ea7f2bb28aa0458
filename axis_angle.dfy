/** Axis-angle rotations and their two derived forms, the quaternion
    (gmtl::set(Quatf&, AxisAnglef)) and the 4x4 rotation matrix
    (gmtl::set(Matrix44f&, AxisAnglef)), together with gmtl::normalize.
    There is no trigonometry here: an angle is known through the sine and
    cosine of its half, and the full angle's sine and cosine follow from the
    double-angle formulas. */
module AxisAngles {
  import opened Linear
  import opened Quaternions

  /** An angle theta, given by sin(theta / 2) and cos(theta / 2). */
  datatype Angle = Angle(sinHalf: real, cosHalf: real)

  /** The one fact about sine and cosine the model relies on. */
  predicate IsAngle(a: Angle) { a.sinHalf * a.sinHalf + a.cosHalf * a.cosHalf == 1.0 }

  /** sin(theta) = 2 sin(theta / 2) cos(theta / 2). */
  function Sin(a: Angle): real { 2.0 * a.sinHalf * a.cosHalf }

  /** cos(theta) = cos(theta / 2)^2 - sin(theta / 2)^2. */
  function Cos(a: Angle): real { a.cosHalf * a.cosHalf - a.sinHalf * a.sinHalf }

  /** gmtl's AxisAnglef: an angle and the axis it turns about. */
  datatype AxisAngle = AxisAngle(angle: Angle, axis: Vec3)

  predicate IsUnitAxis(v: Vec3) { Dot3(v, v) == 1.0 }

  /** gmtl::normalize(v), given len = length(v) (no square root here): a
      vector of non-zero length is divided by its length and becomes a unit
      vector in the same direction; a zero-length vector is left as it is. */
  function Normalize(v: Vec3, len: real): (r: Vec3)
    requires 0.0 <= len && len * len == Dot3(v, v)
    ensures len != 0.0 ==> IsUnitAxis(r) && Scale3(len, r) == v
    ensures len == 0.0 ==> r == v
  {
    if len != 0.0 then
      DivideByLength(v, len);
      Vec3(v.x / len, v.y / len, v.z / len)
    else
      v
  }

  lemma DivideByLength(v: Vec3, len: real)
    requires len > 0.0 && len * len == Dot3(v, v)
    ensures var r := Vec3(v.x / len, v.y / len, v.z / len);
            IsUnitAxis(r) && Scale3(len, r) == v
  {
    var r := Vec3(v.x / len, v.y / len, v.z / len);
    DivideThenMultiply(v.x, len);
    DivideThenMultiply(v.y, len);
    DivideThenMultiply(v.z, len);
    calc {
      Dot3(r, r) * (len * len);
      (r.x * r.x + r.y * r.y + r.z * r.z) * (len * len);
      { Distribute(r.x * r.x, r.y * r.y, r.z * r.z, len * len); }
      r.x * r.x * (len * len) + r.y * r.y * (len * len) + r.z * r.z * (len * len);
      { SquareOfScaled(r.x, len, v.x); SquareOfScaled(r.y, len, v.y); SquareOfScaled(r.z, len, v.z); }
      v.x * v.x + v.y * v.y + v.z * v.z;
      len * len;
    }
    CancelSquare(Dot3(r, r), len);
  }

  lemma DivideThenMultiply(x: real, len: real)
    requires len > 0.0
    ensures (x / len) * len == x
  {
  }

  lemma SquareOfScaled(r: real, len: real, x: real)
    requires r * len == x
    ensures r * r * (len * len) == x * x
  {
  }

  lemma Distribute(a: real, b: real, c: real, k: real)
    ensures (a + b + c) * k == a * k + b * k + c * k
  {
  }

  lemma CancelSquare(a: real, len: real)
    requires len > 0.0 && a * (len * len) == len * len
    ensures a == 1.0
  {
  }

  /** gmtl::set(Quatf&, AxisAnglef): (axis * sin(theta / 2), cos(theta / 2)). */
  function QuatOf(aa: AxisAngle): (q: Quat)
    ensures IsAngle(aa.angle) && IsUnitAxis(aa.axis) ==> IsUnit(q)
  {
    var s := aa.angle.sinHalf;
    var q := Quat(s * aa.axis.x, s * aa.axis.y, s * aa.axis.z, aa.angle.cosHalf);
    assert Norm2(q) == s * s * Dot3(aa.axis, aa.axis) + aa.angle.cosHalf * aa.angle.cosHalf;
    q
  }

  /** gmtl::set(Matrix44f&, AxisAnglef): the identity with its upper 3x3
      block replaced by the axis-angle rotation formula, with
      s = sin(theta), c = cos(theta) and t = 1 - c. */
  function MatrixOf(aa: AxisAngle): (m: Mat4)
    ensures NoTranslation(m)
  {
    var s, c := Sin(aa.angle), Cos(aa.angle);
    var t := 1.0 - c;
    var x, y, z := aa.axis.x, aa.axis.y, aa.axis.z;
    Mat4(Vec4(t * x * x + c, t * x * y - s * z, t * x * z + s * y, 0.0),
         Vec4(t * x * y + s * z, t * y * y + c, t * y * z - s * x, 0.0),
         Vec4(t * x * z - s * y, t * y * z + s * x, t * z * z + c, 0.0),
         Vec4(0.0, 0.0, 0.0, 1.0))
  }

  /** For a unit axis, the matrix gmtl builds from an axis-angle is exactly
      the rotation matrix of the quaternion it builds from the same
      axis-angle, so the two paths of the example rotate alike. */
  lemma MatrixOfIsQuatMatrix(aa: AxisAngle)
    requires IsAngle(aa.angle) && IsUnitAxis(aa.axis)
    ensures MatrixOf(aa) == QuatMatrix(QuatOf(aa))
  {
    RotationRow0(aa);
    RotationRow1(aa);
    RotationRow2(aa);
  }

  lemma RotationRow0(aa: AxisAngle)
    requires IsAngle(aa.angle) && IsUnitAxis(aa.axis)
    ensures MatrixOf(aa).r0 == QuatMatrix(QuatOf(aa)).r0
  {
    RotationEntry00(aa);
    RotationEntry01(aa);
    RotationEntry02(aa);
  }

  lemma RotationEntry00(aa: AxisAngle)
    requires IsAngle(aa.angle) && IsUnitAxis(aa.axis)
    ensures MatrixOf(aa).r0.x == QuatMatrix(QuatOf(aa)).r0.x
  {
    calc {
      MatrixOf(aa).r0.x;
      { MatrixOfEntry00(aa); }
      (1.0 - Cos(aa.angle)) * aa.axis.x * aa.axis.x + Cos(aa.angle);
      { RodriguesEntry00(Sin(aa.angle), Cos(aa.angle), aa.angle.sinHalf, aa.angle.cosHalf, aa.axis.x, aa.axis.y, aa.axis.z); }
      aa.angle.cosHalf * aa.angle.cosHalf + (aa.angle.sinHalf * aa.axis.x) * (aa.angle.sinHalf * aa.axis.x) - (aa.angle.sinHalf * aa.axis.y) * (aa.angle.sinHalf * aa.axis.y) - (aa.angle.sinHalf * aa.axis.z) * (aa.angle.sinHalf * aa.axis.z);
      { QuatMatrixOfEntry00(aa); }
      QuatMatrix(QuatOf(aa)).r0.x;
    }
  }

  lemma RotationEntry01(aa: AxisAngle)
    requires IsAngle(aa.angle)
    ensures MatrixOf(aa).r0.y == QuatMatrix(QuatOf(aa)).r0.y
  {
    MatrixOfEntry01(aa);
    QuatMatrixOfEntry01(aa);
    RodriguesEntry01(Sin(aa.angle), Cos(aa.angle), aa.angle.sinHalf, aa.angle.cosHalf, aa.axis.x, aa.axis.y, aa.axis.z);
  }

  lemma RotationEntry02(aa: AxisAngle)
    requires IsAngle(aa.angle)
    ensures MatrixOf(aa).r0.z == QuatMatrix(QuatOf(aa)).r0.z
  {
    MatrixOfEntry02(aa);
    QuatMatrixOfEntry02(aa);
    RodriguesEntry02(Sin(aa.angle), Cos(aa.angle), aa.angle.sinHalf, aa.angle.cosHalf, aa.axis.x, aa.axis.y, aa.axis.z);
  }

  lemma MatrixOfEntry00(aa: AxisAngle)
    ensures MatrixOf(aa).r0.x == (1.0 - Cos(aa.angle)) * aa.axis.x * aa.axis.x + Cos(aa.angle)
  {
  }

  lemma QuatMatrixOfEntry00(aa: AxisAngle)
    ensures QuatMatrix(QuatOf(aa)).r0.x == aa.angle.cosHalf * aa.angle.cosHalf + (aa.angle.sinHalf * aa.axis.x) * (aa.angle.sinHalf * aa.axis.x) - (aa.angle.sinHalf * aa.axis.y) * (aa.angle.sinHalf * aa.axis.y) - (aa.angle.sinHalf * aa.axis.z) * (aa.angle.sinHalf * aa.axis.z)
  {
  }

  lemma MatrixOfEntry01(aa: AxisAngle)
    ensures MatrixOf(aa).r0.y == (1.0 - Cos(aa.angle)) * aa.axis.x * aa.axis.y - Sin(aa.angle) * aa.axis.z
  {
  }

  lemma QuatMatrixOfEntry01(aa: AxisAngle)
    ensures QuatMatrix(QuatOf(aa)).r0.y == 2.0 * ((aa.angle.sinHalf * aa.axis.x) * (aa.angle.sinHalf * aa.axis.y) - aa.angle.cosHalf * (aa.angle.sinHalf * aa.axis.z))
  {
  }

  lemma MatrixOfEntry02(aa: AxisAngle)
    ensures MatrixOf(aa).r0.z == (1.0 - Cos(aa.angle)) * aa.axis.x * aa.axis.z + Sin(aa.angle) * aa.axis.y
  {
  }

  lemma QuatMatrixOfEntry02(aa: AxisAngle)
    ensures QuatMatrix(QuatOf(aa)).r0.z == 2.0 * ((aa.angle.sinHalf * aa.axis.x) * (aa.angle.sinHalf * aa.axis.z) + aa.angle.cosHalf * (aa.angle.sinHalf * aa.axis.y))
  {
  }

  lemma RotationRow1(aa: AxisAngle)
    requires IsAngle(aa.angle) && IsUnitAxis(aa.axis)
    ensures MatrixOf(aa).r1 == QuatMatrix(QuatOf(aa)).r1
  {
    RotationEntry10(aa);
    RotationEntry11(aa);
    RotationEntry12(aa);
  }

  lemma RotationEntry10(aa: AxisAngle)
    requires IsAngle(aa.angle)
    ensures MatrixOf(aa).r1.x == QuatMatrix(QuatOf(aa)).r1.x
  {
    MatrixOfEntry10(aa);
    QuatMatrixOfEntry10(aa);
    RodriguesEntry10(Sin(aa.angle), Cos(aa.angle), aa.angle.sinHalf, aa.angle.cosHalf, aa.axis.x, aa.axis.y, aa.axis.z);
  }

  lemma RotationEntry11(aa: AxisAngle)
    requires IsAngle(aa.angle) && IsUnitAxis(aa.axis)
    ensures MatrixOf(aa).r1.y == QuatMatrix(QuatOf(aa)).r1.y
  {
    calc {
      MatrixOf(aa).r1.y;
      { MatrixOfEntry11(aa); }
      (1.0 - Cos(aa.angle)) * aa.axis.y * aa.axis.y + Cos(aa.angle);
      { RodriguesEntry11(Sin(aa.angle), Cos(aa.angle), aa.angle.sinHalf, aa.angle.cosHalf, aa.axis.x, aa.axis.y, aa.axis.z); }
      aa.angle.cosHalf * aa.angle.cosHalf - (aa.angle.sinHalf * aa.axis.x) * (aa.angle.sinHalf * aa.axis.x) + (aa.angle.sinHalf * aa.axis.y) * (aa.angle.sinHalf * aa.axis.y) - (aa.angle.sinHalf * aa.axis.z) * (aa.angle.sinHalf * aa.axis.z);
      { QuatMatrixOfEntry11(aa); }
      QuatMatrix(QuatOf(aa)).r1.y;
    }
  }

  lemma RotationEntry12(aa: AxisAngle)
    requires IsAngle(aa.angle)
    ensures MatrixOf(aa).r1.z == QuatMatrix(QuatOf(aa)).r1.z
  {
    MatrixOfEntry12(aa);
    QuatMatrixOfEntry12(aa);
    RodriguesEntry12(Sin(aa.angle), Cos(aa.angle), aa.angle.sinHalf, aa.angle.cosHalf, aa.axis.x, aa.axis.y, aa.axis.z);
  }

  lemma MatrixOfEntry10(aa: AxisAngle)
    ensures MatrixOf(aa).r1.x == (1.0 - Cos(aa.angle)) * aa.axis.x * aa.axis.y + Sin(aa.angle) * aa.axis.z
  {
  }

  lemma QuatMatrixOfEntry10(aa: AxisAngle)
    ensures QuatMatrix(QuatOf(aa)).r1.x == 2.0 * ((aa.angle.sinHalf * aa.axis.x) * (aa.angle.sinHalf * aa.axis.y) + aa.angle.cosHalf * (aa.angle.sinHalf * aa.axis.z))
  {
  }

  lemma MatrixOfEntry11(aa: AxisAngle)
    ensures MatrixOf(aa).r1.y == (1.0 - Cos(aa.angle)) * aa.axis.y * aa.axis.y + Cos(aa.angle)
  {
  }

  lemma QuatMatrixOfEntry11(aa: AxisAngle)
    ensures QuatMatrix(QuatOf(aa)).r1.y == aa.angle.cosHalf * aa.angle.cosHalf - (aa.angle.sinHalf * aa.axis.x) * (aa.angle.sinHalf * aa.axis.x) + (aa.angle.sinHalf * aa.axis.y) * (aa.angle.sinHalf * aa.axis.y) - (aa.angle.sinHalf * aa.axis.z) * (aa.angle.sinHalf * aa.axis.z)
  {
  }

  lemma MatrixOfEntry12(aa: AxisAngle)
    ensures MatrixOf(aa).r1.z == (1.0 - Cos(aa.angle)) * aa.axis.y * aa.axis.z - Sin(aa.angle) * aa.axis.x
  {
  }

  lemma QuatMatrixOfEntry12(aa: AxisAngle)
    ensures QuatMatrix(QuatOf(aa)).r1.z == 2.0 * ((aa.angle.sinHalf * aa.axis.y) * (aa.angle.sinHalf * aa.axis.z) - aa.angle.cosHalf * (aa.angle.sinHalf * aa.axis.x))
  {
  }

  lemma RotationRow2(aa: AxisAngle)
    requires IsAngle(aa.angle) && IsUnitAxis(aa.axis)
    ensures MatrixOf(aa).r2 == QuatMatrix(QuatOf(aa)).r2
  {
    RotationEntry20(aa);
    RotationEntry21(aa);
    RotationEntry22(aa);
  }

  lemma RotationEntry20(aa: AxisAngle)
    requires IsAngle(aa.angle)
    ensures MatrixOf(aa).r2.x == QuatMatrix(QuatOf(aa)).r2.x
  {
    MatrixOfEntry20(aa);
    QuatMatrixOfEntry20(aa);
    RodriguesEntry20(Sin(aa.angle), Cos(aa.angle), aa.angle.sinHalf, aa.angle.cosHalf, aa.axis.x, aa.axis.y, aa.axis.z);
  }

  lemma RotationEntry21(aa: AxisAngle)
    requires IsAngle(aa.angle)
    ensures MatrixOf(aa).r2.y == QuatMatrix(QuatOf(aa)).r2.y
  {
    MatrixOfEntry21(aa);
    QuatMatrixOfEntry21(aa);
    RodriguesEntry21(Sin(aa.angle), Cos(aa.angle), aa.angle.sinHalf, aa.angle.cosHalf, aa.axis.x, aa.axis.y, aa.axis.z);
  }

  lemma RotationEntry22(aa: AxisAngle)
    requires IsAngle(aa.angle) && IsUnitAxis(aa.axis)
    ensures MatrixOf(aa).r2.z == QuatMatrix(QuatOf(aa)).r2.z
  {
    calc {
      MatrixOf(aa).r2.z;
      { MatrixOfEntry22(aa); }
      (1.0 - Cos(aa.angle)) * aa.axis.z * aa.axis.z + Cos(aa.angle);
      { RodriguesEntry22(Sin(aa.angle), Cos(aa.angle), aa.angle.sinHalf, aa.angle.cosHalf, aa.axis.x, aa.axis.y, aa.axis.z); }
      aa.angle.cosHalf * aa.angle.cosHalf - (aa.angle.sinHalf * aa.axis.x) * (aa.angle.sinHalf * aa.axis.x) - (aa.angle.sinHalf * aa.axis.y) * (aa.angle.sinHalf * aa.axis.y) + (aa.angle.sinHalf * aa.axis.z) * (aa.angle.sinHalf * aa.axis.z);
      { QuatMatrixOfEntry22(aa); }
      QuatMatrix(QuatOf(aa)).r2.z;
    }
  }

  lemma MatrixOfEntry20(aa: AxisAngle)
    ensures MatrixOf(aa).r2.x == (1.0 - Cos(aa.angle)) * aa.axis.x * aa.axis.z - Sin(aa.angle) * aa.axis.y
  {
  }

  lemma QuatMatrixOfEntry20(aa: AxisAngle)
    ensures QuatMatrix(QuatOf(aa)).r2.x == 2.0 * ((aa.angle.sinHalf * aa.axis.x) * (aa.angle.sinHalf * aa.axis.z) - aa.angle.cosHalf * (aa.angle.sinHalf * aa.axis.y))
  {
  }

  lemma MatrixOfEntry21(aa: AxisAngle)
    ensures MatrixOf(aa).r2.y == (1.0 - Cos(aa.angle)) * aa.axis.y * aa.axis.z + Sin(aa.angle) * aa.axis.x
  {
  }

  lemma QuatMatrixOfEntry21(aa: AxisAngle)
    ensures QuatMatrix(QuatOf(aa)).r2.y == 2.0 * ((aa.angle.sinHalf * aa.axis.y) * (aa.angle.sinHalf * aa.axis.z) + aa.angle.cosHalf * (aa.angle.sinHalf * aa.axis.x))
  {
  }

  lemma MatrixOfEntry22(aa: AxisAngle)
    ensures MatrixOf(aa).r2.z == (1.0 - Cos(aa.angle)) * aa.axis.z * aa.axis.z + Cos(aa.angle)
  {
  }

  lemma QuatMatrixOfEntry22(aa: AxisAngle)
    ensures QuatMatrix(QuatOf(aa)).r2.z == aa.angle.cosHalf * aa.angle.cosHalf - (aa.angle.sinHalf * aa.axis.x) * (aa.angle.sinHalf * aa.axis.x) - (aa.angle.sinHalf * aa.axis.y) * (aa.angle.sinHalf * aa.axis.y) + (aa.angle.sinHalf * aa.axis.z) * (aa.angle.sinHalf * aa.axis.z)
  {
  }

  lemma ScaleEquation(p: real, q: real, k: real)
    requires p == q
    ensures p * k == q * k
  {
  }

  lemma RodriguesEntry00(sn: real, cs: real, s: real, c: real, x: real, y: real, z: real)
    requires sn == 2.0 * s * c && cs == c * c - s * s && s * s + c * c == 1.0
    requires x * x + y * y + z * z == 1.0
    ensures (1.0 - cs) * x * x + cs == c * c + (s * x) * (s * x) - (s * y) * (s * y) - (s * z) * (s * z)
  {
    ScaleEquation(cs, c * c - s * s, x * x);
    ScaleEquation(s * s + c * c, 1.0, x * x);
    ScaleEquation(x * x + y * y + z * z, 1.0, s * s);
  }

  lemma RodriguesEntry01(sn: real, cs: real, s: real, c: real, x: real, y: real, z: real)
    requires sn == 2.0 * s * c && cs == c * c - s * s && s * s + c * c == 1.0
    ensures (1.0 - cs) * x * y - sn * z == 2.0 * ((s * x) * (s * y) - c * (s * z))
  {
    ScaleEquation(cs, c * c - s * s, x * y);
    ScaleEquation(s * s + c * c, 1.0, x * y);
    ScaleEquation(sn, 2.0 * s * c, z);
  }

  lemma RodriguesEntry02(sn: real, cs: real, s: real, c: real, x: real, y: real, z: real)
    requires sn == 2.0 * s * c && cs == c * c - s * s && s * s + c * c == 1.0
    ensures (1.0 - cs) * x * z + sn * y == 2.0 * ((s * x) * (s * z) + c * (s * y))
  {
    ScaleEquation(cs, c * c - s * s, x * z);
    ScaleEquation(s * s + c * c, 1.0, x * z);
    ScaleEquation(sn, 2.0 * s * c, y);
  }

  lemma RodriguesEntry10(sn: real, cs: real, s: real, c: real, x: real, y: real, z: real)
    requires sn == 2.0 * s * c && cs == c * c - s * s && s * s + c * c == 1.0
    ensures (1.0 - cs) * x * y + sn * z == 2.0 * ((s * x) * (s * y) + c * (s * z))
  {
    ScaleEquation(cs, c * c - s * s, x * y);
    ScaleEquation(s * s + c * c, 1.0, x * y);
    ScaleEquation(sn, 2.0 * s * c, z);
  }

  lemma RodriguesEntry11(sn: real, cs: real, s: real, c: real, x: real, y: real, z: real)
    requires sn == 2.0 * s * c && cs == c * c - s * s && s * s + c * c == 1.0
    requires x * x + y * y + z * z == 1.0
    ensures (1.0 - cs) * y * y + cs == c * c - (s * x) * (s * x) + (s * y) * (s * y) - (s * z) * (s * z)
  {
    ScaleEquation(cs, c * c - s * s, y * y);
    ScaleEquation(s * s + c * c, 1.0, y * y);
    ScaleEquation(x * x + y * y + z * z, 1.0, s * s);
  }

  lemma RodriguesEntry12(sn: real, cs: real, s: real, c: real, x: real, y: real, z: real)
    requires sn == 2.0 * s * c && cs == c * c - s * s && s * s + c * c == 1.0
    ensures (1.0 - cs) * y * z - sn * x == 2.0 * ((s * y) * (s * z) - c * (s * x))
  {
    ScaleEquation(cs, c * c - s * s, y * z);
    ScaleEquation(s * s + c * c, 1.0, y * z);
    ScaleEquation(sn, 2.0 * s * c, x);
  }

  lemma RodriguesEntry20(sn: real, cs: real, s: real, c: real, x: real, y: real, z: real)
    requires sn == 2.0 * s * c && cs == c * c - s * s && s * s + c * c == 1.0
    ensures (1.0 - cs) * x * z - sn * y == 2.0 * ((s * x) * (s * z) - c * (s * y))
  {
    ScaleEquation(cs, c * c - s * s, x * z);
    ScaleEquation(s * s + c * c, 1.0, x * z);
    ScaleEquation(sn, 2.0 * s * c, y);
  }

  lemma RodriguesEntry21(sn: real, cs: real, s: real, c: real, x: real, y: real, z: real)
    requires sn == 2.0 * s * c && cs == c * c - s * s && s * s + c * c == 1.0
    ensures (1.0 - cs) * y * z + sn * x == 2.0 * ((s * y) * (s * z) + c * (s * x))
  {
    ScaleEquation(cs, c * c - s * s, y * z);
    ScaleEquation(s * s + c * c, 1.0, y * z);
    ScaleEquation(sn, 2.0 * s * c, x);
  }

  lemma RodriguesEntry22(sn: real, cs: real, s: real, c: real, x: real, y: real, z: real)
    requires sn == 2.0 * s * c && cs == c * c - s * s && s * s + c * c == 1.0
    requires x * x + y * y + z * z == 1.0
    ensures (1.0 - cs) * z * z + cs == c * c - (s * x) * (s * x) - (s * y) * (s * y) + (s * z) * (s * z)
  {
    ScaleEquation(cs, c * c - s * s, z * z);
    ScaleEquation(s * s + c * c, 1.0, z * z);
    ScaleEquation(x * x + y * y + z * z, 1.0, s * s);
  }
}

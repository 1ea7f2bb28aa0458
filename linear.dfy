/** Vectors, homogeneous points and 4x4 matrices over the reals, standing in
    for the gmtl types Vec3f/Point3f, Vec4f/Point4f and Matrix44f.
    A homogeneous point has w = 1 and a free vector has w = 0. */
module Linear {

  datatype Vec3 = Vec3(x: real, y: real, z: real)

  /** Point4f and Vec4f share this representation, as gmtl's do. */
  datatype Vec4 = Vec4(x: real, y: real, z: real, w: real)

  /** A 4x4 matrix given by its rows; entry (i, j) is row i, column j. */
  datatype Mat4 = Mat4(r0: Vec4, r1: Vec4, r2: Vec4, r3: Vec4)

  predicate IsPoint(p: Vec4) { p.w == 1.0 }

  predicate IsVector(v: Vec4) { v.w == 0.0 }

  function Dot3(u: Vec3, v: Vec3): real { u.x * v.x + u.y * v.y + u.z * v.z }

  function Dot4(u: Vec4, v: Vec4): real { u.x * v.x + u.y * v.y + u.z * v.z + u.w * v.w }

  function Add3(u: Vec3, v: Vec3): Vec3 { Vec3(u.x + v.x, u.y + v.y, u.z + v.z) }

  function Scale3(k: real, v: Vec3): Vec3 { Vec3(k * v.x, k * v.y, k * v.z) }

  function Neg3(v: Vec3): Vec3 { Vec3(-v.x, -v.y, -v.z) }

  /** Component-wise sum of two 4-vectors (gmtl's Point4f + Vec4f). */
  function Add4(u: Vec4, v: Vec4): Vec4 { Vec4(u.x + v.x, u.y + v.y, u.z + v.z, u.w + v.w) }

  function Xyz(v: Vec4): Vec3 { Vec3(v.x, v.y, v.z) }

  /** The explicit homogeneous form of a Point3f: the fourth element is 1. */
  function AsPoint(p: Vec3): (r: Vec4)
    ensures IsPoint(r) && Xyz(r) == p
  {
    Vec4(p.x, p.y, p.z, 1.0)
  }

  /** The explicit homogeneous form of a Vec3f: the fourth element is 0. */
  function AsVector(v: Vec3): (r: Vec4)
    ensures IsVector(r) && Xyz(r) == v
  {
    Vec4(v.x, v.y, v.z, 0.0)
  }

  function Col(m: Mat4, j: nat): Vec4
    requires j < 4
  {
    match j
    case 0 => Vec4(m.r0.x, m.r1.x, m.r2.x, m.r3.x)
    case 1 => Vec4(m.r0.y, m.r1.y, m.r2.y, m.r3.y)
    case 2 => Vec4(m.r0.z, m.r1.z, m.r2.z, m.r3.z)
    case 3 => Vec4(m.r0.w, m.r1.w, m.r2.w, m.r3.w)
  }

  /** Matrix times 4-vector (gmtl's Matrix44f * Vec4f and Matrix44f * Point4f). */
  function MulVec(m: Mat4, v: Vec4): Vec4
  {
    Vec4(Dot4(m.r0, v), Dot4(m.r1, v), Dot4(m.r2, v), Dot4(m.r3, v))
  }

  /** A matrix whose bottom row is (0, 0, 0, 1): rotations, translations and
      their products. */
  predicate IsAffine(m: Mat4) { m.r3 == Vec4(0.0, 0.0, 0.0, 1.0) }

  function RowTimes(r: Vec4, b: Mat4): Vec4
  {
    Vec4(Dot4(r, Col(b, 0)), Dot4(r, Col(b, 1)), Dot4(r, Col(b, 2)), Dot4(r, Col(b, 3)))
  }

  /** Matrix product (gmtl's Matrix44f * Matrix44f); affine matrices are
      closed under it. */
  function MatMul(a: Mat4, b: Mat4): (m: Mat4)
    ensures IsAffine(a) && IsAffine(b) ==> IsAffine(m)
  {
    Mat4(RowTimes(a.r0, b), RowTimes(a.r1, b), RowTimes(a.r2, b), RowTimes(a.r3, b))
  }

  /** A matrix whose last column is (0, 0, 0, 1): a pure rotation (or any
      linear map) with no translation part. */
  predicate NoTranslation(m: Mat4)
  {
    IsAffine(m) && m.r0.w == 0.0 && m.r1.w == 0.0 && m.r2.w == 0.0
  }

  /** Without a translation part, a point and the free vector with the same
      coordinates are moved to the same coordinates. */
  lemma PointAndVectorAgree(m: Mat4, p: Vec3)
    requires NoTranslation(m)
    ensures Xyz(MulVec(m, AsPoint(p))) == Xyz(MulVec(m, AsVector(p)))
    ensures IsPoint(MulVec(m, AsPoint(p))) && IsVector(MulVec(m, AsVector(p)))
  {
  }

  /** gmtl::makeTrans: the identity with the offset in the last column. */
  function MakeTrans(t: Vec3): (m: Mat4)
    ensures IsAffine(m)
    ensures forall p :: IsPoint(p) ==> MulVec(m, p) == Add4(p, AsVector(t))
  {
    Mat4(Vec4(1.0, 0.0, 0.0, t.x), Vec4(0.0, 1.0, 0.0, t.y),
         Vec4(0.0, 0.0, 1.0, t.z), Vec4(0.0, 0.0, 0.0, 1.0))
  }

  /** Matrix * Point3f: the point is extended with w = 1, transformed, and the
      result divided by its fourth component (gmtl's homogeneous divide). */
  function XformPoint3(m: Mat4, p: Vec3): (r: Vec3)
    requires IsAffine(m)
    ensures r == Xyz(MulVec(m, AsPoint(p)))
  {
    var h := MulVec(m, AsPoint(p));
    Vec3(h.x / h.w, h.y / h.w, h.z / h.w)
  }

  /** An affine matrix maps points to points and vectors to vectors. */
  lemma AffineKeepsW(m: Mat4, v: Vec4)
    requires IsAffine(m)
    ensures MulVec(m, v).w == v.w
  {
  }

  /** (a * b) * v == a * (b * v): transforming by a product applies b first. */
  lemma MatMulVec(a: Mat4, b: Mat4, v: Vec4)
    ensures MulVec(MatMul(a, b), v) == MulVec(a, MulVec(b, v))
  {
    RowTimesDot(a.r0, b, v);
    RowTimesDot(a.r1, b, v);
    RowTimesDot(a.r2, b, v);
    RowTimesDot(a.r3, b, v);
  }

  lemma RowTimesDot(r: Vec4, b: Mat4, v: Vec4)
    ensures Dot4(RowTimes(r, b), v) == Dot4(r, MulVec(b, v))
  {
    ColumnTerms(r, b, v);
    RowTerms(r, b, v);
    Regroup(r.x * b.r0.x * v.x, r.x * b.r0.y * v.y, r.x * b.r0.z * v.z, r.x * b.r0.w * v.w,
            r.y * b.r1.x * v.x, r.y * b.r1.y * v.y, r.y * b.r1.z * v.z, r.y * b.r1.w * v.w,
            r.z * b.r2.x * v.x, r.z * b.r2.y * v.y, r.z * b.r2.z * v.z, r.z * b.r2.w * v.w,
            r.w * b.r3.x * v.x, r.w * b.r3.y * v.y, r.w * b.r3.z * v.z, r.w * b.r3.w * v.w);
  }

  /** Summing a 4x4 grid by columns or by rows gives the same total. */
  lemma Regroup(a00: real, a01: real, a02: real, a03: real, a10: real, a11: real, a12: real, a13: real,
                a20: real, a21: real, a22: real, a23: real, a30: real, a31: real, a32: real, a33: real)
    ensures (a00 + a10 + a20 + a30) + (a01 + a11 + a21 + a31) + (a02 + a12 + a22 + a32) + (a03 + a13 + a23 + a33)
         == (a00 + a01 + a02 + a03) + (a10 + a11 + a12 + a13) + (a20 + a21 + a22 + a23) + (a30 + a31 + a32 + a33)
  {
  }

  lemma ColumnTerms(r: Vec4, b: Mat4, v: Vec4)
    ensures Dot4(r, Col(b, 0)) * v.x == r.x * b.r0.x * v.x + r.y * b.r1.x * v.x + r.z * b.r2.x * v.x + r.w * b.r3.x * v.x
    ensures Dot4(r, Col(b, 1)) * v.y == r.x * b.r0.y * v.y + r.y * b.r1.y * v.y + r.z * b.r2.y * v.y + r.w * b.r3.y * v.y
    ensures Dot4(r, Col(b, 2)) * v.z == r.x * b.r0.z * v.z + r.y * b.r1.z * v.z + r.z * b.r2.z * v.z + r.w * b.r3.z * v.z
    ensures Dot4(r, Col(b, 3)) * v.w == r.x * b.r0.w * v.w + r.y * b.r1.w * v.w + r.z * b.r2.w * v.w + r.w * b.r3.w * v.w
  {
  }

  lemma RowTerms(r: Vec4, b: Mat4, v: Vec4)
    ensures r.x * Dot4(b.r0, v) == r.x * b.r0.x * v.x + r.x * b.r0.y * v.y + r.x * b.r0.z * v.z + r.x * b.r0.w * v.w
    ensures r.y * Dot4(b.r1, v) == r.y * b.r1.x * v.x + r.y * b.r1.y * v.y + r.y * b.r1.z * v.z + r.y * b.r1.w * v.w
    ensures r.z * Dot4(b.r2, v) == r.z * b.r2.x * v.x + r.z * b.r2.y * v.y + r.z * b.r2.z * v.z + r.z * b.r2.w * v.w
    ensures r.w * Dot4(b.r3, v) == r.w * b.r3.x * v.x + r.w * b.r3.y * v.y + r.w * b.r3.z * v.z + r.w * b.r3.w * v.w
  {
  }

  /** A free vector is invariant under translation. */
  lemma TranslationIgnoresVectors(t: Vec3, v: Vec4)
    requires IsVector(v)
    ensures MulVec(MakeTrans(t), v) == v
  {
  }

  function Scale4(k: real, v: Vec4): Vec4 { Vec4(k * v.x, k * v.y, k * v.z, k * v.w) }

  /** Matrix-vector multiplication is linear in the vector. */
  lemma MulVecAdd(m: Mat4, u: Vec4, v: Vec4)
    ensures MulVec(m, Add4(u, v)) == Add4(MulVec(m, u), MulVec(m, v))
  {
  }

  lemma MulVecScale(m: Mat4, k: real, v: Vec4)
    ensures MulVec(m, Scale4(k, v)) == Scale4(k, MulVec(m, v))
  {
    DotScale(m.r0, k, v);
    DotScale(m.r1, k, v);
    DotScale(m.r2, k, v);
    DotScale(m.r3, k, v);
  }

  lemma DotScale(r: Vec4, k: real, v: Vec4)
    ensures Dot4(r, Scale4(k, v)) == k * Dot4(r, v)
  {
    calc {
      Dot4(r, Scale4(k, v));
      r.x * (k * v.x) + r.y * (k * v.y) + r.z * (k * v.z) + r.w * (k * v.w);
      k * (r.x * v.x) + k * (r.y * v.y) + k * (r.z * v.z) + k * (r.w * v.w);
      k * Dot4(r, v);
    }
  }
}

/** Quaternions stored as (x, y, z, w), as gmtl's Quatf stores them, with the
    few gmtl operations the plane program uses: the Hamilton product
    (operator*), makeConj, and the rotation of a free vector by conjugation,
    q * (v, 0) * conj(q). */
module Quaternions {
  import opened Linear

  datatype Quat = Quat(x: real, y: real, z: real, w: real)

  /** The identity rotation (0, 0, 0, 1), which is also a default Quatf. */
  const IdentityQuat: Quat := Quat(0.0, 0.0, 0.0, 1.0)

  /** The raw four components of a quaternion (gmtl's q.mData). */
  function Data(q: Quat): Vec4 { Vec4(q.x, q.y, q.z, q.w) }

  /** The pure quaternion (v, 0) that carries a free vector. */
  function Pure(v: Vec3): Quat { Quat(v.x, v.y, v.z, 0.0) }

  /** The Hamilton product q1 * q2. */
  function Mul(a: Quat, b: Quat): Quat
  {
    Quat(a.w * b.x + a.x * b.w + a.y * b.z - a.z * b.y,
         a.w * b.y + a.y * b.w + a.z * b.x - a.x * b.z,
         a.w * b.z + a.z * b.w + a.x * b.y - a.y * b.x,
         a.w * b.w - a.x * b.x - a.y * b.y - a.z * b.z)
  }

  /** gmtl::makeConj. */
  function Conj(q: Quat): (r: Quat)
    ensures Norm2(r) == Norm2(q)
  {
    Quat(-q.x, -q.y, -q.z, q.w)
  }

  /** The squared length |q|^2. */
  function Norm2(q: Quat): real { q.x * q.x + q.y * q.y + q.z * q.z + q.w * q.w }

  predicate IsUnit(q: Quat) { Norm2(q) == 1.0 }

  function ScaleQ(k: real, q: Quat): Quat { Quat(k * q.x, k * q.y, k * q.z, k * q.w) }

  /** The rotated vector q * (v, 0) * conj(q), still in quaternion form: the
      plane program adds its raw components (mData) to a Point4f. */
  function RotateVec(q: Quat, v: Vec3): (r: Quat)
    ensures r.w == 0.0
  {
    Mul(Mul(q, Pure(v)), Conj(q))
  }

  /** The rotation matrix of q in homogeneous form. For a unit q this is the
      usual rotation matrix; for any q it scales by |q|^2 as well. */
  function QuatMatrix(q: Quat): (m: Mat4)
    ensures IsAffine(m)
  {
    var x, y, z, w := q.x, q.y, q.z, q.w;
    Mat4(Vec4(w * w + x * x - y * y - z * z, 2.0 * (x * y - w * z), 2.0 * (x * z + w * y), 0.0),
         Vec4(2.0 * (x * y + w * z), w * w - x * x + y * y - z * z, 2.0 * (y * z - w * x), 0.0),
         Vec4(2.0 * (x * z - w * y), 2.0 * (y * z + w * x), w * w - x * x - y * y + z * z, 0.0),
         Vec4(0.0, 0.0, 0.0, 1.0))
  }

  lemma MulIdentity(q: Quat)
    ensures Mul(q, IdentityQuat) == q
    ensures Mul(IdentityQuat, q) == q
  {
  }

  /** The identity rotation leaves every vector where it is. */
  lemma RotateByIdentity(v: Vec3)
    ensures RotateVec(IdentityQuat, v) == Pure(v)
  {
    var p := Mul(IdentityQuat, Pure(v));
    assert p == Pure(v);
    assert Mul(p, Conj(IdentityQuat)) == Pure(v);
  }

  /** The Hamilton product is associative. */
  lemma MulAssoc(a: Quat, b: Quat, c: Quat)
    ensures Mul(Mul(a, b), c) == Mul(a, Mul(b, c))
  {
    MulAssocX(a, b, c);
    MulAssocY(a, b, c);
    MulAssocZ(a, b, c);
    MulAssocW(a, b, c);
  }

  lemma MulAssocX(a: Quat, b: Quat, c: Quat)
    ensures Mul(Mul(a, b), c).x == Mul(a, Mul(b, c)).x
  {
    AssocExpandLeftX(a, b, c);
    AssocPolyX(a, b, c);
    AssocExpandRightX(a, b, c);
  }

  lemma AssocExpandLeftX(a: Quat, b: Quat, c: Quat)
    ensures Mul(Mul(a, b), c).x == (a.w * b.w - a.x * b.x - a.y * b.y - a.z * b.z) * c.x + (a.w * b.x + a.x * b.w + a.y * b.z - a.z * b.y) * c.w + (a.w * b.y + a.y * b.w + a.z * b.x - a.x * b.z) * c.z - (a.w * b.z + a.z * b.w + a.x * b.y - a.y * b.x) * c.y
  {
  }

  lemma AssocPolyX(a: Quat, b: Quat, c: Quat)
    ensures (a.w * b.w - a.x * b.x - a.y * b.y - a.z * b.z) * c.x + (a.w * b.x + a.x * b.w + a.y * b.z - a.z * b.y) * c.w + (a.w * b.y + a.y * b.w + a.z * b.x - a.x * b.z) * c.z - (a.w * b.z + a.z * b.w + a.x * b.y - a.y * b.x) * c.y
         == a.w * (b.w * c.x + b.x * c.w + b.y * c.z - b.z * c.y) + a.x * (b.w * c.w - b.x * c.x - b.y * c.y - b.z * c.z) + a.y * (b.w * c.z + b.z * c.w + b.x * c.y - b.y * c.x) - a.z * (b.w * c.y + b.y * c.w + b.z * c.x - b.x * c.z)
  {
  }

  lemma AssocExpandRightX(a: Quat, b: Quat, c: Quat)
    ensures Mul(a, Mul(b, c)).x == a.w * (b.w * c.x + b.x * c.w + b.y * c.z - b.z * c.y) + a.x * (b.w * c.w - b.x * c.x - b.y * c.y - b.z * c.z) + a.y * (b.w * c.z + b.z * c.w + b.x * c.y - b.y * c.x) - a.z * (b.w * c.y + b.y * c.w + b.z * c.x - b.x * c.z)
  {
  }

  lemma MulAssocY(a: Quat, b: Quat, c: Quat)
    ensures Mul(Mul(a, b), c).y == Mul(a, Mul(b, c)).y
  {
    AssocExpandLeftY(a, b, c);
    AssocPolyY(a, b, c);
    AssocExpandRightY(a, b, c);
  }

  lemma AssocExpandLeftY(a: Quat, b: Quat, c: Quat)
    ensures Mul(Mul(a, b), c).y == (a.w * b.w - a.x * b.x - a.y * b.y - a.z * b.z) * c.y + (a.w * b.y + a.y * b.w + a.z * b.x - a.x * b.z) * c.w + (a.w * b.z + a.z * b.w + a.x * b.y - a.y * b.x) * c.x - (a.w * b.x + a.x * b.w + a.y * b.z - a.z * b.y) * c.z
  {
  }

  lemma AssocPolyY(a: Quat, b: Quat, c: Quat)
    ensures (a.w * b.w - a.x * b.x - a.y * b.y - a.z * b.z) * c.y + (a.w * b.y + a.y * b.w + a.z * b.x - a.x * b.z) * c.w + (a.w * b.z + a.z * b.w + a.x * b.y - a.y * b.x) * c.x - (a.w * b.x + a.x * b.w + a.y * b.z - a.z * b.y) * c.z
         == a.w * (b.w * c.y + b.y * c.w + b.z * c.x - b.x * c.z) + a.y * (b.w * c.w - b.x * c.x - b.y * c.y - b.z * c.z) + a.z * (b.w * c.x + b.x * c.w + b.y * c.z - b.z * c.y) - a.x * (b.w * c.z + b.z * c.w + b.x * c.y - b.y * c.x)
  {
  }

  lemma AssocExpandRightY(a: Quat, b: Quat, c: Quat)
    ensures Mul(a, Mul(b, c)).y == a.w * (b.w * c.y + b.y * c.w + b.z * c.x - b.x * c.z) + a.y * (b.w * c.w - b.x * c.x - b.y * c.y - b.z * c.z) + a.z * (b.w * c.x + b.x * c.w + b.y * c.z - b.z * c.y) - a.x * (b.w * c.z + b.z * c.w + b.x * c.y - b.y * c.x)
  {
  }

  lemma MulAssocZ(a: Quat, b: Quat, c: Quat)
    ensures Mul(Mul(a, b), c).z == Mul(a, Mul(b, c)).z
  {
    AssocExpandLeftZ(a, b, c);
    AssocPolyZ(a, b, c);
    AssocExpandRightZ(a, b, c);
  }

  lemma AssocExpandLeftZ(a: Quat, b: Quat, c: Quat)
    ensures Mul(Mul(a, b), c).z == (a.w * b.w - a.x * b.x - a.y * b.y - a.z * b.z) * c.z + (a.w * b.z + a.z * b.w + a.x * b.y - a.y * b.x) * c.w + (a.w * b.x + a.x * b.w + a.y * b.z - a.z * b.y) * c.y - (a.w * b.y + a.y * b.w + a.z * b.x - a.x * b.z) * c.x
  {
  }

  lemma AssocPolyZ(a: Quat, b: Quat, c: Quat)
    ensures (a.w * b.w - a.x * b.x - a.y * b.y - a.z * b.z) * c.z + (a.w * b.z + a.z * b.w + a.x * b.y - a.y * b.x) * c.w + (a.w * b.x + a.x * b.w + a.y * b.z - a.z * b.y) * c.y - (a.w * b.y + a.y * b.w + a.z * b.x - a.x * b.z) * c.x
         == a.w * (b.w * c.z + b.z * c.w + b.x * c.y - b.y * c.x) + a.z * (b.w * c.w - b.x * c.x - b.y * c.y - b.z * c.z) + a.x * (b.w * c.y + b.y * c.w + b.z * c.x - b.x * c.z) - a.y * (b.w * c.x + b.x * c.w + b.y * c.z - b.z * c.y)
  {
  }

  lemma AssocExpandRightZ(a: Quat, b: Quat, c: Quat)
    ensures Mul(a, Mul(b, c)).z == a.w * (b.w * c.z + b.z * c.w + b.x * c.y - b.y * c.x) + a.z * (b.w * c.w - b.x * c.x - b.y * c.y - b.z * c.z) + a.x * (b.w * c.y + b.y * c.w + b.z * c.x - b.x * c.z) - a.y * (b.w * c.x + b.x * c.w + b.y * c.z - b.z * c.y)
  {
  }

  lemma MulAssocW(a: Quat, b: Quat, c: Quat)
    ensures Mul(Mul(a, b), c).w == Mul(a, Mul(b, c)).w
  {
    AssocExpandLeftW(a, b, c);
    AssocPolyW(a, b, c);
    AssocExpandRightW(a, b, c);
  }

  lemma AssocExpandLeftW(a: Quat, b: Quat, c: Quat)
    ensures Mul(Mul(a, b), c).w == (a.w * b.w - a.x * b.x - a.y * b.y - a.z * b.z) * c.w - (a.w * b.x + a.x * b.w + a.y * b.z - a.z * b.y) * c.x - (a.w * b.y + a.y * b.w + a.z * b.x - a.x * b.z) * c.y - (a.w * b.z + a.z * b.w + a.x * b.y - a.y * b.x) * c.z
  {
  }

  lemma AssocPolyW(a: Quat, b: Quat, c: Quat)
    ensures (a.w * b.w - a.x * b.x - a.y * b.y - a.z * b.z) * c.w - (a.w * b.x + a.x * b.w + a.y * b.z - a.z * b.y) * c.x - (a.w * b.y + a.y * b.w + a.z * b.x - a.x * b.z) * c.y - (a.w * b.z + a.z * b.w + a.x * b.y - a.y * b.x) * c.z
         == a.w * (b.w * c.w - b.x * c.x - b.y * c.y - b.z * c.z) - a.x * (b.w * c.x + b.x * c.w + b.y * c.z - b.z * c.y) - a.y * (b.w * c.y + b.y * c.w + b.z * c.x - b.x * c.z) - a.z * (b.w * c.z + b.z * c.w + b.x * c.y - b.y * c.x)
  {
  }

  lemma AssocExpandRightW(a: Quat, b: Quat, c: Quat)
    ensures Mul(a, Mul(b, c)).w == a.w * (b.w * c.w - b.x * c.x - b.y * c.y - b.z * c.z) - a.x * (b.w * c.x + b.x * c.w + b.y * c.z - b.z * c.y) - a.y * (b.w * c.y + b.y * c.w + b.z * c.x - b.x * c.z) - a.z * (b.w * c.z + b.z * c.w + b.x * c.y - b.y * c.x)
  {
  }

  /** q * conj(q) = (0, 0, 0, |q|^2), and so does conj(q) * q. */
  lemma MulConj(q: Quat)
    ensures Mul(q, Conj(q)) == Quat(0.0, 0.0, 0.0, Norm2(q))
    ensures Mul(Conj(q), q) == Quat(0.0, 0.0, 0.0, Norm2(q))
  {
  }

  /** For a unit quaternion the conjugate is the inverse. */
  lemma UnitConjIsInverse(q: Quat)
    requires IsUnit(q)
    ensures Mul(q, Conj(q)) == IdentityQuat
    ensures Mul(Conj(q), q) == IdentityQuat
  {
    MulConj(q);
  }

  /** |a * b|^2 = |a|^2 * |b|^2. */
  lemma NormMul(a: Quat, b: Quat)
    ensures Norm2(Mul(a, b)) == Norm2(a) * Norm2(b)
  {
    SquareX(a, b);
    SquareY(a, b);
    SquareZ(a, b);
    SquareW(a, b);
    NormProduct(a, b);
  }

  lemma SquareX(a: Quat, b: Quat)
    ensures Mul(a, b).x * Mul(a, b).x
      == a.w * a.w * b.x * b.x + a.x * a.x * b.w * b.w + a.y * a.y * b.z * b.z + a.z * a.z * b.y * b.y
         + 2.0 * (a.w * b.x * a.x * b.w) + 2.0 * (a.w * b.x * a.y * b.z) - 2.0 * (a.w * b.x * a.z * b.y)
         + 2.0 * (a.x * b.w * a.y * b.z) - 2.0 * (a.x * b.w * a.z * b.y) - 2.0 * (a.y * b.z * a.z * b.y)
  {
  }

  lemma SquareY(a: Quat, b: Quat)
    ensures Mul(a, b).y * Mul(a, b).y
      == a.w * a.w * b.y * b.y + a.y * a.y * b.w * b.w + a.z * a.z * b.x * b.x + a.x * a.x * b.z * b.z
         + 2.0 * (a.w * b.y * a.y * b.w) + 2.0 * (a.w * b.y * a.z * b.x) - 2.0 * (a.w * b.y * a.x * b.z)
         + 2.0 * (a.y * b.w * a.z * b.x) - 2.0 * (a.y * b.w * a.x * b.z) - 2.0 * (a.z * b.x * a.x * b.z)
  {
  }

  lemma SquareZ(a: Quat, b: Quat)
    ensures Mul(a, b).z * Mul(a, b).z
      == a.w * a.w * b.z * b.z + a.z * a.z * b.w * b.w + a.x * a.x * b.y * b.y + a.y * a.y * b.x * b.x
         + 2.0 * (a.w * b.z * a.z * b.w) + 2.0 * (a.w * b.z * a.x * b.y) - 2.0 * (a.w * b.z * a.y * b.x)
         + 2.0 * (a.z * b.w * a.x * b.y) - 2.0 * (a.z * b.w * a.y * b.x) - 2.0 * (a.x * b.y * a.y * b.x)
  {
  }

  lemma SquareW(a: Quat, b: Quat)
    ensures Mul(a, b).w * Mul(a, b).w
      == a.w * a.w * b.w * b.w + a.x * a.x * b.x * b.x + a.y * a.y * b.y * b.y + a.z * a.z * b.z * b.z
         - 2.0 * (a.w * b.w * a.x * b.x) - 2.0 * (a.w * b.w * a.y * b.y) - 2.0 * (a.w * b.w * a.z * b.z)
         + 2.0 * (a.x * b.x * a.y * b.y) + 2.0 * (a.x * b.x * a.z * b.z) + 2.0 * (a.y * b.y * a.z * b.z)
  {
  }

  lemma NormProduct(a: Quat, b: Quat)
    ensures Norm2(a) * Norm2(b)
      == a.x * a.x * b.x * b.x + a.x * a.x * b.y * b.y + a.x * a.x * b.z * b.z + a.x * a.x * b.w * b.w
         + a.y * a.y * b.x * b.x + a.y * a.y * b.y * b.y + a.y * a.y * b.z * b.z + a.y * a.y * b.w * b.w
         + a.z * a.z * b.x * b.x + a.z * a.z * b.y * b.y + a.z * a.z * b.z * b.z + a.z * a.z * b.w * b.w
         + a.w * a.w * b.x * b.x + a.w * a.w * b.y * b.y + a.w * a.w * b.z * b.z + a.w * a.w * b.w * b.w
  {
  }

  /** The product of unit quaternions is a unit quaternion. */
  lemma UnitMul(a: Quat, b: Quat)
    requires IsUnit(a) && IsUnit(b)
    ensures IsUnit(Mul(a, b))
  {
    NormMul(a, b);
  }

  /** Conjugation by q is the matrix QuatMatrix(q) applied to the vector. */
  lemma RotateIsMatrix(q: Quat, v: Vec3)
    ensures Data(RotateVec(q, v)) == MulVec(QuatMatrix(q), AsVector(v))
  {
    RotateExpandX(q, v);
    RotatePolyX(q, v);
    MatrixExpandX(q, v);
    RotateExpandY(q, v);
    RotatePolyY(q, v);
    MatrixExpandY(q, v);
    RotateExpandZ(q, v);
    RotatePolyZ(q, v);
    MatrixExpandZ(q, v);
  }

  lemma RotateExpandX(q: Quat, v: Vec3)
    ensures RotateVec(q, v).x == (q.w * 0.0 - q.x * v.x - q.y * v.y - q.z * v.z) * (-q.x) + (q.w * v.x + q.x * 0.0 + q.y * v.z - q.z * v.y) * (q.w) + (q.w * v.y + q.y * 0.0 + q.z * v.x - q.x * v.z) * (-q.z) - (q.w * v.z + q.z * 0.0 + q.x * v.y - q.y * v.x) * (-q.y)
  {
  }

  lemma RotatePolyX(q: Quat, v: Vec3)
    ensures (q.w * 0.0 - q.x * v.x - q.y * v.y - q.z * v.z) * (-q.x) + (q.w * v.x + q.x * 0.0 + q.y * v.z - q.z * v.y) * (q.w) + (q.w * v.y + q.y * 0.0 + q.z * v.x - q.x * v.z) * (-q.z) - (q.w * v.z + q.z * 0.0 + q.x * v.y - q.y * v.x) * (-q.y)
         == (q.w * q.w + q.x * q.x - q.y * q.y - q.z * q.z) * v.x + 2.0 * (q.x * q.y - q.w * q.z) * v.y + 2.0 * (q.x * q.z + q.w * q.y) * v.z
  {
  }

  lemma MatrixExpandX(q: Quat, v: Vec3)
    ensures MulVec(QuatMatrix(q), AsVector(v)).x == (q.w * q.w + q.x * q.x - q.y * q.y - q.z * q.z) * v.x + 2.0 * (q.x * q.y - q.w * q.z) * v.y + 2.0 * (q.x * q.z + q.w * q.y) * v.z
  {
  }

  lemma RotateExpandY(q: Quat, v: Vec3)
    ensures RotateVec(q, v).y == (q.w * 0.0 - q.x * v.x - q.y * v.y - q.z * v.z) * (-q.y) + (q.w * v.y + q.y * 0.0 + q.z * v.x - q.x * v.z) * (q.w) + (q.w * v.z + q.z * 0.0 + q.x * v.y - q.y * v.x) * (-q.x) - (q.w * v.x + q.x * 0.0 + q.y * v.z - q.z * v.y) * (-q.z)
  {
  }

  lemma RotatePolyY(q: Quat, v: Vec3)
    ensures (q.w * 0.0 - q.x * v.x - q.y * v.y - q.z * v.z) * (-q.y) + (q.w * v.y + q.y * 0.0 + q.z * v.x - q.x * v.z) * (q.w) + (q.w * v.z + q.z * 0.0 + q.x * v.y - q.y * v.x) * (-q.x) - (q.w * v.x + q.x * 0.0 + q.y * v.z - q.z * v.y) * (-q.z)
         == 2.0 * (q.x * q.y + q.w * q.z) * v.x + (q.w * q.w - q.x * q.x + q.y * q.y - q.z * q.z) * v.y + 2.0 * (q.y * q.z - q.w * q.x) * v.z
  {
  }

  lemma MatrixExpandY(q: Quat, v: Vec3)
    ensures MulVec(QuatMatrix(q), AsVector(v)).y == 2.0 * (q.x * q.y + q.w * q.z) * v.x + (q.w * q.w - q.x * q.x + q.y * q.y - q.z * q.z) * v.y + 2.0 * (q.y * q.z - q.w * q.x) * v.z
  {
  }

  lemma RotateExpandZ(q: Quat, v: Vec3)
    ensures RotateVec(q, v).z == (q.w * 0.0 - q.x * v.x - q.y * v.y - q.z * v.z) * (-q.z) + (q.w * v.z + q.z * 0.0 + q.x * v.y - q.y * v.x) * (q.w) + (q.w * v.x + q.x * 0.0 + q.y * v.z - q.z * v.y) * (-q.y) - (q.w * v.y + q.y * 0.0 + q.z * v.x - q.x * v.z) * (-q.x)
  {
  }

  lemma RotatePolyZ(q: Quat, v: Vec3)
    ensures (q.w * 0.0 - q.x * v.x - q.y * v.y - q.z * v.z) * (-q.z) + (q.w * v.z + q.z * 0.0 + q.x * v.y - q.y * v.x) * (q.w) + (q.w * v.x + q.x * 0.0 + q.y * v.z - q.z * v.y) * (-q.y) - (q.w * v.y + q.y * 0.0 + q.z * v.x - q.x * v.z) * (-q.x)
         == 2.0 * (q.x * q.z - q.w * q.y) * v.x + 2.0 * (q.y * q.z + q.w * q.x) * v.y + (q.w * q.w - q.x * q.x - q.y * q.y + q.z * q.z) * v.z
  {
  }

  lemma MatrixExpandZ(q: Quat, v: Vec3)
    ensures MulVec(QuatMatrix(q), AsVector(v)).z == 2.0 * (q.x * q.z - q.w * q.y) * v.x + 2.0 * (q.y * q.z + q.w * q.x) * v.y + (q.w * q.w - q.x * q.x - q.y * q.y + q.z * q.z) * v.z
  {
  }

  function AddQ(a: Quat, b: Quat): Quat { Quat(a.x + b.x, a.y + b.y, a.z + b.z, a.w + b.w) }

  /** A rotated free vector has zero scalar part, so it is the pure
      quaternion of its own vector part. */
  lemma RotateIsPure(q: Quat, v: Vec3)
    ensures Pure(Xyz(Data(RotateVec(q, v)))) == RotateVec(q, v)
  {
  }

  /** Rotation by conjugation is linear in the vector: it preserves sums ... */
  lemma RotateAdd(q: Quat, u: Vec3, v: Vec3)
    ensures RotateVec(q, Add3(u, v)) == AddQ(RotateVec(q, u), RotateVec(q, v))
  {
    RotateIsMatrix(q, u);
    RotateIsMatrix(q, v);
    RotateIsMatrix(q, Add3(u, v));
    MulVecAdd(QuatMatrix(q), AsVector(u), AsVector(v));
    assert AsVector(Add3(u, v)) == Add4(AsVector(u), AsVector(v));
  }

  /** ... and scalar multiples. */
  lemma RotateScale(q: Quat, k: real, v: Vec3)
    ensures RotateVec(q, Scale3(k, v)) == ScaleQ(k, RotateVec(q, v))
  {
    var m := QuatMatrix(q);
    calc {
      Data(RotateVec(q, Scale3(k, v)));
      { RotateIsMatrix(q, Scale3(k, v)); }
      MulVec(m, AsVector(Scale3(k, v)));
      { assert AsVector(Scale3(k, v)) == Scale4(k, AsVector(v)); }
      MulVec(m, Scale4(k, AsVector(v)));
      { MulVecScale(m, k, AsVector(v)); }
      Scale4(k, MulVec(m, AsVector(v)));
      { RotateIsMatrix(q, v); }
      Scale4(k, Data(RotateVec(q, v)));
      Data(ScaleQ(k, RotateVec(q, v)));
    }
  }

  /** Rotating the negated vector gives the negated rotated vector. */
  lemma RotateNeg(q: Quat, v: Vec3)
    ensures RotateVec(q, Neg3(v)) == ScaleQ(-1.0, RotateVec(q, v))
  {
    RotateScale(q, -1.0, v);
    assert Scale3(-1.0, v) == Neg3(v);
  }

  /** Rotating by q and then by conj(q) gives the vector back, for a unit q. */
  lemma RotateRoundTrip(q: Quat, v: Vec3)
    requires IsUnit(q)
    ensures RotateVec(Conj(q), Xyz(Data(RotateVec(q, v)))) == Pure(v)
  {
    var p, c := Pure(v), Conj(q);
    var r := RotateVec(q, v);
    RotateIsPure(q, v);
    assert Conj(c) == q;
    calc {
      RotateVec(c, Xyz(Data(r)));
      Mul(Mul(c, r), q);
      { MulAssoc(c, Mul(q, p), c); }
      Mul(Mul(Mul(c, Mul(q, p)), c), q);
      { MulAssoc(c, q, p); UnitConjIsInverse(q); MulIdentity(p); }
      Mul(Mul(p, c), q);
      { MulAssoc(p, c, q); UnitConjIsInverse(q); MulIdentity(p); }
      p;
    }
  }

  /** Rotation by a unit quaternion preserves the length of the vector. */
  lemma RotatePreservesLength(q: Quat, v: Vec3)
    requires IsUnit(q)
    ensures Dot3(Xyz(Data(RotateVec(q, v))), Xyz(Data(RotateVec(q, v)))) == Dot3(v, v)
  {
    var t := Mul(q, Pure(v));
    NormMul(q, Pure(v));
    NormMul(t, Conj(q));
    assert Norm2(RotateVec(q, v)) == Norm2(Pure(v));
  }
}

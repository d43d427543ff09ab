/** The sensor's orientation: the direction-cosine matrix computed from the
    quaternion the engine reports for the vehicle the sensor is attached to. */
module Orientation {
  import opened Geometry

  /** A quaternion in the engine's order: vector part (x, y, z), then scalar part w. */
  datatype Quaternion = Quaternion(x: real, y: real, z: real, w: real)

  /** A 3x3 matrix by rows; row i holds entries 3i, 3i+1, 3i+2 of the sensor's
      nine-float rotation array. */
  datatype Mat3 = Mat3(r0: Vec3, r1: Vec3, r2: Vec3)

  const Identity: Mat3 := Mat3(Vec3(1.0, 0.0, 0.0), Vec3(0.0, 1.0, 0.0), Vec3(0.0, 0.0, 1.0))

  function NormSqQ(q: Quaternion): real {
    q.x * q.x + q.y * q.y + q.z * q.z + q.w * q.w
  }

  function Conjugate(q: Quaternion): Quaternion {
    Quaternion(-q.x, -q.y, -q.z, q.w)
  }

  function Transpose(m: Mat3): Mat3 {
    Mat3(Vec3(m.r0.x, m.r1.x, m.r2.x), Vec3(m.r0.y, m.r1.y, m.r2.y), Vec3(m.r0.z, m.r1.z, m.r2.z))
  }

  /** The cross product of two vectors. */
  function Cross(a: Vec3, b: Vec3): Vec3 {
    Vec3(a.y * b.z - a.z * b.y, a.z * b.x - a.x * b.z, a.x * b.y - a.y * b.x)
  }

  /** The matrix applied to a vector (body axes to reference axes). */
  function Apply(m: Mat3, v: Vec3): Vec3 {
    Vec3(Dot(m.r0, v), Dot(m.r1, v), Dot(m.r2, v))
  }

  /** The direction-cosine matrix that carries a vector from the body frame to the
      reference frame, from the quaternion that turns the reference frame into the
      body frame. */
  function CalcDcm(q: Quaternion): Mat3 {
    DcmOf(q.x, q.y, q.z, q.w)
  }

  /** The nine entries, from the squares q00 = w*w, q11 = x*x, q22 = y*y, q33 = z*z
      and the cross products q01 = w*x, q02 = w*y, q03 = w*z, q12 = x*y, q13 = x*z,
      q23 = y*z. */
  function DcmOf(x: real, y: real, z: real, w: real): Mat3 {
    Mat3(
      Vec3(w*w + x*x - y*y - z*z, 2.0 * (x*y - w*z), 2.0 * (x*z + w*y)),
      Vec3(2.0 * (x*y + w*z), w*w - x*x + y*y - z*z, 2.0 * (y*z - w*x)),
      Vec3(2.0 * (x*z - w*y), 2.0 * (y*z + w*x), w*w - x*x - y*y + z*z))
  }

  /** The quaternion (0, 0, 0, 1), no rotation, gives the identity matrix. */
  lemma {:induction false} DcmOfIdentity()
    ensures CalcDcm(Quaternion(0.0, 0.0, 0.0, 1.0)) == Identity
  {
  }

  /** The inverse rotation: the conjugate quaternion gives the transposed matrix. */
  lemma {:induction false} DcmOfConjugate(q: Quaternion)
    ensures CalcDcm(Conjugate(q)) == Transpose(CalcDcm(q))
  {
    NegatedAxes(q.x, q.y, q.z, q.w);
  }

  lemma {:induction false} NegatedAxes(x: real, y: real, z: real, w: real)
    ensures DcmOf(-x, -y, -z, w) == Transpose(DcmOf(x, y, z, w))
  {
    NegProducts(x, y, z, w);
  }

  lemma {:induction false} NegProducts(x: real, y: real, z: real, w: real)
    ensures (-x) * (-x) == x * x && (-y) * (-y) == y * y && (-z) * (-z) == z * z
    ensures (-x) * (-y) == x * y && (-x) * (-z) == x * z && (-y) * (-z) == y * z
    ensures w * (-x) == -(w * x) && w * (-y) == -(w * y) && w * (-z) == -(w * z)
  {
  }

  /** The rows of the matrix are pairwise orthogonal and each has squared length
      |q|^4; for a unit quaternion they are orthonormal. */
  lemma {:induction false} DcmRowsOrthogonal(q: Quaternion)
    ensures Dot(CalcDcm(q).r0, CalcDcm(q).r0) == NormSqQ(q) * NormSqQ(q)
    ensures Dot(CalcDcm(q).r1, CalcDcm(q).r1) == NormSqQ(q) * NormSqQ(q)
    ensures Dot(CalcDcm(q).r2, CalcDcm(q).r2) == NormSqQ(q) * NormSqQ(q)
    ensures Dot(CalcDcm(q).r0, CalcDcm(q).r1) == 0.0
    ensures Dot(CalcDcm(q).r0, CalcDcm(q).r2) == 0.0
    ensures Dot(CalcDcm(q).r1, CalcDcm(q).r2) == 0.0
  {
    assert q == Quaternion(q.x, q.y, q.z, q.w);
    DcmOfRows(q.x, q.y, q.z, q.w);
  }

  /** The same on the matrix of four coordinates. */
  lemma {:induction false} DcmOfRows(x: real, y: real, z: real, w: real)
    ensures Dot(DcmOf(x, y, z, w).r0, DcmOf(x, y, z, w).r0) == NormSqQ(Quaternion(x, y, z, w)) * NormSqQ(Quaternion(x, y, z, w))
    ensures Dot(DcmOf(x, y, z, w).r1, DcmOf(x, y, z, w).r1) == NormSqQ(Quaternion(x, y, z, w)) * NormSqQ(Quaternion(x, y, z, w))
    ensures Dot(DcmOf(x, y, z, w).r2, DcmOf(x, y, z, w).r2) == NormSqQ(Quaternion(x, y, z, w)) * NormSqQ(Quaternion(x, y, z, w))
    ensures Dot(DcmOf(x, y, z, w).r0, DcmOf(x, y, z, w).r1) == 0.0
    ensures Dot(DcmOf(x, y, z, w).r0, DcmOf(x, y, z, w).r2) == 0.0
    ensures Dot(DcmOf(x, y, z, w).r1, DcmOf(x, y, z, w).r2) == 0.0
  {
    DcmRow0Norm(x, y, z, w);
    DcmRow1Norm(x, y, z, w);
    DcmRow2Norm(x, y, z, w);
    DcmRows01(x, y, z, w);
    DcmRows02(x, y, z, w);
    DcmRows12(x, y, z, w);
  }

  // One lemma per entry of M * M^T, stated on the rows as DcmOf writes them: the
  // dot product is written over the entries and the polynomial identity behind it
  // is proved with the products multiplied out.

  lemma {:induction false} DcmRow0Norm(x: real, y: real, z: real, w: real)
    ensures Dot(Vec3(w*w + x*x - y*y - z*z, 2.0 * (x*y - w*z), 2.0 * (x*z + w*y)),
                Vec3(w*w + x*x - y*y - z*z, 2.0 * (x*y - w*z), 2.0 * (x*z + w*y)))
         == NormSqQ(Quaternion(x, y, z, w)) * NormSqQ(Quaternion(x, y, z, w))
  {
    DotOf(w*w + x*x - y*y - z*z, 2.0 * (x*y - w*z), 2.0 * (x*z + w*y),
          w*w + x*x - y*y - z*z, 2.0 * (x*y - w*z), 2.0 * (x*z + w*y));
    Row0Norm(x, y, z, w);
  }

  lemma {:induction false} DcmRow1Norm(x: real, y: real, z: real, w: real)
    ensures Dot(Vec3(2.0 * (x*y + w*z), w*w - x*x + y*y - z*z, 2.0 * (y*z - w*x)),
                Vec3(2.0 * (x*y + w*z), w*w - x*x + y*y - z*z, 2.0 * (y*z - w*x)))
         == NormSqQ(Quaternion(x, y, z, w)) * NormSqQ(Quaternion(x, y, z, w))
  {
    DotOf(2.0 * (x*y + w*z), w*w - x*x + y*y - z*z, 2.0 * (y*z - w*x),
          2.0 * (x*y + w*z), w*w - x*x + y*y - z*z, 2.0 * (y*z - w*x));
    Row1Norm(x, y, z, w);
  }

  lemma {:induction false} DcmRow2Norm(x: real, y: real, z: real, w: real)
    ensures Dot(Vec3(2.0 * (x*z - w*y), 2.0 * (y*z + w*x), w*w - x*x - y*y + z*z),
                Vec3(2.0 * (x*z - w*y), 2.0 * (y*z + w*x), w*w - x*x - y*y + z*z))
         == NormSqQ(Quaternion(x, y, z, w)) * NormSqQ(Quaternion(x, y, z, w))
  {
    DotOf(2.0 * (x*z - w*y), 2.0 * (y*z + w*x), w*w - x*x - y*y + z*z,
          2.0 * (x*z - w*y), 2.0 * (y*z + w*x), w*w - x*x - y*y + z*z);
    Row2Norm(x, y, z, w);
  }

  lemma {:induction false} DcmRows01(x: real, y: real, z: real, w: real)
    ensures Dot(Vec3(w*w + x*x - y*y - z*z, 2.0 * (x*y - w*z), 2.0 * (x*z + w*y)),
                Vec3(2.0 * (x*y + w*z), w*w - x*x + y*y - z*z, 2.0 * (y*z - w*x)))
         == 0.0
  {
    DotOf(w*w + x*x - y*y - z*z, 2.0 * (x*y - w*z), 2.0 * (x*z + w*y),
          2.0 * (x*y + w*z), w*w - x*x + y*y - z*z, 2.0 * (y*z - w*x));
    Rows01(x, y, z, w);
  }

  lemma {:induction false} DcmRows02(x: real, y: real, z: real, w: real)
    ensures Dot(Vec3(w*w + x*x - y*y - z*z, 2.0 * (x*y - w*z), 2.0 * (x*z + w*y)),
                Vec3(2.0 * (x*z - w*y), 2.0 * (y*z + w*x), w*w - x*x - y*y + z*z))
         == 0.0
  {
    DotOf(w*w + x*x - y*y - z*z, 2.0 * (x*y - w*z), 2.0 * (x*z + w*y),
          2.0 * (x*z - w*y), 2.0 * (y*z + w*x), w*w - x*x - y*y + z*z);
    Rows02(x, y, z, w);
  }

  lemma {:induction false} DcmRows12(x: real, y: real, z: real, w: real)
    ensures Dot(Vec3(2.0 * (x*y + w*z), w*w - x*x + y*y - z*z, 2.0 * (y*z - w*x)),
                Vec3(2.0 * (x*z - w*y), 2.0 * (y*z + w*x), w*w - x*x - y*y + z*z))
         == 0.0
  {
    DotOf(2.0 * (x*y + w*z), w*w - x*x + y*y - z*z, 2.0 * (y*z - w*x),
          2.0 * (x*z - w*y), 2.0 * (y*z + w*x), w*w - x*x - y*y + z*z);
    Rows12(x, y, z, w);
  }

  lemma {:induction false} Row0Norm(x: real, y: real, z: real, w: real)
    ensures (w*w + x*x - y*y - z*z) * (w*w + x*x - y*y - z*z) + (2.0 * (x*y - w*z)) * (2.0 * (x*y - w*z)) + (2.0 * (x*z + w*y)) * (2.0 * (x*z + w*y))
         == NormSqQ(Quaternion(x, y, z, w)) * NormSqQ(Quaternion(x, y, z, w))
  {
    Mul44(w*w, x*x, -(y*y), -(z*z), w*w, x*x, -(y*y), -(z*z));
    Mul22(x*y, -(w*z), x*y, -(w*z));
    Mul22(x*z, w*y, x*z, w*y);
    var n := x*x + y*y + z*z + w*w;
    MulCongr(NormSqQ(Quaternion(x, y, z, w)), NormSqQ(Quaternion(x, y, z, w)), n, n);
    Mul44(x*x, y*y, z*z, w*w, x*x, y*y, z*z, w*w);
  }

  lemma {:induction false} Row1Norm(x: real, y: real, z: real, w: real)
    ensures (2.0 * (x*y + w*z)) * (2.0 * (x*y + w*z)) + (w*w - x*x + y*y - z*z) * (w*w - x*x + y*y - z*z) + (2.0 * (y*z - w*x)) * (2.0 * (y*z - w*x))
         == NormSqQ(Quaternion(x, y, z, w)) * NormSqQ(Quaternion(x, y, z, w))
  {
    Mul22(x*y, w*z, x*y, w*z);
    Mul44(w*w, -(x*x), y*y, -(z*z), w*w, -(x*x), y*y, -(z*z));
    Mul22(y*z, -(w*x), y*z, -(w*x));
    var n := x*x + y*y + z*z + w*w;
    MulCongr(NormSqQ(Quaternion(x, y, z, w)), NormSqQ(Quaternion(x, y, z, w)), n, n);
    Mul44(x*x, y*y, z*z, w*w, x*x, y*y, z*z, w*w);
  }

  lemma {:induction false} Row2Norm(x: real, y: real, z: real, w: real)
    ensures (2.0 * (x*z - w*y)) * (2.0 * (x*z - w*y)) + (2.0 * (y*z + w*x)) * (2.0 * (y*z + w*x)) + (w*w - x*x - y*y + z*z) * (w*w - x*x - y*y + z*z)
         == NormSqQ(Quaternion(x, y, z, w)) * NormSqQ(Quaternion(x, y, z, w))
  {
    Mul22(x*z, -(w*y), x*z, -(w*y));
    Mul22(y*z, w*x, y*z, w*x);
    Mul44(w*w, -(x*x), -(y*y), z*z, w*w, -(x*x), -(y*y), z*z);
    var n := x*x + y*y + z*z + w*w;
    MulCongr(NormSqQ(Quaternion(x, y, z, w)), NormSqQ(Quaternion(x, y, z, w)), n, n);
    Mul44(x*x, y*y, z*z, w*w, x*x, y*y, z*z, w*w);
  }

  lemma {:induction false} Rows01(x: real, y: real, z: real, w: real)
    ensures (w*w + x*x - y*y - z*z) * (2.0 * (x*y + w*z)) + (2.0 * (x*y - w*z)) * (w*w - x*x + y*y - z*z) + (2.0 * (x*z + w*y)) * (2.0 * (y*z - w*x))
         == 0.0
  {
    Mul42(w*w, x*x, -(y*y), -(z*z), x*y, w*z);
    Mul42(w*w, -(x*x), y*y, -(z*z), x*y, -(w*z));
    Mul22(x*z, w*y, y*z, -(w*x));
  }

  lemma {:induction false} Rows02(x: real, y: real, z: real, w: real)
    ensures (w*w + x*x - y*y - z*z) * (2.0 * (x*z - w*y)) + (2.0 * (x*y - w*z)) * (2.0 * (y*z + w*x)) + (2.0 * (x*z + w*y)) * (w*w - x*x - y*y + z*z)
         == 0.0
  {
    Mul42(w*w, x*x, -(y*y), -(z*z), x*z, -(w*y));
    Mul22(x*y, -(w*z), y*z, w*x);
    Mul42(w*w, -(x*x), -(y*y), z*z, x*z, w*y);
  }

  lemma {:induction false} Rows12(x: real, y: real, z: real, w: real)
    ensures (2.0 * (x*y + w*z)) * (2.0 * (x*z - w*y)) + (w*w - x*x + y*y - z*z) * (2.0 * (y*z + w*x)) + (2.0 * (y*z - w*x)) * (w*w - x*x - y*y + z*z)
         == 0.0
  {
    Mul22(x*y, w*z, x*z, -(w*y));
    Mul42(w*w, -(x*x), y*y, -(z*z), y*z, w*x);
    Mul42(w*w, -(x*x), -(y*y), z*z, y*z, -(w*x));
  }

  lemma {:induction false} DotOf(a: real, b: real, c: real, d: real, e: real, f: real)
    ensures Dot(Vec3(a, b, c), Vec3(d, e, f)) == a * d + b * e + c * f
  {
  }

  lemma {:induction false} MulCongr(a: real, b: real, e: real, f: real)
    requires a == e && b == f
    ensures a * b == e * f
  {
  }

  lemma {:induction false} Mul22(a: real, b: real, c: real, d: real)
    ensures (a + b) * (c + d) == a * c + a * d + b * c + b * d
  {
  }

  lemma {:induction false} Mul42(a: real, b: real, c: real, d: real, e: real, f: real)
    ensures (a + b + c + d) * (e + f) == a * e + a * f + b * e + b * f + c * e + c * f + d * e + d * f
  {
    Mul22(a + b, c + d, e, f);
    Mul22(a, b, e, f);
    Mul22(c, d, e, f);
  }

  lemma {:induction false} Mul44(a: real, b: real, c: real, d: real, e: real, f: real, g: real, h: real)
    ensures (a + b + c + d) * (e + f + g + h)
         == a * e + a * f + a * g + a * h + b * e + b * f + b * g + b * h
          + c * e + c * f + c * g + c * h + d * e + d * f + d * g + d * h
  {
    Mul42(a, b, c, d, e, f);
    Mul42(a, b, c, d, g, h);
    assert (a + b + c + d) * (e + f + g + h) == (a + b + c + d) * (e + f) + (a + b + c + d) * (g + h);
  }

  /** The same for the columns. */
  lemma {:induction false} DcmColumnsOrthogonal(q: Quaternion)
    ensures var m, n := Transpose(CalcDcm(q)), NormSqQ(q);
      && Dot(m.r0, m.r0) == n * n && Dot(m.r1, m.r1) == n * n && Dot(m.r2, m.r2) == n * n
      && Dot(m.r0, m.r1) == 0.0 && Dot(m.r0, m.r2) == 0.0 && Dot(m.r1, m.r2) == 0.0
  {
    DcmOfConjugate(q);
    DcmRowsOrthogonal(Conjugate(q));
  }

  /** The rows form a right-handed frame: the cross product of the second and third
      rows is the first row scaled by |q|^2, so the determinant (the triple product of
      the rows) is |q|^6. For a unit quaternion the matrix is a proper rotation, never
      a reflection. */
  lemma {:induction false} DcmRightHanded(q: Quaternion)
    ensures Cross(CalcDcm(q).r1, CalcDcm(q).r2) == Scale(CalcDcm(q).r0, NormSqQ(q))
    ensures Dot(CalcDcm(q).r0, Cross(CalcDcm(q).r1, CalcDcm(q).r2)) == NormSqQ(q) * NormSqQ(q) * NormSqQ(q)
  {
    var m, n := CalcDcm(q), NormSqQ(q);
    assert q == Quaternion(q.x, q.y, q.z, q.w);
    CrossOfRows(q.x, q.y, q.z, q.w);
    DcmRowsOrthogonal(q);
    DotScale(m.r0, n);
  }

  /** The same on the matrix of four coordinates. */
  lemma {:induction false} CrossOfRows(x: real, y: real, z: real, w: real)
    ensures Cross(DcmOf(x, y, z, w).r1, DcmOf(x, y, z, w).r2) == Scale(DcmOf(x, y, z, w).r0, NormSqQ(Quaternion(x, y, z, w)))
  {
    var m := DcmOf(x, y, z, w);
    var n := NormSqQ(Quaternion(x, y, z, w));
    var s := x*x + y*y + z*z + w*w;
    CrossEntry0(x, y, z, w, m.r1.y, m.r2.z, m.r1.z, m.r2.y, m.r0.x, s);
    CrossEntry1(x, y, z, w, m.r1.z, m.r2.x, m.r1.x, m.r2.z, m.r0.y, s);
    CrossEntry2(x, y, z, w, m.r1.x, m.r2.y, m.r1.y, m.r2.x, m.r0.z, s);
    CrossByEntries(m.r0, m.r1, m.r2, n, s);
  }

  /** Cross(r1, r2) is r0 scaled by n once each entry of the cross product is. */
  lemma {:induction false} CrossByEntries(r0: Vec3, r1: Vec3, r2: Vec3, n: real, s: real)
    requires n == s
    requires r1.y * r2.z - r1.z * r2.y == r0.x * s
    requires r1.z * r2.x - r1.x * r2.z == r0.y * s
    requires r1.x * r2.y - r1.y * r2.x == r0.z * s
    ensures Cross(r1, r2) == Scale(r0, n)
  {
  }

  // The entries of the second row crossed with the third, first with the rows'
  // entries as parameters and then multiplied out.

  lemma {:induction false} CrossEntry0(x: real, y: real, z: real, w: real, a: real, b: real, c: real, d: real, p: real, s: real)
    requires a == w*w - x*x + y*y - z*z && b == w*w - x*x - y*y + z*z
    requires c == 2.0 * (y*z - w*x) && d == 2.0 * (y*z + w*x)
    requires p == w*w + x*x - y*y - z*z && s == x*x + y*y + z*z + w*w
    ensures a * b - c * d == p * s
  {
    CrossRow0(x, y, z, w);
  }

  lemma {:induction false} CrossEntry1(x: real, y: real, z: real, w: real, a: real, b: real, c: real, d: real, p: real, s: real)
    requires a == 2.0 * (y*z - w*x) && b == 2.0 * (x*z - w*y)
    requires c == 2.0 * (x*y + w*z) && d == w*w - x*x - y*y + z*z
    requires p == 2.0 * (x*y - w*z) && s == x*x + y*y + z*z + w*w
    ensures a * b - c * d == p * s
  {
    CrossRow1(x, y, z, w);
  }

  lemma {:induction false} CrossEntry2(x: real, y: real, z: real, w: real, a: real, b: real, c: real, d: real, p: real, s: real)
    requires a == 2.0 * (x*y + w*z) && b == 2.0 * (y*z + w*x)
    requires c == w*w - x*x + y*y - z*z && d == 2.0 * (x*z - w*y)
    requires p == 2.0 * (x*z + w*y) && s == x*x + y*y + z*z + w*w
    ensures a * b - c * d == p * s
  {
    CrossRow2(x, y, z, w);
  }

  lemma {:induction false} DotScale(a: Vec3, k: real)
    ensures Dot(a, Scale(a, k)) == Dot(a, a) * k
  {
  }

  lemma {:induction false} CrossRow0(x: real, y: real, z: real, w: real)
    ensures (w*w - x*x + y*y - z*z) * (w*w - x*x - y*y + z*z) - (2.0 * (y*z - w*x)) * (2.0 * (y*z + w*x))
         == (w*w + x*x - y*y - z*z) * (x*x + y*y + z*z + w*w)
  {
  }

  lemma {:induction false} CrossRow1(x: real, y: real, z: real, w: real)
    ensures (2.0 * (y*z - w*x)) * (2.0 * (x*z - w*y)) - (2.0 * (x*y + w*z)) * (w*w - x*x - y*y + z*z)
         == (2.0 * (x*y - w*z)) * (x*x + y*y + z*z + w*w)
  {
  }

  lemma {:induction false} CrossRow2(x: real, y: real, z: real, w: real)
    ensures (2.0 * (x*y + w*z)) * (2.0 * (y*z + w*x)) - (w*w - x*x + y*y - z*z) * (2.0 * (x*z - w*y))
         == (2.0 * (x*z + w*y)) * (x*x + y*y + z*z + w*w)
  {
  }
}

/** Homogeneous 4-vectors and row-major 4x4 matrices over exact reals.
    The editor uses Eigen's `Vector4f` and `Matrix4f`; here every entry is a `real`,
    an exact idealisation of the single-precision arithmetic. */
module Geometry {

  datatype Vec4 = Vec4(x: real, y: real, z: real, w: real)

  function Sub(a: Vec4, b: Vec4): Vec4 {
    Vec4(a.x - b.x, a.y - b.y, a.z - b.z, a.w - b.w)
  }

  /** Squared Euclidean length of the 4-vector (Eigen's `norm()` squared). */
  function SquaredNorm(a: Vec4): (r: real)
    ensures r >= 0.0
  {
    a.x * a.x + a.y * a.y + a.z * a.z + a.w * a.w
  }

  /** A point of the drawing plane: z = 0 and homogeneous weight 1. */
  predicate IsPlanarPoint(v: Vec4) {
    v.z == 0.0 && v.w == 1.0
  }

  const Origin := Vec4(0.0, 0.0, 0.0, 1.0)

  /** Row-major: `mRC` is the entry in row R, column C. */
  datatype Mat4 = Mat4(
    m00: real, m01: real, m02: real, m03: real,
    m10: real, m11: real, m12: real, m13: real,
    m20: real, m21: real, m22: real, m23: real,
    m30: real, m31: real, m32: real, m33: real)

  /** The last two rows are those of the identity: the matrix keeps z and w
      and acts only on the x/y plane (plus a translation in it). */
  predicate Planar(m: Mat4) {
    m.m20 == 0.0 && m.m21 == 0.0 && m.m22 == 1.0 && m.m23 == 0.0 &&
    m.m30 == 0.0 && m.m31 == 0.0 && m.m32 == 0.0 && m.m33 == 1.0
  }

  /** The last column is that of the identity: the origin point is a fixed point. */
  predicate FixesOrigin(m: Mat4) {
    m.m03 == 0.0 && m.m13 == 0.0 && m.m23 == 0.0 && m.m33 == 1.0
  }

  /** Matrix times column vector. */
  function Apply(m: Mat4, v: Vec4): (r: Vec4)
    ensures Planar(m) && IsPlanarPoint(v) ==> IsPlanarPoint(r)
    ensures FixesOrigin(m) && v == Origin ==> r == Origin
  {
    Vec4(m.m00 * v.x + m.m01 * v.y + m.m02 * v.z + m.m03 * v.w,
         m.m10 * v.x + m.m11 * v.y + m.m12 * v.z + m.m13 * v.w,
         m.m20 * v.x + m.m21 * v.y + m.m22 * v.z + m.m23 * v.w,
         m.m30 * v.x + m.m31 * v.y + m.m32 * v.z + m.m33 * v.w)
  }

  /** Matrix product `a * b`. Planar matrices and origin-fixing matrices are closed under it. */
  function Mul(a: Mat4, b: Mat4): (r: Mat4)
    ensures Planar(a) && Planar(b) ==> Planar(r)
    ensures FixesOrigin(a) && FixesOrigin(b) ==> FixesOrigin(r)
  {
    Mat4(
      a.m00 * b.m00 + a.m01 * b.m10 + a.m02 * b.m20 + a.m03 * b.m30,
      a.m00 * b.m01 + a.m01 * b.m11 + a.m02 * b.m21 + a.m03 * b.m31,
      a.m00 * b.m02 + a.m01 * b.m12 + a.m02 * b.m22 + a.m03 * b.m32,
      a.m00 * b.m03 + a.m01 * b.m13 + a.m02 * b.m23 + a.m03 * b.m33,

      a.m10 * b.m00 + a.m11 * b.m10 + a.m12 * b.m20 + a.m13 * b.m30,
      a.m10 * b.m01 + a.m11 * b.m11 + a.m12 * b.m21 + a.m13 * b.m31,
      a.m10 * b.m02 + a.m11 * b.m12 + a.m12 * b.m22 + a.m13 * b.m32,
      a.m10 * b.m03 + a.m11 * b.m13 + a.m12 * b.m23 + a.m13 * b.m33,

      a.m20 * b.m00 + a.m21 * b.m10 + a.m22 * b.m20 + a.m23 * b.m30,
      a.m20 * b.m01 + a.m21 * b.m11 + a.m22 * b.m21 + a.m23 * b.m31,
      a.m20 * b.m02 + a.m21 * b.m12 + a.m22 * b.m22 + a.m23 * b.m32,
      a.m20 * b.m03 + a.m21 * b.m13 + a.m22 * b.m23 + a.m23 * b.m33,

      a.m30 * b.m00 + a.m31 * b.m10 + a.m32 * b.m20 + a.m33 * b.m30,
      a.m30 * b.m01 + a.m31 * b.m11 + a.m32 * b.m21 + a.m33 * b.m31,
      a.m30 * b.m02 + a.m31 * b.m12 + a.m32 * b.m22 + a.m33 * b.m32,
      a.m30 * b.m03 + a.m31 * b.m13 + a.m32 * b.m23 + a.m33 * b.m33)
  }

  /** `Matrix4f::Identity()`: it fixes every vector under `Apply`. */
  function Identity(): (r: Mat4)
    ensures Planar(r) && FixesOrigin(r)
    ensures forall v :: Apply(r, v) == v
  {
    Mat4(1.0, 0.0, 0.0, 0.0,
         0.0, 1.0, 0.0, 0.0,
         0.0, 0.0, 1.0, 0.0,
         0.0, 0.0, 0.0, 1.0)
  }

  /** Translation by (dx, dy) in the plane, laid out as in the editor's
      translate, pan and pivot matrices. */
  function TranslationMatrix(dx: real, dy: real): (r: Mat4)
    ensures Planar(r)
    ensures r.m03 == dx && r.m13 == dy
  {
    Mat4(1.0, 0.0, 0.0, dx,
         0.0, 1.0, 0.0, dy,
         0.0, 0.0, 1.0, 0.0,
         0.0, 0.0, 0.0, 1.0)
  }

  /** Uniform scaling of x and y by f, laid out as in the editor's scale and zoom matrices. */
  function ScaleMatrix(f: real): (r: Mat4)
    ensures Planar(r) && FixesOrigin(r)
  {
    Mat4(f, 0.0, 0.0, 0.0,
         0.0, f, 0.0, 0.0,
         0.0, 0.0, 1.0, 0.0,
         0.0, 0.0, 0.0, 1.0)
  }

  /** Rotation in the x/y plane given the cosine c and sine s of the angle. */
  function RotationMatrix(c: real, s: real): (r: Mat4)
    ensures Planar(r) && FixesOrigin(r)
  {
    Mat4(c, -s, 0.0, 0.0,
         s, c, 0.0, 0.0,
         0.0, 0.0, 1.0, 0.0,
         0.0, 0.0, 0.0, 1.0)
  }

  /** A translation moves a point of weight w by w times the offset. */
  lemma ApplyTranslation(dx: real, dy: real, v: Vec4)
    ensures Apply(TranslationMatrix(dx, dy), v) == Vec4(v.x + dx * v.w, v.y + dy * v.w, v.z, v.w)
  {
  }

  lemma ApplyScale(f: real, v: Vec4)
    ensures Apply(ScaleMatrix(f), v) == Vec4(f * v.x, f * v.y, v.z, v.w)
  {
  }

  lemma ApplyRotation(c: real, s: real, v: Vec4)
    ensures Apply(RotationMatrix(c, s), v) == Vec4(c * v.x - s * v.y, s * v.x + c * v.y, v.z, v.w)
  {
  }

  /** A translation moves a point of the plane by exactly the offset. */
  lemma MovePlanarPoint(dx: real, dy: real, p: Vec4)
    requires IsPlanarPoint(p)
    ensures Apply(TranslationMatrix(dx, dy), p) == Vec4(p.x + dx, p.y + dy, 0.0, 1.0)
  {
    ApplyTranslation(dx, dy, p);
  }

  /** Moving `b` to the origin, scaling by `f` and moving back scales the offset from `b`. */
  lemma ScaleAboutPoint(f: real, b: Vec4, p: Vec4)
    requires IsPlanarPoint(p)
    ensures Apply(TranslationMatrix(b.x, b.y), Apply(ScaleMatrix(f), Apply(TranslationMatrix(-b.x, -b.y), p)))
         == Vec4(f * (p.x - b.x) + b.x, f * (p.y - b.y) + b.y, 0.0, 1.0)
  {
    MovePlanarPoint(-b.x, -b.y, p);
    var p0 := Vec4(p.x - b.x, p.y - b.y, 0.0, 1.0);
    ApplyScale(f, p0);
    MovePlanarPoint(b.x, b.y, Vec4(f * p0.x, f * p0.y, 0.0, 1.0));
  }

  /** Moving `b` to the origin, rotating and moving back turns the offset from `b`. */
  lemma RotateAboutPoint(c: real, s: real, b: Vec4, p: Vec4)
    requires IsPlanarPoint(p)
    ensures Apply(TranslationMatrix(b.x, b.y), Apply(RotationMatrix(c, s), Apply(TranslationMatrix(-b.x, -b.y), p)))
         == Vec4(c * (p.x - b.x) - s * (p.y - b.y) + b.x, s * (p.x - b.x) + c * (p.y - b.y) + b.y, 0.0, 1.0)
  {
    MovePlanarPoint(-b.x, -b.y, p);
    var p0 := Vec4(p.x - b.x, p.y - b.y, 0.0, 1.0);
    ApplyRotation(c, s, p0);
    MovePlanarPoint(b.x, b.y, Vec4(c * p0.x - s * p0.y, s * p0.x + c * p0.y, 0.0, 1.0));
  }

  /** The identity is neutral on both sides of a product. */
  lemma IdentityUnit(m: Mat4)
    ensures Mul(Identity(), m) == m && Mul(m, Identity()) == m
  {
  }

  /** A product whose first three factors are the identity is its last factor. */
  lemma IdentityPrefix(v: Mat4, t: Mat4, r: Mat4, s: Mat4)
    requires v == Identity() && t == Identity() && r == Identity()
    ensures Mul(Mul(Mul(v, t), r), s) == s
  {
    IdentityUnit(t);
    IdentityUnit(r);
    IdentityUnit(s);
  }

  /** A product whose factors other than the third are the identity is its third factor. */
  lemma IdentityButThird(v: Mat4, t: Mat4, r: Mat4, s: Mat4)
    requires v == Identity() && t == Identity() && s == Identity()
    ensures Mul(Mul(Mul(v, t), r), s) == r
  {
    IdentityUnit(t);
    IdentityUnit(r);
    IdentityUnit(s);
  }

  /** Two translations in a row are one translation by the summed offsets. */
  lemma TranslationCompose(a: real, b: real, c: real, d: real)
    ensures Mul(TranslationMatrix(a, b), TranslationMatrix(c, d)) == TranslationMatrix(a + c, b + d)
  {
    assert Mul(Mat4(1.0, 0.0, 0.0, a, 0.0, 1.0, 0.0, b, 0.0, 0.0, 1.0, 0.0, 0.0, 0.0, 0.0, 1.0),
               Mat4(1.0, 0.0, 0.0, c, 0.0, 1.0, 0.0, d, 0.0, 0.0, 1.0, 0.0, 0.0, 0.0, 0.0, 1.0))
        == Mat4(1.0, 0.0, 0.0, a + c, 0.0, 1.0, 0.0, b + d, 0.0, 0.0, 1.0, 0.0, 0.0, 0.0, 0.0, 1.0);
  }

  /** Translating a product twice is translating it once by the summed offsets. */
  lemma TranslateTwice(a: real, b: real, c: real, d: real, m: Mat4)
    ensures Mul(TranslationMatrix(a, b), Mul(TranslationMatrix(c, d), m)) == Mul(TranslationMatrix(a + c, b + d), m)
  {
  }

  /** Two uniform scalings in a row are one scaling by the product `c` of the factors. */
  lemma ScaleCompose(a: real, b: real, c: real)
    requires c == a * b
    ensures Mul(ScaleMatrix(a), ScaleMatrix(b)) == ScaleMatrix(c)
  {
    assert Mul(Mat4(a, 0.0, 0.0, 0.0, 0.0, a, 0.0, 0.0, 0.0, 0.0, 1.0, 0.0, 0.0, 0.0, 0.0, 1.0),
               Mat4(b, 0.0, 0.0, 0.0, 0.0, b, 0.0, 0.0, 0.0, 0.0, 1.0, 0.0, 0.0, 0.0, 0.0, 1.0))
        == Mat4(c, 0.0, 0.0, 0.0, 0.0, c, 0.0, 0.0, 0.0, 0.0, 1.0, 0.0, 0.0, 0.0, 0.0, 1.0);
  }

  /** Two rotations in a row are one rotation whose cosine and sine follow the
      angle-addition formulas. */
  lemma RotationCompose(c1: real, s1: real, c2: real, s2: real)
    ensures Mul(RotationMatrix(c1, s1), RotationMatrix(c2, s2)) == RotationMatrix(c1 * c2 - s1 * s2, s1 * c2 + c1 * s2)
  {
    assert Mul(Mat4(c1, -s1, 0.0, 0.0, s1, c1, 0.0, 0.0, 0.0, 0.0, 1.0, 0.0, 0.0, 0.0, 0.0, 1.0),
               Mat4(c2, -s2, 0.0, 0.0, s2, c2, 0.0, 0.0, 0.0, 0.0, 1.0, 0.0, 0.0, 0.0, 0.0, 1.0))
        == Mat4(c1 * c2 - s1 * s2, -(s1 * c2 + c1 * s2), 0.0, 0.0, s1 * c2 + c1 * s2, c1 * c2 - s1 * s2, 0.0, 0.0,
                0.0, 0.0, 1.0, 0.0, 0.0, 0.0, 0.0, 1.0);
  }

  function Min3(a: real, b: real, c: real): (m: real)
    ensures m <= a && m <= b && m <= c
    ensures m == a || m == b || m == c
  {
    if a <= b && a <= c then a else if b <= c then b else c
  }

  function Max3(a: real, b: real, c: real): (m: real)
    ensures m >= a && m >= b && m >= c
    ensures m == a || m == b || m == c
  {
    if a >= b && a >= c then a else if b >= c then b else c
  }

  /** `(p0 + p1 + p2) / 3`, all four components divided: the point from which
      the offsets of the three corners cancel out. */
  function Barycenter(a: Vec4, b: Vec4, c: Vec4): (g: Vec4)
    ensures Sub(a, g).x + Sub(b, g).x + Sub(c, g).x == 0.0
    ensures Sub(a, g).y + Sub(b, g).y + Sub(c, g).y == 0.0
    ensures IsPlanarPoint(a) && IsPlanarPoint(b) && IsPlanarPoint(c) ==> IsPlanarPoint(g)
  {
    Vec4((a.x + b.x + c.x) / 3.0, (a.y + b.y + c.y) / 3.0,
         (a.z + b.z + c.z) / 3.0, (a.w + b.w + c.w) / 3.0)
  }

  /** The barycenter lies in the axis-aligned box of the three points, and is a
      point of the plane when they are. */
  lemma BarycenterInBox(a: Vec4, b: Vec4, c: Vec4)
    ensures var g := Barycenter(a, b, c);
      && Min3(a.x, b.x, c.x) <= g.x <= Max3(a.x, b.x, c.x)
      && Min3(a.y, b.y, c.y) <= g.y <= Max3(a.y, b.y, c.y)
      && Min3(a.z, b.z, c.z) <= g.z <= Max3(a.z, b.z, c.z)
      && (IsPlanarPoint(a) && IsPlanarPoint(b) && IsPlanarPoint(c) ==> IsPlanarPoint(g))
  {
  }

  lemma RowOfCentroid(m0: real, m1: real, m2: real, m3: real,
                      a0: real, a1: real, a2: real, a3: real,
                      b0: real, b1: real, b2: real, b3: real,
                      c0: real, c1: real, c2: real, c3: real)
    ensures m0 * ((a0 + b0 + c0) / 3.0) + m1 * ((a1 + b1 + c1) / 3.0)
          + m2 * ((a2 + b2 + c2) / 3.0) + m3 * ((a3 + b3 + c3) / 3.0)
         == ((m0 * a0 + m1 * a1 + m2 * a2 + m3 * a3)
           + (m0 * b0 + m1 * b1 + m2 * b2 + m3 * b3)
           + (m0 * c0 + m1 * c1 + m2 * c2 + m3 * c3)) / 3.0
  {
  }

  /** A matrix maps the barycenter of three vectors to the barycenter of their images. */
  lemma ApplyBarycenter(m: Mat4, a: Vec4, b: Vec4, c: Vec4)
    ensures Apply(m, Barycenter(a, b, c)) == Barycenter(Apply(m, a), Apply(m, b), Apply(m, c))
  {
    RowOfCentroid(m.m00, m.m01, m.m02, m.m03, a.x, a.y, a.z, a.w, b.x, b.y, b.z, b.w, c.x, c.y, c.z, c.w);
    RowOfCentroid(m.m10, m.m11, m.m12, m.m13, a.x, a.y, a.z, a.w, b.x, b.y, b.z, b.w, c.x, c.y, c.z, c.w);
    RowOfCentroid(m.m20, m.m21, m.m22, m.m23, a.x, a.y, a.z, a.w, b.x, b.y, b.z, b.w, c.x, c.y, c.z, c.w);
    RowOfCentroid(m.m30, m.m31, m.m32, m.m33, a.x, a.y, a.z, a.w, b.x, b.y, b.z, b.w, c.x, c.y, c.z, c.w);
  }
}

/** The part of a dense linear-algebra library the renderer uses: 3-vectors'
    cross product, 4-vectors, 4x4 matrices (row by row), products and the
    homogeneous divide. */
module Matrices {
  import opened Vectors

  datatype Vec4 = Vec4(x: real, y: real, z: real, w: real)

  /** A 4x4 matrix given by its rows. */
  datatype Mat4 = Mat4(r0: Vec4, r1: Vec4, r2: Vec4, r3: Vec4)

  function Dot4(a: Vec4, b: Vec4): real {
    a.x * b.x + a.y * b.y + a.z * b.z + a.w * b.w
  }

  /** The matrix-vector product `M * v`. */
  function Apply(m: Mat4, v: Vec4): Vec4 {
    Vec4(Dot4(m.r0, v), Dot4(m.r1, v), Dot4(m.r2, v), Dot4(m.r3, v))
  }

  function Transpose(m: Mat4): Mat4 {
    Mat4(Vec4(m.r0.x, m.r1.x, m.r2.x, m.r3.x),
         Vec4(m.r0.y, m.r1.y, m.r2.y, m.r3.y),
         Vec4(m.r0.z, m.r1.z, m.r2.z, m.r3.z),
         Vec4(m.r0.w, m.r1.w, m.r2.w, m.r3.w))
  }

  /** The matrix product `a * b`: row i of the product is row i of `a` times `b`. */
  function Mul(a: Mat4, b: Mat4): Mat4 {
    var bt := Transpose(b);
    Mat4(Apply(bt, a.r0), Apply(bt, a.r1), Apply(bt, a.r2), Apply(bt, a.r3))
  }

  /** Multiplying by a product is multiplying by its factors in turn. */
  lemma ApplyMul(a: Mat4, b: Mat4, v: Vec4)
    ensures Apply(Mul(a, b), v) == Apply(a, Apply(b, v))
  {
    var bt := Transpose(b);
    RowTimesProduct(a.r0, b, bt, v);
    RowTimesProduct(a.r1, b, bt, v);
    RowTimesProduct(a.r2, b, bt, v);
    RowTimesProduct(a.r3, b, bt, v);
  }

  /** Row i of `a * b` times v is row i of `a` times `b * v`: both sides
      are the double sum of `row[i] * b[i][j] * v[j]`. */
  lemma RowTimesProduct(row: Vec4, b: Mat4, bt: Mat4, v: Vec4)
    requires bt == Transpose(b)
    ensures Dot4(Apply(bt, row), v) == Dot4(row, Apply(b, v))
  {
    var p0, p1, p2, p3 := ScaleH(b.r0, row.x), ScaleH(b.r1, row.y), ScaleH(b.r2, row.z), ScaleH(b.r3, row.w);
    TransposedApply(row, b, bt);
    Dot4Add(Add4(Add4(p0, p1), p2), p3, v);
    Dot4Add(Add4(p0, p1), p2, v);
    Dot4Add(p0, p1, v);
    Dot4ScaledLeft(b.r0, v, row.x);
    Dot4ScaledLeft(b.r1, v, row.y);
    Dot4ScaledLeft(b.r2, v, row.z);
    Dot4ScaledLeft(b.r3, v, row.w);
  }

  /** The transpose applied to a row combines the rows of b. */
  lemma TransposedApply(row: Vec4, b: Mat4, bt: Mat4)
    requires bt == Transpose(b)
    ensures Apply(bt, row) == Add4(Add4(Add4(ScaleH(b.r0, row.x), ScaleH(b.r1, row.y)),
                                        ScaleH(b.r2, row.z)), ScaleH(b.r3, row.w))
  {
  }

  /** Coordinate-wise sum. */
  function Add4(a: Vec4, b: Vec4): Vec4 {
    Vec4(a.x + b.x, a.y + b.y, a.z + b.z, a.w + b.w)
  }

  lemma Dot4Add(a: Vec4, b: Vec4, v: Vec4)
    ensures Dot4(Add4(a, b), v) == Dot4(a, v) + Dot4(b, v)
  {
  }

  lemma Dot4ScaledLeft(c: Vec4, v: Vec4, k: real)
    ensures Dot4(ScaleH(c, k), v) == k * Dot4(c, v)
  {
  }

  /** A nonzero multiple of v, coordinate by coordinate. */
  function ScaleH(v: Vec4, k: real): Vec4 {
    Vec4(k * v.x, k * v.y, k * v.z, k * v.w)
  }

  /** Matrices are linear: a multiple of v goes to the same multiple of
      its image. */
  lemma ApplyScaled(m: Mat4, v: Vec4, k: real)
    ensures Apply(m, ScaleH(v, k)) == ScaleH(Apply(m, v), k)
  {
    var a, b := Apply(m, ScaleH(v, k)), ScaleH(Apply(m, v), k);
    Dot4Scaled(m.r0, v, k);
    Dot4Scaled(m.r1, v, k);
    Dot4Scaled(m.r2, v, k);
    Dot4Scaled(m.r3, v, k);
    Vec4Ext(a, b);
  }

  /** Vectors with equal coordinates are equal. */
  lemma Vec4Ext(a: Vec4, b: Vec4)
    requires a.x == b.x && a.y == b.y && a.z == b.z && a.w == b.w
    ensures a == b
  {
  }

  lemma Dot4Scaled(row: Vec4, v: Vec4, k: real)
    ensures Dot4(row, ScaleH(v, k)) == k * Dot4(row, v)
  {
  }

  /** The point with homogeneous coordinate 1. */
  function Homogeneous(p: Vec3): Vec4 {
    Vec4(p.x, p.y, p.z, 1.0)
  }

  /** The homogeneous divide: the first three coordinates over the fourth. */
  function HNormalized(v: Vec4): Vec3
    requires v.w != 0.0
  {
    Vec3(v.x / v.w, v.y / v.w, v.z / v.w)
  }

  /** A point and any nonzero multiple of it divide out to the same point,
      and a point with coordinate 1 is its own image. */
  lemma HNormalizedProperties(v: Vec4, k: real, p: Vec3)
    requires v.w != 0.0 && k != 0.0
    ensures HNormalized(ScaleH(v, k)) == HNormalized(v)
    ensures HNormalized(Homogeneous(p)) == p
  {
    CancelCommonFactor(v.x, v.w, k);
    CancelCommonFactor(v.y, v.w, k);
    CancelCommonFactor(v.z, v.w, k);
  }

  /** A common nonzero factor cancels from a quotient. */
  lemma CancelCommonFactor(a: real, w: real, k: real)
    requires w != 0.0 && k != 0.0
    ensures (k * a) / (k * w) == a / w
  {
    var q := a / w;
    assert q * w == a;
    assert q * (k * w) == k * a;
    QuotientUnique(k * a, k * w, q);
  }

  /** q * b == a with b nonzero makes q the quotient a / b. */
  lemma QuotientUnique(a: real, b: real, q: real)
    requires b != 0.0 && q * b == a
    ensures a / b == q
  {
  }

  function Neg(v: Vec3): Vec3 {
    Vec3(-v.x, -v.y, -v.z)
  }

  /** The cross product `a x b`. */
  function Cross(a: Vec3, b: Vec3): Vec3 {
    Vec3(a.y * b.z - a.z * b.y, a.z * b.x - a.x * b.z, a.x * b.y - a.y * b.x)
  }

  /** The cross product is orthogonal to both factors. */
  lemma CrossOrthogonal(a: Vec3, b: Vec3)
    ensures DotProdV3(Cross(a, b), a) == 0.0
    ensures DotProdV3(Cross(a, b), b) == 0.0
  {
  }
}

/** Building the camera (view) matrix and the combined projection/viewport
    matrix, and applying a matrix to a block of homogeneous columns.

    Eigen's `normalized()` and the math library's `tan` are not modelled:
    `normalize` is a parameter (any function from vectors to vectors), and
    `tanHalfFov` stands for `tan(pi * fov / 360)`. Every fact below holds for
    all choices of them. */
module CameraTransforms {
  import opened Vectors
  import opened Matrices

  /** The camera basis (u, v, w): w is the negated, normalized look
      direction, u the normalized cross product of the up vector with w, and
      v = w x u. */
  datatype Basis = Basis(u: Vec3, v: Vec3, w: Vec3)

  /** The world up reference vector (z is up). */
  const Up: Vec3 := Vec3(0.0, 0.0, 1.0)

  function CameraBasis(normalize: Vec3 -> Vec3, direction: Vec3): (b: Basis)
    ensures b.w == Neg(normalize(direction))
    ensures b.u == normalize(Cross(Up, b.w))
    ensures DotProdV3(b.v, b.w) == 0.0 && DotProdV3(b.v, b.u) == 0.0
  {
    var w := Neg(normalize(direction));
    var u := normalize(Cross(Up, w));
    var v := Cross(w, u);
    CrossOrthogonal(w, u);
    Basis(u, v, w)
  }

  function Row(e: Vec3, last: real): Vec4 {
    Vec4(e.x, e.y, e.z, last)
  }

  /** Rotation to the camera axes: u, v and w as rows. */
  function RotationToBasis(b: Basis): Mat4 {
    Mat4(Row(b.u, 0.0), Row(b.v, 0.0), Row(b.w, 0.0), Vec4(0.0, 0.0, 0.0, 1.0))
  }

  /** Translation that moves `origin` to the world origin. */
  function TranslationFrom(origin: Vec3): Mat4 {
    Mat4(Vec4(1.0, 0.0, 0.0, -origin.x),
         Vec4(0.0, 1.0, 0.0, -origin.y),
         Vec4(0.0, 0.0, 1.0, -origin.z),
         Vec4(0.0, 0.0, 0.0, 1.0))
  }

  /** The world-to-camera matrix, row by row: row k is basis vector k
      followed by minus its dot product with the camera origin, and the
      bottom row is (0, 0, 0, 1). */
  function CameraTransform(normalize: Vec3 -> Vec3, origin: Vec3, direction: Vec3): (m: Mat4)
    ensures m.r3 == Vec4(0.0, 0.0, 0.0, 1.0)
    ensures Apply(m, Homogeneous(origin)) == Vec4(0.0, 0.0, 0.0, 1.0)
  {
    var b := CameraBasis(normalize, direction);
    RowTimesPoint(b.u, -DotProdV3(b.u, origin), origin);
    RowTimesPoint(b.v, -DotProdV3(b.v, origin), origin);
    RowTimesPoint(b.w, -DotProdV3(b.w, origin), origin);
    Mat4(Row(b.u, -DotProdV3(b.u, origin)),
         Row(b.v, -DotProdV3(b.v, origin)),
         Row(b.w, -DotProdV3(b.w, origin)),
         Vec4(0.0, 0.0, 0.0, 1.0))
  }

  /** The row-by-row matrix is the product the camera code forms: rotation
      to the camera axes after translation by minus the origin. */
  lemma CameraTransformIsProduct(normalize: Vec3 -> Vec3, origin: Vec3, direction: Vec3)
    ensures CameraTransform(normalize, origin, direction)
            == Mul(RotationToBasis(CameraBasis(normalize, direction)), TranslationFrom(origin))
  {
    var b := CameraBasis(normalize, direction);
    var mo := TranslationFrom(origin);
    var p := Mul(RotationToBasis(b), mo);
    var t := Transpose(mo);
    assert t == Mat4(Vec4(1.0, 0.0, 0.0, 0.0), Vec4(0.0, 1.0, 0.0, 0.0), Vec4(0.0, 0.0, 1.0, 0.0),
                     Vec4(-origin.x, -origin.y, -origin.z, 1.0));
    assert p.r0 == Apply(t, Row(b.u, 0.0));
    assert p.r1 == Apply(t, Row(b.v, 0.0));
    assert p.r2 == Apply(t, Row(b.w, 0.0));
    assert p.r3 == Apply(t, Vec4(0.0, 0.0, 0.0, 1.0));
  }

  /** The camera origin is sent to the homogeneous origin, and the
      homogeneous coordinate of every point is kept. */
  lemma CameraOriginToOrigin(normalize: Vec3 -> Vec3, origin: Vec3, direction: Vec3, p: Vec4)
    ensures Apply(CameraTransform(normalize, origin, direction), Homogeneous(origin))
            == Vec4(0.0, 0.0, 0.0, 1.0)
    ensures Apply(CameraTransform(normalize, origin, direction), p).w == p.w
  {
    var b := CameraBasis(normalize, direction);
    RowTimesPoint(b.u, -DotProdV3(b.u, origin), origin);
    RowTimesPoint(b.v, -DotProdV3(b.v, origin), origin);
    RowTimesPoint(b.w, -DotProdV3(b.w, origin), origin);
  }

  lemma RowTimesPoint(e: Vec3, last: real, p: Vec3)
    ensures Dot4(Row(e, last), Homogeneous(p)) == DotProdV3(e, p) + last
  {
  }

  lemma DotAdd(e: Vec3, a: Vec3, b: Vec3)
    ensures DotProdV3(e, AddV3(a, b)) == DotProdV3(e, a) + DotProdV3(e, b)
  {
  }

  lemma DotScaled(a: Vec3, d: Vec3, s: real)
    ensures DotProdV3(a, ScaleV3(d, s)) == s * DotProdV3(a, d)
  {
  }

  /** When normalization rescales its arguments by positive factors to unit
      length, the point one look direction ahead of the camera lands on the
      negative w axis of camera space. */
  lemma LookTargetOnNegativeW(normalize: Vec3 -> Vec3, origin: Vec3, direction: Vec3, k: real, k': real)
    requires k > 0.0 && normalize(direction) == ScaleV3(direction, k)
    requires var w := Neg(normalize(direction));
      normalize(Cross(Up, w)) == ScaleV3(Cross(Up, w), k')
    requires DotProdV3(normalize(direction), normalize(direction)) == 1.0
    ensures var q := Apply(CameraTransform(normalize, origin, direction),
                           Homogeneous(AddV3(origin, direction)));
      q.x == 0.0 && q.y == 0.0 && q.z < 0.0 && q.w == 1.0
  {
    var b := CameraBasis(normalize, direction);
    var m := CameraTransform(normalize, origin, direction);
    var target := AddV3(origin, direction);
    var q := Apply(m, Homogeneous(target));
    RowTimesPoint(b.u, -DotProdV3(b.u, origin), target);
    RowTimesPoint(b.v, -DotProdV3(b.v, origin), target);
    RowTimesPoint(b.w, -DotProdV3(b.w, origin), target);
    DotAdd(b.u, origin, direction);
    DotAdd(b.v, origin, direction);
    DotAdd(b.w, origin, direction);
    assert q.x == DotProdV3(b.u, direction);
    assert q.y == DotProdV3(b.v, direction);
    assert q.z == DotProdV3(b.w, direction);
    assert q.w == 1.0;
    // w is a negative multiple of the direction
    assert b.w == ScaleV3(direction, -k);
    // u is a multiple of up x w, which is orthogonal to w
    var c := Cross(Up, b.w);
    CrossOrthogonal(Up, b.w);
    assert b.u == ScaleV3(c, k');
    DotScaled(b.w, c, k');
    assert DotProdV3(b.w, b.u) == 0.0;
    DotSymmetric(b.w, b.u);
    DotScaled(b.u, direction, -k);
    ProjectionOfScaled(b.u, direction, -k);
    DotScaled(b.v, direction, -k);
    DotSymmetric(b.w, b.v);
    ProjectionOfScaled(b.v, direction, -k);
    // w . w == 1 and w == -k * direction give -k * q.z == 1
    DotScaled(b.w, direction, -k);
    assert DotProdV3(b.w, b.w) == 1.0;
    assert -k * q.z == 1.0;
  }

  /** A vector orthogonal to `d * s` (s nonzero) is orthogonal to d. */
  lemma ProjectionOfScaled(a: Vec3, d: Vec3, s: real)
    requires s != 0.0 && DotProdV3(a, ScaleV3(d, s)) == 0.0
    ensures DotProdV3(a, d) == 0.0
  {
    DotScaled(a, d, s);
  }

  /** The degenerate case: when the look direction is parallel to the up
      vector and normalization rescales it, the cross product that u
      normalizes is the zero vector, so no camera basis exists. */
  lemma DegenerateWhenLookingAlongUp(normalize: Vec3 -> Vec3, direction: Vec3, k: real)
    requires normalize(direction) == ScaleV3(direction, k)
    requires direction.x == 0.0 && direction.y == 0.0
    ensures Cross(Up, CameraBasis(normalize, direction).w) == Vec3(0.0, 0.0, 0.0)
  {
  }

  // ---------------------------------------------------------------------
  // Projection and viewport

  /** The perspective matrix P: its last row makes the homogeneous
      coordinate equal to the view-space z. */
  function Perspective(n: real, f: real): Mat4 {
    Mat4(Vec4(n, 0.0, 0.0, 0.0),
         Vec4(0.0, n, 0.0, 0.0),
         Vec4(0.0, 0.0, n + f, -n * f),
         Vec4(0.0, 0.0, 1.0, 0.0))
  }

  /** The orthographic matrix for the frustum box [-r, r] x [-t, t] x [f, n]. */
  function Orthographic(r: real, t: real, n: real, f: real): Mat4
    requires r != 0.0 && t != 0.0 && n != f
  {
    Mat4(Vec4(1.0 / r, 0.0, 0.0, 0.0),
         Vec4(0.0, 1.0 / t, 0.0, 0.0),
         Vec4(0.0, 0.0, 2.0 / (n - f), -(n + f) / (n - f)),
         Vec4(0.0, 0.0, 0.0, 1.0))
  }

  /** The canonical-volume-to-pixels matrix for an nx by ny frame. */
  function CanonicalToViewport(nx: real, ny: real): Mat4 {
    Mat4(Vec4(nx / 2.0, 0.0, 0.0, (nx - 1.0) / 2.0),
         Vec4(0.0, ny / 2.0, 0.0, (ny - 1.0) / 2.0),
         Vec4(0.0, 0.0, 1.0, 0.0),
         Vec4(0.0, 0.0, 0.0, 1.0))
  }

  /** Half the frustum height at the near plane. */
  function HalfHeight(n: real, tanHalfFov: real): real {
    n * tanHalfFov
  }

  /** Half the frustum width at the near plane. */
  function HalfWidth(frameWidth: int, frameHeight: int, n: real, tanHalfFov: real): real
    requires frameHeight > 0
  {
    HalfHeight(n, tanHalfFov) * (frameWidth as real / frameHeight as real)
  }

  predicate ViewportArgs(frameWidth: int, frameHeight: int, tanHalfFov: real, n: real, f: real) {
    frameWidth > 0 && frameHeight > 0 && n != 0.0 && tanHalfFov != 0.0 && n != f
  }

  /** The product Mview * Morth * P. */
  function ViewportTransform(frameWidth: int, frameHeight: int, tanHalfFov: real, n: real, f: real): (m: Mat4)
    requires ViewportArgs(frameWidth, frameHeight, tanHalfFov, n, f)
    ensures m.r3 == Vec4(0.0, 0.0, 1.0, 0.0)
  {
    var t := HalfHeight(n, tanHalfFov);
    var r := HalfWidth(frameWidth, frameHeight, n, tanHalfFov);
    assert r != 0.0 by { NonzeroProduct(t, frameWidth as real / frameHeight as real); }
    var mview := CanonicalToViewport(frameWidth as real, frameHeight as real);
    Mul(Mul(mview, Orthographic(r, t, n, f)), Perspective(n, f))
  }

  lemma NonzeroProduct(a: real, b: real)
    requires a != 0.0 && b != 0.0
    ensures a * b != 0.0
  {
  }

  /** The viewport matrix sends canonical x = -1 to -1/2 and x = 1 to
      nx - 1/2, does the same for y with ny, and keeps z and w. */
  lemma CanonicalToViewportEdges(nx: real, ny: real, p: Vec4)
    ensures Apply(CanonicalToViewport(nx, ny), Vec4(-1.0, -1.0, p.z, 1.0)) == Vec4(-0.5, -0.5, p.z, 1.0)
    ensures Apply(CanonicalToViewport(nx, ny), Vec4(1.0, 1.0, p.z, 1.0)) == Vec4(nx - 0.5, ny - 0.5, p.z, 1.0)
    ensures Apply(CanonicalToViewport(nx, ny), p).z == p.z
    ensures Apply(CanonicalToViewport(nx, ny), p).w == p.w
  {
  }

  /** The orthographic matrix sends x = +-r to +-1, y = +-t to +-1, the near
      plane z = n to 1 and the far plane z = f to -1. */
  lemma OrthographicMapsFrustum(r: real, t: real, n: real, f: real)
    requires r != 0.0 && t != 0.0 && n != f
    ensures Apply(Orthographic(r, t, n, f), Vec4(r, t, n, 1.0)) == Vec4(1.0, 1.0, 1.0, 1.0)
    ensures Apply(Orthographic(r, t, n, f), Vec4(-r, -t, f, 1.0)) == Vec4(-1.0, -1.0, -1.0, 1.0)
  {
    assert (2.0 / (n - f)) * n - (n + f) / (n - f) == (2.0 * n - (n + f)) / (n - f);
    assert (2.0 / (n - f)) * f - (n + f) / (n - f) == (2.0 * f - (n + f)) / (n - f);
  }

  /** P makes w the view-space z, and after the homogeneous divide a point
      on the near plane stays at z = n and one on the far plane at z = f. */
  lemma PerspectiveKeepsPlanes(n: real, f: real, x: real, y: real)
    requires n != 0.0 && f != 0.0
    ensures forall p: Vec4 {:trigger Apply(Perspective(n, f), p)} :: Apply(Perspective(n, f), p).w == p.z
    ensures HNormalized(Apply(Perspective(n, f), Vec4(x, y, n, 1.0))).z == n
    ensures HNormalized(Apply(Perspective(n, f), Vec4(x, y, f, 1.0))).z == f
  {
    forall p: Vec4
      ensures Apply(Perspective(n, f), p).w == p.z
    {
      PerspectiveApply(n, f, p);
    }
    PlaneImage(n, f, x, y, n);
    PlaneImage(n, f, x, y, f);
  }

  /** On the plane z, P followed by the divide keeps the depth z. */
  lemma PlaneImage(n: real, f: real, x: real, y: real, z: real)
    requires z != 0.0 && (z == n || z == f)
    ensures HNormalized(Apply(Perspective(n, f), Vec4(x, y, z, 1.0))).z == z
  {
    var q := Apply(Perspective(n, f), Vec4(x, y, z, 1.0));
    PerspectiveApply(n, f, Vec4(x, y, z, 1.0));
    assert q.z == (n + f) * z - n * f * 1.0 && q.w == z;
    PlaneDivide(n, f, z);
  }

  /** The depth row of P on the plane z, divided by z, is z again. */
  lemma PlaneDivide(n: real, f: real, z: real)
    requires z != 0.0 && (z == n || z == f)
    ensures ((n + f) * z - n * f * 1.0) / z == z
  {
    assert (n + f) * z - n * f * 1.0 == z * z;
    CancelFactor(z, z);
  }

  /** Applying the combined matrix is applying P, then the orthographic
      matrix, then the viewport matrix. */
  lemma ViewportTransformComposition(frameWidth: int, frameHeight: int, tanHalfFov: real,
                                     n: real, f: real, p: Vec4)
    requires ViewportArgs(frameWidth, frameHeight, tanHalfFov, n, f)
    ensures var t := HalfHeight(n, tanHalfFov);
      var r := HalfWidth(frameWidth, frameHeight, n, tanHalfFov);
      r != 0.0 && t != 0.0 &&
      Apply(ViewportTransform(frameWidth, frameHeight, tanHalfFov, n, f), p)
      == Apply(CanonicalToViewport(frameWidth as real, frameHeight as real),
               Apply(Orthographic(r, t, n, f), Apply(Perspective(n, f), p)))
  {
    var t := HalfHeight(n, tanHalfFov);
    var r := HalfWidth(frameWidth, frameHeight, n, tanHalfFov);
    NonzeroProduct(n, tanHalfFov);
    NonzeroProduct(t, frameWidth as real / frameHeight as real);
    var mview := CanonicalToViewport(frameWidth as real, frameHeight as real);
    var morth := Orthographic(r, t, n, f);
    var pm := Perspective(n, f);
    ApplyMul(Mul(mview, morth), pm, p);
    ApplyMul(mview, morth, Apply(pm, p));
  }

  /** After the divide, the near plane lands at depth 1 and the far plane at
      depth -1; the homogeneous coordinate is the view-space depth. */
  lemma ViewportDepth(frameWidth: int, frameHeight: int, tanHalfFov: real,
                      n: real, f: real, x: real, y: real)
    requires ViewportArgs(frameWidth, frameHeight, tanHalfFov, n, f) && f != 0.0
    ensures var m := ViewportTransform(frameWidth, frameHeight, tanHalfFov, n, f);
      && Apply(m, Vec4(x, y, n, 1.0)).w == n
      && Apply(m, Vec4(x, y, f, 1.0)).w == f
      && HNormalized(Apply(m, Vec4(x, y, n, 1.0))).z == 1.0
      && HNormalized(Apply(m, Vec4(x, y, f, 1.0))).z == -1.0
  {
    var t := HalfHeight(n, tanHalfFov);
    var r := HalfWidth(frameWidth, frameHeight, n, tanHalfFov);
    var mview := CanonicalToViewport(frameWidth as real, frameHeight as real);
    ViewportTransformComposition(frameWidth, frameHeight, tanHalfFov, n, f, Vec4(x, y, n, 1.0));
    ViewportTransformComposition(frameWidth, frameHeight, tanHalfFov, n, f, Vec4(x, y, f, 1.0));
    OrthographicNear(r, t, n, f, x, y);
    OrthographicFar(r, t, n, f, x, y);
    var qn := Vec4(n * x / r, n * y / t, n, n);
    var qf := Vec4(n * x / r, n * y / t, -f, f);
    var nx, ny := frameWidth as real, frameHeight as real;
    CanonicalToViewportEdges(nx, ny, qn);
    CanonicalToViewportEdges(nx, ny, qf);
    var m := ViewportTransform(frameWidth, frameHeight, tanHalfFov, n, f);
    var pn, pf := Apply(m, Vec4(x, y, n, 1.0)), Apply(m, Vec4(x, y, f, 1.0));
    assert pn == Apply(CanonicalToViewport(nx, ny), qn);
    assert pf == Apply(CanonicalToViewport(nx, ny), qf);
    assert pn.z == n && pn.w == n;
    assert pf.z == -f && pf.w == f;
    CancelFactor(1.0, n);
    CancelFactor(-1.0, f);
  }

  /** The near-plane frustum corners (r, t, n) and (-r, -t, n) land on the
      outer pixel edges: nx - 1/2 and ny - 1/2, and -1/2 and -1/2. */
  lemma ViewportCorners(frameWidth: int, frameHeight: int, tanHalfFov: real, n: real, f: real)
    requires ViewportArgs(frameWidth, frameHeight, tanHalfFov, n, f)
    ensures var m := ViewportTransform(frameWidth, frameHeight, tanHalfFov, n, f);
      var t := HalfHeight(n, tanHalfFov);
      var r := HalfWidth(frameWidth, frameHeight, n, tanHalfFov);
      && Apply(m, Vec4(r, t, n, 1.0)).w == n
      && HNormalized(Apply(m, Vec4(r, t, n, 1.0))) == Vec3(frameWidth as real - 0.5, frameHeight as real - 0.5, 1.0)
      && Apply(m, Vec4(-r, -t, n, 1.0)).w == n
      && HNormalized(Apply(m, Vec4(-r, -t, n, 1.0))) == Vec3(-0.5, -0.5, 1.0)
  {
    var t := HalfHeight(n, tanHalfFov);
    var r := HalfWidth(frameWidth, frameHeight, n, tanHalfFov);
    var nx, ny := frameWidth as real, frameHeight as real;
    CornerImage(frameWidth, frameHeight, tanHalfFov, n, f, 1.0);
    CornerImage(frameWidth, frameHeight, tanHalfFov, n, f, -1.0);
    assert Vec4(1.0 * r, 1.0 * t, n, 1.0) == Vec4(r, t, n, 1.0);
    assert Vec4(-1.0 * r, -1.0 * t, n, 1.0) == Vec4(-r, -t, n, 1.0);
    HNormalizedProperties(Vec4(nx - 0.5, ny - 0.5, 1.0, 1.0), n, Vec3(0.0, 0.0, 0.0));
    HNormalizedProperties(Vec4(-0.5, -0.5, 1.0, 1.0), n, Vec3(0.0, 0.0, 0.0));
  }

  /** The image of the near-plane corner (s r, s t, n), s = +-1, under the
      combined matrix, before the divide: n times the pixel edge. */
  lemma CornerImage(frameWidth: int, frameHeight: int, tanHalfFov: real, n: real, f: real, s: real)
    requires ViewportArgs(frameWidth, frameHeight, tanHalfFov, n, f) && (s == 1.0 || s == -1.0)
    ensures var t := HalfHeight(n, tanHalfFov);
      var r := HalfWidth(frameWidth, frameHeight, n, tanHalfFov);
      var nx, ny := frameWidth as real, frameHeight as real;
      Apply(ViewportTransform(frameWidth, frameHeight, tanHalfFov, n, f), Vec4(s * r, s * t, n, 1.0))
      == ScaleH(Vec4(if s == 1.0 then nx - 0.5 else -0.5, if s == 1.0 then ny - 0.5 else -0.5, 1.0, 1.0), n)
  {
    var t := HalfHeight(n, tanHalfFov);
    var r := HalfWidth(frameWidth, frameHeight, n, tanHalfFov);
    var nx, ny := frameWidth as real, frameHeight as real;
    var p := Vec4(s * r, s * t, n, 1.0);
    var mview := CanonicalToViewport(nx, ny);
    calc {
      Apply(ViewportTransform(frameWidth, frameHeight, tanHalfFov, n, f), p);
    == { ViewportTransformComposition(frameWidth, frameHeight, tanHalfFov, n, f, p); }
      Apply(mview, Apply(Orthographic(r, t, n, f), Apply(Perspective(n, f), p)));
    == { ProjectedCorner(r, t, n, f, s); }
      Apply(mview, Vec4(s * n, s * n, n, n));
    == { ViewportOnCorner(nx, ny, n, s); }
      ScaleH(Vec4(if s == 1.0 then nx - 0.5 else -0.5, if s == 1.0 then ny - 0.5 else -0.5, 1.0, 1.0), n);
    }
  }

  /** P then the orthographic matrix send the near-plane corner (s r, s t, n)
      to n times the canonical corner (s, s, 1). */
  lemma ProjectedCorner(r: real, t: real, n: real, f: real, s: real)
    requires r != 0.0 && t != 0.0 && n != f
    ensures Apply(Orthographic(r, t, n, f), Apply(Perspective(n, f), Vec4(s * r, s * t, n, 1.0)))
            == Vec4(s * n, s * n, n, n)
  {
    OrthographicNear(r, t, n, f, s * r, s * t);
    CancelScaled(n, s, r);
    CancelScaled(n, s, t);
  }

  lemma CancelScaled(n: real, s: real, r: real)
    requires r != 0.0
    ensures n * (s * r) / r == s * n
  {
    assert n * (s * r) == (s * n) * r;
    CancelFactor(s * n, r);
  }

  lemma CancelFactor(a: real, n: real)
    requires n != 0.0
    ensures a * n / n == a
  {
  }

  /** The viewport matrix on n times a canonical corner (s, s), s = +-1. */
  lemma ViewportOnCorner(nx: real, ny: real, n: real, s: real)
    requires s == 1.0 || s == -1.0
    ensures Apply(CanonicalToViewport(nx, ny), Vec4(s * n, s * n, n, n))
      == ScaleH(Vec4(if s == 1.0 then nx - 0.5 else -0.5, if s == 1.0 then ny - 0.5 else -0.5, 1.0, 1.0), n)
  {
  }

  /** P then the orthographic matrix, on a point of the near plane: n times
      the canonical image, whose depth is 1. */
  lemma OrthographicNear(r: real, t: real, n: real, f: real, x: real, y: real)
    requires r != 0.0 && t != 0.0 && n != f
    ensures Apply(Orthographic(r, t, n, f), Apply(Perspective(n, f), Vec4(x, y, n, 1.0)))
            == Vec4(n * x / r, n * y / t, n, n)
  {
    var q := Apply(Perspective(n, f), Vec4(x, y, n, 1.0));
    PerspectiveApply(n, f, Vec4(x, y, n, 1.0));
    assert q.x == n * x && q.y == n * y && q.z == (n + f) * n - n * f * 1.0 && q.w == n;
    OrthographicApply(r, t, n, f, q);
    PlaneDepth(n, f, n, n);
  }

  /** The same on the far plane: f times the canonical image, whose depth
      is -1. */
  lemma OrthographicFar(r: real, t: real, n: real, f: real, x: real, y: real)
    requires r != 0.0 && t != 0.0 && n != f
    ensures Apply(Orthographic(r, t, n, f), Apply(Perspective(n, f), Vec4(x, y, f, 1.0)))
            == Vec4(n * x / r, n * y / t, -f, f)
  {
    var q := Apply(Perspective(n, f), Vec4(x, y, f, 1.0));
    PerspectiveApply(n, f, Vec4(x, y, f, 1.0));
    assert q.x == n * x && q.y == n * y && q.z == (n + f) * f - n * f * 1.0 && q.w == f;
    OrthographicApply(r, t, n, f, q);
    PlaneDepth(n, f, f, -f);
  }

  /** The depth row of the orthographic matrix after P, on the plane z. */
  lemma PlaneDepth(n: real, f: real, z: real, d: real)
    requires n != f && ((z == n && d == n) || (z == f && d == -f))
    ensures (2.0 * ((n + f) * z - n * f * 1.0) - (n + f) * z) / (n - f) == d
  {
    assert 2.0 * ((n + f) * z - n * f * 1.0) - (n + f) * z == d * (n - f);
    CancelFactor(d, n - f);
  }

  lemma PerspectiveApply(n: real, f: real, p: Vec4)
    ensures Apply(Perspective(n, f), p) == Vec4(n * p.x, n * p.y, (n + f) * p.z - n * f * p.w, p.z)
  {
  }

  lemma OrthographicApply(r: real, t: real, n: real, f: real, q: Vec4)
    requires r != 0.0 && t != 0.0 && n != f
    ensures Apply(Orthographic(r, t, n, f), q)
            == Vec4(q.x / r, q.y / t, (2.0 * q.z - (n + f) * q.w) / (n - f), q.w)
  {
    assert (2.0 / (n - f)) * q.z + (-(n + f) / (n - f)) * q.w == (2.0 * q.z - (n + f) * q.w) / (n - f);
  }

  // ---------------------------------------------------------------------
  // Applying a matrix to a block of columns

  predicate DivisibleColumns(m: Mat4, columns: seq<Vec4>) {
    forall j :: 0 <= j < |columns| ==> Apply(m, columns[j]).w != 0.0
  }

  /** `(M * vertices).colwise().hnormalized()`: each column times M, divided
      by its homogeneous coordinate. */
  function TransformVertices(m: Mat4, columns: seq<Vec4>): (r: seq<Vec3>)
    requires DivisibleColumns(m, columns)
    ensures |r| == |columns|
  {
    seq(|columns|, j requires 0 <= j < |columns| => HNormalized(Apply(m, columns[j])))
  }

  /** The transform works column by column: it distributes over
      concatenation, and a column rescaled by a nonzero factor has the same
      image. */
  lemma TransformVerticesColumnwise(m: Mat4, a: seq<Vec4>, b: seq<Vec4>, v: Vec4, k: real)
    requires DivisibleColumns(m, a) && DivisibleColumns(m, b)
    requires Apply(m, v).w != 0.0 && k != 0.0
    ensures DivisibleColumns(m, a + b)
    ensures TransformVertices(m, a + b) == TransformVertices(m, a) + TransformVertices(m, b)
    ensures Apply(m, ScaleH(v, k)).w != 0.0
    ensures TransformVertices(m, [ScaleH(v, k)]) == TransformVertices(m, [v])
  {
    var ab := a + b;
    assert forall j :: 0 <= j < |ab| ==> ab[j] == (if j < |a| then a[j] else b[j - |a|]);
    var mv := Apply(m, v);
    ApplyScaled(m, v, k);
    NonzeroProduct(k, mv.w);
    HNormalizedProperties(mv, k, Vec3(0.0, 0.0, 0.0));
  }

  /** The camera's own origin, pushed through its view matrix, becomes the
      point (0, 0, 0). */
  lemma CameraOriginProjectsToZero(normalize: Vec3 -> Vec3, origin: Vec3, direction: Vec3)
    ensures var m := CameraTransform(normalize, origin, direction);
      DivisibleColumns(m, [Homogeneous(origin)]) &&
      TransformVertices(m, [Homogeneous(origin)]) == [Vec3(0.0, 0.0, 0.0)]
  {
    var m := CameraTransform(normalize, origin, direction);
    CameraOriginToOrigin(normalize, origin, direction, Homogeneous(origin));
    var r := TransformVertices(m, [Homogeneous(origin)]);
    assert r[0] == HNormalized(Vec4(0.0, 0.0, 0.0, 1.0));
  }
}

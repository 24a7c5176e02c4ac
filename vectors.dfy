/** The by-value vector helpers of the renderer: every operation returns a
    modified copy of its argument. Floats are modelled as reals. */
module Vectors {

  datatype Vec2 = Vec2(s: real, t: real)

  datatype Vec3 = Vec3(x: real, y: real, z: real)

  /** `std::min`: the first argument unless the second is strictly smaller. */
  function Min(a: real, b: real): real {
    if b < a then b else a
  }

  /** `std::max`: the first argument unless it is strictly smaller. */
  function Max(a: real, b: real): real {
    if a < b then b else a
  }

  /** The smallest of three values: no larger than each, and one of them. */
  function Min3f(x: real, y: real, z: real): (r: real)
    ensures r <= x && r <= y && r <= z
    ensures r == x || r == y || r == z
  {
    Min(Min(x, y), z)
  }

  /** The largest of three values: no smaller than each, and one of them. */
  function Max3f(x: real, y: real, z: real): (r: real)
    ensures r >= x && r >= y && r >= z
    ensures r == x || r == y || r == z
  {
    Max(Max(x, y), z)
  }

  /** Scaling by 1 is the identity and scaling by 0 gives the origin. */
  function ScaleV2(v: Vec2, scalar: real): (r: Vec2)
    ensures scalar == 1.0 ==> r == v
    ensures scalar == 0.0 ==> r == Vec2(0.0, 0.0)
  {
    v.(s := v.s * scalar, t := v.t * scalar)
  }

  /** The difference is what must be added to v2 to get back v1. */
  function SubtractV3(v1: Vec3, v2: Vec3): (r: Vec3)
    ensures AddV3(r, v2) == v1
  {
    Vec3(v1.x - v2.x, v1.y - v2.y, v1.z - v2.z)
  }

  /** The zero vector is a unit for the sum. */
  function AddV3(v1: Vec3, v2: Vec3): (r: Vec3)
    ensures v2 == Vec3(0.0, 0.0, 0.0) ==> r == v1
    ensures v1 == Vec3(0.0, 0.0, 0.0) ==> r == v2
  {
    Vec3(v1.x + v2.x, v1.y + v2.y, v1.z + v2.z)
  }

  function DotProdV3(v1: Vec3, v2: Vec3): real {
    (v1.x * v2.x) + (v1.y * v2.y) + (v1.z * v2.z)
  }

  /** Scaling by 1 is the identity and scaling by 0 gives the origin. */
  function ScaleV3(v: Vec3, scalar: real): (r: Vec3)
    ensures scalar == 1.0 ==> r == v
    ensures scalar == 0.0 ==> r == Vec3(0.0, 0.0, 0.0)
  {
    v.(x := v.x * scalar, y := v.y * scalar, z := v.z * scalar)
  }

  /** Adding a scalar is adding the vector with that scalar in every
      component. */
  function AddScalarV3(v: Vec3, scalar: real): (r: Vec3)
    ensures r == AddV3(v, Vec3(scalar, scalar, scalar))
  {
    v.(x := v.x + scalar, y := v.y + scalar, z := v.z + scalar)
  }

  /** Caps every component at `thres`: the result never exceeds it, and a
      component already at or below it is kept. */
  function ClipV3(v: Vec3, thres: real): (r: Vec3)
    ensures r.x <= thres && r.y <= thres && r.z <= thres
    ensures v.x <= thres ==> r.x == v.x
    ensures v.y <= thres ==> r.y == v.y
    ensures v.z <= thres ==> r.z == v.z
    ensures v.x > thres ==> r.x == thres
    ensures v.y > thres ==> r.y == thres
    ensures v.z > thres ==> r.z == thres
  {
    v.(x := Min(v.x, thres), y := Min(v.y, thres), z := Min(v.z, thres))
  }

  /** Clipping twice is clipping once. */
  lemma ClipIdempotent(v: Vec3, thres: real)
    ensures ClipV3(ClipV3(v, thres), thres) == ClipV3(v, thres)
  {
  }

  /** Subtraction undoes addition. */
  lemma SubtractUndoesAdd(a: Vec3, b: Vec3)
    ensures SubtractV3(AddV3(a, b), b) == a
  {
  }

  /** The dot product is symmetric, and a vector's dot product with itself
      is never negative. */
  lemma DotProperties(u: Vec3, v: Vec3)
    ensures DotProdV3(u, v) == DotProdV3(v, u)
    ensures DotProdV3(v, v) >= 0.0
  {
    DotSymmetric(u, v);
    SquareNonnegative(v.x);
    SquareNonnegative(v.y);
    SquareNonnegative(v.z);
  }

  lemma DotSymmetric(u: Vec3, v: Vec3)
    ensures DotProdV3(u, v) == DotProdV3(v, u)
  {
  }

  lemma SquareNonnegative(a: real)
    ensures a * a >= 0.0
  {
    if a < 0.0 {
      assert a * a == (-a) * (-a);
    }
  }

  /** Scaling by one is the identity, scalings compose by multiplying the
      factors, and scaling distributes over addition. */
  lemma ScaleV3Properties(u: Vec3, v: Vec3, a: real, b: real)
    ensures ScaleV3(v, 1.0) == v
    ensures ScaleV3(ScaleV3(v, a), b) == ScaleV3(v, a * b)
    ensures ScaleV3(AddV3(u, v), a) == AddV3(ScaleV3(u, a), ScaleV3(v, a))
  {
    ScaleV3Composes(v, a, b);
    ScaleV3Distributes(u, v, a);
  }

  lemma ScaleV3Composes(v: Vec3, a: real, b: real)
    ensures ScaleV3(ScaleV3(v, a), b) == ScaleV3(v, a * b)
  {
    var l, r := ScaleV3(ScaleV3(v, a), b), ScaleV3(v, a * b);
    ScaleTwice(v.x, a, b);
    ScaleTwice(v.y, a, b);
    ScaleTwice(v.z, a, b);
    assert l.x == r.x && l.y == r.y && l.z == r.z;
  }

  lemma ScaleV3Distributes(u: Vec3, v: Vec3, a: real)
    ensures ScaleV3(AddV3(u, v), a) == AddV3(ScaleV3(u, a), ScaleV3(v, a))
  {
    var l, r := ScaleV3(AddV3(u, v), a), AddV3(ScaleV3(u, a), ScaleV3(v, a));
    ScaleSum(u.x, v.x, a);
    ScaleSum(u.y, v.y, a);
    ScaleSum(u.z, v.z, a);
    assert l.x == r.x && l.y == r.y && l.z == r.z;
  }

  lemma ScaleTwice(c: real, a: real, b: real)
    ensures (c * a) * b == c * (a * b)
  {
  }

  lemma ScaleSum(c: real, d: real, a: real)
    ensures (c + d) * a == c * a + d * a
  {
  }

  /** Adding a scalar is adding the vector with that scalar in every
      component. */
  lemma AddScalarIsAddV3(v: Vec3, c: real)
    ensures AddScalarV3(v, c) == AddV3(v, Vec3(c, c, c))
    ensures SubtractV3(AddScalarV3(v, c), v) == Vec3(c, c, c)
  {
  }

  /** Scaling a 2D vector scales both components: by one it is the identity,
      and two scalings compose. */
  lemma ScaleV2Properties(v: Vec2, a: real, b: real)
    ensures ScaleV2(v, 1.0) == v
    ensures ScaleV2(ScaleV2(v, a), b) == ScaleV2(v, a * b)
    ensures ScaleV2(v, a).s == a * v.s && ScaleV2(v, a).t == a * v.t
  {
  }
}

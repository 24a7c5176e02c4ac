/** The triangle scan converter: the vertex coordinates are truncated to
    integers, the bounding box of the three vertices is scanned row by row,
    the edge functions are stepped incrementally, and each pixel strictly
    inside the triangle, inside the frame and nearer than the stored depth
    gets the triangle's flat colour and its interpolated depth. */
module Rasterization {
  import opened CNumeric
  import opened Vectors
  import opened Scene

  // ---------------------------------------------------------------------
  // Edge functions

  /** The implicit line function of the edge from (x0, y0) to (x1, y1),
      evaluated at (x, y); it vanishes at both ends of the edge. */
  function EdgeFunction(x0: int, y0: int, x1: int, y1: int, x: int, y: int): (e: int)
    ensures x == x0 && y == y0 ==> e == 0
    ensures x == x1 && y == y1 ==> e == 0
  {
    (y0 - y1) * x + (x1 - x0) * y + x0 * y1 - x1 * y0
  }

  /** The line function vanishes at both ends of its edge, changes sign when
      the edge is reversed, and steps by y0 - y1 along x and by x1 - x0
      along y. */
  lemma EdgeFunctionProperties(x0: int, y0: int, x1: int, y1: int, x: int, y: int)
    ensures EdgeFunction(x0, y0, x1, y1, x0, y0) == 0
    ensures EdgeFunction(x0, y0, x1, y1, x1, y1) == 0
    ensures EdgeFunction(x1, y1, x0, y0, x, y) == -EdgeFunction(x0, y0, x1, y1, x, y)
    ensures EdgeFunction(x0, y0, x1, y1, x + 1, y) == EdgeFunction(x0, y0, x1, y1, x, y) + (y0 - y1)
    ensures EdgeFunction(x0, y0, x1, y1, x, y + 1) == EdgeFunction(x0, y0, x1, y1, x, y) + (x1 - x0)
  {
  }

  // ---------------------------------------------------------------------
  // Bounding box

  /** `min3f`: the comparisons happen on floats, but each intermediate
      result is stored in an `int`, so it is truncated twice. */
  function Min3fInt(a: real, b: real, c: real): (r: int)
    ensures r <= Trunc(a) && r <= Trunc(b) && r <= Trunc(c)
    ensures r == Trunc(a) || r == Trunc(b) || r == Trunc(c)
  {
    var ab := if a <= b then a else b;
    var first := Trunc(ab);
    TruncOfInt(first);
    TruncMonotone(ab, a);
    TruncMonotone(ab, b);
    var m := if first as real <= c then first as real else c;
    TruncMonotone(m, c);
    TruncMonotone(m, first as real);
    Trunc(m)
  }

  /** `max3f`, with the same two truncations. */
  function Max3fInt(a: real, b: real, c: real): (r: int)
    ensures r >= Trunc(a) && r >= Trunc(b) && r >= Trunc(c)
    ensures r == Trunc(a) || r == Trunc(b) || r == Trunc(c)
  {
    var ab := if a > b then a else b;
    var first := Trunc(ab);
    TruncOfInt(first);
    TruncMonotone(a, ab);
    TruncMonotone(b, ab);
    var m := if first as real > c then first as real else c;
    TruncMonotone(c, m);
    TruncMonotone(first as real, m);
    Trunc(m)
  }

  /** The double truncation does not matter: min3f is the truncated
      minimum, because truncation is monotone. */
  lemma Min3fIntIsTruncatedMin(a: real, b: real, c: real)
    ensures Min3fInt(a, b, c) == Trunc(Min3f(a, b, c))
  {
    var ab := if a <= b then a else b;
    var first := Trunc(ab);
    TruncOfInt(first);
    if first as real <= c {
      if c < ab {
        TruncMonotone(first as real, c);
        TruncMonotone(c, ab);
      }
    } else {
      if ab <= c {
        TruncMonotone(ab, c);
        TruncMonotone(c, first as real);
      }
    }
  }

  /** Likewise max3f is the truncated maximum. */
  lemma Max3fIntIsTruncatedMax(a: real, b: real, c: real)
    ensures Max3fInt(a, b, c) == Trunc(Max3f(a, b, c))
  {
    var ab := if a > b then a else b;
    var first := Trunc(ab);
    TruncOfInt(first);
    if first as real > c {
      if c > ab {
        TruncMonotone(c, first as real);
        TruncMonotone(ab, c);
      }
    } else {
      if ab > c {
        TruncMonotone(c, ab);
        TruncMonotone(first as real, c);
      }
    }
  }

  /** On integral arguments the truncations are exact. */
  lemma BoxOfIntegers(a: int, b: int, c: int)
    ensures Min3fInt(a as real, b as real, c as real) <= a
    ensures Min3fInt(a as real, b as real, c as real) <= b
    ensures Min3fInt(a as real, b as real, c as real) <= c
    ensures Min3fInt(a as real, b as real, c as real) in {a, b, c}
    ensures Max3fInt(a as real, b as real, c as real) >= a
    ensures Max3fInt(a as real, b as real, c as real) >= b
    ensures Max3fInt(a as real, b as real, c as real) >= c
    ensures Max3fInt(a as real, b as real, c as real) in {a, b, c}
  {
    TruncOfInt(a);
    TruncOfInt(b);
    TruncOfInt(c);
  }

  // ---------------------------------------------------------------------
  // The triangle in screen coordinates

  /** The vertex coordinates after the truncating stores into `int`, and the
      flat colour taken from vertex 0's normal. */
  datatype ScreenTri = ScreenTri(x0: int, y0: int, z0: int,
                                 x1: int, y1: int, z1: int,
                                 x2: int, y2: int, z2: int,
                                 red: byte, green: byte, blue: byte)

  /** Unpacking a triangle: positions truncated, colour (n.x, n.y, n.y)
      times 255 stored as bytes (the blue channel repeats n.y). */
  function Unpack(tri: Tri): (s: ScreenTri)
    ensures s.x0 == Trunc(tri.vert0.v.x) && s.y0 == Trunc(tri.vert0.v.y) && s.z0 == Trunc(tri.vert0.v.z)
    ensures s.x1 == Trunc(tri.vert1.v.x) && s.y1 == Trunc(tri.vert1.v.y) && s.z1 == Trunc(tri.vert1.v.z)
    ensures s.x2 == Trunc(tri.vert2.v.x) && s.y2 == Trunc(tri.vert2.v.y) && s.z2 == Trunc(tri.vert2.v.z)
    ensures s.blue == s.green
  {
    ScreenTri(Trunc(tri.vert0.v.x), Trunc(tri.vert0.v.y), Trunc(tri.vert0.v.z),
              Trunc(tri.vert1.v.x), Trunc(tri.vert1.v.y), Trunc(tri.vert1.v.z),
              Trunc(tri.vert2.v.x), Trunc(tri.vert2.v.y), Trunc(tri.vert2.v.z),
              ToByte(tri.vert0.vn.x * 255.0), ToByte(tri.vert0.vn.y * 255.0),
              ToByte(tri.vert0.vn.y * 255.0))
  }

  /** Channel k (0 red, 1 green, 2 blue) of the triangle's colour. */
  function Colour(s: ScreenTri, k: int): byte {
    if k == 0 then s.red else if k == 1 then s.green else s.blue
  }

  /** The bounding box; floor and ceil of an integer are the integer. */
  function XMin(s: ScreenTri): int { Min3fInt(s.x0 as real, s.x1 as real, s.x2 as real) }
  function XMax(s: ScreenTri): int { Max3fInt(s.x0 as real, s.x1 as real, s.x2 as real) }
  function YMin(s: ScreenTri): int { Min3fInt(s.y0 as real, s.y1 as real, s.y2 as real) }
  function YMax(s: ScreenTri): int { Max3fInt(s.y0 as real, s.y1 as real, s.y2 as real) }

  predicate InBox(s: ScreenTri, x: int, y: int) {
    XMin(s) <= x <= XMax(s) && YMin(s) <= y <= YMax(s)
  }

  /** The box is the exact integer bounding box of the three vertices. */
  lemma BoundingBoxExact(s: ScreenTri)
    ensures XMin(s) <= s.x0 && XMin(s) <= s.x1 && XMin(s) <= s.x2
    ensures XMin(s) == s.x0 || XMin(s) == s.x1 || XMin(s) == s.x2
    ensures XMax(s) >= s.x0 && XMax(s) >= s.x1 && XMax(s) >= s.x2
    ensures XMax(s) == s.x0 || XMax(s) == s.x1 || XMax(s) == s.x2
    ensures YMin(s) <= s.y0 && YMin(s) <= s.y1 && YMin(s) <= s.y2
    ensures YMin(s) == s.y0 || YMin(s) == s.y1 || YMin(s) == s.y2
    ensures YMax(s) >= s.y0 && YMax(s) >= s.y1 && YMax(s) >= s.y2
    ensures YMax(s) == s.y0 || YMax(s) == s.y1 || YMax(s) == s.y2
  {
    BoxOfIntegers(s.x0, s.x1, s.x2);
    BoxOfIntegers(s.y0, s.y1, s.y2);
  }

  /** fa, fb and fg: the edge function of each edge at the opposite vertex. */
  function AreaA(s: ScreenTri): int { EdgeFunction(s.x1, s.y1, s.x2, s.y2, s.x0, s.y0) }
  function AreaB(s: ScreenTri): int { EdgeFunction(s.x2, s.y2, s.x0, s.y0, s.x1, s.y1) }
  function AreaG(s: ScreenTri): int { EdgeFunction(s.x0, s.y0, s.x1, s.y1, s.x2, s.y2) }

  /** The edge functions of edges 1-2, 2-0 and 0-1 at a pixel. */
  function D12(s: ScreenTri, x: int, y: int): int { EdgeFunction(s.x1, s.y1, s.x2, s.y2, x, y) }
  function D20(s: ScreenTri, x: int, y: int): int { EdgeFunction(s.x2, s.y2, s.x0, s.y0, x, y) }
  function D01(s: ScreenTri, x: int, y: int): int { EdgeFunction(s.x0, s.y0, s.x1, s.y1, x, y) }

  /** One pixel to the right adds the x coefficients to the edge values,
      one row down the y coefficients. */
  lemma EdgeSteps(s: ScreenTri, x: int, y: int)
    ensures D12(s, x + 1, y) == D12(s, x, y) + (s.y1 - s.y2)
    ensures D20(s, x + 1, y) == D20(s, x, y) + (s.y2 - s.y0)
    ensures D12(s, x, y + 1) == D12(s, x, y) + (s.x2 - s.x1)
    ensures D20(s, x, y + 1) == D20(s, x, y) + (s.x0 - s.x2)
  {
    EdgeFunctionProperties(s.x1, s.y1, s.x2, s.y2, x, y);
    EdgeFunctionProperties(s.x2, s.y2, s.x0, s.y0, x, y);
  }

  /** fa, fb and fg are the same doubled signed area, and the three edge
      functions at any pixel add up to it; this is what makes
      gamma = 1 - (alpha + beta) the third barycentric coordinate. */
  lemma AreasAgree(s: ScreenTri, x: int, y: int)
    ensures AreaA(s) == AreaB(s) == AreaG(s)
    ensures D12(s, x, y) + D20(s, x, y) + D01(s, x, y) == AreaA(s)
  {
  }

  /** The box is never empty, so both loops of the scan run. */
  lemma BoxNonempty(s: ScreenTri)
    ensures XMin(s) <= XMax(s) && YMin(s) <= YMax(s)
  {
    BoundingBoxExact(s);
  }

  // ---------------------------------------------------------------------
  // The inside test and the depth

  /** alpha, beta and gamma from the two stepped edge values. */
  function Barycentric(d12: int, d20: int, fa: int, fb: int): (real, real, real)
    requires fa != 0 && fb != 0
  {
    var alpha := d12 as real / fa as real;
    var beta := d20 as real / fb as real;
    (alpha, beta, 1.0 - (alpha + beta))
  }

  /** The strict inside test. When fa (= fb) is 0, the floating-point
      quotients are infinite or not a number and the test fails, so the
      model makes it false outright. */
  predicate InsideTest(d12: int, d20: int, fa: int, fb: int) {
    fa != 0 && fb != 0 &&
    var (alpha, beta, gamma) := Barycentric(d12, d20, fa, fb);
    alpha > 0.0 && beta > 0.0 && gamma > 0.0
  }

  /** The interpolated depth z0 alpha + z1 beta + z2 gamma. */
  function DepthFrom(s: ScreenTri, d12: int, d20: int, fa: int, fb: int): real
    requires fa != 0 && fb != 0
  {
    var (alpha, beta, gamma) := Barycentric(d12, d20, fa, fb);
    s.z0 as real * alpha + s.z1 as real * beta + s.z2 as real * gamma
  }

  predicate Inside(s: ScreenTri, x: int, y: int) {
    InsideTest(D12(s, x, y), D20(s, x, y), AreaA(s), AreaB(s))
  }

  function Depth(s: ScreenTri, x: int, y: int): real
    requires Inside(s, x, y)
  {
    DepthFrom(s, D12(s, x, y), D20(s, x, y), AreaA(s), AreaB(s))
  }

  /** The division-free form of the test: the pixel is inside exactly when
      the three edge functions are all nonzero with the sign of the area. */
  lemma {:induction false} InsideIff(s: ScreenTri, x: int, y: int)
    ensures Inside(s, x, y) <==>
      var (fa, d12, d20, d01) := (AreaA(s), D12(s, x, y), D20(s, x, y), D01(s, x, y));
      (fa > 0 && d12 > 0 && d20 > 0 && d01 > 0) || (fa < 0 && d12 < 0 && d20 < 0 && d01 < 0)
  {
    AreasAgree(s, x, y);
    var fa, d12, d20, d01 := AreaA(s), D12(s, x, y), D20(s, x, y), D01(s, x, y);
    if fa != 0 {
      SignTest(d12, d20, d01, fa);
    }
  }

  /** With d12 + d20 + d01 == fa != 0, the three quotients by fa are
      positive exactly when all four numbers share a sign. */
  lemma SignTest(d12: int, d20: int, d01: int, fa: int)
    requires fa != 0 && d12 + d20 + d01 == fa
    ensures var (alpha, beta, gamma) := Barycentric(d12, d20, fa, fa);
      (alpha > 0.0 && beta > 0.0 && gamma > 0.0) <==>
      ((fa > 0 && d12 > 0 && d20 > 0 && d01 > 0) || (fa < 0 && d12 < 0 && d20 < 0 && d01 < 0))
  {
    var f := fa as real;
    var alpha, beta := d12 as real / f, d20 as real / f;
    assert alpha * f == d12 as real && beta * f == d20 as real;
    var gamma := 1.0 - (alpha + beta);
    assert gamma * f == d01 as real;
    QuotientSign(d12 as real, f, alpha);
    QuotientSign(d20 as real, f, beta);
    QuotientSign(d01 as real, f, gamma);
  }

  /** q * f == a with f nonzero: q is positive exactly when a and f have
      the same sign. */
  lemma QuotientSign(a: real, f: real, q: real)
    requires f != 0.0 && q * f == a
    ensures q > 0.0 <==> (f > 0.0 && a > 0.0) || (f < 0.0 && a < 0.0)
  {
    if f > 0.0 {
      if q > 0.0 { assert q * f > 0.0; }
      else if q < 0.0 { assert (-q) * f > 0.0; }
    } else {
      if q > 0.0 { assert q * (-f) > 0.0; }
      else if q < 0.0 { assert (-q) * (-f) > 0.0; }
    }
  }

  /** Barycentric reconstruction: fa times a pixel coordinate is the sum of
      the vertex coordinates weighted by the opposite edge functions. */
  lemma Reconstruction(s: ScreenTri, x: int, y: int)
    ensures AreaA(s) * x == D12(s, x, y) * s.x0 + D20(s, x, y) * s.x1 + D01(s, x, y) * s.x2
    ensures AreaA(s) * y == D12(s, x, y) * s.y0 + D20(s, x, y) * s.y1 + D01(s, x, y) * s.y2
  {
    ReconstructX(s.x0, s.y0, s.x1, s.y1, s.x2, s.y2, x, y);
    ReconstructY(s.x0, s.y0, s.x1, s.y1, s.x2, s.y2, x, y);
  }

  lemma ReconstructX(x0: int, y0: int, x1: int, y1: int, x2: int, y2: int, x: int, y: int)
    ensures EdgeFunction(x1, y1, x2, y2, x0, y0) * x ==
      EdgeFunction(x1, y1, x2, y2, x, y) * x0 + EdgeFunction(x2, y2, x0, y0, x, y) * x1
      + EdgeFunction(x0, y0, x1, y1, x, y) * x2
  {
  }

  lemma ReconstructY(x0: int, y0: int, x1: int, y1: int, x2: int, y2: int, x: int, y: int)
    ensures EdgeFunction(x1, y1, x2, y2, x0, y0) * y ==
      EdgeFunction(x1, y1, x2, y2, x, y) * y0 + EdgeFunction(x2, y2, x0, y0, x, y) * y1
      + EdgeFunction(x0, y0, x1, y1, x, y) * y2
  {
  }

  /** A pixel strictly inside the triangle lies in the bounding box, so the
      scan of the box misses no pixel of the triangle. */
  lemma InsideImpliesInBox(s: ScreenTri, x: int, y: int)
    requires Inside(s, x, y)
    ensures InBox(s, x, y)
  {
    InsideIff(s, x, y);
    SignsImplyInBox(s, x, y);
  }

  lemma SignsImplyInBox(s: ScreenTri, x: int, y: int)
    requires var (fa, d12, d20, d01) := (AreaA(s), D12(s, x, y), D20(s, x, y), D01(s, x, y));
      (fa > 0 && d12 > 0 && d20 > 0 && d01 > 0) || (fa < 0 && d12 < 0 && d20 < 0 && d01 < 0)
    ensures InBox(s, x, y)
  {
    AreasAgree(s, x, y);
    BoundingBoxExact(s);
    Reconstruction(s, x, y);
    var fa, d12, d20, d01 := AreaA(s), D12(s, x, y), D20(s, x, y), D01(s, x, y);
    if fa > 0 {
      WeightedBetween(d12, d20, d01, fa, s.x0, s.x1, s.x2, x, XMin(s), XMax(s));
      WeightedBetween(d12, d20, d01, fa, s.y0, s.y1, s.y2, y, YMin(s), YMax(s));
    } else {
      Negated(fa, d12, d20, d01, s.x0, s.x1, s.x2, x);
      Negated(fa, d12, d20, d01, s.y0, s.y1, s.y2, y);
      WeightedBetween(-d12, -d20, -d01, -fa, s.x0, s.x1, s.x2, x, XMin(s), XMax(s));
      WeightedBetween(-d12, -d20, -d01, -fa, s.y0, s.y1, s.y2, y, YMin(s), YMax(s));
    }
  }

  lemma Negated(sum: int, p: int, q: int, r: int, a: int, b: int, c: int, v: int)
    requires sum * v == p * a + q * b + r * c
    ensures (-sum) * v == (-p) * a + (-q) * b + (-r) * c
  {
  }

  /** A positively weighted average of a, b, c lies between their minimum
      and maximum. */
  lemma WeightedBetween(p: int, q: int, r: int, sum: int, a: int, b: int, c: int, v: int, lo: int, hi: int)
    requires p > 0 && q > 0 && r > 0 && sum == p + q + r
    requires sum * v == p * a + q * b + r * c
    requires lo <= a <= hi && lo <= b <= hi && lo <= c <= hi
    ensures lo <= v <= hi
  {
    WeightedAtLeast(p, q, r, sum, a, b, c, v, lo);
    Negated(sum, p, q, r, a, b, c, v);
    NegatedWeights(p, q, r, sum, a, b, c, v);
    WeightedAtLeast(p, q, r, sum, -a, -b, -c, -v, -hi);
  }

  lemma NegatedWeights(p: int, q: int, r: int, sum: int, a: int, b: int, c: int, v: int)
    requires sum * v == p * a + q * b + r * c
    ensures sum * (-v) == p * (-a) + q * (-b) + r * (-c)
  {
    assert sum * (-v) == -(sum * v);
    assert p * (-a) + q * (-b) + r * (-c) == -(p * a + q * b + r * c);
  }

  /** The lower half: the average is at least the smallest of a, b, c. */
  lemma WeightedAtLeast(p: int, q: int, r: int, sum: int, a: int, b: int, c: int, v: int, lo: int)
    requires p > 0 && q > 0 && r > 0 && sum == p + q + r
    requires sum * v == p * a + q * b + r * c
    requires lo <= a && lo <= b && lo <= c
    ensures lo <= v
  {
    Shifted(p, q, r, sum, a, b, c, v, lo);
    MulLeq(p, 0, a - lo); MulLeq(q, 0, b - lo); MulLeq(r, 0, c - lo);
    FactorSign(sum, v - lo);
  }

  /** Subtracting lo from every point subtracts it from the average. */
  lemma Shifted(p: int, q: int, r: int, sum: int, a: int, b: int, c: int, v: int, lo: int)
    requires sum == p + q + r
    requires sum * v == p * a + q * b + r * c
    ensures sum * (v - lo) == p * (a - lo) + q * (b - lo) + r * (c - lo)
  {
    assert sum * (v - lo) == sum * v - sum * lo;
    assert sum * lo == p * lo + q * lo + r * lo;
    assert p * (a - lo) == p * a - p * lo;
    assert q * (b - lo) == q * b - q * lo;
    assert r * (c - lo) == r * c - r * lo;
  }


  // ---------------------------------------------------------------------
  // Pixels, the frame and the per-pixel outcome

  predicate InFrame(w: int, h: int, x: int, y: int) {
    0 <= x < w && 0 <= y < h
  }

  /** `i = frame_width * y + x`, a slot of the depth buffer. */
  function PixelIndex(w: int, h: int, x: int, y: int): (i: int)
    requires InFrame(w, h, x, y)
    ensures 0 <= i < w * h
  {
    MulLeq(w, y, h - 1);
    w * y + x
  }

  /** `3 * i + k`, channel k of a pixel in the colour buffer. */
  function ChannelIndex(w: int, h: int, x: int, y: int, k: int): (j: int)
    requires InFrame(w, h, x, y) && 0 <= k < 3
    ensures 0 <= j < 3 * (w * h)
  {
    3 * PixelIndex(w, h, x, y) + k
  }

  /** Distinct pixels of the frame have distinct slots and channels. */
  lemma PixelIndexInjective(w: int, h: int, x: int, y: int, x': int, y': int)
    requires InFrame(w, h, x, y) && InFrame(w, h, x', y')
    requires PixelIndex(w, h, x, y) == PixelIndex(w, h, x', y')
    ensures x == x' && y == y'
  {
    if y < y' {
      MulLeq(w, y + 1, y');
    } else if y' < y {
      MulLeq(w, y' + 1, y);
    }
  }

  lemma OtherPixels(w: int, h: int, x: int, y: int)
    requires InFrame(w, h, x, y)
    ensures forall x', y' :: InFrame(w, h, x', y') && (x' != x || y' != y) ==>
      PixelIndex(w, h, x', y') != PixelIndex(w, h, x, y)
  {
    forall x', y' | InFrame(w, h, x', y') && PixelIndex(w, h, x', y') == PixelIndex(w, h, x, y)
      ensures x' == x && y' == y
    {
      PixelIndexInjective(w, h, x, y, x', y');
    }
  }

  /** The pixel (x, y) is written when the scan holds the edge values of
      column ex of its row: it is in the scanned box, the edge values say
      strictly inside, it is inside the frame, and the depth they give is
      nearer than the stored one. */
  predicate HitAt(s: ScreenTri, w: int, h: int, x: int, y: int, ex: int, stored: real) {
    InBox(s, x, y) && Inside(s, ex, y) && InFrame(w, h, x, y) && Depth(s, ex, y) < stored
  }

  function NewDepthAt(s: ScreenTri, w: int, h: int, x: int, y: int, ex: int, stored: real): real {
    if HitAt(s, w, h, x, y, ex, stored) then Depth(s, ex, y) else stored
  }

  function NewChannelAt(s: ScreenTri, w: int, h: int, x: int, y: int, ex: int, k: int, stored: real,
                        previous: byte): byte {
    if HitAt(s, w, h, x, y, ex, stored) then Colour(s, k) else previous
  }

  /** The intended outcome: each pixel is tested with its own edge values. */
  predicate Hit(s: ScreenTri, w: int, h: int, x: int, y: int, stored: real) {
    HitAt(s, w, h, x, y, x, stored)
  }

  /** The stored depth after the pixel is processed. */
  function NewDepth(s: ScreenTri, w: int, h: int, x: int, y: int, stored: real): real {
    NewDepthAt(s, w, h, x, y, x, stored)
  }

  /** Channel k of the colour buffer after the pixel is processed. */
  function NewChannel(s: ScreenTri, w: int, h: int, x: int, y: int, k: int, stored: real, previous: byte): byte {
    NewChannelAt(s, w, h, x, y, x, k, stored, previous)
  }

  /** The box test in Hit is implied by the others: a pixel is written
      exactly when it is strictly inside the triangle, in the frame and
      nearer than what is stored. */
  lemma HitIff(s: ScreenTri, w: int, h: int, x: int, y: int, stored: real)
    ensures Hit(s, w, h, x, y, stored) <==>
      Inside(s, x, y) && InFrame(w, h, x, y) && Depth(s, x, y) < stored
  {
    if Inside(s, x, y) {
      InsideImpliesInBox(s, x, y);
    }
  }

  /** Stored depths never increase; a written pixel holds the triangle's
      depth and colour; processing the pixel again with the same edge
      values changes nothing, because the depth test is strict. */
  lemma PixelOutcome(s: ScreenTri, w: int, h: int, x: int, y: int, ex: int, stored: real,
                     previous: byte, k: int)
    ensures NewDepthAt(s, w, h, x, y, ex, stored) <= stored
    ensures NewDepthAt(s, w, h, x, y, ex, stored) != stored ==>
      NewChannelAt(s, w, h, x, y, ex, k, stored, previous) == Colour(s, k)
    ensures var d := NewDepthAt(s, w, h, x, y, ex, stored);
      !HitAt(s, w, h, x, y, ex, d) &&
      NewDepthAt(s, w, h, x, y, ex, d) == d &&
      NewChannelAt(s, w, h, x, y, ex, k, d, NewChannelAt(s, w, h, x, y, ex, k, stored, previous))
        == NewChannelAt(s, w, h, x, y, ex, k, stored, previous)
  {
  }

  /** The depth test makes the outcome independent of the drawing order:
      drawing s then t at a pixel leaves the same depth as t then s, and
      the same colour unless both triangles cover the pixel at one depth. */
  lemma NearerWinsAtPixel(s: ScreenTri, t: ScreenTri, w: int, h: int, x: int, y: int,
                          stored: real, previous: byte, k: int)
    ensures NewDepth(t, w, h, x, y, NewDepth(s, w, h, x, y, stored))
         == NewDepth(s, w, h, x, y, NewDepth(t, w, h, x, y, stored))
    ensures (Inside(s, x, y) && Inside(t, x, y) ==> Depth(s, x, y) != Depth(t, x, y)) ==>
      NewChannel(t, w, h, x, y, k, NewDepth(s, w, h, x, y, stored),
                       NewChannel(s, w, h, x, y, k, stored, previous))
         == NewChannel(s, w, h, x, y, k, NewDepth(t, w, h, x, y, stored),
                       NewChannel(t, w, h, x, y, k, stored, previous))
  {
    HitIff(s, w, h, x, y, stored);
    HitIff(t, w, h, x, y, stored);
    HitIff(s, w, h, x, y, NewDepth(t, w, h, x, y, stored));
    HitIff(t, w, h, x, y, NewDepth(s, w, h, x, y, stored));
  }

  /** The same over whole buffers: drawing s then t with the corrected scan
      leaves the same depth buffer as t then s, and the same colour buffer
      when no pixel is covered by both triangles at one depth. */
  lemma {:induction false} DrawOrderIrrelevant(s: ScreenTri, t: ScreenTri, w: int, h: int,
                                               f0: seq<byte>, d0: seq<real>,
                                               f1: seq<byte>, d1: seq<real>, f2: seq<byte>, d2: seq<real>,
                                               g1: seq<byte>, e1: seq<real>, g2: seq<byte>, e2: seq<real>)
    requires Drawn(s, w, h, false, f1, d1, f0, d0) && Drawn(t, w, h, false, f2, d2, f1, d1)
    requires Drawn(t, w, h, false, g1, e1, f0, d0) && Drawn(s, w, h, false, g2, e2, g1, e1)
    ensures d2 == e2
    ensures (forall x, y | Inside(s, x, y) && Inside(t, x, y) :: Depth(s, x, y) != Depth(t, x, y)) ==> f2 == g2
  {
    forall i | 0 <= i < |d0|
      ensures d2[i] == e2[i]
    {
      if !OffFrameSlot(w, h, i) {
        SlotPixel(w, h, i);
        var x, y := i % w, i / w;
        NearerWinsAtPixel(s, t, w, h, x, y, d0[i], 0, 0);
      }
    }
    if forall x, y | Inside(s, x, y) && Inside(t, x, y) :: Depth(s, x, y) != Depth(t, x, y) {
      forall j | 0 <= j < |f0|
        ensures f2[j] == g2[j]
      {
        if !OffFrameSlot(w, h, j / 3) {
          ChannelPixel(w, h, j);
          var i := j / 3;
          var x, y := i % w, i / w;
          NearerWinsAtPixel(s, t, w, h, x, y, d0[i], f0[j], j % 3);
        }
      }
    }
  }

  /** A pixel on an edge (some edge function zero) is never written. */
  lemma EdgePixelsUntouched(s: ScreenTri, w: int, h: int, x: int, y: int, stored: real)
    requires D12(s, x, y) == 0 || D20(s, x, y) == 0 || D01(s, x, y) == 0
    ensures !Hit(s, w, h, x, y, stored)
    ensures NewDepth(s, w, h, x, y, stored) == stored
  {
    InsideIff(s, x, y);
  }

  // ---------------------------------------------------------------------
  // The scan

  /** Pixel (x', y') comes before pixel (x, y) in the row-by-row scan. */
  predicate Before(x': int, y': int, x: int, y: int) {
    y' < y || (y' == y && x' < x)
  }

  /** A colour buffer of 3 bytes and a depth buffer of one value per pixel. */
  predicate BuffersFit(w: int, h: int, frameLength: int, depthLength: int) {
    w > 0 && h > 0 ==> 3 * (w * h) <= frameLength && w * h <= depthLength
  }

  /** Buffer slot i belongs to no pixel of the frame. */
  predicate OffFrameSlot(w: int, h: int, i: int) {
    !(w > 0 && h > 0 && i < w * h)
  }

  /** The skips in row y before column x in the scan as written: a pixel
      that the scan's edge values call inside but that lies off the frame
      is left with `continue`, which also skips the two edge-value updates,
      so from then on the row is tested with the values of a column one
      further back. */
  function RowLag(s: ScreenTri, w: int, h: int, y: int, x: int): nat
    decreases x - XMin(s)
  {
    if x <= XMin(s) then 0
    else
      var lag := RowLag(s, w, h, y, x - 1);
      if Inside(s, x - 1 - lag, y) && !InFrame(w, h, x - 1, y) then lag + 1 else lag
  }

  /** The column whose edge values the scan holds at pixel (x, y): the
      pixel's own in the intended scan, a lagging one in the scan as
      written. */
  function Column(s: ScreenTri, w: int, h: int, asWritten: bool, x: int, y: int): int {
    if asWritten then x - RowLag(s, w, h, y, x) else x
  }

  /** The scan as written moves on to the next column except after a pixel
      inside the triangle but outside the frame, where it stays. */
  lemma ColumnStep(s: ScreenTri, w: int, h: int, x: int, y: int)
    requires x >= XMin(s)
    ensures var c := Column(s, w, h, true, x, y);
      Column(s, w, h, true, x + 1, y) == if Inside(s, c, y) && !InFrame(w, h, x, y) then c else c + 1
  {
  }

  /** The buffers f, d once every pixel before (x, y) has been processed,
      starting from the colours f0 and depths d0: those pixels hold their
      outcome, the later ones and every slot outside the frame their first
      value. */
  ghost predicate Scanned(s: ScreenTri, w: int, h: int, asWritten: bool, f: seq<byte>, d: seq<real>,
                          f0: seq<byte>, d0: seq<real>, x: int, y: int)
  {
    |f| == |f0| && |d| == |d0| && BuffersFit(w, h, |f0|, |d0|) &&
    (forall x', y' | InFrame(w, h, x', y') ::
      d[PixelIndex(w, h, x', y')] ==
        if Before(x', y', x, y)
        then NewDepthAt(s, w, h, x', y', Column(s, w, h, asWritten, x', y'), d0[PixelIndex(w, h, x', y')])
        else d0[PixelIndex(w, h, x', y')]) &&
    (forall x', y', k | InFrame(w, h, x', y') && 0 <= k < 3 ::
      f[ChannelIndex(w, h, x', y', k)] ==
        if Before(x', y', x, y)
        then NewChannelAt(s, w, h, x', y', Column(s, w, h, asWritten, x', y'), k,
                          d0[PixelIndex(w, h, x', y')], f0[ChannelIndex(w, h, x', y', k)])
        else f0[ChannelIndex(w, h, x', y', k)]) &&
    (forall i | 0 <= i < |d0| && OffFrameSlot(w, h, i) :: d[i] == d0[i]) &&
    (forall j | 0 <= j < |f0| && OffFrameSlot(w, h, j / 3) :: f[j] == f0[j])
  }

  /** Before the scan, the pixels "already scanned" lie outside the box. */
  lemma ScannedStart(s: ScreenTri, w: int, h: int, asWritten: bool, f0: seq<byte>, d0: seq<real>)
    requires BuffersFit(w, h, |f0|, |d0|)
    ensures Scanned(s, w, h, asWritten, f0, d0, f0, d0, XMin(s), YMin(s))
  {
  }

  /** A pixel that is not written moves the scan on by one. */
  lemma ScannedSkip(s: ScreenTri, w: int, h: int, asWritten: bool, f: seq<byte>, d: seq<real>,
                    f0: seq<byte>, d0: seq<real>, x: int, y: int)
    requires Scanned(s, w, h, asWritten, f, d, f0, d0, x, y)
    requires InFrame(w, h, x, y) ==>
      !HitAt(s, w, h, x, y, Column(s, w, h, asWritten, x, y), d[PixelIndex(w, h, x, y)])
    ensures Scanned(s, w, h, asWritten, f, d, f0, d0, x + 1, y)
  {
    forall x', y' | InFrame(w, h, x', y') && Before(x', y', x + 1, y) && !Before(x', y', x, y)
      ensures x' == x && y' == y
    {
    }
  }

  /** Writing the colour and depth of a hit pixel moves the scan on by one. */
  lemma ScannedPlot(s: ScreenTri, w: int, h: int, asWritten: bool, f: seq<byte>, d: seq<real>,
                    f0: seq<byte>, d0: seq<real>, x: int, y: int)
    requires Scanned(s, w, h, asWritten, f, d, f0, d0, x, y)
    requires InFrame(w, h, x, y)
    requires HitAt(s, w, h, x, y, Column(s, w, h, asWritten, x, y), d[PixelIndex(w, h, x, y)])
    ensures var i := PixelIndex(w, h, x, y);
      Scanned(s, w, h, asWritten, f[3 * i := s.red][3 * i + 1 := s.green][3 * i + 2 := s.blue],
              d[i := Depth(s, Column(s, w, h, asWritten, x, y), y)], f0, d0, x + 1, y)
  {
    OtherPixels(w, h, x, y);
  }

  /** After the last column of a row, the rest of the row and the start of
      the next lie outside the box. */
  lemma ScannedNextRow(s: ScreenTri, w: int, h: int, asWritten: bool, f: seq<byte>, d: seq<real>,
                       f0: seq<byte>, d0: seq<real>, y: int)
    requires Scanned(s, w, h, asWritten, f, d, f0, d0, XMax(s) + 1, y)
    ensures Scanned(s, w, h, asWritten, f, d, f0, d0, XMin(s), y + 1)
  {
  }

  /** The buffers f, d after a whole scan from f0, d0: each pixel of the
      frame holds its outcome with the edge values of the column the scan
      holds there (its own column in the intended scan), and no slot
      outside the frame changes. */
  ghost predicate Drawn(s: ScreenTri, w: int, h: int, asWritten: bool, f: seq<byte>, d: seq<real>,
                        f0: seq<byte>, d0: seq<real>)
  {
    |f| == |f0| && |d| == |d0| && BuffersFit(w, h, |f0|, |d0|) &&
    (forall x, y | InFrame(w, h, x, y) ::
      d[PixelIndex(w, h, x, y)] ==
        NewDepthAt(s, w, h, x, y, Column(s, w, h, asWritten, x, y), d0[PixelIndex(w, h, x, y)])) &&
    (forall x, y, k | InFrame(w, h, x, y) && 0 <= k < 3 ::
      f[ChannelIndex(w, h, x, y, k)] ==
        NewChannelAt(s, w, h, x, y, Column(s, w, h, asWritten, x, y), k,
                     d0[PixelIndex(w, h, x, y)], f0[ChannelIndex(w, h, x, y, k)])) &&
    (forall i | 0 <= i < |d0| && OffFrameSlot(w, h, i) :: d[i] == d0[i]) &&
    (forall j | 0 <= j < |f0| && OffFrameSlot(w, h, j / 3) :: f[j] == f0[j])
  }

  /** After the last row every pixel of the frame holds its outcome. */
  lemma ScannedEnd(s: ScreenTri, w: int, h: int, asWritten: bool, f: seq<byte>, d: seq<real>,
                   f0: seq<byte>, d0: seq<real>)
    requires Scanned(s, w, h, asWritten, f, d, f0, d0, XMin(s), YMax(s) + 1)
    ensures Drawn(s, w, h, asWritten, f, d, f0, d0)
  {
  }

  /** The depth a whole scan leaves at one pixel. */
  lemma DrawnDepth(s: ScreenTri, w: int, h: int, asWritten: bool, f: seq<byte>, d: seq<real>,
                   f0: seq<byte>, d0: seq<real>, x: int, y: int)
    requires Drawn(s, w, h, asWritten, f, d, f0, d0) && InFrame(w, h, x, y)
    ensures d[PixelIndex(w, h, x, y)] ==
      NewDepthAt(s, w, h, x, y, Column(s, w, h, asWritten, x, y), d0[PixelIndex(w, h, x, y)])
  {
  }

  /** Slot i of a w by h frame is the slot of pixel (i % w, i / w). */
  lemma SlotPixel(w: int, h: int, i: int)
    requires w > 0 && h > 0 && 0 <= i < w * h
    ensures InFrame(w, h, i % w, i / w) && PixelIndex(w, h, i % w, i / w) == i
  {
    var q := i / w;
    assert w * q + i % w == i;
    if q >= h {
      MulLeq(w, h, q);
    }
  }

  /** Colour byte j of a w by h frame is channel j % 3 of the pixel of
      slot j / 3. */
  lemma ChannelPixel(w: int, h: int, j: int)
    requires w > 0 && h > 0 && 0 <= j / 3 < w * h
    ensures var i := j / 3;
      InFrame(w, h, i % w, i / w) && ChannelIndex(w, h, i % w, i / w, j % 3) == j
  {
    SlotPixel(w, h, j / 3);
  }

  /** What a whole scan does to the buffers: no depth increases, every
      colour byte that changes takes the triangle's flat colour for its
      channel (red, green, then green again for blue), and a triangle whose
      box misses the frame changes nothing. */
  lemma {:induction false} DrawnEffect(s: ScreenTri, w: int, h: int, asWritten: bool, f: seq<byte>,
                                       d: seq<real>, f0: seq<byte>, d0: seq<real>)
    requires Drawn(s, w, h, asWritten, f, d, f0, d0)
    ensures forall i | 0 <= i < |d0| :: d[i] <= d0[i]
    ensures forall j | 0 <= j < |f0| && f[j] != f0[j] :: f[j] == Colour(s, j % 3)
    ensures XMax(s) < 0 || YMax(s) < 0 || XMin(s) >= w || YMin(s) >= h ==> f == f0 && d == d0
  {
    var outside := XMax(s) < 0 || YMax(s) < 0 || XMin(s) >= w || YMin(s) >= h;
    forall i | 0 <= i < |d0|
      ensures d[i] <= d0[i] && (outside ==> d[i] == d0[i])
    {
      if !OffFrameSlot(w, h, i) {
        SlotPixel(w, h, i);
        var x, y := i % w, i / w;
        PixelOutcome(s, w, h, x, y, Column(s, w, h, asWritten, x, y), d0[i], 0, 0);
      }
    }
    forall j | 0 <= j < |f0|
      ensures f[j] != f0[j] ==> f[j] == Colour(s, j % 3)
      ensures outside ==> f[j] == f0[j]
    {
      if !OffFrameSlot(w, h, j / 3) {
        ChannelPixel(w, h, j);
        var i := j / 3;
        var x, y := i % w, i / w;
        PixelOutcome(s, w, h, x, y, Column(s, w, h, asWritten, x, y), d0[i], f0[j], j % 3);
      }
    }
    if outside {
      assert d == d0;
      assert f == f0;
    }
  }

  /** Drawing the same triangle twice leaves both buffers as after the
      first drawing: a pixel the first drawing wrote now fails the strict
      depth test, and one it did not write fails again. */
  lemma {:induction false} DrawTwice(s: ScreenTri, w: int, h: int, asWritten: bool,
                                     f0: seq<byte>, d0: seq<real>, f1: seq<byte>, d1: seq<real>,
                                     f2: seq<byte>, d2: seq<real>)
    requires Drawn(s, w, h, asWritten, f1, d1, f0, d0)
    requires Drawn(s, w, h, asWritten, f2, d2, f1, d1)
    ensures f2 == f1 && d2 == d1
  {
    forall i | 0 <= i < |d1|
      ensures d2[i] == d1[i]
    {
      if !OffFrameSlot(w, h, i) {
        SlotPixel(w, h, i);
        var x, y := i % w, i / w;
        PixelOutcome(s, w, h, x, y, Column(s, w, h, asWritten, x, y), d0[i], 0, 0);
      }
    }
    forall j | 0 <= j < |f1|
      ensures f2[j] == f1[j]
    {
      if !OffFrameSlot(w, h, j / 3) {
        ChannelPixel(w, h, j);
        var i := j / 3;
        var x, y := i % w, i / w;
        PixelOutcome(s, w, h, x, y, Column(s, w, h, asWritten, x, y), d0[i], f0[j], j % 3);
      }
    }
  }

  /** Rasterize one triangle into the colour and depth buffers of a
      frame_width by frame_height frame: every pixel of the frame ends with
      its intended outcome NewDepth / NewChannel for the triangle, and no
      slot outside the frame changes. */
  method RasterizeTriangle(frameWidth: int, frameHeight: int, frameBuffer: array<byte>,
                           depthBuffer: array<real>, tri: Tri)
    requires BuffersFit(frameWidth, frameHeight, frameBuffer.Length, depthBuffer.Length)
    modifies frameBuffer, depthBuffer
    ensures Drawn(Unpack(tri), frameWidth, frameHeight, false, frameBuffer[..], depthBuffer[..],
                  old(frameBuffer[..]), old(depthBuffer[..]))
  {
    var s := Unpack(tri);
    BoxNonempty(s);
    var xMin, xMax, yMin, yMax := XMin(s), XMax(s), YMin(s), YMax(s);
    var fa, fb := AreaA(s), AreaB(s);
    // the changes of the two edge values per step along x and along y
    var d12XUpdate, d20XUpdate := s.y1 - s.y2, s.y2 - s.y0;
    var d12YUpdate, d20YUpdate := s.x2 - s.x1, s.x0 - s.x2;
    var d12 := EdgeFunction(s.x1, s.y1, s.x2, s.y2, xMin, yMin);
    var d20 := EdgeFunction(s.x2, s.y2, s.x0, s.y0, xMin, yMin);
    ghost var f0, d0 := frameBuffer[..], depthBuffer[..];
    ScannedStart(s, frameWidth, frameHeight, false, f0, d0);
    for y := yMin to yMax + 1
      invariant d12 == D12(s, xMin, y) && d20 == D20(s, xMin, y)
      invariant Scanned(s, frameWidth, frameHeight, false, frameBuffer[..], depthBuffer[..], f0, d0, xMin, y)
    {
      ScanRow(s, frameWidth, frameHeight, frameBuffer, depthBuffer, y, fa, fb, d12, d20, d12XUpdate, d20XUpdate, f0, d0);
      ScannedNextRow(s, frameWidth, frameHeight, false, frameBuffer[..], depthBuffer[..], f0, d0, y);
      EdgeSteps(s, xMin, y);
      d12 := d12 + d12YUpdate;
      d20 := d20 + d20YUpdate;
    }
    ScannedEnd(s, frameWidth, frameHeight, false, frameBuffer[..], depthBuffer[..], f0, d0);
  }

  /** The depth test of one pixel inside the frame whose edge values are
      those of column ex: a nearer depth overwrites the pixel's three colour
      bytes and its depth, a farther one leaves both buffers alone. */
  method PlotIfNearer(s: ScreenTri, frameWidth: int, frameHeight: int, frameBuffer: array<byte>,
                      depthBuffer: array<real>, asWritten: bool, x: int, y: int, z: real,
                      ghost f0: seq<byte>, ghost d0: seq<real>)
    requires Scanned(s, frameWidth, frameHeight, asWritten, frameBuffer[..], depthBuffer[..], f0, d0, x, y)
    requires InBox(s, x, y) && InFrame(frameWidth, frameHeight, x, y)
    requires Inside(s, Column(s, frameWidth, frameHeight, asWritten, x, y), y)
    requires z == Depth(s, Column(s, frameWidth, frameHeight, asWritten, x, y), y)
    modifies frameBuffer, depthBuffer
    ensures Scanned(s, frameWidth, frameHeight, asWritten, frameBuffer[..], depthBuffer[..], f0, d0, x + 1, y)
  {
    ghost var f, d := frameBuffer[..], depthBuffer[..];
    var i := PixelIndex(frameWidth, frameHeight, x, y);
    if z < depthBuffer[i] {
      frameBuffer[3 * i] := s.red;
      frameBuffer[3 * i + 1] := s.green;
      frameBuffer[3 * i + 2] := s.blue;
      depthBuffer[i] := z;
      ScannedPlot(s, frameWidth, frameHeight, asWritten, f, d, f0, d0, x, y);
    } else {
      ScannedSkip(s, frameWidth, frameHeight, asWritten, f, d, f0, d0, x, y);
    }
  }

  /** One row of the scan: pixels x_min .. x_max of row y, starting from the
      edge values of column x_min and stepping them along the row. */
  method ScanRow(s: ScreenTri, frameWidth: int, frameHeight: int, frameBuffer: array<byte>,
                 depthBuffer: array<real>, y: int, fa: int, fb: int, d12: int, d20: int,
                 d12XUpdate: int, d20XUpdate: int, ghost f0: seq<byte>, ghost d0: seq<real>)
    requires fa == AreaA(s) && fb == AreaB(s)
    requires d12XUpdate == s.y1 - s.y2 && d20XUpdate == s.y2 - s.y0
    requires d12 == D12(s, XMin(s), y) && d20 == D20(s, XMin(s), y)
    requires XMin(s) <= XMax(s) && YMin(s) <= y <= YMax(s)
    requires Scanned(s, frameWidth, frameHeight, false, frameBuffer[..], depthBuffer[..], f0, d0, XMin(s), y)
    modifies frameBuffer, depthBuffer
    ensures Scanned(s, frameWidth, frameHeight, false, frameBuffer[..], depthBuffer[..], f0, d0, XMax(s) + 1, y)
  {
    var newD12, newD20 := d12, d20;
    for x := XMin(s) to XMax(s) + 1
      invariant newD12 == D12(s, x, y) && newD20 == D20(s, x, y)
      invariant Scanned(s, frameWidth, frameHeight, false, frameBuffer[..], depthBuffer[..], f0, d0, x, y)
    {
      if InsideTest(newD12, newD20, fa, fb) && InFrame(frameWidth, frameHeight, x, y) {
        var z := DepthFrom(s, newD12, newD20, fa, fb);
        PlotIfNearer(s, frameWidth, frameHeight, frameBuffer, depthBuffer, false, x, y, z, f0, d0);
      } else {
        ScannedSkip(s, frameWidth, frameHeight, false, frameBuffer[..], depthBuffer[..], f0, d0, x, y);
      }
      EdgeSteps(s, x, y);
      newD12 := newD12 + d12XUpdate;
      newD20 := newD20 + d20XUpdate;
    }
  }

  // ---------------------------------------------------------------------
  // The scan as written, with the border test's `continue`

  /** RasterizeTriangle as the source has it: an inside pixel off the frame
      is left with `continue`, past the two edge-value updates. Every pixel
      ends with the outcome for the lagging column the scan holds there. */
  method RasterizeTriangleAsWritten(frameWidth: int, frameHeight: int, frameBuffer: array<byte>,
                                    depthBuffer: array<real>, tri: Tri)
    requires BuffersFit(frameWidth, frameHeight, frameBuffer.Length, depthBuffer.Length)
    modifies frameBuffer, depthBuffer
    ensures Drawn(Unpack(tri), frameWidth, frameHeight, true, frameBuffer[..], depthBuffer[..],
                  old(frameBuffer[..]), old(depthBuffer[..]))
  {
    var s := Unpack(tri);
    BoxNonempty(s);
    var xMin, xMax, yMin, yMax := XMin(s), XMax(s), YMin(s), YMax(s);
    var fa, fb := AreaA(s), AreaB(s);
    var d12XUpdate, d20XUpdate := s.y1 - s.y2, s.y2 - s.y0;
    var d12YUpdate, d20YUpdate := s.x2 - s.x1, s.x0 - s.x2;
    var d12 := EdgeFunction(s.x1, s.y1, s.x2, s.y2, xMin, yMin);
    var d20 := EdgeFunction(s.x2, s.y2, s.x0, s.y0, xMin, yMin);
    ghost var f0, d0 := frameBuffer[..], depthBuffer[..];
    ScannedStart(s, frameWidth, frameHeight, true, f0, d0);
    for y := yMin to yMax + 1
      invariant d12 == D12(s, xMin, y) && d20 == D20(s, xMin, y)
      invariant Scanned(s, frameWidth, frameHeight, true, frameBuffer[..], depthBuffer[..], f0, d0, xMin, y)
    {
      ScanRowAsWritten(s, frameWidth, frameHeight, frameBuffer, depthBuffer, y, fa, fb, d12, d20,
                       d12XUpdate, d20XUpdate, f0, d0);
      ScannedNextRow(s, frameWidth, frameHeight, true, frameBuffer[..], depthBuffer[..], f0, d0, y);
      EdgeSteps(s, xMin, y);
      d12 := d12 + d12YUpdate;
      d20 := d20 + d20YUpdate;
    }
    ScannedEnd(s, frameWidth, frameHeight, true, frameBuffer[..], depthBuffer[..], f0, d0);
  }

  /** One row of the scan as written: the edge values fall one column
      behind at each skipped pixel. */
  method ScanRowAsWritten(s: ScreenTri, frameWidth: int, frameHeight: int, frameBuffer: array<byte>,
                          depthBuffer: array<real>, y: int, fa: int, fb: int, d12: int, d20: int,
                          d12XUpdate: int, d20XUpdate: int, ghost f0: seq<byte>, ghost d0: seq<real>)
    requires fa == AreaA(s) && fb == AreaB(s)
    requires d12XUpdate == s.y1 - s.y2 && d20XUpdate == s.y2 - s.y0
    requires d12 == D12(s, XMin(s), y) && d20 == D20(s, XMin(s), y)
    requires XMin(s) <= XMax(s) && YMin(s) <= y <= YMax(s)
    requires Scanned(s, frameWidth, frameHeight, true, frameBuffer[..], depthBuffer[..], f0, d0, XMin(s), y)
    modifies frameBuffer, depthBuffer
    ensures Scanned(s, frameWidth, frameHeight, true, frameBuffer[..], depthBuffer[..], f0, d0, XMax(s) + 1, y)
  {
    var newD12, newD20 := d12, d20;
    for x := XMin(s) to XMax(s) + 1
      invariant newD12 == D12(s, Column(s, frameWidth, frameHeight, true, x, y), y)
      invariant newD20 == D20(s, Column(s, frameWidth, frameHeight, true, x, y), y)
      invariant Scanned(s, frameWidth, frameHeight, true, frameBuffer[..], depthBuffer[..], f0, d0, x, y)
    {
      ghost var column := Column(s, frameWidth, frameHeight, true, x, y);
      ColumnStep(s, frameWidth, frameHeight, x, y);
      if InsideTest(newD12, newD20, fa, fb) {
        if x < 0 || y < 0 || x >= frameWidth || y >= frameHeight {
          ScannedSkip(s, frameWidth, frameHeight, true, frameBuffer[..], depthBuffer[..], f0, d0, x, y);
          continue;
        }
        var z := DepthFrom(s, newD12, newD20, fa, fb);
        PlotIfNearer(s, frameWidth, frameHeight, frameBuffer, depthBuffer, true, x, y, z, f0, d0);
      } else {
        ScannedSkip(s, frameWidth, frameHeight, true, frameBuffer[..], depthBuffer[..], f0, d0, x, y);
      }
      EdgeSteps(s, column, y);
      newD12 := newD12 + d12XUpdate;
      newD20 := newD20 + d20XUpdate;
    }
  }

  /** A triangle reaching left of the frame: vertices (-2, -2), (4, -2)
      and (-2, 4) at depth 0. */
  function LeftOverhang(): ScreenTri {
    ScreenTri(-2, -2, 0, 4, -2, 0, -2, 4, 0, 255, 255, 255)
  }

  /** In a 4 by 4 frame, pixel (2, 0) lies on the edge from (4, -2) to
      (-2, 4), so the intended scan leaves it alone. */
  lemma IntendedScanSkipsEdgePixel(f: seq<byte>, d: seq<real>, f0: seq<byte>, d0: seq<real>)
    requires |d0| == 16 && d0[2] == 1.0
    ensures D12(LeftOverhang(), 2, 0) == 0
    ensures Drawn(LeftOverhang(), 4, 4, false, f, d, f0, d0) ==> d[2] == 1.0
  {
    var s := LeftOverhang();
    assert D12(s, 2, 0) == 0;
    if Drawn(s, 4, 4, false, f, d, f0, d0) {
      DrawnDepth(s, 4, 4, false, f, d, f0, d0, 2, 0);
      EdgePixelsUntouched(s, 4, 4, 2, 0, 1.0);
    }
  }

  /** The scan as written has skipped pixel (-1, 0) of row 0 when it
      reaches (2, 0), tests it with the edge values of (1, 0), and draws
      it. */
  lemma LaggingScanDrawsEdgePixel(f: seq<byte>, d: seq<real>, f0: seq<byte>, d0: seq<real>)
    requires |d0| == 16 && d0[2] == 1.0
    ensures Drawn(LeftOverhang(), 4, 4, true, f, d, f0, d0) ==> d[2] == 0.0
  {
    var s := LeftOverhang();
    if Drawn(s, 4, 4, true, f, d, f0, d0) {
      DrawnDepth(s, 4, 4, true, f, d, f0, d0, 2, 0);
      LeftOverhangLag();
      LeftOverhangHit();
    }
  }

  /** With the edge values of (1, 0), pixel (2, 0) passes every test. */
  lemma LeftOverhangHit()
    ensures HitAt(LeftOverhang(), 4, 4, 2, 0, 1, 1.0)
    ensures Depth(LeftOverhang(), 1, 0) == 0.0
  {
    LeftOverhangBox();
    LeftOverhangInside();
    LeftOverhangDepth();
  }

  lemma LeftOverhangBox()
    ensures InBox(LeftOverhang(), 2, 0)
  {
    BoundingBoxExact(LeftOverhang());
  }

  lemma LeftOverhangDepth()
    ensures Inside(LeftOverhang(), 1, 0) && Depth(LeftOverhang(), 1, 0) == 0.0
  {
    var s := LeftOverhang();
    LeftOverhangInside();
    FlatDepth(s, D12(s, 1, 0), D20(s, 1, 0), AreaA(s), AreaB(s));
  }

  /** A triangle at depth 0 everywhere has interpolated depth 0. */
  lemma FlatDepth(s: ScreenTri, d12: int, d20: int, fa: int, fb: int)
    requires s.z0 == 0 && s.z1 == 0 && s.z2 == 0 && fa != 0 && fb != 0
    ensures DepthFrom(s, d12, d20, fa, fb) == 0.0
  {
  }

  /** The pixels of row 0 that the edge values call inside: not (-2, 0),
      which is on the edge from (-2, 4) to (-2, -2), but (-1, 0) and (1, 0). */
  lemma LeftOverhangInside()
    ensures !Inside(LeftOverhang(), -2, 0)
    ensures Inside(LeftOverhang(), -1, 0) && Inside(LeftOverhang(), 1, 0)
  {
    var s := LeftOverhang();
    assert AreaA(s) == 36 && AreaB(s) == 36;
    assert D20(s, -2, 0) == 0;
    assert D12(s, -1, 0) == 18 && D20(s, -1, 0) == 6;
    assert InsideTest(18, 6, 36, 36);
    assert D12(s, 1, 0) == 6 && D20(s, 1, 0) == 18;
    assert InsideTest(6, 18, 36, 36);
  }

  /** Row 0 skips pixel (-1, 0) and nothing else before column 2. */
  lemma LeftOverhangLag()
    ensures RowLag(LeftOverhang(), 4, 4, 0, 2) == 1
  {
    var s := LeftOverhang();
    LeftOverhangInside();
    assert RowLag(s, 4, 4, 0, -1) == 0;
    assert RowLag(s, 4, 4, 0, 0) == 1;
    assert RowLag(s, 4, 4, 0, 1) == 1;
  }

  /** Only pixels left of the frame make the scan lag: a row whose box
      starts inside the frame never skips an inside pixel before reaching
      the frame's right border. */
  lemma {:induction false} NoLagInsideFrame(s: ScreenTri, w: int, h: int, x: int, y: int)
    requires XMin(s) >= 0 && 0 <= y < h && x <= w
    ensures RowLag(s, w, h, y, x) == 0
    decreases x - XMin(s)
  {
    if x > XMin(s) {
      NoLagInsideFrame(s, w, h, x - 1, y);
      assert InFrame(w, h, x - 1, y);
    }
  }

  /** When the box does not reach left of the frame, the scan as written
      and the intended scan draw the same. */
  lemma AsWrittenAgreesInsideFrame(s: ScreenTri, w: int, h: int, f: seq<byte>, d: seq<real>,
                                   f0: seq<byte>, d0: seq<real>)
    requires XMin(s) >= 0
    ensures Drawn(s, w, h, true, f, d, f0, d0) <==> Drawn(s, w, h, false, f, d, f0, d0)
  {
    forall x, y | InFrame(w, h, x, y)
      ensures Column(s, w, h, true, x, y) == x
    {
      NoLagInsideFrame(s, w, h, x, y);
    }
  }
}

/** The utilities of utilities.c: the quad test, the OBJ importer that
    assembles faces into triangles carrying their corners by value, the
    frame and its clearing, and the small struct builders. The OBJ lines are
    the scanned records of the mesh loader. */
module Utilities {
  import opened CNumeric
  import opened Vectors
  import opened Matrices
  import opened Scene
  import opened Buffers
  import opened MeshImport

  // ---------------------------------------------------------------------
  // The quad test

  /** is_quad: a line is a quad exactly when it holds four spaces. */
  method IsQuad(text: string) returns (quad: bool)
    ensures quad <==> Spaces(text) == 4
  {
    var count := 0;
    for i := 0 to |text|
      invariant count == multiset(text[..i])[' ']
    {
      if text[i] == ' ' {
        count := count + 1;
      }
      assert text[..i + 1] == text[..i] + [text[i]];
    }
    assert text[..|text|] == text;
    quad := count == 4;
  }

  // ---------------------------------------------------------------------
  // import_OBJ

  /** The four growing lists of import_OBJ: positions, texture coordinates,
      normals and the assembled triangles. */
  datatype Geometry = Geometry(v: seq<Vec3>, vt: seq<Vec2>, vn: seq<Vec3>, f: seq<Tri>)

  /** The 1-based indices of a corner name entries read so far. */
  predicate CornerFits(g: Geometry, c: Corner) {
    1 <= c.v <= |g.v| && 1 <= c.vt <= |g.vt| && 1 <= c.vn <= |g.vn|
  }

  /** A face line reads its three corners, and its fourth when it is a quad,
      from the lists read so far; other lines read nothing. */
  predicate LineFits(g: Geometry, l: ObjLine) {
    KindOf(l.text) == FaceLine ==>
      CornerFits(g, l.c0) && CornerFits(g, l.c1) && CornerFits(g, l.c2) &&
      (Spaces(l.text) == 4 ==> CornerFits(g, l.c3))
  }

  /** The vertex a corner names: `v[i - 1]`, `vt[j - 1]`, `vn[k - 1]`. */
  function CornerVertex(g: Geometry, c: Corner): Vertex
    requires CornerFits(g, c)
  {
    Vertex(g.v[c.v - 1], g.vt[c.vt - 1], g.vn[c.vn - 1])
  }

  /** What one line does to the lists: the same if / else-if chain as the
      mesh loader's second pass; a face line without four spaces pushes the
      triangle (0, 1, 2), a quad pushes (2, 0, 3) and then (0, 1, 2). */
  function Step(g: Geometry, l: ObjLine): (r: Geometry)
    requires LineFits(g, l)
    ensures g.v <= r.v && g.vt <= r.vt && g.vn <= r.vn && g.f <= r.f
    ensures |r.v| + |r.vt| + |r.vn| <= |g.v| + |g.vt| + |g.vn| + 1
    ensures |r.f| <= |g.f| + 2
  {
    match KindOf(l.text)
    case VertexLine => g.(v := g.v + [Vec3(l.x, l.y, l.z)])
    case TexcoordLine => g.(vt := g.vt + [Vec2(l.x, l.y)])
    case NormalLine => g.(vn := g.vn + [Vec3(l.x, l.y, l.z)])
    case FaceLine =>
      var vertex0, vertex1, vertex2 := CornerVertex(g, l.c0), CornerVertex(g, l.c1), CornerVertex(g, l.c2);
      if Spaces(l.text) != 4 then g.(f := g.f + [Tri(vertex0, vertex1, vertex2)])
      else g.(f := g.f + [Tri(vertex2, vertex0, CornerVertex(g, l.c3)), Tri(vertex0, vertex1, vertex2)])
    case OtherLine => g
  }

  /** Every face line of ls names only entries read before it. */
  predicate WellFormed(ls: seq<ObjLine>)
    decreases |ls|, 0
  {
    ls == [] || (WellFormed(ls[..|ls| - 1]) && LineFits(Import(ls[..|ls| - 1]), ls[|ls| - 1]))
  }

  /** The lists after reading ls. */
  function Import(ls: seq<ObjLine>): (r: Geometry)
    requires WellFormed(ls)
    ensures |r.v| + |r.vt| + |r.vn| <= |ls|
    ensures |r.f| <= 2 * |ls|
    decreases |ls|, 1
  {
    if ls == [] then Geometry([], [], [], [])
    else Step(Import(ls[..|ls| - 1]), ls[|ls| - 1])
  }

  /** A prefix of a well-formed file is well formed. */
  lemma {:induction false} WellFormedPrefix(ls: seq<ObjLine>, k: nat)
    requires WellFormed(ls) && k <= |ls|
    ensures WellFormed(ls[..k])
    decreases |ls|
  {
    if k < |ls| {
      var init := ls[..|ls| - 1];
      assert init[..k] == ls[..k];
      WellFormedPrefix(init, k);
    } else {
      assert ls[..k] == ls;
    }
  }

  /** Reading one more line of a well-formed file is one `Step`. */
  lemma ImportStep(ls: seq<ObjLine>, k: nat)
    requires WellFormed(ls) && k < |ls|
    ensures WellFormed(ls[..k]) && LineFits(Import(ls[..k]), ls[k])
    ensures WellFormed(ls[..k + 1]) && Import(ls[..k + 1]) == Step(Import(ls[..k]), ls[k])
  {
    WellFormedPrefix(ls, k + 1);
    assert ls[..k + 1][..k] == ls[..k];
  }

  /** import_OBJ: reads the lines in order and returns the triangles. */
  method ImportObj(lines: seq<ObjLine>) returns (f: seq<Tri>)
    requires WellFormed(lines)
    ensures f == Import(lines).f
  {
    var v: seq<Vec3>, vn: seq<Vec3>, vt: seq<Vec2> := [], [], [];
    f := [];
    for k := 0 to |lines|
      invariant WellFormed(lines[..k])
      invariant Geometry(v, vt, vn, f) == Import(lines[..k])
    {
      ImportStep(lines, k);
      var line := lines[k];
      match KindOf(line.text)
      case VertexLine =>
        v := v + [Vec3(line.x, line.y, line.z)];
      case TexcoordLine =>
        vt := vt + [Vec2(line.x, line.y)];
      case NormalLine =>
        vn := vn + [Vec3(line.x, line.y, line.z)];
      case FaceLine =>
        f := PushFace(v, vt, vn, f, line);
      case OtherLine =>
    }
    assert lines[..|lines|] == lines;
  }

  /** The face branch of import_OBJ: resolve the corners against the
      lists read so far and push one triangle, or two for a quad. */
  method PushFace(v: seq<Vec3>, vt: seq<Vec2>, vn: seq<Vec3>, f: seq<Tri>, line: ObjLine)
    returns (f': seq<Tri>)
    requires KindOf(line.text) == FaceLine && LineFits(Geometry(v, vt, vn, f), line)
    ensures Geometry(v, vt, vn, f') == Step(Geometry(v, vt, vn, f), line)
  {
    var quad := IsQuad(line.text);
    var vertex0 := Vertex(v[line.c0.v - 1], vt[line.c0.vt - 1], vn[line.c0.vn - 1]);
    var vertex1 := Vertex(v[line.c1.v - 1], vt[line.c1.vt - 1], vn[line.c1.vn - 1]);
    var vertex2 := Vertex(v[line.c2.v - 1], vt[line.c2.vt - 1], vn[line.c2.vn - 1]);
    if !quad {
      f' := f + [Tri(vertex0, vertex1, vertex2)];
    } else {
      var vertex3 := Vertex(v[line.c3.v - 1], vt[line.c3.vt - 1], vn[line.c3.vn - 1]);
      f' := f + [Tri(vertex2, vertex0, vertex3)];
      f' := f' + [Tri(vertex0, vertex1, vertex2)];
    }
  }

  /** The lists only grow: reading more lines keeps every entry already
      read, in place. */
  lemma {:induction false} ImportGrows(ls: seq<ObjLine>, k: nat)
    requires WellFormed(ls) && k <= |ls|
    ensures WellFormed(ls[..k])
    ensures var g, h := Import(ls[..k]), Import(ls);
      g.v <= h.v && g.vt <= h.vt && g.vn <= h.vn && g.f <= h.f
    decreases |ls|
  {
    WellFormedPrefix(ls, k);
    if k < |ls| {
      var init := ls[..|ls| - 1];
      assert init[..k] == ls[..k];
      ImportGrows(init, k);
    } else {
      assert ls[..k] == ls;
    }
  }

  /** The position, texture-coordinate and normal lists are the mesh
      loader's columns: the same entries in the same order, positions and
      normals without the homogeneous coordinate. */
  lemma {:induction false} ImportColumns(ls: seq<ObjLine>)
    requires WellFormed(ls)
    ensures |Import(ls).v| == |VertexColumns(ls)|
    ensures forall i :: 0 <= i < |VertexColumns(ls)| ==>
      Homogeneous(Import(ls).v[i]) == VertexColumns(ls)[i]
    ensures Import(ls).vt == TexcoordColumns(ls)
    ensures |Import(ls).vn| == |NormalColumns(ls)|
    ensures forall i :: 0 <= i < |NormalColumns(ls)| ==>
      Homogeneous(Import(ls).vn[i]) == NormalColumns(ls)[i]
    decreases |ls|
  {
    if ls != [] {
      var init, l := ls[..|ls| - 1], ls[|ls| - 1];
      ImportColumns(init);
      StepColumns(Import(init), l);
    }
  }

  /** One line appends to the position, texture-coordinate and normal
      lists exactly what the mesh loader's columns gain from it. */
  lemma StepColumns(g: Geometry, l: ObjLine)
    requires LineFits(g, l)
    ensures Step(g, l).v == g.v + if KindOf(l.text) == VertexLine then [Vec3(l.x, l.y, l.z)] else []
    ensures Step(g, l).vt == g.vt + if KindOf(l.text) == TexcoordLine then [Vec2(l.x, l.y)] else []
    ensures Step(g, l).vn == g.vn + if KindOf(l.text) == NormalLine then [Vec3(l.x, l.y, l.z)] else []
  {
  }

  /** The triangle of the mesh loader's index triangle t, its corners
      looked up in g. */
  function Resolve(g: Geometry, t: IndexTri): Tri
    requires 0 <= t.iv0 < |g.v| && 0 <= t.iv1 < |g.v| && 0 <= t.iv2 < |g.v|
    requires 0 <= t.ivt0 < |g.vt| && 0 <= t.ivt1 < |g.vt| && 0 <= t.ivt2 < |g.vt|
    requires 0 <= t.ivn0 < |g.vn| && 0 <= t.ivn1 < |g.vn| && 0 <= t.ivn2 < |g.vn|
  {
    Tri(Vertex(g.v[t.iv0], g.vt[t.ivt0], g.vn[t.ivn0]),
        Vertex(g.v[t.iv1], g.vt[t.ivt1], g.vn[t.ivn1]),
        Vertex(g.v[t.iv2], g.vt[t.ivt2], g.vn[t.ivn2]))
  }

  /** A face line with three or four spaces adds the triangles the mesh
      loader's index triangles name, with the corners read so far: the
      one triangle of a three-space line, and both halves of a quad in the
      reverse order, (2, 0, 3) first. */
  lemma StepResolves(g: Geometry, l: ObjLine)
    requires LineFits(g, l) && KindOf(l.text) == FaceLine
    requires Spaces(l.text) == 3 || Spaces(l.text) == 4
    ensures Spaces(l.text) == 3 ==>
      Step(g, l).f == g.f + [Resolve(g, FaceTris(l)[0])]
    ensures Spaces(l.text) == 4 ==>
      Step(g, l).f == g.f + [Resolve(g, FaceTris(l)[1]), Resolve(g, FaceTris(l)[0])]
    ensures Step(g, l).v == g.v && Step(g, l).vt == g.vt && Step(g, l).vn == g.vn
  {
  }

  /** A face line with five or more spaces is one triangle here, while the
      mesh loader splits it as a quad. */
  lemma ManySpacesDisagree(g: Geometry, l: ObjLine)
    requires LineFits(g, l) && KindOf(l.text) == FaceLine && Spaces(l.text) >= 5
    ensures |Step(g, l).f| == |g.f| + 1
    ensures |FaceTris(l)| == 2
  {
  }

  /** When every face line has three or four spaces, import_OBJ collects
      as many triangles as the mesh loader, which is the loader's face
      count (modulo 2^64). */
  lemma {:induction false} ImportFaceCount(ls: seq<ObjLine>)
    requires WellFormed(ls) && SimpleFaces(ls)
    ensures |Import(ls).f| == |Faces(ls)|
    ensures FirstPass(ls).faces == |Import(ls).f| % Word
    decreases |ls|
  {
    FaceCountMatches(ls);
    if ls != [] {
      var init := ls[..|ls| - 1];
      var l := ls[|ls| - 1];
      assert SimpleFaces(init) by {
        forall i | 0 <= i < |init| && KindOf(init[i].text) == FaceLine
          ensures Spaces(init[i].text) == 3 || Spaces(init[i].text) == 4
        {
          assert init[i] == ls[i];
        }
      }
      ImportFaceCount(init);
      if KindOf(l.text) == FaceLine {
        assert Spaces(l.text) == 3 || Spaces(l.text) == 4 by {
          assert ls[|ls| - 1] == l;
        }
        StepResolves(Import(init), l);
      }
    }
  }

  // ---------------------------------------------------------------------
  // The frame

  /** A frame: its size and the two buffers it points to. The struct is
      copied by value; the buffers are shared. */
  datatype Frame = Frame(width: int, height: int, frameBuffer: array<byte>, depthBuffer: array<real>)

  /** create_frame: a colour buffer of `width * height * 3` bytes and a
      depth buffer of `width * height` entries. */
  method CreateFrame(width: int, height: int) returns (frame: Frame)
    requires width * height >= 0
    ensures frame.width == width && frame.height == height
    ensures fresh(frame.frameBuffer) && fresh(frame.depthBuffer)
    ensures frame.frameBuffer.Length == width * height * 3
    ensures frame.depthBuffer.Length == width * height
  {
    var frameBuffer := new byte[width * height * 3];
    var depthBuffer := new real[width * height];
    frame := Frame(width, height, frameBuffer, depthBuffer);
  }

  /** clear_frame: zeroes the `3 * width * height` colour bytes, sets the
      `width * height` depths to maxDepth, and returns the same frame. */
  method ClearFrame(frame: Frame, maxDepth: real) returns (cleared: Frame)
    requires frame.width * frame.height >= 0
    requires 3 * (frame.width * frame.height) <= frame.frameBuffer.Length
    requires frame.width * frame.height <= frame.depthBuffer.Length
    modifies frame.frameBuffer, frame.depthBuffer
    ensures cleared == frame
    ensures forall i :: 0 <= i < 3 * (frame.width * frame.height) ==> frame.frameBuffer[i] == 0
    ensures forall i :: 3 * (frame.width * frame.height) <= i < frame.frameBuffer.Length ==>
      frame.frameBuffer[i] == old(frame.frameBuffer[i])
    ensures forall i :: 0 <= i < frame.width * frame.height ==> frame.depthBuffer[i] == maxDepth
    ensures forall i :: frame.width * frame.height <= i < frame.depthBuffer.Length ==>
      frame.depthBuffer[i] == old(frame.depthBuffer[i])
  {
    var size: nat := frame.width * frame.height;
    ClearBuffers(frame.frameBuffer, frame.depthBuffer, size, maxDepth);
    cleared := frame;
  }

  // ---------------------------------------------------------------------
  // Struct builders

  datatype Light = Light(loc: Vec3, intensity: real)

  /** create_light: the location is the first three entries of loc, in
      order; further entries are ignored. */
  function CreateLight(loc: seq<real>, intensity: real): (light: Light)
    requires |loc| >= 3
    ensures [light.loc.x, light.loc.y, light.loc.z] == loc[..3]
    ensures light.intensity == intensity
  {
    Light(Vec3(loc[0], loc[1], loc[2]), intensity)
  }

  /** Entries after the third do not change the light. */
  lemma CreateLightIgnoresRest(loc: seq<real>, rest: seq<real>, intensity: real)
    requires |loc| >= 3
    ensures CreateLight(loc + rest, intensity) == CreateLight(loc, intensity)
  {
  }

  /** create_Vec3D: the integer coordinates converted to floats, in order;
      each converts back to the same integer. */
  function CreateVec3D(x: int, y: int, z: int): (v: Vec3)
    ensures v.x.Floor == x && v.y.Floor == y && v.z.Floor == z
    ensures v.x == x as real && v.y == y as real && v.z == z as real
  {
    Vec3(x as real, y as real, z as real)
  }
}

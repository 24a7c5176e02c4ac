/** The mesh loader of imports.c over already-scanned OBJ lines: a first
    pass counts the elements, a second fills the vertex, texture-coordinate
    and normal columns and collects the faces as index triangles. */
module MeshImport {
  import opened CNumeric
  import opened Vectors
  import opened Matrices

  // ---------------------------------------------------------------------
  // Scanned lines

  /** One `v/vt/vn` triple of a face line, as scanned (1-based). */
  datatype Corner = Corner(v: int, vt: int, vn: int)

  /** One line of an OBJ file: its text, and the values the line's `sscanf`
      stores (x, y, z for `v` and `vn` lines, u and v in x and y for `vt`
      lines, up to four corners for `f` lines). */
  datatype ObjLine = ObjLine(text: string, x: real, y: real, z: real,
                             c0: Corner, c1: Corner, c2: Corner, c3: Corner)

  /** `strncmp(text, prefix, |prefix|) == 0`. */
  predicate StartsWith(text: string, prefix: string) {
    |prefix| <= |text| && text[..|prefix|] == prefix
  }

  /** The number of space characters (code 32) in the text. */
  function Spaces(text: string): nat {
    multiset(text)[' ']
  }

  /** count_vertices: counts the spaces of a line. */
  method CountVertices(text: string) returns (count: int)
    ensures count == Spaces(text)
  {
    count := 0;
    for i := 0 to |text|
      invariant count == multiset(text[..i])[' ']
    {
      if text[i] == ' ' {
        count := count + 1;
      }
      assert text[..i + 1] == text[..i] + [text[i]];
    }
    assert text[..|text|] == text;
  }

  datatype Kind = VertexLine | TexcoordLine | NormalLine | FaceLine | OtherLine

  /** The if / else-if chain that dispatches a line in the second pass:
      two characters for `v ` and `f `, three for `vt ` and `vn `. */
  function KindOf(text: string): Kind {
    if StartsWith(text, "v ") then VertexLine
    else if StartsWith(text, "vt ") then TexcoordLine
    else if StartsWith(text, "vn ") then NormalLine
    else if StartsWith(text, "f ") then FaceLine
    else OtherLine
  }

  // ---------------------------------------------------------------------
  // The first pass

  /** 2^64: `num_faces` is an `unsigned long`. */
  const Word: int := 0x1_0000_0000_0000_0000

  datatype Counts = Counts(verts: nat, texcoords: nat, normals: nat, faces: nat)

  /** What one line adds to the counters. Every test compares two
      characters, so `vt` and `vn` need no following space, and a face line
      adds its spaces minus two, wrapping modulo 2^64. */
  function CountLine(c: Counts, t: string): (r: Counts)
    ensures c.verts <= r.verts <= c.verts + 1
    ensures c.texcoords <= r.texcoords <= c.texcoords + 1
    ensures c.normals <= r.normals <= c.normals + 1
    ensures r.verts + r.texcoords + r.normals <= c.verts + c.texcoords + c.normals + 1
    ensures c.faces < Word ==> r.faces < Word
    ensures !StartsWith(t, "f ") ==> r.faces == c.faces
  {
    Counts(c.verts + (if StartsWith(t, "v ") then 1 else 0),
           c.texcoords + (if StartsWith(t, "vt") then 1 else 0),
           c.normals + (if StartsWith(t, "vn") then 1 else 0),
           if StartsWith(t, "f ") then (c.faces + Spaces(t) - 2) % Word else c.faces)
  }

  /** The four counters after the first pass over ls. */
  function FirstPass(ls: seq<ObjLine>): (r: Counts)
    ensures r.verts + r.texcoords + r.normals <= |ls|
    ensures r.faces < Word
    decreases |ls|
  {
    if ls == [] then Counts(0, 0, 0, 0)
    else CountLine(FirstPass(ls[..|ls| - 1]), ls[|ls| - 1].text)
  }

  /** The first pass of load_mesh (lines 37-47). */
  method CountElements(lines: seq<ObjLine>) returns (numVerts: nat, numTexcoords: nat, numNormals: nat, numFaces: nat)
    ensures Counts(numVerts, numTexcoords, numNormals, numFaces) == FirstPass(lines)
  {
    numVerts, numNormals, numTexcoords, numFaces := 0, 0, 0, 0;
    for k := 0 to |lines|
      invariant Counts(numVerts, numTexcoords, numNormals, numFaces) == FirstPass(lines[..k])
    {
      var line := lines[k].text;
      ghost var before := Counts(numVerts, numTexcoords, numNormals, numFaces);
      if StartsWith(line, "v ") {
        numVerts := numVerts + 1;
      }
      if StartsWith(line, "vt") {
        numTexcoords := numTexcoords + 1;
      }
      if StartsWith(line, "vn") {
        numNormals := numNormals + 1;
      }
      if StartsWith(line, "f ") {
        var spaces := CountVertices(line);
        numFaces := (numFaces + spaces - 2) % Word;
      }
      assert Counts(numVerts, numTexcoords, numNormals, numFaces) == CountLine(before, line);
      FirstPassStep(lines, k);
    }
    assert lines[..|lines|] == lines;
  }

  /** One more line of the prefix is one more CountLine. */
  lemma FirstPassStep(lines: seq<ObjLine>, k: nat)
    requires k < |lines|
    ensures FirstPass(lines[..k + 1]) == CountLine(FirstPass(lines[..k]), lines[k].text)
  {
    assert lines[..k + 1][..k] == lines[..k];
  }

  // ---------------------------------------------------------------------
  // The second pass

  /** A face as indices into the columns, zero-based. */
  datatype IndexTri = IndexTri(iv0: int, iv1: int, iv2: int,
                               ivt0: int, ivt1: int, ivt2: int,
                               ivn0: int, ivn1: int, ivn2: int)

  /** The triangle with corners a, b, c: every index one less than scanned. */
  function TriOf(a: Corner, b: Corner, c: Corner): (tri: IndexTri)
    ensures tri.iv0 + 1 == a.v && tri.iv1 + 1 == b.v && tri.iv2 + 1 == c.v
    ensures tri.ivt0 + 1 == a.vt && tri.ivt1 + 1 == b.vt && tri.ivt2 + 1 == c.vt
    ensures tri.ivn0 + 1 == a.vn && tri.ivn1 + 1 == b.vn && tri.ivn2 + 1 == c.vn
  {
    IndexTri(a.v - 1, b.v - 1, c.v - 1, a.vt - 1, b.vt - 1, c.vt - 1, a.vn - 1, b.vn - 1, c.vn - 1)
  }

  /** The triangles a face line adds: a line with three spaces is one
      triangle, any other a quad split into corners (0, 1, 2), then (2, 0, 3). */
  function FaceTris(line: ObjLine): seq<IndexTri> {
    if Spaces(line.text) == 3 then [TriOf(line.c0, line.c1, line.c2)]
    else [TriOf(line.c0, line.c1, line.c2), TriOf(line.c2, line.c0, line.c3)]
  }

  /** The columns and faces the second pass has collected from ls. */
  function VertexColumns(ls: seq<ObjLine>): seq<Vec4>
    decreases |ls|
  {
    if ls == [] then []
    else
      var l := ls[|ls| - 1];
      VertexColumns(ls[..|ls| - 1]) + if KindOf(l.text) == VertexLine then [Vec4(l.x, l.y, l.z, 1.0)] else []
  }

  function TexcoordColumns(ls: seq<ObjLine>): seq<Vec2>
    decreases |ls|
  {
    if ls == [] then []
    else
      var l := ls[|ls| - 1];
      TexcoordColumns(ls[..|ls| - 1]) + if KindOf(l.text) == TexcoordLine then [Vec2(l.x, l.y)] else []
  }

  function NormalColumns(ls: seq<ObjLine>): seq<Vec4>
    decreases |ls|
  {
    if ls == [] then []
    else
      var l := ls[|ls| - 1];
      NormalColumns(ls[..|ls| - 1]) + if KindOf(l.text) == NormalLine then [Vec4(l.x, l.y, l.z, 1.0)] else []
  }

  function Faces(ls: seq<ObjLine>): seq<IndexTri>
    decreases |ls|
  {
    if ls == [] then []
    else
      var l := ls[|ls| - 1];
      Faces(ls[..|ls| - 1]) + if KindOf(l.text) == FaceLine then FaceTris(l) else []
  }

  /** The second pass writes no more columns than the first pass counted:
      exactly as many vertex columns, and at most as many texture-coordinate
      and normal columns (the first pass also counts `vt` and `vn` lines
      without a following space). */
  lemma {:induction false} ColumnsWithinCounts(ls: seq<ObjLine>)
    ensures |VertexColumns(ls)| == FirstPass(ls).verts
    ensures |TexcoordColumns(ls)| <= FirstPass(ls).texcoords
    ensures |NormalColumns(ls)| <= FirstPass(ls).normals
    decreases |ls|
  {
    if ls != [] {
      ColumnsWithinCounts(ls[..|ls| - 1]);
      var t := ls[|ls| - 1].text;
      if StartsWith(t, "vt ") {
        assert t[..2] == t[..3][..2];
      }
      if StartsWith(t, "vn ") {
        assert t[..2] == t[..3][..2];
      }
    }
  }

  /** A prefix of the file has no more columns than the whole file. */
  lemma {:induction false} ColumnsOfPrefix(ls: seq<ObjLine>, k: nat)
    requires k <= |ls|
    ensures |VertexColumns(ls[..k])| <= |VertexColumns(ls)|
    ensures |TexcoordColumns(ls[..k])| <= |TexcoordColumns(ls)|
    ensures |NormalColumns(ls[..k])| <= |NormalColumns(ls)|
    decreases |ls|
  {
    if k < |ls| {
      var init := ls[..|ls| - 1];
      assert init[..k] == ls[..k];
      ColumnsOfPrefix(init, k);
    } else {
      assert ls[..k] == ls;
    }
  }

  /** What one more line adds to the columns and faces of a prefix. */
  lemma PrefixStep(ls: seq<ObjLine>, k: nat)
    requires k < |ls|
    ensures var l := ls[k];
      VertexColumns(ls[..k + 1]) ==
        VertexColumns(ls[..k]) + if KindOf(l.text) == VertexLine then [Vec4(l.x, l.y, l.z, 1.0)] else []
    ensures var l := ls[k];
      TexcoordColumns(ls[..k + 1]) ==
        TexcoordColumns(ls[..k]) + if KindOf(l.text) == TexcoordLine then [Vec2(l.x, l.y)] else []
    ensures var l := ls[k];
      NormalColumns(ls[..k + 1]) ==
        NormalColumns(ls[..k]) + if KindOf(l.text) == NormalLine then [Vec4(l.x, l.y, l.z, 1.0)] else []
    ensures var l := ls[k];
      Faces(ls[..k + 1]) == Faces(ls[..k]) + if KindOf(l.text) == FaceLine then FaceTris(l) else []
  {
    assert ls[..k + 1][..k] == ls[..k];
  }

  /** A line the second pass does not recognise changes nothing. */
  lemma OtherLinesChangeNothing(ls: seq<ObjLine>, l: ObjLine)
    requires KindOf(l.text) == OtherLine
    ensures VertexColumns(ls + [l]) == VertexColumns(ls)
    ensures TexcoordColumns(ls + [l]) == TexcoordColumns(ls)
    ensures NormalColumns(ls + [l]) == NormalColumns(ls)
    ensures Faces(ls + [l]) == Faces(ls)
  {
    assert (ls + [l])[..|ls|] == ls;
  }

  /** A face line with three spaces is counted as one triangle and adds
      one; with four it is counted as two and adds two; with any other
      number the count and the triangles added disagree. */
  lemma FaceLineCount(l: ObjLine)
    ensures |FaceTris(l)| == Spaces(l.text) - 2 <==> Spaces(l.text) == 3 || Spaces(l.text) == 4
  {
  }

  /** The quad split: (0, 1, 2) then (2, 0, 3), the same corner order for
      positions, texture coordinates and normals. */
  lemma QuadSplit(l: ObjLine)
    requires Spaces(l.text) != 3
    ensures |FaceTris(l)| == 2
    ensures FaceTris(l)[0] == IndexTri(l.c0.v - 1, l.c1.v - 1, l.c2.v - 1, l.c0.vt - 1, l.c1.vt - 1, l.c2.vt - 1,
                                       l.c0.vn - 1, l.c1.vn - 1, l.c2.vn - 1)
    ensures FaceTris(l)[1] == IndexTri(l.c2.v - 1, l.c0.v - 1, l.c3.v - 1, l.c2.vt - 1, l.c0.vt - 1, l.c3.vt - 1,
                                       l.c2.vn - 1, l.c0.vn - 1, l.c3.vn - 1)
  {
  }

  /** Every face line has three or four spaces. */
  predicate SimpleFaces(ls: seq<ObjLine>) {
    forall i | 0 <= i < |ls| && KindOf(ls[i].text) == FaceLine ::
      Spaces(ls[i].text) == 3 || Spaces(ls[i].text) == 4
  }

  /** When every face line has three or four spaces, the first pass's face
      count is the number of triangles the second pass collects (modulo
      2^64, the width of the counter). */
  lemma {:induction false} FaceCountMatches(ls: seq<ObjLine>)
    requires SimpleFaces(ls)
    ensures FirstPass(ls).faces == |Faces(ls)| % Word
    decreases |ls|
  {
    if ls != [] {
      var init, l := ls[..|ls| - 1], ls[|ls| - 1];
      SimpleFacesSplit(ls);
      FaceCountMatches(init);
      FaceCountStep(FirstPass(init), Faces(init), l);
    }
  }

  /** Dropping the last line keeps every face line simple, and the last
      line itself is simple if it is a face line. */
  lemma SimpleFacesSplit(ls: seq<ObjLine>)
    requires SimpleFaces(ls) && ls != []
    ensures SimpleFaces(ls[..|ls| - 1])
    ensures var t := ls[|ls| - 1].text; KindOf(t) == FaceLine ==> Spaces(t) == 3 || Spaces(t) == 4
  {
    var init := ls[..|ls| - 1];
    forall i | 0 <= i < |init| && KindOf(init[i].text) == FaceLine
      ensures Spaces(init[i].text) == 3 || Spaces(init[i].text) == 4
    {
      assert init[i] == ls[i];
    }
  }

  /** One more line keeps the count and the triangles in step. */
  lemma FaceCountStep(c: Counts, fs: seq<IndexTri>, l: ObjLine)
    requires c.faces == |fs| % Word
    requires KindOf(l.text) == FaceLine ==> Spaces(l.text) == 3 || Spaces(l.text) == 4
    ensures CountLine(c, l.text).faces ==
      |fs + if KindOf(l.text) == FaceLine then FaceTris(l) else []| % Word
  {
    FaceKind(l.text);
    if KindOf(l.text) == FaceLine {
      FaceLineCount(l);
      ModOfSum(|fs|, |FaceTris(l)|);
    }
  }

  /** A line is a face line exactly when it starts with `f `. */
  lemma FaceKind(t: string)
    ensures KindOf(t) == FaceLine <==> StartsWith(t, "f ")
  {
  }

  /** Reducing before adding a non-negative amount gives the same residue. */
  lemma ModOfSum(n: int, d: int)
    ensures (n % Word + d) % Word == (n + d) % Word
  {
    ModAddMultiple(n + d, Word, -(n / Word));
    assert n % Word + d == (n + d) + Word * (-(n / Word));
  }

  /** load_mesh: count with the first pass, allocate the columns, then
      fill them and collect the faces in the second pass. Every column the
      second pass writes is within the allocation. */
  method LoadMesh(lines: seq<ObjLine>)
    returns (vertices: array<Vec4>, texcoords: array<Vec2>, normals: array<Vec4>, faces: seq<IndexTri>)
    ensures fresh(vertices) && fresh(texcoords) && fresh(normals)
    ensures vertices.Length == FirstPass(lines).verts
    ensures texcoords.Length == FirstPass(lines).texcoords
    ensures normals.Length == FirstPass(lines).normals
    ensures vertices[..] == VertexColumns(lines)
    ensures |TexcoordColumns(lines)| <= texcoords.Length
    ensures texcoords[..|TexcoordColumns(lines)|] == TexcoordColumns(lines)
    ensures |NormalColumns(lines)| <= normals.Length
    ensures normals[..|NormalColumns(lines)|] == NormalColumns(lines)
    ensures faces == Faces(lines)
  {
    var numVerts, numTexcoords, numNormals, numFaces := CountElements(lines);
    ColumnsWithinCounts(lines);
    vertices := new Vec4[numVerts];
    normals := new Vec4[numNormals];
    texcoords := new Vec2[numTexcoords];
    faces := SecondPass(lines, vertices, texcoords, normals);
  }

  /** The second pass of load_mesh (lines 66-151): one column per `v `,
      `vt ` and `vn ` line, in order, and the triangles of every face line. */
  method SecondPass(lines: seq<ObjLine>, vertices: array<Vec4>, texcoords: array<Vec2>, normals: array<Vec4>)
    returns (faces: seq<IndexTri>)
    requires vertices != normals
    requires |VertexColumns(lines)| <= vertices.Length
    requires |TexcoordColumns(lines)| <= texcoords.Length
    requires |NormalColumns(lines)| <= normals.Length
    modifies vertices, texcoords, normals
    ensures vertices[..|VertexColumns(lines)|] == VertexColumns(lines)
    ensures texcoords[..|TexcoordColumns(lines)|] == TexcoordColumns(lines)
    ensures normals[..|NormalColumns(lines)|] == NormalColumns(lines)
    ensures faces == Faces(lines)
  {
    faces := [];
    var iv, ivn, ivt := 0, 0, 0;
    for k := 0 to |lines|
      invariant iv == |VertexColumns(lines[..k])| <= |VertexColumns(lines)|
      invariant ivt == |TexcoordColumns(lines[..k])| <= |TexcoordColumns(lines)|
      invariant ivn == |NormalColumns(lines[..k])| <= |NormalColumns(lines)|
      invariant vertices[..iv] == VertexColumns(lines[..k])
      invariant texcoords[..ivt] == TexcoordColumns(lines[..k])
      invariant normals[..ivn] == NormalColumns(lines[..k])
      invariant faces == Faces(lines[..k])
    {
      ColumnsOfPrefix(lines, k + 1);
      PrefixStep(lines, k);
      var line := lines[k];
      match KindOf(line.text)
      case VertexLine =>
        SetColumn(vertices, iv, Vec4(line.x, line.y, line.z, 1.0));
        iv := iv + 1;
      case TexcoordLine =>
        SetColumn(texcoords, ivt, Vec2(line.x, line.y));
        ivt := ivt + 1;
      case NormalLine =>
        SetColumn(normals, ivn, Vec4(line.x, line.y, line.z, 1.0));
        ivn := ivn + 1;
      case FaceLine =>
        var spaces := CountVertices(line.text);
        if spaces == 3 {
          faces := faces + [TriOf(line.c0, line.c1, line.c2)];
        } else {
          faces := faces + [TriOf(line.c0, line.c1, line.c2)];
          faces := faces + [TriOf(line.c2, line.c0, line.c3)];
        }
      case OtherLine =>
    }
    assert lines[..|lines|] == lines;
  }

  /** Writes column i of a matrix stored column by column. */
  method SetColumn<T>(a: array<T>, i: nat, column: T)
    requires i < a.Length
    modifies a
    ensures a[..i + 1] == old(a[..i]) + [column]
  {
    a[i] := column;
    assert a[..i + 1] == a[..i] + [a[i]];
  }
}

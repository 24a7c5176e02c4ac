# Software triangle renderer — verified model of its core

This project models, in Dafny, the core of a small software renderer that
turns triangles and a camera pose into a z-buffered colour image:

- the triangle scan converter `RasterizeTriangle` (rasterization.c): vertex
  coordinates truncated to `int`, the integer bounding box, the incremental
  edge functions, the strict inside test, the frame-bounds test, the strict
  depth test and the flat colour taken from vertex 0's normal;
- the camera record (camera.c and the demo program's variant in main.c):
  creation with its buffer sizes and draw distances, moving, and clearing of
  the colour and depth buffers;
- the view matrix and the projection/viewport matrix (camera_transforms.c,
  duplicated verbatim in camera.c), and the column-wise homogeneous divide
  `transform_vertices`, as 4×4 matrix algebra over `real`;
- nearest-texel texture addressing with repeat wrapping (`texture_lookup`,
  shading.c);
- the by-value vector helpers (vmath.c);
- the OBJ face bookkeeping of `load_mesh` (imports.c) and `import_OBJ`
  (utilities.c) over already-scanned line records, the quad test, and the
  frame and struct builders of utilities.c.

Modules follow the source files: `CNumeric` (the C conversions the code
relies on: truncating float-to-int stores, C99 `%`, float-to-byte stores),
`Vectors` (vmath.c), `Scene` (the `Vertex`/`Tri` records of types.h),
`Matrices` (the few dense-matrix operations used), `CameraTransforms`,
`Buffers` (the clear loop shared by camera and frame), `Cameras`,
`Rasterization`, `Shading`, `MeshImport` (imports.c) and `Utilities`.

Floats are modelled as `real`; integers are unbounded except where the source
wraps (`num_faces` is reduced modulo 2^64). Eigen's `normalized()` is a
function parameter `normalize` and `tan(pi * fov / 360)` an input
`tanHalfFov`, so every matrix fact is proved for all choices of them.

The rasterizer is proved against a per-pixel specification: after one call,
every pixel of the frame holds `NewDepth`/`NewChannel` of its old value, and
no buffer slot outside the frame changes (`Drawn`). The scan as the code
writes it is modelled separately (`RasterizeTriangleAsWritten`), because its
border test's `continue` also skips the incremental edge updates (see
Findings); the rest of the model uses the corrected scan.

The inside test is strict and there is no edge tie-break rule, so the
corrected scan draws no pixel that lies exactly on an edge
(`EdgePixelsUntouched`); the scan as written can (see Findings). The bounding
box is taken of the truncated integer coordinates, the depth test keeps the
strictly smaller value, and the colour is flat per triangle (no texture
lookup in the scan).

## Model

| member | source | states |
|---|---|---|
| `CNumeric.Trunc` | rasterization.c:36-46 | storing a float into an `int` rounds toward zero: the result lies within one of the value, on the side of zero |
| `CNumeric.CRem` | shading.c:26-27 | C99 `a % b` for positive `b`: the remainder has the sign of `a`, magnitude below `b`, and is congruent to `a` modulo `b` |
| `CNumeric.ToByte` | rasterization.c:95-97 | storing a float in [0, 256) into an `unsigned char` keeps its integer part |
| `Vectors.Min3f` | vmath.c:18-20 | `min3f` is no larger than each argument and equals one of them |
| `Vectors.Max3f` | vmath.c:22-24 | `max3f` is no smaller than each argument and equals one of them |
| `Vectors.ClipV3` | vmath.c:82-87 | every component of `clipV3(v, thres)` is at most `thres`; a component already at or below `thres` is unchanged, a larger one becomes `thres` |
| `Vectors.ScaleV2` | vmath.c:30-34 | `scaleV2` by 1 returns v and by 0 the zero vector; composition is in `Vectors.ScaleV2Properties` |
| `Vectors.SubtractV3` | vmath.c:40-46 | `subtractV3(v1, v2)` is the vector that `addV3` adds to v2 to give back v1 |
| `Vectors.AddV3` | vmath.c:48-54 | the zero vector is a unit of `addV3` on either side; `Vectors.SubtractUndoesAdd` undoes it |
| `Vectors.DotProdV3` | vmath.c:56-58 | the three-term sum of componentwise products; its properties (symmetry, `v·v >= 0`) are stated by `Vectors.DotProperties` |
| `Vectors.ScaleV3` | vmath.c:68-73 | `scaleV3` by 1 returns v and by 0 the zero vector; composition and distribution are in `Vectors.ScaleV3Properties` |
| `Vectors.AddScalarV3` | vmath.c:75-80 | `add_scalarV3(v, c)` is `addV3(v, (c, c, c))` |
| `Vectors.ClipIdempotent` | vmath.c:82-87 | clipping twice is clipping once |
| `Vectors.SubtractUndoesAdd` | vmath.c:40-54 | `subtractV3(addV3(a, b), b) == a` |
| `Vectors.DotProperties` | vmath.c:56-58 | the dot product is symmetric and `dot_prodV3(v, v) >= 0` |
| `Vectors.ScaleV3Properties` | vmath.c:68-73 | `scaleV3` by 1 is the identity, two scalings compose by multiplying the factors, and scaling distributes over `addV3` |
| `Vectors.AddScalarIsAddV3` | vmath.c:75-80 | `add_scalarV3` adds the same scalar to all three components |
| `Vectors.ScaleV2Properties` | vmath.c:30-34 | `scaleV2` multiplies both components by the scalar; by 1 it is the identity and scalings compose |
| `Matrices.ApplyMul` | camera_transforms.c:83-84 | multiplying a vector by a matrix product is multiplying by the factors right to left |
| `Matrices.HNormalizedProperties` | camera_transforms.c:17 | the homogeneous divide is invariant under nonzero rescaling and maps (p, 1) to p |
| `Matrices.CrossOrthogonal` | camera_transforms.c:25-27 | the cross product is orthogonal to both factors |
| `CameraTransforms.CameraBasis` | camera_transforms.c:24-27 | w is the negated normalized direction, u the normalized (0,0,1) × w, and v = w × u is orthogonal to both u and w |
| `CameraTransforms.CameraTransform` | camera_transforms.c:21-47 | `Mcam` has bottom row (0, 0, 0, 1) and sends the camera origin (origin, 1) to (0, 0, 0, 1); that it equals `Muvw * Mo` is `CameraTransforms.CameraTransformIsProduct` |
| `CameraTransforms.CameraTransformIsProduct` | camera_transforms.c:29-45 | `Muvw * Mo` is the matrix whose row k is basis vector k followed by minus its dot product with the origin, with bottom row (0,0,0,1) |
| `CameraTransforms.CameraOriginToOrigin` | camera_transforms.c:36-45 | `Mcam` sends (origin, 1) to (0, 0, 0, 1) and keeps every point's homogeneous coordinate |
| `CameraTransforms.LookTargetOnNegativeW` | camera_transforms.c:24-45 | when normalization rescales to unit length, origin + direction lands on the negative w axis of camera space |
| `CameraTransforms.DegenerateWhenLookingAlongUp` | camera_transforms.c:24-26 | a direction parallel to (0,0,1) makes the cross product that u normalizes the zero vector, so the direction must not be parallel to up |
| `CameraTransforms.CanonicalToViewportEdges` | camera_transforms.c:76-80 | `Mview` maps canonical x = -1 to -1/2 and x = 1 to nx - 1/2, the same for y with ny, and keeps z and w |
| `CameraTransforms.OrthographicMapsFrustum` | camera_transforms.c:68-72 | `Morth` maps (r, t, n) to (1, 1, 1) and (-r, -t, f) to (-1, -1, -1) for r, t nonzero and n ≠ f |
| `CameraTransforms.PerspectiveKeepsPlanes` | camera_transforms.c:61-65 | the last row of P makes w the view-space z; after the divide a point on z = n stays at z = n and one on z = f at z = f |
| `CameraTransforms.ViewportTransform` | camera_transforms.c:50-85 | `Mvp` has bottom row (0, 0, 1, 0), so the homogeneous coordinate of an image is the view-space z; the three-stage composition is `CameraTransforms.ViewportTransformComposition` |
| `CameraTransforms.ViewportTransformComposition` | camera_transforms.c:50-85 | `Mvp` applied to a point is P, then `Morth`, then `Mview`, with t = n·tan and r = t·nx/ny both nonzero |
| `CameraTransforms.ViewportDepth` | camera_transforms.c:50-85 | through `Mvp`, w becomes the view-space depth, and after the divide the near plane lands at depth 1 and the far plane at -1 |
| `CameraTransforms.ViewportCorners` | camera_transforms.c:52-85 | the near-plane frustum corners (r, t, n) and (-r, -t, n) land on the outer pixel edges (nx - 1/2, ny - 1/2) and (-1/2, -1/2) |
| `CameraTransforms.TransformVertices` | camera_transforms.c:15-18 | `transform_vertices` keeps the number of columns |
| `CameraTransforms.TransformVerticesColumnwise` | camera_transforms.c:15-18 | the transform acts column by column (it distributes over concatenation) and a column rescaled by a nonzero factor has the same image |
| `CameraTransforms.CameraOriginProjectsToZero` | camera_transforms.c:15-47 | the camera origin transformed by its own view matrix and divided is (0, 0, 0) |
| `Buffers.ClearBuffers` | camera.c:124-128 | the first 3·size colour bytes become 0 and the first size depths the given value; every other slot is unchanged |
| `Cameras.Camera.Create` | camera.c:84-104 | `Mvp` is the viewport transform with the negated draw distances, `Mcam` the camera transform of the pose, the buffers hold w·h·3 bytes and w·h depths, and the stored draw distances are negated |
| `Cameras.Camera.CreateMain` | main.c:27-46 | the demo variant negates the clip distances for `Mvp` but stores `max_draw_dist` as given, with the same buffer sizes |
| `Cameras.Camera.Move` | camera.c:107-119 | `Mcam` becomes the camera transform of the new pose and the pose is stored; `Mvp`, frame size, buffers and draw distances are unchanged (main.c:49-61 is the same) |
| `Cameras.Camera.Reset` | camera.c:122-130 | every colour byte is 0 and every depth equals the camera's `max_draw_dist` (main.c:64-72 is the same) |
| `Shading.Nearest` | shading.c:22-23 | `floor(n·c + .5)` is the integer nearest to n·c, halves rounding up |
| `Shading.WrapAsWritten` | shading.c:26-29 | the repeat step as written: a non-negative value lands in [0, n); a negative one stays in (-n, 0] |
| `Shading.NegativeRowReadsBeforeData` | shading.c:28-33 | at s = 0.5, t = 1.25 on a 4×4 texture the row stays -1 and the byte index is negative |
| `Shading.NegativeColumnReadsWrongTexel` | shading.c:28-36 | at s = -0.25, t = 0.5 on a 4×4 texture the code reads index 21 instead of the repeated texel's 33, and returns a different colour |
| `Shading.AsWrittenAgreesWhenNonnegative` | shading.c:17-37 | with non-negative pre-wrap texel coordinates, the lookup as written reads inside the data and equals the intended lookup |
| `Shading.TextureLookupAsWritten` | shading.c:17-37 | where the byte index as written falls inside the data, the lookup returns three channels in [0, 255]; its failures are the two Findings lemmas |
| `Shading.Wrap` | shading.c:26-29 | the intended repeat step returns the residue of the value modulo n, in [0, n) |
| `Shading.TexelIndex` | shading.c:33 | the byte index `3(v·width + u)` is a multiple of 3 with `0 <= i` and `i + 2 < 3·width·height` |
| `Shading.TextureLookup` | shading.c:17-37 | the corrected lookup returns the three channels of one texel, each in [0, 255]; periodicity is `Shading.TextureRepeats` |
| `Shading.TextureRepeats` | shading.c:22-27 | moving s or t by any whole number gives the same texel and the same colour |
| `Shading.AsWrittenRepeatsWhenNonnegative` | shading.c:22-33 | with non-negative pre-wrap coordinates the code's lookup at s + 1 and at t - 1 reads the same index as at (s, t) |
| `Rasterization.EdgeFunction` | rasterization.c:13-15 | the edge function vanishes at both endpoints of its edge; the other properties are `Rasterization.EdgeFunctionProperties` |
| `Rasterization.EdgeFunctionProperties` | rasterization.c:13-15 | the edge function vanishes at both ends of its edge, changes sign when the edge is reversed, and steps by y0 - y1 along x and x1 - x0 along y |
| `Rasterization.Min3fInt` | rasterization.c:18-23 | the `int` result is no larger than the truncation of each argument and equals one of those truncations |
| `Rasterization.Max3fInt` | rasterization.c:26-31 | the `int` result is no smaller than the truncation of each argument and equals one of those truncations |
| `Rasterization.Min3fIntIsTruncatedMin` | rasterization.c:18-23 | `min3f`'s two truncating stores give the truncated minimum |
| `Rasterization.Max3fIntIsTruncatedMax` | rasterization.c:26-31 | `max3f`'s two truncating stores give the truncated maximum |
| `Rasterization.Unpack` | rasterization.c:36-46 | the vertex coordinates are truncated to `int`, and the blue channel repeats the green one |
| `Rasterization.BoundingBoxExact` | rasterization.c:49-52 | the box bounds are the exact integer minimum and maximum of the truncated vertex coordinates |
| `Rasterization.EdgeSteps` | rasterization.c:61-68 | the per-step updates are exactly the edge functions' x and y coefficients |
| `Rasterization.AreasAgree` | rasterization.c:56-58 | fa, fb and fg are the same doubled signed area, and the three edge functions at any pixel sum to it, so gamma = 1 - (alpha + beta) |
| `Rasterization.InsideIff` | rasterization.c:79-83 | alpha, beta and gamma are all strictly positive exactly when the three edge functions are nonzero with the sign of the area |
| `Rasterization.InsideImpliesInBox` | rasterization.c:72-83 | every pixel strictly inside the triangle is in the scanned box |
| `Rasterization.PixelIndex` | rasterization.c:90 | for 0 <= x < w and 0 <= y < h, `i = w·y + x` satisfies `0 <= i < w·h` |
| `Rasterization.ChannelIndex` | rasterization.c:95-97 | the written colour bytes `3i + k` lie below `3·w·h` |
| `Rasterization.PixelIndexInjective` | rasterization.c:90 | distinct pixels of the frame have distinct slots |
| `Rasterization.HitIff` | rasterization.c:83-92 | a pixel is written exactly when it is strictly inside, inside the frame and strictly nearer than the stored depth |
| `Rasterization.PixelOutcome` | rasterization.c:89-100 | a stored depth never increases; a changed pixel takes the triangle's colour; processing it again changes nothing |
| `Rasterization.NearerWinsAtPixel` | rasterization.c:89-100 | at one pixel, two triangles drawn in either order leave the same depth, and the same colour unless both cover the pixel at one depth |
| `Rasterization.DrawOrderIrrelevant` | rasterization.c:89-100 | two triangles drawn with the corrected scan in either order leave equal depth buffers, and equal colour buffers when they never cover a pixel at one depth |
| `Rasterization.EdgePixelsUntouched` | rasterization.c:79-83 | a pixel on an edge (some edge function zero) is never written |
| `Rasterization.DrawnEffect` | rasterization.c:85-100 | after a whole call no depth has increased, every changed colour byte holds the flat colour of its channel, and a triangle whose box misses the frame changes nothing |
| `Rasterization.DrawTwice` | rasterization.c:92-100 | drawing the same triangle twice leaves both buffers as after one drawing |
| `Rasterization.RasterizeTriangle` | rasterization.c:34-110 | the corrected scan: each frame pixel ends with its per-pixel outcome and no slot outside the frame changes |
| `Rasterization.PlotIfNearer` | rasterization.c:89-101 | the depth test of one in-frame inside pixel: a strictly nearer depth writes the three colour bytes and the depth at index `frame_width * y + x`, otherwise nothing changes; the scan moves on by one pixel |
| `Rasterization.ScanRow` | rasterization.c:74-105 | one row: at every visited x the stepped values equal the edge functions at (x, y), and the row's pixels get their outcome |
| `Rasterization.RasterizeTriangleAsWritten` | rasterization.c:34-110 | the scan as written: each frame pixel ends with the outcome for the lagging column the scan holds there |
| `Rasterization.ScanRowAsWritten` | rasterization.c:77-105 | one row as written: the stepped values are those of the column lagging by the skipped pixels |
| `Rasterization.ColumnStep` | rasterization.c:85-87 | the scan as written stays on its column after an inside pixel off the frame and moves on otherwise |
| `Rasterization.IntendedScanSkipsEdgePixel` | rasterization.c:83-87 | for the triangle (-2,-2), (4,-2), (-2,4) in a 4×4 frame, pixel (2, 0) lies on an edge and the intended scan leaves it alone |
| `Rasterization.LaggingScanDrawsEdgePixel` | rasterization.c:85-104 | for the same triangle the scan as written draws pixel (2, 0) |
| `Rasterization.AsWrittenAgreesInsideFrame` | rasterization.c:85-87 | when the box does not reach left of the frame, the scan as written and the intended scan draw the same |
| `MeshImport.CountVertices` | imports.c:21-31 | `count_vertices` returns the number of space characters in the line |
| `MeshImport.CountLine` | imports.c:42-46 | one line raises each of the vertex, texcoord and normal counters by at most one, and raises at most one of them; the face counter stays below 2^64 and changes only on `f ` lines |
| `MeshImport.FirstPass` | imports.c:37-47 | after the first pass the three column counters together are at most the number of lines, and the face counter is below 2^64 |
| `MeshImport.CountElements` | imports.c:37-47 | the first pass computes the four counters line by line, the face counter adding spaces minus two modulo 2^64 |
| `MeshImport.TriOf` | imports.c:104-115 | every stored index is the scanned 1-based index minus one |
| `MeshImport.ColumnsWithinCounts` | imports.c:43-95 | the second pass writes exactly as many vertex columns as the first pass counted, and no more texture-coordinate or normal columns than counted |
| `MeshImport.OtherLinesChangeNothing` | imports.c:67-98 | a line with none of the four prefixes leaves the columns and faces unchanged |
| `MeshImport.FaceLineCount` | imports.c:46 | the count of spaces minus two equals the number of triangles a face line adds exactly when the line has three or four spaces |
| `MeshImport.QuadSplit` | imports.c:119-148 | a quad becomes corners (0,1,2) then (2,0,3), the same permutation for position, texcoord and normal indices |
| `MeshImport.FaceCountMatches` | imports.c:42-150 | when every face line has three or four spaces, the first pass's face count is the number of triangles the second pass collects (mod 2^64) |
| `MeshImport.LoadMesh` | imports.c:34-161 | the allocations have the first pass's sizes; vertex and normal columns get homogeneous coordinate 1, texcoord columns (u, v); faces are the collected triangles |
| `MeshImport.SecondPass` | imports.c:66-151 | one column per `v `, `vt ` and `vn ` line in order, written within the allocation, and the triangles of every face line |
| `Utilities.IsQuad` | utilities.c:22-31 | `is_quad` is true exactly when the line holds four spaces |
| `Utilities.ImportObj` | utilities.c:35-143 | `import_OBJ` returns the triangles of the line-by-line reading, each corner taken from the lists read so far |
| `Utilities.Step` | utilities.c:50-139 | one line keeps every list read so far as a prefix, adds at most one column, and at most two triangles |
| `Utilities.Import` | utilities.c:48-140 | after n lines the three column lists together hold at most n entries and the triangle list at most 2n |
| `Utilities.PushFace` | utilities.c:72-139 | a non-quad face line pushes one triangle, a quad two: (2,0,3) first, then (0,1,2) |
| `Utilities.ImportGrows` | utilities.c:48-140 | the lists only grow: every entry already read stays in place |
| `Utilities.ImportColumns` | utilities.c:50-69 | the position, texcoord and normal lists are the mesh loader's columns in the same order, positions and normals without the homogeneous 1 |
| `Utilities.StepResolves` | utilities.c:126-137 | a face line adds the triangles the mesh loader's index triangles name, with the quad's halves in the reverse order |
| `Utilities.ManySpacesDisagree` | utilities.c:75 | a face line with five or more spaces is one triangle here but two in the mesh loader |
| `Utilities.ImportFaceCount` | utilities.c:48-140 | with three- or four-space face lines, `import_OBJ` collects as many triangles as the mesh loader counts |
| `Utilities.CreateFrame` | utilities.c:146-153 | the frame records width and height, with buffers of w·h·3 bytes and w·h depths |
| `Utilities.ClearFrame` | utilities.c:156-163 | all 3·w·h colour bytes become 0 and all w·h depths `max_depth`; other slots and the frame record are unchanged |
| `Utilities.CreateLight` | utilities.c:194-203 | the light's location is `loc[0..3)` in order, with the given intensity |
| `Utilities.CreateLightIgnoresRest` | utilities.c:194-203 | entries of `loc` after the third do not affect the light |
| `Utilities.CreateVec3D` | utilities.c:205-211 | the integer coordinates become x, y, z in order and convert back to the same integers |

## Left out

- The window, event loop, `glDrawPixels`, frame timing and `printf` of main.c and imports.c: user interface and I/O.
- File reading and text scanning (`fopen`, `fgets`, `sscanf`): OBJ lines are given as records holding the line text and the values `sscanf` would store; lines longer than the 512-byte buffer are not split.
- `load_texture`, `create_texture`, `create_material` and `create_object`: image decoding and file I/O wrappers with no logic of their own.
- `shade_vertex` (lighting and fresnel) and `normalizeV3`: they need `sqrt`, `abs` and floating-point behaviour.
- `rasterize_mesh`, `rasterize_mesh_triangle` and `is_backface` are declared in rasterization.h but defined in no file of the core, so backface culling, the per-mesh projection pass and textured rasterization are not part of this model.
- Floating-point rounding, overflow, infinities and NaN: floats are reals.
- CameraTransforms.CameraTransform: Eigen's `normalized()` is an arbitrary function parameter and `tan` an input, so facts that need unit length take it as a hypothesis.
- Rasterization.InsideTest: when the triangle is degenerate (fa = 0), the float quotients are infinite or not a number and the test fails; the model states this as "not inside" instead of modelling IEEE division.
- CNumeric.ToByte: a colour outside [0, 256) is undefined behaviour in C; the model reduces it modulo 256.
- CNumeric.Trunc: a float too large for `int` is undefined behaviour in C; the model truncates without overflow.
- CameraTransforms.TransformVertices: requires every transformed column to have a nonzero homogeneous coordinate, where the code would divide by zero.
- Shading.TextureLookupAsWritten: defined only where the code's byte index falls inside the data; elsewhere the C read is out of bounds.
- The depth buffer element type: the rasterizer takes `unsigned char*` while the camera allocates `double` (camera.c) or `float` (main.c); the model uses `real` throughout.
- The types.h `Tri` (three `Vertex` values) and the imports.c `Tri` (nine indices) conflict; the model has `Scene.Tri` and `MeshImport.IndexTri`.
- Memory ownership: the heap copies of origin and direction, and the matrices allocated with `new` on every call, are stored as values; leaks are not modelled.
- The `unsigned long` counters `num_verts`, `num_texcoords`, `num_normals`, `i_v`, `i_vt`, `i_vn` are unbounded; only `num_faces`, which can decrease, wraps modulo 2^64.
- `Cameras.Camera.CreateMain` leaves `min_draw_dist` unset in C; the model's field keeps Dafny's default value.

## Findings

| source | as written | input that shows it | evidently intended | confidence | as-written member | corrected member |
|---|---|---|---|---|---|---|
| rasterization.c:85-104 | the border test's `continue` also skips `new_d12 += …; new_d20 += …`, so after an inside pixel left of the frame the rest of the row is tested with the edge values of a column further left | triangle (-2,-2), (4,-2), (-2,4) at depth 0 in a 4×4 frame: pixel (2, 0) lies on the edge from (4,-2) to (-2,4) yet is drawn, tested with the values of (1, 0) | update the edge values for every scanned pixel, so each pixel is tested with its own | high, not executed | `Rasterization.LaggingScanDrawsEdgePixel` | `Rasterization.RasterizeTriangle` |
| shading.c:28-29 | `if (u < 0) width - u;` computes a value and discards it (and the `v` line uses `width`), so a negative C remainder stays negative | 4×4 texture at s = -0.25, t = 0.5 reads byte 21 instead of 33; at s = 0.5, t = 1.25 the index is negative | add the period to a negative remainder: `u += width`, `v += height` | high, not executed | `Shading.NegativeColumnReadsWrongTexel` | `Shading.TextureRepeats` |

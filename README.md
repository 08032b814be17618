# Terrain: a grid triangle mesh and an orbiting camera

This project models the terrain example of the RenderMan C API programs in Dafny.
`capi/terrain/trimesh.c` builds a triangle mesh over a regular `NUM_I x NUM_J` grid.
Points and colours sit in row-major flat buffers addressed by `idx(i, j) = i * NUM_J + j`.
A vertex-count buffer gives every polygon three vertices.
A vertex-index buffer holds two triangles per grid cell, written by a running cursor.
`capi/terrain/main.c` fills a 256 x 256 mesh with the height field `4 sin(u) cos(v)` and colours it by parity.
It then renders 20 frames from a camera that circles the origin, each into `images/<prefix>NNNNN.tif`.

The model has five modules:

- `Ri` (ri.dfy): the renderer's value types and its calls, recorded as a trace of `Command`s by the `Renderer` class.
- `TriMesh` (trimesh.dfy): `tri_mesh_t` as the class `Mesh` over Dafny arrays.
  It includes the index arithmetic and a function-level specification of the index buffer (`TriangleIndices`).
  The fill loops are proved against that specification.
- `FramePath` (framepath.dfy): the `"images/%s%05d.tif"` file name, with a parse-back round trip.
- `Terrain` (terrain.dfy): `gen_terrain`, `AimZ`, `PlaceCamera`, `doFrame` and `main`, all as methods appending to the trace.
  Each is proved equal to a function of its inputs, and lemmas state the layout of frames and of the whole session.
- `Seqs` (seqs.dfy): generic sequence lemmas.

The model keeps the mesh code as written, including three of its quirks:

- The declared polygon count `2 (nj + 1)(ni + 1)` and the `2 (ni - 1)^2` triangles the fill loop writes disagree.
  When `nj + 2 >= ni` (square grids included) the declared count is strictly larger: the rest of the index buffer is left unwritten, yet the full count is handed to the renderer (`DeclaredExceedsFilled`, `FillTriangles`, `Render`).
  For taller grids the two can meet (ni = 3, nj = 0) or the loop can write past the buffer (ni = 4, nj = 0) (`TallGridCounts`).
- Both fill loops are bounded by `ni - 1`, so the vertex indices stay inside the grid exactly when `ni == 1` (nothing is written) or `nj >= ni` (`TriangleIndicesInRange`).
- `ni - 1` wraps around for `ni = 0`, so `Alloc` requires `ni >= 1`.

## Model

| member | source | states |
|---|---|---|
| TriMesh.Idx | capi/terrain/trimesh.c:23-25 | the flat position of an in-range grid point is below `NUM_I * NUM_J` |
| TriMesh.IdxInjective | capi/terrain/trimesh.c:23-25 | for columns below `NUM_J`, two grid points share a flat position if and only if they are the same point |
| TriMesh.IdxCovers | capi/terrain/trimesh.c:23-25 | every flat position below `NUM_I * NUM_J` is the position of the grid point (k / NUM_J, k % NUM_J) |
| TriMesh.TriangleIndicesAt | capi/terrain/trimesh.c:50-61 | cell (i, j) of the (ni-1) x (ni-1) cells owns the six entries from `6 i (ni-1) + 6 j`: `idx(i,j), idx(i,j+1), idx(i+1,j)` then `idx(i,j+1), idx(i+1,j+1), idx(i+1,j)` |
| TriMesh.TriangleIndicesInRange | capi/terrain/trimesh.c:50-59 | every written vertex index is below `ni * nj` if and only if `ni == 1` or `nj >= ni` |
| TriMesh.FilledFitsBuffer | capi/terrain/trimesh.c:41-63 | when `nj + 2 >= ni` (square grids included), the `6 (ni-1)^2` written entries fit in the `3 npolys` allocated |
| TriMesh.DeclaredExceedsFilled | capi/terrain/trimesh.c:41-63 | when `nj + 2 >= ni`, strictly fewer entries are written than `3 npolys`, so part of the declared polygons is never filled |
| TriMesh.TallGridCounts | capi/terrain/trimesh.c:41-63 | at ni = 3, nj = 0 the written and allocated entries are equal; at ni = 4, nj = 0 the loop writes more than the buffer holds |
| TriMesh.WriteCell | capi/terrain/trimesh.c:53-59 | one cell writes its six triangle entries at the cursor and changes no other entry |
| TriMesh.FillRow | capi/terrain/trimesh.c:51-62 | the inner loop writes the cells of row i in order from the cursor; entries before and after are untouched |
| TriMesh.FillTriangles | capi/terrain/trimesh.c:49-63 | the loops write exactly `TriangleIndices(ni, nj)` (6 (ni-1)^2 entries) at the front of the buffer and leave the rest as it was |
| TriMesh.Mesh.constructor | capi/terrain/main.c:235 | a declared mesh holds no buffers and zero sizes |
| TriMesh.Mesh.SetPt | capi/terrain/trimesh.c:85-89 | the point at `idx(i, j)` becomes (x, y, z); every other point is unchanged |
| TriMesh.Mesh.SetColor | capi/terrain/trimesh.c:90-94 | the colour at `idx(i, j)` becomes (r, g, b); every other colour is unchanged |
| TriMesh.Mesh.Alloc | capi/terrain/trimesh.c:27-64 | the sizes are ni and nj and four fresh buffers are allocated; every point and colour is (0,0,0); `npolys == 2 (nj+1)(ni+1)`; every polygon has 3 vertices; the index buffer starts with the triangles of every cell |
| TriMesh.Mesh.AllocGrid | capi/terrain/trimesh.c:28-39 | sets the sizes and allocates two distinct fresh buffers of `ni * nj` zeroed points and colours |
| TriMesh.Mesh.ClearGrid | capi/terrain/trimesh.c:34-39 | the nested loops leave every point and colour of the grid at (0,0,0) |
| TriMesh.Mesh.AllocTriangles | capi/terrain/trimesh.c:41-63 | sets the declared polygon count, gives each polygon 3 vertices and writes the cell triangles; the grid buffers are untouched |
| TriMesh.Mesh.Free | capi/terrain/trimesh.c:66-80 | all four buffers are null and `NUM_I`, `NUM_J` and `npolys` are 0 |
| TriMesh.Mesh.Render | capi/terrain/trimesh.c:82-84 | issues one `PointsPolygons` call with the declared `npolys`, the contents of the point buffer as "P" and of the colour buffer as "Cs" |
| Ri.Neg | capi/terrain/main.c:109 | the negated location added to the location gives the origin |
| Ri.Sub | capi/terrain/main.c:105-107 | the direction added to the location gives the look-at point |
| Terrain.SampleSteps | capi/terrain/main.c:142-160 | in exact arithmetic the accumulated `u += du` after i lines is `umin + i du` |
| Terrain.SampleEnds | capi/terrain/main.c:138-143 | for n >= 2 the first and last grid lines sit exactly at the interval's ends |
| Terrain.TerrainPointAxes | capi/terrain/main.c:114-151 | the stored point is (u, 4 sin(u) cos(v), v): the height lands in the second component |
| Terrain.BitAndBits | capi/terrain/main.c:153 | bit k of `a & b` is the product of bit k of a and of b |
| Terrain.CellColourParity | capi/terrain/main.c:153-157 | a grid point is green (0,1,0) if and only if i and j are both odd, black otherwise |
| Terrain.CellColourExamples | capi/terrain/main.c:153-157 | (0,0) is black, (1,1) green, (1,2) black |
| Terrain.GenTerrain | capi/terrain/main.c:134-162 | every grid point (i < NUM_I, j < NUM_J) gets its terrain point and its parity colour |
| Terrain.GridAt | capi/terrain/main.c:147-157 | in the buffers gen_terrain leaves, grid point (i, j) finds its terrain point and its colour at `idx(i, j)` |
| Terrain.GridContents | capi/terrain/main.c:147-157 | buffers holding every grid point's terrain point and colour at its `idx` are exactly `PointGrid` and `ColourGrid`, entry by entry |
| Terrain.AimZ | capi/terrain/main.c:63-99 | issues exactly the rotations of `AimZCommands` for the direction |
| Terrain.AimZShape | capi/terrain/main.c:67-98 | nothing is issued if and only if the direction is zero; otherwise a rotation about x (`+xrot` iff d.y > 0) then one about y (`-yrot` iff d.x > 0) |
| Terrain.AimZVertical | capi/terrain/main.c:76-77 | with no x,z extent, the y rotation is 180 degrees looking down and 0 looking up |
| Terrain.AimZAligned | capi/terrain/main.c:75-98 | a direction along +z gives two zero rotations |
| Terrain.PlaceCamera | capi/terrain/main.c:101-110 | issues exactly `PlaceCameraCommands` for the camera |
| Terrain.PlaceCameraOrder | capi/terrain/main.c:101-110 | roll about z by `-roll` first, the AimZ rotations for `look_at - location` next, the translation by `-location` last; 2 commands when the camera sits on its target, 4 otherwise |
| Terrain.EmitFrameHead | capi/terrain/main.c:166-175 | issues frame begin, display to the formatted path, format and projection |
| Terrain.EmitFrameTail | capi/terrain/main.c:179-200 | issues the attributes, the light, and the world holding the matte mesh |
| Terrain.DoFrame | capi/terrain/main.c:164-201 | issues exactly `FrameCommands` for the frame number, scene and mesh |
| Terrain.HeadTailShape | capi/terrain/main.c:166-200 | outside the camera no frame command is a transform, and the only draw call is the seventh command after the camera |
| Terrain.FrameProtocol | capi/terrain/main.c:164-201 | a frame starts with `FrameBegin(fNum)` and the display of its file and ends with `FrameEnd`; the mesh is drawn between `WorldBegin` and `WorldEnd` |
| Terrain.FrameTransformsFirst | capi/terrain/main.c:164-201 | every transform of a frame comes before `WorldBegin`, and the draw call sits two commands after it |
| Terrain.FrameDrawsMesh | capi/terrain/main.c:197 | every draw call of a frame draws the mesh's geometry: its polygon count, points and colours |
| FramePath.DisplayPathShape | capi/terrain/main.c:168-169 | the path is "images/", the prefix, at least five characters of frame number, and ".tif" |
| FramePath.DecimalDigits | capi/terrain/main.c:169 | `%d` of a non-negative number is a non-empty string of digits |
| FramePath.DecimalLength | capi/terrain/main.c:169 | a number below 10^k has at most k digits |
| FramePath.PadZerosDigits | capi/terrain/main.c:169 | zero-padding a number below 10^k to width k gives its last k digits |
| FramePath.Format05d | capi/terrain/main.c:169 | `%05d` is at least five characters, exactly five when -10000 < n < 100000: all digits for n >= 0, a '-' then digits for n < 0 |
| FramePath.Format05dDigits | capi/terrain/main.c:169 | for 0 <= n < 100000, `%05d` is the five decimal digits of n, ten-thousands first |
| FramePath.DisplayPathExample | capi/terrain/main.c:168-169 | frame 19 with prefix "out" is written to "images/out00019.tif" |
| FramePath.Format05dRoundTrip | capi/terrain/main.c:169 | reading the `%05d` digits back gives the frame number |
| FramePath.DisplayPathInjective | capi/terrain/main.c:168-169 | two frames write the same file only if they have the same number |
| Terrain.OrbitAngleSteps | capi/terrain/main.c:233-243 | in exact arithmetic the accumulated `t += dt` at frame k is `k dt` |
| Terrain.OrbitCloses | capi/terrain/main.c:233-243 | the orbit starts at angle 0 and the last frame is at `2 PI`, a full turn |
| Terrain.RenderOrbit | capi/terrain/main.c:217-246 | issues the frames 0 .. 19 in order, frame k with the camera at angle `OrbitAngle(k)` on the circle of radius 40 at height 20 |
| Terrain.BuildTerrain | capi/terrain/main.c:237-238 | the mesh is a 256 x 256 allocated grid whose point and colour buffers are exactly `PointGrid` and `ColourGrid`: every grid point holds its terrain point and parity colour |
| Terrain.Run | capi/terrain/main.c:203-251 | fewer than two arguments gives status 1 with no renderer call and the mesh untouched; otherwise status 0, the session is exactly `SessionCommands` (whose frames draw `TerrainGeometry`, the generated grid), and the mesh is released |
| Terrain.OrbitFrameLength | capi/terrain/main.c:164-201 | every frame of the orbit is 17 commands |
| Terrain.FramesAt | capi/terrain/main.c:240-246 | frame k occupies commands 17k .. 17k+16 of the frame sequence |
| Terrain.SessionLayout | capi/terrain/main.c:212-248 | the session is 344 commands, opens with `Begin`, closes with `End`, and frame k is commands 3+17k .. 3+17k+16 |
| Terrain.SessionFrames | capi/terrain/main.c:240-246 | frame k of the session begins with `FrameBegin(k)` and displays to `images/<prefix><k as %05d>.tif` |
| Terrain.FramesDrawSameMesh | capi/terrain/main.c:240-246 | every draw call of the orbit draws the same geometry |
| Terrain.FrameFileName | capi/terrain/main.c:168-169 | frame k < 20 is written to images/<prefix>000<tens of k><units of k>.tif |
| Terrain.SessionDrawsTerrain | capi/terrain/main.c:237-245 | every draw call of the session draws the 256 x 256 terrain points with their parity colours and the declared polygon count |

## Left out

- Floating point: angles, heights and parameters are exact reals.
  The accumulated `u += du`, `v += dv` and `t += dt` are modelled step by step, but their rounding drift is not.
- `sin`, `cos`, `sqrt` and `acos` are uninterpreted functions of a `MathLib` value; `acos(a / b)` is one function of a and b.
- The renderer itself: the calls are recorded as a trace with their arguments, without semantics.
  `RiPointsPolygons` records the polygon count and the contents of the "P" and "Cs" buffers; the `nvertices` and `vertices` arrays it is also given are not recorded (`TriMesh.Mesh.Alloc` states what they hold).
  Parameter values are recorded as values, not as how they are passed: `&on_string` (main.c:188) and the literal `"on"` (main.c:190) both appear as the string "on".
- `printf` progress and usage output, `exit`'s process termination (modelled as the returned status), and the unused `randF` and `r`, `g`, `b` helpers.
- `malloc` failure: the source never checks it, so allocation always succeeds; fresh Dafny arrays stand for uninitialised memory.
- The 256-byte `sprintf` buffer: the path is modelled as an unbounded string, so an overlong prefix does not overflow.
- `size_t` wrap-around of `ni * nj`, `3 * npolys` and `idx`: sizes are unbounded naturals.
- TriMesh.Mesh.Alloc: requires `6 (ni-1)^2 <= 3 npolys`; for inputs outside it (for example ni = 4, nj = 0) the source writes past the vertex buffer, which the model does not describe.
- TriMesh.Mesh.constructor: stands for the uninitialised `tri_mesh_t` on main's stack, with null buffers and zero sizes instead of garbage.
- Terrain.Step: for `NUM_I <= 1` the source divides by zero or by a wrapped size; the model returns 0, a step that no grid point then uses.
- Terrain.BuildTerrain: its contract leaves out the triangle indices, which `TriMesh.Mesh.Alloc` states.

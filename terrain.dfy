/** The driver of main.c: it fills the mesh with a height field, aims a camera
    that orbits the terrain, and issues one frame per orbit step to the
    renderer. Trigonometry and square roots come from a MathLib value whose
    functions are left uninterpreted. */
module Terrain {
  import opened Ri
  import opened TriMesh
  import opened FramePath
  import opened Seqs

  /** The source's PI constant. */
  const Pi: real := 3.141592654

  /** The libm calls the program makes. acosOf(a, b) stands for acos(a / b). */
  datatype MathLib = MathLib(
    sin: real -> real,
    cos: real -> real,
    sqrt: real -> real,
    acosOf: (real, real) -> real)

  // ---------------------------------------------------------------- terrain

  /** The parametric surface: x = u, y = v, height z = 4 sin(u) cos(v). */
  function X(u: real, v: real): real { u }
  function Y(u: real, v: real): real { v }
  function Z(m: MathLib, u: real, v: real): real { 4.0 * m.sin(u) * m.cos(v) }

  const UMin: real := -12.0 * Pi
  const UMax: real := 12.0 * Pi
  const VMin: real := -12.0 * Pi
  const VMax: real := 12.0 * Pi

  /** (hi - lo) / (n - 1). For n <= 1 the source divides by zero (n = 1) or by
      a wrapped-around size (n = 0), but that step is then never used to
      place a point, so any value serves. */
  function Step(lo: real, hi: real, n: nat): real
  {
    if n <= 1 then 0.0 else (hi - lo) / ((n - 1) as real)
  }

  /** The parameter value of grid line i, accumulated one step per line as
      gen_terrain's u += du and v += dv do. */
  function Sample(lo: real, hi: real, n: nat, i: nat): real
  {
    if i == 0 then lo else Sample(lo, hi, n, i - 1) + Step(lo, hi, n)
  }

  /** In exact arithmetic line i sits i steps past lo ... */
  lemma {:induction false} SampleSteps(lo: real, hi: real, n: nat, i: nat)
    ensures Sample(lo, hi, n, i) == lo + (i as real) * Step(lo, hi, n)
  {
    if i > 0 {
      SampleSteps(lo, hi, n, i - 1);
      assert ((i - 1) as real) * Step(lo, hi, n) + Step(lo, hi, n) == (i as real) * Step(lo, hi, n);
    }
  }

  /** ... so the samples run from lo to hi exactly, at both ends. */
  lemma SampleEnds(lo: real, hi: real, n: nat)
    requires n >= 2
    ensures Sample(lo, hi, n, 0) == lo && Sample(lo, hi, n, n - 1) == hi
  {
    SampleSteps(lo, hi, n, n - 1);
    var k := (n - 1) as real;
    assert k * ((hi - lo) / k) == hi - lo;
  }

  /** The point gen_terrain stores for grid point (i, j): the surface point
      with its y and z swapped, (x, z, y). */
  function TerrainPoint(m: MathLib, numI: nat, numJ: nat, i: nat, j: nat): Vec3
  {
    var u := Sample(UMin, UMax, numI, i);
    var v := Sample(VMin, VMax, numJ, j);
    Vec3(X(u, v), Z(m, u, v), Y(u, v))
  }

  /** The height lands in the second component and v in the third. */
  lemma TerrainPointAxes(m: MathLib, numI: nat, numJ: nat, i: nat, j: nat)
    ensures var u, v := Sample(UMin, UMax, numI, i), Sample(VMin, VMax, numJ, j);
            TerrainPoint(m, numI, numJ, i, j) == Vec3(u, 4.0 * m.sin(u) * m.cos(v), v)
  {
  }

  /** C's & on unsigned values. */
  function BitAnd(a: nat, b: nat): nat
  {
    if a == 0 || b == 0 then 0
    else 2 * BitAnd(a / 2, b / 2) + (if a % 2 == 1 && b % 2 == 1 then 1 else 0)
  }

  /** Bit k of n. */
  function Bit(n: nat, k: nat): nat
  {
    if k == 0 then n % 2 else Bit(n / 2, k - 1)
  }

  /** BitAnd is bitwise: each bit of the result is the product of the operands' bits. */
  lemma {:induction false} BitAndBits(a: nat, b: nat, k: nat)
    ensures Bit(BitAnd(a, b), k) == Bit(a, k) * Bit(b, k)
  {
    if a == 0 || b == 0 {
      BitOfZero(k);
    } else if k > 0 {
      var r := BitAnd(a, b);
      assert r / 2 == BitAnd(a / 2, b / 2);
      BitAndBits(a / 2, b / 2, k - 1);
    }
  }

  lemma {:induction false} BitOfZero(k: nat)
    ensures Bit(0, k) == 0
  {
    if k > 0 {
      BitOfZero(k - 1);
    }
  }

  const Green: Vec3 := Vec3(0.0, 1.0, 0.0)
  const Black: Vec3 := Vec3(0.0, 0.0, 0.0)

  /** The colour gen_terrain gives grid point (i, j): green when i & j & 1 is set. */
  function CellColour(i: nat, j: nat): Vec3
  {
    if BitAnd(BitAnd(i, j), 1) != 0 then Green else Black
  }

  /** i & j & 1 is set exactly when both i and j are odd. */
  lemma CellColourParity(i: nat, j: nat)
    ensures CellColour(i, j) == (if i % 2 == 1 && j % 2 == 1 then Green else Black)
  {
    var ij := BitAnd(i, j);
    assert BitAnd(ij, 1) == ij % 2;
    BitAndBits(i, j, 0);
  }

  lemma CellColourExamples()
    ensures CellColour(0, 0) == Black && CellColour(1, 1) == Green && CellColour(1, 2) == Black
  {
    CellColourParity(0, 0);
    CellColourParity(1, 1);
    CellColourParity(1, 2);
  }

  /** gen_terrain: every grid point gets its surface point and its colour. */
  method GenTerrain(mesh: Mesh, m: MathLib)
    requires mesh.Allocated()
    modifies mesh.pts, mesh.colors
    ensures forall i: nat, j: nat | i < mesh.numI && j < mesh.numJ ::
              && mesh.pts[Idx(i, j, mesh.numI, mesh.numJ)] == TerrainPoint(m, mesh.numI, mesh.numJ, i, j)
              && mesh.colors[Idx(i, j, mesh.numI, mesh.numJ)] == CellColour(i, j)
  {
    var numI, numJ := mesh.numI, mesh.numJ;
    var du := Step(UMin, UMax, numI);
    var dv := Step(VMin, VMax, numJ);

    var u := UMin;
    var i := 0;
    while i < numI
      invariant 0 <= i <= numI
      invariant u == Sample(UMin, UMax, numI, i)
      invariant forall a: nat, b: nat | a < i && b < numJ ::
                  && mesh.pts[Idx(a, b, numI, numJ)] == TerrainPoint(m, numI, numJ, a, b)
                  && mesh.colors[Idx(a, b, numI, numJ)] == CellColour(a, b)
    {
      var v := VMin;
      var j := 0;
      while j < numJ
        invariant 0 <= j <= numJ
        invariant v == Sample(VMin, VMax, numJ, j)
        invariant forall a: nat, b: nat | (a < i && b < numJ) || (a == i && b < j) ::
                    && mesh.pts[Idx(a, b, numI, numJ)] == TerrainPoint(m, numI, numJ, a, b)
                    && mesh.colors[Idx(a, b, numI, numJ)] == CellColour(a, b)
      {
        forall a: nat, b: nat | (a < i && b < numJ) || (a == i && b < j)
          ensures Idx(a, b, numI, numJ) != Idx(i, j, numI, numJ)
        {
          IdxInjective(a, b, i, j, numI, numJ);
        }
        mesh.SetPt(i, j, X(u, v), Z(m, u, v), Y(u, v));

        if BitAnd(BitAnd(i, j), 1) != 0 {
          mesh.SetColor(i, j, 0.0, 1.0, 0.0);
        } else {
          mesh.SetColor(i, j, 0.0, 0.0, 0.0);
        }
        v := v + dv;
        j := j + 1;
      }
      u := u + du;
      i := i + 1;
    }
  }

  /** The point buffer gen_terrain leaves: position k holds the terrain point
      of grid point (k / numJ, k % numJ). */
  function PointGrid(m: MathLib, numI: nat, numJ: nat): (r: seq<Vec3>)
    ensures |r| == numI * numJ
  {
    if numJ == 0 then []
    else seq(numI * numJ, k requires 0 <= k < numI * numJ => TerrainPoint(m, numI, numJ, k / numJ, k % numJ))
  }

  /** The colour buffer gen_terrain leaves, in the same order. */
  function ColourGrid(numI: nat, numJ: nat): (r: seq<Vec3>)
    ensures |r| == numI * numJ
  {
    if numJ == 0 then []
    else seq(numI * numJ, k requires 0 <= k < numI * numJ => CellColour(k / numJ, k % numJ))
  }

  /** Grid point (i, j) finds its terrain point and colour at Idx(i, j). */
  lemma GridAt(m: MathLib, numI: nat, numJ: nat, i: nat, j: nat)
    requires i < numI && j < numJ
    ensures Idx(i, j, numI, numJ) < numI * numJ
    ensures PointGrid(m, numI, numJ)[Idx(i, j, numI, numJ)] == TerrainPoint(m, numI, numJ, i, j)
    ensures ColourGrid(numI, numJ)[Idx(i, j, numI, numJ)] == CellColour(i, j)
  {
    var k := Idx(i, j, numI, numJ);
    IdxCovers(k, numI, numJ);
    IdxInjective(k / numJ, k % numJ, i, j, numI, numJ);
  }

  /** Buffers holding every grid point's terrain point and colour at its Idx
      are exactly PointGrid and ColourGrid. */
  lemma GridContents(pts: array<Vec3>, colors: array<Vec3>, m: MathLib, numI: nat, numJ: nat)
    requires pts.Length == numI * numJ && colors.Length == numI * numJ
    requires forall i: nat, j: nat | i < numI && j < numJ ::
               && pts[Idx(i, j, numI, numJ)] == TerrainPoint(m, numI, numJ, i, j)
               && colors[Idx(i, j, numI, numJ)] == CellColour(i, j)
    ensures pts[..] == PointGrid(m, numI, numJ) && colors[..] == ColourGrid(numI, numJ)
  {
    forall k | 0 <= k < numI * numJ
      ensures pts[k] == PointGrid(m, numI, numJ)[k] && colors[k] == ColourGrid(numI, numJ)[k]
    {
      IdxCovers(k, numI, numJ);
    }
  }

  // ---------------------------------------------------------------- camera

  /** Length of the direction's projection on the x,z plane. */
  function XzLen(d: Vec3, m: MathLib): real
  {
    m.sqrt(d.x * d.x + d.z * d.z)
  }

  /** The unsigned rotation about y, in degrees. */
  function YRot(d: Vec3, m: MathLib): real
  {
    var xzlen := XzLen(d, m);
    if xzlen == 0.0 then (if d.y < 0.0 then 180.0 else 0.0)
    else 180.0 * m.acosOf(d.z, xzlen) / Pi
  }

  /** Length of the direction's projection on the y,z plane after the y rotation. */
  function YzLen(d: Vec3, m: MathLib): real
  {
    var xzlen := XzLen(d, m);
    m.sqrt(d.y * d.y + xzlen * xzlen)
  }

  /** The unsigned rotation about x, in degrees. */
  function XRot(d: Vec3, m: MathLib): real
  {
    180.0 * m.acosOf(XzLen(d, m), YzLen(d, m)) / Pi
  }

  /** The transforms AimZ issues for direction d. */
  function AimZCommands(d: Vec3, m: MathLib): seq<Command>
  {
    if d == Zero then []
    else
      [Rotate(if d.y > 0.0 then XRot(d, m) else -XRot(d, m), XAxis),
       Rotate(if d.x > 0.0 then -YRot(d, m) else YRot(d, m), YAxis)]
  }

  /** AimZ: rotate the world so that the direction points along +z. */
  method AimZ(direction: Vec3, m: MathLib, r: Renderer)
    modifies r
    ensures r.trace == old(r.trace) + AimZCommands(direction, m)
  {
    if direction.x == 0.0 && direction.y == 0.0 && direction.z == 0.0 {
      return;
    }

    var xzlen := XzLen(direction, m);
    var yrot: real;
    if xzlen == 0.0 {
      yrot := if direction.y < 0.0 then 180.0 else 0.0;
    } else {
      yrot := 180.0 * m.acosOf(direction.z, xzlen) / Pi;
    }

    var yzlen := YzLen(direction, m);
    var xrot := 180.0 * m.acosOf(xzlen, yzlen) / Pi; // yzlen is never 0 here
    assert direction != Zero;

    if direction.y > 0.0 {
      r.Emit(Rotate(xrot, XAxis));
    } else {
      r.Emit(Rotate(-xrot, XAxis));
    }

    // The last rotation declared is applied first.
    if direction.x > 0.0 {
      r.Emit(Rotate(-yrot, YAxis));
    } else {
      r.Emit(Rotate(yrot, YAxis));
    }
  }

  /** The zero direction emits nothing; any other emits a rotation about x
      followed by one about y, the x angle negated unless d.y > 0 and the
      y angle negated when d.x > 0. */
  lemma AimZShape(d: Vec3, m: MathLib)
    ensures AimZCommands(d, m) == [] <==> d == Zero
    ensures d != Zero ==>
              var c := AimZCommands(d, m);
              && |c| == 2
              && c[0] == Rotate((if d.y > 0.0 then 1.0 else -1.0) * XRot(d, m), XAxis)
              && c[1] == Rotate((if d.x > 0.0 then -1.0 else 1.0) * YRot(d, m), YAxis)
  {
  }

  /** Straight up or down (no x,z extent): the y rotation is 180 degrees when
      looking down the negative y axis and 0 otherwise. */
  lemma AimZVertical(d: Vec3, m: MathLib)
    requires d.x == 0.0 && d.z == 0.0 && d.y != 0.0
    requires m.sqrt(0.0) == 0.0
    ensures AimZCommands(d, m)[1] == Rotate(if d.y < 0.0 then 180.0 else 0.0, YAxis)
  {
    assert d.x * d.x + d.z * d.z == 0.0;
  }

  /** A direction already along +z needs no turn: both angles are 0, given
      sqrt(1) = 1 and acos(1) = 0. */
  lemma AimZAligned(m: MathLib)
    requires m.sqrt(1.0) == 1.0 && m.acosOf(1.0, 1.0) == 0.0
    ensures AimZCommands(ZAxis, m) == [Rotate(0.0, XAxis), Rotate(0.0, YAxis)]
  {
    assert XzLen(ZAxis, m) == 1.0;
  }

  datatype Camera = Camera(location: Vec3, lookAt: Vec3, roll: real)

  /** The view transform PlaceCamera issues: roll, aim, then translate. */
  function PlaceCameraCommands(cam: Camera, m: MathLib): seq<Command>
  {
    [Rotate(-cam.roll, ZAxis)]
    + AimZCommands(Sub(cam.lookAt, cam.location), m)
    + [Translate(Neg(cam.location))]
  }

  /** PlaceCamera. */
  method PlaceCamera(cam: Camera, m: MathLib, r: Renderer)
    modifies r
    ensures r.trace == old(r.trace) + PlaceCameraCommands(cam, m)
  {
    r.Emit(Rotate(-cam.roll, ZAxis));
    var direction := Vec3(cam.lookAt.x - cam.location.x,
                          cam.lookAt.y - cam.location.y,
                          cam.lookAt.z - cam.location.z);
    AimZ(direction, m, r);
    r.Emit(Translate(Vec3(-cam.location.x, -cam.location.y, -cam.location.z)));
  }

  /** The roll comes first and the translation last, with the aim between; the
      aim is empty exactly when the camera sits on its target. */
  lemma PlaceCameraOrder(cam: Camera, m: MathLib)
    ensures var c := PlaceCameraCommands(cam, m);
            && |c| == (if cam.location == cam.lookAt then 2 else 4)
            && c[0] == Rotate(-cam.roll, ZAxis)
            && c[1..|c| - 1] == AimZCommands(Sub(cam.lookAt, cam.location), m)
            && c[|c| - 1] == Translate(Vec3(-cam.location.x, -cam.location.y, -cam.location.z))
  {
    var c := PlaceCameraCommands(cam, m);
    AimZShape(Sub(cam.lookAt, cam.location), m);
    assert Sub(cam.lookAt, cam.location) == Zero <==> cam.location == cam.lookAt;
    assert c[1..|c| - 1] == AimZCommands(Sub(cam.lookAt, cam.location), m);
  }

  // ---------------------------------------------------------------- frames

  datatype Scene = Scene(cam: Camera, prefix: string)

  const LightFrom: Vec3 := Vec3(40.0, 80.0, 40.0)

  /** The calls doFrame makes before the camera transform. */
  function FrameHead(fNum: int, prefix: string): seq<Command>
  {
    [FrameBegin(fNum),
     Display(DisplayPath(prefix, fNum), "file", "rgba"),
     Format(800, 600, 1.25),
     Projection("perspective")]
  }

  /** The fixed attribute and light calls of every frame. */
  const Visibility: Command :=
    Attribute("visibility", [IntParam("int camera", 1), IntParam("int transmission", 1),
                             IntParam("int diffuse", 1), IntParam("int specular", 1),
                             IntParam("int photon", 1)])
  const ShadowSamples: Command := Attribute("light", [StringParam("shadows", "on"), IntParam("samples", 2)])
  const ShadowOn: Command := Attribute("light", [StringParam("string shadow", "on")])
  const DistantLight: Command := LightSource("distantlight", LightFrom)

  /** The calls doFrame makes after the camera transform. */
  function FrameTail(g: Geometry): seq<Command>
  {
    [Visibility,
     ShadowSamples,
     ShadowOn,
     DistantLight,
     WorldBegin,
     Surface("matte"),
     PointsPolygons(g),
     WorldEnd,
     FrameEnd]
  }

  /** Everything doFrame issues for frame fNum. */
  function FrameCommands(fNum: int, scene: Scene, g: Geometry, m: MathLib): seq<Command>
  {
    FrameHead(fNum, scene.prefix) + PlaceCameraCommands(scene.cam, m) + FrameTail(g)
  }

  /** doFrame's calls up to the projection: frame number, output file, image
      format. */
  method EmitFrameHead(fNum: int, prefix: string, r: Renderer)
    modifies r
    ensures r.trace == old(r.trace) + FrameHead(fNum, prefix)
  {
    r.Emit(FrameBegin(fNum));

    var path := DisplayPath(prefix, fNum);
    r.Emit(Display(path, "file", "rgba"));

    r.Emit(Format(800, 600, 1.25));

    r.Emit(Projection("perspective"));
  }

  /** doFrame's calls after the camera: attributes, light, and the world. */
  method EmitFrameTail(mesh: Mesh, r: Renderer)
    requires mesh.pts != null && mesh.colors != null
    modifies r
    ensures r.trace == old(r.trace) + FrameTail(mesh.Drawn())
  {
    r.Emit(Visibility);
    r.Emit(ShadowSamples);
    r.Emit(ShadowOn);
    r.Emit(DistantLight);

    r.Emit(WorldBegin);

    r.Emit(Surface("matte"));

    mesh.Render(r);

    r.Emit(WorldEnd);
    r.Emit(FrameEnd);
  }

  /** doFrame. */
  method DoFrame(fNum: int, scene: Scene, mesh: Mesh, m: MathLib, r: Renderer)
    requires mesh.pts != null && mesh.colors != null
    modifies r
    ensures r.trace == old(r.trace) + FrameCommands(fNum, scene, mesh.Drawn(), m)
  {
    ghost var start := r.trace;
    ghost var head, cam := FrameHead(fNum, scene.prefix), PlaceCameraCommands(scene.cam, m);
    EmitFrameHead(fNum, scene.prefix, r);
    PlaceCamera(scene.cam, m, r);
    AppendAssoc(start, head, cam);
    EmitFrameTail(mesh, r);
    AppendAssoc(start, head + cam, FrameTail(mesh.Drawn()));
  }

  predicate IsTransform(c: Command)
  {
    c.Rotate? || c.Translate?
  }

  /** Outside the camera transform a frame issues no transform, and its one
      draw call is the seventh command after the camera. */
  lemma HeadTailShape(fNum: int, prefix: string, g: Geometry)
    ensures forall k :: 0 <= k < |FrameHead(fNum, prefix)| ==>
              !IsTransform(FrameHead(fNum, prefix)[k]) && !FrameHead(fNum, prefix)[k].PointsPolygons?
    ensures forall k :: 0 <= k < |FrameTail(g)| ==>
              !IsTransform(FrameTail(g)[k]) && (FrameTail(g)[k].PointsPolygons? ==> k == 6)
  {
    var head, tail := FrameHead(fNum, prefix), FrameTail(g);
    forall k | 0 <= k < |head|
      ensures !IsTransform(head[k]) && !head[k].PointsPolygons?
    {
      if k == 0 {} else if k == 1 {} else if k == 2 {} else {}
    }
    forall k | 0 <= k < |tail|
      ensures !IsTransform(tail[k]) && (tail[k].PointsPolygons? ==> k == 6)
    {
      if k < 3 {} else if k == 3 {} else if k == 4 {} else if k == 5 {} else if k == 6 {} else if k == 7 {} else {}
    }
  }

  /** A frame is bracketed by FrameBegin(fNum) and FrameEnd, names its file
      second, and draws the mesh inside WorldBegin .. WorldEnd. */
  lemma FrameProtocol(fNum: int, scene: Scene, g: Geometry, m: MathLib)
    ensures var c := FrameCommands(fNum, scene, g, m);
            var w := |c| - 5;
            && 4 <= w
            && c[0] == FrameBegin(fNum) && c[|c| - 1] == FrameEnd
            && c[1] == Display(DisplayPath(scene.prefix, fNum), "file", "rgba")
            && c[w] == WorldBegin && c[w + 2] == PointsPolygons(g) && c[w + 3] == WorldEnd
  {
    var head, cam, tail := FrameHead(fNum, scene.prefix), PlaceCameraCommands(scene.cam, m), FrameTail(g);
    var c := head + cam + tail;
    assert |head| == 4 && |tail| == 9;
    var w := |c| - 5;
    assert c[0] == head[0] && c[1] == head[1] by {
      IndexConcat3(head, cam, tail, 0);
      IndexConcat3(head, cam, tail, 1);
    }
    assert c[w] == tail[4] && c[w + 2] == tail[6] && c[w + 3] == tail[7] && c[|c| - 1] == tail[8] by {
      IndexConcat3(head, cam, tail, w);
      IndexConcat3(head, cam, tail, w + 2);
      IndexConcat3(head, cam, tail, w + 3);
      IndexConcat3(head, cam, tail, |c| - 1);
    }
  }

  /** Every transform of a frame comes before WorldBegin, and its one draw
      call is the second command after it. */
  lemma FrameTransformsFirst(fNum: int, scene: Scene, g: Geometry, m: MathLib)
    ensures var c := FrameCommands(fNum, scene, g, m);
            var w := |c| - 5;
            && (forall k :: 0 <= k < |c| && IsTransform(c[k]) ==> k < w)
            && (forall k :: 0 <= k < |c| && c[k].PointsPolygons? ==> k == w + 2)
  {
    var head, cam, tail := FrameHead(fNum, scene.prefix), PlaceCameraCommands(scene.cam, m), FrameTail(g);
    var c := head + cam + tail;
    assert |head| == 4 && |tail| == 9;
    var w := |c| - 5;
    PlaceCameraOrder(scene.cam, m);
    AimZShape(Sub(scene.cam.lookAt, scene.cam.location), m);
    assert forall k :: 0 <= k < |cam| ==> IsTransform(cam[k]);
    HeadTailShape(fNum, scene.prefix, g);
    forall k | 0 <= k < |c|
      ensures IsTransform(c[k]) ==> k < w
      ensures c[k].PointsPolygons? ==> k == w + 2
    {
      IndexConcat3(head, cam, tail, k);
    }
  }

  // ---------------------------------------------------------------- main

  const NumFrames: nat := 20
  const OrbitRadius: real := 40.0
  /** The orbit angle advances by 2 PI / (NUM_FRAMES - 1) per frame. */
  const FrameStep: real := 2.0 * Pi / ((NumFrames - 1) as real)
  /** The grid size main allocates. */
  const GridSize: nat := 256

  /** What every frame of main draws: the terrain of a GridSize x GridSize mesh. */
  function TerrainGeometry(m: MathLib): Geometry
  {
    Geometry(PolyCount(GridSize, GridSize), PointGrid(m, GridSize, GridSize), ColourGrid(GridSize, GridSize))
  }

  /** The orbit angle of frame k, accumulated one step per frame as main's
      t += dt does. */
  function OrbitAngle(k: nat): real
  {
    if k == 0 then 0.0 else OrbitAngle(k - 1) + FrameStep
  }

  /** In exact arithmetic the accumulated angle is k steps ... */
  lemma {:induction false} OrbitAngleSteps(k: nat)
    ensures OrbitAngle(k) == (k as real) * FrameStep
  {
    if k > 0 {
      OrbitAngleSteps(k - 1);
      assert ((k - 1) as real) * FrameStep + FrameStep == (k as real) * FrameStep;
    }
  }

  /** ... so the last frame is back at the start of the circle: a full turn. */
  lemma OrbitCloses()
    ensures OrbitAngle(0) == 0.0 && OrbitAngle(NumFrames - 1) == 2.0 * Pi
  {
    OrbitAngleSteps(NumFrames - 1);
  }

  /** The camera of frame k: on a circle of radius 40 at angle OrbitAngle(k),
      20 units up, looking at the origin without roll. */
  function OrbitCamera(m: MathLib, k: nat): Camera
  {
    var t := OrbitAngle(k);
    Camera(Vec3(OrbitRadius * m.sin(t), 20.0, OrbitRadius * m.cos(t)), Zero, 0.0)
  }

  /** Frames 0 .. count - 1 of main's orbit, in order. */
  function OrbitFrames(prefix: string, g: Geometry, m: MathLib, count: nat): seq<Command>
  {
    if count == 0 then []
    else
      OrbitFrames(prefix, g, m, count - 1)
      + FrameCommands(count - 1, Scene(OrbitCamera(m, count - 1), prefix), g, m)
  }

  /** The commands of frame k of main's orbit. */
  function OrbitFrame(prefix: string, g: Geometry, m: MathLib): nat -> seq<Command>
  {
    (k: nat) => FrameCommands(k, Scene(OrbitCamera(m, k), prefix), g, m)
  }

  /** The whole renderer session main opens when given an output prefix. */
  function SessionCommands(prefix: string, m: MathLib): seq<Command>
  {
    [Begin, Option("trace", "maxdepth", 4), Sides(2)]
    + OrbitFrames(prefix, TerrainGeometry(m), m, NumFrames)
    + [End]
  }

  /** main's frame loop: the camera circles the origin, one step of the
      orbit angle per frame. */
  method RenderOrbit(prefix: string, mesh: Mesh, m: MathLib, r: Renderer)
    requires mesh.pts != null && mesh.colors != null
    modifies r
    ensures r.trace == old(r.trace) + OrbitFrames(prefix, mesh.Drawn(), m, NumFrames)
  {
    var scene := Scene(Camera(Vec3(20.0, 20.0, 20.0), Vec3(0.0, 0.0, 0.0), 0.0), prefix);
    var t := 0.0;
    var dt := 2.0 * Pi / ((NumFrames - 1) as real);

    var fnum := 0;
    while fnum < NumFrames
      invariant 0 <= fnum <= NumFrames
      invariant dt == FrameStep && t == OrbitAngle(fnum)
      invariant scene.prefix == prefix && scene.cam.location.y == 20.0
      invariant scene.cam.lookAt == Zero && scene.cam.roll == 0.0
      invariant r.trace == old(r.trace) + OrbitFrames(prefix, mesh.Drawn(), m, fnum)
    {
      scene := scene.(cam := scene.cam.(location := Vec3(OrbitRadius * m.sin(t),
                                                         scene.cam.location.y,
                                                         OrbitRadius * m.cos(t))));
      assert scene.cam == OrbitCamera(m, fnum);
      t := t + dt;
      DoFrame(fnum, scene, mesh, m, r);
      AppendAssoc(old(r.trace), OrbitFrames(prefix, mesh.Drawn(), m, fnum),
                  FrameCommands(fnum, scene, mesh.Drawn(), m));
      fnum := fnum + 1;
    }
  }

  /** main's mesh set-up: a size by size grid of terrain points and colours
      (Alloc states the triangles). */
  method BuildTerrain(mesh: Mesh, size: nat, m: MathLib)
    requires size >= 1
    modifies mesh
    ensures mesh.Allocated() && mesh.numI == size && mesh.numJ == size
    ensures mesh.npolys == PolyCount(size, size)
    ensures forall i: nat, j: nat | i < size && j < size ::
              && mesh.pts[Idx(i, j, size, size)] == TerrainPoint(m, size, size, i, j)
              && mesh.colors[Idx(i, j, size, size)] == CellColour(i, j)
    ensures mesh.pts[..] == PointGrid(m, size, size) && mesh.colors[..] == ColourGrid(size, size)
  {
    DeclaredExceedsFilled(size, size);
    mesh.Alloc(size, size);
    GenTerrain(mesh, m);
    GridContents(mesh.pts, mesh.colors, m, size, size);
  }

  /** main, with argv[0 .. argc - 1] as args. Without an output prefix it
      returns 1 before opening a session; otherwise it renders NumFrames
      frames and releases the mesh. */
  method Run(args: seq<string>, m: MathLib, mesh: Mesh, r: Renderer) returns (status: int)
    modifies r, mesh
    ensures |args| < 2 ==> status == 1 && r.trace == old(r.trace) && unchanged(mesh)
    ensures |args| >= 2 ==> status == 0 && r.trace == old(r.trace) + SessionCommands(args[1], m)
    ensures |args| >= 2 ==> mesh.Released()
  {
    if |args| < 2 {
      status := 1;
      return;
    }

    ghost var start := r.trace;
    r.Emit(Begin);
    r.Emit(Option("trace", "maxdepth", 4));
    r.Emit(Sides(2));
    ghost var opening := r.trace[|start|..];
    assert r.trace == start + opening && opening == [Begin, Option("trace", "maxdepth", 4), Sides(2)];

    BuildTerrain(mesh, GridSize, m);

    assert mesh.Drawn() == TerrainGeometry(m);
    ghost var frames := OrbitFrames(args[1], TerrainGeometry(m), m, NumFrames);
    RenderOrbit(args[1], mesh, m, r);
    AppendAssoc(start, opening, frames);

    mesh.Free();
    r.Emit(End);
    AppendAssoc(start, opening + frames, [End]);
    status := 0;
  }

  /** Every orbit camera frame issues the same number of commands: 17. */
  lemma OrbitFrameLength(prefix: string, g: Geometry, m: MathLib, k: nat)
    ensures |FrameCommands(k, Scene(OrbitCamera(m, k), prefix), g, m)| == 17
  {
    PlaceCameraOrder(OrbitCamera(m, k), m);
  }

  /** Every frame of the orbit is 17 commands long. */
  lemma OrbitFramesLength(prefix: string, g: Geometry, m: MathLib)
    ensures forall k: nat :: |OrbitFrame(prefix, g, m)(k)| == 17
  {
    forall k: nat ensures |OrbitFrame(prefix, g, m)(k)| == 17 {
      OrbitFrameLength(prefix, g, m, k);
    }
  }

  lemma {:induction false} OrbitFramesAreBlocks(prefix: string, g: Geometry, m: MathLib, count: nat)
    ensures OrbitFrames(prefix, g, m, count) == Blocks(OrbitFrame(prefix, g, m), count)
  {
    if count > 0 {
      OrbitFramesAreBlocks(prefix, g, m, count - 1);
    }
  }

  /** Frame k of the orbit occupies commands 17 k .. 17 k + 16 of the frames. */
  lemma FramesAt(prefix: string, g: Geometry, m: MathLib, count: nat, k: nat)
    requires k < count
    ensures |OrbitFrames(prefix, g, m, count)| == 17 * count
    ensures OrbitFrames(prefix, g, m, count)[17 * k..17 * k + 17]
            == FrameCommands(k, Scene(OrbitCamera(m, k), prefix), g, m)
  {
    var f := OrbitFrame(prefix, g, m);
    OrbitFramesAreBlocks(prefix, g, m, count);
    OrbitFramesLength(prefix, g, m);
    BlocksLength(f, 17, count);
    BlocksLength(f, 17, k);
    BlocksLength(f, 17, k + 1);
    BlocksAt(f, count, k);
  }

  /** The session opens with Begin and closes with End, and frame k (k < 20)
      is commands 3 + 17 k .. 3 + 17 k + 16, with the camera at orbit step k. */
  lemma SessionLayout(prefix: string, m: MathLib, k: nat)
    requires k < NumFrames
    ensures var s := SessionCommands(prefix, m);
            && |s| == 3 + 17 * NumFrames + 1
            && s[0] == Begin && s[|s| - 1] == End
            && s[3 + 17 * k..3 + 17 * k + 17]
               == FrameCommands(k, Scene(OrbitCamera(m, k), prefix), TerrainGeometry(m), m)
  {
    var g := TerrainGeometry(m);
    var frames := OrbitFrames(prefix, g, m, NumFrames);
    FramesAt(prefix, g, m, NumFrames, k);
    var open: seq<Command> := [Begin, Option("trace", "maxdepth", 4), Sides(2)];
    var s := SessionCommands(prefix, m);
    assert s == open + frames + [End];
    SliceOfMiddle(open, frames, [End], 17 * k, 17 * k + 17);
  }

  /** Frame k starts with FrameBegin(k) and writes
      images/<prefix><k, five digits>.tif. */
  lemma SessionFrames(prefix: string, m: MathLib, k: nat)
    requires k < NumFrames
    ensures var s := SessionCommands(prefix, m);
            && 3 + 17 * k + 1 < |s|
            && s[3 + 17 * k] == FrameBegin(k)
            && s[3 + 17 * k + 1] == Display(DisplayPath(prefix, k), "file", "rgba")
  {
    var s := SessionCommands(prefix, m);
    var frame := FrameCommands(k, Scene(OrbitCamera(m, k), prefix), TerrainGeometry(m), m);
    SessionLayout(prefix, m, k);
    assert s[3 + 17 * k] == frame[0] && s[3 + 17 * k + 1] == frame[1];
    FrameProtocol(k, Scene(OrbitCamera(m, k), prefix), TerrainGeometry(m), m);
  }

  /** A frame's only draw call declares the mesh's polygon count. */
  lemma FrameDrawsMesh(fNum: int, scene: Scene, g: Geometry, m: MathLib)
    ensures forall c | c in FrameCommands(fNum, scene, g, m) && c.PointsPolygons? :: c.geometry == g
  {
    var f := FrameCommands(fNum, scene, g, m);
    FrameProtocol(fNum, scene, g, m);
    FrameTransformsFirst(fNum, scene, g, m);
    forall c | c in f && c.PointsPolygons? ensures c.geometry == g {
      var i :| 0 <= i < |f| && f[i] == c;
    }
  }

  /** Every draw call of the orbit declares the same polygon count. */
  lemma FramesDrawSameMesh(prefix: string, g: Geometry, m: MathLib, count: nat)
    ensures forall c | c in OrbitFrames(prefix, g, m, count) && c.PointsPolygons? :: c.geometry == g
  {
    var f := OrbitFrame(prefix, g, m);
    OrbitFramesAreBlocks(prefix, g, m, count);
    forall c: Command | c in Blocks(f, count) && c.PointsPolygons? ensures c.geometry == g {
      BlocksMember(f, count, c);
      var k :| 0 <= k < count && c in f(k);
      FrameDrawsMesh(k, Scene(OrbitCamera(m, k), prefix), g, m);
    }
  }

  /** The file name of frame k < 20, digit by digit:
      images/<prefix>000<tens><units>.tif. */
  lemma FrameFileName(prefix: string, k: nat)
    requires k < NumFrames
    ensures DisplayPath(prefix, k) == "images/" + prefix + "000" + [DigitChar(k / 10), DigitChar(k % 10)] + ".tif"
  {
    Format05dDigits(k);
    assert k / 10000 == 0 && k / 1000 % 10 == 0 && k / 100 % 10 == 0 && k / 10 % 10 == k / 10;
  }

  /** Every draw call of the session draws the generated terrain: the 256 x 256
      grid of terrain points with their parity colours. */
  lemma SessionDrawsTerrain(prefix: string, m: MathLib)
    ensures forall c | c in SessionCommands(prefix, m) && c.PointsPolygons? :: c.geometry == TerrainGeometry(m)
  {
    var open: seq<Command> := [Begin, Option("trace", "maxdepth", 4), Sides(2)];
    var frames := OrbitFrames(prefix, TerrainGeometry(m), m, NumFrames);
    assert SessionCommands(prefix, m) == open + frames + [End];
    FramesDrawSameMesh(prefix, TerrainGeometry(m), m, NumFrames);
  }
}

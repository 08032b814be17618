/** The grid triangle mesh of trimesh.c: NUM_I x NUM_J points and colours in
    row-major flat buffers, a per-polygon vertex count buffer and a vertex
    index buffer holding two triangles per grid cell. */
module TriMesh {
  import opened Ri
  import opened Seqs

  /** a <= b scales to a * n <= b * n. */
  lemma {:induction false} MulLe(a: nat, b: nat, n: nat)
    requires a <= b
    ensures a * n <= b * n
  {
    if a < b {
      MulLe(a, b - 1, n);
      assert (b - 1) * n + n == b * n;
    }
  }

  /** The flat position of grid point (i, j); numI plays no part in it. */
  function Idx(i: nat, j: nat, numI: nat, numJ: nat): (r: nat)
    ensures i < numI && j < numJ ==> r < numI * numJ
  {
    var r := i * numJ + j;
    assert i < numI && j < numJ ==> r < numI * numJ by {
      if i < numI && j < numJ {
        MulLe(i + 1, numI, numJ);
        assert (i + 1) * numJ == i * numJ + numJ;
      }
    }
    r
  }

  /** Within a row of width numJ, distinct grid points have distinct flat positions. */
  lemma IdxInjective(i: nat, j: nat, i2: nat, j2: nat, numI: nat, numJ: nat)
    requires j < numJ && j2 < numJ
    ensures Idx(i, j, numI, numJ) == Idx(i2, j2, numI, numJ) <==> i == i2 && j == j2
  {
    if i < i2 {
      MulLe(i + 1, i2, numJ);
      assert (i + 1) * numJ == i * numJ + numJ;
    } else if i2 < i {
      MulLe(i2 + 1, i, numJ);
      assert (i2 + 1) * numJ == i2 * numJ + numJ;
    }
  }

  /** Every flat position below numI * numJ is the position of one grid point. */
  lemma IdxCovers(k: nat, numI: nat, numJ: nat)
    requires k < numI * numJ
    ensures numJ > 0 && k / numJ < numI && k % numJ < numJ
    ensures Idx(k / numJ, k % numJ, numI, numJ) == k
  {
    if k / numJ >= numI {
      MulLe(numI, k / numJ, numJ);
    }
  }

  /** The polygon count tmesh_alloc declares: 2 * (nj + 1) * (ni + 1). */
  function PolyCount(ni: nat, nj: nat): nat
  {
    2 * (nj + 1) * (ni + 1)
  }

  /** How many vertex-index entries the fill loop writes: six per cell, over
      (ni - 1) x (ni - 1) cells, since both loops are bounded by ni - 1. */
  function FilledCount(ni: nat): nat
    requires ni >= 1
  {
    6 * (ni - 1) * (ni - 1)
  }

  /** The six entries written for cell (i, j): the triangles
      (i,j) (i,j+1) (i+1,j) and (i,j+1) (i+1,j+1) (i+1,j). */
  function CellIndices(i: nat, j: nat, ni: nat, nj: nat): (r: seq<int>)
    ensures |r| == 6
  {
    [Idx(i, j, ni, nj), Idx(i, j + 1, ni, nj), Idx(i + 1, j, ni, nj),
     Idx(i, j + 1, ni, nj), Idx(i + 1, j + 1, ni, nj), Idx(i + 1, j, ni, nj)]
  }

  /** The entries written for cells (i, 0) .. (i, cols - 1), in order. */
  function RowIndices(i: nat, cols: nat, ni: nat, nj: nat): (r: seq<int>)
    ensures |r| == 6 * cols
  {
    if cols == 0 then [] else RowIndices(i, cols - 1, ni, nj) + CellIndices(i, cols - 1, ni, nj)
  }

  /** The entries written for rows 0 .. rows - 1, each of cols cells, in order. */
  function GridIndices(rows: nat, cols: nat, ni: nat, nj: nat): (r: seq<int>)
    ensures |r| == 6 * rows * cols
  {
    if rows == 0 then []
    else
      var r := GridIndices(rows - 1, cols, ni, nj) + RowIndices(rows - 1, cols, ni, nj);
      assert 6 * (rows - 1) * cols + 6 * cols == 6 * rows * cols;
      r
  }

  /** Everything the fill loop of tmesh_alloc writes, in order. */
  function TriangleIndices(ni: nat, nj: nat): (r: seq<int>)
    requires ni >= 1
    ensures |r| == FilledCount(ni)
  {
    GridIndices(ni - 1, ni - 1, ni, nj)
  }

  lemma {:induction false} RowIndicesAt(i: nat, cols: nat, j: nat, k: nat, ni: nat, nj: nat)
    requires j < cols && k < 6
    ensures RowIndices(i, cols, ni, nj)[6 * j + k] == CellIndices(i, j, ni, nj)[k]
  {
    if j < cols - 1 {
      RowIndicesAt(i, cols - 1, j, k, ni, nj);
    }
  }

  /** Cell j of row i, entry k, lies before the end of row r - 1 for i < r. */
  lemma OffsetBefore(i: nat, r: nat, w: nat, j: nat, k: nat)
    requires i < r && j < w && k < 6
    ensures 0 <= 6 * i * w + 6 * j + k < 6 * r * w
  {
    MulLe(0, i, w);
    MulLe(i + 1, r, w);
    assert (i + 1) * w == i * w + w;
    assert 6 * i * w == 6 * (i * w) && 6 * r * w == 6 * (r * w);
  }

  /** Row i < w of w cells ends no later than the last of w rows. */
  lemma RowEnd(i: nat, w: nat)
    requires i < w
    ensures 6 * i * w + 6 * w == 6 * (i + 1) * w <= 6 * w * w
  {
    MulLe(i + 1, w, w);
    assert (i + 1) * w == i * w + w;
    assert 6 * i * w == 6 * (i * w) && 6 * w * w == 6 * (w * w);
    assert 6 * (i + 1) * w == 6 * ((i + 1) * w);
  }

  lemma {:induction false} GridIndicesAt(rows: nat, cols: nat, i: nat, j: nat, k: nat, ni: nat, nj: nat)
    requires i < rows && j < cols && k < 6
    ensures 0 <= 6 * i * cols + 6 * j + k < |GridIndices(rows, cols, ni, nj)|
    ensures GridIndices(rows, cols, ni, nj)[6 * i * cols + 6 * j + k] == CellIndices(i, j, ni, nj)[k]
  {
    var o := 6 * i * cols + 6 * j + k;
    var pre := GridIndices(rows - 1, cols, ni, nj);
    var row := RowIndices(rows - 1, cols, ni, nj);
    assert GridIndices(rows, cols, ni, nj) == pre + row;
    assert |pre| + |row| == |GridIndices(rows, cols, ni, nj)| == 6 * rows * cols;
    OffsetBefore(i, rows, cols, j, k);
    IndexConcat(pre, row, o);
    if i < rows - 1 {
      GridIndicesAt(rows - 1, cols, i, j, k, ni, nj);
    } else {
      assert o - |pre| == 6 * j + k;
      RowIndicesAt(i, cols, j, k, ni, nj);
    }
  }

  /** Cell (i, j) of the (ni - 1) x (ni - 1) cells owns the six entries from
      6 * i * (ni - 1) + 6 * j, holding its two triangles in order. */
  lemma TriangleIndicesAt(i: nat, j: nat, k: nat, ni: nat, nj: nat)
    requires ni >= 1 && i < ni - 1 && j < ni - 1 && k < 6
    ensures 0 <= 6 * i * (ni - 1) + 6 * j + k < |TriangleIndices(ni, nj)|
    ensures TriangleIndices(ni, nj)[6 * i * (ni - 1) + 6 * j + k] == CellIndices(i, j, ni, nj)[k]
  {
    GridIndicesAt(ni - 1, ni - 1, i, j, k, ni, nj);
    MulLe(0, i, ni - 1);
  }

  ghost predicate AllBelow(s: seq<int>, bound: int)
  {
    forall k :: 0 <= k < |s| ==> 0 <= s[k] < bound
  }

  lemma {:induction false} RowIndicesBelow(i: nat, cols: nat, ni: nat, nj: nat)
    requires i + 1 < ni && cols < nj
    ensures AllBelow(RowIndices(i, cols, ni, nj), ni * nj)
  {
    if cols > 0 {
      RowIndicesBelow(i, cols - 1, ni, nj);
      var c := CellIndices(i, cols - 1, ni, nj);
      assert AllBelow(c, ni * nj);
    }
  }

  lemma {:induction false} GridIndicesBelow(rows: nat, ni: nat, nj: nat)
    requires ni >= 1 && rows < ni && ni <= nj
    ensures AllBelow(GridIndices(rows, ni - 1, ni, nj), ni * nj)
  {
    if rows > 0 {
      GridIndicesBelow(rows - 1, ni, nj);
      RowIndicesBelow(rows - 1, ni - 1, ni, nj);
    }
  }

  /** Every written vertex index addresses a real grid point exactly when the
      grid is at least as wide as it is tall (nj >= ni), or has no cells. */
  lemma TriangleIndicesInRange(ni: nat, nj: nat)
    requires ni >= 1
    ensures AllBelow(TriangleIndices(ni, nj), ni * nj) <==> (ni == 1 || nj >= ni)
  {
    if ni == 1 {
    } else if nj >= ni {
      GridIndicesBelow(ni - 1, ni, nj);
    } else {
      // Cell (ni - 2, ni - 2) names point (ni - 1, ni - 1), which lies past the end.
      TriangleIndicesAt(ni - 2, ni - 2, 4, ni, nj);
      assert CellIndices(ni - 2, ni - 2, ni, nj)[4] == (ni - 1) * nj + (ni - 1);
      assert (ni - 1) * nj + nj == ni * nj;
    }
  }

  /** The fill loop stays inside the 3 * npolys entries of the vertex buffer
      when nj + 2 >= ni, square grids included. */
  lemma FilledFitsBuffer(ni: nat, nj: nat)
    requires ni >= 1 && nj + 2 >= ni
    ensures FilledCount(ni) <= 3 * PolyCount(ni, nj)
  {
    MulLe(ni - 1, nj + 1, ni - 1);
    MulLe(ni - 1, ni + 1, nj + 1);
    assert (nj + 1) * (ni - 1) == (ni - 1) * (nj + 1);
  }

  /** With nj + 2 >= ni the declared polygon count exceeds the triangles the
      loop writes, so part of what is handed to the renderer is never written. */
  lemma DeclaredExceedsFilled(ni: nat, nj: nat)
    requires ni >= 1 && nj + 2 >= ni
    ensures FilledCount(ni) < 3 * PolyCount(ni, nj)
  {
    MulLe(ni - 1, nj + 1, ni - 1);
    assert (ni - 1) * (ni - 1) < (ni - 1) * (ni + 1) + 1 * (ni - 1) + 2 by {
      assert (ni - 1) * (ni + 1) == (ni - 1) * (ni - 1) + 2 * (ni - 1);
    }
    MulLe(ni - 1, ni + 1, nj + 1);
    assert (nj + 1) * (ni - 1) == (ni - 1) * (nj + 1);
    assert (nj + 1) * (ni + 1) == (ni + 1) * (nj + 1);
  }

  /** Past that condition the counts can meet (ni = 3, nj = 0) and the fill
      loop can overrun the vertex buffer (ni = 4, nj = 0). */
  lemma TallGridCounts()
    ensures FilledCount(3) == 3 * PolyCount(3, 0)
    ensures FilledCount(4) > 3 * PolyCount(4, 0)
  {
  }

  /** One cell's step of the fill loop: the six entries from curIdx. */
  method WriteCell(vertices: array<int>, curIdx: nat, i: nat, j: nat, ni: nat, nj: nat)
    requires curIdx + 6 <= vertices.Length
    modifies vertices
    ensures vertices[curIdx..curIdx + 6] == CellIndices(i, j, ni, nj)
    ensures forall k :: 0 <= k < vertices.Length && !(curIdx <= k < curIdx + 6) ==> vertices[k] == old(vertices[k])
  {
    vertices[curIdx] := Idx(i, j, ni, nj);
    vertices[curIdx + 1] := Idx(i, j + 1, ni, nj);
    vertices[curIdx + 2] := Idx(i + 1, j, ni, nj);

    vertices[curIdx + 3] := Idx(i, j + 1, ni, nj);
    vertices[curIdx + 4] := Idx(i + 1, j + 1, ni, nj);
    vertices[curIdx + 5] := Idx(i + 1, j, ni, nj);
  }

  /** The inner fill loop of tmesh_alloc: the cells of row i, six entries
      each, from curIdx on. */
  method FillRow(vertices: array<int>, curIdx: nat, i: nat, w: nat, ni: nat, nj: nat)
    requires curIdx + 6 * w <= vertices.Length
    modifies vertices
    ensures vertices[..curIdx] == old(vertices[..curIdx])
    ensures vertices[curIdx..curIdx + 6 * w] == RowIndices(i, w, ni, nj)
    ensures forall k :: curIdx + 6 * w <= k < vertices.Length ==> vertices[k] == old(vertices[k])
  {
    var cur := curIdx;
    var j := 0;
    while j < w
      invariant 0 <= j <= w && cur == curIdx + 6 * j
      invariant vertices[..curIdx] == old(vertices[..curIdx])
      invariant vertices[curIdx..cur] == RowIndices(i, j, ni, nj)
      invariant forall k :: cur <= k < vertices.Length ==> vertices[k] == old(vertices[k])
    {
      ghost var done := vertices[curIdx..cur];
      WriteCell(vertices, cur, i, j, ni, nj);
      assert vertices[curIdx..cur] == done;
      assert vertices[curIdx..cur + 6] == vertices[curIdx..cur] + vertices[cur..cur + 6];
      cur := cur + 6;
      j := j + 1;
    }
  }

  /** The fill loops of tmesh_alloc: a running cursor advances six entries
      per cell over (ni - 1) x (ni - 1) cells; the entries past the last cell
      are not touched. */
  method FillTriangles(vertices: array<int>, ni: nat, nj: nat)
    requires ni >= 1 && FilledCount(ni) <= vertices.Length
    modifies vertices
    ensures vertices[..FilledCount(ni)] == TriangleIndices(ni, nj)
    ensures vertices[FilledCount(ni)..] == old(vertices[FilledCount(ni)..])
  {
    var w := ni - 1;
    var curIdx := 0;
    var i := 0;
    while i < w
      invariant 0 <= i <= w
      invariant curIdx == 6 * i * w && curIdx <= 6 * w * w
      invariant vertices[..curIdx] == GridIndices(i, w, ni, nj)
      invariant forall k :: curIdx <= k < vertices.Length ==> vertices[k] == old(vertices[k])
    {
      RowEnd(i, w);
      FillRow(vertices, curIdx, i, w, ni, nj);
      assert vertices[..curIdx + 6 * w] == vertices[..curIdx] + vertices[curIdx..curIdx + 6 * w];
      curIdx := curIdx + 6 * w;
      i := i + 1;
    }
    assert curIdx == FilledCount(ni);
    assert vertices[..curIdx] == TriangleIndices(ni, nj);
    assert vertices[curIdx..] == old(vertices[curIdx..]);
  }

  /** Every grid point of an ni x nj buffer holds v. */
  ghost predicate Filled(a: array<Vec3>, ni: nat, nj: nat, v: Vec3)
    reads a
  {
    && a.Length == ni * nj
    && forall i: nat, j: nat | i < ni && j < nj :: a[Idx(i, j, ni, nj)] == v
  }

  /** A tri_mesh_t. Buffers are null when the mesh is not allocated. */
  class Mesh {
    var numI: nat
    var numJ: nat
    var npolys: nat
    var pts: array?<Vec3>
    var colors: array?<Vec3>
    var nvertices: array?<int>
    var vertices: array?<int>

    /** The shape tmesh_alloc leaves: four separate buffers of the declared sizes. */
    ghost predicate Allocated()
      reads this
    {
      && pts != null && colors != null && nvertices != null && vertices != null
      && pts != colors && nvertices != vertices
      && pts.Length == numI * numJ && colors.Length == numI * numJ
      && nvertices.Length == npolys && vertices.Length == 3 * npolys
    }

    /** The shape tmesh_free leaves. */
    ghost predicate Released()
      reads this
    {
      && pts == null && colors == null && nvertices == null && vertices == null
      && numI == 0 && numJ == 0 && npolys == 0
    }

    /** A declared but not yet allocated mesh. */
    constructor ()
      ensures Released()
    {
      numI, numJ, npolys := 0, 0, 0;
      pts, colors, nvertices, vertices := null, null, null, null;
    }

    /** tmesh_set_pt: overwrite the point at Idx(i, j); nothing else changes. */
    method SetPt(i: nat, j: nat, x: real, y: real, z: real)
      requires pts != null && Idx(i, j, numI, numJ) < pts.Length
      modifies pts
      ensures pts[Idx(i, j, numI, numJ)] == Vec3(x, y, z)
      ensures forall k :: 0 <= k < pts.Length && k != Idx(i, j, numI, numJ) ==> pts[k] == old(pts[k])
    {
      pts[Idx(i, j, numI, numJ)] := Vec3(x, y, z);
    }

    /** tmesh_set_color: overwrite the colour at Idx(i, j); nothing else changes. */
    method SetColor(i: nat, j: nat, r: real, g: real, b: real)
      requires colors != null && Idx(i, j, numI, numJ) < colors.Length
      modifies colors
      ensures colors[Idx(i, j, numI, numJ)] == Vec3(r, g, b)
      ensures forall k :: 0 <= k < colors.Length && k != Idx(i, j, numI, numJ) ==> colors[k] == old(colors[k])
    {
      colors[Idx(i, j, numI, numJ)] := Vec3(r, g, b);
    }

    /** tmesh_alloc. ni >= 1 because ni - 1 is unsigned in the source and wraps
        at 0; the second requirement keeps the fill loop inside the vertex buffer
        (it fails for tall narrow grids, e.g. ni = 4, nj = 0). */
    method Alloc(ni: nat, nj: nat)
      requires ni >= 1
      requires FilledCount(ni) <= 3 * PolyCount(ni, nj)
      modifies this
      ensures Allocated() && numI == ni && numJ == nj && npolys == PolyCount(ni, nj)
      ensures fresh(pts) && fresh(colors) && fresh(nvertices) && fresh(vertices)
      ensures Filled(pts, ni, nj, Zero) && Filled(colors, ni, nj, Zero)
      ensures forall k :: 0 <= k < npolys ==> nvertices[k] == 3
      ensures vertices[..FilledCount(ni)] == TriangleIndices(ni, nj)
    {
      AllocGrid(ni, nj);
      AllocTriangles(ni, nj);
    }

    /** The first half of tmesh_alloc: the sizes, and the point and colour
        buffers, zeroed. */
    method AllocGrid(ni: nat, nj: nat)
      modifies this
      ensures numI == ni && numJ == nj
      ensures pts != null && colors != null && pts != colors && fresh(pts) && fresh(colors)
      ensures Filled(pts, ni, nj, Zero) && Filled(colors, ni, nj, Zero)
    {
      numI, numJ := ni, nj;
      pts := new Vec3[ni * nj];
      colors := new Vec3[ni * nj];
      ClearGrid();
    }

    /** The second half of tmesh_alloc: the polygon count, three vertices per
        polygon, and the triangles of the grid cells. */
    method AllocTriangles(ni: nat, nj: nat)
      requires ni >= 1
      requires FilledCount(ni) <= 3 * PolyCount(ni, nj)
      modifies this
      ensures numI == old(numI) && numJ == old(numJ) && pts == old(pts) && colors == old(colors)
      ensures npolys == PolyCount(ni, nj)
      ensures nvertices != null && vertices != null && nvertices != vertices
      ensures fresh(nvertices) && fresh(vertices)
      ensures nvertices.Length == npolys && vertices.Length == 3 * npolys
      ensures forall k :: 0 <= k < npolys ==> nvertices[k] == 3
      ensures vertices[..FilledCount(ni)] == TriangleIndices(ni, nj)
    {
      npolys := PolyCount(ni, nj);
      nvertices := new int[npolys];
      var k := 0;
      while k < npolys
        invariant 0 <= k <= npolys
        invariant forall m :: 0 <= m < k ==> nvertices[m] == 3
        modifies nvertices
      {
        nvertices[k] := 3;
        k := k + 1;
      }

      vertices := new int[3 * npolys];
      FillTriangles(vertices, ni, nj);
    }

    /** The zeroing loops of tmesh_alloc: every grid point gets the origin
        as its point and black as its colour. */
    method ClearGrid()
      requires pts != null && colors != null && pts != colors
      requires pts.Length == numI * numJ && colors.Length == numI * numJ
      modifies pts, colors
      ensures Filled(pts, numI, numJ, Zero) && Filled(colors, numI, numJ, Zero)
    {
      var i := 0;
      while i < numI
        invariant 0 <= i <= numI
        invariant forall a: nat, b: nat | a < i && b < numJ ::
                    pts[Idx(a, b, numI, numJ)] == Zero && colors[Idx(a, b, numI, numJ)] == Zero
      {
        var j := 0;
        while j < numJ
          invariant 0 <= j <= numJ
          invariant forall a: nat, b: nat | (a < i && b < numJ) || (a == i && b < j) ::
                      pts[Idx(a, b, numI, numJ)] == Zero && colors[Idx(a, b, numI, numJ)] == Zero
        {
          forall a: nat, b: nat | (a < i && b < numJ) || (a == i && b < j)
            ensures Idx(a, b, numI, numJ) != Idx(i, j, numI, numJ)
          {
            IdxInjective(a, b, i, j, numI, numJ);
          }
          SetPt(i, j, 0.0, 0.0, 0.0);
          SetColor(i, j, 0.0, 0.0, 0.0);
          j := j + 1;
        }
        i := i + 1;
      }
    }

    /** tmesh_free: drop all four buffers and zero the sizes. */
    method Free()
      modifies this
      ensures Released()
    {
      vertices, nvertices, colors, pts := null, null, null, null;
      numI, numJ, npolys := 0, 0, 0;
    }

    /** What tmesh_render hands to the renderer. */
    function Drawn(): Geometry
      requires pts != null && colors != null
      reads this, pts, colors
    {
      Geometry(npolys, pts[..], colors[..])
    }

    /** tmesh_render: one draw call that declares npolys polygons over the
        mesh's points and colours. */
    method Render(r: Renderer)
      requires pts != null && colors != null
      modifies r
      ensures r.trace == old(r.trace) + [PointsPolygons(Geometry(npolys, pts[..], colors[..]))]
    {
      r.Emit(PointsPolygons(Drawn()));
    }
  }
}

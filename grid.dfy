/** GenerateGrid of Utils.h: a flat square grid of (2·vertices + 1)² points in
    the xy plane, centred on the origin, and two triangles per cell of the
    lattice. Point (i, j), row i from the top and column j from the left, is
    record i·size + j; the cell between rows i, i+1 and columns j, j+1 is
    quad i·(size - 1) + j. */
module Grid {
  import opened Utils

  /** The number of points along each side: 2·vertices + 1. */
  function GridSide(vertices: int): int {
    2 * vertices + 1
  }

  /** Point (i, j): the lattice coordinates (j - vertices, vertices - i) scaled
      by the separation factor. */
  function GridPoint(vertices: int, separation: real, i: int, j: int): Point {
    Point(separation * (j - vertices) as real, separation * (vertices - i) as real)
  }

  function GridCell(vertices: int, separation: real): (int, int) -> Point {
    (i, j) => GridPoint(vertices, separation, i, j)
  }

  /** The records of the vertex buffer, row after row. */
  function GridPoints(vertices: nat, separation: real): seq<Point> {
    RowMajor(GridCell(vertices, separation), GridSide(vertices), GridSide(vertices))
  }

  /** The first triangle of the cell (i, j): top left, bottom left, top right. */
  function QuadFirst(side: int, i: int, j: int): Triangle {
    Triangle(i * side + j, (i + 1) * side + j, i * side + 1 + j)
  }

  /** The second triangle of the cell (i, j): top right, bottom left, bottom right. */
  function QuadSecond(side: int, i: int, j: int): Triangle {
    Triangle(i * side + 1 + j, (i + 1) * side + j, (i + 1) * side + 1 + j)
  }

  /** Triangle t of row i of cells: the two triangles of cell j are t = 2j and t = 2j + 1. */
  function QuadTriangle(side: int, i: int, t: int): Triangle {
    if t % 2 == 0 then QuadFirst(side, i, t / 2) else QuadSecond(side, i, t / 2)
  }

  function QuadCell(side: int): (int, int) -> Triangle {
    (i, t) => QuadTriangle(side, i, t)
  }

  /** The triangles of the index buffer: side - 1 rows of 2·(side - 1) triangles. */
  function GridTriangles(vertices: nat): seq<Triangle> {
    RowMajor(QuadCell(GridSide(vertices)), GridSide(vertices) - 1, 2 * (GridSide(vertices) - 1))
  }

  lemma QuadCellAt(side: int, i: int, j: int)
    ensures QuadCell(side)(i, 2 * j) == QuadFirst(side, i, j)
    ensures QuadCell(side)(i, 2 * j + 1) == QuadSecond(side, i, j)
  {
    assert (2 * j) % 2 == 0 && (2 * j) / 2 == j;
    assert (2 * j + 1) % 2 == 1 && (2 * j + 1) / 2 == j;
  }

  /** The grid has side² points. */
  lemma GridPointsLength(vertices: nat, separation: real)
    ensures |GridPoints(vertices, separation)| == GridSide(vertices) * GridSide(vertices)
  {
    var side := GridSide(vertices);
    RowMajorLength(GridCell(vertices, separation), side, side);
    RowOffsetProduct(side, side);
  }

  /** The grid has two triangles for each of its (side - 1)² cells. */
  lemma GridTrianglesLength(vertices: nat)
    ensures |GridTriangles(vertices)| == 2 * ((GridSide(vertices) - 1) * (GridSide(vertices) - 1))
  {
    var side := GridSide(vertices);
    RowMajorLength(QuadCell(side), side - 1, 2 * (side - 1));
    RowOffsetDouble(side - 1, side - 1);
    RowOffsetProduct(side - 1, side - 1);
  }

  /** Record i·side + j is the lattice point (j - vertices, vertices - i), both
      coordinates in [-vertices, vertices], scaled by the separation. */
  lemma GridLattice(vertices: nat, separation: real, i: int, j: int, at: int)
    requires 0 <= i < GridSide(vertices) && 0 <= j < GridSide(vertices) && at == i * GridSide(vertices) + j
    ensures 0 <= at < |GridPoints(vertices, separation)|
    ensures GridPoints(vertices, separation)[at] == Point(separation * (j - vertices) as real, separation * (vertices - i) as real)
    ensures -(vertices as int) <= j - vertices <= vertices && -(vertices as int) <= vertices - i <= vertices
  {
    var side := GridSide(vertices);
    RowOffsetProduct(i, side);
    RowMajorAt(GridCell(vertices, separation), side, side, i, j);
  }

  /** Every triangle names one of the side² points: no index wraps or overflows. */
  lemma GridTrianglesBelow(vertices: nat)
    ensures forall k :: 0 <= k < |GridTriangles(vertices)| ==>
              Below(GridTriangles(vertices)[k], GridSide(vertices) * GridSide(vertices))
  {
    var side := GridSide(vertices);
    var cell := QuadCell(side);
    forall i, t | 0 <= i < side - 1 && 0 <= t < 2 * (side - 1)
      ensures Below(cell(i, t), side * side)
    {
      var j := t / 2;
      QuadCellAt(side, i, j);
      assert t == 2 * j || t == 2 * j + 1;
      RowBound(i, j, side, side);
      RowBound(i, j + 1, side, side);
      RowBound(i + 1, j, side, side);
      RowBound(i + 1, j + 1, side, side);
    }
    RowMajorBelow(cell, side - 1, 2 * (side - 1), side * side);
  }

  /** The two triangles of a cell share its diagonal, from the bottom-left to
      the top-right corner. */
  lemma QuadDiagonal(side: int, i: int, j: int)
    ensures QuadFirst(side, i, j).b == QuadSecond(side, i, j).b
    ensures QuadFirst(side, i, j).c == QuadSecond(side, i, j).a
  {
  }

  /** The floats of point (i, j), record `at` = i·side + j, in the packed vertex buffer. */
  lemma GridPointSlots(vertices: nat, separation: real, i: int, j: int, at: int)
    requires 0 <= i < GridSide(vertices) && 0 <= j < GridSide(vertices) && at == RowOffset(i, GridSide(vertices)) + j
    ensures 2 * at + 2 <= |PackPoints(GridPoints(vertices, separation))|
    ensures forall k :: 2 * at <= k < 2 * at + 2 ==>
              PackPoints(GridPoints(vertices, separation))[k] == PointFloats(GridPoint(vertices, separation, i, j))[k - 2 * at]
  {
    TablePointSlots(GridPoints(vertices, separation), GridCell(vertices, separation), GridSide(vertices), GridSide(vertices),
                    i, j, at, GridPoint(vertices, separation, i, j));
  }

  /** The six entries of cell (i, j), quad `q` = i·(side - 1) + j: its first
      triangle, then its second. */
  lemma QuadSlots(vertices: nat, i: int, j: int, q: int)
    requires 0 <= i < GridSide(vertices) - 1 && 0 <= j < GridSide(vertices) - 1
    requires q == RowOffset(i, GridSide(vertices) - 1) + j
    ensures 6 * q + 6 <= |PackTriangles(GridTriangles(vertices))|
    ensures forall k :: 6 * q <= k < 6 * q + 3 ==>
              PackTriangles(GridTriangles(vertices))[k] == TriangleInts(QuadFirst(GridSide(vertices), i, j))[k - 6 * q]
    ensures forall k :: 6 * q + 3 <= k < 6 * q + 6 ==>
              PackTriangles(GridTriangles(vertices))[k] == TriangleInts(QuadSecond(GridSide(vertices), i, j))[k - (6 * q + 3)]
  {
    var side := GridSide(vertices);
    QuadCellAt(side, i, j);
    TablePairSlots(GridTriangles(vertices), QuadCell(side), side - 1, side - 1, i, j, q,
                   QuadFirst(side, i, j), QuadSecond(side, i, j));
  }

  /** GenerateGrid: allocates 2·side² floats and 6·(side - 1)² indices, with
      side = 2·vertices + 1, and fills them with the lattice points and the two
      triangles of every cell; the separation factor is range / side. */
  method GenerateGrid(vertices: int, range: real)
    returns (grid: array<real>, gridIndices: array<int>, gridSize: int, gridIndicesSize: int, separationFactor: real)
    requires 0 <= vertices && 2 * (GridSide(vertices) * GridSide(vertices)) <= INT_MAX
    requires 6 * ((GridSide(vertices) - 1) * (GridSide(vertices) - 1)) <= INT_MAX
    ensures fresh(grid) && fresh(gridIndices)
    ensures gridSize == grid.Length == 2 * (GridSide(vertices) * GridSide(vertices))
    ensures gridIndicesSize == gridIndices.Length == 6 * ((GridSide(vertices) - 1) * (GridSide(vertices) - 1))
    ensures separationFactor == range / GridSide(vertices) as real
    ensures grid[..] == PackPoints(GridPoints(vertices, separationFactor))
    ensures gridIndices[..] == PackTriangles(GridTriangles(vertices))
    ensures forall k :: 0 <= k < gridIndicesSize ==> 0 <= gridIndices[k] < GridSide(vertices) * GridSide(vertices)
  {
    var size := GridSide(vertices);
    gridSize := 2 * (size * size);
    grid := new real[gridSize];
    separationFactor := range / size as real;
    GridPointsLength(vertices, separationFactor);
    GridTrianglesLength(vertices);
    GridVertexBuffer(vertices, separationFactor, grid);

    gridIndicesSize := 6 * ((size - 1) * (size - 1));
    gridIndices := new int[gridIndicesSize];
    GridIndexBuffer(vertices, gridIndices);
    GridTrianglesBelow(vertices);
    PackTrianglesBelow(GridTriangles(vertices), GridSide(vertices) * GridSide(vertices));
  }

  /** Lines 359-365 of GenerateGrid: the point loops. */
  method GridVertexBuffer(vertices: nat, separation: real, grid: array<real>)
    requires grid.Length == |PackPoints(GridPoints(vertices, separation))|
    modifies grid
    ensures grid[..] == PackPoints(GridPoints(vertices, separation))
  {
    ghost var spec := PackPoints(GridPoints(vertices, separation));
    var size := GridSide(vertices);
    RowMajorLength(GridCell(vertices, separation), size, size);
    ghost var rowStart := 0;
    for i := 0 to size
      invariant rowStart == RowOffset(i, size) <= RowOffset(size, size)
      invariant forall k :: 0 <= k < 2 * rowStart ==> grid[k] == spec[k]
    {
      RowOffsetMonotone(i + 1, size, size);
      RowOffsetProduct(i, size);
      for j := 0 to size
        invariant forall k :: 0 <= k < 2 * (rowStart + j) ==> grid[k] == spec[k]
      {
        GridPointSlots(vertices, separation, i, j, rowStart + j);
        InsertVertex2DVector(grid, 2 * (i * size + j), Point(separation * (j - vertices) as real, separation * (vertices - i) as real));
      }
      rowStart := rowStart + size;
    }
    SlotwiseEqual(grid[..], spec);
  }

  /** Lines 367-377 of GenerateGrid: the cell loops. */
  method GridIndexBuffer(vertices: nat, gridIndices: array<int>)
    requires gridIndices.Length == |PackTriangles(GridTriangles(vertices))|
    modifies gridIndices
    ensures gridIndices[..] == PackTriangles(GridTriangles(vertices))
  {
    ghost var spec := PackTriangles(GridTriangles(vertices));
    var size := GridSide(vertices);
    RowMajorLength(QuadCell(size), size - 1, 2 * (size - 1));
    RowOffsetDouble(size - 1, size - 1);
    GridIndexRows(vertices, gridIndices, spec);
    SlotwiseEqual(gridIndices[..], spec);
  }

  /** The outer cell loop, row after row of cells. */
  method GridIndexRows(vertices: nat, gridIndices: array<int>, ghost spec: seq<int>)
    requires spec == PackTriangles(GridTriangles(vertices)) && gridIndices.Length == |spec|
    requires |spec| == 6 * RowOffset(GridSide(vertices) - 1, GridSide(vertices) - 1)
    modifies gridIndices
    ensures forall k :: 0 <= k < |spec| ==> gridIndices[k] == spec[k]
  {
    var size := GridSide(vertices);
    ghost var rowStart := 0;
    for i := 0 to size - 1
      invariant rowStart == RowOffset(i, size - 1) <= RowOffset(size - 1, size - 1)
      invariant forall k :: 0 <= k < 6 * rowStart ==> gridIndices[k] == spec[k]
    {
      RowOffsetMonotone(i + 1, size - 1, size - 1);
      GridIndexRow(vertices, i, rowStart, gridIndices, spec);
      rowStart := rowStart + (size - 1);
    }
  }

  /** One pass of the outer cell loop: the cells between rows i and i + 1. */
  method GridIndexRow(vertices: nat, i: int, ghost rowStart: int, gridIndices: array<int>, ghost spec: seq<int>)
    requires 0 <= i < GridSide(vertices) - 1 && rowStart == RowOffset(i, GridSide(vertices) - 1)
    requires spec == PackTriangles(GridTriangles(vertices)) && gridIndices.Length == |spec|
    requires 6 * (rowStart + GridSide(vertices) - 1) <= |spec|
    requires forall k :: 0 <= k < 6 * rowStart ==> gridIndices[k] == spec[k]
    modifies gridIndices
    ensures forall k :: 0 <= k < 6 * (rowStart + GridSide(vertices) - 1) ==> gridIndices[k] == spec[k]
  {
    var size := GridSide(vertices);
    RowOffsetProduct(i, size - 1);
    for j := 0 to size - 1
      invariant forall k :: 0 <= k < 6 * (rowStart + j) ==> gridIndices[k] == spec[k]
    {
      QuadSlots(vertices, i, j, rowStart + j);
      InsertIndex(gridIndices, 6 * (i * (size - 1) + j), i * size + j, (i + 1) * size + j, i * size + 1 + j);
      InsertIndex(gridIndices, 6 * (i * (size - 1) + j) + 3, i * size + 1 + j, (i + 1) * size + j, (i + 1) * size + 1 + j);
    }
  }
}

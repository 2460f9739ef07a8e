/** The buffer layout shared by the mesh generators of Utils.h and the slot
    writers they call. A vertex buffer is a flat float array of interleaved
    records (position then normal, six floats; or a 2D position, two floats),
    an index buffer a flat int array of triangles (three ints each). */
module Utils {
  import opened Geometry

  /** The largest value of the source's 32-bit `int`. */
  const INT_MAX: int := 0x7fff_ffff

  /** One record of a 3D vertex buffer: position, then normal. */
  datatype Vertex = Vertex(position: Vec3, normal: Vec3)

  /** One record of a 2D vertex buffer (glm::vec2). */
  datatype Point = Point(x: real, y: real)

  /** Three consecutive entries of an index buffer. */
  datatype Triangle = Triangle(a: int, b: int, c: int)

  function VertexFloats(v: Vertex): seq<real> {
    [v.position.x, v.position.y, v.position.z, v.normal.x, v.normal.y, v.normal.z]
  }

  function PointFloats(p: Point): seq<real> {
    [p.x, p.y]
  }

  function TriangleInts(t: Triangle): seq<int> {
    [t.a, t.b, t.c]
  }

  /** The interleaved vertex buffer holding the records `vs` in order. */
  function PackVertices(vs: seq<Vertex>): (r: seq<real>)
    ensures |r| == 6 * |vs|
    decreases |vs|
  {
    if vs == [] then [] else PackVertices(vs[..|vs| - 1]) + VertexFloats(vs[|vs| - 1])
  }

  /** The 2D vertex buffer holding the points `ps` in order. */
  function PackPoints(ps: seq<Point>): (r: seq<real>)
    ensures |r| == 2 * |ps|
    decreases |ps|
  {
    if ps == [] then [] else PackPoints(ps[..|ps| - 1]) + PointFloats(ps[|ps| - 1])
  }

  /** The index buffer holding the triangles `ts` in order. */
  function PackTriangles(ts: seq<Triangle>): (r: seq<int>)
    ensures |r| == 3 * |ts|
    decreases |ts|
  {
    if ts == [] then [] else PackTriangles(ts[..|ts| - 1]) + TriangleInts(ts[|ts| - 1])
  }

  /** All three corners of `t` name one of the first `n` records. */
  predicate Below(t: Triangle, n: int) {
    0 <= t.a < n && 0 <= t.b < n && 0 <= t.c < n
  }

  /** Record k of a packed vertex buffer occupies floats 6k .. 6k+5. */
  lemma {:induction false} PackVerticesAt(vs: seq<Vertex>, k: int)
    requires 0 <= k < |vs|
    ensures PackVertices(vs)[6 * k..6 * k + 6] == VertexFloats(vs[k])
    decreases |vs|
  {
    var init := vs[..|vs| - 1];
    var packed := PackVertices(init);
    assert PackVertices(vs) == packed + VertexFloats(vs[|vs| - 1]);
    if k < |vs| - 1 {
      PackVerticesAt(init, k);
      assert PackVertices(vs)[6 * k..6 * k + 6] == packed[6 * k..6 * k + 6];
    } else {
      assert |packed| == 6 * k;
    }
  }

  /** Point k of a packed 2D buffer occupies floats 2k and 2k+1. */
  lemma {:induction false} PackPointsAt(ps: seq<Point>, k: int)
    requires 0 <= k < |ps|
    ensures PackPoints(ps)[2 * k] == ps[k].x && PackPoints(ps)[2 * k + 1] == ps[k].y
    decreases |ps|
  {
    if k < |ps| - 1 {
      PackPointsAt(ps[..|ps| - 1], k);
    }
  }

  /** Triangle k of a packed index buffer occupies entries 3k .. 3k+2. */
  lemma {:induction false} PackTrianglesAt(ts: seq<Triangle>, k: int)
    requires 0 <= k < |ts|
    ensures PackTriangles(ts)[3 * k..3 * k + 3] == TriangleInts(ts[k])
    decreases |ts|
  {
    var init := ts[..|ts| - 1];
    var packed := PackTriangles(init);
    assert PackTriangles(ts) == packed + TriangleInts(ts[|ts| - 1]);
    if k < |ts| - 1 {
      PackTrianglesAt(init, k);
      assert PackTriangles(ts)[3 * k..3 * k + 3] == packed[3 * k..3 * k + 3];
    } else {
      assert |packed| == 3 * k;
    }
  }

  /** If every triangle names one of the first `n` records, so does every entry of the index buffer. */
  lemma {:induction false} PackTrianglesBelow(ts: seq<Triangle>, n: int)
    requires forall k :: 0 <= k < |ts| ==> Below(ts[k], n)
    ensures forall k :: 0 <= k < |PackTriangles(ts)| ==> 0 <= PackTriangles(ts)[k] < n
    decreases |ts|
  {
    if ts != [] {
      var init := ts[..|ts| - 1];
      PackTrianglesBelow(init, n);
      assert Below(ts[|ts| - 1], n);
    }
  }

  /** Two sequences that agree slot by slot are equal. */
  lemma SlotwiseEqual<T>(a: seq<T>, b: seq<T>)
    requires |a| == |b| && forall k :: 0 <= k < |a| ==> a[k] == b[k]
    ensures a == b
  {
  }

  /** Slot by slot: float k of record j sits at 6j + k. */
  lemma PackVerticesSlots(vs: seq<Vertex>, j: int)
    requires 0 <= j < |vs|
    ensures forall k :: 6 * j <= k < 6 * j + 6 ==> PackVertices(vs)[k] == VertexFloats(vs[j])[k - 6 * j]
  {
    PackVerticesAt(vs, j);
  }

  lemma PackPointsSlots(ps: seq<Point>, j: int)
    requires 0 <= j < |ps|
    ensures forall k :: 2 * j <= k < 2 * j + 2 ==> PackPoints(ps)[k] == PointFloats(ps[j])[k - 2 * j]
  {
    PackPointsAt(ps, j);
  }

  lemma PackTrianglesSlots(ts: seq<Triangle>, j: int)
    requires 0 <= j < |ts|
    ensures forall k :: 3 * j <= k < 3 * j + 3 ==> PackTriangles(ts)[k] == TriangleInts(ts[j])[k - 3 * j]
  {
    PackTrianglesAt(ts, j);
  }

  /** InsertVertex with six floats: sets exactly slots index .. index+5. */
  method InsertVertex(vertexArray: array<real>, index: int,
                      x: real, y: real, z: real, normalX: real, normalY: real, normalZ: real)
    requires 0 <= index && index + 6 <= vertexArray.Length
    modifies vertexArray
    ensures forall k :: index <= k < index + 6 ==> vertexArray[k] == [x, y, z, normalX, normalY, normalZ][k - index]
    ensures forall k :: 0 <= k < vertexArray.Length && !(index <= k < index + 6) ==> vertexArray[k] == old(vertexArray[k])
  {
    vertexArray[index] := x;
    vertexArray[index + 1] := y;
    vertexArray[index + 2] := z;
    vertexArray[index + 3] := normalX;
    vertexArray[index + 4] := normalY;
    vertexArray[index + 5] := normalZ;
  }

  /** InsertVertex with a position given as floats and a normal as a vector. */
  method InsertVertexWithNormal(vertexArray: array<real>, index: int, x: real, y: real, z: real, normal: Vec3)
    requires 0 <= index && index + 6 <= vertexArray.Length
    modifies vertexArray
    ensures forall k :: index <= k < index + 6 ==> vertexArray[k] == VertexFloats(Vertex(Vec3(x, y, z), normal))[k - index]
    ensures forall k :: 0 <= k < vertexArray.Length && !(index <= k < index + 6) ==> vertexArray[k] == old(vertexArray[k])
  {
    InsertVertex(vertexArray, index, x, y, z, normal.x, normal.y, normal.z);
  }

  /** InsertVertex with position and normal both given as vectors. */
  method InsertVertexVectors(vertexArray: array<real>, index: int, vertex: Vec3, normal: Vec3)
    requires 0 <= index && index + 6 <= vertexArray.Length
    modifies vertexArray
    ensures forall k :: index <= k < index + 6 ==> vertexArray[k] == VertexFloats(Vertex(vertex, normal))[k - index]
    ensures forall k :: 0 <= k < vertexArray.Length && !(index <= k < index + 6) ==> vertexArray[k] == old(vertexArray[k])
  {
    InsertVertex(vertexArray, index, vertex.x, vertex.y, vertex.z, normal.x, normal.y, normal.z);
  }

  /** InsertVertex2D with two floats: sets exactly slots index and index+1. */
  method InsertVertex2D(vertexArray: array<real>, index: int, x: real, y: real)
    requires 0 <= index && index + 2 <= vertexArray.Length
    modifies vertexArray
    ensures forall k :: index <= k < index + 2 ==> vertexArray[k] == [x, y][k - index]
    ensures forall k :: 0 <= k < vertexArray.Length && !(index <= k < index + 2) ==> vertexArray[k] == old(vertexArray[k])
  {
    vertexArray[index] := x;
    vertexArray[index + 1] := y;
  }

  /** InsertVertex2D with a glm::vec2. */
  method InsertVertex2DVector(vertexArray: array<real>, index: int, vertex: Point)
    requires 0 <= index && index + 2 <= vertexArray.Length
    modifies vertexArray
    ensures forall k :: index <= k < index + 2 ==> vertexArray[k] == PointFloats(vertex)[k - index]
    ensures forall k :: 0 <= k < vertexArray.Length && !(index <= k < index + 2) ==> vertexArray[k] == old(vertexArray[k])
  {
    vertexArray[index] := vertex.x;
    vertexArray[index + 1] := vertex.y;
  }

  /** InsertIndex: sets exactly slots index .. index+2 to x, y, z. */
  method InsertIndex(indexArray: array<int>, index: int, x: int, y: int, z: int)
    requires 0 <= index && index + 3 <= indexArray.Length
    modifies indexArray
    ensures forall k :: index <= k < index + 3 ==> indexArray[k] == [x, y, z][k - index]
    ensures forall k :: 0 <= k < indexArray.Length && !(index <= k < index + 3) ==> indexArray[k] == old(indexArray[k])
  {
    indexArray[index] := x;
    indexArray[index + 1] := y;
    indexArray[index + 2] := z;
  }

  /** FlatFactor of the cylinder and the cone: 0 for bFlat (no vertical tilt of the ring normals), else 1. */
  function FlatFactor(bFlat: bool): real {
    if bFlat then 0.0 else 1.0
  }

  /** The ring segment before i, wrapping from segment 0 to the last one. */
  function PreviousSegment(vertices: int, i: int): int {
    if i == 0 then vertices - 1 else i - 1
  }

  /** The ring segment after i, wrapping from the last segment to segment 0. */
  function NextSegment(vertices: int, i: int): int {
    if i == vertices - 1 then 0 else i + 1
  }

  /** The generators find ring neighbours as (vertices + i - 1) % vertices and
      (i + 1) % vertices: away from the seam these are i-1 and i+1, and at the
      seam they wrap to the last segment and to segment 0. */
  lemma SegmentNeighbours(vertices: int, i: int)
    requires 0 <= i < vertices
    ensures (vertices + i - 1) % vertices == PreviousSegment(vertices, i)
    ensures (i + 1) % vertices == NextSegment(vertices, i)
  {
    if i == 0 {
      assert vertices + i - 1 == vertices - 1;
    } else {
      assert vertices + i - 1 == (i - 1) + vertices;
    }
  }

  /** Multiplying by a nonnegative width keeps the order. */
  lemma {:induction false} MulMonotone(a: int, b: int, width: nat)
    requires a <= b
    ensures a * width <= b * width
    decreases b - a
  {
    if a < b {
      MulMonotone(a + 1, b, width);
      assert (a + 1) * width == a * width + width;
    }
  }

  /** Entry j of row i of `rows` rows of `width` entries lies inside the row-major table. */
  lemma RowBound(i: int, j: int, rows: int, width: int)
    requires 0 <= i < rows && 0 <= j < width
    ensures 0 <= i * width <= i * width + j < (i + 1) * width <= rows * width
  {
    MulMonotone(0, i, width);
    MulMonotone(i + 1, rows, width);
  }

  /** Entries cell(i, 0) .. cell(i, n-1) of row i. */
  function Row<T>(cell: (int, int) -> T, i: int, n: nat): (r: seq<T>)
    ensures |r| == n
  {
    if n == 0 then [] else Row(cell, i, n - 1) + [cell(i, n - 1)]
  }

  /** The first `rows` rows of `width` entries each, row after row: the order
      in which a pair of nested loops over rows and columns visits the cells. */
  function RowMajor<T>(cell: (int, int) -> T, rows: nat, width: nat): seq<T> {
    if rows == 0 then [] else RowMajor(cell, rows - 1, width) + Row(cell, rows - 1, width)
  }

  lemma {:induction false} RowAt<T>(cell: (int, int) -> T, i: int, n: nat, j: int)
    requires 0 <= j < n
    ensures Row(cell, i, n)[j] == cell(i, j)
  {
    if j < n - 1 {
      RowAt(cell, i, n - 1, j);
    }
  }

  /** The number of entries in `rows` rows of `width` entries, counted row by
      row; it is rows·width (RowOffsetProduct) without a product for the solver. */
  function RowOffset(rows: nat, width: nat): nat {
    if rows == 0 then 0 else RowOffset(rows - 1, width) + width
  }

  lemma {:induction false} RowOffsetProduct(rows: nat, width: nat)
    ensures RowOffset(rows, width) == rows * width
  {
    if rows > 0 {
      RowOffsetProduct(rows - 1, width);
      assert (rows - 1) * width + width == rows * width;
    }
  }

  lemma {:induction false} RowOffsetMonotone(i: nat, rows: nat, width: nat)
    requires i <= rows
    ensures RowOffset(i, width) <= RowOffset(rows, width)
    decreases rows - i
  {
    if i < rows {
      RowOffsetMonotone(i, rows - 1, width);
    }
  }

  /** Rows twice as wide start twice as far in. */
  lemma {:induction false} RowOffsetDouble(i: nat, width: nat)
    ensures RowOffset(i, 2 * width) == 2 * RowOffset(i, width)
  {
    if i > 0 {
      RowOffsetDouble(i - 1, width);
    }
  }

  lemma {:induction false} RowMajorLength<T>(cell: (int, int) -> T, rows: nat, width: nat)
    ensures |RowMajor(cell, rows, width)| == RowOffset(rows, width)
  {
    if rows > 0 {
      RowMajorLength(cell, rows - 1, width);
    }
  }

  /** Cell (i, j) sits at position i·width + j. */
  lemma {:induction false} RowMajorAt<T>(cell: (int, int) -> T, rows: nat, width: nat, i: int, j: int)
    requires 0 <= i < rows && 0 <= j < width
    ensures RowOffset(i, width) + j < |RowMajor(cell, rows, width)|
    ensures RowMajor(cell, rows, width)[RowOffset(i, width) + j] == cell(i, j)
  {
    RowMajorLength(cell, rows - 1, width);
    if i < rows - 1 {
      RowMajorAt(cell, rows - 1, width, i, j);
    } else {
      RowAt(cell, i, width, j);
    }
  }

  /** Cell (i, j) of a table of records laid out after `prefix`: its six floats in the packed buffer. */
  lemma TableVertexSlots(all: seq<Vertex>, prefix: seq<Vertex>, cell: (int, int) -> Vertex, rows: nat, width: nat,
                         i: int, j: int, at: int, v: Vertex)
    requires all == prefix + RowMajor(cell, rows, width)
    requires 0 <= i < rows && 0 <= j < width && at == |prefix| + RowOffset(i, width) + j && cell(i, j) == v
    ensures 6 * at + 6 <= |PackVertices(all)|
    ensures forall k :: 6 * at <= k < 6 * at + 6 ==> PackVertices(all)[k] == VertexFloats(v)[k - 6 * at]
  {
    RowMajorAt(cell, rows, width, i, j);
    assert all[at] == cell(i, j);
    PackVerticesSlots(all, at);
  }

  /** Cell (i, j) of a table of 2D points: its two floats in the packed buffer. */
  lemma TablePointSlots(all: seq<Point>, cell: (int, int) -> Point, rows: nat, width: nat,
                        i: int, j: int, at: int, p: Point)
    requires all == RowMajor(cell, rows, width)
    requires 0 <= i < rows && 0 <= j < width && at == RowOffset(i, width) + j && cell(i, j) == p
    ensures 2 * at + 2 <= |PackPoints(all)|
    ensures forall k :: 2 * at <= k < 2 * at + 2 ==> PackPoints(all)[k] == PointFloats(p)[k - 2 * at]
  {
    RowMajorAt(cell, rows, width, i, j);
    PackPointsSlots(all, at);
  }

  /** Cell (i, j) of a table of triangles laid out after `prefix`: its three indices in the packed buffer. */
  lemma TableTriangleSlots(all: seq<Triangle>, prefix: seq<Triangle>, cell: (int, int) -> Triangle, rows: nat, width: nat,
                           i: int, j: int, at: int, t: Triangle)
    requires all == prefix + RowMajor(cell, rows, width)
    requires 0 <= i < rows && 0 <= j < width && at == |prefix| + RowOffset(i, width) + j && cell(i, j) == t
    ensures 3 * at + 3 <= |PackTriangles(all)|
    ensures forall k :: 3 * at <= k < 3 * at + 3 ==> PackTriangles(all)[k] == TriangleInts(t)[k - 3 * at]
  {
    RowMajorAt(cell, rows, width, i, j);
    assert all[at] == cell(i, j);
    PackTrianglesSlots(all, at);
  }

  /** Cells (i, 2j) and (i, 2j + 1) of a table of triangles with two cells per
      quad: the six indices of quad `q` = i·width + j. */
  lemma TablePairSlots(all: seq<Triangle>, cell: (int, int) -> Triangle, rows: nat, width: nat,
                       i: int, j: int, q: int, first: Triangle, second: Triangle)
    requires all == RowMajor(cell, rows, 2 * width)
    requires 0 <= i < rows && 0 <= j < width && q == RowOffset(i, width) + j
    requires cell(i, 2 * j) == first && cell(i, 2 * j + 1) == second
    ensures 6 * q + 6 <= |PackTriangles(all)|
    ensures forall k :: 6 * q <= k < 6 * q + 3 ==> PackTriangles(all)[k] == TriangleInts(first)[k - 6 * q]
    ensures forall k :: 6 * q + 3 <= k < 6 * q + 6 ==> PackTriangles(all)[k] == TriangleInts(second)[k - (6 * q + 3)]
  {
    RowOffsetDouble(i, width);
    RowMajorAt(cell, rows, 2 * width, i, 2 * j);
    RowMajorAt(cell, rows, 2 * width, i, 2 * j + 1);
    PackTrianglesSlots(all, 2 * q);
    PackTrianglesSlots(all, 2 * q + 1);
  }

  /** If every cell names one of the first `n` records, so does every triangle of the table. */
  lemma {:induction false} RowMajorBelow(cell: (int, int) -> Triangle, rows: nat, width: nat, n: int)
    requires forall i, j :: 0 <= i < rows && 0 <= j < width ==> Below(cell(i, j), n)
    ensures forall k :: 0 <= k < |RowMajor(cell, rows, width)| ==> Below(RowMajor(cell, rows, width)[k], n)
  {
    if rows > 0 {
      RowMajorBelow(cell, rows - 1, width, n);
      var row := Row(cell, rows - 1, width);
      forall j | 0 <= j < width
        ensures Below(row[j], n)
      {
        RowAt(cell, rows - 1, width, j);
      }
    }
  }

  /** Radius * cos and Radius * sin of the angle of segment i of n. */
  function RingX(m: Numerics, radius: real, i: int, n: int): real
    requires n != 0
  {
    radius * m.cos(SegmentAngle(i, n))
  }

  function RingZ(m: Numerics, radius: real, i: int, n: int): real
    requires n != 0
  {
    radius * m.sin(SegmentAngle(i, n))
  }

  /** The RCTheta / RSTheta tables that the cylinder and the cone fill before writing vertices. */
  method RingTables(m: Numerics, vertices: nat, radius: real) returns (rcTheta: array<real>, rsTheta: array<real>)
    ensures fresh(rcTheta) && fresh(rsTheta)
    ensures rcTheta.Length == vertices && rsTheta.Length == vertices
    ensures forall i :: 0 <= i < vertices ==>
              rcTheta[i] == RingX(m, radius, i, vertices) && rsTheta[i] == RingZ(m, radius, i, vertices)
  {
    rcTheta := new real[vertices];
    rsTheta := new real[vertices];
    for i := 0 to vertices
      invariant forall k :: 0 <= k < i ==>
                  rcTheta[k] == RingX(m, radius, k, vertices) && rsTheta[k] == RingZ(m, radius, k, vertices)
    {
      var theta := SegmentAngle(i, vertices);
      rcTheta[i] := radius * m.cos(theta);
      rsTheta[i] := radius * m.sin(theta);
    }
  }
}

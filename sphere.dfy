/** GenerateSphere of Utils.h: a UV sphere of `segments` meridians and `rings`
    latitude bands around the y axis. Records: 0 the north pole, 1 the south
    pole, then row-major the rings - 1 parallels of `segments` vertices each,
    vertex j of parallel i being record i·segments + j + 2. Triangles: first a
    pair per segment (north-cap fan triangle, south-cap fan triangle), then two
    triangles per quad between parallel i and i+1. */
module Sphere {
  import opened Geometry
  import opened Utils

  /** The polar angle of parallel i: (i + 1)·PI / rings. */
  function RingAngle(i: int, rings: int): real
    requires rings != 0
  {
    (i + 1) as real * PI / rings as real
  }

  /** Vertex j of parallel i: (R·cosθ·sinφ, R·cosφ, R·sinθ·sinφ). */
  function SpherePoint(m: Numerics, segments: int, rings: int, radius: real, i: int, j: int): Vec3
    requires segments != 0 && rings != 0
  {
    var theta, phi := SegmentAngle(j, segments), RingAngle(i, rings);
    Vec3(radius * m.cos(theta) * m.sin(phi), radius * m.cos(phi), radius * m.sin(theta) * m.sin(phi))
  }

  function NorthPole(radius: real): Vertex {
    Vertex(Vec3(0.0, radius, 0.0), Vec3(0.0, 1.0, 0.0))
  }

  function SouthPole(radius: real): Vertex {
    Vertex(Vec3(0.0, -radius, 0.0), Vec3(0.0, -1.0, 0.0))
  }

  /** The neighbour above vertex (i, j): the north pole for the first parallel. */
  function UpNeighbour(m: Numerics, segments: int, rings: int, radius: real, i: int, j: int): Vec3
    requires segments != 0 && rings >= 2
  {
    if i == 0 then Vec3(0.0, radius, 0.0)
    else SpherePoint(m, segments, rings, radius, PreviousSegment(rings - 1, i), j)
  }

  /** The neighbour below vertex (i, j): the south pole for the last parallel. */
  function DownNeighbour(m: Numerics, segments: int, rings: int, radius: real, i: int, j: int): Vec3
    requires segments != 0 && rings >= 2
  {
    if i == rings - 2 then Vec3(0.0, -radius, 0.0)
    else SpherePoint(m, segments, rings, radius, NextSegment(rings - 1, i), j)
  }

  /** The normal of vertex (i, j): the normalised sum of the normals of the four
      faces spanned by its left, up, right and down neighbours. */
  function SphereNormal(m: Numerics, segments: int, rings: int, radius: real, i: int, j: int): Vec3
    requires segments > 0 && rings >= 2
  {
    var v := SpherePoint(m, segments, rings, radius, i, j);
    var left := SpherePoint(m, segments, rings, radius, i, PreviousSegment(segments, j));
    var right := SpherePoint(m, segments, rings, radius, i, NextSegment(segments, j));
    var up := UpNeighbour(m, segments, rings, radius, i, j);
    var down := DownNeighbour(m, segments, rings, radius, i, j);
    m.normalize(Add(Add(Add(m.cross(Sub(left, v), Sub(up, v)), m.cross(Sub(up, v), Sub(right, v))),
                        m.cross(Sub(right, v), Sub(down, v))),
                    m.cross(Sub(down, v), Sub(left, v))))
  }

  function SphereRingVertex(m: Numerics, segments: int, rings: int, radius: real, i: int, j: int): Vertex
    requires segments > 0 && rings >= 2
  {
    Vertex(SpherePoint(m, segments, rings, radius, i, j), SphereNormal(m, segments, rings, radius, i, j))
  }

  /** Vertex j of parallel i as a cell of the row-major table of parallels. */
  function SphereCell(m: Numerics, segments: int, rings: int, radius: real): (int, int) -> Vertex
    requires segments > 0 && rings >= 2
  {
    (i, j) => SphereRingVertex(m, segments, rings, radius, i, j)
  }

  /** The records of the vertex buffer: the two poles, then the rings - 1
      parallels of `segments` vertices each, parallel after parallel. */
  function SphereVertices(m: Numerics, segments: nat, rings: int, radius: real): seq<Vertex> {
    [NorthPole(radius), SouthPole(radius)]
    + if segments > 0 && rings >= 2 then RowMajor(SphereCell(m, segments, rings, radius), rings - 1, segments) else []
  }

  /** North-cap triangle of segment i: north pole, parallel 0 vertex i, vertex i+1. */
  function NorthCap(segments: int, i: int): Triangle {
    Triangle(0, i + 2, NextSegment(segments, i) + 2)
  }

  /** South-cap triangle of segment i: south pole, last parallel vertex i+1, vertex i. */
  function SouthCap(segments: int, rings: int, i: int): Triangle {
    Triangle(1, (rings - 2) * segments + NextSegment(segments, i) + 2, (rings - 2) * segments + i + 2)
  }

  /** The two triangles of the quad between vertices j, j+1 of parallels i and i+1. */
  function UpperBandTriangle(segments: int, i: int, j: int): Triangle {
    Triangle(i * segments + NextSegment(segments, j) + 2, i * segments + j + 2, (i + 1) * segments + j + 2)
  }

  function LowerBandTriangle(segments: int, i: int, j: int): Triangle {
    Triangle((i + 1) * segments + j + 2, (i + 1) * segments + NextSegment(segments, j) + 2,
             i * segments + NextSegment(segments, j) + 2)
  }

  /** The cap triangles once the cap loop has run `n` times. */
  function SphereCaps(segments: nat, rings: int, n: nat): (r: seq<Triangle>)
    requires n <= segments
    ensures |r| == 2 * n
  {
    if n == 0 then []
    else SphereCaps(segments, rings, n - 1) + [NorthCap(segments, n - 1), SouthCap(segments, rings, n - 1)]
  }

  /** Triangle t of the row of quads between parallels i and i+1: the two
      triangles of quad j are t = 2j and t = 2j + 1. */
  function BandTriangle(segments: int, i: int, t: int): Triangle {
    if t % 2 == 0 then UpperBandTriangle(segments, i, t / 2) else LowerBandTriangle(segments, i, t / 2)
  }

  function BandCell(segments: int): (int, int) -> Triangle {
    (i, t) => BandTriangle(segments, i, t)
  }

  /** Cells 2j and 2j + 1 of a band row are the upper and lower triangle of quad j. */
  lemma BandCellAt(segments: int, i: int, j: int)
    ensures BandCell(segments)(i, 2 * j) == UpperBandTriangle(segments, i, j)
    ensures BandCell(segments)(i, 2 * j + 1) == LowerBandTriangle(segments, i, j)
  {
    assert (2 * j) % 2 == 0 && (2 * j) / 2 == j;
    assert (2 * j + 1) % 2 == 1 && (2 * j + 1) / 2 == j;
  }

  /** The band triangles: rings - 2 rows of 2·segments triangles each, row after row. */
  function SphereBands(segments: nat, rings: int): seq<Triangle> {
    if rings >= 2 then RowMajor(BandCell(segments), rings - 2, 2 * segments) else []
  }

  /** All triangles of the index buffer: the caps, then the rings - 2 rows of bands. */
  function SphereTriangles(segments: nat, rings: int): seq<Triangle> {
    SphereCaps(segments, rings, segments) + SphereBands(segments, rings)
  }

  /** The vertex buffer holds the two poles and `segments` vertices per parallel. */
  lemma SphereVerticesLength(m: Numerics, segments: nat, rings: int, radius: real)
    requires rings >= 1
    ensures |SphereVertices(m, segments, rings, radius)| == 2 + (rings - 1) * segments
  {
    if segments > 0 && rings >= 2 {
      RowMajorLength(SphereCell(m, segments, rings, radius), rings - 1, segments);
      RowOffsetProduct(rings - 1, segments);
    }
  }

  /** Each of the rings - 2 rows of quads contributes two triangles per segment. */
  lemma SphereBandsLength(segments: nat, rings: int)
    requires rings >= 2
    ensures |SphereBands(segments, rings)| == 2 * ((rings - 2) * segments)
  {
    RowMajorLength(BandCell(segments), rings - 2, 2 * segments);
    RowOffsetProduct(rings - 2, 2 * segments);
    assert (rings - 2) * (2 * segments) == 2 * ((rings - 2) * segments);
  }

  /** Cap pair i is triangles 2i and 2i+1. */
  lemma {:induction false} SphereCapsAt(segments: nat, rings: int, n: nat, i: int)
    requires 0 <= i < n <= segments
    ensures SphereCaps(segments, rings, n)[2 * i] == NorthCap(segments, i)
    ensures SphereCaps(segments, rings, n)[2 * i + 1] == SouthCap(segments, rings, i)
  {
    if i < n - 1 {
      SphereCapsAt(segments, rings, n - 1, i);
    }
  }

  /** Every cap triangle names one of the 2 + (rings-1)·segments records. */
  lemma {:induction false} SphereCapsBelow(segments: nat, rings: int, n: nat)
    requires rings >= 2 && n <= segments
    ensures forall k :: 0 <= k < 2 * n ==> Below(SphereCaps(segments, rings, n)[k], 2 + (rings - 1) * segments)
  {
    if n > 0 {
      SphereCapsBelow(segments, rings, n - 1);
      var i := n - 1;
      RowBound(0, i, rings - 1, segments);
      RowBound(rings - 2, i, rings - 1, segments);
      RowBound(rings - 2, NextSegment(segments, i), rings - 1, segments);
      assert Below(NorthCap(segments, i), 2 + (rings - 1) * segments);
      assert Below(SouthCap(segments, rings, i), 2 + (rings - 1) * segments);
    }
  }

  /** Every band triangle names one of the 2 + (rings-1)·segments records. */
  lemma SphereBandsBelow(segments: nat, rings: int)
    requires rings >= 2
    ensures forall k :: 0 <= k < |SphereBands(segments, rings)| ==> Below(SphereBands(segments, rings)[k], 2 + (rings - 1) * segments)
  {
    var cell := BandCell(segments);
    forall i, t | 0 <= i < rings - 2 && 0 <= t < 2 * segments
      ensures Below(cell(i, t), 2 + (rings - 1) * segments)
    {
      var j := t / 2;
      RowBound(i, j, rings - 1, segments);
      RowBound(i, NextSegment(segments, j), rings - 1, segments);
      RowBound(i + 1, j, rings - 1, segments);
      RowBound(i + 1, NextSegment(segments, j), rings - 1, segments);
    }
    RowMajorBelow(cell, rings - 2, 2 * segments, 2 + (rings - 1) * segments);
  }

  /** Every triangle of the sphere names one of its 2 + (rings-1)·segments records. */
  lemma SphereTrianglesBelow(segments: nat, rings: int)
    requires rings >= 2
    ensures forall k :: 0 <= k < |SphereTriangles(segments, rings)| ==>
              Below(SphereTriangles(segments, rings)[k], 2 + (rings - 1) * segments)
  {
    SphereCapsBelow(segments, rings, segments);
    SphereBandsBelow(segments, rings);
  }

  /** The caps close into rings across the seam, and the two triangles of a
      band quad share its diagonal. */
  lemma SphereRingCloses(segments: nat, rings: int, i: int, j: int)
    requires 0 <= j < segments
    ensures NorthCap(segments, j).c == NorthCap(segments, NextSegment(segments, j)).b
    ensures SouthCap(segments, rings, NextSegment(segments, j)).c == SouthCap(segments, rings, j).b
    ensures j == segments - 1 ==> NorthCap(segments, j) == Triangle(0, segments + 1, 2)
    ensures UpperBandTriangle(segments, i, j).a == LowerBandTriangle(segments, i, j).c
    ensures UpperBandTriangle(segments, i, j).c == LowerBandTriangle(segments, i, j).a
  {
  }

  /** The floats of the two poles in the packed vertex buffer. */
  lemma SpherePoleSlots(m: Numerics, segments: nat, rings: int, radius: real)
    ensures forall k :: 0 <= k < 6 ==> PackVertices(SphereVertices(m, segments, rings, radius))[k] == VertexFloats(NorthPole(radius))[k]
    ensures forall k :: 6 <= k < 12 ==> PackVertices(SphereVertices(m, segments, rings, radius))[k] == VertexFloats(SouthPole(radius))[k - 6]
  {
    var records := SphereVertices(m, segments, rings, radius);
    PackVerticesSlots(records, 0);
    PackVerticesSlots(records, 1);
  }

  /** The floats of vertex (i, j), record `at` = i·segments + j + 2, in the packed vertex buffer. */
  lemma SphereRecordSlots(m: Numerics, segments: nat, rings: int, radius: real, i: int, j: int, at: int)
    requires 0 <= i < rings - 1 && 0 <= j < segments && at == RowOffset(i, segments) + j + 2
    ensures 6 * at + 6 <= |PackVertices(SphereVertices(m, segments, rings, radius))|
    ensures forall k :: 6 * at <= k < 6 * at + 6 ==>
              PackVertices(SphereVertices(m, segments, rings, radius))[k]
              == VertexFloats(SphereRingVertex(m, segments, rings, radius, i, j))[k - 6 * at]
  {
    assert SphereVertices(m, segments, rings, radius)
           == [NorthPole(radius), SouthPole(radius)] + RowMajor(SphereCell(m, segments, rings, radius), rings - 1, segments);
    TableVertexSlots(SphereVertices(m, segments, rings, radius), [NorthPole(radius), SouthPole(radius)], SphereCell(m, segments, rings, radius), rings - 1, segments, i, j, at,
                     SphereRingVertex(m, segments, rings, radius, i, j));
  }

  /** The entries of cap pair i in the packed index buffer. */
  lemma SphereCapSlots(segments: nat, rings: int, i: int)
    requires 0 <= i < segments
    ensures forall k :: 6 * i <= k < 6 * i + 3 ==>
              PackTriangles(SphereTriangles(segments, rings))[k] == TriangleInts(NorthCap(segments, i))[k - 6 * i]
    ensures forall k :: 6 * i + 3 <= k < 6 * i + 6 ==>
              PackTriangles(SphereTriangles(segments, rings))[k] == TriangleInts(SouthCap(segments, rings, i))[k - (6 * i + 3)]
  {
    var caps := SphereCaps(segments, rings, segments);
    var all := SphereTriangles(segments, rings);
    SphereCapsAt(segments, rings, segments, i);
    assert all[2 * i] == caps[2 * i] && all[2 * i + 1] == caps[2 * i + 1];
    PackTrianglesSlots(all, 2 * i);
    PackTrianglesSlots(all, 2 * i + 1);
  }

  /** The entries of the upper triangle of quad (i, j), quad `q` = i·segments + j,
      in the packed index buffer, after the 6·segments cap entries. */
  lemma UpperBandSlots(segments: nat, rings: int, i: int, j: int, q: int)
    requires 0 <= i < rings - 2 && 0 <= j < segments && q == RowOffset(i, segments) + j
    ensures 6 * segments + 6 * q + 3 <= |PackTriangles(SphereTriangles(segments, rings))|
    ensures forall k :: 6 * segments + 6 * q <= k < 6 * segments + 6 * q + 3 ==>
              PackTriangles(SphereTriangles(segments, rings))[k]
              == TriangleInts(UpperBandTriangle(segments, i, j))[k - (6 * segments + 6 * q)]
  {
    var caps := SphereCaps(segments, rings, segments);
    var all := SphereTriangles(segments, rings);
    assert all == caps + RowMajor(BandCell(segments), rings - 2, 2 * segments);
    RowOffsetDouble(i, segments);
    BandCellAt(segments, i, j);
    TableTriangleSlots(all, caps, BandCell(segments), rings - 2, 2 * segments, i, 2 * j, 2 * segments + 2 * q,
                       UpperBandTriangle(segments, i, j));
  }

  /** The entries of the lower triangle of quad (i, j), right after the upper one. */
  lemma LowerBandSlots(segments: nat, rings: int, i: int, j: int, q: int)
    requires 0 <= i < rings - 2 && 0 <= j < segments && q == RowOffset(i, segments) + j
    ensures 6 * segments + 6 * q + 6 <= |PackTriangles(SphereTriangles(segments, rings))|
    ensures forall k :: 6 * segments + 6 * q + 3 <= k < 6 * segments + 6 * q + 6 ==>
              PackTriangles(SphereTriangles(segments, rings))[k]
              == TriangleInts(LowerBandTriangle(segments, i, j))[k - (6 * segments + 6 * q + 3)]
  {
    var caps := SphereCaps(segments, rings, segments);
    var all := SphereTriangles(segments, rings);
    assert all == caps + RowMajor(BandCell(segments), rings - 2, 2 * segments);
    RowOffsetDouble(i, segments);
    BandCellAt(segments, i, j);
    TableTriangleSlots(all, caps, BandCell(segments), rings - 2, 2 * segments, i, 2 * j + 1, 2 * segments + 2 * q + 1,
                       LowerBandTriangle(segments, i, j));
  }

  /** GenerateSphere: allocates 6·(2 + (rings-1)·segments) floats and
      6·segments + 6·(rings-2)·segments indices and fills them with the records
      and triangles above. With a single ring the index buffer has no entries
      but the cap loop writes 6·segments of them, so one ring is only accepted
      without segments. The index size is computed in `int` starting with
      6·(rings-2), which must fit too, even when there are no segments. */
  method GenerateSphere(m: Numerics, segments: int, rings: int, radius: real)
    returns (sphere: array<real>, sphereIndices: array<int>, sphereSize: int, sphereIndicesSize: int)
    requires 0 <= segments && (rings >= 2 || (rings == 1 && segments == 0))
    requires 6 * (2 + (rings - 1) * segments) <= INT_MAX && 6 * (rings - 2) <= INT_MAX
    ensures fresh(sphere) && fresh(sphereIndices)
    ensures sphereSize == sphere.Length == 6 * (2 + (rings - 1) * segments)
    ensures sphereIndicesSize == sphereIndices.Length == 6 * segments + 6 * (rings - 2) * segments
    ensures sphere[..] == PackVertices(SphereVertices(m, segments, rings, radius))
    ensures sphereIndices[..] == PackTriangles(SphereTriangles(segments, rings))
    ensures forall k :: 0 <= k < sphereIndicesSize ==> 0 <= sphereIndices[k] < 2 + (rings - 1) * segments
  {
    sphere, sphereSize := SphereVertexBuffer(m, segments, rings, radius);
    sphereIndices, sphereIndicesSize := SphereIndexBuffer(segments, rings);
    if rings >= 2 {
      SphereTrianglesBelow(segments, rings);
      PackTrianglesBelow(SphereTriangles(segments, rings), 2 + (rings - 1) * segments);
    }
  }

  /** The RCTSP, RCP and RSTSP tables hold, for every vertex (i, j) of every
      parallel, the x, y and z coordinate of its position. */
  ghost predicate Tabulated(m: Numerics, segments: nat, rings: int, radius: real,
                            rctsp: array2<real>, rstsp: array2<real>, rcp: array2<real>)
    reads rctsp, rstsp, rcp
  {
    rctsp.Length0 == rstsp.Length0 == rcp.Length0 == rings - 1
    && rctsp.Length1 == rstsp.Length1 == rcp.Length1 == segments
    && forall i, j :: 0 <= i < rings - 1 && 0 <= j < segments ==>
         rctsp[i, j] == SpherePoint(m, segments, rings, radius, i, j).x
         && rcp[i, j] == SpherePoint(m, segments, rings, radius, i, j).y
         && rstsp[i, j] == SpherePoint(m, segments, rings, radius, i, j).z
  }

  /** Lines 245-275 of GenerateSphere: the RCTSP, RSTSP and RCP tables, one row per parallel. */
  method SphereTables(m: Numerics, segments: nat, rings: int, radius: real)
    returns (rctsp: array2<real>, rstsp: array2<real>, rcp: array2<real>)
    requires rings >= 1
    ensures fresh(rctsp) && fresh(rstsp) && fresh(rcp)
    ensures Tabulated(m, segments, rings, radius, rctsp, rstsp, rcp)
  {
    rctsp := new real[rings - 1, segments];
    rstsp := new real[rings - 1, segments];
    rcp := new real[rings - 1, segments];
    for i := 0 to rings - 1
      invariant forall i', j :: 0 <= i' < i && 0 <= j < segments ==>
                  rctsp[i', j] == SpherePoint(m, segments, rings, radius, i', j).x
                  && rcp[i', j] == SpherePoint(m, segments, rings, radius, i', j).y
                  && rstsp[i', j] == SpherePoint(m, segments, rings, radius, i', j).z
    {
      SphereTableRow(m, segments, rings, radius, rctsp, rstsp, rcp, i);
    }
  }

  /** One pass of the outer loop of lines 261-275: row i of the three tables. */
  method SphereTableRow(m: Numerics, segments: nat, rings: int, radius: real,
                        rctsp: array2<real>, rstsp: array2<real>, rcp: array2<real>, i: int)
    requires 0 <= i < rings - 1
    requires rctsp.Length0 == rstsp.Length0 == rcp.Length0 == rings - 1
    requires rctsp.Length1 == rstsp.Length1 == rcp.Length1 == segments
    requires rctsp != rstsp && rctsp != rcp && rstsp != rcp
    modifies rctsp, rstsp, rcp
    ensures forall j :: 0 <= j < segments ==>
              rctsp[i, j] == SpherePoint(m, segments, rings, radius, i, j).x
              && rcp[i, j] == SpherePoint(m, segments, rings, radius, i, j).y
              && rstsp[i, j] == SpherePoint(m, segments, rings, radius, i, j).z
    ensures forall i', j :: 0 <= i' < rings - 1 && i' != i && 0 <= j < segments ==>
              rctsp[i', j] == old(rctsp[i', j]) && rcp[i', j] == old(rcp[i', j]) && rstsp[i', j] == old(rstsp[i', j])
  {
    var phi := (i + 1) as real * PI / rings as real;
    for j := 0 to segments
      invariant forall j' :: 0 <= j' < j ==>
                  rctsp[i, j'] == SpherePoint(m, segments, rings, radius, i, j').x
                  && rcp[i, j'] == SpherePoint(m, segments, rings, radius, i, j').y
                  && rstsp[i, j'] == SpherePoint(m, segments, rings, radius, i, j').z
      invariant forall i', j' :: 0 <= i' < rings - 1 && i' != i && 0 <= j' < segments ==>
                  rctsp[i', j'] == old(rctsp[i', j']) && rcp[i', j'] == old(rcp[i', j']) && rstsp[i', j'] == old(rstsp[i', j'])
    {
      var theta := (j as real / segments as real) * 2.0 * PI;
      var st, ct, sp, cp := m.sin(theta), m.cos(theta), m.sin(phi), m.cos(phi);
      rctsp[i, j] := radius * ct * sp;
      rstsp[i, j] := radius * st * sp;
      rcp[i, j] := radius * cp;
    }
  }

  /** The body of the vertex loop of GenerateSphere (lines 287-310) up to the
      write: vertex (i, j) and its normal, read from the tables. */
  method SphereRecord(m: Numerics, segments: nat, rings: int, radius: real,
                      rctsp: array2<real>, rstsp: array2<real>, rcp: array2<real>, i: int, j: int)
    returns (vertex: Vec3, normal: Vec3)
    requires rings >= 2 && 0 <= i < rings - 1 && 0 <= j < segments
    requires Tabulated(m, segments, rings, radius, rctsp, rstsp, rcp)
    ensures Vertex(vertex, normal) == SphereRingVertex(m, segments, rings, radius, i, j)
  {
    SegmentNeighbours(segments, j);
    SegmentNeighbours(rings - 1, i);
    var topVertex := Vec3(0.0, radius, 0.0);
    var bottomVertex := Vec3(0.0, -radius, 0.0);
    var l, r := (segments + j - 1) % segments, (j + 1) % segments;
    vertex := Vec3(rctsp[i, j], rcp[i, j], rstsp[i, j]);
    var leftVertex := Vec3(rctsp[i, l], rcp[i, l], rstsp[i, l]);
    var rightVertex := Vec3(rctsp[i, r], rcp[i, r], rstsp[i, r]);
    var upVertex: Vec3;
    if i == 0 {
      upVertex := topVertex;
    } else {
      var u := (rings - 1 + i - 1) % (rings - 1);
      upVertex := Vec3(rctsp[u, j], rcp[u, j], rstsp[u, j]);
    }
    var downVertex: Vec3;
    if i == rings - 2 {
      downVertex := bottomVertex;
    } else {
      var d := (i + 1) % (rings - 1);
      downVertex := Vec3(rctsp[d, j], rcp[d, j], rstsp[d, j]);
    }
    normal := m.normalize(Add(Add(Add(m.cross(Sub(leftVertex, vertex), Sub(upVertex, vertex)),
                                      m.cross(Sub(upVertex, vertex), Sub(rightVertex, vertex))),
                                  m.cross(Sub(rightVertex, vertex), Sub(downVertex, vertex))),
                              m.cross(Sub(downVertex, vertex), Sub(leftVertex, vertex))));
  }

  /** Lines 243-314 of GenerateSphere: the vertex buffer. */
  method SphereVertexBuffer(m: Numerics, segments: nat, rings: int, radius: real)
    returns (sphere: array<real>, sphereSize: int)
    requires rings >= 1
    ensures fresh(sphere)
    ensures sphereSize == sphere.Length == 6 * (2 + (rings - 1) * segments)
    ensures sphere[..] == PackVertices(SphereVertices(m, segments, rings, radius))
  {
    ghost var spec := PackVertices(SphereVertices(m, segments, rings, radius));
    SphereVerticesLength(m, segments, rings, radius);
    sphereSize := 6 * (2 + (rings - 1) * segments);
    sphere := new real[sphereSize];
    var rctsp, rstsp, rcp := SphereTables(m, segments, rings, radius);
    SpherePoles(m, segments, rings, radius, sphere, spec);
    SphereParallels(m, segments, rings, radius, rctsp, rstsp, rcp, sphere, spec);
    SlotwiseEqual(sphere[..], spec);
  }

  /** Lines 277-281 of GenerateSphere: the two poles, records 0 and 1. */
  method SpherePoles(m: Numerics, segments: nat, rings: int, radius: real, sphere: array<real>, ghost spec: seq<real>)
    requires spec == PackVertices(SphereVertices(m, segments, rings, radius)) && sphere.Length == |spec|
    modifies sphere
    ensures forall k :: 0 <= k < 12 ==> sphere[k] == spec[k]
  {
    InsertVertex(sphere, 0, 0.0, radius, 0.0, 0.0, 1.0, 0.0);
    InsertVertex(sphere, 6, 0.0, -radius, 0.0, 0.0, -1.0, 0.0);
    SpherePoleSlots(m, segments, rings, radius);
    assert VertexFloats(NorthPole(radius)) == [0.0, radius, 0.0, 0.0, 1.0, 0.0];
    assert VertexFloats(SouthPole(radius)) == [0.0, -radius, 0.0, 0.0, -1.0, 0.0];
  }

  /** The vertex loop of lines 283-314: parallel after parallel. */
  method SphereParallels(m: Numerics, segments: nat, rings: int, radius: real,
                         rctsp: array2<real>, rstsp: array2<real>, rcp: array2<real>,
                         sphere: array<real>, ghost spec: seq<real>)
    requires rings >= 1
    requires Tabulated(m, segments, rings, radius, rctsp, rstsp, rcp)
    requires spec == PackVertices(SphereVertices(m, segments, rings, radius)) && sphere.Length == |spec|
    requires forall k :: 0 <= k < 12 ==> sphere[k] == spec[k]
    modifies sphere
    ensures forall k :: 0 <= k < |spec| ==> sphere[k] == spec[k]
  {
    SphereVerticesLength(m, segments, rings, radius);
    RowOffsetProduct(rings - 1, segments);
    ghost var rowStart := 0;
    for i := 0 to rings - 1
      invariant rowStart == RowOffset(i, segments) <= RowOffset(rings - 1, segments)
      invariant forall k :: 0 <= k < 6 * (rowStart + 2) ==> sphere[k] == spec[k]
    {
      RowOffsetMonotone(i + 1, rings - 1, segments);
      SphereParallel(m, segments, rings, radius, rctsp, rstsp, rcp, sphere, i, rowStart, spec);
      rowStart := rowStart + segments;
    }
  }

  /** One pass of the outer loop of lines 283-314: the records of parallel i,
      rowStart + 2 .. rowStart + segments + 1 with rowStart = i·segments. */
  method SphereParallel(m: Numerics, segments: nat, rings: int, radius: real,
                        rctsp: array2<real>, rstsp: array2<real>, rcp: array2<real>,
                        sphere: array<real>, i: int, ghost rowStart: int, ghost spec: seq<real>)
    requires rings >= 2 && 0 <= i < rings - 1 && rowStart == RowOffset(i, segments)
    requires Tabulated(m, segments, rings, radius, rctsp, rstsp, rcp)
    requires spec == PackVertices(SphereVertices(m, segments, rings, radius)) && sphere.Length == |spec|
    requires forall k :: 0 <= k < 6 * (rowStart + 2) && k < |spec| ==> sphere[k] == spec[k]
    modifies sphere
    ensures forall k :: 0 <= k < 6 * (rowStart + segments + 2) && k < |spec| ==> sphere[k] == spec[k]
  {
    SphereVerticesLength(m, segments, rings, radius);
    RowOffsetProduct(rings - 1, segments);
    RowOffsetMonotone(i + 1, rings - 1, segments);
    RowOffsetProduct(i, segments);
    for j := 0 to segments
      invariant forall k :: 0 <= k < 6 * (rowStart + j + 2) ==> sphere[k] == spec[k]
    {
      SphereWriteRecord(m, segments, rings, radius, rctsp, rstsp, rcp, sphere, i, j, rowStart + j + 2, spec);
    }
  }

  /** One pass of the inner loop of lines 285-313: record i·segments + j + 2 is
      computed from the tables and written to its six slots. */
  method SphereWriteRecord(m: Numerics, segments: nat, rings: int, radius: real,
                           rctsp: array2<real>, rstsp: array2<real>, rcp: array2<real>,
                           sphere: array<real>, i: int, j: int, ghost at: int, ghost spec: seq<real>)
    requires rings >= 2 && 0 <= i < rings - 1 && 0 <= j < segments && at == RowOffset(i, segments) + j + 2
    requires Tabulated(m, segments, rings, radius, rctsp, rstsp, rcp)
    requires spec == PackVertices(SphereVertices(m, segments, rings, radius)) && sphere.Length == |spec|
    modifies sphere
    ensures 6 * at + 6 <= |spec|
    ensures forall k :: 6 * at <= k < 6 * at + 6 ==> sphere[k] == spec[k]
    ensures forall k :: 0 <= k < sphere.Length && !(6 * at <= k < 6 * at + 6) ==> sphere[k] == old(sphere[k])
  {
    RowOffsetProduct(i, segments);
    var vertex, normal := SphereRecord(m, segments, rings, radius, rctsp, rstsp, rcp, i, j);
    SphereRecordSlots(m, segments, rings, radius, i, j, at);
    InsertVertexVectors(sphere, (i * segments + j + 2) * 6, vertex, normal);
  }

  /** Lines 332-348 of GenerateSphere: the index buffer, the caps first, then the bands. */
  method SphereIndexBuffer(segments: nat, rings: int) returns (sphereIndices: array<int>, sphereIndicesSize: int)
    requires rings >= 2 || (rings == 1 && segments == 0)
    ensures fresh(sphereIndices)
    ensures sphereIndicesSize == sphereIndices.Length == 6 * segments + 6 * (rings - 2) * segments
    ensures sphereIndices[..] == PackTriangles(SphereTriangles(segments, rings))
  {
    ghost var spec := PackTriangles(SphereTriangles(segments, rings));
    ghost var bandRows := if rings >= 2 then rings - 2 else 0;
    if rings >= 2 {
      SphereBandsLength(segments, rings);
    }
    RowOffsetProduct(bandRows, segments);
    assert |spec| == 6 * segments + 6 * RowOffset(bandRows, segments);
    sphereIndicesSize := 6 * segments + 6 * (rings - 2) * segments;
    sphereIndices := new int[sphereIndicesSize];
    SphereCapIndices(segments, rings, sphereIndices, spec);
    SphereBandIndices(segments, rings, bandRows, sphereIndices, spec);
    SlotwiseEqual(sphereIndices[..], spec);
  }

  /** Lines 335-339 of GenerateSphere: the cap loop, a pair of triangles per segment. */
  method SphereCapIndices(segments: nat, rings: int, sphereIndices: array<int>, ghost spec: seq<int>)
    requires spec == PackTriangles(SphereTriangles(segments, rings))
    requires sphereIndices.Length == |spec| && 6 * segments <= |spec|
    modifies sphereIndices
    ensures forall k :: 0 <= k < 6 * segments ==> sphereIndices[k] == spec[k]
  {
    for i := 0 to segments
      invariant forall k :: 0 <= k < 6 * i ==> sphereIndices[k] == spec[k]
    {
      SphereCapSlots(segments, rings, i);
      SegmentNeighbours(segments, i);
      InsertIndex(sphereIndices, i * 6, 0, i + 2, (i + 1) % segments + 2);
      InsertIndex(sphereIndices, i * 6 + 3, 1, (rings - 2) * segments + (i + 1) % segments + 2, (rings - 2) * segments + i + 2);
    }
  }

  /** Lines 341-348 of GenerateSphere: the band loop, rings - 2 rows of quads. */
  method SphereBandIndices(segments: nat, rings: int, ghost bandRows: nat, sphereIndices: array<int>, ghost spec: seq<int>)
    requires bandRows == if rings >= 2 then rings - 2 else 0
    requires spec == PackTriangles(SphereTriangles(segments, rings))
    requires sphereIndices.Length == |spec| == 6 * segments + 6 * RowOffset(bandRows, segments)
    requires forall k :: 0 <= k < 6 * segments ==> sphereIndices[k] == spec[k]
    modifies sphereIndices
    ensures forall k :: 0 <= k < |spec| ==> sphereIndices[k] == spec[k]
  {
    var i := 0;
    ghost var rowStart := 0;
    while i < rings - 2
      invariant 0 <= i <= bandRows && rowStart == RowOffset(i, segments) <= RowOffset(bandRows, segments)
      invariant forall k :: 0 <= k < 6 * segments + 6 * rowStart ==> sphereIndices[k] == spec[k]
    {
      RowOffsetMonotone(i + 1, bandRows, segments);
      SphereBandRow(segments, rings, i, rowStart, sphereIndices, spec);
      rowStart := rowStart + segments;
      i := i + 1;
    }
  }

  /** One pass of the outer band loop: the quads between parallels i and i + 1. */
  method SphereBandRow(segments: nat, rings: int, i: int, ghost rowStart: int, sphereIndices: array<int>, ghost spec: seq<int>)
    requires 0 <= i < rings - 2 && rowStart == RowOffset(i, segments)
    requires spec == PackTriangles(SphereTriangles(segments, rings))
    requires sphereIndices.Length == |spec| && 6 * segments + 6 * (rowStart + segments) <= |spec|
    requires forall k :: 0 <= k < 6 * segments + 6 * rowStart ==> sphereIndices[k] == spec[k]
    modifies sphereIndices
    ensures forall k :: 0 <= k < 6 * segments + 6 * (rowStart + segments) ==> sphereIndices[k] == spec[k]
  {
    RowOffsetProduct(i, segments);
    RowOffsetProduct(i + 1, segments);
    for j := 0 to segments
      invariant forall k :: 0 <= k < 6 * segments + 6 * (rowStart + j) ==> sphereIndices[k] == spec[k]
    {
      UpperBandSlots(segments, rings, i, j, rowStart + j);
      LowerBandSlots(segments, rings, i, j, rowStart + j);
      SegmentNeighbours(segments, j);
      InsertIndex(sphereIndices, segments * 6 + (i * segments + j) * 6,
                  i * segments + (j + 1) % segments + 2, i * segments + j + 2, (i + 1) * segments + j + 2);
      InsertIndex(sphereIndices, segments * 6 + (i * segments + j) * 6 + 3,
                  (i + 1) * segments + j + 2, (i + 1) * segments + (j + 1) % segments + 2, i * segments + (j + 1) % segments + 2);
    }
  }
}

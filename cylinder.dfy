/** GenerateCylinder of Utils.h: a capped cylinder of `vertices` angular
    segments around the y axis. Records: 0 the top pole, 1 the bottom pole,
    then for segment i the top-ring vertex 2(i+1) and the bottom-ring vertex
    2(i+1)+1. Triangles: four bands of `vertices` triangles each (top fan, two
    side bands, bottom fan), the last segment stitched back to segment 0. */
module Cylinder {
  import opened Geometry
  import opened Utils

  function TopPole(halfDepth: real): Vertex {
    Vertex(Vec3(0.0, halfDepth, 0.0), Vec3(0.0, 1.0, 0.0))
  }

  function BottomPole(halfDepth: real): Vertex {
    Vertex(Vec3(0.0, -halfDepth, 0.0), Vec3(0.0, -1.0, 0.0))
  }

  /** The top-ring record of segment i. */
  function TopRingVertex(m: Numerics, vertices: int, radius: real, depth: real, bFlat: bool, i: int): Vertex
    requires vertices != 0
  {
    var x, z := RingX(m, radius, i, vertices), RingZ(m, radius, i, vertices);
    Vertex(Vec3(x, depth / 2.0, z), m.normalize(Vec3(x, 1.0 * FlatFactor(bFlat), z)))
  }

  /** The bottom-ring record of segment i. */
  function BottomRingVertex(m: Numerics, vertices: int, radius: real, depth: real, bFlat: bool, i: int): Vertex
    requires vertices != 0
  {
    var x, z := RingX(m, radius, i, vertices), RingZ(m, radius, i, vertices);
    Vertex(Vec3(x, -(depth / 2.0), z), m.normalize(Vec3(x, -1.0 * FlatFactor(bFlat), z)))
  }

  /** The records in the vertex buffer once the ring loop has run `n` times. */
  function CylinderVertices(m: Numerics, vertices: nat, radius: real, depth: real, bFlat: bool, n: nat): (r: seq<Vertex>)
    requires n <= vertices
    ensures |r| == 2 + 2 * n
  {
    if n == 0 then [TopPole(depth / 2.0), BottomPole(depth / 2.0)]
    else CylinderVertices(m, vertices, radius, depth, bFlat, n - 1)
         + [TopRingVertex(m, vertices, radius, depth, bFlat, n - 1)] + [BottomRingVertex(m, vertices, radius, depth, bFlat, n - 1)]
  }

  /** Triangle i of index band `band`: 0 the top fan, 1 and 2 the side, 3 the bottom fan. */
  function CylinderTriangle(vertices: int, band: int, i: int): Triangle
    requires 0 <= i < vertices
  {
    var next := NextSegment(vertices, i);
    if band == 0 then Triangle(0, (i + 1) * 2, (next + 1) * 2)
    else if band == 1 then Triangle((i + 1) * 2, (i + 1) * 2 + 1, next * 2 + 2)
    else if band == 2 then Triangle((i + 1) * 2 + 1, next * 2 + 2, (next + 1) * 2 + 1)
    else Triangle(1, (i + 1) * 2 + 1, (next + 1) * 2 + 1)
  }

  /** The first `n` triangles of band `band`. */
  function CylinderBand(vertices: nat, band: int, n: nat): (r: seq<Triangle>)
    requires n <= vertices
    ensures |r| == n
  {
    if n == 0 then [] else CylinderBand(vertices, band, n - 1) + [CylinderTriangle(vertices, band, n - 1)]
  }

  /** All triangles of the index buffer, band after band. */
  function CylinderTriangles(vertices: nat): seq<Triangle> {
    CylinderBand(vertices, 0, vertices) + CylinderBand(vertices, 1, vertices)
    + CylinderBand(vertices, 2, vertices) + CylinderBand(vertices, 3, vertices)
  }

  /** Layout: records 0 and 1 are the poles, 2(i+1) and 2(i+1)+1 the top and bottom ring
      vertices of segment i, in angular order starting at angle 0. */
  lemma {:induction false} CylinderVerticesAt(m: Numerics, vertices: nat, radius: real, depth: real, bFlat: bool, n: nat, i: int)
    requires 0 <= i < n <= vertices
    ensures CylinderVertices(m, vertices, radius, depth, bFlat, n)[0] == TopPole(depth / 2.0)
    ensures CylinderVertices(m, vertices, radius, depth, bFlat, n)[1] == BottomPole(depth / 2.0)
    ensures CylinderVertices(m, vertices, radius, depth, bFlat, n)[2 * (i + 1)] == TopRingVertex(m, vertices, radius, depth, bFlat, i)
    ensures CylinderVertices(m, vertices, radius, depth, bFlat, n)[2 * (i + 1) + 1] == BottomRingVertex(m, vertices, radius, depth, bFlat, i)
  {
    if i < n - 1 {
      CylinderVerticesAt(m, vertices, radius, depth, bFlat, n - 1, i);
    } else if n > 1 {
      CylinderVerticesAt(m, vertices, radius, depth, bFlat, n - 1, 0);
    }
  }

  /** Triangle i of a band is the band's formula at i. */
  lemma {:induction false} CylinderBandAt(vertices: nat, band: int, n: nat, i: int)
    requires 0 <= i < n <= vertices
    ensures CylinderBand(vertices, band, n)[i] == CylinderTriangle(vertices, band, i)
  {
    if i < n - 1 {
      CylinderBandAt(vertices, band, n - 1, i);
    }
  }

  /** Band b occupies triangles b*vertices .. (b+1)*vertices - 1, i.e. index slots [3b·V, 3(b+1)·V). */
  lemma CylinderTrianglesAt(vertices: nat, band: int, i: int)
    requires 0 <= band < 4 && 0 <= i < vertices
    ensures |CylinderTriangles(vertices)| == 4 * vertices
    ensures CylinderTriangles(vertices)[band * vertices + i] == CylinderTriangle(vertices, band, i)
  {
    CylinderBandAt(vertices, band, vertices, i);
    var b0, b1, b2, b3 := CylinderBand(vertices, 0, vertices), CylinderBand(vertices, 1, vertices),
                          CylinderBand(vertices, 2, vertices), CylinderBand(vertices, 3, vertices);
    var all := CylinderTriangles(vertices);
    assert all == b0 + b1 + b2 + b3;
    if band == 0 {
      assert all[i] == b0[i];
    } else if band == 1 {
      assert band * vertices + i == vertices + i;
      assert all[vertices + i] == b1[i];
    } else if band == 2 {
      assert band * vertices + i == 2 * vertices + i;
      assert all[2 * vertices + i] == b2[i];
    } else {
      assert band * vertices + i == 3 * vertices + i;
      assert all[3 * vertices + i] == b3[i];
    }
  }

  lemma {:induction false} CylinderBandBelow(vertices: nat, band: int, n: nat)
    requires n <= vertices
    ensures forall k :: 0 <= k < n ==> Below(CylinderBand(vertices, band, n)[k], 2 * vertices + 2)
  {
    if n > 0 {
      CylinderBandBelow(vertices, band, n - 1);
      assert Below(CylinderTriangle(vertices, band, n - 1), 2 * vertices + 2);
    }
  }

  /** Every triangle of the cylinder names one of its 2·vertices + 2 records. */
  lemma CylinderTrianglesBelow(vertices: nat)
    ensures forall k :: 0 <= k < |CylinderTriangles(vertices)| ==> Below(CylinderTriangles(vertices)[k], 2 * vertices + 2)
  {
    CylinderBandBelow(vertices, 0, vertices);
    CylinderBandBelow(vertices, 1, vertices);
    CylinderBandBelow(vertices, 2, vertices);
    CylinderBandBelow(vertices, 3, vertices);
  }

  /** The fans and the side close into rings: in each fan, and across the two
      side bands, segment i and the segment after it share an edge, and the last
      segment wraps to the first. */
  lemma CylinderRingCloses(vertices: nat, i: int)
    requires 0 <= i < vertices
    ensures CylinderTriangle(vertices, 0, i).c == CylinderTriangle(vertices, 0, NextSegment(vertices, i)).b
    ensures CylinderTriangle(vertices, 3, i).c == CylinderTriangle(vertices, 3, NextSegment(vertices, i)).b
    ensures CylinderTriangle(vertices, 2, i).b == CylinderTriangle(vertices, 1, NextSegment(vertices, i)).a
    ensures CylinderTriangle(vertices, 2, i).c == CylinderTriangle(vertices, 1, NextSegment(vertices, i)).b
    ensures i == vertices - 1 ==> CylinderTriangle(vertices, 0, i) == Triangle(0, 2 * vertices, 2)
    ensures i == vertices - 1 ==> CylinderTriangle(vertices, 3, i) == Triangle(1, 2 * vertices + 1, 3)
  {
  }

  /** The floats of the two pole records in the packed vertex buffer. */
  lemma CylinderPoleSlots(m: Numerics, vertices: nat, radius: real, depth: real, bFlat: bool)
    ensures forall k :: 0 <= k < 6 ==>
              PackVertices(CylinderVertices(m, vertices, radius, depth, bFlat, vertices))[k]
              == VertexFloats(TopPole(depth / 2.0))[k]
    ensures forall k :: 6 <= k < 12 ==>
              PackVertices(CylinderVertices(m, vertices, radius, depth, bFlat, vertices))[k]
              == VertexFloats(BottomPole(depth / 2.0))[k - 6]
  {
    var records := CylinderVertices(m, vertices, radius, depth, bFlat, vertices);
    if vertices > 0 {
      CylinderVerticesAt(m, vertices, radius, depth, bFlat, vertices, 0);
    }
    PackVerticesSlots(records, 0);
    PackVerticesSlots(records, 1);
  }

  /** The floats of segment i's two ring records in the packed vertex buffer. */
  lemma CylinderSegmentSlots(m: Numerics, vertices: nat, radius: real, depth: real, bFlat: bool, i: int)
    requires 0 <= i < vertices
    ensures forall k :: 12 * (i + 1) <= k < 12 * (i + 1) + 6 ==>
              PackVertices(CylinderVertices(m, vertices, radius, depth, bFlat, vertices))[k]
              == VertexFloats(TopRingVertex(m, vertices, radius, depth, bFlat, i))[k - 12 * (i + 1)]
    ensures forall k :: 12 * (i + 1) + 6 <= k < 12 * (i + 1) + 12 ==>
              PackVertices(CylinderVertices(m, vertices, radius, depth, bFlat, vertices))[k]
              == VertexFloats(BottomRingVertex(m, vertices, radius, depth, bFlat, i))[k - (12 * (i + 1) + 6)]
  {
    var records := CylinderVertices(m, vertices, radius, depth, bFlat, vertices);
    CylinderVerticesAt(m, vertices, radius, depth, bFlat, vertices, i);
    PackVerticesSlots(records, 2 * (i + 1));
    PackVerticesSlots(records, 2 * (i + 1) + 1);
  }

  /** The three entries of triangle i of band `band` in the packed index buffer. */
  lemma CylinderBandSlots(vertices: nat, band: int, i: int)
    requires 0 <= band < 4 && 0 <= i < vertices
    ensures forall k :: 3 * (band * vertices + i) <= k < 3 * (band * vertices + i) + 3 ==>
              PackTriangles(CylinderTriangles(vertices))[k]
              == TriangleInts(CylinderTriangle(vertices, band, i))[k - 3 * (band * vertices + i)]
  {
    CylinderTrianglesAt(vertices, band, i);
    PackTrianglesSlots(CylinderTriangles(vertices), band * vertices + i);
  }

  /** GenerateCylinder: allocates 12·(vertices+1) floats (2·vertices + 2 records) and
      12·vertices indices and fills them with the records and triangles above. The
      body is the source's, split into its vertex half and its index half. */
  method GenerateCylinder(m: Numerics, vertices: int, radius: real, depth: real, bFlat: bool := true)
    returns (cylinder: array<real>, cylinderIndices: array<int>, cylinderSize: int, cylinderIndicesSize: int)
    requires 0 <= vertices && 12 * (vertices + 1) <= INT_MAX
    ensures fresh(cylinder) && fresh(cylinderIndices)
    ensures cylinderSize == cylinder.Length == 12 * (vertices + 1)
    ensures cylinderIndicesSize == cylinderIndices.Length == 12 * vertices
    ensures cylinder[..] == PackVertices(CylinderVertices(m, vertices, radius, depth, bFlat, vertices))
    ensures cylinderIndices[..] == PackTriangles(CylinderTriangles(vertices))
    ensures forall k :: 0 <= k < cylinderIndicesSize ==> 0 <= cylinderIndices[k] < 2 * vertices + 2
  {
    cylinder, cylinderSize := CylinderVertexBuffer(m, vertices, radius, depth, bFlat);
    cylinderIndices, cylinderIndicesSize := CylinderIndexBuffer(vertices);
    CylinderTrianglesBelow(vertices);
    PackTrianglesBelow(CylinderTriangles(vertices), 2 * vertices + 2);
  }

  /** Lines 131-163 of GenerateCylinder: the vertex buffer. */
  method CylinderVertexBuffer(m: Numerics, vertices: nat, radius: real, depth: real, bFlat: bool)
    returns (cylinder: array<real>, cylinderSize: int)
    ensures fresh(cylinder)
    ensures cylinderSize == cylinder.Length == 12 * (vertices + 1)
    ensures cylinder[..] == PackVertices(CylinderVertices(m, vertices, radius, depth, bFlat, vertices))
  {
    ghost var records := CylinderVertices(m, vertices, radius, depth, bFlat, vertices);
    ghost var spec := PackVertices(records);
    cylinderSize := 12 * (vertices + 1);
    cylinder := new real[cylinderSize];
    var rcTheta, rsTheta := RingTables(m, vertices, radius);
    var halfDepth := depth / 2.0;

    InsertVertex(cylinder, 0, 0.0, halfDepth, 0.0, 0.0, 1.0, 0.0);
    InsertVertex(cylinder, 6, 0.0, -halfDepth, 0.0, 0.0, -1.0, 0.0);
    CylinderPoleSlots(m, vertices, radius, depth, bFlat);
    assert VertexFloats(TopPole(depth / 2.0)) == [0.0, halfDepth, 0.0, 0.0, 1.0, 0.0];
    assert VertexFloats(BottomPole(depth / 2.0)) == [0.0, -halfDepth, 0.0, 0.0, -1.0, 0.0];

    var flatFactor := 1.0;
    if bFlat {
      flatFactor := 0.0;
    }

    for i := 0 to vertices
      modifies cylinder
      invariant forall k :: 0 <= k < 12 * (i + 1) ==> cylinder[k] == spec[k]
    {
      var rc, rs := rcTheta[i], rsTheta[i];
      var normalBottom := m.normalize(Vec3(rc, -1.0 * flatFactor, rs));
      var normalTop := m.normalize(Vec3(rc, 1.0 * flatFactor, rs));
      CylinderSegmentSlots(m, vertices, radius, depth, bFlat, i);
      assert TopRingVertex(m, vertices, radius, depth, bFlat, i) == Vertex(Vec3(rc, halfDepth, rs), normalTop);
      assert BottomRingVertex(m, vertices, radius, depth, bFlat, i) == Vertex(Vec3(rc, -halfDepth, rs), normalBottom);

      InsertVertexWithNormal(cylinder, (i + 1) * 12, rc, halfDepth, rs, normalTop);
      InsertVertexWithNormal(cylinder, (i + 1) * 12 + 6, rc, -halfDepth, rs, normalBottom);
    }
  }

  /** Lines 165-189 of GenerateCylinder: the index buffer, written band after band. */
  method CylinderIndexBuffer(vertices: nat) returns (cylinderIndices: array<int>, cylinderIndicesSize: int)
    ensures fresh(cylinderIndices)
    ensures cylinderIndicesSize == cylinderIndices.Length == 12 * vertices
    ensures cylinderIndices[..] == PackTriangles(CylinderTriangles(vertices))
  {
    ghost var triangles := CylinderTriangles(vertices);
    ghost var spec := PackTriangles(triangles);
    cylinderIndicesSize := 12 * vertices;
    cylinderIndices := new int[cylinderIndicesSize];

    // Top
    for i := 0 to vertices
      modifies cylinderIndices
      invariant forall k :: 0 <= k < 3 * i ==> cylinderIndices[k] == spec[k]
    {
      CylinderBandSlots(vertices, 0, i);
      SegmentNeighbours(vertices, i);
      InsertIndex(cylinderIndices, i * 3, 0, (i + 1) * 2, ((i + 1) % vertices + 1) * 2);
    }

    // Side
    for i := 0 to vertices
      modifies cylinderIndices
      invariant forall k :: 0 <= k < 3 * (vertices + i) ==> cylinderIndices[k] == spec[k]
    {
      CylinderBandSlots(vertices, 1, i);
      SegmentNeighbours(vertices, i);
      InsertIndex(cylinderIndices, (vertices + i) * 3, (i + 1) * 2, (i + 1) * 2 + 1, ((i + 1) % vertices) * 2 + 2);
    }

    for i := 0 to vertices
      modifies cylinderIndices
      invariant forall k :: 0 <= k < 3 * (2 * vertices + i) ==> cylinderIndices[k] == spec[k]
    {
      CylinderBandSlots(vertices, 2, i);
      SegmentNeighbours(vertices, i);
      InsertIndex(cylinderIndices, (2 * vertices + i) * 3, (i + 1) * 2 + 1, ((i + 1) % vertices) * 2 + 2, ((i + 1) % vertices + 1) * 2 + 1);
    }

    // Bottom
    for i := 0 to vertices
      modifies cylinderIndices
      invariant forall k :: 0 <= k < 3 * (3 * vertices + i) ==> cylinderIndices[k] == spec[k]
    {
      CylinderBandSlots(vertices, 3, i);
      SegmentNeighbours(vertices, i);
      InsertIndex(cylinderIndices, (3 * vertices + i) * 3, 1, (i + 1) * 2 + 1, ((i + 1) % vertices + 1) * 2 + 1);
    }
  }
}

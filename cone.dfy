/** GenerateCone of Utils.h: a cone of `vertices` segments standing on the
    xz plane with its apex at height `length`. Records: 0 the apex, 1 the
    centre of the base, then 2 + i the base-ring vertex of segment i.
    Triangles: pair i is the side triangle (apex, ring i, ring i+1) followed by
    the base triangle (base centre, ring i+1, ring i), the last segment
    stitched back to segment 0. */
module Cone {
  import opened Geometry
  import opened Utils

  function Apex(length: real): Vertex {
    Vertex(Vec3(0.0, length, 0.0), Vec3(0.0, 1.0, 0.0))
  }

  function BaseCentre(): Vertex {
    Vertex(Vec3(0.0, 0.0, 0.0), Vec3(0.0, -1.0, 0.0))
  }

  /** Position of base-ring vertex i (y = 0). */
  function RingPoint(m: Numerics, vertices: int, radius: real, i: int): Vec3
    requires vertices != 0
  {
    Vec3(RingX(m, radius, i, vertices), 0.0, RingZ(m, radius, i, vertices))
  }

  /** The normal of ring vertex i: the normalised sum of the normals of the two
      side faces that meet at it, tilted down by 2·FlatFactor. */
  function ConeNormal(m: Numerics, vertices: int, radius: real, length: real, bFlat: bool, i: int): Vec3
    requires vertices > 0
  {
    var v := RingPoint(m, vertices, radius, i);
    var previous := RingPoint(m, vertices, radius, PreviousSegment(vertices, i));
    var next := RingPoint(m, vertices, radius, NextSegment(vertices, i));
    var top := Vec3(0.0, length, 0.0);
    m.normalize(Add(Add(m.cross(Sub(previous, v), Sub(top, v)), m.cross(Sub(top, v), Sub(next, v))),
                    Vec3(0.0, -2.0 * FlatFactor(bFlat), 0.0)))
  }

  function ConeRingVertex(m: Numerics, vertices: int, radius: real, length: real, bFlat: bool, i: int): Vertex
    requires vertices > 0
  {
    Vertex(RingPoint(m, vertices, radius, i), ConeNormal(m, vertices, radius, length, bFlat, i))
  }

  /** The records in the vertex buffer once the ring loop has run `n` times. */
  function ConeVertices(m: Numerics, vertices: nat, radius: real, length: real, bFlat: bool, n: nat): (r: seq<Vertex>)
    requires n <= vertices
    ensures |r| == n + 2
  {
    if n == 0 then [Apex(length), BaseCentre()]
    else ConeVertices(m, vertices, radius, length, bFlat, n - 1) + [ConeRingVertex(m, vertices, radius, length, bFlat, n - 1)]
  }

  /** Side triangle of segment i: apex, ring i, ring i+1. */
  function SideTriangle(vertices: int, i: int): Triangle
    requires vertices > 0
  {
    Triangle(0, i + 2, NextSegment(vertices, i) + 2)
  }

  /** Base triangle of segment i: base centre, ring i+1, ring i. */
  function BaseTriangle(vertices: int, i: int): Triangle
    requires vertices > 0
  {
    Triangle(1, NextSegment(vertices, i) + 2, i + 2)
  }

  /** The triangles in the index buffer once the index loop has run `n` times. */
  function ConeTriangles(vertices: nat, n: nat): (r: seq<Triangle>)
    requires n <= vertices
    ensures |r| == 2 * n
  {
    if n == 0 then []
    else ConeTriangles(vertices, n - 1) + [SideTriangle(vertices, n - 1), BaseTriangle(vertices, n - 1)]
  }

  /** Layout: record 0 is the apex, 1 the base centre, 2 + i ring vertex i. */
  lemma {:induction false} ConeVerticesAt(m: Numerics, vertices: nat, radius: real, length: real, bFlat: bool, n: nat, i: int)
    requires 0 <= i < n <= vertices
    ensures ConeVertices(m, vertices, radius, length, bFlat, n)[0] == Apex(length)
    ensures ConeVertices(m, vertices, radius, length, bFlat, n)[1] == BaseCentre()
    ensures ConeVertices(m, vertices, radius, length, bFlat, n)[i + 2] == ConeRingVertex(m, vertices, radius, length, bFlat, i)
  {
    if i < n - 1 {
      ConeVerticesAt(m, vertices, radius, length, bFlat, n - 1, i);
    } else if n > 1 {
      ConeVerticesAt(m, vertices, radius, length, bFlat, n - 1, 0);
    }
  }

  /** Layout: triangle 2i is the side triangle of segment i, 2i+1 its base triangle. */
  lemma {:induction false} ConeTrianglesAt(vertices: nat, n: nat, i: int)
    requires 0 <= i < n <= vertices
    ensures ConeTriangles(vertices, n)[2 * i] == SideTriangle(vertices, i)
    ensures ConeTriangles(vertices, n)[2 * i + 1] == BaseTriangle(vertices, i)
  {
    if i < n - 1 {
      ConeTrianglesAt(vertices, n - 1, i);
    }
  }

  /** Every triangle names one of the vertices + 2 records. */
  lemma {:induction false} ConeTrianglesBelow(vertices: nat, n: nat)
    requires n <= vertices
    ensures forall k :: 0 <= k < 2 * n ==> Below(ConeTriangles(vertices, n)[k], vertices + 2)
  {
    if n > 0 {
      ConeTrianglesBelow(vertices, n - 1);
      assert Below(SideTriangle(vertices, n - 1), vertices + 2);
      assert Below(BaseTriangle(vertices, n - 1), vertices + 2);
    }
  }

  /** The side and the base close into rings: segment i and the segment after
      it share a ring vertex, and the last segment wraps to the first. */
  lemma ConeRingCloses(vertices: nat, i: int)
    requires 0 <= i < vertices
    ensures SideTriangle(vertices, i).c == SideTriangle(vertices, NextSegment(vertices, i)).b
    ensures BaseTriangle(vertices, NextSegment(vertices, i)).c == BaseTriangle(vertices, i).b
    ensures i == vertices - 1 ==> SideTriangle(vertices, i) == Triangle(0, vertices + 1, 2)
  {
  }

  /** The floats of the apex and the base centre in the packed vertex buffer. */
  lemma ConeCentreSlots(m: Numerics, vertices: nat, radius: real, length: real, bFlat: bool)
    ensures forall k :: 0 <= k < 6 ==>
              PackVertices(ConeVertices(m, vertices, radius, length, bFlat, vertices))[k]
              == VertexFloats(Apex(length))[k]
    ensures forall k :: 6 <= k < 12 ==>
              PackVertices(ConeVertices(m, vertices, radius, length, bFlat, vertices))[k]
              == VertexFloats(BaseCentre())[k - 6]
  {
    var records := ConeVertices(m, vertices, radius, length, bFlat, vertices);
    if vertices > 0 {
      ConeVerticesAt(m, vertices, radius, length, bFlat, vertices, 0);
    }
    PackVerticesSlots(records, 0);
    PackVerticesSlots(records, 1);
  }

  /** The floats of ring vertex i in the packed vertex buffer. */
  lemma ConeRingSlots(m: Numerics, vertices: nat, radius: real, length: real, bFlat: bool, i: int)
    requires 0 <= i < vertices
    ensures forall k :: 6 * (i + 2) <= k < 6 * (i + 2) + 6 ==>
              PackVertices(ConeVertices(m, vertices, radius, length, bFlat, vertices))[k]
              == VertexFloats(ConeRingVertex(m, vertices, radius, length, bFlat, i))[k - 6 * (i + 2)]
  {
    ConeVerticesAt(m, vertices, radius, length, bFlat, vertices, i);
    PackVerticesSlots(ConeVertices(m, vertices, radius, length, bFlat, vertices), i + 2);
  }

  /** The entries of triangle pair i in the packed index buffer. */
  lemma ConePairSlots(vertices: nat, i: int)
    requires 0 <= i < vertices
    ensures forall k :: 6 * i <= k < 6 * i + 3 ==>
              PackTriangles(ConeTriangles(vertices, vertices))[k] == TriangleInts(SideTriangle(vertices, i))[k - 6 * i]
    ensures forall k :: 6 * i + 3 <= k < 6 * i + 6 ==>
              PackTriangles(ConeTriangles(vertices, vertices))[k] == TriangleInts(BaseTriangle(vertices, i))[k - (6 * i + 3)]
  {
    var triangles := ConeTriangles(vertices, vertices);
    ConeTrianglesAt(vertices, vertices, i);
    PackTrianglesSlots(triangles, 2 * i);
    PackTrianglesSlots(triangles, 2 * i + 1);
  }

  /** GenerateCone: allocates 6·(vertices+2) floats (vertices + 2 records) and
      6·vertices indices and fills them with the records and triangles above. */
  method GenerateCone(m: Numerics, vertices: int, radius: real, length: real, bFlat: bool := true)
    returns (cone: array<real>, coneIndices: array<int>, coneSize: int, coneIndicesSize: int)
    requires 0 <= vertices && 6 * (vertices + 2) <= INT_MAX
    ensures fresh(cone) && fresh(coneIndices)
    ensures coneSize == cone.Length == 6 * (vertices + 2)
    ensures coneIndicesSize == coneIndices.Length == 6 * vertices
    ensures cone[..] == PackVertices(ConeVertices(m, vertices, radius, length, bFlat, vertices))
    ensures coneIndices[..] == PackTriangles(ConeTriangles(vertices, vertices))
    ensures forall k :: 0 <= k < coneIndicesSize ==> 0 <= coneIndices[k] < vertices + 2
  {
    cone, coneSize := ConeVertexBuffer(m, vertices, radius, length, bFlat);
    coneIndices, coneIndicesSize := ConeIndexBuffer(vertices);
    ConeTrianglesBelow(vertices, vertices);
    PackTrianglesBelow(ConeTriangles(vertices, vertices), vertices + 2);
  }

  /** Lines 194-229 of GenerateCone: the vertex buffer. */
  method ConeVertexBuffer(m: Numerics, vertices: nat, radius: real, length: real, bFlat: bool)
    returns (cone: array<real>, coneSize: int)
    ensures fresh(cone)
    ensures coneSize == cone.Length == 6 * (vertices + 2)
    ensures cone[..] == PackVertices(ConeVertices(m, vertices, radius, length, bFlat, vertices))
  {
    ghost var spec := PackVertices(ConeVertices(m, vertices, radius, length, bFlat, vertices));
    coneSize := 6 * (vertices + 2);
    cone := new real[coneSize];
    var rcTheta, rsTheta := RingTables(m, vertices, radius);
    var topVertex := Vec3(0.0, length, 0.0);

    InsertVertex(cone, 0, 0.0, length, 0.0, 0.0, 1.0, 0.0);
    InsertVertex(cone, 6, 0.0, 0.0, 0.0, 0.0, -1.0, 0.0);
    ConeCentreSlots(m, vertices, radius, length, bFlat);
    assert VertexFloats(Apex(length)) == [0.0, length, 0.0, 0.0, 1.0, 0.0];
    assert VertexFloats(BaseCentre()) == [0.0, 0.0, 0.0, 0.0, -1.0, 0.0];

    var flatFactor := 1.0;
    if bFlat {
      flatFactor := 0.0;
    }

    for i := 0 to vertices
      modifies cone
      invariant forall k :: 0 <= k < 6 * (i + 2) ==> cone[k] == spec[k]
    {
      var vertex := Vec3(rcTheta[i], 0.0, rsTheta[i]);
      var previousVertex := Vec3(rcTheta[(vertices + i - 1) % vertices], 0.0, rsTheta[(vertices + i - 1) % vertices]);
      var nextVertex := Vec3(rcTheta[(i + 1) % vertices], 0.0, rsTheta[(i + 1) % vertices]);
      var normal := m.normalize(Add(Add(m.cross(Sub(previousVertex, vertex), Sub(topVertex, vertex)),
                                        m.cross(Sub(topVertex, vertex), Sub(nextVertex, vertex))),
                                    Vec3(0.0, -2.0 * flatFactor, 0.0)));
      ConeRingSlots(m, vertices, radius, length, bFlat, i);
      SegmentNeighbours(vertices, i);
      assert ConeRingVertex(m, vertices, radius, length, bFlat, i) == Vertex(vertex, normal);

      InsertVertexVectors(cone, (i + 2) * 6, vertex, normal);
    }
  }

  /** Lines 231-238 of GenerateCone: the index buffer. */
  method ConeIndexBuffer(vertices: nat) returns (coneIndices: array<int>, coneIndicesSize: int)
    ensures fresh(coneIndices)
    ensures coneIndicesSize == coneIndices.Length == 6 * vertices
    ensures coneIndices[..] == PackTriangles(ConeTriangles(vertices, vertices))
  {
    ghost var spec := PackTriangles(ConeTriangles(vertices, vertices));
    coneIndicesSize := 6 * vertices;
    coneIndices := new int[coneIndicesSize];

    for i := 0 to vertices
      modifies coneIndices
      invariant forall k :: 0 <= k < 6 * i ==> coneIndices[k] == spec[k]
    {
      ConePairSlots(vertices, i);
      SegmentNeighbours(vertices, i);
      InsertIndex(coneIndices, i * 6, 0, i + 2, (i + 1) % vertices + 2);
      InsertIndex(coneIndices, i * 6 + 3, 1, (i + 1) % vertices + 2, i + 2);
    }
  }
}

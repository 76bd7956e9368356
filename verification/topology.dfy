/**
 * The topology of every solid in the catalog. For each solid an edge table
 * lists its edges once each, in increasing order, with the two faces that
 * share the edge, and a loop table names the edge behind every face corner.
 * Checking those tables entry by entry is enough, by
 * `EdgeTable.TableDescribesSurface`, to show that the faces close up into a
 * surface without boundary and to count the edges that `from_pydata`
 * derives; the Euler characteristic follows. Large tables are checked a
 * block of rows at a time.
 */
module Topology {
  import opened Mesh
  import opened EdgeTable
  import opened Catalog

  /** The 6 edges of the tetrahedron, each with the two faces it separates. */
  const TetrahedronEdges: seq<EdgeRecord> := [
    EdgeRecord(Edge(0, 1), 0, 0, 1, 0), EdgeRecord(Edge(0, 2), 0, 2, 2, 0),
    EdgeRecord(Edge(0, 3), 1, 2, 2, 2), EdgeRecord(Edge(1, 2), 0, 1, 3, 0),
    EdgeRecord(Edge(1, 3), 1, 1, 3, 2), EdgeRecord(Edge(2, 3), 2, 1, 3, 1)
  ]

  /** For each corner of each tetrahedron face, the row of the edge leaving it. */
  const TetrahedronLoops: seq<seq<nat>> := [
    [0, 3, 1], [0, 4, 2], [1, 5, 2], [3, 5, 4]
  ]

  /** The 12 edges of the cube, each with the two faces it separates. */
  const CubeEdges: seq<EdgeRecord> := [
    EdgeRecord(Edge(0, 1), 0, 0, 2, 3), EdgeRecord(Edge(0, 3), 0, 3, 5, 3),
    EdgeRecord(Edge(0, 4), 2, 0, 5, 2), EdgeRecord(Edge(1, 2), 0, 1, 3, 3),
    EdgeRecord(Edge(1, 5), 2, 2, 3, 0), EdgeRecord(Edge(2, 3), 0, 2, 4, 3),
    EdgeRecord(Edge(2, 6), 3, 2, 4, 0), EdgeRecord(Edge(3, 7), 4, 2, 5, 0),
    EdgeRecord(Edge(4, 5), 1, 0, 2, 1), EdgeRecord(Edge(4, 7), 1, 3, 5, 1),
    EdgeRecord(Edge(5, 6), 1, 1, 3, 1), EdgeRecord(Edge(6, 7), 1, 2, 4, 1)
  ]

  /** For each corner of each cube face, the row of the edge leaving it. */
  const CubeLoops: seq<seq<nat>> := [
    [0, 3, 5, 1], [8, 10, 11, 9], [2, 8, 4, 0],
    [4, 10, 6, 3], [6, 11, 7, 5], [7, 9, 2, 1]
  ]

  /** The 12 edges of the octahedron, each with the two faces it separates. */
  const OctahedronEdges: seq<EdgeRecord> := [
    EdgeRecord(Edge(0, 1), 0, 0, 3, 2), EdgeRecord(Edge(0, 2), 0, 2, 1, 0),
    EdgeRecord(Edge(0, 3), 1, 2, 2, 0), EdgeRecord(Edge(0, 4), 2, 2, 3, 0),
    EdgeRecord(Edge(1, 2), 0, 1, 4, 1), EdgeRecord(Edge(1, 4), 3, 1, 7, 1),
    EdgeRecord(Edge(1, 5), 4, 0, 7, 2), EdgeRecord(Edge(2, 3), 1, 1, 5, 1),
    EdgeRecord(Edge(2, 5), 4, 2, 5, 0), EdgeRecord(Edge(3, 4), 2, 1, 6, 1),
    EdgeRecord(Edge(3, 5), 5, 2, 6, 0), EdgeRecord(Edge(4, 5), 6, 2, 7, 0)
  ]

  /** For each corner of each octahedron face, the row of the edge leaving it. */
  const OctahedronLoops: seq<seq<nat>> := [
    [0, 4, 1], [1, 7, 2], [2, 9, 3], [3, 5, 0],
    [6, 4, 8], [8, 7, 10], [10, 9, 11], [11, 5, 6]
  ]

  /** The 30 edges of the dodecahedron, each with the two faces it separates. */
  const DodecahedronEdges: seq<EdgeRecord> := [
    EdgeRecord(Edge(0, 8), 0, 4, 4, 3), EdgeRecord(Edge(0, 12), 4, 4, 8, 3),
    EdgeRecord(Edge(0, 16), 0, 3, 8, 4), EdgeRecord(Edge(1, 9), 2, 4, 5, 3),
    EdgeRecord(Edge(1, 12), 5, 4, 8, 2), EdgeRecord(Edge(1, 19), 2, 3, 8, 1),
    EdgeRecord(Edge(2, 9), 3, 4, 5, 2), EdgeRecord(Edge(2, 13), 5, 1, 10, 2),
    EdgeRecord(Edge(2, 18), 3, 3, 10, 1), EdgeRecord(Edge(3, 8), 1, 4, 4, 2),
    EdgeRecord(Edge(3, 13), 4, 1, 10, 3), EdgeRecord(Edge(3, 17), 1, 3, 10, 4),
    EdgeRecord(Edge(4, 11), 0, 1, 6, 3), EdgeRecord(Edge(4, 15), 6, 4, 9, 3),
    EdgeRecord(Edge(4, 16), 0, 2, 9, 4), EdgeRecord(Edge(5, 10), 2, 1, 7, 3),
    EdgeRecord(Edge(5, 15), 7, 4, 9, 2), EdgeRecord(Edge(5, 19), 2, 2, 9, 1),
    EdgeRecord(Edge(6, 10), 3, 1, 7, 2), EdgeRecord(Edge(6, 14), 7, 1, 11, 2),
    EdgeRecord(Edge(6, 18), 3, 2, 11, 1), EdgeRecord(Edge(7, 11), 1, 1, 6, 2),
    EdgeRecord(Edge(7, 14), 6, 1, 11, 3), EdgeRecord(Edge(7, 17), 1, 2, 11, 4),
    EdgeRecord(Edge(8, 11), 0, 0, 1, 0), EdgeRecord(Edge(9, 10), 2, 0, 3, 0),
    EdgeRecord(Edge(12, 13), 4, 0, 5, 0), EdgeRecord(Edge(14, 15), 6, 0, 7, 0),
    EdgeRecord(Edge(16, 19), 8, 0, 9, 0), EdgeRecord(Edge(17, 18), 10, 0, 11, 0)
  ]

  /** For each corner of each dodecahedron face, the row of the edge leaving it. */
  const DodecahedronLoops: seq<seq<nat>> := [
    [24, 12, 14, 2, 0], [24, 21, 23, 11, 9], [25, 15, 17, 5, 3],
    [25, 18, 20, 8, 6], [26, 10, 9, 0, 1], [26, 7, 6, 3, 4],
    [27, 22, 21, 12, 13], [27, 19, 18, 15, 16], [28, 5, 4, 1, 2],
    [28, 17, 16, 13, 14], [29, 8, 7, 10, 11], [29, 20, 19, 22, 23]
  ]

  /** The 30 edges of the icosahedron, each with the two faces it separates. */
  const IcosahedronEdges: seq<EdgeRecord> := [
    EdgeRecord(Edge(0, 1), 0, 0, 1, 0), EdgeRecord(Edge(0, 4), 0, 2, 12, 0),
    EdgeRecord(Edge(0, 6), 1, 2, 15, 0), EdgeRecord(Edge(0, 8), 8, 2, 12, 2),
    EdgeRecord(Edge(0, 9), 8, 1, 15, 2), EdgeRecord(Edge(1, 4), 0, 1, 13, 0),
    EdgeRecord(Edge(1, 6), 1, 1, 14, 0), EdgeRecord(Edge(1, 10), 10, 2, 13, 2),
    EdgeRecord(Edge(1, 11), 10, 1, 14, 2), EdgeRecord(Edge(2, 3), 2, 0, 3, 0),
    EdgeRecord(Edge(2, 5), 2, 2, 16, 0), EdgeRecord(Edge(2, 7), 3, 2, 19, 0),
    EdgeRecord(Edge(2, 8), 9, 2, 16, 2), EdgeRecord(Edge(2, 9), 9, 1, 19, 2),
    EdgeRecord(Edge(3, 5), 2, 1, 17, 0), EdgeRecord(Edge(3, 7), 3, 1, 18, 0),
    EdgeRecord(Edge(3, 10), 11, 2, 17, 2), EdgeRecord(Edge(3, 11), 11, 1, 18, 2),
    EdgeRecord(Edge(4, 5), 4, 0, 5, 0), EdgeRecord(Edge(4, 8), 4, 2, 12, 1),
    EdgeRecord(Edge(4, 10), 5, 2, 13, 1), EdgeRecord(Edge(5, 8), 4, 1, 16, 1),
    EdgeRecord(Edge(5, 10), 5, 1, 17, 1), EdgeRecord(Edge(6, 7), 6, 0, 7, 0),
    EdgeRecord(Edge(6, 9), 6, 2, 15, 1), EdgeRecord(Edge(6, 11), 7, 2, 14, 1),
    EdgeRecord(Edge(7, 9), 6, 1, 19, 1), EdgeRecord(Edge(7, 11), 7, 1, 18, 1),
    EdgeRecord(Edge(8, 9), 8, 0, 9, 0), EdgeRecord(Edge(10, 11), 10, 0, 11, 0)
  ]

  /** For each corner of each icosahedron face, the row of the edge leaving it. */
  const IcosahedronLoops: seq<seq<nat>> := [
    [0, 5, 1], [0, 6, 2], [9, 14, 10], [9, 15, 11],
    [18, 21, 19], [18, 22, 20], [23, 26, 24], [23, 27, 25],
    [28, 4, 3], [28, 13, 12], [29, 8, 7], [29, 17, 16],
    [1, 19, 3], [5, 20, 7], [6, 25, 8], [2, 24, 4],
    [10, 21, 12], [14, 22, 16], [15, 27, 17], [11, 26, 13]
  ]

  lemma TetrahedronOrderedCheck()
    ensures forall p :: 0 <= p < 5 ==> Precedes(TetrahedronEdges[p].edge, TetrahedronEdges[p + 1].edge)
  {
  }

  lemma TetrahedronOrdered()
    ensures Ordered(TetrahedronEdges)
  {
    TetrahedronOrderedCheck();
  }

  lemma TetrahedronBordersCheck()
    ensures forall p :: 0 <= p < 6 ==>
      && TetrahedronEdges[p].left < TetrahedronEdges[p].right < |TetrahedronFaces|
      && TetrahedronEdges[p].leftAt < |TetrahedronFaces[TetrahedronEdges[p].left]|
      && Side(TetrahedronFaces[TetrahedronEdges[p].left], TetrahedronEdges[p].leftAt) == TetrahedronEdges[p].edge
      && TetrahedronEdges[p].rightAt < |TetrahedronFaces[TetrahedronEdges[p].right]|
      && Side(TetrahedronFaces[TetrahedronEdges[p].right], TetrahedronEdges[p].rightAt) == TetrahedronEdges[p].edge
  {
  }

  lemma TetrahedronBorders()
    ensures Borders(TetrahedronFaces, TetrahedronEdges)
  {
    TetrahedronBordersCheck();
  }

  lemma TetrahedronIndexesCheck()
    ensures forall k, j :: 0 <= k < 4 && 0 <= j < |TetrahedronFaces[k]| ==>
      && k < |TetrahedronLoops| && j < |TetrahedronLoops[k]|
      && TetrahedronLoops[k][j] < |TetrahedronEdges|
      && TetrahedronEdges[TetrahedronLoops[k][j]].edge == Side(TetrahedronFaces[k], j)
      && (k == TetrahedronEdges[TetrahedronLoops[k][j]].left || k == TetrahedronEdges[TetrahedronLoops[k][j]].right)
  {
  }

  lemma TetrahedronIndexes()
    ensures Indexes(TetrahedronFaces, TetrahedronEdges, TetrahedronLoops)
  {
    TetrahedronIndexesCheck();
    assert |TetrahedronLoops| == |TetrahedronFaces|;
  }

  lemma CubeOrderedCheck()
    ensures forall p :: 0 <= p < 11 ==> Precedes(CubeEdges[p].edge, CubeEdges[p + 1].edge)
  {
  }

  lemma CubeOrdered()
    ensures Ordered(CubeEdges)
  {
    CubeOrderedCheck();
  }

  lemma CubeBordersBlock0()
    ensures forall p :: 0 <= p < 10 ==>
      && CubeEdges[p].left < CubeEdges[p].right < |CubeFaces|
      && CubeEdges[p].leftAt < |CubeFaces[CubeEdges[p].left]|
      && Side(CubeFaces[CubeEdges[p].left], CubeEdges[p].leftAt) == CubeEdges[p].edge
      && CubeEdges[p].rightAt < |CubeFaces[CubeEdges[p].right]|
      && Side(CubeFaces[CubeEdges[p].right], CubeEdges[p].rightAt) == CubeEdges[p].edge
  {
  }

  lemma CubeBordersBlock1()
    ensures forall p :: 10 <= p < 12 ==>
      && CubeEdges[p].left < CubeEdges[p].right < |CubeFaces|
      && CubeEdges[p].leftAt < |CubeFaces[CubeEdges[p].left]|
      && Side(CubeFaces[CubeEdges[p].left], CubeEdges[p].leftAt) == CubeEdges[p].edge
      && CubeEdges[p].rightAt < |CubeFaces[CubeEdges[p].right]|
      && Side(CubeFaces[CubeEdges[p].right], CubeEdges[p].rightAt) == CubeEdges[p].edge
  {
  }

  lemma CubeBorders()
    ensures Borders(CubeFaces, CubeEdges)
  {
    CubeBordersBlock0();
    CubeBordersBlock1();
  }

  lemma CubeIndexesCheck()
    ensures forall k, j :: 0 <= k < 6 && 0 <= j < |CubeFaces[k]| ==>
      && k < |CubeLoops| && j < |CubeLoops[k]|
      && CubeLoops[k][j] < |CubeEdges|
      && CubeEdges[CubeLoops[k][j]].edge == Side(CubeFaces[k], j)
      && (k == CubeEdges[CubeLoops[k][j]].left || k == CubeEdges[CubeLoops[k][j]].right)
  {
  }

  lemma CubeIndexes()
    ensures Indexes(CubeFaces, CubeEdges, CubeLoops)
  {
    CubeIndexesCheck();
    assert |CubeLoops| == |CubeFaces|;
  }

  lemma OctahedronOrderedCheck()
    ensures forall p :: 0 <= p < 11 ==> Precedes(OctahedronEdges[p].edge, OctahedronEdges[p + 1].edge)
  {
  }

  lemma OctahedronOrdered()
    ensures Ordered(OctahedronEdges)
  {
    OctahedronOrderedCheck();
  }

  lemma OctahedronBordersBlock0()
    ensures forall p :: 0 <= p < 10 ==>
      && OctahedronEdges[p].left < OctahedronEdges[p].right < |OctahedronFaces|
      && OctahedronEdges[p].leftAt < |OctahedronFaces[OctahedronEdges[p].left]|
      && Side(OctahedronFaces[OctahedronEdges[p].left], OctahedronEdges[p].leftAt) == OctahedronEdges[p].edge
      && OctahedronEdges[p].rightAt < |OctahedronFaces[OctahedronEdges[p].right]|
      && Side(OctahedronFaces[OctahedronEdges[p].right], OctahedronEdges[p].rightAt) == OctahedronEdges[p].edge
  {
  }

  lemma OctahedronBordersBlock1()
    ensures forall p :: 10 <= p < 12 ==>
      && OctahedronEdges[p].left < OctahedronEdges[p].right < |OctahedronFaces|
      && OctahedronEdges[p].leftAt < |OctahedronFaces[OctahedronEdges[p].left]|
      && Side(OctahedronFaces[OctahedronEdges[p].left], OctahedronEdges[p].leftAt) == OctahedronEdges[p].edge
      && OctahedronEdges[p].rightAt < |OctahedronFaces[OctahedronEdges[p].right]|
      && Side(OctahedronFaces[OctahedronEdges[p].right], OctahedronEdges[p].rightAt) == OctahedronEdges[p].edge
  {
  }

  lemma OctahedronBorders()
    ensures Borders(OctahedronFaces, OctahedronEdges)
  {
    OctahedronBordersBlock0();
    OctahedronBordersBlock1();
  }

  lemma OctahedronIndexesCheck()
    ensures forall k, j :: 0 <= k < 8 && 0 <= j < |OctahedronFaces[k]| ==>
      && k < |OctahedronLoops| && j < |OctahedronLoops[k]|
      && OctahedronLoops[k][j] < |OctahedronEdges|
      && OctahedronEdges[OctahedronLoops[k][j]].edge == Side(OctahedronFaces[k], j)
      && (k == OctahedronEdges[OctahedronLoops[k][j]].left || k == OctahedronEdges[OctahedronLoops[k][j]].right)
  {
  }

  lemma OctahedronIndexes()
    ensures Indexes(OctahedronFaces, OctahedronEdges, OctahedronLoops)
  {
    OctahedronIndexesCheck();
    assert |OctahedronLoops| == |OctahedronFaces|;
  }

  lemma DodecahedronOrderedCheck()
    ensures forall p :: 0 <= p < 29 ==> Precedes(DodecahedronEdges[p].edge, DodecahedronEdges[p + 1].edge)
  {
  }

  lemma DodecahedronOrdered()
    ensures Ordered(DodecahedronEdges)
  {
    DodecahedronOrderedCheck();
  }

  lemma DodecahedronBordersBlock0()
    ensures forall p :: 0 <= p < 10 ==>
      && DodecahedronEdges[p].left < DodecahedronEdges[p].right < |DodecahedronFaces|
      && DodecahedronEdges[p].leftAt < |DodecahedronFaces[DodecahedronEdges[p].left]|
      && Side(DodecahedronFaces[DodecahedronEdges[p].left], DodecahedronEdges[p].leftAt) == DodecahedronEdges[p].edge
      && DodecahedronEdges[p].rightAt < |DodecahedronFaces[DodecahedronEdges[p].right]|
      && Side(DodecahedronFaces[DodecahedronEdges[p].right], DodecahedronEdges[p].rightAt) == DodecahedronEdges[p].edge
  {
  }

  lemma DodecahedronBordersBlock1()
    ensures forall p :: 10 <= p < 20 ==>
      && DodecahedronEdges[p].left < DodecahedronEdges[p].right < |DodecahedronFaces|
      && DodecahedronEdges[p].leftAt < |DodecahedronFaces[DodecahedronEdges[p].left]|
      && Side(DodecahedronFaces[DodecahedronEdges[p].left], DodecahedronEdges[p].leftAt) == DodecahedronEdges[p].edge
      && DodecahedronEdges[p].rightAt < |DodecahedronFaces[DodecahedronEdges[p].right]|
      && Side(DodecahedronFaces[DodecahedronEdges[p].right], DodecahedronEdges[p].rightAt) == DodecahedronEdges[p].edge
  {
  }

  lemma DodecahedronBordersBlock2()
    ensures forall p :: 20 <= p < 30 ==>
      && DodecahedronEdges[p].left < DodecahedronEdges[p].right < |DodecahedronFaces|
      && DodecahedronEdges[p].leftAt < |DodecahedronFaces[DodecahedronEdges[p].left]|
      && Side(DodecahedronFaces[DodecahedronEdges[p].left], DodecahedronEdges[p].leftAt) == DodecahedronEdges[p].edge
      && DodecahedronEdges[p].rightAt < |DodecahedronFaces[DodecahedronEdges[p].right]|
      && Side(DodecahedronFaces[DodecahedronEdges[p].right], DodecahedronEdges[p].rightAt) == DodecahedronEdges[p].edge
  {
  }

  lemma DodecahedronBorders()
    ensures Borders(DodecahedronFaces, DodecahedronEdges)
  {
    DodecahedronBordersBlock0();
    DodecahedronBordersBlock1();
    DodecahedronBordersBlock2();
  }

  lemma DodecahedronIndexesBlock0()
    ensures forall k, j :: 0 <= k < 3 && 0 <= j < |DodecahedronFaces[k]| ==>
      && k < |DodecahedronLoops| && j < |DodecahedronLoops[k]|
      && DodecahedronLoops[k][j] < |DodecahedronEdges|
      && DodecahedronEdges[DodecahedronLoops[k][j]].edge == Side(DodecahedronFaces[k], j)
      && (k == DodecahedronEdges[DodecahedronLoops[k][j]].left || k == DodecahedronEdges[DodecahedronLoops[k][j]].right)
  {
  }

  lemma DodecahedronIndexesBlock1()
    ensures forall k, j :: 3 <= k < 6 && 0 <= j < |DodecahedronFaces[k]| ==>
      && k < |DodecahedronLoops| && j < |DodecahedronLoops[k]|
      && DodecahedronLoops[k][j] < |DodecahedronEdges|
      && DodecahedronEdges[DodecahedronLoops[k][j]].edge == Side(DodecahedronFaces[k], j)
      && (k == DodecahedronEdges[DodecahedronLoops[k][j]].left || k == DodecahedronEdges[DodecahedronLoops[k][j]].right)
  {
  }

  lemma DodecahedronIndexesBlock2()
    ensures forall k, j :: 6 <= k < 9 && 0 <= j < |DodecahedronFaces[k]| ==>
      && k < |DodecahedronLoops| && j < |DodecahedronLoops[k]|
      && DodecahedronLoops[k][j] < |DodecahedronEdges|
      && DodecahedronEdges[DodecahedronLoops[k][j]].edge == Side(DodecahedronFaces[k], j)
      && (k == DodecahedronEdges[DodecahedronLoops[k][j]].left || k == DodecahedronEdges[DodecahedronLoops[k][j]].right)
  {
  }

  lemma DodecahedronIndexesBlock3()
    ensures forall k, j :: 9 <= k < 12 && 0 <= j < |DodecahedronFaces[k]| ==>
      && k < |DodecahedronLoops| && j < |DodecahedronLoops[k]|
      && DodecahedronLoops[k][j] < |DodecahedronEdges|
      && DodecahedronEdges[DodecahedronLoops[k][j]].edge == Side(DodecahedronFaces[k], j)
      && (k == DodecahedronEdges[DodecahedronLoops[k][j]].left || k == DodecahedronEdges[DodecahedronLoops[k][j]].right)
  {
  }

  lemma DodecahedronIndexes()
    ensures Indexes(DodecahedronFaces, DodecahedronEdges, DodecahedronLoops)
  {
    DodecahedronIndexesBlock0();
    DodecahedronIndexesBlock1();
    DodecahedronIndexesBlock2();
    DodecahedronIndexesBlock3();
    assert |DodecahedronLoops| == |DodecahedronFaces|;
  }

  lemma IcosahedronOrderedCheck()
    ensures forall p :: 0 <= p < 29 ==> Precedes(IcosahedronEdges[p].edge, IcosahedronEdges[p + 1].edge)
  {
  }

  lemma IcosahedronOrdered()
    ensures Ordered(IcosahedronEdges)
  {
    IcosahedronOrderedCheck();
  }

  lemma IcosahedronBordersBlock0()
    ensures forall p :: 0 <= p < 10 ==>
      && IcosahedronEdges[p].left < IcosahedronEdges[p].right < |IcosahedronFaces|
      && IcosahedronEdges[p].leftAt < |IcosahedronFaces[IcosahedronEdges[p].left]|
      && Side(IcosahedronFaces[IcosahedronEdges[p].left], IcosahedronEdges[p].leftAt) == IcosahedronEdges[p].edge
      && IcosahedronEdges[p].rightAt < |IcosahedronFaces[IcosahedronEdges[p].right]|
      && Side(IcosahedronFaces[IcosahedronEdges[p].right], IcosahedronEdges[p].rightAt) == IcosahedronEdges[p].edge
  {
  }

  lemma IcosahedronBordersBlock1()
    ensures forall p :: 10 <= p < 20 ==>
      && IcosahedronEdges[p].left < IcosahedronEdges[p].right < |IcosahedronFaces|
      && IcosahedronEdges[p].leftAt < |IcosahedronFaces[IcosahedronEdges[p].left]|
      && Side(IcosahedronFaces[IcosahedronEdges[p].left], IcosahedronEdges[p].leftAt) == IcosahedronEdges[p].edge
      && IcosahedronEdges[p].rightAt < |IcosahedronFaces[IcosahedronEdges[p].right]|
      && Side(IcosahedronFaces[IcosahedronEdges[p].right], IcosahedronEdges[p].rightAt) == IcosahedronEdges[p].edge
  {
  }

  lemma IcosahedronBordersBlock2()
    ensures forall p :: 20 <= p < 30 ==>
      && IcosahedronEdges[p].left < IcosahedronEdges[p].right < |IcosahedronFaces|
      && IcosahedronEdges[p].leftAt < |IcosahedronFaces[IcosahedronEdges[p].left]|
      && Side(IcosahedronFaces[IcosahedronEdges[p].left], IcosahedronEdges[p].leftAt) == IcosahedronEdges[p].edge
      && IcosahedronEdges[p].rightAt < |IcosahedronFaces[IcosahedronEdges[p].right]|
      && Side(IcosahedronFaces[IcosahedronEdges[p].right], IcosahedronEdges[p].rightAt) == IcosahedronEdges[p].edge
  {
  }

  lemma IcosahedronBorders()
    ensures Borders(IcosahedronFaces, IcosahedronEdges)
  {
    IcosahedronBordersBlock0();
    IcosahedronBordersBlock1();
    IcosahedronBordersBlock2();
  }

  lemma IcosahedronIndexesBlock0()
    ensures forall k, j :: 0 <= k < 4 && 0 <= j < |IcosahedronFaces[k]| ==>
      && k < |IcosahedronLoops| && j < |IcosahedronLoops[k]|
      && IcosahedronLoops[k][j] < |IcosahedronEdges|
      && IcosahedronEdges[IcosahedronLoops[k][j]].edge == Side(IcosahedronFaces[k], j)
      && (k == IcosahedronEdges[IcosahedronLoops[k][j]].left || k == IcosahedronEdges[IcosahedronLoops[k][j]].right)
  {
  }

  lemma IcosahedronIndexesBlock1()
    ensures forall k, j :: 4 <= k < 8 && 0 <= j < |IcosahedronFaces[k]| ==>
      && k < |IcosahedronLoops| && j < |IcosahedronLoops[k]|
      && IcosahedronLoops[k][j] < |IcosahedronEdges|
      && IcosahedronEdges[IcosahedronLoops[k][j]].edge == Side(IcosahedronFaces[k], j)
      && (k == IcosahedronEdges[IcosahedronLoops[k][j]].left || k == IcosahedronEdges[IcosahedronLoops[k][j]].right)
  {
  }

  lemma IcosahedronIndexesBlock2()
    ensures forall k, j :: 8 <= k < 12 && 0 <= j < |IcosahedronFaces[k]| ==>
      && k < |IcosahedronLoops| && j < |IcosahedronLoops[k]|
      && IcosahedronLoops[k][j] < |IcosahedronEdges|
      && IcosahedronEdges[IcosahedronLoops[k][j]].edge == Side(IcosahedronFaces[k], j)
      && (k == IcosahedronEdges[IcosahedronLoops[k][j]].left || k == IcosahedronEdges[IcosahedronLoops[k][j]].right)
  {
  }

  lemma IcosahedronIndexesBlock3()
    ensures forall k, j :: 12 <= k < 16 && 0 <= j < |IcosahedronFaces[k]| ==>
      && k < |IcosahedronLoops| && j < |IcosahedronLoops[k]|
      && IcosahedronLoops[k][j] < |IcosahedronEdges|
      && IcosahedronEdges[IcosahedronLoops[k][j]].edge == Side(IcosahedronFaces[k], j)
      && (k == IcosahedronEdges[IcosahedronLoops[k][j]].left || k == IcosahedronEdges[IcosahedronLoops[k][j]].right)
  {
  }

  lemma IcosahedronIndexesBlock4()
    ensures forall k, j :: 16 <= k < 20 && 0 <= j < |IcosahedronFaces[k]| ==>
      && k < |IcosahedronLoops| && j < |IcosahedronLoops[k]|
      && IcosahedronLoops[k][j] < |IcosahedronEdges|
      && IcosahedronEdges[IcosahedronLoops[k][j]].edge == Side(IcosahedronFaces[k], j)
      && (k == IcosahedronEdges[IcosahedronLoops[k][j]].left || k == IcosahedronEdges[IcosahedronLoops[k][j]].right)
  {
  }

  lemma IcosahedronIndexes()
    ensures Indexes(IcosahedronFaces, IcosahedronEdges, IcosahedronLoops)
  {
    IcosahedronIndexesBlock0();
    IcosahedronIndexesBlock1();
    IcosahedronIndexesBlock2();
    IcosahedronIndexesBlock3();
    IcosahedronIndexesBlock4();
    assert |IcosahedronLoops| == |IcosahedronFaces|;
  }

  /** The tetrahedron's faces close up, and their sides are exactly the edges of its edge table. */
  lemma TetrahedronSurface()
    ensures ClosedSurface(TetrahedronFaces)
    ensures FaceEdges(TetrahedronFaces) == TableEdges(TetrahedronEdges)
    ensures |FaceEdges(TetrahedronFaces)| == |TetrahedronEdges|
  {
    TetrahedronOrdered();
    TetrahedronBorders();
    TetrahedronIndexes();
    TableDescribesSurface(TetrahedronFaces, TetrahedronEdges, TetrahedronLoops);
  }

  /** The cube's faces close up, and their sides are exactly the edges of its edge table. */
  lemma CubeSurface()
    ensures ClosedSurface(CubeFaces)
    ensures FaceEdges(CubeFaces) == TableEdges(CubeEdges)
    ensures |FaceEdges(CubeFaces)| == |CubeEdges|
  {
    CubeOrdered();
    CubeBorders();
    CubeIndexes();
    TableDescribesSurface(CubeFaces, CubeEdges, CubeLoops);
  }

  /** The octahedron's faces close up, and their sides are exactly the edges of its edge table. */
  lemma OctahedronSurface()
    ensures ClosedSurface(OctahedronFaces)
    ensures FaceEdges(OctahedronFaces) == TableEdges(OctahedronEdges)
    ensures |FaceEdges(OctahedronFaces)| == |OctahedronEdges|
  {
    OctahedronOrdered();
    OctahedronBorders();
    OctahedronIndexes();
    TableDescribesSurface(OctahedronFaces, OctahedronEdges, OctahedronLoops);
  }

  /** The dodecahedron's faces close up, and their sides are exactly the edges of its edge table. */
  lemma DodecahedronSurface()
    ensures ClosedSurface(DodecahedronFaces)
    ensures FaceEdges(DodecahedronFaces) == TableEdges(DodecahedronEdges)
    ensures |FaceEdges(DodecahedronFaces)| == |DodecahedronEdges|
  {
    DodecahedronOrdered();
    DodecahedronBorders();
    DodecahedronIndexes();
    TableDescribesSurface(DodecahedronFaces, DodecahedronEdges, DodecahedronLoops);
  }

  /** The icosahedron's faces close up, and their sides are exactly the edges of its edge table. */
  lemma IcosahedronSurface()
    ensures ClosedSurface(IcosahedronFaces)
    ensures FaceEdges(IcosahedronFaces) == TableEdges(IcosahedronEdges)
    ensures |FaceEdges(IcosahedronFaces)| == |IcosahedronEdges|
  {
    IcosahedronOrdered();
    IcosahedronBorders();
    IcosahedronIndexes();
    TableDescribesSurface(IcosahedronFaces, IcosahedronEdges, IcosahedronLoops);
  }

  /**
   * Every solid in the catalog is a closed polyhedral surface: each side of
   * each face is shared by exactly two faces. The mesh gets the textbook
   * number of edges, and V - E + F = 2.
   */
  lemma ClosedPolyhedron(kind: SolidKind)
    ensures ClosedSurface(GetGeometry(kind).faces)
    ensures |MeshEdges(GetGeometry(kind))| == Expected(kind).edges
    ensures EulerCharacteristic(GetGeometry(kind)) == 2
  {
    var g := GetGeometry(kind);
    EdgesFromFacesOnly(g);
    match kind
    case Tetrahedron => TetrahedronSurface();
    case Cube => CubeSurface();
    case Octahedron => OctahedronSurface();
    case Dodecahedron => DodecahedronSurface();
    case Icosahedron => IcosahedronSurface();
  }
}

/**
 * Entry-by-entry checks that every table of the catalog is well formed:
 * face indices name vertices, faces are proper polygons, and no two vertices
 * coincide (the last through a sort certificate per solid).
 */
module CatalogChecks {
  import opened Mesh
  import opened VertexOrder
  import opened Catalog

  /** Each solid's vertex table in increasing position order, and each vertex's place in that order. */
  const TetrahedronByPosition: seq<Vec3> := [
    Vec3(-0.471, -0.816, -0.333), Vec3(-0.471, 0.816, -0.333), Vec3(0.0, 0.0, 1.0), Vec3(0.943, 0.0, -0.333)
  ]

  const TetrahedronRank: seq<nat> := [3, 0, 1, 2]

  const CubeByPosition: seq<Vec3> := [
    Vec3(-1.0, -1.0, -1.0), Vec3(-1.0, -1.0, 1.0), Vec3(-1.0, 1.0, -1.0), Vec3(-1.0, 1.0, 1.0),
    Vec3(1.0, -1.0, -1.0), Vec3(1.0, -1.0, 1.0), Vec3(1.0, 1.0, -1.0), Vec3(1.0, 1.0, 1.0)
  ]

  const CubeRank: seq<nat> := [7, 5, 1, 3, 6, 4, 0, 2]

  const OctahedronByPosition: seq<Vec3> := [
    Vec3(-1.0, 0.0, 0.0), Vec3(0.0, -1.0, 0.0), Vec3(0.0, 0.0, -1.0), Vec3(0.0, 0.0, 1.0),
    Vec3(0.0, 1.0, 0.0), Vec3(1.0, 0.0, 0.0)
  ]

  const OctahedronRank: seq<nat> := [2, 0, 1, 5, 4, 3]

  const DodecahedronByPosition: seq<Vec3> := [
    Vec3(-1.618, -0.618, 0.0), Vec3(-1.618, 0.618, 0.0), Vec3(-1.0, -1.0, -1.0), Vec3(-1.0, -1.0, 1.0),
    Vec3(-1.0, 1.0, -1.0), Vec3(-1.0, 1.0, 1.0), Vec3(-0.618, 0.0, -1.618), Vec3(-0.618, 0.0, 1.618),
    Vec3(0.0, -1.618, -0.618), Vec3(0.0, -1.618, 0.618), Vec3(0.0, 1.618, -0.618), Vec3(0.0, 1.618, 0.618),
    Vec3(0.618, 0.0, -1.618), Vec3(0.618, 0.0, 1.618), Vec3(1.0, -1.0, -1.0), Vec3(1.0, -1.0, 1.0),
    Vec3(1.0, 1.0, -1.0), Vec3(1.0, 1.0, 1.0), Vec3(1.618, -0.618, 0.0), Vec3(1.618, 0.618, 0.0)
  ]

  const DodecahedronRank: seq<nat> := [17, 15, 3, 5, 16, 14, 2, 4, 11, 9, 8, 10, 13, 7, 6, 12, 19, 1, 0, 18]

  const IcosahedronByPosition: seq<Vec3> := [
    Vec3(-1.618, 0.0, -1.0), Vec3(-1.618, 0.0, 1.0), Vec3(-1.0, -1.618, 0.0), Vec3(-1.0, 1.618, 0.0),
    Vec3(0.0, -1.0, -1.618), Vec3(0.0, -1.0, 1.618), Vec3(0.0, 1.0, -1.618), Vec3(0.0, 1.0, 1.618),
    Vec3(1.0, -1.618, 0.0), Vec3(1.0, 1.618, 0.0), Vec3(1.618, 0.0, -1.0), Vec3(1.618, 0.0, 1.0)
  ]

  const IcosahedronRank: seq<nat> := [7, 5, 6, 4, 11, 10, 1, 0, 9, 3, 8, 2]

  lemma TetrahedronFaceChecks()
    ensures forall k :: 0 <= k < |TetrahedronFaces| ==> |TetrahedronFaces[k]| >= 3
    ensures forall k, i, j :: 0 <= k < |TetrahedronFaces| && 0 <= i < j < |TetrahedronFaces[k]| ==> TetrahedronFaces[k][i] != TetrahedronFaces[k][j]
    ensures forall k, j :: 0 <= k < |TetrahedronFaces| && 0 <= j < |TetrahedronFaces[k]| ==> TetrahedronFaces[k][j] < |TetrahedronVertices|
  {
  }

  lemma TetrahedronIncreasing()
    ensures forall p :: 0 <= p < |TetrahedronByPosition| - 1 ==> Below(TetrahedronByPosition[p], TetrahedronByPosition[p + 1])
  {
  }

  lemma TetrahedronPlaces()
    ensures |TetrahedronRank| == |TetrahedronVertices|
    ensures forall i :: 0 <= i < |TetrahedronVertices| ==> TetrahedronRank[i] < |TetrahedronByPosition| && TetrahedronByPosition[TetrahedronRank[i]] == TetrahedronVertices[i]
  {
  }

  lemma TetrahedronInjective()
    ensures forall i, j :: 0 <= i < j < |TetrahedronRank| ==> TetrahedronRank[i] != TetrahedronRank[j]
  {
  }

  lemma TetrahedronWellFormed()
    ensures WellFormed(GetGeometry(Tetrahedron))
    ensures DistinctPositions(GetGeometry(Tetrahedron).vertices)
  {
    TetrahedronFaceChecks();
    TetrahedronIncreasing();
    TetrahedronPlaces();
    TetrahedronInjective();
    CertifiedIsDistinct(TetrahedronVertices, TetrahedronByPosition, TetrahedronRank);
  }

  lemma CubeFaceChecks()
    ensures forall k :: 0 <= k < |CubeFaces| ==> |CubeFaces[k]| >= 3
    ensures forall k, i, j :: 0 <= k < |CubeFaces| && 0 <= i < j < |CubeFaces[k]| ==> CubeFaces[k][i] != CubeFaces[k][j]
    ensures forall k, j :: 0 <= k < |CubeFaces| && 0 <= j < |CubeFaces[k]| ==> CubeFaces[k][j] < |CubeVertices|
  {
  }

  lemma CubeIncreasing()
    ensures forall p :: 0 <= p < |CubeByPosition| - 1 ==> Below(CubeByPosition[p], CubeByPosition[p + 1])
  {
  }

  lemma CubePlaces()
    ensures |CubeRank| == |CubeVertices|
    ensures forall i :: 0 <= i < |CubeVertices| ==> CubeRank[i] < |CubeByPosition| && CubeByPosition[CubeRank[i]] == CubeVertices[i]
  {
  }

  lemma CubeInjective()
    ensures forall i, j :: 0 <= i < j < |CubeRank| ==> CubeRank[i] != CubeRank[j]
  {
  }

  lemma CubeWellFormed()
    ensures WellFormed(GetGeometry(Cube))
    ensures DistinctPositions(GetGeometry(Cube).vertices)
  {
    CubeFaceChecks();
    CubeIncreasing();
    CubePlaces();
    CubeInjective();
    CertifiedIsDistinct(CubeVertices, CubeByPosition, CubeRank);
  }

  lemma OctahedronFaceChecks()
    ensures forall k :: 0 <= k < |OctahedronFaces| ==> |OctahedronFaces[k]| >= 3
    ensures forall k, i, j :: 0 <= k < |OctahedronFaces| && 0 <= i < j < |OctahedronFaces[k]| ==> OctahedronFaces[k][i] != OctahedronFaces[k][j]
    ensures forall k, j :: 0 <= k < |OctahedronFaces| && 0 <= j < |OctahedronFaces[k]| ==> OctahedronFaces[k][j] < |OctahedronVertices|
  {
  }

  lemma OctahedronIncreasing()
    ensures forall p :: 0 <= p < |OctahedronByPosition| - 1 ==> Below(OctahedronByPosition[p], OctahedronByPosition[p + 1])
  {
  }

  lemma OctahedronPlaces()
    ensures |OctahedronRank| == |OctahedronVertices|
    ensures forall i :: 0 <= i < |OctahedronVertices| ==> OctahedronRank[i] < |OctahedronByPosition| && OctahedronByPosition[OctahedronRank[i]] == OctahedronVertices[i]
  {
  }

  lemma OctahedronInjective()
    ensures forall i, j :: 0 <= i < j < |OctahedronRank| ==> OctahedronRank[i] != OctahedronRank[j]
  {
  }

  lemma OctahedronWellFormed()
    ensures WellFormed(GetGeometry(Octahedron))
    ensures DistinctPositions(GetGeometry(Octahedron).vertices)
  {
    OctahedronFaceChecks();
    OctahedronIncreasing();
    OctahedronPlaces();
    OctahedronInjective();
    CertifiedIsDistinct(OctahedronVertices, OctahedronByPosition, OctahedronRank);
  }

  lemma DodecahedronFaceChecks()
    ensures forall k :: 0 <= k < |DodecahedronFaces| ==> |DodecahedronFaces[k]| >= 3
    ensures forall k, i, j :: 0 <= k < |DodecahedronFaces| && 0 <= i < j < |DodecahedronFaces[k]| ==> DodecahedronFaces[k][i] != DodecahedronFaces[k][j]
    ensures forall k, j :: 0 <= k < |DodecahedronFaces| && 0 <= j < |DodecahedronFaces[k]| ==> DodecahedronFaces[k][j] < |DodecahedronVertices|
  {
  }

  lemma DodecahedronIncreasing()
    ensures forall p :: 0 <= p < |DodecahedronByPosition| - 1 ==> Below(DodecahedronByPosition[p], DodecahedronByPosition[p + 1])
  {
  }

  lemma DodecahedronPlaces()
    ensures |DodecahedronRank| == |DodecahedronVertices|
    ensures forall i :: 0 <= i < |DodecahedronVertices| ==> DodecahedronRank[i] < |DodecahedronByPosition| && DodecahedronByPosition[DodecahedronRank[i]] == DodecahedronVertices[i]
  {
  }

  lemma DodecahedronInjective()
    ensures forall i, j :: 0 <= i < j < |DodecahedronRank| ==> DodecahedronRank[i] != DodecahedronRank[j]
  {
  }

  lemma DodecahedronWellFormed()
    ensures WellFormed(GetGeometry(Dodecahedron))
    ensures DistinctPositions(GetGeometry(Dodecahedron).vertices)
  {
    DodecahedronFaceChecks();
    DodecahedronIncreasing();
    DodecahedronPlaces();
    DodecahedronInjective();
    CertifiedIsDistinct(DodecahedronVertices, DodecahedronByPosition, DodecahedronRank);
  }

  lemma IcosahedronFaceChecks()
    ensures forall k :: 0 <= k < |IcosahedronFaces| ==> |IcosahedronFaces[k]| >= 3
    ensures forall k, i, j :: 0 <= k < |IcosahedronFaces| && 0 <= i < j < |IcosahedronFaces[k]| ==> IcosahedronFaces[k][i] != IcosahedronFaces[k][j]
    ensures forall k, j :: 0 <= k < |IcosahedronFaces| && 0 <= j < |IcosahedronFaces[k]| ==> IcosahedronFaces[k][j] < |IcosahedronVertices|
  {
  }

  lemma IcosahedronIncreasing()
    ensures forall p :: 0 <= p < |IcosahedronByPosition| - 1 ==> Below(IcosahedronByPosition[p], IcosahedronByPosition[p + 1])
  {
  }

  lemma IcosahedronPlaces()
    ensures |IcosahedronRank| == |IcosahedronVertices|
    ensures forall i :: 0 <= i < |IcosahedronVertices| ==> IcosahedronRank[i] < |IcosahedronByPosition| && IcosahedronByPosition[IcosahedronRank[i]] == IcosahedronVertices[i]
  {
  }

  lemma IcosahedronInjective()
    ensures forall i, j :: 0 <= i < j < |IcosahedronRank| ==> IcosahedronRank[i] != IcosahedronRank[j]
  {
  }

  lemma IcosahedronWellFormed()
    ensures WellFormed(GetGeometry(Icosahedron))
    ensures DistinctPositions(GetGeometry(Icosahedron).vertices)
  {
    IcosahedronFaceChecks();
    IcosahedronIncreasing();
    IcosahedronPlaces();
    IcosahedronInjective();
    CertifiedIsDistinct(IcosahedronVertices, IcosahedronByPosition, IcosahedronRank);
  }

  /**
   * Every solid's tables are fit for `from_pydata`: each face index names a
   * vertex, each face is a polygon with distinct corners, and no two
   * vertices coincide.
   */
  lemma CatalogWellFormed(kind: SolidKind)
    ensures WellFormed(GetGeometry(kind))
    ensures DistinctPositions(GetGeometry(kind).vertices)
  {
    match kind
    case Tetrahedron => TetrahedronWellFormed();
    case Cube => CubeWellFormed();
    case Octahedron => OctahedronWellFormed();
    case Dodecahedron => DodecahedronWellFormed();
    case Icosahedron => IcosahedronWellFormed();
  }
}

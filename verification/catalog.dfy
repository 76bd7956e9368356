/**
 * The five solids of the catalog, each with the literal vertex and face
 * tables its `get_geometry` returns. Every solid returns an empty explicit
 * edge list and leaves the edges to be derived from the faces.
 */
module Catalog {
  import opened Mesh

  /** The five solid classes. */
  datatype SolidKind = Tetrahedron | Cube | Octahedron | Dodecahedron | Icosahedron

  /** The textbook counts of a Platonic solid: vertices, edges, faces and the sides of each face. */
  datatype Shape = Shape(vertices: nat, edges: nat, faces: nat, sides: nat)

  /** The shape each kind is meant to have. */
  function Expected(kind: SolidKind): Shape {
    match kind
    case Tetrahedron => Shape(4, 6, 4, 3)
    case Cube => Shape(8, 12, 6, 4)
    case Octahedron => Shape(6, 12, 8, 3)
    case Dodecahedron => Shape(20, 30, 12, 5)
    case Icosahedron => Shape(12, 30, 20, 3)
  }

  const TetrahedronVertices: seq<Vec3> := [
    Vec3(0.943, 0.0, -0.333), Vec3(-0.471, -0.816, -0.333), Vec3(-0.471, 0.816, -0.333), Vec3(0.0, 0.0, 1.0)
  ]

  const TetrahedronFaces: seq<Face> := [[0, 1, 2], [0, 1, 3], [0, 2, 3], [1, 2, 3]]

  const CubeVertices: seq<Vec3> := [
    Vec3(1.0, 1.0, 1.0), Vec3(1.0, -1.0, 1.0), Vec3(-1.0, -1.0, 1.0), Vec3(-1.0, 1.0, 1.0),
    Vec3(1.0, 1.0, -1.0), Vec3(1.0, -1.0, -1.0), Vec3(-1.0, -1.0, -1.0), Vec3(-1.0, 1.0, -1.0)
  ]

  const CubeFaces: seq<Face> := [[0, 1, 2, 3], [4, 5, 6, 7], [0, 4, 5, 1], [1, 5, 6, 2], [2, 6, 7, 3], [3, 7, 4, 0]]

  const OctahedronVertices: seq<Vec3> := [
    Vec3(0.0, 0.0, -1.0), Vec3(-1.0, 0.0, 0.0), Vec3(0.0, -1.0, 0.0),
    Vec3(1.0, 0.0, 0.0), Vec3(0.0, 1.0, 0.0), Vec3(0.0, 0.0, 1.0)
  ]

  const OctahedronFaces: seq<Face> := [
    [0, 1, 2], [0, 2, 3], [0, 3, 4], [0, 4, 1], [5, 1, 2], [5, 2, 3], [5, 3, 4], [5, 4, 1]
  ]

  const DodecahedronVertices: seq<Vec3> := [
    Vec3(1.0, 1.0, 1.0), Vec3(1.0, -1.0, 1.0), Vec3(-1.0, -1.0, 1.0), Vec3(-1.0, 1.0, 1.0),
    Vec3(1.0, 1.0, -1.0), Vec3(1.0, -1.0, -1.0), Vec3(-1.0, -1.0, -1.0), Vec3(-1.0, 1.0, -1.0),
    Vec3(0.0, 1.618, 0.618), Vec3(0.0, -1.618, 0.618),
    Vec3(0.0, -1.618, -0.618), Vec3(0.0, 1.618, -0.618),
    Vec3(0.618, 0.0, 1.618), Vec3(-0.618, 0.0, 1.618),
    Vec3(-0.618, 0.0, -1.618), Vec3(0.618, 0.0, -1.618),
    Vec3(1.618, 0.618, 0.0), Vec3(-1.618, 0.618, 0.0),
    Vec3(-1.618, -0.618, 0.0), Vec3(1.618, -0.618, 0.0)
  ]

  const DodecahedronFaces: seq<Face> := [
    [8, 11, 4, 16, 0], [8, 11, 7, 17, 3], [9, 10, 5, 19, 1],
    [9, 10, 6, 18, 2], [12, 13, 3, 8, 0], [12, 13, 2, 9, 1],
    [15, 14, 7, 11, 4], [15, 14, 6, 10, 5], [16, 19, 1, 12, 0],
    [16, 19, 5, 15, 4], [17, 18, 2, 13, 3], [17, 18, 6, 14, 7]
  ]

  const IcosahedronVertices: seq<Vec3> := [
    Vec3(0.0, 1.0, 1.618), Vec3(0.0, -1.0, 1.618), Vec3(0.0, 1.0, -1.618), Vec3(0.0, -1.0, -1.618),
    Vec3(1.618, 0.0, 1.0), Vec3(1.618, 0.0, -1.0), Vec3(-1.618, 0.0, 1.0), Vec3(-1.618, 0.0, -1.0),
    Vec3(1.0, 1.618, 0.0), Vec3(-1.0, 1.618, 0.0), Vec3(1.0, -1.618, 0.0), Vec3(-1.0, -1.618, 0.0)
  ]

  const IcosahedronFaces: seq<Face> := [
    [0, 1, 4], [0, 1, 6], [2, 3, 5], [2, 3, 7],
    [4, 5, 8], [4, 5, 10], [6, 7, 9], [6, 7, 11],
    [8, 9, 0], [8, 9, 2], [10, 11, 1], [10, 11, 3],
    [0, 4, 8], [1, 4, 10], [1, 6, 11], [0, 6, 9],
    [2, 5, 8], [3, 5, 10], [3, 7, 11], [2, 7, 9]
  ]

  /** Every face of `g` has exactly `n` corners. */
  predicate UniformSides(g: Geometry, n: nat) {
    forall k :: 0 <= k < |g.faces| ==> |g.faces[k]| == n
  }

  /**
   * The geometry a solid class returns: its vertex table, no explicit edges,
   * and its face table. The tables have the textbook counts, every face has
   * the textbook number of sides.
   */
  function GetGeometry(kind: SolidKind): (g: Geometry)
    ensures g.edges == []
    ensures |g.vertices| == Expected(kind).vertices
    ensures |g.faces| == Expected(kind).faces
    ensures UniformSides(g, Expected(kind).sides)
  {
    match kind
    case Tetrahedron => Geometry(TetrahedronVertices, [], TetrahedronFaces)
    case Cube => Geometry(CubeVertices, [], CubeFaces)
    case Octahedron => Geometry(OctahedronVertices, [], OctahedronFaces)
    case Dodecahedron => Geometry(DodecahedronVertices, [], DodecahedronFaces)
    case Icosahedron => Geometry(IcosahedronVertices, [], IcosahedronFaces)
  }

  /** The vertex indices a face visits. */
  function Corners(f: Face): set<nat> {
    set i | i in f
  }

  /** A set of vertex indices is the corner set of some tetrahedron face. */
  predicate TetrahedronFace(s: set<nat>) {
    exists k :: 0 <= k < |TetrahedronFaces| && Corners(TetrahedronFaces[k]) == s
  }

  /** Face `k` of the tetrahedron is the triangle opposite vertex `3 - k`. */
  lemma TetrahedronFaceOpposite()
    ensures forall k :: 0 <= k < |TetrahedronFaces| ==> Corners(TetrahedronFaces[k]) == {0, 1, 2, 3} - {3 - k}
  {
  }

  lemma SubsetOfSameSize(a: set<nat>, b: set<nat>)
    requires a <= b && |a| == |b|
    ensures a == b
  {
    assert b == a + (b - a);
    assert a * (b - a) == {};
    assert |b - a| == 0;
  }

  /** Leaving one of the tetrahedron's four vertices out leaves three. */
  lemma OmitOne(m: nat)
    requires m < 4
    ensures |{0, 1, 2, 3} - {m}| == 3
  {
    if m == 0 {
      assert {0, 1, 2, 3} - {m} == {1, 2, 3};
    } else if m == 1 {
      assert {0, 1, 2, 3} - {m} == {0, 2, 3};
    } else if m == 2 {
      assert {0, 1, 2, 3} - {m} == {0, 1, 3};
    } else {
      assert {0, 1, 2, 3} - {m} == {0, 1, 2};
    }
  }

  /** A three-element subset of the tetrahedron's vertices leaves exactly one vertex out. */
  lemma TripleOmitsOne(s: set<nat>)
    requires s <= {0, 1, 2, 3} && |s| == 3
    ensures exists m :: 0 <= m < 4 && s == {0, 1, 2, 3} - {m}
  {
    var m: nat;
    if 0 !in s {
      m := 0;
    } else if 1 !in s {
      m := 1;
    } else if 2 !in s {
      m := 2;
    } else {
      SubsetOfSameSize({0, 1, 2}, s);
      m := 3;
    }
    OmitOne(m);
    SubsetOfSameSize(s, {0, 1, 2, 3} - {m});
  }

  /** The tetrahedron's faces are exactly the four three-element subsets of its four vertices. */
  lemma TetrahedronFacesAreTriples()
    ensures forall s: set<nat> :: TetrahedronFace(s) <==> (s <= {0, 1, 2, 3} && |s| == 3)
  {
    TetrahedronFaceOpposite();
    forall s: set<nat> | TetrahedronFace(s)
      ensures s <= {0, 1, 2, 3} && |s| == 3
    {
      var k :| 0 <= k < |TetrahedronFaces| && Corners(TetrahedronFaces[k]) == s;
      OmitOne(3 - k);
    }
    forall s: set<nat> | s <= {0, 1, 2, 3} && |s| == 3
      ensures TetrahedronFace(s)
    {
      TripleOmitsOne(s);
      var m :| 0 <= m < 4 && s == {0, 1, 2, 3} - {m};
      assert Corners(TetrahedronFaces[3 - m]) == s;
    }
  }

  /** A cube coordinate: plus or minus one. */
  predicate Unit(c: real) {
    c == 1.0 || c == -1.0
  }

  /** The cube's vertices are exactly the eight points whose coordinates are all plus or minus one. */
  lemma CubeVerticesAreSignPatterns()
    ensures forall v: Vec3 :: v in CubeVertices <==> (Unit(v.x) && Unit(v.y) && Unit(v.z))
  {
    forall v: Vec3 | Unit(v.x) && Unit(v.y) && Unit(v.z)
      ensures v in CubeVertices
    {
      assert v == Vec3(v.x, v.y, v.z);
    }
  }

  /** The three coordinate axes. */
  datatype Axis = X | Y | Z

  function Coordinate(v: Vec3, a: Axis): real {
    match a
    case X => v.x
    case Y => v.y
    case Z => v.z
  }

  /** Every corner of face `f` lies on the plane where axis `a` has value `c`. */
  predicate OnPlane(vs: seq<Vec3>, f: Face, a: Axis, c: real) {
    forall j :: 0 <= j < |f| ==> f[j] < |vs| && Coordinate(vs[f[j]], a) == c
  }

  /** Face `f` lies on one of the six planes where some coordinate is plus or minus one. */
  ghost predicate AxisAligned(vs: seq<Vec3>, f: Face) {
    exists a: Axis, c: real :: Unit(c) && OnPlane(vs, f, a, c)
  }

  /** Each cube face lies on a plane where some coordinate is plus or minus one. */
  lemma CubeFacesAxisAligned()
    ensures forall k :: 0 <= k < |CubeFaces| ==> AxisAligned(CubeVertices, CubeFaces[k])
  {
    var planes := [(Z, 1.0), (Z, -1.0), (X, 1.0), (Y, -1.0), (X, -1.0), (Y, 1.0)];
    assert forall k, j :: 0 <= k < 6 && 0 <= j < 4 ==>
      CubeFaces[k][j] < 8 && Coordinate(CubeVertices[CubeFaces[k][j]], planes[k].0) == planes[k].1;
    forall k | 0 <= k < |CubeFaces|
      ensures AxisAligned(CubeVertices, CubeFaces[k])
    {
      assert Unit(planes[k].1) && OnPlane(CubeVertices, CubeFaces[k], planes[k].0, planes[k].1);
    }
  }
}

/**
 * The mesh vocabulary shared by every solid: the `(vertices, edges, faces)`
 * triple that each `get_geometry` returns and that Blender's
 * `Mesh.from_pydata` consumes, plus the derived notions the catalog is
 * checked against (undirected face sides, the edge set, edge incidence,
 * closedness and the Euler characteristic).
 */
module Mesh {

  /** A vertex position, with exact real coordinates. */
  datatype Vec3 = Vec3(x: real, y: real, z: real)

  /** A face: vertex indices in traversal order. */
  type Face = seq<nat>

  /** What `get_geometry` returns: vertices, an explicit edge list and faces. */
  datatype Geometry = Geometry(vertices: seq<Vec3>, edges: seq<(nat, nat)>, faces: seq<Face>)

  /** An undirected edge, stored with its smaller endpoint first. */
  datatype Edge = Edge(lo: nat, hi: nat)

  /** The undirected edge joining `a` and `b`. */
  function Between(a: nat, b: nat): (e: Edge)
    ensures e.lo <= e.hi
  {
    if a <= b then Edge(a, b) else Edge(b, a)
  }

  /** `Between` forgets the direction and nothing else. */
  lemma BetweenUndirected(a: nat, b: nat)
    ensures {Between(a, b).lo, Between(a, b).hi} == {a, b}
    ensures Between(a, b) == Between(b, a)
  {
  }

  /** The position after `j` in the cyclic traversal of `f` (the last index wraps to 0). */
  function Succ(f: Face, j: nat): (k: nat)
    requires j < |f|
    ensures k < |f|
  {
    if j + 1 == |f| then 0 else j + 1
  }

  /** `Succ` is the successor modulo the face's length. */
  lemma SuccIsCyclic(f: Face, j: nat)
    requires j < |f|
    ensures Succ(f, j) == (j + 1) % |f|
  {
  }

  /** The `j`-th side of face `f`: the edge from corner `j` to the next corner, last to first included. */
  function Side(f: Face, j: nat): Edge
    requires j < |f|
  {
    Between(f[j], f[Succ(f, j)])
  }

  /** Face `f` has `e` as one of its sides. */
  predicate HasSide(f: Face, e: Edge) {
    exists j :: 0 <= j < |f| && Side(f, j) == e
  }

  /** Indices of the faces that have `e` as a side. */
  function FacesWith(faces: seq<Face>, e: Edge): set<nat> {
    set k | 0 <= k < |faces| && HasSide(faces[k], e)
  }

  /** The number of faces bordering `e`. */
  function Incidence(faces: seq<Face>, e: Edge): nat {
    |FacesWith(faces, e)|
  }

  /** Every undirected side of every face. */
  function FaceEdges(faces: seq<Face>): set<Edge> {
    set k, j | 0 <= k < |faces| && 0 <= j < |faces[k]| :: Side(faces[k], j)
  }

  /**
   * The edges a mesh ends up with. With the empty explicit edge list every
   * solid passes, these are the face sides (`EdgesFromFacesOnly`); explicit
   * edges, which no solid passes, are added to them as a modelling choice.
   */
  function MeshEdges(g: Geometry): (es: set<Edge>)
    ensures forall p :: p in g.edges ==> Between(p.0, p.1) in es
    ensures forall k, j :: 0 <= k < |g.faces| && 0 <= j < |g.faces[k]| ==> Side(g.faces[k], j) in es
    ensures forall e :: e in es ==> e.lo <= e.hi
  {
    (set p | p in g.edges :: Between(p.0, p.1)) + FaceEdges(g.faces)
  }

  /** A closed surface: every side of every face borders exactly two faces. */
  predicate ClosedSurface(faces: seq<Face>) {
    forall k, j :: 0 <= k < |faces| && 0 <= j < |faces[k]| ==> Incidence(faces, Side(faces[k], j)) == 2
  }

  /** V - E + F, with E the edges the mesh ends up with. */
  function EulerCharacteristic(g: Geometry): int {
    |g.vertices| - |MeshEdges(g)| + |g.faces|
  }

  /** No vertex index repeats within the face. */
  predicate DistinctIndices(f: Face) {
    forall i, j :: 0 <= i < j < |f| ==> f[i] != f[j]
  }

  /** No two vertices sit at the same position. */
  predicate DistinctPositions(vs: seq<Vec3>) {
    forall i, j :: 0 <= i < j < |vs| ==> vs[i] != vs[j]
  }

  /** Every explicit edge joins two different vertices among the first `n`. */
  predicate EdgesBelow(edges: seq<(nat, nat)>, n: nat) {
    forall p :: p in edges ==> p.0 < n && p.1 < n && p.0 != p.1
  }

  /** Every face is a polygon: at least three corners, none repeated. */
  predicate ProperFaces(faces: seq<Face>) {
    forall k :: 0 <= k < |faces| ==> |faces[k]| >= 3 && DistinctIndices(faces[k])
  }

  /** Every face corner names one of the first `n` vertices. */
  predicate IndicesBelow(faces: seq<Face>, n: nat) {
    forall k, j :: 0 <= k < |faces| && 0 <= j < |faces[k]| ==> faces[k][j] < n
  }

  /** What `from_pydata` needs: every index names a vertex and every face is a proper polygon. */
  predicate WellFormed(g: Geometry) {
    && EdgesBelow(g.edges, |g.vertices|)
    && ProperFaces(g.faces)
    && IndicesBelow(g.faces, |g.vertices|)
  }

  /** With no explicit edges, the mesh's edges are exactly the face sides. */
  lemma EdgesFromFacesOnly(g: Geometry)
    requires g.edges == []
    ensures MeshEdges(g) == FaceEdges(g.faces)
    ensures EulerCharacteristic(g) == |g.vertices| - |FaceEdges(g.faces)| + |g.faces|
  {
    assert (set p | p in g.edges :: Between(p.0, p.1)) == {};
  }
}

/**
 * Sort certificates for vertex tables. A copy of the vertex table in strictly
 * increasing lexicographic order, together with each vertex's place in that
 * copy, shows that no two vertices coincide with one comparison per
 * neighbouring pair of the copy instead of one per pair of vertices.
 */
module VertexOrder {
  import opened Mesh

  /** Lexicographic order on positions, by x, then y, then z. */
  predicate Below(a: Vec3, b: Vec3) {
    a.x < b.x || (a.x == b.x && (a.y < b.y || (a.y == b.y && a.z < b.z)))
  }

  /** Positions in strictly increasing order. */
  predicate Increasing(sorted: seq<Vec3>) {
    forall p :: 0 <= p < |sorted| - 1 ==> Below(sorted[p], sorted[p + 1])
  }

  /** `rank[i]` is the place of vertex `i` of `vs` in `sorted`. */
  predicate Places(vs: seq<Vec3>, sorted: seq<Vec3>, rank: seq<nat>) {
    && |rank| == |vs|
    && forall i :: 0 <= i < |vs| ==> rank[i] < |sorted| && sorted[rank[i]] == vs[i]
  }

  /** No two vertices share a place. */
  predicate Injective(rank: seq<nat>) {
    forall i, j :: 0 <= i < j < |rank| ==> rank[i] != rank[j]
  }

  lemma {:induction false} IncreasingBelow(sorted: seq<Vec3>, p: nat, q: nat)
    requires Increasing(sorted)
    requires p < q < |sorted|
    ensures Below(sorted[p], sorted[q])
    decreases q - p
  {
    if p + 1 < q {
      IncreasingBelow(sorted, p + 1, q);
    }
  }

  /** A vertex table with a sort certificate has no repeated position. */
  lemma CertifiedIsDistinct(vs: seq<Vec3>, sorted: seq<Vec3>, rank: seq<nat>)
    requires Increasing(sorted) && Places(vs, sorted, rank) && Injective(rank)
    ensures DistinctPositions(vs)
  {
    forall i, j | 0 <= i < j < |vs|
      ensures vs[i] != vs[j]
    {
      assert rank[i] < |sorted| && sorted[rank[i]] == vs[i];
      assert rank[j] < |sorted| && sorted[rank[j]] == vs[j];
      if rank[i] < rank[j] {
        IncreasingBelow(sorted, rank[i], rank[j]);
      } else {
        IncreasingBelow(sorted, rank[j], rank[i]);
      }
    }
  }
}

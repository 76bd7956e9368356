/**
 * Edge tables: for a mesh given only by its faces (an empty explicit edge
 * list, as every `get_geometry` returns), the edges `from_pydata` derives
 * are the faces' sides. An edge table lists each such edge once, with the
 * two faces on either side of it, and a loop table names, for every face
 * corner, the edge that leaves it. The theorem below shows that a table
 * meeting three local conditions fixes the whole edge structure: the mesh
 * is a closed surface and has exactly as many edges as the table has rows.
 */
module EdgeTable {
  import opened Mesh

  /** An edge with the two faces that border it and its side position in each. */
  datatype EdgeRecord = EdgeRecord(edge: Edge, left: nat, leftAt: nat, right: nat, rightAt: nat)

  /** Lexicographic order on edges. */
  predicate Precedes(a: Edge, b: Edge) {
    a.lo < b.lo || (a.lo == b.lo && a.hi < b.hi)
  }

  /** Rows appear in strictly increasing edge order. */
  predicate Ordered(table: seq<EdgeRecord>) {
    forall p :: 0 <= p < |table| - 1 ==> Precedes(table[p].edge, table[p + 1].edge)
  }

  /** The row's edge is a side of two different faces, at the recorded positions. */
  predicate RowBorders(faces: seq<Face>, r: EdgeRecord) {
    && r.left < r.right < |faces|
    && r.leftAt < |faces[r.left]| && Side(faces[r.left], r.leftAt) == r.edge
    && r.rightAt < |faces[r.right]| && Side(faces[r.right], r.rightAt) == r.edge
  }

  /** Every row borders its two faces. */
  predicate Borders(faces: seq<Face>, table: seq<EdgeRecord>) {
    forall p :: 0 <= p < |table| ==> RowBorders(faces, table[p])
  }

  /** `loops[k][j]` is the row of the `j`-th side of face `k`, and face `k` is one of that row's two faces. */
  predicate Indexes(faces: seq<Face>, table: seq<EdgeRecord>, loops: seq<seq<nat>>) {
    && |loops| == |faces|
    && forall k, j :: 0 <= k < |faces| && 0 <= j < |faces[k]| ==>
         && j < |loops[k]|
         && loops[k][j] < |table|
         && table[loops[k][j]].edge == Side(faces[k], j)
         && (k == table[loops[k][j]].left || k == table[loops[k][j]].right)
  }

  /** The edges listed in a table. */
  function TableEdges(table: seq<EdgeRecord>): set<Edge> {
    set r | r in table :: r.edge
  }

  /** No edge is listed twice. */
  predicate Distinct(table: seq<EdgeRecord>) {
    forall p, q :: 0 <= p < q < |table| ==> table[p].edge != table[q].edge
  }

  lemma {:induction false} OrderedPrecedes(table: seq<EdgeRecord>, p: nat, q: nat)
    requires Ordered(table)
    requires p < q < |table|
    ensures Precedes(table[p].edge, table[q].edge)
    decreases q - p
  {
    if p + 1 < q {
      OrderedPrecedes(table, p + 1, q);
    }
  }

  /** Strict order rules out repeated edges. */
  lemma OrderedIsDistinct(table: seq<EdgeRecord>)
    requires Ordered(table)
    ensures Distinct(table)
  {
    forall p, q | 0 <= p < q < |table|
      ensures table[p].edge != table[q].edge
    {
      OrderedPrecedes(table, p, q);
    }
  }

  /** Appending a row adds its edge to the listed edges. */
  lemma TableEdgesAppend(prefix: seq<EdgeRecord>, r: EdgeRecord)
    ensures TableEdges(prefix + [r]) == TableEdges(prefix) + {r.edge}
  {
    assert forall x :: x in prefix + [r] <==> x in prefix || x == r;
  }

  /** In a table without repeats, the last row's edge is not listed before it. */
  lemma LastIsNew(table: seq<EdgeRecord>)
    requires Distinct(table) && table != []
    ensures table[|table| - 1].edge !in TableEdges(table[..|table| - 1])
  {
    var n := |table| - 1;
    forall r | r in table[..n]
      ensures r.edge != table[n].edge
    {
      var p :| 0 <= p < n && table[..n][p] == r;
      assert table[p] == r;
    }
  }

  /** A table without repeats lists exactly as many edges as it has rows. */
  lemma {:induction false} DistinctCount(table: seq<EdgeRecord>)
    requires Distinct(table)
    ensures |TableEdges(table)| == |table|
  {
    if table != [] {
      var n := |table| - 1;
      assert Distinct(table[..n]);
      DistinctCount(table[..n]);
      assert table == table[..n] + [table[n]];
      TableEdgesAppend(table[..n], table[n]);
      LastIsNew(table);
    }
  }

  /** Only the row's own faces have its edge as a side, since each face corner indexes the one row of its side. */
  lemma OnlyRowFaces(faces: seq<Face>, table: seq<EdgeRecord>, loops: seq<seq<nat>>, p: nat)
    requires Distinct(table) && Indexes(faces, table, loops)
    requires p < |table|
    ensures forall k :: k in FacesWith(faces, table[p].edge) ==> k == table[p].left || k == table[p].right
  {
    forall k | k in FacesWith(faces, table[p].edge)
      ensures k == table[p].left || k == table[p].right
    {
      var j :| 0 <= j < |faces[k]| && Side(faces[k], j) == table[p].edge;
      assert j < |loops[k]| && loops[k][j] < |table|;
      var q := loops[k][j];
      assert table[q].edge == table[p].edge && (k == table[q].left || k == table[q].right);
    }
  }

  /** A row bordering its two faces, and no others, gives its edge an incidence of two. */
  lemma RowFaces(faces: seq<Face>, r: EdgeRecord)
    requires RowBorders(faces, r)
    requires forall k :: k in FacesWith(faces, r.edge) ==> k == r.left || k == r.right
    ensures FacesWith(faces, r.edge) == {r.left, r.right}
    ensures Incidence(faces, r.edge) == 2
  {
    assert HasSide(faces[r.left], r.edge) by {
      assert Side(faces[r.left], r.leftAt) == r.edge;
    }
    assert HasSide(faces[r.right], r.edge) by {
      assert Side(faces[r.right], r.rightAt) == r.edge;
    }
  }

  /** Every side of every face borders exactly two faces. */
  lemma TableCloses(faces: seq<Face>, table: seq<EdgeRecord>, loops: seq<seq<nat>>)
    requires Distinct(table) && Borders(faces, table) && Indexes(faces, table, loops)
    ensures ClosedSurface(faces)
  {
    forall k, j | 0 <= k < |faces| && 0 <= j < |faces[k]|
      ensures Incidence(faces, Side(faces[k], j)) == 2
    {
      assert j < |loops[k]| && loops[k][j] < |table| && table[loops[k][j]].edge == Side(faces[k], j);
      var p := loops[k][j];
      OnlyRowFaces(faces, table, loops, p);
      assert RowBorders(faces, table[p]);
      RowFaces(faces, table[p]);
    }
  }

  /** Every face side is listed in the table. */
  lemma SidesListed(faces: seq<Face>, table: seq<EdgeRecord>, loops: seq<seq<nat>>)
    requires Indexes(faces, table, loops)
    ensures FaceEdges(faces) <= TableEdges(table)
  {
    forall k, j | 0 <= k < |faces| && 0 <= j < |faces[k]|
      ensures Side(faces[k], j) in TableEdges(table)
    {
      assert j < |loops[k]| && loops[k][j] < |table| && table[loops[k][j]].edge == Side(faces[k], j);
      assert table[loops[k][j]] in table;
    }
  }

  /** Every listed edge is a face side. */
  lemma ListedSides(faces: seq<Face>, table: seq<EdgeRecord>)
    requires Borders(faces, table)
    ensures TableEdges(table) <= FaceEdges(faces)
  {
    forall e | e in TableEdges(table)
      ensures e in FaceEdges(faces)
    {
      var r :| r in table && r.edge == e;
      var p :| 0 <= p < |table| && table[p] == r;
      assert RowBorders(faces, table[p]);
      assert Side(faces[r.left], r.leftAt) == e;
    }
  }

  /**
   * A table that is ordered, whose rows border their faces and that indexes every
   * face corner determines the mesh's edges: each side borders exactly two faces,
   * and the face sides are exactly the table's edges, as many as it has rows.
   */
  lemma TableDescribesSurface(faces: seq<Face>, table: seq<EdgeRecord>, loops: seq<seq<nat>>)
    requires Ordered(table) && Borders(faces, table) && Indexes(faces, table, loops)
    ensures ClosedSurface(faces)
    ensures FaceEdges(faces) == TableEdges(table)
    ensures |FaceEdges(faces)| == |table|
  {
    OrderedIsDistinct(table);
    TableCloses(faces, table, loops);
    SidesListed(faces, table, loops);
    ListedSides(faces, table);
    DistinctCount(table);
  }
}

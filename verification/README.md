# Platonic solids generator: a Dafny model

This project models the core of the Blender add-on "Platonic Solids Generator"
(`v2.py`). The core is:

- the five solid classes and the vertex and face tables their `get_geometry`
  returns;
- the `solid_classes` table that dispatches a shape identifier to a class;
- the scene properties with their bounds and defaults;
- what the "Generate Platonic Solid" operator's `execute` asks Blender to
  build. That covers the mesh and object names, the geometry, the object's
  scale, and the material with its colour.

The model proves these properties:

- every table is a well-formed polygon mesh for `from_pydata`;
- every table has the textbook vertex, face and edge counts;
- every solid is a closed surface: each side of each face borders exactly two
  faces;
- every solid's Euler characteristic is V − E + F = 2;
- the tetrahedron's faces are exactly the 3-subsets of its four vertices;
- the cube's vertices are the eight ±1 sign patterns, and its faces are
  axis-aligned;
- dispatch round-trips, and an unknown identifier falls back to the
  tetrahedron;
- material names decode back to their shape;
- the operator leaves every other material as it was.

Files:

- `mesh.dfy` (module `Mesh`): vertices, faces and the `(vertices, edges,
  faces)` triple. It also defines the edges `from_pydata` derives from the
  faces (undirected sides), the edge incidence, closedness, the Euler
  characteristic and well-formedness.
- `edge_table.dfy` (module `EdgeTable`): a generic theorem. An edge table
  lists each edge once, in increasing order, with the two faces on either
  side. A loop table names, for each face corner, the edge leaving it. If both
  tables pass three entry-by-entry checks, the faces form a closed surface
  with exactly as many edges as the table has rows.
- `vertex_order.dfy` (module `VertexOrder`): a sorted copy of a vertex table
  plus each vertex's place in that copy shows that no two vertices coincide.
- `catalog.dfy` (module `Catalog`): the five solids' literal tables,
  `get_geometry`, and the tetrahedron and cube properties.
- `catalog_checks.dfy` (module `CatalogChecks`): the well-formedness checks of
  every table.
- `topology.dfy` (module `Topology`): each solid's edge and loop tables, their
  checks, and the closed-surface and Euler theorems.
- `generate.dfy` (module `Generate`): dispatch, properties, material naming
  and reuse, material slots, and `execute` as a pure function.

### Modelling notes

- **Scale.** `execute` sets the object's transform to `(scale, scale, scale)`
  and hands the vertex tables to the mesh unscaled.
  `Generate.GeometryIgnoresOtherSettings` states that the geometry depends
  only on the shape identifier.
- **Unknown shape identifier.** `solid_classes.get` falls back to the
  tetrahedron, and the mesh, object and material are still named after the
  unknown identifier (`Generate.SolidFor`,
  `Generate.UnknownShapeBuildsTetrahedron`).
- **Validation.** `execute` validates neither colour nor scale; the bounds
  live only in the property declarations, which Blender enforces. They are
  the predicate `Generate.InBounds`, not a precondition of `execute`.
- **Numbers.** Coordinates are exact reals with the same decimal digits as
  the tables, whether written as integer or float literals.

## Model

| member | source | states |
|---|---|---|
| `Catalog.GetGeometry` | v2.py:25-71 | Each class returns an empty explicit edge list. Its vertex and face counts are the textbook ones (4/4, 8/6, 6/8, 20/12, 12/20), and every face has the textbook number of sides (3, 4, 3, 5, 3). |
| `CatalogChecks.CatalogWellFormed` | v2.py:25-71 | Every face index names a vertex. Every face has at least three corners, none repeated. No two vertices of a solid coincide. |
| `Catalog.TetrahedronFaceOpposite` | v2.py:28 | Face k of the tetrahedron is the triangle opposite vertex 3 − k. |
| `Catalog.TetrahedronFacesAreTriples` | v2.py:28 | A set of indices is the corner set of a tetrahedron face if and only if it is a 3-element subset of {0, 1, 2, 3}. |
| `Catalog.CubeVerticesAreSignPatterns` | v2.py:33 | A point is a cube vertex if and only if each of its coordinates is +1 or −1. |
| `Catalog.CubeFacesAxisAligned` | v2.py:31-35 | All corners of each cube face share one coordinate, and that coordinate is ±1. |
| `Topology.TetrahedronSurface` | v2.py:25-29 | Each tetrahedron face side borders exactly two faces. The sides are the 6 edges of the tetrahedron's edge table. |
| `Topology.CubeSurface` | v2.py:31-35 | Each cube face side borders exactly two faces. The sides are the 12 edges of the cube's edge table. |
| `Topology.OctahedronSurface` | v2.py:37-41 | Each octahedron face side borders exactly two faces. The sides are the 12 edges of the octahedron's edge table. |
| `Topology.DodecahedronSurface` | v2.py:43-57 | Each dodecahedron face side borders exactly two faces. The sides are the 30 edges of the dodecahedron's edge table. |
| `Topology.IcosahedronSurface` | v2.py:59-71 | Each icosahedron face side borders exactly two faces. The sides are the 30 edges of the icosahedron's edge table. |
| `Topology.ClosedPolyhedron` | v2.py:21-71 | Every solid is a closed surface. The mesh that `from_pydata` builds has the textbook edge count (6/12/12/30/30), and V − E + F = 2. |
| `EdgeTable.TableDescribesSurface` | v2.py:110-114 | An ordered edge table whose rows border their faces, plus a loop table that indexes every face corner, determine the derived edges. Every side borders exactly two faces, and the edges are exactly the table's rows, with no repeats. |
| `Mesh.MeshEdges` | v2.py:110-112 | With the empty explicit edge list every solid passes, the mesh's edges are the face sides. The contract states that every face side, stored undirected with its smaller endpoint first, is an edge of the mesh. |
| `Mesh.EdgesFromFacesOnly` | v2.py:110-114 | With an empty explicit edge list, the mesh's edges are exactly the faces' undirected sides. |
| `Generate.SolidFor` | v2.py:135 | A registered identifier selects the class registered under it (its key is the identifier itself). Any other identifier selects the tetrahedron. |
| `Generate.DispatchTable` | v2.py:73-79 | The table has exactly five distinct identifiers, in the listed order, and each maps to the class of that name. |
| `Generate.DispatchRoundTrip` | v2.py:73-79 | Every class is registered, and looking up its identifier gives it back. |
| `Generate.KeyOfInjective` | v2.py:73-79 | Different classes have different identifiers. |
| `Generate.ShapeItems` | v2.py:83-87 | The shape enum has one item per dispatch key, in the table's order: item i's identifier is the i-th key, its display name is that key title-cased, and its description is empty. |
| `Generate.TitleFrom` | v2.py:85 | On ASCII text, title-casing keeps the length and maps letters to letters and non-letters to non-letters. |
| `Generate.Title` | v2.py:85 | On ASCII text, `str.title` keeps the length, and a leading letter comes out upper case as the same letter. |
| `Generate.ShapeItemNames` | v2.py:85 | Each item's display name is its identifier title-cased: the first letter stays upper case, and every later letter is the lower-case form of the identifier's letter. |
| `Generate.TitleUndone` | v2.py:85 | Title-casing an upper-case word keeps its first letter and lower-cases the rest, so upper-casing undoes it. |
| `Generate.InBounds` | v2.py:83-101 | The declared bounds: a listed shape, colour channels in [0, 1], scale in [0.1, 10]. A listed shape is always dispatched to its own class, never to the fallback. |
| `Generate.DefaultsInBounds` | v2.py:82-105 | The declared defaults (tetrahedron, colour (0.8, 0.8, 0.8, 1.0), scale 1.0, no clearing) respect the declared bounds. The default shape is the first enum item. |
| `Generate.MaterialName` | v2.py:144 | The material name starts with the shape identifier and is nine characters longer. |
| `Generate.MaterialNameRoundTrip` | v2.py:144 | Stripping the "_Material" suffix from a material name gives back the shape identifier, and only names made this way decode to a given identifier. |
| `Generate.MaterialNameInjective` | v2.py:144 | Different shapes get different material names. |
| `Generate.CreateMaterial` | v2.py:117-120 | The named material exists afterwards with the given colour. Exactly that name is added to the names, and every other material keeps its colour. |
| `Generate.CreateMaterialIdempotent` | v2.py:117-120 | Creating a material twice is the same as creating it once. An existing name is reused, and only a new name adds a material. |
| `Generate.AssignMaterial` | v2.py:145-148 | The material takes slot 0. An empty slot list grows to one slot, and a non-empty list keeps its length and its other slots. |
| `Generate.AssignMaterialIdempotent` | v2.py:145-148 | Assigning the same material again changes nothing. |
| `Generate.Execute` | v2.py:128-148 | The clearing flag is passed through. The mesh and the object are both named after the shape identifier. The geometry is the dispatched class's. The object scale is the same value on all three axes. The fresh mesh's only material slot holds "<identifier>_Material", which has the property colour. |
| `Generate.UnknownShapeBuildsTetrahedron` | v2.py:135-144 | An unregistered identifier builds the tetrahedron but still names the mesh and the material after itself. |
| `Generate.GeometryIgnoresOtherSettings` | v2.py:135-142 | The geometry, and hence the vertex positions, depends only on the shape identifier. Colour, scale and clearing do not affect it. |
| `Generate.ScaleWithinBounds` | v2.py:142 | When the properties are within their declared bounds, every axis of the object's scale lies in [0.1, 10]. |
| `Generate.OtherMaterialsUnchanged` | v2.py:144 | Running the operator leaves every material other than the shape's own untouched. |
| `Generate.ExecuteBuildsClosedSolid` | v2.py:135-140 | For any properties, the operator builds a well-formed mesh with no coincident vertices. That mesh is a closed surface with the selected solid's textbook counts and Euler characteristic 2. |

## Left out

- Blender side effects are not modelled. This covers creating the mesh and the object, linking the object to the collection, `mesh.update()`, selecting and activating the object, and the operator's return value. The model states what the operator asks for (`Generate.Build`), not Blender's data blocks.
- Blender renames a new mesh, object or material to `NAME.001` when the name is taken. That behaviour is Blender's, not the add-on's, and is not modelled.
- The deletion under "Clear Before Create" is not modelled. It is a scene side effect, so the model only records the flag (`Build.clearFirst`).
- The "Change Color" and "Delete Selected" operators, the panel and the registration code are out of scope. They are UI and registration glue outside the generation core.
- Blender enforces the property bounds (colour channels in [0, 1], scale in [0.1, 10]) when values are set. The model states the bounds as a predicate, `Generate.InBounds`, and does not model clamping.
- Metric properties are not claimed. The rounded coordinates (0.943, 1.618, …) make edge lengths only approximately equal, faces only approximately planar, and the solids only approximately regular.
- Face winding is not claimed. In every solid some directed side is used by two faces, so the face orientations are not consistent.
- `PlatonicSolid.get_geometry` in the base class only raises "not implemented". The model has no abstract base: `Catalog.SolidKind` lists exactly the five concrete classes.
- `Generate.Title`, `Generate.TitleFrom`: model `str.title` on ASCII letters only. Unicode case mapping (accented letters, `ß` becoming `Ss`) is not modelled. The five dispatch keys are ASCII upper case, so `k.title()` at v2.py:85 is reproduced exactly.
- `Mesh.MeshEdges`: how `from_pydata` treats a non-empty explicit edge list is Blender's behaviour and is not claimed. Every solid passes an empty list, and `Mesh.EdgesFromFacesOnly` pins that case to the face sides.

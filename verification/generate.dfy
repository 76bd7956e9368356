/**
 * The "Generate Platonic Solid" operator, without its Blender side effects:
 * the `solid_classes` dispatch table, the scene properties with their bounds
 * and defaults, and what `execute` asks Blender to build from them (mesh and
 * object names, geometry, object scale and material).
 */
module Generate {
  import opened Mesh
  import opened Catalog
  import opened Topology
  import opened CatalogChecks

  /** The dispatch keys in the order the dictionary lists them. */
  const Keys: seq<string> := ["TETRAHEDRON", "CUBE", "OCTAHEDRON", "DODECAHEDRON", "ICOSAHEDRON"]

  /** `solid_classes`: shape identifier to solid class. */
  const SolidClasses: map<string, SolidKind> := map[
    "TETRAHEDRON" := Tetrahedron,
    "CUBE" := Cube,
    "OCTAHEDRON" := Octahedron,
    "DODECAHEDRON" := Dodecahedron,
    "ICOSAHEDRON" := Icosahedron
  ]

  /** The identifier a solid class is registered under. */
  function KeyOf(kind: SolidKind): string {
    match kind
    case Tetrahedron => "TETRAHEDRON"
    case Cube => "CUBE"
    case Octahedron => "OCTAHEDRON"
    case Dodecahedron => "DODECAHEDRON"
    case Icosahedron => "ICOSAHEDRON"
  }

  /**
   * `solid_classes.get(shape_type, Tetrahedron)`: a registered identifier
   * selects its own class, anything else falls back to the tetrahedron.
   */
  function SolidFor(shapeType: string): (kind: SolidKind)
    ensures shapeType in SolidClasses <==> KeyOf(kind) == shapeType
    ensures shapeType !in SolidClasses ==> kind == Tetrahedron
  {
    if shapeType in SolidClasses then SolidClasses[shapeType] else Tetrahedron
  }

  /** The table has exactly the five identifiers, in the listed order, and each names the class registered under it. */
  lemma DispatchTable()
    ensures forall key :: key in SolidClasses <==> key in Keys
    ensures |SolidClasses| == 5
    ensures forall i :: 0 <= i < |Keys| ==> KeyOf(SolidClasses[Keys[i]]) == Keys[i]
    ensures forall i, j :: 0 <= i < j < |Keys| ==> Keys[i] != Keys[j]
  {
    assert SolidClasses.Keys == {"TETRAHEDRON", "CUBE", "OCTAHEDRON", "DODECAHEDRON", "ICOSAHEDRON"};
  }

  /** Every class is reachable, under its own identifier. */
  lemma DispatchRoundTrip(kind: SolidKind)
    ensures KeyOf(kind) in SolidClasses
    ensures SolidFor(KeyOf(kind)) == kind
  {
  }

  /** Different classes are registered under different identifiers. */
  lemma KeyOfInjective(a: SolidKind, b: SolidKind)
    ensures KeyOf(a) == KeyOf(b) ==> a == b
  {
  }

  /** ASCII upper case. */
  predicate IsUpper(c: char) {
    'A' <= c <= 'Z'
  }

  /** ASCII lower case. */
  predicate IsLower(c: char) {
    'a' <= c <= 'z'
  }

  function ToLower(c: char): (d: char)
    ensures IsUpper(c) ==> IsLower(d) && d as int == c as int + 32
    ensures !IsUpper(c) ==> d == c
  {
    if IsUpper(c) then (c as int + 32) as char else c
  }

  function ToUpper(c: char): (d: char)
    ensures IsLower(c) ==> IsUpper(d) && d as int == c as int - 32
    ensures !IsLower(c) ==> d == c
  {
    if IsLower(c) then (c as int - 32) as char else c
  }

  /**
   * `str.title` on ASCII text: a letter is upper-cased when it starts a word
   * (it follows a non-letter or the start of the text) and lower-cased
   * otherwise. `afterLetter` says whether the text is preceded by a letter.
   */
  function TitleFrom(s: string, afterLetter: bool): (t: string)
    ensures |t| == |s|
    ensures forall i :: 0 <= i < |s| ==> (IsUpper(s[i]) || IsLower(s[i])) == (IsUpper(t[i]) || IsLower(t[i]))
  {
    if s == [] then []
    else
      var c := if afterLetter then ToLower(s[0]) else ToUpper(s[0]);
      [c] + TitleFrom(s[1..], IsUpper(s[0]) || IsLower(s[0]))
  }

  /** `str.title` of a whole ASCII text: its first letter, if it starts with one, is upper-cased. */
  function Title(s: string): (t: string)
    ensures |t| == |s|
    ensures s != [] && (IsUpper(s[0]) || IsLower(s[0])) ==> IsUpper(t[0]) && ToLower(t[0]) == ToLower(s[0])
  {
    TitleFrom(s, false)
  }

  /** Upper-casing a title-cased word gives back an upper-case identifier. */
  lemma {:induction false} TitleUndone(s: string, afterLetter: bool)
    requires forall i :: 0 <= i < |s| ==> IsUpper(s[i])
    ensures |TitleFrom(s, afterLetter)| == |s|
    ensures forall i :: 0 <= i < |s| ==> ToUpper(TitleFrom(s, afterLetter)[i]) == s[i]
    ensures afterLetter ==> forall i :: 0 <= i < |s| ==> IsLower(TitleFrom(s, afterLetter)[i])
    ensures !afterLetter && s != [] ==> TitleFrom(s, afterLetter)[0] == s[0]
    ensures forall i :: 0 < i < |s| ==> IsLower(TitleFrom(s, afterLetter)[i])
  {
    if s != [] {
      TitleUndone(s[1..], true);
    }
  }

  /** One entry of the shape enum: identifier, display name, description. */
  datatype EnumItem = EnumItem(identifier: string, name: string, description: string)

  /** The shape enum's items: one per dispatch key, in the dictionary's order. */
  function ShapeItems(): (items: seq<EnumItem>)
    ensures |items| == |Keys|
    ensures forall i :: 0 <= i < |items| ==> items[i].identifier == Keys[i] && items[i].identifier in SolidClasses
    ensures forall i :: 0 <= i < |items| ==> items[i].name == Title(Keys[i])
    ensures forall i :: 0 <= i < |items| ==> items[i].description == ""
  {
    seq(|Keys|, i requires 0 <= i < |Keys| => EnumItem(Keys[i], Title(Keys[i]), ""))
  }

  /** Each display name is the identifier with only its first letter kept upper case. */
  lemma ShapeItemNames()
    ensures forall i :: 0 <= i < |ShapeItems()| ==>
      var item := ShapeItems()[i];
      && |item.name| == |item.identifier| > 0
      && item.name[0] == item.identifier[0]
      && (forall j :: 0 < j < |item.name| ==> IsLower(item.name[j]) && ToUpper(item.name[j]) == item.identifier[j])
  {
    forall i | 0 <= i < |Keys|
      ensures forall j :: 0 <= j < |Keys[i]| ==> IsUpper(Keys[i][j])
    {
    }
    forall i | 0 <= i < |Keys| {
      TitleUndone(Keys[i], false);
    }
  }

  /** An RGBA colour as a four-component float vector. */
  datatype Rgba = Rgba(r: real, g: real, b: real, a: real)

  /** The operator's scene properties. */
  datatype Settings = Settings(shapeType: string, color: Rgba, scale: real, clearBeforeCreate: bool)

  const ScaleMin: real := 0.1
  const ScaleMax: real := 10.0

  predicate UnitInterval(x: real) {
    0.0 <= x <= 1.0
  }

  /** What the property declarations allow: a listed shape, colour channels in [0, 1], a scale in [0.1, 10]. */
  predicate InBounds(s: Settings)
    ensures InBounds(s) ==> KeyOf(SolidFor(s.shapeType)) == s.shapeType
  {
    && s.shapeType in SolidClasses
    && UnitInterval(s.color.r) && UnitInterval(s.color.g) && UnitInterval(s.color.b) && UnitInterval(s.color.a)
    && ScaleMin <= s.scale <= ScaleMax
  }

  /** The declared defaults. */
  const Defaults: Settings := Settings("TETRAHEDRON", Rgba(0.8, 0.8, 0.8, 1.0), 1.0, false)

  /** The defaults respect the declared bounds and select the tetrahedron, which is the first enum item. */
  lemma DefaultsInBounds()
    ensures InBounds(Defaults)
    ensures SolidFor(Defaults.shapeType) == Tetrahedron
    ensures ShapeItems()[0].identifier == Defaults.shapeType
  {
  }

  /** The material created for a shape. */
  function MaterialName(shapeType: string): (name: string)
    ensures |name| == |shapeType| + |"_Material"|
    ensures name[..|shapeType|] == shapeType
  {
    shapeType + "_Material"
  }

  datatype Option<T> = None | Some(value: T)

  /** The shape a material name was made for, if it has the material suffix. */
  function MaterialShape(name: string): (shape: Option<string>)
    ensures shape.Some? ==> |shape.value| + |"_Material"| == |name|
  {
    var n := |"_Material"|;
    if |name| >= n && name[|name| - n..] == "_Material" then Some(name[..|name| - n]) else None
  }

  /** Material names decode back to their shape, and only material names decode. */
  lemma MaterialNameRoundTrip(shapeType: string, name: string)
    ensures MaterialShape(MaterialName(shapeType)) == Some(shapeType)
    ensures MaterialShape(name) == Some(shapeType) ==> MaterialName(shapeType) == name
  {
    var m := MaterialName(shapeType);
    assert m[|m| - |"_Material"|..] == "_Material";
    if MaterialShape(name) == Some(shapeType) {
      assert name == name[..|name| - |"_Material"|] + name[|name| - |"_Material"|..];
    }
  }

  /** Different shapes get different materials. */
  lemma MaterialNameInjective(a: string, b: string)
    ensures MaterialName(a) == MaterialName(b) ==> a == b
  {
    MaterialNameRoundTrip(a, MaterialName(b));
    MaterialNameRoundTrip(b, MaterialName(b));
  }

  /** The file's materials, by name, with their diffuse colours. */
  type Materials = map<string, Rgba>

  /**
   * `create_material`: reuse the material of that name or make a new one, and
   * set its diffuse colour. Only that material is touched.
   */
  function CreateMaterial(materials: Materials, name: string, color: Rgba): (result: Materials)
    ensures result.Keys == materials.Keys + {name}
    ensures name in result && result[name] == color
    ensures forall n :: n in materials && n != name ==> result[n] == materials[n]
  {
    materials[name := color]
  }

  /** Creating the same material twice is the same as creating it once; an existing name adds no material. */
  lemma CreateMaterialIdempotent(materials: Materials, name: string, color: Rgba)
    ensures CreateMaterial(CreateMaterial(materials, name, color), name, color) == CreateMaterial(materials, name, color)
    ensures name in materials ==> |CreateMaterial(materials, name, color)| == |materials|
    ensures name !in materials ==> |CreateMaterial(materials, name, color)| == |materials| + 1
  {
    if name in materials {
      assert CreateMaterial(materials, name, color).Keys == materials.Keys;
    }
  }

  /** Put a material into the first slot of an object's material list, appending when the list is empty. */
  function AssignMaterial(slots: seq<string>, name: string): (result: seq<string>)
    ensures |result| == if slots == [] then 1 else |slots|
    ensures result[0] == name
    ensures forall i :: 0 < i < |slots| ==> result[i] == slots[i]
  {
    if slots == [] then [name] else slots[0 := name]
  }

  /** Assigning the same material again changes nothing. */
  lemma AssignMaterialIdempotent(slots: seq<string>, name: string)
    ensures AssignMaterial(AssignMaterial(slots, name), name) == AssignMaterial(slots, name)
  {
  }

  /** What `execute` asks Blender to build. */
  datatype Build = Build(
    clearFirst: bool,
    meshName: string,
    geometry: Geometry,
    objectName: string,
    scale: Vec3,
    materialSlots: seq<string>)

  datatype Outcome = Outcome(build: Build, materials: Materials)

  /**
   * `execute` on the given settings and the file's materials: optionally
   * clear the scene, build the selected solid's mesh and an object of the
   * same name holding it, scale the object uniformly, and give its fresh mesh
   * the shape's material in the properties' colour.
   */
  function Execute(s: Settings, materials: Materials): (out: Outcome)
    ensures out.build.clearFirst == s.clearBeforeCreate
    ensures out.build.meshName == out.build.objectName == s.shapeType
    ensures out.build.geometry == GetGeometry(SolidFor(s.shapeType))
    ensures out.build.scale.x == out.build.scale.y == out.build.scale.z == s.scale
    ensures out.build.materialSlots == [MaterialName(s.shapeType)]
    ensures MaterialName(s.shapeType) in out.materials && out.materials[MaterialName(s.shapeType)] == s.color
  {
    var kind := SolidFor(s.shapeType);
    var name := MaterialName(s.shapeType);
    Outcome(
      Build(s.clearBeforeCreate, s.shapeType, GetGeometry(kind), s.shapeType, Vec3(s.scale, s.scale, s.scale), AssignMaterial([], name)),
      CreateMaterial(materials, name, s.color))
  }

  /** An unlisted shape identifier still names the mesh, object and material, but builds the tetrahedron. */
  lemma UnknownShapeBuildsTetrahedron(s: Settings, materials: Materials)
    requires s.shapeType !in SolidClasses
    ensures Execute(s, materials).build.geometry == GetGeometry(Tetrahedron)
    ensures Execute(s, materials).build.meshName == s.shapeType
    ensures Execute(s, materials).build.materialSlots == [MaterialName(s.shapeType)]
  {
  }

  /**
   * Scale lives on the object, not in the mesh: the geometry depends only on
   * the shape identifier, so colour, scale and clearing never change the vertices.
   */
  lemma GeometryIgnoresOtherSettings(s: Settings, t: Settings, m: Materials, n: Materials)
    requires s.shapeType == t.shapeType
    ensures Execute(s, m).build.geometry == Execute(t, n).build.geometry
    ensures Execute(s, m).build.meshName == Execute(t, n).build.meshName
  {
  }

  /** Within the declared bounds the object's scale is uniform and within [0.1, 10] on every axis. */
  lemma ScaleWithinBounds(s: Settings, materials: Materials)
    requires InBounds(s)
    ensures var v := Execute(s, materials).build.scale;
      && ScaleMin <= v.x <= ScaleMax && ScaleMin <= v.y <= ScaleMax && ScaleMin <= v.z <= ScaleMax
  {
  }

  /** Only the shape's material is created or recoloured; every other material keeps its colour. */
  lemma OtherMaterialsUnchanged(s: Settings, materials: Materials, other: string)
    requires other in materials && other != MaterialName(s.shapeType)
    ensures other in Execute(s, materials).materials
    ensures Execute(s, materials).materials[other] == materials[other]
  {
  }

  /**
   * Whatever the settings, the operator builds a well-formed closed mesh with
   * the textbook counts of the selected solid and Euler characteristic 2.
   */
  lemma ExecuteBuildsClosedSolid(s: Settings, materials: Materials)
    ensures var g := Execute(s, materials).build.geometry;
      && WellFormed(g)
      && DistinctPositions(g.vertices)
      && ClosedSurface(g.faces)
      && |g.vertices| == Expected(SolidFor(s.shapeType)).vertices
      && |MeshEdges(g)| == Expected(SolidFor(s.shapeType)).edges
      && |g.faces| == Expected(SolidFor(s.shapeType)).faces
      && EulerCharacteristic(g) == 2
  {
    var kind := SolidFor(s.shapeType);
    CatalogWellFormed(kind);
    ClosedPolyhedron(kind);
  }
}

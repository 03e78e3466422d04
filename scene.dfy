/**
 * The data model of the scene editor (scene objects and projects), the partial
 * record that `updateObject` merges into an object, and the object defaulting
 * policy `createDefaultObject` of src/store/editorStore.ts.
 */
module Scene {
  import opened Wrappers
  import opened Text
  import opened Lists

  datatype Category = Primitive | Environment | Light

  datatype ObjectType =
    | Cube | Sphere | Cylinder | Plane | Cone | Torus | Capsule | Pyramid
    | Tree | Grass | Rock | Water | Cloud | Chair | Table
    | Directional | Point | Spot | Ambient
  {
    /** The string the source uses for this type. */
    function Literal(): string {
      match this
      case Cube => "cube"
      case Sphere => "sphere"
      case Cylinder => "cylinder"
      case Plane => "plane"
      case Cone => "cone"
      case Torus => "torus"
      case Capsule => "capsule"
      case Pyramid => "pyramid"
      case Tree => "tree"
      case Grass => "grass"
      case Rock => "rock"
      case Water => "water"
      case Cloud => "cloud"
      case Chair => "chair"
      case Table => "table"
      case Directional => "directional"
      case Point => "point"
      case Spot => "spot"
      case Ambient => "ambient"
    }

    /**
     * The category whose union type (PrimitiveType, EnvironmentType,
     * LightType) lists this type. Nothing in the store enforces that an
     * object's category is this one.
     */
    function DeclaredCategory(): Category {
      if this in {Cube, Sphere, Cylinder, Plane, Cone, Torus, Capsule, Pyramid} then Primitive
      else if this in {Tree, Grass, Rock, Water, Cloud, Chair, Table} then Environment
      else Light
    }
  }

  /** A `[number, number, number]` tuple: a position, a rotation in radians or a scale. */
  datatype Vec3 = Vec3(x: real, y: real, z: real)

  /** One placed entity. `kind` is the source's `type` field. */
  datatype SceneObject = SceneObject(
    id: string,
    name: string,
    kind: ObjectType,
    category: Category,
    position: Vec3,
    rotation: Vec3,
    scale: Vec3,
    color: string,
    metalness: real,
    roughness: real,
    texture: Option<string>,
    intensity: Option<real>,
    castShadow: Option<bool>)

  /** A named, timestamped container of objects; the timestamps are milliseconds. */
  datatype Project = Project(
    id: string,
    name: string,
    createdAt: int,
    updatedAt: int,
    objects: seq<SceneObject>)

  function ObjectId(o: SceneObject): string { o.id }

  function ProjectId(p: Project): string { p.id }

  /** `Partial<SceneObject>`: a field is changed by a merge exactly when it is present. */
  datatype Patch = Patch(
    id: Option<string>,
    name: Option<string>,
    kind: Option<ObjectType>,
    category: Option<Category>,
    position: Option<Vec3>,
    rotation: Option<Vec3>,
    scale: Option<Vec3>,
    color: Option<string>,
    metalness: Option<real>,
    roughness: Option<real>,
    texture: Option<string>,
    intensity: Option<real>,
    castShadow: Option<bool>)

  /** The empty partial record `{}`. */
  const NoChanges := Patch(None, None, None, None, None, None, None, None, None, None, None, None, None)

  /** `{ ...o, ...p }`: the fields present in `p` override those of `o`. */
  function Merge(o: SceneObject, p: Patch): SceneObject {
    SceneObject(
      p.id.GetOr(o.id),
      p.name.GetOr(o.name),
      p.kind.GetOr(o.kind),
      p.category.GetOr(o.category),
      p.position.GetOr(o.position),
      p.rotation.GetOr(o.rotation),
      p.scale.GetOr(o.scale),
      p.color.GetOr(o.color),
      p.metalness.GetOr(o.metalness),
      p.roughness.GetOr(o.roughness),
      if p.texture.Some? then p.texture else o.texture,
      if p.intensity.Some? then p.intensity else o.intensity,
      if p.castShadow.Some? then p.castShadow else o.castShadow)
  }

  /** `{ ...p, ...q }`: spreading `p` and then `q` in one step. */
  function Combine(p: Patch, q: Patch): Patch {
    Patch(
      if q.id.Some? then q.id else p.id,
      if q.name.Some? then q.name else p.name,
      if q.kind.Some? then q.kind else p.kind,
      if q.category.Some? then q.category else p.category,
      if q.position.Some? then q.position else p.position,
      if q.rotation.Some? then q.rotation else p.rotation,
      if q.scale.Some? then q.scale else p.scale,
      if q.color.Some? then q.color else p.color,
      if q.metalness.Some? then q.metalness else p.metalness,
      if q.roughness.Some? then q.roughness else p.roughness,
      if q.texture.Some? then q.texture else p.texture,
      if q.intensity.Some? then q.intensity else p.intensity,
      if q.castShadow.Some? then q.castShadow else p.castShadow)
  }

  /** Merging the empty partial record changes nothing. */
  lemma MergeNoChanges(o: SceneObject)
    ensures Merge(o, NoChanges) == o
  {
  }

  /** Merging the same partial record twice is merging it once. */
  lemma MergeIdempotent(o: SceneObject, p: Patch)
    ensures Merge(Merge(o, p), p) == Merge(o, p)
  {
  }

  /** Two successive merges are one merge of the combined partial record. */
  lemma MergeThen(o: SceneObject, p: Patch, q: Patch)
    ensures Merge(Merge(o, p), q) == Merge(o, Combine(p, q))
  {
  }

  /** A partial record with one field changes that field and no other. */
  lemma MergeSingleField(o: SceneObject, id: string, name: string, kind: ObjectType, category: Category,
                         position: Vec3, rotation: Vec3, scale: Vec3, color: string,
                         metalness: real, roughness: real, texture: string, intensity: real, castShadow: bool)
    ensures Merge(o, NoChanges.(id := Some(id))) == o.(id := id)
    ensures Merge(o, NoChanges.(name := Some(name))) == o.(name := name)
    ensures Merge(o, NoChanges.(kind := Some(kind))) == o.(kind := kind)
    ensures Merge(o, NoChanges.(category := Some(category))) == o.(category := category)
    ensures Merge(o, NoChanges.(position := Some(position))) == o.(position := position)
    ensures Merge(o, NoChanges.(rotation := Some(rotation))) == o.(rotation := rotation)
    ensures Merge(o, NoChanges.(scale := Some(scale))) == o.(scale := scale)
    ensures Merge(o, NoChanges.(color := Some(color))) == o.(color := color)
    ensures Merge(o, NoChanges.(metalness := Some(metalness))) == o.(metalness := metalness)
    ensures Merge(o, NoChanges.(roughness := Some(roughness))) == o.(roughness := roughness)
    ensures Merge(o, NoChanges.(texture := Some(texture))) == o.(texture := Some(texture))
    ensures Merge(o, NoChanges.(intensity := Some(intensity))) == o.(intensity := Some(intensity))
    ensures Merge(o, NoChanges.(castShadow := Some(castShadow))) == o.(castShadow := Some(castShadow))
  {
  }

  /** `objects.map(obj => obj.id === id ? { ...obj, ...p } : obj)`. */
  function UpdateWhere(s: seq<SceneObject>, id: string, p: Patch): (r: seq<SceneObject>)
    ensures |r| == |s|
    ensures forall i :: 0 <= i < |s| ==> r[i] == (if s[i].id == id then Merge(s[i], p) else s[i])
  {
    if s == [] then []
    else [if s[0].id == id then Merge(s[0], p) else s[0]] + UpdateWhere(s[1..], id, p)
  }

  /** Updating an identifier no object carries leaves the list as it was. */
  lemma UpdateWhereAbsent(s: seq<SceneObject>, id: string, p: Patch)
    requires !HasId(s, ObjectId, id)
    ensures UpdateWhere(s, id, p) == s
  {
    var r := UpdateWhere(s, id, p);
    forall i | 0 <= i < |s| ensures r[i] == s[i] {
      assert s[i] in s && ObjectId(s[i]) == s[i].id;
    }
  }

  /**
   * A partial record without an `id` keeps every object's identifier where it
   * was, so identifier-based facts (selection present, distinct ids) survive.
   */
  lemma UpdateWhereKeepsIds(s: seq<SceneObject>, id: string, p: Patch)
    requires p.id.None?
    ensures forall i :: 0 <= i < |s| ==> UpdateWhere(s, id, p)[i].id == s[i].id
    ensures forall x :: HasId(UpdateWhere(s, id, p), ObjectId, x) <==> HasId(s, ObjectId, x)
    ensures Distinct(s, ObjectId) ==> Distinct(UpdateWhere(s, id, p), ObjectId)
  {
    var r := UpdateWhere(s, id, p);
    forall x ensures HasId(r, ObjectId, x) <==> HasId(s, ObjectId, x) {
      if HasId(r, ObjectId, x) {
        var o :| o in r && ObjectId(o) == x;
        var i :| 0 <= i < |r| && r[i] == o;
        assert s[i] in s && ObjectId(s[i]) == x;
      }
      if HasId(s, ObjectId, x) {
        var o :| o in s && ObjectId(o) == x;
        var i :| 0 <= i < |s| && s[i] == o;
        assert r[i] in r && ObjectId(r[i]) == x;
      }
    }
  }

  /** The default display name: the type with its first character upper-cased. */
  function DisplayName(t: ObjectType): string {
    Capitalize(t.Literal())
  }

  lemma DisplayNames()
    ensures DisplayName(Cube) == "Cube" && DisplayName(Sphere) == "Sphere"
    ensures DisplayName(Cylinder) == "Cylinder" && DisplayName(Plane) == "Plane"
    ensures DisplayName(Cone) == "Cone" && DisplayName(Torus) == "Torus"
    ensures DisplayName(Capsule) == "Capsule" && DisplayName(Pyramid) == "Pyramid"
    ensures DisplayName(Tree) == "Tree" && DisplayName(Grass) == "Grass"
    ensures DisplayName(Rock) == "Rock" && DisplayName(Water) == "Water"
    ensures DisplayName(Cloud) == "Cloud" && DisplayName(Chair) == "Chair"
    ensures DisplayName(Table) == "Table" && DisplayName(Directional) == "Directional"
    ensures DisplayName(Point) == "Point" && DisplayName(Spot) == "Spot"
    ensures DisplayName(Ambient) == "Ambient"
  {
  }

  const DefaultColor := "#8b5cf6"
  const LightColor := "#ffffff"

  /** The record every new object starts from. */
  function BaseObject(t: ObjectType, c: Category, id: string): SceneObject {
    SceneObject(id, DisplayName(t), t, c,
      Vec3(0.0, 0.0, 0.0), Vec3(0.0, 0.0, 0.0), Vec3(1.0, 1.0, 1.0),
      DefaultColor, 0.5, 0.5, None, None, Some(true))
  }

  /** The overlay for category `light`. */
  const LightOverlay := NoChanges.(intensity := Some(1.0), color := Some(LightColor))

  /** The `envDefaults` table: `None` for a type the table does not list. */
  function EnvDefaults(t: ObjectType): Option<Patch> {
    match t
    case Tree => Some(NoChanges.(color := Some("#2d5016"), scale := Some(Vec3(1.0, 2.0, 1.0))))
    case Grass => Some(NoChanges.(color := Some("#4ade80"), scale := Some(Vec3(5.0, 0.1, 5.0)),
                                  position := Some(Vec3(0.0, 0.0, 0.0))))
    case Rock => Some(NoChanges.(color := Some("#6b7280"), metalness := Some(0.1), roughness := Some(0.9)))
    case Water => Some(NoChanges.(color := Some("#0ea5e9"), metalness := Some(0.9), roughness := Some(0.1),
                                  scale := Some(Vec3(10.0, 0.1, 10.0))))
    case Cloud => Some(NoChanges.(color := Some("#ffffff"), metalness := Some(0.0), roughness := Some(1.0),
                                  position := Some(Vec3(0.0, 5.0, 0.0))))
    case Chair => Some(NoChanges.(color := Some("#8b5cf6")))
    case Table => Some(NoChanges.(color := Some("#78350f"), scale := Some(Vec3(2.0, 0.1, 1.0))))
    case _ => None
  }

  /**
   * `createDefaultObject(type, category)` with the generated identifier `id`.
   * Any pairing of type and category is accepted, as in the source.
   */
  function CreateDefaultObject(t: ObjectType, c: Category, id: string): (r: SceneObject)
    ensures r.id == id && r.kind == t && r.category == c && r.name == DisplayName(t)
    ensures r.rotation == Vec3(0.0, 0.0, 0.0) && r.texture == None && r.castShadow == Some(true)
    ensures c == Primitive ==> r == BaseObject(t, c, id)
    ensures c == Light ==> r == BaseObject(t, c, id).(intensity := Some(1.0), color := "#ffffff")
    ensures r.intensity == (if c == Light then Some(1.0) else None)
    ensures c != Environment || t.DeclaredCategory() != Environment ==>
      r.position == Vec3(0.0, 0.0, 0.0) && r.scale == Vec3(1.0, 1.0, 1.0) &&
      r.metalness == 0.5 && r.roughness == 0.5
  {
    var base := BaseObject(t, c, id);
    if c == Light then Merge(base, LightOverlay)
    else if c == Environment then
      match EnvDefaults(t)
      case Some(overrides) => Merge(base, overrides)
      case None => base
    else base
  }

  /** The environment table, row by row; unlisted fields keep their base values. */
  lemma EnvironmentDefaults(t: ObjectType, id: string)
    ensures var base := BaseObject(t, Environment, id);
      var r := CreateDefaultObject(t, Environment, id);
      && (t == Tree ==> r == base.(color := "#2d5016", scale := Vec3(1.0, 2.0, 1.0)))
      && (t == Grass ==> r == base.(color := "#4ade80", scale := Vec3(5.0, 0.1, 5.0)))
      && (t == Rock ==> r == base.(color := "#6b7280", metalness := 0.1, roughness := 0.9))
      && (t == Water ==> r == base.(color := "#0ea5e9", metalness := 0.9, roughness := 0.1,
                                    scale := Vec3(10.0, 0.1, 10.0)))
      && (t == Cloud ==> r == base.(color := "#ffffff", metalness := 0.0, roughness := 1.0,
                                    position := Vec3(0.0, 5.0, 0.0)))
      && (t == Chair ==> r == base)
      && (t == Table ==> r == base.(color := "#78350f", scale := Vec3(2.0, 0.1, 1.0)))
      && (t.DeclaredCategory() != Environment ==> r == base)
  {
  }

  /**
   * `duplicateObject`'s copy: a new identifier, " Copy" appended to the name,
   * one unit along the first axis, and every other field as in `o`.
   */
  function CopyOf(o: SceneObject, newId: string): (r: SceneObject)
    ensures r.id == newId && r.name == o.name + " Copy"
    ensures r.position == Vec3(o.position.x + 1.0, o.position.y, o.position.z)
    ensures r.(id := o.id, name := o.name, position := o.position) == o
  {
    o.(id := newId, name := o.name + " Copy",
       position := Vec3(o.position.x + 1.0, o.position.y, o.position.z))
  }
}

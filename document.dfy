/**
 * The scene document: the parsed JSON object a scene file holds, the four
 * persisted fields the editor reads from it (with their defaults), the
 * attribute hooks of the Scene class that route those four names to the
 * document, and the JSON shape of a scene object.
 */
module Document {

  import opened Wrappers
  import opened Graphics

  /** A parsed JSON value (numbers restricted to integers). */
  datatype Value =
    | Null
    | Bool(b: bool)
    | Int(i: int)
    | Str(s: string)
    | Arr(items: seq<Value>)
    | Obj(members: map<string, Value>)

  /** A scene document: the top-level JSON object of a scene file. */
  type Doc = map<string, Value>

  /** One placed sprite: its image file name and the canvas position of its top-left corner. */
  datatype SceneObject = SceneObject(sprite: string, pos: Point)

  /** The names the Scene class keeps in its document rather than on itself. */
  const PersistedFields: set<string> := {"resolution", "scale", "objects", "background"}

  /** The class-level defaults read when the document lacks a persisted field. */
  function Default(name: string): Value
    requires name in PersistedFields
  {
    if name == "resolution" then Arr([Int(800), Int(600)])
    else if name == "scale" then Int(1)
    else if name == "objects" then Arr([])
    else Str("black")
  }

  /** The document's value for a persisted field, or its default when the field is unset. */
  function Field(doc: Doc, name: string): Value
    requires name in PersistedFields
  {
    if name in doc then doc[name] else Default(name)
  }

  // ---------------------------------------------------------------------
  // Attribute hooks

  /**
   * A Scene instance as its attribute hooks see it: the scene document and
   * the ordinary instance attributes (the source's __dict__).
   */
  datatype Instance = Instance(doc: Doc, attrs: map<string, Value>)

  datatype AttrError = MissingAttribute(name: string)

  /**
   * Reading an attribute: a persisted name reads the document with its
   * default as fallback (the default is not written back); any other name
   * is an instance attribute, and a missing one is an error.
   */
  function GetAttr(inst: Instance, name: string): (r: Result<Value, AttrError>)
    ensures name in PersistedFields ==> r.Success?
    ensures name !in PersistedFields ==> (r.Success? <==> name in inst.attrs)
    ensures r.Failure? ==> r.error == MissingAttribute(name)
  {
    if name in PersistedFields then Success(Field(inst.doc, name))
    else if name in inst.attrs then Success(inst.attrs[name])
    else Failure(MissingAttribute(name))
  }

  /** Assigning an attribute: persisted names go into the document, the others onto the instance. */
  function SetAttr(inst: Instance, name: string, v: Value): (r: Instance)
    ensures name in PersistedFields ==> r.attrs == inst.attrs && r.doc.Keys == inst.doc.Keys + {name}
    ensures name !in PersistedFields ==> r.doc == inst.doc && r.attrs.Keys == inst.attrs.Keys + {name}
  {
    if name in PersistedFields then inst.(doc := inst.doc[name := v])
    else inst.(attrs := inst.attrs[name := v])
  }

  /** On a fresh (empty) document every persisted field reads as its documented default. */
  lemma DefaultsOfEmptyDocument(attrs: map<string, Value>)
    ensures GetAttr(Instance(map[], attrs), "resolution") == Success(Arr([Int(800), Int(600)]))
    ensures GetAttr(Instance(map[], attrs), "scale") == Success(Int(1))
    ensures GetAttr(Instance(map[], attrs), "objects") == Success(Arr([]))
    ensures GetAttr(Instance(map[], attrs), "background") == Success(Str("black"))
  {
  }

  /** An unset persisted field reads as its default, whatever the instance attributes hold. */
  lemma UnsetFieldReadsDefault(inst: Instance, name: string)
    requires name in PersistedFields && name !in inst.doc
    ensures GetAttr(inst, name) == Success(Default(name))
  {
  }

  /** A value assigned to an attribute is what the next read of that name returns. */
  lemma GetAfterSet(inst: Instance, name: string, v: Value)
    ensures GetAttr(SetAttr(inst, name, v), name) == Success(v)
  {
  }

  /** Assigning one name leaves every other name reading as before. */
  lemma SetLeavesOthers(inst: Instance, name: string, other: string, v: Value)
    requires other != name
    ensures GetAttr(SetAttr(inst, name, v), other) == GetAttr(inst, other)
  {
  }

  // ---------------------------------------------------------------------
  // JSON shape of the fields the editor computes with

  function AsInt(v: Value): Option<int>
  {
    if v.Int? then Some(v.i) else None
  }

  /** A position: a two-element array of integers. */
  function AsPoint(v: Value): Option<Point>
  {
    if v.Arr? && |v.items| == 2 && v.items[0].Int? && v.items[1].Int?
    then Some(Point(v.items[0].i, v.items[1].i))
    else None
  }

  function EncodePoint(p: Point): Value
  {
    Arr([Int(p.x), Int(p.y)])
  }

  /** A scene object: `[spriteName, [x, y]]`. */
  function AsObject(v: Value): Option<SceneObject>
  {
    if v.Arr? && |v.items| == 2 && v.items[0].Str? && AsPoint(v.items[1]).Some?
    then Some(SceneObject(v.items[0].s, AsPoint(v.items[1]).value))
    else None
  }

  function EncodeObject(o: SceneObject): Value
  {
    Arr([Str(o.sprite), EncodePoint(o.pos)])
  }

  /** Decodes every element of a JSON array as a scene object, or fails if one does not decode. */
  function AsObjectList(items: seq<Value>): (r: Option<seq<SceneObject>>)
    ensures r.Some? ==> |r.value| == |items|
  {
    if items == [] then Some([])
    else
      match (AsObject(items[0]), AsObjectList(items[1..]))
      case (Some(o), Some(rest)) => Some([o] + rest)
      case _ => None
  }

  function EncodeObjectList(objs: seq<SceneObject>): (r: seq<Value>)
    ensures |r| == |objs|
  {
    if objs == [] then [] else [EncodeObject(objs[0])] + EncodeObjectList(objs[1..])
  }

  function AsObjects(v: Value): Option<seq<SceneObject>>
  {
    if v.Arr? then AsObjectList(v.items) else None
  }

  function EncodeObjects(objs: seq<SceneObject>): Value
  {
    Arr(EncodeObjectList(objs))
  }

  /** Writing an object list into the document and reading it back gives the same list. */
  lemma {:induction false} ObjectsRoundTrip(objs: seq<SceneObject>)
    ensures AsObjects(EncodeObjects(objs)) == Some(objs)
  {
    if objs != [] {
      ObjectsRoundTrip(objs[1..]);
      assert EncodeObjectList(objs)[1..] == EncodeObjectList(objs[1..]);
      assert [objs[0]] + objs[1..] == objs;
    }
  }

  /** A well-formed object array is exactly the encoding of what it decodes to. */
  lemma {:induction false} ObjectListEncodesBack(items: seq<Value>)
    requires AsObjectList(items).Some?
    ensures EncodeObjectList(AsObjectList(items).value) == items
  {
    if items != [] {
      ObjectListEncodesBack(items[1..]);
      var objs := AsObjectList(items).value;
      assert objs[1..] == AsObjectList(items[1..]).value;
      var p := items[0].items[1];
      assert p.items == [Int(p.items[0].i), Int(p.items[1].i)];
      assert items[0].items == [Str(items[0].items[0].s), p];
      assert EncodeObject(objs[0]) == items[0];
      assert [items[0]] + items[1..] == items;
    }
  }

  // ---------------------------------------------------------------------
  // The typed view of a document

  /** The document's `scale` and `objects` have the shapes the editor works with. */
  predicate WellFormed(doc: Doc)
  {
    AsInt(Field(doc, "scale")).Some? && AsObjects(Field(doc, "objects")).Some?
  }

  function ScaleOf(doc: Doc): int
    requires WellFormed(doc)
  {
    AsInt(Field(doc, "scale")).value
  }

  function ObjectsOf(doc: Doc): seq<SceneObject>
    requires WellFormed(doc)
  {
    AsObjects(Field(doc, "objects")).value
  }

  /**
   * The typed view agrees with the attribute hooks: reading `objects` or
   * `scale` through GetAttr yields the encoding of the decoded field, also
   * when the document leaves the field unset.
   */
  lemma TypedViewMatchesGetAttr(doc: Doc, attrs: map<string, Value>)
    requires WellFormed(doc)
    ensures GetAttr(Instance(doc, attrs), "objects") == Success(EncodeObjects(ObjectsOf(doc)))
    ensures GetAttr(Instance(doc, attrs), "scale") == Success(Int(ScaleOf(doc)))
  {
    var v := Field(doc, "objects");
    ObjectListEncodesBack(v.items);
  }

  /** Storing an object list under "objects" keeps the document well formed and changes only that field. */
  lemma StoreObjects(doc: Doc, objs: seq<SceneObject>)
    requires WellFormed(doc)
    ensures WellFormed(doc["objects" := EncodeObjects(objs)])
    ensures ObjectsOf(doc["objects" := EncodeObjects(objs)]) == objs
    ensures ScaleOf(doc["objects" := EncodeObjects(objs)]) == ScaleOf(doc)
  {
    ObjectsRoundTrip(objs);
  }
}

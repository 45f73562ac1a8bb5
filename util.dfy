/**
  Response serialisation: `json.dumps(body, default=to_serializable)` with
  the default hook of arsa/util.py.

  JSON is modelled as a tree rather than as text.  The hook turns a model
  instance into its attribute mapping and any other non-JSON object into
  its `str()`.
 */
module ArsaUtil {
  import opened ArsaModel

  datatype Json =
    | JNull
    | JBool(b: bool)
    | JInt(i: int)
    | JFloat(r: real)
    | JStr(s: string)
    | JArray(items: seq<Json>)
    | JObject(members: map<string, Json>)

  /** The values `json.dumps` encodes without calling the default hook. */
  predicate JsonNative(v: Value)
  {
    !v.Instance? && !v.PyObject?
  }

  /**
    `to_serializable`: a model instance becomes its attribute mapping, any
    other object its `str()`.  `json.dumps` calls it only for values it
    cannot encode itself.
   */
  function ToSerializable(v: Value): (r: Value)
    requires !JsonNative(v)
    ensures v.Instance? ==> r == Dict(v.attributes)
    ensures v.PyObject? ==> r == Str(v.repr)
    ensures JsonNative(r)
  {
    match v
    case Instance(_, attributes) => Dict(attributes)
    case PyObject(repr) => Str(repr)
  }

  /** `json.dumps(v, default=to_serializable)`, as a JSON tree. */
  function Dumps(v: Value): (j: Json)
    decreases v
    ensures v.List? ==> j.JArray? && |j.items| == |v.items|
    ensures v.Dict? ==> j.JObject? && j.members.Keys == v.entries.Keys
    ensures v.Instance? ==> j.JObject? && j.members.Keys == v.attributes.Keys
    ensures v.PyObject? ==> j == JStr(v.repr)
  {
    match v
    case Str(s) => JStr(s)
    case Int(i) => JInt(i)
    case Float(r) => JFloat(r)
    case Bool(b) => JBool(b)
    case NoneValue => JNull
    case List(items) => JArray(seq(|items|, i requires 0 <= i < |items| => Dumps(items[i])))
    case Dict(entries) => JObject(map k | k in entries :: Dumps(entries[k]))
    case Instance(_, attributes) => JObject(map k | k in attributes :: Dumps(attributes[k]))
    case PyObject(repr) => JStr(repr)
  }

  /** `json.loads`, from a JSON tree back to the Python value. */
  function FromJson(j: Json): Value
  {
    match j
    case JNull => NoneValue
    case JBool(b) => Bool(b)
    case JInt(i) => Int(i)
    case JFloat(r) => Float(r)
    case JStr(s) => Str(s)
    case JArray(items) => List(seq(|items|, i requires 0 <= i < |items| => FromJson(items[i])))
    case JObject(members) => Dict(map k | k in members :: FromJson(members[k]))
  }

  /** A value made only of JSON-native parts, at every depth. */
  predicate Plain(v: Value)
    decreases v
  {
    match v
    case List(items) => forall i :: 0 <= i < |items| ==> Plain(items[i])
    case Dict(entries) => forall k :: k in entries ==> Plain(entries[k])
    case Instance(_, _) => false
    case PyObject(_) => false
    case _ => true
  }

  // ---------------------------------------------------------------------------
  // Properties

  /** A value `json.dumps` cannot encode is encoded as whatever the hook returns for it. */
  lemma DumpsUsesDefaultHook(v: Value)
    requires !JsonNative(v)
    ensures Dumps(v) == Dumps(ToSerializable(v))
  {
  }

  /** Encoding a plain value and decoding it again gives the value back. */
  lemma {:induction false} PlainRoundTrip(v: Value)
    requires Plain(v)
    ensures FromJson(Dumps(v)) == v
    decreases v
  {
    match v
    case List(items) =>
      var js := seq(|items|, i requires 0 <= i < |items| => Dumps(items[i]));
      assert Dumps(v) == JArray(js);
      forall i | 0 <= i < |items| ensures FromJson(js[i]) == items[i] {
        PlainRoundTrip(items[i]);
      }
      assert FromJson(Dumps(v)).items == items;
    case Dict(entries) =>
      var js := map k | k in entries :: Dumps(entries[k]);
      assert Dumps(v) == JObject(js);
      forall k | k in entries ensures FromJson(js[k]) == entries[k] {
        PlainRoundTrip(entries[k]);
      }
      assert FromJson(Dumps(v)).entries == entries;
    case _ =>
  }

  /**
    A model instance with plain fields is encoded as the JSON object of its
    fields, and decoding that object gives its field mapping back, from
    which the model (or another with the same fields) can be rebuilt.
   */
  lemma InstanceRoundTrip(cls: ModelClass, attributes: map<string, Value>)
    requires forall k :: k in attributes ==> Plain(attributes[k])
    ensures FromJson(Dumps(Instance(cls, attributes))) == Dict(attributes)
    ensures NewInstance(cls, FromJson(Dumps(Instance(cls, attributes))).entries) == Instance(cls, attributes)
  {
    assert Plain(Dict(attributes));
    PlainRoundTrip(Dict(attributes));
    assert Dumps(Instance(cls, attributes)) == Dumps(Dict(attributes));
  }

  /** `class SampleModel(Model): name = Attribute(str); phone = Attribute(str, optional=True)`. */
  function SampleModel(): ModelClass
  {
    ModelClass("SampleModel", [AttrMember("name", Attribute(Primitive(StrType), false)),
                               AttrMember("phone", Attribute(Primitive(StrType), true))])
  }

  /** `class ComplexTestModel(Model): test = Attribute(SampleModel)` of the serialisation tests. */
  function ComplexSampleModel(): ModelClass
  {
    ModelClass("ComplexTestModel", [AttrMember("test", Attribute(Nested(SampleModel()), false))])
  }

  /** The serialisation tests: a flat model, and a model holding a mapping under a nested field. */
  lemma SerializeScenarios()
    ensures Dumps(NewInstance(SampleModel(), map["name" := Str("Foo"), "phone" := Str("1234567890")]))
            == JObject(map["name" := JStr("Foo"), "phone" := JStr("1234567890")])
    ensures Dumps(NewInstance(ComplexSampleModel(),
                              map["test" := Dict(map["name" := Str("Foo"), "phone" := Str("1234567890")])]))
            == JObject(map["test" := JObject(map["name" := JStr("Foo"), "phone" := JStr("1234567890")])])
  {
    var inner := map["name" := Str("Foo"), "phone" := Str("1234567890")];
    var innerJson := map["name" := JStr("Foo"), "phone" := JStr("1234567890")];
    assert Dumps(Dict(inner)) == JObject(innerJson);
    assert Dumps(Instance(SampleModel(), inner)) == JObject(innerJson);
    assert Dumps(Instance(ComplexSampleModel(), map["test" := Dict(inner)])) == JObject(map["test" := JObject(innerJson)]);
  }

  /** `BarModel(**FooModel(name='bar').attributes)` keeps the field. */
  lemma AttributesCarryOver()
    ensures var foo := NewInstance(ModelClass("FooModel", [AttrMember("name", Attribute(Primitive(StrType), false))]),
                                   map["name" := Str("bar")]);
            var bar := NewInstance(ModelClass("BarModel", [AttrMember("name", Attribute(Primitive(StrType), false))]),
                                   foo.attributes);
            foo.attributes["name"] == Str("bar") && bar.attributes["name"] == Str("bar")
  {
  }
}

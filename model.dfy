/**
  The schema engine of arsa/model.py.

  An `Attribute` pairs a type descriptor with an optional flag.  A model
  class is the list of its members; `GetProperties` picks out the members
  that are attributes, in the order `inspect.getmembers` lists them (sorted
  by name).  `ValidArguments` walks a property table against an argument
  mapping, fail-fast, recursing into nested models.

  Python's runtime type objects become the closed descriptor `AttrType`, and
  the raw arguments (decoded JSON, path variables, model instances, other
  Python objects) become the recursive `Value`.
 */
module ArsaModel {
  import opened Wrappers
  import opened Text

  /** The primitive Python types a condition may name. */
  datatype Kind = StrType | IntType | FloatType | BoolType | ListType | DictType

  /** What an attribute's `attr_type` may be. */
  datatype AttrType =
    | Primitive(kind: Kind)
    | Nested(model: ModelClass)
    | ListOf(elem: AttrType)

  /** `Attribute(attr_type, optional=False)`. */
  datatype Attribute = Attribute(attrType: AttrType, optional: bool)

  /** A member of a model class: an `Attribute`, or anything else (a method, a constant, ...). */
  datatype Member =
    | AttrMember(name: string, attr: Attribute)
    | OtherMember(name: string)

  /** A subclass of `Model`: its name and all its members, inherited ones included. */
  datatype ModelClass = ModelClass(name: string, members: seq<Member>)

  /** One entry of a property (or condition) table: `name -> Attribute`. */
  datatype Prop = Prop(name: string, attr: Attribute)

  /** A Python value as the core sees it. */
  datatype Value =
    | Str(s: string)
    | Int(i: int)
    | Float(r: real)
    | Bool(b: bool)
    | NoneValue
    | List(items: seq<Value>)
    | Dict(entries: map<string, Value>)
    | Instance(cls: ModelClass, attributes: map<string, Value>)  // a model instance and its field mapping
    | PyObject(repr: string)                                      // any other object, known by its str()

  /**
    `Model(**kwargs)`: a model instance storing the given field mapping.
    The constructor is not part of model.py; its callers (util.py, routes.py,
    the tests) use it this way.
   */
  function NewInstance(cls: ModelClass, kwargs: map<string, Value>): (v: Value)
    ensures v.Instance? && v.cls == cls && v.attributes == kwargs
  {
    Instance(cls, kwargs)
  }

  // ---------------------------------------------------------------------------
  // Sizes, used only to show that the recursive walk terminates

  function TypeSize(t: AttrType): (n: nat)
    ensures n >= 1
  {
    match t
    case Primitive(_) => 1
    case Nested(cls) => 1 + MembersSize(cls.members)
    case ListOf(e) => 1 + TypeSize(e)
  }

  function MembersSize(ms: seq<Member>): nat
  {
    if ms == [] then 0
    else (match ms[0] case AttrMember(_, a) => TypeSize(a.attrType) case OtherMember(_) => 0) + MembersSize(ms[1..])
  }

  function PropsSize(ps: seq<Prop>): nat
  {
    if ps == [] then 0 else TypeSize(ps[0].attr.attrType) + PropsSize(ps[1..])
  }

  // ---------------------------------------------------------------------------
  // Model._get_properties

  /** The members that are `Attribute` instances, as name/attribute entries, in member order. */
  function AttributeMembers(ms: seq<Member>): (ps: seq<Prop>)
    ensures PropsSize(ps) == MembersSize(ms)
    ensures forall p :: p in ps <==> exists i :: 0 <= i < |ms| && ms[i] == AttrMember(p.name, p.attr)
  {
    if ms == [] then []
    else
      var rest := AttributeMembers(ms[1..]);
      assert forall i :: 0 < i < |ms| ==> ms[i] == ms[1..][i - 1];
      match ms[0]
      case AttrMember(n, a) => [Prop(n, a)] + rest
      case OtherMember(_) => rest
  }

  predicate SortedByName(ps: seq<Prop>)
  {
    forall i, j :: 0 <= i < j < |ps| ==> LexLeq(ps[i].name, ps[j].name)
  }

  function InsertByName(p: Prop, ps: seq<Prop>): (r: seq<Prop>)
    requires SortedByName(ps)
    ensures SortedByName(r)
    ensures multiset(r) == multiset(ps) + multiset{p}
    ensures PropsSize(r) == TypeSize(p.attr.attrType) + PropsSize(ps)
  {
    if ps == [] then [p]
    else if LexLeq(p.name, ps[0].name) then
      forall q | q in ps ensures LexLeq(p.name, q.name) {
        if q != ps[0] {
          LexLeqTransitive(p.name, ps[0].name, q.name);
        }
      }
      SortedCons(p, ps);
      PropsSizeCons(p, ps);
      [p] + ps
    else
      LexLeqTotal(p.name, ps[0].name);
      var rest := InsertByName(p, ps[1..]);
      HeadBelowInserted(p, ps, rest);
      SortedCons(ps[0], rest);
      PropsSizeCons(ps[0], rest);
      assert ps == [ps[0]] + ps[1..];
      [ps[0]] + rest
  }

  lemma SortedCons(p: Prop, ps: seq<Prop>)
    requires SortedByName(ps) && forall q :: q in ps ==> LexLeq(p.name, q.name)
    ensures SortedByName([p] + ps)
  {
    forall i, j | 0 <= i < j < |[p] + ps| ensures LexLeq(([p] + ps)[i].name, ([p] + ps)[j].name) {
      assert ([p] + ps)[j] == ps[j - 1];
      if i > 0 {
        assert ([p] + ps)[i] == ps[i - 1];
      }
    }
  }

  lemma PropsSizeCons(p: Prop, ps: seq<Prop>)
    ensures PropsSize([p] + ps) == TypeSize(p.attr.attrType) + PropsSize(ps)
  {
    assert ([p] + ps)[1..] == ps;
  }

  /** Every entry of a sorted table after its head, and a new entry above the head, stay above the head. */
  lemma HeadBelowInserted(p: Prop, ps: seq<Prop>, rest: seq<Prop>)
    requires SortedByName(ps) && ps != [] && LexLeq(ps[0].name, p.name)
    requires multiset(rest) == multiset(ps[1..]) + multiset{p}
    ensures forall q :: q in rest ==> LexLeq(ps[0].name, q.name)
  {
    forall q | q in rest ensures LexLeq(ps[0].name, q.name) {
      assert q in multiset(rest);
      if q != p {
        assert q in multiset(ps[1..]);
        var j :| 0 <= j < |ps[1..]| && ps[1..][j] == q;
        assert ps[j + 1] == q;
      }
    }
  }

  /** Insertion sort by name; Python's `sort` in `getmembers`. */
  function SortByName(ps: seq<Prop>): (r: seq<Prop>)
    ensures SortedByName(r)
    ensures multiset(r) == multiset(ps)
    ensures PropsSize(r) == PropsSize(ps)
  {
    if ps == [] then []
    else
      assert ps == [ps[0]] + ps[1..];
      InsertByName(ps[0], SortByName(ps[1..]))
  }

  /**
    `Model._get_properties`: the `Attribute` members of the class keyed by
    member name, in the order `getmembers` yields them (sorted by name).
   */
  function GetProperties(cls: ModelClass): (props: seq<Prop>)
    ensures SortedByName(props)
    ensures forall p :: p in props <==> exists i :: 0 <= i < |cls.members| && cls.members[i] == AttrMember(p.name, p.attr)
    ensures PropsSize(props) == MembersSize(cls.members)
  {
    var attrs := AttributeMembers(cls.members);
    var props := SortByName(attrs);
    assert forall p :: p in props <==> p in attrs by {
      forall p ensures p in props <==> p in attrs {
        assert p in props <==> p in multiset(props);
        assert p in attrs <==> p in multiset(attrs);
      }
    }
    props
  }

  // ---------------------------------------------------------------------------
  // valid_arguments

  /** Python's `isinstance(v, k)` for the primitive kinds; `bool` is a subclass of `int`. */
  predicate IsInstance(v: Value, k: Kind): (b: bool)
    ensures v.Bool? ==> (b <==> k == IntType || k == BoolType)
    ensures v.Int? ==> (b <==> k == IntType)
    ensures b ==> !v.NoneValue? && !v.Instance? && !v.PyObject?
  {
    match k
    case StrType => v.Str?
    case IntType => v.Int? || v.Bool?
    case FloatType => v.Float?
    case BoolType => v.Bool?
    case ListType => v.List?
    case DictType => v.Dict?
  }

  /** How Python prints a condition type in an error message. */
  function TypeRepr(t: AttrType): string
  {
    match t
    case Primitive(StrType) => "<class 'str'>"
    case Primitive(IntType) => "<class 'int'>"
    case Primitive(FloatType) => "<class 'float'>"
    case Primitive(BoolType) => "<class 'bool'>"
    case Primitive(ListType) => "<class 'list'>"
    case Primitive(DictType) => "<class 'dict'>"
    case Nested(cls) => "<class '" + cls.name + "'>"
    case ListOf(_) => "<class 'list'>"
  }

  /**
    Why validation stopped.  `NotDetected` and `NotOfType` are the two
    `ArgumentKeyError`s raised by model.py; `NotAMapping(key)` stands for
    the Python `TypeError` raised when a nested model's attribute `key` is
    tested for or looked up in a value that is not a dict, which is not an
    `ArgumentKeyError`.
   */
  datatype ArgError =
    | NotDetected(key: string)
    | NotOfType(key: string, expected: AttrType)
    | NotAMapping(key: string)
  {
    predicate IsArgumentKeyError() { !NotAMapping? }

    /** `str(key_error)`: it names the key. */
    function Message(): (m: string)
      ensures "argument " + key <= m
    {
      match this
      case NotDetected(k) => "argument " + k + " was not detected."
      case NotOfType(k, t) => "argument " + k + " was not of the type " + TypeRepr(t)
      case NotAMapping(k) => "argument " + k + " is not a mapping"
    }
  }

  datatype Check = Pass | Fail(error: ArgError)

  /** `valid_argument(name, argument, condition)`. */
  function ValidArgument(name: string, argument: Value, condition: AttrType): (r: Check)
    decreases TypeSize(condition), 0
    ensures condition.ListOf? ==> (r.Pass? <==> argument.List?)
    ensures r.Fail? && !condition.Nested? ==> r.error == NotOfType(name, condition)
  {
    match condition
    case Nested(cls) =>
      if argument.Dict? then ValidArguments(argument.entries, GetProperties(cls))
      else ValidNonMapping(argument, GetProperties(cls))
    case Primitive(k) =>
      if IsInstance(argument, k) then Pass else Fail(NotOfType(name, condition))
    case ListOf(_) =>
      if argument.List? then Pass else Fail(NotOfType(name, condition))
  }

  /**
    Python's `key in container` for a value that is not a dict: a substring
    test on a str, a membership test on a list, and a `TypeError` (`None`)
    on anything that is not iterable.
   */
  function ContainsKey(container: Value, key: string): (r: Option<bool>)
    requires !container.Dict?
    ensures r.Some? <==> container.Str? || container.List?
    ensures container.Str? ==> (r == Some(true) <==> IsSubstring(key, container.s))
    ensures container.List? ==> (r == Some(true) <==> exists i :: 0 <= i < |container.items| && container.items[i] == Str(key))
  {
    match container
    case Str(s) => Some(IsSubstring(key, s))
    case List(items) => Some(Str(key) in items)
    case _ => None
  }

  /**
    `valid_arguments(argument, properties)` where `argument` is not a dict:
    an attribute that the `in` test does not find is skipped when optional
    and not detected when required; one that it finds is then looked up
    with `argument[key]`, which raises `TypeError` on a str or a list, as
    the `in` test does on anything else.
   */
  function ValidNonMapping(argument: Value, attributes: seq<Prop>): (r: Check)
    requires !argument.Dict?
    ensures r.Pass? <==>
              forall i :: 0 <= i < |attributes| ==>
                attributes[i].attr.optional && ContainsKey(argument, attributes[i].name) == Some(false)
  {
    if attributes == [] then Pass
    else
      assert forall i :: 0 < i < |attributes| ==> attributes[i] == attributes[1..][i - 1];
      match ContainsKey(argument, attributes[0].name)
      case None => Fail(NotAMapping(attributes[0].name))
      case Some(found) =>
        if found then Fail(NotAMapping(attributes[0].name))
        else if attributes[0].attr.optional then ValidNonMapping(argument, attributes[1..])
        else Fail(NotDetected(attributes[0].name))
  }

  /** The body of the loop in `valid_arguments`, for one `key, attr` entry. */
  function CheckAttribute(arguments: map<string, Value>, p: Prop): (r: Check)
    decreases TypeSize(p.attr.attrType), 1
    ensures p.name !in arguments ==> (r.Pass? <==> p.attr.optional)
    ensures p.name !in arguments && !p.attr.optional ==> r == Fail(NotDetected(p.name))
  {
    if p.attr.optional then
      (if p.name in arguments then ValidArgument(p.name, arguments[p.name], p.attr.attrType) else Pass)
    else if p.name !in arguments then Fail(NotDetected(p.name))
    else ValidArgument(p.name, arguments[p.name], p.attr.attrType)
  }

  /** `valid_arguments(arguments, attributes)`: the first failing entry, in table order, or `Pass`. */
  function ValidArguments(arguments: map<string, Value>, attributes: seq<Prop>): (r: Check)
    decreases PropsSize(attributes), 2
    ensures (forall i :: 0 <= i < |attributes| ==> attributes[i].attr.optional && attributes[i].name !in arguments) ==> r == Pass
  {
    if attributes == [] then Pass
    else
      var first := CheckAttribute(arguments, attributes[0]);
      if first.Fail? then first else ValidArguments(arguments, attributes[1..])
  }

  // ---------------------------------------------------------------------------
  // Properties of the validation walk

  /**
    Fail-fast: validation passes exactly when every entry passes, and a
    failure is the failure of the first entry that fails.
   */
  lemma {:induction false} ValidArgumentsFirstFailure(arguments: map<string, Value>, attributes: seq<Prop>)
    ensures ValidArguments(arguments, attributes).Pass? <==>
              forall i :: 0 <= i < |attributes| ==> CheckAttribute(arguments, attributes[i]).Pass?
    ensures ValidArguments(arguments, attributes).Fail? ==>
              exists i :: 0 <= i < |attributes| && CheckAttribute(arguments, attributes[i]) == ValidArguments(arguments, attributes)
                          && forall j :: 0 <= j < i ==> CheckAttribute(arguments, attributes[j]).Pass?
  {
    if attributes != [] {
      ValidArgumentsFirstFailure(arguments, attributes[1..]);
      if CheckAttribute(arguments, attributes[0]).Pass? && ValidArguments(arguments, attributes[1..]).Fail? {
        var i :| 0 <= i < |attributes[1..]| && CheckAttribute(arguments, attributes[1..][i]) == ValidArguments(arguments, attributes[1..])
                 && forall j :: 0 <= j < i ==> CheckAttribute(arguments, attributes[1..][j]).Pass?;
        assert CheckAttribute(arguments, attributes[i + 1]) == ValidArguments(arguments, attributes);
        assert forall j :: 0 <= j < i + 1 ==> CheckAttribute(arguments, attributes[j]).Pass? by {
          forall j | 0 < j < i + 1 ensures CheckAttribute(arguments, attributes[j]).Pass? {
            assert attributes[j] == attributes[1..][j - 1];
          }
        }
      }
      if ValidArguments(arguments, attributes).Pass? {
        forall i | 0 < i < |attributes| ensures CheckAttribute(arguments, attributes[i]).Pass? {
          assert attributes[i] == attributes[1..][i - 1];
        }
      }
      if forall i :: 0 <= i < |attributes| ==> CheckAttribute(arguments, attributes[i]).Pass? {
        assert forall i :: 0 <= i < |attributes[1..]| ==> CheckAttribute(arguments, attributes[1..][i]).Pass? by {
          forall i | 0 <= i < |attributes[1..]| ensures CheckAttribute(arguments, attributes[1..][i]).Pass? {
            assert attributes[1..][i] == attributes[i + 1];
          }
        }
      }
    }
  }

  /**
    A required attribute missing from the arguments makes validation fail;
    when every earlier entry passes, the failure names exactly that key.
   */
  lemma MissingRequiredFails(arguments: map<string, Value>, attributes: seq<Prop>, i: nat)
    requires i < |attributes| && !attributes[i].attr.optional && attributes[i].name !in arguments
    ensures ValidArguments(arguments, attributes).Fail?
    ensures (forall j :: 0 <= j < i ==> CheckAttribute(arguments, attributes[j]).Pass?) ==>
              ValidArguments(arguments, attributes) == Fail(NotDetected(attributes[i].name))
  {
    ValidArgumentsFirstFailure(arguments, attributes);
    if ValidArguments(arguments, attributes).Fail? && forall j :: 0 <= j < i ==> CheckAttribute(arguments, attributes[j]).Pass? {
      var k :| 0 <= k < |attributes| && CheckAttribute(arguments, attributes[k]) == ValidArguments(arguments, attributes)
               && forall j :: 0 <= j < k ==> CheckAttribute(arguments, attributes[j]).Pass?;
      assert k == i;
    }
  }

  /**
    A present value of a primitive-typed attribute that is not an instance
    of the declared type makes validation fail, whether the attribute is
    required or optional; when every earlier entry passes, the failure names
    that key and that type.
   */
  lemma WrongPrimitiveFails(arguments: map<string, Value>, attributes: seq<Prop>, i: nat)
    requires i < |attributes| && attributes[i].name in arguments
    requires attributes[i].attr.attrType.Primitive?
    requires !IsInstance(arguments[attributes[i].name], attributes[i].attr.attrType.kind)
    ensures ValidArguments(arguments, attributes).Fail?
    ensures (forall j :: 0 <= j < i ==> CheckAttribute(arguments, attributes[j]).Pass?) ==>
              ValidArguments(arguments, attributes) == Fail(NotOfType(attributes[i].name, attributes[i].attr.attrType))
  {
    ValidArgumentsFirstFailure(arguments, attributes);
    if ValidArguments(arguments, attributes).Fail? && forall j :: 0 <= j < i ==> CheckAttribute(arguments, attributes[j]).Pass? {
      var k :| 0 <= k < |attributes| && CheckAttribute(arguments, attributes[k]) == ValidArguments(arguments, attributes)
               && forall j :: 0 <= j < k ==> CheckAttribute(arguments, attributes[j]).Pass?;
      assert k == i;
    }
  }

  /**
    An optional attribute absent from the arguments never matters: the
    outcome is the same as if the entry were not in the table at all.
   */
  lemma {:induction false} OptionalAbsentIsSkipped(arguments: map<string, Value>, attributes: seq<Prop>, i: nat)
    requires i < |attributes| && attributes[i].attr.optional && attributes[i].name !in arguments
    ensures ValidArguments(arguments, attributes) == ValidArguments(arguments, attributes[..i] + attributes[i + 1..])
  {
    if i == 0 {
      assert attributes[..0] + attributes[1..] == attributes[1..];
    } else {
      OptionalAbsentIsSkipped(arguments, attributes[1..], i - 1);
      var removed := attributes[..i] + attributes[i + 1..];
      assert removed[0] == attributes[0];
      assert removed[1..] == attributes[1..][..i - 1] + attributes[1..][i..];
    }
  }

  /**
    Passing validation means: every required attribute is present, and every
    present attribute's value passes its type's check (recursively for nested
    models, so requirements hold at every depth).
   */
  lemma PassMeansEveryAttributeHolds(arguments: map<string, Value>, attributes: seq<Prop>, p: Prop)
    requires ValidArguments(arguments, attributes).Pass? && p in attributes
    ensures !p.attr.optional ==> p.name in arguments
    ensures p.name in arguments ==> ValidArgument(p.name, arguments[p.name], p.attr.attrType).Pass?
    ensures p.name in arguments && p.attr.attrType.Nested? && arguments[p.name].Dict? ==>
              ValidArguments(arguments[p.name].entries, GetProperties(p.attr.attrType.model)).Pass?
    ensures p.name in arguments && p.attr.attrType.Nested? && !arguments[p.name].Dict? ==>
              ValidNonMapping(arguments[p.name], GetProperties(p.attr.attrType.model)).Pass?
  {
    ValidArgumentsFirstFailure(arguments, attributes);
    var i :| 0 <= i < |attributes| && attributes[i] == p;
    assert CheckAttribute(arguments, attributes[i]).Pass?;
  }

  /**
    A nested-model value that is not a dict passes validation exactly when
    every attribute of the model is optional and the `in` test finds none
    of their names in it; in particular a str or a list missing the name of
    a required attribute is not detected (a 400), not a `TypeError`.
   */
  lemma {:induction false} NonMappingPassesOnlyVacuously(argument: Value, attributes: seq<Prop>)
    requires !argument.Dict?
    ensures ValidNonMapping(argument, attributes).Pass? <==>
              forall i :: 0 <= i < |attributes| ==>
                attributes[i].attr.optional && ContainsKey(argument, attributes[i].name) == Some(false)
    ensures (exists i :: 0 <= i < |attributes| && !attributes[i].attr.optional) &&
            (argument.Str? || argument.List?) &&
            (forall i :: 0 <= i < |attributes| ==> ContainsKey(argument, attributes[i].name) == Some(false)) ==>
              ValidNonMapping(argument, attributes).Fail? && ValidNonMapping(argument, attributes).error.IsArgumentKeyError()
  {
    if attributes != [] {
      NonMappingPassesOnlyVacuously(argument, attributes[1..]);
      assert forall i :: 0 < i < |attributes| ==> attributes[i] == attributes[1..][i - 1];
      if !attributes[0].attr.optional || ContainsKey(argument, attributes[0].name) != Some(false) {
        assert ValidNonMapping(argument, attributes).Fail?;
      }
    }
  }

  // ---------------------------------------------------------------------------
  // The test suite's models and scenarios

  /** `class TestModel(Model): name = Attribute(str)` (test/test_routes.py). */
  function TestModel(): ModelClass
  {
    ModelClass("TestModel", [OtherMember("_get_properties"), AttrMember("name", Attribute(Primitive(StrType), false))])
  }

  /** `class ComplexTestModel(Model): test = Attribute(TestModel)` (test/test_routes.py). */
  function ComplexTestModel(): ModelClass
  {
    ModelClass("ComplexTestModel", [OtherMember("_get_properties"), AttrMember("test", Attribute(Nested(TestModel()), false))])
  }

  /** The one property of `TestModel` is its required `name: str`. */
  lemma TestModelProperties()
    ensures GetProperties(TestModel()) == [Prop("name", Attribute(Primitive(StrType), false))]
  {
    var props := GetProperties(TestModel());
    assert Prop("name", Attribute(Primitive(StrType), false)) in props by {
      assert TestModel().members[1] == AttrMember("name", Attribute(Primitive(StrType), false));
    }
    forall p | p in props ensures p == Prop("name", Attribute(Primitive(StrType), false)) {
      var i :| 0 <= i < |TestModel().members| && TestModel().members[i] == AttrMember(p.name, p.attr);
    }
    assert PropsSize(props) == 1;
  }

  /** The one property of `ComplexTestModel` is its required `test: TestModel`. */
  lemma ComplexTestModelProperties()
    ensures GetProperties(ComplexTestModel()) == [Prop("test", Attribute(Nested(TestModel()), false))]
  {
    var props := GetProperties(ComplexTestModel());
    assert Prop("test", Attribute(Nested(TestModel()), false)) in props by {
      assert ComplexTestModel().members[1] == AttrMember("test", Attribute(Nested(TestModel()), false));
    }
    forall p | p in props ensures p == Prop("test", Attribute(Nested(TestModel()), false)) {
      var i :| 0 <= i < |ComplexTestModel().members| && ComplexTestModel().members[i] == AttrMember(p.name, p.attr);
    }
    assert PropsSize(props) == TypeSize(Nested(TestModel()));
  }

  /** A required `obj: TestModel` given `{'name': 'foobar'}` passes. */
  lemma RequiredModelScenario()
    ensures ValidArguments(map["obj" := Dict(map["name" := Str("foobar")])],
                           [Prop("obj", Attribute(Nested(TestModel()), false))]) == Pass
  {
    TestModelProperties();
  }

  /** A required `obj: ComplexTestModel` given `{'test': {'name': 'foobar'}}` passes, validating both levels. */
  lemma ComplexModelScenario()
    ensures ValidArguments(map["obj" := Dict(map["test" := Dict(map["name" := Str("foobar")])])],
                           [Prop("obj", Attribute(Nested(ComplexTestModel()), false))]) == Pass
  {
    TestModelProperties();
    ComplexTestModelProperties();
    assert ValidArguments(map["test" := Dict(map["name" := Str("foobar")])], GetProperties(ComplexTestModel())) == Pass;
  }

  /** An optional `obj: TestModel` that is present as `{}` fails on the model's own required `name`. */
  lemma OptionalModelScenario()
    ensures ValidArguments(map["obj" := Dict(map[])],
                           [Prop("obj", Attribute(Nested(TestModel()), true))]) == Fail(NotDetected("name"))
  {
    TestModelProperties();
  }

  /**
    A required `obj: TestModel` given the str `"hello"`, which does not
    contain `name`: not detected (a 400), not a `TypeError`.
   */
  lemma StrWithoutNameScenario()
    ensures ValidArgument("obj", Str("hello"), Nested(TestModel())) == Fail(NotDetected("name"))
  {
    TestModelProperties();
    var h := "hello";
    assert h[1..][1..] == h[2..];
    ShorterIsNoSuperstring("name", h[2..]);
    assert h[0] != 'n' && h[1] != 'n';
  }

  /** A string shorter than `sub` does not contain it. */
  lemma {:induction false} ShorterIsNoSuperstring(sub: string, s: string)
    requires |s| < |sub|
    ensures !IsSubstring(sub, s)
    decreases |s|
  {
    if s != [] {
      ShorterIsNoSuperstring(sub, s[1..]);
    }
  }

  /**
    A required `obj: TestModel` given the str `"my name"`, which contains
    `name`: the lookup `argument["name"]` raises `TypeError`.
   */
  lemma StrWithNameScenario()
    ensures ValidArgument("obj", Str("my name"), Nested(TestModel())) == Fail(NotAMapping("name"))
  {
    TestModelProperties();
    var m := "my name";
    assert "name" <= m[3..];
    assert m[1..][1..][1..] == m[3..];
  }

  /**
    A required `obj: TestModel` given the list `["name"]` or the int `3`: the
    lookup in the list, and the `in` test on the int, raise `TypeError`.
   */
  lemma ListAndIntScenarios()
    ensures ValidArgument("obj", List([Str("name")]), Nested(TestModel())) == Fail(NotAMapping("name"))
    ensures ValidArgument("obj", Int(3), Nested(TestModel())) == Fail(NotAMapping("name"))
  {
    TestModelProperties();
    assert List([Str("name")]).items[0] == Str("name");
  }

  /** `_get_properties` keeps the attributes, drops the other members, and orders by name. */
  lemma GetPropertiesOrdersByName()
    ensures GetProperties(ModelClass("SampleModel", [
              AttrMember("phone", Attribute(Primitive(StrType), true)),
              OtherMember("_get_properties"),
              AttrMember("name", Attribute(Primitive(StrType), false))]))
            == [Prop("name", Attribute(Primitive(StrType), false)), Prop("phone", Attribute(Primitive(StrType), true))]
  {
    var cls := ModelClass("SampleModel", [
              AttrMember("phone", Attribute(Primitive(StrType), true)),
              OtherMember("_get_properties"),
              AttrMember("name", Attribute(Primitive(StrType), false))]);
    var phone := Prop("phone", Attribute(Primitive(StrType), true));
    var name := Prop("name", Attribute(Primitive(StrType), false));
    assert AttributeMembers(cls.members[2..]) == [name];
    assert AttributeMembers(cls.members[1..]) == [name] by { assert cls.members[1..][1..] == cls.members[2..]; }
    assert AttributeMembers(cls.members) == [phone, name];
    assert SortByName([name]) == [name];
    assert !LexLeq("phone", "name");
    assert InsertByName(phone, []) == [phone];
    assert InsertByName(phone, [name]) == [name, phone];
    assert SortByName([phone, name]) == InsertByName(phone, SortByName([name]));
  }
}

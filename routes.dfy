/**
  The route record and the route registry of arsa/routes.py.

  A `Route` is keyed by its endpoint (the handler function) and carries a
  URL rule, an upper-cased method set, a mimetype and a condition table
  (an insertion-ordered `name -> Attribute` dict).  A `RouteFactory` maps
  endpoints to routes and yields them in registration order.

  The condition table is a `seq<Prop>` with distinct names; `Put` and
  `Update` are Python's `d[k] = v` and `d.update(...)` on such a table.
 */
module ArsaRoutes {
  import opened Wrappers
  import opened Text
  import opened ArsaModel

  /** A handler function: its identity and its `__name__`. */
  datatype Endpoint = Endpoint(id: nat, name: string)

  /** The `methods` argument of `set_rule`: `None`, an iterable of names, or (wrongly) one bare string. */
  datatype MethodsArg = Unspecified | Names(names: seq<string>) | BareString(s: string)

  // ---------------------------------------------------------------------------
  // The condition table

  function NamesOf(table: seq<Prop>): seq<string>
    ensures |NamesOf(table)| == |table|
    ensures forall i :: 0 <= i < |table| ==> NamesOf(table)[i] == table[i].name
  {
    if table == [] then [] else [table[0].name] + NamesOf(table[1..])
  }

  predicate DistinctNames(table: seq<Prop>)
  {
    forall i, j :: 0 <= i < j < |table| ==> table[i].name != table[j].name
  }

  /** A route's `_conditions` dict: one entry per key, in insertion order. */
  type ConditionTable = t: seq<Prop> | DistinctNames(t) witness []

  /** `table.get(key)`. */
  function Lookup(table: seq<Prop>, key: string): (r: Option<Attribute>)
    ensures r.Some? <==> exists i :: 0 <= i < |table| && table[i].name == key
    ensures r.Some? ==> Prop(key, r.value) in table
  {
    if table == [] then None
    else if table[0].name == key then Some(table[0].attr)
    else
      var r := Lookup(table[1..], key);
      assert forall i :: 0 < i < |table| ==> table[i] == table[1..][i - 1];
      r
  }

  /** The position of `key` in the table, or -1. */
  function IndexOf(table: seq<Prop>, key: string): (i: int)
    ensures -1 <= i < |table|
    ensures 0 <= i ==> table[i].name == key && forall j :: 0 <= j < i ==> table[j].name != key
    ensures i == -1 ==> forall j :: 0 <= j < |table| ==> table[j].name != key
  {
    if table == [] then -1
    else if table[0].name == key then 0
    else
      var i := IndexOf(table[1..], key);
      assert forall j :: 0 < j < |table| ==> table[j] == table[1..][j - 1];
      if i < 0 then -1 else i + 1
  }

  /** `table[p.name] = p.attr`: replace in place when the key is present, append otherwise. */
  function Put(table: seq<Prop>, p: Prop): (r: seq<Prop>)
    ensures p in r
    ensures |table| <= |r| <= |table| + 1
  {
    var i := IndexOf(table, p.name);
    if i < 0 then table + [p] else assert table[i := p][i] == p; table[i := p]
  }

  /** `table.update(upd)`: the entries of `upd` put one by one, in order. */
  function Update(table: seq<Prop>, upd: seq<Prop>): (r: seq<Prop>)
    decreases |upd|
    ensures |table| <= |r| <= |table| + |upd|
  {
    if upd == [] then table else Update(Put(table, upd[0]), upd[1..])
  }

  lemma LookupIndexOf(table: seq<Prop>, key: string)
    ensures Lookup(table, key) == if IndexOf(table, key) < 0 then None else Some(table[IndexOf(table, key)].attr)
  {
  }

  lemma PutLookup(table: seq<Prop>, p: Prop, key: string)
    ensures Lookup(Put(table, p), key) == if key == p.name then Some(p.attr) else Lookup(table, key)
  {
    LookupIndexOf(table, key);
    LookupIndexOf(Put(table, p), key);
    if key != p.name {
      PutKeepsOtherIndex(table, p, key);
    } else {
      PutFindsKey(table, p);
    }
  }

  lemma PutKeepsOtherIndex(table: seq<Prop>, p: Prop, key: string)
    requires key != p.name
    ensures IndexOf(Put(table, p), key) == IndexOf(table, key)
    ensures IndexOf(table, key) >= 0 ==> Put(table, p)[IndexOf(table, key)] == table[IndexOf(table, key)]
  {
    var r := Put(table, p);
    assert forall j :: 0 <= j < |table| ==> r[j] == table[j] || r[j] == p;
    assert forall j :: 0 <= j < |table| ==> (r[j].name == key <==> table[j].name == key);
    var a, b := IndexOf(r, key), IndexOf(table, key);
    if a >= 0 && a < |table| && b >= 0 { assert !(a < b) && !(b < a); }
  }

  lemma PutFindsKey(table: seq<Prop>, p: Prop)
    ensures IndexOf(Put(table, p), p.name) >= 0 && Put(table, p)[IndexOf(Put(table, p), p.name)] == p
  {
    var i := IndexOf(table, p.name);
    var r := Put(table, p);
    if i >= 0 {
      assert r[i].name == p.name;
      assert forall j :: 0 <= j < i ==> r[j] == table[j];
      assert IndexOf(r, p.name) == i;
    } else {
      assert r[|table|].name == p.name;
      assert forall j :: 0 <= j < |table| ==> r[j] == table[j];
      assert IndexOf(r, p.name) == |table|;
    }
  }

  /** The names `upd` adds to a table named `seen`, each once, in the order of their first appearance. */
  function NewNames(seen: seq<string>, upd: seq<Prop>): seq<string>
    decreases |upd|
  {
    if upd == [] then []
    else if upd[0].name in seen then NewNames(seen, upd[1..])
    else [upd[0].name] + NewNames(seen + [upd[0].name], upd[1..])
  }

  /** `table[p.name] = p.attr` leaves the names as they are when `p.name` is present and appends it otherwise. */
  lemma PutNames(table: seq<Prop>, p: Prop)
    ensures NamesOf(Put(table, p)) == if p.name in NamesOf(table) then NamesOf(table) else NamesOf(table) + [p.name]
  {
    PutKeepsOrder(table, p);
    var i := IndexOf(table, p.name);
    if i < 0 {
      assert p.name !in NamesOf(table);
    } else {
      assert NamesOf(table)[i] == p.name;
    }
  }

  lemma PutKeepsOrder(table: seq<Prop>, p: Prop)
    ensures NamesOf(Put(table, p)) == NamesOf(table) || NamesOf(Put(table, p)) == NamesOf(table) + [p.name]
    ensures DistinctNames(table) ==> DistinctNames(Put(table, p))
  {
    var i := IndexOf(table, p.name);
    if i < 0 {
      assert Put(table, p) == table + [p];
      assert NamesOf(table + [p]) == NamesOf(table) + [p.name];
    } else {
      assert Put(table, p) == table[i := p];
      assert forall j :: 0 <= j < |table| ==> table[i := p][j].name == table[j].name;
      assert NamesOf(table[i := p]) == NamesOf(table);
    }
  }

  /**
    `dict.update`: a key of the update takes the update's attribute, every
    other key keeps its old one.
   */
  lemma {:induction false} UpdateLookup(table: seq<Prop>, upd: seq<Prop>, key: string)
    requires DistinctNames(upd)
    decreases |upd|
    ensures Lookup(Update(table, upd), key) == if Lookup(upd, key).Some? then Lookup(upd, key) else Lookup(table, key)
  {
    if upd != [] {
      assert DistinctNames(upd[1..]) by {
        forall i, j | 0 <= i < j < |upd[1..]| ensures upd[1..][i].name != upd[1..][j].name {
          assert upd[1..][i] == upd[i + 1] && upd[1..][j] == upd[j + 1];
        }
      }
      UpdateLookup(Put(table, upd[0]), upd[1..], key);
      PutLookup(table, upd[0], key);
      if key == upd[0].name {
        assert forall i :: 0 <= i < |upd[1..]| ==> upd[1..][i].name != key by {
          forall i | 0 <= i < |upd[1..]| ensures upd[1..][i].name != key {
            assert upd[1..][i] == upd[i + 1];
          }
        }
      }
    }
  }

  /**
    `dict.update` keeps the position of every key already present and the
    keys stay distinct; new keys come after the old ones.
   */
  lemma {:induction false} UpdateKeepsOrder(table: seq<Prop>, upd: seq<Prop>)
    requires DistinctNames(table)
    ensures DistinctNames(Update(table, upd))
    ensures NamesOf(table) <= NamesOf(Update(table, upd))
    ensures NamesOf(Update(table, upd)) == NamesOf(table) + NewNames(NamesOf(table), upd)
    decreases |upd|
  {
    UpdateAppendsNewNames(table, upd);
    if upd != [] {
      PutKeepsOrder(table, upd[0]);
      UpdateKeepsOrder(Put(table, upd[0]), upd[1..]);
    }
  }

  /** After `table.update(upd)` the names are the old ones followed by the new ones, in the update's order. */
  lemma {:induction false} UpdateAppendsNewNames(table: seq<Prop>, upd: seq<Prop>)
    ensures NamesOf(Update(table, upd)) == NamesOf(table) + NewNames(NamesOf(table), upd)
    decreases |upd|
  {
    if upd != [] {
      var names, n, rest, put := NamesOf(table), upd[0].name, upd[1..], Put(table, upd[0]);
      assert Update(table, upd) == Update(put, rest);
      PutNames(table, upd[0]);
      UpdateAppendsNewNames(put, rest);
      if n in names {
        assert NewNames(names, upd) == NewNames(names, rest);
      } else {
        var later := NewNames(names + [n], rest);
        assert NewNames(names, upd) == [n] + later;
        assert names + [n] + later == names + ([n] + later);
      }
    }
  }

  /** The dict comprehension of `add_validation`: each condition wrapped with the call's one `optional` flag. */
  function AsAttributes(conds: seq<(string, AttrType)>, optional: bool): (ps: seq<Prop>)
    ensures |ps| == |conds|
    ensures forall i :: 0 <= i < |ps| ==> ps[i] == Prop(conds[i].0, Attribute(conds[i].1, optional))
  {
    seq(|conds|, i requires 0 <= i < |conds| => Prop(conds[i].0, Attribute(conds[i].1, optional)))
  }

  /** Keyword arguments have distinct names. */
  predicate DistinctKeys(conds: seq<(string, AttrType)>)
  {
    forall i, j :: 0 <= i < j < |conds| ==> conds[i].0 != conds[j].0
  }

  function KeywordType(conds: seq<(string, AttrType)>, key: string): Option<AttrType>
  {
    if conds == [] then None else if conds[0].0 == key then Some(conds[0].1) else KeywordType(conds[1..], key)
  }

  lemma {:induction false} AsAttributesLookup(conds: seq<(string, AttrType)>, optional: bool, key: string)
    ensures Lookup(AsAttributes(conds, optional), key) ==
              if KeywordType(conds, key).Some? then Some(Attribute(KeywordType(conds, key).value, optional)) else None
  {
    if conds != [] {
      AsAttributesLookup(conds[1..], optional, key);
      assert AsAttributes(conds, optional)[1..] == AsAttributes(conds[1..], optional);
    }
  }

  /** The attribute a key has after `add_validation(optional, **conds)` on `table`. */
  function AddedLookup(table: seq<Prop>, conds: seq<(string, AttrType)>, optional: bool, key: string): Option<Attribute>
  {
    if KeywordType(conds, key).Some? then Some(Attribute(KeywordType(conds, key).value, optional)) else Lookup(table, key)
  }

  // ---------------------------------------------------------------------------
  // has_valid_arguments

  /** The outcome of `has_valid_arguments`. */
  datatype Validation =
    | Accepted                  // returned True
    | Rejected(message: string) // raised BadRequest(str(key_error))
    | Raised(error: ArgError)   // any other error propagates unchanged

  /**
    `Route.has_valid_arguments`, as a function of the route's condition
    table: validation per model.py; an `ArgumentKeyError` becomes a
    `BadRequest` carrying its message.
   */
  function HasValidArguments(conditions: seq<Prop>, arguments: map<string, Value>): (r: Validation)
    ensures r.Accepted? <==> ValidArguments(arguments, conditions).Pass?
    ensures r.Rejected? <==> ValidArguments(arguments, conditions).Fail? && ValidArguments(arguments, conditions).error.IsArgumentKeyError()
    ensures r.Rejected? ==> r.message == ValidArguments(arguments, conditions).error.Message()
    ensures r.Raised? ==> r.error == ValidArguments(arguments, conditions).error && !r.error.IsArgumentKeyError()
  {
    match ValidArguments(arguments, conditions)
    case Pass => Accepted
    case Fail(e) => if e.IsArgumentKeyError() then Rejected(e.Message()) else Raised(e)
  }

  // ---------------------------------------------------------------------------
  // decode_arguments

  /**
    What `attr_type(**value)` needs: each argument whose condition is a
    model holds a mapping.  `decode_arguments` raises `TypeError` otherwise.
   */
  predicate NestedAreMappings(conditions: seq<Prop>, arguments: map<string, Value>)
  {
    forall k :: k in arguments && Lookup(conditions, k).Some? && Lookup(conditions, k).value.attrType.Nested? ==>
      arguments[k].Dict?
  }

  /**
    The new value `decode_arguments` stores under one key: a model built
    from a mapping under a model-typed condition, the single element of a
    one-element list under any other condition but a list attribute, and
    the value itself otherwise (a model-typed value that is not a mapping is
    where decoding raises instead).
   */
  function DecodeEntry(conditions: seq<Prop>, key: string, value: Value): (d: Value)
    ensures Lookup(conditions, key).None? ==> d == value
    ensures Lookup(conditions, key).Some? && Lookup(conditions, key).value.attrType.Nested? && value.Dict? ==>
              d.Instance? && d.cls == Lookup(conditions, key).value.attrType.model && d.attributes == value.entries
    ensures Lookup(conditions, key).Some? && Lookup(conditions, key).value.attrType.ListOf? ==> d == value
    ensures d != value ==> Lookup(conditions, key).Some? && (d.Instance? || (value.List? && [d] == value.items))
  {
    match Lookup(conditions, key)
    case None => value
    case Some(attr) =>
      if attr.attrType.Nested? then (if value.Dict? then NewInstance(attr.attrType.model, value.entries) else value)
      else if !attr.attrType.ListOf? && value.List? && |value.items| == 1 then value.items[0]
      else value
  }

  /** The argument mapping after `decode_arguments`, when it returns. */
  function Decoded(conditions: seq<Prop>, arguments: map<string, Value>): (decoded: map<string, Value>)
    ensures decoded.Keys == arguments.Keys
    ensures forall k :: k in arguments && Lookup(conditions, k).None? ==> decoded[k] == arguments[k]
  {
    map k | k in arguments :: DecodeEntry(conditions, k, arguments[k])
  }

  /**
    After validation, decoding raises only on a model-typed argument that is
    not a mapping and that validation let through because every attribute of
    the model is optional and the `in` test found none of their names.
   */
  lemma ValidatedButNotDecodable(conditions: seq<Prop>, arguments: map<string, Value>, key: string)
    requires ValidArguments(arguments, conditions).Pass? && key in arguments
    requires Lookup(conditions, key).Some? && Lookup(conditions, key).value.attrType.Nested? && !arguments[key].Dict?
    ensures var props := GetProperties(Lookup(conditions, key).value.attrType.model);
      forall i :: 0 <= i < |props| ==> props[i].attr.optional && ContainsKey(arguments[key], props[i].name) == Some(false)
  {
    PassMeansEveryAttributeHolds(arguments, conditions, Prop(key, Lookup(conditions, key).value));
    NonMappingPassesOnlyVacuously(arguments[key], GetProperties(Lookup(conditions, key).value.attrType.model));
  }

  /**
    What decoding does to a validated argument: a model-typed one becomes an
    instance of that model built from its mapping, whose fields pass the
    model's own validation; a list attribute, a key without a condition and
    a value of any other declared type are left as they are, except that a
    one-element list under the plain `list` type is collapsed to its element.
   */
  lemma DecodeAfterValidation(conditions: seq<Prop>, arguments: map<string, Value>, key: string)
    requires ValidArguments(arguments, conditions).Pass? && key in arguments
    ensures var decoded := Decoded(conditions, arguments);
      && decoded.Keys == arguments.Keys
      && (Lookup(conditions, key).None? ==> decoded[key] == arguments[key])
      && (Lookup(conditions, key).Some? ==>
            var t := Lookup(conditions, key).value.attrType;
            && (t.Nested? && arguments[key].Dict? ==>
                  && decoded[key] == Instance(t.model, arguments[key].entries)
                  && ValidArguments(decoded[key].attributes, GetProperties(t.model)).Pass?)
            && (t.ListOf? ==> decoded[key] == arguments[key])
            && (t.Primitive? && t.kind != ListType ==>
                  decoded[key] == arguments[key] && IsInstance(decoded[key], t.kind))
            && (t == Primitive(ListType) ==>
                  arguments[key].List? && decoded[key] == if |arguments[key].items| == 1 then arguments[key].items[0] else arguments[key]))
  {
    if Lookup(conditions, key).Some? {
      PassMeansEveryAttributeHolds(arguments, conditions, Prop(key, Lookup(conditions, key).value));
    }
  }

  /** The `methods` a decorator passes on: `['GET']` when none are given. */
  function DefaultMethods(methods: MethodsArg): (m: MethodsArg)
    ensures methods.Unspecified? ==> m.Names? && UpperSet(m.names) == {"GET"}
    ensures !methods.Unspecified? ==> m == methods
  {
    if methods.Unspecified? then
      assert ToUpper("GET") == "GET";
      assert UpperSet(["GET"]) == {"GET"};
      Names(["GET"])
    else methods
  }

  /** `set([x.upper() for x in methods])`. */
  function UpperSet(names: seq<string>): (s: set<string>)
    ensures forall n :: n in names ==> ToUpper(n) in s
    ensures forall u :: u in s ==> exists n :: n in names && ToUpper(n) == u
  {
    set n | n in names :: ToUpper(n)
  }

  // ---------------------------------------------------------------------------
  // Route

  class Route {
    const endpoint: Endpoint
    var rule: string
    var methods: Option<set<string>>
    var mimetype: Option<string>
    var conditions: ConditionTable
    var injectRequest: bool
    var tokenRequired: bool         // used by the older SDK facade

    /** The state of a route that has just been created for its endpoint. */
    ghost predicate Unconfigured()
      reads this
    {
      rule == "/_arsa" && methods == None && mimetype == None && conditions == []
      && !injectRequest && !tokenRequired
    }

    /** `Route(endpoint)`: the placeholder rule `/_arsa`, no methods, no mimetype, no conditions. */
    constructor (endpoint: Endpoint)
      ensures this.endpoint == endpoint && Unconfigured()
    {
      this.endpoint := endpoint;
      rule := "/_arsa";
      methods := None;
      mimetype := None;
      conditions := [];
      injectRequest := false;
      tokenRequired := false;
    }

    /**
      `set_rule(rule, methods, mimetype)`: the rule, mimetype and request
      injection flag are stored first; methods are stored as the set of
      upper-cased names, `None` stays `None`, and a bare string raises
      `TypeError` (ok is false) leaving the old methods.
     */
    method SetRule(rule: string, methods: MethodsArg, mimetype: Option<string>, injectRequest: bool) returns (ok: bool)
      modifies this
      ensures ok <==> !methods.BareString?
      ensures this.rule == rule && this.mimetype == mimetype && this.injectRequest == injectRequest
      ensures methods.Unspecified? ==> this.methods == None
      ensures methods.Names? ==> this.methods == Some(UpperSet(methods.names))
      ensures methods.BareString? ==> this.methods == old(this.methods)
      ensures conditions == old(conditions) && tokenRequired == old(tokenRequired)
    {
      this.rule := rule;
      this.mimetype := mimetype;
      this.injectRequest := injectRequest;
      match methods
      case Unspecified =>
        this.methods := None;
        ok := true;
      case BareString(_) =>
        ok := false;
      case Names(names) =>
        this.methods := Some(UpperSet(names));
        ok := true;
    }

    /**
      `add_validation(optional, **conditions)`: a condition named `query` is
      refused with `ValueError` and nothing is added; otherwise every
      condition becomes an attribute carrying the call's `optional` flag and
      the table is updated, same-named entries overwritten, all others kept.
     */
    method AddValidation(optional: bool, conds: seq<(string, AttrType)>) returns (ok: bool)
      requires DistinctKeys(conds)
      modifies this
      ensures ok <==> KeywordType(conds, "query").None?
      ensures !ok ==> conditions == old(conditions)
      ensures ok ==> conditions == Update(old(conditions), AsAttributes(conds, optional))
      ensures ok ==> forall k :: Lookup(conditions, k) == AddedLookup(old(conditions), conds, optional, k)
      ensures rule == old(rule) && methods == old(methods) && mimetype == old(mimetype)
      ensures injectRequest == old(injectRequest) && tokenRequired == old(tokenRequired)
    {
      if KeywordType(conds, "query").Some? {
        ok := false;
        return;
      }
      var attrs := AsAttributes(conds, optional);
      assert DistinctNames(attrs);
      UpdateKeepsOrder(conditions, attrs);
      forall k ensures Lookup(Update(conditions, attrs), k) == AddedLookup(conditions, conds, optional, k) {
        UpdateLookup(conditions, attrs, k);
        AsAttributesLookup(conds, optional, k);
      }
      conditions := Update(conditions, attrs);
      ok := true;
    }

    /**
      `decode_arguments(arguments)`: walks the argument dict and rewrites
      each entry in place; the rewritten dict is returned, or `None` when a
      model-typed entry is not a mapping and `attr_type(**value)` raises
      `TypeError`.
     */
    method DecodeArguments(arguments: map<string, Value>) returns (decoded: Option<map<string, Value>>)
      ensures decoded.Some? <==> NestedAreMappings(conditions, arguments)
      ensures decoded.Some? ==> decoded.value == Decoded(conditions, arguments)
    {
      var current := arguments;
      var pending := arguments.Keys;
      while pending != {}
        invariant pending <= arguments.Keys && current.Keys == arguments.Keys
        invariant forall k :: k in pending ==> current[k] == arguments[k]
        invariant forall k :: k in arguments && k !in pending ==> current[k] == DecodeEntry(conditions, k, arguments[k])
        invariant forall k :: k in arguments && k !in pending && Lookup(conditions, k).Some? ==>
                    (Lookup(conditions, k).value.attrType.Nested? ==> arguments[k].Dict?)
        decreases pending
      {
        var key :| key in pending;
        var value := current[key];
        match Lookup(conditions, key) {
          case Some(attr) =>
            if attr.attrType.Nested? {
              if !value.Dict? {
                return None;
              }
              current := current[key := NewInstance(attr.attrType.model, value.entries)];
            } else if !attr.attrType.ListOf? && value.List? && |value.items| == 1 {
              current := current[key := value.items[0]];
            }
          case None =>
        }
        pending := pending - {key};
      }
      decoded := Some(current);
    }
  }

  // ---------------------------------------------------------------------------
  // RouteFactory

  class RouteFactory {
    var routes: map<Endpoint, Route>
    var order: seq<Endpoint>        // the insertion order of `routes`

    ghost predicate Valid()
      reads this
    {
      && (forall e :: e in routes <==> e in order)
      && (forall i, j :: 0 <= i < j < |order| ==> order[i] != order[j])
      && |order| == |routes|
      && (forall e :: e in routes ==> routes[e].endpoint == e)
    }

    constructor ()
      ensures Valid() && routes == map[] && order == []
    {
      routes := map[];
      order := [];
    }

    /** `get_rules`: exactly the registered routes, in registration order. */
    function GetRules(): (rules: seq<Route>)
      reads this
      requires Valid()
      ensures |rules| == |routes|
      ensures forall i :: 0 <= i < |rules| ==> rules[i] in routes.Values
      ensures forall e :: e in routes ==> routes[e] in rules
      ensures forall i :: 0 <= i < |rules| ==> rules[i].endpoint == order[i]
      ensures forall i, j :: 0 <= i < j < |rules| ==> rules[i] != rules[j]
    {
      var order, routes := this.order, this.routes;
      var rules := seq(|order|, i requires 0 <= i < |order| => routes[order[i]]);
      assert forall i :: 0 <= i < |rules| ==> rules[i].endpoint == order[i];
      assert forall e :: e in routes ==> routes[e] in rules by {
        forall e | e in routes ensures routes[e] in rules {
          var i :| 0 <= i < |order| && order[i] == e;
          assert rules[i] == routes[e];
        }
      }
      rules
    }

    /**
      `register_endpoint(endpoint)`: idempotent; the endpoint's existing route
      if there is one, otherwise a new route for it, added last.
     */
    method RegisterEndpoint(endpoint: Endpoint) returns (route: Route)
      requires Valid()
      modifies this
      ensures Valid()
      ensures endpoint in routes && routes[endpoint] == route && route.endpoint == endpoint
      ensures endpoint in old(routes) ==> route == old(routes[endpoint]) && routes == old(routes) && order == old(order)
      ensures endpoint !in old(routes) ==>
                fresh(route) && route.Unconfigured()
                && routes == old(routes)[endpoint := route] && order == old(order) + [endpoint]
    {
      if endpoint !in routes {
        route := new Route(endpoint);
        routes := routes[endpoint := route];
        order := order + [endpoint];
      } else {
        route := routes[endpoint];
      }
    }

    /** `empty()`: forget every route. */
    method Empty()
      modifies this
      ensures Valid() && routes == map[] && order == [] && GetRules() == []
    {
      routes := map[];
      order := [];
    }
  }
}

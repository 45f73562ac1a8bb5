/**
  The older SDK facade of arsa_sdk/arsa.py.

  `Arsa` there is a singleton: every construction hands back the one shared
  instance, which owns one route factory.  Its class methods register and
  configure routes on that factory, and `serve` calls a route's handler
  directly with keyword arguments: match the URL, merge the path variables
  over the caller's arguments, validate, check for a token, call.

  The facade's own routes module is not part of this model; its routes are
  the routes of arsa/routes.py, whose `tokenRequired` flag this facade sets,
  and its `has_valid_arguments` validates as arsa/model.py does, whatever it
  raises on an `ArgumentKeyError` being `ArgumentsRejected` here.
 */
module ArsaSdk {
  import opened Wrappers
  import opened Text
  import opened ArsaModel
  import opened ArsaRoutes
  import opened Http
  import opened ArsaApp

  /** What `serve` reads of a route. */
  datatype ServeView = ServeView(endpoint: Endpoint, conditions: seq<Prop>, tokenRequired: bool)

  /** What `serve` does: the handler's outcome, or the exception raised before the handler is called. */
  datatype ServeOutcome =
    | Served(result: HandlerOutcome)
    | NotMatched(error: HttpError)     // raised by the matcher
    | ArgumentsRejected(message: string) // what `has_valid_arguments` raises for an ArgumentKeyError
    | Unvalidatable(argError: ArgError)// any other validation error
    | MissingToken                     // ValueError("Not token sent.")

  function ServeViewOf(r: Route): ServeView
    reads r
  {
    ServeView(r.endpoint, r.conditions, r.tokenRequired)
  }

  function ServeViews(rs: seq<Route>): (vs: seq<ServeView>)
    reads rs
    ensures |vs| == |rs| && forall i :: 0 <= i < |rs| ==> vs[i] == ServeViewOf(rs[i])
  {
    seq(|rs|, i requires 0 <= i < |rs| reads rs => ServeViewOf(rs[i]))
  }

  /** `kwargs.update(arguments)`: the path variables are laid over the caller's keyword arguments. */
  function MergePathVariables(kwargs: map<string, Value>, variables: map<string, Value>): (merged: map<string, Value>)
    ensures merged.Keys == kwargs.Keys + variables.Keys
    ensures forall k :: k in variables ==> merged[k] == variables[k]
    ensures forall k :: k in kwargs && k !in variables ==> merged[k] == kwargs[k]
  {
    kwargs + variables
  }

  /** `serve(url, method, token, **kwargs)` over the routes the registry holds. */
  function ServeSpec(patterns: seq<Pattern>, views: seq<ServeView>, url: string, verb: string, token: Option<string>,
                     kwargs: map<string, Value>, matcher: Matcher, invoke: Invoker): (r: ServeOutcome)
    requires InRange(matcher(patterns, url, verb), |views|)
    ensures r.NotMatched? <==> matcher(patterns, url, verb).MatchFailed?
    ensures r.Served? || r.MissingToken? ==>
      var m := matcher(patterns, url, verb);
      m.Matched? && ValidArguments(MergePathVariables(kwargs, m.variables), views[m.index].conditions).Pass?
    ensures r.MissingToken? ==> token.None?
  {
    match matcher(patterns, url, verb)
    case MatchFailed(e) => NotMatched(e)
    case Matched(i, variables) =>
      var view := views[i];
      var merged := MergePathVariables(kwargs, variables);
      match HasValidArguments(view.conditions, merged)
      case Rejected(message) => ArgumentsRejected(message)
      case Raised(error) => Unvalidatable(error)
      case Accepted =>
        if view.tokenRequired && token.None? then MissingToken
        else Served(invoke(view.endpoint, merged))
  }

  /**
    The single shared facade object and its route factory.  The class
    methods of the facade (`Arsa.route(...)` and the rest) each fetch this
    object with `ArsaClass.New` and act on it through the methods below.
   */
  class Arsa {
    const factory: RouteFactory

    ghost predicate Valid()
      reads this, factory
    {
      factory.Valid()
    }

    constructor ()
      ensures Valid() && fresh(factory) && factory.routes == map[]
    {
      factory := new RouteFactory();
    }

    /**
      `route(rule, methods)`: the handler's route (created if new, and then
      added last) gets the rule and the upper-cased methods (`GET` when none
      are given) and no mimetype; its conditions, token flag and injection
      flag are kept, and every other route is left alone.  A bare string as
      methods fails (ok is false).
     */
    method Route(endpoint: Endpoint, rule: string, methods: MethodsArg) returns (ok: bool)
      requires Valid()
      modifies factory, factory.routes.Values
      ensures Valid() && endpoint in factory.routes && factory.routes[endpoint].endpoint == endpoint
      ensures ok <==> !methods.BareString?
      ensures var r := factory.routes[endpoint];
        && r.rule == rule && r.mimetype == None
        && (methods.Unspecified? ==> r.methods == Some({"GET"}))
        && (methods.Names? ==> r.methods == Some(UpperSet(methods.names)))
      ensures methods.BareString? ==>
        factory.routes[endpoint].methods == if endpoint in old(factory.routes) then old(factory.routes[endpoint].methods) else None
      ensures endpoint in old(factory.routes) ==>
        && factory.routes == old(factory.routes) && factory.order == old(factory.order)
        && factory.routes[endpoint].conditions == old(factory.routes[endpoint].conditions)
        && factory.routes[endpoint].tokenRequired == old(factory.routes[endpoint].tokenRequired)
        && factory.routes[endpoint].injectRequest == old(factory.routes[endpoint].injectRequest)
      ensures endpoint !in old(factory.routes) ==>
        && factory.routes == old(factory.routes)[endpoint := factory.routes[endpoint]]
        && factory.order == old(factory.order) + [endpoint]
        && factory.routes[endpoint].conditions == [] && !factory.routes[endpoint].tokenRequired
        && !factory.routes[endpoint].injectRequest
      ensures forall r :: r in old(factory.routes.Values) && r.endpoint != endpoint ==> unchanged(r)
    {
      var route := factory.RegisterEndpoint(endpoint);
      ok := route.SetRule(rule, DefaultMethods(methods), None, route.injectRequest);
      forall r | r in old(factory.routes.Values) && r.endpoint != endpoint ensures unchanged(r) {
        assert r != route;
      }
    }

    /**
      `token_required()`: the handler's route (created if new, and then
      added last) is marked as needing a token; its rule, methods, mimetype,
      conditions and injection flag stay as they were, and every other route
      is left alone.
     */
    method TokenRequired(endpoint: Endpoint)
      requires Valid()
      modifies factory, factory.routes.Values
      ensures Valid() && endpoint in factory.routes && factory.routes[endpoint].endpoint == endpoint
      ensures factory.routes[endpoint].tokenRequired
      ensures endpoint in old(factory.routes) ==>
        var r := factory.routes[endpoint];
        && factory.routes == old(factory.routes) && factory.order == old(factory.order)
        && r.rule == old(r.rule) && r.methods == old(r.methods) && r.mimetype == old(r.mimetype)
        && r.conditions == old(r.conditions) && r.injectRequest == old(r.injectRequest)
      ensures endpoint !in old(factory.routes) ==>
        var r := factory.routes[endpoint];
        && factory.routes == old(factory.routes)[endpoint := r]
        && factory.order == old(factory.order) + [endpoint]
        && r.rule == "/_arsa" && r.methods == None && r.mimetype == None
        && r.conditions == [] && !r.injectRequest
      ensures forall r :: r in old(factory.routes.Values) && r.endpoint != endpoint ==> unchanged(r)
    {
      var route := factory.RegisterEndpoint(endpoint);
      route.tokenRequired := true;
      forall r | r in old(factory.routes.Values) && r.endpoint != endpoint ensures unchanged(r) {
        assert r != route;
      }
    }

    /**
      `required(**kwargs)` (optional false) and `optional(**kwargs)` (optional
      true): the handler's route (created if new, and then added last) gets
      the conditions with that flag, overwriting same-named ones and keeping
      the others; a condition named `query` is refused (ok is false) and the
      table is left as it was.  Nothing else of that route, and no other
      route, changes.
     */
    method AddConditions(endpoint: Endpoint, optional: bool, conds: seq<(string, AttrType)>) returns (ok: bool)
      requires Valid() && DistinctKeys(conds)
      modifies factory, factory.routes.Values
      ensures Valid() && endpoint in factory.routes && factory.routes[endpoint].endpoint == endpoint
      ensures ok <==> KeywordType(conds, "query").None?
      ensures var r := factory.routes[endpoint];
        forall k :: Lookup(r.conditions, k) ==
          if !ok then (if endpoint in old(factory.routes) then Lookup(old(factory.routes[endpoint].conditions), k) else None)
          else AddedLookup(if endpoint in old(factory.routes) then old(factory.routes[endpoint].conditions) else [], conds, optional, k)
      ensures endpoint in old(factory.routes) ==>
        var r := factory.routes[endpoint];
        && factory.routes == old(factory.routes) && factory.order == old(factory.order)
        && r.rule == old(r.rule) && r.methods == old(r.methods) && r.mimetype == old(r.mimetype)
        && r.injectRequest == old(r.injectRequest) && r.tokenRequired == old(r.tokenRequired)
      ensures endpoint !in old(factory.routes) ==>
        var r := factory.routes[endpoint];
        && factory.routes == old(factory.routes)[endpoint := r]
        && factory.order == old(factory.order) + [endpoint]
        && r.rule == "/_arsa" && r.methods == None && r.mimetype == None
        && !r.injectRequest && !r.tokenRequired
      ensures forall r :: r in old(factory.routes.Values) && r.endpoint != endpoint ==> unchanged(r)
    {
      var route := factory.RegisterEndpoint(endpoint);
      ok := route.AddValidation(optional, conds);
      forall r | r in old(factory.routes.Values) && r.endpoint != endpoint ensures unchanged(r) {
        assert r != route;
      }
    }

    /** `empty()`: the factory forgets every route. */
    method Empty()
      modifies factory
      ensures Valid() && factory.routes == map[] && factory.GetRules() == []
    {
      factory.Empty();
    }

    /**
      `serve(url, method, token, **kwargs)`: binds a map over the routes the
      factory holds now and proceeds as `ServeSpec` describes.
     */
    method Serve(url: string, verb: string, token: Option<string>, kwargs: map<string, Value>,
                 matcher: Matcher, invoke: Invoker) returns (outcome: ServeOutcome)
      requires Valid() && MatcherContract(matcher)
      ensures InRange(matcher(Patterns(factory.GetRules()), url, verb), |factory.GetRules()|)
      ensures outcome == ServeSpec(Patterns(factory.GetRules()), ServeViews(factory.GetRules()),
                                   url, verb, token, kwargs, matcher, invoke)
    {
      var rules := factory.GetRules();
      var patterns := Patterns(rules);
      ghost var views := ServeViews(rules);
      assert InRange(matcher(patterns, url, verb), |patterns|);
      match matcher(patterns, url, verb) {
        case MatchFailed(e) =>
          outcome := NotMatched(e);
        case Matched(i, variables) =>
          var rule := rules[i];
          assert views[i] == ServeViewOf(rule);
          var merged := kwargs + variables;          // kwargs.update(arguments)
          assert merged == MergePathVariables(kwargs, variables);
          match HasValidArguments(rule.conditions, merged) {
            case Rejected(message) =>
              outcome := ArgumentsRejected(message);
            case Raised(error) =>
              outcome := Unvalidatable(error);
            case Accepted =>
              if rule.tokenRequired && token.None? {
                outcome := MissingToken;
              } else {
                outcome := Served(invoke(rule.endpoint, merged));
              }
          }
      }
    }
  }

  /** The class `Arsa` itself, holding the private `__instance` slot. */
  class ArsaClass {
    var instance: Option<Arsa>

    constructor ()
      ensures instance == None
    {
      instance := None;
    }

    /**
      `Arsa()`: the shared instance, created with an empty factory on the
      first call and the very same object on every later one.
     */
    method New() returns (a: Arsa)
      modifies this
      ensures instance == Some(a)
      ensures old(instance).Some? ==> a == old(instance.value)
      ensures old(instance).None? ==> fresh(a) && fresh(a.factory) && a.Valid() && a.factory.routes == map[]
    {
      if instance.None? {
        var created := new Arsa();
        instance := Some(created);
      }
      a := instance.value;
    }
  }

  // ---------------------------------------------------------------------------
  // Properties of serve

  /** With no routes registered every URL is not found, whatever the arguments and token. */
  lemma EmptyRegistryIsNotFound(url: string, verb: string, token: Option<string>, kwargs: map<string, Value>,
                                matcher: Matcher, invoke: Invoker)
    requires MatcherContract(matcher)
    ensures InRange(matcher([], url, verb), 0)
    ensures ServeSpec([], [], url, verb, token, kwargs, matcher, invoke).NotMatched?
    ensures ServeSpec([], [], url, verb, token, kwargs, matcher, invoke).error.NotFound?
  {
    assert InRange(matcher([], url, verb), 0);
  }

  /**
    Validation comes before the token check: arguments that fail it are
    rejected with the validation message even when a required token is
    missing, and the handler is not consulted.
   */
  lemma ValidationBeforeTokenCheck(patterns: seq<Pattern>, views: seq<ServeView>, url: string, verb: string,
                                   token: Option<string>, kwargs: map<string, Value>,
                                   matcher: Matcher, invoke: Invoker, invoke': Invoker)
    requires InRange(matcher(patterns, url, verb), |views|) && matcher(patterns, url, verb).Matched?
    requires var m := matcher(patterns, url, verb);
      var c := ValidArguments(MergePathVariables(kwargs, m.variables), views[m.index].conditions);
      c.Fail? && c.error.IsArgumentKeyError()
    ensures var m := matcher(patterns, url, verb);
      var c := ValidArguments(MergePathVariables(kwargs, m.variables), views[m.index].conditions);
      ServeSpec(patterns, views, url, verb, token, kwargs, matcher, invoke)
      == ServeSpec(patterns, views, url, verb, None, kwargs, matcher, invoke')
      == ArgumentsRejected(c.error.Message())
  {
  }

  /** Valid arguments for a route that needs a token, served without one: `ValueError`, and the handler is not consulted. */
  lemma MissingTokenRaises(patterns: seq<Pattern>, views: seq<ServeView>, url: string, verb: string,
                           kwargs: map<string, Value>, matcher: Matcher, invoke: Invoker, invoke': Invoker)
    requires InRange(matcher(patterns, url, verb), |views|) && matcher(patterns, url, verb).Matched?
    requires var m := matcher(patterns, url, verb);
      && views[m.index].tokenRequired
      && ValidArguments(MergePathVariables(kwargs, m.variables), views[m.index].conditions).Pass?
    ensures ServeSpec(patterns, views, url, verb, None, kwargs, matcher, invoke)
            == ServeSpec(patterns, views, url, verb, None, kwargs, matcher, invoke')
            == MissingToken
  {
  }

  /**
    Valid arguments, and a token whenever the route needs one: the outcome
    is the handler's, called with the merged arguments.
   */
  lemma ServeCallsHandler(patterns: seq<Pattern>, views: seq<ServeView>, url: string, verb: string,
                          token: Option<string>, kwargs: map<string, Value>, matcher: Matcher, invoke: Invoker)
    requires InRange(matcher(patterns, url, verb), |views|) && matcher(patterns, url, verb).Matched?
    requires var m := matcher(patterns, url, verb);
      && (views[m.index].tokenRequired ==> token.Some?)
      && ValidArguments(MergePathVariables(kwargs, m.variables), views[m.index].conditions).Pass?
    ensures var m := matcher(patterns, url, verb);
      ServeSpec(patterns, views, url, verb, token, kwargs, matcher, invoke)
      == Served(invoke(views[m.index].endpoint, MergePathVariables(kwargs, m.variables)))
  {
  }

  /** The outcome is the handler's only when validation passed and the token check was satisfied. */
  lemma ServedOnlyWhenChecksPass(patterns: seq<Pattern>, views: seq<ServeView>, url: string, verb: string,
                                 token: Option<string>, kwargs: map<string, Value>, matcher: Matcher, invoke: Invoker)
    requires InRange(matcher(patterns, url, verb), |views|)
    requires ServeSpec(patterns, views, url, verb, token, kwargs, matcher, invoke).Served?
    ensures var m := matcher(patterns, url, verb);
      && m.Matched?
      && ValidArguments(MergePathVariables(kwargs, m.variables), views[m.index].conditions).Pass?
      && (views[m.index].tokenRequired ==> token.Some?)
  {
  }

  // ---------------------------------------------------------------------------
  // The facade's tests, on one route

  /** A matcher that sends every request to the first route, with no path variables. */
  function OnlyRoute(ps: seq<Pattern>, url: string, verb: string): MatchOutcome
  {
    Matched(0, map[])
  }

  /** A handler returning its `name` argument (or None without one). */
  function EchoName(endpoint: Endpoint, kwargs: map<string, Value>): HandlerOutcome
  {
    Returned(if "name" in kwargs then kwargs["name"] else NoneValue)
  }

  /** A required `name: str`, passed as `'Bob'`, reaches the handler; passed as 123 it is rejected. */
  lemma RequiredNameScenarios()
    ensures ServeSpec([Pattern("/val", Some({"GET"}))],
                      [ServeView(Endpoint(0, "func"), [Prop("name", Attribute(Primitive(StrType), false))], false)],
                      "/val", "GET", None, map["name" := Str("Bob")], OnlyRoute, EchoName)
            == Served(Returned(Str("Bob")))
    ensures ServeSpec([Pattern("/val", Some({"GET"}))],
                      [ServeView(Endpoint(0, "func"), [Prop("name", Attribute(Primitive(StrType), false))], false)],
                      "/val", "GET", None, map["name" := Int(123)], OnlyRoute, EchoName).ArgumentsRejected?
  {
    var conditions := [Prop("name", Attribute(Primitive(StrType), false))];
    assert ValidArguments(map["name" := Str("Bob")], conditions) == Pass;
    assert MergePathVariables(map["name" := Str("Bob")], map[]) == map["name" := Str("Bob")];
    assert ValidArguments(map["name" := Int(123)], conditions).Fail?;
    assert MergePathVariables(map["name" := Int(123)], map[]) == map["name" := Int(123)];
  }

  /** An optional `name: str` may be left out; a token-guarded route serves with a token and refuses without. */
  lemma OptionalAndTokenScenarios()
    ensures ServeSpec([Pattern("/val", Some({"GET"}))],
                      [ServeView(Endpoint(0, "func"), [Prop("name", Attribute(Primitive(StrType), true))], false)],
                      "/val", "GET", None, map[], OnlyRoute, EchoName)
            == Served(Returned(NoneValue))
    ensures ServeSpec([Pattern("/val", Some({"GET"}))],
                      [ServeView(Endpoint(0, "func"), [Prop("name", Attribute(Primitive(StrType), true))], false)],
                      "/val", "GET", None, map["name" := Int(123)], OnlyRoute, EchoName).ArgumentsRejected?
    ensures ServeSpec([Pattern("/foobar", Some({"GET"}))], [ServeView(Endpoint(0, "func"), [], true)],
                      "/foobar", "GET", Some("1234"), map[], OnlyRoute, EchoName)
            == Served(Returned(NoneValue))
    ensures ServeSpec([Pattern("/foobar", Some({"GET"}))], [ServeView(Endpoint(0, "func"), [], true)],
                      "/foobar", "GET", None, map[], OnlyRoute, EchoName)
            == MissingToken
  {
    assert ValidArguments(map[], [Prop("name", Attribute(Primitive(StrType), true))]) == Pass;
    assert MergePathVariables(map[], map[]) == map[];
    assert ValidArguments(map["name" := Int(123)], [Prop("name", Attribute(Primitive(StrType), true))]).Fail?;
    assert MergePathVariables(map["name" := Int(123)], map[]) == map["name" := Int(123)];
  }

  /** A matcher that sends every request to the first route with the path variable `slug` = `'bar'`. */
  function SlugRoute(ps: seq<Pattern>, url: string, verb: string): MatchOutcome
  {
    Matched(0, map["slug" := Str("bar")])
  }

  /** A handler returning its `slug` argument. */
  function EchoSlug(endpoint: Endpoint, kwargs: map<string, Value>): HandlerOutcome
  {
    Returned(if "slug" in kwargs then kwargs["slug"] else NoneValue)
  }

  /**
    A path variable reaches the handler, and wins over a keyword argument of
    the same name passed by the caller.
   */
  lemma PathVariableScenario()
    ensures ServeSpec([Pattern("/foobar/<slug>", Some({"GET"}))], [ServeView(Endpoint(0, "func"), [], false)],
                      "/foobar/bar", "GET", None, map[], SlugRoute, EchoSlug)
            == Served(Returned(Str("bar")))
    ensures ServeSpec([Pattern("/foobar/<slug>", Some({"GET"}))], [ServeView(Endpoint(0, "func"), [], false)],
                      "/foobar/bar", "GET", None, map["slug" := Str("baz")], SlugRoute, EchoSlug)
            == Served(Returned(Str("bar")))
  {
    assert MergePathVariables(map[], map["slug" := Str("bar")])["slug"] == Str("bar");
    assert MergePathVariables(map["slug" := Str("baz")], map["slug" := Str("bar")])["slug"] == Str("bar");
  }
}

/**
  The application object of arsa/arsa.py and its request pipeline.

  `Arsa` holds a route factory, the route map bound on first use and an
  optional application authorizer.  Its decorators register and configure
  routes; `App` serves one request: match the path, merge a JSON body over
  the path variables, validate, decode, optionally inject the request,
  call the handler and serialise what it returns, turning any HTTP
  exception on the way into an error response.

  Three collaborators are parameters: werkzeug's URL matcher, the JSON
  parser and the handler call.
 */
module ArsaApp {
  import opened Wrappers
  import opened Text
  import opened ArsaModel
  import opened ArsaRoutes
  import opened ArsaPolicy
  import opened ArsaUtil
  import opened Http

  /** An incoming request: HTTP method, path and raw body (empty when there is none). */
  datatype Request = Request(verb: string, path: string, data: string)

  /** `json.loads(data)`: the parsed value, or a `ValueError`. */
  datatype Body = Parsed(value: Value) | Malformed

  type Matcher = (seq<Pattern>, string, string) -> MatchOutcome
  type Parser = string -> Body
  type Invoker = (Endpoint, map<string, Value>) -> HandlerOutcome
  type AuthorizerFunc = (AuthEvent, Value) -> Policy

  /** An exception `app` does not catch: it leaves the WSGI application. */
  datatype Fault =
    | BodyNotUpdatable               // `arguments.update(data)` raised TypeError
    | ArgumentFault(error: ArgError) // validation failed with something other than an ArgumentKeyError
    | NotDecodable                   // `attr_type(**value)` raised TypeError: a model-typed argument is not a mapping
    | HandlerFault(exception: string)

  datatype Outcome = Responded(response: Response) | Propagated(fault: Fault)

  /** What serving a request reads of a route. */
  datatype RouteView = RouteView(endpoint: Endpoint, conditions: seq<Prop>, mimetype: Option<string>, injectRequest: bool)

  /** A keyword argument with a default: left out by the caller, or passed. */
  datatype Arg<T> = Omitted | Passed(value: T)

  /** The value a keyword argument takes: the one passed, or its default. */
  function ArgOr<T>(a: Arg<T>, default: T): (v: T)
    ensures a.Omitted? ==> v == default
    ensures a.Passed? ==> v == a.value
  {
    if a.Passed? then a.value else default
  }

  const MalformedBody: string := "JSON body was malformed"
  const DefaultContentType: Option<string> := Some("application/json")

  /** The route's current state, as serving sees it. */
  function View(r: Route): RouteView
    reads r
  {
    RouteView(r.endpoint, r.conditions, r.mimetype, r.injectRequest)
  }

  function Views(rs: seq<Route>): (vs: seq<RouteView>)
    reads rs
    ensures |vs| == |rs| && forall i :: 0 <= i < |rs| ==> vs[i] == View(rs[i])
  {
    seq(|rs|, i requires 0 <= i < |rs| reads rs => View(rs[i]))
  }

  /** What URL matching sees of the routes when the map is bound. */
  function Patterns(rs: seq<Route>): (ps: seq<Pattern>)
    reads rs
    ensures |ps| == |rs| && forall i :: 0 <= i < |rs| ==> ps[i] == Pattern(rs[i].rule, rs[i].methods)
  {
    seq(|rs|, i requires 0 <= i < |rs| reads rs => Pattern(rs[i].rule, rs[i].methods))
  }

  /** The request object handed to a handler as `arsa_request`, known by its representation. */
  function RequestObject(req: Request): Value
  {
    PyObject("<Request 'http://localhost" + req.path + "' [" + req.verb + "]>")
  }

  // ---------------------------------------------------------------------------
  // The pipeline, step by step

  /** The argument dict after the body is merged, or the exception the merge raised. */
  datatype Merge = Merged(arguments: map<string, Value>) | BodyMalformed | NotUpdatable

  /** How `dict.update` reads one element of a sequence of pairs. */
  datatype PairItem = Pair(key: string, value: Value) | WrongLength | Unusable

  /**
    One element of a sequence given to `dict.update`: a two-character str
    or a two-element list whose first item is a str is a key/value pair; a
    str, list or dict of any other length raises `ValueError`; anything else
    raises `TypeError` here.
   */
  function PairOf(item: Value): (p: PairItem)
    ensures p.Pair? ==> (item.Str? && |item.s| == 2 && p.key == [item.s[0]] && p.value == Str([item.s[1]]))
                        || (item.List? && |item.items| == 2 && item.items[0] == Str(p.key) && p.value == item.items[1])
    ensures (item.Str? && |item.s| == 2) || (item.List? && |item.items| == 2 && item.items[0].Str?) ==> p.Pair?
    ensures p.WrongLength? <==> (item.Str? && |item.s| != 2) || (item.List? && |item.items| != 2) || (item.Dict? && |item.entries| != 2)
  {
    match item
    case Str(s) => if |s| == 2 then Pair([s[0]], Str([s[1]])) else WrongLength
    case List(xs) => if |xs| != 2 then WrongLength else if xs[0].Str? then Pair(xs[0].s, xs[1]) else Unusable
    case Dict(entries) => if |entries| != 2 then WrongLength else Unusable
    case _ => Unusable
  }

  /**
    `arguments.update(items)` for a sequence: the pairs are put in order, a
    later key overwriting an earlier one, and the first element that is not
    a pair raises.  It merges exactly when every element is a pair, and
    never loses a key.
   */
  function UpdatePairs(arguments: map<string, Value>, items: seq<Value>): (r: Merge)
    ensures r.Merged? <==> forall i :: 0 <= i < |items| ==> PairOf(items[i]).Pair?
    ensures r.Merged? ==> arguments.Keys <= r.arguments.Keys
    decreases |items|
  {
    if items == [] then Merged(arguments)
    else
      assert forall i :: 0 < i < |items| ==> items[i] == items[1..][i - 1];
      match PairOf(items[0])
      case WrongLength => BodyMalformed
      case Unusable => NotUpdatable
      case Pair(k, v) => UpdatePairs(arguments[k := v], items[1..])
  }

  /**
    `arguments.update(body)` for a parsed JSON value: an object's entries
    overwrite; a str is the sequence of its one-character strs, so it is a
    no-op when empty and a `ValueError` otherwise; a list is a sequence of
    pairs; a number, a boolean or null raises `TypeError`.
   */
  function UpdateWith(arguments: map<string, Value>, body: Value): (r: Merge)
    ensures body.Dict? ==> r == Merged(arguments + body.entries)
    ensures body.Str? ==> r == if body.s == [] then Merged(arguments) else BodyMalformed
    ensures body.List? && body.items == [] ==> r == Merged(arguments)
    ensures body.Int? || body.Float? || body.Bool? || body.NoneValue? ==> r == NotUpdatable
  {
    match body
    case Dict(entries) => Merged(arguments + entries)
    case Str(s) =>
      var chars := seq(|s|, i requires 0 <= i < |s| => Str([s[i]]));
      assert s != [] ==> PairOf(chars[0]).WrongLength?;
      UpdatePairs(arguments, chars)
    case List(items) => UpdatePairs(arguments, items)
    case _ => NotUpdatable
  }

  /**
    `if req.data: arguments.update(json.loads(req.data))`, where a
    `ValueError` from either call is reported as a malformed body.
   */
  function MergeBody(variables: map<string, Value>, data: string, parse: Parser): (r: Merge)
    ensures data == [] ==> r == Merged(variables)
    ensures r.Merged? ==> variables.Keys <= r.arguments.Keys
    ensures data != [] && parse(data).Malformed? ==> r == BodyMalformed
  {
    if data == [] then Merged(variables)
    else match parse(data)
      case Malformed => BodyMalformed
      case Parsed(body) => UpdateWith(variables, body)
  }

  /**
    The keyword arguments the handler is called with: every merged argument
    decoded, plus the request under `arsa_request` if the route asks for it.
   */
  function HandlerArguments(view: RouteView, req: Request, arguments: map<string, Value>): (kwargs: map<string, Value>)
    ensures kwargs.Keys == arguments.Keys + (if view.injectRequest then {"arsa_request"} else {})
    ensures view.injectRequest ==> kwargs["arsa_request"] == RequestObject(req)
    ensures forall k :: k in arguments && !(view.injectRequest && k == "arsa_request") ==>
              kwargs[k] == DecodeEntry(view.conditions, k, arguments[k])
  {
    var decoded := Decoded(view.conditions, arguments);
    if view.injectRequest then decoded["arsa_request" := RequestObject(req)] else decoded
  }

  /**
    What the handler's outcome becomes: its value serialised with the
    route's mimetype, an error response, or a fault.  The answer is 200
    exactly when the handler returned, and nothing but a non-HTTP exception
    leaves unanswered.
   */
  function Finish(view: RouteView, result: HandlerOutcome): (r: Outcome)
    ensures result.Returned? <==> r.Responded? && r.response.status == 200
    ensures result.RaisedOther? <==> r.Propagated?
    ensures r.Responded? && r.response.status == 200 ==> r.response.mimetype == view.mimetype
  {
    match result
    case Returned(v) => Responded(Response(200, [], view.mimetype, Dumps(v)))
    case RaisedHttp(e) => Responded(ErrorResponse(e))
    case RaisedOther(x) => Propagated(HandlerFault(x))
  }

  /** The `app` closure of `create_app`, over a bound map: the patterns matched against and the routes they stand for. */
  function Pipeline(patterns: seq<Pattern>, views: seq<RouteView>, req: Request,
                    matcher: Matcher, parse: Parser, invoke: Invoker): (r: Outcome)
    requires InRange(matcher(patterns, req.path, req.verb), |views|)
    ensures r.Responded? ==> r.response.status == 200 || r.response.status >= 300
    ensures r.Propagated? ==> matcher(patterns, req.path, req.verb).Matched?
    ensures r.Propagated? && r.fault.BodyNotUpdatable? ==> req.data != []
  {
    match matcher(patterns, req.path, req.verb)
    case MatchFailed(e) => Responded(ErrorResponse(e))
    case Matched(i, variables) =>
      var view := views[i];
      match MergeBody(variables, req.data, parse)
      case BodyMalformed => Responded(ErrorResponse(BadRequest(MalformedBody)))
      case NotUpdatable => Propagated(BodyNotUpdatable)
      case Merged(arguments) =>
        match HasValidArguments(view.conditions, arguments)
        case Rejected(message) => Responded(ErrorResponse(BadRequest(message)))
        case Raised(error) => Propagated(ArgumentFault(error))
        case Accepted =>
          if NestedAreMappings(view.conditions, arguments) then
            Finish(view, invoke(view.endpoint, HandlerArguments(view, req, arguments)))
          else Propagated(NotDecodable)
  }

  // ---------------------------------------------------------------------------
  // The Lambda proxy boundary of `handler`

  /** The parts of an API Gateway proxy event the request is built from. */
  datatype ProxyEvent = ProxyEvent(path: string, httpMethod: string, body: Option<string>)

  /** `{"statusCode": ..., "body": ...}`, or the fault that left the application. */
  datatype ProxyResult = ProxyResponse(statusCode: nat, body: Json) | Failed(fault: Fault)

  function EventRequest(event: ProxyEvent): Request
  {
    Request(event.httpMethod, event.path, if event.body.Some? then event.body.value else "")
  }

  function ProxyOf(outcome: Outcome): ProxyResult
  {
    match outcome
    case Responded(r) => ProxyResponse(r.status, r.body)
    case Propagated(f) => Failed(f)
  }

  // ---------------------------------------------------------------------------
  // The application object

  class Arsa {
    const factory: RouteFactory
    var routes: Option<seq<Route>>       // the bound `Map`, once built: its routes ...
    var patterns: seq<Pattern>           // ... and what it matches them by
    var authorizerFunc: Option<AuthorizerFunc>

    ghost predicate Valid()
      reads this, factory
    {
      && factory.Valid()
      && (routes.Some? ==> |patterns| == |routes.value|)
    }

    /** `Arsa()`: an empty factory, no bound map, no authorizer. */
    constructor ()
      ensures Valid() && fresh(factory)
      ensures factory.routes == map[] && routes == None && authorizerFunc == None
    {
      factory := new RouteFactory();
      routes := None;
      patterns := [];
      authorizerFunc := None;
    }

    /**
      The `route(rule, methods, content_type, inject_request)` decorator
      applied to a handler: its route (created if new, and then added last)
      gets the rule, the upper-cased methods (`GET` when none are given),
      the content type (`application/json` when none is given) and the
      injection flag (false when not given); its conditions and every other
      route stay as they were.  A bare string as methods fails (ok is false)
      after the rule, content type and flag are stored.
     */
    method Route(endpoint: Endpoint, rule: string, methods: MethodsArg, contentType: Arg<Option<string>>, injectRequest: Arg<bool>)
      returns (ok: bool)
      requires Valid()
      modifies factory, factory.routes.Values
      ensures Valid() && routes == old(routes) && patterns == old(patterns) && authorizerFunc == old(authorizerFunc)
      ensures endpoint in factory.routes && factory.routes[endpoint].endpoint == endpoint
      ensures ok <==> !methods.BareString?
      ensures var r := factory.routes[endpoint];
        && r.rule == rule
        && (methods.Unspecified? ==> r.methods == Some({"GET"}))
        && (methods.Names? ==> r.methods == Some(UpperSet(methods.names)))
        && (contentType.Omitted? ==> r.mimetype == Some("application/json"))
        && (contentType.Passed? ==> r.mimetype == contentType.value)
        && (injectRequest.Omitted? ==> !r.injectRequest)
        && (injectRequest.Passed? ==> r.injectRequest == injectRequest.value)
      ensures methods.BareString? ==>
        factory.routes[endpoint].methods == if endpoint in old(factory.routes) then old(factory.routes[endpoint].methods) else None
      ensures endpoint in old(factory.routes) ==>
        && factory.routes == old(factory.routes) && factory.order == old(factory.order)
        && factory.routes[endpoint].conditions == old(factory.routes[endpoint].conditions)
        && factory.routes[endpoint].tokenRequired == old(factory.routes[endpoint].tokenRequired)
      ensures endpoint !in old(factory.routes) ==>
        && factory.routes == old(factory.routes)[endpoint := factory.routes[endpoint]]
        && factory.order == old(factory.order) + [endpoint]
        && factory.routes[endpoint].conditions == [] && !factory.routes[endpoint].tokenRequired
      ensures forall r :: r in old(factory.routes.Values) && r.endpoint != endpoint ==> unchanged(r)
    {
      var route := factory.RegisterEndpoint(endpoint);
      ok := route.SetRule(rule, DefaultMethods(methods), ArgOr(contentType, DefaultContentType), ArgOr(injectRequest, false));
      forall r | r in old(factory.routes.Values) && r.endpoint != endpoint ensures unchanged(r) {
        assert r != route;
      }
    }

    /** `authorizer()` applied to a function: it becomes the application authorizer. */
    method Authorizer(f: AuthorizerFunc)
      modifies this
      ensures authorizerFunc == Some(f)
      ensures routes == old(routes) && patterns == old(patterns)
    {
      authorizerFunc := Some(f);
    }

    /**
      What the `required(**kwargs)` (optional false) and `optional(**kwargs)`
      (optional true) decorators do to a handler: its route (created if new,
      and then added last) gets the conditions with that flag, overwriting
      same-named ones and keeping the others; a condition named `query` is
      refused (ok is false) and the table is left as it was.  Nothing else
      of that route, and no other route, changes.
     */
    method AddConditions(endpoint: Endpoint, optional: bool, conds: seq<(string, AttrType)>) returns (ok: bool)
      requires Valid() && DistinctKeys(conds)
      modifies factory, factory.routes.Values
      ensures Valid() && routes == old(routes) && patterns == old(patterns) && authorizerFunc == old(authorizerFunc)
      ensures endpoint in factory.routes && factory.routes[endpoint].endpoint == endpoint
      ensures ok <==> KeywordType(conds, "query").None?
      ensures var r := factory.routes[endpoint];
        forall k :: Lookup(r.conditions, k) ==
          if !ok then (if endpoint in old(factory.routes) then Lookup(old(factory.routes[endpoint].conditions), k) else None)
          else AddedLookup(if endpoint in old(factory.routes) then old(factory.routes[endpoint].conditions) else [], conds, optional, k)
      ensures endpoint in old(factory.routes) ==>
        && factory.routes == old(factory.routes) && factory.order == old(factory.order)
        && factory.routes[endpoint].rule == old(factory.routes[endpoint].rule)
        && factory.routes[endpoint].methods == old(factory.routes[endpoint].methods)
        && factory.routes[endpoint].mimetype == old(factory.routes[endpoint].mimetype)
        && factory.routes[endpoint].injectRequest == old(factory.routes[endpoint].injectRequest)
        && factory.routes[endpoint].tokenRequired == old(factory.routes[endpoint].tokenRequired)
      ensures endpoint !in old(factory.routes) ==>
        && factory.routes == old(factory.routes)[endpoint := factory.routes[endpoint]]
        && factory.order == old(factory.order) + [endpoint]
        && factory.routes[endpoint].rule == "/_arsa" && factory.routes[endpoint].methods == None
        && factory.routes[endpoint].mimetype == None && !factory.routes[endpoint].injectRequest
        && !factory.routes[endpoint].tokenRequired
      ensures forall r :: r in old(factory.routes.Values) && r.endpoint != endpoint ==> unchanged(r)
    {
      var route := factory.RegisterEndpoint(endpoint);
      ok := route.AddValidation(optional, conds);
      forall r | r in old(factory.routes.Values) && r.endpoint != endpoint ensures unchanged(r) {
        assert r != route;
      }
    }

    /** `required(**kwargs)`: conditions the request must satisfy. */
    method Required(endpoint: Endpoint, conds: seq<(string, AttrType)>) returns (ok: bool)
      requires Valid() && DistinctKeys(conds)
      modifies factory, factory.routes.Values
      ensures Valid() && routes == old(routes) && patterns == old(patterns) && authorizerFunc == old(authorizerFunc)
      ensures endpoint in factory.routes && factory.routes[endpoint].endpoint == endpoint
      ensures ok <==> KeywordType(conds, "query").None?
      ensures var r := factory.routes[endpoint];
        forall k :: Lookup(r.conditions, k) ==
          if !ok then (if endpoint in old(factory.routes) then Lookup(old(factory.routes[endpoint].conditions), k) else None)
          else AddedLookup(if endpoint in old(factory.routes) then old(factory.routes[endpoint].conditions) else [], conds, false, k)
      ensures endpoint in old(factory.routes) ==>
        && factory.routes == old(factory.routes) && factory.order == old(factory.order)
        && factory.routes[endpoint].rule == old(factory.routes[endpoint].rule)
        && factory.routes[endpoint].methods == old(factory.routes[endpoint].methods)
        && factory.routes[endpoint].mimetype == old(factory.routes[endpoint].mimetype)
        && factory.routes[endpoint].injectRequest == old(factory.routes[endpoint].injectRequest)
        && factory.routes[endpoint].tokenRequired == old(factory.routes[endpoint].tokenRequired)
      ensures endpoint !in old(factory.routes) ==>
        && factory.routes == old(factory.routes)[endpoint := factory.routes[endpoint]]
        && factory.order == old(factory.order) + [endpoint]
        && factory.routes[endpoint].rule == "/_arsa" && factory.routes[endpoint].methods == None
        && factory.routes[endpoint].mimetype == None && !factory.routes[endpoint].injectRequest
        && !factory.routes[endpoint].tokenRequired
      ensures forall r :: r in old(factory.routes.Values) && r.endpoint != endpoint ==> unchanged(r)
    {
      ok := AddConditions(endpoint, false, conds);
    }

    /** `optional(**kwargs)`: conditions checked only when the argument is present. */
    method Optional(endpoint: Endpoint, conds: seq<(string, AttrType)>) returns (ok: bool)
      requires Valid() && DistinctKeys(conds)
      modifies factory, factory.routes.Values
      ensures Valid() && routes == old(routes) && patterns == old(patterns) && authorizerFunc == old(authorizerFunc)
      ensures endpoint in factory.routes && factory.routes[endpoint].endpoint == endpoint
      ensures ok <==> KeywordType(conds, "query").None?
      ensures var r := factory.routes[endpoint];
        forall k :: Lookup(r.conditions, k) ==
          if !ok then (if endpoint in old(factory.routes) then Lookup(old(factory.routes[endpoint].conditions), k) else None)
          else AddedLookup(if endpoint in old(factory.routes) then old(factory.routes[endpoint].conditions) else [], conds, true, k)
      ensures endpoint in old(factory.routes) ==>
        && factory.routes == old(factory.routes) && factory.order == old(factory.order)
        && factory.routes[endpoint].rule == old(factory.routes[endpoint].rule)
        && factory.routes[endpoint].methods == old(factory.routes[endpoint].methods)
        && factory.routes[endpoint].mimetype == old(factory.routes[endpoint].mimetype)
        && factory.routes[endpoint].injectRequest == old(factory.routes[endpoint].injectRequest)
        && factory.routes[endpoint].tokenRequired == old(factory.routes[endpoint].tokenRequired)
      ensures endpoint !in old(factory.routes) ==>
        && factory.routes == old(factory.routes)[endpoint := factory.routes[endpoint]]
        && factory.order == old(factory.order) + [endpoint]
        && factory.routes[endpoint].rule == "/_arsa" && factory.routes[endpoint].methods == None
        && factory.routes[endpoint].mimetype == None && !factory.routes[endpoint].injectRequest
        && !factory.routes[endpoint].tokenRequired
      ensures forall r :: r in old(factory.routes.Values) && r.endpoint != endpoint ==> unchanged(r)
    {
      ok := AddConditions(endpoint, true, conds);
    }

    /**
      `authorize(auth_event, context)`: the policy document of the
      application authorizer's policy if there is one, else of the default
      policy (allow, principal = token).
     */
    function Authorize(event: AuthEvent, context: Value): (d: AuthResponse)
      reads this
      ensures authorizerFunc.None? ==> d == AsDict(NewPolicy(event, true, NoneValue))
      ensures authorizerFunc.Some? ==> d == AsDict(authorizerFunc.value(event, context))
    {
      var policy := DefaultPolicy(event);
      AsDict(if authorizerFunc.Some? then authorizerFunc.value(event, context) else policy)
    }

    /**
      `create_app()`: binds the map on the first call, from the routes the
      factory holds at that moment, and keeps that map on every later call.
     */
    method CreateApp()
      requires Valid()
      modifies this
      ensures Valid() && routes.Some? && authorizerFunc == old(authorizerFunc)
      ensures old(routes).Some? ==> routes == old(routes) && patterns == old(patterns)
      ensures old(routes).None? ==> routes == Some(old(factory.GetRules())) && patterns == Patterns(routes.value)
    {
      if routes.None? {
        var rules := factory.GetRules();
        routes := Some(rules);
        patterns := Patterns(rules);
      }
    }

    /** The `app` closure: one request through the bound map, as `Pipeline` describes it. */
    method App(req: Request, matcher: Matcher, parse: Parser, invoke: Invoker) returns (outcome: Outcome)
      requires routes.Some? && |patterns| == |routes.value| && MatcherContract(matcher)
      ensures InRange(matcher(patterns, req.path, req.verb), |routes.value|)
      ensures outcome == Pipeline(patterns, Views(routes.value), req, matcher, parse, invoke)
    {
      var bound := routes.value;
      ghost var views := Views(bound);
      match matcher(patterns, req.path, req.verb) {
        case MatchFailed(e) =>
          return Responded(ErrorResponse(e));
        case Matched(i, variables) =>
          var rule := bound[i];
          assert views[i] == View(rule);
          var arguments := variables;
          if req.data != [] {
            match parse(req.data) {
              case Malformed =>
                return Responded(ErrorResponse(BadRequest(MalformedBody)));
              case Parsed(body) =>
                match UpdateWith(arguments, body) {
                  case BodyMalformed =>
                    return Responded(ErrorResponse(BadRequest(MalformedBody)));
                  case NotUpdatable =>
                    return Propagated(BodyNotUpdatable);
                  case Merged(updated) =>
                    arguments := updated;
                }
            }
          }
          assert MergeBody(variables, req.data, parse) == Merged(arguments);
          match HasValidArguments(rule.conditions, arguments) {
            case Rejected(message) =>
              return Responded(ErrorResponse(BadRequest(message)));
            case Raised(error) =>
              return Propagated(ArgumentFault(error));
            case Accepted =>
          }
          var decodedOrNone := rule.DecodeArguments(arguments);
          if decodedOrNone.None? {
            return Propagated(NotDecodable);
          }
          var decoded := decodedOrNone.value;
          if rule.injectRequest {
            decoded := decoded["arsa_request" := RequestObject(req)];
          }
          assert decoded == HandlerArguments(views[i], req, arguments);
          match invoke(rule.endpoint, decoded) {
            case Returned(v) =>
              outcome := Responded(Response(200, [], rule.mimetype, Dumps(v)));
            case RaisedHttp(e) =>
              outcome := Responded(ErrorResponse(e));
            case RaisedOther(x) =>
              outcome := Propagated(HandlerFault(x));
          }
      }
    }

    /**
      `handler(event, context)`: builds the request from the proxy event,
      serves it through the (bound once) application and answers with the
      status code and body.
     */
    method Handler(event: ProxyEvent, matcher: Matcher, parse: Parser, invoke: Invoker) returns (result: ProxyResult)
      requires Valid() && MatcherContract(matcher)
      modifies this
      ensures Valid() && routes.Some? && (old(routes).Some? ==> routes == old(routes))
      ensures InRange(matcher(patterns, event.path, event.httpMethod), |routes.value|)
      ensures result == ProxyOf(Pipeline(patterns, Views(routes.value), EventRequest(event), matcher, parse, invoke))
    {
      CreateApp();
      var outcome := App(EventRequest(event), matcher, parse, invoke);
      result := ProxyOf(outcome);
    }
  }

  // ---------------------------------------------------------------------------
  // Properties of the pipeline

  /** Arguments merged from a body: the body's keys win, path variables fill in the rest. */
  lemma BodyWinsOverPathVariables(variables: map<string, Value>, data: string, parse: Parser)
    requires data != [] && parse(data).Parsed? && parse(data).value.Dict?
    ensures var body := parse(data).value.entries;
      && MergeBody(variables, data, parse).Merged?
      && MergeBody(variables, data, parse).arguments.Keys == variables.Keys + body.Keys
      && (forall k :: k in body ==> MergeBody(variables, data, parse).arguments[k] == body[k])
      && (forall k :: k in variables && k !in body ==> MergeBody(variables, data, parse).arguments[k] == variables[k])
  {
  }

  /** The keys of the pairs among `items`. */
  function PairKeys(items: seq<Value>): (keys: set<string>)
    ensures forall i :: 0 <= i < |items| && PairOf(items[i]).Pair? ==> PairOf(items[i]).key in keys
  {
    if items == [] then {}
    else
      assert forall i :: 0 < i < |items| ==> items[i] == items[1..][i - 1];
      (if PairOf(items[0]).Pair? then {PairOf(items[0]).key} else {}) + PairKeys(items[1..])
  }

  /**
    A body that is a list of pairs is merged over the path variables: the
    keys are the variables' and the pairs' keys, and a variable that no pair
    names keeps its value.
   */
  lemma {:induction false} PairsMerge(arguments: map<string, Value>, items: seq<Value>)
    requires forall i :: 0 <= i < |items| ==> PairOf(items[i]).Pair?
    ensures UpdatePairs(arguments, items).Merged?
    ensures UpdatePairs(arguments, items).arguments.Keys == arguments.Keys + PairKeys(items)
    ensures forall k :: k in arguments && k !in PairKeys(items) ==> UpdatePairs(arguments, items).arguments[k] == arguments[k]
    decreases |items|
  {
    if items != [] {
      var p := PairOf(items[0]);
      assert forall i :: 0 < i < |items| ==> items[i] == items[1..][i - 1];
      PairsMerge(arguments[p.key := p.value], items[1..]);
    }
  }

  /** The last pair naming a key gives that key its value. */
  lemma {:induction false} PairsMergeLastWins(arguments: map<string, Value>, items: seq<Value>, i: nat)
    requires forall j :: 0 <= j < |items| ==> PairOf(items[j]).Pair?
    requires i < |items| && forall j :: i < j < |items| ==> PairOf(items[j]).key != PairOf(items[i]).key
    ensures UpdatePairs(arguments, items).Merged?
    ensures PairOf(items[i]).key in UpdatePairs(arguments, items).arguments
    ensures UpdatePairs(arguments, items).arguments[PairOf(items[i]).key] == PairOf(items[i]).value
    decreases |items|
  {
    var p := PairOf(items[0]);
    var rest := items[1..];
    assert forall j :: 0 < j < |items| ==> items[j] == rest[j - 1];
    PairsMerge(arguments, items);
    if i == 0 {
      PairKeysExactly(rest, p.key);
      PairsMerge(arguments[p.key := p.value], rest);
    } else {
      PairsMergeLastWins(arguments[p.key := p.value], rest, i - 1);
    }
  }

  /** The keys in `PairKeys(items)` are exactly the keys of the pairs. */
  lemma {:induction false} PairKeysExactly(items: seq<Value>, k: string)
    ensures k in PairKeys(items) <==> exists i :: 0 <= i < |items| && PairOf(items[i]).Pair? && PairOf(items[i]).key == k
    decreases |items|
  {
    if items != [] && !(PairOf(items[0]).Pair? && PairOf(items[0]).key == k) {
      PairKeysExactly(items[1..], k);
      assert forall i :: 0 < i < |items| ==> items[i] == items[1..][i - 1];
      if k in PairKeys(items[1..]) {
        var i :| 0 <= i < |items[1..]| && PairOf(items[1..][i]).Pair? && PairOf(items[1..][i]).key == k;
        assert items[i + 1] == items[1..][i];
      }
    }
  }

  /**
    Bodies that are not objects, as `dict.update` takes them: a non-empty
    str or a list holding a str of another length than two is a `ValueError`
    (answered 400); a two-character str and a two-element list are pairs;
    a number, or a list holding one, is a `TypeError`.
   */
  lemma BodyShapesScenario(m: map<string, Value>)
    ensures UpdateWith(m, Str("x")) == BodyMalformed
    ensures UpdateWith(m, List([Str("abc")])) == BodyMalformed
    ensures UpdateWith(m, List([Str("ab")])) == Merged(m["a" := Str("b")])
    ensures UpdateWith(m, List([List([Str("name"), Int(1)])])) == Merged(m["name" := Int(1)])
    ensures UpdateWith(m, Int(0)) == NotUpdatable
    ensures UpdateWith(m, List([Int(1)])) == NotUpdatable
  {
    assert PairOf(Str("ab")) == Pair("a", Str("b"));
    assert [List([Str("ab")]).items[0]] == [Str("ab")];
    assert PairOf(List([Str("name"), Int(1)])) == Pair("name", Int(1));
  }

  /** A failed match answers with that error, whatever the body and the handler. */
  lemma MatchFailureShortCircuits(patterns: seq<Pattern>, views: seq<RouteView>, req: Request,
                                  matcher: Matcher, parse: Parser, invoke: Invoker, invoke': Invoker)
    requires matcher(patterns, req.path, req.verb).MatchFailed?
    ensures Pipeline(patterns, views, req, matcher, parse, invoke)
            == Pipeline(patterns, views, req, matcher, parse, invoke')
            == Responded(ErrorResponse(matcher(patterns, req.path, req.verb).error))
  {
  }

  /** With no routes bound every request is answered 404. */
  lemma EmptyMapIsNotFound(req: Request, matcher: Matcher, parse: Parser, invoke: Invoker)
    requires MatcherContract(matcher)
    ensures InRange(matcher([], req.path, req.verb), 0)
    ensures Pipeline([], [], req, matcher, parse, invoke).Responded?
    ensures Pipeline([], [], req, matcher, parse, invoke).response.status == 404
  {
    assert InRange(matcher([], req.path, req.verb), 0);
  }

  /**
    A malformed body is answered 400 "JSON body was malformed" before
    validation: the outcome is the same whatever the route's conditions and
    whatever the handler would do.
   */
  lemma MalformedBodyIsBadRequest(patterns: seq<Pattern>, views: seq<RouteView>, req: Request,
                                  matcher: Matcher, parse: Parser, invoke: Invoker, invoke': Invoker)
    requires InRange(matcher(patterns, req.path, req.verb), |views|)
    requires matcher(patterns, req.path, req.verb).Matched?
    requires req.data != [] && parse(req.data).Malformed?
    ensures Pipeline(patterns, views, req, matcher, parse, invoke)
            == Pipeline(patterns, views, req, matcher, parse, invoke')
            == Responded(ErrorResponse(BadRequest(MalformedBody)))
    ensures Pipeline(patterns, views, req, matcher, parse, invoke).response.status == 400
  {
  }

  /**
    Arguments that fail validation with an `ArgumentKeyError` are answered
    400 carrying its message, and the handler is not consulted.
   */
  lemma RejectedArgumentsAreBadRequest(patterns: seq<Pattern>, views: seq<RouteView>, req: Request,
                                       matcher: Matcher, parse: Parser, invoke: Invoker, invoke': Invoker)
    requires InRange(matcher(patterns, req.path, req.verb), |views|)
    requires matcher(patterns, req.path, req.verb).Matched?
    requires var m := matcher(patterns, req.path, req.verb);
      && MergeBody(m.variables, req.data, parse).Merged?
      && var c := ValidArguments(MergeBody(m.variables, req.data, parse).arguments, views[m.index].conditions);
         c.Fail? && c.error.IsArgumentKeyError()
    ensures var m := matcher(patterns, req.path, req.verb);
      var c := ValidArguments(MergeBody(m.variables, req.data, parse).arguments, views[m.index].conditions);
      && Pipeline(patterns, views, req, matcher, parse, invoke)
         == Pipeline(patterns, views, req, matcher, parse, invoke')
         == Responded(ErrorResponse(BadRequest(c.error.Message())))
      && Pipeline(patterns, views, req, matcher, parse, invoke).response.status == 400
  {
  }

  /**
    When everything before it succeeds, the handler is called with the
    decoded arguments (every key of the merged arguments, and
    `arsa_request` exactly when the route asks for it or the caller sent
    it) and its value is answered 200 with the route's mimetype.
   */
  lemma HandlerSeesDecodedArguments(patterns: seq<Pattern>, views: seq<RouteView>, req: Request,
                                    matcher: Matcher, parse: Parser, invoke: Invoker)
    requires InRange(matcher(patterns, req.path, req.verb), |views|)
    requires matcher(patterns, req.path, req.verb).Matched?
    requires var m := matcher(patterns, req.path, req.verb);
      && MergeBody(m.variables, req.data, parse).Merged?
      && ValidArguments(MergeBody(m.variables, req.data, parse).arguments, views[m.index].conditions).Pass?
    ensures var m := matcher(patterns, req.path, req.verb);
      var view := views[m.index];
      var arguments := MergeBody(m.variables, req.data, parse).arguments;
      var kwargs := HandlerArguments(view, req, arguments);
      && kwargs.Keys == arguments.Keys + (if view.injectRequest then {"arsa_request"} else {})
      && (view.injectRequest ==> kwargs["arsa_request"] == RequestObject(req))
      && (NestedAreMappings(view.conditions, arguments) ==>
            Pipeline(patterns, views, req, matcher, parse, invoke) == Finish(view, invoke(view.endpoint, kwargs)))
      && (NestedAreMappings(view.conditions, arguments) && invoke(view.endpoint, kwargs).Returned? ==>
            Pipeline(patterns, views, req, matcher, parse, invoke)
            == Responded(Response(200, [], view.mimetype, Dumps(invoke(view.endpoint, kwargs).value))))
      && (!NestedAreMappings(view.conditions, arguments) ==>
            Pipeline(patterns, views, req, matcher, parse, invoke) == Propagated(NotDecodable))
  {
  }

  /**
    A 200 answer only ever comes from a handler that returned: every HTTP
    exception carries a code of 300 or more.
   */
  lemma OkOnlyFromHandler(patterns: seq<Pattern>, views: seq<RouteView>, req: Request,
                          matcher: Matcher, parse: Parser, invoke: Invoker)
    requires InRange(matcher(patterns, req.path, req.verb), |views|)
    requires Pipeline(patterns, views, req, matcher, parse, invoke).Responded?
    requires Pipeline(patterns, views, req, matcher, parse, invoke).response.status == 200
    ensures var m := matcher(patterns, req.path, req.verb);
      && m.Matched?
      && MergeBody(m.variables, req.data, parse).Merged?
      && ValidArguments(MergeBody(m.variables, req.data, parse).arguments, views[m.index].conditions).Pass?
      && NestedAreMappings(views[m.index].conditions, MergeBody(m.variables, req.data, parse).arguments)
      && invoke(views[m.index].endpoint, HandlerArguments(views[m.index], req, MergeBody(m.variables, req.data, parse).arguments)).Returned?
  {
  }

  /** A handler raising `Redirect(location)` is answered 302 with that location. */
  lemma RedirectFromHandler(view: RouteView, location: string)
    ensures Finish(view, RaisedHttp(Redirect(location))).Responded?
    ensures Finish(view, RaisedHttp(Redirect(location))).response.status == 302
    ensures Finish(view, RaisedHttp(Redirect(location))).response.headers == [("Location", location)]
  {
  }

  /** Any other exception from the handler leaves the application unanswered. */
  lemma OtherHandlerExceptionsPropagate(view: RouteView, exception: string)
    ensures Finish(view, RaisedOther(exception)) == Propagated(HandlerFault(exception))
  {
  }

  /** A matcher that sends every request to the first route, with no path variables. */
  function FirstRoute(ps: seq<Pattern>, path: string, verb: string): MatchOutcome
  {
    Matched(0, map[])
  }

  /** A parser that reads every body as `{"name": 1}`. */
  function NameIsOne(data: string): Body
  {
    Parsed(Dict(map["name" := Int(1)]))
  }

  /** The condition table of a route declared with `required(name=str)`. */
  function NameIsStr(): seq<Prop>
  {
    [Prop("name", Attribute(Primitive(StrType), false))]
  }

  /** `{"name": 1}` fails `required(name=str)` with the type message. */
  lemma IntNameRejected()
    ensures HasValidArguments(NameIsStr(), map["name" := Int(1)]) == Rejected("argument name was not of the type <class 'str'>")
  {
    var arguments := map["name" := Int(1)];
    var conditions := [Prop("name", Attribute(Primitive(StrType), false))];
    assert CheckAttribute(arguments, conditions[0]) == Fail(NotOfType("name", Primitive(StrType)));
    assert ValidArguments(arguments, conditions) == Fail(NotOfType("name", Primitive(StrType)));
    assert TypeRepr(Primitive(StrType)) == "<class 'str'>";
    assert "argument " + "name" == "argument name";
    assert "argument name" + " was not of the type " == "argument name was not of the type ";
    assert "argument name was not of the type " + "<class 'str'>" == "argument name was not of the type <class 'str'>";
  }

  /**
    A route requiring `name: str` that receives `{"name": 1}` as its body is
    answered 400 naming the argument and the type.
   */
  lemma WrongTypeInBodyScenario(invoke: Invoker)
    ensures Pipeline([Pattern("/hello", Some({"POST"}))],
                     [RouteView(Endpoint(0, "hello"), NameIsStr(), DefaultContentType, false)],
                     Request("POST", "/hello", "{\"name\": 1}"), FirstRoute, NameIsOne, invoke)
            == Responded(ErrorResponse(BadRequest("argument name was not of the type <class 'str'>")))
  {
    assert MergeBody(map[], "{\"name\": 1}", NameIsOne) == Merged(map["name" := Int(1)]);
    IntNameRejected();
  }
}

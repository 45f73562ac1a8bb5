/**
  The HTTP-side vocabulary the dispatcher works with: the exceptions it
  catches (werkzeug's `HTTPException` family and arsa's own `Redirect`),
  the outcome of URL matching, the outcome of calling a handler, and the
  response it builds.

  URL matching itself is werkzeug's and is not part of this model: it is a
  function parameter whose only known properties are stated by
  `MatcherContract`.
 */
module Http {
  import opened Wrappers
  import opened Text
  import opened ArsaModel
  import opened ArsaUtil

  /** A status code an exception other than the named ones can carry. */
  type ErrorCode = c: nat | 300 <= c < 600 witness 500

  datatype HttpError =
    | BadRequest(description: string)
    | NotFound(description: string)
    | MethodNotAllowed(description: string)
    | Redirect(location: string)                                    // arsa/exceptions.py
    | Other(code: ErrorCode, name: string, description: string)
  {
    /** The exception's `code`. */
    function Code(): (c: nat)
      ensures 300 <= c < 600
      ensures BadRequest? ==> c == 400
      ensures Redirect? ==> c == 302
      ensures NotFound? ==> c == 404
      ensures MethodNotAllowed? ==> c == 405
      ensures Other? ==> c == code
    {
      match this
      case BadRequest(_) => 400
      case NotFound(_) => 404
      case MethodNotAllowed(_) => 405
      case Redirect(_) => 302
      case Other(code, _, _) => code
    }

    /** The status text of the code. */
    function Name(): string
    {
      match this
      case BadRequest(_) => "Bad Request"
      case NotFound(_) => "Not Found"
      case MethodNotAllowed(_) => "Method Not Allowed"
      case Redirect(_) => "Found"
      case Other(_, name, _) => name
    }

    /** `str(error)`: code, name and description; `Redirect` sets no description. */
    function Text(): (t: string)
      ensures NatToString(Code()) <= t
      ensures !Redirect? ==> |description| <= |t| && t[|t| - |description|..] == description
    {
      NatToString(Code()) + " " + Name() + ": " + (if Redirect? then "None" else description)
    }

    /** `get_headers()`: `Redirect` sends only its `Location`, every other exception the HTML content type. */
    function Headers(): (hs: seq<(string, string)>)
      ensures |hs| == 1
      ensures Redirect? ==> hs[0] == ("Location", location)
      ensures !Redirect? ==> hs[0].0 == "Content-Type"
    {
      if Redirect? then [("Location", location)] else [("Content-Type", "text/html; charset=utf-8")]
    }
  }

  /** What URL matching sees of a route: its rule and its method set. */
  datatype Pattern = Pattern(rule: string, methods: Option<set<string>>)

  /** `routes.match(path, method=..., return_rule=True)`: the matched route's position and the path variables, or an HTTP error. */
  datatype MatchOutcome =
    | Matched(index: nat, variables: map<string, Value>)
    | MatchFailed(error: HttpError)

  /** The outcome of a match names one of the routes that were matched against. */
  predicate InRange(outcome: MatchOutcome, count: nat)
  {
    outcome.Matched? ==> outcome.index < count
  }

  /**
    The properties of werkzeug's matcher this model relies on: a match names
    one of the patterns, and with no patterns at all every path is not found.
   */
  ghost predicate MatcherContract(matcher: (seq<Pattern>, string, string) -> MatchOutcome)
  {
    forall ps, path, verb ::
      && InRange(matcher(ps, path, verb), |ps|)
      && (ps == [] ==> matcher(ps, path, verb).MatchFailed? && matcher(ps, path, verb).error.NotFound?)
  }

  /** What calling a handler does: it returns a value, raises an HTTP exception, or raises anything else. */
  datatype HandlerOutcome =
    | Returned(value: Value)
    | RaisedHttp(error: HttpError)
    | RaisedOther(exception: string)

  /** A werkzeug `Response`: status, explicit headers, mimetype (`None` for the default) and JSON body. */
  datatype Response = Response(status: nat, headers: seq<(string, string)>, mimetype: Option<string>, body: Json)

  /**
    The response built for a caught HTTP exception: its code, its headers and
    `json.dumps(error, default=to_serializable)` as the body, which is the
    JSON string of `str(error)`.
   */
  function ErrorResponse(e: HttpError): (r: Response)
    ensures r.status == e.Code() && r.headers == e.Headers() && r.mimetype == None
    ensures r.body == JStr(e.Text())
  {
    Response(e.Code(), e.Headers(), None, Dumps(PyObject(e.Text())))
  }

  /** `Redirect(location)` answers 302 with the location header and the body `"302 Found: None"`. */
  lemma RedirectResponse(location: string)
    ensures ErrorResponse(Redirect(location)) ==
            Response(302, [("Location", location)], None, JStr("302 Found: None"))
  {
    assert NatToString(302) == "302";
    assert "302" + " " == "302 ";
    assert "302 " + "Found" == "302 Found";
    assert "302 Found" + ": " == "302 Found: ";
    assert "302 Found: " + "None" == "302 Found: None";
  }

  /** `BadRequest(message)` answers 400 with the HTML content type and the message in the body. */
  lemma BadRequestResponse(message: string)
    ensures ErrorResponse(BadRequest(message)) ==
            Response(400, [("Content-Type", "text/html; charset=utf-8")], None, JStr("400 Bad Request: " + message))
  {
    assert NatToString(400) == "400";
    var prefix := "400" + " " + "Bad Request" + ": ";
    assert prefix == "400 Bad Request: ";
    assert BadRequest(message).Text() == prefix + message;
  }
}

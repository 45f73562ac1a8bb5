# arsa request dispatch, modelled in Dafny

arsa is a small Python framework for serving HTTP routes from AWS Lambda.
A handler is registered with decorators: `route` gives the URL rule, the
methods and the content type, `required` and `optional` give typed keyword
conditions, and `token_required` marks a route that needs a token (SDK only).
An incoming API Gateway proxy event then goes through these steps:

1. it is matched against the bound rule map;
2. the JSON body is merged over the path variables;
3. the merged arguments are checked against the route's conditions;
4. arguments whose condition is a model class become model instances;
5. the handler is called, and its result is serialised as JSON.

A malformed body and an argument that fails validation are answered
400. A failed match is answered with werkzeug's error, and a `Redirect`
raised by the handler is answered 302. Any other exception from the
handler propagates. A separate authorizer entry point builds an API
Gateway IAM policy document. The `arsa_sdk` package exposes the same
registry as a singleton. Its `serve` calls a handler directly: it matches
the URL, merges the path variables over the keyword arguments, validates
them and checks the token.

The project is split into these modules:

- `Text` (text.dfy) holds the Python string operations the core relies on: `rfind`, slice bounds, ASCII `upper()`, and name ordering.
- `ArsaModel` (model.dfy) covers `Attribute`, `Model._get_properties` and `valid_arguments`, with arguments as a Python value tree.
- `ArsaRoutes` (routes.dfy) holds the `Route` and `RouteFactory` classes, which are mutable. The condition dict is modelled as an insertion-ordered table whose type guarantees one entry per key. It also holds `has_valid_arguments` and `decode_arguments`.
- `ArsaPolicy` (policy.dfy) covers `Policy`: the resource ARN cut and `as_dict`.
- `ArsaUtil` (util.dfy) covers `to_serializable` and `json.dumps` over a JSON tree.
- `Http` (http.dfy) holds the HTTP exceptions the application catches, their codes and headers, the matcher's outcome and the error response.
- `ArsaApp` (arsa.dfy) holds the `Arsa` application class: `create_app` and the `app` closure. The closure is proved equal to the function `Pipeline`. The module also has `handler` and `authorize`.
- `ArsaSdk` (sdk.dfy) holds the SDK singleton and `serve`. `serve` is proved equal to the function `ServeSpec`.

werkzeug's URL matcher is a function parameter. The same goes for the JSON
text parser and for the handler itself. The only assumption made about the
matcher is `Http.MatcherContract`: a match names one of the bound routes,
and an empty map matches nothing.

## Model

| member | source | states |
|---|---|---|
| Text.RFind | arsa/policy.py:14 | `str.rfind(c, 0, end)`: -1 or an index below `end` that holds `c`, with no `c` after it before `end` |
| Text.SliceBound | arsa/policy.py:15 | a Python slice end: kept when in `0..n`, counted from the end when negative, `n` when above `n`, 0 when below `-n` |
| Text.ToUpper | arsa/routes.py:25 | `upper()` keeps the length and upper-cases each ASCII letter, position by position |
| ArsaModel.NewInstance | arsa/routes.py:49 | `attr_type(**value)` gives an instance of that model class holding exactly the keyword mapping |
| ArsaModel.AttributeMembers | arsa/model.py:18 | `getmembers` filtered to `Attribute` members: exactly the attribute members of the class |
| ArsaModel.SortByName | arsa/model.py:18 | `getmembers` order: the result is sorted by name and is a permutation of the input |
| ArsaModel.GetProperties | arsa/model.py:14-21 | `_get_properties`: sorted by name, containing a property iff the class declares that attribute |
| ArsaModel.GetPropertiesOrdersByName | arsa/model.py:14-21 | other members are dropped and attributes come out in name order, whatever the declaration order |
| ArsaModel.IsInstance | arsa/model.py:28 | `isinstance` on the primitive types: a `bool` is an instance of `int` and `bool`, an `int` only of `int`, and `None` of none of them |
| ArsaModel.ArgError.Message | arsa/model.py:29-37 | the `ArgumentKeyError` message names the offending key |
| ArsaModel.ContainsKey | arsa/model.py:34-36 | `key in value` on a non-dict: a substring test on a str, a membership test on a list, `TypeError` on anything else |
| ArsaModel.ValidNonMapping | arsa/model.py:25-39 | a nested model checked against a str, list or scalar follows the same loop; it passes iff every attribute is optional and the `in` test does not find its name |
| ArsaModel.ValidArgument | arsa/model.py:25-30 | a list-of condition checks only that the value is a list; a primitive failure is "not of the type" for that name and type |
| ArsaModel.CheckAttribute | arsa/model.py:33-39 | an absent key passes iff its attribute is optional, and a missing required key is "not detected" |
| ArsaModel.ValidArguments | arsa/model.py:23-41 | a table whose attributes are all optional and all absent passes |
| ArsaModel.ValidArgumentsFirstFailure | arsa/model.py:32-41 | validation passes iff every entry passes; a failure is the failure of the first failing entry (fail-fast) |
| ArsaModel.MissingRequiredFails | arsa/model.py:36-37 | a missing required key fails validation, with "not detected" for that key when the earlier entries pass |
| ArsaModel.WrongPrimitiveFails | arsa/model.py:28-29 | a present value that is not an instance of its primitive type fails with "not of the type" for that key |
| ArsaModel.OptionalAbsentIsSkipped | arsa/model.py:33-35 | an absent optional attribute does not affect the outcome: validation equals validation without it |
| ArsaModel.PassMeansEveryAttributeHolds | arsa/model.py:23-41 | after a pass, every required key is present, every present value has its type, and a nested value (mapping or not) passes its model's check |
| ArsaModel.NonMappingPassesOnlyVacuously | arsa/model.py:25-39 | a non-dict nested value passes iff every attribute of the model is optional and not found in it; a str or list missing a required name is a 400-type error, not a `TypeError` |
| ArsaModel.RequiredModelScenario | test/test_routes.py:14-19 | a required model condition given a mapping with a `str` name passes |
| ArsaModel.ComplexModelScenario | test/test_routes.py:21-26 | a doubly nested model condition passes, validating both levels |
| ArsaModel.OptionalModelScenario | test/test_routes.py:28-35 | an optional model given `{}` fails because the model's own `name` is missing |
| ArsaModel.StrWithoutNameScenario | arsa/model.py:34-37 | `"hello"` for a required `TestModel` fails with "argument name was not detected." |
| ArsaModel.StrWithNameScenario | arsa/model.py:36-39 | `"my name"` for a required `TestModel` contains `name`, so the lookup raises `TypeError` |
| ArsaModel.ListAndIntScenarios | arsa/model.py:34-39 | `["name"]` raises `TypeError` at the lookup and `3` at the `in` test |
| ArsaRoutes.LookupIndexOf | arsa/routes.py:46-47 | a condition lookup finds the entry at the key's first index, or nothing |
| ArsaRoutes.Lookup | arsa/routes.py:46-47 | a key is found iff some entry has that name, and then that entry is in the table |
| ArsaRoutes.Put | arsa/routes.py:34 | after `d[k] = v` the entry is in the table, which grows by at most one |
| ArsaRoutes.Update | arsa/routes.py:34 | `dict.update` grows the table by at most the number of new entries |
| ArsaRoutes.PutLookup | arsa/routes.py:34 | assigning one key changes that key's lookup and no other |
| ArsaRoutes.PutKeepsOrder | arsa/routes.py:34 | assigning keeps the key order, appending a new key at the end, and keeps keys distinct |
| ArsaRoutes.UpdateLookup | arsa/routes.py:34 | `dict.update`: keys in the update take its value, other keys keep theirs |
| ArsaRoutes.UpdateKeepsOrder | arsa/routes.py:34 | `dict.update` keeps existing keys in place and keys distinct, and appends the update's new keys after them in the update's order |
| ArsaRoutes.PutNames | arsa/routes.py:34 | assigning a present key leaves the key order as it is; assigning an absent key appends it |
| ArsaRoutes.UpdateAppendsNewNames | arsa/routes.py:34 | after `dict.update` the keys are the old keys followed by the update's new keys, each once, in first-appearance order |
| ArsaRoutes.AsAttributes | arsa/routes.py:31-33 | each keyword condition becomes an `Attribute` of its type with the given optional flag, in order |
| ArsaRoutes.AsAttributesLookup | arsa/routes.py:31-33 | the built table maps each keyword to its `Attribute`, and nothing else |
| ArsaRoutes.HasValidArguments | arsa/routes.py:36-42 | accepted iff validation passes; an `ArgumentKeyError` becomes `BadRequest` with its message; any other error propagates as that same error |
| ArsaRoutes.DecodeEntry | arsa/routes.py:46-51 | a key without a condition and a list attribute are kept; a model-typed mapping becomes an instance of that model holding the mapping; anything else changed is a one-element list collapsed to its element |
| ArsaRoutes.Decoded | arsa/routes.py:44-53 | decoding keeps exactly the keys, and leaves keys without a condition alone |
| ArsaRoutes.ValidatedButNotDecodable | arsa/routes.py:44-49 | a validated model-typed argument that is not a mapping, which makes decoding raise `TypeError`, is one whose model's attributes are all optional and none found in it |
| ArsaRoutes.DecodeAfterValidation | arsa/routes.py:44-53 | decoding keeps the keys, builds model instances from mappings that validate against their model, collapses a one-element list under `list`, and leaves other values alone |
| ArsaRoutes.DefaultMethods | arsa/arsa.py:27-28 | with no methods given, the route is registered for exactly `GET`; given methods pass through |
| ArsaRoutes.UpperSet | arsa/routes.py:25 | the method set is exactly the upper-cased given names |
| ArsaRoutes.Route.constructor | arsa/routes.py:11-14 | a new route has the placeholder rule `/_arsa`, no methods, no mimetype, no conditions, no request injection and no token requirement |
| ArsaRoutes.Route.SetRule | arsa/routes.py:16-25 | sets rule and mimetype; methods become the upper-cased set, or stay unset for `None`; a bare string is refused; conditions are untouched |
| ArsaRoutes.Route.AddValidation | arsa/routes.py:27-34 | a `query` condition is refused and leaves the table unchanged; otherwise the table is updated and each key looks up its new `Attribute` |
| ArsaRoutes.Route.DecodeArguments | arsa/routes.py:44-53 | the loop yields the decoded mapping `Decoded` exactly when every model-typed argument is a mapping, and fails (`TypeError`) otherwise |
| ArsaRoutes.RouteFactory.constructor | arsa/routes.py:57-58 | a new factory holds no routes |
| ArsaRoutes.RouteFactory.GetRules | arsa/routes.py:60-62 | yields each registered route exactly once, in registration order |
| ArsaRoutes.RouteFactory.RegisterEndpoint | arsa/routes.py:64-68 | returns the existing route for a known handler, unchanged; otherwise a fresh route for it, appended last |
| ArsaRoutes.RouteFactory.Empty | arsa/routes.py:70-71 | afterwards no routes are registered and none are yielded |
| ArsaPolicy.ResourceArn | arsa/policy.py:12-15 | the result is a prefix of the ARN followed by the two wildcard segments |
| ArsaPolicy.ResourceCutsAtSecondToLastSlash | arsa/policy.py:14-15 | with two or more `/` the ARN is cut just before its second-to-last `/` |
| ArsaPolicy.ResourceWithFewerThanTwoSlashes | arsa/policy.py:14-15 | with fewer than two `/` the index is -1, so the last character is dropped before the wildcards |
| ArsaPolicy.ResourceOfMethodAndPath | arsa/policy.py:12-15 | `<stage>/<method>/<path>` with no `/` in method or path becomes `<stage>` plus the wildcards |
| ArsaPolicy.ResourceExample | arsa/policy.py:12-15 | `.../ymy8tbxw7b/v1/GET/{proxy+}` becomes `.../ymy8tbxw7b/v1` plus the wildcards |
| ArsaPolicy.NewPolicy | arsa/policy.py:3-10 | the token is the principal id; the resource is the cut ARN; allow and context as given |
| ArsaPolicy.DefaultPolicy | arsa/arsa.py:78 | `Policy(auth_event)`: allows, has no context, and names the token as principal on the cut resource |
| ArsaPolicy.AsDict | arsa/policy.py:17-30 | version 2012-10-17, one `execute-api:Invoke` statement on the resource, Allow iff the flag is set, principal id and context passed through |
| ArsaPolicy.DefaultPolicyAllows | arsa/policy.py:3-30 | the default policy allows, names the token as principal and has no context |
| ArsaUtil.Dumps | arsa/arsa.py:113 | `json.dumps` keeps a list's length and a dict's or model's keys, and writes any other object as its `str()` |
| ArsaUtil.ToSerializable | arsa/util.py:5-13 | a model gives its attribute mapping, anything else its `str()`; the result is JSON-encodable |
| ArsaUtil.DumpsUsesDefaultHook | arsa/util.py:5-13 | a non-JSON value is encoded as what the hook returns for it |
| ArsaUtil.PlainRoundTrip | arsa/util.py:5-13 | encoding a JSON-native value and decoding it gives it back |
| ArsaUtil.InstanceRoundTrip | arsa/util.py:11-13 | a model is encoded as its attribute object, which decodes to the same mapping and rebuilds the same instance |
| ArsaUtil.SerializeScenarios | test/test_util.py:14-22 | a flat model and a model with a nested mapping serialise to the expected objects |
| ArsaUtil.AttributesCarryOver | test/test_model.py:13-18 | another model built from a model's attributes keeps the field |
| Http.HttpError.Code | arsa/exceptions.py:6-7 | a redirect has code 302; bad request, not found and method not allowed have 400, 404 and 405; every code is in 300..599 |
| Http.HttpError.Text | arsa/arsa.py:117-118 | `str(error)` starts with the code and ends with the description (`None` for a redirect) |
| Http.HttpError.Headers | arsa/exceptions.py:12-13 | a redirect sends only `Location`; every other exception sends the HTML content type |
| Http.ErrorResponse | arsa/arsa.py:116-122 | an error is answered with its code and headers, and its `str()` as a JSON string |
| Http.RedirectResponse | arsa/exceptions.py:6-13 | `Redirect(location)` is answered 302 with `Location` and body `302 Found: None` |
| Http.BadRequestResponse | arsa/arsa.py:116-122 | `BadRequest(msg)` is answered 400 with the HTML content type and `400 Bad Request: msg` |
| ArsaApp.Patterns | arsa/arsa.py:88 | the bound map matches each route by its rule and method set, in order |
| ArsaApp.PairOf | arsa/arsa.py:100 | an element of a sequence given to `dict.update` is a pair iff it is a two-character str or a two-element list keyed by a str (both directions stated); a str, list or dict of another length is a `ValueError` |
| ArsaApp.UpdatePairs | arsa/arsa.py:100 | `dict.update` with a sequence merges iff every element is a pair, and never drops a key |
| ArsaApp.UpdateWith | arsa/arsa.py:100 | an object body merges its entries over the arguments; a str body is a no-op when empty and a `ValueError` otherwise; an empty list is a no-op; a number, boolean or null is a `TypeError` |
| ArsaApp.MergeBody | arsa/arsa.py:97-102 | no body leaves the path variables; a parse error is malformed; a merge never loses a path variable's key |
| ArsaApp.HandlerArguments | arsa/arsa.py:105-108 | the handler gets every merged key, decoded, plus `arsa_request` exactly when the route injects it |
| ArsaApp.Finish | arsa/arsa.py:110-122 | the answer is 200 (with the route's mimetype) iff the handler returned, and only a non-HTTP exception leaves unanswered |
| ArsaApp.Pipeline | arsa/arsa.py:90-122 | every answer is 200 or an HTTP error code; anything that escapes happens after a successful match, and a body merge fault needs a body |
| ArsaApp.Arsa.constructor | arsa/arsa.py:19-23 | a new application has an empty factory, no bound map and no authorizer |
| ArsaApp.Arsa.Route | arsa/arsa.py:25-35 | registers or reuses the handler's route (appended to the order only if new) and sets rule, methods (`GET` by default), content type (`application/json` by default) and request injection (off by default); conditions and token flag are kept and other routes are untouched; a bare-string `methods` raises after the rule is set, leaving the methods as they were (`None` on a new route) |
| ArsaApp.Arsa.Authorizer | arsa/arsa.py:38-44 | stores the authorizer and leaves the routes alone |
| ArsaApp.Arsa.AddConditions | arsa/arsa.py:46-60 | registers or reuses the route (appended only if new), then every key looks up as `add_validation` leaves it: the new conditions with the flag, the others as before, and nothing added on `query`; rule, methods, mimetype, flags and other routes are unchanged |
| ArsaApp.Arsa.Required | arsa/arsa.py:46-52 | `AddConditions` with the flag off: the same lookup of every key, refusal of `query`, order and frame |
| ArsaApp.Arsa.Optional | arsa/arsa.py:54-60 | `AddConditions` with the flag on: the same lookup of every key, refusal of `query`, order and frame |
| ArsaApp.Arsa.Authorize | arsa/arsa.py:77-83 | with no authorizer the default allowing policy; otherwise the authorizer's policy, rendered by `as_dict` |
| ArsaApp.Arsa.CreateApp | arsa/arsa.py:85-88 | binds the factory's routes once; a later call keeps the first binding |
| ArsaApp.Arsa.App | arsa/arsa.py:90-122 | the outcome of a request is `Pipeline` over the bound routes |
| ArsaApp.Arsa.Handler | arsa/arsa.py:62-75 | a proxy event gets the status and body of the pipeline's response, or the fault that escaped |
| ArsaApp.BodyWinsOverPathVariables | arsa/arsa.py:97-102 | body keys win over path variables, and path variables fill in the rest |
| ArsaApp.PairsMerge | arsa/arsa.py:100 | a list-of-pairs body adds exactly the pairs' keys and keeps every path variable no pair names |
| ArsaApp.PairsMergeLastWins | arsa/arsa.py:100 | the last pair naming a key gives it its value |
| ArsaApp.BodyShapesScenario | arsa/arsa.py:97-102 | `"x"` and `["abc"]` are malformed; `["ab"]` and `[["name", 1]]` merge as pairs; `0` and `[1]` raise `TypeError` |
| ArsaApp.MatchFailureShortCircuits | arsa/arsa.py:95 | a failed match is answered with its error whatever the handler |
| ArsaApp.EmptyMapIsNotFound | arsa/arsa.py:87-95 | with no routes every request is answered 404 |
| ArsaApp.MalformedBodyIsBadRequest | arsa/arsa.py:97-102 | a malformed body is answered 400 before validation, whatever the handler |
| ArsaApp.RejectedArgumentsAreBadRequest | arsa/arsa.py:104 | failed validation is answered 400 with its message and the handler is not consulted |
| ArsaApp.HandlerSeesDecodedArguments | arsa/arsa.py:105-114 | the handler gets the decoded arguments plus `arsa_request` when injected, and its value is answered 200 with the route's mimetype; a model-typed argument that is not a mapping escapes as a decoding fault instead |
| ArsaApp.OkOnlyFromHandler | arsa/arsa.py:110-122 | a 200 answer means the route matched, validation passed, decoding succeeded and the handler returned |
| ArsaApp.RedirectFromHandler | arsa/arsa.py:116-122 | a handler's `Redirect` is answered 302 with its location |
| ArsaApp.OtherHandlerExceptionsPropagate | arsa/arsa.py:116 | an exception that is not an HTTP exception is not answered and propagates |
| ArsaApp.IntNameRejected | arsa/model.py:28-29 | `name=1` against `name: str` is rejected with "argument name was not of the type <class 'str'>" |
| ArsaApp.WrongTypeInBodyScenario | arsa/arsa.py:97-122 | a body `{"name": 1}` for a `str` condition is answered 400 with that message |
| ArsaSdk.MergePathVariables | arsa_sdk/arsa.py:83 | the merged keys are the union; path variables win over keyword arguments of the same name |
| ArsaSdk.ServeSpec | arsa_sdk/arsa.py:73-90 | `NotFound`-style errors come exactly from a failed match; the handler call and the missing-token error both need a match and a passing validation; the latter only without a token |
| ArsaSdk.Arsa.constructor | arsa_sdk/arsa.py:17-21 | the singleton starts with an empty factory |
| ArsaSdk.Arsa.Route | arsa_sdk/arsa.py:23-35 | rule and methods (`GET` by default) with no mimetype; conditions, token flag and injection flag are kept; a bare-string `methods` leaves the methods as they were (`None` on a new route); the route is appended to the order only if new; other routes are untouched |
| ArsaSdk.Arsa.TokenRequired | arsa_sdk/arsa.py:38-46 | the route is marked as needing a token, appended to the order only if new, and nothing else changes |
| ArsaSdk.Arsa.AddConditions | arsa_sdk/arsa.py:48-66 | `required` and `optional`: every key looks up as `add_validation` leaves it, nothing is added on `query`, the route is appended only if new, and nothing else changes |
| ArsaSdk.Arsa.Empty | arsa_sdk/arsa.py:68-71 | afterwards no routes are registered |
| ArsaSdk.Arsa.Serve | arsa_sdk/arsa.py:73-90 | the outcome is `ServeSpec` over the registered routes; nothing changes |
| ArsaSdk.ArsaClass.constructor | arsa_sdk/arsa.py:15 | there is no instance yet |
| ArsaSdk.ArsaClass.New | arsa_sdk/arsa.py:17-21 | the first call creates the instance with an empty factory, and every later call returns that same instance |
| ArsaSdk.EmptyRegistryIsNotFound | arsa_sdk/arsa.py:80-81 | with no routes every URL raises `NotFound` |
| ArsaSdk.ValidationBeforeTokenCheck | arsa_sdk/arsa.py:84-87 | invalid arguments are rejected even when a required token is missing, and the handler is not called |
| ArsaSdk.MissingTokenRaises | arsa_sdk/arsa.py:86-87 | valid arguments without a required token raise, and the handler is not called |
| ArsaSdk.ServeCallsHandler | arsa_sdk/arsa.py:83-90 | valid arguments, with a token where required, give the handler's result on the merged arguments |
| ArsaSdk.ServedOnlyWhenChecksPass | arsa_sdk/arsa.py:81-90 | the handler is reached only after a match, a passing validation and a satisfied token check |
| ArsaSdk.RequiredNameScenarios | test/test_arsa.py:41-51 | `name='Bob'` is served; `name=123` is rejected |
| ArsaSdk.OptionalAndTokenScenarios | test/test_arsa.py:53-75 | an optional name may be omitted but not mistyped; a token route serves with a token and raises without one |
| ArsaSdk.PathVariableScenario | test/test_arsa.py:23-27 | a `<slug>` path variable reaches the handler and wins over a keyword of the same name |

## Inconsistencies in the source

The model follows what each piece of code evidently does where the code contradicts itself:

- arsa/routes.py:38 calls `valid_arguments` with three arguments, but the function at arsa/model.py:23 takes two. The model validates with arsa/model.py's logic against the route's conditions.
- arsa/routes.py:6 imports `ListType` and `ListAttribute`, which arsa/model.py does not define. `ListOf` conditions only check that the value is a list, and decoding leaves them as they are.
- arsa/arsa.py:32 passes `inject_request` to `set_rule`, whose signature at arsa/routes.py:16 has no such parameter. `Route.SetRule` takes the flag, which is what arsa/arsa.py:107 reads.
- arsa/util.py:13 reads `attribute_values` from a model instance, and arsa/routes.py:49 builds one with `Model(**kwargs)`; arsa/model.py defines neither. A model instance stores its keyword mapping, and `attribute_values` reads that mapping.

## Left out

- URL matching, rule syntax and converters (werkzeug): the matcher is a parameter. `MatcherContract` is all that is assumed of it.
- The WSGI environment built from the event (arsa/wrappers.py) and `run_wsgi_app`: `EventRequest` keeps the method, path and body. Query strings, headers and the `?` join are not modelled.
- JSON text: parsing is a parameter (`Parser`), and serialisation produces a JSON tree rather than text. Key order and spacing in the output are therefore not modelled.
- ArsaApp.RequestObject: the injected werkzeug `Request` is a stand-in value. Its contents are not modelled.
- Http.HttpError.Code: an `HTTPException` with a code below 300, or with `code` `None`, is answered by arsa/arsa.py:116-122 with that status; the model's `ErrorCode` admits only 300..599, and the facts that a response is 200 or an HTTP error code rest on that restriction.
- Http.HttpError.Headers: the `Allow` header of 405 responses is not modelled.
- ArsaApp.PairOf: two shapes of list element are reported as a `TypeError` that Python treats otherwise. A two-key object element is taken by `dict.update` as a pair of its two keys, in the object's key order, which a map does not keep. A two-element list whose first item is a number, boolean or null is accepted with a non-string key; the call `rule.endpoint(**decoded_args)` then raises `TypeError`, unless validation answers 400 first.
- The `TypeError`s raised by validation, decoding and `dict.update` carry no Python message in the model.
- Python floats are modelled as `real`: NaN, infinities and rounding are not modelled.
- A keyword condition named `optional` is bound by Python to the `optional` parameter of `add_validation`; the model takes condition names as plain keys.
- ArsaSdk.Arsa.Serve: `serve`'s own parameters `url`, `method` and `token` cannot also be passed as keyword arguments, so conditions with those names never receive a caller's value; the model's keyword arguments are a separate map.
- Text.ToUpper: upper-casing is ASCII only, with no Unicode case mapping.
- The bound map in `create_app` is a snapshot: its route sequence and patterns are captured at bind time. Later configuration of the same `Route` objects is seen through `Views`. Later registrations are not seen, as in the code.
- `Policy` is a value: custom authorizers return a policy rather than mutating one.
- Missing `authorizationToken`/`methodArn` keys (a `KeyError`) are not modelled.
- The SDK's `print` and logging in `serve` are not modelled.
- arsa_sdk/routes.py is not part of this model. The `token_required` flag is a field of the shared `Route`, and the SDK's `has_valid_arguments` is modelled by the validation of arsa/model.py; `ArgumentsRejected` stands for whatever it raises on an `ArgumentKeyError` (a `ValueError`, by test/test_arsa.py:50 and :62).
- The command-line tools (arsa/cli.py, arsa_sdk/cli.py) and arsa/globals.py are not part of this model.
- Model classes are assumed to declare distinct member names, as Python class bodies do.
- Keyword conditions are given as a list of distinct names, as Python keyword arguments are.

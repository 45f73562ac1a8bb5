/**
  The authorizer policy builder of arsa/policy.py.

  A `Policy` holds the caller's token, the generalised resource ARN, the
  principal id (the token unless an application authorizer changes it),
  the allow flag and a pass-through context.  `AsDict` renders the
  fixed-shape document API Gateway expects from a custom authorizer.
 */
module ArsaPolicy {
  import opened Text
  import opened ArsaModel

  /** The authorizer event: `event['authorizationToken']` and `event['methodArn']`. */
  datatype AuthEvent = AuthEvent(authorizationToken: string, methodArn: string)

  datatype Policy = Policy(token: string, arn: string, principalId: string, allow: bool, context: Value)

  datatype Statement = Statement(action: string, effect: string, resource: string)
  datatype PolicyDocument = PolicyDocument(version: string, statement: seq<Statement>)

  /** The dict returned by `as_dict`. */
  datatype AuthResponse = AuthResponse(principalId: string, policyDocument: PolicyDocument, context: Value)

  /**
    `Policy.__get_resource_arn(arn)`: the ARN cut at its second-to-last `/`,
    followed by the two wildcards.  Python's `rfind` bound and slice index are taken
    exactly, negative values included.
   */
  function ResourceArn(arn: string): (r: string)
    ensures |r| >= 4 && r[|r| - 4..] == "/*/*"
    ensures r[..|r| - 4] <= arn
  {
    var last := RFind(arn, '/', |arn|);                       // arn.rfind('/')
    var second := RFind(arn, '/', SliceBound(|arn|, last));   // arn.rfind('/', 0, last)
    arn[..SliceBound(|arn|, second)] + "/*/*"                 // arn[:second_idx] + the wildcards
  }

  /** `Policy(event, allow, context)`: the principal id starts out as the token. */
  function NewPolicy(event: AuthEvent, allow: bool, context: Value): (p: Policy)
    ensures p.token == event.authorizationToken && p.principalId == event.authorizationToken
    ensures p.arn == ResourceArn(event.methodArn)
    ensures p.allow == allow && p.context == context
  {
    Policy(event.authorizationToken, ResourceArn(event.methodArn), event.authorizationToken, allow, context)
  }

  /** `Policy(event)` with the constructor's defaults: allow, no context. */
  function DefaultPolicy(event: AuthEvent): (p: Policy)
    ensures p.allow && p.context == NoneValue
    ensures p.principalId == event.authorizationToken && p.arn == ResourceArn(event.methodArn)
  {
    NewPolicy(event, true, NoneValue)
  }

  /**
    `as_dict`: version `2012-10-17`, exactly one statement invoking the API
    on the computed resource, `Allow` or `Deny` after the flag, and the
    principal id and context passed through.
   */
  function AsDict(p: Policy): (d: AuthResponse)
    ensures d.principalId == p.principalId && d.context == p.context
    ensures d.policyDocument.version == "2012-10-17"
    ensures |d.policyDocument.statement| == 1
    ensures d.policyDocument.statement[0].action == "execute-api:Invoke"
    ensures d.policyDocument.statement[0].effect == (if p.allow then "Allow" else "Deny")
    ensures d.policyDocument.statement[0].resource == p.arn
  {
    AuthResponse(
      p.principalId,
      PolicyDocument("2012-10-17", [Statement("execute-api:Invoke", if p.allow then "Allow" else "Deny", p.arn)]),
      p.context)
  }

  // ---------------------------------------------------------------------------
  // The resource cut

  /**
    With at least two `/`, the resource is the ARN up to (not including) the
    second-to-last `/`, followed by the two wildcard segments.
   */
  lemma ResourceCutsAtSecondToLastSlash(arn: string, k: nat, l: nat)
    requires k < l < |arn| && arn[k] == '/' && arn[l] == '/'
    requires forall j :: k < j < |arn| && j != l ==> arn[j] != '/'
    ensures ResourceArn(arn) == arn[..k] + "/*/*"
  {
    var last := RFind(arn, '/', |arn|);
    assert last == l;
    assert SliceBound(|arn|, last) == l;
    var second := RFind(arn, '/', l);
    assert second == k;
  }

  /**
    With fewer than two `/` both `rfind`s give -1, and `arn[:-1]` drops the
    last character before the wildcards are appended.
   */
  lemma ResourceWithFewerThanTwoSlashes(arn: string)
    requires forall i, j :: 0 <= i < j < |arn| && arn[i] == '/' ==> arn[j] != '/'
    ensures ResourceArn(arn) == (if |arn| == 0 then "" else arn[..|arn| - 1]) + "/*/*"
  {
    var last := RFind(arn, '/', |arn|);
    var second := RFind(arn, '/', SliceBound(|arn|, last));
    assert second == -1;
  }

  /**
    An ARN ending in `<stage>/<method>/<path>` with no `/` in the method and
    path is cut after the stage.
   */
  lemma ResourceOfMethodAndPath(stage: string, verb: string, path: string)
    requires '/' !in verb && '/' !in path
    ensures ResourceArn(stage + "/" + verb + "/" + path) == stage + "/*/*"
  {
    var arn := stage + "/" + verb + "/" + path;
    var k, l := |stage|, |stage| + 1 + |verb|;
    assert arn[k] == '/' && arn[l] == '/';
    forall j | k < j < |arn| && j != l ensures arn[j] != '/' {
      if j < l {
        assert arn[j] == verb[j - k - 1];
      } else {
        assert arn[j] == path[j - l - 1];
      }
    }
    ResourceCutsAtSecondToLastSlash(arn, k, l);
    assert arn[..k] == stage;
  }

  /** An API Gateway method ARN of the usual `{proxy+}` shape. */
  lemma ResourceExample()
    ensures ResourceArn("arn:aws:execute-api:us-east-1:123456789012:ymy8tbxw7b/v1/GET/{proxy+}")
            == "arn:aws:execute-api:us-east-1:123456789012:ymy8tbxw7b/v1/*/*"
  {
    var stage := "arn:aws:execute-api:us-east-1:123456789012:ymy8tbxw7b/v1";
    assert stage + "/" + "GET" + "/" + "{proxy+}" == "arn:aws:execute-api:us-east-1:123456789012:ymy8tbxw7b/v1/GET/{proxy+}";
    ResourceOfMethodAndPath(stage, "GET", "{proxy+}");
  }

  /**
    With no application authorizer the document allows the caller, names the
    token as principal and covers every method and path under the stage.
   */
  lemma DefaultPolicyAllows(event: AuthEvent)
    ensures var d := AsDict(DefaultPolicy(event));
      && d.principalId == event.authorizationToken
      && d.policyDocument.statement[0].effect == "Allow"
      && d.policyDocument.statement[0].resource == ResourceArn(event.methodArn)
      && d.context == NoneValue
  {
  }
}

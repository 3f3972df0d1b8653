/** The per-slot feature builders: the REST API itself, its authorizer, the
    custom domain and its base-path mapping, the WAF web ACL, and the usage
    plans with their API keys, key mappings and per-path throttles. */
module Features {
  import opened Text
  import opened Cfn
  import opened Config
  import opened Resources
  import opened Naming
  import opened Document

  const AwsIam := "AWS_IAM"

  /** buildAWSApiGatewayRestAPI. The ARN principals are granted only when
      authorization is AWS_IAM and the compression size is not negative;
      every other case grants everyone. A size of zero or less leaves the
      property unset, which renders as 0. */
  function RestApiOf(arns: seq<string>, endpointType: string, authorizationType: string,
                     minimumCompressionSize: int, apiName: Value): (r: Resource)
    ensures r.RestApi? && r.apiKeySourceType == "HEADER" && r.endpointTypes == [endpointType] && r.apiName == apiName
  {
    if authorizationType == AwsIam && minimumCompressionSize > 0 then
      RestApi(minimumCompressionSize, "HEADER", [endpointType], apiName, PrincipalsPolicy(arns))
    else if authorizationType == AwsIam && minimumCompressionSize == 0 then
      RestApi(0, "HEADER", [endpointType], apiName, PrincipalsPolicy(arns))
    else if minimumCompressionSize > 0 then
      RestApi(minimumCompressionSize, "HEADER", [endpointType], apiName, AllPrincipalsPolicy)
    else
      RestApi(0, "HEADER", [endpointType], apiName, AllPrincipalsPolicy)
  }

  /** Of the four shapes, the policy follows the authorization type and the
      compression size follows the configured size. */
  lemma RestApiShapes(arns: seq<string>, endpointType: string, authorizationType: string,
                      minimumCompressionSize: int, apiName: Value)
    ensures var r := RestApiOf(arns, endpointType, authorizationType, minimumCompressionSize, apiName);
            (r.policy == PrincipalsPolicy(arns) <==> authorizationType == AwsIam && minimumCompressionSize >= 0) &&
            (r.policy != PrincipalsPolicy(arns) ==> r.policy == AllPrincipalsPolicy) &&
            (minimumCompressionSize > 0 ==> r.minimumCompressionSize == minimumCompressionSize) &&
            (minimumCompressionSize <= 0 ==> r.minimumCompressionSize == 0)
  {
  }

  /** A negative compression size drops AWS_IAM's principal list: the
      branch for it tests "== 0", so the open policy is chosen. */
  lemma NegativeSizeOpensPolicy(arns: seq<string>, endpointType: string, apiName: Value)
    ensures RestApiOf(arns, endpointType, AwsIam, -1, apiName).policy == AllPrincipalsPolicy
  {
  }

  const CognitoUserPools := "COGNITO_USER_POOLS"
  const TokenAuthorizer := "TOKEN"
  const DefaultAuthorizerTtl := 300

  /** The Lambda authorizer URI: the function ARN inside the API Gateway
      invocation path of the stack's region. */
  function AuthorizerUriOf(functionArn: string): (r: Value)
    ensures r.Join? && |r.items| == 5 && r.items[3] == Lit(functionArn)
  {
    Cfn.Join("", [Lit("arn:aws:apigateway:"), Ref(Region), Lit(":lambda:path/2015-03-31/functions/"),
                  Lit(functionArn), Lit("/invocations")])
  }

  /** buildAuthorizer: a cache TTL of 0 becomes 300. A Cognito authorizer
      carries the provider ARNs and no Lambda; a TOKEN authorizer carries the
      configured validation expression; any other type copies the auth type
      into the validation expression. Every shape is named after the API
      definition and belongs to the slot's REST API. */
  function AuthorizerOf(apiDef: AWSAPIDefinition, slot: nat): (r: Resource)
    ensures r.Authorizer? && r.restApiId == Ref(Indexed(RestApiBase, slot))
    ensures r.authorizerType == apiDef.authorizerType && r.authorizerName == apiDef.name
    ensures r.authType == apiDef.authorizerAuthType && r.identitySource == apiDef.identitySource
  {
    var ttl := if apiDef.authorizerResultTtlInSeconds == 0 then DefaultAuthorizerTtl else apiDef.authorizerResultTtlInSeconds;
    if apiDef.authorizerType == CognitoUserPools then
      Authorizer(None, ttl, None, apiDef.authorizerAuthType, apiDef.identitySource, "", apiDef.name,
                 apiDef.providerARNs, Ref(Indexed(RestApiBase, slot)), apiDef.authorizerType)
    else if apiDef.authorizerType == TokenAuthorizer then
      Authorizer(Some(GetAtt(LambdaInvokeRoleName, "Arn")), ttl, Some(AuthorizerUriOf(apiDef.authorizerUri)),
                 apiDef.authorizerAuthType, apiDef.identitySource, apiDef.identityValidationExpression, apiDef.name,
                 [], Ref(Indexed(RestApiBase, slot)), apiDef.authorizerType)
    else
      Authorizer(Some(GetAtt(LambdaInvokeRoleName, "Arn")), ttl, Some(AuthorizerUriOf(apiDef.authorizerUri)),
                 apiDef.authorizerAuthType, apiDef.identitySource, apiDef.authorizerAuthType, apiDef.name,
                 [], Ref(Indexed(RestApiBase, slot)), apiDef.authorizerType)
  }

  /** The cache TTL is never 0, and a configured non-zero TTL is kept. Only
      a Cognito authorizer goes without the Lambda role and URI, and only it
      carries provider ARNs. */
  lemma AuthorizerShapes(apiDef: AWSAPIDefinition, slot: nat)
    ensures var r := AuthorizerOf(apiDef, slot);
            r.authorizerResultTtlInSeconds != 0 &&
            (apiDef.authorizerResultTtlInSeconds != 0 ==> r.authorizerResultTtlInSeconds == apiDef.authorizerResultTtlInSeconds) &&
            (r.authorizerCredentials.None? <==> apiDef.authorizerType == CognitoUserPools) &&
            (r.authorizerUri.None? <==> apiDef.authorizerType == CognitoUserPools) &&
            (apiDef.authorizerType != CognitoUserPools ==>
               r.authorizerCredentials == Some(GetAtt(LambdaInvokeRoleName, "Arn")) &&
               r.authorizerUri == Some(AuthorizerUriOf(apiDef.authorizerUri)) && r.providerArns == []) &&
            (apiDef.authorizerType == CognitoUserPools ==> r.providerArns == apiDef.providerARNs && r.identityValidationExpression == "") &&
            (apiDef.authorizerType == TokenAuthorizer ==> r.identityValidationExpression == apiDef.identityValidationExpression) &&
            (apiDef.authorizerType != CognitoUserPools && apiDef.authorizerType != TokenAuthorizer ==>
               r.identityValidationExpression == apiDef.authorizerAuthType)
  {
  }

  /** The authorizer takes the API definition's name; the separately
      configured authorizer name is not used. */
  lemma AuthorizerNameIgnored(apiDef: AWSAPIDefinition, slot: nat)
    requires apiDef.authorizerName != apiDef.name
    ensures AuthorizerOf(apiDef, slot).authorizerName != apiDef.authorizerName
  {
  }

  /** buildCustomDomainBasePathMapping: an empty base path maps the slot's
      REST API; a non-empty one maps "RestAPI" with no slot index. Either
      way the mapping depends on "Deployment", also without an index. */
  function BasePathMappingOf(domainName: string, stageName: string, basePath: string, slot: nat): (r: Resource)
    ensures r.BasePathMapping? && r.domainName == domainName && r.stage == stageName && r.basePath == basePath
    ensures r.restApiId == (if basePath == "" then Ref(Indexed(RestApiBase, slot)) else Ref(RestApiBase))
    ensures r.dependsOn == [DeploymentBase]
  {
    if basePath == "" then
      BasePathMapping(domainName, Ref(Indexed(RestApiBase, slot)), stageName, "", [DeploymentBase])
    else
      BasePathMapping(domainName, Ref(RestApiBase), stageName, basePath, [DeploymentBase])
  }

  /** A mapping with a base path never names its own slot's REST API. */
  lemma BasePathMappingUnindexed(domainName: string, stageName: string, basePath: string, slot: nat)
    requires basePath != ""
    ensures BasePathMappingOf(domainName, stageName, basePath, slot).restApiId != Ref(Indexed(RestApiBase, slot))
  {
    assert |Indexed(RestApiBase, slot)| > |RestApiBase|;
  }

  const Regional := "REGIONAL"

  /** buildCustomDomain: a REGIONAL domain takes the certificate as its
      regional certificate and applies the TLS policy; any other endpoint
      type takes it as an edge certificate and sets no policy. */
  function CustomDomainOf(domainName: string, certificateArn: string, endpointType: string, securityPolicy: string): (r: Resource)
    ensures r.DomainName? && r.domainName == domainName && r.endpointTypes == [endpointType]
    ensures endpointType == Regional ==> r.regionalCertificateArn == certificateArn && r.certificateArn == "" && r.securityPolicy == securityPolicy
    ensures endpointType != Regional ==> r.certificateArn == certificateArn && r.regionalCertificateArn == "" && r.securityPolicy == ""
  {
    if endpointType == Regional then DomainName("", certificateArn, domainName, securityPolicy, [endpointType])
    else DomainName(certificateArn, "", domainName, "", [endpointType])
  }

  /** buildAWSWAFWebACL: the stack-named ACL with the configured scope. The
      rules are the decoded rule JSON; an empty string, or JSON the decoder
      rejects, leaves the ACL without rules. */
  function WebAclOf(scope: string, rules: string, parse: string -> Option<seq<WafRule>>): (r: Resource)
    ensures r.WebAcl? && r.scope == scope && r.aclName == Ref(StackName)
    ensures rules == "" || parse(rules).None? ==> r.rules == []
    ensures rules != "" && parse(rules).Some? ==> r.rules == parse(rules).value
  {
    var decoded := if rules == "" then [] else match parse(rules) { case None => [] case Some(rs) => rs };
    WebAcl(Ref(StackName), scope, "This is an example WebACL", Sub("${" + StackName + "}WebACLMetric"), decoded)
  }

  /** The throttle key of a path: its "ANY" method, with one '/' between. */
  function ThrottleKey(path: string): (r: string)
    ensures HasSuffix(r, "ANY")
  {
    if HasSuffix(path, "/") then path + "ANY" else path + "/ANY"
  }

  /** A path without its trailing '/'. */
  function TrimSlash(path: string): string
  {
    if HasSuffix(path, "/") then path[..|path| - 1] else path
  }

  /** Every throttle key is the path without its trailing '/' followed by
      "/ANY", so two paths get the same key exactly when they differ only
      by a trailing '/'. */
  lemma ThrottleKeyForm(path: string)
    ensures ThrottleKey(path) == TrimSlash(path) + "/ANY"
  {
    if HasSuffix(path, "/") {
      assert path == path[..|path| - 1] + "/";
    }
  }

  lemma ThrottleKeySame(a: string, b: string)
    ensures ThrottleKey(a) == ThrottleKey(b) <==> TrimSlash(a) == TrimSlash(b)
  {
    ThrottleKeyForm(a);
    ThrottleKeyForm(b);
    if ThrottleKey(a) == ThrottleKey(b) {
      var ka := TrimSlash(a) + "/ANY";
      assert ka[..|ka| - 4] == TrimSlash(a);
      var kb := TrimSlash(b) + "/ANY";
      assert kb[..|kb| - 4] == TrimSlash(b);
    }
  }

  /** "/pets" and "/pets/" share a key, so the later one's limits win. */
  lemma ThrottleKeysCollide()
    ensures ThrottleKey("/pets/") == ThrottleKey("/pets") == "/pets/ANY"
  {
  }

  /** The throttle assignments of buildMethodThrottling, one per parameter in order. */
  function ThrottleWrites(params: seq<MethodThrottling>): (ws: seq<Write<ThrottleSettings>>)
    ensures |ws| == |params|
    ensures forall k :: 0 <= k < |params| ==>
              ws[k] == Put(ThrottleKey(params[k].path), ThrottleSettings(params[k].burstLimit, params[k].rateLimit))
  {
    seq(|params|, k requires 0 <= k < |params| =>
          Put(ThrottleKey(params[k].path), ThrottleSettings(params[k].burstLimit, params[k].rateLimit)))
  }

  /** The throttle map: each parameter assigns its key in turn. */
  function ThrottleMap(params: seq<MethodThrottling>): map<string, ThrottleSettings>
  {
    Run(map[], ThrottleWrites(params))
  }

  /** A key is throttled exactly when some parameter names it, and it gets
      the limits of the last parameter that does. */
  lemma ThrottleMapContents(params: seq<MethodThrottling>, key: string)
    ensures key in ThrottleMap(params) <==> exists k :: 0 <= k < |params| && ThrottleKey(params[k].path) == key
    ensures forall k :: 0 <= k < |params| && ThrottleKey(params[k].path) == key &&
                        (forall l :: k < l < |params| ==> ThrottleKey(params[l].path) != key) ==>
              key in ThrottleMap(params) &&
              ThrottleMap(params)[key] == ThrottleSettings(params[k].burstLimit, params[k].rateLimit)
  {
    var ws := ThrottleWrites(params);
    RunKeys(map[], ws, key);
    if key in ThrottleMap(params) {
      var i :| 0 <= i < |ws| && Writes(ws[i], key);
      assert ThrottleKey(params[i].path) == key;
    } else if exists k :: 0 <= k < |params| && ThrottleKey(params[k].path) == key {
      var k :| 0 <= k < |params| && ThrottleKey(params[k].path) == key;
      assert Writes(ws[k], key);
    }
    forall k | 0 <= k < |params| && ThrottleKey(params[k].path) == key &&
               (forall l :: k < l < |params| ==> ThrottleKey(params[l].path) != key)
      ensures key in ThrottleMap(params) &&
              ThrottleMap(params)[key] == ThrottleSettings(params[k].burstLimit, params[k].rateLimit)
    {
      assert Writes(ws[k], key);
      forall l | k < l < |ws| ensures !Writes(ws[l], key) {
        assert ThrottleKey(params[l].path) != key;
      }
      RunLast(map[], ws, k, key);
    }
  }

  /** buildMethodThrottling: the single API stage of the slot's REST API. */
  function ApiStagesOf(params: seq<MethodThrottling>, stage: string, slot: nat): (r: seq<ApiStage>)
    ensures |r| == 1 && r[0].apiId == Ref(Indexed(RestApiBase, slot)) && r[0].stage == stage
    ensures r[0].throttle == ThrottleMap(params)
  {
    [ApiStage(Ref(Indexed(RestApiBase, slot)), stage, ThrottleMap(params))]
  }

  /** buildMethodThrottling: fills the throttle map parameter by parameter. */
  method BuildMethodThrottling(params: seq<MethodThrottling>, stage: string, slot: nat) returns (r: seq<ApiStage>)
    ensures r == ApiStagesOf(params, stage, slot)
  {
    var rmap: map<string, ThrottleSettings> := map[];
    for i := 0 to |params|
      invariant rmap == Run(map[], ThrottleWrites(params[..i]))
    {
      var p := params[i];
      var settings := ThrottleSettings(p.burstLimit, p.rateLimit);
      var key: string;
      if HasSuffix(p.path, "/") {
        key := p.path + "ANY";
      } else {
        key := p.path + "/ANY";
      }
      assert key == ThrottleKey(p.path);
      ThrottleWritesSnoc(params, i);
      RunSnoc(map[], ThrottleWrites(params[..i]), Put(key, settings));
      rmap := rmap[key := settings];
    }
    assert params[..|params|] == params;
    r := [ApiStage(Ref(Indexed(RestApiBase, slot)), stage, rmap)];
  }

  /** One more parameter appends its own assignment. */
  lemma ThrottleWritesSnoc(params: seq<MethodThrottling>, i: nat)
    requires i < |params|
    ensures ThrottleWrites(params[..i + 1])
         == ThrottleWrites(params[..i]) + [Put(ThrottleKey(params[i].path), ThrottleSettings(params[i].burstLimit, params[i].rateLimit))]
  {
    var a := ThrottleWrites(params[..i + 1]);
    var b := ThrottleWrites(params[..i]) + [Put(ThrottleKey(params[i].path), ThrottleSettings(params[i].burstLimit, params[i].rateLimit))];
    assert |a| == |b|;
    forall k | 0 <= k < |a| ensures a[k] == b[k] {
      assert params[..i + 1][k] == params[k];
      if k < i {
        assert params[..i][k] == params[k];
      }
    }
  }

  /** buildUsagePlan: the plan's quota and throttle, its stage throttles,
      and a dependency on "Deployment" without a slot index. */
  function UsagePlanOf(plan: UsagePlan, stage: string, slot: nat): (r: Resource)
    ensures r.UsagePlanResource? && r.usagePlanName == plan.planName && r.dependsOn == [DeploymentBase]
    ensures r.apiStages == ApiStagesOf(plan.methodThrottling, stage, slot)
  {
    UsagePlanResource(plan.planName, plan.description, plan.quotaLimit, plan.quotaOffset, plan.quotaPeriod,
                      plan.throttleBurstLimit, plan.throttleRateLimit,
                      ApiStagesOf(plan.methodThrottling, stage, slot), [DeploymentBase])
  }

  /** The API key buildAPIKey makes for one configured key: enabled, and
      named after the key with the slot index appended. */
  function ApiKeyOf(key: APIKey, slot: nat): (r: Resource)
    ensures r.ApiKey? && r.enabled && r.keyName == Indexed(key.name, slot)
    ensures r.customerId == key.customerId && r.generateDistinctId == key.generateDistinctId
  {
    ApiKey(key.customerId, key.generateDistinctId, key.name + NatToString(slot), true)
  }

  /** buildAPIKey: one API key per configured key, in order. */
  method BuildApiKeys(plan: UsagePlan, slot: nat) returns (arr: array<Resource>)
    ensures fresh(arr) && arr.Length == |plan.apiKeys|
    ensures forall k :: 0 <= k < arr.Length ==> arr[k] == ApiKeyOf(plan.apiKeys[k], slot)
  {
    arr := new Resource[|plan.apiKeys|](_ => Listener);
    for k := 0 to |plan.apiKeys|
      invariant forall l :: 0 <= l < k ==> arr[l] == ApiKeyOf(plan.apiKeys[l], slot)
    {
      var key := plan.apiKeys[k];
      arr[k] := ApiKey(key.customerId, key.generateDistinctId, key.name + NatToString(slot), true);
    }
  }

  /** The logical name the composer stores key k of plan j under: plan,
      key and slot indices in that order. */
  function ApiKeyName(j: nat, k: nat, slot: nat): string
  {
    ApiKeyBase + NatToString(j) + NatToString(k) + NatToString(slot)
  }

  /** The logical name of the mapping of key k of plan j. */
  function KeyMappingName(j: nat, k: nat, slot: nat): string
  {
    ApiKeyUsagePlanBase + NatToString(j) + NatToString(k) + NatToString(slot)
  }

  /** The key name a mapping refers to: slot, plan and key indices in that
      order. */
  function KeyRefName(j: nat, k: nat, slot: nat): string
  {
    ApiKeyBase + NatToString(slot) + NatToString(j) + NatToString(k)
  }

  /** The mapping buildUsagePlanAPIKeyMapping makes for key k of plan j: it
      refers to the key by KeyRefName and to the plan as "UsagePlan" + j. */
  function KeyMappingOf(j: nat, k: nat, slot: nat): (r: Resource)
    ensures r.UsagePlanKey? && r.keyType == "API_KEY"
    ensures r.keyId == Ref(KeyRefName(j, k, slot)) && r.usagePlanId == Ref(Indexed(UsagePlanBase, j))
  {
    UsagePlanKey(Ref(KeyRefName(j, k, slot)), "API_KEY", Ref(Indexed(UsagePlanBase, j)))
  }

  /** buildUsagePlanAPIKeyMapping: one mapping per configured key, in order. */
  method BuildKeyMappings(plan: UsagePlan, j: nat, slot: nat) returns (arr: array<Resource>)
    ensures fresh(arr) && arr.Length == |plan.apiKeys|
    ensures forall k :: 0 <= k < arr.Length ==> arr[k] == KeyMappingOf(j, k, slot)
  {
    arr := new Resource[|plan.apiKeys|](_ => Listener);
    for k := 0 to |plan.apiKeys|
      invariant forall l :: 0 <= l < k ==> arr[l] == KeyMappingOf(j, l, slot)
    {
      var keyId := Ref(ApiKeyBase + NatToString(slot) + NatToString(j) + NatToString(k));
      arr[k] := UsagePlanKey(keyId, "API_KEY", Ref(UsagePlanBase + NatToString(j)));
    }
  }

  /** When slot, plan and key index all agree the two orders coincide; in
      slot 1 the first key of the first plan is stored as "APIKey001" but
      its mapping refers to "APIKey100". */
  lemma KeyRefOrder()
    ensures KeyRefName(0, 0, 0) == ApiKeyName(0, 0, 0)
    ensures ApiKeyName(0, 0, 1) == "APIKey001" && KeyRefName(0, 0, 1) == "APIKey100"
  {
  }

  /** The indices are written without separators, so plan 1 key 11 and
      plan 11 key 1 of one slot get the same name. */
  lemma ApiKeyNamesCollide()
    ensures ApiKeyName(1, 11, 0) == ApiKeyName(11, 1, 0) == "APIKey1110"
  {
    assert NatToString(0) == "0" && NatToString(1) == "1";
    assert NatToString(11) == NatToString(1) + [Digit(1)] == "11";
    assert ApiKeyName(1, 11, 0) == "APIKey" + "1" + "11" + "0";
    assert ApiKeyName(11, 1, 0) == "APIKey" + "11" + "1" + "0";
  }
}

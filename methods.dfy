/** buildAWSApiGatewayMethod: one HTTP_PROXY gateway method forwarding to the
    cluster's load balancer, with the request parameters it declares and the
    integration parameters that forward them. */
module Methods {
  import opened Text
  import opened Cfn
  import opened Config
  import opened Resources
  import opened Naming

  const AcceptEncodingHeader := "Accept-Encoding"
  /** "method.request.path.proxy" */
  const ProxyMethodVar := MethodVar("path", "proxy")
  /** "integration.request.path.proxy" */
  const ProxyIntegrationVar := IntegrationVar("path", "proxy")
  /** "integration.request.header.Accept-Encoding" */
  const AcceptEncodingVar := IntegrationVar("header", AcceptEncodingHeader)

  /** The three parameter kinds, in the order they are declared. */
  predicate IsKind(kind: string) { kind == "path" || kind == "query" || kind == "header" }

  /** The method-side name of a forwarded parameter. */
  function MethodVar(kind: string, name: string): string
  {
    "method.request." + kind + "." + name
  }

  /** The integration-side name of a forwarded parameter. */
  function IntegrationVar(kind: string, name: string): string
  {
    "integration.request." + kind + "." + name
  }

  /** Integration names of different kinds or different parameters never meet. */
  lemma IntegrationVarInjective(k1: string, n1: string, k2: string, n2: string)
    requires IsKind(k1) && IsKind(k2)
    requires IntegrationVar(k1, n1) == IntegrationVar(k2, n2)
    ensures k1 == k2 && n1 == n2
  {
    var prefix := "integration.request.";
    var a := IntegrationVar(k1, n1);
    assert a == prefix + k1 + "." + n1;
    assert IntegrationVar(k2, n2) == prefix + k2 + "." + n2;
    assert a[|prefix|] == k1[0] && a[|prefix|] == k2[0];
    assert k1 == k2;
    assert a[|prefix| + |k1| + 1..] == n1;
    assert IntegrationVar(k2, n2)[|prefix| + |k2| + 1..] == n2;
  }

  /** The request and integration parameter maps of a method under construction. */
  datatype ParamMaps = ParamMaps(request: map<string, bool>, integration: map<string, string>)

  function MethodKeys(kind: string, params: seq<Param>): set<string>
  {
    set p | p in params :: MethodVar(kind, p.param)
  }

  function IntegrationKeys(kind: string, params: seq<Param>): set<string>
  {
    set p | p in params :: IntegrationVar(kind, p.param)
  }

  /** Declaring the parameters of one kind, first to last. */
  function Declare(m: ParamMaps, kind: string, params: seq<Param>): ParamMaps
    decreases |params|
  {
    if |params| == 0 then m
    else
      var name := params[|params| - 1].param;
      var r := Declare(m, kind, params[..|params| - 1]);
      ParamMaps(r.request[MethodVar(kind, name) := true],
                r.integration[IntegrationVar(kind, name) := MethodVar(kind, name)])
  }

  lemma KeysSnoc(kind: string, params: seq<Param>)
    requires |params| > 0
    ensures var init := params[..|params| - 1]; var name := params[|params| - 1].param;
            MethodKeys(kind, params) == MethodKeys(kind, init) + {MethodVar(kind, name)} &&
            IntegrationKeys(kind, params) == IntegrationKeys(kind, init) + {IntegrationVar(kind, name)}
  {
    assert params == params[..|params| - 1] + [params[|params| - 1]];
  }

  /** Each declared parameter becomes a required method parameter; nothing
      else is added. */
  lemma {:induction false} DeclareRequest(m: ParamMaps, kind: string, params: seq<Param>)
    ensures Declare(m, kind, params).request.Keys == m.request.Keys + MethodKeys(kind, params)
    ensures (forall k :: k in m.request ==> m.request[k]) ==>
              forall k :: k in Declare(m, kind, params).request ==> Declare(m, kind, params).request[k]
    decreases |params|
  {
    if |params| > 0 {
      DeclareRequest(m, kind, params[..|params| - 1]);
      KeysSnoc(kind, params);
    }
  }

  /** Declaring adds exactly the integration names of the parameters. */
  lemma {:induction false} DeclareIntegrationKeys(m: ParamMaps, kind: string, params: seq<Param>)
    ensures Declare(m, kind, params).integration.Keys == m.integration.Keys + IntegrationKeys(kind, params)
    decreases |params|
  {
    if |params| > 0 {
      DeclareIntegrationKeys(m, kind, params[..|params| - 1]);
      KeysSnoc(kind, params);
    }
  }

  /** Each declared parameter is forwarded under its own name. */
  lemma {:induction false} DeclareForwards(m: ParamMaps, kind: string, params: seq<Param>, p: Param)
    requires p in params
    ensures var r := Declare(m, kind, params).integration;
            IntegrationVar(kind, p.param) in r && r[IntegrationVar(kind, p.param)] == MethodVar(kind, p.param)
    decreases |params|
  {
    var init := params[..|params| - 1];
    var last := params[|params| - 1];
    var key := IntegrationVar(kind, p.param);
    if key != IntegrationVar(kind, last.param) {
      assert p in init by { assert params == init + [last]; }
      DeclareForwards(m, kind, init, p);
    } else {
      var offset := |"integration.request."| + |kind| + 1;
      assert key[offset..] == p.param;
      assert IntegrationVar(kind, last.param)[offset..] == last.param;
    }
  }

  /** Keys of other names keep their values. */
  lemma {:induction false} DeclareKeeps(m: ParamMaps, kind: string, params: seq<Param>, k: string)
    requires k in m.integration && k !in IntegrationKeys(kind, params)
    ensures var r := Declare(m, kind, params).integration; k in r && r[k] == m.integration[k]
    decreases |params|
  {
    if |params| > 0 {
      KeysSnoc(kind, params);
      DeclareKeeps(m, kind, params[..|params| - 1], k);
    }
  }

  /** The parameter loop of buildAWSApiGatewayMethod for one kind. */
  method DeclareParams(request: map<string, bool>, integration: map<string, string>, kind: string, params: seq<Param>)
    returns (request': map<string, bool>, integration': map<string, string>)
    ensures ParamMaps(request', integration') == Declare(ParamMaps(request, integration), kind, params)
  {
    request', integration' := request, integration;
    for i := 0 to |params|
      invariant ParamMaps(request', integration') == Declare(ParamMaps(request, integration), kind, params[..i])
    {
      assert params[..i + 1][..i] == params[..i];
      var name := params[i].param;
      request' := request'[MethodVar(kind, name) := true];
      integration' := integration'[IntegrationVar(kind, name) := MethodVar(kind, name)];
    }
    assert params[..|params|] == params;
  }

  /** The maps every method starts from: the proxy path parameter, forwarded,
      and the Accept-Encoding header forced to 'identity'. */
  const BaseMaps := ParamMaps(map[ProxyMethodVar := true],
                              map[ProxyIntegrationVar := ProxyMethodVar, AcceptEncodingVar := "'identity'"])

  /** The declared parameters of one kind. */
  function ParamsOf(res: APIResource, kind: string): seq<Param>
  {
    if kind == "path" then res.proxyPathParams
    else if kind == "query" then res.proxyQueryParams
    else res.proxyHeaderParams
  }

  /** Parameter maps of a method: a declared resource (one with a path) adds
      its path, query and header parameters, in that order. */
  function RequestMaps(res: APIResource): ParamMaps
  {
    if res.path == "" then BaseMaps
    else
      var m1 := Declare(BaseMaps, "path", res.proxyPathParams);
      var m2 := Declare(m1, "query", res.proxyQueryParams);
      Declare(m2, "header", res.proxyHeaderParams)
  }

  /** Every request parameter is required, and the proxy path parameter is
      always among them. */
  lemma ProxyRequired(res: APIResource)
    ensures var r := RequestMaps(res).request;
            ProxyMethodVar in r && forall k :: k in r ==> r[k]
  {
    if res.path != "" {
      var m1 := Declare(BaseMaps, "path", res.proxyPathParams);
      var m2 := Declare(m1, "query", res.proxyQueryParams);
      DeclareRequest(BaseMaps, "path", res.proxyPathParams);
      DeclareRequest(m1, "query", res.proxyQueryParams);
      DeclareRequest(m2, "header", res.proxyHeaderParams);
    }
  }

  /** The proxy path parameter is always forwarded to the integration under
      its own name, whatever the declared parameters are. */
  lemma ProxyForwarded(res: APIResource)
    ensures var r := RequestMaps(res).integration;
            ProxyIntegrationVar in r && r[ProxyIntegrationVar] == ProxyMethodVar
  {
    if res.path != "" {
      var m1 := Declare(BaseMaps, "path", res.proxyPathParams);
      var m2 := Declare(m1, "query", res.proxyQueryParams);
      if ProxyIntegrationVar in IntegrationKeys("path", res.proxyPathParams) {
        var p :| p in res.proxyPathParams && IntegrationVar("path", p.param) == ProxyIntegrationVar;
        IntegrationVarInjective("path", p.param, "path", "proxy");
        DeclareForwards(BaseMaps, "path", res.proxyPathParams, p);
      } else {
        DeclareKeeps(BaseMaps, "path", res.proxyPathParams, ProxyIntegrationVar);
      }
      NotOfKind("path", "proxy", "query", res.proxyQueryParams);
      NotOfKind("path", "proxy", "header", res.proxyHeaderParams);
      DeclareKeeps(m1, "query", res.proxyQueryParams, ProxyIntegrationVar);
      DeclareKeeps(m2, "header", res.proxyHeaderParams, ProxyIntegrationVar);
    }
  }

  /** The integration keeps 'identity' as Accept-Encoding unless a declared
      header parameter of that very name overwrote it with the forwarded
      client header. */
  lemma AcceptEncoding(res: APIResource)
    ensures var r := RequestMaps(res).integration;
            AcceptEncodingVar in r &&
            r[AcceptEncodingVar] ==
              if res.path != "" && exists p :: p in res.proxyHeaderParams && p.param == AcceptEncodingHeader
              then MethodVar("header", AcceptEncodingHeader) else "'identity'"
  {
    if res.path != "" {
      var m1 := Declare(BaseMaps, "path", res.proxyPathParams);
      var m2 := Declare(m1, "query", res.proxyQueryParams);
      NotOfKind("header", AcceptEncodingHeader, "path", res.proxyPathParams);
      NotOfKind("header", AcceptEncodingHeader, "query", res.proxyQueryParams);
      DeclareKeeps(BaseMaps, "path", res.proxyPathParams, AcceptEncodingVar);
      DeclareKeeps(m1, "query", res.proxyQueryParams, AcceptEncodingVar);
      if exists p :: p in res.proxyHeaderParams && p.param == AcceptEncodingHeader {
        var p :| p in res.proxyHeaderParams && p.param == AcceptEncodingHeader;
        DeclareForwards(m2, "header", res.proxyHeaderParams, p);
      } else {
        HeaderOverwrite(res.proxyHeaderParams);
        DeclareKeeps(m2, "header", res.proxyHeaderParams, AcceptEncodingVar);
      }
    }
  }

  /** Every declared parameter of a declared resource is a required method
      parameter and is forwarded under its own name. */
  lemma DeclaredForwarded(res: APIResource, kind: string, p: Param)
    requires res.path != "" && IsKind(kind) && p in ParamsOf(res, kind)
    ensures var r := RequestMaps(res);
            MethodVar(kind, p.param) in r.request &&
            IntegrationVar(kind, p.param) in r.integration &&
            r.integration[IntegrationVar(kind, p.param)] == MethodVar(kind, p.param)
  {
    var m1 := Declare(BaseMaps, "path", res.proxyPathParams);
    var m2 := Declare(m1, "query", res.proxyQueryParams);
    DeclareRequest(BaseMaps, "path", res.proxyPathParams);
    DeclareRequest(m1, "query", res.proxyQueryParams);
    DeclareRequest(m2, "header", res.proxyHeaderParams);
    var key := IntegrationVar(kind, p.param);
    if kind == "path" {
      DeclareForwards(BaseMaps, "path", res.proxyPathParams, p);
      NotOfKind(kind, p.param, "query", res.proxyQueryParams);
      NotOfKind(kind, p.param, "header", res.proxyHeaderParams);
      DeclareKeeps(m1, "query", res.proxyQueryParams, key);
      DeclareKeeps(m2, "header", res.proxyHeaderParams, key);
    } else if kind == "query" {
      DeclareForwards(m1, "query", res.proxyQueryParams, p);
      NotOfKind(kind, p.param, "header", res.proxyHeaderParams);
      DeclareKeeps(m2, "header", res.proxyHeaderParams, key);
    } else {
      DeclareForwards(m2, "header", res.proxyHeaderParams, p);
    }
  }

  /** A declared resource's method declares the proxy parameter and its own
      parameters and nothing else; any other method declares only the proxy
      parameter and forwards only it and the forced Accept-Encoding. */
  lemma RequestKeys(res: APIResource)
    ensures res.path != "" ==>
              RequestMaps(res).request.Keys == {ProxyMethodVar} + MethodKeys("path", res.proxyPathParams)
                + MethodKeys("query", res.proxyQueryParams) + MethodKeys("header", res.proxyHeaderParams)
    ensures res.path == "" ==>
              RequestMaps(res).request.Keys == {ProxyMethodVar} &&
              RequestMaps(res).integration.Keys == {ProxyIntegrationVar, AcceptEncodingVar}
  {
    if res.path != "" {
      var m1 := Declare(BaseMaps, "path", res.proxyPathParams);
      var m2 := Declare(m1, "query", res.proxyQueryParams);
      DeclareRequest(BaseMaps, "path", res.proxyPathParams);
      DeclareRequest(m1, "query", res.proxyQueryParams);
      DeclareRequest(m2, "header", res.proxyHeaderParams);
    }
  }

  /** A parameter of one kind is not declared by parameters of another kind. */
  lemma NotOfKind(k1: string, name: string, k2: string, qs: seq<Param>)
    requires IsKind(k1) && IsKind(k2) && k1 != k2
    ensures IntegrationVar(k1, name) !in IntegrationKeys(k2, qs)
  {
    if IntegrationVar(k1, name) in IntegrationKeys(k2, qs) {
      var q :| q in qs && IntegrationVar(k2, q.param) == IntegrationVar(k1, name);
      IntegrationVarInjective(k1, name, k2, q.param);
    }
  }

  /** The header key Accept-Encoding is declared exactly when a header parameter has that name. */
  lemma HeaderOverwrite(hs: seq<Param>)
    ensures AcceptEncodingVar in IntegrationKeys("header", hs) <==> exists p :: p in hs && p.param == AcceptEncodingHeader
  {
    if AcceptEncodingVar in IntegrationKeys("header", hs) {
      var p :| p in hs && IntegrationVar("header", p.param) == AcceptEncodingVar;
      IntegrationVarInjective("header", p.param, "header", AcceptEncodingHeader);
    }
  }

  /** The gateway method for one verb of one node. The API key is required
      exactly when the gateway does not authorize callers by IAM. */
  function MethodResource(resourceLogicalName: string, path: string, timeout: int, authorizationType: string,
                          verb: string, res: APIResource, slot: nat): (r: Resource)
    ensures r.ApiMethod? && r.httpMethod == verb
    ensures r.apiKeyRequired <==> authorizationType != "AWS_IAM"
    ensures r.dependsOn == [LoadBalancerName] && r.restApiId == Ref(Indexed(RestApiBase, slot))
    ensures r.requestParameters == RequestMaps(res).request && r.integration.requestParameters == RequestMaps(res).integration
  {
    var maps := RequestMaps(res);
    ApiMethod(
      maps.request,
      authorizationType,
      authorizationType != "AWS_IAM",
      verb,
      Ref(resourceLogicalName),
      Ref(Indexed(RestApiBase, slot)),
      Integration(
        Ref(VpcLinkName), "VPC_LINK", "ANY", "WHEN_NO_MATCH", maps.integration, "HTTP_PROXY", timeout,
        Cfn.Join("", [Lit("http://"), GetAtt(LoadBalancerName, "DNSName"), Lit(path)])),
      [LoadBalancerName])
  }

  /** buildAWSApiGatewayMethod, loops and all. */
  method BuildMethod(resourceLogicalName: string, path: string, timeout: int, authorizationType: string,
                     verb: string, res: APIResource, slot: nat) returns (r: Resource)
    ensures r == MethodResource(resourceLogicalName, path, timeout, authorizationType, verb, res, slot)
  {
    var apiKeyRequired: bool;
    if authorizationType == "AWS_IAM" {
      apiKeyRequired := false;
    } else {
      apiKeyRequired := true;
    }
    var request: map<string, bool> := map[ProxyMethodVar := true];
    var integration: map<string, string> := map[ProxyIntegrationVar := ProxyMethodVar];
    integration := integration[AcceptEncodingVar := "'identity'"];
    if res.path != "" {
      request, integration := DeclareParams(request, integration, "path", res.proxyPathParams);
      request, integration := DeclareParams(request, integration, "query", res.proxyQueryParams);
      request, integration := DeclareParams(request, integration, "header", res.proxyHeaderParams);
    }
    r := ApiMethod(
      request,
      authorizationType,
      apiKeyRequired,
      verb,
      Ref(resourceLogicalName),
      Ref(Indexed(RestApiBase, slot)),
      Integration(
        Ref(VpcLinkName), "VPC_LINK", "ANY", "WHEN_NO_MATCH", integration, "HTTP_PROXY", timeout,
        Cfn.Join("", [Lit("http://"), GetAtt(LoadBalancerName, "DNSName"), Lit(path)])),
      [LoadBalancerName]);
  }
}

/** The CloudFormation resources and outputs the engine emits, reduced to the
    properties it sets, and the template document it fills. */
module Resources {
  import opened Cfn
  import opened Config
  import opened Document

  /** The HTTP_PROXY integration of a gateway method. */
  datatype Integration = Integration(
    connectionId: Value,
    connectionType: string,
    integrationHttpMethod: string,
    passthroughBehavior: string,
    requestParameters: map<string, string>,
    integrationType: string,
    timeoutInMillis: int,
    uri: Value)

  datatype MethodSetting = MethodSetting(resourcePath: string, httpMethod: string, cachingEnabled: bool)

  /** The resource policy of a REST API: one Allow statement for
      execute-api:Invoke on every resource, granted either to the listed
      principals or to everyone. */
  datatype Policy = PrincipalsPolicy(principals: seq<string>) | AllPrincipalsPolicy

  datatype ThrottleSettings = ThrottleSettings(burstLimit: int, rateLimit: int)

  /** Usage plan stage: the API, its stage, and per "path/VERB" throttles. */
  datatype ApiStage = ApiStage(apiId: Value, stage: string, throttle: map<string, ThrottleSettings>)

  /** A WAF rule as decoded from the configured JSON; its fields are passed through untouched. */
  datatype WafRule = WafRule(name: string, priority: int)

  datatype Resource =
    | ApiResource(parentId: Value, pathPart: string, restApiId: Value)
    | ApiMethod(
        requestParameters: map<string, bool>,
        authorizationType: string,
        apiKeyRequired: bool,
        httpMethod: string,
        resourceId: Value,
        restApiId: Value,
        integration: Integration,
        dependsOn: seq<string>)
    | RestApi(
        minimumCompressionSize: int,
        apiKeySourceType: string,
        endpointTypes: seq<string>,
        apiName: Value,
        policy: Policy)
    | Deployment(
        restApiId: Value,
        stageName: string,
        cacheClusterEnabled: bool,
        cacheClusterSize: string,
        cacheDataEncrypted: bool,
        methodSettings: seq<MethodSetting>,
        dependsOn: seq<string>)
    | Authorizer(
        authorizerCredentials: Option<Value>,
        authorizerResultTtlInSeconds: int,
        authorizerUri: Option<Value>,
        authType: string,
        identitySource: string,
        identityValidationExpression: string,
        authorizerName: string,
        providerArns: seq<string>,
        restApiId: Value,
        authorizerType: string)
    | BasePathMapping(domainName: string, restApiId: Value, stage: string, basePath: string, dependsOn: seq<string>)
    | DomainName(
        certificateArn: string,
        regionalCertificateArn: string,
        domainName: string,
        securityPolicy: string,
        endpointTypes: seq<string>)
    | WebAcl(aclName: Value, scope: string, description: string, metricName: Value, rules: seq<WafRule>)
    | WebAclAssociation(webAclArn: Value, resourceArn: Value, dependsOn: seq<string>)
    | UsagePlanResource(
        usagePlanName: string,
        description: string,
        quotaLimit: int,
        quotaOffset: int,
        quotaPeriod: string,
        burstLimit: int,
        rateLimit: int,
        apiStages: seq<ApiStage>,
        dependsOn: seq<string>)
    | ApiKey(customerId: string, generateDistinctId: bool, keyName: string, enabled: bool)
    | UsagePlanKey(keyId: Value, keyType: string, usagePlanId: Value)
    | LoadBalancer(subnets: seq<string>)
    | Listener
    | TargetGroup(vpcId: string, targets: seq<string>, port: int)
    | VpcLink(dependsOn: seq<string>)
    | SecurityGroupIngress(groupId: string, cidrIp: string, fromPort: int, toPort: int)
    | LambdaExecutionRole
    | RecordSet(recordName: string, hostedZoneName: string, dnsName: string, hostedZoneId: string)

  /** A stack output: a value, or the JSON rendering of part of the configuration. */
  datatype Output =
    | Out(value: Value)
    | UsagePlansJson(plans: seq<UsagePlan>)
    | ApiDefinitionsJson(definitions: seq<AWSAPIDefinition>)
    | ApiResourcesJson(apiResources: seq<APIResource>)

  /** The template under construction: its Resources and Outputs sections.
      Each section is the replay of the assignments made to it, kept as a
      ghost log. */
  class Template {
    var resources: map<string, Resource>
    var outputs: map<string, Output>
    ghost var resourceLog: seq<Write<Resource>>
    ghost var outputLog: seq<Write<Output>>

    ghost predicate Valid()
      reads this
    {
      resources == Run(map[], resourceLog) && outputs == Run(map[], outputLog)
    }

    /** cfn.NewTemplate: both sections empty. */
    constructor ()
      ensures Valid() && resourceLog == [] && outputLog == []
      ensures resources == map[] && outputs == map[]
    {
      resources := map[];
      outputs := map[];
      resourceLog := [];
      outputLog := [];
    }

    /** template.Resources[k] = v */
    method SetResource(k: string, v: Resource)
      modifies this
      requires Valid()
      ensures Valid() && resources == old(resources)[k := v]
      ensures resourceLog == old(resourceLog) + [Put(k, v)] && outputLog == old(outputLog)
    {
      RunSnoc(map[], resourceLog, Put(k, v));
      resources := resources[k := v];
      resourceLog := resourceLog + [Put(k, v)];
    }

    /** template.Outputs[k] = v */
    method SetOutput(k: string, v: Output)
      modifies this
      requires Valid()
      ensures Valid() && outputs == old(outputs)[k := v]
      ensures outputLog == old(outputLog) + [Put(k, v)] && resourceLog == old(resourceLog)
    {
      RunSnoc(map[], outputLog, Put(k, v));
      outputs := outputs[k := v];
      outputLog := outputLog + [Put(k, v)];
    }
  }
}

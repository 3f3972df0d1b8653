/** The configuration records the engine reads: one ingress's routing rule,
    its network, its gateway settings, and the optional tenant API
    definitions, usage plans and explicit API resources. */
module Config {

  /** A request parameter the integration forwards (path, query or header). */
  datatype Param = Param(param: string, required: bool)

  /** An explicitly declared API path with its HTTP verbs and forwarded parameters. */
  datatype APIResource = APIResource(
    path: string,
    methods: seq<string>,
    cachingEnabled: bool,
    proxyPathParams: seq<Param>,
    proxyQueryParams: seq<Param>,
    proxyHeaderParams: seq<Param>)

  /** The zero value the path-driven builder passes for every method it creates. */
  const NoAPIResource := APIResource("", [], false, [], [], [])

  datatype APIKey = APIKey(customerId: string, generateDistinctId: bool, name: string)

  /** A per-path throttling override inside a usage plan. */
  datatype MethodThrottling = MethodThrottling(path: string, burstLimit: int, rateLimit: int)

  datatype UsagePlan = UsagePlan(
    planName: string,
    description: string,
    apiKeys: seq<APIKey>,
    quotaLimit: int,
    quotaOffset: int,
    quotaPeriod: string,
    throttleBurstLimit: int,
    throttleRateLimit: int,
    methodThrottling: seq<MethodThrottling>)

  /** One tenant's API: each definition gets its own numbered slot of resources. */
  datatype AWSAPIDefinition = AWSAPIDefinition(
    name: string,
    context: string,
    identitySource: string,
    authorizerType: string,
    authorizerAuthType: string,
    authorizerName: string,
    identityValidationExpression: string,
    authorizerResultTtlInSeconds: int,
    authorizerUri: string,
    providerARNs: seq<string>,
    authenticationEnabled: bool,
    apiKeyEnabled: bool,
    authorizationEnabled: bool,
    usagePlans: seq<UsagePlan>)

  /** The network facts the controller discovered for the cluster. */
  datatype Network = Network(
    vpcId: string,
    cidrBlock: string,
    subnetIds: seq<string>,
    securityGroupIds: seq<string>,
    instanceIds: seq<string>)

  /** Everything the main composer needs. The ingress rule is reduced to its
      list of backend paths. */
  datatype TemplateConfig = TemplateConfig(
    network: Network,
    paths: seq<string>,
    nodePort: int,
    stageName: string,
    arns: seq<string>,
    customDomainName: string,
    customDomainBasePath: string,
    certificateArn: string,
    apiEndpointType: string,
    wafEnabled: bool,
    wafRulesJson: string,
    wafScope: string,
    wafAssociation: bool,
    requestTimeout: int,
    tlsPolicy: string,
    usagePlans: seq<UsagePlan>,
    minimumCompressionSize: int,
    cachingEnabled: bool,
    cachingSize: string,
    apiResources: seq<APIResource>,
    awsApiDefinitions: seq<AWSAPIDefinition>)

  datatype Route53TemplateConfig = Route53TemplateConfig(
    customDomainName: string,
    customDomainHostName: string,
    customDomainHostedZoneId: string,
    hostedZoneName: string)
}

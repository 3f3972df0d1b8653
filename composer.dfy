/** The two template composers. BuildAPIGatewayTemplateFromIngressRule fills
    in configuration defaults, adds the resources every stack shares, builds
    one numbered slot of gateway resources per tenant API definition (or one
    slot when there are none), and then writes the outputs, each behind its
    own gate. BuildAPIGatewayRoute53Template builds the DNS record stack. */
module Composer {
  import opened Text
  import opened Cfn
  import opened Config
  import opened Resources
  import opened Naming
  import opened Document
  import opened Trees
  import opened Deployments
  import opened Features

  /** Output keys. */
  const OutRestApiId := "RestAPIID"
  const OutEndpoint := "APIGatewayEndpoint"
  const OutEndpointType := "APIGWEndpointType"
  const OutClientArns := "ClientARNS"
  const OutCertArn := "SSLCertArn"
  const OutCustomDomain := "CustomDomainName"
  const OutCustomDomainBasePath := "CustomDomainBasePath"
  const OutMinimumCompressionSize := "MinimumCompressionSize"
  const OutWafEnabled := "WAFEnabled"
  const OutWafRules := "WAFRules"
  const OutWafScope := "WAFScope"
  const OutWafAssociation := "WAFAssociation"
  const OutCustomDomainHostName := "CustomDomainHostname"
  const OutCustomDomainHostedZoneId := "CustomDomainHostedZoneID"
  const OutHostedZone := "HostedZone"
  const OutRequestTimeout := "RequestTimeout"
  const OutTlsPolicy := "TLSPolicy"
  const OutUsagePlans := "UsagePlansData"
  const OutCachingEnabled := "CachingEnabled"
  const OutCacheClusterSize := "CachingSize"
  const OutApiResources := "APIResources"
  const OutAwsApiConfigs := "AWSAPIConfigs"

  /** Attributes of the custom domain the outputs read. */
  const DistributionDomainName := "DistributionDomainName"
  const DistributionHostedZoneId := "DistributionHostedZoneId"
  const RegionalDomainName := "RegionalDomainName"
  const RegionalHostedZoneId := "RegionalHostedZoneId"

  const Edge := "EDGE"
  const DefaultCacheSize := "0.5"
  const NoAuthorization := "NONE"

  /** The configuration defaults, applied in the order the composer applies
      them: the endpoint type becomes EDGE, an enabled WAF gets the REGIONAL
      scope, a cache size switches caching on, and caching gets size 0.5. */
  function ApplyDefaults(cfg: TemplateConfig): (r: TemplateConfig)
    ensures r.apiEndpointType != "" && (r.wafEnabled ==> r.wafScope != "")
    ensures r.cachingEnabled <==> r.cachingSize != ""
  {
    var c1 := if cfg.apiEndpointType == "" then cfg.(apiEndpointType := Edge) else cfg;
    var c2 := if c1.wafEnabled && c1.wafScope == "" then c1.(wafScope := Regional) else c1;
    var c3 := if !c2.cachingEnabled && c2.cachingSize != "" then c2.(cachingEnabled := true) else c2;
    if c3.cachingEnabled && c3.cachingSize == "" then c3.(cachingSize := DefaultCacheSize) else c3
  }

  /** Methods are signed with IAM exactly when client ARNs are configured. */
  function AuthorizationType(cfg: TemplateConfig): (r: string)
    ensures r == AwsIam <==> |cfg.arns| > 0
    ensures r != AwsIam ==> r == NoAuthorization
  {
    if |cfg.arns| > 0 then AwsIam else NoAuthorization
  }

  /** The number of slots: one per API definition, and one when there are none. */
  function ApiSize(cfg: TemplateConfig): (r: nat)
    ensures r >= 1 && (|cfg.awsApiDefinitions| > 0 ==> r == |cfg.awsApiDefinitions|)
  {
    if |cfg.awsApiDefinitions| > 0 then |cfg.awsApiDefinitions| else 1
  }

  /** The resource tree of a slot: from the declared API resources when there
      are any, otherwise from the ingress paths. */
  function SlotTree(cfg: TemplateConfig, auth: string, slot: nat): map<string, Resource>
  {
    if |cfg.apiResources| > 0 then DeclaredTree(cfg.apiResources, cfg.requestTimeout, auth, slot)
    else WildcardTree(cfg.paths, cfg.requestTimeout, auth, slot)
  }

  /** The names of a tree's gateway methods. */
  function MethodNames(tree: map<string, Resource>): (r: set<string>)
    ensures forall k :: k in r <==> k in tree && tree[k].ApiMethod?
  {
    set k | k in tree && tree[k].ApiMethod?
  }

  /** The REST API of a slot: a tenant with authentication off gets NONE in
      place of the stack's authorization type; a tenant API is named after
      its definition, the single default API after the stack. */
  function SlotRestApi(cfg: TemplateConfig, auth: string, slot: nat): (r: Resource)
    requires slot < ApiSize(cfg)
    ensures r.RestApi?
  {
    var defs := cfg.awsApiDefinitions;
    if |defs| > 0 && !defs[slot].authenticationEnabled then
      RestApiOf(cfg.arns, cfg.apiEndpointType, NoAuthorization, cfg.minimumCompressionSize, Lit(defs[slot].name))
    else if |defs| > 0 then
      RestApiOf(cfg.arns, cfg.apiEndpointType, auth, cfg.minimumCompressionSize, Lit(defs[slot].name))
    else
      RestApiOf(cfg.arns, cfg.apiEndpointType, auth, cfg.minimumCompressionSize, Ref(StackName))
  }

  /** The usage plans a slot builds: a tenant with API keys enabled uses its
      own plans, or the global plans when it has none; a tenant without API
      keys builds none; the default slot uses the global plans. */
  function SlotPlans(cfg: TemplateConfig, slot: nat): seq<UsagePlan>
    requires slot < ApiSize(cfg)
  {
    var defs := cfg.awsApiDefinitions;
    if |defs| > 0 then
      if defs[slot].apiKeyEnabled then
        if |defs[slot].usagePlans| > 0 then defs[slot].usagePlans else cfg.usagePlans
      else []
    else cfg.usagePlans
  }

  /** The custom domain is built only when both its name and certificate are set. */
  predicate HasCustomDomain(cfg: TemplateConfig)
  {
    cfg.customDomainName != "" && cfg.certificateArn != ""
  }

  /** The base path of a slot's mapping: the tenant's context, or the
      configured base path for the default slot. */
  function SlotBasePath(cfg: TemplateConfig, slot: nat): string
    requires slot < ApiSize(cfg)
  {
    if |cfg.awsApiDefinitions| > 0 then cfg.awsApiDefinitions[slot].context else cfg.customDomainBasePath
  }

  // Resource assignments, in the order the composer makes them.

  function DomainWrites(cfg: TemplateConfig): seq<Write<Resource>>
  {
    if HasCustomDomain(cfg) then
      [Put(CustomDomainName, CustomDomainOf(cfg.customDomainName, cfg.certificateArn, cfg.apiEndpointType, cfg.tlsPolicy))]
    else []
  }

  function FixedWrites(cfg: TemplateConfig): seq<Write<Resource>>
  {
    [Put(LambdaInvokeRoleName, LambdaExecutionRole),
     Put(TargetGroupName, TargetGroup(cfg.network.vpcId, cfg.network.instanceIds, cfg.nodePort)),
     Put(ListenerName, Listener)]
  }

  /** The node-port ingress rules of the first n security groups, numbered in order. */
  function IngressWrites(groupIds: seq<string>, cidr: string, port: int, n: nat): seq<Write<Resource>>
    requires n <= |groupIds|
  {
    if n == 0 then []
    else
      IngressWrites(groupIds, cidr, port, n - 1)
        + [Put(Indexed(SecurityGroupIngressBase, n - 1), SecurityGroupIngress(groupIds[n - 1], cidr, port, port))]
  }

  function WafAclWrites(cfg: TemplateConfig, parse: string -> Option<seq<WafRule>>): seq<Write<Resource>>
  {
    if cfg.wafEnabled then [Put(WafAclName, WebAclOf(cfg.wafScope, cfg.wafRulesJson, parse))] else []
  }

  /** The resources every stack shares, written before the slot loop. */
  function SharedWrites(cfg: TemplateConfig, parse: string -> Option<seq<WafRule>>): seq<Write<Resource>>
  {
    var ids := cfg.network.securityGroupIds;
    DomainWrites(cfg) + FixedWrites(cfg) + IngressWrites(ids, cfg.network.cidrBlock, cfg.nodePort, |ids|)
      + WafAclWrites(cfg, parse)
  }

  function AuthorizerWrites(cfg: TemplateConfig, slot: nat): seq<Write<Resource>>
    requires slot < ApiSize(cfg)
  {
    var defs := cfg.awsApiDefinitions;
    if |defs| > 0 && defs[slot].authorizationEnabled then [Put(Indexed(AuthorizerBase, slot), AuthorizerOf(defs[slot], slot))]
    else []
  }

  /** One slot's tree, REST API, authorizer and deployment. The deployment
      depends on every method of the tree. */
  ghost function SlotCoreWrites(cfg: TemplateConfig, auth: string, slot: nat): seq<Write<Resource>>
    requires slot < ApiSize(cfg)
  {
    var tree := SlotTree(cfg, auth, slot);
    [Merge(tree)] + [Put(Indexed(RestApiBase, slot), SlotRestApi(cfg, auth, slot))]
      + AuthorizerWrites(cfg, slot)
      + [Put(Indexed(DeploymentBase, slot),
             DeploymentOf(cfg.stageName, multiset(MethodNames(tree)), cfg.cachingEnabled, cfg.apiResources, cfg.cachingSize, slot))]
  }

  function BasePathWrites(cfg: TemplateConfig, slot: nat): seq<Write<Resource>>
    requires slot < ApiSize(cfg)
  {
    if HasCustomDomain(cfg) then
      [Put(Indexed(BasePathMappingBase, slot), BasePathMappingOf(cfg.customDomainName, cfg.stageName, SlotBasePath(cfg, slot), slot))]
    else []
  }

  function WafAssociationWrites(cfg: TemplateConfig, slot: nat): seq<Write<Resource>>
  {
    if cfg.wafEnabled && cfg.wafAssociation then [Put(Indexed(WafAssociationBase, slot), WafAssociationOf(cfg.stageName, slot))]
    else []
  }

  /** One slot's base-path mapping, WAF association and usage plans. */
  function SlotExtraWrites(cfg: TemplateConfig, slot: nat): seq<Write<Resource>>
    requires slot < ApiSize(cfg)
  {
    var plans := SlotPlans(cfg, slot);
    BasePathWrites(cfg, slot) + WafAssociationWrites(cfg, slot) + PlansWrites(plans, cfg.stageName, slot, |plans|)
  }

  ghost function SlotWrites(cfg: TemplateConfig, auth: string, slot: nat): seq<Write<Resource>>
    requires slot < ApiSize(cfg)
  {
    SlotCoreWrites(cfg, auth, slot) + SlotExtraWrites(cfg, slot)
  }

  /** The writes of each slot, slot by slot. */
  ghost function SlotLogs(cfg: TemplateConfig, auth: string): (r: seq<seq<Write<Resource>>>)
    ensures |r| == ApiSize(cfg) && forall s :: 0 <= s < |r| ==> r[s] == SlotWrites(cfg, auth, s)
  {
    seq(ApiSize(cfg), s requires 0 <= s < ApiSize(cfg) => SlotWrites(cfg, auth, s))
  }

  /** The first n API keys of plan j, each under "APIKey" + j + k + slot. */
  function KeyWrites(plan: UsagePlan, j: nat, slot: nat, n: nat): seq<Write<Resource>>
    requires n <= |plan.apiKeys|
  {
    if n == 0 then []
    else KeyWrites(plan, j, slot, n - 1) + [Put(ApiKeyName(j, n - 1, slot), ApiKeyOf(plan.apiKeys[n - 1], slot))]
  }

  /** The first n key mappings of plan j, each under "APIKeyUsagePlan" + j + k + slot. */
  function MappingWrites(plan: UsagePlan, j: nat, slot: nat, n: nat): seq<Write<Resource>>
    requires n <= |plan.apiKeys|
  {
    if n == 0 then []
    else MappingWrites(plan, j, slot, n - 1) + [Put(KeyMappingName(j, n - 1, slot), KeyMappingOf(j, n - 1, slot))]
  }

  /** Plan j: its keys, the plan itself under the slot's "UsagePlan" name,
      then its key mappings. */
  function PlanWrites(plan: UsagePlan, j: nat, stage: string, slot: nat): seq<Write<Resource>>
  {
    KeyWrites(plan, j, slot, |plan.apiKeys|) + [Put(Indexed(UsagePlanBase, slot), UsagePlanOf(plan, stage, slot))]
      + MappingWrites(plan, j, slot, |plan.apiKeys|)
  }

  /** The first n plans of a slot. */
  function PlansWrites(plans: seq<UsagePlan>, stage: string, slot: nat, n: nat): seq<Write<Resource>>
    requires n <= |plans|
  {
    if n == 0 then [] else PlansWrites(plans, stage, slot, n - 1) + PlanWrites(plans[n - 1], n - 1, stage, slot)
  }

  /** The load balancer and the VPC link, written after the slot loop. */
  function SuffixWrites(cfg: TemplateConfig): seq<Write<Resource>>
  {
    [Put(LoadBalancerName, LoadBalancer(cfg.network.subnetIds)), Put(VpcLinkName, VpcLink([LoadBalancerName]))]
  }

  /** Every resource assignment of the composer, for a configuration whose
      defaults are already applied. */
  ghost function ResourceWrites(cfg: TemplateConfig, parse: string -> Option<seq<WafRule>>): seq<Write<Resource>>
  {
    SharedWrites(cfg, parse) + Concat(SlotLogs(cfg, AuthorizationType(cfg))) + SuffixWrites(cfg)
  }

  // Output assignments, in the order the composer makes them.

  /** The invoke URL of a slot's stage. */
  function EndpointUrl(slot: nat, stage: string): Value
  {
    Cfn.Join("", [Lit("https://"), Ref(Indexed(RestApiBase, slot)), Lit(".execute-api."), Ref(Region),
                  Lit(".amazonaws.com/"), Lit(stage)])
  }

  /** The two outputs the outputs section starts with. */
  function HeadOutputWrites(cfg: TemplateConfig): seq<Write<Output>>
  {
    [Put(OutEndpointType, Out(Lit(cfg.apiEndpointType))), Put(OutRequestTimeout, Out(Lit(IntToString(cfg.requestTimeout))))]
  }

  /** The outputs of one slot: its API id and endpoint, and the association
      reference whenever WAF association is requested. */
  function SlotOutputWrites(cfg: TemplateConfig, slot: nat): seq<Write<Output>>
  {
    [Put(Indexed(OutRestApiId, slot), Out(Ref(Indexed(RestApiBase, slot)))),
     Put(Indexed(OutEndpoint, slot), Out(EndpointUrl(slot, cfg.stageName)))]
      + (if cfg.wafAssociation then [Put(Indexed(OutWafAssociation, slot), Out(Ref(Indexed(WafAssociationBase, slot))))] else [])
  }

  function SlotsOutputWrites(cfg: TemplateConfig, n: nat): seq<Write<Output>>
  {
    if n == 0 then [] else SlotsOutputWrites(cfg, n - 1) + SlotOutputWrites(cfg, n - 1)
  }

  function UsagePlanOutputs(cfg: TemplateConfig): seq<Write<Output>>
  {
    if |cfg.usagePlans| > 0 then [Put(OutUsagePlans, UsagePlansJson(cfg.usagePlans))] else []
  }

  function ClientArnOutputs(cfg: TemplateConfig): seq<Write<Output>>
  {
    if |cfg.arns| > 0 then [Put(OutClientArns, Out(Lit(Text.Join(cfg.arns, ","))))] else []
  }

  function CompressionOutputs(cfg: TemplateConfig): seq<Write<Output>>
  {
    if cfg.minimumCompressionSize > 0 then [Put(OutMinimumCompressionSize, Out(Lit(IntToString(cfg.minimumCompressionSize))))]
    else []
  }

  function ApiConfigOutputs(cfg: TemplateConfig): seq<Write<Output>>
  {
    if |cfg.awsApiDefinitions| > 0 then [Put(OutAwsApiConfigs, ApiDefinitionsJson(cfg.awsApiDefinitions))] else []
  }

  function WafOutputs(cfg: TemplateConfig): seq<Write<Output>>
  {
    if cfg.wafEnabled then
      [Put(OutWafEnabled, Out(Lit("true"))), Put(OutWafRules, Out(Lit(cfg.wafRulesJson))), Put(OutWafScope, Out(Lit(cfg.wafScope)))]
    else []
  }

  /** The custom-domain outputs, reading the given attributes of the domain. */
  function DomainOutputs(cfg: TemplateConfig, hostAttribute: string, zoneAttribute: string): seq<Write<Output>>
  {
    [Put(OutCertArn, Out(Lit(cfg.certificateArn))),
     Put(OutCustomDomain, Out(Lit(cfg.customDomainName))),
     Put(OutCustomDomainHostName, Out(GetAtt(CustomDomainName, hostAttribute))),
     Put(OutCustomDomainHostedZoneId, Out(GetAtt(CustomDomainName, zoneAttribute))),
     Put(OutTlsPolicy, Out(Lit(cfg.tlsPolicy))),
     Put(OutCustomDomainBasePath, Out(Lit(cfg.customDomainBasePath)))]
  }

  function RegionalDomainOutputs(cfg: TemplateConfig): seq<Write<Output>>
  {
    if cfg.apiEndpointType == Regional && cfg.customDomainName != "" then
      DomainOutputs(cfg, RegionalDomainName, RegionalHostedZoneId)
    else []
  }

  function EdgeDomainOutputs(cfg: TemplateConfig): seq<Write<Output>>
  {
    if cfg.apiEndpointType == Edge && cfg.customDomainName != "" then
      DomainOutputs(cfg, DistributionDomainName, DistributionHostedZoneId)
    else []
  }

  function CachingOutputs(cfg: TemplateConfig): seq<Write<Output>>
  {
    if cfg.cachingEnabled && cfg.cachingSize != "" then
      [Put(OutCachingEnabled, Out(Lit("true"))), Put(OutCacheClusterSize, Out(Lit(cfg.cachingSize)))]
    else []
  }

  function ApiResourceOutputs(cfg: TemplateConfig): seq<Write<Output>>
  {
    if |cfg.apiResources| > 0 then [Put(OutApiResources, ApiResourcesJson(cfg.apiResources))] else []
  }

  /** Every output assignment of the composer, for a configuration whose
      defaults are already applied. */
  function OutputWrites(cfg: TemplateConfig): seq<Write<Output>>
  {
    HeadOutputWrites(cfg) + SlotsOutputWrites(cfg, ApiSize(cfg))
      + UsagePlanOutputs(cfg) + ClientArnOutputs(cfg) + CompressionOutputs(cfg) + ApiConfigOutputs(cfg)
      + WafOutputs(cfg) + RegionalDomainOutputs(cfg) + EdgeDomainOutputs(cfg) + CachingOutputs(cfg)
      + ApiResourceOutputs(cfg)
  }

  /** BuildAPIGatewayTemplateFromIngressRule. The configuration is updated
      in place with its defaults, so the caller gets it back. */
  method BuildTemplate(cfg0: TemplateConfig, parse: string -> Option<seq<WafRule>>) returns (t: Template, cfg: TemplateConfig)
    ensures fresh(t) && t.Valid() && cfg == ApplyDefaults(cfg0)
    ensures t.resourceLog == ResourceWrites(cfg, parse) && t.outputLog == OutputWrites(cfg)
  {
    t := new Template();
    cfg := WithDefaults(cfg0);
    var auth: string;
    if |cfg.arns| > 0 {
      auth := AwsIam;
    } else {
      auth := NoAuthorization;
    }
    var apiSize: nat;
    if |cfg.awsApiDefinitions| > 0 {
      apiSize := |cfg.awsApiDefinitions|;
    } else {
      apiSize := 1;
    }
    AddSharedResources(t, cfg, parse);
    AddSlots(t, cfg, auth, apiSize);
    AddSuffixResources(t, cfg);
    AddOutputs(t, cfg);
  }

  /** The defaults the composer fills in before it writes anything. */
  method WithDefaults(cfg0: TemplateConfig) returns (cfg: TemplateConfig)
    ensures cfg == ApplyDefaults(cfg0)
  {
    cfg := cfg0;
    if cfg.apiEndpointType == "" {
      cfg := cfg.(apiEndpointType := Edge);
    }
    if cfg.wafEnabled && cfg.wafScope == "" {
      cfg := cfg.(wafScope := Regional);
    }
    if !cfg.cachingEnabled && cfg.cachingSize != "" {
      cfg := cfg.(cachingEnabled := true);
    }
    if cfg.cachingEnabled && cfg.cachingSize == "" {
      cfg := cfg.(cachingSize := DefaultCacheSize);
    }
  }

  /** The loop over the API slots. */
  method AddSlots(t: Template, cfg: TemplateConfig, auth: string, apiSize: nat)
    modifies t
    requires t.Valid() && auth == AuthorizationType(cfg) && apiSize == ApiSize(cfg)
    ensures t.Valid() && t.resourceLog == old(t.resourceLog) + Concat(SlotLogs(cfg, auth)) && t.outputLog == old(t.outputLog)
  {
    ghost var log0 := t.resourceLog;
    ghost var logs := SlotLogs(cfg, auth);
    for i := 0 to apiSize
      invariant t.Valid() && t.outputLog == old(t.outputLog)
      invariant t.resourceLog == log0 + Concat(logs[..i])
    {
      ghost var before := t.resourceLog;
      AddSlot(t, cfg, auth, i);
      assert t.resourceLog == before + logs[i];
      ConcatStep(log0, logs, i);
    }
    assert logs[..apiSize] == logs;
  }

  /** The network load balancer and the VPC link that points at it. */
  method AddSuffixResources(t: Template, cfg: TemplateConfig)
    modifies t
    requires t.Valid()
    ensures t.Valid() && t.resourceLog == old(t.resourceLog) + SuffixWrites(cfg) && t.outputLog == old(t.outputLog)
  {
    t.SetResource(LoadBalancerName, LoadBalancer(cfg.network.subnetIds));
    t.SetResource(VpcLinkName, VpcLink([LoadBalancerName]));
    assert t.resourceLog == old(t.resourceLog) + SuffixWrites(cfg);
  }

  /** The custom domain, the Lambda role, the target group, the listener,
      the ingress rules and the WAF ACL. */
  method AddSharedResources(t: Template, cfg: TemplateConfig, parse: string -> Option<seq<WafRule>>)
    modifies t
    requires t.Valid() && t.resourceLog == [] && t.outputLog == []
    ensures t.Valid() && t.resourceLog == SharedWrites(cfg, parse) && t.outputLog == []
  {
    if HasCustomDomain(cfg) {
      t.SetResource(CustomDomainName, CustomDomainOf(cfg.customDomainName, cfg.certificateArn, cfg.apiEndpointType, cfg.tlsPolicy));
    }
    assert t.resourceLog == DomainWrites(cfg);
    AddFixedResources(t, cfg);
    ghost var before := DomainWrites(cfg) + FixedWrites(cfg);
    var groupIds := cfg.network.securityGroupIds;
    for k := 0 to |groupIds|
      invariant t.Valid() && t.outputLog == []
      invariant t.resourceLog == before + IngressWrites(groupIds, cfg.network.cidrBlock, cfg.nodePort, k)
    {
      var rule := Put(Indexed(SecurityGroupIngressBase, k), SecurityGroupIngress(groupIds[k], cfg.network.cidrBlock, cfg.nodePort, cfg.nodePort));
      t.SetResource(rule.key, rule.value);
      AppendAssoc(before, IngressWrites(groupIds, cfg.network.cidrBlock, cfg.nodePort, k), [rule]);
    }
    if cfg.wafEnabled {
      t.SetResource(WafAclName, WebAclOf(cfg.wafScope, cfg.wafRulesJson, parse));
    }
  }

  /** The Lambda invoke role, the target group and its listener. */
  method AddFixedResources(t: Template, cfg: TemplateConfig)
    modifies t
    requires t.Valid()
    ensures t.Valid() && t.resourceLog == old(t.resourceLog) + FixedWrites(cfg) && t.outputLog == old(t.outputLog)
  {
    t.SetResource(LambdaInvokeRoleName, LambdaExecutionRole);
    t.SetResource(TargetGroupName, TargetGroup(cfg.network.vpcId, cfg.network.instanceIds, cfg.nodePort));
    t.SetResource(ListenerName, Listener);
    assert t.resourceLog == old(t.resourceLog) + FixedWrites(cfg);
  }

  /** One iteration of the slot loop. */
  method AddSlot(t: Template, cfg: TemplateConfig, auth: string, slot: nat)
    modifies t
    requires t.Valid() && slot < ApiSize(cfg) && auth == AuthorizationType(cfg)
    ensures t.Valid() && t.resourceLog == old(t.resourceLog) + SlotWrites(cfg, auth, slot) && t.outputLog == old(t.outputLog)
  {
    AddSlotCore(t, cfg, auth, slot);
    AddSlotExtras(t, cfg, slot);
    AppendAssoc(old(t.resourceLog), SlotCoreWrites(cfg, auth, slot), SlotExtraWrites(cfg, slot));
  }

  /** Copies a built tree into the template key by key, collecting the
      names of its methods. Go visits a map in no fixed order; so does the
      choice here. */
  method MergeTree(t: Template, tree: map<string, Resource>) returns (names: seq<string>)
    modifies t
    requires t.Valid()
    ensures t.Valid() && t.resourceLog == old(t.resourceLog) + [Merge(tree)] && t.outputLog == old(t.outputLog)
    ensures multiset(names) == multiset(MethodNames(tree))
  {
    ghost var base := t.resources;
    var remaining := tree.Keys;
    ghost var done: set<string> := {};
    ghost var found: set<string> := {};
    names := [];
    MergeStart(tree, base);
    while remaining != {}
      invariant t.resourceLog == old(t.resourceLog) && t.outputLog == old(t.outputLog) && t.outputs == old(t.outputs)
      invariant Merging(tree, base, remaining, done, found, names, t.resources)
      decreases remaining
    {
      var k :| k in remaining;
      MergeStep(tree, base, remaining, done, found, names, t.resources, k);
      if tree[k].ApiMethod? {
        names := names + [k];
        found := found + {k};
      }
      t.resources := t.resources[k := tree[k]];
      remaining := remaining - {k};
      done := done + {k};
    }
    MergeDone(tree, base, done, found, names, t.resources);
    RunSnoc(map[], t.resourceLog, Merge(tree));
    t.resourceLog := t.resourceLog + [Merge(tree)];
  }

  /** Part way through MergeTree: the keys still to copy and those copied
      split the tree, the template holds the copied part on top of what it
      had, and the names collected so far are the copied methods, each once. */
  ghost predicate Merging(tree: map<string, Resource>, base: map<string, Resource>, remaining: set<string>,
                          done: set<string>, found: set<string>, names: seq<string>, resources: map<string, Resource>)
  {
    remaining + done == tree.Keys && remaining !! done &&
    resources == base + Restrict(tree, done) &&
    found == done * MethodNames(tree) &&
    (forall x :: x in names <==> x in found) && Distinct(names)
  }

  /** Before the loop nothing is copied. */
  lemma MergeStart(tree: map<string, Resource>, base: map<string, Resource>)
    ensures Merging(tree, base, tree.Keys, {}, {}, [], base)
  {
    assert base + Restrict(tree, {}) == base;
  }

  /** Copying one more key keeps MergeTree's loop invariant. */
  lemma MergeStep(tree: map<string, Resource>, base: map<string, Resource>, remaining: set<string>,
                  done: set<string>, found: set<string>, names: seq<string>, resources: map<string, Resource>, k: string)
    requires Merging(tree, base, remaining, done, found, names, resources) && k in remaining
    ensures var isMethod := tree[k].ApiMethod?;
            Merging(tree, base, remaining - {k}, done + {k}, if isMethod then found + {k} else found,
                    if isMethod then names + [k] else names, resources[k := tree[k]])
  {
    RestrictStep(base, tree, done, k);
    if tree[k].ApiMethod? {
      assert k !in names;
      forall i, j | 0 <= i < j < |names + [k]| ensures (names + [k])[i] != (names + [k])[j] {
        if j < |names| {
          assert names[i] != names[j];
        } else {
          assert names[i] in names;
        }
      }
    }
  }

  /** Once no key remains, the template holds the whole tree on top of what
      it had and the names are the tree's methods, each once. */
  lemma MergeDone(tree: map<string, Resource>, base: map<string, Resource>, done: set<string>,
                  found: set<string>, names: seq<string>, resources: map<string, Resource>)
    requires Merging(tree, base, {}, done, found, names, resources)
    ensures resources == base + tree && multiset(names) == multiset(MethodNames(tree))
  {
    assert done == tree.Keys;
    assert found == MethodNames(tree);
    RestrictAll(tree);
    DistinctMultiset(names, found);
  }

  /** The part of a tree whose keys are already copied. */
  ghost function Restrict(tree: map<string, Resource>, done: set<string>): (r: map<string, Resource>)
    ensures r.Keys == done * tree.Keys
  {
    map k | k in done && k in tree :: tree[k]
  }

  /** Copying one more key of the tree extends the copied part by that key. */
  lemma RestrictStep(base: map<string, Resource>, tree: map<string, Resource>, done: set<string>, k: string)
    requires k in tree
    ensures (base + Restrict(tree, done))[k := tree[k]] == base + Restrict(tree, done + {k})
  {
  }

  /** Once every key is copied, the template holds the tree on top of what it had. */
  lemma RestrictAll(tree: map<string, Resource>)
    ensures Restrict(tree, tree.Keys) == tree
  {
  }

  /** No name occurs twice. */
  predicate Distinct(names: seq<string>)
  {
    forall i, j :: 0 <= i < j < |names| ==> names[i] != names[j]
  }

  /** A sequence without repetitions counts each element of its set once. */
  lemma {:induction false} DistinctMultiset(names: seq<string>, s: set<string>)
    requires Distinct(names)
    requires forall x :: x in names <==> x in s
    ensures multiset(names) == multiset(s)
    decreases |names|
  {
    if |names| == 0 {
      assert s == {};
    } else {
      var last := names[|names| - 1];
      var init := names[..|names| - 1];
      assert names == init + [last];
      forall x ensures x in init <==> x in s - {last} {
        if x in init {
          var i :| 0 <= i < |init| && init[i] == x;
          assert names[i] == x;
        }
      }
      DistinctMultiset(init, s - {last});
      forall y ensures multiset(s)[y] == (multiset(s - {last}) + multiset{last})[y] {
      }
    }
  }

  /** The slot's tree, REST API, authorizer and deployment. */
  method AddSlotCore(t: Template, cfg: TemplateConfig, auth: string, slot: nat)
    modifies t
    requires t.Valid() && slot < ApiSize(cfg) && auth == AuthorizationType(cfg)
    ensures t.Valid() && t.resourceLog == old(t.resourceLog) + SlotCoreWrites(cfg, auth, slot) && t.outputLog == old(t.outputLog)
  {
    var tree := BuildSlotTree(cfg, auth, slot);
    var names := MergeTree(t, tree);
    AddRestApi(t, cfg, auth, slot);
    AddDeployment(t, cfg, names, slot);
    ghost var api := [Put(Indexed(RestApiBase, slot), SlotRestApi(cfg, auth, slot))];
    ghost var deployment := [Put(Indexed(DeploymentBase, slot),
                                 DeploymentOf(cfg.stageName, multiset(names), cfg.cachingEnabled, cfg.apiResources, cfg.cachingSize, slot))];
    AppendAssoc(old(t.resourceLog), [Merge(tree)] + api + AuthorizerWrites(cfg, slot), deployment);
    AppendAssoc(old(t.resourceLog), [Merge(tree)] + api, AuthorizerWrites(cfg, slot));
    AppendAssoc(old(t.resourceLog), [Merge(tree)], api);
  }

  /** The tree of a slot, from the declared resources or from the ingress paths. */
  method BuildSlotTree(cfg: TemplateConfig, auth: string, slot: nat) returns (tree: map<string, Resource>)
    ensures tree == SlotTree(cfg, auth, slot)
  {
    if |cfg.apiResources| > 0 {
      tree := MapFromDeclared(cfg.apiResources, cfg.requestTimeout, auth, slot);
    } else {
      tree := MapFromPaths(cfg.paths, cfg.requestTimeout, auth, slot);
    }
  }

  /** The slot's REST API and, for a tenant that asks for one, its authorizer. */
  method AddRestApi(t: Template, cfg: TemplateConfig, auth: string, slot: nat)
    modifies t
    requires t.Valid() && slot < ApiSize(cfg)
    ensures t.Valid() && t.outputLog == old(t.outputLog)
    ensures t.resourceLog == old(t.resourceLog) + [Put(Indexed(RestApiBase, slot), SlotRestApi(cfg, auth, slot))] + AuthorizerWrites(cfg, slot)
  {
    var defs := cfg.awsApiDefinitions;
    t.SetResource(Indexed(RestApiBase, slot), SlotRestApi(cfg, auth, slot));
    if |defs| > 0 && defs[slot].authorizationEnabled {
      t.SetResource(Indexed(AuthorizerBase, slot), AuthorizerOf(defs[slot], slot));
    }
  }

  /** The slot's deployment, depending on the collected method names. */
  method AddDeployment(t: Template, cfg: TemplateConfig, names: seq<string>, slot: nat)
    modifies t
    requires t.Valid()
    ensures t.Valid() && t.outputLog == old(t.outputLog)
    ensures t.resourceLog == old(t.resourceLog)
              + [Put(Indexed(DeploymentBase, slot),
                     DeploymentOf(cfg.stageName, multiset(names), cfg.cachingEnabled, cfg.apiResources, cfg.cachingSize, slot))]
  {
    var deployment := BuildDeployment(cfg.stageName, names, cfg.cachingEnabled, cfg.apiResources, cfg.cachingSize, slot);
    t.SetResource(Indexed(DeploymentBase, slot), deployment);
  }

  /** The slot's base-path mapping, WAF association and usage plans. */
  method AddSlotExtras(t: Template, cfg: TemplateConfig, slot: nat)
    modifies t
    requires t.Valid() && slot < ApiSize(cfg)
    ensures t.Valid() && t.resourceLog == old(t.resourceLog) + SlotExtraWrites(cfg, slot) && t.outputLog == old(t.outputLog)
  {
    ghost var log := t.resourceLog;
    if HasCustomDomain(cfg) {
      AddBasePathMapping(t, cfg, slot);
    }
    log := log + BasePathWrites(cfg, slot);
    assert t.resourceLog == log;
    if cfg.wafEnabled && cfg.wafAssociation {
      AddWafAssociation(t, cfg.stageName, slot);
    }
    log := log + WafAssociationWrites(cfg, slot);
    assert t.resourceLog == log;
    var plans := SlotPlans(cfg, slot);
    AddPlans(t, plans, cfg.stageName, slot);
    AppendAssoc(old(t.resourceLog), BasePathWrites(cfg, slot) + WafAssociationWrites(cfg, slot), PlansWrites(plans, cfg.stageName, slot, |plans|));
    AppendAssoc(old(t.resourceLog), BasePathWrites(cfg, slot), WafAssociationWrites(cfg, slot));
  }

  /** The mapping of the custom domain onto the slot's stage. */
  method AddBasePathMapping(t: Template, cfg: TemplateConfig, slot: nat)
    modifies t
    requires t.Valid() && slot < ApiSize(cfg) && HasCustomDomain(cfg)
    ensures t.Valid() && t.resourceLog == old(t.resourceLog) + BasePathWrites(cfg, slot) && t.outputLog == old(t.outputLog)
  {
    var defs := cfg.awsApiDefinitions;
    if |defs| > 0 {
      t.SetResource(Indexed(BasePathMappingBase, slot),
                    BasePathMappingOf(cfg.customDomainName, cfg.stageName, defs[slot].context, slot));
    } else {
      t.SetResource(Indexed(BasePathMappingBase, slot),
                    BasePathMappingOf(cfg.customDomainName, cfg.stageName, cfg.customDomainBasePath, slot));
    }
  }

  /** The association of the WAF ACL with the slot's stage. */
  method AddWafAssociation(t: Template, stage: string, slot: nat)
    modifies t
    requires t.Valid()
    ensures t.Valid() && t.outputLog == old(t.outputLog)
    ensures t.resourceLog == old(t.resourceLog) + [Put(Indexed(WafAssociationBase, slot), WafAssociationOf(stage, slot))]
  {
    var association := BuildWafAssociation(stage, slot);
    t.SetResource(Indexed(WafAssociationBase, slot), association);
  }

  /** The usage-plan loop of one slot. */
  method AddPlans(t: Template, plans: seq<UsagePlan>, stage: string, slot: nat)
    modifies t
    requires t.Valid()
    ensures t.Valid() && t.resourceLog == old(t.resourceLog) + PlansWrites(plans, stage, slot, |plans|)
    ensures t.outputLog == old(t.outputLog)
  {
    ghost var log0 := t.resourceLog;
    for j := 0 to |plans|
      invariant t.Valid() && t.outputLog == old(t.outputLog)
      invariant t.resourceLog == log0 + PlansWrites(plans, stage, slot, j)
    {
      AddPlan(t, plans[j], j, stage, slot);
      AppendAssoc(log0, PlansWrites(plans, stage, slot, j), PlanWrites(plans[j], j, stage, slot));
    }
  }

  /** One plan: its API keys, the plan, its key mappings. */
  method AddPlan(t: Template, plan: UsagePlan, j: nat, stage: string, slot: nat)
    modifies t
    requires t.Valid()
    ensures t.Valid() && t.resourceLog == old(t.resourceLog) + PlanWrites(plan, j, stage, slot) && t.outputLog == old(t.outputLog)
  {
    ghost var log0 := t.resourceLog;
    ghost var keys := KeyWrites(plan, j, slot, |plan.apiKeys|);
    ghost var usagePlan := [Put(Indexed(UsagePlanBase, slot), UsagePlanOf(plan, stage, slot))];
    AddKeys(t, plan, j, slot);
    var throttles := BuildMethodThrottling(plan.methodThrottling, stage, slot);
    t.SetResource(Indexed(UsagePlanBase, slot),
                  UsagePlanResource(plan.planName, plan.description, plan.quotaLimit, plan.quotaOffset, plan.quotaPeriod,
                                    plan.throttleBurstLimit, plan.throttleRateLimit, throttles, [DeploymentBase]));
    assert t.resourceLog == log0 + keys + usagePlan;
    AddMappings(t, plan, j, slot);
    AppendAssoc(log0, keys + usagePlan, MappingWrites(plan, j, slot, |plan.apiKeys|));
    AppendAssoc(log0, keys, usagePlan);
  }

  /** The API keys of plan j, in order. */
  method AddKeys(t: Template, plan: UsagePlan, j: nat, slot: nat)
    modifies t
    requires t.Valid()
    ensures t.Valid() && t.resourceLog == old(t.resourceLog) + KeyWrites(plan, j, slot, |plan.apiKeys|)
    ensures t.outputLog == old(t.outputLog)
  {
    ghost var log0 := t.resourceLog;
    var keyArr := BuildApiKeys(plan, slot);
    for k := 0 to keyArr.Length
      modifies t
      invariant t.Valid() && t.outputLog == old(t.outputLog)
      invariant t.resourceLog == log0 + KeyWrites(plan, j, slot, k)
    {
      assert keyArr[k] == ApiKeyOf(plan.apiKeys[k], slot);
      t.SetResource(ApiKeyName(j, k, slot), keyArr[k]);
      AppendAssoc(log0, KeyWrites(plan, j, slot, k), [Put(ApiKeyName(j, k, slot), ApiKeyOf(plan.apiKeys[k], slot))]);
    }
  }

  /** The key mappings of plan j, in order. */
  method AddMappings(t: Template, plan: UsagePlan, j: nat, slot: nat)
    modifies t
    requires t.Valid()
    ensures t.Valid() && t.resourceLog == old(t.resourceLog) + MappingWrites(plan, j, slot, |plan.apiKeys|)
    ensures t.outputLog == old(t.outputLog)
  {
    ghost var log0 := t.resourceLog;
    var mapArr := BuildKeyMappings(plan, j, slot);
    for k := 0 to mapArr.Length
      modifies t
      invariant t.Valid() && t.outputLog == old(t.outputLog)
      invariant t.resourceLog == log0 + MappingWrites(plan, j, slot, k)
    {
      assert mapArr[k] == KeyMappingOf(j, k, slot);
      t.SetResource(KeyMappingName(j, k, slot), mapArr[k]);
      AppendAssoc(log0, MappingWrites(plan, j, slot, k), [Put(KeyMappingName(j, k, slot), KeyMappingOf(j, k, slot))]);
    }
  }

  /** The outputs: the section is replaced by the endpoint type and the
      timeout, then the per-slot outputs and the gated ones are added. */
  method AddOutputs(t: Template, cfg: TemplateConfig)
    modifies t
    requires t.Valid() && t.outputLog == []
    ensures t.Valid() && t.outputLog == OutputWrites(cfg) && t.resourceLog == old(t.resourceLog)
  {
    t.SetOutput(OutEndpointType, Out(Lit(cfg.apiEndpointType)));
    t.SetOutput(OutRequestTimeout, Out(Lit(IntToString(cfg.requestTimeout))));
    ghost var head := HeadOutputWrites(cfg);
    assert t.outputLog == head;
    for i := 0 to ApiSize(cfg)
      invariant t.Valid() && t.resourceLog == old(t.resourceLog)
      invariant t.outputLog == head + SlotsOutputWrites(cfg, i)
    {
      AddSlotOutputs(t, cfg, i);
      AppendAssoc(head, SlotsOutputWrites(cfg, i), SlotOutputWrites(cfg, i));
    }
    AddConfigOutputs(t, cfg);
    AddDomainAndCacheOutputs(t, cfg);
  }

  method AddSlotOutputs(t: Template, cfg: TemplateConfig, slot: nat)
    modifies t
    requires t.Valid()
    ensures t.Valid() && t.outputLog == old(t.outputLog) + SlotOutputWrites(cfg, slot) && t.resourceLog == old(t.resourceLog)
  {
    t.SetOutput(Indexed(OutRestApiId, slot), Out(Ref(Indexed(RestApiBase, slot))));
    t.SetOutput(Indexed(OutEndpoint, slot), Out(EndpointUrl(slot, cfg.stageName)));
    if cfg.wafAssociation {
      t.SetOutput(Indexed(OutWafAssociation, slot), Out(Ref(Indexed(WafAssociationBase, slot))));
    }
  }

  /** The usage plans, client ARNs, compression size, API definitions and WAF outputs. */
  method AddConfigOutputs(t: Template, cfg: TemplateConfig)
    modifies t
    requires t.Valid()
    ensures t.Valid() && t.resourceLog == old(t.resourceLog)
    ensures t.outputLog == old(t.outputLog) + UsagePlanOutputs(cfg) + ClientArnOutputs(cfg) + CompressionOutputs(cfg)
                           + ApiConfigOutputs(cfg) + WafOutputs(cfg)
  {
    ghost var log := t.outputLog;
    if |cfg.usagePlans| > 0 {
      t.SetOutput(OutUsagePlans, UsagePlansJson(cfg.usagePlans));
    }
    log := log + UsagePlanOutputs(cfg);
    assert t.outputLog == log;
    if |cfg.arns| > 0 {
      t.SetOutput(OutClientArns, Out(Lit(Text.Join(cfg.arns, ","))));
    }
    log := log + ClientArnOutputs(cfg);
    assert t.outputLog == log;
    if cfg.minimumCompressionSize > 0 {
      t.SetOutput(OutMinimumCompressionSize, Out(Lit(IntToString(cfg.minimumCompressionSize))));
    }
    log := log + CompressionOutputs(cfg);
    assert t.outputLog == log;
    if |cfg.awsApiDefinitions| > 0 {
      t.SetOutput(OutAwsApiConfigs, ApiDefinitionsJson(cfg.awsApiDefinitions));
    }
    log := log + ApiConfigOutputs(cfg);
    assert t.outputLog == log;
    if cfg.wafEnabled {
      AddWafOutputs(t, cfg);
    }
  }

  method AddWafOutputs(t: Template, cfg: TemplateConfig)
    modifies t
    requires t.Valid() && cfg.wafEnabled
    ensures t.Valid() && t.outputLog == old(t.outputLog) + WafOutputs(cfg) && t.resourceLog == old(t.resourceLog)
  {
    t.SetOutput(OutWafEnabled, Out(Lit("true")));
    t.SetOutput(OutWafRules, Out(Lit(cfg.wafRulesJson)));
    t.SetOutput(OutWafScope, Out(Lit(cfg.wafScope)));
  }

  /** The custom-domain outputs of either endpoint type, then the caching
      and declared-resource outputs. */
  method AddDomainAndCacheOutputs(t: Template, cfg: TemplateConfig)
    modifies t
    requires t.Valid()
    ensures t.Valid() && t.resourceLog == old(t.resourceLog)
    ensures t.outputLog == old(t.outputLog) + RegionalDomainOutputs(cfg) + EdgeDomainOutputs(cfg) + CachingOutputs(cfg)
                           + ApiResourceOutputs(cfg)
  {
    ghost var log := t.outputLog;
    if cfg.apiEndpointType == Regional && cfg.customDomainName != "" {
      AddDomainOutputs(t, cfg, RegionalDomainName, RegionalHostedZoneId);
    }
    log := log + RegionalDomainOutputs(cfg);
    assert t.outputLog == log;
    if cfg.apiEndpointType == Edge && cfg.customDomainName != "" {
      AddDomainOutputs(t, cfg, DistributionDomainName, DistributionHostedZoneId);
    }
    log := log + EdgeDomainOutputs(cfg);
    assert t.outputLog == log;
    if cfg.cachingEnabled && cfg.cachingSize != "" {
      t.SetOutput(OutCachingEnabled, Out(Lit("true")));
      t.SetOutput(OutCacheClusterSize, Out(Lit(cfg.cachingSize)));
    }
    log := log + CachingOutputs(cfg);
    assert t.outputLog == log;
    if |cfg.apiResources| > 0 {
      t.SetOutput(OutApiResources, ApiResourcesJson(cfg.apiResources));
    }
  }

  method AddDomainOutputs(t: Template, cfg: TemplateConfig, hostAttribute: string, zoneAttribute: string)
    modifies t
    requires t.Valid()
    ensures t.Valid() && t.outputLog == old(t.outputLog) + DomainOutputs(cfg, hostAttribute, zoneAttribute)
    ensures t.resourceLog == old(t.resourceLog)
  {
    t.SetOutput(OutCertArn, Out(Lit(cfg.certificateArn)));
    t.SetOutput(OutCustomDomain, Out(Lit(cfg.customDomainName)));
    t.SetOutput(OutCustomDomainHostName, Out(GetAtt(CustomDomainName, hostAttribute)));
    t.SetOutput(OutCustomDomainHostedZoneId, Out(GetAtt(CustomDomainName, zoneAttribute)));
    t.SetOutput(OutTlsPolicy, Out(Lit(cfg.tlsPolicy)));
    t.SetOutput(OutCustomDomainBasePath, Out(Lit(cfg.customDomainBasePath)));
  }

  /** A template's two sections as values. */
  datatype Sections = Sections(resources: map<string, Resource>, outputs: map<string, Output>)

  /** BuildAPIGatewayRoute53Template: an alias record for the custom domain
      when a hosted zone is named, and the four DNS outputs always. */
  function Route53Template(cfg: Route53TemplateConfig): (r: Sections)
    ensures Route53RecordName in r.resources <==> cfg.hostedZoneName != ""
    ensures r.resources.Keys <= {Route53RecordName}
    ensures cfg.hostedZoneName != "" ==>
              r.resources[Route53RecordName] ==
              RecordSet(cfg.customDomainName, cfg.hostedZoneName, cfg.customDomainHostName, cfg.customDomainHostedZoneId)
    ensures r.outputs.Keys == {OutCustomDomainHostName, OutCustomDomainHostedZoneId, OutCustomDomain, OutHostedZone}
    ensures r.outputs[OutHostedZone] == Out(Lit(cfg.hostedZoneName)) && r.outputs[OutCustomDomain] == Out(Lit(cfg.customDomainName))
    ensures r.outputs[OutCustomDomainHostName] == Out(Lit(cfg.customDomainHostName))
    ensures r.outputs[OutCustomDomainHostedZoneId] == Out(Lit(cfg.customDomainHostedZoneId))
  {
    var resources := if cfg.hostedZoneName != "" then
        map[Route53RecordName := RecordSet(cfg.customDomainName, cfg.hostedZoneName, cfg.customDomainHostName, cfg.customDomainHostedZoneId)]
      else map[];
    Sections(resources,
             map[OutCustomDomainHostName := Out(Lit(cfg.customDomainHostName)),
                 OutCustomDomainHostedZoneId := Out(Lit(cfg.customDomainHostedZoneId)),
                 OutCustomDomain := Out(Lit(cfg.customDomainName)),
                 OutHostedZone := Out(Lit(cfg.hostedZoneName))])
  }
}

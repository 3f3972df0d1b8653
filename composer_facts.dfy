/** What the composed template as a whole holds: the defaults it runs with,
    the names its resources can have, the references the source leaves
    dangling, and the gates on the slot outputs. */
module ComposerFacts {
  import opened Text
  import opened Cfn
  import opened Config
  import opened Resources
  import opened Naming
  import opened Document
  import opened Trees
  import opened TreeFacts
  import opened Deployments
  import opened Features
  import opened Composer

  // Defaults.

  /** Only the endpoint type, the WAF scope and the two caching fields
      change, each exactly as the composer's four checks say. */
  lemma DefaultsOnlyTouch(cfg: TemplateConfig)
    ensures var r := ApplyDefaults(cfg);
            r == cfg.(apiEndpointType := r.apiEndpointType, wafScope := r.wafScope,
                      cachingEnabled := r.cachingEnabled, cachingSize := r.cachingSize) &&
            r.apiEndpointType == (if cfg.apiEndpointType == "" then Edge else cfg.apiEndpointType) &&
            r.wafScope == (if cfg.wafEnabled && cfg.wafScope == "" then Regional else cfg.wafScope) &&
            r.cachingEnabled == (cfg.cachingEnabled || cfg.cachingSize != "") &&
            r.cachingSize == (if cfg.cachingSize == "" && cfg.cachingEnabled then DefaultCacheSize else cfg.cachingSize)
  {
  }

  /** Applying the defaults a second time changes nothing. */
  lemma DefaultsIdempotent(cfg: TemplateConfig)
    ensures ApplyDefaults(ApplyDefaults(cfg)) == ApplyDefaults(cfg)
  {
  }

  // One slot.

  /** A slot's REST API grants the client ARNs only when IAM authorization
      applies to it (ARNs are configured, and the slot's definition, if any,
      has authentication enabled) and the compression size is not negative;
      it is named after its definition, or after the stack when there is none. */
  lemma SlotRestApiPolicy(cfg: TemplateConfig, slot: nat)
    requires slot < ApiSize(cfg)
    ensures var defs := cfg.awsApiDefinitions; var r := SlotRestApi(cfg, AuthorizationType(cfg), slot);
            r.RestApi? &&
            (r.policy == PrincipalsPolicy(cfg.arns) <==>
               |cfg.arns| > 0 && cfg.minimumCompressionSize >= 0 && (|defs| == 0 || defs[slot].authenticationEnabled)) &&
            r.apiName == (if |defs| > 0 then Lit(defs[slot].name) else Ref(StackName))
  {
    var defs, auth := cfg.awsApiDefinitions, AuthorizationType(cfg);
    if |defs| > 0 && !defs[slot].authenticationEnabled {
      RestApiShapes(cfg.arns, cfg.apiEndpointType, NoAuthorization, cfg.minimumCompressionSize, Lit(defs[slot].name));
    } else if |defs| > 0 {
      RestApiShapes(cfg.arns, cfg.apiEndpointType, auth, cfg.minimumCompressionSize, Lit(defs[slot].name));
    } else {
      RestApiShapes(cfg.arns, cfg.apiEndpointType, auth, cfg.minimumCompressionSize, Ref(StackName));
    }
  }

  /** No key mapping is filed under a name that does not start with 'A'. */
  lemma {:induction false} MappingsAvoid(plan: UsagePlan, j: nat, slot: nat, n: nat, k: string)
    requires n <= |plan.apiKeys| && |k| > 0 && k[0] != 'A'
    ensures forall i :: 0 <= i < |MappingWrites(plan, j, slot, n)| ==> !Writes(MappingWrites(plan, j, slot, n)[i], k)
    decreases n
  {
    if n > 0 {
      MappingsAvoid(plan, j, slot, n - 1, k);
      var prev, name := MappingWrites(plan, j, slot, n - 1), KeyMappingName(j, n - 1, slot);
      var ws := prev + [Put(name, KeyMappingOf(j, n - 1, slot))];
      assert name == ApiKeyUsagePlanBase + (NatToString(j) + NatToString(n - 1) + NatToString(slot));
      assert name[0] == 'A';
      forall i | 0 <= i < |ws|
        ensures !Writes(ws[i], k)
      {
        if i < |prev| {
          assert ws[i] == prev[i];
        } else {
          assert ws[i].key == name && name[0] != k[0];
        }
      }
      assert MappingWrites(plan, j, slot, n) == ws;
    }
  }

  /** Within one plan's writes, the slot's "UsagePlan" name ends up holding
      that plan. */
  lemma PlanWritesPlan(m: map<string, Resource>, plan: UsagePlan, j: nat, stage: string, slot: nat)
    ensures var t := Run(m, PlanWrites(plan, j, stage, slot));
            Indexed(UsagePlanBase, slot) in t && t[Indexed(UsagePlanBase, slot)] == UsagePlanOf(plan, stage, slot)
  {
    var k := Indexed(UsagePlanBase, slot);
    var keys, maps := KeyWrites(plan, j, slot, |plan.apiKeys|), MappingWrites(plan, j, slot, |plan.apiKeys|);
    var up := Put(k, UsagePlanOf(plan, stage, slot));
    RunAppend(m, keys + [up], maps);
    RunSnoc(m, keys, up);
    assert k[0] == 'U';
    MappingsAvoid(plan, j, slot, |plan.apiKeys|, k);
    RunUntouched(Run(m, keys + [up]), maps, k);
  }

  /** Every plan of a slot is stored under the same "UsagePlan<slot>" name,
      so only the last plan survives, while plan j's key mappings refer to
      "UsagePlan<j>". */
  lemma UsagePlanLastWins(m0: map<string, Resource>, plans: seq<UsagePlan>, stage: string, slot: nat, n: nat)
    requires 0 < n <= |plans|
    ensures var t := Run(m0, PlansWrites(plans, stage, slot, n));
            Indexed(UsagePlanBase, slot) in t && t[Indexed(UsagePlanBase, slot)] == UsagePlanOf(plans[n - 1], stage, slot)
  {
    var prev := PlansWrites(plans, stage, slot, n - 1);
    RunAppend(m0, prev, PlanWrites(plans[n - 1], n - 1, stage, slot));
    PlanWritesPlan(Run(m0, prev), plans[n - 1], n - 1, stage, slot);
  }

  // The names of resources.

  /** k is base followed by at least one more character. */
  predicate Extends(k: string, base: string)
  {
    HasPrefix(k, base) && |k| > |base|
  }

  lemma ExtendsBy(base: string, rest: string)
    requires |rest| > 0
    ensures Extends(base + rest, base)
  {
    assert (base + rest)[..|base|] == base;
  }

  /** A name that differs from base at some position does not start with base. */
  lemma NotPrefix(k: string, base: string, i: nat)
    requires i < |k| && i < |base| && k[i] != base[i]
    ensures !HasPrefix(k, base)
  {
  }

  /** The names the composer gives resources: the fixed ones (the WAF ACL
      only when WAF is enabled), the numbered ingress rules, the tree's
      nodes and methods, and the per-slot names built on their bases (the
      WAF association only when WAF and association are both on). */
  predicate ResourceKey(cfg: TemplateConfig, k: string)
  {
    k == CustomDomainName || k == LambdaInvokeRoleName || k == TargetGroupName || k == ListenerName ||
    k == LoadBalancerName || k == VpcLinkName || (cfg.wafEnabled && k == WafAclName) ||
    Extends(k, SecurityGroupIngressBase) || HasPrefix(k, ResourceBase) || HasPrefix(k, MethodBase) ||
    Extends(k, RestApiBase) || Extends(k, DeploymentBase) || Extends(k, BasePathMappingBase) ||
    (cfg.wafEnabled && cfg.wafAssociation && Extends(k, WafAssociationBase)) ||
    Extends(k, ApiKeyBase) || Extends(k, UsagePlanBase)
  }

  /** Every key any write of ws assigns is a resource name. */
  ghost predicate KeysAre(cfg: TemplateConfig, ws: seq<Write<Resource>>)
  {
    forall w, k :: w in ws && Writes(w, k) ==> ResourceKey(cfg, k)
  }

  lemma KeysAreAppend(cfg: TemplateConfig, a: seq<Write<Resource>>, b: seq<Write<Resource>>)
    requires KeysAre(cfg, a) && KeysAre(cfg, b)
    ensures KeysAre(cfg, a + b)
  {
  }

  lemma {:induction false} IngressKeys(cfg: TemplateConfig, ids: seq<string>, cidr: string, port: int, n: nat)
    requires n <= |ids|
    ensures KeysAre(cfg, IngressWrites(ids, cidr, port, n))
    decreases n
  {
    if n > 0 {
      IngressKeys(cfg, ids, cidr, port, n - 1);
      assert Extends(Indexed(SecurityGroupIngressBase, n - 1), SecurityGroupIngressBase);
    }
  }

  lemma SharedKeys(cfg: TemplateConfig, parse: string -> Option<seq<WafRule>>)
    ensures KeysAre(cfg, SharedWrites(cfg, parse))
  {
    var ids := cfg.network.securityGroupIds;
    IngressKeys(cfg, ids, cfg.network.cidrBlock, cfg.nodePort, |ids|);
  }

  lemma {:induction false} KeyWritesKeys(cfg: TemplateConfig, plan: UsagePlan, j: nat, slot: nat, n: nat)
    requires n <= |plan.apiKeys|
    ensures KeysAre(cfg, KeyWrites(plan, j, slot, n))
    decreases n
  {
    if n > 0 {
      KeyWritesKeys(cfg, plan, j, slot, n - 1);
      var rest := NatToString(j) + NatToString(n - 1) + NatToString(slot);
      assert ApiKeyName(j, n - 1, slot) == ApiKeyBase + rest;
      ExtendsBy(ApiKeyBase, rest);
    }
  }

  lemma {:induction false} MappingWritesKeys(cfg: TemplateConfig, plan: UsagePlan, j: nat, slot: nat, n: nat)
    requires n <= |plan.apiKeys|
    ensures KeysAre(cfg, MappingWrites(plan, j, slot, n))
    decreases n
  {
    if n > 0 {
      MappingWritesKeys(cfg, plan, j, slot, n - 1);
      var k := KeyMappingName(j, n - 1, slot);
      var rest := NatToString(j) + NatToString(n - 1) + NatToString(slot);
      assert k == ApiKeyUsagePlanBase + rest;
      ExtendsBy(ApiKeyUsagePlanBase, rest);
      assert k[..|ApiKeyBase|] == ApiKeyUsagePlanBase[..|ApiKeyBase|];
    }
  }

  lemma {:induction false} PlansKeys(cfg: TemplateConfig, plans: seq<UsagePlan>, stage: string, slot: nat, n: nat)
    requires n <= |plans|
    ensures KeysAre(cfg, PlansWrites(plans, stage, slot, n))
    decreases n
  {
    if n > 0 {
      var plan := plans[n - 1];
      PlansKeys(cfg, plans, stage, slot, n - 1);
      KeyWritesKeys(cfg, plan, n - 1, slot, |plan.apiKeys|);
      MappingWritesKeys(cfg, plan, n - 1, slot, |plan.apiKeys|);
      var keys := KeyWrites(plan, n - 1, slot, |plan.apiKeys|);
      var usagePlan := [Put(Indexed(UsagePlanBase, slot), UsagePlanOf(plan, stage, slot))];
      KeysAreAppend(cfg, keys, usagePlan);
      KeysAreAppend(cfg, keys + usagePlan, MappingWrites(plan, n - 1, slot, |plan.apiKeys|));
      KeysAreAppend(cfg, PlansWrites(plans, stage, slot, n - 1), PlanWrites(plan, n - 1, stage, slot));
    }
  }

  /** A slot's tree holds nodes and methods only. */
  lemma SlotTreeWellFormed(cfg: TemplateConfig, auth: string, slot: nat)
    ensures WellFormedTree(SlotTree(cfg, auth, slot))
  {
    if |cfg.apiResources| > 0 {
      DeclaredTreeShape(cfg.apiResources, cfg.requestTimeout, auth, slot);
    } else {
      WildcardTreeWellFormed(cfg.paths, cfg.requestTimeout, auth, slot);
    }
  }

  lemma TreeKeys(cfg: TemplateConfig, auth: string, slot: nat)
    requires slot < ApiSize(cfg)
    ensures KeysAre(cfg, [Merge(SlotTree(cfg, auth, slot))])
  {
    var tree := SlotTree(cfg, auth, slot);
    SlotTreeWellFormed(cfg, auth, slot);
    forall k | Writes(Merge(tree), k) ensures ResourceKey(cfg, k) {
      assert WellFormedEntry(k, tree[k]);
    }
  }

  /** "RestAPIAuthorizer<slot>" extends "RestAPI". */
  lemma AuthorizerKey(slot: nat)
    ensures Extends(Indexed(AuthorizerBase, slot), RestApiBase)
  {
    var rest := "Authorizer" + NatToString(slot);
    ExtendsBy(RestApiBase, rest);
    assert Indexed(AuthorizerBase, slot) == RestApiBase + rest;
  }

  lemma SlotCoreKeys(cfg: TemplateConfig, auth: string, slot: nat)
    requires slot < ApiSize(cfg)
    ensures KeysAre(cfg, SlotCoreWrites(cfg, auth, slot))
  {
    TreeKeys(cfg, auth, slot);
    AuthorizerKey(slot);
  }

  lemma SlotExtraKeys(cfg: TemplateConfig, slot: nat)
    requires slot < ApiSize(cfg)
    ensures KeysAre(cfg, SlotExtraWrites(cfg, slot))
  {
    var plans := SlotPlans(cfg, slot);
    PlansKeys(cfg, plans, cfg.stageName, slot, |plans|);
    KeysAreAppend(cfg, BasePathWrites(cfg, slot), WafAssociationWrites(cfg, slot));
    KeysAreAppend(cfg, BasePathWrites(cfg, slot) + WafAssociationWrites(cfg, slot), PlansWrites(plans, cfg.stageName, slot, |plans|));
  }

  lemma SlotLogsKeys(cfg: TemplateConfig, auth: string)
    ensures KeysAre(cfg, Concat(SlotLogs(cfg, auth)))
  {
    var logs := SlotLogs(cfg, auth);
    forall w, k | w in Concat(logs) && Writes(w, k) ensures ResourceKey(cfg, k) {
      ConcatMember(logs, w);
      var s :| 0 <= s < |logs| && w in logs[s];
      SlotCoreKeys(cfg, auth, s);
      SlotExtraKeys(cfg, s);
    }
  }

  lemma SuffixKeys(cfg: TemplateConfig)
    ensures KeysAre(cfg, SuffixWrites(cfg))
  {
  }

  lemma ResourceWritesKeys(cfg: TemplateConfig, parse: string -> Option<seq<WafRule>>)
    ensures KeysAre(cfg, ResourceWrites(cfg, parse))
  {
    var shared, slots := SharedWrites(cfg, parse), Concat(SlotLogs(cfg, AuthorizationType(cfg)));
    SharedKeys(cfg, parse);
    SlotLogsKeys(cfg, AuthorizationType(cfg));
    SuffixKeys(cfg);
    KeysAreAppend(cfg, shared, slots);
    KeysAreAppend(cfg, shared + slots, SuffixWrites(cfg));
  }

  /** A replay from the empty map holds only keys its writes assign. */
  lemma RunKeysAre(cfg: TemplateConfig, ws: seq<Write<Resource>>)
    requires KeysAre(cfg, ws)
    ensures forall k :: k in Run(map[], ws) ==> ResourceKey(cfg, k)
  {
    forall k | k in Run(map[], ws) ensures ResourceKey(cfg, k) {
      RunKeys(map[], ws, k);
      var i :| 0 <= i < |ws| && Writes(ws[i], k);
      assert ws[i] in ws;
    }
  }

  /** Every resource of the composed template is filed under one of the
      composer's names. */
  lemma AllResourceKeys(cfg: TemplateConfig, parse: string -> Option<seq<WafRule>>)
    ensures forall k :: k in Run(map[], ResourceWrites(cfg, parse)) ==> ResourceKey(cfg, k)
  {
    ResourceWritesKeys(cfg, parse);
    RunKeysAre(cfg, ResourceWrites(cfg, parse));
  }

  /** Any key a slot assigns is a resource of the template. */
  lemma SlotResource(cfg: TemplateConfig, parse: string -> Option<seq<WafRule>>, slot: nat, w: Write<Resource>, k: string)
    requires slot < ApiSize(cfg) && w in SlotWrites(cfg, AuthorizationType(cfg), slot) && Writes(w, k)
    ensures k in Run(map[], ResourceWrites(cfg, parse))
  {
    var logs := SlotLogs(cfg, AuthorizationType(cfg));
    ConcatMember(logs, w);
    var shared := SharedWrites(cfg, parse);
    assert w in (shared + Concat(logs)) + SuffixWrites(cfg);
    RunHas(map[], ResourceWrites(cfg, parse), w, k);
  }

  // References the composer leaves dangling.

  /** Resource names starting with 'W' are the ACL and the associations. */
  lemma WafNames(cfg: TemplateConfig, k: string)
    requires |k| > 4 && k[0] == 'W' && ResourceKey(cfg, k)
    ensures k == WafAclName || HasPrefix(k, WafAssociationBase)
  {
    NotPrefix(k, SecurityGroupIngressBase, 0);
    NotPrefix(k, ResourceBase, 0);
    NotPrefix(k, MethodBase, 0);
    NotPrefix(k, RestApiBase, 0);
    NotPrefix(k, DeploymentBase, 0);
    NotPrefix(k, BasePathMappingBase, 0);
    NotPrefix(k, ApiKeyBase, 0);
    NotPrefix(k, UsagePlanBase, 0);
  }

  /** "WAFAcl" followed by an index is not a resource name. */
  lemma IndexedWafAclIsNoKey(cfg: TemplateConfig, slot: nat)
    ensures !ResourceKey(cfg, Indexed(WafAclName, slot))
  {
    var k := Indexed(WafAclName, slot);
    assert k[..6] == WafAclName;
    if ResourceKey(cfg, k) {
      WafNames(cfg, k);
      NotPrefix(k, WafAssociationBase, 4);
      assert false;
    }
  }

  /** "WAFAcl" followed by an index is never a resource, yet every WAF
      association lists "WAFAcl<slot>" in its DependsOn. */
  lemma IndexedWafAclMissing(cfg: TemplateConfig, parse: string -> Option<seq<WafRule>>, slot: nat)
    ensures Indexed(WafAclName, slot) !in Run(map[], ResourceWrites(cfg, parse))
  {
    AllResourceKeys(cfg, parse);
    IndexedWafAclIsNoKey(cfg, slot);
  }

  /** Plain "WAFAcl" is a resource name only when WAF is enabled. */
  lemma WafAclIsKey(cfg: TemplateConfig)
    ensures ResourceKey(cfg, WafAclName) ==> cfg.wafEnabled
  {
    if ResourceKey(cfg, WafAclName) && !cfg.wafEnabled {
      WafNames(cfg, WafAclName);
      assert false;
    }
  }

  /** The ACL itself is filed as plain "WAFAcl", and only when WAF is enabled. */
  lemma WafAclResource(cfg: TemplateConfig, parse: string -> Option<seq<WafRule>>)
    ensures WafAclName in Run(map[], ResourceWrites(cfg, parse)) <==> cfg.wafEnabled
  {
    if cfg.wafEnabled {
      var w := Put(WafAclName, WebAclOf(cfg.wafScope, cfg.wafRulesJson, parse));
      var ids := cfg.network.securityGroupIds;
      var front := DomainWrites(cfg) + FixedWrites(cfg) + IngressWrites(ids, cfg.network.cidrBlock, cfg.nodePort, |ids|);
      var shared := SharedWrites(cfg, parse);
      assert shared == front + [w];
      assert w in (shared + Concat(SlotLogs(cfg, AuthorizationType(cfg)))) + SuffixWrites(cfg);
      RunHas(map[], ResourceWrites(cfg, parse), w, WafAclName);
    } else {
      AllResourceKeys(cfg, parse);
      WafAclIsKey(cfg);
    }
  }

  /** Resource names starting with 'R' or 'D' that are no longer than their
      base are tree nodes. */
  lemma ShortNames(cfg: TemplateConfig, k: string)
    requires |k| > 0 && (k[0] == 'R' || k[0] == 'D') && ResourceKey(cfg, k)
    ensures HasPrefix(k, ResourceBase) || Extends(k, RestApiBase) || Extends(k, DeploymentBase)
  {
    NotPrefix(k, SecurityGroupIngressBase, 0);
    NotPrefix(k, MethodBase, 0);
    NotPrefix(k, BasePathMappingBase, 0);
    NotPrefix(k, WafAssociationBase, 0);
    NotPrefix(k, ApiKeyBase, 0);
    NotPrefix(k, UsagePlanBase, 0);
  }

  /** Plain "RestAPI" and plain "Deployment" are never resource names: the
      base-path mapping's RestApiId reference (with a non-empty base path)
      and every usage plan's DependsOn point at nothing. */
  lemma UnindexedNamesMissing(cfg: TemplateConfig, parse: string -> Option<seq<WafRule>>)
    ensures RestApiBase !in Run(map[], ResourceWrites(cfg, parse))
    ensures DeploymentBase !in Run(map[], ResourceWrites(cfg, parse))
  {
    AllResourceKeys(cfg, parse);
    if RestApiBase in Run(map[], ResourceWrites(cfg, parse)) {
      ShortNames(cfg, RestApiBase);
      assert false;
    }
    if DeploymentBase in Run(map[], ResourceWrites(cfg, parse)) {
      ShortNames(cfg, DeploymentBase);
      NotPrefix(DeploymentBase, ResourceBase, 0);
      NotPrefix(DeploymentBase, RestApiBase, 0);
      assert false;
    }
  }

  /** An association name is a resource name only when WAF and association
      are both on. */
  lemma WafAssociationIsKey(cfg: TemplateConfig, slot: nat)
    ensures ResourceKey(cfg, Indexed(WafAssociationBase, slot)) ==> cfg.wafEnabled && cfg.wafAssociation
  {
    var k := Indexed(WafAssociationBase, slot);
    assert k[..14] == WafAssociationBase;
    if ResourceKey(cfg, k) && !(cfg.wafEnabled && cfg.wafAssociation) {
      WafNames(cfg, k);
      assert false;
    }
  }

  /** A slot's WAF association exists exactly when WAF and association are
      both on. */
  lemma WafAssociationResource(cfg: TemplateConfig, parse: string -> Option<seq<WafRule>>, slot: nat)
    requires slot < ApiSize(cfg)
    ensures Indexed(WafAssociationBase, slot) in Run(map[], ResourceWrites(cfg, parse)) <==> cfg.wafEnabled && cfg.wafAssociation
  {
    var k := Indexed(WafAssociationBase, slot);
    if cfg.wafEnabled && cfg.wafAssociation {
      var w := Put(k, WafAssociationOf(cfg.stageName, slot));
      assert w in SlotExtraWrites(cfg, slot);
      assert w in SlotWrites(cfg, AuthorizationType(cfg), slot);
      SlotResource(cfg, parse, slot, w, k);
    } else {
      AllResourceKeys(cfg, parse);
      WafAssociationIsKey(cfg, slot);
    }
  }

  /** The association a slot writes attaches to a stage of the unindexed
      "RestAPI", which is never a resource, while the slot's own REST API
      does exist: the association points at an API missing from the
      template. */
  lemma WafAssociationTargetMissing(cfg: TemplateConfig, parse: string -> Option<seq<WafRule>>, slot: nat)
    requires slot < ApiSize(cfg)
    ensures WafAssociationOf(cfg.stageName, slot).resourceArn == StageArnOf(RestApiBase, cfg.stageName)
    ensures RestApiBase !in Run(map[], ResourceWrites(cfg, parse))
    ensures Indexed(RestApiBase, slot) in Run(map[], ResourceWrites(cfg, parse))
  {
    UnindexedNamesMissing(cfg, parse);
    RestApiResource(cfg, parse, slot);
  }

  /** Every slot has its REST API. */
  lemma RestApiResource(cfg: TemplateConfig, parse: string -> Option<seq<WafRule>>, slot: nat)
    requires slot < ApiSize(cfg)
    ensures Indexed(RestApiBase, slot) in Run(map[], ResourceWrites(cfg, parse))
  {
    var auth := AuthorizationType(cfg);
    var w := Put(Indexed(RestApiBase, slot), SlotRestApi(cfg, auth, slot));
    assert w in SlotCoreWrites(cfg, auth, slot);
    assert w in SlotWrites(cfg, auth, slot);
    SlotResource(cfg, parse, slot, w, Indexed(RestApiBase, slot));
  }

  // The outputs.

  /** The output keys that carry no slot index. */
  const FixedOutputKeys: set<string> :=
    {OutEndpointType, OutRequestTimeout, OutUsagePlans, OutClientArns, OutMinimumCompressionSize,
     OutAwsApiConfigs, OutWafEnabled, OutWafRules, OutWafScope, OutCertArn, OutCustomDomain,
     OutCustomDomainHostName, OutCustomDomainHostedZoneId, OutTlsPolicy, OutCustomDomainBasePath,
     OutCachingEnabled, OutCacheClusterSize, OutApiResources}

  /** An indexed name ends in a digit, which no fixed output key does. */
  lemma IndexedNotFixed(base: string, slot: nat)
    ensures Indexed(base, slot) !in FixedOutputKeys
  {
    var k, d := Indexed(base, slot), NatToString(slot);
    assert k[|k| - 1] == d[|d| - 1];
    assert IsDigit(k[|k| - 1]);
  }

  lemma {:induction false} SlotsOutputMember(cfg: TemplateConfig, n: nat, u: Write<Output>)
    ensures u in SlotsOutputWrites(cfg, n) <==> exists s :: 0 <= s < n && u in SlotOutputWrites(cfg, s)
    decreases n
  {
    if n > 0 {
      SlotsOutputMember(cfg, n - 1, u);
    }
  }

  lemma DomainOutputsShape(cfg: TemplateConfig, hostAttribute: string, zoneAttribute: string, u: Write<Output>)
    requires u in DomainOutputs(cfg, hostAttribute, zoneAttribute)
    ensures u.Put? && u.key in FixedOutputKeys
  {
  }

  /** The outputs after the slot loop are assignments under fixed keys. */
  lemma TailOutputsShape(cfg: TemplateConfig, u: Write<Output>)
    requires u in UsagePlanOutputs(cfg) || u in ClientArnOutputs(cfg) || u in CompressionOutputs(cfg) ||
             u in ApiConfigOutputs(cfg) || u in WafOutputs(cfg) || u in RegionalDomainOutputs(cfg) ||
             u in EdgeDomainOutputs(cfg) || u in CachingOutputs(cfg) || u in ApiResourceOutputs(cfg)
    ensures u.Put? && u.key in FixedOutputKeys
  {
    if u in RegionalDomainOutputs(cfg) {
      DomainOutputsShape(cfg, RegionalDomainName, RegionalHostedZoneId, u);
    } else if u in EdgeDomainOutputs(cfg) {
      DomainOutputsShape(cfg, DistributionDomainName, DistributionHostedZoneId, u);
    }
  }

  /** Every output is an assignment, either under a fixed key or as part of
      some slot's outputs. */
  lemma OutputShape(cfg: TemplateConfig, u: Write<Output>)
    requires u in OutputWrites(cfg)
    ensures u.Put?
    ensures u.key in FixedOutputKeys || exists s :: 0 <= s < ApiSize(cfg) && u in SlotOutputWrites(cfg, s)
  {
    if u in HeadOutputWrites(cfg) {
    } else if u in SlotsOutputWrites(cfg, ApiSize(cfg)) {
      SlotsOutputMember(cfg, ApiSize(cfg), u);
    } else {
      TailOutputsShape(cfg, u);
    }
  }

  /** The writes of slot s that assign an indexed "RestAPIID" or
      "WAFAssociation" key of slot slot belong to that very slot. */
  lemma SlotOutputKeys(cfg: TemplateConfig, s: nat, u: Write<Output>, base: string, slot: nat)
    requires base == OutRestApiId || base == OutWafAssociation
    requires u in SlotOutputWrites(cfg, s) && Writes(u, Indexed(base, slot))
    ensures s == slot
    ensures base == OutRestApiId ==> u == Put(Indexed(OutRestApiId, slot), Out(Ref(Indexed(RestApiBase, slot))))
    ensures base == OutWafAssociation ==>
              cfg.wafAssociation && u == Put(Indexed(OutWafAssociation, slot), Out(Ref(Indexed(WafAssociationBase, slot))))
  {
    var k := Indexed(base, slot);
    assert k[0] == base[0];
    if u.key == Indexed(OutEndpoint, s) {
      assert false;
    } else if u.key == Indexed(OutRestApiId, s) {
      assert u.key[0] == 'R';
      assert base == OutRestApiId;
      IndexedInjective(base, s, slot);
    } else {
      assert u.key == Indexed(OutWafAssociation, s);
      assert u.key[0] == 'W';
      assert base == OutWafAssociation;
      IndexedInjective(base, s, slot);
    }
  }

  /** Each slot's "RestAPIID<slot>" output references that slot's REST API. */
  lemma RestApiIdOutput(cfg: TemplateConfig, slot: nat)
    requires slot < ApiSize(cfg)
    ensures var outs := Run(map[], OutputWrites(cfg));
            Indexed(OutRestApiId, slot) in outs && outs[Indexed(OutRestApiId, slot)] == Out(Ref(Indexed(RestApiBase, slot)))
  {
    var k, v := Indexed(OutRestApiId, slot), Out(Ref(Indexed(RestApiBase, slot)));
    var w := Put(k, v);
    assert w in SlotOutputWrites(cfg, slot);
    SlotsOutputMember(cfg, ApiSize(cfg), w);
    IndexedNotFixed(OutRestApiId, slot);
    forall u | u in OutputWrites(cfg) && Writes(u, k) ensures Written(u, k) == v {
      OutputShape(cfg, u);
      var s :| 0 <= s < ApiSize(cfg) && u in SlotOutputWrites(cfg, s);
      SlotOutputKeys(cfg, s, u, OutRestApiId, slot);
    }
    RunAgree(map[], OutputWrites(cfg), w, k, v);
  }

  /** The "WAFAssociation<slot>" output exists exactly when association is
      requested, whether or not WAF is enabled, and references the slot's
      association. */
  lemma WafAssociationOutput(cfg: TemplateConfig, slot: nat)
    requires slot < ApiSize(cfg)
    ensures var outs := Run(map[], OutputWrites(cfg));
            (Indexed(OutWafAssociation, slot) in outs <==> cfg.wafAssociation) &&
            (cfg.wafAssociation ==> outs[Indexed(OutWafAssociation, slot)] == Out(Ref(Indexed(WafAssociationBase, slot))))
  {
    var k, v := Indexed(OutWafAssociation, slot), Out(Ref(Indexed(WafAssociationBase, slot)));
    var ws := OutputWrites(cfg);
    IndexedNotFixed(OutWafAssociation, slot);
    if cfg.wafAssociation {
      var w := Put(k, v);
      assert w in SlotOutputWrites(cfg, slot);
      SlotsOutputMember(cfg, ApiSize(cfg), w);
      forall u | u in ws && Writes(u, k) ensures Written(u, k) == v {
        OutputShape(cfg, u);
        var s :| 0 <= s < ApiSize(cfg) && u in SlotOutputWrites(cfg, s);
        SlotOutputKeys(cfg, s, u, OutWafAssociation, slot);
      }
      RunAgree(map[], ws, w, k, v);
    } else {
      RunKeys(map[], ws, k);
      if k in Run(map[], ws) {
        var i :| 0 <= i < |ws| && Writes(ws[i], k);
        OutputShape(cfg, ws[i]);
        var s :| 0 <= s < ApiSize(cfg) && ws[i] in SlotOutputWrites(cfg, s);
        SlotOutputKeys(cfg, s, ws[i], OutWafAssociation, slot);
      }
    }
  }

  /** With association requested but WAF disabled, the slot's
      "WAFAssociation<slot>" output references a resource the template
      does not hold. */
  lemma DanglingWafAssociationOutput(cfg: TemplateConfig, parse: string -> Option<seq<WafRule>>, slot: nat)
    requires slot < ApiSize(cfg) && cfg.wafAssociation && !cfg.wafEnabled
    ensures var outs := Run(map[], OutputWrites(cfg));
            Indexed(OutWafAssociation, slot) in outs &&
            outs[Indexed(OutWafAssociation, slot)] == Out(Ref(Indexed(WafAssociationBase, slot))) &&
            Indexed(WafAssociationBase, slot) !in Run(map[], ResourceWrites(cfg, parse))
  {
    WafAssociationOutput(cfg, slot);
    WafAssociationResource(cfg, parse, slot);
  }
}

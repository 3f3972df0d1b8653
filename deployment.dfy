/** The stage deployment of a slot's REST API: its cache settings, one
    method setting per declared (path, verb) pair, and a dependency on every
    gateway method of the slot, sorted by name. Also the WAF association,
    whose two dependencies are sorted the same way. */
module Deployments {
  import opened Text
  import opened Cfn
  import opened Config
  import opened Resources
  import opened Naming
  import opened Order

  /** The zero value the settings list starts from. */
  const ZeroSetting := MethodSetting("", "", false)

  /** The setting for one verb of one declared resource: its escaped path
      and the resource's own caching flag. */
  function Setting(res: APIResource, verb: string): (r: MethodSetting)
    ensures r.httpMethod == verb && r.cachingEnabled == res.cachingEnabled
    ensures r.resourcePath == BuildResourcePath(res.path) && r != ZeroSetting
  {
    MethodSetting(BuildResourcePath(res.path), verb, res.cachingEnabled)
  }

  /** The settings for the given verbs of one resource, in order. */
  function VerbSettings(res: APIResource, verbs: seq<string>): (r: seq<MethodSetting>)
    ensures |r| == |verbs|
    ensures forall k :: 0 <= k < |r| ==> r[k] == Setting(res, verbs[k])
    decreases |verbs|
  {
    if |verbs| == 0 then []
    else VerbSettings(res, verbs[..|verbs| - 1]) + [Setting(res, verbs[|verbs| - 1])]
  }

  /** The settings for every (resource, verb) pair, resource by resource. */
  function AllSettings(resources: seq<APIResource>): (r: seq<MethodSetting>)
    ensures |r| == VerbCount(resources)
    decreases |resources|
  {
    if |resources| == 0 then []
    else
      var last := resources[|resources| - 1];
      AllSettings(resources[..|resources| - 1]) + VerbSettings(last, last.methods)
  }

  /** The number of (resource, verb) pairs. */
  function VerbCount(resources: seq<APIResource>): nat
    decreases |resources|
  {
    if |resources| == 0 then 0
    else VerbCount(resources[..|resources| - 1]) + |resources[|resources| - 1].methods|
  }

  /** What the settings loop leaves behind: the first setting takes the place
      of the zero entry, so the zero entry survives only when the first
      resource declares no verb. */
  function Accumulated(resources: seq<APIResource>): (r: seq<MethodSetting>)
    ensures |r| == (if |resources| > 0 && |resources[0].methods| > 0 then 0 else 1) + VerbCount(resources)
    ensures |r| >= 1
  {
    FirstVerbsCounted(resources);
    if |resources| > 0 && |resources[0].methods| > 0 then AllSettings(resources)
    else [ZeroSetting] + AllSettings(resources)
  }

  /** buildAWSAPIGWDeploymentMethodSettings. */
  function MethodSettings(cachingEnabled: bool, resources: seq<APIResource>): (r: seq<MethodSetting>)
    ensures |r| >= 1
  {
    if cachingEnabled && |resources| > 0 then Accumulated(resources) else [ZeroSetting]
  }

  lemma {:induction false} FirstVerbsCounted(resources: seq<APIResource>)
    ensures |resources| > 0 ==> VerbCount(resources) >= |resources[0].methods|
    decreases |resources|
  {
    if |resources| > 1 {
      FirstVerbsCounted(resources[..|resources| - 1]);
    }
  }

  /** The pair (resource i, verb j) has its setting at the position of all
      the pairs before it. */
  lemma {:induction false} AllSettingsAt(resources: seq<APIResource>, i: nat, j: nat)
    requires i < |resources| && j < |resources[i].methods|
    ensures VerbCount(resources[..i]) + j < |AllSettings(resources)|
    ensures AllSettings(resources)[VerbCount(resources[..i]) + j] == Setting(resources[i], resources[i].methods[j])
    decreases |resources|
  {
    var init := resources[..|resources| - 1];
    if i < |resources| - 1 {
      AllSettingsAt(init, i, j);
      assert init[..i] == resources[..i];
    } else {
      assert resources[..i] == init;
    }
  }

  /** Every setting belongs to some (resource, verb) pair. */
  lemma {:induction false} AllSettingsFrom(resources: seq<APIResource>, s: MethodSetting)
    requires s in AllSettings(resources)
    ensures exists i, j :: 0 <= i < |resources| && 0 <= j < |resources[i].methods| &&
                           s == Setting(resources[i], resources[i].methods[j])
    decreases |resources|
  {
    var init := resources[..|resources| - 1];
    var last := resources[|resources| - 1];
    if s in AllSettings(init) {
      AllSettingsFrom(init, s);
      var i, j :| 0 <= i < |init| && 0 <= j < |init[i].methods| && s == Setting(init[i], init[i].methods[j]);
      assert resources[i] == init[i];
    } else {
      var k :| 0 <= k < |last.methods| && s == VerbSettings(last, last.methods)[k];
      assert s == Setting(resources[|resources| - 1], resources[|resources| - 1].methods[k]);
    }
  }

  /** With caching off or nothing declared the settings list is the single
      zero entry; otherwise it holds one setting per (resource, verb) pair in
      input order, after the zero entry when the first resource declares no
      verb. */
  lemma MethodSettingsShape(cachingEnabled: bool, resources: seq<APIResource>, i: nat, j: nat)
    ensures !(cachingEnabled && |resources| > 0) ==> MethodSettings(cachingEnabled, resources) == [ZeroSetting]
    ensures cachingEnabled && i < |resources| && j < |resources[i].methods| ==>
              var offset := if |resources[0].methods| > 0 then 0 else 1;
              var r := MethodSettings(cachingEnabled, resources);
              |r| == offset + VerbCount(resources) && offset + VerbCount(resources[..i]) + j < |r| &&
              r[offset + VerbCount(resources[..i]) + j] == Setting(resources[i], resources[i].methods[j])
  {
    if cachingEnabled && i < |resources| && j < |resources[i].methods| {
      var all := AllSettings(resources);
      var at := VerbCount(resources[..i]) + j;
      AllSettingsAt(resources, i, j);
      var r := MethodSettings(cachingEnabled, resources);
      assert r == Accumulated(resources);
      if |resources[0].methods| > 0 {
        assert r == all;
        assert |r| == VerbCount(resources) && at < |r|;
        assert r[at] == Setting(resources[i], resources[i].methods[j]);
      } else {
        assert r == [ZeroSetting] + all;
        assert |r| == 1 + VerbCount(resources) && 1 + at < |r|;
        assert r[1 + at] == all[at];
      }
    }
  }

  /** The first entry is the zero entry exactly when there is no setting to
      put in its place: caching off, nothing declared, or a first resource
      with no verb. */
  lemma LeadingZero(cachingEnabled: bool, resources: seq<APIResource>)
    ensures MethodSettings(cachingEnabled, resources)[0] == ZeroSetting <==>
            !(cachingEnabled && |resources| > 0 && |resources[0].methods| > 0)
  {
    if cachingEnabled && |resources| > 0 && |resources[0].methods| > 0 {
      AllSettingsAt(resources, 0, 0);
      assert resources[..0] == [];
    }
  }

  /** Every entry other than a leading zero entry is the setting of some
      declared (resource, verb) pair. */
  lemma SettingsAreDeclared(cachingEnabled: bool, resources: seq<APIResource>, k: nat)
    requires 0 < k < |MethodSettings(cachingEnabled, resources)| ||
             (k == 0 && cachingEnabled && |resources| > 0 && |resources[0].methods| > 0)
    ensures exists i, j :: 0 <= i < |resources| && 0 <= j < |resources[i].methods| &&
                           MethodSettings(cachingEnabled, resources)[k] == Setting(resources[i], resources[i].methods[j])
  {
    var r := MethodSettings(cachingEnabled, resources);
    if cachingEnabled && |resources| > 0 {
      var all := AllSettings(resources);
      if |resources[0].methods| > 0 {
        assert r[k] in all;
        AllSettingsFrom(resources, r[k]);
      } else {
        assert r[k] == all[k - 1];
        AllSettingsFrom(resources, r[k]);
      }
    }
  }

  /** The declared resources up to i, with only the first j verbs of the i-th. */
  function Truncated(resources: seq<APIResource>, i: nat, j: nat): seq<APIResource>
    requires i < |resources| && j <= |resources[i].methods|
  {
    resources[..i] + [resources[i].(methods := resources[i].methods[..j])]
  }

  lemma TruncatedNone(resources: seq<APIResource>, i: nat)
    requires i < |resources|
    ensures Accumulated(Truncated(resources, i, 0)) == Accumulated(resources[..i])
  {
    var t := Truncated(resources, i, 0);
    assert t[..|t| - 1] == resources[..i];
    assert AllSettings(t) == AllSettings(resources[..i]);
  }

  lemma TruncatedAll(resources: seq<APIResource>, i: nat)
    requires i < |resources|
    ensures Truncated(resources, i, |resources[i].methods|) == resources[..i + 1]
  {
    assert resources[i].methods[..|resources[i].methods|] == resources[i].methods;
  }

  /** One more verb: the very first overwrites the zero entry, any other is
      appended. */
  lemma SettingsStep(resources: seq<APIResource>, i: nat, j: nat)
    requires i < |resources| && j < |resources[i].methods|
    ensures Accumulated(Truncated(resources, i, j + 1)) ==
            if i == 0 && j == 0 then [Setting(resources[0], resources[0].methods[0])]
            else Accumulated(Truncated(resources, i, j)) + [Setting(resources[i], resources[i].methods[j])]
  {
    var a := Truncated(resources, i, j);
    var b := Truncated(resources, i, j + 1);
    var s := Setting(resources[i], resources[i].methods[j]);
    TruncatedStep(resources, i, j);
    if i > 0 {
      assert a[0] == resources[0] == b[0];
    } else {
      assert |b[0].methods| == j + 1;
      if j == 0 {
        assert AllSettings(a) == [];
      } else {
        assert |a[0].methods| == j;
      }
    }
  }

  /** The settings of one more verb of resource i. */
  lemma TruncatedStep(resources: seq<APIResource>, i: nat, j: nat)
    requires i < |resources| && j < |resources[i].methods|
    ensures AllSettings(Truncated(resources, i, j + 1))
         == AllSettings(Truncated(resources, i, j)) + [Setting(resources[i], resources[i].methods[j])]
  {
    var res := resources[i];
    var a := Truncated(resources, i, j);
    var b := Truncated(resources, i, j + 1);
    assert a[..|a| - 1] == resources[..i] && b[..|b| - 1] == resources[..i];
    assert res.methods[..j + 1][..j] == res.methods[..j];
    assert VerbSettings(res, res.methods[..j + 1]) == VerbSettings(res, res.methods[..j]) + [Setting(res, res.methods[j])];
  }

  /** buildAWSAPIGWDeploymentMethodSettings: start from one zero entry; the
      first (resource, verb) pair overwrites it, every later pair is appended. */
  method BuildMethodSettings(cachingEnabled: bool, resources: seq<APIResource>) returns (settings: seq<MethodSetting>)
    ensures settings == MethodSettings(cachingEnabled, resources)
  {
    settings := [ZeroSetting];
    if cachingEnabled && |resources| > 0 {
      for i := 0 to |resources|
        invariant settings == Accumulated(resources[..i])
      {
        settings := AddResourceSettings(settings, resources, i);
      }
      assert resources[..|resources|] == resources;
    }
  }

  /** The inner loop over the verbs of resource i. */
  method AddResourceSettings(settings0: seq<MethodSetting>, resources: seq<APIResource>, i: nat)
    returns (settings: seq<MethodSetting>)
    requires i < |resources| && settings0 == Accumulated(resources[..i])
    ensures settings == Accumulated(resources[..i + 1])
  {
    settings := settings0;
    var res := resources[i];
    TruncatedNone(resources, i);
    for j := 0 to |res.methods|
      invariant settings == Accumulated(Truncated(resources, i, j))
    {
      var setting := MethodSetting(BuildResourcePath(res.path), res.methods[j], res.cachingEnabled);
      SettingsStep(resources, i, j);
      if i == 0 && j == 0 {
        settings := settings[0 := setting];
      } else {
        settings := settings + [setting];
      }
    }
    TruncatedAll(resources, i);
  }

  /** buildAWSApiGatewayDeployment with the dependency list already sorted. */
  ghost function DeploymentOf(stageName: string, dependsOn: multiset<string>, cachingEnabled: bool,
                              apiResources: seq<APIResource>, cacheSize: string, slot: nat): (r: Resource)
    ensures r.Deployment? && r.restApiId == Ref(Indexed(RestApiBase, slot)) && r.stageName == stageName
    ensures r.cacheClusterEnabled == r.cacheDataEncrypted == cachingEnabled && r.cacheClusterSize == cacheSize
    ensures Sorted(r.dependsOn) && multiset(r.dependsOn) == dependsOn
  {
    Deployment(Ref(Indexed(RestApiBase, slot)), stageName, cachingEnabled, cacheSize, cachingEnabled,
               MethodSettings(cachingEnabled, apiResources), SortedOf(dependsOn))
  }

  /** buildAWSApiGatewayDeployment: the dependencies are sorted before they
      are attached, so the deployment depends on the same names whatever
      order they were collected in. */
  method BuildDeployment(stageName: string, dependsOn: seq<string>, cachingEnabled: bool,
                         apiResources: seq<APIResource>, cacheSize: string, slot: nat) returns (r: Resource)
    ensures r == DeploymentOf(stageName, multiset(dependsOn), cachingEnabled, apiResources, cacheSize, slot)
  {
    var settings := BuildMethodSettings(cachingEnabled, apiResources);
    var sorted := SortStrings(dependsOn);
    r := Deployment(Ref(Indexed(RestApiBase, slot)), stageName, cachingEnabled, cacheSize, cachingEnabled,
                    settings, sorted);
  }

  /** Two collection orders of the same names give the same deployment. */
  lemma DeploymentOrderIrrelevant(stageName: string, a: seq<string>, b: seq<string>, cachingEnabled: bool,
                                  apiResources: seq<APIResource>, cacheSize: string, slot: nat)
    requires multiset(a) == multiset(b)
    ensures DeploymentOf(stageName, multiset(a), cachingEnabled, apiResources, cacheSize, slot) ==
            DeploymentOf(stageName, multiset(b), cachingEnabled, apiResources, cacheSize, slot)
  {
  }

  /** The ARN of stage in the REST API whose logical name is api, as a
      substitution string: the region and the API are placeholders that
      CloudFormation resolves, and the stage ends the ARN. */
  function StageArnOf(api: string, stage: string): (r: Value)
    ensures r.Sub? && HasSuffix(r.template, "/stages/" + stage)
  {
    var prefix := "arn:aws:apigateway:${" + Region + "}::/restapis/${" + api + "}";
    assert prefix + "/stages/" + stage == prefix + ("/stages/" + stage);
    Sub(prefix + "/stages/" + stage)
  }

  /** The stage ARN the WAF association attaches to. It names the REST API
      without the slot index, which is a different API from every slot's. */
  function StageArn(stage: string): (r: Value)
    ensures r == StageArnOf(RestApiBase, stage)
    ensures forall slot: nat :: r != StageArnOf(Indexed(RestApiBase, slot), stage)
  {
    forall slot: nat ensures StageArnOf(RestApiBase, stage) != StageArnOf(Indexed(RestApiBase, slot), stage) {
      StageArnLonger(RestApiBase, Indexed(RestApiBase, slot), stage);
    }
    StageArnOf(RestApiBase, stage)
  }

  /** A longer API name gives a longer ARN. */
  lemma StageArnLonger(a: string, b: string, stage: string)
    requires |a| < |b|
    ensures |StageArnOf(a, stage).template| < |StageArnOf(b, stage).template|
  {
  }

  /** Different API names give different stage ARNs. */
  lemma StageArnInjective(a: string, b: string, stage: string)
    requires StageArnOf(a, stage) == StageArnOf(b, stage)
    ensures a == b
  {
    var head := "arn:aws:apigateway:${" + Region + "}::/restapis/${";
    var ta, tb := StageArnOf(a, stage).template, StageArnOf(b, stage).template;
    assert ta == head + a + "}/stages/" + stage;
    assert tb == head + b + "}/stages/" + stage;
    assert |a| == |b|;
    assert ta[|head|..|head| + |a|] == a;
    assert tb[|head|..|head| + |b|] == b;
  }

  /** buildAWSWAFWebACLAssociation: attaches the ACL to the stage, after the
      slot's deployment and the slot-indexed ACL name, sorted. */
  function WafAssociationOf(stage: string, slot: nat): (r: Resource)
    ensures r.WebAclAssociation? && r.webAclArn == GetAtt(WafAclName, "Arn")
    ensures r.resourceArn == StageArnOf(RestApiBase, stage)
    ensures Sorted(r.dependsOn)
    ensures multiset(r.dependsOn) == multiset{Indexed(DeploymentBase, slot), Indexed(WafAclName, slot)}
  {
    assert Le(Indexed(DeploymentBase, slot), Indexed(WafAclName, slot)) by {
      assert Indexed(DeploymentBase, slot)[0] == 'D' && Indexed(WafAclName, slot)[0] == 'W';
    }
    WebAclAssociation(GetAtt(WafAclName, "Arn"), StageArn(stage),
                      [Indexed(DeploymentBase, slot), Indexed(WafAclName, slot)])
  }

  /** Every slot's association attaches to the same stage, that of the
      unindexed REST API, and never to the stage of its own slot's API. */
  lemma WafAssociationSameTarget(stage: string, s: nat, t: nat)
    ensures WafAssociationOf(stage, s).resourceArn == WafAssociationOf(stage, t).resourceArn
    ensures WafAssociationOf(stage, s).resourceArn != StageArnOf(Indexed(RestApiBase, s), stage)
  {
    StageArnLonger(RestApiBase, Indexed(RestApiBase, s), stage);
  }

  /** The association built by sorting the two names in place. */
  method BuildWafAssociation(stage: string, slot: nat) returns (r: Resource)
    ensures r == WafAssociationOf(stage, slot)
  {
    var dependsOn := [Indexed(DeploymentBase, slot), Indexed(WafAclName, slot)];
    var sorted := SortStrings(dependsOn);
    var expected := WafAssociationOf(stage, slot).dependsOn;
    SortedUnique(sorted, expected);
    r := WebAclAssociation(GetAtt(WafAclName, "Arn"), StageArn(stage), sorted);
  }

  /** The association's ACL dependency is never the name the ACL is stored
      under, which carries no slot index. */
  lemma WafAssociationAclNameDiffers(stage: string, slot: nat)
    ensures WafAclName !in WafAssociationOf(stage, slot).dependsOn
  {
    assert |Indexed(WafAclName, slot)| > |WafAclName|;
    assert Indexed(DeploymentBase, slot)[0] == 'D';
  }
}

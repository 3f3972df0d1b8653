/** The two builders of a slot's resource tree: one gateway resource per path
    segment, chained to its parent, with gateway methods attached. The
    path-driven builder follows the ingress paths, adds a greedy
    "{proxy+}" leaf below each, and gives every node an ANY method; the
    declared builder follows the configured API resources and gives only
    each declared path's last node one method per declared verb. */
module Trees {
  import opened Text
  import opened Cfn
  import opened Config
  import opened Resources
  import opened Naming
  import opened Methods
  import opened Document

  /** buildAWSApiGatewayResource: a node under parent, in slot's REST API. */
  function BuildResource(parent: Value, part: string, slot: nat): (r: Resource)
    ensures r.ApiResource? && r.restApiId == Ref(Indexed(RestApiBase, slot))
  {
    ApiResource(parent, part, Ref(Indexed(RestApiBase, slot)))
  }

  /** The logical name of the node at depth idx. */
  function ResourceName(idx: nat, parts: seq<string>, slot: nat): string
    requires idx < |parts|
  {
    Indexed(ResourceBase + LogicalName(idx, parts), slot)
  }

  /** Depth one hangs under the REST API's root; deeper nodes under the node above. */
  function ParentRef(idx: nat, parts: seq<string>, slot: nat): Value
    requires 1 <= idx < |parts|
  {
    if idx > 1 then Ref(ResourceName(idx - 1, parts, slot))
    else GetAtt(Indexed(RestApiBase, slot), Indexed(RootResourceIdBase, slot))
  }

  /** The node at depth idx. */
  function Node(idx: nat, parts: seq<string>, slot: nat): Resource
    requires 1 <= idx < |parts|
  {
    BuildResource(ParentRef(idx, parts, slot), parts[idx], slot)
  }

  /** The segments of an ingress path with the greedy leaf appended. */
  function WildcardParts(path: string): (parts: seq<string>)
    ensures |parts| >= 2 && parts[|parts| - 1] == ProxySegment
  {
    Split(path, '/') + [ProxySegment]
  }

  /** The logical name of the ANY method at depth idx. */
  function AnyMethodName(idx: nat, parts: seq<string>, slot: nat): string
    requires idx < |parts|
  {
    Indexed(MethodBase + LogicalName(idx, parts), slot)
  }

  /** The ANY method at depth idx, forwarding to that node's path. */
  function AnyMethod(idx: nat, parts: seq<string>, timeout: int, auth: string, slot: nat): Resource
    requires idx < |parts|
  {
    MethodResource(ResourceName(idx, parts, slot), ToPath(idx, parts), timeout, auth, "ANY", NoAPIResource, slot)
  }

  /** The writes for depths 1 up to n - 1 of one ingress path: node, then its method. */
  function WildcardPathWrites(parts: seq<string>, n: nat, timeout: int, auth: string, slot: nat): seq<Write<Resource>>
    requires n <= |parts|
  {
    if n <= 1 then []
    else
      WildcardPathWrites(parts, n - 1, timeout, auth, slot)
        + [Put(ResourceName(n - 1, parts, slot), Node(n - 1, parts, slot)),
           Put(AnyMethodName(n - 1, parts, slot), AnyMethod(n - 1, parts, timeout, auth, slot))]
  }

  /** The writes for a list of ingress paths, path by path. */
  function WildcardWrites(paths: seq<string>, timeout: int, auth: string, slot: nat): seq<Write<Resource>>
  {
    if |paths| == 0 then []
    else
      var parts := WildcardParts(paths[|paths| - 1]);
      WildcardWrites(paths[..|paths| - 1], timeout, auth, slot) + WildcardPathWrites(parts, |parts|, timeout, auth, slot)
  }

  /** The tree mapApiGatewayMethodsAndResourcesFromPaths returns. */
  function WildcardTree(paths: seq<string>, timeout: int, auth: string, slot: nat): map<string, Resource>
  {
    Run(map[], WildcardWrites(paths, timeout, auth, slot))
  }

  /** mapApiGatewayMethodsAndResourcesFromPaths. */
  method MapFromPaths(paths: seq<string>, timeout: int, auth: string, slot: nat) returns (m: map<string, Resource>)
    ensures m == WildcardTree(paths, timeout, auth, slot)
  {
    m := map[];
    for p := 0 to |paths|
      invariant m == Run(map[], WildcardWrites(paths[..p], timeout, auth, slot))
    {
      var parts := Split(paths[p], '/');
      parts := parts + [ProxySegment];
      assert parts == WildcardParts(paths[p]);
      m := AddWildcardPath(m, parts, timeout, auth, slot);
      WildcardWritesSnoc(paths, p, timeout, auth, slot);
    }
    assert paths[..|paths|] == paths;
  }

  /** Replaying the writes of one more path continues from the earlier paths' tree. */
  lemma WildcardWritesSnoc(paths: seq<string>, p: nat, timeout: int, auth: string, slot: nat)
    requires p < |paths|
    ensures Run(map[], WildcardWrites(paths[..p + 1], timeout, auth, slot))
         == Run(Run(map[], WildcardWrites(paths[..p], timeout, auth, slot)),
                WildcardPathWrites(WildcardParts(paths[p]), |WildcardParts(paths[p])|, timeout, auth, slot))
  {
    assert paths[..p + 1][..p] == paths[..p];
    var parts := WildcardParts(paths[p]);
    RunAppend(map[], WildcardWrites(paths[..p], timeout, auth, slot), WildcardPathWrites(parts, |parts|, timeout, auth, slot));
  }

  /** The body of the path loop: every node of one ingress path and its ANY method. */
  method AddWildcardPath(m0: map<string, Resource>, parts: seq<string>, timeout: int, auth: string, slot: nat)
    returns (m: map<string, Resource>)
    ensures m == Run(m0, WildcardPathWrites(parts, |parts|, timeout, auth, slot))
  {
    m := m0;
    for idx := 0 to |parts|
      invariant m == Run(m0, WildcardPathWrites(parts, idx, timeout, auth, slot))
    {
      if idx == 0 {
        continue;
      }
      var ref := GetAtt(Indexed(RestApiBase, slot), Indexed(RootResourceIdBase, slot));
      if idx > 1 {
        var parent := ToLogicalName(idx - 1, parts);
        ref := Ref(Indexed(ResourceBase + parent, slot));
      }
      var name := ToLogicalName(idx, parts);
      var resourceLogicalName := Indexed(ResourceBase + name, slot);
      var node := BuildResource(ref, parts[idx], slot);
      assert resourceLogicalName == ResourceName(idx, parts, slot);
      assert node == Node(idx, parts, slot);
      m := m[resourceLogicalName := node];
      var gwMethod := BuildMethod(resourceLogicalName, ToPath(idx, parts), timeout, auth, "ANY", NoAPIResource, slot);
      m := m[Indexed(MethodBase + name, slot) := gwMethod];
      WildcardStep(m0, parts, idx, timeout, auth, slot);
    }
  }

  /** One step of the path loop: the node at depth idx, then its method. */
  lemma WildcardStep(m0: map<string, Resource>, parts: seq<string>, idx: nat, timeout: int, auth: string, slot: nat)
    requires 1 <= idx < |parts|
    ensures Run(m0, WildcardPathWrites(parts, idx + 1, timeout, auth, slot))
         == Run(m0, WildcardPathWrites(parts, idx, timeout, auth, slot))
              [ResourceName(idx, parts, slot) := Node(idx, parts, slot)]
              [AnyMethodName(idx, parts, slot) := AnyMethod(idx, parts, timeout, auth, slot)]
  {
    var done := WildcardPathWrites(parts, idx, timeout, auth, slot);
    var w1 := Put(ResourceName(idx, parts, slot), Node(idx, parts, slot));
    var w2 := Put(AnyMethodName(idx, parts, slot), AnyMethod(idx, parts, timeout, auth, slot));
    RunSnoc(m0, done, w1);
    RunSnoc(m0, done + [w1], w2);
    assert done + [w1] + [w2] == WildcardPathWrites(parts, idx + 1, timeout, auth, slot);
  }

  /** The logical name of the method for verb at the last node of parts. */
  function VerbMethodName(parts: seq<string>, verb: string, slot: nat): string
    requires |parts| >= 1
  {
    Indexed(MethodBase + LogicalName(|parts| - 1, parts) + verb, slot)
  }

  /** The method for verb at the last node of a declared resource. */
  function VerbMethod(parts: seq<string>, verb: string, timeout: int, auth: string, res: APIResource, slot: nat): Resource
    requires |parts| >= 1
  {
    MethodResource(ResourceName(|parts| - 1, parts, slot), ToPath(|parts| - 1, parts), timeout, auth, verb, res, slot)
  }

  /** The writes for the first verbs of a declared resource. */
  function VerbWrites(parts: seq<string>, verbs: seq<string>, timeout: int, auth: string, res: APIResource, slot: nat)
    : seq<Write<Resource>>
    requires |parts| >= 1
  {
    if |verbs| == 0 then []
    else
      var verb := verbs[|verbs| - 1];
      VerbWrites(parts, verbs[..|verbs| - 1], timeout, auth, res, slot)
        + [Put(VerbMethodName(parts, verb, slot), VerbMethod(parts, verb, timeout, auth, res, slot))]
  }

  /** The writes for depths 1 up to n - 1 of a declared resource: each node,
      and after the last node the methods of every declared verb. */
  function DeclaredPathWrites(res: APIResource, parts: seq<string>, n: nat, timeout: int, auth: string, slot: nat)
    : seq<Write<Resource>>
    requires n <= |parts|
  {
    if n <= 1 then []
    else
      DeclaredPathWrites(res, parts, n - 1, timeout, auth, slot)
        + [Put(ResourceName(n - 1, parts, slot), Node(n - 1, parts, slot))]
        + (if n == |parts| then VerbWrites(parts, res.methods, timeout, auth, res, slot) else [])
  }

  /** The writes for a list of declared resources, resource by resource. */
  function DeclaredWrites(resources: seq<APIResource>, timeout: int, auth: string, slot: nat): seq<Write<Resource>>
  {
    if |resources| == 0 then []
    else
      var res := resources[|resources| - 1];
      var parts := Split(res.path, '/');
      DeclaredWrites(resources[..|resources| - 1], timeout, auth, slot) + DeclaredPathWrites(res, parts, |parts|, timeout, auth, slot)
  }

  /** The tree mapAPIGWMethodsAndResourcesFromDefinedPublicAPIs returns. */
  function DeclaredTree(resources: seq<APIResource>, timeout: int, auth: string, slot: nat): map<string, Resource>
  {
    Run(map[], DeclaredWrites(resources, timeout, auth, slot))
  }

  /** mapAPIGWMethodsAndResourcesFromDefinedPublicAPIs. */
  method MapFromDeclared(resources: seq<APIResource>, timeout: int, auth: string, slot: nat) returns (m: map<string, Resource>)
    ensures m == DeclaredTree(resources, timeout, auth, slot)
  {
    m := map[];
    for r := 0 to |resources|
      invariant m == Run(map[], DeclaredWrites(resources[..r], timeout, auth, slot))
    {
      var res := resources[r];
      var parts := Split(res.path, '/');
      ghost var before := DeclaredWrites(resources[..r], timeout, auth, slot);
      m := AddDeclaredPath(m, res, parts, timeout, auth, slot);
      RunAppend(map[], before, DeclaredPathWrites(res, parts, |parts|, timeout, auth, slot));
      assert resources[..r + 1][..r] == resources[..r];
    }
    assert resources[..|resources|] == resources;
  }

  /** The body of the resource loop: every node of one declared path, and at
      its last node one method per declared verb. */
  method AddDeclaredPath(m0: map<string, Resource>, res: APIResource, parts: seq<string>, timeout: int, auth: string, slot: nat)
    returns (m: map<string, Resource>)
    ensures m == Run(m0, DeclaredPathWrites(res, parts, |parts|, timeout, auth, slot))
  {
    m := m0;
    for idx := 0 to |parts|
      invariant m == Run(m0, DeclaredPathWrites(res, parts, idx, timeout, auth, slot))
    {
      if idx == 0 {
        continue;
      }
      var ref := GetAtt(Indexed(RestApiBase, slot), Indexed(RootResourceIdBase, slot));
      if idx > 1 {
        var parent := ToLogicalName(idx - 1, parts);
        ref := Ref(Indexed(ResourceBase + parent, slot));
      }
      var name := ToLogicalName(idx, parts);
      var resourceLogicalName := Indexed(ResourceBase + name, slot);
      var node := BuildResource(ref, parts[idx], slot);
      assert resourceLogicalName == ResourceName(idx, parts, slot);
      assert node == Node(idx, parts, slot);
      ghost var m1 := m[resourceLogicalName := node];
      m := m[resourceLogicalName := node];
      if idx == |parts| - 1 {
        m := AddVerbs(m, parts, res, timeout, auth, slot);
      }
      DeclaredStep(m0, res, parts, idx, timeout, auth, slot);
      assert m == Run(m1, if idx + 1 == |parts| then VerbWrites(parts, res.methods, timeout, auth, res, slot) else []);
    }
  }

  /** The verb loop at the last node of a declared path. */
  method AddVerbs(m0: map<string, Resource>, parts: seq<string>, res: APIResource, timeout: int, auth: string, slot: nat)
    returns (m: map<string, Resource>)
    requires |parts| >= 1
    ensures m == Run(m0, VerbWrites(parts, res.methods, timeout, auth, res, slot))
  {
    m := m0;
    var idx := |parts| - 1;
    var name := ToLogicalName(idx, parts);
    var resourceLogicalName := Indexed(ResourceBase + name, slot);
    assert resourceLogicalName == ResourceName(idx, parts, slot);
    for v := 0 to |res.methods|
      invariant m == Run(m0, VerbWrites(parts, res.methods[..v], timeout, auth, res, slot))
    {
      var verb := res.methods[v];
      var gwMethod := BuildMethod(resourceLogicalName, ToPath(idx, parts), timeout, auth, verb, res, slot);
      var key := Indexed(MethodBase + name + verb, slot);
      assert key == VerbMethodName(parts, verb, slot);
      assert gwMethod == VerbMethod(parts, verb, timeout, auth, res, slot);
      VerbStep(m0, parts, res.methods, v, timeout, auth, res, slot);
      m := m[key := gwMethod];
    }
    assert res.methods[..|res.methods|] == res.methods;
  }

  /** One step of the declared path loop: the node at depth idx, then the
      verbs if it is the last node. */
  lemma DeclaredStep(m0: map<string, Resource>, res: APIResource, parts: seq<string>, idx: nat, timeout: int, auth: string, slot: nat)
    requires 1 <= idx < |parts|
    ensures Run(m0, DeclaredPathWrites(res, parts, idx + 1, timeout, auth, slot))
         == Run(Run(m0, DeclaredPathWrites(res, parts, idx, timeout, auth, slot))[ResourceName(idx, parts, slot) := Node(idx, parts, slot)],
                if idx + 1 == |parts| then VerbWrites(parts, res.methods, timeout, auth, res, slot) else [])
  {
    var done := DeclaredPathWrites(res, parts, idx, timeout, auth, slot);
    var w := Put(ResourceName(idx, parts, slot), Node(idx, parts, slot));
    var verbs := if idx + 1 == |parts| then VerbWrites(parts, res.methods, timeout, auth, res, slot) else [];
    RunSnoc(m0, done, w);
    RunAppend(m0, done + [w], verbs);
  }

  /** One step of the verb loop. */
  lemma VerbStep(m0: map<string, Resource>, parts: seq<string>, verbs: seq<string>, v: nat, timeout: int, auth: string,
                 res: APIResource, slot: nat)
    requires |parts| >= 1 && v < |verbs|
    ensures Run(m0, VerbWrites(parts, verbs[..v + 1], timeout, auth, res, slot))
         == Run(m0, VerbWrites(parts, verbs[..v], timeout, auth, res, slot))
              [VerbMethodName(parts, verbs[v], slot) := VerbMethod(parts, verbs[v], timeout, auth, res, slot)]
  {
    var w := Put(VerbMethodName(parts, verbs[v], slot), VerbMethod(parts, verbs[v], timeout, auth, res, slot));
    assert verbs[..v + 1][..v] == verbs[..v];
    RunSnoc(m0, VerbWrites(parts, verbs[..v], timeout, auth, res, slot), w);
  }
}

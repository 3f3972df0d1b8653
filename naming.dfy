/** How the engine turns URL paths into logical names, integration paths and
    method-setting resource paths. */
module Naming {
  import opened Text

  /** Logical-name bases of the resources the engine emits. */
  const MethodBase := "Method"
  const ApiKeyBase := "APIKey"
  const ApiKeyUsagePlanBase := "APIKeyUsagePlan"
  const RootResourceIdBase := "RootResourceId"
  const ResourceBase := "Resource"
  const RestApiBase := "RestAPI"
  const AuthorizerBase := "RestAPIAuthorizer"
  const CustomDomainName := "CustomDomain"
  const BasePathMappingBase := "CustomDomainBasePathMapping"
  const DeploymentBase := "Deployment"
  const LambdaInvokeRoleName := "LambdaInvokeRole"
  const LoadBalancerName := "LoadBalancer"
  const ListenerName := "Listener"
  const SecurityGroupIngressBase := "SecurityGroupIngress"
  const TargetGroupName := "TargetGroup"
  const UsagePlanBase := "UsagePlan"
  const VpcLinkName := "VPCLink"
  const WafAclName := "WAFAcl"
  const WafAssociationBase := "WAFAssociation"
  const Route53RecordName := "Route53RecordSet"

  /** A base name with a decimal index appended, as "%s%d" renders it. */
  function Indexed(base: string, i: nat): (r: string)
    ensures HasPrefix(r, base) && |r| > |base|
  {
    base + NatToString(i)
  }

  /** An indexed name built on base + stem still starts with base. */
  lemma IndexedStartsWith(base: string, stem: string, i: nat)
    ensures HasPrefix(Indexed(base + stem, i), base)
  {
    assert Indexed(base + stem, i)[..|base|] == base;
  }

  /** Different indices give different names. */
  lemma IndexedInjective(base: string, i: nat, j: nat)
    requires Indexed(base, i) == Indexed(base, j)
    ensures i == j
  {
    assert Indexed(base, i)[|base|..] == NatToString(i);
    assert Indexed(base, j)[|base|..] == NatToString(j);
    NatToStringInjective(i, j);
  }

  /** The characters toLogicalName deletes, in the order it deletes them. */
  const Removed: seq<char> := ['{', '}', '+', '-', '*', '_']

  /** The same characters as a set. */
  const Stripped: set<char> := {'{', '}', '+', '-', '*', '_'}

  /** The greedy segment the path-driven builder appends to every path. */
  const ProxySegment := "{proxy+}"

  /** The logical-name stem of the node at depth idx: the segments up to and
      including idx, concatenated, with every deleted character dropped. The
      result never holds a deleted character. */
  function LogicalName(idx: nat, parts: seq<string>): (r: string)
    requires idx < |parts|
    ensures forall k :: 0 <= k < |r| ==> r[k] !in Stripped
  {
    Without(Join(parts[..idx + 1], ""), Stripped)
  }

  /** The set of the first n deleted characters. */
  function RemovedUpTo(n: nat): set<char>
    requires n <= |Removed|
  {
    set k | 0 <= k < n :: Removed[k]
  }

  /** toLogicalName: join the segments, then delete each character in turn. */
  method ToLogicalName(idx: nat, parts: seq<string>) returns (s: string)
    requires idx < |parts|
    ensures s == LogicalName(idx, parts)
  {
    var joined := Join(parts[..idx + 1], "");
    s := joined;
    WithoutNothing(joined);
    assert RemovedUpTo(0) == {};
    var i := 0;
    while i < |Removed|
      invariant 0 <= i <= |Removed|
      invariant s == Without(joined, RemovedUpTo(i))
    {
      RemoveAfterWithout(joined, RemovedUpTo(i), Removed[i]);
      s := ReplaceChar(s, Removed[i], "");
      assert RemovedUpTo(i + 1) == RemovedUpTo(i) + {Removed[i]};
      i := i + 1;
    }
    assert RemovedUpTo(|Removed|) == Stripped by {
      var all := RemovedUpTo(|Removed|);
      assert Removed[0] in all && Removed[1] in all && Removed[2] in all;
      assert Removed[3] in all && Removed[4] in all && Removed[5] in all;
    }
  }

  /** Going one level deeper appends the filtered segment: a child's stem
      extends its parent's. */
  lemma LogicalNameExtends(idx: nat, parts: seq<string>)
    requires idx + 1 < |parts|
    ensures LogicalName(idx + 1, parts) == LogicalName(idx, parts) + Without(parts[idx + 1], Stripped)
  {
    assert parts[..idx + 2] == parts[..idx + 1] + [parts[idx + 1]];
    JoinSnoc(parts[..idx + 1], parts[idx + 1], "");
    assert Join(parts[..idx + 1], "") + "" == Join(parts[..idx + 1], "");
    WithoutConcat(Join(parts[..idx + 1], ""), parts[idx + 1], Stripped);
  }

  /** The stem depends only on the segments up to idx. */
  lemma LogicalNameOfPrefix(idx: nat, parts: seq<string>, other: seq<string>)
    requires idx < |parts| && idx < |other| && parts[..idx + 1] == other[..idx + 1]
    ensures LogicalName(idx, parts) == LogicalName(idx, other)
  {
  }

  /** Two different paths can share a stem: "/ab" and "/a/b" both give "ab" at
      their last node, so their nodes overwrite each other in one map. */
  lemma LogicalNamesCollide()
    ensures LogicalName(1, ["", "ab"]) == LogicalName(2, ["", "a", "b"]) == "ab"
  {
    assert ["", "a", "b"][..3] == ["", "a", "b"];
    assert ["", "ab"][..2] == ["", "ab"];
  }

  /** An empty segment adds nothing to the stem: the level below it gets its
      parent's logical name. A path with a trailing '/', such as "/pets/",
      ends in such a segment. */
  lemma EmptySegmentRepeatsStem(idx: nat, parts: seq<string>)
    requires idx + 1 < |parts| && parts[idx + 1] == ""
    ensures LogicalName(idx + 1, parts) == LogicalName(idx, parts)
  {
    LogicalNameExtends(idx, parts);
    assert Without("", Stripped) == "";
  }

  /** "/pets/" splits into a root, "pets" and an empty last segment. */
  lemma TrailingSlashSplit()
    ensures Split("/pets/", '/') == ["", "pets", ""]
  {
    var s := "/pets/";
    assert IndexOf(s, '/') == 0;
    assert s[1..] == "pets/";
    assert IndexOf("pets/", '/') == 4;
    assert "pets/"[..4] == "pets" && "pets/"[5..] == "";
    assert Split("pets/", '/') == ["pets", ""];
  }

  /** The greedy segment keeps its letters once the deleted characters are
      dropped: its stem is not empty. */
  lemma ProxyStemNonEmpty()
    ensures Without(ProxySegment, Stripped) != ""
  {
    var rest := ProxySegment[1..];
    assert ProxySegment[0] in Stripped && rest[0] !in Stripped;
    assert Without(ProxySegment, Stripped) == Without(rest, Stripped);
    assert Without(rest, Stripped) == [rest[0]] + Without(rest[1..], Stripped);
  }

  /** toPath: the backend path a method at depth idx forwards to. The greedy
      segment becomes "/{proxy}"; any other node forwards to its own path. */
  function ToPath(idx: nat, parts: seq<string>): (r: string)
    requires idx < |parts|
    ensures parts[idx] == ProxySegment ==> HasSuffix(r, "/{proxy}")
  {
    if parts[idx] == ProxySegment then Join(parts[..idx], "/") + "/{proxy}"
    else Join(parts[..idx + 1], "/")
  }

  /** An ordinary node forwards to a prefix of the full path. */
  lemma ToPathIsPrefix(idx: nat, parts: seq<string>)
    requires idx < |parts| && parts[idx] != ProxySegment
    ensures HasPrefix(Join(parts, "/"), ToPath(idx, parts))
  {
    JoinPrefix(parts, idx + 1, "/");
  }

  /** The wildcard leaf the path-driven builder adds below a path forwards
      to that path followed by "/{proxy}". */
  lemma {:induction false} WildcardLeafPath(path: string)
    ensures var parts := Split(path, '/') + [ProxySegment];
            ToPath(|parts| - 1, parts) == path + "/{proxy}"
  {
    var parts := Split(path, '/') + [ProxySegment];
    assert parts[..|parts| - 1] == Split(path, '/');
    JoinSplit(path, '/');
  }

  /** The leaf of a declared path forwards to the declared path itself,
      unless its last segment is the greedy one. */
  lemma {:induction false} DeclaredLeafPath(path: string)
    requires var parts := Split(path, '/'); parts[|parts| - 1] != ProxySegment
    ensures var parts := Split(path, '/'); ToPath(|parts| - 1, parts) == path
  {
    var parts := Split(path, '/');
    assert parts[..|parts|] == parts;
    JoinSplit(path, '/');
  }

  /** buildResourcePath: the JSON-pointer form of a path used in method
      settings, every '/' escaped as "~1" behind one leading '/'. The result
      has exactly one '/', in front. */
  function BuildResourcePath(path: string): (r: string)
    ensures |r| >= 1 && r[0] == '/' && '/' !in r[1..]
  {
    ReplaceCharRemoves(path, '/', "~1");
    var r := "/" + ReplaceChar(path, '/', "~1");
    assert r[1..] == ReplaceChar(path, '/', "~1");
    r
  }

  /** Reads "~1" back as '/'. */
  function UnescapeSlashes(s: string): string
    decreases |s|
  {
    if |s| == 0 then ""
    else if |s| >= 2 && s[0] == '~' && s[1] == '1' then "/" + UnescapeSlashes(s[2..])
    else [s[0]] + UnescapeSlashes(s[1..])
  }

  /** For a path without '~' the escaping is undone by reading "~1" as '/'. */
  lemma {:induction false} ResourcePathRoundTrip(path: string)
    requires '~' !in path
    ensures UnescapeSlashes(BuildResourcePath(path)[1..]) == path
  {
    assert BuildResourcePath(path)[1..] == ReplaceChar(path, '/', "~1");
    EscapeRoundTrip(path);
  }

  lemma {:induction false} EscapeRoundTrip(p: string)
    requires '~' !in p
    ensures UnescapeSlashes(ReplaceChar(p, '/', "~1")) == p
    decreases |p|
  {
    if |p| > 0 {
      var rest := ReplaceChar(p[1..], '/', "~1");
      EscapeRoundTrip(p[1..]);
      if p[0] == '/' {
        assert ReplaceChar(p, '/', "~1") == "~1" + rest;
        assert ("~1" + rest)[2..] == rest;
      } else {
        assert ReplaceChar(p, '/', "~1") == [p[0]] + rest;
        assert ([p[0]] + rest)[1..] == rest;
      }
      assert p == [p[0]] + p[1..];
    }
  }

  /** '~' itself is not escaped (section 3 of RFC 6901 escapes it as "~0"),
      so the path "~1" and the path "/" get the same resource path. */
  lemma ResourcePathCollision()
    ensures BuildResourcePath("~1") == BuildResourcePath("/") == "/~1"
  {
  }
}

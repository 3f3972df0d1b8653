/** What the two tree builders guarantee: every entry is a node under a
    "Resource" name or a method under a "Method" name; every node and method
    of every path is present; declared resources get methods only at their
    last node, one per declared verb; and the entries of the last path are
    exactly the ones it built. */
module TreeFacts {
  import opened Text
  import opened Cfn
  import opened Config
  import opened Resources
  import opened Naming
  import opened Methods
  import opened Document
  import opened Trees

  /** Nodes are filed under "Resource..." names and methods under "Method..." names. */
  predicate WellFormedEntry(k: string, r: Resource)
  {
    (r.ApiResource? && HasPrefix(k, ResourceBase)) || (r.ApiMethod? && HasPrefix(k, MethodBase))
  }

  predicate WellFormedTree(t: map<string, Resource>)
  {
    forall k :: k in t ==> WellFormedEntry(k, t[k])
  }

  predicate WellFormedWrites(ws: seq<Write<Resource>>)
  {
    forall w :: w in ws ==> w.Put? && WellFormedEntry(w.key, w.value)
  }

  lemma WellFormedRun(ws: seq<Write<Resource>>)
    requires WellFormedWrites(ws)
    ensures WellFormedTree(Run(map[], ws))
  {
    RunAll(map[], ws, (k, r) => WellFormedEntry(k, r));
  }

  lemma {:induction false} WildcardPathWritesWellFormed(parts: seq<string>, n: nat, timeout: int, auth: string, slot: nat)
    requires n <= |parts|
    ensures WellFormedWrites(WildcardPathWrites(parts, n, timeout, auth, slot))
    decreases n
  {
    if n > 1 {
      WildcardPathWritesWellFormed(parts, n - 1, timeout, auth, slot);
      IndexedStartsWith(ResourceBase, LogicalName(n - 1, parts), slot);
      IndexedStartsWith(MethodBase, LogicalName(n - 1, parts), slot);
    }
  }

  lemma {:induction false} WildcardWritesWellFormed(paths: seq<string>, timeout: int, auth: string, slot: nat)
    ensures WellFormedWrites(WildcardWrites(paths, timeout, auth, slot))
    decreases |paths|
  {
    if |paths| > 0 {
      var parts := WildcardParts(paths[|paths| - 1]);
      WildcardWritesWellFormed(paths[..|paths| - 1], timeout, auth, slot);
      WildcardPathWritesWellFormed(parts, |parts|, timeout, auth, slot);
    }
  }

  /** The path-driven tree holds only nodes and methods, each under its kind of name. */
  lemma WildcardTreeWellFormed(paths: seq<string>, timeout: int, auth: string, slot: nat)
    ensures WellFormedTree(WildcardTree(paths, timeout, auth, slot))
  {
    WildcardWritesWellFormed(paths, timeout, auth, slot);
    WellFormedRun(WildcardWrites(paths, timeout, auth, slot));
  }

  /** A method of a declared resource: one of its verbs, at its last node. */
  predicate LeafMethodOf(res: APIResource, slot: nat, k: string, r: Resource)
  {
    var parts := Split(res.path, '/');
    r.ApiMethod? && r.httpMethod in res.methods && |parts| >= 2 && k == VerbMethodName(parts, r.httpMethod, slot)
  }

  lemma {:induction false} VerbWritesShape(res: APIResource, parts: seq<string>, verbs: seq<string>, timeout: int, auth: string, slot: nat)
    requires parts == Split(res.path, '/') && |parts| >= 2
    requires forall v :: v in verbs ==> v in res.methods
    ensures forall w :: w in VerbWrites(parts, verbs, timeout, auth, res, slot) ==>
              w.Put? && WellFormedEntry(w.key, w.value) && LeafMethodOf(res, slot, w.key, w.value)
    decreases |verbs|
  {
    if |verbs| > 0 {
      var verb := verbs[|verbs| - 1];
      assert verb in verbs;
      VerbWritesShape(res, parts, verbs[..|verbs| - 1], timeout, auth, slot);
      IndexedStartsWith(MethodBase, LogicalName(|parts| - 1, parts) + verb, slot);
      assert MethodBase + LogicalName(|parts| - 1, parts) + verb == MethodBase + (LogicalName(|parts| - 1, parts) + verb);
    }
  }

  lemma {:induction false} DeclaredPathWritesShape(res: APIResource, parts: seq<string>, n: nat, timeout: int, auth: string, slot: nat)
    requires parts == Split(res.path, '/') && n <= |parts|
    ensures forall w :: w in DeclaredPathWrites(res, parts, n, timeout, auth, slot) ==>
              w.Put? && WellFormedEntry(w.key, w.value) && (w.value.ApiMethod? ==> LeafMethodOf(res, slot, w.key, w.value))
    decreases n
  {
    if n > 1 {
      DeclaredPathWritesShape(res, parts, n - 1, timeout, auth, slot);
      IndexedStartsWith(ResourceBase, LogicalName(n - 1, parts), slot);
      if n == |parts| {
        VerbWritesShape(res, parts, res.methods, timeout, auth, slot);
      }
    }
  }

  lemma {:induction false} DeclaredWritesShape(resources: seq<APIResource>, timeout: int, auth: string, slot: nat)
    ensures forall w :: w in DeclaredWrites(resources, timeout, auth, slot) ==>
              w.Put? && WellFormedEntry(w.key, w.value) &&
              (w.value.ApiMethod? ==> exists res :: res in resources && LeafMethodOf(res, slot, w.key, w.value))
    decreases |resources|
  {
    if |resources| > 0 {
      var init := resources[..|resources| - 1];
      var res := resources[|resources| - 1];
      var parts := Split(res.path, '/');
      DeclaredWritesShape(init, timeout, auth, slot);
      DeclaredPathWritesShape(res, parts, |parts|, timeout, auth, slot);
      assert forall r :: r in init ==> r in resources;
    }
  }

  /** The declared tree holds only nodes and methods under their kinds of
      names, and every method is one of the declared verbs of some declared
      resource, filed at that resource's last node: no intermediate node gets
      a method. */
  lemma DeclaredTreeShape(resources: seq<APIResource>, timeout: int, auth: string, slot: nat)
    ensures var t := DeclaredTree(resources, timeout, auth, slot);
            WellFormedTree(t) &&
            forall k :: k in t && t[k].ApiMethod? ==> exists res :: res in resources && LeafMethodOf(res, slot, k, t[k])
  {
    var ws := DeclaredWrites(resources, timeout, auth, slot);
    DeclaredWritesShape(resources, timeout, auth, slot);
    RunAll(map[], ws, (k, r) => WellFormedEntry(k, r) &&
                               (r.ApiMethod? ==> exists res :: res in resources && LeafMethodOf(res, slot, k, r)));
  }

  lemma WildcardPathWritesHave(parts: seq<string>, n: nat, idx: nat, timeout: int, auth: string, slot: nat)
    requires 1 <= idx < n <= |parts|
    ensures Put(ResourceName(idx, parts, slot), Node(idx, parts, slot)) in WildcardPathWrites(parts, n, timeout, auth, slot)
    ensures Put(AnyMethodName(idx, parts, slot), AnyMethod(idx, parts, timeout, auth, slot))
              in WildcardPathWrites(parts, n, timeout, auth, slot)
  {
    WildcardPathWritesAt(parts, n, idx, timeout, auth, slot);
  }

  /** Depth idx writes its node at position 2 * idx - 2 and its ANY method
      right after it. */
  lemma {:induction false} WildcardPathWritesAt(parts: seq<string>, n: nat, idx: nat, timeout: int, auth: string, slot: nat)
    requires 1 <= idx < n <= |parts|
    ensures |WildcardPathWrites(parts, n, timeout, auth, slot)| == 2 * n - 2
    ensures WildcardPathWrites(parts, n, timeout, auth, slot)[2 * idx - 2] == Put(ResourceName(idx, parts, slot), Node(idx, parts, slot))
    ensures WildcardPathWrites(parts, n, timeout, auth, slot)[2 * idx - 1]
              == Put(AnyMethodName(idx, parts, slot), AnyMethod(idx, parts, timeout, auth, slot))
    decreases n
  {
    var prev := WildcardPathWrites(parts, n - 1, timeout, auth, slot);
    var tail := [Put(ResourceName(n - 1, parts, slot), Node(n - 1, parts, slot)),
                 Put(AnyMethodName(n - 1, parts, slot), AnyMethod(n - 1, parts, timeout, auth, slot))];
    assert WildcardPathWrites(parts, n, timeout, auth, slot) == prev + tail;
    if idx < n - 1 {
      WildcardPathWritesAt(parts, n - 1, idx, timeout, auth, slot);
    } else if n >= 3 {
      WildcardPathWritesAt(parts, n - 1, n - 2, timeout, auth, slot);
    }
  }

  lemma {:induction false} WildcardWritesHave(paths: seq<string>, i: nat, idx: nat, timeout: int, auth: string, slot: nat)
    requires i < |paths| && 1 <= idx < |WildcardParts(paths[i])|
    ensures var parts := WildcardParts(paths[i]);
            Put(ResourceName(idx, parts, slot), Node(idx, parts, slot)) in WildcardWrites(paths, timeout, auth, slot) &&
            Put(AnyMethodName(idx, parts, slot), AnyMethod(idx, parts, timeout, auth, slot)) in WildcardWrites(paths, timeout, auth, slot)
    decreases |paths|
  {
    if i < |paths| - 1 {
      WildcardWritesHave(paths[..|paths| - 1], i, idx, timeout, auth, slot);
    } else {
      var parts := WildcardParts(paths[i]);
      WildcardPathWritesHave(parts, |parts|, idx, timeout, auth, slot);
    }
  }

  /** Every depth of every ingress path, the greedy leaf included, has its
      node and its ANY method in the path-driven tree. */
  lemma WildcardTreeCovers(paths: seq<string>, i: nat, idx: nat, timeout: int, auth: string, slot: nat)
    requires i < |paths| && 1 <= idx < |WildcardParts(paths[i])|
    ensures var parts := WildcardParts(paths[i]); var t := WildcardTree(paths, timeout, auth, slot);
            ResourceName(idx, parts, slot) in t && AnyMethodName(idx, parts, slot) in t
  {
    var parts := WildcardParts(paths[i]);
    var ws := WildcardWrites(paths, timeout, auth, slot);
    WildcardWritesHave(paths, i, idx, timeout, auth, slot);
    RunHas(map[], ws, Put(ResourceName(idx, parts, slot), Node(idx, parts, slot)), ResourceName(idx, parts, slot));
    RunHas(map[], ws, Put(AnyMethodName(idx, parts, slot), AnyMethod(idx, parts, timeout, auth, slot)), AnyMethodName(idx, parts, slot));
  }

  lemma {:induction false} VerbWritesHave(parts: seq<string>, verbs: seq<string>, v: string, timeout: int, auth: string,
                                          res: APIResource, slot: nat)
    requires |parts| >= 1 && v in verbs
    ensures Put(VerbMethodName(parts, v, slot), VerbMethod(parts, v, timeout, auth, res, slot))
              in VerbWrites(parts, verbs, timeout, auth, res, slot)
    decreases |verbs|
  {
    if verbs[|verbs| - 1] != v {
      assert verbs == verbs[..|verbs| - 1] + [verbs[|verbs| - 1]];
      VerbWritesHave(parts, verbs[..|verbs| - 1], v, timeout, auth, res, slot);
    }
  }

  lemma {:induction false} DeclaredPathWritesHave(res: APIResource, parts: seq<string>, n: nat, idx: nat, timeout: int, auth: string, slot: nat)
    requires 1 <= idx < n <= |parts|
    ensures Put(ResourceName(idx, parts, slot), Node(idx, parts, slot)) in DeclaredPathWrites(res, parts, n, timeout, auth, slot)
    ensures n == |parts| ==> forall v :: v in res.methods ==>
              Put(VerbMethodName(parts, v, slot), VerbMethod(parts, v, timeout, auth, res, slot))
                in DeclaredPathWrites(res, parts, n, timeout, auth, slot)
    decreases n
  {
    if idx < n - 1 {
      DeclaredPathWritesHave(res, parts, n - 1, idx, timeout, auth, slot);
    }
    if n == |parts| {
      forall v | v in res.methods
        ensures Put(VerbMethodName(parts, v, slot), VerbMethod(parts, v, timeout, auth, res, slot))
                  in DeclaredPathWrites(res, parts, n, timeout, auth, slot)
      {
        VerbWritesHave(parts, res.methods, v, timeout, auth, res, slot);
      }
    }
  }

  lemma {:induction false} DeclaredWritesHave(resources: seq<APIResource>, i: nat, idx: nat, timeout: int, auth: string, slot: nat)
    requires i < |resources| && 1 <= idx < |Split(resources[i].path, '/')|
    ensures var parts := Split(resources[i].path, '/'); var ws := DeclaredWrites(resources, timeout, auth, slot);
            Put(ResourceName(idx, parts, slot), Node(idx, parts, slot)) in ws &&
            forall v :: v in resources[i].methods ==>
              Put(VerbMethodName(parts, v, slot), VerbMethod(parts, v, timeout, auth, resources[i], slot)) in ws
    decreases |resources|
  {
    if i < |resources| - 1 {
      DeclaredWritesHave(resources[..|resources| - 1], i, idx, timeout, auth, slot);
    } else {
      var parts := Split(resources[i].path, '/');
      DeclaredPathWritesHave(resources[i], parts, |parts|, idx, timeout, auth, slot);
    }
  }

  /** Every depth of every declared path has its node in the declared tree,
      and every declared verb its method at the last node. A declared path
      with no '/' yields neither. */
  lemma DeclaredTreeCovers(resources: seq<APIResource>, i: nat, timeout: int, auth: string, slot: nat)
    requires i < |resources|
    ensures var parts := Split(resources[i].path, '/'); var t := DeclaredTree(resources, timeout, auth, slot);
            (forall idx :: 1 <= idx < |parts| ==> ResourceName(idx, parts, slot) in t) &&
            (|parts| >= 2 ==> forall v :: v in resources[i].methods ==> VerbMethodName(parts, v, slot) in t)
  {
    var res := resources[i];
    var parts := Split(res.path, '/');
    var ws := DeclaredWrites(resources, timeout, auth, slot);
    forall idx | 1 <= idx < |parts| ensures ResourceName(idx, parts, slot) in Run(map[], ws) {
      DeclaredWritesHave(resources, i, idx, timeout, auth, slot);
      RunHas(map[], ws, Put(ResourceName(idx, parts, slot), Node(idx, parts, slot)), ResourceName(idx, parts, slot));
    }
    if |parts| >= 2 {
      forall v | v in res.methods ensures VerbMethodName(parts, v, slot) in Run(map[], ws) {
        DeclaredWritesHave(resources, i, 1, timeout, auth, slot);
        RunHas(map[], ws, Put(VerbMethodName(parts, v, slot), VerbMethod(parts, v, timeout, auth, res, slot)),
               VerbMethodName(parts, v, slot));
      }
    }
  }

  /** Every segment below the first level keeps at least one character once
      the deleted characters are dropped, so the stems of a path grow
      strictly with depth from level 1 on. The first level may be empty:
      the catch-all path "/" is separated. */
  predicate Separated(parts: seq<string>)
  {
    forall i {:trigger Without(parts[i], Stripped)} :: 2 <= i < |parts| ==> Without(parts[i], Stripped) != ""
  }

  lemma {:induction false} StemsGrow(parts: seq<string>, i: nat, j: nat)
    requires Separated(parts) && 1 <= i < j < |parts|
    ensures |LogicalName(i, parts)| < |LogicalName(j, parts)|
    decreases j
  {
    LogicalNameExtends(j - 1, parts);
    if i < j - 1 {
      StemsGrow(parts, i, j - 1);
    }
  }

  /** A node name is never a method name. */
  lemma NodeIsNotMethod(x: string, y: string, s: nat, t: nat)
    ensures Indexed(ResourceBase + x, s) != Indexed(MethodBase + y, t)
  {
    assert Indexed(ResourceBase + x, s)[0] == 'R';
    assert Indexed(MethodBase + y, t)[0] == 'M';
  }

  /** After the first n depths of a separated path are written, each of
      them holds its own node (and, by WildcardMethodValue, its own ANY
      method). */
  lemma {:induction false} WildcardNodeValue(m0: map<string, Resource>, parts: seq<string>, n: nat, idx: nat,
                                             timeout: int, auth: string, slot: nat)
    requires Separated(parts) && 1 <= idx < n <= |parts|
    ensures var t := Run(m0, WildcardPathWrites(parts, n, timeout, auth, slot));
            ResourceName(idx, parts, slot) in t && t[ResourceName(idx, parts, slot)] == Node(idx, parts, slot)
    decreases n
  {
    var init := WildcardPathWrites(parts, n - 1, timeout, auth, slot);
    var rk, rv := ResourceName(n - 1, parts, slot), Node(n - 1, parts, slot);
    var ak, av := AnyMethodName(n - 1, parts, slot), AnyMethod(n - 1, parts, timeout, auth, slot);
    assert WildcardPathWrites(parts, n, timeout, auth, slot) == init + [Put(rk, rv), Put(ak, av)];
    NodeIsNotMethod(LogicalName(n - 1, parts), LogicalName(n - 1, parts), slot, slot);
    if idx < n - 1 {
      NamesApart(parts, idx, n - 1, slot);
      WildcardNodeValue(m0, parts, n - 1, idx, timeout, auth, slot);
      RunTwoPuts(m0, init, rk, rv, ak, av, ResourceName(idx, parts, slot), Node(idx, parts, slot));
    } else {
      RunTwoPuts(m0, init, rk, rv, ak, av, rk, rv);
    }
  }

  lemma {:induction false} WildcardMethodValue(m0: map<string, Resource>, parts: seq<string>, n: nat, idx: nat,
                                               timeout: int, auth: string, slot: nat)
    requires Separated(parts) && 1 <= idx < n <= |parts|
    ensures var t := Run(m0, WildcardPathWrites(parts, n, timeout, auth, slot));
            AnyMethodName(idx, parts, slot) in t && t[AnyMethodName(idx, parts, slot)] == AnyMethod(idx, parts, timeout, auth, slot)
    decreases n
  {
    var init := WildcardPathWrites(parts, n - 1, timeout, auth, slot);
    var rk, rv := ResourceName(n - 1, parts, slot), Node(n - 1, parts, slot);
    var ak, av := AnyMethodName(n - 1, parts, slot), AnyMethod(n - 1, parts, timeout, auth, slot);
    assert WildcardPathWrites(parts, n, timeout, auth, slot) == init + [Put(rk, rv), Put(ak, av)];
    NodeIsNotMethod(LogicalName(n - 1, parts), LogicalName(n - 1, parts), slot, slot);
    if idx < n - 1 {
      NamesApart(parts, idx, n - 1, slot);
      WildcardMethodValue(m0, parts, n - 1, idx, timeout, auth, slot);
      RunTwoPuts(m0, init, rk, rv, ak, av, AnyMethodName(idx, parts, slot), AnyMethod(idx, parts, timeout, auth, slot));
    } else {
      RunTwoPuts(m0, init, rk, rv, ak, av, ak, av);
    }
  }

  /** Names at depths i <= j of a separated path: a node is never a method,
      and names at different depths differ. */
  lemma NamesApart(parts: seq<string>, i: nat, j: nat, slot: nat)
    requires Separated(parts) && 1 <= i <= j < |parts|
    ensures ResourceName(i, parts, slot) != AnyMethodName(j, parts, slot)
    ensures ResourceName(j, parts, slot) != AnyMethodName(i, parts, slot)
    ensures i < j ==> ResourceName(i, parts, slot) != ResourceName(j, parts, slot)
    ensures i < j ==> AnyMethodName(i, parts, slot) != AnyMethodName(j, parts, slot)
  {
    NodeIsNotMethod(LogicalName(i, parts), LogicalName(j, parts), slot, slot);
    NodeIsNotMethod(LogicalName(j, parts), LogicalName(i, parts), slot, slot);
    if i < j {
      StemsGrow(parts, i, j);
      ShorterStemsDiffer(LogicalName(i, parts), LogicalName(j, parts), slot);
    }
  }

  /** Names built on stems of different lengths differ. */
  lemma ShorterStemsDiffer(x: string, y: string, s: nat)
    requires |x| < |y|
    ensures Indexed(ResourceBase + x, s) != Indexed(ResourceBase + y, s)
    ensures Indexed(MethodBase + x, s) != Indexed(MethodBase + y, s)
  {
    assert |Indexed(ResourceBase + x, s)| == |ResourceBase| + |x| + |NatToString(s)|;
    assert |Indexed(ResourceBase + y, s)| == |ResourceBase| + |y| + |NatToString(s)|;
    assert |Indexed(MethodBase + x, s)| == |MethodBase| + |x| + |NatToString(s)|;
    assert |Indexed(MethodBase + y, s)| == |MethodBase| + |y| + |NatToString(s)|;
  }

  /** The segments of an ingress path whose segments are all separated stay
      separated once the greedy leaf is added. */
  lemma WildcardPartsSeparated(path: string)
    requires Separated(Split(path, '/'))
    ensures Separated(WildcardParts(path))
  {
    ProxyStemNonEmpty();
  }

  /** The last ingress path's nodes and methods are the ones it built: its
      node at each depth hangs under the node above it, and its method there
      forwards to that depth's path. Earlier paths only lose entries whose
      names the last path reuses. */
  lemma WildcardLastPathWins(paths: seq<string>, idx: nat, timeout: int, auth: string, slot: nat)
    requires |paths| > 0 && Separated(Split(paths[|paths| - 1], '/'))
    requires 1 <= idx < |WildcardParts(paths[|paths| - 1])|
    ensures var parts := WildcardParts(paths[|paths| - 1]); var t := WildcardTree(paths, timeout, auth, slot);
            ResourceName(idx, parts, slot) in t && t[ResourceName(idx, parts, slot)] == Node(idx, parts, slot) &&
            AnyMethodName(idx, parts, slot) in t && t[AnyMethodName(idx, parts, slot)] == AnyMethod(idx, parts, timeout, auth, slot)
  {
    var parts := WildcardParts(paths[|paths| - 1]);
    var init := WildcardWrites(paths[..|paths| - 1], timeout, auth, slot);
    WildcardPartsSeparated(paths[|paths| - 1]);
    RunAppend(map[], init, WildcardPathWrites(parts, |parts|, timeout, auth, slot));
    WildcardNodeValue(Run(map[], init), parts, |parts|, idx, timeout, auth, slot);
    WildcardMethodValue(Run(map[], init), parts, |parts|, idx, timeout, auth, slot);
  }

  /** The catch-all ingress path "/" splits into two empty segments and is
      separated, so the last-path lemma covers it: its empty first level
      and its greedy leaf both hold their own node and ANY method. */
  lemma CatchAllPathWins(paths: seq<string>, timeout: int, auth: string, slot: nat)
    requires |paths| > 0 && paths[|paths| - 1] == "/"
    ensures WildcardParts("/") == ["", "", ProxySegment]
    ensures var parts := WildcardParts("/"); var t := WildcardTree(paths, timeout, auth, slot);
            forall idx :: 1 <= idx < 3 ==>
              ResourceName(idx, parts, slot) in t && t[ResourceName(idx, parts, slot)] == Node(idx, parts, slot) &&
              AnyMethodName(idx, parts, slot) in t && t[AnyMethodName(idx, parts, slot)] == AnyMethod(idx, parts, timeout, auth, slot)
  {
    assert IndexOf("/", '/') == 0;
    assert IndexOf("", '/') == 0;
    assert Split("/", '/') == ["", ""] by {
      assert "/"[..0] == "" && "/"[1..] == "";
    }
    forall idx | 1 <= idx < 3
      ensures var parts := WildcardParts("/"); var t := WildcardTree(paths, timeout, auth, slot);
              ResourceName(idx, parts, slot) in t && t[ResourceName(idx, parts, slot)] == Node(idx, parts, slot) &&
              AnyMethodName(idx, parts, slot) in t && t[AnyMethodName(idx, parts, slot)] == AnyMethod(idx, parts, timeout, auth, slot)
    {
      WildcardLastPathWins(paths, idx, timeout, auth, slot);
    }
  }

  /** In the path-driven tree, an ingress path below the root that ends in
      '/' makes a node its own parent: the empty last level reassigns its
      parent's name with an empty path part and a reference to itself, so
      the node of the last named segment is lost. "/pets/" is such a path
      (Naming.TrailingSlashSplit). */
  lemma TrailingSlashSelfParent(path: string, timeout: int, auth: string, slot: nat)
    requires |Split(path, '/')| >= 3 && Split(path, '/')[|Split(path, '/')| - 1] == ""
    ensures !Separated(Split(path, '/'))
    ensures var parts := WildcardParts(path); var e := |parts| - 2; var t := WildcardTree([path], timeout, auth, slot);
            ResourceName(e - 1, parts, slot) == ResourceName(e, parts, slot) &&
            ResourceName(e, parts, slot) in t && t[ResourceName(e, parts, slot)] == Node(e, parts, slot) &&
            t[ResourceName(e, parts, slot)].parentId == Ref(ResourceName(e, parts, slot)) &&
            t[ResourceName(e, parts, slot)].pathPart == ""
  {
    var parts := WildcardParts(path);
    var e := |parts| - 2;
    TrailingSlashNode(path, slot);
    SinglePathTree(path, timeout, auth, slot);
    TrailingSlashLastNode(parts, e, timeout, auth, slot);
  }

  /** The node of the empty last segment of such a path repeats its
      parent's name and refers to itself. */
  lemma TrailingSlashNode(path: string, slot: nat)
    requires |Split(path, '/')| >= 3 && Split(path, '/')[|Split(path, '/')| - 1] == ""
    ensures !Separated(Split(path, '/'))
    ensures var parts := WildcardParts(path); var e := |parts| - 2;
            ResourceName(e - 1, parts, slot) == ResourceName(e, parts, slot) &&
            Node(e, parts, slot).parentId == Ref(ResourceName(e, parts, slot)) && Node(e, parts, slot).pathPart == ""
  {
    var split := Split(path, '/');
    var parts := WildcardParts(path);
    var e := |parts| - 2;
    assert parts[e] == split[|split| - 1] == "";
    assert Without(split[|split| - 1], Stripped) == "";
    EmptySegmentRepeatsStem(e - 1, parts);
  }

  /** The tree of a single ingress path is the replay of that path's writes. */
  lemma SinglePathTree(path: string, timeout: int, auth: string, slot: nat)
    ensures var parts := WildcardParts(path);
            WildcardTree([path], timeout, auth, slot) == Run(map[], WildcardPathWrites(parts, |parts|, timeout, auth, slot))
  {
    var parts := WildcardParts(path);
    assert [path][..0] == [];
    assert WildcardWrites([path], timeout, auth, slot) == [] + WildcardPathWrites(parts, |parts|, timeout, auth, slot);
    assert [] + WildcardPathWrites(parts, |parts|, timeout, auth, slot) == WildcardPathWrites(parts, |parts|, timeout, auth, slot);
  }

  /** The node written at the level above the greedy leaf survives the
      leaf's two assignments. */
  lemma TrailingSlashLastNode(parts: seq<string>, e: nat, timeout: int, auth: string, slot: nat)
    requires 1 <= e && e + 2 == |parts| && parts[e + 1] == ProxySegment
    ensures var t := Run(map[], WildcardPathWrites(parts, e + 2, timeout, auth, slot));
            ResourceName(e, parts, slot) in t && t[ResourceName(e, parts, slot)] == Node(e, parts, slot)
  {
    var ws := WildcardPathWrites(parts, e + 1, timeout, auth, slot);
    LevelNodeWritten(parts, e, timeout, auth, slot);
    LeafNamesApart(parts, e, slot);
    assert WildcardPathWrites(parts, e + 2, timeout, auth, slot)
        == ws + [Put(ResourceName(e + 1, parts, slot), Node(e + 1, parts, slot)),
                 Put(AnyMethodName(e + 1, parts, slot), AnyMethod(e + 1, parts, timeout, auth, slot))];
    RunTwoPuts(map[], ws, ResourceName(e + 1, parts, slot), Node(e + 1, parts, slot),
               AnyMethodName(e + 1, parts, slot), AnyMethod(e + 1, parts, timeout, auth, slot),
               ResourceName(e, parts, slot), Node(e, parts, slot));
  }

  /** Right after its own level is written, a node holds its value. */
  lemma LevelNodeWritten(parts: seq<string>, e: nat, timeout: int, auth: string, slot: nat)
    requires 1 <= e < |parts|
    ensures var t := Run(map[], WildcardPathWrites(parts, e + 1, timeout, auth, slot));
            ResourceName(e, parts, slot) in t && t[ResourceName(e, parts, slot)] == Node(e, parts, slot)
  {
    var rk, rv := ResourceName(e, parts, slot), Node(e, parts, slot);
    var ak, av := AnyMethodName(e, parts, slot), AnyMethod(e, parts, timeout, auth, slot);
    assert WildcardPathWrites(parts, e + 1, timeout, auth, slot) == WildcardPathWrites(parts, e, timeout, auth, slot) + [Put(rk, rv), Put(ak, av)];
    NodeIsNotMethod(LogicalName(e, parts), LogicalName(e, parts), slot, slot);
    RunTwoPuts(map[], WildcardPathWrites(parts, e, timeout, auth, slot), rk, rv, ak, av, rk, rv);
  }

  /** The greedy leaf's names differ from the node above it. */
  lemma LeafNamesApart(parts: seq<string>, e: nat, slot: nat)
    requires e + 1 < |parts| && parts[e + 1] == ProxySegment
    ensures ResourceName(e, parts, slot) != ResourceName(e + 1, parts, slot)
    ensures ResourceName(e, parts, slot) != AnyMethodName(e + 1, parts, slot)
  {
    LogicalNameExtends(e, parts);
    ProxyStemNonEmpty();
    NodeIsNotMethod(LogicalName(e, parts), LogicalName(e + 1, parts), slot, slot);
    ShorterStemsDiffer(LogicalName(e, parts), LogicalName(e + 1, parts), slot);
  }

  /** The ANY method at the greedy leaf of an ingress path forwards to the
      load balancer at that path followed by "/{proxy}". */
  lemma WildcardLeafForwards(path: string, timeout: int, auth: string, slot: nat)
    ensures var parts := WildcardParts(path);
            AnyMethod(|parts| - 1, parts, timeout, auth, slot).integration.uri
              == Cfn.Join("", [Lit("http://"), GetAtt(LoadBalancerName, "DNSName"), Lit(path + "/{proxy}")])
  {
    WildcardLeafPath(path);
  }

  /** Each verb's method at the leaf of a declared resource forwards to the
      load balancer at exactly the declared path, unless the last segment
      is the greedy one. */
  lemma DeclaredLeafForwards(res: APIResource, verb: string, timeout: int, auth: string, slot: nat)
    requires var parts := Split(res.path, '/'); parts[|parts| - 1] != ProxySegment
    ensures VerbMethod(Split(res.path, '/'), verb, timeout, auth, res, slot).integration.uri
              == Cfn.Join("", [Lit("http://"), GetAtt(LoadBalancerName, "DNSName"), Lit(res.path)])
  {
    DeclaredLeafPath(res.path);
  }

  /** Two verbs at one node get different method names. */
  lemma VerbNamesApart(parts: seq<string>, u: string, v: string, slot: nat)
    requires |parts| >= 1 && VerbMethodName(parts, u, slot) == VerbMethodName(parts, v, slot)
    ensures u == v
  {
    var stem := MethodBase + LogicalName(|parts| - 1, parts);
    var a := VerbMethodName(parts, u, slot);
    assert a == stem + u + NatToString(slot);
    assert VerbMethodName(parts, v, slot) == stem + v + NatToString(slot);
    assert a[|stem|..|stem| + |u|] == u;
    assert a[|stem|..|stem| + |v|] == v;
  }

  lemma {:induction false} VerbWritesValues(m0: map<string, Resource>, parts: seq<string>, verbs: seq<string>, v: string,
                                            timeout: int, auth: string, res: APIResource, slot: nat)
    requires |parts| >= 1 && v in verbs
    ensures var t := Run(m0, VerbWrites(parts, verbs, timeout, auth, res, slot));
            VerbMethodName(parts, v, slot) in t && t[VerbMethodName(parts, v, slot)] == VerbMethod(parts, v, timeout, auth, res, slot)
    decreases |verbs|
  {
    var init := verbs[..|verbs| - 1];
    var u := verbs[|verbs| - 1];
    if VerbMethodName(parts, u, slot) == VerbMethodName(parts, v, slot) {
      VerbNamesApart(parts, u, v, slot);
    } else {
      assert v in init by { assert verbs == init + [u]; }
      VerbWritesValues(m0, parts, init, v, timeout, auth, res, slot);
    }
  }

  lemma {:induction false} VerbWritesSkipNodes(m0: map<string, Resource>, parts: seq<string>, verbs: seq<string>, x: string,
                                               timeout: int, auth: string, res: APIResource, slot: nat)
    requires |parts| >= 1
    ensures var t := Run(m0, VerbWrites(parts, verbs, timeout, auth, res, slot)); var k := Indexed(ResourceBase + x, slot);
            (k in t <==> k in m0) && (k in m0 ==> t[k] == m0[k])
    decreases |verbs|
  {
    if |verbs| > 0 {
      var u := verbs[|verbs| - 1];
      var init := VerbWrites(parts, verbs[..|verbs| - 1], timeout, auth, res, slot);
      VerbWritesSkipNodes(m0, parts, verbs[..|verbs| - 1], x, timeout, auth, res, slot);
      VerbNameIsNotNode(parts, u, x, slot);
      RunPutOther(m0, init, VerbMethodName(parts, u, slot), VerbMethod(parts, u, timeout, auth, res, slot), Indexed(ResourceBase + x, slot));
    }
  }

  /** A verb's method name is never a node name. */
  lemma VerbNameIsNotNode(parts: seq<string>, u: string, x: string, slot: nat)
    requires |parts| >= 1
    ensures Indexed(ResourceBase + x, slot) != VerbMethodName(parts, u, slot)
  {
    NodeIsNotMethod(x, LogicalName(|parts| - 1, parts) + u, slot, slot);
    assert MethodBase + LogicalName(|parts| - 1, parts) + u == MethodBase + (LogicalName(|parts| - 1, parts) + u);
  }

  lemma {:induction false} DeclaredNodeValues(m0: map<string, Resource>, res: APIResource, parts: seq<string>, n: nat, idx: nat,
                                              timeout: int, auth: string, slot: nat)
    requires Separated(parts) && 1 <= idx < n <= |parts|
    ensures var t := Run(m0, DeclaredPathWrites(res, parts, n, timeout, auth, slot));
            ResourceName(idx, parts, slot) in t && t[ResourceName(idx, parts, slot)] == Node(idx, parts, slot)
    decreases n, 1
  {
    var prev := Run(m0, DeclaredPathWrites(res, parts, n - 1, timeout, auth, slot));
    var mid := prev[ResourceName(n - 1, parts, slot) := Node(n - 1, parts, slot)];
    DeclaredStep(m0, res, parts, n - 1, timeout, auth, slot);
    NodeBeforeVerbs(m0, res, parts, n, idx, timeout, auth, slot);
    NodeSurvivesVerbs(mid, res, parts, n, idx, timeout, auth, slot);
  }

  /** Once the node at depth n - 1 is written, every node up to it holds its own value. */
  lemma {:induction false} NodeBeforeVerbs(m0: map<string, Resource>, res: APIResource, parts: seq<string>, n: nat, idx: nat,
                                           timeout: int, auth: string, slot: nat)
    requires Separated(parts) && 1 <= idx < n <= |parts|
    ensures var prev := Run(m0, DeclaredPathWrites(res, parts, n - 1, timeout, auth, slot));
            var mid := prev[ResourceName(n - 1, parts, slot) := Node(n - 1, parts, slot)];
            ResourceName(idx, parts, slot) in mid && mid[ResourceName(idx, parts, slot)] == Node(idx, parts, slot)
    decreases n, 0
  {
    if idx < n - 1 {
      DeclaredNodeValues(m0, res, parts, n - 1, idx, timeout, auth, slot);
      NamesApart(parts, idx, n - 1, slot);
    }
  }

  /** The verb methods written after the last node leave every node as it was. */
  lemma NodeSurvivesVerbs(mid: map<string, Resource>, res: APIResource, parts: seq<string>, n: nat, idx: nat,
                          timeout: int, auth: string, slot: nat)
    requires 1 <= idx < n <= |parts|
    ensures var t := Run(mid, if n == |parts| then VerbWrites(parts, res.methods, timeout, auth, res, slot) else []);
            var rn := ResourceName(idx, parts, slot);
            (rn in t <==> rn in mid) && (rn in mid ==> t[rn] == mid[rn])
  {
    if n == |parts| {
      VerbWritesSkipNodes(mid, parts, res.methods, LogicalName(idx, parts), timeout, auth, res, slot);
    }
  }

  /** The last declared resource's nodes and methods are the ones it built:
      each node hangs under the node above it, and each declared verb's
      method sits at the last node and forwards to the declared path. */
  lemma DeclaredLastResourceWins(resources: seq<APIResource>, timeout: int, auth: string, slot: nat)
    requires |resources| > 0
    requires Separated(Split(resources[|resources| - 1].path, '/'))
    ensures var res := resources[|resources| - 1]; var parts := Split(res.path, '/');
            var t := DeclaredTree(resources, timeout, auth, slot);
            (forall idx :: 1 <= idx < |parts| ==> ResourceName(idx, parts, slot) in t && t[ResourceName(idx, parts, slot)] == Node(idx, parts, slot)) &&
            (|parts| >= 2 ==> forall v :: v in res.methods ==>
               VerbMethodName(parts, v, slot) in t && t[VerbMethodName(parts, v, slot)] == VerbMethod(parts, v, timeout, auth, res, slot))
  {
    var res := resources[|resources| - 1];
    var parts := Split(res.path, '/');
    var init := DeclaredWrites(resources[..|resources| - 1], timeout, auth, slot);
    RunAppend(map[], init, DeclaredPathWrites(res, parts, |parts|, timeout, auth, slot));
    LastResourceNodes(Run(map[], init), res, parts, timeout, auth, slot);
    if |parts| >= 2 {
      LastResourceMethods(Run(map[], init), res, parts, timeout, auth, slot);
    }
  }

  lemma LastResourceNodes(m0: map<string, Resource>, res: APIResource, parts: seq<string>, timeout: int, auth: string, slot: nat)
    requires Separated(parts)
    ensures var t := Run(m0, DeclaredPathWrites(res, parts, |parts|, timeout, auth, slot));
            forall idx :: 1 <= idx < |parts| ==> ResourceName(idx, parts, slot) in t && t[ResourceName(idx, parts, slot)] == Node(idx, parts, slot)
  {
    forall idx | 1 <= idx < |parts|
      ensures var t := Run(m0, DeclaredPathWrites(res, parts, |parts|, timeout, auth, slot));
              ResourceName(idx, parts, slot) in t && t[ResourceName(idx, parts, slot)] == Node(idx, parts, slot)
    {
      DeclaredNodeValues(m0, res, parts, |parts|, idx, timeout, auth, slot);
    }
  }

  lemma LastResourceMethods(m0: map<string, Resource>, res: APIResource, parts: seq<string>, timeout: int, auth: string, slot: nat)
    requires |parts| >= 2
    ensures var t := Run(m0, DeclaredPathWrites(res, parts, |parts|, timeout, auth, slot));
            forall v :: v in res.methods ==>
              VerbMethodName(parts, v, slot) in t && t[VerbMethodName(parts, v, slot)] == VerbMethod(parts, v, timeout, auth, res, slot)
  {
    DeclaredStep(m0, res, parts, |parts| - 1, timeout, auth, slot);
    var before := Run(m0, DeclaredPathWrites(res, parts, |parts| - 1, timeout, auth, slot));
    var mid := before[ResourceName(|parts| - 1, parts, slot) := Node(|parts| - 1, parts, slot)];
    forall v | v in res.methods
      ensures var t := Run(mid, VerbWrites(parts, res.methods, timeout, auth, res, slot));
              VerbMethodName(parts, v, slot) in t && t[VerbMethodName(parts, v, slot)] == VerbMethod(parts, v, timeout, auth, res, slot)
    {
      VerbWritesValues(mid, parts, res.methods, v, timeout, auth, res, slot);
    }
  }
}

# CloudFormation synthesis for the API Gateway ingress controller

This project models the template builder of the Amazon API Gateway ingress
controller, `pkg/cloudformation/cloudformation.go`. The builder receives one
Kubernetes ingress and its settings. It produces the CloudFormation template
that fronts the cluster with an API Gateway REST API, and it also produces a
small Route53 template for the custom domain.

The model follows the builder's own structure:

- **Names** (`naming.dfy`, `text.dfy`):
  - logical names are joined path segments with `{ } + - * _` removed;
  - method paths, with `{proxy+}` written as `{proxy}`;
  - JSON-pointer resource paths for method settings;
  - decimal slot suffixes such as `RestAPI0` and `Deployment1`.
- **Resource trees** (`tree.dfy`): the two per-slot builders of `Resource…`
  and `Method…` entries.
  - One builder works from the ingress backend paths. It appends a
    `{proxy+}` leaf and adds an `ANY` method at every level.
  - The other works from declared API resources. It adds one method per
    declared verb at the leaf.
  - Both are methods with loops, proved equal to a replay of the map
    assignments they make.
- **Gateway resources** (`methods.dfy`, `deployment.dfy`, `features.dfy`):
  - the method and its request-parameter maps;
  - the deployment, with its sorted dependencies and its per-method cache
    settings;
  - the REST API and its resource policy;
  - the Lambda or Cognito authorizer;
  - the custom domain and its base path mappings;
  - the WAF web ACL and its association;
  - usage plans with per-path throttles, API keys, and key-to-plan mappings.
- **The composer** (`composer.dfy`): the main builder. It works in this
  order:
  1. it fills in default settings;
  2. it adds the shared resources;
  3. it then adds, for each API slot, the tree, the REST API, the
     authorizer, the deployment, the base path mapping, the WAF association
     and the usage plans;
  4. it then adds the load balancer and the VPC link;
  5. finally it adds the stack outputs.

  A `Template` object holds the `Resources` and `Outputs` sections as maps.
  Every assignment to a section is also recorded in a ghost log.
  `BuildTemplate` is proved to log exactly `ResourceWrites(cfg)` and
  `OutputWrites(cfg)`. These are specification functions that list the
  builder's assignments in program order.
- **Facts about the result** (`tree_facts.dfy`, `composer_facts.dfy`) are
  stated about the replay of those logs, where the last assignment to a
  name wins. They cover:
  - which names can occur;
  - which resources exist, and for which settings;
  - which resource survives when two assignments share a name;
  - which references point at nothing.

The builder's quirks are modelled as written and exhibited by lemmas:

- A base path mapping with a non-empty base path refers to the unindexed
  `RestAPI`. Every mapping depends on the unindexed `Deployment`. Neither
  name is ever a resource.
- The WAF association depends on `WAFAcl<slot>`, but the ACL is stored
  under `WAFAcl`, so `WAFAcl<slot>` is never a resource.
- Every WAF association attaches to a stage of the unindexed `RestAPI`,
  which is never a resource; each slot's API is `RestAPI<slot>`.
- The WAF association output is added whenever association is requested,
  even when WAF is disabled. In that case it references a resource that
  does not exist.
- Every usage plan of a slot is stored under `UsagePlan<slot>`, so only the
  last plan survives. Plan j's key mappings refer to `UsagePlan<j>`.
- A key mapping refers to `APIKey` + slot + plan + key. The key itself is
  stored as `APIKey` + plan + key + slot.
- When the first declared API resource has no verbs, the method settings
  keep a zero entry at index 0.
- A forwarded header parameter named `Accept-Encoding` overrides the forced
  `'identity'` integration header.
- The authorizer is named after the API definition's name, not after its
  authorizer name.
- A negative minimum compression size gives the REST API the open policy
  even when IAM authorization is on.
- Several naming collisions are possible:
  - the throttle keys of `/a` and `/a/`;
  - the logical names of `/ab` and `/a/b`;
  - a path ending in `/`, such as `/pets/`: its empty last segment gets the
    logical name of the segment above it, so in the path-driven tree that
    node is reassigned with an empty path part and itself as its parent;
  - the resource paths of `/` and `~1`, because `~` is not escaped as
    section 3 of RFC 6901 requires;
  - API key names such as plan 1 key 11 and plan 11 key 1.

## Model

| member | source | states |
|---|---|---|
| Text.NatToString | pkg/cloudformation/cloudformation.go:103 | the decimal rendering used for every slot suffix is non-empty and all digits |
| Text.ParseNatToString | pkg/cloudformation/cloudformation.go:103 | reading the decimal rendering back gives the number (round trip) |
| Text.NatToStringInjective | pkg/cloudformation/cloudformation.go:103 | distinct numbers render differently |
| Text.IntToString | pkg/cloudformation/cloudformation.go:858 | a rendered integer is non-empty, starts with '-' exactly when it is negative, and is all digits after the sign |
| Text.ParseIntToString | pkg/cloudformation/cloudformation.go:858 | reading a rendered integer back gives the integer (round trip), so the RequestTimeout and MinimumCompressionSize outputs carry the configured values |
| Text.IntToStringInjective | pkg/cloudformation/cloudformation.go:858 | distinct integers render differently |
| Text.JoinSnoc | pkg/cloudformation/cloudformation.go:83-88 | joining one more segment appends the separator and the segment |
| Text.JoinPrefix | pkg/cloudformation/cloudformation.go:83-88 | joining a prefix of the segments gives a prefix of the whole join |
| Text.IndexOf | pkg/cloudformation/cloudformation.go:94 | returns the first occurrence of the separator, or the length when there is none |
| Text.Split | pkg/cloudformation/cloudformation.go:94 | splitting gives at least one piece, and no piece contains the separator |
| Text.JoinSplit | pkg/cloudformation/cloudformation.go:94 | joining the pieces of a split with the separator gives back the string |
| Text.SplitJoin | pkg/cloudformation/cloudformation.go:94 | splitting a join of separator-free pieces gives back the pieces |
| Text.ReplaceCharRemoves | pkg/cloudformation/cloudformation.go:274 | after replacing a character by a text that lacks it, the character is gone |
| Text.Without | pkg/cloudformation/cloudformation.go:76-79 | removing a set of characters leaves none of them and never lengthens the string |
| Text.WithoutConcat | pkg/cloudformation/cloudformation.go:75-79 | removing characters distributes over concatenation |
| Text.RemoveAfterWithout | pkg/cloudformation/cloudformation.go:77-79 | each further strings.Replace round removes one more character from the set |
| Naming.Indexed | pkg/cloudformation/cloudformation.go:101-104 | a slot-suffixed name strictly extends its base |
| Naming.IndexedStartsWith | pkg/cloudformation/cloudformation.go:101-104 | a slot-suffixed name of base + stem starts with the base |
| Naming.IndexedInjective | pkg/cloudformation/cloudformation.go:101-104 | two slots give the same suffixed name only if they are the same slot |
| Naming.LogicalName | pkg/cloudformation/cloudformation.go:74-81 | a logical name contains none of the six stripped characters |
| Naming.ToLogicalName | pkg/cloudformation/cloudformation.go:74-81 | the replace loop computes the logical name of the first idx+1 segments |
| Naming.LogicalNameExtends | pkg/cloudformation/cloudformation.go:74-81 | the next level's logical name is this level's plus the stripped next segment |
| Naming.LogicalNameOfPrefix | pkg/cloudformation/cloudformation.go:75 | the logical name depends only on the first idx+1 segments |
| Naming.LogicalNamesCollide | pkg/cloudformation/cloudformation.go:74-81 | the paths /ab and /a/b get the same logical name "ab" |
| Naming.EmptySegmentRepeatsStem | pkg/cloudformation/cloudformation.go:74-81 | an empty segment adds nothing to the logical name, so the level below it repeats its parent's name |
| Naming.TrailingSlashSplit | pkg/cloudformation/cloudformation.go:94 | "/pets/" splits into a root, "pets" and an empty last segment |
| Naming.ProxyStemNonEmpty | pkg/cloudformation/cloudformation.go:76-79 | the greedy segment {proxy+} keeps a non-empty stem once the deleted characters are dropped |
| Naming.ToPath | pkg/cloudformation/cloudformation.go:83-88 | a {proxy+} segment is rendered as a trailing /{proxy} |
| Naming.ToPathIsPrefix | pkg/cloudformation/cloudformation.go:87 | a method path at a non-proxy level is a prefix of the full path |
| Naming.WildcardLeafPath | pkg/cloudformation/cloudformation.go:120-122 | the appended proxy leaf's method path is the ingress path plus /{proxy} |
| Naming.DeclaredLeafPath | pkg/cloudformation/cloudformation.go:106-108 | the method path toPath computes at a declared resource's leaf is exactly its declared path, unless the last segment is {proxy+} |
| Naming.BuildResourcePath | pkg/cloudformation/cloudformation.go:273-277 | the settings path is '/' followed by a text with no '/' |
| Naming.ResourcePathRoundTrip | pkg/cloudformation/cloudformation.go:273-277 | for paths without '~', unescaping the settings path gives back the path |
| Naming.EscapeRoundTrip | pkg/cloudformation/cloudformation.go:274 | for text without '~', unescaping "~1" undoes the '/' escape |
| Naming.ResourcePathCollision | pkg/cloudformation/cloudformation.go:273-277 | "/" and "~1" get the same settings path "/~1" because '~' is not escaped |
| Order.LeTotal | pkg/cloudformation/cloudformation.go:316 | the byte-wise string order used by sort.Strings is total |
| Order.LeTrans | pkg/cloudformation/cloudformation.go:316 | the string order is transitive |
| Order.LeAntisym | pkg/cloudformation/cloudformation.go:316 | the string order is antisymmetric |
| Order.SortedUnique | pkg/cloudformation/cloudformation.go:312-317 | two sorted sequences with the same elements are equal, so the input order cannot matter |
| Order.SortedOf | pkg/cloudformation/cloudformation.go:316-317 | the sorted arrangement of a multiset is sorted and has exactly its elements |
| Order.SortInPlace | pkg/cloudformation/cloudformation.go:316 | the array sort leaves the array sorted and a permutation of its old contents |
| Order.Swap | pkg/cloudformation/cloudformation.go:316 | a swap exchanges two cells, keeps the rest and keeps the elements |
| Order.SortStrings | pkg/cloudformation/cloudformation.go:316-317 | sorting returns the unique sorted permutation of the input |
| Resources.Template.constructor | pkg/cloudformation/cloudformation.go:691 | a new template has empty Resources and Outputs sections |
| Resources.Template.SetResource | pkg/cloudformation/cloudformation.go:739 | assigning a resource overwrites that name only and logs the assignment |
| Resources.Template.SetOutput | pkg/cloudformation/cloudformation.go:861 | assigning an output overwrites that name only and logs the assignment |
| Deployments.Setting | pkg/cloudformation/cloudformation.go:283-287 | a method setting carries the verb, the resource's caching flag and its escaped path, and is never the zero setting |
| Deployments.VerbSettings | pkg/cloudformation/cloudformation.go:282-288 | one setting per verb of a resource, in verb order |
| Deployments.AllSettings | pkg/cloudformation/cloudformation.go:281-297 | one setting per declared (resource, verb) pair |
| Deployments.Accumulated | pkg/cloudformation/cloudformation.go:280-296 | the settings slice holds one entry per verb, plus the zero entry when the first resource has no verbs |
| Deployments.MethodSettings | pkg/cloudformation/cloudformation.go:279-298 | the settings list is never empty |
| Deployments.AllSettingsAt | pkg/cloudformation/cloudformation.go:281-296 | the setting of verb j of resource i sits at that pair's position in resource-major order |
| Deployments.AllSettingsFrom | pkg/cloudformation/cloudformation.go:281-296 | every setting comes from some declared (resource, verb) pair |
| Deployments.MethodSettingsShape | pkg/cloudformation/cloudformation.go:279-298 | without caching or resources the list is the single zero setting; otherwise each declared pair is at its offset position |
| Deployments.LeadingZero | pkg/cloudformation/cloudformation.go:289-293 | entry 0 is the zero setting exactly when caching is off, there are no resources, or the first resource has no verbs |
| Deployments.SettingsAreDeclared | pkg/cloudformation/cloudformation.go:279-298 | every entry other than a leading zero entry is the setting of a declared pair |
| Deployments.SettingsStep | pkg/cloudformation/cloudformation.go:289-293 | the first pair overwrites index 0, and every later pair is appended |
| Deployments.BuildMethodSettings | pkg/cloudformation/cloudformation.go:279-298 | the nested loop computes the specified method settings |
| Deployments.AddResourceSettings | pkg/cloudformation/cloudformation.go:282-296 | one pass of the outer loop adds one resource's verbs to the settings |
| Deployments.DeploymentOf | pkg/cloudformation/cloudformation.go:300-320 | the deployment targets RestAPI<slot>, copies the stage and cache settings, and depends on the sorted permutation of the method names |
| Deployments.BuildDeployment | pkg/cloudformation/cloudformation.go:300-320 | the builder, which sorts in place, gives the specified deployment |
| Deployments.DeploymentOrderIrrelevant | pkg/cloudformation/cloudformation.go:312-317 | method names collected in any order give the same deployment |
| Deployments.StageArnOf | pkg/cloudformation/cloudformation.go:263 | a stage ARN is a substitution string ending in /stages/ and the stage |
| Deployments.StageArnInjective | pkg/cloudformation/cloudformation.go:263 | different API names give different stage ARNs |
| Deployments.StageArnLonger | pkg/cloudformation/cloudformation.go:263 | a longer API name gives a longer stage ARN |
| Deployments.StageArn | pkg/cloudformation/cloudformation.go:263 | the association's ARN names the unindexed RestAPI, and differs from the stage ARN of every slot's RestAPI<slot> |
| Deployments.WafAssociationOf | pkg/cloudformation/cloudformation.go:260-271 | the association uses the unindexed WAFAcl's Arn, attaches to a stage of the unindexed RestAPI, and depends on Deployment<slot> and WAFAcl<slot>, sorted |
| Deployments.WafAssociationSameTarget | pkg/cloudformation/cloudformation.go:263 | every slot's association attaches to the same stage ARN, never the one of its own slot's API |
| Deployments.BuildWafAssociation | pkg/cloudformation/cloudformation.go:260-271 | the builder, which sorts its two dependencies, gives the specified association |
| Deployments.WafAssociationAclNameDiffers | pkg/cloudformation/cloudformation.go:266 | the association does not depend on WAFAcl, the name the ACL is stored under |
| Features.RestApiOf | pkg/cloudformation/cloudformation.go:149-229 | the REST API uses HEADER key sources, the given endpoint type and the given name |
| Features.RestApiShapes | pkg/cloudformation/cloudformation.go:149-229 | the policy names the ARNs iff IAM authorization is on and the compression size is not negative (otherwise it is open to all); the size is kept only when positive |
| Features.NegativeSizeOpensPolicy | pkg/cloudformation/cloudformation.go:170 | with IAM authorization and a negative compression size, the policy is open to all |
| Features.AuthorizerUriOf | pkg/cloudformation/cloudformation.go:611 | the authorizer URI is a five-part join that embeds the function ARN |
| Features.AuthorizerOf | pkg/cloudformation/cloudformation.go:594-633 | the authorizer targets RestAPI<slot> and copies the type, auth type, identity source and the definition's name |
| Features.AuthorizerShapes | pkg/cloudformation/cloudformation.go:594-633 | the TTL defaults to 300; Cognito authorizers have provider ARNs and no credentials or URI; TOKEN authorizers copy the validation expression; other types copy the auth type into it |
| Features.AuthorizerNameIgnored | pkg/cloudformation/cloudformation.go:603 | the configured authorizer name never reaches the authorizer when it differs from the definition's name |
| Features.BasePathMappingOf | pkg/cloudformation/cloudformation.go:469-488 | an empty base path maps RestAPI<slot>, any other maps the unindexed RestAPI; the mapping depends on the unindexed Deployment |
| Features.BasePathMappingUnindexed | pkg/cloudformation/cloudformation.go:478-483 | a non-empty base path never maps the slot's own API |
| Features.CustomDomainOf | pkg/cloudformation/cloudformation.go:490-509 | regional domains take the regional certificate and the TLS policy; the other endpoint types take the edge certificate and no policy |
| Features.WebAclOf | pkg/cloudformation/cloudformation.go:233-258 | the ACL is named after the stack; its rules are the decoded JSON, or none when the JSON is empty or does not decode |
| Features.ThrottleKey | pkg/cloudformation/cloudformation.go:644-648 | every throttle key ends in ANY |
| Features.ThrottleKeyForm | pkg/cloudformation/cloudformation.go:644-648 | the key is the path without one trailing '/', followed by /ANY |
| Features.ThrottleKeySame | pkg/cloudformation/cloudformation.go:644-648 | two paths share a throttle key iff they agree once one trailing '/' is dropped |
| Features.ThrottleKeysCollide | pkg/cloudformation/cloudformation.go:644-648 | /pets and /pets/ both throttle under /pets/ANY |
| Features.ThrottleWrites | pkg/cloudformation/cloudformation.go:637-650 | one assignment per throttling parameter, in order, under its key |
| Features.ThrottleMapContents | pkg/cloudformation/cloudformation.go:636-651 | a key is in the throttle map iff some parameter produces it, and it holds the last such parameter's limits |
| Features.ApiStagesOf | pkg/cloudformation/cloudformation.go:653-661 | one API stage for RestAPI<slot> and the stage, holding the throttle map |
| Features.BuildMethodThrottling | pkg/cloudformation/cloudformation.go:635-662 | the loop builds the specified API stage |
| Features.ThrottleWritesSnoc | pkg/cloudformation/cloudformation.go:638-650 | one loop round adds one assignment |
| Features.UsagePlanOf | pkg/cloudformation/cloudformation.go:542-562 | the plan keeps its name, throttles its slot's stage and depends on the unindexed Deployment |
| Features.ApiKeyOf | pkg/cloudformation/cloudformation.go:531-537 | an API key is enabled, is named after the key with the slot appended, and copies the customer fields |
| Features.BuildApiKeys | pkg/cloudformation/cloudformation.go:526-540 | one key resource per configured key, in order |
| Features.KeyMappingOf | pkg/cloudformation/cloudformation.go:515-521 | a mapping refers to APIKey+slot+plan+key and to UsagePlan<plan> |
| Features.BuildKeyMappings | pkg/cloudformation/cloudformation.go:511-524 | one mapping per configured key, in order |
| Features.KeyRefOrder | pkg/cloudformation/cloudformation.go:518 | for slot 1, the key is stored as APIKey001 but its mapping refers to APIKey100 |
| Features.ApiKeyNamesCollide | pkg/cloudformation/cloudformation.go:811 | plan 1 key 11 and plan 11 key 1 get the same key name APIKey1110 |
| Methods.IntegrationVarInjective | pkg/cloudformation/cloudformation.go:406-409 | integration variable names of the three kinds determine kind and parameter |
| Methods.DeclareRequest | pkg/cloudformation/cloudformation.go:406-411 | declaring parameters adds their method variables, all marked required |
| Methods.DeclareIntegrationKeys | pkg/cloudformation/cloudformation.go:406-411 | declaring parameters adds exactly their integration variables |
| Methods.DeclareForwards | pkg/cloudformation/cloudformation.go:406-411 | each declared parameter's integration variable forwards its method variable |
| Methods.DeclareKeeps | pkg/cloudformation/cloudformation.go:406-427 | integration entries the parameters do not name are left unchanged |
| Methods.DeclareParams | pkg/cloudformation/cloudformation.go:406-411 | the parameter loop computes the specified maps |
| Methods.ProxyRequired | pkg/cloudformation/cloudformation.go:399-400 | the proxy path variable is always requested, and every request parameter is required |
| Methods.ProxyForwarded | pkg/cloudformation/cloudformation.go:401-402 | the proxy path is always forwarded |
| Methods.AcceptEncoding | pkg/cloudformation/cloudformation.go:399-429 | Accept-Encoding is forced to 'identity' unless a declared header parameter of that name overrides it |
| Methods.DeclaredForwarded | pkg/cloudformation/cloudformation.go:404-429 | for a declared resource, every path, query and header parameter is requested and forwarded |
| Methods.RequestKeys | pkg/cloudformation/cloudformation.go:399-429 | the request map holds exactly the proxy variable and the declared parameters; without a path, only the two fixed entries exist |
| Methods.NotOfKind | pkg/cloudformation/cloudformation.go:405-428 | parameters of one kind never write another kind's integration variable |
| Methods.HeaderOverwrite | pkg/cloudformation/cloudformation.go:421-427 | a header parameter touches the Accept-Encoding entry iff it is named Accept-Encoding |
| Methods.MethodResource | pkg/cloudformation/cloudformation.go:390-452 | an API key is required iff authorization is not AWS_IAM; the method targets RestAPI<slot>, depends on the load balancer and carries the computed parameter maps |
| Methods.BuildMethod | pkg/cloudformation/cloudformation.go:390-452 | the builder gives the specified method |
| Trees.BuildResource | pkg/cloudformation/cloudformation.go:141-147 | a path resource belongs to RestAPI<slot> |
| Trees.WildcardParts | pkg/cloudformation/cloudformation.go:119-122 | an ingress path's segments end with the appended {proxy+} |
| Trees.MapFromPaths | pkg/cloudformation/cloudformation.go:117-139 | the loop builds the replay of the path-driven tree's assignments |
| Trees.WildcardWritesSnoc | pkg/cloudformation/cloudformation.go:119-137 | one more ingress path adds its own assignments after the earlier ones |
| Trees.AddWildcardPath | pkg/cloudformation/cloudformation.go:121-137 | the inner loop applies one path's assignments |
| Trees.WildcardStep | pkg/cloudformation/cloudformation.go:123-135 | each level assigns its resource node, then its ANY method |
| Trees.MapFromDeclared | pkg/cloudformation/cloudformation.go:90-115 | the loop builds the replay of the declared tree's assignments |
| Trees.AddDeclaredPath | pkg/cloudformation/cloudformation.go:94-111 | the inner loop applies one declared resource's assignments |
| Trees.AddVerbs | pkg/cloudformation/cloudformation.go:106-110 | the verb loop applies one method per verb at the leaf |
| Trees.DeclaredStep | pkg/cloudformation/cloudformation.go:95-111 | each level assigns its node; the last level then assigns its verbs |
| Trees.VerbStep | pkg/cloudformation/cloudformation.go:107-109 | each verb assigns its own method name |
| TreeFacts.WellFormedRun | pkg/cloudformation/cloudformation.go:90-139 | a tree built from well-formed assignments maps Resource… names to nodes and Method… names to methods |
| TreeFacts.WildcardPathWritesWellFormed | pkg/cloudformation/cloudformation.go:123-136 | one ingress path makes only well-formed assignments |
| TreeFacts.WildcardWritesWellFormed | pkg/cloudformation/cloudformation.go:119-137 | all ingress paths make only well-formed assignments |
| TreeFacts.WildcardTreeWellFormed | pkg/cloudformation/cloudformation.go:117-139 | the path-driven tree is well formed |
| TreeFacts.VerbWritesShape | pkg/cloudformation/cloudformation.go:106-110 | every verb assignment is a leaf method of its declared resource |
| TreeFacts.DeclaredPathWritesShape | pkg/cloudformation/cloudformation.go:95-111 | a declared resource's assignments are well formed, and its methods are its leaf methods |
| TreeFacts.DeclaredWritesShape | pkg/cloudformation/cloudformation.go:93-112 | every declared assignment is well formed, and every method comes from some declared resource |
| TreeFacts.DeclaredTreeShape | pkg/cloudformation/cloudformation.go:90-115 | the declared tree is well formed, and each of its methods is a leaf method of a declared resource |
| TreeFacts.WildcardPathWritesHave | pkg/cloudformation/cloudformation.go:123-136 | every level of an ingress path assigns its node and its ANY method |
| TreeFacts.WildcardPathWritesAt | pkg/cloudformation/cloudformation.go:123-134 | an ingress path's writes come two per level, node then ANY method, in depth order |
| TreeFacts.WildcardWritesHave | pkg/cloudformation/cloudformation.go:119-137 | every level of every ingress path is assigned |
| TreeFacts.WildcardTreeCovers | pkg/cloudformation/cloudformation.go:117-139 | the path-driven tree has a node and an ANY method for every level of every path |
| TreeFacts.VerbWritesHave | pkg/cloudformation/cloudformation.go:107-109 | every declared verb is assigned a method |
| TreeFacts.DeclaredPathWritesHave | pkg/cloudformation/cloudformation.go:95-111 | every level's node is assigned, and at the leaf every verb's method |
| TreeFacts.DeclaredWritesHave | pkg/cloudformation/cloudformation.go:93-112 | every declared resource's levels and verbs are assigned |
| TreeFacts.DeclaredTreeCovers | pkg/cloudformation/cloudformation.go:90-115 | the declared tree has every level's node and every declared verb's method |
| TreeFacts.StemsGrow | pkg/cloudformation/cloudformation.go:74-81 | when no segment below level 1 is emptied by stripping, logical names grow strictly from level 1 down |
| TreeFacts.NodeIsNotMethod | pkg/cloudformation/cloudformation.go:103-108 | a node name never equals a method name |
| TreeFacts.WildcardNodeValue | pkg/cloudformation/cloudformation.go:133 | within one ingress path, each level's node survives the later assignments |
| TreeFacts.WildcardMethodValue | pkg/cloudformation/cloudformation.go:134 | within one ingress path, each level's ANY method survives the later assignments |
| TreeFacts.NamesApart | pkg/cloudformation/cloudformation.go:133-134 | the names of different levels of one separated path are distinct; the catch-all path "/" is separated |
| TreeFacts.ShorterStemsDiffer | pkg/cloudformation/cloudformation.go:103 | logical names of different lengths give different node and method names |
| TreeFacts.WildcardPartsSeparated | pkg/cloudformation/cloudformation.go:120-122 | appending {proxy+} keeps the segments separated |
| TreeFacts.WildcardLastPathWins | pkg/cloudformation/cloudformation.go:119-137 | the last ingress path's nodes and methods hold that path's values in the tree |
| TreeFacts.CatchAllPathWins | pkg/cloudformation/cloudformation.go:119-137 | when the last ingress path is the catch-all "/", its empty first level and its greedy leaf hold their own node and ANY method |
| TreeFacts.TrailingSlashSelfParent | pkg/cloudformation/cloudformation.go:119-137 | an ingress path below the root that ends in '/' leaves in the tree a node that is its own parent, with an empty path part, under the name of the last named segment |
| TreeFacts.TrailingSlashNode | pkg/cloudformation/cloudformation.go:127-133 | the empty last segment's node repeats its parent's name and refers to itself |
| TreeFacts.TrailingSlashLastNode | pkg/cloudformation/cloudformation.go:133-134 | the node above the greedy leaf survives the leaf's assignments |
| TreeFacts.SinglePathTree | pkg/cloudformation/cloudformation.go:117-139 | the tree of one ingress path is the replay of that path's assignments |
| TreeFacts.LevelNodeWritten | pkg/cloudformation/cloudformation.go:133-134 | right after its level is written, a node holds its value |
| TreeFacts.LeafNamesApart | pkg/cloudformation/cloudformation.go:122-134 | the greedy leaf's names differ from the node above it |
| TreeFacts.WildcardLeafForwards | pkg/cloudformation/cloudformation.go:121-134 | the ANY method at the greedy leaf forwards to the load balancer at the ingress path plus /{proxy} |
| TreeFacts.DeclaredLeafForwards | pkg/cloudformation/cloudformation.go:106-108 | each verb's method at a declared leaf forwards to the load balancer at exactly the declared path, unless the last segment is {proxy+} |
| TreeFacts.VerbNamesApart | pkg/cloudformation/cloudformation.go:108 | different verbs at one leaf get different method names |
| TreeFacts.VerbWritesValues | pkg/cloudformation/cloudformation.go:107-109 | every declared verb's method holds that verb's method |
| TreeFacts.VerbWritesSkipNodes | pkg/cloudformation/cloudformation.go:107-109 | verb assignments leave every node untouched |
| TreeFacts.VerbNameIsNotNode | pkg/cloudformation/cloudformation.go:104-108 | a verb's method name is never a node name |
| TreeFacts.DeclaredNodeValues | pkg/cloudformation/cloudformation.go:104 | within one declared resource, each level's node survives |
| TreeFacts.NodeBeforeVerbs | pkg/cloudformation/cloudformation.go:104-106 | the leaf's node assignment keeps the earlier levels' nodes |
| TreeFacts.NodeSurvivesVerbs | pkg/cloudformation/cloudformation.go:106-110 | the leaf's verbs keep every level's node |
| TreeFacts.DeclaredLastResourceWins | pkg/cloudformation/cloudformation.go:93-112 | the last declared resource's nodes and verb methods hold its values in the tree |
| TreeFacts.LastResourceNodes | pkg/cloudformation/cloudformation.go:95-105 | one declared resource's nodes all hold their values afterwards |
| TreeFacts.LastResourceMethods | pkg/cloudformation/cloudformation.go:106-110 | one declared resource's verb methods all hold their values afterwards |
| Composer.ApplyDefaults | pkg/cloudformation/cloudformation.go:695-711 | after defaulting, the endpoint type is set, WAF has a scope when enabled, and caching is on iff a cache size is set |
| Composer.AuthorizationType | pkg/cloudformation/cloudformation.go:713-718 | AWS_IAM iff client ARNs are configured, NONE otherwise |
| Composer.ApiSize | pkg/cloudformation/cloudformation.go:720-725 | one slot per API definition, and at least one slot |
| Composer.MethodNames | pkg/cloudformation/cloudformation.go:761-766 | the names of a tree's method entries, and only those |
| Composer.SlotRestApi | pkg/cloudformation/cloudformation.go:768-777 | the slot's REST API resource |
| Composer.SlotLogs | pkg/cloudformation/cloudformation.go:751-847 | one assignment list per slot, each the slot's own assignments |
| Composer.BuildTemplate | pkg/cloudformation/cloudformation.go:690-922 | the builder returns the defaulted configuration and a template whose sections are the replay of exactly the specified resource and output assignments |
| Composer.WithDefaults | pkg/cloudformation/cloudformation.go:695-711 | the in-place defaulting gives the specified defaults |
| Composer.AddSlots | pkg/cloudformation/cloudformation.go:751-847 | the slot loop appends every slot's assignments in slot order and no outputs |
| Composer.AddSuffixResources | pkg/cloudformation/cloudformation.go:849-853 | the load balancer and the VPC link are added last |
| Composer.AddSharedResources | pkg/cloudformation/cloudformation.go:727-749 | the domain, the fixed resources, the ingresses and the WAF ACL are added first |
| Composer.AddFixedResources | pkg/cloudformation/cloudformation.go:732-739 | the role, the target group and the listener are added |
| Composer.AddSlot | pkg/cloudformation/cloudformation.go:752-846 | one slot appends its core, then its extra assignments |
| Composer.MergeTree | pkg/cloudformation/cloudformation.go:761-766 | the tree is merged into the resources, and the collected names are exactly its method names, once each |
| Composer.MergeStart | pkg/cloudformation/cloudformation.go:761-766 | the merge invariant holds before the first key |
| Composer.MergeStep | pkg/cloudformation/cloudformation.go:761-766 | handling any remaining key keeps the merge invariant, collecting it iff it is a method |
| Composer.MergeDone | pkg/cloudformation/cloudformation.go:761-766 | when no key remains, the resources are the union and the names are the method names |
| Composer.AddSlotCore | pkg/cloudformation/cloudformation.go:753-786 | the tree, the REST API, the authorizer and the deployment are appended |
| Composer.BuildSlotTree | pkg/cloudformation/cloudformation.go:753-759 | the declared resources decide the tree when present, the ingress paths otherwise |
| Composer.AddRestApi | pkg/cloudformation/cloudformation.go:768-783 | RestAPI<slot> is assigned, then the authorizer when the definition enables it |
| Composer.AddDeployment | pkg/cloudformation/cloudformation.go:785-786 | Deployment<slot> is assigned, depending on the sorted method names |
| Composer.AddSlotExtras | pkg/cloudformation/cloudformation.go:788-845 | the base path mapping, the WAF association and the usage plans are appended |
| Composer.AddBasePathMapping | pkg/cloudformation/cloudformation.go:788-796 | with a custom domain, the slot's base path mapping is added, using the definition's context when definitions exist |
| Composer.AddWafAssociation | pkg/cloudformation/cloudformation.go:798-803 | WAFAssociation<slot> is assigned |
| Composer.AddPlans | pkg/cloudformation/cloudformation.go:805-845 | the plan loop appends every plan's assignments in order |
| Composer.AddPlan | pkg/cloudformation/cloudformation.go:808-818 | one plan appends its keys, the slot's plan and its mappings |
| Composer.AddKeys | pkg/cloudformation/cloudformation.go:809-812 | each key is assigned under APIKey+plan+key+slot |
| Composer.AddMappings | pkg/cloudformation/cloudformation.go:814-817 | each mapping is assigned under APIKeyUsagePlan+plan+key+slot |
| Composer.AddOutputs | pkg/cloudformation/cloudformation.go:855-919 | the outputs are exactly the specified output assignments, and no resources change |
| Composer.AddSlotOutputs | pkg/cloudformation/cloudformation.go:860-867 | one slot's id, endpoint and (if requested) association outputs |
| Composer.AddConfigOutputs | pkg/cloudformation/cloudformation.go:869-891 | the plan, ARN, compression, definition and WAF outputs, in order |
| Composer.AddWafOutputs | pkg/cloudformation/cloudformation.go:887-891 | the three WAF outputs |
| Composer.AddDomainAndCacheOutputs | pkg/cloudformation/cloudformation.go:893-919 | the regional, edge, caching and API resource outputs, in order |
| Composer.AddDomainOutputs | pkg/cloudformation/cloudformation.go:893-909 | the six custom domain outputs, with the given host and zone attributes |
| Composer.Route53Template | pkg/cloudformation/cloudformation.go:945-961 | the record set exists iff a hosted zone is named; the four outputs are always present and copy the configuration |
| ComposerFacts.DefaultsOnlyTouch | pkg/cloudformation/cloudformation.go:695-711 | defaulting changes only the endpoint type, the WAF scope and the two caching fields, each as the four rules say |
| ComposerFacts.DefaultsIdempotent | pkg/cloudformation/cloudformation.go:695-711 | defaulting twice is defaulting once |
| ComposerFacts.SlotRestApiPolicy | pkg/cloudformation/cloudformation.go:768-777 | a slot's API grants the ARNs iff ARNs exist, the size is not negative and its definition (if any) has authentication on; it is named after the definition or the stack |
| ComposerFacts.MappingsAvoid | pkg/cloudformation/cloudformation.go:814-817 | key mappings never assign a name that does not start with 'A' |
| ComposerFacts.PlanWritesPlan | pkg/cloudformation/cloudformation.go:813 | after one plan's assignments, UsagePlan<slot> holds that plan |
| ComposerFacts.UsagePlanLastWins | pkg/cloudformation/cloudformation.go:808-818 | after all plans of a slot, UsagePlan<slot> holds the last plan only |
| ComposerFacts.IngressKeys | pkg/cloudformation/cloudformation.go:741-744 | ingresses are named SecurityGroupIngress<i> |
| ComposerFacts.SharedKeys | pkg/cloudformation/cloudformation.go:727-749 | the shared resources use only the fixed names |
| ComposerFacts.KeyWritesKeys | pkg/cloudformation/cloudformation.go:810-812 | key names are APIKey-prefixed |
| ComposerFacts.MappingWritesKeys | pkg/cloudformation/cloudformation.go:815-817 | mapping names are APIKeyUsagePlan-prefixed |
| ComposerFacts.PlansKeys | pkg/cloudformation/cloudformation.go:805-845 | plan assignments use only key, plan and mapping names |
| ComposerFacts.SlotTreeWellFormed | pkg/cloudformation/cloudformation.go:753-759 | a slot's tree holds only nodes and methods under their own prefixes |
| ComposerFacts.TreeKeys | pkg/cloudformation/cloudformation.go:761-766 | merging the tree adds only Resource… and Method… names |
| ComposerFacts.AuthorizerKey | pkg/cloudformation/cloudformation.go:781 | the authorizer name extends RestAPI |
| ComposerFacts.SlotCoreKeys | pkg/cloudformation/cloudformation.go:753-786 | a slot's core uses only the known name forms |
| ComposerFacts.SlotExtraKeys | pkg/cloudformation/cloudformation.go:788-845 | a slot's extras use only the known name forms |
| ComposerFacts.SlotLogsKeys | pkg/cloudformation/cloudformation.go:751-847 | all slots use only the known name forms |
| ComposerFacts.SuffixKeys | pkg/cloudformation/cloudformation.go:849-853 | the last two resources use fixed names |
| ComposerFacts.ResourceWritesKeys | pkg/cloudformation/cloudformation.go:727-853 | every resource assignment uses a known name form |
| ComposerFacts.AllResourceKeys | pkg/cloudformation/cloudformation.go:727-853 | every resource in the template has a known name form |
| ComposerFacts.SlotResource | pkg/cloudformation/cloudformation.go:751-847 | every name a slot assigns is in the final template |
| ComposerFacts.WafNames | pkg/cloudformation/cloudformation.go:746-803 | the only resource names starting with 'W' are WAFAcl and the association names |
| ComposerFacts.IndexedWafAclIsNoKey | pkg/cloudformation/cloudformation.go:266 | WAFAcl<slot> is not a name the builder ever assigns |
| ComposerFacts.IndexedWafAclMissing | pkg/cloudformation/cloudformation.go:266 | WAFAcl<slot>, which the association depends on, is never a resource |
| ComposerFacts.WafAclIsKey | pkg/cloudformation/cloudformation.go:746-749 | WAFAcl is assigned only when WAF is enabled |
| ComposerFacts.WafAclResource | pkg/cloudformation/cloudformation.go:746-749 | the WAF ACL is a resource iff WAF is enabled |
| ComposerFacts.UnindexedNamesMissing | pkg/cloudformation/cloudformation.go:469-488 | the unindexed RestAPI and Deployment that base path mappings refer to are never resources |
| ComposerFacts.WafAssociationIsKey | pkg/cloudformation/cloudformation.go:798-803 | an association name is assigned only when WAF and association are both enabled |
| ComposerFacts.WafAssociationResource | pkg/cloudformation/cloudformation.go:798-803 | WAFAssociation<slot> is a resource iff WAF and association are both enabled |
| ComposerFacts.WafAssociationTargetMissing | pkg/cloudformation/cloudformation.go:263 | a slot's association attaches to a stage of the unindexed RestAPI, which is never a resource, while RestAPI<slot> is |
| ComposerFacts.RestApiResource | pkg/cloudformation/cloudformation.go:768-777 | every slot's REST API is a resource |
| ComposerFacts.SlotsOutputMember | pkg/cloudformation/cloudformation.go:860-867 | an output assignment of the slot loop comes from exactly some slot |
| ComposerFacts.DomainOutputsShape | pkg/cloudformation/cloudformation.go:893-909 | the domain outputs use fixed output names |
| ComposerFacts.TailOutputsShape | pkg/cloudformation/cloudformation.go:869-919 | the outputs after the slot loop use fixed output names |
| ComposerFacts.OutputShape | pkg/cloudformation/cloudformation.go:855-919 | every output has a fixed name or comes from some slot |
| ComposerFacts.SlotOutputKeys | pkg/cloudformation/cloudformation.go:860-867 | RestAPIID<slot> and WAFAssociation<slot> are assigned only by that slot, with a reference to its own resource |
| ComposerFacts.RestApiIdOutput | pkg/cloudformation/cloudformation.go:861 | every slot's RestAPIID output references RestAPI<slot> |
| ComposerFacts.WafAssociationOutput | pkg/cloudformation/cloudformation.go:864-866 | the WAFAssociation<slot> output exists iff association is requested, whatever the WAF setting |
| ComposerFacts.DanglingWafAssociationOutput | pkg/cloudformation/cloudformation.go:864-866 | with association requested and WAF disabled, the output references a resource that does not exist |

## Left out

- Serialisation: the template is kept as maps of typed values. CloudFormation
  JSON and YAML encoding is not modelled. The three outputs that hold
  `json.Marshal` renderings (lines 870, 883 and 917) are symbolic
  constructors that carry the configuration they render.
- Resource properties are reduced to the fields the builder sets. The
  goformation structs, their tags and their omitted-empty behaviour are not
  modelled.
- The fixed-content builders are modelled as constant resources without
  their literal contents, because nothing in them depends on the input. They
  are the listener, load balancer, target group and VPC link (lines
  322-388) and the Lambda execution role (564-592). Only the inputs they
  copy are kept. The Route53 record set (924-934) keeps its four inputs;
  its fixed record type "A" is not modelled.
- The WAF rule JSON is decoded by a parameter
  (`parse: string -> Option<seq<WafRule>>`). It stands for `json.Unmarshal`
  at line 252, whose decoder is not part of this model.
- Kubernetes and network inputs are reduced to plain fields. The ingress
  rule becomes its list of backend paths. The VPC, its CIDR block, the
  subnets, the security groups and the instances become strings. Nil
  pointers are not modelled.
- Go's map iteration order at line 761 is not modelled. The merge takes the
  keys in an arbitrary order, chosen by `:|`. The proofs show that the order
  cannot change the result, because the names are sorted afterwards.
- The `*TemplateConfig` argument is updated in place by the builder. It is
  modelled as a value in and the defaulted value out.
- Composer.SlotRestApi: its own contract only says that it builds a REST
  API. Its policy and name are stated by ComposerFacts.SlotRestApiPolicy.
- Integer widths: Go `int` fields are unbounded integers here. Overflow of
  the TTL, the quotas or the timeouts is not modelled.

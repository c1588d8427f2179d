/** The stub population steps of GraphBuilder.build(), as functions on the store.

    Every step is a fixed sequence of add_node / add_edge calls; the first call
    that raises ends build() with the store as that call left it. */
module Population {
  import opened Graph

  /** The subscription argument: the text "all", any other text (iterated
      character by character, as list() does to a string), or a list of ids. */
  datatype Subs = SubsText(text: string) | SubsList(ids: seq<string>)

  /** The subscription that stands for "all". */
  const DefaultSub: string := "00000000-0000-0000-0000-000000000000"

  function TenantId(tid: string): string { "tenant:" + tid }

  function SubId(sid: string): string { "sub:" + sid }

  /** The ids a build enumerates for a subscription argument. */
  function SubIds(subs: Subs): (ids: seq<string>)
    ensures subs.SubsText? && subs.text != "all" ==> |ids| == |subs.text|
  {
    match subs
    case SubsText(text) =>
      if text == "all" then [DefaultSub] else seq(|text|, i requires 0 <= i < |text| => [text[i]])
    case SubsList(ids) => ids
  }

  function TenantNode(tid: string): Node {
    Node(TenantId(tid), "TENANT", map["name" := Str(tid)])
  }

  function SubNode(sid: string): Node {
    Node(SubId(sid), "SUBSCRIPTION", map["name" := Str(sid)])
  }

  function MemberEdge(tid: string, sid: string): Edge {
    Edge(TenantId(tid), SubId(sid), "MEMBER_OF", map[])
  }

  const Alice: Node := Node("user:alice@contoso.com", "PRINCIPAL", map["displayName" := Str("Alice")])
  const ContosoApp: Node :=
    Node("sp://apps/ContosoApp", "PRINCIPAL", map["displayName" := Str("ContosoAppSP"), "kind" := Str("ServicePrincipal")])

  const KeyVaultPath: string :=
    "/subscriptions/00000000-0000-0000-0000-000000000000/resourceGroups/rg1/providers/Microsoft.KeyVault/vaults/kv1"
  const AutomationPath: string :=
    "/subscriptions/00000000-0000-0000-0000-000000000000/resourceGroups/rg1/providers/Microsoft.Automation/automationAccounts/aa1"
  const FunctionAppPath: string :=
    "/subscriptions/00000000-0000-0000-0000-000000000000/resourceGroups/rg1/providers/Microsoft.Web/sites/fn1"

  const KeyVault: Node := Node("kv:" + KeyVaultPath, "KEYVAULT", map["name" := Str("kv1")])
  const Automation: Node := Node("aa:" + AutomationPath, "AUTOMATION_ACCOUNT", map["name" := Str("aa1")])
  const FunctionApp: Node := Node("fn:" + FunctionAppPath, "FUNCTION_APP", map["name" := Str("fn1")])

  /** Alice holds User Access Administrator on the default subscription. */
  const AdminRole: Edge := Edge(Alice.id, "sub:" + DefaultSub, "HAS_ROLE",
    map["roleName" := Str("User Access Administrator"), "scope" := Str("subscription")])

  /** The service principal can set the key vault's access policy. */
  const VaultPolicy: Edge := Edge(ContosoApp.id, "kv:" + KeyVaultPath, "CAN_SET_POLICY", map[])

  const PrincipalNodes: seq<Node> := [Alice, ContosoApp]
  const ResourceNodes: seq<Node> := [KeyVault, Automation, FunctionApp]
  const RoleEdges: seq<Edge> := [AdminRole, VaultPolicy]

  /** Continue with one more add_node unless an earlier call raised. */
  function ThenNode(r: Step, n: Node): (r': Step)
    ensures r.outcome.Fail? ==> r' == r
  {
    if r.outcome.Fail? then r else AddNode(r.store, n)
  }

  /** Continue with one more add_edge unless an earlier call raised. */
  function ThenEdge(r: Step, e: Edge): (r': Step)
    ensures r.outcome.Fail? ==> r' == r
  {
    if r.outcome.Fail? then r else AddEdge(r.store, e)
  }

  /** The add_node calls ns one after the other, stopping at the first that raises. */
  function AddNodes(s: Store, ns: seq<Node>): Step
    decreases |ns|
  {
    if ns == [] then Step(s, Ok)
    else
      var r := AddNode(s, ns[0]);
      if r.outcome.Fail? then r else AddNodes(r.store, ns[1..])
  }

  /** The add_edge calls es one after the other, stopping at the first that raises. */
  function AddEdges(s: Store, es: seq<Edge>): Step
    decreases |es|
  {
    if es == [] then Step(s, Ok)
    else
      var r := AddEdge(s, es[0]);
      if r.outcome.Fail? then r else AddEdges(r.store, es[1..])
  }

  /** _add_tenant */
  function AddTenant(s: Store, tid: string): Step {
    AddNode(s, TenantNode(tid))
  }

  /** One iteration of _enumerate_subscriptions: the subscription node, then its membership edge. */
  function AddSubscription(s: Store, tid: string, sid: string): Step {
    ThenEdge(ThenNode(Step(s, Ok), SubNode(sid)), MemberEdge(tid, sid))
  }

  /** The loop of _enumerate_subscriptions over ids, stopping at the first call that raises. */
  function AddSubscriptions(s: Store, tid: string, ids: seq<string>): Step
    decreases |ids|
  {
    if ids == [] then Step(s, Ok)
    else
      var r := AddSubscriptions(s, tid, ids[..|ids| - 1]);
      if r.outcome.Fail? then r else AddSubscription(r.store, tid, ids[|ids| - 1])
  }

  /** _enumerate_subscriptions */
  function EnumerateSubscriptions(s: Store, tid: string, subs: Subs): Step {
    AddSubscriptions(s, tid, SubIds(subs))
  }

  /** _enumerate_principals */
  function EnumeratePrincipals(s: Store): Step {
    AddNodes(s, PrincipalNodes)
  }

  /** _enumerate_resources */
  function EnumerateResources(s: Store): Step {
    AddNodes(s, ResourceNodes)
  }

  /** _enumerate_role_assignments */
  function EnumerateRoleAssignments(s: Store): Step {
    AddEdges(s, RoleEdges)
  }

  /** build(): the five steps in order, stopping at the first call that raises. */
  function Build(s: Store, tid: string, subs: Subs): Step {
    var r1 := AddTenant(s, tid);
    if r1.outcome.Fail? then r1 else
    var r2 := EnumerateSubscriptions(r1.store, tid, subs);
    if r2.outcome.Fail? then r2 else
    var r3 := EnumeratePrincipals(r2.store);
    if r3.outcome.Fail? then r3 else
    var r4 := EnumerateResources(r3.store);
    if r4.outcome.Fail? then r4 else
    EnumerateRoleAssignments(r4.store)
  }

  // ---------------------------------------------------------------------------
  // The subscription argument

  /** "all" stands for the default subscription alone. */
  lemma AllMeansDefault()
    ensures SubIds(SubsText("all")) == [DefaultSub]
  {
  }

  /** Any other text is split into one-character ids, none of which is the default subscription. */
  lemma OtherTextLacksDefault(text: string)
    requires text != "all"
    ensures forall i :: 0 <= i < |SubIds(SubsText(text))| ==> SubIds(SubsText(text))[i] == [text[i]]
    ensures DefaultSub !in SubIds(SubsText(text))
  {
    var ids := SubIds(SubsText(text));
    forall i | 0 <= i < |ids| ensures ids[i] != DefaultSub {
      assert |ids[i]| == 1;
    }
  }

  // ---------------------------------------------------------------------------
  // Invariants kept by every step

  /** A call that raised ends the subscription loop with the store it left. */
  lemma {:induction false} SubscriptionFailurePersists(s: Store, tid: string, ids: seq<string>, j: nat)
    requires j <= |ids| && AddSubscriptions(s, tid, ids[..j]).outcome.Fail?
    ensures AddSubscriptions(s, tid, ids) == AddSubscriptions(s, tid, ids[..j])
    decreases |ids| - j
  {
    if j < |ids| {
      var ids' := ids[..|ids| - 1];
      assert ids'[..j] == ids[..j];
      SubscriptionFailurePersists(s, tid, ids', j);
    } else {
      assert ids[..j] == ids;
    }
  }

  /** The subscription loop keeps every edge endpoint a node. */
  lemma {:induction false} SubscriptionsKeepInv(s: Store, tid: string, ids: seq<string>)
    requires Inv(s)
    ensures Inv(AddSubscriptions(s, tid, ids).store)
    decreases |ids|
  {
    if ids != [] {
      SubscriptionsKeepInv(s, tid, ids[..|ids| - 1]);
    }
  }

  /** A run of add_node calls keeps every edge endpoint a node. */
  lemma {:induction false} NodesKeepInv(s: Store, ns: seq<Node>)
    requires Inv(s)
    ensures Inv(AddNodes(s, ns).store)
    decreases |ns|
  {
    if ns != [] {
      NodesKeepInv(AddNode(s, ns[0]).store, ns[1..]);
    }
  }

  /** A run of add_edge calls keeps every edge endpoint a node. */
  lemma {:induction false} EdgesKeepInv(s: Store, es: seq<Edge>)
    requires Inv(s)
    ensures Inv(AddEdges(s, es).store)
    decreases |es|
  {
    if es != [] {
      EdgesKeepInv(AddEdge(s, es[0]).store, es[1..]);
    }
  }

  /** build() keeps every edge endpoint a node, whether it completes or raises. */
  lemma BuildKeepsInv(s: Store, tid: string, subs: Subs)
    requires Inv(s)
    ensures Inv(Build(s, tid, subs).store)
  {
    var r1 := AddTenant(s, tid);
    if r1.outcome == Ok {
      SubscriptionsKeepInv(r1.store, tid, SubIds(subs));
      var r2 := EnumerateSubscriptions(r1.store, tid, subs);
      if r2.outcome == Ok {
        FixedStepsKeepInv(r2.store);
        var r3 := EnumeratePrincipals(r2.store);
        if r3.outcome == Ok {
          var r4 := EnumerateResources(r3.store);
          if r4.outcome == Ok {
            assert Build(s, tid, subs) == EnumerateRoleAssignments(r4.store);
          } else {
            assert Build(s, tid, subs) == r4;
          }
        } else {
          assert Build(s, tid, subs) == r3;
        }
      } else {
        assert Build(s, tid, subs) == r2;
      }
    } else {
      assert Build(s, tid, subs) == r1;
    }
  }

  /** The principals, the resources and the role assignments keep every edge endpoint a node. */
  lemma FixedStepsKeepInv(s: Store)
    requires Inv(s)
    ensures Inv(EnumeratePrincipals(s).store)
    ensures Inv(EnumerateResources(EnumeratePrincipals(s).store).store)
    ensures Inv(EnumerateRoleAssignments(EnumerateResources(EnumeratePrincipals(s).store).store).store)
  {
    NodesKeepInv(s, PrincipalNodes);
    var s3 := EnumeratePrincipals(s).store;
    NodesKeepInv(s3, ResourceNodes);
    EdgesKeepInv(EnumerateResources(s3).store, RoleEdges);
  }

  // ---------------------------------------------------------------------------
  // The ids build() creates

  predicate IsSubKey(y: string) {
    |y| >= 4 && y[..4] == "sub:"
  }

  /** Subscription ids are recognisable by their prefix, and distinct subscriptions get distinct ids. */
  lemma SubIdFacts(x: string, x': string)
    ensures IsSubKey(SubId(x))
    ensures SubId(x) == SubId(x') ==> x == x'
  {
    assert SubId(x)[..4] == "sub:";
    if SubId(x) == SubId(x') {
      assert SubId(x)[4..] == x;
      assert SubId(x')[4..] == x';
    }
  }

  /** The two principals have distinct ids. */
  lemma PrincipalIdsApart()
    ensures Alice.id != ContosoApp.id
  {
    assert Alice.id[0] == 'u' && ContosoApp.id[0] == 's';
  }

  /** The three resources have distinct ids. */
  lemma ResourceIdsApart()
    ensures KeyVault.id != Automation.id && KeyVault.id != FunctionApp.id && Automation.id != FunctionApp.id
  {
    assert KeyVault.id[0] == 'k';
    assert Automation.id[0] == 'a';
    assert FunctionApp.id[0] == 'f';
  }

  /** No principal id is a resource id. */
  lemma PrincipalsAreNotResources()
    ensures Alice.id != KeyVault.id && Alice.id != Automation.id && Alice.id != FunctionApp.id
    ensures ContosoApp.id != KeyVault.id && ContosoApp.id != Automation.id && ContosoApp.id != FunctionApp.id
  {
    assert Alice.id[0] == 'u' && ContosoApp.id[0] == 's';
    assert KeyVault.id[0] == 'k';
    assert Automation.id[0] == 'a';
    assert FunctionApp.id[0] == 'f';
  }

  /** An id whose first or second character differs from the prefix's is not a subscription id. */
  lemma NotSubKey(y: string)
    requires |y| >= 2 && (y[0] != 's' || y[1] != 'u')
    ensures !IsSubKey(y)
  {
    if |y| >= 4 {
      assert y[..4][0] == y[0] && y[..4][1] == y[1];
    }
  }

  /** The tenant's id has no subscription prefix. */
  lemma TenantNotSubscribed(tid: string)
    ensures !IsSubKey(TenantId(tid))
  {
    assert TenantId(tid)[0] == 't' && TenantId(tid)[1] == 'e';
    NotSubKey(TenantId(tid));
  }

  /** No principal id has the subscription prefix. */
  lemma PrincipalsNotSubscribed()
    ensures !IsSubKey(Alice.id) && !IsSubKey(ContosoApp.id)
  {
    assert Alice.id[0] == 'u';
    assert ContosoApp.id[1] == 'p';
    NotSubKey(Alice.id);
    NotSubKey(ContosoApp.id);
  }

  /** No resource id has the subscription prefix. */
  lemma ResourcesNotSubscribed()
    ensures !IsSubKey(KeyVault.id) && !IsSubKey(Automation.id) && !IsSubKey(FunctionApp.id)
  {
    assert KeyVault.id[0] == 'k';
    assert Automation.id[0] == 'a';
    assert FunctionApp.id[0] == 'f';
    NotSubKey(KeyVault.id);
    NotSubKey(Automation.id);
    NotSubKey(FunctionApp.id);
  }

  /** No fixed id is the tenant's. */
  lemma FixedIdsNotTenant(tid: string)
    ensures Alice.id != TenantId(tid) && ContosoApp.id != TenantId(tid)
    ensures KeyVault.id != TenantId(tid) && Automation.id != TenantId(tid) && FunctionApp.id != TenantId(tid)
  {
    assert TenantId(tid)[0] == 't';
    assert Alice.id[0] == 'u';
    assert ContosoApp.id[0] == 's';
    assert KeyVault.id[0] == 'k';
    assert Automation.id[0] == 'a';
    assert FunctionApp.id[0] == 'f';
  }

  /** The role's scope is the default subscription's id, which is none of the fixed ids. */
  lemma DefaultSubNotFixed()
    ensures AdminRole.dst == SubId(DefaultSub)
    ensures AdminRole.dst != Alice.id && AdminRole.dst != ContosoApp.id
    ensures AdminRole.dst != KeyVault.id && AdminRole.dst != Automation.id && AdminRole.dst != FunctionApp.id
  {
    assert AdminRole.dst[0] == 's' && AdminRole.dst[1] == 'u';
    assert Alice.id[0] == 'u';
    assert ContosoApp.id[1] == 'p';
    assert KeyVault.id[0] == 'k';
    assert Automation.id[0] == 'a';
    assert FunctionApp.id[0] == 'f';
  }

  /** The distinct ids of a sequence. */
  function IdSet(ids: seq<string>): set<string> {
    set x | x in ids
  }

  /** The ids of the nodes ns. */
  function NodeIds(ns: seq<Node>): set<string>
    decreases |ns|
  {
    if ns == [] then {} else {ns[0].id} + NodeIds(ns[1..])
  }

  /** The pairs of the edges es. */
  function EdgePairs(es: seq<Edge>): set<(string, string)>
    decreases |es|
  {
    if es == [] then {} else {(es[0].src, es[0].dst)} + EdgePairs(es[1..])
  }

  /** How many of ks are t. */
  function Occurrences(ks: seq<NodeType>, t: NodeType): nat
    decreases |ks|
  {
    if ks == [] then 0 else (if ks[0] == t then 1 else 0) + Occurrences(ks[1..], t)
  }

  // ---------------------------------------------------------------------------
  // The tenant and the subscriptions

  /** The store after the tenant and the subscriptions subs: the tenant node,
      one node per subscription and one membership edge from the tenant to each. */
  ghost predicate SubscribedShape(s: Store, tid: string, subs: set<string>) {
    && Inv(s)
    && TenantId(tid) in s.nodes
    && (forall y :: y in s.nodes ==> y == TenantId(tid) || IsSubKey(y))
    && (forall x :: SubId(x) in s.nodes <==> x in subs)
    && (forall p :: p in s.edges ==> p.0 == TenantId(tid))
    && (forall x :: (TenantId(tid), SubId(x)) in s.edges <==> x in subs)
  }

  /** The counts of that store. */
  ghost predicate SubscribedCounts(s: Store, subs: set<string>) {
    && |s.nodes| == 1 + |subs|
    && |s.edges| == |subs|
    && |Bucket(s, TENANT)| == 1
    && |Bucket(s, SUBSCRIPTION)| == |subs|
    && (forall t :: t != TENANT && t != SUBSCRIPTION ==> |Bucket(s, t)| == 0)
  }

  ghost predicate Subscribed(s: Store, tid: string, subs: set<string>) {
    SubscribedShape(s, tid, subs) && SubscribedCounts(s, subs)
  }

  /** The store right after _add_tenant on an empty store. */
  lemma TenantAdded(tid: string)
    ensures AddTenant(Empty(), tid).outcome == Ok
    ensures Subscribed(AddTenant(Empty(), tid).store, tid, {})
  {
    AddNodeInsertsNew(Empty(), TenantNode(tid), TENANT);
    LoneTenant(AddTenant(Empty(), tid).store, tid);
  }

  /** A store holding the tenant node alone and no edge. */
  lemma LoneTenant(s: Store, tid: string)
    requires s.nodes.Keys == {TenantId(tid)} && s.nodes[TenantId(tid)].kind == TENANT && s.edges == map[]
    ensures Subscribed(s, tid, {})
  {
    TenantNotSubscribed(tid);
    forall x ensures SubId(x) !in s.nodes {
      SubIdFacts(x, x);
    }
    assert Bucket(s, TENANT) == {TenantId(tid)};
    forall t | t != TENANT ensures Bucket(s, t) == {} {
    }
  }

  /** A fresh node of a known type is inserted and counted once, in its type. */
  lemma ThenFreshNode(r: Step, n: Node, k: NodeType)
    requires r.outcome == Ok && NodeTypeName(k) == n.kind && n.id !in r.store.nodes && !NodeKeywordClash(n.props)
    ensures var r' := ThenNode(r, n);
      && r'.outcome == Ok
      && r'.store.nodes.Keys == r.store.nodes.Keys + {n.id}
      && |r'.store.nodes| == |r.store.nodes| + 1
      && r'.store.edges == r.store.edges
      && (forall t :: |Bucket(r'.store, t)| == |Bucket(r.store, t)| + if t == k then 1 else 0)
  {
    AddNodeInsertsNew(r.store, n, k);
    forall t ensures |Bucket(ThenNode(r, n).store, t)| == |Bucket(r.store, t)| + if t == k then 1 else 0 {
      AddNodeCountsOne(r.store, n, k, t);
    }
  }

  /** A node whose id is known merges and changes no count. */
  lemma ThenKnownNode(r: Step, n: Node, k: NodeType)
    requires r.outcome == Ok && NodeTypeName(k) == n.kind && n.id in r.store.nodes
    ensures var r' := ThenNode(r, n);
      && r'.outcome == Ok
      && r'.store.nodes.Keys == r.store.nodes.Keys
      && |r'.store.nodes| == |r.store.nodes|
      && r'.store.edges == r.store.edges
      && (forall t :: |Bucket(r'.store, t)| == |Bucket(r.store, t)|)
  {
    NodeTypeNamesRecognised(k);
    AddNodeMergesExisting(r.store, n);
  }

  /** A valid edge between existing nodes links its pair, counted once. */
  lemma ThenLinkedEdge(r: Step, e: Edge, k: EdgeType)
    requires r.outcome == Ok && EdgeTypeName(k) == e.kind && !EdgeKeywordClash(e.props)
    requires e.src in r.store.nodes && e.dst in r.store.nodes
    ensures var r' := ThenEdge(r, e);
      && r'.outcome == Ok
      && r'.store.nodes == r.store.nodes
      && r'.store.edges.Keys == r.store.edges.Keys + {(e.src, e.dst)}
      && |r'.store.edges| == |r.store.edges| + if (e.src, e.dst) in r.store.edges then 0 else 1
  {
    EdgeTypeNamesRecognised(k);
    AddEdgeUpdatesPair(r.store, e);
    AddEdgeCountsPair(r.store, e);
  }

  /** One iteration with a subscription whose node is not yet there: one node
      and one edge more, the node counted as a subscription. */
  lemma NewSubscriptionStep(s: Store, tid: string, x: string)
    requires TenantId(tid) in s.nodes && SubId(x) !in s.nodes && (TenantId(tid), SubId(x)) !in s.edges
    ensures var r := AddSubscription(s, tid, x);
      && r.outcome == Ok
      && r.store.nodes.Keys == s.nodes.Keys + {SubId(x)}
      && |r.store.nodes| == |s.nodes| + 1
      && r.store.edges.Keys == s.edges.Keys + {(TenantId(tid), SubId(x))}
      && |r.store.edges| == |s.edges| + 1
      && (forall t :: |Bucket(r.store, t)| == |Bucket(s, t)| + if t == SUBSCRIPTION then 1 else 0)
  {
    var r0 := Step(s, Ok);
    ThenFreshNode(r0, SubNode(x), SUBSCRIPTION);
    var r1 := ThenNode(r0, SubNode(x));
    ThenLinkedEdge(r1, MemberEdge(tid, x), MEMBER_OF);
  }

  /** One iteration with a subscription whose node and membership edge are
      there already: the same ids, pairs and counts. */
  lemma RepeatedSubscriptionStep(s: Store, tid: string, x: string)
    requires TenantId(tid) in s.nodes && SubId(x) in s.nodes && (TenantId(tid), SubId(x)) in s.edges
    ensures var r := AddSubscription(s, tid, x);
      && r.outcome == Ok
      && r.store.nodes.Keys == s.nodes.Keys
      && |r.store.nodes| == |s.nodes|
      && r.store.edges.Keys == s.edges.Keys
      && |r.store.edges| == |s.edges|
      && (forall t :: |Bucket(r.store, t)| == |Bucket(s, t)|)
  {
    var r0 := Step(s, Ok);
    ThenKnownNode(r0, SubNode(x), SUBSCRIPTION);
    var r1 := ThenNode(r0, SubNode(x));
    ThenLinkedEdge(r1, MemberEdge(tid, x), MEMBER_OF);
  }

  /** The store after a new subscription's iteration, described from the facts above. */
  lemma SubscribedAfterNew(s: Store, s': Store, tid: string, subs: set<string>, x: string)
    requires Subscribed(s, tid, subs) && x !in subs
    requires s'.nodes.Keys == s.nodes.Keys + {SubId(x)} && |s'.nodes| == |s.nodes| + 1
    requires s'.edges.Keys == s.edges.Keys + {(TenantId(tid), SubId(x))} && |s'.edges| == |s.edges| + 1
    requires forall t :: |Bucket(s', t)| == |Bucket(s, t)| + if t == SUBSCRIPTION then 1 else 0
    ensures Subscribed(s', tid, subs + {x})
  {
    ShapeAfterNew(s, s', tid, subs, x);
    assert |subs + {x}| == |subs| + 1;
  }

  /** The ids and pairs after a new subscription's iteration. */
  lemma ShapeAfterNew(s: Store, s': Store, tid: string, subs: set<string>, x: string)
    requires SubscribedShape(s, tid, subs)
    requires s'.nodes.Keys == s.nodes.Keys + {SubId(x)}
    requires s'.edges.Keys == s.edges.Keys + {(TenantId(tid), SubId(x))}
    ensures SubscribedShape(s', tid, subs + {x})
  {
    SubIdFacts(x, x);
    forall x' ensures SubId(x') in s'.nodes <==> x' in subs + {x} {
      SubIdFacts(x', x);
    }
    forall x' ensures (TenantId(tid), SubId(x')) in s'.edges <==> x' in subs + {x} {
      SubIdFacts(x', x);
    }
  }

  /** The store after a repeated subscription's iteration, described from the facts above. */
  lemma SubscribedAfterRepeat(s: Store, s': Store, tid: string, subs: set<string>)
    requires Subscribed(s, tid, subs)
    requires s'.nodes.Keys == s.nodes.Keys && |s'.nodes| == |s.nodes|
    requires s'.edges.Keys == s.edges.Keys && |s'.edges| == |s.edges|
    requires forall t :: |Bucket(s', t)| == |Bucket(s, t)|
    ensures Subscribed(s', tid, subs)
  {
  }

  /** One iteration keeps the shape: its node and edge are added once, however often the id repeats. */
  lemma SubscriptionStep(s: Store, tid: string, subs: set<string>, x: string, subs': set<string>)
    requires Subscribed(s, tid, subs) && subs' == subs + {x}
    ensures AddSubscription(s, tid, x).outcome == Ok
    ensures Subscribed(AddSubscription(s, tid, x).store, tid, subs')
  {
    if x in subs {
      assert subs' == subs;
      RepeatedSubscribed(s, tid, subs, x);
    } else {
      NewSubscribed(s, tid, subs, x);
    }
  }

  /** An iteration with an id already enumerated keeps the store's shape. */
  lemma RepeatedSubscribed(s: Store, tid: string, subs: set<string>, x: string)
    requires Subscribed(s, tid, subs) && x in subs
    ensures AddSubscription(s, tid, x).outcome == Ok
    ensures Subscribed(AddSubscription(s, tid, x).store, tid, subs)
  {
    RepeatedSubscriptionStep(s, tid, x);
    SubscribedAfterRepeat(s, AddSubscription(s, tid, x).store, tid, subs);
  }

  /** An iteration with a new id adds it to the enumerated ones. */
  lemma NewSubscribed(s: Store, tid: string, subs: set<string>, x: string)
    requires Subscribed(s, tid, subs) && x !in subs
    ensures AddSubscription(s, tid, x).outcome == Ok
    ensures Subscribed(AddSubscription(s, tid, x).store, tid, subs + {x})
  {
    SubIdFacts(x, x);
    NewSubscriptionStep(s, tid, x);
    SubscribedAfterNew(s, AddSubscription(s, tid, x).store, tid, subs, x);
  }

  /** The subscription loop started after the tenant visits every id without
      raising and leaves one node and one membership edge per distinct id. */
  lemma {:induction false} SubscriptionsAdded(s: Store, tid: string, ids: seq<string>)
    requires Subscribed(s, tid, {})
    ensures AddSubscriptions(s, tid, ids).outcome == Ok
    ensures Subscribed(AddSubscriptions(s, tid, ids).store, tid, IdSet(ids))
    decreases |ids|
  {
    if ids != [] {
      var pre := ids[..|ids| - 1];
      SubscriptionsAdded(s, tid, pre);
      SubscriptionsSnoc(s, tid, ids);
      IdSetSnoc(ids);
      SubscriptionStep(AddSubscriptions(s, tid, pre).store, tid, IdSet(pre), ids[|ids| - 1], IdSet(ids));
    }
  }

  /** The loop over a non-empty sequence is the loop over its prefix and one more iteration. */
  lemma SubscriptionsSnoc(s: Store, tid: string, ids: seq<string>)
    requires ids != [] && AddSubscriptions(s, tid, ids[..|ids| - 1]).outcome == Ok
    ensures AddSubscriptions(s, tid, ids) ==
            AddSubscription(AddSubscriptions(s, tid, ids[..|ids| - 1]).store, tid, ids[|ids| - 1])
  {
  }

  /** The ids of a non-empty sequence are those of its prefix and its last element. */
  lemma IdSetSnoc(ids: seq<string>)
    requires ids != []
    ensures IdSet(ids) == IdSet(ids[..|ids| - 1]) + {ids[|ids| - 1]}
  {
    assert ids == ids[..|ids| - 1] + [ids[|ids| - 1]];
  }

  // ---------------------------------------------------------------------------
  // Runs of fresh nodes and of linked edges

  /** Nodes of known types, each new to the ids before it (starting from ids),
      with no property that clashes with an add_node keyword; ks names the type of each. */
  ghost predicate FreshNodes(ids: set<string>, ns: seq<Node>, ks: seq<NodeType>)
    decreases |ns|
  {
    |ks| == |ns| &&
    (ns != [] ==>
      && NodeTypeName(ks[0]) == ns[0].kind && ns[0].id !in ids && !NodeKeywordClash(ns[0].props)
      && FreshNodes(ids + {ns[0].id}, ns[1..], ks[1..]))
  }

  /** One more fresh node in front of a fresh run. */
  lemma FreshCons(ids: set<string>, n: Node, k: NodeType, ns: seq<Node>, ks: seq<NodeType>)
    requires NodeTypeName(k) == n.kind && n.id !in ids && !NodeKeywordClash(n.props)
    requires FreshNodes(ids + {n.id}, ns, ks)
    ensures FreshNodes(ids, [n] + ns, [k] + ks)
  {
    assert ([n] + ns)[1..] == ns && ([k] + ks)[1..] == ks;
  }

  lemma {:induction false} FreshNodesOk(s: Store, ns: seq<Node>, ks: seq<NodeType>)
    requires FreshNodes(s.nodes.Keys, ns, ks)
    ensures AddNodes(s, ns).outcome == Ok
    decreases |ns|
  {
    if ns != [] {
      AddNodeFresh(s, ns[0], ks[0]);
      var s' := AddNode(s, ns[0]).store;
      assert s'.nodes.Keys == s.nodes.Keys + {ns[0].id};
      FreshNodesOk(s', ns[1..], ks[1..]);
    }
  }
  lemma {:induction false} FreshNodesKeys(s: Store, ns: seq<Node>, ks: seq<NodeType>)
    requires FreshNodes(s.nodes.Keys, ns, ks)
    ensures AddNodes(s, ns).store.nodes.Keys == s.nodes.Keys + NodeIds(ns)
    decreases |ns|
  {
    if ns != [] {
      AddNodeFresh(s, ns[0], ks[0]);
      var s' := AddNode(s, ns[0]).store;
      assert s'.nodes.Keys == s.nodes.Keys + {ns[0].id};
      FreshNodesKeys(s', ns[1..], ks[1..]);
    }
  }
  lemma {:induction false} FreshNodesSize(s: Store, ns: seq<Node>, ks: seq<NodeType>)
    requires FreshNodes(s.nodes.Keys, ns, ks)
    ensures |AddNodes(s, ns).store.nodes| == |s.nodes| + |ns|
    decreases |ns|
  {
    if ns != [] {
      AddNodeFresh(s, ns[0], ks[0]);
      var s' := AddNode(s, ns[0]).store;
      assert s'.nodes.Keys == s.nodes.Keys + {ns[0].id};
      FreshNodesSize(s', ns[1..], ks[1..]);
    }
  }
  lemma {:induction false} FreshNodesEdges(s: Store, ns: seq<Node>, ks: seq<NodeType>)
    requires FreshNodes(s.nodes.Keys, ns, ks)
    ensures AddNodes(s, ns).store.edges == s.edges
    decreases |ns|
  {
    if ns != [] {
      AddNodeFresh(s, ns[0], ks[0]);
      var s' := AddNode(s, ns[0]).store;
      assert s'.nodes.Keys == s.nodes.Keys + {ns[0].id};
      FreshNodesEdges(s', ns[1..], ks[1..]);
    }
  }

  /** A run of fresh nodes adds to the bucket of each type the number of them of that type. */
  lemma {:induction false} FreshNodesCounted(s: Store, ns: seq<Node>, ks: seq<NodeType>, t: NodeType)
    requires FreshNodes(s.nodes.Keys, ns, ks)
    ensures |Bucket(AddNodes(s, ns).store, t)| == |Bucket(s, t)| + Occurrences(ks, t)
    decreases |ns|
  {
    if ns != [] {
      AddNodeFresh(s, ns[0], ks[0]);
      AddNodeCountsOne(s, ns[0], ks[0], t);
      var s' := AddNode(s, ns[0]).store;
      assert s'.nodes.Keys == s.nodes.Keys + {ns[0].id};
      FreshNodesCounted(s', ns[1..], ks[1..], t);
    }
  }

  /** Edges of known types, with no property that clashes with an add_edge keyword, between ids of nodes; ks names the type of each. */
  ghost predicate LinkedEdges(nodes: set<string>, es: seq<Edge>, ks: seq<EdgeType>)
    decreases |es|
  {
    |ks| == |es| &&
    (es != [] ==>
      && EdgeTypeName(ks[0]) == es[0].kind && !EdgeKeywordClash(es[0].props) && es[0].src in nodes && es[0].dst in nodes
      && LinkedEdges(nodes, es[1..], ks[1..]))
  }

  /** A run of edges between existing nodes links every pair and touches no node. */
  lemma {:induction false} LinkedEdgesAdded(s: Store, es: seq<Edge>, ks: seq<EdgeType>)
    requires LinkedEdges(s.nodes.Keys, es, ks)
    ensures AddEdges(s, es).outcome == Ok
    ensures AddEdges(s, es).store.nodes == s.nodes
    ensures AddEdges(s, es).store.edges.Keys == s.edges.Keys + EdgePairs(es)
    decreases |es|
  {
    if es != [] {
      EdgeTypeNamesRecognised(ks[0]);
      AddEdgeUpdatesPair(s, es[0]);
      LinkedEdgesAdded(AddEdge(s, es[0]).store, es[1..], ks[1..]);
    }
  }

  // ---------------------------------------------------------------------------

  lemma FreshNodesAdded(s: Store, ns: seq<Node>, ks: seq<NodeType>)
    requires FreshNodes(s.nodes.Keys, ns, ks)
    ensures AddNodes(s, ns).outcome == Ok
    ensures AddNodes(s, ns).store.nodes.Keys == s.nodes.Keys + NodeIds(ns)
    ensures |AddNodes(s, ns).store.nodes| == |s.nodes| + |ns|
    ensures AddNodes(s, ns).store.edges == s.edges
  {
    FreshNodesOk(s, ns, ks);
    FreshNodesKeys(s, ns, ks);
    FreshNodesSize(s, ns, ks);
    FreshNodesEdges(s, ns, ks);
  }
  // ----
  // The fixed steps

  /** The principals are a fresh run on a store without their ids. */
  lemma PrincipalsFresh(s: Store)
    requires Alice.id !in s.nodes && ContosoApp.id !in s.nodes
    ensures FreshNodes(s.nodes.Keys, PrincipalNodes, [PRINCIPAL, PRINCIPAL])
  {
    PrincipalIdsApart();
    var ids := s.nodes.Keys;
    FreshCons(ids + {Alice.id}, ContosoApp, PRINCIPAL, [], []);
    FreshCons(ids, Alice, PRINCIPAL, [ContosoApp], [PRINCIPAL]);
  }

  /** The resources are a fresh run on a store without their ids. */
  lemma ResourcesFresh(s: Store)
    requires KeyVault.id !in s.nodes && Automation.id !in s.nodes && FunctionApp.id !in s.nodes
    ensures FreshNodes(s.nodes.Keys, ResourceNodes, [KEYVAULT, AUTOMATION_ACCOUNT, FUNCTION_APP])
  {
    ResourceIdsApart();
    var ids := s.nodes.Keys;
    FreshCons(ids + {KeyVault.id} + {Automation.id}, FunctionApp, FUNCTION_APP, [], []);
    FreshCons(ids + {KeyVault.id}, Automation, AUTOMATION_ACCOUNT, [FunctionApp], [FUNCTION_APP]);
    FreshCons(ids, KeyVault, KEYVAULT, [Automation, FunctionApp], [AUTOMATION_ACCOUNT, FUNCTION_APP]);
  }

  /** _enumerate_principals on a store without its two ids adds both and touches no edge. */
  lemma PrincipalsAdded(s: Store)
    requires Alice.id !in s.nodes && ContosoApp.id !in s.nodes
    ensures var r := EnumeratePrincipals(s);
      && r.outcome == Ok
      && r.store.nodes.Keys == s.nodes.Keys + {Alice.id, ContosoApp.id}
      && |r.store.nodes| == |s.nodes| + 2
      && r.store.edges == s.edges
  {
    PrincipalsFresh(s);
    FreshNodesAdded(s, PrincipalNodes, [PRINCIPAL, PRINCIPAL]);
    PrincipalIds();
  }

  lemma PrincipalIds()
    ensures NodeIds(PrincipalNodes) == {Alice.id, ContosoApp.id}
  {
    assert NodeIds([ContosoApp]) == {ContosoApp.id};
    assert NodeIds(PrincipalNodes) == {Alice.id} + NodeIds([ContosoApp]);
  }

  /** ... and counts both as PRINCIPAL. */
  lemma PrincipalsCounted(s: Store, t: NodeType)
    requires Alice.id !in s.nodes && ContosoApp.id !in s.nodes
    ensures |Bucket(EnumeratePrincipals(s).store, t)| == |Bucket(s, t)| + if t == PRINCIPAL then 2 else 0
  {
    PrincipalsFresh(s);
    FreshNodesCounted(s, PrincipalNodes, [PRINCIPAL, PRINCIPAL], t);
  }

  /** _enumerate_resources on a store without its three ids adds the key vault,
      the automation account and the function app, and touches no edge. */
  lemma ResourcesAdded(s: Store)
    requires KeyVault.id !in s.nodes && Automation.id !in s.nodes && FunctionApp.id !in s.nodes
    ensures var r := EnumerateResources(s);
      && r.outcome == Ok
      && r.store.nodes.Keys == s.nodes.Keys + {KeyVault.id, Automation.id, FunctionApp.id}
      && |r.store.nodes| == |s.nodes| + 3
      && r.store.edges == s.edges
  {
    ResourcesFresh(s);
    FreshNodesAdded(s, ResourceNodes, [KEYVAULT, AUTOMATION_ACCOUNT, FUNCTION_APP]);
    ResourceIds();
  }

  /** The ids of the three resources. */
  lemma ResourceIds()
    ensures NodeIds(ResourceNodes) == {KeyVault.id, Automation.id, FunctionApp.id}
  {
    assert NodeIds([FunctionApp]) == {FunctionApp.id};
    assert NodeIds([Automation, FunctionApp]) == {Automation.id} + NodeIds([FunctionApp]);
    assert NodeIds(ResourceNodes) == {KeyVault.id} + NodeIds([Automation, FunctionApp]);
  }

  /** ... and counts each in its own type. */
  lemma ResourcesCounted(s: Store, t: NodeType)
    requires KeyVault.id !in s.nodes && Automation.id !in s.nodes && FunctionApp.id !in s.nodes
    ensures |Bucket(EnumerateResources(s).store, t)| ==
            |Bucket(s, t)| + if t == KEYVAULT || t == AUTOMATION_ACCOUNT || t == FUNCTION_APP then 1 else 0
  {
    ResourcesFresh(s);
    FreshNodesCounted(s, ResourceNodes, [KEYVAULT, AUTOMATION_ACCOUNT, FUNCTION_APP], t);
  }

  /** _enumerate_role_assignments when the default subscription's node exists links both pairs. */
  lemma RoleAssignmentsAdded(s: Store)
    requires Alice.id in s.nodes && ContosoApp.id in s.nodes && KeyVault.id in s.nodes && AdminRole.dst in s.nodes
    ensures var r := EnumerateRoleAssignments(s);
      && r.outcome == Ok
      && r.store.nodes == s.nodes
      && r.store.edges.Keys == s.edges.Keys + {(Alice.id, AdminRole.dst), (ContosoApp.id, VaultPolicy.dst)}
  {
    RoleEdgesLinked(s.nodes.Keys);
    LinkedEdgesAdded(s, RoleEdges, [HAS_ROLE, CAN_SET_POLICY]);
    RolePairs();
  }

  /** Both role edges are well-formed edges between the given nodes. */
  lemma RoleEdgesLinked(nodes: set<string>)
    requires Alice.id in nodes && ContosoApp.id in nodes && KeyVault.id in nodes && AdminRole.dst in nodes
    ensures LinkedEdges(nodes, RoleEdges, [HAS_ROLE, CAN_SET_POLICY])
  {
    assert RoleEdges[1..] == [VaultPolicy];
    assert LinkedEdges(nodes, [VaultPolicy], [CAN_SET_POLICY]);
  }

  /** The pairs the two role edges link. */
  lemma RolePairs()
    ensures EdgePairs(RoleEdges) == {(Alice.id, AdminRole.dst), (ContosoApp.id, VaultPolicy.dst)}
  {
    assert EdgePairs([VaultPolicy]) == {(ContosoApp.id, VaultPolicy.dst)};
    assert EdgePairs(RoleEdges) == {(Alice.id, AdminRole.dst)} + EdgePairs([VaultPolicy]);
  }

  /** Without the default subscription's node, its HAS_ROLE edge raises and nothing changes. */
  lemma RoleAssignmentsRejected(s: Store)
    requires AdminRole.dst !in s.nodes
    ensures EnumerateRoleAssignments(s) == Step(s, Fail(MissingEndpoint))
  {
    EdgeTypeNamesRecognised(HAS_ROLE);
    AddEdgeRejectsDangling(s, AdminRole);
  }

  // ---------------------------------------------------------------------------
  // build() on a fresh builder

  /** How many ids of type t a build from a fresh builder records, for n distinct subscriptions. */
  function BuiltCount(t: NodeType, n: nat): nat {
    match t
    case TENANT => 1
    case SUBSCRIPTION => n
    case PRINCIPAL => 2
    case KEYVAULT => 1
    case AUTOMATION_ACCOUNT => 1
    case FUNCTION_APP => 1
    case RESOURCE_GROUP => 0
    case APP => 0
    case ROLE_DEFINITION => 0
  }

  /** The store after the principals and the resources, on top of the
      subscriptions subs: the five fixed nodes are there, the default
      subscription's node exactly when it was enumerated, and still only the
      membership edges. */
  ghost predicate LoadedShape(s: Store, tid: string, subs: set<string>) {
    && Inv(s)
    && Alice.id in s.nodes && ContosoApp.id in s.nodes && KeyVault.id in s.nodes
    && TenantId(tid) != Alice.id && TenantId(tid) != ContosoApp.id
    && (AdminRole.dst in s.nodes <==> DefaultSub in subs)
    && (forall p :: p in s.edges ==> p.0 == TenantId(tid))
  }

  /** The counts of that store. */
  ghost predicate LoadedCounts(s: Store, subs: set<string>) {
    && |s.nodes| == 6 + |subs|
    && |s.edges| == |subs|
    && (forall t :: |Bucket(s, t)| == BuiltCount(t, |subs|))
  }

  ghost predicate Loaded(s: Store, tid: string, subs: set<string>) {
    LoadedShape(s, tid, subs) && LoadedCounts(s, subs)
  }

  /** _enumerate_principals after the subscriptions adds both principals. */
  lemma PrincipalsAfterSubscriptions(s: Store, tid: string, subs: set<string>)
    requires Subscribed(s, tid, subs)
    ensures var r := EnumeratePrincipals(s);
      && r.outcome == Ok
      && r.store.nodes.Keys == s.nodes.Keys + {Alice.id, ContosoApp.id}
      && |r.store.nodes| == |s.nodes| + 2
      && r.store.edges == s.edges
      && (forall t :: |Bucket(r.store, t)| == |Bucket(s, t)| + if t == PRINCIPAL then 2 else 0)
  {
    PrincipalsNotSubscribed();
    FixedIdsNotTenant(tid);
    PrincipalsAdded(s);
    forall t ensures |Bucket(EnumeratePrincipals(s).store, t)| == |Bucket(s, t)| + if t == PRINCIPAL then 2 else 0 {
      PrincipalsCounted(s, t);
    }
  }

  /** After the subscriptions and the principals, none of the resources' ids is a node. */
  lemma ResourcesAbsent(s: Store, ids: set<string>, tid: string, subs: set<string>)
    requires SubscribedShape(s, tid, subs)
    requires ids == s.nodes.Keys + {Alice.id, ContosoApp.id}
    ensures KeyVault.id !in ids && Automation.id !in ids && FunctionApp.id !in ids
  {
    ResourcesNotSubscribed();
    FixedIdsNotTenant(tid);
    PrincipalsAreNotResources();
  }

  /** _enumerate_resources on a store without the resources' ids adds all three and counts each in its type. */
  lemma ResourcesStep(s: Store)
    requires KeyVault.id !in s.nodes && Automation.id !in s.nodes && FunctionApp.id !in s.nodes
    ensures var r := EnumerateResources(s);
      && r.outcome == Ok
      && r.store.nodes.Keys == s.nodes.Keys + {KeyVault.id, Automation.id, FunctionApp.id}
      && |r.store.nodes| == |s.nodes| + 3
      && r.store.edges == s.edges
      && (forall t :: |Bucket(r.store, t)| ==
                      |Bucket(s, t)| + if t == KEYVAULT || t == AUTOMATION_ACCOUNT || t == FUNCTION_APP then 1 else 0)
  {
    ResourcesAdded(s);
    forall t ensures |Bucket(EnumerateResources(s).store, t)| ==
                     |Bucket(s, t)| + if t == KEYVAULT || t == AUTOMATION_ACCOUNT || t == FUNCTION_APP then 1 else 0 {
      ResourcesCounted(s, t);
    }
  }

  /** The ids and pairs after both fixed node steps. */
  lemma ShapeAfterResources(s: Store, s': Store, tid: string, subs: set<string>)
    requires SubscribedShape(s, tid, subs)
    requires s'.nodes.Keys == s.nodes.Keys + {Alice.id, ContosoApp.id} + {KeyVault.id, Automation.id, FunctionApp.id}
    requires s'.edges == s.edges
    ensures LoadedShape(s', tid, subs)
  {
    FixedIdsNotTenant(tid);
    DefaultLoadedIff(s, s'.nodes.Keys, tid, subs);
  }

  /** The counts after both fixed node steps. */
  lemma CountsAfterResources(s: Store, s': Store, subs: set<string>)
    requires SubscribedCounts(s, subs)
    requires |s'.nodes| == |s.nodes| + 5
    requires s'.edges == s.edges
    requires forall t :: |Bucket(s', t)| == |Bucket(s, t)| + (if t == PRINCIPAL then 2 else 0) +
                         (if t == KEYVAULT || t == AUTOMATION_ACCOUNT || t == FUNCTION_APP then 1 else 0)
    ensures LoadedCounts(s', subs)
  {
    forall t ensures |Bucket(s', t)| == BuiltCount(t, |subs|) {
      BuiltCounted(s, s', subs, t);
    }
  }

  /** The default subscription's node is among the loaded ids exactly when it was enumerated. */
  lemma DefaultLoadedIff(s: Store, ids: set<string>, tid: string, subs: set<string>)
    requires SubscribedShape(s, tid, subs)
    requires ids == s.nodes.Keys + {Alice.id, ContosoApp.id} + {KeyVault.id, Automation.id, FunctionApp.id}
    ensures AdminRole.dst in ids <==> DefaultSub in subs
  {
    DefaultSubNotFixed();
  }

  /** The bucket sizes after both fixed node steps. */
  lemma BuiltCounted(s: Store, s': Store, subs: set<string>, t: NodeType)
    requires SubscribedCounts(s, subs)
    requires |Bucket(s', t)| == |Bucket(s, t)| + (if t == PRINCIPAL then 2 else 0) +
                                (if t == KEYVAULT || t == AUTOMATION_ACCOUNT || t == FUNCTION_APP then 1 else 0)
    ensures |Bucket(s', t)| == BuiltCount(t, |subs|)
  {
  }

  /** Both fixed node steps after the subscriptions complete and load the store. */
  lemma FixedNodesAdded(s: Store, tid: string, subs: set<string>)
    requires Subscribed(s, tid, subs)
    ensures EnumeratePrincipals(s).outcome == Ok
    ensures EnumerateResources(EnumeratePrincipals(s).store).outcome == Ok
    ensures Loaded(EnumerateResources(EnumeratePrincipals(s).store).store, tid, subs)
  {
    PrincipalsAfterSubscriptions(s, tid, subs);
    var s3 := EnumeratePrincipals(s).store;
    ResourcesAbsent(s, s3.nodes.Keys, tid, subs);
    ResourcesStep(s3);
    var s4 := EnumerateResources(s3).store;
    ShapeAfterResources(s, s4, tid, subs);
    CountsAfterResources(s, s4, subs);
  }

  /** Two new keys make a map two entries larger. */
  lemma TwoNewPairs(m: map<(string, string), Props>, m': map<(string, string), Props>, p: (string, string), q: (string, string))
    requires p !in m && q !in m && p != q && m'.Keys == m.Keys + {p, q}
    ensures |m'| == |m| + 2
  {
    assert m'.Keys == (m.Keys + {p}) + {q};
    assert |m.Keys + {p}| == |m.Keys| + 1;
  }

  /** _enumerate_role_assignments on a loaded store: both role edges are added
      when the default subscription's node is there; otherwise the HAS_ROLE edge
      raises and nothing changes. */
  lemma RoleAssignmentsOnLoaded(s: Store, tid: string, subs: set<string>)
    requires Loaded(s, tid, subs)
    ensures var r := EnumerateRoleAssignments(s);
      && (r.outcome == Ok <==> DefaultSub in subs)
      && (r.outcome.Fail? ==> r == Step(s, Fail(MissingEndpoint)))
      && r.store.nodes == s.nodes
      && |r.store.edges| == |subs| + if DefaultSub in subs then 2 else 0
  {
    if DefaultSub in subs {
      RoleAssignmentsAdded(s);
      PrincipalIdsApart();
      TwoNewPairs(s.edges, EnumerateRoleAssignments(s).store.edges,
                  (Alice.id, AdminRole.dst), (ContosoApp.id, VaultPolicy.dst));
    } else {
      RoleAssignmentsRejected(s);
    }
  }

  /** When the first four steps complete, build() ends as the role assignments do. */
  lemma BuildReachesRoles(s: Store, tid: string, subs: Subs, s2: Store)
    requires AddTenant(s, tid).outcome == Ok
    requires EnumerateSubscriptions(AddTenant(s, tid).store, tid, subs) == Step(s2, Ok)
    requires EnumeratePrincipals(s2).outcome == Ok
    requires EnumerateResources(EnumeratePrincipals(s2).store).outcome == Ok
    ensures Build(s, tid, subs) == EnumerateRoleAssignments(EnumerateResources(EnumeratePrincipals(s2).store).store)
  {
  }

  /** build() on a store that _add_tenant turns into the lone tenant node. */
  lemma BuildAfterTenant(s: Store, tid: string, subs: Subs)
    requires AddTenant(s, tid).outcome == Ok && Subscribed(AddTenant(s, tid).store, tid, {})
    ensures var r, n := Build(s, tid, subs), |IdSet(SubIds(subs))|;
      && (r.outcome == Ok <==> DefaultSub in SubIds(subs))
      && (r.outcome.Fail? ==> r.outcome == Fail(MissingEndpoint))
      && |r.store.nodes| == 6 + n
      && |r.store.edges| == n + (if r.outcome == Ok then 2 else 0)
      && (forall t :: |Bucket(r.store, t)| == BuiltCount(t, n))
  {
    var ids := SubIds(subs);
    var s1 := AddTenant(s, tid).store;
    SubscriptionsAdded(s1, tid, ids);
    var s2 := EnumerateSubscriptions(s1, tid, subs).store;
    FixedNodesAdded(s2, tid, IdSet(ids));
    BuildReachesRoles(s, tid, subs, s2);
    var s4 := EnumerateResources(EnumeratePrincipals(s2).store).store;
    RoleAssignmentsOnLoaded(s4, tid, IdSet(ids));
    var s5 := EnumerateRoleAssignments(s4).store;
    forall t ensures Bucket(s5, t) == Bucket(s4, t) {
    }
  }

  /** build() on a fresh builder: it completes exactly when the default
      subscription is among the enumerated ones, and raises the missing-endpoint
      error of the HAS_ROLE edge otherwise; either way the store holds the
      tenant, one node per distinct subscription and the five fixed nodes, with
      one membership edge per subscription, plus the two role edges when it
      completes; every edge endpoint is a node.  stats() reports exactly that. */
  lemma BuildFromEmpty(tid: string, subs: Subs)
    ensures var r, n := Build(Empty(), tid, subs), |IdSet(SubIds(subs))|;
      && (r.outcome == Ok <==> DefaultSub in SubIds(subs))
      && (r.outcome.Fail? ==> r.outcome == Fail(MissingEndpoint))
      && Inv(r.store)
      && StatsOf(r.store).nodes == 6 + n
      && StatsOf(r.store).edges == n + (if r.outcome == Ok then 2 else 0)
      && (forall t :: StatsOf(r.store).byType[t] == BuiltCount(t, n))
  {
    TenantAdded(tid);
    BuildAfterTenant(Empty(), tid, subs);
    BuildKeepsInv(Empty(), tid, subs);
  }

  /** The ids per node type after build() with the default subscription alone. */
  const AllCounts: map<NodeType, nat> :=
    map[TENANT := 1, SUBSCRIPTION := 1, RESOURCE_GROUP := 0, PRINCIPAL := 2, APP := 0,
        KEYVAULT := 1, AUTOMATION_ACCOUNT := 1, FUNCTION_APP := 1, ROLE_DEFINITION := 0]

  /** A stats report with the counts of one distinct subscription is the one listed above. */
  lemma OneSubscriptionStats(st: Stats)
    requires st.nodes == 7 && st.edges == 3
    requires forall t :: t in st.byType && st.byType[t] == BuiltCount(t, 1)
    ensures st == Stats(7, 3, AllCounts)
  {
  }

  /** build() with "all" on a fresh builder completes with seven nodes and three
      edges: one tenant, one subscription, two principals, one key vault, one
      automation account and one function app. */
  lemma BuildAll(tid: string)
    ensures Build(Empty(), tid, SubsText("all")).outcome == Ok
    ensures StatsOf(Build(Empty(), tid, SubsText("all")).store) ==
            Stats(7, 3, AllCounts)
  {
    AllMeansDefault();
    BuildDefaultOnly(tid, SubsText("all"));
  }

  /** build() on a fresh builder whose subscriptions are the default one alone. */
  lemma BuildDefaultOnly(tid: string, subs: Subs)
    requires SubIds(subs) == [DefaultSub]
    ensures Build(Empty(), tid, subs).outcome == Ok
    ensures StatsOf(Build(Empty(), tid, subs).store) ==
            Stats(7, 3, AllCounts)
  {
    assert IdSet([DefaultSub]) == {DefaultSub};
    BuildFromEmpty(tid, subs);
    OneSubscriptionStats(StatsOf(Build(Empty(), tid, subs).store));
  }

  /** build() with a list of subscriptions that lacks the default one raises at
      the HAS_ROLE edge, after the tenant, the listed subscriptions and the
      five fixed nodes were added. */
  lemma BuildWithoutDefault(tid: string, ids: seq<string>)
    requires DefaultSub !in ids
    ensures Build(Empty(), tid, SubsList(ids)).outcome == Fail(MissingEndpoint)
    ensures StatsOf(Build(Empty(), tid, SubsList(ids)).store).nodes == 6 + |IdSet(ids)|
    ensures StatsOf(Build(Empty(), tid, SubsList(ids)).store).edges == |IdSet(ids)|
  {
    BuildFromEmpty(tid, SubsList(ids));
  }

  /** build() with any text other than "all" enumerates its characters and raises at the HAS_ROLE edge. */
  lemma BuildOtherText(tid: string, text: string)
    requires text != "all"
    ensures Build(Empty(), tid, SubsText(text)).outcome == Fail(MissingEndpoint)
  {
    OtherTextLacksDefault(text);
    BuildFromEmpty(tid, SubsText(text));
  }
}

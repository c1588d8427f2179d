/** GraphBuilder as an object: the networkx graph (one attribute dictionary per
    node and per ordered pair), the id table and the type index are fields that
    the methods update in place.  The ghost field model is the store these
    fields represent; every method is proved to leave the store that the
    corresponding function of the Graph and Population modules computes. */
module Builder {
  import opened Graph
  import Population

  class GraphBuilder {
    const tenantId: string
    const subs: Population.Subs
    /** The graph's node attribute dictionaries (self.g.nodes). */
    var nodeAttrs: map<string, Props>
    /** The graph's edge attribute dictionaries (self.g.edges). */
    var edgeAttrs: map<(string, string), Props>
    /** self._nodes_by_id */
    var nodesById: map<string, string>
    /** self._type_index */
    var typeIndex: map<NodeType, set<string>>

    ghost var model: Store

    /** The fields represent model: the graph holds its attribute dictionaries,
        the id table its ids (each mapped to itself), the type index one bucket
        per node type, and every edge endpoint is a node. */
    ghost predicate Valid()
      reads this
    {
      Represents(nodeAttrs, edgeAttrs, nodesById, typeIndex, model)
    }

    /** __init__: an empty graph, an empty id table and an empty bucket for every node type. */
    constructor(tid: string, s: Population.Subs)
      ensures Valid() && model == Empty()
      ensures tenantId == tid && subs == s
    {
      tenantId := tid;
      subs := s;
      nodeAttrs := map[];
      edgeAttrs := map[];
      nodesById := map[];
      typeIndex := map[
        TENANT := {}, SUBSCRIPTION := {}, RESOURCE_GROUP := {}, PRINCIPAL := {}, APP := {},
        KEYVAULT := {}, AUTOMATION_ACCOUNT := {}, FUNCTION_APP := {}, ROLE_DEFINITION := {}];
      model := Empty();
      new;
      EmptyIndexed(typeIndex);
    }

    /** add_node */
    method AddNode(n: Node) returns (outcome: Outcome)
      requires Valid()
      modifies this
      ensures Valid() && Step(model, outcome) == Graph.AddNode(old(model), n)
    {
      var k := NodeTypeNamed(n.kind);
      if k.None? {
        return Fail(UnknownNodeType(n.kind));
      }
      if n.id in nodesById {
        MergeRepresented(nodeAttrs, edgeAttrs, nodesById, typeIndex, model, n.id, n.props);
        nodeAttrs := nodeAttrs[n.id := nodeAttrs[n.id] + n.props];
        var e := model.nodes[n.id];
        model := model.(nodes := model.nodes[n.id := e.(attrs := e.attrs + n.props)]);
        MergeStep(old(model), n);
        return Ok;
      }
      if NodeKeywordClash(n.props) {
        return Fail(KeywordClash);
      }
      var attrs := map[TypeKey := Str(n.kind)] + n.props;
      InsertRepresented(nodeAttrs, edgeAttrs, nodesById, typeIndex, model, n.id, NodeEntry(k.value, attrs));
      nodeAttrs := nodeAttrs[n.id := attrs];
      nodesById := nodesById[n.id := n.id];
      typeIndex := typeIndex[k.value := typeIndex[k.value] + {n.id}];
      model := model.(nodes := model.nodes[n.id := NodeEntry(k.value, attrs)]);
      AddNodeFresh(old(model), n, k.value);
      outcome := Ok;
    }

    /** add_edge */
    method AddEdge(e: Edge) returns (outcome: Outcome)
      requires Valid()
      modifies this
      ensures Valid() && Step(model, outcome) == Graph.AddEdge(old(model), e)
    {
      if EdgeTypeNamed(e.kind).None? {
        return Fail(UnknownEdgeType(e.kind));
      }
      if e.src !in nodesById || e.dst !in nodesById {
        return Fail(MissingEndpoint);
      }
      if EdgeKeywordClash(e.props) {
        return Fail(KeywordClash);
      }
      var before := if (e.src, e.dst) in edgeAttrs then edgeAttrs[(e.src, e.dst)] else map[];
      var attrs := before + (map[TypeKey := Str(e.kind)] + e.props);
      LinkRepresented(nodeAttrs, edgeAttrs, nodesById, typeIndex, model, (e.src, e.dst), attrs);
      edgeAttrs := edgeAttrs[(e.src, e.dst) := attrs];
      model := model.(edges := model.edges[(e.src, e.dst) := attrs]);
      outcome := Ok;
    }

    /** _add_tenant */
    method AddTenant() returns (outcome: Outcome)
      requires Valid()
      modifies this
      ensures Valid() && Step(model, outcome) == Population.AddTenant(old(model), tenantId)
    {
      outcome := AddNode(Population.TenantNode(tenantId));
    }

    /** One iteration of _enumerate_subscriptions: the subscription's node, then its membership edge. */
    method AddSubscription(sid: string) returns (outcome: Outcome)
      requires Valid()
      modifies this
      ensures Valid() && Step(model, outcome) == Population.AddSubscription(old(model), tenantId, sid)
    {
      ghost var before := model;
      SubNodeAccepted(before, sid);
      outcome := AddNode(Population.SubNode(sid));
      ghost var between := model;
      outcome := AddEdge(Population.MemberEdge(tenantId, sid));
      NodeThenEdge(before, tenantId, sid, between, model, outcome);
    }

    /** _enumerate_subscriptions: one subscription node and one membership edge
        per enumerated id, in order; the first call that raises ends the loop. */
    method EnumerateSubscriptions() returns (outcome: Outcome)
      requires Valid()
      modifies this
      ensures Valid() && Step(model, outcome) == Population.EnumerateSubscriptions(old(model), tenantId, subs)
    {
      var ids := Population.SubIds(subs);
      var i := 0;
      while i < |ids|
        invariant 0 <= i <= |ids|
        invariant Valid()
        invariant Population.AddSubscriptions(old(model), tenantId, ids[..i]) == Step(model, Ok)
      {
        SubscriptionIteration(old(model), tenantId, ids, i);
        outcome := AddSubscription(ids[i]);
        if outcome.Fail? {
          Population.SubscriptionFailurePersists(old(model), tenantId, ids, i + 1);
          return;
        }
        i := i + 1;
      }
      assert ids[..i] == ids;
      outcome := Ok;
    }

    /** _enumerate_principals */
    method EnumeratePrincipals() returns (outcome: Outcome)
      requires Valid()
      modifies this
      ensures Valid() && Step(model, outcome) == Population.EnumeratePrincipals(old(model))
    {
      PrincipalsUnfold(old(model));
      outcome := AddNode(Population.Alice);
      if outcome.Fail? {
        return;
      }
      outcome := AddNode(Population.ContosoApp);
    }

    /** _enumerate_resources */
    method EnumerateResources() returns (outcome: Outcome)
      requires Valid()
      modifies this
      ensures Valid() && Step(model, outcome) == Population.EnumerateResources(old(model))
    {
      ResourcesUnfold(old(model));
      outcome := AddNode(Population.KeyVault);
      if outcome.Fail? {
        return;
      }
      outcome := AddNode(Population.Automation);
      if outcome.Fail? {
        return;
      }
      outcome := AddNode(Population.FunctionApp);
    }

    /** _enumerate_role_assignments */
    method EnumerateRoleAssignments() returns (outcome: Outcome)
      requires Valid()
      modifies this
      ensures Valid() && Step(model, outcome) == Population.EnumerateRoleAssignments(old(model))
    {
      RolesUnfold(old(model));
      outcome := AddEdge(Population.AdminRole);
      if outcome.Fail? {
        return;
      }
      outcome := AddEdge(Population.VaultPolicy);
    }

    /** build(): the five steps in order; the first call that raises ends it. */
    method Build() returns (outcome: Outcome)
      requires Valid()
      modifies this
      ensures Valid() && Step(model, outcome) == Population.Build(old(model), tenantId, subs)
    {
      outcome := AddTenant();
      if outcome.Fail? {
        return;
      }
      outcome := EnumerateSubscriptions();
      if outcome.Fail? {
        return;
      }
      outcome := EnumeratePrincipals();
      if outcome.Fail? {
        return;
      }
      outcome := EnumerateResources();
      if outcome.Fail? {
        return;
      }
      outcome := EnumerateRoleAssignments();
    }

    /** stats(): the number of nodes and of edges of the graph and the size of
        each type bucket; it is the report of the represented store, and its
        per-type counts add up to the node count. */
    function Stats(): (st: Graph.Stats)
      reads this
      requires Valid()
      ensures st == StatsOf(model)
      ensures TotalByType(st.byType) == st.nodes
    {
      var byType := map t | t in typeIndex :: |typeIndex[t]|;
      CountsAgree(typeIndex, model, byType);
      SameKeysSameSize(nodeAttrs, model);
      Graph.Stats(|nodeAttrs|, |edgeAttrs|, byType)
    }
  }

  /** A new builder's build() followed by stats(): it completes exactly when
      the default subscription is enumerated, raises the missing-endpoint error
      otherwise, and reports the tenant, the distinct subscriptions and the five
      fixed nodes, the membership edges and, when it completes, the two role edges. */
  method BuildAndReport(tid: string, subs: Population.Subs) returns (outcome: Outcome, st: Graph.Stats)
    ensures outcome == Ok <==> Population.DefaultSub in Population.SubIds(subs)
    ensures outcome.Fail? ==> outcome == Fail(MissingEndpoint)
    ensures var n := |Population.IdSet(Population.SubIds(subs))|;
      && st.nodes == 6 + n
      && st.edges == n + (if outcome == Ok then 2 else 0)
      && (forall t :: t in st.byType && st.byType[t] == Population.BuiltCount(t, n))
  {
    var b := new GraphBuilder(tid, subs);
    outcome := b.Build();
    st := b.Stats();
    Population.BuildFromEmpty(tid, subs);
  }

  /** A new builder with "all": build() completes and stats() reports seven
      nodes, three edges and the per-type counts of the stub data. */
  method BuildAllAndReport(tid: string) returns (outcome: Outcome, st: Graph.Stats)
    ensures outcome == Ok && st == Graph.Stats(7, 3, Population.AllCounts)
  {
    var b := new GraphBuilder(tid, Population.SubsText("all"));
    outcome := b.Build();
    st := b.Stats();
    Population.BuildAll(tid);
  }

  /** A fresh index has an empty bucket for every node type. */
  lemma EmptyIndexed(typeIndex: map<NodeType, set<string>>)
    requires typeIndex == map[
      TENANT := {}, SUBSCRIPTION := {}, RESOURCE_GROUP := {}, PRINCIPAL := {}, APP := {},
      KEYVAULT := {}, AUTOMATION_ACCOUNT := {}, FUNCTION_APP := {}, ROLE_DEFINITION := {}]
    ensures forall t :: t in typeIndex && typeIndex[t] == Bucket(Empty(), t)
  {
    forall t ensures t in typeIndex && typeIndex[t] == Bucket(Empty(), t) {
      match t
      case TENANT => case SUBSCRIPTION => case RESOURCE_GROUP => case PRINCIPAL => case APP =>
      case KEYVAULT => case AUTOMATION_ACCOUNT => case FUNCTION_APP => case ROLE_DEFINITION =>
    }
  }

  /** The fields of a builder represent the store s: the graph holds its
      attribute dictionaries, the id table its ids (each mapped to itself), the
      type index one bucket per node type, and every edge endpoint is a node. */
  ghost predicate Represents(nodeAttrs: map<string, Props>, edgeAttrs: map<(string, string), Props>,
                             nodesById: map<string, string>, typeIndex: map<NodeType, set<string>>, s: Store) {
    && GraphHolds(nodeAttrs, edgeAttrs, s)
    && IdsHeld(nodesById, s)
    && Indexed(typeIndex, s)
    && Inv(s)
  }

  /** The graph holds the attribute dictionaries of the store's nodes and edges. */
  ghost predicate GraphHolds(nodeAttrs: map<string, Props>, edgeAttrs: map<(string, string), Props>, s: Store) {
    && nodeAttrs.Keys == s.nodes.Keys
    && (forall id :: id in s.nodes ==> nodeAttrs[id] == s.nodes[id].attrs)
    && edgeAttrs == s.edges
  }

  /** The id table maps each node id to itself. */
  ghost predicate IdsHeld(nodesById: map<string, string>, s: Store) {
    && nodesById.Keys == s.nodes.Keys
    && (forall id :: id in nodesById ==> nodesById[id] == id)
  }

  /** The type index has the bucket of every node type. */
  ghost predicate Indexed(typeIndex: map<NodeType, set<string>>, s: Store) {
    forall t :: t in typeIndex && typeIndex[t] == Bucket(s, t)
  }

  /** In a valid builder the type index holds a bucket for every node type, and an
      id lies in the bucket of t exactly when the id table holds it and it was
      first inserted with type t: each node sits in one bucket, whatever later
      merges did to its "type" attribute, and no other id sits in any. */
  lemma TypeIndexExact(b: GraphBuilder, id: string, t: NodeType)
    requires b.Valid()
    ensures t in b.typeIndex
    ensures id in b.typeIndex[t] <==> id in b.nodesById && b.model.nodes[id].kind == t
  {
    assert b.nodesById.Keys == b.model.nodes.Keys;
    assert b.typeIndex[t] == Bucket(b.model, t);
  }

  /** Inserting a new node into the graph, the id table and its type's bucket represents the store with its entry. */
  lemma InsertRepresented(nodeAttrs: map<string, Props>, edgeAttrs: map<(string, string), Props>,
                          nodesById: map<string, string>, typeIndex: map<NodeType, set<string>>, s: Store,
                          id: string, entry: NodeEntry)
    requires Represents(nodeAttrs, edgeAttrs, nodesById, typeIndex, s) && id !in s.nodes
    ensures Represents(nodeAttrs[id := entry.attrs], edgeAttrs, nodesById[id := id],
                       typeIndex[entry.kind := typeIndex[entry.kind] + {id}], s.(nodes := s.nodes[id := entry]))
  {
    var s' := s.(nodes := s.nodes[id := entry]);
    InsertIndexed(typeIndex, s, id, entry);
    assert GraphHolds(nodeAttrs[id := entry.attrs], edgeAttrs, s');
    assert IdsHeld(nodesById[id := id], s');
  }

  /** Adding a new id to its type's bucket indexes the store with its entry. */
  lemma InsertIndexed(typeIndex: map<NodeType, set<string>>, s: Store, id: string, entry: NodeEntry)
    requires Indexed(typeIndex, s) && id !in s.nodes
    ensures Indexed(typeIndex[entry.kind := typeIndex[entry.kind] + {id}], s.(nodes := s.nodes[id := entry]))
  {
    BucketsAfterInsert(s, id, entry);
  }

  /** Merging properties into a known node's dictionary represents the store with its attributes merged. */
  lemma MergeRepresented(nodeAttrs: map<string, Props>, edgeAttrs: map<(string, string), Props>,
                         nodesById: map<string, string>, typeIndex: map<NodeType, set<string>>, s: Store,
                         id: string, props: Props)
    requires Represents(nodeAttrs, edgeAttrs, nodesById, typeIndex, s) && id in nodesById
    ensures var e := s.nodes[id];
      Represents(nodeAttrs[id := nodeAttrs[id] + props], edgeAttrs, nodesById, typeIndex,
                 s.(nodes := s.nodes[id := e.(attrs := e.attrs + props)]))
  {
    var e := s.nodes[id];
    var s' := s.(nodes := s.nodes[id := e.(attrs := e.attrs + props)]);
    forall t ensures Bucket(s', t) == Bucket(s, t) {
    }
  }

  /** Setting the dictionary of a pair of nodes represents the store with that edge. */
  lemma LinkRepresented(nodeAttrs: map<string, Props>, edgeAttrs: map<(string, string), Props>,
                        nodesById: map<string, string>, typeIndex: map<NodeType, set<string>>, s: Store,
                        p: (string, string), attrs: Props)
    requires Represents(nodeAttrs, edgeAttrs, nodesById, typeIndex, s) && p.0 in nodesById && p.1 in nodesById
    ensures Represents(nodeAttrs, edgeAttrs[p := attrs], nodesById, typeIndex, s.(edges := s.edges[p := attrs]))
  {
    var s' := s.(edges := s.edges[p := attrs]);
    forall t ensures Bucket(s', t) == Bucket(s, t) {
    }
  }

  /** The loop's next iteration is the subscription step on the store so far. */
  lemma SubscriptionIteration(s: Store, tid: string, ids: seq<string>, i: nat)
    requires i < |ids| && Population.AddSubscriptions(s, tid, ids[..i]).outcome == Ok
    ensures Population.AddSubscriptions(s, tid, ids[..i + 1]) ==
            Population.AddSubscription(Population.AddSubscriptions(s, tid, ids[..i]).store, tid, ids[i])
  {
    assert ids[..i + 1][..i] == ids[..i];
  }

  /** add_node of a known id of a valid type merges the properties into its entry. */
  lemma MergeStep(s: Store, n: Node)
    requires NodeTypeNamed(n.kind).Some? && n.id in s.nodes
    ensures var e := s.nodes[n.id];
      Graph.AddNode(s, n) == Step(s.(nodes := s.nodes[n.id := e.(attrs := e.attrs + n.props)]), Ok)
  {
  }

  /** A subscription node is always accepted: its type is in the schema and its
      properties clash with no add_node keyword, so the iteration's add_node never raises. */
  lemma SubNodeAccepted(s: Store, x: string)
    ensures Graph.AddNode(s, Population.SubNode(x)).outcome == Ok
  {
  }

  /** An iteration whose add_node completes ends as its add_edge does. */
  lemma NodeThenEdge(s: Store, tid: string, x: string, s': Store, s'': Store, o: Outcome)
    requires Graph.AddNode(s, Population.SubNode(x)) == Step(s', Ok)
    requires Graph.AddEdge(s', Population.MemberEdge(tid, x)) == Step(s'', o)
    ensures Population.AddSubscription(s, tid, x) == Step(s'', o)
  {
  }

  /** A run of one add_node call is that call. */
  lemma OneNode(s: Store, n: Node)
    ensures Population.AddNodes(s, [n]) == Graph.AddNode(s, n)
  {
    var r := Graph.AddNode(s, n);
    if r.outcome == Ok {
      assert Population.AddNodes(r.store, []) == r;
    }
  }

  /** A run of one add_edge call is that call. */
  lemma OneEdge(s: Store, e: Edge)
    ensures Population.AddEdges(s, [e]) == Graph.AddEdge(s, e)
  {
    var r := Graph.AddEdge(s, e);
    if r.outcome == Ok {
      assert Population.AddEdges(r.store, []) == r;
    }
  }

  /** A run of two add_node calls is the first, then the second unless the first raised. */
  lemma TwoNodes(s: Store, n: Node, n': Node)
    ensures Population.AddNodes(s, [n, n']) == Population.ThenNode(Graph.AddNode(s, n), n')
  {
    assert [n, n'][1..] == [n'];
    OneNode(Graph.AddNode(s, n).store, n');
  }

  /** _enumerate_principals is two add_node calls. */
  lemma PrincipalsUnfold(s: Store)
    ensures Population.EnumeratePrincipals(s) ==
            Population.ThenNode(Graph.AddNode(s, Population.Alice), Population.ContosoApp)
  {
    TwoNodes(s, Population.Alice, Population.ContosoApp);
  }

  /** _enumerate_resources is three add_node calls. */
  lemma ResourcesUnfold(s: Store)
    ensures Population.EnumerateResources(s) ==
            Population.ThenNode(Population.ThenNode(Graph.AddNode(s, Population.KeyVault), Population.Automation),
                                Population.FunctionApp)
  {
    var rest := [Population.Automation, Population.FunctionApp];
    assert Population.ResourceNodes[1..] == rest;
    TwoNodes(Graph.AddNode(s, Population.KeyVault).store, Population.Automation, Population.FunctionApp);
  }

  /** _enumerate_role_assignments is two add_edge calls. */
  lemma RolesUnfold(s: Store)
    ensures Population.EnumerateRoleAssignments(s) ==
            Population.ThenEdge(Graph.AddEdge(s, Population.AdminRole), Population.VaultPolicy)
  {
    assert Population.RoleEdges[1..] == [Population.VaultPolicy];
    OneEdge(Graph.AddEdge(s, Population.AdminRole).store, Population.VaultPolicy);
  }

  /** The bucket sizes read off the type index are the store's counts per type. */
  lemma CountsAgree(typeIndex: map<NodeType, set<string>>, s: Store, byType: map<NodeType, nat>)
    requires Indexed(typeIndex, s)
    requires byType == map t | t in typeIndex :: |typeIndex[t]|
    ensures byType == CountsByType(s)
  {
    var counts := CountsByType(s);
    forall t ensures t in byType && byType[t] == counts[t] {
    }
  }

  /** Maps with the same keys have the same size. */
  lemma SameKeysSameSize(nodeAttrs: map<string, Props>, s: Store)
    requires nodeAttrs.Keys == s.nodes.Keys
    ensures |nodeAttrs| == |s.nodes|
  {
    assert |nodeAttrs| == |nodeAttrs.Keys|;
    assert |s.nodes| == |s.nodes.Keys|;
  }
}

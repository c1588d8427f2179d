/** The attack-path graph store of GraphBuilder, as values.

    The store is a simple directed graph: one attribute dictionary per node id
    and one per ordered pair (src, dst).  A node's or an edge's type lives in its
    dictionary under the key "type", next to the caller's properties, as networkx
    keeps them.  Beside the graph the builder records, for each id, the type it
    was first inserted with (the id table and the type index together); here that
    record is the kind of a node's entry, and the index buckets are Bucket(s, t). */
module Graph {

  /** A property value (the stub data only ever stores strings). */
  datatype Scalar = Str(s: string) | Int(i: int) | Bool(b: bool) | Null

  type Props = map<string, Scalar>

  datatype Option<T> = None | Some(value: T)

  /** The closed set of node types. */
  datatype NodeType =
    | TENANT | SUBSCRIPTION | RESOURCE_GROUP | PRINCIPAL | APP | KEYVAULT
    | AUTOMATION_ACCOUNT | FUNCTION_APP | ROLE_DEFINITION

  /** The closed set of edge types; derived types such as CAN_GRANT_ANY_ROLE are not in it. */
  datatype EdgeType =
    | HAS_ROLE | OWNS_APP | CAN_ADD_CREDENTIAL | CAN_SET_POLICY | CAN_WRITE_RUNBOOK
    | CAN_DEPLOY_FUNCTION | MEMBER_OF | GRANTS_ROLE

  /** The name under which a node type is written. */
  function NodeTypeName(t: NodeType): string {
    match t
    case TENANT => "TENANT"
    case SUBSCRIPTION => "SUBSCRIPTION"
    case RESOURCE_GROUP => "RESOURCE_GROUP"
    case PRINCIPAL => "PRINCIPAL"
    case APP => "APP"
    case KEYVAULT => "KEYVAULT"
    case AUTOMATION_ACCOUNT => "AUTOMATION_ACCOUNT"
    case FUNCTION_APP => "FUNCTION_APP"
    case ROLE_DEFINITION => "ROLE_DEFINITION"
  }

  /** The name under which an edge type is written. */
  function EdgeTypeName(t: EdgeType): string {
    match t
    case HAS_ROLE => "HAS_ROLE"
    case OWNS_APP => "OWNS_APP"
    case CAN_ADD_CREDENTIAL => "CAN_ADD_CREDENTIAL"
    case CAN_SET_POLICY => "CAN_SET_POLICY"
    case CAN_WRITE_RUNBOOK => "CAN_WRITE_RUNBOOK"
    case CAN_DEPLOY_FUNCTION => "CAN_DEPLOY_FUNCTION"
    case MEMBER_OF => "MEMBER_OF"
    case GRANTS_ROLE => "GRANTS_ROLE"
  }

  /** The node type a string names, if any: membership in the node schema. */
  function NodeTypeNamed(name: string): (r: Option<NodeType>)
    ensures r.Some? ==> NodeTypeName(r.value) == name
  {
    if name == "TENANT" then Some(TENANT)
    else if name == "SUBSCRIPTION" then Some(SUBSCRIPTION)
    else if name == "RESOURCE_GROUP" then Some(RESOURCE_GROUP)
    else if name == "PRINCIPAL" then Some(PRINCIPAL)
    else if name == "APP" then Some(APP)
    else if name == "KEYVAULT" then Some(KEYVAULT)
    else if name == "AUTOMATION_ACCOUNT" then Some(AUTOMATION_ACCOUNT)
    else if name == "FUNCTION_APP" then Some(FUNCTION_APP)
    else if name == "ROLE_DEFINITION" then Some(ROLE_DEFINITION)
    else None
  }

  /** The edge type a string names, if any: membership in the edge schema. */
  function EdgeTypeNamed(name: string): (r: Option<EdgeType>)
    ensures r.Some? ==> EdgeTypeName(r.value) == name
  {
    if name == "HAS_ROLE" then Some(HAS_ROLE)
    else if name == "OWNS_APP" then Some(OWNS_APP)
    else if name == "CAN_ADD_CREDENTIAL" then Some(CAN_ADD_CREDENTIAL)
    else if name == "CAN_SET_POLICY" then Some(CAN_SET_POLICY)
    else if name == "CAN_WRITE_RUNBOOK" then Some(CAN_WRITE_RUNBOOK)
    else if name == "CAN_DEPLOY_FUNCTION" then Some(CAN_DEPLOY_FUNCTION)
    else if name == "MEMBER_OF" then Some(MEMBER_OF)
    else if name == "GRANTS_ROLE" then Some(GRANTS_ROLE)
    else None
  }

  /** Every name of a node type is recognised as that type. */
  lemma NodeTypeNamesRecognised(t: NodeType)
    ensures NodeTypeNamed(NodeTypeName(t)) == Some(t)
  {
    match t
    case TENANT => case SUBSCRIPTION => case RESOURCE_GROUP => case PRINCIPAL => case APP =>
    case KEYVAULT => case AUTOMATION_ACCOUNT => case FUNCTION_APP => case ROLE_DEFINITION =>
  }

  /** Every name of an edge type is recognised as that type. */
  lemma EdgeTypeNamesRecognised(t: EdgeType)
    ensures EdgeTypeNamed(EdgeTypeName(t)) == Some(t)
  {
    match t
    case HAS_ROLE => case OWNS_APP => case CAN_ADD_CREDENTIAL => case CAN_SET_POLICY =>
    case CAN_WRITE_RUNBOOK => case CAN_DEPLOY_FUNCTION => case MEMBER_OF => case GRANTS_ROLE =>
  }

  /** The attribute key under which a node's or an edge's type is stored. */
  const TypeKey: string := "type"

  /** A node's properties are passed as keyword arguments to networkx's
      add_node(self, node_for_adding, **attr) beside type=: a property named
      after one of these parameters raises TypeError. */
  predicate NodeKeywordClash(props: Props) {
    TypeKey in props || "self" in props || "node_for_adding" in props
  }

  /** An edge's properties are passed as keyword arguments to networkx's
      add_edge(self, u_of_edge, v_of_edge, **attr) beside type=: a property
      named after one of these parameters raises TypeError. */
  predicate EdgeKeywordClash(props: Props) {
    TypeKey in props || "self" in props || "u_of_edge" in props || "v_of_edge" in props
  }

  /** A node as callers pass it; kind is the type name, checked against the schema. */
  datatype Node = Node(id: string, kind: string, props: Props)

  /** An edge as callers pass it; kind is the type name, checked against the schema. */
  datatype Edge = Edge(src: string, dst: string, kind: string, props: Props)

  /** What a rejected call raises. */
  datatype Error =
    | UnknownNodeType(kind: string)  // ValueError "Unknown node type: <kind>"
    | UnknownEdgeType(kind: string)  // ValueError "Unknown edge type: <kind>"
    | MissingEndpoint                // ValueError "Both src and dst nodes must exist ..."
    | KeywordClash                   // TypeError: a property repeats a keyword argument of the networkx call

  datatype Outcome = Ok | Fail(error: Error)

  /** A node of the store: the type its id was first inserted with, and its attribute dictionary. */
  datatype NodeEntry = NodeEntry(kind: NodeType, attrs: Props)

  /** The node table keyed by id and the edge table keyed by the ordered pair. */
  datatype Store = Store(nodes: map<string, NodeEntry>, edges: map<(string, string), Props>)

  /** The store after a call, and whether the call raised. */
  datatype Step = Step(store: Store, outcome: Outcome)

  /** What stats() reports: node count, edge count and ids per node type. */
  datatype Stats = Stats(nodes: nat, edges: nat, byType: map<NodeType, nat>)

  /** Every edge endpoint is a node. */
  ghost predicate Inv(s: Store) {
    forall p :: p in s.edges ==> p.0 in s.nodes && p.1 in s.nodes
  }

  /** The type index bucket of t: the ids first inserted with type t. */
  function Bucket(s: Store, t: NodeType): set<string> {
    set id | id in s.nodes && s.nodes[id].kind == t
  }

  /** The store of a freshly constructed builder. */
  function Empty(): (s: Store)
    ensures Inv(s)
    ensures forall t :: Bucket(s, t) == {}
  {
    Store(map[], map[])
  }

  /** add_node: reject an unknown type; merge the properties into an id already
      known (its recorded type stays); otherwise insert the node, storing its type
      under "type", and record the type for its id. */
  function AddNode(s: Store, n: Node): (r: Step)
    ensures Inv(s) ==> Inv(r.store)
  {
    var k := NodeTypeNamed(n.kind);
    if k.None? then
      Step(s, Fail(UnknownNodeType(n.kind)))
    else if n.id in s.nodes then
      var e := s.nodes[n.id];
      Step(s.(nodes := s.nodes[n.id := e.(attrs := e.attrs + n.props)]), Ok)
    else if NodeKeywordClash(n.props) then
      Step(s, Fail(KeywordClash))
    else
      var attrs := map[TypeKey := Str(n.kind)] + n.props;
      Step(s.(nodes := s.nodes[n.id := NodeEntry(k.value, attrs)]), Ok)
  }

  /** The attributes stored for the pair (src, dst), or none. */
  function EdgeAttrs(s: Store, src: string, dst: string): Props {
    if (src, dst) in s.edges then s.edges[(src, dst)] else map[]
  }

  /** add_edge: reject an unknown type or a missing endpoint; otherwise update
      the one attribute dictionary of the pair (src, dst) with the type and the
      properties. */
  function AddEdge(s: Store, e: Edge): (r: Step)
    ensures Inv(s) ==> Inv(r.store)
    ensures forall t :: Bucket(r.store, t) == Bucket(s, t)
  {
    if EdgeTypeNamed(e.kind).None? then
      Step(s, Fail(UnknownEdgeType(e.kind)))
    else if e.src !in s.nodes || e.dst !in s.nodes then
      Step(s, Fail(MissingEndpoint))
    else if EdgeKeywordClash(e.props) then
      Step(s, Fail(KeywordClash))
    else
      var attrs := EdgeAttrs(s, e.src, e.dst) + (map[TypeKey := Str(e.kind)] + e.props);
      Step(s.(edges := s.edges[(e.src, e.dst) := attrs]), Ok)
  }

  // ---------------------------------------------------------------------------
  // stats()

  /** The size of every type bucket. */
  function CountsByType(s: Store): (counts: map<NodeType, nat>)
    ensures forall t :: t in counts && counts[t] == |Bucket(s, t)|
  {
    var counts := map[
      TENANT := |Bucket(s, TENANT)|, SUBSCRIPTION := |Bucket(s, SUBSCRIPTION)|,
      RESOURCE_GROUP := |Bucket(s, RESOURCE_GROUP)|, PRINCIPAL := |Bucket(s, PRINCIPAL)|,
      APP := |Bucket(s, APP)|, KEYVAULT := |Bucket(s, KEYVAULT)|,
      AUTOMATION_ACCOUNT := |Bucket(s, AUTOMATION_ACCOUNT)|, FUNCTION_APP := |Bucket(s, FUNCTION_APP)|,
      ROLE_DEFINITION := |Bucket(s, ROLE_DEFINITION)|];
    EveryTypeCounted(s, counts);
    counts
  }

  /** A map that has an entry for each of the nine node types covers every node type. */
  lemma EveryTypeCounted(s: Store, counts: map<NodeType, nat>)
    requires counts == map[
      TENANT := |Bucket(s, TENANT)|, SUBSCRIPTION := |Bucket(s, SUBSCRIPTION)|,
      RESOURCE_GROUP := |Bucket(s, RESOURCE_GROUP)|, PRINCIPAL := |Bucket(s, PRINCIPAL)|,
      APP := |Bucket(s, APP)|, KEYVAULT := |Bucket(s, KEYVAULT)|,
      AUTOMATION_ACCOUNT := |Bucket(s, AUTOMATION_ACCOUNT)|, FUNCTION_APP := |Bucket(s, FUNCTION_APP)|,
      ROLE_DEFINITION := |Bucket(s, ROLE_DEFINITION)|]
    ensures forall t :: t in counts && counts[t] == |Bucket(s, t)|
  {
    forall t ensures t in counts && counts[t] == |Bucket(s, t)| {
      match t
      case TENANT => case SUBSCRIPTION => case RESOURCE_GROUP => case PRINCIPAL => case APP =>
      case KEYVAULT => case AUTOMATION_ACCOUNT => case FUNCTION_APP => case ROLE_DEFINITION =>
    }
  }

  /** The sum of the per-type counts of a stats report. */
  function TotalByType(byType: map<NodeType, nat>): nat
    requires forall t :: t in byType
  {
    byType[TENANT] + byType[SUBSCRIPTION] + byType[RESOURCE_GROUP] + byType[PRINCIPAL] + byType[APP] +
    byType[KEYVAULT] + byType[AUTOMATION_ACCOUNT] + byType[FUNCTION_APP] + byType[ROLE_DEFINITION]
  }

  /** stats(): the node count, the edge count and the size of each type bucket.
      The report has an entry, possibly 0, for every node type, and its entries
      add up to the node count. */
  function StatsOf(s: Store): (st: Stats)
    ensures forall t :: t in st.byType && st.byType[t] == |Bucket(s, t)|
    ensures TotalByType(st.byType) == st.nodes
  {
    BucketSizesAddUp(s);
    Stats(|s.nodes|, |s.edges|, CountsByType(s))
  }

  /** The buckets partition the node ids, so their sizes add up to the node count. */
  lemma {:induction false} BucketSizesAddUp(s: Store)
    ensures TotalByType(CountsByType(s)) == |s.nodes|
    decreases |s.nodes|
  {
    if s.nodes != map[] {
      var x :| x in s.nodes;
      var rest := s.(nodes := s.nodes - {x});
      assert s.nodes == rest.nodes[x := s.nodes[x]];
      BucketSizesAddUp(rest);
      BucketsAfterInsert(rest, x, s.nodes[x]);
      CountStep(CountsByType(s), CountsByType(rest), s.nodes[x].kind);
    }
  }

  /** Inserting a new id adds it to the bucket of its kind and to no other. */
  lemma BucketsAfterInsert(s: Store, id: string, entry: NodeEntry)
    requires id !in s.nodes
    ensures var s' := s.(nodes := s.nodes[id := entry]);
      forall t :: Bucket(s', t) == if t == entry.kind then Bucket(s, t) + {id} else Bucket(s, t)
    ensures var s' := s.(nodes := s.nodes[id := entry]);
      forall t :: |Bucket(s', t)| == |Bucket(s, t)| + if t == entry.kind then 1 else 0
  {
    var s' := s.(nodes := s.nodes[id := entry]);
    forall t ensures Bucket(s', t) == if t == entry.kind then Bucket(s, t) + {id} else Bucket(s, t) {
    }
  }

  /** One more id of type k adds one to the total of the counts. */
  lemma CountStep(c: map<NodeType, nat>, c': map<NodeType, nat>, k: NodeType)
    requires forall t :: t in c && t in c'
    requires forall t :: c[t] == c'[t] + if t == k then 1 else 0
    ensures TotalByType(c) == TotalByType(c') + 1
  {
    match k
    case TENANT => case SUBSCRIPTION => case RESOURCE_GROUP => case PRINCIPAL => case APP =>
    case KEYVAULT => case AUTOMATION_ACCOUNT => case FUNCTION_APP => case ROLE_DEFINITION =>
  }

  // ---------------------------------------------------------------------------
  // The type index

  /** Every node id lies in exactly one bucket, that of its recorded type, and
      an id that is not a node in none. */
  lemma ExactlyOneBucket(s: Store, id: string)
    ensures id in s.nodes ==> id in Bucket(s, s.nodes[id].kind) &&
                              forall t :: id in Bucket(s, t) ==> t == s.nodes[id].kind
    ensures id !in s.nodes ==> forall t :: id !in Bucket(s, t)
  {
  }

  // ---------------------------------------------------------------------------
  // add_node

  /** A node type outside the schema is rejected and nothing changes, whether or not the id is known. */
  lemma AddNodeRejectsUnknownType(s: Store, n: Node)
    requires NodeTypeNamed(n.kind).None?
    ensures AddNode(s, n) == Step(s, Fail(UnknownNodeType(n.kind)))
  {
  }

  /** A new id is inserted with its type and properties; every other node and
      every edge stays. */
  lemma AddNodeInsertsNew(s: Store, n: Node, k: NodeType)
    requires NodeTypeName(k) == n.kind && n.id !in s.nodes && !NodeKeywordClash(n.props)
    ensures var r := AddNode(s, n);
      && r.outcome == Ok
      && r.store.nodes.Keys == s.nodes.Keys + {n.id}
      && r.store.nodes[n.id].kind == k
      && r.store.nodes[n.id].attrs.Keys == n.props.Keys + {TypeKey}
      && r.store.nodes[n.id].attrs[TypeKey] == Str(n.kind)
      && (forall key :: key in n.props ==> r.store.nodes[n.id].attrs[key] == n.props[key])
      && (forall id :: id in s.nodes ==> r.store.nodes[id] == s.nodes[id])
      && r.store.edges == s.edges
  {
    NodeTypeNamesRecognised(k);
  }

  /** A new id lands in the bucket of its type and in no other, and adds one to
      the node count and to that type's count; the edge count stays. */
  lemma AddNodeCountsNew(s: Store, n: Node, k: NodeType)
    requires NodeTypeName(k) == n.kind && n.id !in s.nodes && !NodeKeywordClash(n.props)
    ensures var r := AddNode(s, n);
      && (forall t :: Bucket(r.store, t) == if t == k then Bucket(s, t) + {n.id} else Bucket(s, t))
      && StatsOf(r.store).nodes == StatsOf(s).nodes + 1
      && StatsOf(r.store).edges == StatsOf(s).edges
      && (forall t :: StatsOf(r.store).byType[t] == StatsOf(s).byType[t] + (if t == k then 1 else 0))
  {
    var entry := NodeEntry(k, map[TypeKey := Str(n.kind)] + n.props);
    var s' := s.(nodes := s.nodes[n.id := entry]);
    AddNodeFresh(s, n, k);
    BucketsAfterInsert(s, n.id, entry);
    StatsAfterInsert(s, s', k);
  }

  /** One more node, of type k, and the same edges move stats() by one node and one of type k. */
  lemma StatsAfterInsert(s: Store, s': Store, k: NodeType)
    requires |s'.nodes| == |s.nodes| + 1 && s'.edges == s.edges
    requires forall t :: |Bucket(s', t)| == |Bucket(s, t)| + if t == k then 1 else 0
    ensures StatsOf(s').nodes == StatsOf(s).nodes + 1
    ensures StatsOf(s').edges == StatsOf(s).edges
    ensures forall t :: StatsOf(s').byType[t] == StatsOf(s).byType[t] + (if t == k then 1 else 0)
  {
  }

  /** A new id is inserted under its type with the type stored beside its properties. */
  lemma AddNodeFresh(s: Store, n: Node, k: NodeType)
    requires NodeTypeName(k) == n.kind && n.id !in s.nodes && !NodeKeywordClash(n.props)
    ensures AddNode(s, n) == Step(s.(nodes := s.nodes[n.id := NodeEntry(k, map[TypeKey := Str(n.kind)] + n.props)]), Ok)
  {
    NodeTypeNamesRecognised(k);
  }

  /** A new id adds one to the size of its type's bucket and nothing to the others. */
  lemma AddNodeCountsOne(s: Store, n: Node, k: NodeType, t: NodeType)
    requires NodeTypeName(k) == n.kind && n.id !in s.nodes && !NodeKeywordClash(n.props)
    ensures |Bucket(AddNode(s, n).store, t)| == |Bucket(s, t)| + if t == k then 1 else 0
  {
    NodeTypeNamesRecognised(k);
    var entry := NodeEntry(k, map[TypeKey := Str(n.kind)] + n.props);
    assert AddNode(s, n).store == s.(nodes := s.nodes[n.id := entry]);
    BucketsAfterInsert(s, n.id, entry);
  }

  /** An id that is already a node gets its properties merged, last write
      winning and other keys kept; its recorded type, the buckets, the node
      count and the edges stay, even when the new node names another valid type. */
  lemma AddNodeMergesExisting(s: Store, n: Node)
    requires NodeTypeNamed(n.kind).Some? && n.id in s.nodes
    ensures var r := AddNode(s, n);
      var before, after := s.nodes[n.id].attrs, r.store.nodes[n.id].attrs;
      && r.outcome == Ok
      && r.store.nodes.Keys == s.nodes.Keys
      && r.store.nodes[n.id].kind == s.nodes[n.id].kind
      && after.Keys == before.Keys + n.props.Keys
      && (forall key :: key in n.props ==> after[key] == n.props[key])
      && (forall key :: key in before && key !in n.props ==> after[key] == before[key])
      && (forall id :: id in s.nodes && id != n.id ==> r.store.nodes[id] == s.nodes[id])
      && r.store.edges == s.edges
      && (forall t :: Bucket(r.store, t) == Bucket(s, t))
      && StatsOf(r.store) == StatsOf(s)
  {
    var r := AddNode(s, n);
    forall t ensures Bucket(r.store, t) == Bucket(s, t) {
    }
  }

  /** A new id whose properties repeat a keyword argument of networkx's add_node
      ("type", "self", "node_for_adding") raises the keyword clash and changes nothing. */
  lemma AddNodeRejectsKeywordClash(s: Store, n: Node)
    requires NodeTypeNamed(n.kind).Some? && n.id !in s.nodes && NodeKeywordClash(n.props)
    ensures AddNode(s, n) == Step(s, Fail(KeywordClash))
  {
  }

  /** Adding the same node twice leaves the store as adding it once. */
  lemma AddNodeIdempotent(s: Store, n: Node)
    ensures AddNode(AddNode(s, n).store, n).store == AddNode(s, n).store
  {
    var r := AddNode(s, n);
    if r.outcome == Ok {
      var a := r.store.nodes[n.id].attrs;
      assert a + n.props == a;
    }
  }

  // ---------------------------------------------------------------------------
  // add_edge

  /** An edge type outside the schema is rejected and nothing changes. */
  lemma AddEdgeRejectsUnknownType(s: Store, e: Edge)
    requires EdgeTypeNamed(e.kind).None?
    ensures AddEdge(s, e) == Step(s, Fail(UnknownEdgeType(e.kind)))
  {
  }

  /** The derived type that the escalation rule produces is not a storable edge type. */
  lemma DerivedEdgeTypeRejected(s: Store, src: string, dst: string, props: Props)
    ensures AddEdge(s, Edge(src, dst, "CAN_GRANT_ANY_ROLE", props)) ==
            Step(s, Fail(UnknownEdgeType("CAN_GRANT_ANY_ROLE")))
  {
  }

  /** An edge of a valid type with an endpoint that is not a node is rejected and nothing changes. */
  lemma AddEdgeRejectsDangling(s: Store, e: Edge)
    requires EdgeTypeNamed(e.kind).Some? && (e.src !in s.nodes || e.dst !in s.nodes)
    ensures AddEdge(s, e) == Step(s, Fail(MissingEndpoint))
  {
  }

  /** A valid edge between existing nodes whose properties repeat a keyword argument
      of networkx's add_edge ("type", "self", "u_of_edge", "v_of_edge") raises the
      keyword clash and changes nothing. */
  lemma AddEdgeRejectsKeywordClash(s: Store, e: Edge)
    requires EdgeTypeNamed(e.kind).Some? && e.src in s.nodes && e.dst in s.nodes && EdgeKeywordClash(e.props)
    ensures AddEdge(s, e) == Step(s, Fail(KeywordClash))
  {
  }

  /** A valid edge between existing nodes updates the one attribute dictionary
      of its pair: old properties are overridden by the new ones and "type"
      becomes the new edge type; the edge count grows by one only for a new pair;
      the nodes stay. */
  lemma AddEdgeUpdatesPair(s: Store, e: Edge)
    requires EdgeTypeNamed(e.kind).Some? && e.src in s.nodes && e.dst in s.nodes && !EdgeKeywordClash(e.props)
    ensures var r := AddEdge(s, e);
      var p := (e.src, e.dst);
      var before := EdgeAttrs(s, e.src, e.dst);
      && r.outcome == Ok
      && r.store.edges.Keys == s.edges.Keys + {p}
      && r.store.edges[p].Keys == before.Keys + e.props.Keys + {TypeKey}
      && r.store.edges[p][TypeKey] == Str(e.kind)
      && (forall key :: key in e.props ==> r.store.edges[p][key] == e.props[key])
      && (forall key :: key in before && key !in e.props && key != TypeKey ==> r.store.edges[p][key] == before[key])
      && (forall q :: q in s.edges && q != p ==> r.store.edges[q] == s.edges[q])
      && r.store.nodes == s.nodes
  {
  }

  /** A valid edge between existing nodes adds one to the edge count for a new
      pair and nothing for a pair already linked; the node counts stay. */
  lemma AddEdgeCountsPair(s: Store, e: Edge)
    requires EdgeTypeNamed(e.kind).Some? && e.src in s.nodes && e.dst in s.nodes && !EdgeKeywordClash(e.props)
    ensures var st, st' := StatsOf(s), StatsOf(AddEdge(s, e).store);
      && st'.edges == st.edges + (if (e.src, e.dst) in s.edges then 0 else 1)
      && st'.nodes == st.nodes
      && st'.byType == st.byType
  {
    var r := AddEdge(s, e);
    assert r.store.nodes == s.nodes;
    assert r.store.edges.Keys == s.edges.Keys + {(e.src, e.dst)};
  }

  /** Adding the same edge twice leaves the store as adding it once. */
  lemma AddEdgeIdempotent(s: Store, e: Edge)
    ensures AddEdge(AddEdge(s, e).store, e).store == AddEdge(s, e).store
  {
    var r := AddEdge(s, e);
    if r.outcome == Ok {
      var a := r.store.edges[(e.src, e.dst)];
      var upd := map[TypeKey := Str(e.kind)] + e.props;
      assert a + upd == a;
    }
  }
}

# GraphBuilder of azure-privesc-toolkit, modelled and proved in Dafny

`GraphBuilder` (`src/azpe/graph.py`) is the in-memory attack-path graph store of
the Azure privilege-escalation toolkit. It holds a networkx directed graph with
one attribute dictionary per node id and per ordered pair `(src, dst)`. Beside
the graph it keeps an id table (`_nodes_by_id`) and a type index
(`_type_index`, one id set per node type). It checks every node and edge against
a closed schema: nine node types and eight raw edge types. Its `build()` fills
the graph from stub enumerators in a fixed order: tenant, subscriptions,
principals, resources, role assignments. `stats()` reports the node count, the
edge count and the size of each type bucket.

The project has three modules:

- `graph.dfy` (module `Graph`): the schema and the store as values. `AddNode`
  and `AddEdge` are functions from a store and a node or edge to a `Step`
  holding the new store and an outcome (`Ok` or `Fail(error)`). The
  `ValueError` of a schema or endpoint check, and the `TypeError` of a
  keyword clash (below), each become a `Fail` whose store is the old one.
  `StatsOf` is `stats()`. Lemmas state the schema checks, insertion, merging,
  idempotence, and how every operation moves the counts.
- `population.dfy` (module `Population`): the five `build()` stages and their
  fixed stub data as functions over the store. Lemmas follow a build from a
  fresh store through every stage. The end-to-end result, `BuildFromEmpty`,
  covers every `subs` argument:
  - The build succeeds exactly when the default subscription id
    `00000000-0000-0000-0000-000000000000` is among the enumerated
    subscriptions. Otherwise it stops with the missing-endpoint error.
  - The cause is the hard-coded `HAS_ROLE` edge from Alice to
    `sub:00000000-…`, which names that subscription.
  - Either way, the graph has `6 + n` nodes, where `n` is the number of
    distinct subscription ids. It has `n` `MEMBER_OF` edges, plus 2 on success.
  - Every edge endpoint is a node.
  - Each type bucket has a fixed size: 1 tenant, `n` subscriptions,
    2 principals, 1 key vault, 1 automation account, 1 function app, and 0 of
    every other type.
  - With the default `subs = "all"`, the result is 7 nodes, 3 edges and those
    counts with `n = 1`.
- `builder.dfy` (module `Builder`): `GraphBuilder` as a class. Its fields
  mirror `self.g` (node and edge attribute dictionaries), `_nodes_by_id` and
  `_type_index`, and are updated in place. A ghost field `model` holds the
  store the fields represent, and `Valid()` relates the two. Every method is
  proved to leave exactly the store, and return exactly the outcome, that the
  matching `Graph`/`Population` function computes. The lemmas about those
  functions therefore carry over to the object.
  - `EnumerateSubscriptions` is the source's loop, with its invariant.
  - `Stats()` reads its counts off the type index, as `stats()` does.
  - `BuildAndReport` and `BuildAllAndReport` construct a builder, run
    `build()` and read `stats()`. Their postconditions are the end-to-end
    result above.

Behaviour worth noting:

- Re-adding an id with a different type raises no error. The code never
  compares the two types: it merges the new properties into the existing node
  and leaves the type index alone (`Graph.AddNodeMergesExisting` holds for any
  valid type).
- An edge re-added with another type or new properties updates the single
  attribute dictionary of its pair, as `DiGraph.add_edge` does. The edge count
  does not change.
- Properties are passed to networkx as keyword arguments, beside `type=`. A
  property named after one of that call's parameters raises `TypeError`:
  - for `add_node(self, node_for_adding, **attr)`, the names `type`, `self`
    and `node_for_adding`;
  - for `add_edge(self, u_of_edge, v_of_edge, **attr)`, the names `type`,
    `self`, `u_of_edge` and `v_of_edge`.

  This happens on the first insertion of a node and on every edge. It is the
  error `KeywordClash` (`Graph.NodeKeywordClash`, `Graph.EdgeKeywordClash`). On
  the merge path, `dict.update` takes any key, so a `type` property overwrites
  the stored `type` attribute. The recorded kind and the type index do not
  change.
- `subs` is a string or an iterable of strings (`Population.Subs`). `"all"`
  means the single default subscription. Any other string is iterated one
  character at a time, as `list(str)` does (`Population.OtherTextLacksDefault`).
  A repeated id is merged, not added twice.
- `stats()["by_type"]` is keyed by the `NodeType` datatype rather than by its
  name. `NodeTypeName` and `NodeTypeNamed` convert between the two.

## Model

| member | source | states |
|---|---|---|
| Graph.NodeTypeNamed | src/azpe/graph.py:16 | a name is accepted as a node type only if it is exactly that type's name |
| Graph.NodeTypeNamesRecognised | src/azpe/graph.py:16 | each of the nine node type names is accepted, as its own type |
| Graph.EdgeTypeNamed | src/azpe/graph.py:17 | a name is accepted as an edge type only if it is exactly that type's name |
| Graph.EdgeTypeNamesRecognised | src/azpe/graph.py:17 | each of the eight edge type names is accepted, as its own type |
| Graph.Empty | src/azpe/graph.py:39-41 | a fresh builder's store has no dangling edge and every type bucket is empty |
| Graph.AddNode | src/azpe/graph.py:59-67 | adding a node never creates a dangling edge |
| Graph.AddNodeRejectsUnknownType | src/azpe/graph.py:60-61 | an unknown node type fails with UnknownNodeType and leaves the store unchanged, whether or not the id exists |
| Graph.AddNodeInsertsNew | src/azpe/graph.py:65-67 | a new id is inserted with its type recorded, and its attributes are the properties plus "type"; every other node and every edge is unchanged |
| Graph.AddNodeCountsNew | src/azpe/graph.py:65-67 | a new id joins its own type's bucket and no other; the node count and that type's count grow by one, and the edge count is unchanged |
| Graph.AddNodeCountsOne | src/azpe/graph.py:67 | a new id adds one to its own type's bucket size and zero to each other bucket |
| Graph.AddNodeMergesExisting | src/azpe/graph.py:62-64 | re-adding a known id (of any valid type) succeeds. Its attributes become old updated by new, last write wins. Its recorded type, every other node, every edge and every type bucket are unchanged |
| Graph.AddNodeRejectsKeywordClash | src/azpe/graph.py:65 | a new node whose properties contain "type", "self" or "node_for_adding" fails with KeywordClash and leaves the store unchanged |
| Graph.AddNodeIdempotent | src/azpe/graph.py:59-67 | adding the same node twice leaves the store that adding it once leaves |
| Graph.AddEdge | src/azpe/graph.py:69-74 | adding an edge never creates a dangling edge and never changes a type bucket |
| Graph.AddEdgeRejectsUnknownType | src/azpe/graph.py:70-71 | an unknown edge type fails with UnknownEdgeType and leaves the store unchanged |
| Graph.DerivedEdgeTypeRejected | src/azpe/graph.py:17 | the derived type CAN_GRANT_ANY_ROLE is not a raw edge type, so adding it fails and changes nothing |
| Graph.AddEdgeRejectsDangling | src/azpe/graph.py:72-73 | a valid edge with a missing source or destination fails with MissingEndpoint and leaves the store unchanged |
| Graph.AddEdgeRejectsKeywordClash | src/azpe/graph.py:74 | a valid edge between existing nodes whose properties contain "type", "self", "u_of_edge" or "v_of_edge" fails with KeywordClash and leaves the store unchanged |
| Graph.AddEdgeUpdatesPair | src/azpe/graph.py:74 | a valid edge between existing nodes updates its pair's one dictionary. It stores the type and the properties and keeps other earlier keys; every node and every other pair is unchanged |
| Graph.AddEdgeCountsPair | src/azpe/graph.py:74 | the edge count grows by one exactly when the pair was not yet linked; the node count and the type counts are unchanged |
| Graph.AddEdgeIdempotent | src/azpe/graph.py:74 | adding the same edge twice leaves the store that adding it once leaves |
| Graph.CountsByType | src/azpe/graph.py:115 | by_type has an entry for every node type, equal to the size of that type's bucket |
| Graph.StatsOf | src/azpe/graph.py:111-116 | stats reports each type's bucket size, and the sizes add up to the node count |
| Graph.BucketSizesAddUp | src/azpe/graph.py:111-116 | the bucket sizes of all nine types add up to the number of nodes |
| Graph.ExactlyOneBucket | src/azpe/graph.py:65-67 | a node id is in the bucket of its recorded type; an id that is not a node is in no bucket |
| Population.AddTenant | src/azpe/graph.py:76-77 | _add_tenant is one add_node of the tenant node; on a fresh store it adds the lone TENANT node (Population.TenantAdded) |
| Population.AddSubscription | src/azpe/graph.py:82-83 | one loop iteration, the subscription node and then its MEMBER_OF edge; its effect is stated by Population.NewSubscriptionStep, Population.RepeatedSubscriptionStep and Population.SubscriptionStep |
| Population.AddSubscriptions | src/azpe/graph.py:81-83 | the loop over the ids, stopping at the first call that raises; stated by Population.SubscriptionFailurePersists, Population.SubscriptionsKeepInv and Population.SubscriptionsAdded |
| Population.EnumerateSubscriptions | src/azpe/graph.py:79-83 | the loop over SubIds(subs); its ids are stated by Population.AllMeansDefault and Population.OtherTextLacksDefault |
| Population.EnumeratePrincipals | src/azpe/graph.py:85-87 | the two principal nodes; stated by Population.PrincipalsAdded and Population.PrincipalsCounted |
| Population.EnumerateResources | src/azpe/graph.py:89-95 | the key vault, automation account and function app nodes; stated by Population.ResourcesAdded and Population.ResourcesCounted |
| Population.EnumerateRoleAssignments | src/azpe/graph.py:97-109 | the HAS_ROLE and CAN_SET_POLICY edges; stated by Population.RoleAssignmentsAdded, Population.RoleAssignmentsRejected and Population.RoleAssignmentsOnLoaded |
| Population.Build | src/azpe/graph.py:43-48 | the five stages in order, stopping at the first that raises; stated by Population.BuildKeepsInv, Population.BuildFromEmpty, Population.BuildAll, Population.BuildWithoutDefault and Population.BuildOtherText |
| Population.SubIds | src/azpe/graph.py:80 | a subs string other than "all" yields one subscription id per character |
| Population.AllMeansDefault | src/azpe/graph.py:80 | subs = "all" enumerates exactly the default subscription id |
| Population.OtherTextLacksDefault | src/azpe/graph.py:80 | any other subs string enumerates its single characters, so never the default id |
| Population.SubscriptionFailurePersists | src/azpe/graph.py:81-83 | once a subscription step fails, the rest of the loop changes nothing |
| Population.SubscriptionsKeepInv | src/azpe/graph.py:79-83 | enumerating subscriptions never creates a dangling edge |
| Population.NodesKeepInv | src/azpe/graph.py:85-95 | any run of add_node calls never creates a dangling edge |
| Population.EdgesKeepInv | src/azpe/graph.py:97-109 | any run of add_edge calls never creates a dangling edge |
| Population.BuildKeepsInv | src/azpe/graph.py:43-48 | build on any store without dangling edges leaves a store without dangling edges |
| Population.TenantAdded | src/azpe/graph.py:76-77 | on a fresh builder, the tenant step adds a single TENANT node and no edge |
| Population.NewSubscriptionStep | src/azpe/graph.py:82-83 | a new subscription id adds one SUBSCRIPTION node and one tenant-to-subscription edge |
| Population.RepeatedSubscriptionStep | src/azpe/graph.py:82-83 | a repeated subscription id adds no node, no edge and no bucket entry |
| Population.SubscriptionStep | src/azpe/graph.py:81-83 | one loop iteration succeeds and keeps the subscribed shape: tenant plus one node and one MEMBER_OF edge per distinct id seen |
| Population.SubscriptionsAdded | src/azpe/graph.py:79-83 | after the tenant, the loop succeeds on any id list and the graph holds exactly one node and one edge per distinct id |
| Population.FreshNodesAdded | src/azpe/graph.py:59-67 | a run of nodes with fresh, distinct ids adds exactly those ids, one node each, and leaves the edges |
| Population.FreshNodesCounted | src/azpe/graph.py:67 | such a run grows each type's bucket by the number of its nodes of that type |
| Population.LinkedEdgesAdded | src/azpe/graph.py:74 | a run of valid edges between existing nodes succeeds, adds exactly their pairs, and leaves the nodes |
| Population.PrincipalsAdded | src/azpe/graph.py:85-87 | the principal stage adds Alice and the ContosoApp service principal, two nodes, and no edge |
| Population.PrincipalsCounted | src/azpe/graph.py:85-87 | the principal stage adds two to the PRINCIPAL bucket and nothing to the others |
| Population.ResourcesAdded | src/azpe/graph.py:89-95 | the resource stage adds the key vault, automation account and function app, three nodes, and no edge |
| Population.ResourcesCounted | src/azpe/graph.py:89-95 | the resource stage adds one to each of KEYVAULT, AUTOMATION_ACCOUNT and FUNCTION_APP and nothing to the others |
| Population.RoleAssignmentsAdded | src/azpe/graph.py:97-109 | when all endpoints exist, the stage adds the HAS_ROLE and CAN_SET_POLICY pairs and leaves the nodes |
| Population.RoleAssignmentsRejected | src/azpe/graph.py:98-103 | without the default subscription node, the stage fails with MissingEndpoint and changes nothing |
| Population.FixedNodesAdded | src/azpe/graph.py:46-47 | after the subscriptions, the principal and resource stages succeed; the store has 6 + n nodes, n edges and the built bucket sizes |
| Population.RoleAssignmentsOnLoaded | src/azpe/graph.py:97-109 | the last stage succeeds exactly when the default subscription was enumerated; then it adds two edges, and otherwise it changes nothing |
| Population.BuildAfterTenant | src/azpe/graph.py:43-48 | from the tenant step on, build gives the outcome, node, edge and bucket counts of BuildFromEmpty |
| Population.BuildFromEmpty | src/azpe/graph.py:43-48 | on a new builder, build succeeds exactly when the default subscription is enumerated, and otherwise fails with MissingEndpoint. It leaves no dangling edge: 6 + n nodes, n (+2 on success) edges, fixed per-type counts |
| Population.BuildAll | src/azpe/graph.py:80 | with subs = "all", build succeeds, and stats is 7 nodes, 3 edges, with counts TENANT 1, SUBSCRIPTION 1, PRINCIPAL 2, KEYVAULT 1, AUTOMATION_ACCOUNT 1, FUNCTION_APP 1, and 0 otherwise |
| Population.BuildDefaultOnly | src/azpe/graph.py:43-48 | any subs that enumerates only the default id gives the same result as "all" |
| Population.BuildWithoutDefault | src/azpe/graph.py:98-103 | a subscription list without the default id makes build fail with MissingEndpoint, after 6 + n nodes and n edges |
| Population.BuildOtherText | src/azpe/graph.py:80 | a subs string other than "all" makes build fail with MissingEndpoint |
| Builder.GraphBuilder.constructor | src/azpe/graph.py:35-41 | a new builder keeps its tenant id and subs; graph and id table are empty, and each of the nine buckets is empty |
| Builder.GraphBuilder.AddNode | src/azpe/graph.py:59-67 | add_node updates the graph, id table and type index in place, to exactly the store and outcome of Graph.AddNode |
| Builder.GraphBuilder.AddEdge | src/azpe/graph.py:69-74 | add_edge updates the edge dictionaries in place, to exactly the store and outcome of Graph.AddEdge |
| Builder.GraphBuilder.AddTenant | src/azpe/graph.py:76-77 | _add_tenant leaves the store and outcome of Population.AddTenant |
| Builder.GraphBuilder.AddSubscription | src/azpe/graph.py:82-83 | one loop body (subscription node, then MEMBER_OF edge) leaves the store and outcome of Population.AddSubscription |
| Builder.GraphBuilder.EnumerateSubscriptions | src/azpe/graph.py:79-83 | the loop over the subscription ids leaves the store and outcome of Population.EnumerateSubscriptions, stopping at the first failure |
| Builder.GraphBuilder.EnumeratePrincipals | src/azpe/graph.py:85-87 | _enumerate_principals leaves the store and outcome of Population.EnumeratePrincipals |
| Builder.GraphBuilder.EnumerateResources | src/azpe/graph.py:89-95 | _enumerate_resources leaves the store and outcome of Population.EnumerateResources |
| Builder.GraphBuilder.EnumerateRoleAssignments | src/azpe/graph.py:97-109 | _enumerate_role_assignments leaves the store and outcome of Population.EnumerateRoleAssignments |
| Builder.GraphBuilder.Build | src/azpe/graph.py:43-48 | build runs the five stages in order, stopping at the first failure, and leaves the store and outcome of Population.Build |
| Builder.GraphBuilder.Stats | src/azpe/graph.py:111-116 | the counts read off the graph and the type index equal StatsOf of the represented store, and by_type adds up to the node count |
| Builder.BuildAndReport | src/azpe/graph.py:43-48 | a new builder's build succeeds exactly when the default subscription is enumerated, and otherwise fails with MissingEndpoint. Its stats then has 6 + n nodes, n (+2) edges and the fixed per-type counts |
| Builder.BuildAllAndReport | src/azpe/graph.py:35-48 | a new builder with subs = "all" builds successfully, and its stats is 7 nodes, 3 edges and the fixed per-type counts |
| Builder.TypeIndexExact | src/azpe/graph.py:62-67 | in a valid builder, _type_index has a bucket for every node type, and an id is in the bucket of t exactly when _nodes_by_id holds it and it was first added with type t |
| Builder.InsertRepresented | src/azpe/graph.py:65-67 | inserting into the graph, the id table and the one type bucket keeps the fields representing the store |
| Builder.MergeRepresented | src/azpe/graph.py:62-64 | updating a known node's attribute dictionary keeps the fields representing the store |
| Builder.SubNodeAccepted | src/azpe/graph.py:82 | the subscription node built in the loop always passes add_node's checks, so that call never raises |
| Builder.LinkRepresented | src/azpe/graph.py:74 | updating one pair's edge dictionary keeps the fields representing the store |

## Left out

- `save` and `export_dot` (`src/azpe/graph.py:50-57`) write JSON or Graphviz files through networkx and pydot. That is file I/O and foreign code, and it is not modelled.
- The `credential` argument is stored and never used by the stub enumerators. The model leaves it out.
- Real Azure enumeration does not exist in this code: the stages add fixed stub data. Only that data is modelled.
- Property values are scalars (`Scalar`). Arbitrary Python objects, which networkx would also store, are not modelled.
- The id table maps each id to itself and is modelled as such. Its only role in the source is a membership test.
- networkx's graph is modelled only as far as `GraphBuilder` uses it: node and edge attribute dictionaries with update semantics, and counts. Adjacency views, graph-level attributes and insertion order are not modelled.
- Population.BuildAfterTenant: proved only for a builder whose store holds nothing but the tenant after `_add_tenant`. `build()` called a second time on the same builder is computed by `Population.Build` and `Builder.GraphBuilder.Build`, but nothing is proved about its counts.
- The rule engine, path reconstruction, CLI and reporting modules of the toolkit are not part of this model.

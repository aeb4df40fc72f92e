/** The nodes of a graph cache: per namespace, a list of nodes, each with its own four topic maps. */
module GraphNodes {
  import opened TopicIndex
  import opened GraphSpec
  import L = Liveliness

  datatype GraphNode = GraphNode(
    zid: string,
    nid: string,
    ns: string,
    name: string,
    enclave: string,
    pubs: TopicMap,
    subs: TopicMap,
    services: TopicMap,
    clients: TopicMap)

  /** The nodes of a namespace, in the order of the multimap. */
  type NodeList = seq<GraphNode>
  type NamespaceMap = map<string, NodeList>

  function KeyOfNode(n: GraphNode): NodeKey {
    NodeKey(n.ns, n.name, n.zid, n.nid)
  }

  /** `make_graph_node`. */
  function MakeGraphNode(k: NodeKey, enclave: string): GraphNode {
    GraphNode(k.zid, k.nid, k.ns, k.name, enclave, map[], map[], map[], map[])
  }

  function RoleMap(n: GraphNode, kind: L.EntityType): TopicMap {
    match kind
    case Publisher => n.pubs
    case Subscription => n.subs
    case Service => n.services
    case Client => n.clients
    case Node => map[]
  }

  function WithRole(n: GraphNode, kind: L.EntityType, tm: TopicMap): GraphNode {
    match kind
    case Publisher => n.(pubs := tm)
    case Subscription => n.(subs := tm)
    case Service => n.(services := tm)
    case Client => n.(clients := tm)
    case Node => n
  }

  ghost function OwnedBy(eps: set<Endpoint>, k: NodeKey, kind: L.EntityType): set<Endpoint> {
    set e | e in eps && OwnerOf(e) == k && e.entity.kind == kind
  }

  /** Each role's map pictures the endpoints the node has in that role. */
  ghost predicate NodeOk(n: GraphNode, eps: set<Endpoint>) {
    forall kind: L.EntityType {:trigger RoleMap(n, kind)} ::
      Pictures(RoleMap(n, kind), OwnedBy(eps, KeyOfNode(n), kind))
  }

  /** No empty namespace, and every node once. */
  ghost predicate NamespaceOk(ns: string, list: NodeList, g: Graph) {
    && list != []
    && (forall i | 0 <= i < |list| :: list[i].ns == ns && KeyOfNode(list[i]) in g.nodes && NodeOk(list[i], g.eps))
    && (forall i, j | 0 <= i < j < |list| :: KeyOfNode(list[i]) != KeyOfNode(list[j]))
  }

  ghost predicate Listed(nodes: NamespaceMap, k: NodeKey) {
    k.ns in nodes && exists i :: 0 <= i < |nodes[k.ns]| && KeyOfNode(nodes[k.ns][i]) == k
  }

  ghost predicate NodesOk(nodes: NamespaceMap, g: Graph) {
    && (forall ns | ns in nodes :: NamespaceOk(ns, nodes[ns], g))
    && (forall k | k in g.nodes :: Listed(nodes, k))
  }

  /** The graphs differ at most in what they say about node `k`. */
  ghost predicate OnlyAbout(g: Graph, g': Graph, k: NodeKey) {
    && (forall x | x in g.eps && OwnerOf(x) != k :: x in g'.eps)
    && (forall x | x in g'.eps && OwnerOf(x) != k :: x in g.eps)
    && (forall n | n in g.nodes && n != k :: n in g'.nodes)
    && (forall n | n in g'.nodes && n != k :: n in g.nodes)
  }

  lemma FreshNodeOk(k: NodeKey, enclave: string, g: Graph)
    requires Owned(g) && k !in g.nodes
    ensures NodeOk(MakeGraphNode(k, enclave), g.eps) && KeyOfNode(MakeGraphNode(k, enclave)) == k
  {
    forall kind: L.EntityType
      ensures Pictures(RoleMap(MakeGraphNode(k, enclave), kind), OwnedBy(g.eps, k, kind))
    {
      assert RoleMap(MakeGraphNode(k, enclave), kind) == map[];
      assert OwnedBy(g.eps, k, kind) == {};
    }
  }

  lemma OtherNodeOk(n: GraphNode, g: Graph, g': Graph, k: NodeKey)
    requires NodeOk(n, g.eps) && OnlyAbout(g, g', k) && KeyOfNode(n) != k
    ensures NodeOk(n, g'.eps)
  {
    forall kind: L.EntityType ensures Pictures(RoleMap(n, kind), OwnedBy(g'.eps, KeyOfNode(n), kind)) {
      assert OwnedBy(g'.eps, KeyOfNode(n), kind) == OwnedBy(g.eps, KeyOfNode(n), kind);
    }
  }

  /** A role's map may be replaced by a picture of the endpoints the node now has in that role. */
  lemma RoleReplaced(n: GraphNode, kind: L.EntityType, tm: TopicMap, eps: set<Endpoint>, eps': set<Endpoint>)
    requires NodeOk(n, eps) && kind != L.Node && Pictures(tm, OwnedBy(eps', KeyOfNode(n), kind))
    requires forall other | other != kind ::
               OwnedBy(eps', KeyOfNode(n), other) == OwnedBy(eps, KeyOfNode(n), other)
    ensures NodeOk(WithRole(n, kind, tm), eps') && KeyOfNode(WithRole(n, kind, tm)) == KeyOfNode(n)
  {
    var n' := WithRole(n, kind, tm);
    forall other: L.EntityType ensures Pictures(RoleMap(n', other), OwnedBy(eps', KeyOfNode(n), other)) {
      assert other != kind ==> RoleMap(n', other) == RoleMap(n, other);
    }
  }

  lemma OtherNamespaceOk(ns: string, list: NodeList, g: Graph, g': Graph, k: NodeKey)
    requires NamespaceOk(ns, list, g) && OnlyAbout(g, g', k) && ns != k.ns
    ensures NamespaceOk(ns, list, g')
  {
    forall i | 0 <= i < |list| ensures NodeOk(list[i], g'.eps) { OtherNodeOk(list[i], g, g', k); }
  }

  lemma OtherListed(nodes: NamespaceMap, list: NodeList, k: NodeKey, n: NodeKey)
    requires Listed(nodes, n) && n.ns != k.ns
    ensures Listed(nodes[k.ns := list], n)
  {
  }

  /** Replacing the list of one namespace after a change about one of its nodes. */
  lemma ListReplaced(nodes: NamespaceMap, list: NodeList, g: Graph, g': Graph, k: NodeKey)
    requires NodesOk(nodes, g) && OnlyAbout(g, g', k) && NamespaceOk(k.ns, list, g')
    requires forall n | n in g'.nodes && n.ns == k.ns :: exists i :: 0 <= i < |list| && KeyOfNode(list[i]) == n
    ensures NodesOk(nodes[k.ns := list], g')
  {
    var nodes' := nodes[k.ns := list];
    forall ns | ns in nodes' ensures NamespaceOk(ns, nodes'[ns], g') {
      if ns != k.ns { OtherNamespaceOk(ns, nodes[ns], g, g', k); }
    }
    forall n | n in g'.nodes ensures Listed(nodes', n) {
      if n.ns != k.ns { OtherListed(nodes, list, k, n); }
    }
  }

  lemma NewNamespace(nodes: NamespaceMap, node: GraphNode, g: Graph, g': Graph)
    requires NodesOk(nodes, g) && OnlyAbout(g, g', KeyOfNode(node)) && node.ns !in nodes
    requires NodeOk(node, g'.eps) && KeyOfNode(node) in g'.nodes
    ensures NodesOk(nodes[node.ns := [node]], g')
  {
    var k := KeyOfNode(node);
    forall n | n in g'.nodes && n.ns == k.ns ensures n == k {
      assert n != k ==> Listed(nodes, n);
    }
    assert [node][0] == node;
    ListReplaced(nodes, [node], g, g', k);
  }

  lemma OtherEntriesOk(nodes: NamespaceMap, g: Graph, g': Graph, k: NodeKey, i: nat)
    requires NodesOk(nodes, g) && OnlyAbout(g, g', k) && k.ns in nodes && i < |nodes[k.ns]|
    requires KeyOfNode(nodes[k.ns][i]) != k
    ensures nodes[k.ns][i].ns == k.ns && KeyOfNode(nodes[k.ns][i]) in g'.nodes && NodeOk(nodes[k.ns][i], g'.eps)
  {
    assert NamespaceOk(k.ns, nodes[k.ns], g);
    OtherNodeOk(nodes[k.ns][i], g, g', k);
  }

  lemma NodeAdded(nodes: NamespaceMap, node: GraphNode, g: Graph, g': Graph)
    requires NodesOk(nodes, g) && OnlyAbout(g, g', KeyOfNode(node)) && node.ns in nodes
    requires NodeOk(node, g'.eps) && KeyOfNode(node) in g'.nodes && KeyOfNode(node) !in g.nodes
    ensures NodesOk(nodes[node.ns := nodes[node.ns] + [node]], g')
  {
    var k := KeyOfNode(node);
    var list, list' := nodes[k.ns], nodes[k.ns] + [node];
    assert NamespaceOk(k.ns, list, g);
    forall i | 0 <= i < |list'|
      ensures list'[i].ns == k.ns && KeyOfNode(list'[i]) in g'.nodes && NodeOk(list'[i], g'.eps)
      ensures i < |list| ==> KeyOfNode(list'[i]) != k
    {
      if i < |list| { OtherEntriesOk(nodes, g, g', k, i); }
    }
    forall n | n in g'.nodes && n.ns == k.ns ensures exists i :: 0 <= i < |list'| && KeyOfNode(list'[i]) == n {
      if n == k {
        assert list'[|list|] == node;
      } else {
        assert Listed(nodes, n);
        var i :| 0 <= i < |list| && KeyOfNode(list[i]) == n;
        assert list'[i] == list[i];
      }
    }
    ListReplaced(nodes, list', g, g', k);
  }

  /** Files a new node, in a new namespace if need be. */
  function Inserted(nodes: NamespaceMap, node: GraphNode): NamespaceMap {
    if node.ns !in nodes then nodes[node.ns := [node]] else nodes[node.ns := nodes[node.ns] + [node]]
  }

  lemma NodeInserted(nodes: NamespaceMap, node: GraphNode, g: Graph, s: Subject)
    requires NodesOk(nodes, g) && Owned(g) && KeyOfNode(node) == s.Key() && s.Key() !in g.nodes
    requires NodeOk(node, Arrive(g, s).eps)
    ensures NodesOk(Inserted(nodes, node), Arrive(g, s)) && Owned(Arrive(g, s))
    ensures |Arrive(g, s).nodes| == |g.nodes| + 1
  {
    ArriveAbout(g, s);
    if node.ns !in nodes {
      NewNamespace(nodes, node, g, Arrive(g, s));
    } else {
      NodeAdded(nodes, node, g, Arrive(g, s));
    }
  }

  lemma ArriveAbout(g: Graph, s: Subject)
    requires Owned(g)
    ensures OnlyAbout(g, Arrive(g, s), s.Key()) && Owned(Arrive(g, s))
    ensures s.Key() in g.nodes ==> Arrive(g, s).nodes == g.nodes
  {
  }

  lemma DepartAbout(g: Graph, s: Subject)
    requires Owned(g)
    ensures OnlyAbout(g, Depart(g, s), s.Key()) && Owned(Depart(g, s))
  {
  }

  lemma NodeReplaced(nodes: NamespaceMap, i: nat, node: GraphNode, g: Graph, g': Graph)
    requires NodesOk(nodes, g) && OnlyAbout(g, g', KeyOfNode(node)) && node.ns in nodes
    requires i < |nodes[node.ns]| && KeyOfNode(nodes[node.ns][i]) == KeyOfNode(node)
    requires NodeOk(node, g'.eps) && g'.nodes == g.nodes
    ensures NodesOk(nodes[node.ns := nodes[node.ns][i := node]], g')
  {
    var k := KeyOfNode(node);
    var list, list' := nodes[k.ns], nodes[k.ns][i := node];
    assert NamespaceOk(k.ns, list, g);
    forall j | 0 <= j < |list'|
      ensures list'[j].ns == k.ns && KeyOfNode(list'[j]) in g'.nodes && NodeOk(list'[j], g'.eps)
      ensures KeyOfNode(list'[j]) == KeyOfNode(list[j])
    {
      if j != i { OtherEntriesOk(nodes, g, g', k, j); }
    }
    forall n | n in g'.nodes && n.ns == k.ns ensures exists j :: 0 <= j < |list'| && KeyOfNode(list'[j]) == n {
      assert Listed(nodes, n);
      var j :| 0 <= j < |list| && KeyOfNode(list[j]) == n;
      assert KeyOfNode(list'[j]) == n;
    }
    ListReplaced(nodes, list', g, g', k);
  }

  /** Erases a node, and its namespace when it was the last one there. */
  function Erased(nodes: NamespaceMap, ns: string, i: nat): NamespaceMap
    requires ns in nodes && i < |nodes[ns]|
  {
    var list := nodes[ns][..i] + nodes[ns][i + 1..];
    if list == [] then nodes - {ns} else nodes[ns := list]
  }

  lemma ListedElsewhere(nodes: NamespaceMap, ns: string, n: NodeKey)
    requires Listed(nodes, n)
    ensures n.ns != ns ==> Listed(nodes - {ns}, n)
    ensures n.ns == ns && |nodes[ns]| == 1 ==> n == KeyOfNode(nodes[ns][0])
  {
  }

  lemma LastErased(nodes: NamespaceMap, ns: string, g: Graph, g': Graph)
    requires NodesOk(nodes, g) && ns in nodes && |nodes[ns]| == 1
    requires OnlyAbout(g, g', KeyOfNode(nodes[ns][0])) && KeyOfNode(nodes[ns][0]) !in g'.nodes
    ensures NodesOk(nodes - {ns}, g')
  {
    var k := KeyOfNode(nodes[ns][0]);
    assert NamespaceOk(ns, nodes[ns], g);
    forall n | n in g'.nodes ensures Listed(nodes - {ns}, n) {
      ListedElsewhere(nodes, ns, n);
    }
    forall m | m in nodes - {ns} ensures NamespaceOk(m, (nodes - {ns})[m], g') {
      OtherNamespaceOk(m, nodes[m], g, g', k);
    }
  }

  function Shifted(i: nat, j: nat): nat {
    if j < i then j else j + 1
  }

  lemma OneErased(nodes: NamespaceMap, ns: string, i: nat, list': NodeList, g: Graph, g': Graph)
    requires NodesOk(nodes, g) && ns in nodes && i < |nodes[ns]|
    requires OnlyAbout(g, g', KeyOfNode(nodes[ns][i])) && KeyOfNode(nodes[ns][i]) !in g'.nodes
    requires list' != [] && |list'| == |nodes[ns]| - 1
    requires forall j | 0 <= j < |list'| :: list'[j] == nodes[ns][Shifted(i, j)]
    ensures NodesOk(nodes[ns := list'], g')
  {
    var list := nodes[ns];
    var k := KeyOfNode(list[i]);
    assert NamespaceOk(ns, list, g);
    forall j | 0 <= j < |list'|
      ensures list'[j].ns == k.ns && KeyOfNode(list'[j]) in g'.nodes && NodeOk(list'[j], g'.eps)
    {
      OtherEntriesOk(nodes, g, g', k, Shifted(i, j));
    }
    forall n | n in g'.nodes && n.ns == k.ns ensures exists j :: 0 <= j < |list'| && KeyOfNode(list'[j]) == n {
      assert Listed(nodes, n);
      var j :| 0 <= j < |list| && KeyOfNode(list[j]) == n;
      var j' := if j < i then j else j - 1;
      assert list'[j'] == list[Shifted(i, j')];
    }
    ListReplaced(nodes, list', g, g', k);
  }

  lemma NodeErased(nodes: NamespaceMap, ns: string, i: nat, g: Graph, g': Graph)
    requires NodesOk(nodes, g) && ns in nodes && i < |nodes[ns]|
    requires OnlyAbout(g, g', KeyOfNode(nodes[ns][i])) && KeyOfNode(nodes[ns][i]) !in g'.nodes
    ensures NodesOk(Erased(nodes, ns, i), g')
  {
    var list' := nodes[ns][..i] + nodes[ns][i + 1..];
    if list' == [] {
      assert |nodes[ns]| == |list'| + 1;
      LastErased(nodes, ns, g, g');
    } else {
      OneErased(nodes, ns, i, list', g, g');
    }
  }

  // ----- enclaves

  ghost predicate EnclaveIs(node: GraphNode, told: map<NodeKey, string>) {
    KeyOfNode(node) in told && node.enclave == told[KeyOfNode(node)]
  }

  /** Every node has the enclave told for it. */
  ghost predicate EnclavesAre(nodes: NamespaceMap, told: map<NodeKey, string>) {
    forall ns, i | ns in nodes && 0 <= i < |nodes[ns]| :: EnclaveIs(nodes[ns][i], told)
  }

  lemma EnclaveInserted(nodes: NamespaceMap, node: GraphNode, g: Graph, told: map<NodeKey, string>)
    requires NodesOk(nodes, g) && EnclavesAre(nodes, told) && KeyOfNode(node) !in g.nodes
    ensures EnclavesAre(Inserted(nodes, node), told[KeyOfNode(node) := node.enclave])
  {
    var nodes', told' := Inserted(nodes, node), told[KeyOfNode(node) := node.enclave];
    forall ns, i | ns in nodes' && 0 <= i < |nodes'[ns]| ensures EnclaveIs(nodes'[ns][i], told') {
      if ns in nodes && i < |nodes[ns]| {
        assert NamespaceOk(ns, nodes[ns], g) && EnclaveIs(nodes[ns][i], told);
      }
    }
  }

  lemma EnclaveReplaced(nodes: NamespaceMap, i: nat, node: GraphNode, told: map<NodeKey, string>)
    requires EnclavesAre(nodes, told) && node.ns in nodes && i < |nodes[node.ns]|
    requires KeyOfNode(nodes[node.ns][i]) == KeyOfNode(node) && nodes[node.ns][i].enclave == node.enclave
    ensures EnclavesAre(nodes[node.ns := nodes[node.ns][i := node]], told)
  {
  }

  lemma EnclaveErased(nodes: NamespaceMap, ns: string, i: nat, told: map<NodeKey, string>)
    requires EnclavesAre(nodes, told) && ns in nodes && i < |nodes[ns]|
    ensures EnclavesAre(Erased(nodes, ns, i), told)
  {
  }

  // ----- the search

  /** The search by name, session id and node id. */
  method FindNode(list: NodeList, k: NodeKey) returns (i: nat)
    ensures i <= |list|
    ensures i < |list| ==> list[i].name == k.name && list[i].zid == k.zid && list[i].nid == k.nid
    ensures forall j | 0 <= j < i :: list[j].name != k.name || list[j].zid != k.zid || list[j].nid != k.nid
  {
    i := 0;
    while i < |list| && !(list[i].name == k.name && list[i].zid == k.zid && list[i].nid == k.nid)
      invariant i <= |list|
      invariant forall j | 0 <= j < i :: list[j].name != k.name || list[j].zid != k.zid || list[j].nid != k.nid
    {
      i := i + 1;
    }
  }

  /** The lookup that both kinds of token start with succeeds exactly for known nodes. */
  method Locate(nodes: NamespaceMap, k: NodeKey, ghost g: Graph) returns (i: nat)
    requires NodesOk(nodes, g) && k.ns in nodes
    ensures i <= |nodes[k.ns]|
    ensures i < |nodes[k.ns]| <==> k in g.nodes
    ensures i < |nodes[k.ns]| ==> KeyOfNode(nodes[k.ns][i]) == k && NodeOk(nodes[k.ns][i], g.eps)
  {
    assert NamespaceOk(k.ns, nodes[k.ns], g);
    i := FindNode(nodes[k.ns], k);
    if k in g.nodes {
      assert Listed(nodes, k);
    }
  }

  lemma NamespaceUnknown(nodes: NamespaceMap, g: Graph, k: NodeKey)
    requires NodesOk(nodes, g) && k.ns !in nodes
    ensures k !in g.nodes
  {
    assert k in g.nodes ==> Listed(nodes, k);
  }
}

/** The graph cache: an index of the ROS graph kept up to date by liveliness tokens. */
module GraphCaches {
  import opened Options
  import opened TopicIndex
  import opened QosEvents
  import opened MatchedEvents
  import opened MatchedCounts
  import opened TopicMapUpdates
  import opened GraphSpec
  import opened GraphNodes
  import L = Liveliness
  import Q = QoSProfile

  /** Both indexes of the whole graph are right about the changes so far. */
  ghost predicate Indexed(
    zid: string, cs: seq<Change>, reports: seq<Report>, topics: TopicMap, services: TopicMap)
  {
    Tracks(zid, cs, reports, topics, false) && Tracks(zid, cs, reports, services, true)
  }

  ghost predicate AllGenuine(hash: string -> int, es: set<Endpoint>) {
    forall e {:trigger Genuine(hash, e)} | e in es :: Genuine(hash, e)
  }

  /** The hash of what a token announces is that of no other live endpoint. */
  ghost predicate Separate(live: set<Endpoint>, s: Subject) {
    s.EndpointSubject? ==> Apart(live, s.endpoint)
  }

  /** The same, when the node is known: a token of an unknown node is ignored. */
  ghost predicate KnownSeparate(g: Graph, s: Subject) {
    s.Key() in g.nodes ==> Separate(g.eps, s)
  }

  lemma RolesAfter(eps: set<Endpoint>, e: Endpoint, k: NodeKey, kind: L.EntityType)
    requires OwnerOf(e) == k
    ensures OwnedBy(eps + {e}, k, kind) == OwnedBy(eps, k, kind) + if e.entity.kind == kind then {e} else {}
    ensures OwnedBy(eps - {e}, k, kind) == OwnedBy(eps, k, kind) - if e.entity.kind == kind then {e} else {}
  {
  }

  lemma DistinctMore(live: set<Endpoint>, s: Subject)
    requires Distinct(live) && Separate(live, s)
    ensures Distinct(live + s.Endpoints())
  {
  }

  lemma GenuineMore(hash: string -> int, live: set<Endpoint>, e: L.Entity)
    requires AllGenuine(hash, live) && L.Valid(e)
    ensures AllGenuine(hash, live + SubjectOf(hash, e).Endpoints())
    ensures KeysTell(live + SubjectOf(hash, e).Endpoints())
  {
    var s := SubjectOf(hash, e);
    if s.EndpointSubject? {
      assert Genuine(hash, s.endpoint);
    }
    forall x | x in live + s.Endpoints() ensures Genuine(hash, x) {
    }
    GenuineKeysTell(hash, live + s.Endpoints());
  }

  lemma IndexedAfter(
    zid: string, cs: seq<Change>, reports: seq<Report>, cs': seq<Change>, reports': seq<Report>, put: bool, e: Endpoint,
    tm': TopicMap, other: TopicMap)
    requires Recorded(cs, cs', put, e)
    requires Tracks(zid, cs, reports, other, !IsService(e)) && Tracks(zid, cs', reports', tm', IsService(e))
    ensures Tracks(zid, cs', reports', other, !IsService(e))
  {
    FamilyAfter(Live(cs), cs'[|cs'| - 1]);
    OtherIndexKept(zid, cs, reports, cs', reports', other, !IsService(e));
  }

  lemma RoleAfterPut(node: GraphNode, kind: L.EntityType, tm: TopicMap, live: set<Endpoint>, e: Endpoint)
    requires NodeOk(node, live) && kind != L.Node && e.entity.kind == kind && OwnerOf(e) == KeyOfNode(node)
    requires Pictures(tm, OwnedBy(live, KeyOfNode(node), kind) + {e})
    ensures NodeOk(WithRole(node, kind, tm), live + {e}) && KeyOfNode(WithRole(node, kind, tm)) == KeyOfNode(node)
    ensures WithRole(node, kind, tm).enclave == node.enclave
  {
    forall other ensures other != kind ==>
        OwnedBy(live + {e}, KeyOfNode(node), other) == OwnedBy(live, KeyOfNode(node), other) {
      RolesAfter(live, e, KeyOfNode(node), other);
    }
    RolesAfter(live, e, KeyOfNode(node), kind);
    RoleReplaced(node, kind, tm, live, live + {e});
  }

  lemma RoleAfterDel(node: GraphNode, kind: L.EntityType, tm: TopicMap, live: set<Endpoint>, e: Endpoint)
    requires NodeOk(node, live) && kind != L.Node && e.entity.kind == kind && OwnerOf(e) == KeyOfNode(node)
    requires Pictures(tm, OwnedBy(live, KeyOfNode(node), kind) - {e})
    ensures NodeOk(WithRole(node, kind, tm), live - {e}) && KeyOfNode(WithRole(node, kind, tm)) == KeyOfNode(node)
    ensures WithRole(node, kind, tm).enclave == node.enclave
  {
    forall other ensures other != kind ==>
        OwnedBy(live - {e}, KeyOfNode(node), other) == OwnedBy(live, KeyOfNode(node), other) {
      RolesAfter(live, e, KeyOfNode(node), other);
    }
    RolesAfter(live, e, KeyOfNode(node), kind);
    RoleReplaced(node, kind, tm, live, live - {e});
  }

  /** A node owns nothing but what its four maps hold. */
  lemma RolesOfNode(node: GraphNode, live: set<Endpoint>)
    requires NodeOk(node, live)
    ensures var k := KeyOfNode(node);
            OfNode(live, k) == OwnedBy(live, k, L.Publisher) + OwnedBy(live, k, L.Subscription) +
                               OwnedBy(live, k, L.Service) + OwnedBy(live, k, L.Client)
  {
    NothingInEmpty(RoleMap(node, L.Node), OwnedBy(live, KeyOfNode(node), L.Node));
    forall x | x in OfNode(live, KeyOfNode(node)) ensures x.entity.kind != L.Node {
      assert x.entity.kind == L.Node ==> x in OwnedBy(live, KeyOfNode(node), L.Node);
    }
  }

  lemma NothingInEmpty(tm: TopicMap, own: set<Endpoint>)
    requires Pictures(tm, own)
    ensures tm == map[] ==> own == {}
  {
    if tm == map[] {
      assert forall x | x in own :: Has(tm, x);
    }
  }

  lemma NothingOwned(node: GraphNode, live: set<Endpoint>)
    requires NodeOk(node, live)
    requires node.pubs == map[] && node.subs == map[] && node.services == map[] && node.clients == map[]
    ensures OfNode(live, KeyOfNode(node)) == {}
  {
    RolesOfNode(node, live);
    NothingInEmpty(RoleMap(node, L.Publisher), OwnedBy(live, KeyOfNode(node), L.Publisher));
    NothingInEmpty(RoleMap(node, L.Subscription), OwnedBy(live, KeyOfNode(node), L.Subscription));
    NothingInEmpty(RoleMap(node, L.Service), OwnedBy(live, KeyOfNode(node), L.Service));
    NothingInEmpty(RoleMap(node, L.Client), OwnedBy(live, KeyOfNode(node), L.Client));
  }

  lemma RolesPictured(node: GraphNode, live: set<Endpoint>)
    requires NodeOk(node, live)
    ensures var k := KeyOfNode(node);
            && Pictures(node.pubs, OwnedBy(live, k, L.Publisher))
            && Pictures(node.subs, OwnedBy(live, k, L.Subscription))
            && Pictures(node.services, OwnedBy(live, k, L.Service))
            && Pictures(node.clients, OwnedBy(live, k, L.Client))
  {
    assert node.pubs == RoleMap(node, L.Publisher) && node.subs == RoleMap(node, L.Subscription);
    assert node.services == RoleMap(node, L.Service) && node.clients == RoleMap(node, L.Client);
  }

  /** Departures from one index leave the other as it was. */
  lemma IndexedAfterDrops(
    zid: string, cs: seq<Change>, reports: seq<Report>, cs': seq<Change>, reports': seq<Report>, gone: set<Endpoint>,
    tm': TopicMap, other: TopicMap, services: bool)
    requires Tracks(zid, cs, reports, other, !services) && Tracks(zid, cs', reports', tm', services)
    requires Drops(cs, cs', gone) && forall x | x in gone :: IsService(x) == services
    ensures Tracks(zid, cs', reports', other, !services)
  {
    assert Family(Live(cs'), !services) == Family(Live(cs), !services);
    OtherIndexKept(zid, cs, reports, cs', reports', other, !services);
  }

  /** A node token records nothing, an endpoint's token its arrival. */
  ghost predicate PutRecorded(s: Subject, cs: seq<Change>, cs': seq<Change>) {
    if s.NodeSubject? then cs' == cs else Recorded(cs, cs', true, s.endpoint)
  }

  /** The token of an unknown node records nothing, that of a node the departure of all its endpoints, any other
      token the departure of its endpoint. */
  ghost predicate DelRecorded(g: Graph, s: Subject, cs: seq<Change>, cs': seq<Change>) {
    if s.Key() !in g.nodes then cs' == cs
    else if s.NodeSubject? then Drops(cs, cs', OfNode(g.eps, s.Key()))
    else Recorded(cs, cs', false, s.endpoint)
  }

  lemma GenuineFewer(hash: string -> int, es: set<Endpoint>, fewer: set<Endpoint>)
    requires AllGenuine(hash, es) && fewer <= es
    ensures AllGenuine(hash, fewer)
  {
    forall x | x in fewer ensures Genuine(hash, x) {
      assert x in es;
    }
  }

  // ----- the listing of nodes

  lemma {:induction false} NoRepeatsCount<K>(order: seq<K>)
    requires NoRepeats(order)
    ensures |set k | k in order| == |order|
  {
    if order != [] {
      var init, last := order[..|order| - 1], order[|order| - 1];
      NoRepeatsCount(init);
      assert order == init + [last];
      assert (set k | k in order) == (set k | k in init) + {last};
    }
  }

  /** A list without repeats that misses an element is shorter than the set it is taken from. */
  lemma RoomLeft(who: seq<NodeKey>, nodes: set<NodeKey>, k: NodeKey)
    requires NoRepeats(who) && (forall n | n in who :: n in nodes) && k in nodes && k !in who
    ensures |who| < |nodes|
  {
    NoRepeatsCount(who);
    var seen := set n | n in who;
    Smaller(seen + {k}, nodes);
  }

  lemma NoRepeatsSnoc<K>(order: seq<K>, k: K)
    requires NoRepeats(order) && k !in order
    ensures NoRepeats(order + [k])
  {
    assert (order + [k])[..|order|] == order;
  }

  /** The first slots hold the nodes of `who`, in that order, each with the enclave told for it. */
  ghost predicate Written(
    told: map<NodeKey, string>, who: seq<NodeKey>, names: array<string>, namespaces: array<string>,
    enclaves: array<string>)
    reads names, namespaces, enclaves
  {
    && |who| <= names.Length == namespaces.Length == enclaves.Length
    && (forall j | 0 <= j < |who| :: names[j] == who[j].name && namespaces[j] == who[j].ns)
    && (forall j | 0 <= j < |who| :: who[j] in told && enclaves[j] == told[who[j]])
  }

  /** The listed nodes are those of the namespaces visited and of the first part of the current one. */
  ghost predicate ListedUpTo(nodes: NamespaceMap, done: seq<string>, list: NodeList, i: nat, who: seq<NodeKey>)
    requires i <= |list|
  {
    && NoRepeats(who)
    && (forall n | n in who :: n.ns in done || exists j :: 0 <= j < i && KeyOfNode(list[j]) == n)
    && (forall ns, j | ns in done && ns in nodes && 0 <= j < |nodes[ns]| :: KeyOfNode(nodes[ns][j]) in who)
    && (forall j | 0 <= j < i :: KeyOfNode(list[j]) in who)
  }

  lemma ListedNext(
    nodes: NamespaceMap, g: Graph, done: seq<string>, ns: string, i: nat, who: seq<NodeKey>)
    requires NodesOk(nodes, g) && ns in nodes && ns !in done && i < |nodes[ns]|
    requires ListedUpTo(nodes, done, nodes[ns], i, who) && forall n | n in who :: n in g.nodes
    ensures var k := KeyOfNode(nodes[ns][i]);
            k !in who && k in g.nodes && |who| < |g.nodes| && ListedUpTo(nodes, done, nodes[ns], i + 1, who + [k])
  {
    var list, k := nodes[ns], KeyOfNode(nodes[ns][i]);
    assert NamespaceOk(ns, list, g);
    assert k !in who;
    RoomLeft(who, g.nodes, k);
    NoRepeatsSnoc(who, k);
  }

  lemma NamespaceListed(nodes: NamespaceMap, g: Graph, done: seq<string>, ns: string, who: seq<NodeKey>)
    requires NodesOk(nodes, g) && ns in nodes
    requires ListedUpTo(nodes, done, nodes[ns], |nodes[ns]|, who)
    ensures ListedUpTo(nodes, done + [ns], [], 0, who)
  {
    assert NamespaceOk(ns, nodes[ns], g);
  }

  lemma NamespaceBegins(nodes: NamespaceMap, done: seq<string>, ns: string, who: seq<NodeKey>)
    requires ns in nodes && ListedUpTo(nodes, done, [], 0, who)
    ensures ListedUpTo(nodes, done, nodes[ns], 0, who)
  {
  }

  lemma NextVisit(order: seq<string>, keys: set<string>, a: nat)
    requires Enumerates(order, keys) && a < |order|
    ensures order[a] in keys && order[a] !in order[..a] && order[..a + 1] == order[..a] + [order[a]]
  {
    NoRepeatsAt(order, a);
    assert order[a] in order;
  }

  lemma AllListed(nodes: NamespaceMap, g: Graph, order: seq<string>, who: seq<NodeKey>)
    requires NodesOk(nodes, g) && Enumerates(order, nodes.Keys)
    requires ListedUpTo(nodes, order, [], 0, who) && forall n | n in who :: n in g.nodes
    ensures Enumerates(who, g.nodes) && |who| == |g.nodes|
  {
    forall n | n in g.nodes ensures n in who {
      assert Listed(nodes, n);
    }
    NoRepeatsCount(who);
    assert (set n | n in who) == g.nodes;
  }

  class GraphCache {
    const zid: string
    const hash: string -> int
    const events: EventLedger
    var graph: NamespaceMap
    var totalNodes: int
    var topics: TopicMap
    var services: TopicMap
    ghost var nodes: set<NodeKey>
    ghost var enclaveOf: map<NodeKey, string>
    ghost var trace: seq<Change>

    constructor (zid: string, hash: string -> int)
      ensures Valid() && fresh(events)
      ensures this.zid == zid && this.hash == hash && Abs() == Graph({}, {}) && trace == [] && enclaveOf == map[]
    {
      this.zid := zid;
      this.hash := hash;
      events := new EventLedger();
      graph := map[];
      totalNodes := 0;
      topics := map[];
      services := map[];
      nodes := {};
      enclaveOf := map[];
      trace := [];
    }

    /** The graph the cache stands for. */
    ghost function Abs(): Graph
      reads this
    {
      Graph(nodes, Live(trace))
    }

    ghost predicate Consistent()
      reads this, events
    {
      && events.Valid()
      && Indexed(zid, trace, events.reports, topics, services)
      && NodesOk(graph, Abs())
      && EnclavesAre(graph, enclaveOf)
      && Owned(Abs())
      && totalNodes == |nodes|
    }

    ghost predicate Valid()
      reads this, events
    {
      Consistent() && AllGenuine(hash, Live(trace))
    }

    lemma NowConsistent(g: Graph)
      requires events.Valid() && Indexed(zid, trace, events.reports, topics, services)
      requires Abs() == g && NodesOk(graph, g) && EnclavesAre(graph, enclaveOf) && Owned(g) && totalNodes == |nodes|
      ensures Consistent()
    {
    }

    predicate Ignored(keyexpr: string, ignoreLocal: bool) {
      var r := L.Parse(keyexpr);
      r.Parsed? && ignoreLocal && r.entity.zid == zid
    }

    /** The part of `update_topic_maps_for_put` that concerns the whole graph. */
    method PutInIndexes(e: Endpoint)
      requires events.Valid() && Indexed(zid, trace, events.reports, topics, services)
      requires e.entity.kind != L.Node && KeysTell(Live(trace) + {e}) && Distinct(Live(trace) + {e})
      modifies this`topics, this`services, this`trace
      modifies events`unregistered, events`delivered, events`reports
      ensures events.Valid() && Indexed(zid, trace, events.reports, topics, services)
      ensures Recorded(old(trace), trace, true, e) && Live(trace) == old(Live(trace)) + {e}
    {
      ghost var cs, reports := trace, events.reports;
      ghost var cs';
      if e.entity.kind == L.Publisher || e.entity.kind == L.Subscription {
        topics, cs' := IndexPut(events, zid, topics, e, cs);
        IndexedAfter(zid, cs, reports, cs', events.reports, true, e, topics, services);
      } else {
        services, cs' := IndexPut(events, zid, services, e, cs);
        IndexedAfter(zid, cs, reports, cs', events.reports, true, e, services, topics);
      }
      trace := cs';
      RecordedLive(cs, cs', true, e);
    }

    /** The part of `update_topic_maps_for_put` that concerns the node. */
    method PutInNode(node: GraphNode, s: Subject, ghost live: set<Endpoint>) returns (node': GraphNode)
      requires events.Valid() && s.EndpointSubject? && s.Sorted() && KeyOfNode(node) == s.Key() && NodeOk(node, live)
      requires KeysTell(live + {s.endpoint}) && Distinct(live + {s.endpoint})
      modifies events`unregistered, events`delivered, events`reports
      ensures events.Valid() && events.reports == old(events.reports)
      ensures KeyOfNode(node') == s.Key() && NodeOk(node', live + {s.endpoint}) && node'.enclave == node.enclave
    {
      var e, kind := s.endpoint, s.Entity().kind;
      ghost var own := OwnedBy(live, s.Key(), kind);
      KeysTellFewer(own + {e}, live + {e});
      DistinctApart(live + {e}, e);
      var tm, _, _ := UpdateTopicMapForPut(events, zid, RoleMap(node, kind), e, false, own, live);
      node' := WithRole(node, kind, tm);
      RoleAfterPut(node, kind, tm, live, e);
    }

    /** `update_topic_maps_for_put`: first the map of the node, then the index of the graph. */
    method UpdateTopicMapsForPut(node: GraphNode, s: Subject)
      returns (node': GraphNode)
      requires events.Valid() && Indexed(zid, trace, events.reports, topics, services)
      requires s.Sorted() && KeyOfNode(node) == s.Key() && NodeOk(node, Live(trace))
      requires KeysTell(Live(trace) + s.Endpoints()) && Distinct(Live(trace) + s.Endpoints())
      modifies this`topics, this`services, this`trace
      modifies events`unregistered, events`delivered, events`reports
      ensures events.Valid() && Indexed(zid, trace, events.reports, topics, services)
      ensures PutRecorded(s, old(trace), trace)
      ensures Live(trace) == old(Live(trace)) + s.Endpoints()
      ensures KeyOfNode(node') == s.Key() && NodeOk(node', Live(trace)) && node'.enclave == node.enclave
    {
      if s.NodeSubject? {
        assert Live(trace) + {} == Live(trace);
        return node;
      }
      node' := PutInNode(node, s, Live(trace));
      PutInIndexes(s.endpoint);
    }

    /** The node that a token of an unknown node makes, with what the token tells of it. */
    method MakeNode(s: Subject) returns (node: GraphNode)
      requires events.Valid() && Indexed(zid, trace, events.reports, topics, services)
      requires Owned(Abs()) && s.Sorted() && s.Key() !in nodes
      requires KeysTell(Live(trace) + s.Endpoints()) && Distinct(Live(trace) + s.Endpoints())
      modifies this`topics, this`services, this`trace
      modifies events`unregistered, events`delivered, events`reports
      ensures events.Valid() && Indexed(zid, trace, events.reports, topics, services)
      ensures PutRecorded(s, old(trace), trace)
      ensures Live(trace) == old(Live(trace)) + s.Endpoints()
      ensures KeyOfNode(node) == s.Key() && NodeOk(node, Live(trace)) && node.enclave == s.Entity().node.enclave
    {
      FreshNodeOk(s.Key(), s.Entity().node.enclave, Abs());
      node := MakeGraphNode(s.Key(), s.Entity().node.enclave);
      node := UpdateTopicMapsForPut(node, s);
    }

    method FileNode(node: GraphNode, s: Subject, ghost g: Graph)
      requires NodesOk(graph, g) && Owned(g) && nodes == g.nodes && totalNodes == |nodes| && s.Key() !in nodes
      requires KeyOfNode(node) == s.Key() && NodeOk(node, Arrive(g, s).eps) && Live(trace) == Arrive(g, s).eps
      requires EnclavesAre(graph, enclaveOf)
      modifies this`graph, this`totalNodes, this`nodes, this`enclaveOf
      ensures Abs() == Arrive(g, s) && NodesOk(graph, Abs()) && Owned(Abs()) && totalNodes == |nodes|
      ensures EnclavesAre(graph, enclaveOf) && enclaveOf == old(enclaveOf)[s.Key() := node.enclave]
    {
      NodeInserted(graph, node, g, s);
      EnclaveInserted(graph, node, g, enclaveOf);
      if node.ns !in graph {
        graph := graph[node.ns := [node]];
      } else {
        graph := graph[node.ns := graph[node.ns] + [node]];
      }
      totalNodes := totalNodes + 1;
      nodes := Arrive(g, s).nodes;
      enclaveOf := enclaveOf[s.Key() := node.enclave];
    }

    /** A token of an unknown node makes the node. */
    method AddNode(s: Subject)
      requires Consistent() && s.Sorted() && s.Key() !in nodes
      requires KeysTell(Live(trace) + s.Endpoints()) && Distinct(Live(trace) + s.Endpoints())
      modifies this`graph, this`totalNodes, this`topics, this`services, this`nodes, this`enclaveOf, this`trace
      modifies events`unregistered, events`delivered, events`reports
      ensures Consistent() && Abs() == Arrive(old(Abs()), s)
      ensures PutRecorded(s, old(trace), trace)
      ensures enclaveOf == old(enclaveOf)[s.Key() := s.Entity().node.enclave]
    {
      ghost var g := Abs();
      var node := MakeNode(s);
      FileNode(node, s, g);
      NowConsistent(Arrive(g, s));
    }

    method UpdateNode(s: Subject, i: nat)
      requires Consistent() && s.Sorted() && s.Key() in nodes
      requires s.Key().ns in graph && i < |graph[s.Key().ns]|
      requires KeyOfNode(graph[s.Key().ns][i]) == s.Key() && NodeOk(graph[s.Key().ns][i], Live(trace))
      requires KeysTell(Live(trace) + s.Endpoints()) && Distinct(Live(trace) + s.Endpoints())
      modifies this`graph, this`topics, this`services, this`trace
      modifies events`unregistered, events`delivered, events`reports
      ensures Consistent() && Abs() == Arrive(old(Abs()), s)
      ensures PutRecorded(s, old(trace), trace)
    {
      ghost var g := Abs();
      ArriveAbout(g, s);
      var ns := s.Key().ns;
      var node := UpdateTopicMapsForPut(graph[ns][i], s);
      PutBack(node, i, g, Arrive(g, s));
    }

    method PutBack(node: GraphNode, i: nat, ghost g: Graph, ghost g': Graph)
      requires NodesOk(graph, g) && OnlyAbout(g, g', KeyOfNode(node)) && g'.nodes == g.nodes
      requires node.ns in graph && i < |graph[node.ns]| && KeyOfNode(graph[node.ns][i]) == KeyOfNode(node)
      requires NodeOk(node, g'.eps)
      requires EnclavesAre(graph, enclaveOf) && node.enclave == graph[node.ns][i].enclave
      requires events.Valid() && Indexed(zid, trace, events.reports, topics, services)
      requires Abs() == g' && Owned(g') && totalNodes == |nodes|
      modifies this`graph
      ensures Consistent()
    {
      NodeReplaced(graph, i, node, g, g');
      EnclaveReplaced(graph, i, node, enclaveOf);
      graph := graph[node.ns := graph[node.ns][i := node]];
      NowConsistent(g');
    }

    /** `parse_put` once the token is understood. */
    method Add(s: Subject)
      requires Consistent() && s.Sorted()
      requires KeysTell(Live(trace) + s.Endpoints()) && Distinct(Live(trace) + s.Endpoints())
      modifies this`graph, this`totalNodes, this`topics, this`services, this`nodes, this`enclaveOf, this`trace
      modifies events`unregistered, events`delivered, events`reports
      ensures Consistent() && Abs() == Arrive(old(Abs()), s)
      ensures PutRecorded(s, old(trace), trace)
      ensures enclaveOf ==
                if s.Key() in old(nodes) then old(enclaveOf) else old(enclaveOf)[s.Key() := s.Entity().node.enclave]
    {
      if s.Key().ns !in graph {
        NamespaceUnknown(graph, Abs(), s.Key());
        AddNode(s);
        return;
      }
      var i := Locate(graph, s.Key(), Abs());
      if i == |graph[s.Key().ns]| {
        AddNode(s);
        return;
      }
      UpdateNode(s, i);
    }

    /** `parse_put`. */
    method ParsePut(keyexpr: string, ignoreLocal: bool) returns (threw: bool)
      requires Valid()
      requires L.Parse(keyexpr).Parsed? ==> Separate(Live(trace), TokenSubject(hash, keyexpr))
      modifies this`graph, this`totalNodes, this`topics, this`services, this`nodes, this`enclaveOf, this`trace
      modifies events`unregistered, events`delivered, events`reports
      ensures Valid()
      ensures threw <==> L.Parse(keyexpr).Threw?
      ensures Abs() == if Ignored(keyexpr, ignoreLocal) then old(Abs()) else Apply(hash, old(Abs()), Put(keyexpr))
      ensures if !L.Parse(keyexpr).Parsed? || Ignored(keyexpr, ignoreLocal) then trace == old(trace)
              else PutRecorded(TokenSubject(hash, keyexpr), old(trace), trace)
      ensures L.Parse(keyexpr).Parsed? && !Ignored(keyexpr, ignoreLocal) ==>
                exists k :: k in nodes && IsNodeOf(k, L.Parse(keyexpr).entity)
      ensures enclaveOf == if Ignored(keyexpr, ignoreLocal) then old(enclaveOf)
                           else EnclavesAfter(hash, old(Abs()), old(enclaveOf), Put(keyexpr))
    {
      var r := L.Make(keyexpr);
      threw := r.Threw?;
      if !r.Parsed? || (ignoreLocal && r.entity.zid == zid) {
        return;
      }
      var s := TokenSubject(hash, keyexpr);
      L.ParseRange(keyexpr);
      GenuineMore(hash, Live(trace), r.entity);
      DistinctMore(Live(trace), s);
      Add(s);
      assert IsNodeOf(s.Key(), r.entity);
    }

    /** `update_topic_maps_for_del`. */
    method UpdateTopicMapsForDel(node: GraphNode, s: Subject) returns (node': GraphNode)
      requires events.Valid() && Indexed(zid, trace, events.reports, topics, services)
      requires s.EndpointSubject? && s.Sorted() && KeyOfNode(node) == s.Key() && NodeOk(node, Live(trace))
      requires Separate(Live(trace), s)
      modifies this`topics, this`services, this`trace
      modifies events`unregistered, events`delivered, events`reports
      ensures events.Valid() && Indexed(zid, trace, events.reports, topics, services)
      ensures Recorded(old(trace), trace, false, s.endpoint)
      ensures Live(trace) == old(Live(trace)) - {s.endpoint}
      ensures KeyOfNode(node') == s.Key() && NodeOk(node', Live(trace)) && node'.enclave == node.enclave
    {
      var e, kind := s.endpoint, s.Entity().kind;
      ghost var live, own := Live(trace), OwnedBy(Live(trace), s.Key(), kind);
      var tm, _ := UpdateTopicMapForDel(events, zid, RoleMap(node, kind), e, false, own, live);
      node' := WithRole(node, kind, tm);
      RoleAfterDel(node, kind, tm, live, e);
      DelInIndexes(e);
    }

    /** The part of `update_topic_maps_for_del` that concerns the whole graph. */
    method DelInIndexes(e: Endpoint)
      requires events.Valid() && Indexed(zid, trace, events.reports, topics, services) && e.entity.kind != L.Node
      requires Apart(Live(trace), e)
      modifies this`topics, this`services, this`trace
      modifies events`unregistered, events`delivered, events`reports
      ensures events.Valid() && Indexed(zid, trace, events.reports, topics, services)
      ensures Recorded(old(trace), trace, false, e) && Live(trace) == old(Live(trace)) - {e}
    {
      ghost var cs, reports := trace, events.reports;
      ghost var cs';
      if e.entity.kind == L.Publisher || e.entity.kind == L.Subscription {
        topics, cs' := IndexDel(events, zid, topics, e, cs);
        IndexedAfter(zid, cs, reports, cs', events.reports, false, e, topics, services);
      } else {
        services, cs' := IndexDel(events, zid, services, e, cs);
        IndexedAfter(zid, cs, reports, cs', events.reports, false, e, services, topics);
      }
      trace := cs';
      RecordedLive(cs, cs', false, e);
    }

    method RemoveEndpoint(s: Subject, i: nat)
      requires Consistent() && s.EndpointSubject? && s.Sorted() && s.Key() in nodes && Separate(Live(trace), s)
      requires s.Key().ns in graph && i < |graph[s.Key().ns]|
      requires KeyOfNode(graph[s.Key().ns][i]) == s.Key() && NodeOk(graph[s.Key().ns][i], Live(trace))
      modifies this`graph, this`topics, this`services, this`trace
      modifies events`unregistered, events`delivered, events`reports
      ensures Consistent() && Abs() == Depart(old(Abs()), s)
      ensures Recorded(old(trace), trace, false, s.endpoint)
    {
      ghost var g := Abs();
      DepartAbout(g, s);
      var ns := s.Key().ns;
      var node := UpdateTopicMapsForDel(graph[ns][i], s);
      PutBack(node, i, g, Depart(g, s));
    }

    /** One of the four calls of `remove_topic_map_from_cache`. */
    method RemoveRole(tm: TopicMap, inServices: bool, ghost own: set<Endpoint>)
      requires events.Valid() && Indexed(zid, trace, events.reports, topics, services)
      requires Pictures(tm, own) && own <= Family(Live(trace), inServices)
      modifies this`topics, this`services, this`trace
      modifies events`unregistered, events`delivered, events`reports
      ensures events.Valid() && Indexed(zid, trace, events.reports, topics, services)
      ensures Drops(old(trace), trace, own)
    {
      ghost var cs, reports := trace, events.reports;
      ghost var cs';
      if inServices {
        services, cs' := RemoveTopicMapFromCache(events, zid, tm, services, true, own, cs);
        IndexedAfterDrops(zid, cs, reports, cs', events.reports, own, services, topics, true);
      } else {
        topics, cs' := RemoveTopicMapFromCache(events, zid, tm, topics, false, own, cs);
        IndexedAfterDrops(zid, cs, reports, cs', events.reports, own, topics, services, false);
      }
      trace := cs';
    }

    method RemoveRoles(a: TopicMap, b: TopicMap, inServices: bool, ghost ownA: set<Endpoint>, ghost ownB: set<Endpoint>)
      requires events.Valid() && Indexed(zid, trace, events.reports, topics, services)
      requires Pictures(a, ownA) && Pictures(b, ownB) && ownA !! ownB
      requires ownA + ownB <= Family(Live(trace), inServices)
      modifies this`topics, this`services, this`trace
      modifies events`unregistered, events`delivered, events`reports
      ensures events.Valid() && Indexed(zid, trace, events.reports, topics, services)
      ensures Drops(old(trace), trace, ownA + ownB)
    {
      ghost var cs := trace;
      RemoveRole(a, inServices, ownA);
      StillThere(cs, trace, ownA, ownA + ownB, ownB, inServices);
      ghost var middle := trace;
      RemoveRole(b, inServices, ownB);
      DropsMore(cs, middle, trace, ownA, ownB, ownA + ownB);
    }

    /** All that a departing node leaves in the indexes goes first. */
    method RemoveLeftovers(node: GraphNode)
      requires events.Valid() && Indexed(zid, trace, events.reports, topics, services)
      requires NodeOk(node, Live(trace))
      modifies this`topics, this`services, this`trace
      modifies events`unregistered, events`delivered, events`reports
      ensures events.Valid() && Indexed(zid, trace, events.reports, topics, services)
      ensures Drops(old(trace), trace, OfNode(old(Live(trace)), KeyOfNode(node)))
    {
      ghost var cs, live, k := trace, Live(trace), KeyOfNode(node);
      if node.pubs == map[] && node.subs == map[] && node.services == map[] && node.clients == map[] {
        NothingOwned(node, live);
        DropsNone(cs);
        return;
      }
      RolesOfNode(node, live);
      RolesPictured(node, live);
      RemoveRoles(node.pubs, node.subs, false, OwnedBy(live, k, L.Publisher), OwnedBy(live, k, L.Subscription));
      ghost var gone := OwnedBy(live, k, L.Publisher) + OwnedBy(live, k, L.Subscription);
      ghost var rest := OwnedBy(live, k, L.Service) + OwnedBy(live, k, L.Client);
      StillThere(cs, trace, gone, Family(live, true), rest, true);
      ghost var middle := trace;
      RemoveRoles(node.services, node.clients, true, OwnedBy(live, k, L.Service), OwnedBy(live, k, L.Client));
      DropsMore(cs, middle, trace, gone, rest, OfNode(live, k));
    }

    method RemoveNode(s: Subject, i: nat)
      requires Consistent() && s.NodeSubject? && s.Key() in nodes
      requires s.Key().ns in graph && i < |graph[s.Key().ns]|
      requires KeyOfNode(graph[s.Key().ns][i]) == s.Key() && NodeOk(graph[s.Key().ns][i], Live(trace))
      modifies this`graph, this`totalNodes, this`topics, this`services, this`nodes, this`trace
      modifies events`unregistered, events`delivered, events`reports
      ensures Consistent() && Abs() == Depart(old(Abs()), s)
      ensures Drops(old(trace), trace, OfNode(old(Live(trace)), s.Key()))
    {
      ghost var g := Abs();
      DepartAbout(g, s);
      var ns := s.Key().ns;
      RemoveLeftovers(graph[ns][i]);
      NodeErased(graph, ns, i, g, Depart(g, s));
      EnclaveErased(graph, ns, i, enclaveOf);
      UnfileNode(ns, i);
      nodes := Depart(g, s).nodes;
      NowConsistent(Depart(g, s));
    }

    method UnfileNode(ns: string, i: nat)
      requires ns in graph && i < |graph[ns]|
      modifies this`graph, this`totalNodes
      ensures graph == Erased(old(graph), ns, i) && totalNodes == old(totalNodes) - 1
    {
      graph := graph[ns := graph[ns][..i] + graph[ns][i + 1..]];
      totalNodes := totalNodes - 1;
      if |graph[ns]| == 0 {
        graph := graph - {ns};
      }
    }

    /** `parse_del`. */
    method ParseDel(keyexpr: string, ignoreLocal: bool) returns (threw: bool)
      requires Valid()
      requires L.Parse(keyexpr).Parsed? ==> KnownSeparate(Abs(), TokenSubject(hash, keyexpr))
      modifies this`graph, this`totalNodes, this`topics, this`services, this`nodes, this`trace
      modifies events`unregistered, events`delivered, events`reports
      ensures Valid()
      ensures threw <==> L.Parse(keyexpr).Threw?
      ensures Abs() == if Ignored(keyexpr, ignoreLocal) then old(Abs()) else Apply(hash, old(Abs()), Del(keyexpr))
      ensures !L.Parse(keyexpr).Parsed? || Ignored(keyexpr, ignoreLocal) ==> trace == old(trace)
      ensures L.Parse(keyexpr).Parsed? && !Ignored(keyexpr, ignoreLocal) ==>
                DelRecorded(old(Abs()), TokenSubject(hash, keyexpr), old(trace), trace)
    {
      var r := L.Make(keyexpr);
      threw := r.Threw?;
      if !r.Parsed? || (ignoreLocal && r.entity.zid == zid) {
        return;
      }
      Remove(TokenSubject(hash, keyexpr));
      GenuineFewer(hash, old(Live(trace)), Live(trace));
    }

    /** `parse_del` once the token is understood. */
    method Remove(s: Subject)
      requires Consistent() && s.Sorted() && KnownSeparate(Abs(), s)
      modifies this`graph, this`totalNodes, this`topics, this`services, this`nodes, this`trace
      modifies events`unregistered, events`delivered, events`reports
      ensures Consistent() && Abs() == Depart(old(Abs()), s)
      ensures DelRecorded(old(Abs()), s, old(trace), trace)
    {
      if s.Key().ns !in graph {
        NamespaceUnknown(graph, Abs(), s.Key());
        return;
      }
      var i := Locate(graph, s.Key(), Abs());
      if i == |graph[s.Key().ns]| {
        return;
      }
      if s.Entity().kind == L.Node {
        RemoveNode(s, i);
        return;
      }
      RemoveEndpoint(s, i);
    }

    // ----- queries

    /** One node of `get_node_names`, written to slot `j`. */
    method ListNode(
      ns: string, i: nat, names: array<string>, namespaces: array<string>, enclaves: array<string>, j: nat,
      ghost who: seq<NodeKey>)
      requires ns in graph && i < |graph[ns]| && graph[ns][i].ns == ns && EnclavesAre(graph, enclaveOf)
      requires names != namespaces && names != enclaves && namespaces != enclaves
      requires j == |who| < names.Length && Written(enclaveOf, who, names, namespaces, enclaves)
      modifies names, namespaces, enclaves
      ensures Written(enclaveOf, who + [KeyOfNode(graph[ns][i])], names, namespaces, enclaves)
    {
      var node := graph[ns][i];
      names[j] := node.name;
      namespaces[j] := ns;
      enclaves[j] := node.enclave;
      assert EnclaveIs(node, enclaveOf);
    }

    /** The inner loop of `get_node_names`. */
    method ListNamespace(
      ns: string, names: array<string>, namespaces: array<string>, enclaves: array<string>, from: nat,
      ghost done: seq<string>, ghost who: seq<NodeKey>)
      returns (next: nat, ghost who': seq<NodeKey>)
      requires NodesOk(graph, Abs()) && EnclavesAre(graph, enclaveOf) && ns in graph && ns !in done
      requires names != namespaces && names != enclaves && namespaces != enclaves
      requires names.Length == |nodes| && from == |who| && Written(enclaveOf, who, names, namespaces, enclaves)
      requires ListedUpTo(graph, done, [], 0, who) && forall n | n in who :: n in nodes
      modifies names, namespaces, enclaves
      ensures next == |who'| && Written(enclaveOf, who', names, namespaces, enclaves)
      ensures ListedUpTo(graph, done + [ns], [], 0, who') && forall n | n in who' :: n in nodes
    {
      next, who' := from, who;
      NamespaceBegins(graph, done, ns, who);
      for i := 0 to |graph[ns]|
        invariant next == |who'| && Written(enclaveOf, who', names, namespaces, enclaves)
        invariant ListedUpTo(graph, done, graph[ns], i, who') && forall n | n in who' :: n in nodes
      {
        ListedNext(graph, Abs(), done, ns, i, who');
        ListNode(ns, i, names, namespaces, enclaves, next, who');
        next := next + 1;
        who' := who' + [KeyOfNode(graph[ns][i])];
      }
      NamespaceListed(graph, Abs(), done, ns, who');
    }

    /** The outer loop of `get_node_names`. */
    method ListNamespaces(names: array<string>, namespaces: array<string>, enclaves: array<string>)
      returns (ghost who: seq<NodeKey>)
      requires Valid() && names.Length == namespaces.Length == enclaves.Length == |nodes|
      requires names != namespaces && names != enclaves && namespaces != enclaves
      modifies names, namespaces, enclaves
      ensures Enumerates(who, nodes) && |who| == |nodes| && Written(enclaveOf, who, names, namespaces, enclaves)
    {
      who := [];
      var j := 0;
      var order := IterationOrder(graph.Keys);
      for a := 0 to |order|
        invariant j == |who| && Written(enclaveOf, who, names, namespaces, enclaves)
        invariant ListedUpTo(graph, order[..a], [], 0, who) && forall n | n in who :: n in nodes
      {
        NextVisit(order, graph.Keys, a);
        j, who := ListNamespace(order[a], names, namespaces, enclaves, j, order[..a], who);
      }
      assert order[..|order|] == order;
      AllListed(graph, Abs(), order, who);
    }

    /** `get_node_names`: the slots counted by `total_nodes_in_graph_` receive every live node exactly once. */
    method GetNodeNames()
      returns (names: array<string>, namespaces: array<string>, enclaves: array<string>, ghost who: seq<NodeKey>)
      requires Valid()
      ensures fresh(names) && fresh(namespaces) && fresh(enclaves)
      ensures names.Length == namespaces.Length == enclaves.Length == totalNodes == |who|
      ensures Enumerates(who, nodes) && Written(enclaveOf, who, names, namespaces, enclaves)
    {
      names := new string[totalNodes](_ => "");
      namespaces := new string[totalNodes](_ => "");
      enclaves := new string[totalNodes](_ => "");
      who := ListNamespaces(names, namespaces, enclaves);
    }

    ghost function OfKind(kind: L.EntityType, name: string): set<Endpoint>
      reads this
    {
      set e | e in Abs().eps && e.entity.kind == kind && Named(e.entity, name)
    }

    method CountPublishers(topic: string) returns (count: nat)
      requires Valid()
      ensures count == |OfKind(L.Publisher, topic)|
    {
      count := CountEntities(topics, Family(Live(trace), false), topic, true);
      KindsOfRole(hash, Live(trace), false, true, topic);
    }

    method CountSubscriptions(topic: string) returns (count: nat)
      requires Valid()
      ensures count == |OfKind(L.Subscription, topic)|
    {
      count := CountEntities(topics, Family(Live(trace), false), topic, false);
      KindsOfRole(hash, Live(trace), false, false, topic);
    }

    method CountServices(name: string) returns (count: nat)
      requires Valid()
      ensures count == |OfKind(L.Service, name)|
    {
      count := CountEntities(services, Family(Live(trace), true), name, false);
      KindsOfRole(hash, Live(trace), true, false, name);
    }

    method CountClients(name: string) returns (count: nat)
      requires Valid()
      ensures count == |OfKind(L.Client, name)|
    {
      count := CountEntities(services, Family(Live(trace), true), name, true);
      KindsOfRole(hash, Live(trace), true, true, name);
    }

    /** `publisher_count_matched_subscriptions`, and its mirror with `pub` set: the live peers on the same name and
        type whose own QoS passes the compatibility check. */
    method CountMatchedPeers(info: Place, pub: bool, compatible: (Q.QoS, Q.QoS) -> bool) returns (count: nat)
      requires Valid()
      ensures count == |set e | e in Abs().eps && e.entity.kind == (if pub then L.Publisher else L.Subscription)
                                && Named(e.entity, info.topic) && e.entity.topic.value.typ == info.typ
                                && compatible(info.qos, e.entity.topic.value.qos)|
    {
      count := CountMatched(topics, Family(Live(trace), false), info, pub, compatible);
      MatchingByKind(hash, Live(trace), pub, info, compatible);
    }

    method ServiceServerIsAvailable(info: Place) returns (available: bool)
      requires Valid()
      ensures available <==>
              exists e :: e in Abs().eps && e.entity.kind == L.Service
                          && Named(e.entity, info.topic) && e.entity.topic.value.typ == info.typ
    {
      available := ServerIsAvailable(services, Family(Live(trace), true), info);
      ServersAre(hash, Live(trace), info);
    }
  }

  /** In a cache whose tokens arrived once each, into uniform topics, and departed while live, the ledger has
      reported to every live local publisher and subscription as many matches as it has now. */
  lemma CacheBalanced(cache: GraphCache)
    requires cache.Valid() && Disciplined(cache.zid, cache.trace) && Distinct(Announced(cache.trace))
    ensures Balanced(cache.zid, cache.Abs().eps, cache.events.reports)
  {
    MatchedCountsConserved(cache.zid, cache.trace);
  }

  /** As long as new local endpoints are new and matches not too many, the ledger has been right after every change
      exactly when every change was harmless. */
  lemma CacheBalancedIff(cache: GraphCache)
    requires cache.Valid() && Orderly(cache.zid, cache.trace) && Distinct(Announced(cache.trace))
    ensures AlwaysBalanced(cache.zid, cache.trace) <==> AllHarmless(cache.zid, cache.trace)
    ensures AllHarmless(cache.zid, cache.trace) ==>
              Balanced(cache.zid, cache.Abs().eps, cache.events.reports)
  {
    BalancedThroughoutIff(cache.zid, cache.trace);
  }

  /** The index of topics is the union of the maps of all nodes, and so is the index of services. */
  lemma IndexIsUnion(cache: GraphCache, e: Endpoint)
    requires cache.Valid() && e.entity.kind != L.Node
    ensures Has(if IsService(e) then cache.services else cache.topics, e) <==>
            exists ns, i :: ns in cache.graph && 0 <= i < |cache.graph[ns]| &&
                            Has(RoleMap(cache.graph[ns][i], e.entity.kind), e)
  {
    var live, kind := Live(cache.trace), e.entity.kind;
    assert Has(if IsService(e) then cache.services else cache.topics, e) <==> e in Family(live, IsService(e));
    if e in live {
      var k := OwnerOf(e);
      assert Listed(cache.graph, k);
      var i :| 0 <= i < |cache.graph[k.ns]| && KeyOfNode(cache.graph[k.ns][i]) == k;
      HeldByNode(cache.graph, cache.Abs(), k.ns, i, e);
      assert Has(RoleMap(cache.graph[k.ns][i], kind), e);
    }
    if ns, i :| ns in cache.graph && 0 <= i < |cache.graph[ns]| && Has(RoleMap(cache.graph[ns][i], kind), e) {
      HeldByNode(cache.graph, cache.Abs(), ns, i, e);
    }
  }

  lemma HeldByNode(graph: NamespaceMap, g: Graph, ns: string, i: nat, e: Endpoint)
    requires NodesOk(graph, g) && ns in graph && i < |graph[ns]|
    ensures Has(RoleMap(graph[ns][i], e.entity.kind), e) <==> e in g.eps && OwnerOf(e) == KeyOfNode(graph[ns][i])
  {
    assert NamespaceOk(ns, graph[ns], g);
    var n := graph[ns][i];
    assert Pictures(RoleMap(n, e.entity.kind), OwnedBy(g.eps, KeyOfNode(n), e.entity.kind));
  }

  function KindOfRole(services: bool, pub: bool): L.EntityType {
    if services then (if pub then L.Client else L.Service) else if pub then L.Publisher else L.Subscription
  }

  /** An endpoint is filed under the name, the type and the QoS its own entity has. */
  lemma PlaceOfGenuine(hash: string -> int, e: Endpoint)
    requires Genuine(hash, e)
    ensures e.entity.topic.Some? && e.gid == hash(L.Token(e.entity))
    ensures var t := e.entity.topic.value; e.place == Place(t.name, t.typ, Q.Encode(t.qos), t.qos)
  {
  }

  lemma RoleIffKind(hash: string -> int, live: set<Endpoint>, e: Endpoint, services: bool, pub: bool)
    requires AllGenuine(hash, live) && e in live
    ensures IsService(e) == services && IsPub(e) == pub <==> e.entity.kind == KindOfRole(services, pub)
  {
    assert Genuine(hash, e);
  }

  lemma KindsOfRole(hash: string -> int, live: set<Endpoint>, services: bool, pub: bool, name: string)
    requires AllGenuine(hash, live)
    ensures OfRole(Family(live, services), pub, name) ==
      set e | e in live && e.entity.kind == KindOfRole(services, pub) && Named(e.entity, name)
  {
    forall e | e in live
      ensures IsService(e) == services && IsPub(e) == pub <==> e.entity.kind == KindOfRole(services, pub)
      ensures e.place.topic == name <==> Named(e.entity, name)
    {
      RoleIffKind(hash, live, e, services, pub);
      PlaceOfGenuine(hash, e);
    }
  }

  lemma MatchingByKind(
    hash: string -> int, live: set<Endpoint>, pub: bool, info: Place, compatible: (Q.QoS, Q.QoS) -> bool)
    requires AllGenuine(hash, live)
    ensures Matching(Family(live, false), pub, info, compatible) ==
            set e | e in live && e.entity.kind == (if pub then L.Publisher else L.Subscription)
                    && Named(e.entity, info.topic) && e.entity.topic.value.typ == info.typ
                    && compatible(info.qos, e.entity.topic.value.qos)
  {
    forall e | e in live
      ensures IsService(e) == false && IsPub(e) == pub <==>
              e.entity.kind == if pub then L.Publisher else L.Subscription
      ensures e.entity.topic.Some? && e.place.topic == e.entity.topic.value.name
      ensures e.place.typ == e.entity.topic.value.typ && e.place.qos == e.entity.topic.value.qos
    {
      RoleIffKind(hash, live, e, false, pub);
      PlaceOfGenuine(hash, e);
    }
  }

  lemma ServersAre(hash: string -> int, live: set<Endpoint>, info: Place)
    requires AllGenuine(hash, live)
    ensures (exists e :: e in Family(live, true) && On(e, info.topic, info.typ) && !IsPub(e)) <==>
            exists e :: e in live && e.entity.kind == L.Service
                        && Named(e.entity, info.topic) && e.entity.topic.value.typ == info.typ
  {
    forall e | e in live
      ensures IsService(e) && !IsPub(e) <==> e.entity.kind == L.Service
      ensures e.entity.topic.Some? && e.place.topic == e.entity.topic.value.name
      ensures e.place.typ == e.entity.topic.value.typ
    {
      RoleIffKind(hash, live, e, true, false);
      PlaceOfGenuine(hash, e);
    }
    if e :| e in live && e.entity.kind == L.Service && Named(e.entity, info.topic)
            && e.entity.topic.value.typ == info.typ {
      assert e in Family(live, true) && On(e, info.topic, info.typ);
    }
  }
}

/** What a sender of tokens must keep to, so that the matches a graph cache reports are the matches there are. */
module GraphRuns {
  import opened TopicIndex
  import opened QosEvents
  import opened MatchedEvents
  import opened MatchedCounts
  import opened TopicMapUpdates
  import opened GraphSpec
  import opened GraphCaches
  import L = Liveliness

  /** A token that follows the discipline: an endpoint arrives into a uniform topic, a local one for the first time and
      any other while it is not there, with a hash that no endpoint had before; it departs while it is there. Tokens
      of nodes, and those that end endpoints of unknown nodes, are free. */
  ghost predicate Follows(zid: string, g: Graph, announced: set<Endpoint>, put: bool, s: Subject) {
    if s.NodeSubject? then true
    else if !put then s.Key() in g.nodes ==> s.endpoint in g.eps
    else
      && Uniform(g.eps, s.endpoint) && Apart(announced, s.endpoint)
      && s.endpoint !in (if Local(zid, s.endpoint) then announced else g.eps)
  }

  ghost predicate FollowsToken(hash: string -> int, zid: string, g: Graph, announced: set<Endpoint>, t: Token) {
    L.Parse(t.keyexpr).Parsed? ==> Follows(zid, g, announced, t.Put?, TokenSubject(hash, t.keyexpr))
  }

  ghost function AnnouncedBy(hash: string -> int, announced: set<Endpoint>, t: Token): set<Endpoint> {
    if t.Put? && L.Parse(t.keyexpr).Parsed? then announced + TokenSubject(hash, t.keyexpr).Endpoints() else announced
  }

  /** Every token of a run follows the discipline, given what went before it. */
  ghost predicate AllFollow(
    hash: string -> int, zid: string, g: Graph, announced: set<Endpoint>, ts: seq<Token>)
    decreases ts
  {
    ts == [] || (
      && FollowsToken(hash, zid, g, announced, ts[0])
      && AllFollow(hash, zid, Apply(hash, g, ts[0]), AnnouncedBy(hash, announced, ts[0]), ts[1..]))
  }

  lemma RecordedAnnounces(cs: seq<Change>, cs': seq<Change>, put: bool, e: Endpoint)
    requires Recorded(cs, cs', put, e)
    ensures Announced(cs') == Announced(cs) + if put then {e} else {}
  {
    AnnouncedSnoc(cs, cs'[|cs'| - 1]);
    assert cs' == cs + [cs'[|cs'| - 1]];
  }

  /** What a cache records of an arriving token that follows is disciplined. */
  lemma PutKeepsDisciplined(zid: string, g: Graph, s: Subject, cs: seq<Change>, cs': seq<Change>)
    requires Disciplined(zid, cs) && Distinct(Announced(cs)) && g.eps == Live(cs)
    requires PutRecorded(s, cs, cs') && Follows(zid, g, Announced(cs), true, s)
    ensures Disciplined(zid, cs') && Announced(cs') == Announced(cs) + s.Endpoints() && Distinct(Announced(cs'))
  {
    if s.EndpointSubject? {
      RecordedAnnounces(cs, cs', true, s.endpoint);
    }
  }

  /** What a cache records of a disappearing token that follows is disciplined, leftovers of a node included. */
  lemma DelKeepsDisciplined(zid: string, g: Graph, s: Subject, cs: seq<Change>, cs': seq<Change>)
    requires Disciplined(zid, cs) && g.eps == Live(cs)
    requires DelRecorded(g, s, cs, cs') && Follows(zid, g, Announced(cs), false, s)
    ensures Disciplined(zid, cs') && Announced(cs') == Announced(cs)
  {
    if s.Key() in g.nodes {
      if s.NodeSubject? {
        DepartsDisciplined(zid, cs, cs');
      } else {
        RecordedAnnounces(cs, cs', false, s.endpoint);
      }
    }
  }

  /** A token that follows has a hash of its own among the live endpoints. */
  lemma FollowsSeparate(zid: string, g: Graph, announced: set<Endpoint>, put: bool, s: Subject)
    requires Follows(zid, g, announced, put, s) && Distinct(announced) && g.eps <= announced
    ensures if put then Separate(g.eps, s) else KnownSeparate(g, s)
  {
    if !put && s.EndpointSubject? && s.Key() in g.nodes {
      DistinctApart(announced, s.endpoint);
    }
  }

  /** The cache has gone through a disciplined run. */
  ghost predicate InOrder(cache: GraphCache)
    reads cache, cache.events
  {
    cache.Valid() && Disciplined(cache.zid, cache.trace) && Distinct(Announced(cache.trace))
  }

  lemma NextToken(
    hash: string -> int, zid: string, g: Graph, announced: set<Endpoint>, told: map<NodeKey, string>, ts: seq<Token>,
    i: nat)
    requires i < |ts| && AllFollow(hash, zid, g, announced, ts[i..])
    ensures FollowsToken(hash, zid, g, announced, ts[i])
    ensures AllFollow(hash, zid, Apply(hash, g, ts[i]), AnnouncedBy(hash, announced, ts[i]), ts[i + 1..])
    ensures Run(hash, g, ts[i..]) == Run(hash, Apply(hash, g, ts[i]), ts[i + 1..])
    ensures RunEnclaves(hash, g, told, ts[i..]) ==
            RunEnclaves(hash, Apply(hash, g, ts[i]), EnclavesAfter(hash, g, told, ts[i]), ts[i + 1..])
  {
    assert ts[i..][0] == ts[i] && ts[i..][1..] == ts[i + 1..];
  }

  lemma AllReceived(hash: string -> int, g: Graph, told: map<NodeKey, string>, ts: seq<Token>)
    ensures Run(hash, g, ts[|ts|..]) == g && RunEnclaves(hash, g, told, ts[|ts|..]) == told
  {
  }

  lemma NoneYet(cache: GraphCache, ts: seq<Token>)
    requires cache.Valid() && cache.trace == []
    ensures InOrder(cache) && Announced(cache.trace) == {} && ts[0..] == ts
  {
  }

  /** The live endpoints of a kind on the topic name and type of an entity. */
  ghost function Partners(live: set<Endpoint>, e: L.Entity, kind: L.EntityType): set<Endpoint> {
    set y | y in live && y.entity.kind == kind && e.topic.Some? && y.entity.topic.Some?
            && y.entity.topic.value.name == e.topic.value.name && y.entity.topic.value.typ == e.topic.value.typ
  }

  lemma MatchesArePartners(hash: string -> int, live: set<Endpoint>, x: Endpoint)
    requires AllGenuine(hash, live) && x in live
    ensures x.entity.kind == L.Publisher ==> Matches(live, x) == Partners(live, x.entity, L.Subscription)
    ensures x.entity.kind == L.Subscription ==> Matches(live, x) == Partners(live, x.entity, L.Publisher)
  {
    forall y | y in live
      ensures y.entity.kind != L.Node && y.entity.topic.Some?
      ensures y.place.topic == y.entity.topic.value.name && y.place.typ == y.entity.topic.value.typ
    {
      assert Genuine(hash, y);
      PlaceOfGenuine(hash, y);
    }
  }

  lemma ToldByKind(cache: GraphCache)
    requires InOrder(cache) && Balanced(cache.zid, cache.Abs().eps, cache.events.reports)
    ensures forall x | x in cache.Abs().eps && x.entity.zid == cache.zid && x.entity.kind == L.Publisher ::
              && Total(cache.events.reports, x.gid, PUBLICATION_MATCHED) ==
                 |Partners(cache.Abs().eps, x.entity, L.Subscription)|
              && Total(cache.events.reports, x.gid, SUBSCRIPTION_MATCHED) == 0
    ensures forall x | x in cache.Abs().eps && x.entity.zid == cache.zid && x.entity.kind == L.Subscription ::
              && Total(cache.events.reports, x.gid, SUBSCRIPTION_MATCHED) ==
                 |Partners(cache.Abs().eps, x.entity, L.Publisher)|
              && Total(cache.events.reports, x.gid, PUBLICATION_MATCHED) == 0
  {
    BalancedByKind(cache.zid, cache.trace);
    forall x | x in Live(cache.trace)
      ensures x.entity.kind == L.Publisher ==>
                Matches(Live(cache.trace), x) == Partners(Live(cache.trace), x.entity, L.Subscription)
      ensures x.entity.kind == L.Subscription ==>
                Matches(Live(cache.trace), x) == Partners(Live(cache.trace), x.entity, L.Publisher)
    {
      MatchesArePartners(cache.hash, Live(cache.trace), x);
    }
  }

  lemma TokenSeparate(hash: string -> int, zid: string, g: Graph, announced: set<Endpoint>, t: Token)
    requires FollowsToken(hash, zid, g, announced, t) && Distinct(announced) && g.eps <= announced
    ensures L.Parse(t.keyexpr).Parsed? ==>
              var s := TokenSubject(hash, t.keyexpr);
              if t.Put? then Separate(g.eps, s) else KnownSeparate(g, s)
  {
    if L.Parse(t.keyexpr).Parsed? {
      FollowsSeparate(zid, g, announced, t.Put?, TokenSubject(hash, t.keyexpr));
    }
  }

  /** What a cache records of a token that follows, be it a proper token or not, is disciplined. */
  lemma TokenKeepsDisciplined(
    hash: string -> int, zid: string, g: Graph, t: Token, cs: seq<Change>, cs': seq<Change>)
    requires Disciplined(zid, cs) && Distinct(Announced(cs)) && g.eps == Live(cs)
    requires FollowsToken(hash, zid, g, Announced(cs), t)
    requires if !L.Parse(t.keyexpr).Parsed? then cs' == cs
             else if t.Put? then PutRecorded(TokenSubject(hash, t.keyexpr), cs, cs')
             else DelRecorded(g, TokenSubject(hash, t.keyexpr), cs, cs')
    ensures Disciplined(zid, cs') && Announced(cs') == AnnouncedBy(hash, Announced(cs), t) && Distinct(Announced(cs'))
  {
    if L.Parse(t.keyexpr).Parsed? {
      if t.Put? {
        PutKeepsDisciplined(zid, g, TokenSubject(hash, t.keyexpr), cs, cs');
      } else {
        DelKeepsDisciplined(zid, g, TokenSubject(hash, t.keyexpr), cs, cs');
      }
    }
  }

  method ReceivePut(cache: GraphCache, keyexpr: string)
    requires InOrder(cache)
    requires FollowsToken(cache.hash, cache.zid, cache.Abs(), Announced(cache.trace), Put(keyexpr))
    modifies cache, cache.events
    ensures InOrder(cache) && cache.Abs() == Apply(cache.hash, old(cache.Abs()), Put(keyexpr))
    ensures Announced(cache.trace) == AnnouncedBy(cache.hash, old(Announced(cache.trace)), Put(keyexpr))
    ensures cache.enclaveOf == EnclavesAfter(cache.hash, old(cache.Abs()), old(cache.enclaveOf), Put(keyexpr))
  {
    ghost var g, cs := cache.Abs(), cache.trace;
    LiveAnnounced(cs);
    TokenSeparate(cache.hash, cache.zid, g, Announced(cs), Put(keyexpr));
    var threw := cache.ParsePut(keyexpr, false);
    TokenKeepsDisciplined(cache.hash, cache.zid, g, Put(keyexpr), cs, cache.trace);
  }

  method ReceiveDel(cache: GraphCache, keyexpr: string)
    requires InOrder(cache)
    requires FollowsToken(cache.hash, cache.zid, cache.Abs(), Announced(cache.trace), Del(keyexpr))
    modifies cache, cache.events
    ensures InOrder(cache) && cache.Abs() == Apply(cache.hash, old(cache.Abs()), Del(keyexpr))
    ensures Announced(cache.trace) == old(Announced(cache.trace)) && cache.enclaveOf == old(cache.enclaveOf)
  {
    ghost var g, cs := cache.Abs(), cache.trace;
    LiveAnnounced(cs);
    TokenSeparate(cache.hash, cache.zid, g, Announced(cs), Del(keyexpr));
    var threw := cache.ParseDel(keyexpr, false);
    TokenKeepsDisciplined(cache.hash, cache.zid, g, Del(keyexpr), cs, cache.trace);
  }

  method Receive(cache: GraphCache, t: Token)
    requires InOrder(cache) && FollowsToken(cache.hash, cache.zid, cache.Abs(), Announced(cache.trace), t)
    modifies cache, cache.events
    ensures InOrder(cache) && cache.Abs() == Apply(cache.hash, old(cache.Abs()), t)
    ensures Announced(cache.trace) == AnnouncedBy(cache.hash, old(Announced(cache.trace)), t)
    ensures cache.enclaveOf == EnclavesAfter(cache.hash, old(cache.Abs()), old(cache.enclaveOf), t)
  {
    match t
    case Put(keyexpr) => ReceivePut(cache, keyexpr);
    case Del(keyexpr) => ReceiveDel(cache, keyexpr);
  }

  /** A cache that receives tokens of which every one follows the discipline stands for the graph they lead to, and has
      reported to each live local publisher and subscription the matches it has. */
  method ReceiveAll(zid: string, hash: string -> int, ts: seq<Token>) returns (cache: GraphCache)
    requires AllFollow(hash, zid, Graph({}, {}), {}, ts)
    ensures fresh(cache) && cache.zid == zid && cache.hash == hash && cache.Valid()
    ensures cache.Abs() == Run(hash, Graph({}, {}), ts)
    ensures cache.enclaveOf == RunEnclaves(hash, Graph({}, {}), map[], ts)
    ensures Balanced(zid, cache.Abs().eps, cache.events.reports)
    ensures forall x | x in cache.Abs().eps && x.entity.zid == zid && x.entity.kind == L.Publisher ::
              && Total(cache.events.reports, x.gid, PUBLICATION_MATCHED) ==
                 |Partners(cache.Abs().eps, x.entity, L.Subscription)|
              && Total(cache.events.reports, x.gid, SUBSCRIPTION_MATCHED) == 0
    ensures forall x | x in cache.Abs().eps && x.entity.zid == zid && x.entity.kind == L.Subscription ::
              && Total(cache.events.reports, x.gid, SUBSCRIPTION_MATCHED) ==
                 |Partners(cache.Abs().eps, x.entity, L.Publisher)|
              && Total(cache.events.reports, x.gid, PUBLICATION_MATCHED) == 0
  {
    cache := new GraphCache(zid, hash);
    NoneYet(cache, ts);
    for i := 0 to |ts|
      invariant fresh(cache) && fresh(cache.events) && cache.zid == zid && cache.hash == hash && InOrder(cache)
      invariant AllFollow(hash, zid, cache.Abs(), Announced(cache.trace), ts[i..])
      invariant Run(hash, cache.Abs(), ts[i..]) == Run(hash, Graph({}, {}), ts)
      invariant RunEnclaves(hash, cache.Abs(), cache.enclaveOf, ts[i..]) == RunEnclaves(hash, Graph({}, {}), map[], ts)
    {
      NextToken(hash, zid, cache.Abs(), Announced(cache.trace), cache.enclaveOf, ts, i);
      Receive(cache, ts[i]);
    }
    AllReceived(hash, cache.Abs(), cache.enclaveOf, ts);
    CacheBalanced(cache);
    ToldByKind(cache);
  }

  // ----- the nodes listed after a run

  /** Token `i` announces an entity of a node with this name and namespace, and no later token ends that node. */
  predicate Announces(ts: seq<Token>, i: nat, name: string, ns: string)
    requires i < |ts|
  {
    var r := L.Parse(ts[i].keyexpr);
    && ts[i].Put? && r.Parsed? && r.entity.node.name == name && r.entity.node.ns == ns
    && forall j | i < j < |ts| :: !EndsNodeOf(ts[j], r.entity)
  }

  predicate Known(ts: seq<Token>, name: string, ns: string) {
    exists i :: 0 <= i < |ts| && Announces(ts, i, name, ns)
  }

  predicate SameNode(e: L.Entity, f: L.Entity) {
    e.node.name == f.node.name && e.node.ns == f.node.ns && e.zid == f.zid && e.nid == f.nid
  }

  predicate EndsNodeOf(t: Token, e: L.Entity) {
    var r := L.Parse(t.keyexpr);
    t.Del? && r.Parsed? && r.entity.kind == L.Node && SameNode(r.entity, e)
  }

  lemma KnownIff(hash: string -> int, ts: seq<Token>, name: string, ns: string)
    ensures (exists k :: k in Run(hash, Graph({}, {}), ts).nodes && k.name == name && k.ns == ns) <==>
            Known(ts, name, ns)
  {
    if k :| k in Run(hash, Graph({}, {}), ts).nodes && k.name == name && k.ns == ns {
      NodesAreIntroduced(hash, Graph({}, {}), ts, k);
      var i :| 0 <= i < |ts| && Introduces(ts[i], k) && forall j | i < j < |ts| :: !Finishes(ts[j], k);
      forall j | i < j < |ts| ensures !EndsNodeOf(ts[j], L.Parse(ts[i].keyexpr).entity) {
        assert !Finishes(ts[j], k);
      }
      assert Announces(ts, i, name, ns);
    }
    if i :| 0 <= i < |ts| && Announces(ts, i, name, ns) {
      var e := L.Parse(ts[i].keyexpr).entity;
      var k := NodeKey(e.node.ns, e.node.name, e.zid, e.nid);
      forall j | i < j < |ts| ensures !Finishes(ts[j], k) {
        assert !EndsNodeOf(ts[j], e);
      }
      assert Introduces(ts[i], k);
      NodesAreIntroduced(hash, Graph({}, {}), ts, k);
    }
  }

  predicate OnList(names: seq<string>, namespaces: seq<string>, name: string, ns: string)
    requires |names| == |namespaces|
  {
    exists j :: 0 <= j < |names| && names[j] == name && namespaces[j] == ns
  }

  lemma OnListIff(
    nodes: set<NodeKey>, who: seq<NodeKey>, names: seq<string>, namespaces: seq<string>, name: string, ns: string)
    requires Enumerates(who, nodes) && |names| == |namespaces| == |who|
    requires forall j | 0 <= j < |who| :: names[j] == who[j].name && namespaces[j] == who[j].ns
    ensures OnList(names, namespaces, name, ns) <==> exists k :: k in nodes && k.name == name && k.ns == ns
  {
    if j :| 0 <= j < |who| && names[j] == name && namespaces[j] == ns {
      assert who[j] in who;
    }
    if k :| k in nodes && k.name == name && k.ns == ns {
      var j :| 0 <= j < |who| && who[j] == k;
      assert names[j] == name && namespaces[j] == ns;
    }
  }

  lemma ListedAreKnown(
    hash: string -> int, ts: seq<Token>, who: seq<NodeKey>, names: seq<string>, namespaces: seq<string>)
    requires Enumerates(who, Run(hash, Graph({}, {}), ts).nodes) && |names| == |namespaces| == |who|
    requires forall j | 0 <= j < |who| :: names[j] == who[j].name && namespaces[j] == who[j].ns
    ensures forall name, ns :: OnList(names, namespaces, name, ns) <==> Known(ts, name, ns)
  {
    forall name, ns ensures OnList(names, namespaces, name, ns) <==> Known(ts, name, ns) {
      KnownIff(hash, ts, name, ns);
      OnListIff(Run(hash, Graph({}, {}), ts).nodes, who, names, namespaces, name, ns);
    }
  }

  predicate AnnouncesNodeOf(t: Token, e: L.Entity) {
    var r := L.Parse(t.keyexpr);
    t.Put? && r.Parsed? && SameNode(r.entity, e)
  }

  /** Token `i` announces its node anew: whatever announced that node before, a later token ended it before. */
  predicate AnnouncesAnew(ts: seq<Token>, i: nat)
    requires i < |ts|
  {
    var r := L.Parse(ts[i].keyexpr);
    r.Parsed? &&
    forall h | 0 <= h < i && AnnouncesNodeOf(ts[h], r.entity) :: exists l :: h < l < i && EndsNodeOf(ts[l], r.entity)
  }

  /** Some token announced a node of this name and namespace anew and with this enclave, and none ended it later. */
  predicate KnownWith(ts: seq<Token>, name: string, ns: string, enclave: string) {
    exists i :: 0 <= i < |ts| && Announces(ts, i, name, ns) && AnnouncesAnew(ts, i)
                && L.Parse(ts[i].keyexpr).entity.node.enclave == enclave
  }

  lemma AnewIs(ts: seq<Token>, i: nat, k: NodeKey)
    requires i < |ts| && MakesKnown(ts, i, k, false)
    ensures Announces(ts, i, k.name, k.ns) && AnnouncesAnew(ts, i)
  {
    var e := L.Parse(ts[i].keyexpr).entity;
    forall j | i < j < |ts| ensures !EndsNodeOf(ts[j], e) {
      assert !Finishes(ts[j], k);
    }
    forall h | 0 <= h < i && AnnouncesNodeOf(ts[h], e) ensures exists l :: h < l < i && EndsNodeOf(ts[l], e) {
      assert Introduces(ts[h], k);
      var l :| h + 1 <= l < i && Finishes(ts[l], k);
      assert EndsNodeOf(ts[l], e);
    }
  }

  /** Each node of a run has the enclave told by the token that announced it anew. */
  lemma EnclaveKnown(hash: string -> int, ts: seq<Token>, k: NodeKey)
    requires k in Run(hash, Graph({}, {}), ts).nodes
    ensures var told := RunEnclaves(hash, Graph({}, {}), map[], ts);
            k in told && KnownWith(ts, k.name, k.ns, told[k])
  {
    EnclavesAreTold(hash, Graph({}, {}), map[], ts, k);
    var told := RunEnclaves(hash, Graph({}, {}), map[], ts);
    var i :| 0 <= i < |ts| && MakesKnown(ts, i, k, false) && told[k] == L.Parse(ts[i].keyexpr).entity.node.enclave;
    AnewIs(ts, i, k);
  }

  /** The names and namespaces listed by `get_node_names` after a run are exactly those of the nodes that some token
      announced and no later token ended, and each comes with the enclave that its announcement gave. */
  method ListNodes(cache: GraphCache, ghost ts: seq<Token>)
    returns (names: array<string>, namespaces: array<string>, enclaves: array<string>)
    requires cache.Valid() && cache.Abs() == Run(cache.hash, Graph({}, {}), ts)
    requires cache.enclaveOf == RunEnclaves(cache.hash, Graph({}, {}), map[], ts)
    ensures names.Length == namespaces.Length == enclaves.Length
    ensures forall name, ns :: OnList(names[..], namespaces[..], name, ns) <==> Known(ts, name, ns)
    ensures forall j | 0 <= j < names.Length :: KnownWith(ts, names[j], namespaces[j], enclaves[j])
  {
    ghost var who;
    names, namespaces, enclaves, who := cache.GetNodeNames();
    assert cache.nodes == cache.Abs().nodes;
    ListedAreKnown(cache.hash, ts, who, names[..], namespaces[..]);
    forall j | 0 <= j < names.Length ensures KnownWith(ts, names[j], namespaces[j], enclaves[j]) {
      assert who[j] in who;
      EnclaveKnown(cache.hash, ts, who[j]);
    }
  }
}

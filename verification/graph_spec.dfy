/** The graph as a plain set of live nodes and live endpoints, and what liveliness tokens do to it. */
module GraphSpec {
  import opened TopicIndex
  import L = Liveliness

  datatype NodeKey = NodeKey(ns: string, name: string, zid: string, nid: string)

  datatype Graph = Graph(nodes: set<NodeKey>, eps: set<Endpoint>)

  /** A token that appears or disappears. */
  datatype Token = Put(keyexpr: string) | Del(keyexpr: string)

  function KeyOf(e: L.Entity): NodeKey {
    NodeKey(e.node.ns, e.node.name, e.zid, e.nid)
  }

  /** The key has the name, the namespace and the ids that the entity gives for its node. */
  predicate IsNodeOf(k: NodeKey, e: L.Entity) {
    k.name == e.node.name && k.ns == e.node.ns && k.zid == e.zid && k.nid == e.nid
  }

  function OwnerOf(e: Endpoint): NodeKey {
    KeyOf(e.entity)
  }

  ghost function OfNode(eps: set<Endpoint>, k: NodeKey): set<Endpoint> {
    set e | e in eps && OwnerOf(e) == k
  }

  /** What a token is about: a node, or an endpoint of a node. */
  datatype Subject = NodeSubject(entity: L.Entity) | EndpointSubject(endpoint: Endpoint) {
    function Entity(): L.Entity {
      if NodeSubject? then entity else endpoint.entity
    }

    function Key(): NodeKey {
      KeyOf(Entity())
    }

    function Endpoints(): set<Endpoint> {
      if NodeSubject? then {} else {endpoint}
    }

    /** A node subject is a node and an endpoint subject is not. */
    predicate Sorted() {
      NodeSubject? <==> Entity().kind == L.Node
    }
  }

  function SubjectOf(hash: string -> int, e: L.Entity): (s: Subject)
    requires L.Valid(e)
    ensures s.Sorted() && s.Key() == KeyOf(e)
  {
    if e.kind == L.Node then NodeSubject(e) else EndpointSubject(EndpointOf(hash, e))
  }

  function TokenSubject(hash: string -> int, keyexpr: string): (s: Subject)
    requires L.Parse(keyexpr).Parsed?
    ensures s.Sorted() && s.Key() == KeyOf(L.Parse(keyexpr).entity)
  {
    L.ParseRange(keyexpr);
    SubjectOf(hash, L.Parse(keyexpr).entity)
  }

  /** Any token makes its node known. */
  ghost function Arrive(g: Graph, s: Subject): Graph {
    Graph(g.nodes + {s.Key()}, g.eps + s.Endpoints())
  }

  /** The token of a node takes its endpoints along; a token of an unknown node is ignored. */
  ghost function Depart(g: Graph, s: Subject): Graph {
    if s.Key() !in g.nodes then g
    else if s.NodeSubject? then Graph(g.nodes - {s.Key()}, g.eps - OfNode(g.eps, s.Key()))
    else Graph(g.nodes, g.eps - {s.endpoint})
  }

  ghost function Act(g: Graph, put: bool, s: Subject): Graph {
    if put then Arrive(g, s) else Depart(g, s)
  }

  ghost function Apply(hash: string -> int, g: Graph, t: Token): Graph {
    var r := L.Parse(t.keyexpr);
    if !r.Parsed? then g
    else
      Act(g, t.Put?, TokenSubject(hash, t.keyexpr))
  }

  ghost function Run(hash: string -> int, g: Graph, ts: seq<Token>): Graph
    decreases ts
  {
    if ts == [] then g else Run(hash, Apply(hash, g, ts[0]), ts[1..])
  }

  /** Every endpoint belongs to a known node. */
  ghost predicate Owned(g: Graph) {
    forall e | e in g.eps :: OwnerOf(e) in g.nodes
  }

  lemma ApplyKeepsOwned(hash: string -> int, g: Graph, t: Token)
    requires Owned(g)
    ensures Owned(Apply(hash, g, t))
  {
  }

  // ----- where nodes and endpoints come from

  /** The token announces an entity of the node: of this name, namespace and ids. */
  predicate Introduces(t: Token, k: NodeKey) {
    var r := L.Parse(t.keyexpr);
    t.Put? && r.Parsed? && IsNodeOf(k, r.entity)
  }

  /** The token ends the node of this name, namespace and ids. */
  predicate Finishes(t: Token, k: NodeKey) {
    var r := L.Parse(t.keyexpr);
    t.Del? && r.Parsed? && r.entity.kind == L.Node && IsNodeOf(k, r.entity)
  }

  /** A run leads to exactly the nodes that some token introduced and none ended later. */
  lemma {:induction false} NodesAreIntroduced(hash: string -> int, g: Graph, ts: seq<Token>, k: NodeKey)
    ensures k in Run(hash, g, ts).nodes <==>
            || (k in g.nodes && forall j | 0 <= j < |ts| :: !Finishes(ts[j], k))
            || exists i :: 0 <= i < |ts| && Introduces(ts[i], k) && forall j | i < j < |ts| :: !Finishes(ts[j], k)
    decreases ts
  {
    if ts != [] {
      var g', rest := Apply(hash, g, ts[0]), ts[1..];
      NodesAreIntroduced(hash, g', rest, k);
      NodeAfterToken(hash, g, ts[0], k);
      assert forall j | 0 <= j < |rest| :: rest[j] == ts[j + 1];
      if i :| 0 <= i < |rest| && Introduces(rest[i], k) && forall j | i < j < |rest| :: !Finishes(rest[j], k) {
        assert Introduces(ts[i + 1], k);
        assert forall j | i + 1 < j < |ts| :: ts[j] == rest[j - 1];
      }
      if i :| 0 <= i < |ts| && Introduces(ts[i], k) && forall j | i < j < |ts| :: !Finishes(ts[j], k) {
        if i > 0 {
          assert Introduces(rest[i - 1], k);
          assert forall j | i - 1 < j < |rest| :: rest[j] == ts[j + 1];
        }
      }
    }
  }

  lemma NodeAfterToken(hash: string -> int, g: Graph, t: Token, k: NodeKey)
    ensures k in Apply(hash, g, t).nodes <==> Introduces(t, k) || (k in g.nodes && !Finishes(t, k))
  {
  }

  // ----- the enclave of a node is that of the token that made it known

  ghost function EnclavesAfter(hash: string -> int, g: Graph, told: map<NodeKey, string>, t: Token)
    : map<NodeKey, string>
  {
    var r := L.Parse(t.keyexpr);
    if t.Put? && r.Parsed? && KeyOf(r.entity) !in g.nodes then told[KeyOf(r.entity) := r.entity.node.enclave] else told
  }

  ghost function RunEnclaves(hash: string -> int, g: Graph, told: map<NodeKey, string>, ts: seq<Token>)
    : map<NodeKey, string>
    decreases ts
  {
    if ts == [] then told
    else RunEnclaves(hash, Apply(hash, g, ts[0]), EnclavesAfter(hash, g, told, ts[0]), ts[1..])
  }

  predicate FinishedIn(ts: seq<Token>, from: nat, to: nat, k: NodeKey)
    requires to <= |ts|
  {
    exists l :: from <= l < to && Finishes(ts[l], k)
  }

  /** Token `i` makes the node known: whatever introduced it before was ended before. */
  predicate MakesKnown(ts: seq<Token>, i: nat, k: NodeKey, known: bool)
    requires i < |ts|
  {
    && Introduces(ts[i], k)
    && (known ==> FinishedIn(ts, 0, i, k))
    && (forall h | 0 <= h < i && Introduces(ts[h], k) :: FinishedIn(ts, h + 1, i, k))
    && !FinishedIn(ts, i + 1, |ts|, k)
  }

  lemma FinishedLater(ts: seq<Token>, from: nat, to: nat, k: NodeKey)
    requires ts != [] && to < |ts|
    ensures FinishedIn(ts[1..], from, to, k) <==> FinishedIn(ts, from + 1, to + 1, k)
  {
    if l :| from + 1 <= l < to + 1 && Finishes(ts[l], k) {
      assert Finishes(ts[1..][l - 1], k);
    }
    if l :| from <= l < to && Finishes(ts[1..][l], k) {
      assert Finishes(ts[l + 1], k);
    }
  }

  lemma MakesKnownLater(ts: seq<Token>, i: nat, k: NodeKey, known: bool, next: bool)
    requires ts != [] && i < |ts[1..]| && MakesKnown(ts[1..], i, k, next)
    requires next <==> Introduces(ts[0], k) || (known && !Finishes(ts[0], k))
    ensures MakesKnown(ts, i + 1, k, known)
  {
    FinishedLater(ts, 0, i, k);
    FinishedLater(ts, i + 1, |ts| - 1, k);
    if known && Finishes(ts[0], k) {
      assert FinishedIn(ts, 0, i + 1, k);
    }
    forall h | 0 <= h < i + 1 && Introduces(ts[h], k) ensures FinishedIn(ts, h + 1, i + 1, k) {
      if h > 0 {
        FinishedLater(ts, h, i, k);
        assert ts[1..][h - 1] == ts[h];
      }
    }
  }

  /** A node that a run leaves has the enclave of the token that made it known. */
  lemma {:induction false} EnclavesAreTold(
    hash: string -> int, g: Graph, told: map<NodeKey, string>, ts: seq<Token>, k: NodeKey)
    requires k in Run(hash, g, ts).nodes && (k in g.nodes ==> k in told)
    ensures var after := RunEnclaves(hash, g, told, ts);
            k in after && (
              || (k in g.nodes && after[k] == told[k] && !FinishedIn(ts, 0, |ts|, k))
              || exists i :: 0 <= i < |ts| && MakesKnown(ts, i, k, k in g.nodes)
                             && after[k] == L.Parse(ts[i].keyexpr).entity.node.enclave)
    decreases ts
  {
    if ts != [] {
      var g', told', rest := Apply(hash, g, ts[0]), EnclavesAfter(hash, g, told, ts[0]), ts[1..];
      var after := RunEnclaves(hash, g, told, ts);
      NodeAfterToken(hash, g, ts[0], k);
      EnclavesAreTold(hash, g', told', rest, k);
      if i :| 0 <= i < |rest| && MakesKnown(rest, i, k, k in g'.nodes)
              && after[k] == L.Parse(rest[i].keyexpr).entity.node.enclave {
        MakesKnownLater(ts, i, k, k in g.nodes, k in g'.nodes);
      } else {
        FinishedLater(ts, 0, |rest|, k);
        if k !in g.nodes {
          assert MakesKnown(ts, 0, k, false);
        }
      }
    }
  }

  /** The token announces this very endpoint's entity. */
  predicate Announces(t: Token, e: Endpoint) {
    var r := L.Parse(t.keyexpr);
    t.Put? && r.Parsed? && r.entity == e.entity
  }

  lemma {:induction false} EndpointsComeFromPuts(hash: string -> int, g: Graph, ts: seq<Token>, e: Endpoint)
    requires e in Run(hash, g, ts).eps && e !in g.eps
    ensures exists i :: 0 <= i < |ts| && Announces(ts[i], e)
    decreases ts
  {
    if e in Apply(hash, g, ts[0]).eps {
      assert Announces(ts[0], e);
    } else {
      EndpointsComeFromPuts(hash, Apply(hash, g, ts[0]), ts[1..], e);
      var i :| 0 <= i < |ts[1..]| && Announces(ts[1..][i], e);
      assert ts[i + 1] == ts[1..][i];
    }
  }

  // ----- order tolerance

  predicate Concerns(t: Token, k: NodeKey) {
    var r := L.Parse(t.keyexpr);
    r.Parsed? && KeyOf(r.entity) == k
  }

  /** What a graph says about one node. */
  ghost function Restrict(g: Graph, k: NodeKey): Graph {
    Graph(g.nodes * {k}, OfNode(g.eps, k))
  }

  function Only(ts: seq<Token>, k: NodeKey): seq<Token> {
    if ts == [] then []
    else if Concerns(ts[0], k) then [ts[0]] + Only(ts[1..], k)
    else Only(ts[1..], k)
  }

  lemma OtherSubject(g: Graph, put: bool, s: Subject, k: NodeKey)
    requires s.Key() != k
    ensures Restrict(Act(g, put, s), k) == Restrict(g, k)
  {
    assert Restrict(Act(g, put, s), k).eps == Restrict(g, k).eps;
    assert Restrict(Act(g, put, s), k).nodes == Restrict(g, k).nodes;
  }

  lemma OwnSubject(g: Graph, put: bool, s: Subject)
    ensures Restrict(Act(g, put, s), s.Key()) == Act(Restrict(g, s.Key()), put, s)
  {
    var k := s.Key();
    assert Restrict(Act(g, put, s), k).eps == Act(Restrict(g, k), put, s).eps;
    assert Restrict(Act(g, put, s), k).nodes == Act(Restrict(g, k), put, s).nodes;
  }

  lemma OtherNodeUntouched(hash: string -> int, g: Graph, t: Token, k: NodeKey)
    requires !Concerns(t, k)
    ensures Restrict(Apply(hash, g, t), k) == Restrict(g, k)
  {
    if L.Parse(t.keyexpr).Parsed? {
      OtherSubject(g, t.Put?, TokenSubject(hash, t.keyexpr), k);
    }
  }

  lemma OwnNodeAlone(hash: string -> int, g: Graph, t: Token, k: NodeKey)
    requires Concerns(t, k)
    ensures Restrict(Apply(hash, g, t), k) == Apply(hash, Restrict(g, k), t)
  {
    OwnSubject(g, t.Put?, TokenSubject(hash, t.keyexpr));
  }

  /** What a run leaves of a node depends on the tokens of that node alone. */
  lemma {:induction false} NodeView(hash: string -> int, g: Graph, ts: seq<Token>, k: NodeKey)
    ensures Restrict(Run(hash, g, ts), k) == Run(hash, Restrict(g, k), Only(ts, k))
    decreases ts
  {
    if ts != [] {
      NodeView(hash, Apply(hash, g, ts[0]), ts[1..], k);
      if Concerns(ts[0], k) {
        OwnNodeAlone(hash, g, ts[0], k);
        assert Only(ts, k)[1..] == Only(ts[1..], k);
      } else {
        OtherNodeUntouched(hash, g, ts[0], k);
      }
    }
  }

  lemma SameViewsSameGraph(a: Graph, b: Graph)
    requires forall k :: Restrict(a, k) == Restrict(b, k)
    ensures a == b
  {
    forall k: NodeKey ensures k in a.nodes <==> k in b.nodes {
      assert Restrict(a, k) == Restrict(b, k);
      assert k in a.nodes <==> k in Restrict(a, k).nodes;
      assert k in b.nodes <==> k in Restrict(b, k).nodes;
    }
    forall e: Endpoint ensures e in a.eps <==> e in b.eps {
      assert Restrict(a, OwnerOf(e)) == Restrict(b, OwnerOf(e));
      assert e in a.eps <==> e in Restrict(a, OwnerOf(e)).eps;
      assert e in b.eps <==> e in Restrict(b, OwnerOf(e)).eps;
    }
  }

  /** Two runs that agree on the order of the tokens of each node reach the same graph, however the tokens of
      different nodes interleave. */
  lemma OrderTolerance(hash: string -> int, g: Graph, a: seq<Token>, b: seq<Token>)
    requires forall k :: Only(a, k) == Only(b, k)
    ensures Run(hash, g, a) == Run(hash, g, b)
  {
    forall k ensures Restrict(Run(hash, g, a), k) == Restrict(Run(hash, g, b), k) {
      NodeView(hash, g, a, k);
      NodeView(hash, g, b, k);
    }
    SameViewsSameGraph(Run(hash, g, a), Run(hash, g, b));
  }

  /** Tokens of different nodes commute. */
  lemma DifferentNodesCommute(hash: string -> int, g: Graph, t: Token, u: Token)
    requires forall k :: !(Concerns(t, k) && Concerns(u, k))
    ensures Run(hash, g, [t, u]) == Run(hash, g, [u, t])
  {
    forall k ensures Only([t, u], k) == Only([u, t], k) {
      assert [t, u][1..] == [u] && [u, t][1..] == [t] && [t][1..] == [] && [u][1..] == [];
    }
    OrderTolerance(hash, g, [t, u], [u, t]);
  }

  // ----- repeated puts

  predicate EndsNode(t: Token, k: NodeKey) {
    t.Del? && Concerns(t, k) && L.Parse(t.keyexpr).entity.kind == L.Node
  }

  /** The token takes away what `s` announced: it ends the node of `s`, or is about the very same thing. */
  predicate Revokes(hash: string -> int, t: Token, s: Subject) {
    EndsNode(t, s.Key()) || (t.Del? && L.Parse(t.keyexpr).Parsed? && TokenSubject(hash, t.keyexpr) == s)
  }

  ghost predicate Includes(g: Graph, s: Subject) {
    s.Key() in g.nodes && s.Endpoints() <= g.eps
  }

  lemma ActIncludes(g: Graph, put: bool, t: Subject, s: Subject)
    requires Includes(g, s) && (put || (t != s && !(t.NodeSubject? && t.Key() == s.Key())))
    ensures Includes(Act(g, put, t), s)
  {
    if s.EndpointSubject? && !put && t.EndpointSubject? {
      assert t.endpoint != s.endpoint;
    }
  }

  lemma ApplyIncludes(hash: string -> int, g: Graph, t: Token, s: Subject)
    requires Includes(g, s) && !Revokes(hash, t, s)
    ensures Includes(Apply(hash, g, t), s)
  {
    if L.Parse(t.keyexpr).Parsed? {
      ActIncludes(g, t.Put?, TokenSubject(hash, t.keyexpr), s);
    }
  }

  lemma {:induction false} StaysIncluded(hash: string -> int, g: Graph, s: Subject, ts: seq<Token>)
    requires Includes(g, s)
    requires forall i | 0 <= i < |ts| :: !Revokes(hash, ts[i], s)
    ensures Includes(Run(hash, g, ts), s)
    decreases ts
  {
    if ts != [] {
      ApplyIncludes(hash, g, ts[0], s);
      StaysIncluded(hash, Apply(hash, g, ts[0]), s, ts[1..]);
    }
  }

  lemma ArriveOfIncluded(g: Graph, s: Subject)
    requires Includes(g, s)
    ensures Arrive(g, s) == g
  {
    assert g.nodes + {s.Key()} == g.nodes;
    assert g.eps + s.Endpoints() == g.eps;
  }

  /** A token received twice, as from the initial query and then from the subscriber's history, changes nothing
      the second time, whatever arrives in between, unless the same thing or its node was revoked meanwhile. */
  lemma RepeatedPutIsIdle(hash: string -> int, g: Graph, keyexpr: string, between: seq<Token>)
    requires L.Parse(keyexpr).Parsed? ==>
               forall i | 0 <= i < |between| :: !Revokes(hash, between[i], TokenSubject(hash, keyexpr))
    ensures var once := Run(hash, Apply(hash, g, Put(keyexpr)), between);
            Apply(hash, once, Put(keyexpr)) == once
  {
    if L.Parse(keyexpr).Parsed? {
      var s := TokenSubject(hash, keyexpr);
      StaysIncluded(hash, Arrive(g, s), s, between);
      ArriveOfIncluded(Run(hash, Arrive(g, s), between), s);
    }
  }

  // ----- the end of a node

  ghost function WithoutNode(g: Graph, k: NodeKey): Graph {
    Graph(g.nodes - {k}, g.eps - OfNode(g.eps, k))
  }

  lemma GoneSubject(g: Graph, s: Subject)
    requires Owned(g)
    ensures WithoutNode(Depart(g, s), s.Key()) == WithoutNode(g, s.Key())
    ensures s.NodeSubject? ==> Depart(g, s) == WithoutNode(g, s.Key())
    ensures s.Key() !in g.nodes ==> Depart(g, s) == g == WithoutNode(g, s.Key())
  {
    var k := s.Key();
    if k !in g.nodes {
      assert g.nodes - {k} == g.nodes;
      assert OfNode(g.eps, k) == {};
      assert g.eps - OfNode(g.eps, k) == g.eps;
    } else {
      assert WithoutNode(Depart(g, s), k).nodes == WithoutNode(g, k).nodes;
      assert WithoutNode(Depart(g, s), k).eps == WithoutNode(g, k).eps;
    }
  }

  lemma DepartOfGone(hash: string -> int, g: Graph, t: Token, k: NodeKey)
    requires Owned(g) && t.Del? && Concerns(t, k)
    ensures WithoutNode(Apply(hash, g, t), k) == WithoutNode(g, k)
    ensures EndsNode(t, k) ==> Apply(hash, g, t) == WithoutNode(g, k)
    ensures k !in g.nodes ==> Apply(hash, g, t) == g == WithoutNode(g, k)
  {
    GoneSubject(g, TokenSubject(hash, t.keyexpr));
  }

  lemma {:induction false} StaysGone(hash: string -> int, g: Graph, ts: seq<Token>, k: NodeKey)
    requires Owned(g) && k !in g.nodes
    requires forall i | 0 <= i < |ts| :: ts[i].Del? && Concerns(ts[i], k)
    ensures Run(hash, g, ts) == g
    decreases ts
  {
    if ts != [] {
      DepartOfGone(hash, g, ts[0], k);
      StaysGone(hash, g, ts[1..], k);
    }
  }

  /** The tokens by which a node and its endpoints disappear may arrive in any order and any selection: once the
      one of the node itself is among them, the node and all its endpoints are gone, and nothing else is. */
  lemma {:induction false} NodeEndsInAnyOrder(hash: string -> int, g: Graph, ts: seq<Token>, k: NodeKey)
    requires Owned(g)
    requires forall i | 0 <= i < |ts| :: ts[i].Del? && Concerns(ts[i], k)
    requires exists i :: 0 <= i < |ts| && EndsNode(ts[i], k)
    ensures Run(hash, g, ts) == WithoutNode(g, k)
    decreases ts
  {
    DepartOfGone(hash, g, ts[0], k);
    ApplyKeepsOwned(hash, g, ts[0]);
    var g' := Apply(hash, g, ts[0]);
    if EndsNode(ts[0], k) {
      StaysGone(hash, g', ts[1..], k);
    } else {
      var i :| 0 <= i < |ts| && EndsNode(ts[i], k);
      assert ts[1..][i - 1] == ts[i];
      NodeEndsInAnyOrder(hash, g', ts[1..], k);
    }
  }
}

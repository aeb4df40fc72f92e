/** Token runs after which the matches reported are not the matches there are, one for each way a change can do
    harm. The entities are valid, so each is parsed back from its token. */
module GraphImbalance {
  import opened CTypes
  import opened Options
  import opened TopicIndex
  import opened QosEvents
  import opened MatchedEvents
  import opened MatchedCounts
  import opened TopicMapUpdates
  import opened GraphSpec
  import opened GraphCaches
  import L = Liveliness
  import Q = QoSProfile

  // ----- the parts that entities play

  /** A publisher or a subscription that a token can carry. */
  predicate Plays(e: L.Entity, kind: L.EntityType) {
    L.Valid(e) && e.kind == kind && (kind == L.Publisher || kind == L.Subscription)
  }

  /** Same topic name, type and domain. */
  predicate Meet(a: L.Entity, b: L.Entity)
    requires a.topic.Some? && b.topic.Some?
  {
    var s, t := a.topic.value, b.topic.value;
    s.name == t.name && s.typ == t.typ && a.node.domainId == b.node.domainId
  }

  /** A publisher and a subscription of another session that match. */
  predicate Pair(p: L.Entity, s: L.Entity) {
    Plays(p, L.Publisher) && Plays(s, L.Subscription) && p.zid != s.zid && Meet(p, s)
  }

  predicate SameTypeHash(p: L.Entity, s: L.Entity)
    requires p.topic.Some? && s.topic.Some?
  {
    p.topic.value.typeHash == s.topic.value.typeHash
  }

  predicate SameQoS(s: L.Entity, t: L.Entity)
    requires s.topic.Some? && t.topic.Some?
  {
    s.topic.value.qos == t.topic.value.qos
  }

  /** The hash tells the tokens of two entities apart. */
  predicate Separates(hash: string -> int, a: L.Entity, b: L.Entity) {
    a != b ==> hash(L.Token(a)) != hash(L.Token(b))
  }

  function Played(hash: string -> int, e: L.Entity): (x: Endpoint)
    requires L.Valid(e) && e.kind != L.Node
    ensures x.entity == e && x.gid == hash(L.Token(e))
  {
    EndpointOf(hash, e)
  }

  /** An endpoint on a topic, by what the reports depend on. */
  predicate Like(x: Endpoint, zid: string, pub: bool, topic: string, typ: string, key: string, keyexpr: string) {
    && x.entity.zid == zid && IsPub(x) == pub && !IsService(x)
    && At(x, topic, typ, key) && x.keyexpr == keyexpr
  }

  function Key(e: L.Entity): string
    requires e.topic.Some?
  {
    Q.Encode(e.topic.value.qos)
  }

  function Keyexpr(e: L.Entity): string
    requires L.Valid(e) && e.topic.Some?
  {
    L.TopicKeyexpr(e.node.domainId, e.topic.value)
  }

  lemma PlayedLike(hash: string -> int, e: L.Entity, kind: L.EntityType)
    requires Plays(e, kind)
    ensures Like(Played(hash, e), e.zid, kind == L.Publisher, e.topic.value.name, e.topic.value.typ, Key(e), Keyexpr(e))
  {
  }

  /** Key expressions tell type hashes apart, and bucket keys QoS profiles. */
  lemma KeysTellApart(a: L.Entity, b: L.Entity)
    requires L.Valid(a) && L.Valid(b) && a.topic.Some? && b.topic.Some? && Meet(a, b)
    ensures Keyexpr(a) == Keyexpr(b) <==> SameTypeHash(a, b)
    ensures Key(a) == Key(b) <==> SameQoS(a, b)
  {
    var s, t := a.topic.value, b.topic.value;
    L.TopicKeyexprIff(a.node.domainId, b.node.domainId, s, t);
    if Key(a) == Key(b) {
      Q.EncodeInjective(s.qos, t.qos);
    }
  }

  // ----- tokens given to a cache

  /** The token announces the endpoint. */
  predicate Means(hash: string -> int, token: string, x: Endpoint) {
    L.Parse(token).Parsed? && TokenSubject(hash, token) == EndpointSubject(x)
  }

  lemma TokenMeans(hash: string -> int, e: L.Entity, kind: L.EntityType)
    requires Plays(e, kind)
    ensures Means(hash, L.Token(e), Played(hash, e))
  {
    L.ParseOfToken(e);
  }

  method Announce(cache: GraphCache, token: string, ghost x: Endpoint)
    requires cache.Valid() && Means(cache.hash, token, x) && Apart(Live(cache.trace), x)
    modifies cache, cache.events
    ensures cache.Valid() && Recorded(old(cache.trace), cache.trace, true, x)
    ensures Live(cache.trace) == old(Live(cache.trace)) + {x} && OwnerOf(x) in cache.nodes
  {
    ghost var before := cache.trace;
    var threw := cache.ParsePut(token, false);
    RecordedLive(before, cache.trace, true, x);
  }

  method Withdraw(cache: GraphCache, token: string, ghost x: Endpoint)
    requires cache.Valid() && Means(cache.hash, token, x) && OwnerOf(x) in cache.nodes && Apart(Live(cache.trace), x)
    modifies cache, cache.events
    ensures cache.Valid() && Recorded(old(cache.trace), cache.trace, false, x)
  {
    var threw := cache.ParseDel(token, false);
  }

  ghost predicate Explained(cache: GraphCache)
    reads cache, cache.events
  {
    && cache.Valid() && ChangesOk(cache.zid, cache.trace) && Log(cache.trace) == cache.events.reports
    && cache.Abs().eps == Live(cache.trace)
  }

  /** An arrival in a new cache. */
  method OneToken(zid: string, hash: string -> int, token: string, ghost x: Endpoint) returns (cache: GraphCache)
    requires Means(hash, token, x)
    ensures fresh(cache) && fresh(cache.events) && cache.zid == zid && cache.hash == hash && cache.Valid()
    ensures Recorded([], cache.trace, true, x) && Live(cache.trace) == {x}
  {
    cache := new GraphCache(zid, hash);
    assert Live(cache.trace) == {};
    Announce(cache, token, x);
  }

  /** Two arrivals in a new cache. */
  method TwoTokens(zid: string, hash: string -> int, p: string, s: string, ghost a: Endpoint, ghost b: Endpoint)
    returns (cache: GraphCache, ghost one: seq<Change>)
    requires Means(hash, p, a) && Means(hash, s, b) && !Clash(a, b) && !Clash(b, a)
    ensures fresh(cache) && fresh(cache.events) && cache.zid == zid && cache.hash == hash && Explained(cache)
    ensures ChangesOk(zid, one) && Recorded([], one, true, a) && Recorded(one, cache.trace, true, b)
    ensures Live(cache.trace) == {a, b} && OwnerOf(b) in cache.nodes
  {
    cache := OneToken(zid, hash, p, a);
    one := cache.trace;
    Announce(cache, s, b);
  }

  method AnyToken(cache: GraphCache, token: string, put: bool, ghost x: Endpoint)
    requires cache.Valid() && Means(cache.hash, token, x) && Apart(Live(cache.trace), x)
    requires !put ==> OwnerOf(x) in cache.nodes
    modifies cache, cache.events
    ensures Explained(cache) && Recorded(old(cache.trace), cache.trace, put, x)
  {
    if put {
      Announce(cache, token, x);
    } else {
      Withdraw(cache, token, x);
    }
  }

  lemma ApartFromTwo(a: Endpoint, b: Endpoint, e: Endpoint)
    requires Distinct({a, b, e})
    ensures !Clash(a, b) && !Clash(b, a) && Apart({a, b}, e)
  {
    DistinctApart({a, b, e}, e);
    assert !Clash(a, b);
  }

  /** And one more token, of either kind. */
  method ThreeTokens(
    zid: string, hash: string -> int, p: string, s: string, o: string, put: bool,
    ghost a: Endpoint, ghost b: Endpoint, ghost e: Endpoint)
    returns (cache: GraphCache, ghost one: seq<Change>, ghost two: seq<Change>)
    requires Means(hash, p, a) && Means(hash, s, b) && Means(hash, o, e) && Distinct({a, b, e})
    requires !put ==> OwnerOf(e) == OwnerOf(b)
    ensures fresh(cache) && cache.zid == zid && cache.hash == hash && Explained(cache)
    ensures ChangesOk(zid, two)
    ensures Recorded([], one, true, a) && Recorded(one, two, true, b) && Recorded(two, cache.trace, put, e)
  {
    ApartFromTwo(a, b, e);
    cache, one := TwoTokens(zid, hash, p, s, a, b);
    two := cache.trace;
    AnyToken(cache, o, put, e);
  }

  /** A token means what its entity plays, and the reports depend on a few fields of that. */
  lemma Cast(hash: string -> int, e: L.Entity, kind: L.EntityType)
    requires Plays(e, kind)
    ensures Means(hash, L.Token(e), Played(hash, e))
    ensures Like(Played(hash, e), e.zid, kind == L.Publisher, e.topic.value.name, e.topic.value.typ, Key(e), Keyexpr(e))
  {
    TokenMeans(hash, e, kind);
    PlayedLike(hash, e, kind);
  }

  lemma PlayedApart(hash: string -> int, a: L.Entity, b: L.Entity)
    requires L.Valid(a) && L.Valid(b) && a.kind != L.Node && b.kind != L.Node && Separates(hash, a, b)
    ensures !Clash(Played(hash, a), Played(hash, b)) && !Clash(Played(hash, b), Played(hash, a))
  {
  }

  lemma ThreeDistinct(a: Endpoint, b: Endpoint, e: Endpoint)
    requires !Clash(a, b) && !Clash(b, a) && !Clash(a, e) && !Clash(e, a) && !Clash(b, e) && !Clash(e, b)
    ensures Distinct({a, b, e})
  {
  }

  lemma SceneDistinct(hash: string -> int, p: L.Entity, s: L.Entity, o: L.Entity)
    requires Pair(p, s) && Pair(p, o) && Separates(hash, p, s) && Separates(hash, p, o) && Separates(hash, s, o)
    ensures Distinct({Played(hash, p), Played(hash, s), Played(hash, o)})
  {
    PlayedApart(hash, p, s);
    PlayedApart(hash, p, o);
    PlayedApart(hash, s, o);
    ThreeDistinct(Played(hash, p), Played(hash, s), Played(hash, o));
  }

  lemma SceneKeys(p: L.Entity, s: L.Entity, o: L.Entity)
    requires Pair(p, s) && Pair(p, o)
    ensures Keyexpr(p) == Keyexpr(s) <==> SameTypeHash(p, s)
    ensures Keyexpr(p) == Keyexpr(o) <==> SameTypeHash(p, o)
    ensures Key(s) == Key(o) <==> SameQoS(s, o)
  {
    KeysTellApart(p, s);
    KeysTellApart(p, o);
    KeysTellApart(s, o);
  }

  // ----- what the runs amount to

  lemma FewMatches(live: set<Endpoint>, a: Endpoint, b: Endpoint, e: Endpoint)
    requires live <= {a, b}
    ensures |Matches(live, e)| <= INT32_MAX
  {
    Smaller(Matches(live, e), {a, b});
  }

  lemma AnnouncedNext(cs: seq<Change>, cs': seq<Change>, put: bool, e: Endpoint)
    requires Recorded(cs, cs', put, e)
    ensures Announced(cs') == Announced(cs) + if put then {e} else {}
  {
    AnnouncedSnoc(cs, cs'[|cs'| - 1]);
    assert cs' == cs + [cs'[|cs'| - 1]];
  }

  lemma OneArrives(zid: string, cs: seq<Change>, a: Endpoint)
    requires Recorded([], cs, true, a) && !IsService(a)
    ensures Live(cs) == Announced(cs) == {a} && Orderly(zid, cs) && AllHarmless(zid, cs)
  {
    RecordedLive([], cs, true, a);
    AnnouncedNext([], cs, true, a);
    var first: seq<Change> := cs[..|cs| - 1];
    assert first == [] && Live(first) == {} && Matches(Live(first), a) == {};
    assert Harmless(zid, Live(first), cs[|cs| - 1]);
  }

  /** Two endpoints arrive, of which the second is remote and the first, if it is the local publisher, shares its
      key expression. */
  lemma TwoArrive(zid: string, cs: seq<Change>, cs': seq<Change>, a: Endpoint, b: Endpoint)
    requires Recorded([], cs, true, a) && Recorded(cs, cs', true, b) && ChangesOk(zid, cs') && a != b
    requires !IsService(a) && !IsService(b) && !Local(zid, b) && a.keyexpr == b.keyexpr
    ensures Live(cs') == Announced(cs') == {a, b} && Orderly(zid, cs') && AllHarmless(zid, cs')
  {
    OneArrives(zid, cs, a);
    RecordedLive(cs, cs', true, b);
    AnnouncedNext(cs, cs', true, b);
    FewMatches({a}, a, b, b);
  }

  /** One more change keeps the balance exactly when it is harmless. */
  lemma ThenOneMore(
    zid: string, cs: seq<Change>, cs': seq<Change>, a: Endpoint, b: Endpoint, put: bool, e: Endpoint)
    requires Live(cs) == Announced(cs) == {a, b} && Orderly(zid, cs) && AllHarmless(zid, cs)
    requires Recorded(cs, cs', put, e) && ChangesOk(zid, cs')
    requires Distinct({a, b, e})
    ensures Balanced(zid, Live(cs'), Log(cs')) <==> Harmless(zid, {a, b}, cs'[|cs'| - 1])
  {
    AnnouncedNext(cs, cs', put, e);
    FewMatches(Live(cs), a, b, e);
    BalancedThroughoutIff(zid, cs);
    assert Announced(cs') <= {a, b, e};
    LastChangeDecides(zid, cs');
  }

  // ----- the four ways

  lemma UnknownHarms(
    zid: string, far: string, one: seq<Change>, two: seq<Change>, cs: seq<Change>,
    a: Endpoint, b: Endpoint, e: Endpoint, t: string, ty: string, j: string, k: string, x: string)
    requires ChangesOk(zid, two) && ChangesOk(zid, cs) && Distinct({a, b, e})
    requires Recorded([], one, true, a) && Recorded(one, two, true, b) && Recorded(two, cs, false, e)
    requires Like(a, zid, true, t, ty, j, x) && Like(b, far, false, t, ty, k, x) && Like(e, far, false, t, ty, k, x)
    requires far != zid && e != b
    ensures !Balanced(zid, Live(cs), Log(cs))
  {
    TwoArrive(zid, one, two, a, b);
    ThenOneMore(zid, two, cs, a, b, false, e);
    assert b in Beside({a, b}, e) && a in Matches({a, b}, e);
  }

  /** A subscription that was never announced departs: its bucket exists, so the local publisher is told of a
      departure although the match it has is still there. */
  method UnknownDeparts(hash: string -> int, p: L.Entity, s: L.Entity, o: L.Entity) returns (cache: GraphCache)
    requires Pair(p, s) && Pair(p, o) && SameTypeHash(p, s) && SameTypeHash(p, o) && SameQoS(s, o)
    requires KeyOf(o) == KeyOf(s) && o != s && Separates(hash, p, s) && Separates(hash, p, o) && Separates(hash, s, o)
    ensures fresh(cache) && cache.zid == p.zid && cache.hash == hash && cache.Valid()
    ensures !Balanced(cache.zid, cache.Abs().eps, cache.events.reports)
  {
    Cast(hash, p, L.Publisher);
    Cast(hash, s, L.Subscription);
    Cast(hash, o, L.Subscription);
    SceneDistinct(hash, p, s, o);
    SceneKeys(p, s, o);
    ghost var one, two;
    cache, one, two := ThreeTokens(
      p.zid, hash, L.Token(p), L.Token(s), L.Token(o), false, Played(hash, p), Played(hash, s), Played(hash, o));
    UnknownHarms(
      p.zid, s.zid, one, two, cache.trace, Played(hash, p), Played(hash, s), Played(hash, o),
      p.topic.value.name, p.topic.value.typ, Key(p), Key(s), Keyexpr(p));
  }

  lemma RepeatHarms(
    zid: string, far: string, one: seq<Change>, two: seq<Change>, cs: seq<Change>,
    a: Endpoint, b: Endpoint, e: Endpoint, t: string, ty: string, j: string, k: string, x: string)
    requires ChangesOk(zid, two) && ChangesOk(zid, cs) && Distinct({a, b, e})
    requires Recorded([], one, true, a) && Recorded(one, two, true, b) && Recorded(two, cs, true, e)
    requires Like(a, zid, true, t, ty, j, x) && Like(b, far, false, t, ty, k, x) && e == b
    requires far != zid
    ensures !Balanced(zid, Live(cs), Log(cs))
  {
    TwoArrive(zid, one, two, a, b);
    ThenOneMore(zid, two, cs, a, b, true, e);
    assert a in Matches({a, b}, e);
  }

  /** A subscription is announced twice, as from the initial query and from the history of the subscriber: the local
      publisher is told of it twice. */
  method AnnouncedTwice(hash: string -> int, p: L.Entity, s: L.Entity) returns (cache: GraphCache)
    requires Pair(p, s) && SameTypeHash(p, s) && Separates(hash, p, s)
    ensures fresh(cache) && cache.zid == p.zid && cache.hash == hash && cache.Valid()
    ensures !Balanced(cache.zid, cache.Abs().eps, cache.events.reports)
  {
    Cast(hash, p, L.Publisher);
    Cast(hash, s, L.Subscription);
    SceneDistinct(hash, p, s, s);
    SceneKeys(p, s, s);
    ghost var one, two;
    cache, one, two := ThreeTokens(
      p.zid, hash, L.Token(p), L.Token(s), L.Token(s), true, Played(hash, p), Played(hash, s), Played(hash, s));
    RepeatHarms(
      p.zid, s.zid, one, two, cache.trace, Played(hash, p), Played(hash, s), Played(hash, s),
      p.topic.value.name, p.topic.value.typ, Key(p), Key(s), Keyexpr(p));
  }

  lemma BucketsHarm(
    zid: string, far: string, far': string, one: seq<Change>, two: seq<Change>, cs: seq<Change>,
    a: Endpoint, b: Endpoint, e: Endpoint, t: string, ty: string, j: string, k: string, l: string, x: string)
    requires ChangesOk(zid, two) && ChangesOk(zid, cs) && Distinct({a, b, e})
    requires Recorded([], one, true, a) && Recorded(one, two, true, b) && Recorded(two, cs, true, e)
    requires Like(a, far, false, t, ty, j, x) && Like(b, far', false, t, ty, k, x) && Like(e, zid, true, t, ty, l, x)
    requires far != zid && far' != zid && j != k
    ensures !Balanced(zid, Live(cs), Log(cs))
  {
    TwoArrive(zid, one, two, a, b);
    ThenOneMore(zid, two, cs, a, b, true, e);
    assert a in Matches({a, b}, e) && b in Matches({a, b}, e);
  }

  /** Two subscriptions in two QoS buckets wait for a publisher: it is told of them more than once. */
  method TwoBuckets(hash: string -> int, p: L.Entity, s: L.Entity, o: L.Entity) returns (cache: GraphCache)
    requires Pair(p, s) && Pair(p, o) && SameTypeHash(p, s) && SameTypeHash(p, o) && !SameQoS(s, o)
    requires Separates(hash, p, s) && Separates(hash, p, o) && Separates(hash, s, o)
    ensures fresh(cache) && cache.zid == p.zid && cache.hash == hash && cache.Valid()
    ensures !Balanced(cache.zid, cache.Abs().eps, cache.events.reports)
  {
    Cast(hash, p, L.Publisher);
    Cast(hash, s, L.Subscription);
    Cast(hash, o, L.Subscription);
    SceneDistinct(hash, p, s, o);
    SceneKeys(p, s, o);
    ghost var one, two;
    cache, one, two := ThreeTokens(
      p.zid, hash, L.Token(s), L.Token(o), L.Token(p), true, Played(hash, s), Played(hash, o), Played(hash, p));
    BucketsHarm(
      p.zid, s.zid, o.zid, one, two, cache.trace, Played(hash, s), Played(hash, o), Played(hash, p),
      p.topic.value.name, p.topic.value.typ, Key(s), Key(o), Key(p), Keyexpr(p));
  }

  lemma HashHarms(
    zid: string, far: string, one: seq<Change>, cs: seq<Change>, a: Endpoint, e: Endpoint,
    t: string, ty: string, j: string, k: string, x: string, y: string)
    requires ChangesOk(zid, one) && ChangesOk(zid, cs) && Distinct({a, e, e})
    requires Recorded([], one, true, a) && Recorded(one, cs, true, e)
    requires Like(a, zid, true, t, ty, j, x) && Like(e, far, false, t, ty, k, y) && far != zid && x != y
    ensures !Balanced(zid, Live(cs), Log(cs))
  {
    OneArrives(zid, one, a);
    assert {a, a, e} == {a, e, e} && {a, a} == {a};
    ThenOneMore(zid, one, cs, a, a, true, e);
    assert a in Matches({a, a}, e);
  }

  lemma HashScene(hash: string -> int, p: L.Entity, s: L.Entity, one: seq<Change>, cs: seq<Change>)
    requires Pair(p, s) && !SameTypeHash(p, s) && Separates(hash, p, s)
    requires ChangesOk(p.zid, one) && ChangesOk(p.zid, cs)
    requires Recorded([], one, true, Played(hash, p)) && Recorded(one, cs, true, Played(hash, s))
    ensures !Balanced(p.zid, Live(cs), Log(cs))
  {
    Cast(hash, p, L.Publisher);
    Cast(hash, s, L.Subscription);
    SceneKeys(p, s, s);
    SceneDistinct(hash, p, s, s);
    HashHarms(
      p.zid, s.zid, one, cs, Played(hash, p), Played(hash, s),
      p.topic.value.name, p.topic.value.typ, Key(p), Key(s), Keyexpr(p), Keyexpr(s));
  }

  /** A subscription with another type hash arrives: it counts as a match of the local publisher, which is not told
      of it. */
  method TwoTypeHashes(hash: string -> int, p: L.Entity, s: L.Entity) returns (cache: GraphCache)
    requires Pair(p, s) && !SameTypeHash(p, s) && Separates(hash, p, s)
    ensures fresh(cache) && cache.zid == p.zid && cache.hash == hash && cache.Valid()
    ensures !Balanced(cache.zid, cache.Abs().eps, cache.events.reports)
  {
    TokenMeans(hash, p, L.Publisher);
    TokenMeans(hash, s, L.Subscription);
    PlayedApart(hash, p, s);
    ghost var one;
    cache, one := TwoTokens(p.zid, hash, L.Token(p), L.Token(s), Played(hash, p), Played(hash, s));
    HashScene(hash, p, s, one, cache.trace);
  }

  // ----- there are such entities

  function End(zid: string, id: string, kind: L.EntityType, typeHash: string, qos: Q.QoS): L.Entity {
    var topic := L.TopicInfo("/chatter", "String", typeHash, qos);
    L.Entity(zid, "0", id, kind, L.NodeInfo(0, "/", "node", "/"), Some(topic))
  }

  lemma EndPlays(zid: string, id: string, kind: L.EntityType, typeHash: string, qos: Q.QoS)
    requires L.PlainPart(zid) && L.PlainPart(id) && L.MangledPart(typeHash) && Q.Encodable(qos)
    requires kind == L.Publisher || kind == L.Subscription
    ensures Plays(End(zid, id, kind, typeHash, qos), kind)
  {
  }

  /** A publisher, two subscriptions that differ in the id alone, one with another depth, one with another type
      hash. */
  lemma TheyExist() returns (p: L.Entity, s: L.Entity, o: L.Entity, shallow: L.Entity, foreign: L.Entity)
    ensures Pair(p, s) && Pair(p, o) && SameTypeHash(p, s) && SameTypeHash(p, o) && SameQoS(s, o)
    ensures KeyOf(o) == KeyOf(s) && o != s
    ensures Pair(p, shallow) && SameTypeHash(p, shallow) && !SameQoS(s, shallow)
    ensures Pair(p, foreign) && !SameTypeHash(p, foreign)
  {
    var q := Q.DEFAULT_QOS;
    EndPlays("a", "1", L.Publisher, "h1", q);
    EndPlays("b", "2", L.Subscription, "h1", q);
    EndPlays("b", "3", L.Subscription, "h1", q);
    EndPlays("b", "4", L.Subscription, "h1", q.(depth := 1));
    EndPlays("b", "5", L.Subscription, "h2", q);
    p, s := End("a", "1", L.Publisher, "h1", q), End("b", "2", L.Subscription, "h1", q);
    o, shallow := End("b", "3", L.Subscription, "h1", q), End("b", "4", L.Subscription, "h1", q.(depth := 1));
    foreign := End("b", "5", L.Subscription, "h2", q);
    assert p.topic.value.typeHash[1] != foreign.topic.value.typeHash[1] && p.zid[0] != s.zid[0] && o.id[0] != s.id[0];
  }
}

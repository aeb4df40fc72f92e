/**
 The nested index topic name -> topic type -> QoS text -> entities, which every graph node keeps per role and
 the graph cache keeps globally for topics and for services.

 An entity set of the source tells entities apart by `gid_hash`, a hash of their token. What an index pictures is
 a set of endpoints, each determined by its token (`Liveliness.TokenInjective`); `TopicMapUpdates.ByHashIff` says when
 the two views agree.
 */
module TopicIndex {
  import opened Options
  import L = Liveliness
  import Q = QoSProfile

  /** Where an endpoint is filed: its topic name, its type, its QoS as text, and the QoS itself. */
  datatype Place = Place(topic: string, typ: string, key: string, qos: Q.QoS)

  /** An entity other than a node, with the derived values the cache reads: where it is filed, the key
      expression its data travels on, and its `gid_hash`. */
  datatype Endpoint = Endpoint(entity: L.Entity, place: Place, keyexpr: string, gid: int)

  datatype TopicData = TopicData(info: Place, pubs: set<Endpoint>, subs: set<Endpoint>)

  type QoSMap = map<string, TopicData>
  type TypeMap = map<string, QoSMap>
  type TopicMap = map<string, TypeMap>

  /** `hash` stands for the hash of a token, of which nothing is known. */
  function EndpointOf(hash: string -> int, e: L.Entity): Endpoint
    requires L.Valid(e) && e.kind != L.Node
  {
    var t := e.topic.value;
    Endpoint(e, Place(t.name, t.typ, Q.Encode(t.qos), t.qos), L.TopicKeyexpr(e.node.domainId, t), hash(L.Token(e)))
  }

  predicate Named(e: L.Entity, name: string) {
    e.topic.Some? && e.topic.value.name == name
  }

  /** The endpoints that come out of tokens. */
  predicate Genuine(hash: string -> int, e: Endpoint) {
    L.Valid(e.entity) && e.entity.kind != L.Node && e == EndpointOf(hash, e.entity)
  }

  /** Clients are kept as publishers and services as subscriptions. */
  predicate IsPub(e: Endpoint) {
    e.entity.kind == L.Publisher || e.entity.kind == L.Client
  }

  predicate On(e: Endpoint, topic: string, typ: string) {
    e.place.topic == topic && e.place.typ == typ
  }

  predicate At(e: Endpoint, topic: string, typ: string, key: string) {
    On(e, topic, typ) && e.place.key == key
  }

  function Side(b: TopicData, pub: bool): set<Endpoint> {
    if pub then b.pubs else b.subs
  }

  function Bucket(tm: TopicMap, topic: string, typ: string, key: string): Option<TopicData> {
    if topic in tm && typ in tm[topic] && key in tm[topic][typ] then Some(tm[topic][typ][key]) else None
  }

  function BucketOf(tm: TopicMap, e: Endpoint): Option<TopicData> {
    Bucket(tm, e.place.topic, e.place.typ, e.place.key)
  }

  /** The entities of a bucket belong there, and the place recorded with it is theirs. */
  ghost predicate BucketOk(b: TopicData, topic: string, typ: string, key: string) {
    && b.pubs + b.subs != {}
    && b.info.topic == topic && b.info.typ == typ && b.info.key == key
    && (forall e | e in b.pubs :: At(e, topic, typ, key) && IsPub(e) && e.place.qos == b.info.qos)
    && (forall e | e in b.subs :: At(e, topic, typ, key) && !IsPub(e) && e.place.qos == b.info.qos)
  }

  /** No empty map or bucket at any level, and everything in its place. */
  ghost predicate WellFormed(tm: TopicMap) {
    && (forall t | t in tm :: tm[t] != map[])
    && (forall t, ty | t in tm && ty in tm[t] :: tm[t][ty] != map[])
    && (forall t, ty, k :: Bucket(tm, t, ty, k).Some? ==> BucketOk(Bucket(tm, t, ty, k).value, t, ty, k))
  }

  ghost predicate Has(tm: TopicMap, e: Endpoint) {
    var b := BucketOf(tm, e);
    b.Some? && e in Side(b.value, IsPub(e))
  }

  /** The index is a well-formed picture of a plain set of endpoints. */
  ghost predicate Pictures(tm: TopicMap, live: set<Endpoint>) {
    WellFormed(tm) && forall e :: e in live <==> Has(tm, e)
  }

  /** The text of a QoS determines it. */
  ghost predicate KeysTell(es: set<Endpoint>) {
    forall a, b | a in es && b in es && a.place.key == b.place.key :: a.place.qos == b.place.qos
  }

  lemma GenuineKeysTell(hash: string -> int, es: set<Endpoint>)
    requires forall e | e in es :: Genuine(hash, e)
    ensures KeysTell(es)
  {
    forall a, b | a in es && b in es && a.place.key == b.place.key ensures a.place.qos == b.place.qos {
      assert Genuine(hash, a) && Genuine(hash, b);
      Q.EncodeInjective(a.place.qos, b.place.qos);
    }
  }

  lemma BucketMembers(tm: TopicMap, live: set<Endpoint>, t: string, ty: string, k: string)
    requires Pictures(tm, live) && Bucket(tm, t, ty, k).Some?
    ensures var b := Bucket(tm, t, ty, k).value;
            && b.pubs == (set e | e in live && At(e, t, ty, k) && IsPub(e))
            && b.subs == (set e | e in live && At(e, t, ty, k) && !IsPub(e))
  {
    var b := Bucket(tm, t, ty, k).value;
    assert BucketOk(b, t, ty, k);
    forall e | e in b.pubs ensures e in live { assert Has(tm, e); }
    forall e | e in b.subs ensures e in live { assert Has(tm, e); }
  }

  /** Two pictures of the same set keep the same entities in every bucket. */
  lemma PictureUnique(a: TopicMap, b: TopicMap, live: set<Endpoint>, t: string, ty: string, k: string)
    requires Pictures(a, live) && Pictures(b, live)
    ensures Bucket(a, t, ty, k).Some? <==> Bucket(b, t, ty, k).Some?
    ensures Bucket(a, t, ty, k).Some? ==>
      && Bucket(a, t, ty, k).value.pubs == Bucket(b, t, ty, k).value.pubs
      && Bucket(a, t, ty, k).value.subs == Bucket(b, t, ty, k).value.subs
  {
    if Bucket(a, t, ty, k).Some? {
      NonEmptyBucket(a, b, live, t, ty, k);
      BucketMembers(a, live, t, ty, k);
      BucketMembers(b, live, t, ty, k);
    } else if Bucket(b, t, ty, k).Some? {
      NonEmptyBucket(b, a, live, t, ty, k);
    }
  }

  lemma NonEmptyBucket(a: TopicMap, b: TopicMap, live: set<Endpoint>, t: string, ty: string, k: string)
    requires Pictures(a, live) && Pictures(b, live) && Bucket(a, t, ty, k).Some?
    ensures Bucket(b, t, ty, k).Some?
  {
    var d := Bucket(a, t, ty, k).value;
    assert BucketOk(d, t, ty, k);
    var e :| e in d.pubs + d.subs;
    assert Has(a, e);
    assert Has(b, e);
  }

  lemma TypePresent(tm: TopicMap, live: set<Endpoint>, t: string, ty: string)
    requires Pictures(tm, live)
    ensures (t in tm && ty in tm[t]) <==> exists e :: e in live && On(e, t, ty)
  {
    if t in tm && ty in tm[t] {
      var k :| k in tm[t][ty];
      var b := Bucket(tm, t, ty, k).value;
      assert BucketOk(b, t, ty, k);
      var e :| e in b.pubs + b.subs;
      assert Has(tm, e);
    }
    if e :| e in live && On(e, t, ty) {
      assert Has(tm, e);
    }
  }

  // ----- replacing and dropping one bucket

  function SetBucket(tm: TopicMap, t: string, ty: string, k: string, b: TopicData): TopicMap {
    var types := if t in tm then tm[t] else map[];
    var buckets := if ty in types then types[ty] else map[];
    tm[t := types[ty := buckets[k := b]]]
  }

  lemma BucketsAfterSet(
    tm: TopicMap, t: string, ty: string, k: string, b: TopicData, t': string, ty': string, k': string)
    ensures Bucket(SetBucket(tm, t, ty, k, b), t', ty', k') ==
      if t' == t && ty' == ty && k' == k then Some(b) else Bucket(tm, t', ty', k')
  {
  }

  lemma SetBucketKeeps(tm: TopicMap, t: string, ty: string, k: string, b: TopicData)
    requires WellFormed(tm) && BucketOk(b, t, ty, k)
    ensures WellFormed(SetBucket(tm, t, ty, k, b))
    ensures forall t', ty', k' :: Bucket(SetBucket(tm, t, ty, k, b), t', ty', k') ==
                                  if t' == t && ty' == ty && k' == k then Some(b) else Bucket(tm, t', ty', k')
  {
    var tm' := SetBucket(tm, t, ty, k, b);
    forall t', ty', k'
      ensures Bucket(tm', t', ty', k') ==
        if t' == t && ty' == ty && k' == k then Some(b) else Bucket(tm, t', ty', k')
      ensures Bucket(tm', t', ty', k').Some? ==> BucketOk(Bucket(tm', t', ty', k').value, t', ty', k')
    {
      BucketsAfterSet(tm, t, ty, k, b, t', ty', k');
      assert Bucket(tm, t', ty', k').Some? ==> BucketOk(Bucket(tm, t', ty', k').value, t', ty', k');
    }
    assert k in tm'[t][ty] && ty in tm'[t];
    forall t', ty' | t' in tm' && ty' in tm'[t'] ensures tm'[t'][ty'] != map[] {
      assert t' != t || ty' != ty ==> t' in tm && ty' in tm[t'] && tm'[t'][ty'] == tm[t'][ty'];
    }
  }

  /** Erases a bucket, and then the maps it leaves empty. */
  function DropBucket(tm: TopicMap, t: string, ty: string, k: string): TopicMap
    requires Bucket(tm, t, ty, k).Some?
  {
    var buckets := tm[t][ty] - {k};
    var types := if buckets == map[] then tm[t] - {ty} else tm[t][ty := buckets];
    if types == map[] then tm - {t} else tm[t := types]
  }

  lemma BucketsAfterDrop(tm: TopicMap, t: string, ty: string, k: string, t': string, ty': string, k': string)
    requires Bucket(tm, t, ty, k).Some?
    ensures Bucket(DropBucket(tm, t, ty, k), t', ty', k') ==
      if t' == t && ty' == ty && k' == k then None else Bucket(tm, t', ty', k')
  {
    var buckets := tm[t][ty] - {k};
    var types := if buckets == map[] then tm[t] - {ty} else tm[t][ty := buckets];
    if t' == t && ty' == ty && k' in tm[t][ty] && k' != k {
      assert k' in buckets;
      assert ty in types;
    } else if t' == t && ty' != ty && ty' in tm[t] {
      assert ty' in types;
    }
  }

  lemma DropBucketKeeps(tm: TopicMap, t: string, ty: string, k: string)
    requires WellFormed(tm) && Bucket(tm, t, ty, k).Some?
    ensures WellFormed(DropBucket(tm, t, ty, k))
    ensures forall t', ty', k' :: Bucket(DropBucket(tm, t, ty, k), t', ty', k') ==
                                  if t' == t && ty' == ty && k' == k then None else Bucket(tm, t', ty', k')
  {
    var tm' := DropBucket(tm, t, ty, k);
    forall t', ty', k'
      ensures Bucket(tm', t', ty', k') == if t' == t && ty' == ty && k' == k then None else Bucket(tm, t', ty', k')
      ensures Bucket(tm', t', ty', k').Some? ==> BucketOk(Bucket(tm', t', ty', k').value, t', ty', k')
    {
      BucketsAfterDrop(tm, t, ty, k, t', ty', k');
      assert Bucket(tm, t', ty', k').Some? ==> BucketOk(Bucket(tm, t', ty', k').value, t', ty', k');
    }
    forall t' | t' in tm' ensures tm'[t'] != map[] {
      assert t' != t ==> tm'[t'] == tm[t'];
    }
    forall t', ty' | t' in tm' && ty' in tm'[t'] ensures tm'[t'][ty'] != map[] {
      assert t' in tm && ty' in tm[t'];
      assert t' != t || ty' != ty ==> tm'[t'][ty'] == tm[t'][ty'];
    }
  }

  // ----- insertion and removal of an entity

  function NewBucket(e: Endpoint): TopicData {
    TopicData(e.place, if IsPub(e) then {e} else {}, if IsPub(e) then {} else {e})
  }

  function Joined(b: TopicData, e: Endpoint): TopicData {
    if IsPub(e) then b.(pubs := b.pubs + {e}) else b.(subs := b.subs + {e})
  }

  function Without(b: TopicData, e: Endpoint): TopicData {
    if IsPub(e) then b.(pubs := b.pubs - {e}) else b.(subs := b.subs - {e})
  }

  function BucketWith(tm: TopicMap, e: Endpoint): TopicData {
    match BucketOf(tm, e)
    case None => NewBucket(e)
    case Some(b) => Joined(b, e)
  }

  lemma BucketWithOk(tm: TopicMap, live: set<Endpoint>, e: Endpoint)
    requires Pictures(tm, live) && KeysTell(live + {e})
    ensures BucketOk(BucketWith(tm, e), e.place.topic, e.place.typ, e.place.key)
  {
    if BucketOf(tm, e).Some? {
      var b := BucketOf(tm, e).value;
      assert BucketOk(b, e.place.topic, e.place.typ, e.place.key);
      var x :| x in b.pubs + b.subs;
      assert Has(tm, x);
      assert x in live + {e} && e in live + {e};
    } else {
      assert e in NewBucket(e).pubs + NewBucket(e).subs;
    }
  }

  /** Writing back the bucket of `e` extended with `e` adds exactly `e` to the picture. */
  lemma InsertPictures(tm: TopicMap, live: set<Endpoint>, e: Endpoint)
    requires Pictures(tm, live) && KeysTell(live + {e})
    ensures Pictures(SetBucket(tm, e.place.topic, e.place.typ, e.place.key, BucketWith(tm, e)), live + {e})
  {
    var t, ty, k := e.place.topic, e.place.typ, e.place.key;
    var b := BucketWith(tm, e);
    BucketWithOk(tm, live, e);
    SetBucketKeeps(tm, t, ty, k, b);
    var tm' := SetBucket(tm, t, ty, k, b);
    forall x ensures x in live + {e} <==> Has(tm', x) {
      assert x in live <==> Has(tm, x);
    }
  }

  function Remaining(tm: TopicMap, e: Endpoint): TopicMap
    requires BucketOf(tm, e).Some?
  {
    var t, ty, k := e.place.topic, e.place.typ, e.place.key;
    var b := Without(tm[t][ty][k], e);
    if b.pubs == {} && b.subs == {} then DropBucket(tm, t, ty, k) else SetBucket(tm, t, ty, k, b)
  }

  lemma RemovePictures(tm: TopicMap, live: set<Endpoint>, e: Endpoint)
    requires Pictures(tm, live)
    requires BucketOf(tm, e).Some?
    ensures Pictures(Remaining(tm, e), live - {e})
  {
    var t, ty, k := e.place.topic, e.place.typ, e.place.key;
    var b := Bucket(tm, t, ty, k).value;
    assert BucketOk(b, t, ty, k);
    var b' := Without(b, e);
    if b'.pubs == {} && b'.subs == {} {
      DropBucketKeeps(tm, t, ty, k);
    } else {
      SetBucketKeeps(tm, t, ty, k, b');
    }
    forall x ensures x in live - {e} <==> Has(Remaining(tm, e), x) {
      assert x in live <==> Has(tm, x);
      if At(x, t, ty, k) {
        assert x in live <==> x in Side(b, IsPub(x));
      }
    }
  }

  lemma AbsentNeedsNoRemoval(tm: TopicMap, live: set<Endpoint>, e: Endpoint)
    requires Pictures(tm, live)
    requires BucketOf(tm, e).None?
    ensures live - {e} == live
  {
    assert e in live <==> Has(tm, e);
  }

  // ----- queries

  /** What the buckets of one topic and type look like on their own. */
  ghost predicate BucketsOk(buckets: QoSMap) {
    && (forall k, x {:trigger x in buckets[k].pubs} | k in buckets && x in buckets[k].pubs ::
          x.place.key == k && IsPub(x))
    && (forall k, x {:trigger x in buckets[k].subs} | k in buckets && x in buckets[k].subs ::
          x.place.key == k && !IsPub(x))
  }

  /** The endpoints of one side in some of the buckets. */
  ghost function PeersOf(buckets: QoSMap, pub: bool, keys: set<string>): set<Endpoint> {
    set k, x | k in keys && k in buckets && x in Side(buckets[k], pub) :: x
  }

  ghost function Peers(buckets: QoSMap, pub: bool): set<Endpoint> {
    PeersOf(buckets, pub, buckets.Keys)
  }

  ghost function LiveOn(live: set<Endpoint>, pub: bool, topic: string, typ: string): set<Endpoint> {
    set e | e in live && On(e, topic, typ) && IsPub(e) == pub
  }

  /** The endpoints found under a topic and type are the live ones there. */
  lemma BucketsPicture(tm: TopicMap, live: set<Endpoint>, pub: bool, t: string, ty: string)
    requires Pictures(tm, live) && t in tm && ty in tm[t]
    ensures BucketsOk(tm[t][ty]) && Peers(tm[t][ty], pub) == LiveOn(live, pub, t, ty)
  {
    var buckets := tm[t][ty];
    forall k | k in buckets
      ensures forall x :: x in buckets[k].pubs ==> At(x, t, ty, k) && IsPub(x)
      ensures forall x :: x in buckets[k].subs ==> At(x, t, ty, k) && !IsPub(x)
    {
      assert Bucket(tm, t, ty, k) == Some(buckets[k]);
    }
    forall x | x in Peers(buckets, pub) ensures x in LiveOn(live, pub, t, ty) {
      assert Has(tm, x);
    }
    forall x | x in LiveOn(live, pub, t, ty) ensures x in Peers(buckets, pub) {
      assert Has(tm, x);
    }
  }

  lemma PeersGrow(buckets: QoSMap, pub: bool, keys: set<string>, k: string)
    requires BucketsOk(buckets) && k in buckets && k !in keys
    ensures PeersOf(buckets, pub, keys + {k}) == PeersOf(buckets, pub, keys) + Side(buckets[k], pub)
    ensures |PeersOf(buckets, pub, keys + {k})| == |PeersOf(buckets, pub, keys)| + |Side(buckets[k], pub)|
  {
    assert PeersOf(buckets, pub, keys) !! Side(buckets[k], pub);
    assert PeersOf(buckets, pub, keys + {k}) == PeersOf(buckets, pub, keys) + Side(buckets[k], pub);
  }

  /** The inner loop of the counting queries. */
  method CountInType(buckets: QoSMap, pub: bool) returns (count: nat)
    requires BucketsOk(buckets)
    ensures count == |Peers(buckets, pub)|
  {
    count := 0;
    var todo := buckets.Keys;
    ghost var done: set<string> := {};
    assert PeersOf(buckets, pub, done) == {};
    while todo != {}
      invariant todo <= buckets.Keys && done == buckets.Keys - todo
      invariant count == |PeersOf(buckets, pub, done)|
      decreases todo
    {
      var k :| k in todo;
      PeersGrow(buckets, pub, done, k);
      count := count + |Side(buckets[k], pub)|;
      todo, done := todo - {k}, done + {k};
    }
    assert done == buckets.Keys;
  }

  ghost predicate TypesOk(types: TypeMap) {
    && (forall ty | ty in types :: BucketsOk(types[ty]))
    && Sorted(types)
  }

  ghost predicate Sorted(types: TypeMap) {
    forall ty, pub, x {:trigger x in Peers(types[ty], pub)} | ty in types && x in Peers(types[ty], pub) ::
      x.place.typ == ty
  }

  ghost function PeersOfTypes(types: TypeMap, pub: bool, names: set<string>): set<Endpoint> {
    set ty, x | ty in names && ty in types && x in Peers(types[ty], pub) :: x
  }

  lemma NotOfType(types: TypeMap, pub: bool, names: set<string>, ty: string)
    requires Sorted(types) && ty in types && ty !in names
    ensures PeersOfTypes(types, pub, names) !! Peers(types[ty], pub)
  {
    forall x | x in Peers(types[ty], pub) ensures x.place.typ == ty {}
    forall x | x in PeersOfTypes(types, pub, names) ensures x !in Peers(types[ty], pub) {
      var n :| n in names && n in types && x in Peers(types[n], pub);
    }
  }

  lemma TypesGrow(types: TypeMap, pub: bool, names: set<string>, ty: string)
    requires Sorted(types) && ty in types && ty !in names
    ensures |PeersOfTypes(types, pub, names + {ty})| == |PeersOfTypes(types, pub, names)| + |Peers(types[ty], pub)|
  {
    NotOfType(types, pub, names, ty);
    assert PeersOfTypes(types, pub, names + {ty}) == PeersOfTypes(types, pub, names) + Peers(types[ty], pub);
  }

  method CountInTopic(types: TypeMap, pub: bool) returns (count: nat)
    requires TypesOk(types)
    ensures count == |PeersOfTypes(types, pub, types.Keys)|
  {
    count := 0;
    var todo := types.Keys;
    ghost var done: set<string> := {};
    assert PeersOfTypes(types, pub, done) == {};
    while todo != {}
      invariant todo <= types.Keys && done == types.Keys - todo
      invariant count == |PeersOfTypes(types, pub, done)|
      decreases todo
    {
      var typ :| typ in todo;
      TypesGrow(types, pub, done, typ);
      var c := CountInType(types[typ], pub);
      count := count + c;
      todo, done := todo - {typ}, done + {typ};
    }
    assert done == types.Keys;
  }

  ghost function OfRole(live: set<Endpoint>, pub: bool, topic: string): set<Endpoint> {
    set e | e in live && IsPub(e) == pub && e.place.topic == topic
  }

  lemma TopicPicture(tm: TopicMap, live: set<Endpoint>, pub: bool, topic: string)
    requires Pictures(tm, live) && topic in tm
    ensures TypesOk(tm[topic]) && PeersOfTypes(tm[topic], pub, tm[topic].Keys) == OfRole(live, pub, topic)
  {
    forall p, ty | ty in tm[topic]
      ensures BucketsOk(tm[topic][ty]) && Peers(tm[topic][ty], p) == LiveOn(live, p, topic, ty)
    {
      BucketsPicture(tm, live, p, topic, ty);
    }
    assert TypesOk(tm[topic]) by {
      forall ty | ty in tm[topic] ensures BucketsOk(tm[topic][ty]) { BucketsPicture(tm, live, true, topic, ty); }
    }
    forall e | e in OfRole(live, pub, topic) ensures e in PeersOfTypes(tm[topic], pub, tm[topic].Keys) {
      assert Has(tm, e);
      assert e in LiveOn(live, pub, topic, e.place.typ);
    }
  }

  /** `count_publishers`, `count_subscriptions`, `count_services` and `count_clients`: the nested sums count the
      live entities of the role and name. */
  method CountEntities(tm: TopicMap, ghost live: set<Endpoint>, topic: string, pub: bool) returns (count: nat)
    requires Pictures(tm, live)
    ensures count == |OfRole(live, pub, topic)|
  {
    if topic !in tm {
      forall e | e in live ensures e.place.topic in tm { assert Has(tm, e); }
      assert OfRole(live, pub, topic) == {};
      return 0;
    }
    TopicPicture(tm, live, pub, topic);
    count := CountInTopic(tm[topic], pub);
  }

  ghost function Passing(buckets: QoSMap, qos: Q.QoS, compatible: (Q.QoS, Q.QoS) -> bool): set<string> {
    set k | k in buckets && compatible(qos, buckets[k].info.qos)
  }

  lemma PassedGrow(buckets: QoSMap, pub: bool, passing: set<string>, todo: set<string>, k: string)
    requires BucketsOk(buckets) && k in buckets && k in todo
    ensures |PeersOf(buckets, pub, passing - (todo - {k}))| ==
            |PeersOf(buckets, pub, passing - todo)| + if k in passing then |Side(buckets[k], pub)| else 0
  {
    PeersGrow(buckets, pub, passing - todo, k);
    if k in passing {
      assert passing - (todo - {k}) == passing - todo + {k};
    } else {
      assert passing - (todo - {k}) == passing - todo;
    }
  }

  /** The loop of the matched counts: one compatibility check per bucket, against the profile stored with it. */
  method CountPassing(buckets: QoSMap, pub: bool, qos: Q.QoS, compatible: (Q.QoS, Q.QoS) -> bool)
    returns (count: nat)
    requires BucketsOk(buckets)
    ensures count == |PeersOf(buckets, pub, Passing(buckets, qos, compatible))|
  {
    count := 0;
    var todo := buckets.Keys;
    ghost var passed: set<string> := {};
    assert PeersOf(buckets, pub, passed) == {};
    while todo != {}
      invariant todo <= buckets.Keys
      invariant passed == Passing(buckets, qos, compatible) - todo
      invariant count == |PeersOf(buckets, pub, passed)|
      decreases todo
    {
      var k :| k in todo;
      var side := Side(buckets[k], pub);
      PassedGrow(buckets, pub, Passing(buckets, qos, compatible), todo, k);
      if side != {} {
        if compatible(qos, buckets[k].info.qos) {
          count := count + |side|;
        }
      }
      todo := todo - {k};
      passed := Passing(buckets, qos, compatible) - todo;
    }
    assert passed == Passing(buckets, qos, compatible);
  }

  ghost function Matching(
    live: set<Endpoint>, pub: bool, info: Place, compatible: (Q.QoS, Q.QoS) -> bool): set<Endpoint>
  {
    set e | e in live && On(e, info.topic, info.typ) && IsPub(e) == pub && compatible(info.qos, e.place.qos)
  }

  lemma PassingMatches(
    tm: TopicMap, live: set<Endpoint>, info: Place, pub: bool, compatible: (Q.QoS, Q.QoS) -> bool)
    requires Pictures(tm, live) && info.topic in tm && info.typ in tm[info.topic]
    ensures var buckets := tm[info.topic][info.typ];
            PeersOf(buckets, pub, Passing(buckets, info.qos, compatible)) == Matching(live, pub, info, compatible)
  {
    var buckets := tm[info.topic][info.typ];
    BucketsPicture(tm, live, pub, info.topic, info.typ);
    forall k, e | k in buckets && e in Side(buckets[k], pub)
      ensures e in live && On(e, info.topic, info.typ) && e.place.key == k && e.place.qos == buckets[k].info.qos
    {
      assert e in Peers(buckets, pub);
      assert Bucket(tm, info.topic, info.typ, k) == Some(buckets[k]);
    }
    forall e | e in Matching(live, pub, info, compatible)
      ensures e in PeersOf(buckets, pub, Passing(buckets, info.qos, compatible))
    {
      assert e in Peers(buckets, pub);
      assert e in Side(buckets[e.place.key], pub);
    }
  }

  /** `publisher_count_matched_subscriptions` and its mirror: the count is that of the live peers whose own
      profile is compatible. */
  method CountMatched(
    tm: TopicMap, ghost live: set<Endpoint>, info: Place, pub: bool, compatible: (Q.QoS, Q.QoS) -> bool)
    returns (count: nat)
    requires Pictures(tm, live)
    ensures count == |Matching(live, pub, info, compatible)|
  {
    if info.topic !in tm || info.typ !in tm[info.topic] {
      TypePresent(tm, live, info.topic, info.typ);
      assert Matching(live, pub, info, compatible) == {};
      return 0;
    }
    BucketsPicture(tm, live, pub, info.topic, info.typ);
    PassingMatches(tm, live, info, pub, compatible);
    count := CountPassing(tm[info.topic][info.typ], pub, info.qos, compatible);
  }

  /** The loop of `service_server_is_available`. */
  method AnyServer(buckets: QoSMap) returns (found: bool)
    ensures found <==> Peers(buckets, false) != {}
  {
    var todo := buckets.Keys;
    while todo != {}
      invariant todo <= buckets.Keys
      invariant PeersOf(buckets, false, buckets.Keys - todo) == {}
      decreases todo
    {
      var k :| k in todo;
      if buckets[k].subs != {} {
        ghost var e :| e in buckets[k].subs;
        assert e in Side(buckets[k], false) && e in Peers(buckets, false);
        return true;
      }
      todo := todo - {k};
    }
    assert buckets.Keys - todo == buckets.Keys;
    return false;
  }

  lemma ServersLive(live: set<Endpoint>, info: Place)
    ensures LiveOn(live, false, info.topic, info.typ) != {} <==>
            exists e :: e in live && On(e, info.topic, info.typ) && !IsPub(e)
  {
    if e :| e in live && On(e, info.topic, info.typ) && !IsPub(e) {
      assert e in LiveOn(live, false, info.topic, info.typ);
    }
  }

  /** `service_server_is_available`: some bucket of the client's service and type holds a server. */
  method ServerIsAvailable(tm: TopicMap, ghost live: set<Endpoint>, info: Place) returns (available: bool)
    requires Pictures(tm, live)
    ensures available <==> exists e :: e in live && On(e, info.topic, info.typ) && !IsPub(e)
  {
    TypePresent(tm, live, info.topic, info.typ);
    available := false;
    if info.topic in tm && info.typ in tm[info.topic] {
      BucketsPicture(tm, live, false, info.topic, info.typ);
      available := AnyServer(tm[info.topic][info.typ]);
      ServersLive(live, info);
    }
  }
}

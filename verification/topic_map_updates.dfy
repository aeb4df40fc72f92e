/** How a graph cache updates one of its topic maps on an arrival or a departure, and what it reports then. */
module TopicMapUpdates {
  import opened Options
  import opened TopicIndex
  import opened QosEvents
  import opened MatchedEvents
  import opened MatchedCounts

  function BucketsAt(tm: TopicMap, e: Endpoint): QoSMap {
    if e.place.topic in tm && e.place.typ in tm[e.place.topic] then tm[e.place.topic][e.place.typ] else map[]
  }

  /** The buckets beside an endpoint in the index of its family hold its matches, under their keys. */
  lemma BucketsBeside(tm: TopicMap, all: set<Endpoint>, e: Endpoint)
    requires Pictures(tm, Family(all, IsService(e)))
    ensures var buckets := BucketsAt(tm, e);
            && BucketsOk(buckets) && buckets.Keys == KeysOn(all, e)
            && Peers(buckets, !IsPub(e)) == Matches(all, e)
  {
    var live, t, ty := Family(all, IsService(e)), e.place.topic, e.place.typ;
    if t in tm && ty in tm[t] {
      BucketsPicture(tm, live, true, t, ty);
      BucketsPicture(tm, live, false, t, ty);
      assert LiveOn(live, !IsPub(e), t, ty) == Matches(all, e);
      forall k | k in tm[t][ty] ensures k in KeysOn(all, e) {
        var b := Bucket(tm, t, ty, k).value;
        assert BucketOk(b, t, ty, k);
        var x :| x in b.pubs + b.subs;
        assert Has(tm, x);
        assert x in Beside(all, e);
      }
      forall x | x in Beside(all, e) ensures x.place.key in tm[t][ty] {
        assert x in live;
        assert Has(tm, x);
      }
    } else {
      assert forall x | x in live :: Has(tm, x);
      assert forall x | x in Beside(all, e) :: x in live;
      assert Beside(all, e) == {};
    }
  }

  /** The cache is told of an endpoint for the first time on a name and type: no visit, no report. */
  lemma FirstOnType(zid: string, tm: TopicMap, all: set<Endpoint>, e: Endpoint)
    requires Pictures(tm, Family(all, IsService(e))) && BucketsAt(tm, e) == map[]
    ensures ChangeOk(zid, all, Change(true, e, true, [], []))
  {
    BucketsBeside(tm, all, e);
    assert KeysOn(all, e) == {};
    assert forall x | x in Matches(all, e) :: x.place.key in KeysOn(all, e);
    assert Matches(all, e) == {};
  }

  // ----- sets of entities, which are told apart by hash alone

  function InsertByHash(es: set<Endpoint>, e: Endpoint): set<Endpoint> {
    if exists x :: x in es && x.gid == e.gid then es else es + {e}
  }

  function EraseByHash(es: set<Endpoint>, e: Endpoint): set<Endpoint> {
    set x | x in es && x.gid != e.gid
  }

  /** Inserting and erasing by hash act on the endpoint itself exactly when no other endpoint there has its hash. */
  lemma ByHashIff(es: set<Endpoint>, e: Endpoint)
    ensures EraseByHash(es, e) == es - {e} <==> Apart(es, e)
    ensures InsertByHash(es, e) == es + {e} <==> e in es || forall x | x in es :: x.gid != e.gid
    ensures Apart(es, e) ==> InsertByHash(es, e) == es + {e}
  {
    if x :| x in es && x.gid == e.gid && x != e {
      assert x in es - {e} && x !in EraseByHash(es, e);
    }
    assert e !in EraseByHash(es, e);
    if e in es {
      assert es + {e} == es;
    } else {
      assert e in es + {e};
    }
  }

  function JoinedByHash(b: TopicData, e: Endpoint): TopicData {
    if IsPub(e) then b.(pubs := InsertByHash(b.pubs, e)) else b.(subs := InsertByHash(b.subs, e))
  }

  function WithoutByHash(b: TopicData, e: Endpoint): TopicData {
    if IsPub(e) then b.(pubs := EraseByHash(b.pubs, e)) else b.(subs := EraseByHash(b.subs, e))
  }

  lemma BucketByHash(tm: TopicMap, live: set<Endpoint>, e: Endpoint)
    requires Pictures(tm, live) && BucketOf(tm, e).Some? && Apart(live, e)
    ensures JoinedByHash(BucketOf(tm, e).value, e) == Joined(BucketOf(tm, e).value, e)
    ensures WithoutByHash(BucketOf(tm, e).value, e) == Without(BucketOf(tm, e).value, e)
  {
    var b := BucketOf(tm, e).value;
    assert BucketOk(b, e.place.topic, e.place.typ, e.place.key);
    forall x | x in Side(b, IsPub(e)) ensures x in live {
      assert Has(tm, x);
    }
    ByHashIff(Side(b, IsPub(e)), e);
  }

  /** `update_topic_map_for_put`. */
  method UpdateTopicMapForPut(
    events: EventLedger, zid: string, tm: TopicMap, e: Endpoint, report: bool,
    ghost live: set<Endpoint>, ghost all: set<Endpoint>)
    returns (tm': TopicMap, ghost order: seq<string>, ghost added: seq<Report>)
    requires events.Valid() && Pictures(tm, live) && KeysTell(live + {e}) && Distinct(all) && Apart(live, e)
    requires report ==> live == Family(all, IsService(e))
    modifies events`unregistered, events`delivered, events`reports
    ensures events.Valid() && events.reports == old(events.reports) + added
    ensures Pictures(tm', live + {e})
    ensures ChangeOk(zid, all, Change(true, e, report, order, added))
  {
    var t, ty, k := e.place.topic, e.place.typ, e.place.key;
    var data := NewBucket(e);
    order, added := [], [];
    InsertPictures(tm, live, e);
    if t !in tm {
      if report { FirstOnType(zid, tm, all, e); }
      return tm[t := map[ty := map[k := data]]], order, added;
    }
    if ty !in tm[t] {
      if report { FirstOnType(zid, tm, all, e); }
      return tm[t := tm[t][ty := map[k := data]]], order, added;
    }
    if report {
      BucketsBeside(tm, all, e);
      order, added := HandleForPut(events, zid, e, tm[t][ty]);
    }
    if k !in tm[t][ty] {
      tm' := tm[t := tm[t][ty := tm[t][ty][k := data]]];
    } else {
      BucketByHash(tm, live, e);
      tm' := tm[t := tm[t][ty := tm[t][ty][k := JoinedByHash(tm[t][ty][k], e)]]];
    }
  }

  function BucketsWithout(buckets: QoSMap, e: Endpoint): QoSMap
    requires e.place.key in buckets
  {
    var b := Without(buckets[e.place.key], e);
    if b.pubs == {} && b.subs == {} then buckets - {e.place.key} else buckets[e.place.key := b]
  }

  /** Erasing an entity leaves the other side of its buckets as it was. */
  lemma OtherSideKept(buckets: QoSMap, e: Endpoint)
    requires BucketsOk(buckets) && e.place.key in buckets
    ensures BucketsOk(BucketsWithout(buckets, e))
    ensures Peers(BucketsWithout(buckets, e), !IsPub(e)) == Peers(buckets, !IsPub(e))
  {
    var after, pub := BucketsWithout(buckets, e), !IsPub(e);
    forall k | k in buckets ensures (if k in after then Side(after[k], pub) else {}) == Side(buckets[k], pub) {
    }
    forall x | x in Peers(buckets, pub) ensures x in Peers(after, pub) {
      var k :| k in buckets && x in Side(buckets[k], pub);
      assert x in Side(after[k], pub);
    }
    forall x | x in Peers(after, pub) ensures x in Peers(buckets, pub) {
      var k :| k in after && x in Side(after[k], pub);
      assert x in Side(buckets[k], pub);
    }
  }

  /** `update_topic_map_for_del`. */
  method UpdateTopicMapForDel(
    events: EventLedger, zid: string, tm: TopicMap, e: Endpoint, report: bool,
    ghost live: set<Endpoint>, ghost all: set<Endpoint>)
    returns (tm': TopicMap, ghost added: seq<Report>)
    requires events.Valid() && Pictures(tm, live) && Distinct(all) && Apart(live, e)
    requires report ==> live == Family(all, IsService(e))
    modifies events`unregistered, events`delivered, events`reports
    ensures events.Valid() && events.reports == old(events.reports) + added
    ensures Pictures(tm', live - {e})
    ensures ChangeOk(zid, all, Change(false, e, report, [], added))
  {
    var t, ty, k := e.place.topic, e.place.typ, e.place.key;
    added := [];
    if report { BucketsBeside(tm, all, e); }
    if t !in tm || ty !in tm[t] || k !in tm[t][ty] {
      AbsentNeedsNoRemoval(tm, live, e);
      return tm, added;
    }
    RemovePictures(tm, live, e);
    BucketByHash(tm, live, e);
    var b := WithoutByHash(tm[t][ty][k], e);
    var buckets := if b.pubs == {} && b.subs == {} then tm[t][ty] - {k} else tm[t][ty][k := b];
    assert buckets == BucketsWithout(tm[t][ty], e);
    if report {
      OtherSideKept(tm[t][ty], e);
      added := HandleForDel(events, zid, e, buckets);
    }
    var types := if buckets == map[] then tm[t] - {ty} else tm[t][ty := buckets];
    tm' := if types == map[] then tm - {t} else tm[t := types];
    RemainingIs(tm, e, buckets, types);
  }

  lemma RemainingIs(tm: TopicMap, e: Endpoint, buckets: QoSMap, types: TypeMap)
    requires BucketOf(tm, e).Some?
    requires buckets == BucketsWithout(tm[e.place.topic][e.place.typ], e)
    requires types == if buckets == map[] then tm[e.place.topic] - {e.place.typ}
                      else tm[e.place.topic][e.place.typ := buckets]
    ensures Remaining(tm, e) == if types == map[] then tm - {e.place.topic} else tm[e.place.topic := types]
  {
    var b := Without(tm[e.place.topic][e.place.typ][e.place.key], e);
    if b.pubs != {} || b.subs != {} {
      assert e.place.key in buckets;
      assert e.place.typ in types;
    }
  }

  // ----- the removal of all that a node leaves behind

  /** The changes so far explain the reports and one of the two indexes. */
  ghost predicate Tracks(zid: string, cs: seq<Change>, reports: seq<Report>, tm: TopicMap, services: bool) {
    && ChangesOk(zid, cs) && Log(cs) == reports
    && Pictures(tm, Family(Live(cs), services)) && Distinct(Live(cs))
  }

  /** `cs'` goes on from `cs` by departures of live endpoints. */
  ghost predicate OnlyDeparts(cs: seq<Change>, cs': seq<Change>) {
    cs' == cs || (
      && cs' != [] && !cs'[|cs'| - 1].put && cs'[|cs'| - 1].e in Live(cs'[..|cs'| - 1])
      && OnlyDeparts(cs, cs'[..|cs'| - 1]))
  }

  lemma {:induction false} DepartsMore(a: seq<Change>, b: seq<Change>, c: seq<Change>)
    requires OnlyDeparts(a, b) && OnlyDeparts(b, c)
    ensures OnlyDeparts(a, c)
  {
    if c != b {
      DepartsMore(a, b, c[..|c| - 1]);
    }
  }

  /** What a node leaves behind departs while live, which is always in order. */
  lemma {:induction false} DepartsDisciplined(zid: string, cs: seq<Change>, cs': seq<Change>)
    requires OnlyDeparts(cs, cs')
    ensures Orderly(zid, cs) ==> Orderly(zid, cs')
    ensures AllHarmless(zid, cs) ==> AllHarmless(zid, cs')
    ensures Disciplined(zid, cs) ==> Disciplined(zid, cs')
  {
    if cs' != cs {
      DepartsDisciplined(zid, cs, cs'[..|cs'| - 1]);
    }
  }

  /** `cs'` goes on from `cs` by departures of exactly `gone`. */
  ghost predicate Drops(cs: seq<Change>, cs': seq<Change>, gone: set<Endpoint>) {
    && OnlyDeparts(cs, cs')
    && Live(cs') == Live(cs) - gone
    && Announced(cs') == Announced(cs)
  }

  lemma DropsMore(
    a: seq<Change>, b: seq<Change>, c: seq<Change>, gone: set<Endpoint>, more: set<Endpoint>, all: set<Endpoint>)
    requires Drops(a, b, gone) && Drops(b, c, more) && all == gone + more
    ensures Drops(a, c, all)
  {
    DepartsMore(a, b, c);
  }

  lemma DropsNone(cs: seq<Change>)
    ensures Drops(cs, cs, {})
  {
  }

  lemma StillThere(
    cs: seq<Change>, cs': seq<Change>, gone: set<Endpoint>, own: set<Endpoint>, part: set<Endpoint>, services: bool)
    requires Drops(cs, cs', gone) && own <= Family(Live(cs), services) && part <= own - gone
    ensures part <= Family(Live(cs'), services)
  {
  }

  lemma EntityStillThere(
    cs: seq<Change>, cs': seq<Change>, gone: set<Endpoint>, own: set<Endpoint>, e: Endpoint, services: bool)
    requires Drops(cs, cs', gone) && own <= Family(Live(cs), services) && e in own && e !in gone
    ensures e in Live(cs') && IsService(e) == services
  {
  }

  method RemoveEntity(events: EventLedger, zid: string, tm: TopicMap, e: Endpoint, ghost cs: seq<Change>)
    returns (tm': TopicMap, ghost cs': seq<Change>)
    requires events.Valid() && Tracks(zid, cs, events.reports, tm, IsService(e)) && e in Live(cs)
    modifies events`unregistered, events`delivered, events`reports
    ensures events.Valid() && Tracks(zid, cs', events.reports, tm', IsService(e)) && Drops(cs, cs', {e})
  {
    ghost var live := Family(Live(cs), IsService(e));
    ghost var added;
    DistinctApart(Live(cs), e);
    tm', added := UpdateTopicMapForDel(events, zid, tm, e, true, live, Live(cs));
    ghost var c := Change(false, e, true, [], added);
    cs' := cs + [c];
    Snoc(zid, cs, c);
    AnnouncedSnoc(cs, c);
    assert live - {e} == Family(Live(cs'), IsService(e));
  }

  method RemoveOneMore(
    events: EventLedger, zid: string, tm: TopicMap, e: Endpoint, ghost es: set<Endpoint>, ghost done: set<Endpoint>,
    services: bool, ghost cs: seq<Change>, ghost before: seq<Change>)
    returns (tm': TopicMap, ghost cs': seq<Change>)
    requires events.Valid() && Tracks(zid, before, events.reports, tm, services) && Drops(cs, before, done)
    requires es <= Family(Live(cs), services) && e in es && e !in done
    modifies events`unregistered, events`delivered, events`reports
    ensures events.Valid() && Tracks(zid, cs', events.reports, tm', services) && Drops(cs, cs', done + {e})
  {
    EntityStillThere(cs, before, done, es, e, services);
    tm', cs' := RemoveEntity(events, zid, tm, e, before);
    DropsMore(cs, before, cs', done, {e}, done + {e});
  }

  /** The innermost loops of `remove_topic_map_from_cache`. */
  method RemoveEntities(
    events: EventLedger, zid: string, tm: TopicMap, es: set<Endpoint>, services: bool, ghost cs: seq<Change>)
    returns (tm': TopicMap, ghost cs': seq<Change>)
    requires events.Valid() && Tracks(zid, cs, events.reports, tm, services) && es <= Family(Live(cs), services)
    modifies events`unregistered, events`delivered, events`reports
    ensures events.Valid() && Tracks(zid, cs', events.reports, tm', services) && Drops(cs, cs', es)
  {
    tm', cs' := tm, cs;
    var todo := es;
    ghost var done: set<Endpoint> := {};
    DropsNone(cs);
    while todo != {}
      invariant done <= es && todo == es - done && events.Valid()
      invariant Tracks(zid, cs', events.reports, tm', services) && Drops(cs, cs', done)
      decreases todo
    {
      var e :| e in todo;
      tm', cs' := RemoveOneMore(events, zid, tm', e, es, done, services, cs, cs');
      todo, done := todo - {e}, done + {e};
    }
    assert done == es;
  }

  ghost function Ends(buckets: QoSMap, keys: set<string>): set<Endpoint> {
    PeersOf(buckets, true, keys) + PeersOf(buckets, false, keys)
  }

  lemma EndsGrow(buckets: QoSMap, keys: set<string>, k: string)
    requires k in buckets
    ensures Ends(buckets, keys + {k}) == Ends(buckets, keys) + buckets[k].pubs + buckets[k].subs
  {
    assert PeersOf(buckets, true, keys + {k}) == PeersOf(buckets, true, keys) + Side(buckets[k], true);
    assert PeersOf(buckets, false, keys + {k}) == PeersOf(buckets, false, keys) + Side(buckets[k], false);
  }

  method RemoveBuckets(
    events: EventLedger, zid: string, tm: TopicMap, buckets: QoSMap, services: bool, ghost cs: seq<Change>)
    returns (tm': TopicMap, ghost cs': seq<Change>)
    requires events.Valid() && Tracks(zid, cs, events.reports, tm, services)
    requires Ends(buckets, buckets.Keys) <= Family(Live(cs), services) && BucketsOk(buckets)
    modifies events`unregistered, events`delivered, events`reports
    ensures events.Valid() && Tracks(zid, cs', events.reports, tm', services)
    ensures Drops(cs, cs', Ends(buckets, buckets.Keys))
  {
    tm', cs' := tm, cs;
    var todo := buckets.Keys;
    ghost var done: set<string> := {};
    while todo != {}
      invariant todo <= buckets.Keys && done == buckets.Keys - todo && events.Valid()
      invariant Tracks(zid, cs', events.reports, tm', services) && Drops(cs, cs', Ends(buckets, done))
      decreases todo
    {
      var k :| k in todo;
      ghost var before := cs';
      BucketStillThere(buckets, done, k);
      EndsGrow(buckets, done, k);
      tm', cs' := RemoveEntities(events, zid, tm', buckets[k].pubs, services, cs');
      ghost var middle := cs';
      tm', cs' := RemoveEntities(events, zid, tm', buckets[k].subs, services, cs');
      DropsMore(cs, before, middle, Ends(buckets, done), buckets[k].pubs, Ends(buckets, done) + buckets[k].pubs);
      DropsMore(cs, middle, cs', Ends(buckets, done) + buckets[k].pubs, buckets[k].subs, Ends(buckets, done + {k}));
      todo, done := todo - {k}, done + {k};
    }
    assert done == buckets.Keys;
  }

  lemma BucketStillThere(buckets: QoSMap, done: set<string>, k: string)
    requires BucketsOk(buckets) && k in buckets && k !in done
    ensures buckets[k].pubs + buckets[k].subs <= Ends(buckets, buckets.Keys) - Ends(buckets, done)
    ensures buckets[k].pubs !! buckets[k].subs
  {
    forall x | x in buckets[k].pubs ensures x in Ends(buckets, buckets.Keys) { assert x in Side(buckets[k], true); }
    forall x | x in buckets[k].subs ensures x in Ends(buckets, buckets.Keys) { assert x in Side(buckets[k], false); }
  }

  ghost function EndsOfTypes(types: TypeMap, names: set<string>): set<Endpoint> {
    set ty, x | ty in names && ty in types && x in Ends(types[ty], types[ty].Keys) :: x
  }

  lemma EndsOfTypesGrow(types: TypeMap, names: set<string>, ty: string)
    requires TypesOk(types) && ty in types && ty !in names
    ensures EndsOfTypes(types, names + {ty}) == EndsOfTypes(types, names) + Ends(types[ty], types[ty].Keys)
    ensures Ends(types[ty], types[ty].Keys) <= EndsOfTypes(types, types.Keys) - EndsOfTypes(types, names)
  {
    forall n, x | n in types && x in Ends(types[n], types[n].Keys) ensures x.place.typ == n {
      assert x in Peers(types[n], true) || x in Peers(types[n], false);
    }
  }

  method RemoveTypes(
    events: EventLedger, zid: string, tm: TopicMap, types: TypeMap, services: bool, ghost cs: seq<Change>)
    returns (tm': TopicMap, ghost cs': seq<Change>)
    requires events.Valid() && Tracks(zid, cs, events.reports, tm, services)
    requires EndsOfTypes(types, types.Keys) <= Family(Live(cs), services) && TypesOk(types)
    modifies events`unregistered, events`delivered, events`reports
    ensures events.Valid() && Tracks(zid, cs', events.reports, tm', services)
    ensures Drops(cs, cs', EndsOfTypes(types, types.Keys))
  {
    tm', cs' := tm, cs;
    var todo := types.Keys;
    ghost var done: set<string> := {};
    while todo != {}
      invariant todo <= types.Keys && done == types.Keys - todo && events.Valid()
      invariant Tracks(zid, cs', events.reports, tm', services) && Drops(cs, cs', EndsOfTypes(types, done))
      decreases todo
    {
      var ty :| ty in todo;
      ghost var before := cs';
      EndsOfTypesGrow(types, done, ty);
      tm', cs' := RemoveBuckets(events, zid, tm', types[ty], services, cs');
      DropsMore(cs, before, cs', EndsOfTypes(types, done), Ends(types[ty], types[ty].Keys),
                EndsOfTypes(types, done + {ty}));
      todo, done := todo - {ty}, done + {ty};
    }
    assert done == types.Keys;
  }

  ghost function OfTopics(own: set<Endpoint>, names: set<string>): set<Endpoint> {
    set x | x in own && x.place.topic in names
  }

  lemma TopicEnds(tm: TopicMap, own: set<Endpoint>, topic: string)
    requires Pictures(tm, own) && topic in tm
    ensures TypesOk(tm[topic]) && EndsOfTypes(tm[topic], tm[topic].Keys) == OfTopics(own, {topic})
  {
    TopicPicture(tm, own, true, topic);
    TopicPicture(tm, own, false, topic);
    var types := tm[topic];
    forall x | x in EndsOfTypes(types, types.Keys) ensures x in OfTopics(own, {topic}) {
      var ty :| ty in types && x in Ends(types[ty], types[ty].Keys);
      assert x in Peers(types[ty], true) || x in Peers(types[ty], false);
      assert x in PeersOfTypes(types, true, types.Keys) || x in PeersOfTypes(types, false, types.Keys);
    }
    forall x | x in OfTopics(own, {topic}) ensures x in EndsOfTypes(types, types.Keys) {
      assert x in OfRole(own, IsPub(x), topic);
      assert x in PeersOfTypes(types, IsPub(x), types.Keys);
      var ty :| ty in types && x in Peers(types[ty], IsPub(x));
      assert x in Ends(types[ty], types[ty].Keys);
    }
  }

  lemma AllTopics(tm: TopicMap, own: set<Endpoint>)
    requires Pictures(tm, own)
    ensures OfTopics(own, tm.Keys) == own
  {
    forall x | x in own ensures x.place.topic in tm { assert Has(tm, x); }
  }

  /** The endpoints under each topic are those of `own` there. */
  ghost predicate Sorts(tm: TopicMap, own: set<Endpoint>) {
    forall t | t in tm :: TypesOk(tm[t]) && EndsOfTypes(tm[t], tm[t].Keys) == OfTopics(own, {t})
  }

  method RemoveTopics(
    events: EventLedger, zid: string, toRemove: TopicMap, from: TopicMap, services: bool,
    ghost own: set<Endpoint>, ghost cs: seq<Change>)
    returns (tm': TopicMap, ghost cs': seq<Change>)
    requires events.Valid() && Tracks(zid, cs, events.reports, from, services)
    requires Sorts(toRemove, own) && own <= Family(Live(cs), services)
    modifies events`unregistered, events`delivered, events`reports
    ensures events.Valid() && Tracks(zid, cs', events.reports, tm', services)
    ensures Drops(cs, cs', OfTopics(own, toRemove.Keys))
  {
    tm', cs' := from, cs;
    var todo := toRemove.Keys;
    ghost var done: set<string> := {};
    assert OfTopics(own, done) == {};
    DropsNone(cs);
    while todo != {}
      invariant todo <= toRemove.Keys && done == toRemove.Keys - todo && events.Valid()
      invariant Tracks(zid, cs', events.reports, tm', services) && Drops(cs, cs', OfTopics(own, done))
      decreases todo
    {
      var t :| t in todo;
      ghost var before := cs';
      StillThere(cs, cs', OfTopics(own, done), own, OfTopics(own, {t}), services);
      tm', cs' := RemoveTypes(events, zid, tm', toRemove[t], services, cs');
      DropsMore(cs, before, cs', OfTopics(own, done), OfTopics(own, {t}), OfTopics(own, done + {t}));
      todo, done := todo - {t}, done + {t};
    }
    assert done == toRemove.Keys;
  }

  /** `remove_topic_map_from_cache`: every endpoint of the given map leaves the cache's index, with its reports. */
  method RemoveTopicMapFromCache(
    events: EventLedger, zid: string, toRemove: TopicMap, from: TopicMap, services: bool,
    ghost own: set<Endpoint>, ghost cs: seq<Change>)
    returns (tm': TopicMap, ghost cs': seq<Change>)
    requires events.Valid() && Tracks(zid, cs, events.reports, from, services)
    requires Pictures(toRemove, own) && own <= Family(Live(cs), services)
    modifies events`unregistered, events`delivered, events`reports
    ensures events.Valid() && Tracks(zid, cs', events.reports, tm', services) && Drops(cs, cs', own)
  {
    PictureSorts(toRemove, own);
    tm', cs' := RemoveTopics(events, zid, toRemove, from, services, own, cs);
    AllTopics(toRemove, own);
  }

  lemma PictureSorts(tm: TopicMap, own: set<Endpoint>)
    requires Pictures(tm, own)
    ensures Sorts(tm, own)
  {
    forall t | t in tm ensures TypesOk(tm[t]) && EndsOfTypes(tm[t], tm[t].Keys) == OfTopics(own, {t}) {
      TopicEnds(tm, own, t);
    }
  }

  // ----- the two indexes of the graph

  lemma FamilyAfter(live: set<Endpoint>, c: Change)
    ensures After(Family(live, IsService(c.e)), c) == Family(After(live, c), IsService(c.e))
    ensures Family(After(live, c), !IsService(c.e)) == Family(live, !IsService(c.e))
  {
  }

  lemma TracksSnoc(zid: string, cs: seq<Change>, reports: seq<Report>, c: Change, tm': TopicMap)
    requires ChangesOk(zid, cs) && Log(cs) == reports && ChangeOk(zid, Live(cs), c)
    requires if IsService(c.e) then c.put ==> !c.reported else c.reported
    requires Distinct(After(Live(cs), c)) && Pictures(tm', After(Family(Live(cs), IsService(c.e)), c))
    ensures Tracks(zid, cs + [c], reports + c.added, tm', IsService(c.e))
  {
    Snoc(zid, cs, c);
    FamilyAfter(Live(cs), c);
  }

  lemma KeysTellFewer(es: set<Endpoint>, more: set<Endpoint>)
    requires KeysTell(more) && es <= more
    ensures KeysTell(es)
  {
  }

  /** The update of the index in which `e` is filed: topics report, services do not. */
  method IndexPut(events: EventLedger, zid: string, tm: TopicMap, e: Endpoint, ghost cs: seq<Change>)
    returns (tm': TopicMap, ghost cs': seq<Change>)
    requires events.Valid() && Tracks(zid, cs, events.reports, tm, IsService(e))
    requires KeysTell(Live(cs) + {e}) && Distinct(Live(cs) + {e})
    modifies events`unregistered, events`delivered, events`reports
    ensures events.Valid() && Tracks(zid, cs', events.reports, tm', IsService(e)) && Recorded(cs, cs', true, e)
  {
    ghost var live := Family(Live(cs), IsService(e));
    ghost var order, added;
    DistinctApart(Live(cs) + {e}, e);
    KeysTellFewer(live + {e}, Live(cs) + {e});
    tm', order, added := UpdateTopicMapForPut(events, zid, tm, e, !IsService(e), live, Live(cs));
    ghost var c := Change(true, e, !IsService(e), order, added);
    TracksSnoc(zid, cs, old(events.reports), c, tm');
    cs' := cs + [c];
  }

  method IndexDel(events: EventLedger, zid: string, tm: TopicMap, e: Endpoint, ghost cs: seq<Change>)
    returns (tm': TopicMap, ghost cs': seq<Change>)
    requires events.Valid() && Tracks(zid, cs, events.reports, tm, IsService(e)) && Apart(Live(cs), e)
    modifies events`unregistered, events`delivered, events`reports
    ensures events.Valid() && Tracks(zid, cs', events.reports, tm', IsService(e)) && Recorded(cs, cs', false, e)
  {
    ghost var live := Family(Live(cs), IsService(e));
    ghost var added;
    tm', added := UpdateTopicMapForDel(events, zid, tm, e, !IsService(e), live, Live(cs));
    ghost var c := Change(false, e, !IsService(e), [], added);
    TracksSnoc(zid, cs, old(events.reports), c, tm');
    cs' := cs + [c];
  }

  /** The other index keeps telling the truth. */
  lemma OtherIndexKept(
    zid: string, cs: seq<Change>, reports: seq<Report>, cs': seq<Change>, reports': seq<Report>, tm: TopicMap,
    services: bool)
    requires Tracks(zid, cs, reports, tm, services)
    requires ChangesOk(zid, cs') && Log(cs') == reports' && Distinct(Live(cs'))
    requires Family(Live(cs'), services) == Family(Live(cs), services)
    ensures Tracks(zid, cs', reports', tm, services)
  {
  }
}

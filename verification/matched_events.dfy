/** The matched events a graph cache reports when a publisher or a subscription appears or disappears. */
module MatchedEvents {
  import opened CTypes
  import opened TopicIndex
  import opened QosEvents
  import L = Liveliness

  predicate Local(zid: string, e: Endpoint) {
    e.entity.zid == zid
  }

  function OwnEvent(e: Endpoint): int {
    if IsPub(e) then PUBLICATION_MATCHED else SUBSCRIPTION_MATCHED
  }

  function PeerEvent(e: Endpoint): int {
    if IsPub(e) then SUBSCRIPTION_MATCHED else PUBLICATION_MATCHED
  }

  /** A set too large for `int32_t` is taken for empty. */
  function Size32(s: set<Endpoint>): nat {
    if |s| > INT32_MAX then 0 else |s|
  }

  ghost function PeerCount(peers: set<Endpoint>, key: string): nat {
    Size32(set x | x in peers && x.place.key == key)
  }

  /** The peers met in the buckets of `order`. */
  ghost function Met(peers: set<Endpoint>, order: seq<string>): nat {
    if order == [] then 0 else Met(peers, order[..|order| - 1]) + PeerCount(peers, order[|order| - 1])
  }

  /** The totals met after each bucket of `order`, added up. */
  ghost function RunningTotals(peers: set<Endpoint>, order: seq<string>): nat {
    if order == [] then 0 else RunningTotals(peers, order[..|order| - 1]) + Met(peers, order)
  }

  ghost predicate NoRepeats<K>(order: seq<K>) {
    order == [] || (order[|order| - 1] !in order[..|order| - 1] && NoRepeats(order[..|order| - 1]))
  }

  lemma {:induction false} NoRepeatsAt<K>(order: seq<K>, i: nat)
    requires NoRepeats(order) && i < |order|
    ensures order[i] !in order[..i]
  {
    if i < |order| - 1 {
      var init := order[..|order| - 1];
      NoRepeatsAt(init, i);
      assert init[..i] == order[..i];
    }
  }

  ghost predicate Enumerates<K(!new)>(order: seq<K>, keys: set<K>) {
    (forall k :: k in order <==> k in keys) && NoRepeats(order)
  }

  /** The order in which an unordered map is traversed: any. */
  method IterationOrder<K(!new)>(keys: set<K>) returns (order: seq<K>)
    ensures Enumerates(order, keys)
  {
    order := [];
    var todo := keys;
    while todo != {}
      invariant todo <= keys && Enumerates(order, keys - todo)
      decreases todo
    {
      var k :| k in todo;
      assert (order + [k])[..|order|] == order;
      order := order + [k];
      todo := todo - {k};
    }
  }

  /** The peers in the buckets visited so far. */
  ghost function PeersIn(buckets: QoSMap, pub: bool, order: seq<string>): set<Endpoint> {
    set k, x | k in order && k in buckets && x in Side(buckets[k], pub) :: x
  }

  predicate Clash(a: Endpoint, b: Endpoint) {
    a.gid == b.gid && a != b
  }

  /** No other endpoint has the hash of `e`. */
  ghost predicate Apart(es: set<Endpoint>, e: Endpoint) {
    forall x | x in es && x.gid == e.gid :: x == e
  }

  /** Distinct endpoints have distinct hashes. */
  ghost predicate Distinct(es: set<Endpoint>) {
    forall a, b {:trigger Clash(a, b)} | a in es && b in es :: !Clash(a, b)
  }

  lemma DistinctApart(es: set<Endpoint>, e: Endpoint)
    requires Distinct(es) && e in es
    ensures Apart(es, e)
  {
    forall x | x in es && x.gid == e.gid ensures x == e {
      assert !Clash(x, e);
    }
  }

  /** The peers told of an arrival (`put`) or a departure of `e`, by hash: key expressions are compared on
      arrivals only. */
  ghost function Told(zid: string, e: Endpoint, peers: set<Endpoint>, put: bool): set<int> {
    set x | x in peers && Local(zid, x) && (put ==> e.keyexpr == x.keyexpr) :: x.gid
  }

  /** What a visit reports: `change` once to each peer told, and `own` to `e` itself when it is local. */
  ghost function Due(zid: string, e: Endpoint, told: set<int>, put: bool, own: int, g: int, v: int): int {
    (if g in told && v == PeerEvent(e) then (if put then 1 else -1) else 0) +
    if g == e.gid && v == OwnEvent(e) && Local(zid, e) then own else 0
  }

  ghost predicate Reports(zid: string, e: Endpoint, told: set<int>, put: bool, own: int, log: seq<Report>) {
    forall g, v :: Total(log, g, v) == Due(zid, e, told, put, own, g, v)
  }

  lemma ReportsJoin(
    zid: string, e: Endpoint, put: bool, a: set<int>, m: int, log: seq<Report>, b: set<int>, n: int, more: seq<Report>)
    requires Reports(zid, e, a, put, m, log) && Reports(zid, e, b, put, n, more) && a !! b
    ensures Reports(zid, e, a + b, put, m + n, log + more)
  {
    forall g, v ensures Total(log + more, g, v) == Due(zid, e, a + b, put, m + n, g, v) {
      TotalOfAppend(log, more, g, v);
    }
  }

  lemma TotalOfOne(r: Report, g: int, v: int)
    ensures Total([r], g, v) == if g == r.id && v == r.event then r.change else 0
  {
    assert [r][..0] == [];
  }

  lemma ReportOne(zid: string, e: Endpoint, put: bool, g: int)
    ensures Reports(zid, e, {g}, put, 0, [Report(g, PeerEvent(e), if put then 1 else -1)])
  {
    var r := Report(g, PeerEvent(e), if put then 1 else -1);
    forall x, v ensures Total([r], x, v) == Due(zid, e, {g}, put, 0, x, v) { TotalOfOne(r, x, v); }
  }

  lemma ReportOwn(zid: string, e: Endpoint, put: bool, own: int)
    requires Local(zid, e)
    ensures Reports(zid, e, {}, put, own, [Report(e.gid, OwnEvent(e), own)])
  {
    var r := Report(e.gid, OwnEvent(e), own);
    forall x, v ensures Total([r], x, v) == Due(zid, e, {}, put, own, x, v) { TotalOfOne(r, x, v); }
  }

  /** Whatever is to be told, there is a log that tells it. */
  lemma {:induction false} SomeLog(zid: string, e: Endpoint, told: set<int>, put: bool, own: int)
    returns (log: seq<Report>)
    ensures Reports(zid, e, told, put, own, log)
    decreases told
  {
    if g :| g in told {
      var rest := SomeLog(zid, e, told - {g}, put, own);
      ReportOne(zid, e, put, g);
      log := rest + [Report(g, PeerEvent(e), if put then 1 else -1)];
      ReportsJoin(zid, e, put, told - {g}, own, rest, {g}, 0, [Report(g, PeerEvent(e), if put then 1 else -1)]);
      assert told - {g} + {g} == told;
    } else if Local(zid, e) {
      log := [Report(e.gid, OwnEvent(e), own)];
      ReportOwn(zid, e, put, own);
    } else {
      log := [];
    }
  }

  /** What a publisher's arrival or departure tells, by event id: its local subscriptions of a change of the
      publications they match, nobody else anything but itself, if local, of `own` subscriptions it matches. */
  ghost predicate PublisherTells(
    zid: string, e: Endpoint, peers: set<Endpoint>, put: bool, own: int, log: seq<Report>)
  {
    && (forall x | x in peers && x.gid != e.gid ::
          && Total(log, x.gid, SUBSCRIPTION_MATCHED) ==
             (if x.entity.zid == zid && (put ==> x.keyexpr == e.keyexpr) then (if put then 1 else -1) else 0)
          && Total(log, x.gid, PUBLICATION_MATCHED) == 0)
    && ((forall x | x in peers :: x.gid != e.gid) ==>
          && Total(log, e.gid, PUBLICATION_MATCHED) == (if e.entity.zid == zid then own else 0)
          && Total(log, e.gid, SUBSCRIPTION_MATCHED) == 0)
  }

  /** The same for a subscription, with the event ids exchanged. */
  ghost predicate SubscriptionTells(
    zid: string, e: Endpoint, peers: set<Endpoint>, put: bool, own: int, log: seq<Report>)
  {
    && (forall x | x in peers && x.gid != e.gid ::
          && Total(log, x.gid, PUBLICATION_MATCHED) ==
             (if x.entity.zid == zid && (put ==> x.keyexpr == e.keyexpr) then (if put then 1 else -1) else 0)
          && Total(log, x.gid, SUBSCRIPTION_MATCHED) == 0)
    && ((forall x | x in peers :: x.gid != e.gid) ==>
          && Total(log, e.gid, SUBSCRIPTION_MATCHED) == (if e.entity.zid == zid then own else 0)
          && Total(log, e.gid, PUBLICATION_MATCHED) == 0)
  }

  lemma TellsByKind(zid: string, e: Endpoint, peers: set<Endpoint>, put: bool, own: int, log: seq<Report>)
    requires Distinct(peers) && Reports(zid, e, Told(zid, e, peers, put), put, own, log)
    ensures e.entity.kind == L.Publisher ==> PublisherTells(zid, e, peers, put, own, log)
    ensures e.entity.kind == L.Subscription ==> SubscriptionTells(zid, e, peers, put, own, log)
  {
    var told := Told(zid, e, peers, put);
    forall x | x in peers ensures x.gid in told <==> Local(zid, x) && (put ==> e.keyexpr == x.keyexpr) {
      if x.gid in told {
        var y :| y in peers && Local(zid, y) && (put ==> e.keyexpr == y.keyexpr) && y.gid == x.gid;
        assert !Clash(x, y);
      }
    }
    assert (forall x | x in peers :: x.gid != e.gid) ==> e.gid !in told;
  }

  /** No callback is told of a change of nothing. */
  ghost predicate NoneIdle(log: seq<Report>) {
    forall r | r in log :: r.change != 0
  }

  lemma NoneIdleJoin(a: seq<Report>, b: seq<Report>)
    requires NoneIdle(a) && NoneIdle(b)
    ensures NoneIdle(a + b)
  {
  }

  /** One visit of a bucket: a change for each local peer. */
  method NotifyPeers(events: EventLedger, zid: string, e: Endpoint, peers: set<Endpoint>, put: bool)
    returns (ghost added: seq<Report>)
    requires events.Valid() && Distinct(peers)
    modifies events`unregistered, events`delivered, events`reports
    ensures events.Valid() && events.reports == old(events.reports) + added
    ensures Reports(zid, e, Told(zid, e, peers, put), put, 0, added) && NoneIdle(added)
  {
    var change := if put then 1 else -1;
    var todo := peers;
    ghost var done: set<Endpoint> := {};
    added := [];
    while todo != {}
      invariant events.Valid() && events.reports == old(events.reports) + added
      invariant todo !! done && todo + done == peers
      invariant Reports(zid, e, Told(zid, e, done, put), put, 0, added) && NoneIdle(added)
      decreases todo
    {
      var x :| x in todo;
      ToldStep(zid, e, peers, done, x, put);
      if (put ==> e.keyexpr == x.keyexpr) && Local(zid, x) {
        events.UpdateCounters(x.gid, PeerEvent(e), change);
        ReportOne(zid, e, put, x.gid);
        ReportsJoin(zid, e, put, Told(zid, e, done, put), 0, added, {x.gid}, 0, [Report(x.gid, PeerEvent(e), change)]);
        added := added + [Report(x.gid, PeerEvent(e), change)];
      }
      todo, done := todo - {x}, done + {x};
    }
    assert done == peers;
  }

  lemma ToldStep(zid: string, e: Endpoint, peers: set<Endpoint>, done: set<Endpoint>, x: Endpoint, put: bool)
    requires Distinct(peers) && done <= peers && x in peers - done
    ensures x.gid !in Told(zid, e, done, put)
    ensures Told(zid, e, done + {x}, put) ==
      Told(zid, e, done, put) + if Local(zid, x) && (put ==> e.keyexpr == x.keyexpr) then {x.gid} else {}
  {
    forall y | y in done ensures y.gid != x.gid { assert !Clash(y, x); }
  }

  /** One visit of a bucket on an arrival: the peers, then the new entity itself if it has matches so far. */
  method VisitForPut(events: EventLedger, zid: string, e: Endpoint, peers: set<Endpoint>, count: nat)
    returns (ghost added: seq<Report>)
    requires events.Valid() && Distinct(peers)
    modifies events`unregistered, events`delivered, events`reports
    ensures events.Valid() && events.reports == old(events.reports) + added
    ensures Reports(zid, e, Told(zid, e, peers, true), true, count, added) && NoneIdle(added)
  {
    added := NotifyPeers(events, zid, e, peers, true);
    if Local(zid, e) && count > 0 {
      events.UpdateCounters(e.gid, OwnEvent(e), count);
      ReportOwn(zid, e, true, count);
      ReportsJoin(zid, e, true, Told(zid, e, peers, true), 0, added, {}, count, [Report(e.gid, OwnEvent(e), count)]);
      assert Told(zid, e, peers, true) + {} == Told(zid, e, peers, true);
      added := added + [Report(e.gid, OwnEvent(e), count)];
    }
  }

  /** What the visits of the first `i` buckets report. */
  ghost predicate ReportsUpTo(
    zid: string, e: Endpoint, buckets: QoSMap, order: seq<string>, i: nat, put: bool, own: int, log: seq<Report>)
    requires i <= |order|
  {
    Reports(zid, e, Told(zid, e, PeersIn(buckets, !IsPub(e), order[..i]), put), put, own, log)
  }

  lemma ReportsStep(
    zid: string, e: Endpoint, buckets: QoSMap, order: seq<string>, i: nat, put: bool,
    m: int, log: seq<Report>, n: int, more: seq<Report>)
    requires BucketsOk(buckets) && Enumerates(order, buckets.Keys) && i < |order|
    requires Distinct(Peers(buckets, !IsPub(e)))
    requires ReportsUpTo(zid, e, buckets, order, i, put, m, log)
    requires Reports(zid, e, Told(zid, e, Side(buckets[order[i]], !IsPub(e)), put), put, n, more)
    ensures ReportsUpTo(zid, e, buckets, order, i + 1, put, m + n, log + more)
  {
    PeersSplit(zid, e, buckets, order, i, put);
    ReportsJoin(zid, e, put, Told(zid, e, PeersIn(buckets, !IsPub(e), order[..i]), put), m, log,
                Told(zid, e, Side(buckets[order[i]], !IsPub(e)), put), n, more);
  }

  /** The loop over the QoS buckets on an arrival, in a given order. */
  method VisitAllForPut(events: EventLedger, zid: string, e: Endpoint, buckets: QoSMap, visits: seq<string>)
    returns (ghost added: seq<Report>)
    requires events.Valid() && BucketsOk(buckets) && Distinct(Peers(buckets, !IsPub(e)))
    requires Enumerates(visits, buckets.Keys)
    modifies events`unregistered, events`delivered, events`reports
    ensures events.Valid() && events.reports == old(events.reports) + added
    ensures ReportsUpTo(zid, e, buckets, visits, |visits|, true,
                        RunningTotals(Peers(buckets, !IsPub(e)), visits[..|visits|]), added)
    ensures NoneIdle(added)
  {
    added := [];
    var count := 0;
    ghost var own := 0;
    for i := 0 to |visits|
      invariant events.Valid() && events.reports == old(events.reports) + added
      invariant count == Met(Peers(buckets, !IsPub(e)), visits[..i])
      invariant own == RunningTotals(Peers(buckets, !IsPub(e)), visits[..i])
      invariant ReportsUpTo(zid, e, buckets, visits, i, true, own, added) && NoneIdle(added)
    {
      SideDistinct(buckets, !IsPub(e), visits[i]);
      TotalsStep(buckets, !IsPub(e), visits, i);
      count := count + Size32(Side(buckets[visits[i]], !IsPub(e)));
      ghost var more := VisitForPut(events, zid, e, Side(buckets[visits[i]], !IsPub(e)), count);
      ReportsStep(zid, e, buckets, visits, i, true, own, added, count, more);
      NoneIdleJoin(added, more);
      added, own := added + more, own + count;
    }
  }

  /** `handle_matched_events_for_put`. The new entity's own count is reported inside the loop over the QoS
      buckets, so its balance grows by the running totals along the order in which they are visited. */
  method HandleForPut(events: EventLedger, zid: string, e: Endpoint, buckets: QoSMap)
    returns (ghost order: seq<string>, ghost added: seq<Report>)
    requires events.Valid() && BucketsOk(buckets) && Distinct(Peers(buckets, !IsPub(e)))
    modifies events`unregistered, events`delivered, events`reports
    ensures events.Valid() && events.reports == old(events.reports) + added
    ensures Enumerates(order, buckets.Keys) && NoneIdle(added)
    ensures Reports(zid, e, Told(zid, e, Peers(buckets, !IsPub(e)), true), true,
                    RunningTotals(Peers(buckets, !IsPub(e)), order), added)
    ensures var own := RunningTotals(Peers(buckets, !IsPub(e)), order);
            && (e.entity.kind == L.Publisher ==> PublisherTells(zid, e, Peers(buckets, false), true, own, added))
            && (e.entity.kind == L.Subscription ==> SubscriptionTells(zid, e, Peers(buckets, true), true, own, added))
  {
    var visits := IterationOrder(buckets.Keys);
    order := visits;
    added := VisitAllForPut(events, zid, e, buckets, visits);
    assert order[..|order|] == order;
    AllVisited(buckets, !IsPub(e), order);
    TellsByKind(zid, e, Peers(buckets, !IsPub(e)), true, RunningTotals(Peers(buckets, !IsPub(e)), order), added);
  }

  lemma TotalsStep(buckets: QoSMap, pub: bool, order: seq<string>, i: nat)
    requires BucketsOk(buckets) && i < |order| && order[i] in buckets
    ensures var peers := Peers(buckets, pub);
            && Met(peers, order[..i + 1]) == Met(peers, order[..i]) + Size32(Side(buckets[order[i]], pub))
            && RunningTotals(peers, order[..i + 1]) == RunningTotals(peers, order[..i]) + Met(peers, order[..i + 1])
  {
    assert order[..i + 1][..i] == order[..i];
    assert (set x | x in Peers(buckets, pub) && x.place.key == order[i]) == Side(buckets[order[i]], pub);
  }

  lemma AllVisited(buckets: QoSMap, pub: bool, order: seq<string>)
    requires Enumerates(order, buckets.Keys)
    ensures PeersIn(buckets, pub, order[..|order|]) == Peers(buckets, pub)
  {
    assert order[..|order|] == order;
  }

  lemma PeersSplit(zid: string, e: Endpoint, buckets: QoSMap, order: seq<string>, i: nat, put: bool)
    requires BucketsOk(buckets) && Enumerates(order, buckets.Keys) && i < |order|
    requires Distinct(Peers(buckets, !IsPub(e)))
    ensures var side := Side(buckets[order[i]], !IsPub(e));
            var met := PeersIn(buckets, !IsPub(e), order[..i]);
            && Distinct(side)
            && PeersIn(buckets, !IsPub(e), order[..i + 1]) == met + side
            && Told(zid, e, met + side, put) == Told(zid, e, met, put) + Told(zid, e, side, put)
            && Told(zid, e, met, put) !! Told(zid, e, side, put)
  {
    var side := Side(buckets[order[i]], !IsPub(e));
    var met := PeersIn(buckets, !IsPub(e), order[..i]);
    assert order[..i + 1] == order[..i] + [order[i]];
    NoRepeatsAt(order, i);
    assert side <= Peers(buckets, !IsPub(e)) && met <= Peers(buckets, !IsPub(e));
    forall x | x in met ensures x !in side {
      var j :| 0 <= j < i && order[j] in buckets && x in Side(buckets[order[j]], !IsPub(e));
      assert x.place.key == order[j];
    }
    forall x, y | x in met && y in side ensures x.gid != y.gid { assert !Clash(x, y); }
  }

  lemma SideDistinct(buckets: QoSMap, pub: bool, k: string)
    requires k in buckets && Distinct(Peers(buckets, pub))
    ensures Distinct(Side(buckets[k], pub))
  {
    assert Side(buckets[k], pub) <= Peers(buckets, pub);
  }

  /** `handle_matched_events_for_del`: no key expression is compared here. */
  method HandleForDel(events: EventLedger, zid: string, e: Endpoint, buckets: QoSMap)
    returns (ghost added: seq<Report>)
    requires events.Valid() && BucketsOk(buckets) && Distinct(Peers(buckets, !IsPub(e)))
    modifies events`unregistered, events`delivered, events`reports
    ensures events.Valid() && events.reports == old(events.reports) + added
    ensures Reports(zid, e, Told(zid, e, Peers(buckets, !IsPub(e)), false), false, 0, added) && NoneIdle(added)
    ensures e.entity.kind == L.Publisher ==> PublisherTells(zid, e, Peers(buckets, false), false, 0, added)
    ensures e.entity.kind == L.Subscription ==> SubscriptionTells(zid, e, Peers(buckets, true), false, 0, added)
  {
    var visits := IterationOrder(buckets.Keys);
    added := [];
    for i := 0 to |visits|
      invariant events.Valid() && events.reports == old(events.reports) + added
      invariant ReportsUpTo(zid, e, buckets, visits, i, false, 0, added) && NoneIdle(added)
    {
      SideDistinct(buckets, !IsPub(e), visits[i]);
      ghost var more := NotifyPeers(events, zid, e, Side(buckets[visits[i]], !IsPub(e)), false);
      ReportsStep(zid, e, buckets, visits, i, false, 0, added, 0, more);
      NoneIdleJoin(added, more);
      added := added + more;
    }
    AllVisited(buckets, !IsPub(e), visits);
    TellsByKind(zid, e, Peers(buckets, !IsPub(e)), false, 0, added);
  }

  // ----- the running totals

  lemma {:induction false} MetZeroIff(peers: set<Endpoint>, order: seq<string>)
    ensures Met(peers, order) == 0 <==> forall i | 0 <= i < |order| :: PeerCount(peers, order[i]) == 0
  {
    if order != [] {
      var init := order[..|order| - 1];
      MetZeroIff(peers, init);
      assert forall i | 0 <= i < |init| :: order[i] == init[i];
    }
  }

  /** The report of a new entity is the number of peers it met exactly when every bucket visited before the last
      one holds none; otherwise it is too large. */
  lemma {:induction false} OwnReportExactIff(peers: set<Endpoint>, order: seq<string>)
    ensures RunningTotals(peers, order) >= Met(peers, order)
    ensures RunningTotals(peers, order) == Met(peers, order) <==>
            forall i | 0 <= i < |order| - 1 :: PeerCount(peers, order[i]) == 0
  {
    if order != [] {
      var init := order[..|order| - 1];
      OwnReportExactIff(peers, init);
      MetZeroIff(peers, init);
      assert forall i | 0 <= i < |init| :: order[i] == init[i];
    }
  }

  /** A bucket too large for `int32_t` is not counted at all: alone, it makes the new entity's report zero. */
  lemma OversizedBucket(peers: set<Endpoint>, key: string)
    requires |peers| > INT32_MAX && forall x | x in peers :: x.place.key == key
    ensures RunningTotals(peers, [key]) == 0
  {
    assert (set x | x in peers && x.place.key == key) == peers;
    assert [key][..0] == [] && [key][0] == key;
    assert Met(peers, [key]) == Met(peers, []) + PeerCount(peers, key);
    assert RunningTotals(peers, [key]) == RunningTotals(peers, []) + Met(peers, [key]);
  }

  /** Two buckets with one peer each, in either order: the new entity is told of three matches. */
  lemma TwoBucketsOvercount(peers: set<Endpoint>, order: seq<string>)
    requires |order| == 2 && PeerCount(peers, order[0]) == PeerCount(peers, order[1]) == 1
    ensures Met(peers, order) == 2 && RunningTotals(peers, order) == 3
  {
    var init := order[..1];
    assert init[..0] == [] && init[0] == order[0];
    assert Met(peers, init) == 1 && RunningTotals(peers, init) == 1;
  }

  /** Visited in whatever order, the buckets hold each peer once: what is met is the number of peers. */
  lemma {:induction false} MetCounts(peers: set<Endpoint>, order: seq<string>)
    requires NoRepeats(order) && |peers| <= INT32_MAX
    ensures Met(peers, order) == |set x | x in peers && x.place.key in order|
  {
    if order == [] {
      assert (set x | x in peers && x.place.key in order) == {};
    } else {
      var init, k := order[..|order| - 1], order[|order| - 1];
      MetCounts(peers, init);
      var a, b := set x | x in peers && x.place.key in init, set x | x in peers && x.place.key == k;
      assert order == init + [k];
      assert (set x | x in peers && x.place.key in order) == a + b;
      assert a !! b;
      Smaller(b, peers);
    }
  }

  lemma {:induction false} Smaller<T>(a: set<T>, b: set<T>)
    requires a <= b
    ensures |a| <= |b|
  {
    assert b == a + (b - a);
  }
}

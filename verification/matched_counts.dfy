/** Whether the matched events reported over a run add up to the matches there are. */
module MatchedCounts {
  import opened CTypes
  import opened TopicIndex
  import opened QosEvents
  import opened MatchedEvents
  import L = Liveliness

  predicate IsService(e: Endpoint) {
    e.entity.kind == L.Service || e.entity.kind == L.Client
  }

  /** Topics and services are kept in two indexes. */
  ghost function Family(es: set<Endpoint>, services: bool): set<Endpoint> {
    set e | e in es && IsService(e) == services
  }

  ghost function Beside(live: set<Endpoint>, e: Endpoint): set<Endpoint> {
    set x | x in live && IsService(x) == IsService(e) && On(x, e.place.topic, e.place.typ)
  }

  /** The live endpoints of the other side on the same name and type. */
  ghost function Matches(live: set<Endpoint>, e: Endpoint): set<Endpoint> {
    set x | x in Beside(live, e) && IsPub(x) != IsPub(e)
  }

  ghost function KeysOn(live: set<Endpoint>, e: Endpoint): set<string> {
    set x | x in Beside(live, e) :: x.place.key
  }

  /** An arrival or a departure: the buckets visited, if it is an arrival, and what was reported. */
  datatype Change = Change(put: bool, e: Endpoint, reported: bool, order: seq<string>, added: seq<Report>)

  ghost function ToldBy(zid: string, live: set<Endpoint>, c: Change): set<int> {
    Told(zid, c.e, Matches(live, c.e), c.put)
  }

  /** There is a bucket for the QoS of the endpoint. */
  ghost predicate InBucket(live: set<Endpoint>, c: Change) {
    c.e.place.key in KeysOn(live, c.e)
  }

  /** A departure is reported when its bucket exists, an arrival as running totals. */
  ghost predicate ChangeOk(zid: string, live: set<Endpoint>, c: Change) {
    if !c.reported || (!c.put && !InBucket(live, c)) then c.added == []
    else if c.put then
      && Enumerates(c.order, KeysOn(live, c.e))
      && Reports(zid, c.e, ToldBy(zid, live, c), true, RunningTotals(Matches(live, c.e), c.order), c.added)
    else Reports(zid, c.e, ToldBy(zid, live, c), false, 0, c.added)
  }

  ghost function After(live: set<Endpoint>, c: Change): set<Endpoint> {
    if c.put then live + {c.e} else live - {c.e}
  }

  ghost function Live(cs: seq<Change>): set<Endpoint> {
    if cs == [] then {} else After(Live(cs[..|cs| - 1]), cs[|cs| - 1])
  }

  ghost function Log(cs: seq<Change>): seq<Report> {
    if cs == [] then [] else Log(cs[..|cs| - 1]) + cs[|cs| - 1].added
  }

  /** Arrivals of topic endpoints are reported, arrivals of service endpoints are not. */
  predicate ReportedRight(c: Change) {
    if IsService(c.e) then c.put ==> !c.reported else c.reported
  }

  ghost predicate ChangesOk(zid: string, cs: seq<Change>) {
    cs == [] ||
    var init, c := cs[..|cs| - 1], cs[|cs| - 1];
    && ChangesOk(zid, init)
    && ChangeOk(zid, Live(init), c)
    && ReportedRight(c)
  }

  lemma Snoc(zid: string, cs: seq<Change>, c: Change)
    ensures (cs + [c])[..|cs|] == cs
    ensures Live(cs + [c]) == After(Live(cs), c) && Log(cs + [c]) == Log(cs) + c.added
    ensures ChangesOk(zid, cs + [c]) <==>
            && ChangesOk(zid, cs)
            && ChangeOk(zid, Live(cs), c)
            && ReportedRight(c)
  {
    assert (cs + [c])[..|cs|] == cs;
  }

  /** One more change, an arrival or a departure of `e`. */
  ghost predicate Recorded(cs: seq<Change>, cs': seq<Change>, put: bool, e: Endpoint) {
    && cs' != [] && cs'[..|cs'| - 1] == cs
    && cs'[|cs'| - 1].put == put && cs'[|cs'| - 1].e == e
  }

  lemma RecordedLive(cs: seq<Change>, cs': seq<Change>, put: bool, e: Endpoint)
    requires Recorded(cs, cs', put, e)
    ensures Live(cs') == if put then Live(cs) + {e} else Live(cs) - {e}
  {
  }

  // ----- balance

  /** The matches reported to each live local publisher and subscription add up to those it has. */
  ghost predicate Balanced(zid: string, live: set<Endpoint>, log: seq<Report>) {
    forall x | x in live && Local(zid, x) && !IsService(x) :: Total(log, x.gid, OwnEvent(x)) == |Matches(live, x)|
  }

  lemma ToldIff(zid: string, live: set<Endpoint>, c: Change, x: Endpoint)
    requires Distinct(live) && x in live
    ensures x.gid in ToldBy(zid, live, c) <==>
            x in Matches(live, c.e) && Local(zid, x) && (c.put ==> c.e.keyexpr == x.keyexpr)
  {
    if x.gid in ToldBy(zid, live, c) {
      var y :| y in Matches(live, c.e) && Local(zid, y) && (c.put ==> c.e.keyexpr == y.keyexpr) && y.gid == x.gid;
      assert !Clash(x, y);
    }
  }

  lemma MatchesAfterPut(live: set<Endpoint>, e: Endpoint, x: Endpoint)
    requires e !in live
    ensures |Matches(live + {e}, x)| == |Matches(live, x)| + if x in Matches({x}, e) then 1 else 0
  {
    if x in Matches({x}, e) {
      assert Matches(live + {e}, x) == Matches(live, x) + {e};
    } else {
      assert Matches(live + {e}, x) == Matches(live, x);
    }
  }

  lemma MatchesAfterDel(live: set<Endpoint>, e: Endpoint, x: Endpoint)
    requires e in live
    ensures |Matches(live - {e}, x)| == |Matches(live, x)| - if x in Matches({x}, e) then 1 else 0
  {
    MatchesAfterPut(live - {e}, e, x);
    assert live - {e} + {e} == live;
  }

  /** What one change adds to the balance of an endpoint other than its own. */
  lemma AddedToOther(zid: string, live: set<Endpoint>, log: seq<Report>, c: Change, x: Endpoint)
    requires ChangeOk(zid, live, c) && c.reported && Distinct(live) && x in live && (c.put ==> x.gid != c.e.gid)
    ensures Total(log + c.added, x.gid, OwnEvent(x)) == Total(log, x.gid, OwnEvent(x)) +
              if x in Matches(live, c.e) && Local(zid, x) &&
                 (if c.put then c.e.keyexpr == x.keyexpr else InBucket(live, c))
              then (if c.put then 1 else -1) else 0
  {
    TotalOfAppend(log, c.added, x.gid, OwnEvent(x));
    ToldIff(zid, live, c, x);
  }

  lemma OwnBucket(live: set<Endpoint>, c: Change)
    requires c.e in live
    ensures InBucket(live, c)
  {
    assert c.e in Beside(live, c.e);
  }

  lemma OwnAdded(zid: string, live: set<Endpoint>, log: seq<Report>, c: Change)
    requires ChangeOk(zid, live, c) && c.put && c.reported && Distinct(live + {c.e})
    ensures Total(log + c.added, c.e.gid, OwnEvent(c.e)) == Total(log, c.e.gid, OwnEvent(c.e)) +
              if Local(zid, c.e) then RunningTotals(Matches(live, c.e), c.order) else 0
  {
    var e := c.e;
    TotalOfAppend(log, c.added, e.gid, OwnEvent(e));
  }

  ghost predicate SameKeyexpr(zid: string, live: set<Endpoint>, e: Endpoint) {
    forall x | x in Matches(live, e) && Local(zid, x) :: x.keyexpr == e.keyexpr
  }

  /** An arrival keeps the balance exactly when every local match travels on the same key expression and, for a
      local entity, the running totals over the buckets come to the number of its matches. */
  lemma PutBalancedIff(zid: string, live: set<Endpoint>, log: seq<Report>, c: Change)
    requires Balanced(zid, live, log) && ChangeOk(zid, live, c) && c.put && c.reported && !IsService(c.e)
    requires c.e !in live && Distinct(live + {c.e})
    requires Local(zid, c.e) ==> Total(log, c.e.gid, OwnEvent(c.e)) == 0
    ensures Balanced(zid, live + {c.e}, log + c.added) <==>
            && SameKeyexpr(zid, live, c.e)
            && (Local(zid, c.e) ==> RunningTotals(Matches(live, c.e), c.order) == |Matches(live, c.e)|)
  {
    var e := c.e;
    var live', log' := live + {e}, log + c.added;
    OwnAdded(zid, live, log, c);
    MatchesAfterPut(live, e, e);
    forall x | x in live && Local(zid, x) && !IsService(x)
      ensures Total(log', x.gid, OwnEvent(x)) == |Matches(live', x)| <==>
              (x in Matches(live, e) ==> x.keyexpr == e.keyexpr)
    {
      assert !Clash(x, e);
      AddedToOther(zid, live, log, c, x);
      MatchesAfterPut(live, e, x);
    }
    if Balanced(zid, live', log') {
      forall x | x in Matches(live, e) && Local(zid, x) ensures x.keyexpr == e.keyexpr {
        assert x in live';
      }
      assert e in live';
    }
  }

  /** A departure keeps the balance exactly when the endpoint was live, or no bucket is found for it, or it has no
      local match: the code tells the local peers in a bucket that is there, whether or not the endpoint is in it. */
  lemma DelBalancedIff(zid: string, live: set<Endpoint>, log: seq<Report>, c: Change)
    requires Balanced(zid, live, log) && ChangeOk(zid, live, c) && !c.put && c.reported && !IsService(c.e)
    requires Distinct(live)
    ensures Balanced(zid, live - {c.e}, log + c.added) <==>
            c.e in live || !InBucket(live, c) || forall x | x in Matches(live, c.e) :: !Local(zid, x)
  {
    var e := c.e;
    var live', log' := live - {e}, log + c.added;
    if e in live {
      OwnBucket(live, c);
    } else {
      assert live' == live;
    }
    forall x | x in live' && Local(zid, x) && !IsService(x)
      ensures Total(log', x.gid, OwnEvent(x)) == |Matches(live', x)| <==>
              e in live || !InBucket(live, c) || x !in Matches(live, e)
    {
      AddedToOther(zid, live, log, c, x);
      if e in live {
        MatchesAfterDel(live, e, x);
      }
    }
  }

  /** Services and clients are told of departures when a node goes, publishers and subscriptions are not concerned. */
  lemma ServiceKeepsBalanced(zid: string, live: set<Endpoint>, log: seq<Report>, c: Change)
    requires Balanced(zid, live, log) && ChangeOk(zid, live, c) && IsService(c.e) && (c.put ==> !c.reported)
    requires Distinct(live)
    ensures Balanced(zid, After(live, c), log + c.added)
  {
    forall x | x in live && Local(zid, x) && !IsService(x)
      ensures Total(log + c.added, x.gid, OwnEvent(x)) == |Matches(After(live, c), x)|
    {
      assert Matches(After(live, c), x) == Matches(live, x);
      if c.reported {
        AddedToOther(zid, live, log, c, x);
      } else {
        assert log + c.added == log;
      }
    }
  }

  /** Announcing a live endpoint again repeats its reports: the balance survives exactly when there were none. */
  lemma RepeatedPutBalancedIff(zid: string, live: set<Endpoint>, log: seq<Report>, c: Change)
    requires Balanced(zid, live, log) && ChangeOk(zid, live, c) && c.put && c.reported && !IsService(c.e)
    requires c.e in live && Distinct(live)
    ensures Balanced(zid, live + {c.e}, log + c.added) <==>
            && (forall x | x in Matches(live, c.e) && Local(zid, x) :: x.keyexpr != c.e.keyexpr)
            && (Local(zid, c.e) ==> RunningTotals(Matches(live, c.e), c.order) == 0)
  {
    var e := c.e;
    assert live + {e} == live;
    OwnAdded(zid, live, log, c);
    forall x | x in live && x != e && Local(zid, x) && !IsService(x)
      ensures Total(log + c.added, x.gid, OwnEvent(x)) == |Matches(live, x)| <==>
              (x in Matches(live, e) ==> x.keyexpr != e.keyexpr)
    {
      assert !Clash(x, e);
      AddedToOther(zid, live, log, c, x);
    }
  }

  // ----- the entity's own report, by buckets

  /** All matches are in the bucket that is visited last. */
  ghost predicate InLastBucket(live: set<Endpoint>, e: Endpoint, order: seq<string>) {
    forall x | x in Matches(live, e) :: order != [] && x.place.key == order[|order| - 1]
  }

  lemma CountZeroIff(peers: set<Endpoint>, key: string)
    requires |peers| <= INT32_MAX
    ensures PeerCount(peers, key) == 0 <==> forall x | x in peers :: x.place.key != key
  {
    var there := set x | x in peers && x.place.key == key;
    Smaller(there, peers);
    if x :| x in peers && x.place.key == key {
      assert x in there;
    }
  }

  lemma OnlyLastIff(live: set<Endpoint>, e: Endpoint, order: seq<string>)
    requires Enumerates(order, KeysOn(live, e)) && |Matches(live, e)| <= INT32_MAX
    ensures InLastBucket(live, e, order) <==>
            forall i | 0 <= i < |order| - 1 :: PeerCount(Matches(live, e), order[i]) == 0
  {
    var peers := Matches(live, e);
    forall i | 0 <= i < |order| - 1
      ensures PeerCount(peers, order[i]) == 0 <==> forall x | x in peers :: x.place.key != order[i]
    {
      CountZeroIff(peers, order[i]);
    }
    forall x | x in peers ensures x.place.key in order {
      assert x in Beside(live, e);
    }
    if order != [] {
      assert forall i | 0 <= i < |order| - 1 :: order[i] == order[..|order| - 1][i];
    }
  }

  /** The new entity is told the number of its matches exactly when all are in the bucket visited last, and nothing
      exactly when it has none. */
  lemma OwnExactIff(live: set<Endpoint>, e: Endpoint, order: seq<string>)
    requires Enumerates(order, KeysOn(live, e)) && |Matches(live, e)| <= INT32_MAX
    ensures RunningTotals(Matches(live, e), order) == |Matches(live, e)| <==> InLastBucket(live, e, order)
    ensures RunningTotals(Matches(live, e), order) == 0 <==> Matches(live, e) == {}
  {
    var peers := Matches(live, e);
    OwnReportExactIff(peers, order);
    MetCounts(peers, order);
    forall x | x in peers ensures x.place.key in order {
      assert x in Beside(live, e);
    }
    assert (set x | x in peers && x.place.key in order) == peers;
    OnlyLastIff(live, e, order);
  }

  lemma {:induction false} OrderEndingIn(keys: set<string>, last: string) returns (order: seq<string>)
    requires last in keys
    ensures Enumerates(order, keys) && order != [] && order[|order| - 1] == last
    decreases keys
  {
    var init := [];
    if k :| k in keys - {last} {
      init := OrderEndingIn(keys - {last}, k);
    }
    order := init + [last];
    assert order[..|order| - 1] == init;
    forall k ensures k in order <==> k in keys {
      assert k in keys - {last} <==> k in init;
    }
  }

  lemma SingleKey(keys: set<string>, k: string)
    requires |keys| == 1 && k in keys
    ensures keys == {k}
  {
    assert |keys - {k}| == 0;
  }

  /** Whatever the order in which the buckets are visited, the report is exact: this holds exactly when there is no
      match, or a single bucket. */
  lemma EveryOrderExactIff(live: set<Endpoint>, e: Endpoint)
    requires |Matches(live, e)| <= INT32_MAX
    ensures (forall order | Enumerates(order, KeysOn(live, e)) ::
               RunningTotals(Matches(live, e), order) == |Matches(live, e)|) <==>
            Matches(live, e) == {} || |KeysOn(live, e)| == 1
  {
    var keys := KeysOn(live, e);
    if Matches(live, e) == {} || |keys| == 1 {
      forall order | Enumerates(order, keys) ensures RunningTotals(Matches(live, e), order) == |Matches(live, e)| {
        OneKeyIsLast(live, e, order);
        OwnExactIff(live, e, order);
      }
    } else {
      var x :| x in Matches(live, e);
      assert x in Beside(live, e) && x.place.key in keys;
      assert keys == {x.place.key} + (keys - {x.place.key}) && |{x.place.key}| == 1;
      var other :| other in keys - {x.place.key};
      var order := OrderEndingIn(keys, other);
      OwnExactIff(live, e, order);
    }
  }

  lemma OneKeyIsLast(live: set<Endpoint>, e: Endpoint, order: seq<string>)
    requires Enumerates(order, KeysOn(live, e)) && (Matches(live, e) == {} || |KeysOn(live, e)| == 1)
    ensures InLastBucket(live, e, order)
  {
    forall x | x in Matches(live, e) ensures order != [] && x.place.key == order[|order| - 1] {
      assert x in Beside(live, e) && x.place.key in KeysOn(live, e) && x.place.key in order;
      assert order[|order| - 1] in order;
      SingleKey(KeysOn(live, e), x.place.key);
    }
  }

  // ----- exactly which changes keep the balance

  ghost predicate Harmless(zid: string, live: set<Endpoint>, c: Change) {
    var e := c.e;
    if IsService(e) then true
    else if !c.put then e in live || !InBucket(live, c) || forall x | x in Matches(live, e) :: !Local(zid, x)
    else if e !in live then SameKeyexpr(zid, live, e) && (Local(zid, e) ==> InLastBucket(live, e, c.order))
    else
      && (forall x | x in Matches(live, e) && Local(zid, x) :: x.keyexpr != e.keyexpr)
      && (Local(zid, e) ==> Matches(live, e) == {})
  }

  /** A new local endpoint is new in the whole run, and matches are not too many for `int32_t`. */
  ghost predicate Orderly(zid: string, cs: seq<Change>) {
    cs == [] ||
    var init, c := cs[..|cs| - 1], cs[|cs| - 1];
    && Orderly(zid, init)
    && (c.put && !IsService(c.e) ==>
          && |Matches(Live(init), c.e)| <= INT32_MAX
          && (Local(zid, c.e) ==> c.e in Live(init) || c.e !in Announced(init)))
  }

  lemma StepBalancedIff(zid: string, es: set<Endpoint>, live: set<Endpoint>, log: seq<Report>, c: Change)
    requires Balanced(zid, live, log) && SilentOutside(es, log) && live <= es
    requires ChangeOk(zid, live, c) && ReportedRight(c) && Distinct(es + if c.put then {c.e} else {})
    requires c.put && !IsService(c.e) ==>
               |Matches(live, c.e)| <= INT32_MAX && (Local(zid, c.e) ==> c.e in live || c.e !in es)
    ensures Balanced(zid, After(live, c), log + c.added) <==> Harmless(zid, live, c)
  {
    assert Distinct(live);
    if IsService(c.e) {
      ServiceKeepsBalanced(zid, live, log, c);
    } else if !c.put {
      DelBalancedIff(zid, live, log, c);
    } else {
      OwnExactIff(live, c.e, c.order);
      if c.e in live {
        RepeatedPutBalancedIff(zid, live, log, c);
      } else {
        if Local(zid, c.e) && Knows(es, c.e.gid) {
          var x :| x in es && x.gid == c.e.gid;
          assert Clash(x, c.e);
        }
        assert Local(zid, c.e) ==> Total(log, c.e.gid, OwnEvent(c.e)) == 0;
        assert Distinct(live + {c.e});
        PutBalancedIff(zid, live, log, c);
      }
    }
  }

  // ----- runs

  ghost function Announced(cs: seq<Change>): set<Endpoint> {
    set i | 0 <= i < |cs| && cs[i].put :: cs[i].e
  }

  ghost predicate Knows(es: set<Endpoint>, g: int) {
    exists x :: x in es && x.gid == g
  }

  /** Nothing is reported about an endpoint before it is announced. */
  ghost predicate SilentOutside(es: set<Endpoint>, log: seq<Report>) {
    forall g, v {:trigger Total(log, g, v)} :: Knows(es, g) || Total(log, g, v) == 0
  }

  lemma KnowsMore(es: set<Endpoint>, more: set<Endpoint>, g: int)
    requires es <= more
    ensures Knows(es, g) ==> Knows(more, g)
  {
  }

  lemma ToldKnown(zid: string, live: set<Endpoint>, es: set<Endpoint>, c: Change, g: int)
    requires live <= es
    ensures g in ToldBy(zid, live, c) ==> Knows(es, g)
  {
  }

  lemma StaysSilent(zid: string, live: set<Endpoint>, es: set<Endpoint>, log: seq<Report>, c: Change)
    requires SilentOutside(es, log) && live <= es && ChangeOk(zid, live, c)
    ensures SilentOutside(if c.put then es + {c.e} else es, log + c.added)
  {
    var es' := if c.put then es + {c.e} else es;
    forall g, v ensures Knows(es', g) || Total(log + c.added, g, v) == 0 {
      TotalOfAppend(log, c.added, g, v);
      KnowsMore(es, es', g);
      ToldKnown(zid, live, es', c, g);
    }
  }

  lemma AnnouncedSnoc(cs: seq<Change>, c: Change)
    ensures Announced(cs + [c]) == Announced(cs) + if c.put then {c.e} else {}
  {
    var t := cs + [c];
    forall x | x in Announced(cs) ensures x in Announced(t) {
      var i :| 0 <= i < |cs| && cs[i].put && cs[i].e == x;
      assert t[i] == cs[i];
    }
    assert t[|cs|] == c;
  }

  lemma {:induction false} LiveAnnounced(cs: seq<Change>)
    ensures Live(cs) <= Announced(cs)
  {
    if cs != [] {
      var init, c := cs[..|cs| - 1], cs[|cs| - 1];
      LiveAnnounced(init);
      AnnouncedSnoc(init, c);
      assert cs == init + [c];
    }
  }

  /** The balance holds after every change so far. */
  ghost predicate AlwaysBalanced(zid: string, cs: seq<Change>) {
    Balanced(zid, Live(cs), Log(cs)) && (cs == [] || AlwaysBalanced(zid, cs[..|cs| - 1]))
  }

  ghost predicate AllHarmless(zid: string, cs: seq<Change>) {
    cs == [] || (AllHarmless(zid, cs[..|cs| - 1]) && Harmless(zid, Live(cs[..|cs| - 1]), cs[|cs| - 1]))
  }

  lemma {:induction false} AlwaysSilent(zid: string, cs: seq<Change>)
    requires ChangesOk(zid, cs)
    ensures SilentOutside(Announced(cs), Log(cs))
  {
    if cs != [] {
      var init, c := cs[..|cs| - 1], cs[|cs| - 1];
      assert cs == init + [c];
      AlwaysSilent(zid, init);
      LiveAnnounced(init);
      AnnouncedSnoc(init, c);
      StaysSilent(zid, Live(init), Announced(init), Log(init), c);
    }
  }

  /** As long as the balance holds, the next change keeps it exactly when it is harmless. */
  lemma LastChangeDecides(zid: string, cs: seq<Change>)
    requires cs != [] && ChangesOk(zid, cs) && Orderly(zid, cs) && Distinct(Announced(cs))
    requires Balanced(zid, Live(cs[..|cs| - 1]), Log(cs[..|cs| - 1]))
    ensures Balanced(zid, Live(cs), Log(cs)) <==> Harmless(zid, Live(cs[..|cs| - 1]), cs[|cs| - 1])
  {
    var init, c := cs[..|cs| - 1], cs[|cs| - 1];
    assert cs == init + [c];
    AnnouncedSnoc(init, c);
    LiveAnnounced(init);
    AlwaysSilent(zid, init);
    StepBalancedIff(zid, Announced(init), Live(init), Log(init), c);
  }

  /** The matches reported to each live local publisher and subscription add up to the matches it has after every
      change of a run, exactly when every change of the run is harmless. */
  lemma {:induction false} BalancedThroughoutIff(zid: string, cs: seq<Change>)
    requires ChangesOk(zid, cs) && Orderly(zid, cs) && Distinct(Announced(cs))
    ensures AlwaysBalanced(zid, cs) <==> AllHarmless(zid, cs)
  {
    if cs != [] {
      var init, c := cs[..|cs| - 1], cs[|cs| - 1];
      assert cs == init + [c];
      AnnouncedSnoc(init, c);
      assert Announced(init) <= Announced(cs);
      BalancedThroughoutIff(zid, init);
      if AllHarmless(zid, init) {
        LastChangeDecides(zid, cs);
      }
    }
  }

  // ----- whatever the order in which the buckets are visited

  /** The same change as far as it comes from outside: the cache chooses the order of the buckets. */
  predicate SameMove(c: Change, d: Change) {
    c.put == d.put && c.e == d.e && c.reported == d.reported
  }

  ghost predicate Sure(zid: string, live: set<Endpoint>, c: Change) {
    if !IsService(c.e) && c.put && c.e !in live
    then SameKeyexpr(zid, live, c.e) && (Local(zid, c.e) ==> Matches(live, c.e) == {} || |KeysOn(live, c.e)| == 1)
    else Harmless(zid, live, c)
  }

  lemma SureIsHarmless(zid: string, live: set<Endpoint>, c: Change, d: Change)
    requires SameMove(c, d) && ReportedRight(c) && Sure(zid, live, c) && ChangeOk(zid, live, d)
    ensures Harmless(zid, live, d)
  {
    if !IsService(c.e) && c.put && c.e !in live && Local(zid, c.e) {
      OneKeyIsLast(live, c.e, d.order);
    }
  }

  /** A change that is not sure does harm in some order. */
  lemma UnsureHarms(zid: string, live: set<Endpoint>, c: Change) returns (d: Change)
    requires ChangeOk(zid, live, c) && ReportedRight(c) && !Sure(zid, live, c)
    requires |Matches(live, c.e)| <= INT32_MAX
    ensures SameMove(c, d) && ChangeOk(zid, live, d) && !Harmless(zid, live, d)
  {
    d := c;
    if Harmless(zid, live, c) {
      EveryOrderExactIff(live, c.e);
      var order :| Enumerates(order, KeysOn(live, c.e)) &&
                   RunningTotals(Matches(live, c.e), order) != |Matches(live, c.e)|;
      OwnExactIff(live, c.e, order);
      var added := SomeLog(zid, c.e, ToldBy(zid, live, c), true, RunningTotals(Matches(live, c.e), order));
      d := c.(order := order, added := added);
    }
  }

  /** One move keeps the balance in every order in which the buckets may be visited exactly when it is sure. */
  lemma EveryOrderStepIff(zid: string, es: set<Endpoint>, live: set<Endpoint>, log: seq<Report>, c: Change)
    requires Balanced(zid, live, log) && SilentOutside(es, log) && live <= es
    requires ChangeOk(zid, live, c) && ReportedRight(c) && Distinct(es + if c.put then {c.e} else {})
    requires c.put && !IsService(c.e) ==>
               |Matches(live, c.e)| <= INT32_MAX && (Local(zid, c.e) ==> c.e in live || c.e !in es)
    ensures (forall d | SameMove(c, d) && ChangeOk(zid, live, d) :: Balanced(zid, After(live, d), log + d.added)) <==>
            Sure(zid, live, c)
  {
    forall d | SameMove(c, d) && ChangeOk(zid, live, d)
      ensures Balanced(zid, After(live, d), log + d.added) <==> Harmless(zid, live, d)
      ensures Sure(zid, live, c) ==> Harmless(zid, live, d)
    {
      StepBalancedIff(zid, es, live, log, d);
      if Sure(zid, live, c) { SureIsHarmless(zid, live, c, d); }
    }
    if !Sure(zid, live, c) {
      var d := c;
      if c.put && !IsService(c.e) {
        d := UnsureHarms(zid, live, c);
      }
      assert !Harmless(zid, live, d);
    }
  }

  ghost predicate AllSure(zid: string, cs: seq<Change>) {
    cs == [] || (AllSure(zid, cs[..|cs| - 1]) && Sure(zid, Live(cs[..|cs| - 1]), cs[|cs| - 1]))
  }

  ghost predicate SameMoves(cs: seq<Change>, ds: seq<Change>) {
    |cs| == |ds| &&
    (cs == [] || (SameMove(cs[|cs| - 1], ds[|ds| - 1]) && SameMoves(cs[..|cs| - 1], ds[..|ds| - 1])))
  }

  lemma {:induction false} SameMovesSame(zid: string, cs: seq<Change>, ds: seq<Change>)
    requires SameMoves(cs, ds)
    ensures Live(cs) == Live(ds) && Announced(cs) == Announced(ds) && (Orderly(zid, cs) <==> Orderly(zid, ds))
  {
    if cs != [] {
      SameMovesSame(zid, cs[..|cs| - 1], ds[..|ds| - 1]);
      AnnouncedSnoc(cs[..|cs| - 1], cs[|cs| - 1]);
      AnnouncedSnoc(ds[..|ds| - 1], ds[|ds| - 1]);
      assert cs == cs[..|cs| - 1] + [cs[|cs| - 1]] && ds == ds[..|ds| - 1] + [ds[|ds| - 1]];
    }
  }

  lemma {:induction false} SureRunBalanced(zid: string, cs: seq<Change>, ds: seq<Change>)
    requires ChangesOk(zid, cs) && AllSure(zid, cs) && SameMoves(cs, ds) && ChangesOk(zid, ds)
    ensures AllHarmless(zid, ds)
  {
    if cs != [] {
      var init, last := cs[..|cs| - 1], cs[|cs| - 1];
      SureRunBalanced(zid, init, ds[..|ds| - 1]);
      SameMovesSame(zid, init, ds[..|ds| - 1]);
      SureIsHarmless(zid, Live(init), last, ds[|ds| - 1]);
    }
  }

  lemma {:induction false} UnsureRunHarms(zid: string, cs: seq<Change>) returns (ds: seq<Change>)
    requires ChangesOk(zid, cs) && Orderly(zid, cs) && !AllSure(zid, cs)
    ensures SameMoves(cs, ds) && ChangesOk(zid, ds) && !AllHarmless(zid, ds)
  {
    var init, c := cs[..|cs| - 1], cs[|cs| - 1];
    var start, d := init, c;
    if !AllSure(zid, init) {
      start := UnsureRunHarms(zid, init);
    } else {
      ItsOwnMoves(init);
      if c.put && !IsService(c.e) {
        d := UnsureHarms(zid, Live(init), c);
      }
    }
    SameMovesSame(zid, init, start);
    ds := start + [d];
    Snoc(zid, start, d);
    assert ds[|ds| - 1] == d && ds[..|ds| - 1] == start;
  }

  lemma {:induction false} ItsOwnMoves(cs: seq<Change>)
    ensures SameMoves(cs, cs)
  {
    if cs != [] {
      ItsOwnMoves(cs[..|cs| - 1]);
    }
  }

  /** A run keeps the balance after every change, in whatever orders the buckets are visited, exactly when each of its
      moves is sure. The condition does not mention any order. */
  lemma EveryOrderThroughoutIff(zid: string, cs: seq<Change>)
    requires ChangesOk(zid, cs) && Orderly(zid, cs) && Distinct(Announced(cs))
    ensures (forall ds | SameMoves(cs, ds) && ChangesOk(zid, ds) :: AlwaysBalanced(zid, ds)) <==> AllSure(zid, cs)
  {
    if AllSure(zid, cs) {
      forall ds | SameMoves(cs, ds) && ChangesOk(zid, ds) ensures AlwaysBalanced(zid, ds) {
        SureRunBalanced(zid, cs, ds);
        SameMovesSame(zid, cs, ds);
        BalancedThroughoutIff(zid, ds);
      }
    } else {
      var ds := UnsureRunHarms(zid, cs);
      SameMovesSame(zid, cs, ds);
      BalancedThroughoutIff(zid, ds);
    }
  }

  // ----- the balance by kind and event id

  /** No publisher is told of subscriptions' events, and no subscription of publishers'. */
  ghost predicate RightEventOnly(es: set<Endpoint>, log: seq<Report>) {
    forall x | x in es ::
      && (x.entity.kind == L.Publisher ==> Total(log, x.gid, SUBSCRIPTION_MATCHED) == 0)
      && (x.entity.kind == L.Subscription ==> Total(log, x.gid, PUBLICATION_MATCHED) == 0)
  }

  function WrongEvent(x: Endpoint): int {
    if IsPub(x) then SUBSCRIPTION_MATCHED else PUBLICATION_MATCHED
  }

  lemma NoWrongEvent(zid: string, es: set<Endpoint>, live: set<Endpoint>, log: seq<Report>, c: Change, x: Endpoint)
    requires ChangeOk(zid, live, c) && ReportedRight(c) && live <= es && Distinct(es) && (c.put ==> c.e in es)
    requires x in es && !IsService(x)
    ensures Total(log + c.added, x.gid, WrongEvent(x)) == Total(log, x.gid, WrongEvent(x))
  {
    TotalOfAppend(log, c.added, x.gid, WrongEvent(x));
    if x.gid in ToldBy(zid, live, c) {
      var y :| y in Matches(live, c.e) && y.gid == x.gid;
      assert !Clash(x, y);
    }
    if c.put && x.gid == c.e.gid {
      assert !Clash(x, c.e);
    }
  }

  lemma {:induction false} AlwaysRightEvent(zid: string, cs: seq<Change>)
    requires ChangesOk(zid, cs) && Distinct(Announced(cs))
    ensures RightEventOnly(Announced(cs), Log(cs))
  {
    if cs != [] {
      var init, c := cs[..|cs| - 1], cs[|cs| - 1];
      assert cs == init + [c];
      AnnouncedSnoc(init, c);
      assert Announced(init) <= Announced(cs);
      AlwaysRightEvent(zid, init);
      AlwaysSilent(zid, init);
      LiveAnnounced(init);
      forall x | x in Announced(cs) && (x.entity.kind == L.Publisher || x.entity.kind == L.Subscription)
        ensures Total(Log(cs), x.gid, WrongEvent(x)) == 0
      {
        if Knows(Announced(init), x.gid) {
          var y :| y in Announced(init) && y.gid == x.gid;
          assert !Clash(x, y);
          assert x in Announced(init);
        }
        assert Total(Log(init), x.gid, WrongEvent(x)) == 0;
        NoWrongEvent(zid, Announced(cs), Live(init), Log(init), c, x);
      }
    }
  }

  /** In a balanced run each live local publisher has been told, as changes of the subscriptions it matches, of as many
      as there are, and of nothing else; each live local subscription likewise of publications. */
  lemma BalancedByKind(zid: string, cs: seq<Change>)
    requires ChangesOk(zid, cs) && Distinct(Announced(cs)) && Balanced(zid, Live(cs), Log(cs))
    ensures forall x | x in Live(cs) && x.entity.zid == zid && x.entity.kind == L.Publisher ::
              && Total(Log(cs), x.gid, PUBLICATION_MATCHED) == |Matches(Live(cs), x)|
              && Total(Log(cs), x.gid, SUBSCRIPTION_MATCHED) == 0
    ensures forall x | x in Live(cs) && x.entity.zid == zid && x.entity.kind == L.Subscription ::
              && Total(Log(cs), x.gid, SUBSCRIPTION_MATCHED) == |Matches(Live(cs), x)|
              && Total(Log(cs), x.gid, PUBLICATION_MATCHED) == 0
  {
    AlwaysRightEvent(zid, cs);
    LiveAnnounced(cs);
  }

  // ----- a discipline that senders can follow

  /** One QoS bucket and one key expression per name and type, and not too many matches. */
  ghost predicate Uniform(live: set<Endpoint>, e: Endpoint) {
    && (forall x | x in Beside(live, e) :: x.place.key == e.place.key && x.keyexpr == e.keyexpr)
    && |Matches(live, e)| <= INT32_MAX
  }

  /** Endpoints arrive into uniform topics, local ones once in the run and others when they are not live, and depart
      while live. */
  ghost predicate Disciplined(zid: string, cs: seq<Change>) {
    cs == [] ||
    var init, c := cs[..|cs| - 1], cs[|cs| - 1];
    && Disciplined(zid, init)
    && if c.put
       then Uniform(Live(init), c.e) && c.e !in (if Local(zid, c.e) then Announced(init) else Live(init))
       else c.e in Live(init)
  }

  lemma UniformLast(live: set<Endpoint>, e: Endpoint, order: seq<string>)
    requires Uniform(live, e) && Enumerates(order, KeysOn(live, e))
    ensures InLastBucket(live, e, order)
  {
    forall x | x in Matches(live, e) ensures order != [] && x.place.key == order[|order| - 1] {
      assert x in Beside(live, e) && x.place.key in KeysOn(live, e) && x.place.key in order;
      assert order[|order| - 1] in order;
    }
  }

  lemma {:induction false} DisciplinedHarmless(zid: string, cs: seq<Change>)
    requires ChangesOk(zid, cs) && Disciplined(zid, cs)
    ensures Orderly(zid, cs) && AllHarmless(zid, cs)
  {
    if cs != [] {
      var init, c := cs[..|cs| - 1], cs[|cs| - 1];
      DisciplinedHarmless(zid, init);
      LiveAnnounced(init);
      if c.put && !IsService(c.e) {
        UniformLast(Live(init), c.e, c.order);
      }
    }
  }

  /** In every disciplined run the matches reported to each live local publisher and subscription add up to the
      matches it has. */
  lemma MatchedCountsConserved(zid: string, cs: seq<Change>)
    requires ChangesOk(zid, cs) && Disciplined(zid, cs) && Distinct(Announced(cs))
    ensures AlwaysBalanced(zid, cs)
  {
    DisciplinedHarmless(zid, cs);
    BalancedThroughoutIff(zid, cs);
  }
}

/** The layout of tokens and of QoS texts, and the examples that the design document and the headers give. */
module DocumentedTokens {
  import opened Options
  import opened Decimal
  import opened KeyExpr
  import opened Liveliness
  import Q = QoSProfile

  // ----- numbers

  lemma MoreDigits(n: nat, d: nat)
    requires n > 0 && d < 10
    ensures ToDec(10 * n + d) == ToDec(n) + [DigitChar(d)]
  {
  }

  lemma Numbers()
    ensures ToDec(0) == "0" && ToDec(1) == "1" && ToDec(2) == "2" && ToDec(3) == "3" && ToDec(5) == "5"
    ensures ToDec(10) == "10" && ToDec(60) == "60" && ToDec(3000) == "3000"
  {
    MoreDigits(1, 0);
    MoreDigits(6, 0);
    MoreDigits(3, 0);
    MoreDigits(30, 0);
    MoreDigits(300, 0);
  }

  // ----- QoS texts

  lemma JoinFrom(p: seq<string>, i: nat, d: char)
    requires i + 1 < |p|
    ensures Join(p[i..], d) == p[i] + [d] + Join(p[i + 1..], d)
  {
    assert p[i..][1..] == p[i + 1..];
  }

  lemma Ends(p: seq<string>, d: char)
    requires p != []
    ensures p[0..] == p && Join(p[|p| - 1..], d) == p[|p| - 1]
  {
  }

  lemma SixGroups(p: seq<string>)
    requires |p| == 6
    ensures Join(p, ':') == p[0] + ":" + (p[1] + ":" + (p[2] + ":" + (p[3] + ":" + (p[4] + ":" + (p[5])))))
  {
    JoinFrom(p, 0, ':');
    JoinFrom(p, 1, ':');
    JoinFrom(p, 2, ':');
    JoinFrom(p, 3, ':');
    JoinFrom(p, 4, ':');
    Ends(p, ':');
  }

  /** Which field goes where, and that a field equal to the default leaves its place empty. */
  lemma QoSLayout(q: Q.QoS)
    ensures var d := Q.DEFAULT_QOS;
            Q.Encode(q) ==
              Q.Elide(q.reliability, d.reliability) + ":" + (
              Q.Elide(q.durability, d.durability) + ":" + (
              (Q.Elide(q.history, d.history) + "," + Q.Elide(q.depth, d.depth)) + ":" + (
              (Q.Elide(q.deadline.sec, d.deadline.sec) + "," + Q.Elide(q.deadline.nsec, d.deadline.nsec)) + ":" + (
              (Q.Elide(q.lifespan.sec, d.lifespan.sec) + "," + Q.Elide(q.lifespan.nsec, d.lifespan.nsec)) + ":" + (
              Q.Elide(q.liveliness, d.liveliness) + "," +
                (Q.Elide(q.lease.sec, d.lease.sec) + "," + Q.Elide(q.lease.nsec, d.lease.nsec)))))))
  {
    var p := Q.QoSParts(q);
    SixGroups(p);
  }

  /** The subscription of the design document's listener: default settings but for a depth of 10. */
  lemma ListenerQoS()
    ensures Q.Encode(Q.DEFAULT_QOS.(depth := 10)) == "::,10:,:,:,,"
  {
    QoSLayout(Q.DEFAULT_QOS.(depth := 10));
    Numbers();
  }

  /** A profile that differs from the default everywhere. */
  const DIFFERENT := Q.QoS(2, 1, 2, 10, Q.Time(5, 0), Q.Time(60, 3000), 3, Q.Time(1, 2))

  lemma DifferentQoS()
    ensures Q.Encode(DIFFERENT) == "2:1:2,10:5,0:60,3000:3,1,2"
    ensures Q.Decode("2:1:2,10:5,0:60,3000:3,1,2") == Some(DIFFERENT)
  {
    DifferentText();
    Q.DecodeOfEncode(DIFFERENT);
  }

  lemma DifferentPieces()
    ensures var q, d := DIFFERENT, Q.DEFAULT_QOS;
            && Q.Elide(q.reliability, d.reliability) == "2" && Q.Elide(q.durability, d.durability) == "1"
            && Q.Elide(q.history, d.history) == "2" && Q.Elide(q.depth, d.depth) == "10"
            && Q.Elide(q.deadline.sec, d.deadline.sec) == "5" && Q.Elide(q.deadline.nsec, d.deadline.nsec) == "0"
            && Q.Elide(q.lifespan.sec, d.lifespan.sec) == "60"
            && Q.Elide(q.lifespan.nsec, d.lifespan.nsec) == "3000"
            && Q.Elide(q.liveliness, d.liveliness) == "3"
            && Q.Elide(q.lease.sec, d.lease.sec) == "1" && Q.Elide(q.lease.nsec, d.lease.nsec) == "2"
  {
    var q, d := DIFFERENT, Q.DEFAULT_QOS;
    Numbers();
    Shown(q.reliability, d.reliability, "2");
    Shown(q.durability, d.durability, "1");
    Shown(q.history, d.history, "2");
    Shown(q.depth, d.depth, "10");
    Shown(q.deadline.sec, d.deadline.sec, "5");
    Shown(q.deadline.nsec, d.deadline.nsec, "0");
    Shown(q.lifespan.sec, d.lifespan.sec, "60");
    Shown(q.lifespan.nsec, d.lifespan.nsec, "3000");
    Shown(q.liveliness, d.liveliness, "3");
    Shown(q.lease.sec, d.lease.sec, "1");
    Shown(q.lease.nsec, d.lease.nsec, "2");
  }

  lemma Glued()
    ensures "2" + "," + "10" == "2,10" && "5" + "," + "0" == "5,0" && "60" + "," + "3000" == "60,3000"
    ensures "1" + "," + "2" == "1,2" && "3" + "," + "1,2" == "3,1,2"
    ensures "60,3000" + ":" + "3,1,2" == "60,3000:3,1,2"
    ensures "5,0" + ":" + "60,3000:3,1,2" == "5,0:60,3000:3,1,2"
  {
  }

  lemma GluedMore()
    ensures "2,10" + ":" + "5,0:60,3000:3,1,2" == "2,10:5,0:60,3000:3,1,2"
    ensures "1" + ":" + "2,10:5,0:60,3000:3,1,2" == "1:2,10:5,0:60,3000:3,1,2"
    ensures "2" + ":" + "1:2,10:5,0:60,3000:3,1,2" == "2:1:2,10:5,0:60,3000:3,1,2"
  {
  }

  lemma DifferentText()
    ensures Q.Encode(DIFFERENT) == "2:1:2,10:5,0:60,3000:3,1,2"
  {
    QoSLayout(DIFFERENT);
    DifferentPieces();
    Glued();
    GluedMore();
  }

  lemma Shown(value: nat, default: nat, text: string)
    requires value != default && ToDec(value) == text
    ensures Q.Elide(value, default) == text
  {
  }

  // ----- tokens

  lemma LastFive(p: seq<string>)
    requires |p| == 9
    ensures Join(p[4..], '/') == p[4] + "/" + (p[5] + "/" + (p[6] + "/" + (p[7] + "/" + (p[8]))))
  {
    JoinFrom(p, 4, '/');
    JoinFrom(p, 5, '/');
    JoinFrom(p, 6, '/');
    JoinFrom(p, 7, '/');
    Ends(p, '/');
  }

  lemma NineParts(p: seq<string>)
    requires |p| == 9
    ensures Join(p, '/') ==
            p[0] + "/" + (p[1] + "/" + (p[2] + "/" + (p[3] + "/" + (p[4] + "/" +
              (p[5] + "/" + (p[6] + "/" + (p[7] + "/" + (p[8]))))))))
  {
    LastFive(p);
    JoinFrom(p, 0, '/');
    JoinFrom(p, 1, '/');
    JoinFrom(p, 2, '/');
    JoinFrom(p, 3, '/');
    Ends(p, '/');
  }

  lemma {:induction false} JoinAppend(a: seq<string>, b: seq<string>, d: char)
    requires a != [] && b != []
    ensures Join(a + b, d) == Join(a, d) + [d] + Join(b, d)
  {
    assert (a + b)[1..] == a[1..] + b;
    if |a| > 1 {
      JoinAppend(a[1..], b, d);
    } else {
      assert a[1..] + b == b;
    }
  }

  lemma FourParts(p: seq<string>)
    requires |p| == 4
    ensures Join(p, '/') == p[0] + "/" + (p[1] + "/" + (p[2] + "/" + (p[3])))
  {
    JoinFrom(p, 0, '/');
    JoinFrom(p, 1, '/');
    JoinFrom(p, 2, '/');
    Ends(p, '/');
  }

  lemma JoinedNode(e: Entity)
    requires Valid(e) && e.kind == Node
    ensures Token(e) == Join(NodeParts(e), '/')
  {
    PartsPlain(e);
    EmitIsJoin(TokenParts(e), 0, NODE_PARTS);
    assert TokenParts(e)[0..NODE_PARTS] == NodeParts(e);
  }

  lemma JoinedEndpoint(e: Entity)
    requires Valid(e) && e.kind != Node
    ensures Token(e) == Join(NodeParts(e), '/') + "/" + Join(TopicParts(e.topic), '/')
  {
    PartsPlain(e);
    EmitIsJoin(TokenParts(e), 0, ALL_PARTS);
    assert TokenParts(e)[0..ALL_PARTS] == TokenParts(e);
    JoinAppend(NodeParts(e), TopicParts(e.topic), '/');
  }

  /** The layout of a node's token. */
  lemma NodeToken(e: Entity)
    requires Valid(e) && e.kind == Node
    ensures Token(e) ==
            "@ros2_lv" + "/" + (ToDec(e.node.domainId) + "/" + (e.zid + "/" + (e.nid + "/" + (e.id + "/" + ("NN" + "/" +
            (Mangle(e.node.enclave) + "/" + (Mangle(e.node.ns) + "/" + (Mangle(e.node.name)))))))))
  {
    var p := NodeParts(e);
    JoinedNode(e);
    NineParts(p);
  }

  /** The layout of an endpoint's token, with the letters of its kind. */
  lemma EndpointToken(e: Entity)
    requires Valid(e) && e.kind != Node
    ensures var letters := match e.kind
                           case Publisher => "MP"
                           case Subscription => "MS"
                           case Service => "SS"
                           case Client => "SC"
                           case Node => "";
            var t := e.topic.value;
            Token(e) ==
            "@ros2_lv" + "/" + (ToDec(e.node.domainId) + "/" + (e.zid + "/" + (e.nid + "/" + (e.id + "/" +
             (letters + "/" +
            (Mangle(e.node.enclave) + "/" + (Mangle(e.node.ns) + "/" + (Mangle(e.node.name))))))))) + "/" + (
            (Mangle(t.name) + "/" + (Mangle(t.typ) + "/" + (Mangle(t.typeHash) + "/" + (Q.Encode(t.qos))))))
  {
    var p, t := NodeParts(e), TopicParts(e.topic);
    JoinedEndpoint(e);
    NineParts(p);
    FourParts(t);
  }
}

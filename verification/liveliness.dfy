/** Entities of the ROS graph and the liveliness tokens that announce them. */
module Liveliness {
  import opened Options
  import opened Decimal
  import opened KeyExpr
  import Q = QoSProfile

  datatype EntityType = Node | Publisher | Subscription | Service | Client

  datatype NodeInfo = NodeInfo(domainId: nat, ns: string, name: string, enclave: string)

  datatype TopicInfo = TopicInfo(name: string, typ: string, typeHash: string, qos: Q.QoS)

  datatype Entity = Entity(
    zid: string,
    nid: string,
    id: string,
    kind: EntityType,
    node: NodeInfo,
    topic: Option<TopicInfo>)

  /** The outcome of building an entity from a token: an entity, a rejected token, or an escaping exception. */
  datatype ParseResult = Parsed(entity: Entity) | Rejected | Threw

  const ADMIN_SPACE := "@ros2_lv"
  const NODE_PARTS := 9
  const ALL_PARTS := 13

  function KindText(k: EntityType): string {
    match k
    case Node => "NN"
    case Publisher => "MP"
    case Subscription => "MS"
    case Service => "SS"
    case Client => "SC"
  }

  function KindOf(s: string): Option<EntityType> {
    if s == "NN" then Some(Node)
    else if s == "MP" then Some(Publisher)
    else if s == "MS" then Some(Subscription)
    else if s == "SS" then Some(Service)
    else if s == "SC" then Some(Client)
    else None
  }

  // ----- printing

  function NodeParts(e: Entity): (parts: seq<string>)
    ensures |parts| == NODE_PARTS
  {
    [ADMIN_SPACE, ToDec(e.node.domainId), e.zid, e.nid, e.id, KindText(e.kind),
     Mangle(e.node.enclave), Mangle(e.node.ns), Mangle(e.node.name)]
  }

  function TopicParts(t: Option<TopicInfo>): (parts: seq<string>)
    ensures |parts| == ALL_PARTS - NODE_PARTS
  {
    match t
    case None => ["", "", "", ""]
    case Some(t) => [Mangle(t.name), Mangle(t.typ), Mangle(t.typeHash), Q.Encode(t.qos)]
  }

  function TokenParts(e: Entity): (parts: seq<string>)
    ensures |parts| == ALL_PARTS
  {
    NodeParts(e) + TopicParts(e.topic)
  }

  /** The constructor prints parts until the first empty one. */
  function Emit(parts: seq<string>, i: nat): string
    requires i < |parts|
    decreases |parts| - i
  {
    if i + 1 == |parts| || parts[i + 1] == "" then parts[i]
    else parts[i] + [SLASH] + Emit(parts, i + 1)
  }

  predicate Prints(e: Entity) {
    e.topic.Some? ==> Q.InTables(e.topic.value.qos)
  }

  /** The liveliness key expression of an entity. */
  function Token(e: Entity): string {
    Emit(TokenParts(e), 0)
  }

  /** The printing loop of the `Entity` constructor. */
  method EmitParts(parts: seq<string>) returns (keyexpr: string)
    requires |parts| == ALL_PARTS
    ensures keyexpr == Emit(parts, 0)
  {
    keyexpr := "";
    var i := 0;
    while true
      invariant 0 <= i < ALL_PARTS
      invariant Emit(parts, 0) == keyexpr + Emit(parts, i)
      decreases ALL_PARTS - i
    {
      ghost var before := keyexpr;
      if parts[i] != "" {
        keyexpr := keyexpr + parts[i];
      }
      assert keyexpr == before + parts[i];
      if i == ALL_PARTS - 1 || parts[i + 1] == "" {
        break;
      }
      keyexpr := keyexpr + [SLASH];
      i := i + 1;
      assert Emit(parts, 0) == before + (parts[i - 1] + [SLASH] + Emit(parts, i));
    }
  }

  /** The token-building part of the `Entity` constructor; `None` when the QoS encoder throws. */
  method BuildToken(e: Entity) returns (r: Option<string>)
    ensures r == if Prints(e) then Some(Token(e)) else None
  {
    var parts := NodeParts(e) + ["", "", "", ""];
    if e.topic.Some? {
      var t := e.topic.value;
      var qos := Q.QosToKeyexpr(t.qos);
      if qos.None? { return None; }
      parts := parts[9 := Mangle(t.name)][10 := Mangle(t.typ)][11 := Mangle(t.typeHash)][12 := qos.value];
    }
    assert parts == TokenParts(e);
    var keyexpr := EmitParts(parts);
    return Some(keyexpr);
  }

  // ----- parsing

  predicate NoEmpty(parts: seq<string>) {
    forall i | 0 <= i < |parts| :: parts[i] != ""
  }

  function NodeInfoOf(domainId: nat, parts: seq<string>): NodeInfo
    requires |parts| >= NODE_PARTS
  {
    NodeInfo(domainId, Demangle(parts[7]), Demangle(parts[8]), Demangle(parts[6]))
  }

  function TopicInfoOf(parts: seq<string>): Option<TopicInfo>
    requires |parts| >= ALL_PARTS
  {
    match Q.Decode(parts[12])
    case None => None
    case Some(qos) => Some(TopicInfo(Demangle(parts[9]), Demangle(parts[10]), Demangle(parts[11]), qos))
  }

  function ParseParts(parts: seq<string>): ParseResult {
    if |parts| < NODE_PARTS || !NoEmpty(parts) || parts[0] != ADMIN_SPACE then Rejected else
    var kind := KindOf(parts[5]);
    if kind.None? then Rejected else
    var domainId := Stoul(parts[1]);
    if domainId.None? then Threw else
    var node := NodeInfoOf(domainId.value, parts);
    if kind.value == Node then Parsed(Entity(parts[2], parts[3], parts[4], Node, node, None))
    else if |parts| < ALL_PARTS then Rejected else
    var topic := TopicInfoOf(parts);
    if topic.None? then Rejected
    else Parsed(Entity(parts[2], parts[3], parts[4], kind.value, node, topic))
  }

  /** `Entity::make` from a key expression. */
  function Parse(keyexpr: string): ParseResult {
    ParseParts(Split(keyexpr, SLASH))
  }

  method HasEmpty(parts: seq<string>) returns (r: bool)
    ensures r == !NoEmpty(parts)
  {
    for i := 0 to |parts|
      invariant forall j | 0 <= j < i :: parts[j] != ""
    {
      if parts[i] == "" { return true; }
    }
    return false;
  }

  method MakeNodeInfo(domainId: nat, parts: seq<string>) returns (node: NodeInfo)
    requires |parts| >= NODE_PARTS
    ensures node == NodeInfoOf(domainId, parts)
  {
    var enclave := DemangleName(parts[6]);
    var ns := DemangleName(parts[7]);
    var name := DemangleName(parts[8]);
    return NodeInfo(domainId, ns, name, enclave);
  }

  method MakeTopicInfo(parts: seq<string>) returns (topic: Option<TopicInfo>)
    requires |parts| >= ALL_PARTS
    ensures topic == TopicInfoOf(parts)
  {
    var qos := Q.KeyexprToQos(parts[12]);
    if qos.None? { return None; }
    var name := DemangleName(parts[9]);
    var typ := DemangleName(parts[10]);
    var typeHash := DemangleName(parts[11]);
    return Some(TopicInfo(name, typ, typeHash, qos.value));
  }

  /** `Entity::make`, one check after the other. */
  method Make(keyexpr: string) returns (r: ParseResult)
    ensures r == Parse(keyexpr)
  {
    var parts := SplitKeyexpr(keyexpr, SLASH);
    if |parts| < NODE_PARTS { return Rejected; }
    var empty := HasEmpty(parts);
    if empty || parts[0] != ADMIN_SPACE { return Rejected; }
    var kind := KindOf(parts[5]);
    if kind.None? { return Rejected; }
    var domainId := Stoul(parts[1]);
    if domainId.None? { return Threw; }
    var node := MakeNodeInfo(domainId.value, parts);
    if kind.value == Node {
      return Parsed(Entity(parts[2], parts[3], parts[4], Node, node, None));
    }
    if |parts| < ALL_PARTS { return Rejected; }
    var topic := MakeTopicInfo(parts);
    if topic.None? { return Rejected; }
    return Parsed(Entity(parts[2], parts[3], parts[4], kind.value, node, topic));
  }

  // ----- the round trip

  predicate PlainPart(s: string) {
    s != "" && SLASH !in s
  }

  predicate MangledPart(s: string) {
    s != "" && SLASH_REPLACEMENT !in s
  }

  predicate ValidTopic(t: TopicInfo) {
    MangledPart(t.name) && MangledPart(t.typ) && MangledPart(t.typeHash) && Q.Encodable(t.qos)
  }

  /** The entities a token can carry; every clause can be checked on the fields before printing. */
  predicate Valid(e: Entity) {
    && PlainPart(e.zid) && PlainPart(e.nid) && PlainPart(e.id)
    && e.node.domainId <= UINT64_MAX
    && MangledPart(e.node.enclave) && MangledPart(e.node.ns) && MangledPart(e.node.name)
    && (e.topic.None? <==> e.kind == Node)
    && (e.topic.Some? ==> ValidTopic(e.topic.value))
  }

  lemma {:induction false} EmitIsJoin(parts: seq<string>, i: nat, n: nat)
    requires i < n <= |parts|
    requires forall j | i < j < n :: parts[j] != ""
    requires n < |parts| ==> parts[n] == ""
    ensures Emit(parts, i) == Join(parts[i..n], SLASH)
    decreases n - i
  {
    if i + 1 < n {
      EmitIsJoin(parts, i + 1, n);
      assert parts[i..n][1..] == parts[i + 1..n];
    }
  }

  lemma NodePartsPlain(e: Entity)
    requires Valid(e)
    ensures forall i | 0 <= i < NODE_PARTS :: PlainPart(NodeParts(e)[i])
  {
    DemangleOfMangle(e.node.enclave);
    DemangleOfMangle(e.node.ns);
    DemangleOfMangle(e.node.name);
  }

  lemma TopicPartsPlain(t: TopicInfo)
    requires ValidTopic(t)
    ensures forall i | 0 <= i < 4 :: PlainPart(TopicParts(Some(t))[i])
  {
    DemangleOfMangle(t.name);
    DemangleOfMangle(t.typ);
    DemangleOfMangle(t.typeHash);
    TextHasNoSlash(t.qos);
  }

  lemma TextHasNoSlash(q: Q.QoS)
    ensures PlainPart(Q.Encode(q))
  {
    Q.EncodeText(q);
  }

  lemma PartsPlain(e: Entity)
    requires Valid(e)
    ensures forall i | 0 <= i < NODE_PARTS :: PlainPart(TokenParts(e)[i])
    ensures e.topic.Some? ==> forall i | NODE_PARTS <= i < ALL_PARTS :: PlainPart(TokenParts(e)[i])
    ensures e.topic.None? ==> TokenParts(e)[NODE_PARTS] == ""
  {
    var parts := TokenParts(e);
    NodePartsPlain(e);
    assert forall i | 0 <= i < NODE_PARTS :: parts[i] == NodeParts(e)[i];
    assert forall i | NODE_PARTS <= i < ALL_PARTS :: parts[i] == TopicParts(e.topic)[i - NODE_PARTS];
    if e.topic.Some? {
      TopicPartsPlain(e.topic.value);
    }
  }

  lemma EmittedSplits(parts: seq<string>, n: nat)
    requires 0 < n <= |parts| && (n < |parts| ==> parts[n] == "")
    requires forall i | 0 <= i < n :: PlainPart(parts[i])
    ensures Split(Emit(parts, 0), SLASH) == parts[..n] && NoEmpty(parts[..n])
  {
    EmitIsJoin(parts, 0, n);
    assert parts[0..n] == parts[..n];
    SplitOfJoin(parts[..n], SLASH);
  }

  lemma TokenSplits(e: Entity)
    requires Valid(e)
    ensures Split(Token(e), SLASH) == if e.kind == Node then NodeParts(e) else TokenParts(e)
    ensures NoEmpty(Split(Token(e), SLASH))
  {
    var parts := TokenParts(e);
    PartsPlain(e);
    if e.topic.Some? {
      EmittedSplits(parts, ALL_PARTS);
      assert parts[..ALL_PARTS] == parts;
    } else {
      EmittedSplits(parts, NODE_PARTS);
      assert parts[..NODE_PARTS] == NodeParts(e);
    }
  }

  lemma NodeInfoOfToken(e: Entity, parts: seq<string>)
    requires Valid(e) && NodeParts(e) <= parts
    ensures NodeInfoOf(e.node.domainId, parts) == e.node
  {
    assert parts[6] == NodeParts(e)[6] && parts[7] == NodeParts(e)[7] && parts[8] == NodeParts(e)[8];
    DemangleOfMangle(e.node.enclave);
    DemangleOfMangle(e.node.ns);
    DemangleOfMangle(e.node.name);
  }

  lemma TopicInfoOfToken(e: Entity)
    requires Valid(e) && e.topic.Some?
    ensures TopicInfoOf(TokenParts(e)) == e.topic
  {
    var t := e.topic.value;
    var parts := TokenParts(e);
    assert forall i | NODE_PARTS <= i < ALL_PARTS :: parts[i] == TopicParts(e.topic)[i - NODE_PARTS];
    DemangleOfMangle(t.name);
    DemangleOfMangle(t.typ);
    DemangleOfMangle(t.typeHash);
    assert parts[12] == Q.Encode(t.qos);
    Q.DecodeOfEncode(t.qos);
  }

  lemma ParsePartsOf(e: Entity, parts: seq<string>)
    requires Valid(e) && NoEmpty(parts) && NodeParts(e) <= parts
    requires e.kind != Node ==> |parts| >= ALL_PARTS && TopicInfoOf(parts) == e.topic
    ensures ParseParts(parts) == Parsed(e)
  {
    var head := NodeParts(e);
    assert parts[0] == head[0] && parts[1] == head[1] && parts[2] == head[2];
    assert parts[3] == head[3] && parts[4] == head[4] && parts[5] == head[5];
    assert KindOf(parts[5]) == Some(e.kind);
    StoulOfToDec(e.node.domainId);
    NodeInfoOfToken(e, parts);
  }

  lemma ParseOfToken(e: Entity)
    requires Valid(e)
    ensures Parse(Token(e)) == Parsed(e)
  {
    TokenSplits(e);
    if e.topic.Some? {
      TopicInfoOfToken(e);
    }
    ParsePartsOf(e, Split(Token(e), SLASH));
  }

  /** Whatever token is parsed, the entity obtained is valid. */
  lemma ParseRange(keyexpr: string)
    ensures Parse(keyexpr).Parsed? ==> Valid(Parse(keyexpr).entity)
  {
    if Parse(keyexpr).Parsed? {
      JoinOfSplit(keyexpr, SLASH);
      var parts := Split(keyexpr, SLASH);
      assert PlainPart(parts[2]) && PlainPart(parts[3]) && PlainPart(parts[4]);
      assert parts[6] != "" && parts[7] != "" && parts[8] != "";
      DemangleHasNoReplacement(parts[6]);
      DemangleHasNoReplacement(parts[7]);
      DemangleHasNoReplacement(parts[8]);
      if KindOf(parts[5]) != Some(Node) {
        assert parts[9] != "" && parts[10] != "" && parts[11] != "";
        DemangleHasNoReplacement(parts[9]);
        DemangleHasNoReplacement(parts[10]);
        DemangleHasNoReplacement(parts[11]);
        Q.DecodeRange(parts[12]);
      }
    }
  }

  /** An entity comes back from its own token exactly when it is valid. */
  lemma RoundTripIff(e: Entity)
    ensures Parse(Token(e)) == Parsed(e) <==> Valid(e)
  {
    if Valid(e) {
      ParseOfToken(e);
    }
    ParseRange(Token(e));
  }

  /** Distinct valid entities have distinct tokens. */
  lemma TokenInjective(a: Entity, b: Entity)
    requires Valid(a) && Valid(b) && Token(a) == Token(b)
    ensures a == b
  {
    ParseOfToken(a);
    ParseOfToken(b);
  }

  /** A received token may differ from the one its entity prints (extra parts, leading zeros), but the
      printed one is accepted and means the same entity. */
  lemma ReprintIsStable(keyexpr: string)
    requires Parse(keyexpr).Parsed?
    ensures Prints(Parse(keyexpr).entity)
    ensures Parse(Token(Parse(keyexpr).entity)) == Parse(keyexpr)
  {
    ParseRange(keyexpr);
    ParseOfToken(Parse(keyexpr).entity);
  }

  // ----- topic key expressions

  /** `strip_slashes`, with the `size_t` wrap-around that a lone slash causes. */
  function StripSlashes(s: string): string
    requires s != ""
  {
    var start := if s[0] == SLASH then 1 else 0;
    var end := if s[|s| - 1] == SLASH then |s| - 2 else |s| - 1;
    if end < start then "" else s[start..end + 1]
  }

  /** The key expression on which the data of a topic travels. */
  function TopicKeyexpr(domainId: nat, t: TopicInfo): string
    requires t.name != ""
  {
    ToDec(domainId) + [SLASH] + StripSlashes(t.name) + [SLASH] + t.typ + [SLASH] + t.typeHash
  }

  /** One slash at either end is stripped, and a lone slash disappears. */
  lemma StripSlashesOf(core: string)
    requires core != "" && core[0] != SLASH && core[|core| - 1] != SLASH
    ensures StripSlashes(core) == core && StripSlashes([SLASH] + core) == core
    ensures StripSlashes(core + [SLASH]) == core && StripSlashes([SLASH] + core + [SLASH]) == core
    ensures StripSlashes([SLASH]) == ""
  {
    assert ([SLASH] + core)[1..|core| + 1] == core && (core + [SLASH])[0..|core|] == core;
    assert ([SLASH] + core + [SLASH])[1..|core| + 1] == core && core[0..|core|] == core;
  }

  lemma DigitsEnd(a: string, b: string, x: string, y: string)
    requires AllDigits(a) && AllDigits(b) && a + [SLASH] + x == b + [SLASH] + y
    ensures a == b && x == y
  {
    var s := a + [SLASH] + x;
    assert s[|a|] == SLASH && s[|b|] == SLASH;
    assert forall i | 0 <= i < |a| :: s[i] == a[i] && IsDigit(a[i]);
    assert forall i | 0 <= i < |b| :: s[i] == b[i] && IsDigit(b[i]);
    assert |a| == |b|;
    assert a == s[..|a|] && b == s[..|b|] && x == s[|a| + 1..] && y == s[|b| + 1..];
  }

  /** For one topic name and type, data travels together exactly within one domain and for one type hash. */
  lemma TopicKeyexprIff(c: nat, d: nat, s: TopicInfo, t: TopicInfo)
    requires s.name == t.name != "" && s.typ == t.typ
    ensures TopicKeyexpr(c, s) == TopicKeyexpr(d, t) <==> c == d && s.typeHash == t.typeHash
  {
    var front := StripSlashes(s.name) + [SLASH] + s.typ + [SLASH];
    assert TopicKeyexpr(c, s) == ToDec(c) + [SLASH] + (front + s.typeHash);
    assert TopicKeyexpr(d, t) == ToDec(d) + [SLASH] + (front + t.typeHash);
    if TopicKeyexpr(c, s) == TopicKeyexpr(d, t) {
      DigitsEnd(ToDec(c), ToDec(d), front + s.typeHash, front + t.typeHash);
      ToDecInjective(c, d);
      assert (front + s.typeHash)[|front|..] == s.typeHash && (front + t.typeHash)[|front|..] == t.typeHash;
    }
  }
}

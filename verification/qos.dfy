/** QoS profiles, their adaptation to supported settings, and their encoding inside a liveliness token. */
module QoSProfile {
  import opened Options
  import opened Decimal
  import opened KeyExpr

  /** A duration: both components are 64-bit unsigned. */
  datatype Time = Time(sec: nat, nsec: nat)

  /** The policy fields hold the numeric values of the `rmw` enums, which a C caller may set to anything. */
  datatype QoS = QoS(
    reliability: nat,
    durability: nat,
    history: nat,
    depth: nat,
    deadline: Time,
    lifespan: Time,
    liveliness: nat,
    lease: Time)

  const SYSTEM_DEFAULT := 0

  const RELIABILITY_RELIABLE := 1
  const RELIABILITY_BEST_EFFORT := 2
  const RELIABILITY_UNKNOWN := 3
  const RELIABILITY_BEST_AVAILABLE := 4

  const DURABILITY_TRANSIENT_LOCAL := 1
  const DURABILITY_VOLATILE := 2
  const DURABILITY_UNKNOWN := 3
  const DURABILITY_BEST_AVAILABLE := 4

  const HISTORY_KEEP_LAST := 1
  const HISTORY_KEEP_ALL := 2
  const HISTORY_UNKNOWN := 3

  const LIVELINESS_AUTOMATIC := 1
  const LIVELINESS_MANUAL_BY_TOPIC := 3
  const LIVELINESS_UNKNOWN := 4
  const LIVELINESS_BEST_AVAILABLE := 5

  // The values for which the encoder and the decoder have a table entry.
  const RELIABILITY_TABLE: set<nat> := {SYSTEM_DEFAULT, RELIABILITY_RELIABLE, RELIABILITY_BEST_EFFORT,
    RELIABILITY_UNKNOWN, RELIABILITY_BEST_AVAILABLE}
  const DURABILITY_TABLE: set<nat> := {SYSTEM_DEFAULT, DURABILITY_TRANSIENT_LOCAL, DURABILITY_VOLATILE,
    DURABILITY_UNKNOWN, DURABILITY_BEST_AVAILABLE}
  const HISTORY_TABLE: set<nat> := {SYSTEM_DEFAULT, HISTORY_KEEP_LAST, HISTORY_KEEP_ALL, HISTORY_UNKNOWN}
  const LIVELINESS_TABLE: set<nat> := {SYSTEM_DEFAULT, LIVELINESS_AUTOMATIC, LIVELINESS_MANUAL_BY_TOPIC,
    LIVELINESS_UNKNOWN, LIVELINESS_BEST_AVAILABLE}

  const INFINITE := Time(9223372036, 854775807)
  const UNSPECIFIED := Time(0, 0)

  const DEFAULT_QOS := QoS(RELIABILITY_RELIABLE, DURABILITY_VOLATILE, HISTORY_KEEP_LAST, 42,
    INFINITE, INFINITE, LIVELINESS_AUTOMATIC, INFINITE)

  const QOS_DELIMITER := ':'
  const COMPONENT_DELIMITER := ','

  predicate InTables(q: QoS) {
    && q.reliability in RELIABILITY_TABLE
    && q.durability in DURABILITY_TABLE
    && q.history in HISTORY_TABLE
    && q.liveliness in LIVELINESS_TABLE
  }

  predicate TimeFits(t: Time) {
    t.sec <= UINT64_MAX && t.nsec <= UINT64_MAX
  }

  /** A profile whose enums have table entries and whose numbers fit their C types. */
  predicate Encodable(q: QoS) {
    InTables(q) && q.depth <= UINT64_MAX && TimeFits(q.deadline) && TimeFits(q.lifespan) && TimeFits(q.lease)
  }

  // ----- encoding

  /** A field equal to its default is left out. */
  function Elide(value: nat, default: nat): (s: string)
    ensures AllDigits(s)
  {
    if value == default then "" else ToDec(value)
  }

  function TimeText(t: Time, default: Time): string {
    Elide(t.sec, default.sec) + [COMPONENT_DELIMITER] + Elide(t.nsec, default.nsec)
  }

  function HistoryText(q: QoS): string {
    Elide(q.history, DEFAULT_QOS.history) + [COMPONENT_DELIMITER] + Elide(q.depth, DEFAULT_QOS.depth)
  }

  function LivelinessText(q: QoS): string {
    Elide(q.liveliness, DEFAULT_QOS.liveliness) + [COMPONENT_DELIMITER] + TimeText(q.lease, DEFAULT_QOS.lease)
  }

  function QoSParts(q: QoS): (parts: seq<string>)
    ensures |parts| == 6
  {
    var d := DEFAULT_QOS;
    [Elide(q.reliability, d.reliability),
     Elide(q.durability, d.durability),
     HistoryText(q),
     TimeText(q.deadline, d.deadline),
     TimeText(q.lifespan, d.lifespan),
     LivelinessText(q)]
  }

  /** The text of a profile: six groups, the last four made of components. */
  function Encode(q: QoS): string {
    Join(QoSParts(q), QOS_DELIMITER)
  }

  /** Appends one policy; the table lookup throws (`None`) on a non-default value without an entry. */
  method AppendPolicy(keyexpr: string, value: nat, default: nat, table: set<nat>) returns (r: Option<string>)
    requires default in table
    ensures r == if value in table then Some(keyexpr + Elide(value, default)) else None
  {
    if value == default {
      assert keyexpr + "" == keyexpr;
      return Some(keyexpr);
    }
    return if value in table then Some(keyexpr + ToDec(value)) else None;
  }

  method AppendNumber(keyexpr: string, value: nat, default: nat) returns (r: string)
    ensures r == keyexpr + Elide(value, default)
  {
    r := keyexpr;
    if value != default {
      r := r + ToDec(value);
    }
  }

  method AppendTime(keyexpr: string, t: Time, default: Time) returns (r: string)
    ensures r == keyexpr + TimeText(t, default)
  {
    r := AppendNumber(keyexpr, t.sec, default.sec);
    r := r + [COMPONENT_DELIMITER];
    r := AppendNumber(r, t.nsec, default.nsec);
  }

  method AppendHistory(keyexpr: string, qos: QoS) returns (r: Option<string>)
    ensures r == if qos.history in HISTORY_TABLE then Some(keyexpr + HistoryText(qos)) else None
  {
    var k := AppendPolicy(keyexpr, qos.history, DEFAULT_QOS.history, HISTORY_TABLE);
    if k.None? { return None; }
    var s := AppendNumber(k.value + [COMPONENT_DELIMITER], qos.depth, DEFAULT_QOS.depth);
    assert s == keyexpr + HistoryText(qos);
    return Some(s);
  }

  method AppendLiveliness(keyexpr: string, qos: QoS) returns (r: Option<string>)
    ensures r == if qos.liveliness in LIVELINESS_TABLE then Some(keyexpr + LivelinessText(qos)) else None
  {
    var k := AppendPolicy(keyexpr, qos.liveliness, DEFAULT_QOS.liveliness, LIVELINESS_TABLE);
    if k.None? { return None; }
    var s := AppendTime(k.value + [COMPONENT_DELIMITER], qos.lease, DEFAULT_QOS.lease);
    assert s == keyexpr + LivelinessText(qos);
    return Some(s);
  }

  lemma EncodeText(q: QoS)
    ensures var d := DEFAULT_QOS;
      Encode(q) == Elide(q.reliability, d.reliability) + [QOS_DELIMITER] + Elide(q.durability, d.durability)
        + [QOS_DELIMITER] + HistoryText(q) + [QOS_DELIMITER] + TimeText(q.deadline, d.deadline)
        + [QOS_DELIMITER] + TimeText(q.lifespan, d.lifespan) + [QOS_DELIMITER] + LivelinessText(q)
  {
    JoinSix(QoSParts(q), QOS_DELIMITER);
  }

  /** `qos_to_keyexpr`: throws (`None`) when a non-default enum value has no table entry. */
  method QosToKeyexpr(qos: QoS) returns (r: Option<string>)
    ensures r == if InTables(qos) then Some(Encode(qos)) else None
  {
    var d := DEFAULT_QOS;
    var k := AppendPolicy("", qos.reliability, d.reliability, RELIABILITY_TABLE);
    if k.None? { return None; }
    assert k.value == Elide(qos.reliability, d.reliability);
    k := AppendPolicy(k.value + [QOS_DELIMITER], qos.durability, d.durability, DURABILITY_TABLE);
    if k.None? { return None; }
    k := AppendHistory(k.value + [QOS_DELIMITER], qos);
    if k.None? { return None; }
    var keyexpr := AppendTime(k.value + [QOS_DELIMITER], qos.deadline, d.deadline);
    keyexpr := AppendTime(keyexpr + [QOS_DELIMITER], qos.lifespan, d.lifespan);
    EncodeText(qos);
    r := AppendLiveliness(keyexpr + [QOS_DELIMITER], qos);
  }

  lemma JoinSix(parts: seq<string>, d: char)
    requires |parts| == 6
    ensures Join(parts, d) ==
      parts[0] + [d] + parts[1] + [d] + parts[2] + [d] + parts[3] + [d] + parts[4] + [d] + parts[5]
  {
    assert Join(parts[4..], d) == parts[4] + [d] + parts[5];
    assert Join(parts[3..], d) == parts[3] + [d] + Join(parts[4..], d);
    assert Join(parts[2..], d) == parts[2] + [d] + Join(parts[3..], d);
    assert Join(parts[1..], d) == parts[1] + [d] + Join(parts[2..], d);
    assert parts == parts[0..];
  }

  // ----- decoding

  /** A table lookup by text: the printed form of a table entry, or the default for the empty text. */
  function Lookup(s: string, default: nat, table: set<nat>): (r: Option<nat>)
    ensures r.Some? ==> r.value == default || r.value in table
  {
    if s == "" then Some(default)
    else if exists v | v in table :: ToDec(v) == s then Some(LookupEntry(s, table))
    else None
  }

  function LookupEntry(s: string, table: set<nat>): (v: nat)
    requires exists v | v in table :: ToDec(v) == s
    ensures v in table && ToDec(v) == s
  {
    assert forall m, n | ToDec(m) == s && ToDec(n) == s :: m == n by {
      forall m, n | ToDec(m) == s && ToDec(n) == s ensures m == n { ToDecInjective(m, n); }
    }
    var v :| v in table && ToDec(v) == s;
    v
  }

  function DecodeTime(sec: string, nsec: string, default: Time): Option<Time> {
    var s := StrToSize(sec, default.sec);
    var n := StrToSize(nsec, default.nsec);
    if s.None? || n.None? then None else Some(Time(s.value, n.value))
  }

  /** `keyexpr_to_qos`: extra groups and components are ignored, missing ones are an error. */
  function Decode(keyexpr: string): Option<QoS> {
    var d := DEFAULT_QOS;
    var parts := Split(keyexpr, QOS_DELIMITER);
    if |parts| < 6 then None else
    var history := Split(parts[2], COMPONENT_DELIMITER);
    if |history| < 2 then None else
    var deadline := Split(parts[3], COMPONENT_DELIMITER);
    if |deadline| < 2 then None else
    var lifespan := Split(parts[4], COMPONENT_DELIMITER);
    if |lifespan| < 2 then None else
    var liveliness := Split(parts[5], COMPONENT_DELIMITER);
    if |liveliness| < 3 then None else
    var h := Lookup(history[0], d.history, HISTORY_TABLE);
    var r := Lookup(parts[0], d.reliability, RELIABILITY_TABLE);
    var u := Lookup(parts[1], d.durability, DURABILITY_TABLE);
    var l := Lookup(liveliness[0], d.liveliness, LIVELINESS_TABLE);
    if h.None? || r.None? || u.None? || l.None? then None else
    var depth := StrToSize(history[1], d.depth);
    var dead := DecodeTime(deadline[0], deadline[1], d.deadline);
    var life := DecodeTime(lifespan[0], lifespan[1], d.lifespan);
    var lease := DecodeTime(liveliness[1], liveliness[2], d.lease);
    if depth.None? || dead.None? || life.None? || lease.None? then None
    else Some(QoS(r.value, u.value, h.value, depth.value, dead.value, life.value, l.value, lease.value))
  }

  /** `keyexpr_to_qos`, reading one part after the other. */
  method KeyexprToQos(keyexpr: string) returns (r: Option<QoS>)
    ensures r == Decode(keyexpr)
  {
    var d := DEFAULT_QOS;
    var parts := SplitKeyexpr(keyexpr, QOS_DELIMITER);
    if |parts| < 6 { return None; }
    var history := SplitKeyexpr(parts[2], COMPONENT_DELIMITER);
    if |history| < 2 { return None; }
    var deadline := SplitKeyexpr(parts[3], COMPONENT_DELIMITER);
    if |deadline| < 2 { return None; }
    var lifespan := SplitKeyexpr(parts[4], COMPONENT_DELIMITER);
    if |lifespan| < 2 { return None; }
    var liveliness := SplitKeyexpr(parts[5], COMPONENT_DELIMITER);
    if |liveliness| < 3 { return None; }
    var h := Lookup(history[0], d.history, HISTORY_TABLE);
    var e := Lookup(parts[0], d.reliability, RELIABILITY_TABLE);
    var u := Lookup(parts[1], d.durability, DURABILITY_TABLE);
    var l := Lookup(liveliness[0], d.liveliness, LIVELINESS_TABLE);
    if h.None? || e.None? || u.None? || l.None? { return None; }
    var depth := StrToSize(history[1], d.depth);
    var dead := DecodeTime(deadline[0], deadline[1], d.deadline);
    var life := DecodeTime(lifespan[0], lifespan[1], d.lifespan);
    var lease := DecodeTime(liveliness[1], liveliness[2], d.lease);
    if depth.None? || dead.None? || life.None? || lease.None? { return None; }
    return Some(QoS(e.value, u.value, h.value, depth.value, dead.value, life.value, l.value, lease.value));
  }

  // ----- the round trip

  lemma LookupOfElide(v: nat, default: nat, table: set<nat>)
    requires v in table
    ensures Lookup(Elide(v, default), default, table) == Some(v)
  {
    if v != default {
      assert ToDec(v) == Elide(v, default);
      var w := LookupEntry(ToDec(v), table);
      ToDecInjective(v, w);
    }
  }

  lemma StrToSizeOfElide(v: nat, default: nat)
    requires v <= UINT64_MAX
    ensures StrToSize(Elide(v, default), default) == Some(v)
  {
    ValueOfToDec(v);
  }

  lemma PairSplits(a: string, b: string)
    requires AllDigits(a) && AllDigits(b)
    ensures Split(a + [COMPONENT_DELIMITER] + b, COMPONENT_DELIMITER) == [a, b]
  {
    SplitHead(a, b, COMPONENT_DELIMITER);
    SplitWhole(b, COMPONENT_DELIMITER);
  }

  lemma LivelinessSplits(q: QoS)
    ensures Split(LivelinessText(q), COMPONENT_DELIMITER) ==
      [Elide(q.liveliness, DEFAULT_QOS.liveliness),
       Elide(q.lease.sec, DEFAULT_QOS.lease.sec), Elide(q.lease.nsec, DEFAULT_QOS.lease.nsec)]
  {
    SplitHead(Elide(q.liveliness, DEFAULT_QOS.liveliness), TimeText(q.lease, DEFAULT_QOS.lease), COMPONENT_DELIMITER);
    PairSplits(Elide(q.lease.sec, DEFAULT_QOS.lease.sec), Elide(q.lease.nsec, DEFAULT_QOS.lease.nsec));
  }

  lemma EncodeSplits(q: QoS)
    ensures Split(Encode(q), QOS_DELIMITER) == QoSParts(q)
    ensures forall i | 0 <= i < 6 :: SLASH !in QoSParts(q)[i]
  {
    SplitOfJoin(QoSParts(q), QOS_DELIMITER);
  }

  lemma DecodeTimeOfElide(t: Time, default: Time)
    requires TimeFits(t)
    ensures DecodeTime(Elide(t.sec, default.sec), Elide(t.nsec, default.nsec), default) == Some(t)
    ensures Split(TimeText(t, default), COMPONENT_DELIMITER) ==
      [Elide(t.sec, default.sec), Elide(t.nsec, default.nsec)]
  {
    StrToSizeOfElide(t.sec, default.sec);
    StrToSizeOfElide(t.nsec, default.nsec);
    PairSplits(Elide(t.sec, default.sec), Elide(t.nsec, default.nsec));
  }

  lemma DecodeOfEncode(q: QoS)
    requires Encodable(q)
    ensures Decode(Encode(q)) == Some(q)
  {
    var d := DEFAULT_QOS;
    EncodeSplits(q);
    PairSplits(Elide(q.history, d.history), Elide(q.depth, d.depth));
    LivelinessSplits(q);
    LookupOfElide(q.reliability, d.reliability, RELIABILITY_TABLE);
    LookupOfElide(q.durability, d.durability, DURABILITY_TABLE);
    LookupOfElide(q.history, d.history, HISTORY_TABLE);
    LookupOfElide(q.liveliness, d.liveliness, LIVELINESS_TABLE);
    StrToSizeOfElide(q.depth, d.depth);
    DecodeTimeOfElide(q.deadline, d.deadline);
    DecodeTimeOfElide(q.lifespan, d.lifespan);
    DecodeTimeOfElide(q.lease, d.lease);
  }

  /** Whatever text is decoded, the profile obtained is encodable. */
  lemma DecodeRange(keyexpr: string)
    ensures Decode(keyexpr).Some? ==> Encodable(Decode(keyexpr).value)
  {
  }

  /** A profile survives the trip through its text exactly when it is encodable. */
  lemma RoundTripIff(q: QoS)
    ensures Decode(Encode(q)) == Some(q) <==> Encodable(q)
  {
    if Encodable(q) {
      DecodeOfEncode(q);
    }
    DecodeRange(Encode(q));
  }

  /** Two profiles with the same text are the same profile, so a QoS bucket key determines the QoS. */
  lemma EncodeInjective(p: QoS, q: QoS)
    requires Encodable(p) && Encodable(q) && Encode(p) == Encode(q)
    ensures p == q
  {
    DecodeOfEncode(p);
    DecodeOfEncode(q);
  }

  // ----- adaptation

  predicate Supported(q: QoS) {
    && q.history != HISTORY_UNKNOWN
    && q.reliability != RELIABILITY_UNKNOWN
    && q.durability != DURABILITY_UNKNOWN
    && q.liveliness != LIVELINESS_UNKNOWN
  }

  function OrDefault(v: nat, default: nat): nat {
    if v == SYSTEM_DEFAULT then default else v
  }

  function TimeOrDefault(t: Time, default: Time): Time {
    if t == UNSPECIFIED then default else t
  }

  /** `QoS::best_available_qos`: `None` stands for `RMW_RET_UNSUPPORTED`. */
  function Adapt(q: QoS): (r: Option<QoS>) {
    var d := DEFAULT_QOS;
    if !Supported(q) then None else
    Some(QoS(
      OrDefault(q.reliability, d.reliability),
      OrDefault(q.durability, d.durability),
      OrDefault(q.history, d.history),
      if q.depth == 0 then d.depth else q.depth,
      TimeOrDefault(q.deadline, d.deadline),
      TimeOrDefault(q.lifespan, d.lifespan),
      OrDefault(q.liveliness, d.liveliness),
      TimeOrDefault(q.lease, d.lease)))
  }

  /** A profile is refused exactly when a policy is unknown. */
  lemma RefusedIff(q: QoS)
    ensures Adapt(q).None? <==>
            || q.history == HISTORY_UNKNOWN || q.reliability == RELIABILITY_UNKNOWN
            || q.durability == DURABILITY_UNKNOWN || q.liveliness == LIVELINESS_UNKNOWN
  {
  }

  /** What the caller set is kept, what it left open comes from the default. */
  lemma AdaptKeeps(q: QoS)
    requires Supported(q)
    ensures var a, d := Adapt(q).value, DEFAULT_QOS;
            && a.history == (if q.history != SYSTEM_DEFAULT then q.history else d.history)
            && a.reliability == (if q.reliability != SYSTEM_DEFAULT then q.reliability else d.reliability)
            && a.durability == (if q.durability != SYSTEM_DEFAULT then q.durability else d.durability)
            && a.liveliness == (if q.liveliness != SYSTEM_DEFAULT then q.liveliness else d.liveliness)
            && a.depth == (if q.depth != 0 then q.depth else d.depth)
            && a.deadline == (if q.deadline != UNSPECIFIED then q.deadline else d.deadline)
            && a.lifespan == (if q.lifespan != UNSPECIFIED then q.lifespan else d.lifespan)
            && a.lease == (if q.lease != UNSPECIFIED then q.lease else d.lease)
  {
  }

  /** What the queues and the token codec rely on: depth at least 1, no placeholder left, adapting twice
      changes nothing more, and an encodable request stays encodable. */
  lemma AdaptSettles(q: QoS)
    requires Supported(q)
    ensures var a := Adapt(q).value;
            && a.depth >= 1
            && a.history != SYSTEM_DEFAULT && a.reliability != SYSTEM_DEFAULT
            && a.durability != SYSTEM_DEFAULT && a.liveliness != SYSTEM_DEFAULT
            && Adapt(a) == Some(a)
            && (Encodable(q) ==> Encodable(a))
  {
  }
}

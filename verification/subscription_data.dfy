/** How many messages a subscription reports as lost, as a function of what arrived. */
module LostMessages {
  import opened CTypes
  import opened EventManagers

  /** What an arrival tells: the hash of its publisher and its sequence number. */
  datatype Mark = Mark(publisher: int, sequence: int)

  function Abs(x: int): nat {
    if x < 0 then -x else x
  }

  /** The report for sequence number `b` coming after `a`. */
  function LostBetween(a: int, b: int): int {
    if Abs(b - a) > 1 then (if Abs(b - a) - 1 > INT32_MAX then INT32_MAX else Abs(b - a) - 1) else 0
  }

  /** The sequence numbers of one publisher, as they arrived. */
  function Of(marks: seq<Mark>, p: int): seq<int> {
    if marks == [] then []
    else
      var init, m := marks[..|marks| - 1], marks[|marks| - 1];
      if m.publisher == p then Of(init, p) + [m.sequence] else Of(init, p)
  }

  /** The reports made for the arrivals of one publisher. */
  function ReportedFor(s: seq<int>): int {
    if |s| <= 1 then 0 else ReportedFor(s[..|s| - 1]) + LostBetween(s[|s| - 2], s[|s| - 1])
  }

  /** All reports, in order, as changes of the message-lost event. */
  function Reports(marks: seq<Mark>): seq<int> {
    if marks == [] then []
    else
      var init, m := marks[..|marks| - 1], marks[|marks| - 1];
      var before := Of(init, m.publisher);
      if before != [] && Abs(m.sequence - before[|before| - 1]) > 1
      then Reports(init) + [LostBetween(before[|before| - 1], m.sequence)]
      else Reports(init)
  }

  /** What an order-preserving channel has dropped between the first and the last arrival of a publisher. */
  function Dropped(s: seq<int>): int {
    if s == [] then 0 else s[|s| - 1] - s[0] + 1 - |s|
  }

  predicate Rises(s: seq<int>, i: nat)
    requires i + 1 < |s|
  {
    s[i] < s[i + 1]
  }

  predicate Increasing(s: seq<int>) {
    forall i | 0 <= i < |s| - 1 :: Rises(s, i)
  }

  predicate StepFits(s: seq<int>, i: nat)
    requires i + 1 < |s|
  {
    Abs(s[i + 1] - s[i]) - 1 <= INT32_MAX
  }

  /** Each step between arrivals fits the 32-bit count. */
  predicate StepsFit(s: seq<int>) {
    forall i | 0 <= i < |s| - 1 :: StepFits(s, i)
  }

  lemma LostBetweenExactIff(a: int, b: int)
    requires Abs(b - a) - 1 <= INT32_MAX
    ensures LostBetween(a, b) >= b - a - 1
    ensures LostBetween(a, b) == b - a - 1 <==> a < b
  {
  }

  lemma LastStep(s: seq<int>)
    requires |s| > 1
    ensures var n := |s| - 1;
            && (Increasing(s) <==> Increasing(s[..n]) && s[n - 1] < s[n])
            && (StepsFit(s) <==> StepsFit(s[..n]) && Abs(s[n] - s[n - 1]) - 1 <= INT32_MAX)
            && Dropped(s) == Dropped(s[..n]) + s[n] - s[n - 1] - 1
            && ReportedFor(s) == ReportedFor(s[..n]) + LostBetween(s[n - 1], s[n])
  {
    var n := |s| - 1;
    forall i | 0 <= i < n - 1 ensures Rises(s, i) == Rises(s[..n], i) && StepFits(s, i) == StepFits(s[..n], i) {
    }
    assert Rises(s, n - 1) <==> s[n - 1] < s[n];
    assert StepFits(s, n - 1) <==> Abs(s[n] - s[n - 1]) - 1 <= INT32_MAX;
  }

  /** The reports for a publisher never fall short of what was dropped, and are exact if and only if its
      sequence numbers arrived in increasing order. */
  lemma {:induction false} ReportedExactIff(s: seq<int>)
    requires StepsFit(s)
    ensures ReportedFor(s) >= Dropped(s)
    ensures ReportedFor(s) == Dropped(s) <==> Increasing(s)
  {
    if |s| > 1 {
      var n := |s| - 1;
      LastStep(s);
      ReportedExactIff(s[..n]);
      LostBetweenExactIff(s[n - 1], s[n]);
    }
  }

  lemma LostBetweenFitsIff(a: int, b: int)
    requires a < b
    ensures LostBetween(a, b) <= b - a - 1
    ensures LostBetween(a, b) == b - a - 1 <==> b - a - 1 <= INT32_MAX
  {
  }

  /** For increasing numbers the clamp to 32 bits can only lose: the reports never exceed what was dropped, and are
      exact if and only if each step fits. */
  lemma {:induction false} ClampedExactIff(s: seq<int>)
    requires Increasing(s)
    ensures ReportedFor(s) <= Dropped(s)
    ensures ReportedFor(s) == Dropped(s) <==> StepsFit(s)
  {
    if |s| > 1 {
      var n := |s| - 1;
      LastStep(s);
      ClampedExactIff(s[..n]);
      LostBetweenFitsIff(s[n - 1], s[n]);
    }
  }

  lemma OfSnoc(marks: seq<Mark>, m: Mark, p: int)
    ensures Of(marks + [m], p) == if p == m.publisher then Of(marks, p) + [m.sequence] else Of(marks, p)
  {
    assert (marks + [m])[..|marks|] == marks;
  }

  lemma ReportedSnoc(s: seq<int>, n: int)
    ensures ReportedFor(s + [n]) == ReportedFor(s) + if s == [] then 0 else LostBetween(s[|s| - 1], n)
  {
    assert (s + [n])[..|s|] == s;
  }

  lemma SumSnoc(s: seq<int>, n: int)
    ensures Sum(s + [n]) == Sum(s) + n
  {
    assert (s + [n])[..|s|] == s;
  }

  lemma ReportsSnoc(marks: seq<Mark>, m: Mark)
    ensures Sum(Reports(marks + [m])) == Sum(Reports(marks)) +
      ReportedFor(Of(marks + [m], m.publisher)) - ReportedFor(Of(marks, m.publisher))
    ensures forall p | p != m.publisher :: Of(marks + [m], p) == Of(marks, p)
  {
    var before := Of(marks, m.publisher);
    forall p ensures p != m.publisher ==> Of(marks + [m], p) == Of(marks, p) {
      OfSnoc(marks, m, p);
    }
    OfSnoc(marks, m, m.publisher);
    ReportedSnoc(before, m.sequence);
    assert (marks + [m])[..|marks|] == marks;
    if before != [] {
      SumSnoc(Reports(marks), LostBetween(before[|before| - 1], m.sequence));
    }
  }

  function SumReported(marks: seq<Mark>, pubs: seq<int>): int {
    if pubs == [] then 0 else SumReported(marks, pubs[..|pubs| - 1]) + ReportedFor(Of(marks, pubs[|pubs| - 1]))
  }

  function SumDropped(marks: seq<Mark>, pubs: seq<int>): int {
    if pubs == [] then 0 else SumDropped(marks, pubs[..|pubs| - 1]) + Dropped(Of(marks, pubs[|pubs| - 1]))
  }

  predicate AllDifferent(pubs: seq<int>) {
    forall i, j | 0 <= i < j < |pubs| :: pubs[i] != pubs[j]
  }

  lemma {:induction false} SumReportedSnoc(marks: seq<Mark>, m: Mark, pubs: seq<int>)
    requires AllDifferent(pubs)
    ensures SumReported(marks + [m], pubs) == SumReported(marks, pubs) +
      if m.publisher in pubs
      then ReportedFor(Of(marks + [m], m.publisher)) - ReportedFor(Of(marks, m.publisher)) else 0
  {
    if pubs != [] {
      var init, p := pubs[..|pubs| - 1], pubs[|pubs| - 1];
      SumReportedSnoc(marks, m, init);
      ReportsSnoc(marks, m);
      assert pubs == init + [p];
      assert p !in init;
    }
  }

  lemma {:induction false} NothingReportedYet(pubs: seq<int>)
    ensures SumReported([], pubs) == 0
  {
    if pubs != [] {
      NothingReportedYet(pubs[..|pubs| - 1]);
    }
  }

  /** However publishers interleave, the total reported is the sum of the reports for each publisher. */
  lemma {:induction false} TotalByPublisher(marks: seq<Mark>, pubs: seq<int>)
    requires AllDifferent(pubs) && forall i | 0 <= i < |marks| :: marks[i].publisher in pubs
    ensures Sum(Reports(marks)) == SumReported(marks, pubs)
  {
    if marks == [] {
      NothingReportedYet(pubs);
    } else {
      var init, m := marks[..|marks| - 1], marks[|marks| - 1];
      assert forall i | 0 <= i < |init| :: init[i] == marks[i];
      TotalByPublisher(init, pubs);
      assert marks == init + [m];
      ReportsSnoc(init, m);
      SumReportedSnoc(init, m, pubs);
    }
  }

  lemma {:induction false} SumsAgreeIff(marks: seq<Mark>, pubs: seq<int>)
    requires forall i | 0 <= i < |pubs| :: StepsFit(Of(marks, pubs[i]))
    ensures SumReported(marks, pubs) >= SumDropped(marks, pubs)
    ensures SumReported(marks, pubs) == SumDropped(marks, pubs) <==>
            forall i | 0 <= i < |pubs| :: Increasing(Of(marks, pubs[i]))
  {
    if pubs != [] {
      var init, p := pubs[..|pubs| - 1], pubs[|pubs| - 1];
      assert forall i | 0 <= i < |init| :: init[i] == pubs[i];
      SumsAgreeIff(marks, init);
      ReportedExactIff(Of(marks, p));
    }
  }

  /** The reported total is exactly what an order-preserving lossy channel dropped in between if and only if every
      publisher's sequence numbers arrived in increasing order; otherwise it is larger. */
  lemma LostTotalExactIff(marks: seq<Mark>, pubs: seq<int>)
    requires AllDifferent(pubs) && forall i | 0 <= i < |marks| :: marks[i].publisher in pubs
    requires forall i | 0 <= i < |pubs| :: StepsFit(Of(marks, pubs[i]))
    ensures Sum(Reports(marks)) >= SumDropped(marks, pubs)
    ensures Sum(Reports(marks)) == SumDropped(marks, pubs) <==>
            forall i | 0 <= i < |pubs| :: Increasing(Of(marks, pubs[i]))
  {
    TotalByPublisher(marks, pubs);
    SumsAgreeIff(marks, pubs);
  }

  lemma {:induction false} ClampedSumsAgreeIff(marks: seq<Mark>, pubs: seq<int>)
    requires forall i | 0 <= i < |pubs| :: Increasing(Of(marks, pubs[i]))
    ensures SumReported(marks, pubs) <= SumDropped(marks, pubs)
    ensures SumReported(marks, pubs) == SumDropped(marks, pubs) <==>
            forall i | 0 <= i < |pubs| :: StepsFit(Of(marks, pubs[i]))
  {
    if pubs != [] {
      var init, p := pubs[..|pubs| - 1], pubs[|pubs| - 1];
      assert forall i | 0 <= i < |init| :: init[i] == pubs[i];
      ClampedSumsAgreeIff(marks, init);
      ClampedExactIff(Of(marks, p));
    }
  }

  /** When every publisher's numbers arrive in increasing order, the reported total is what was dropped if and only if
      no gap exceeds the 32-bit count; otherwise it is smaller. */
  lemma ClampedTotalExactIff(marks: seq<Mark>, pubs: seq<int>)
    requires AllDifferent(pubs) && forall i | 0 <= i < |marks| :: marks[i].publisher in pubs
    requires forall i | 0 <= i < |pubs| :: Increasing(Of(marks, pubs[i]))
    ensures Sum(Reports(marks)) <= SumDropped(marks, pubs)
    ensures Sum(Reports(marks)) == SumDropped(marks, pubs) <==>
            forall i | 0 <= i < |pubs| :: StepsFit(Of(marks, pubs[i]))
  {
    TotalByPublisher(marks, pubs);
    ClampedSumsAgreeIff(marks, pubs);
  }
}

/** The receiving side of a topic. */
module Subscriptions {
  import opened EventIds
  import opened Options
  import opened KeepLast
  import opened EventManagers
  import opened LostMessages
  import opened Services

  datatype Message = Message(payload: seq<int>, sequence: int, timestamp: int, gid: string, receivedAt: int)

  datatype MessageInfo = MessageInfo(
    sourceTimestamp: int,
    receivedTimestamp: int,
    sequence: int,
    reception: nat,
    gid: string)

  function MarkOf(hash: string -> int, m: Message): Mark {
    Mark(hash(m.gid), m.sequence)
  }

  function Marks(hash: string -> int, arrivals: seq<Message>): seq<Mark> {
    if arrivals == [] then []
    else Marks(hash, arrivals[..|arrivals| - 1]) + [MarkOf(hash, arrivals[|arrivals| - 1])]
  }

  lemma MarksSnoc(hash: string -> int, arrivals: seq<Message>, m: Message)
    ensures Marks(hash, arrivals + [m]) == Marks(hash, arrivals) + [MarkOf(hash, m)]
  {
    assert (arrivals + [m])[..|arrivals|] == arrivals;
  }

  function Latest(s: seq<int>): Option<int> {
    if s == [] then None else Some(s[|s| - 1])
  }

  function Lookup(last: map<int, int>, p: int): Option<int> {
    if p in last then Some(last[p]) else None
  }

  /** The last known sequence number of each publisher. */
  ghost predicate LastOk(last: map<int, int>, marks: seq<Mark>) {
    forall p {:trigger Lookup(last, p)} :: Lookup(last, p) == Latest(Of(marks, p))
  }

  lemma LastSnoc(last: map<int, int>, marks: seq<Mark>, m: Mark)
    requires LastOk(last, marks)
    ensures LastOk(last[m.publisher := m.sequence], marks + [m])
  {
    assert (marks + [m])[..|marks|] == marks;
    forall p ensures Lookup(last[m.publisher := m.sequence], p) == Latest(Of(marks + [m], p)) {
      assert Lookup(last, p) == Latest(Of(marks, p));
    }
  }

  lemma ReportNext(last: map<int, int>, marks: seq<Mark>, m: Mark)
    requires LastOk(last, marks)
    ensures Reports(marks + [m]) == Reports(marks) +
              if m.publisher in last && Abs(m.sequence - last[m.publisher]) > 1
              then [LostBetween(last[m.publisher], m.sequence)] else []
  {
    assert (marks + [m])[..|marks|] == marks;
    assert Lookup(last, m.publisher) == Latest(Of(marks, m.publisher));
  }

  // ----- losses by publisher

  /** The sequence numbers of the messages of one publisher, in the order of arrival. */
  function NumbersOf(arrivals: seq<Message>, gid: string): seq<int> {
    if arrivals == [] then []
    else
      var init, m := arrivals[..|arrivals| - 1], arrivals[|arrivals| - 1];
      if m.gid == gid then NumbersOf(init, gid) + [m.sequence] else NumbersOf(init, gid)
  }

  /** No arrival of another publisher has the hash of this one. */
  predicate HashTells(hash: string -> int, arrivals: seq<Message>, gid: string) {
    forall i | 0 <= i < |arrivals| && hash(arrivals[i].gid) == hash(gid) :: arrivals[i].gid == gid
  }

  lemma {:induction false} OfMarks(hash: string -> int, arrivals: seq<Message>, gid: string)
    requires HashTells(hash, arrivals, gid)
    ensures Of(Marks(hash, arrivals), hash(gid)) == NumbersOf(arrivals, gid)
  {
    if arrivals != [] {
      var init, m := arrivals[..|arrivals| - 1], arrivals[|arrivals| - 1];
      OfMarks(hash, init, gid);
      OfSnoc(Marks(hash, init), MarkOf(hash, m), hash(gid));
    }
  }

  function ReportedByGid(arrivals: seq<Message>, gids: seq<string>): int {
    if gids == [] then 0
    else ReportedByGid(arrivals, gids[..|gids| - 1]) + ReportedFor(NumbersOf(arrivals, gids[|gids| - 1]))
  }

  function DroppedByGid(arrivals: seq<Message>, gids: seq<string>): int {
    if gids == [] then 0
    else DroppedByGid(arrivals, gids[..|gids| - 1]) + LostMessages.Dropped(NumbersOf(arrivals, gids[|gids| - 1]))
  }

  function Hashes(hash: string -> int, gids: seq<string>): (r: seq<int>)
    ensures |r| == |gids| && forall i | 0 <= i < |r| :: r[i] == hash(gids[i])
  {
    if gids == [] then [] else Hashes(hash, gids[..|gids| - 1]) + [hash(gids[|gids| - 1])]
  }

  /** `gids` are the publishers of the arrivals, each once, and the hash tells them apart. */
  predicate Publishers(hash: string -> int, arrivals: seq<Message>, gids: seq<string>) {
    && (forall i | 0 <= i < |arrivals| :: arrivals[i].gid in gids)
    && (forall i, j | 0 <= i < j < |gids| :: hash(gids[i]) != hash(gids[j]))
  }

  lemma GidsTell(hash: string -> int, arrivals: seq<Message>, gids: seq<string>, i: nat)
    requires Publishers(hash, arrivals, gids) && i < |gids|
    ensures HashTells(hash, arrivals, gids[i])
    ensures Of(Marks(hash, arrivals), hash(gids[i])) == NumbersOf(arrivals, gids[i])
  {
    forall k | 0 <= k < |arrivals| && hash(arrivals[k].gid) == hash(gids[i]) ensures arrivals[k].gid == gids[i] {
      var j :| 0 <= j < |gids| && gids[j] == arrivals[k].gid;
    }
    OfMarks(hash, arrivals, gids[i]);
  }

  lemma {:induction false} SumsByGid(hash: string -> int, arrivals: seq<Message>, gids: seq<string>)
    requires forall i | 0 <= i < |gids| :: HashTells(hash, arrivals, gids[i])
    ensures SumReported(Marks(hash, arrivals), Hashes(hash, gids)) == ReportedByGid(arrivals, gids)
    ensures SumDropped(Marks(hash, arrivals), Hashes(hash, gids)) == DroppedByGid(arrivals, gids)
  {
    if gids != [] {
      var init, g := gids[..|gids| - 1], gids[|gids| - 1];
      assert forall i | 0 <= i < |init| :: init[i] == gids[i];
      SumsByGid(hash, arrivals, init);
      OfMarks(hash, arrivals, g);
      assert Hashes(hash, gids)[..|gids| - 1] == Hashes(hash, init);
    }
  }

  lemma {:induction false} MarkAt(hash: string -> int, arrivals: seq<Message>, i: nat)
    requires i < |arrivals|
    ensures |Marks(hash, arrivals)| == |arrivals| && Marks(hash, arrivals)[i].publisher == hash(arrivals[i].gid)
  {
    var init := arrivals[..|arrivals| - 1];
    if i < |init| {
      MarkAt(hash, init, i);
    } else if init != [] {
      MarkAt(hash, init, 0);
    }
  }

  lemma MarksCovered(hash: string -> int, arrivals: seq<Message>, gids: seq<string>)
    requires Publishers(hash, arrivals, gids)
    ensures AllDifferent(Hashes(hash, gids))
    ensures forall i | 0 <= i < |Marks(hash, arrivals)| :: Marks(hash, arrivals)[i].publisher in Hashes(hash, gids)
  {
    if arrivals != [] {
      MarkAt(hash, arrivals, 0);
    }
    forall i | 0 <= i < |Marks(hash, arrivals)|
      ensures Marks(hash, arrivals)[i].publisher in Hashes(hash, gids)
    {
      MarkAt(hash, arrivals, i);
      var j :| 0 <= j < |gids| && gids[j] == arrivals[i].gid;
      assert Hashes(hash, gids)[j] == hash(gids[j]);
    }
  }

  /** The losses a subscription has reported are the sum over its publishers, each by its own numbers alone. */
  lemma LossByPublisher(s: SubscriptionData, gids: seq<string>)
    requires s.Valid() && Publishers(s.hash, s.arrivals, gids)
    ensures Sum(s.events.changes[MESSAGE_LOST]) == ReportedByGid(s.arrivals, gids)
  {
    MarksCovered(s.hash, s.arrivals, gids);
    TotalByPublisher(Marks(s.hash, s.arrivals), Hashes(s.hash, gids));
    forall i | 0 <= i < |gids| ensures HashTells(s.hash, s.arrivals, gids[i]) { GidsTell(s.hash, s.arrivals, gids, i); }
    SumsByGid(s.hash, s.arrivals, gids);
  }

  /** They are what order-preserving channels have dropped if and only if each publisher's numbers arrived increasing,
      where gaps fit the 32-bit count. */
  lemma LossExactIff(s: SubscriptionData, gids: seq<string>)
    requires s.Valid() && Publishers(s.hash, s.arrivals, gids)
    requires forall i | 0 <= i < |gids| :: StepsFit(NumbersOf(s.arrivals, gids[i]))
    ensures Sum(s.events.changes[MESSAGE_LOST]) == DroppedByGid(s.arrivals, gids) <==>
            forall i | 0 <= i < |gids| :: Increasing(NumbersOf(s.arrivals, gids[i]))
  {
    var marks, pubs := Marks(s.hash, s.arrivals), Hashes(s.hash, gids);
    MarksCovered(s.hash, s.arrivals, gids);
    forall i | 0 <= i < |gids|
      ensures HashTells(s.hash, s.arrivals, gids[i]) && Of(marks, pubs[i]) == NumbersOf(s.arrivals, gids[i])
    {
      GidsTell(s.hash, s.arrivals, gids, i);
    }
    LostTotalExactIff(marks, pubs);
    SumsByGid(s.hash, s.arrivals, gids);
  }

  predicate Decodable(decodes: seq<int> -> bool, m: Message) {
    m.payload != [] && decodes(m.payload)
  }

  lemma FrontOf<T>(q: seq<T>, k: nat)
    requires k <= |q|
    ensures k < |q| ==> q[k..] != [] && q[k..][0] == q[k] && q[k..][1..] == q[k + 1..]
    ensures k < |q| ==> q[..k] + [q[k]] == q[..k + 1]
  {
  }

  class SubscriptionData {
    const keepAll: bool
    const depth: nat
    const hash: string -> int
    const decodes: seq<int> -> bool
    const callbacks: DataCallbackManager
    const events: EventsManager
    var queue: seq<Message>
    var lastKnown: map<int, int>
    var receptions: nat
    var isShutdown: bool
    ghost var arrivals: seq<Message>
    ghost var head: nat

    constructor (keepAll: bool, depth: nat, hash: string -> int, decodes: seq<int> -> bool)
      requires depth >= 1
      ensures Valid() && arrivals == [] && !isShutdown && fresh(callbacks) && fresh(events.Repr())
      ensures this.keepAll == keepAll && this.depth == depth && this.hash == hash && this.decodes == decodes
    {
      this.keepAll, this.depth, this.hash, this.decodes := keepAll, depth, hash, decodes;
      callbacks := new DataCallbackManager();
      events := new EventsManager();
      queue, lastKnown, receptions, isShutdown := [], map[], 0, false;
      arrivals, head := [], 0;
    }

    /** The queue holds the latest arrivals, and every arrival has been told to a callback or waits for one. */
    ghost predicate QueueOk()
      reads this`queue, this`arrivals, this`head, callbacks
    {
      && callbacks.Valid() && callbacks.triggers == |arrivals|
      && Bounded(queue, keepAll, depth) && Holds(queue, arrivals, head)
    }

    /** The message-lost event has received exactly the reports that the sequence numbers call for. */
    ghost predicate LossOk()
      reads this`arrivals, this`lastKnown, events, events.Repr()
    {
      && events.Valid() && events.changes[MESSAGE_LOST] == Reports(Marks(hash, arrivals))
      && LastOk(lastKnown, Marks(hash, arrivals))
    }

    ghost predicate Valid()
      reads this, callbacks, events, events.Repr()
    {
      QueueOk() && LossOk()
    }

    /** The part of `add_new_message` that compares sequence numbers. */
    method NoteSequence(m: Message)
      requires LossOk()
      modifies this`lastKnown, events.statuses, events.unread, events`delivered, events`changes
      ensures events.Valid()
      ensures events.changes == old(events.changes)[MESSAGE_LOST := Reports(Marks(hash, arrivals + [m]))]
      ensures LastOk(lastKnown, Marks(hash, arrivals + [m]))
    {
      var p := hash(m.gid);
      LastSnoc(lastKnown, Marks(hash, arrivals), MarkOf(hash, m));
      ReportNext(lastKnown, Marks(hash, arrivals), MarkOf(hash, m));
      MarksSnoc(hash, arrivals, m);
      if p in lastKnown {
        var increment := Abs(m.sequence - lastKnown[p]);
        if increment > 1 {
          events.UpdateStatus(MESSAGE_LOST, LostBetween(lastKnown[p], m.sequence));
        }
      }
      lastKnown := lastKnown[p := m.sequence];
    }

    /** The oldest message goes when the queue is full. */
    method MakeRoom()
      requires depth >= 1 && Holds(queue, arrivals, head)
      modifies this`queue, this`head
      ensures Holds(queue, arrivals, head)
      ensures queue == if !keepAll && |old(queue)| >= depth then old(queue)[1..] else old(queue)
    {
      if !keepAll && |queue| >= depth {
        if queue != [] {
          PopHolds(queue, arrivals, head);
          queue := queue[1..];
          head := head + 1;
        }
      }
    }

    /** A message joins the queue, for which there is room, and is told. */
    method Append(m: Message)
      requires callbacks.Valid() && callbacks.triggers == |arrivals| && Holds(queue, arrivals, head)
      requires Bounded(queue + [m], keepAll, depth) && events.Valid()
      modifies this`queue, this`arrivals, callbacks
      ensures events.Valid() && events.changes == old(events.changes)
      ensures QueueOk() && arrivals == old(arrivals) + [m] && queue == old(queue) + [m]
    {
      PushHolds(queue, arrivals, head, m);
      queue := queue + [m];
      arrivals := arrivals + [m];
      callbacks.Trigger();
    }

    /** A message that is accepted: room is made, its sequence number noted, and it joins the queue. */
    method Accept(m: Message)
      requires Valid()
      modifies this`queue, this`arrivals, this`head, this`lastKnown, callbacks
      modifies events.statuses, events.unread, events`delivered, events`changes
      ensures Valid()
      ensures events.changes == old(events.changes)[MESSAGE_LOST := Reports(Marks(hash, old(arrivals) + [m]))]
      ensures arrivals == old(arrivals) + [m]
      ensures queue == (if !keepAll && |old(queue)| >= depth then old(queue)[1..] else old(queue)) + [m]
    {
      MakeRoom();
      NoteSequence(m);
      Append(m);
    }

    /** `add_new_message`, up to the notification of a wait set. */
    method AddNewMessage(m: Message)
      requires Valid()
      modifies this`queue, this`arrivals, this`head, this`lastKnown, callbacks
      modifies events.statuses, events.unread, events`delivered, events`changes
      ensures Valid()
      ensures events.changes == old(events.changes)[MESSAGE_LOST := events.changes[MESSAGE_LOST]]
      ensures isShutdown ==> queue == old(queue) && arrivals == old(arrivals) && events.changes == old(events.changes)
      ensures !isShutdown ==>
                && arrivals == old(arrivals) + [m]
                && queue == (if !keepAll && |old(queue)| >= depth then old(queue)[1..] else old(queue)) + [m]
    {
      if isShutdown {
        return;
      }
      Accept(m);
    }

    /** `take_one_message`: the oldest waiting message, in the order of arrival; one that does not decode is lost
        with an error. */
    method TakeOneMessage(wantInfo: bool) returns (ret: Ret, taken: Option<Message>, info: Option<MessageInfo>)
      requires QueueOk()
      modifies this`queue, this`head, this`receptions
      ensures QueueOk()
      ensures isShutdown || old(queue) == [] ==>
                ret == Ok && taken == None && info == None && queue == old(queue) && head == old(head)
      ensures !isShutdown && old(queue) != [] ==>
                var m := old(queue)[0];
                var decodable := m.payload != [] && decodes(m.payload);
                && m == arrivals[old(head)] && head == old(head) + 1 && queue == old(queue)[1..]
                && ret == (if decodable then Ok else Error)
                && taken == (if decodable then Some(m) else None)
                && info == (if decodable && wantInfo
                            then Some(MessageInfo(m.timestamp, m.receivedAt, m.sequence, old(receptions), m.gid))
                            else None)
      ensures receptions == old(receptions) + if info.Some? then 1 else 0
    {
      taken, info := None, None;
      if isShutdown || queue == [] {
        return Ok, taken, info;
      }
      PopHolds(queue, arrivals, head);
      var m := queue[0];
      queue := queue[1..];
      head := head + 1;
      if m.payload == [] {
        return Error, taken, info;
      }
      if !decodes(m.payload) {
        return Error, taken, info;
      }
      if wantInfo {
        info := Some(MessageInfo(m.timestamp, m.receivedAt, m.sequence, receptions, m.gid));
        receptions := receptions + 1;
      }
      return Ok, Some(m), info;
    }

    /** `take_serialized_message`; `grown` tells whether a buffer that is too small could be resized. */
    method TakeSerializedMessage(capacity: nat, grown: bool, wantInfo: bool)
      returns (ret: Ret, taken: Option<Message>, info: Option<MessageInfo>)
      requires QueueOk()
      modifies this`queue, this`head, this`receptions
      ensures QueueOk()
      ensures isShutdown || old(queue) == [] ==>
                ret == Ok && taken == None && info == None && queue == old(queue) && head == old(head)
      ensures !isShutdown && old(queue) != [] ==>
                var m := old(queue)[0];
                var fits := m.payload != [] && (|m.payload| <= capacity || grown);
                && m == arrivals[old(head)] && head == old(head) + 1 && queue == old(queue)[1..]
                && ret == (if fits then Ok else Error)
                && taken == (if fits then Some(m) else None)
                && info == (if fits && wantInfo
                            then Some(MessageInfo(m.timestamp, m.receivedAt, m.sequence, old(receptions), m.gid))
                            else None)
      ensures receptions == old(receptions) + if info.Some? then 1 else 0
    {
      taken, info := None, None;
      if isShutdown || queue == [] {
        return Ok, taken, info;
      }
      PopHolds(queue, arrivals, head);
      var m := queue[0];
      queue := queue[1..];
      head := head + 1;
      if m.payload == [] {
        return Error, taken, info;
      }
      if capacity < |m.payload| {
        if !grown {
          return Error, taken, info;
        }
      }
      if wantInfo {
        info := Some(MessageInfo(m.timestamp, m.receivedAt, m.sequence, receptions, m.gid));
        receptions := receptions + 1;
      }
      return Ok, Some(m), info;
    }

    /** One round of `rmw_take_sequence`, after `k` messages of what the queue `q` held at first. */
    method TakeNext(ghost q: seq<Message>, ghost k: nat) returns (ret: Ret, taken: Option<Message>)
      requires QueueOk() && k <= |q| && queue == q[k..]
      modifies this`queue, this`head, this`receptions
      ensures QueueOk()
      ensures isShutdown || k == |q| ==> ret == Ok && taken == None && queue == old(queue)
      ensures !isShutdown && k < |q| ==>
                && queue == q[k + 1..] && ret == (if Decodable(decodes, q[k]) then Ok else Error)
                && taken == (if Decodable(decodes, q[k]) then Some(q[k]) else None)
    {
      FrontOf(q, k);
      var info;
      ret, taken, info := TakeOneMessage(true);
    }

    /** The loop of `rmw_take_sequence`: the longest run of decodable messages from the front of the queue, at most
        `count` of them; a message that does not decode ends the run, is lost, and is reported as an error. */
    method TakeSequence(count: nat) returns (ret: Ret, messages: seq<Message>)
      requires QueueOk() && count > 0
      modifies this`queue, this`head, this`receptions
      ensures QueueOk()
      ensures |messages| <= count && (!isShutdown ==> messages <= old(queue))
      ensures forall i | 0 <= i < |messages| :: Decodable(decodes, messages[i])
      ensures isShutdown ==> ret == Ok && messages == [] && queue == old(queue)
      ensures !isShutdown && ret == Ok ==>
                queue == old(queue)[|messages|..] && (|messages| == count || queue == [])
      ensures !isShutdown && ret == Error ==>
                && |messages| < count && |messages| < |old(queue)|
                && !Decodable(decodes, old(queue)[|messages|]) && queue == old(queue)[|messages| + 1..]
    {
      messages := [];
      ret := Ok;
      ghost var q0 := queue;
      while |messages| < count
        invariant QueueOk() && ret == Ok && |messages| <= count && |messages| <= |q0|
        invariant messages == q0[..|messages|] && queue == q0[|messages|..]
        invariant isShutdown ==> messages == []
        invariant forall i | 0 <= i < |messages| :: Decodable(decodes, messages[i])
        decreases count - |messages|
      {
        FrontOf(q0, |messages|);
        var taken;
        ret, taken := TakeNext(q0, |messages|);
        if ret != Ok {
          break;
        }
        if taken.None? {
          break;
        }
        messages := messages + [taken.value];
      }
    }
  }
}

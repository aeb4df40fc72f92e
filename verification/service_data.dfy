/** The bounded queues in which received data waits to be taken. */
module KeepLast {
  /** The queue holds the latest arrivals, the first `head` arrivals having left it. */
  ghost predicate Holds<T>(queue: seq<T>, arrivals: seq<T>, head: nat) {
    head <= |arrivals| && queue == arrivals[head..]
  }

  predicate Bounded<T>(queue: seq<T>, keepAll: bool, depth: nat) {
    depth >= 1 && (keepAll || |queue| <= depth)
  }

  lemma PushHolds<T>(queue: seq<T>, arrivals: seq<T>, head: nat, x: T)
    requires Holds(queue, arrivals, head)
    ensures Holds(queue + [x], arrivals + [x], head)
  {
  }

  lemma PopHolds<T>(queue: seq<T>, arrivals: seq<T>, head: nat)
    requires Holds(queue, arrivals, head) && queue != []
    ensures Holds(queue[1..], arrivals, head + 1) && queue[0] == arrivals[head]
  {
  }
}

/** The server side of a service: queries that arrive, wait, are taken and are answered. */
module Services {
  import opened Options
  import opened KeepLast
  import opened EventManagers

  datatype Attachment = Attachment(sequence: int, timestamp: int, gid: string)

  class ZenohQuery {
    const payload: Option<seq<int>>
    const attachment: Option<Attachment>
    const receivedAt: int

    constructor (payload: Option<seq<int>>, attachment: Option<Attachment>, receivedAt: int)
      ensures this.payload == payload && this.attachment == attachment && this.receivedAt == receivedAt
    {
      this.payload := payload;
      this.attachment := attachment;
      this.receivedAt := receivedAt;
    }
  }

  datatype RequestHeader = RequestHeader(sequence: int, gid: string, sourceTimestamp: int, receivedTimestamp: int)

  datatype Ret = Ok | Error

  /** What became of a query that was received. */
  datatype Fate = Queued | Pending | Answered | Dropped

  /** A reply sent on a query, with the pair its attachment carries. */
  datatype Reply = Reply(query: ZenohQuery, sequence: int, gid: string)

  type Index = map<int, map<int, ZenohQuery>>

  predicate At(pending: Index, client: int, sequence: int) {
    client in pending && sequence in pending[client]
  }

  /** The request can be handed out: there is a payload that decodes, and an attachment with valid numbers. */
  predicate Acceptable(decodes: seq<int> -> bool, q: ZenohQuery) {
    && q.payload.Some? && q.payload.value != [] && decodes(q.payload.value)
    && q.attachment.Some? && q.attachment.value.sequence >= 0 && q.attachment.value.timestamp >= 0
  }

  /** Every pending query is filed under its own client and sequence number; no client without one is kept. */
  ghost predicate IndexOk(hash: string -> int, pending: Index) {
    && (forall c | c in pending :: pending[c] != map[])
    && (forall c, s | c in pending && s in pending[c] ::
          var q := pending[c][s];
          q.attachment.Some? && q.attachment.value.sequence == s && hash(q.attachment.value.gid) == c)
  }

  ghost predicate InIndex(pending: Index, q: ZenohQuery) {
    exists c, s :: At(pending, c, s) && pending[c][s] == q
  }

  /** Exactly the queries with the fate `Queued` are in the queue, and so on; none is in two places. */
  ghost predicate FatesOk(
    fate: map<ZenohQuery, Fate>, arrivals: seq<ZenohQuery>, queue: seq<ZenohQuery>, pending: Index,
    replies: seq<Reply>)
  {
    && fate.Keys == (set q | q in arrivals)
    && (forall i, j | 0 <= i < j < |arrivals| :: arrivals[i] != arrivals[j])
    && (forall q | q in fate :: fate[q] == Queued <==> q in queue)
    && (forall q | q in fate :: fate[q] == Pending <==> InIndex(pending, q))
    && (forall c, s | At(pending, c, s) :: pending[c][s] in fate)
    && (forall q | q in fate :: fate[q] == Answered <==> exists i :: 0 <= i < |replies| && replies[i].query == q)
    && (forall i | 0 <= i < |replies| :: replies[i].query in fate)
    && (forall i, j | 0 <= i < j < |replies| :: replies[i].query != replies[j].query)
  }

  /** A reply carries the sequence number of its query, and the hash of its client. */
  ghost predicate RepliesOk(hash: string -> int, replies: seq<Reply>) {
    forall i | 0 <= i < |replies| ::
      var a := replies[i].query.attachment;
      a.Some? && a.value.sequence == replies[i].sequence && hash(a.value.gid) == hash(replies[i].gid)
  }

  function Without(pending: Index, client: int, sequence: int): Index
    requires At(pending, client, sequence)
  {
    var rest := pending[client] - {sequence};
    if rest == map[] then pending - {client} else pending[client := rest]
  }

  lemma WithoutOk(hash: string -> int, pending: Index, client: int, sequence: int)
    requires IndexOk(hash, pending) && At(pending, client, sequence)
    ensures IndexOk(hash, Without(pending, client, sequence))
    ensures forall c, s :: At(Without(pending, client, sequence), c, s) <==>
                           At(pending, c, s) && (c != client || s != sequence)
    ensures forall c, s | At(Without(pending, client, sequence), c, s) ::
              Without(pending, client, sequence)[c][s] == pending[c][s]
  {
    var after := Without(pending, client, sequence);
    forall c, s ensures At(after, c, s) <==> At(pending, c, s) && (c != client || s != sequence) {
      if c == client && s in pending[client] && s != sequence {
        assert s in pending[client] - {sequence};
      }
    }
  }

  function With(pending: Index, client: int, sequence: int, q: ZenohQuery): Index {
    var held: map<int, ZenohQuery> := if client in pending then pending[client] else map[];
    pending[client := held[sequence := q]]
  }

  lemma WithOk(hash: string -> int, pending: Index, client: int, sequence: int, q: ZenohQuery)
    requires IndexOk(hash, pending) && !At(pending, client, sequence)
    requires q.attachment.Some? && q.attachment.value.sequence == sequence && hash(q.attachment.value.gid) == client
    ensures IndexOk(hash, With(pending, client, sequence, q))
    ensures forall c, s :: At(With(pending, client, sequence, q), c, s) <==>
                           At(pending, c, s) || (c == client && s == sequence)
    ensures forall c, s | At(With(pending, client, sequence, q), c, s) ::
              With(pending, client, sequence, q)[c][s] ==
              if c == client && s == sequence then q else pending[c][s]
  {
    assert sequence in With(pending, client, sequence, q)[client];
  }

  // ----- what the steps do to the fates

  lemma ArrivalFates(
    fate: map<ZenohQuery, Fate>, arrivals: seq<ZenohQuery>, queue: seq<ZenohQuery>, pending: Index,
    replies: seq<Reply>, q: ZenohQuery)
    requires FatesOk(fate, arrivals, queue, pending, replies) && q !in fate
    ensures FatesOk(fate[q := Queued], arrivals + [q], queue + [q], pending, replies)
  {
    assert InIndex(pending, q) ==> q in fate;
  }

  lemma LeavesQueue(arrivals: seq<ZenohQuery>, queue: seq<ZenohQuery>, head: nat)
    requires Holds(queue, arrivals, head) && queue != []
    requires forall i, j | 0 <= i < j < |arrivals| :: arrivals[i] != arrivals[j]
    ensures forall q :: q in queue <==> q == queue[0] || q in queue[1..]
    ensures queue[0] !in queue[1..] && queue[0] in arrivals
  {
    assert queue == [queue[0]] + queue[1..];
    assert queue[0] == arrivals[head];
  }

  lemma DropFates(
    fate: map<ZenohQuery, Fate>, arrivals: seq<ZenohQuery>, queue: seq<ZenohQuery>, pending: Index,
    replies: seq<Reply>, head: nat)
    requires FatesOk(fate, arrivals, queue, pending, replies) && Holds(queue, arrivals, head) && queue != []
    ensures FatesOk(fate[queue[0] := Dropped], arrivals, queue[1..], pending, replies)
  {
    LeavesQueue(arrivals, queue, head);
  }

  lemma TakeFates(
    hash: string -> int, fate: map<ZenohQuery, Fate>, arrivals: seq<ZenohQuery>, queue: seq<ZenohQuery>,
    pending: Index, replies: seq<Reply>, head: nat, client: int, sequence: int)
    requires FatesOk(fate, arrivals, queue, pending, replies) && Holds(queue, arrivals, head) && queue != []
    requires IndexOk(hash, pending) && !At(pending, client, sequence)
    requires queue[0].attachment.Some? && queue[0].attachment.value.sequence == sequence
    requires hash(queue[0].attachment.value.gid) == client
    ensures FatesOk(fate[queue[0] := Pending], arrivals, queue[1..], With(pending, client, sequence, queue[0]), replies)
  {
    var q, after := queue[0], With(pending, client, sequence, queue[0]);
    LeavesQueue(arrivals, queue, head);
    WithOk(hash, pending, client, sequence, q);
    assert At(after, client, sequence) && after[client][sequence] == q;
    forall x | x in fate && x != q ensures InIndex(after, x) <==> InIndex(pending, x) {
      if InIndex(pending, x) {
        var c, s :| At(pending, c, s) && pending[c][s] == x;
        assert At(after, c, s) && after[c][s] == x;
      }
      if InIndex(after, x) {
        var c, s :| At(after, c, s) && after[c][s] == x;
        assert At(pending, c, s);
      }
    }
  }

  lemma ReleaseFates(
    hash: string -> int, fate: map<ZenohQuery, Fate>, arrivals: seq<ZenohQuery>, queue: seq<ZenohQuery>,
    pending: Index, replies: seq<Reply>, client: int, sequence: int, to: Fate, gid: string)
    requires FatesOk(fate, arrivals, queue, pending, replies) && IndexOk(hash, pending)
    requires to.Answered? || to.Dropped?
    requires At(pending, client, sequence)
    ensures var q := pending[client][sequence];
            FatesOk(fate[q := to], arrivals, queue, Without(pending, client, sequence),
                    if to.Answered? then replies + [Reply(q, sequence, gid)] else replies)
  {
    var q, after := pending[client][sequence], Without(pending, client, sequence);
    var replies' := if to.Answered? then replies + [Reply(q, sequence, gid)] else replies;
    WithoutOk(hash, pending, client, sequence);
    assert InIndex(pending, q) && fate[q] == Pending;
    forall x | x in fate ensures InIndex(after, x) <==> InIndex(pending, x) && x != q {
      if InIndex(pending, x) && x != q {
        var c, s :| At(pending, c, s) && pending[c][s] == x;
        assert At(after, c, s) && after[c][s] == x;
      }
      if InIndex(after, x) {
        var c, s :| At(after, c, s) && after[c][s] == x;
        assert At(pending, c, s);
      }
    }
    forall x | x in fate
      ensures (exists i :: 0 <= i < |replies'| && replies'[i].query == x) <==>
              (exists i :: 0 <= i < |replies| && replies[i].query == x) || (to.Answered? && x == q)
    {
      if i :| 0 <= i < |replies| && replies[i].query == x {
        assert replies'[i] == replies[i];
      }
      if to.Answered? {
        assert replies'[|replies|].query == q;
      }
    }
  }

  lemma ReleaseRest(
    hash: string -> int, pending: Index, replies: seq<Reply>, client: int, sequence: int, to: Fate, gid: string)
    requires IndexOk(hash, pending) && At(pending, client, sequence) && RepliesOk(hash, replies)
    requires hash(gid) == client
    ensures IndexOk(hash, Without(pending, client, sequence))
    ensures RepliesOk(hash, if to.Answered? then replies + [Reply(pending[client][sequence], sequence, gid)]
                            else replies)
  {
    WithoutOk(hash, pending, client, sequence);
  }

  class ServiceData {
    const keepAll: bool
    const depth: nat
    const hash: string -> int
    const decodes: seq<int> -> bool
    const callbacks: DataCallbackManager
    var queue: seq<ZenohQuery>
    var pending: Index
    var isShutdown: bool
    ghost var arrivals: seq<ZenohQuery>
    ghost var head: nat
    ghost var fate: map<ZenohQuery, Fate>
    ghost var replies: seq<Reply>

    /** The depth of an adapted profile is at least 1 (`QoSProfile.AdaptSettles`). */
    constructor (keepAll: bool, depth: nat, hash: string -> int, decodes: seq<int> -> bool)
      requires depth >= 1
      ensures Valid() && fresh(callbacks) && arrivals == [] && replies == [] && !isShutdown
      ensures this.keepAll == keepAll && this.depth == depth && this.hash == hash && this.decodes == decodes
    {
      this.keepAll, this.depth, this.hash, this.decodes := keepAll, depth, hash, decodes;
      callbacks := new DataCallbackManager();
      queue, pending, isShutdown := [], map[], false;
      arrivals, head, fate, replies := [], 0, map[], [];
    }

    ghost predicate Valid()
      reads this, callbacks
    {
      && callbacks.Valid() && callbacks.triggers == |arrivals|
      && Bounded(queue, keepAll, depth) && Holds(queue, arrivals, head)
      && IndexOk(hash, pending)
      && FatesOk(fate, arrivals, queue, pending, replies)
      && RepliesOk(hash, replies)
    }

    /** `add_new_query`, up to the notification of a wait set. */
    method AddNewQuery(q: ZenohQuery)
      requires Valid() && q !in fate
      modifies this`queue, this`arrivals, this`head, this`fate, callbacks
      ensures Valid()
      ensures isShutdown ==> queue == old(queue) && fate == old(fate) && arrivals == old(arrivals)
      ensures !isShutdown ==>
                var full := !keepAll && |old(queue)| >= depth;
                && arrivals == old(arrivals) + [q]
                && queue == (if full then old(queue)[1..] else old(queue)) + [q]
                && fate == (if full then old(fate)[old(queue)[0] := Dropped] else old(fate))[q := Queued]
    {
      if isShutdown {
        return;
      }
      if !keepAll && |queue| >= depth {
        DropFates(fate, arrivals, queue, pending, replies, head);
        PopHolds(queue, arrivals, head);
        fate := fate[queue[0] := Dropped];
        queue := queue[1..];
        head := head + 1;
      }
      ArrivalFates(fate, arrivals, queue, pending, replies, q);
      PushHolds(queue, arrivals, head, q);
      queue := queue + [q];
      arrivals := arrivals + [q];
      fate := fate[q := Queued];
      callbacks.Trigger();
    }

    /** `take_request`: the oldest waiting query is handed out and becomes pending, or is lost with an error. */
    method TakeRequest() returns (ret: Ret, taken: bool, header: Option<RequestHeader>)
      requires Valid()
      modifies this`queue, this`head, this`pending, this`fate
      ensures Valid()
      ensures isShutdown || old(queue) == [] ==>
                ret == Ok && !taken && queue == old(queue) && pending == old(pending) && fate == old(fate)
      ensures !isShutdown && old(queue) != [] ==>
                var q := old(queue)[0];
                && q == arrivals[old(head)] && head == old(head) + 1
                && (taken <==>
                      && q.payload.Some? && q.payload.value != [] && decodes(q.payload.value)
                      && q.attachment.Some? && q.attachment.value.sequence >= 0 && q.attachment.value.timestamp >= 0
                      && !At(old(pending), hash(q.attachment.value.gid), q.attachment.value.sequence))
                && ret == (if taken then Ok else Error)
                && fate == old(fate)[q := if taken then Pending else Dropped]
                && pending == (if taken
                               then With(old(pending), hash(q.attachment.value.gid), q.attachment.value.sequence, q)
                               else old(pending))
                && header == (if taken
                              then Some(RequestHeader(q.attachment.value.sequence, q.attachment.value.gid,
                                                      q.attachment.value.timestamp, q.receivedAt))
                              else None)
    {
      taken, header := false, None;
      if isShutdown || queue == [] {
        return Ok, taken, header;
      }
      var q := queue[0];
      ret, taken, header := Admit(q);
      PopHolds(queue, arrivals, head);
      if taken {
        var a := q.attachment.value;
        TakeFates(hash, fate, arrivals, queue, pending, replies, head, hash(a.gid), a.sequence);
        WithOk(hash, pending, hash(a.gid), a.sequence, q);
        FilePending(hash(a.gid), a.sequence, q);
      } else {
        DropFates(fate, arrivals, queue, pending, replies, head);
      }
      fate := fate[q := if taken then Pending else Dropped];
      queue := queue[1..];
      head := head + 1;
    }

    method FilePending(client: int, sequence: int, q: ZenohQuery)
      modifies this`pending
      ensures pending == With(old(pending), client, sequence, q)
    {
      if client !in pending {
        pending := pending[client := map[]];
      }
      pending := pending[client := pending[client][sequence := q]];
    }

    method ErasePending(client: int, sequence: int)
      requires At(pending, client, sequence)
      modifies this`pending
      ensures pending == Without(old(pending), client, sequence)
    {
      pending := pending[client := pending[client] - {sequence}];
      if |pending[client]| == 0 {
        pending := pending - {client};
      }
    }

    /** The checks a taken query goes through, in order. */
    method Admit(q: ZenohQuery) returns (ret: Ret, ok: bool, header: Option<RequestHeader>)
      ensures ok <==> Acceptable(decodes, q) &&
                      !At(pending, hash(q.attachment.value.gid), q.attachment.value.sequence)
      ensures ret == if ok then Ok else Error
      ensures header == if ok
                        then Some(RequestHeader(q.attachment.value.sequence, q.attachment.value.gid,
                                                q.attachment.value.timestamp, q.receivedAt))
                        else None
    {
      if q.payload.None? { return Error, false, None; }
      if q.payload.value == [] { return Error, false, None; }
      if !decodes(q.payload.value) { return Error, false, None; }
      if q.attachment.None? { return Error, false, None; }
      var a := q.attachment.value;
      if a.sequence < 0 { return Error, false, None; }
      if a.timestamp < 0 { return Error, false, None; }
      if hash(a.gid) in pending {
        if a.sequence in pending[hash(a.gid)] { return Error, false, None; }
      }
      return Ok, true, Some(RequestHeader(a.sequence, a.gid, a.timestamp, q.receivedAt));
    }

    /** `send_response`; the flags tell whether a buffer could be had, the response serialized and the reply sent.
        A query that was looked up is gone from the index whatever happens then. */
    method SendResponse(gid: string, sequence: int, gotBuffer: bool, serialized: bool, sent: bool) returns (ret: Ret)
      requires Valid()
      modifies this`pending, this`fate, this`replies
      ensures Valid()
      ensures isShutdown || !At(old(pending), hash(gid), sequence) ==>
                ret == Ok && pending == old(pending) && fate == old(fate) && replies == old(replies)
      ensures !isShutdown && At(old(pending), hash(gid), sequence) ==>
                var q := old(pending)[hash(gid)][sequence];
                var answered := gotBuffer && serialized && sent;
                && ret == (if answered then Ok else Error)
                && pending == Without(old(pending), hash(gid), sequence)
                && fate == old(fate)[q := if answered then Answered else Dropped]
                && replies == old(replies) + (if answered then [Reply(q, sequence, gid)] else [])
    {
      if isShutdown {
        return Ok;
      }
      if hash(gid) !in pending {
        return Ok;
      }
      if sequence !in pending[hash(gid)] {
        return Ok;
      }
      var answered := gotBuffer && serialized && sent;
      Settle(gid, sequence, if answered then Answered else Dropped);
      return if answered then Ok else Error;
    }

    /** The query leaves the index, and its reply is sent or not. */
    method Settle(gid: string, sequence: int, ghost to: Fate)
      requires Valid() && At(pending, hash(gid), sequence) && (to.Answered? || to.Dropped?)
      modifies this`pending, this`fate, this`replies
      ensures Valid()
      ensures pending == Without(old(pending), hash(gid), sequence)
      ensures fate == old(fate)[old(pending)[hash(gid)][sequence] := to]
      ensures replies == old(replies) +
                if to.Answered? then [Reply(old(pending)[hash(gid)][sequence], sequence, gid)] else []
    {
      ghost var q := pending[hash(gid)][sequence];
      ReleaseFates(hash, fate, arrivals, queue, pending, replies, hash(gid), sequence, to, gid);
      ReleaseRest(hash, pending, replies, hash(gid), sequence, to, gid);
      ErasePending(hash(gid), sequence);
      fate := fate[q := to];
      replies := if to.Answered? then replies + [Reply(q, sequence, gid)] else replies;
    }

    /** `shutdown`, of which only the flag matters here. */
    method Shutdown()
      requires Valid()
      modifies this`isShutdown
      ensures Valid() && isShutdown
    {
      isShutdown := true;
    }
  }

  /** Where the hash separates the clients, a reply for a client goes to a query of that client. */
  lemma ReplyReachesItsClient(service: ServiceData, i: nat)
    requires service.Valid() && i < |service.replies|
    requires forall j | 0 <= j < |service.arrivals| && service.arrivals[j].attachment.Some? ::
               var gid := service.arrivals[j].attachment.value.gid;
               service.hash(gid) == service.hash(service.replies[i].gid) ==> gid == service.replies[i].gid
    ensures var r := service.replies[i];
            && r.query in service.arrivals && r.query.attachment.Some?
            && r.query.attachment.value.gid == r.gid && r.query.attachment.value.sequence == r.sequence
  {
    assert service.replies[i].query in service.fate;
  }

  lemma {:induction false} CountDifferent<T>(s: seq<T>)
    requires forall i, j | 0 <= i < j < |s| :: s[i] != s[j]
    ensures |set x | x in s| == |s|
  {
    if s != [] {
      var init, last := s[..|s| - 1], s[|s| - 1];
      CountDifferent(init);
      assert s == init + [last];
      assert (set x | x in s) == (set x | x in init) + {last};
    }
  }

  ghost function WithFate(fate: map<ZenohQuery, Fate>, f: Fate): set<ZenohQuery> {
    set q | q in fate && fate[q] == f
  }

  lemma FatesPartition(fate: map<ZenohQuery, Fate>)
    ensures |WithFate(fate, Queued)| + |WithFate(fate, Pending)| + |WithFate(fate, Answered)| +
            |WithFate(fate, Dropped)| == |fate.Keys|
  {
    var a, b := WithFate(fate, Queued) + WithFate(fate, Pending), WithFate(fate, Answered) + WithFate(fate, Dropped);
    assert fate.Keys == a + b;
  }

  lemma AnsweredOnce(fate: map<ZenohQuery, Fate>, replies: seq<Reply>)
    requires forall q | q in fate :: fate[q] == Answered <==> exists i :: 0 <= i < |replies| && replies[i].query == q
    requires forall i | 0 <= i < |replies| :: replies[i].query in fate
    requires forall i, j | 0 <= i < j < |replies| :: replies[i].query != replies[j].query
    ensures |WithFate(fate, Answered)| == |replies|
  {
    var replied := seq(|replies|, i requires 0 <= i < |replies| => replies[i].query);
    assert forall i | 0 <= i < |replies| :: replied[i] == replies[i].query;
    CountDifferent(replied);
    forall q | q in replied ensures q in WithFate(fate, Answered) {
      var i :| 0 <= i < |replied| && replied[i] == q;
      assert replies[i].query == q;
    }
    forall q | q in WithFate(fate, Answered) ensures q in replied {
      var i :| 0 <= i < |replies| && replies[i].query == q;
      assert replied[i] == q;
    }
    assert WithFate(fate, Answered) == set q | q in replied;
  }

  lemma QueuedOnce(fate: map<ZenohQuery, Fate>, arrivals: seq<ZenohQuery>, queue: seq<ZenohQuery>, head: nat)
    requires fate.Keys == (set q | q in arrivals) && Holds(queue, arrivals, head)
    requires forall i, j | 0 <= i < j < |arrivals| :: arrivals[i] != arrivals[j]
    requires forall q | q in fate :: fate[q] == Queued <==> q in queue
    ensures |WithFate(fate, Queued)| == |queue| && |fate.Keys| == |arrivals|
  {
    CountDifferent(arrivals);
    forall i, j | 0 <= i < j < |queue| ensures queue[i] != queue[j] {
      assert queue[i] == arrivals[head + i] && queue[j] == arrivals[head + j];
    }
    CountDifferent(queue);
    forall q | q in queue ensures q in arrivals {
      var i :| 0 <= i < |queue| && queue[i] == q;
      assert arrivals[head + i] == q;
    }
    assert WithFate(fate, Queued) == set q | q in queue;
  }

  /** Requests are conserved: every query that arrived is queued, pending, answered by one reply, or dropped. */
  lemma RequestsCounted(service: ServiceData)
    requires service.Valid()
    ensures |service.queue| + |WithFate(service.fate, Pending)| + |service.replies| + |WithFate(service.fate, Dropped)|
            == |service.arrivals|
    ensures forall q | q in service.fate :: service.fate[q] == Pending <==> InIndex(service.pending, q)
  {
    FatesPartition(service.fate);
    QueuedOnce(service.fate, service.arrivals, service.queue, service.head);
    AnsweredOnce(service.fate, service.replies);
  }
}

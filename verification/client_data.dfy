/** The client side of a service: numbered requests, and replies that wait to be taken. */
module Clients {
  import opened Options
  import opened KeepLast
  import opened EventManagers
  import opened Services

  /** A reply as it arrives: the sample of a successful one has a payload and, normally, an attachment. */
  datatype ZenohReply = ZenohReply(ok: bool, payload: seq<int>, attachment: Option<Attachment>, receivedAt: int)

  class ClientData {
    const keepAll: bool
    const depth: nat
    const gid: string
    const decodes: seq<int> -> bool
    const callbacks: DataCallbackManager
    var queue: seq<ZenohReply>
    var sequenceNumber: int
    var isShutdown: bool
    ghost var arrivals: seq<ZenohReply>
    ghost var head: nat
    ghost var requests: seq<Attachment>  // what was attached to the requests that were sent

    constructor (keepAll: bool, depth: nat, gid: string, decodes: seq<int> -> bool)
      requires depth >= 1
      ensures Valid() && arrivals == [] && requests == [] && !isShutdown && fresh(callbacks)
      ensures this.keepAll == keepAll && this.depth == depth && this.gid == gid && this.decodes == decodes
    {
      this.keepAll, this.depth, this.gid, this.decodes := keepAll, depth, gid, decodes;
      callbacks := new DataCallbackManager();
      queue, sequenceNumber, isShutdown := [], 1, false;
      arrivals, head, requests := [], 0, [];
    }

    /** The `i`-th request carries the number `i + 1`, so no two requests of a client share one. */
    ghost predicate Valid()
      reads this, callbacks
    {
      && callbacks.Valid() && callbacks.triggers == |arrivals|
      && Bounded(queue, keepAll, depth) && Holds(queue, arrivals, head)
      && sequenceNumber == |requests| + 1
      && forall i | 0 <= i < |requests| :: requests[i].sequence == i + 1 && requests[i].gid == gid
    }

    /** `add_new_reply`, up to the notification of a wait set. */
    method AddNewReply(r: ZenohReply)
      requires Valid()
      modifies this`queue, this`arrivals, this`head, callbacks
      ensures Valid()
      ensures arrivals == old(arrivals) + [r]
      ensures queue == (if !keepAll && |old(queue)| >= depth then old(queue)[1..] else old(queue)) + [r]
    {
      if !keepAll && |queue| >= depth {
        PopHolds(queue, arrivals, head);
        queue := queue[1..];
        head := head + 1;
      }
      PushHolds(queue, arrivals, head, r);
      queue := queue + [r];
      arrivals := arrivals + [r];
      callbacks.Trigger();
    }

    /** `take_response`: the oldest waiting reply, in the order of arrival. */
    method TakeResponse() returns (ret: Ret, taken: bool, header: Option<RequestHeader>)
      requires Valid()
      modifies this`queue, this`head
      ensures Valid()
      ensures isShutdown || old(queue) == [] ==> ret == Ok && !taken && queue == old(queue) && head == old(head)
      ensures !isShutdown && old(queue) != [] ==>
                var r := old(queue)[0];
                && r == arrivals[old(head)] && head == old(head) + 1 && queue == old(queue)[1..]
                && (taken <==>
                      && r.ok && r.payload != [] && decodes(r.payload)
                      && r.attachment.Some? && r.attachment.value.sequence >= 0 && r.attachment.value.timestamp >= 0)
                && ret == (if taken then Ok else Error)
                && header == (if taken
                              then Some(RequestHeader(r.attachment.value.sequence, r.attachment.value.gid,
                                                      r.attachment.value.timestamp, r.receivedAt))
                              else None)
    {
      taken, header := false, None;
      if isShutdown || queue == [] {
        return Ok, taken, header;
      }
      PopHolds(queue, arrivals, head);
      var r := queue[0];
      queue := queue[1..];
      head := head + 1;
      if !r.ok { return Error, taken, header; }
      if r.payload == [] { return Error, taken, header; }
      if r.attachment.None? { return Error, taken, header; }
      if !decodes(r.payload) { return Error, taken, header; }
      var a := r.attachment.value;
      if a.sequence < 0 { return Error, taken, header; }
      if a.timestamp < 0 { return Error, taken, header; }
      return Ok, true, Some(RequestHeader(a.sequence, a.gid, a.timestamp, r.receivedAt));
    }

    /** `send_request`; a number is used up as soon as the request is serialized, whether or not it is sent. */
    method SendRequest(gotBuffer: bool, serialized: bool, now: int, sent: bool)
      returns (ret: Ret, sequence: Option<int>)
      requires Valid()
      modifies this`sequenceNumber, this`requests
      ensures Valid()
      ensures isShutdown ==> ret == Ok && sequence == None
      ensures sequence.Some? <==> !isShutdown && gotBuffer && serialized
      ensures sequence.None? ==> requests == old(requests)
      ensures sequence.Some? ==>
                && requests == old(requests) + [Attachment(sequence.value, now, gid)]
                && forall i | 0 <= i < |old(requests)| :: old(requests)[i].sequence < sequence.value
      ensures !isShutdown ==> ret == if gotBuffer && serialized && sent then Ok else Error
    {
      sequence := None;
      if isShutdown {
        return Ok, None;
      }
      if !gotBuffer {
        return Error, None;
      }
      if !serialized {
        return Error, None;
      }
      sequence := Some(sequenceNumber);
      sequenceNumber := sequenceNumber + 1;
      requests := requests + [Attachment(sequence.value, now, gid)];
      if !sent {
        return Error, sequence;
      }
      return Ok, sequence;
    }
  }
}

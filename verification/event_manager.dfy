/** Event statuses, callbacks and their backlogs of one entity. */
module EventManagers {
  import opened CTypes
  import opened EventIds
  import opened Options

  const EVENT_COUNT: nat := EVENT_ID_MAX + 1

  // ----- new-data callbacks

  /** A callback is a number; `delivered` counts the events callbacks were told of. */
  class DataCallbackManager {
    var callback: Option<int>
    var unread: nat
    ghost var delivered: nat
    ghost var triggers: nat

    constructor ()
      ensures Valid() && triggers == 0 && delivered == 0 && callback == None
    {
      callback, unread, delivered, triggers := None, 0, 0, 0;
    }

    /** Nothing is lost and nothing told twice; nothing waits while a callback is set. */
    ghost predicate Valid()
      reads this
    {
      delivered + unread == triggers && (callback.Some? ==> unread == 0)
    }

    method SetCallback(cb: Option<int>)
      requires Valid()
      modifies this
      ensures Valid() && triggers == old(triggers) && callback == cb
      ensures cb.Some? ==> delivered == triggers
      ensures cb.None? ==> delivered == old(delivered)
    {
      if cb.Some? {
        if unread != 0 {
          delivered := delivered + unread;
          unread := 0;
        }
      }
      callback := cb;
    }

    method Trigger()
      requires Valid()
      modifies this`unread, this`delivered, this`triggers
      ensures Valid() && triggers == old(triggers) + 1
      ensures callback.Some? ==> delivered == triggers
      ensures callback.None? ==> delivered == old(delivered)
    {
      if callback.Some? {
        delivered := delivered + 1;
      } else {
        unread := unread + 1;
      }
      triggers := triggers + 1;
    }
  }

  // ----- event statuses

  datatype EventStatus = EventStatus(
    totalCount: nat,
    totalCountChange: nat,
    currentCount: nat,
    currentCountChange: int,
    changed: bool)

  const NEW_STATUS := EventStatus(0, 0, 0, 0, false)

  function Sum(changes: seq<int>): int {
    if changes == [] then 0 else Sum(changes[..|changes| - 1]) + changes[|changes| - 1]
  }

  /** The sum of the positive changes. */
  function Gains(changes: seq<int>): nat {
    if changes == [] then 0
    else Gains(changes[..|changes| - 1]) + if changes[|changes| - 1] > 0 then changes[|changes| - 1] else 0
  }

  lemma {:induction false} SumSplits(a: seq<int>, b: seq<int>)
    ensures Sum(a + b) == Sum(a) + Sum(b) && Gains(a + b) == Gains(a) + Gains(b)
  {
    if b == [] {
      assert a + b == a;
    } else {
      SumSplits(a, b[..|b| - 1]);
      assert (a + b)[..|a + b| - 1] == a + b[..|b| - 1];
    }
  }

  /** What a status says about the changes so far, of which the first `seen` have been taken. */
  ghost predicate Tells(s: EventStatus, changes: seq<int>, seen: nat) {
    && seen <= |changes|
    && s.totalCount == Gains(changes) % SIZE_MODULUS
    && s.totalCountChange == Gains(changes[seen..]) % SIZE_MODULUS
    && s.currentCount == Sum(changes) % SIZE_MODULUS
    && s.currentCountChange == Sum(changes[seen..])
    && (s.changed <==> seen < |changes|)
  }

  function Updated(s: EventStatus, change: int): EventStatus {
    var gain := if change > 0 then change else 0;
    EventStatus(AddSize(s.totalCount, gain), AddSize(s.totalCountChange, gain), AddSize(s.currentCount, change),
                s.currentCountChange + change, true)
  }

  function Reset(s: EventStatus): EventStatus {
    s.(currentCountChange := 0, totalCountChange := 0, changed := false)
  }

  lemma ModAdd(a: int, b: int)
    ensures (a % SIZE_MODULUS + b) % SIZE_MODULUS == (a + b) % SIZE_MODULUS
  {
    var q := a / SIZE_MODULUS;
    assert a + b == (a % SIZE_MODULUS + b) + q * SIZE_MODULUS;
  }

  lemma UpdateTells(s: EventStatus, changes: seq<int>, seen: nat, change: int)
    requires Tells(s, changes, seen)
    ensures Tells(Updated(s, change), changes + [change], seen)
  {
    var gain := if change > 0 then change else 0;
    assert (changes + [change])[seen..] == changes[seen..] + [change];
    assert (changes + [change])[..|changes|] == changes;
    assert (changes[seen..] + [change])[..|changes[seen..]|] == changes[seen..];
    ModAdd(Gains(changes), gain);
    ModAdd(Gains(changes[seen..]), gain);
    ModAdd(Sum(changes), change);
  }

  lemma ResetTells(s: EventStatus, changes: seq<int>, seen: nat)
    requires Tells(s, changes, seen)
    ensures Tells(Reset(s), changes, |changes|)
  {
    assert changes[|changes|..] == [];
  }

  /** What the takes have returned is what the changes they have seen come to. */
  ghost predicate TakenSoFar(changes: seq<int>, seen: nat, taken: int, takenTotal: nat) {
    && seen <= |changes|
    && taken == Sum(changes[..seen])
    && takenTotal % SIZE_MODULUS == Gains(changes[..seen]) % SIZE_MODULUS
  }

  lemma TakenStays(changes: seq<int>, seen: nat, taken: int, takenTotal: nat, change: int)
    requires TakenSoFar(changes, seen, taken, takenTotal)
    ensures TakenSoFar(changes + [change], seen, taken, takenTotal)
  {
    assert (changes + [change])[..seen] == changes[..seen];
  }

  lemma TakenMore(s: EventStatus, changes: seq<int>, seen: nat, taken: int, takenTotal: nat)
    requires Tells(s, changes, seen) && TakenSoFar(changes, seen, taken, takenTotal)
    ensures TakenSoFar(changes, |changes|, taken + s.currentCountChange, takenTotal + s.totalCountChange)
    ensures (taken + s.currentCountChange) % SIZE_MODULUS == s.currentCount
    ensures (takenTotal + s.totalCountChange) % SIZE_MODULUS == s.totalCount
  {
    SumSplits(changes[..seen], changes[seen..]);
    assert changes[..seen] + changes[seen..] == changes && changes[..|changes|] == changes;
    ModSum(takenTotal, Gains(changes[..seen]), Gains(changes[seen..]));
  }

  lemma ModSum(a: int, b: int, c: int)
    requires a % SIZE_MODULUS == b % SIZE_MODULUS
    ensures (a + c % SIZE_MODULUS) % SIZE_MODULUS == (b + c) % SIZE_MODULUS
  {
    ModAdd(c, a);
    ModAdd(a, c);
    ModAdd(b, c);
  }

  lemma NothingYet()
    ensures Tells(NEW_STATUS, [], 0) && TakenSoFar([], 0, 0, 0)
  {
  }

  class EventsManager {
    const callbacks: array<Option<int>>
    const unread: array<nat>
    const statuses: array<EventStatus>
    ghost var delivered: seq<nat>
    ghost var changes: seq<seq<int>>  // for each event, the changes so far
    ghost var seen: seq<nat>          // how many of them have been taken
    ghost var taken: seq<int>         // what the takes returned as change of the current count, added up
    ghost var takenTotal: seq<nat>    // what they returned as change of the total count, added up

    constructor ()
      ensures Valid() && fresh(Repr())
      ensures forall i | 0 <= i < EVENT_COUNT ::
                changes[i] == [] && seen[i] == 0 && taken[i] == takenTotal[i] == 0 && callbacks[i] == None
    {
      NothingYet();
      callbacks := new Option<int>[EVENT_COUNT](_ => None);
      unread := new nat[EVENT_COUNT](_ => 0);
      statuses := new EventStatus[EVENT_COUNT](_ => NEW_STATUS);
      delivered := seq(EVENT_COUNT, _ => 0);
      changes := seq(EVENT_COUNT, _ => []);
      seen := seq(EVENT_COUNT, _ => 0);
      taken := seq(EVENT_COUNT, _ => 0);
      takenTotal := seq(EVENT_COUNT, _ => 0);
    }

    function Repr(): set<object> {
      {this, callbacks, unread, statuses}
    }

    /** Every status tells the truth, every change is told to a callback or waits for one, and the takes returned
        what had changed by then. */
    ghost predicate Valid()
      reads Repr()
    {
      && callbacks.Length == unread.Length == statuses.Length == EVENT_COUNT
      && |delivered| == |changes| == |seen| == |taken| == |takenTotal| == EVENT_COUNT
      && (forall i | 0 <= i < EVENT_COUNT :: Tells(statuses[i], changes[i], seen[i]))
      && (forall i | 0 <= i < EVENT_COUNT :: TakenSoFar(changes[i], seen[i], taken[i], takenTotal[i]))
      && (forall i | 0 <= i < EVENT_COUNT ::
            delivered[i] + unread[i] == |changes[i]| && (callbacks[i].Some? ==> unread[i] == 0))
    }

    /** `event_set_callback`: a callback first learns, in one call, of all that waited. */
    method SetCallback(id: nat, cb: Option<int>)
      requires Valid()
      modifies callbacks, unread, this`delivered
      ensures Valid() && changes == old(changes) && seen == old(seen)
      ensures id <= EVENT_ID_MAX ==>
                callbacks[id] == cb && delivered[id] == if cb.Some? then |changes[id]| else old(delivered[id])
      ensures forall i | 0 <= i < EVENT_COUNT && i != id ::
                callbacks[i] == old(callbacks[i]) && delivered[i] == old(delivered[i])
    {
      if id > EVENT_ID_MAX {
        return;
      }
      callbacks[id] := cb;
      if cb.Some? && unread[id] != 0 {
        delivered := delivered[id := delivered[id] + unread[id]];
        unread[id] := 0;
      }
    }

    method TriggerCallback(id: nat)
      requires callbacks.Length == unread.Length == |delivered| == EVENT_COUNT
      requires id < EVENT_COUNT ==> (callbacks[id].Some? ==> unread[id] == 0)
      modifies unread, this`delivered
      ensures |delivered| == EVENT_COUNT
      ensures forall i | 0 <= i < EVENT_COUNT && i != id ::
                unread[i] == old(unread[i]) && delivered[i] == old(delivered[i])
      ensures id < EVENT_COUNT ==>
                && delivered[id] + unread[id] == old(delivered[id] + unread[id]) + 1
                && delivered[id] == old(delivered[id]) + if callbacks[id].Some? then 1 else 0
    {
      if id > EVENT_ID_MAX {
        return;
      }
      if callbacks[id].Some? {
        delivered := delivered[id := delivered[id] + 1];
      } else {
        unread[id] := unread[id] + 1;
      }
    }

    /** `update_event_status`, up to the notification of a wait set. */
    method UpdateStatus(id: nat, change: int)
      requires Valid()
      modifies statuses, unread, this`delivered, this`changes
      ensures Valid() && seen == old(seen) && taken == old(taken) && takenTotal == old(takenTotal)
      ensures changes == if id <= EVENT_ID_MAX then old(changes)[id := old(changes)[id] + [change]] else old(changes)
      ensures forall i | 0 <= i < EVENT_COUNT ::
                delivered[i] == old(delivered[i]) + if i == id && callbacks[i].Some? then 1 else 0
    {
      if id > EVENT_ID_MAX {
        return;
      }
      UpdateTells(statuses[id], changes[id], seen[id], change);
      TakenStays(changes[id], seen[id], taken[id], takenTotal[id], change);
      statuses[id] := Updated(statuses[id], change);
      changes := changes[id := changes[id] + [change]];
      TriggerCallback(id);
    }

    /** `take_event_status`: what changed since the last take, exactly; `None` where the source throws. */
    method TakeStatus(id: nat) returns (status: Option<EventStatus>)
      requires Valid()
      modifies statuses, this`seen, this`taken, this`takenTotal
      ensures Valid() && changes == old(changes)
      ensures status.Some? <==> id <= EVENT_ID_MAX
      ensures status.Some? ==> Tells(status.value, changes[id], old(seen)[id])
      ensures seen == if id <= EVENT_ID_MAX then old(seen)[id := |changes[id]|] else old(seen)
      ensures status.None? ==> taken == old(taken) && takenTotal == old(takenTotal)
      ensures status.Some? ==>
                && taken == old(taken)[id := old(taken)[id] + status.value.currentCountChange]
                && takenTotal == old(takenTotal)[id := old(takenTotal)[id] + status.value.totalCountChange]
    {
      if id > EVENT_ID_MAX {
        return None;
      }
      status := Some(statuses[id]);
      ResetTells(statuses[id], changes[id], seen[id]);
      TakenMore(statuses[id], changes[id], seen[id], taken[id], takenTotal[id]);
      taken := taken[id := taken[id] + statuses[id].currentCountChange];
      takenTotal := takenTotal[id := takenTotal[id] + statuses[id].totalCountChange];
      statuses[id] := Reset(statuses[id]);
      seen := seen[id := |changes[id]|];
    }
  }

  /** What successive takes returned, with what is pending, is what has changed in all: nothing is reported twice or
      lost between two takes. The `size_t` counts agree in their range. */
  lemma TakenAndPending(m: EventsManager, id: nat)
    requires m.Valid() && id < EVENT_COUNT
    ensures m.taken[id] + m.statuses[id].currentCountChange == Sum(m.changes[id])
    ensures (m.taken[id] + m.statuses[id].currentCountChange) % SIZE_MODULUS == m.statuses[id].currentCount
    ensures (m.takenTotal[id] + m.statuses[id].totalCountChange) % SIZE_MODULUS == m.statuses[id].totalCount
    ensures (m.takenTotal[id] + m.statuses[id].totalCountChange) % SIZE_MODULUS == Gains(m.changes[id]) % SIZE_MODULUS
  {
    TakenMore(m.statuses[id], m.changes[id], m.seen[id], m.taken[id], m.takenTotal[id]);
    assert m.changes[id][..|m.changes[id]|] == m.changes[id];
  }
}

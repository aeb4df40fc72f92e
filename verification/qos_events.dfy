/** The event callbacks of a graph cache and the changes that wait for one: what `events_mutex_` guards. */
module QosEvents {
  import opened EventIds
  import opened Options

  const SUBSCRIPTION_MATCHED: int := 4
  const PUBLICATION_MATCHED: int := 7

  /** A change of an event of an entity; entities are known here by their `gid_hash`. */
  datatype Report = Report(id: int, event: int, change: int)

  /** One invocation of a user callback. */
  datatype Delivery = Delivery(callback: int, report: Report)

  /** The sum of the changes reported for an event of an entity. */
  function Total(log: seq<Report>, id: int, event: int): int {
    if log == [] then 0
    else
      var r := log[|log| - 1];
      Total(log[..|log| - 1], id, event) + if r.id == id && r.event == event then r.change else 0
  }

  lemma {:induction false} TotalOfAppend(a: seq<Report>, b: seq<Report>, id: int, event: int)
    ensures Total(a + b, id, event) == Total(a, id, event) + Total(b, id, event)
  {
    if b == [] {
      assert a + b == a;
    } else {
      var init := b[..|b| - 1];
      TotalOfAppend(a, init, id, event);
      assert (a + b)[..|a + b| - 1] == a + init;
    }
  }

  function DeliveredTo(log: seq<Delivery>, id: int, event: int): int {
    if log == [] then 0
    else
      var r := log[|log| - 1].report;
      DeliveredTo(log[..|log| - 1], id, event) + if r.id == id && r.event == event then r.change else 0
  }

  /** A callback is a number. */
  class EventLedger {
    var callbacks: map<int, map<int, int>>
    var unregistered: map<int, map<int, int>>
    ghost var delivered: seq<Delivery>
    ghost var reports: seq<Report>

    constructor ()
      ensures Valid() && callbacks == map[] && reports == [] && delivered == []
    {
      callbacks := map[];
      unregistered := map[];
      delivered := [];
      reports := [];
    }

    function CallbackOf(id: int, event: int): Option<int>
      reads this
    {
      if id in callbacks && event in callbacks[id] then Some(callbacks[id][event]) else None
    }

    function Stored(id: int, event: int): int
      reads this
    {
      if id in unregistered && event in unregistered[id] then unregistered[id][event] else 0
    }

    /** What callbacks received and what waits for one add up to what was reported; no empty inner map is kept;
        nothing waits for a callback that is registered. */
    ghost predicate Valid()
      reads this
    {
      && (forall id, event {:trigger DeliveredTo(delivered, id, event)} ::
            DeliveredTo(delivered, id, event) + Stored(id, event) == Total(reports, id, event))
      && (forall id | id in unregistered :: unregistered[id] != map[])
      && (forall id | id in unregistered && id in callbacks :: unregistered[id].Keys !! callbacks[id].Keys)
    }

    /** `update_event_counters`. */
    method UpdateCounters(id: int, event: int, change: int)
      requires Valid()
      modifies this`unregistered, this`delivered, this`reports
      ensures Valid()
      ensures reports == old(reports) + if event <= EVENT_ID_MAX then [Report(id, event, change)] else []
      ensures delivered == old(delivered) +
                if CallbackOf(id, event).Some? && event <= EVENT_ID_MAX
                then [Delivery(CallbackOf(id, event).value, Report(id, event, change))] else []
    {
      if event > EVENT_ID_MAX {
        return;
      }
      reports := reports + [Report(id, event, change)];
      if id in callbacks && event in callbacks[id] {
        delivered := delivered + [Delivery(callbacks[id][event], Report(id, event, change))];
        return;
      }
      Store(id, event, change);
    }

    method Store(id: int, event: int, change: int)
      modifies this`unregistered
      requires forall i | i in unregistered :: unregistered[i] != map[]
      ensures forall i | i in unregistered :: unregistered[i] != map[]
      ensures unregistered.Keys == old(unregistered).Keys + {id}
      ensures forall i | i in old(unregistered) && i != id :: unregistered[i] == old(unregistered)[i]
      ensures unregistered[id].Keys == {event} + if id in old(unregistered) then old(unregistered)[id].Keys else {}
      ensures forall i, v :: Stored(i, v) == old(Stored(i, v)) + if i == id && v == event then change else 0
    {
      if id !in unregistered {
        unregistered := unregistered[id := map[event := change]];
      } else if event !in unregistered[id] {
        unregistered := unregistered[id := unregistered[id][event := change]];
      } else {
        unregistered := unregistered[id := unregistered[id][event := unregistered[id][event] + change]];
      }
      assert event in unregistered[id];
    }

    /** `set_qos_event_callback`: a new callback first receives, in one call, all that waited for it. */
    method SetCallback(id: int, event: int, callback: int)
      requires Valid()
      modifies this
      ensures Valid()
      ensures reports == old(reports)
      ensures event <= EVENT_ID_MAX ==> Stored(id, event) == 0
      ensures forall i, v :: CallbackOf(i, v) ==
                if i == id && v == event && event <= EVENT_ID_MAX then Some(callback) else old(CallbackOf(i, v))
      ensures delivered == old(delivered) +
                if event <= EVENT_ID_MAX && id in old(unregistered) && event in old(unregistered)[id]
                then [Delivery(callback, Report(id, event, old(unregistered)[id][event]))] else []
    {
      if event > EVENT_ID_MAX {
        return;
      }
      if id !in callbacks {
        callbacks := callbacks[id := map[event := callback]];
      } else {
        callbacks := callbacks[id := callbacks[id][event := callback]];
      }
      if id in unregistered && event in unregistered[id] {
        delivered := delivered + [Delivery(callbacks[id][event], Report(id, event, unregistered[id][event]))];
        Forget(id, event);
      }
    }

    method Forget(id: int, event: int)
      requires id in unregistered && event in unregistered[id]
      requires forall i | i in unregistered :: unregistered[i] != map[]
      modifies this`unregistered
      ensures forall i | i in unregistered :: unregistered[i] != map[]
      ensures unregistered.Keys <= old(unregistered).Keys
      ensures forall i | i in unregistered ::
                unregistered[i].Keys == old(unregistered)[i].Keys - if i == id then {event} else {}
      ensures forall i, v :: Stored(i, v) == if i == id && v == event then 0 else old(Stored(i, v))
    {
      var rest := unregistered[id] - {event};
      assert forall v | v in unregistered[id] && v != event :: v in rest;
      if rest == map[] {
        unregistered := unregistered - {id};
      } else {
        unregistered := unregistered[id := rest];
      }
    }

    /** `remove_qos_event_callbacks`. */
    method RemoveCallbacks(id: int)
      requires Valid()
      modifies this`callbacks
      ensures Valid()
      ensures forall i, v :: CallbackOf(i, v) == if i == id then None else old(CallbackOf(i, v))
    {
      callbacks := callbacks - {id};
    }
  }
}

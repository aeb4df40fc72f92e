/** Guard conditions, and the passes of `rmw_wait` over an array of them, as one thread runs them. What other
    threads may do in between is the subject of `WaitProtocol`. */
module GuardConditions {
  class WaitSetData {
    var triggered: bool

    constructor ()
      ensures !triggered
    {
      triggered := false;
    }
  }

  class GuardCondition {
    var hasTriggered: bool
    var waitSet: WaitSetData?

    constructor ()
      ensures !hasTriggered && waitSet == null
    {
      hasTriggered, waitSet := false, null;
    }

    method Trigger()
      modifies this`hasTriggered, waitSet
      ensures hasTriggered && waitSet == old(waitSet) && (waitSet != null ==> waitSet.triggered)
    {
      hasTriggered := true;
      if waitSet != null {
        waitSet.triggered := true;
      }
    }

    method CheckAndAttachConditionIfNot(ws: WaitSetData) returns (ready: bool)
      modifies this`waitSet
      ensures ready == hasTriggered
      ensures waitSet == if ready then old(waitSet) else ws
    {
      if hasTriggered {
        return true;
      }
      waitSet := ws;
      return false;
    }

    method DetachConditionAndIsTriggerSet() returns (ready: bool)
      modifies this
      ensures ready == old(hasTriggered) && !hasTriggered && waitSet == null
    {
      waitSet := null;
      ready := hasTriggered;
      hasTriggered := false;
    }
  }

  predicate ReadySlot(slots: seq<GuardCondition?>, i: nat)
    requires i < |slots|
    reads slots[i]
  {
    slots[i] != null && slots[i].hasTriggered
  }

  /** The slots from which the caller will learn that a condition was ready: those that hold a triggered
      condition that no earlier slot holds. */
  predicate Reported(slots: seq<GuardCondition?>, i: nat)
    requires i < |slots|
    reads slots[i]
  {
    ReadySlot(slots, i) && slots[i] !in slots[..i]
  }

  /** The guard conditions' part of `check_and_attach_condition`. */
  method CheckAndAttach(slots: array<GuardCondition?>, ws: WaitSetData) returns (skip: bool)
    modifies set i | 0 <= i < slots.Length && slots[i] != null :: slots[i]`waitSet, ws
    ensures slots[..] == old(slots[..])
    ensures skip <==> exists i :: 0 <= i < slots.Length && ReadySlot(slots[..], i)
    ensures !skip ==> !ws.triggered && forall i | 0 <= i < slots.Length && slots[i] != null :: slots[i].waitSet == ws
    ensures skip ==> ws.triggered == old(ws.triggered)
    ensures forall i | 0 <= i < slots.Length && slots[i] != null :: slots[i].hasTriggered == old(slots[i].hasTriggered)
  {
    for i := 0 to slots.Length
      invariant ws.triggered == old(ws.triggered)
      invariant forall j | 0 <= j < slots.Length && slots[j] != null ::
          slots[j].hasTriggered == old(slots[j].hasTriggered)
      invariant forall j | 0 <= j < i && slots[j] != null :: !slots[j].hasTriggered && slots[j].waitSet == ws
    {
      if slots[i] != null {
        var ready := slots[i].CheckAndAttachConditionIfNot(ws);
        if ready {
          assert ReadySlot(slots[..], i);
          return true;
        }
      }
    }
    ws.triggered := false;
    return false;
  }

  ghost predicate FirstHot(slots: seq<GuardCondition?>, hot: set<GuardCondition?>, i: nat)
    requires i < |slots|
  {
    slots[i] in hot && slots[i] !in slots[..i]
  }

  /** The slots after `i` rounds of the last pass, when `hot` are the triggered conditions. */
  ghost function Kept(slots: seq<GuardCondition?>, hot: set<GuardCondition?>, i: nat): (r: seq<GuardCondition?>)
    requires i <= |slots|
    ensures |r| == |slots|
    ensures forall j | 0 <= j < |slots| :: r[j] == if j < i && !FirstHot(slots, hot, j) then null else slots[j]
  {
    if i == 0 then slots
    else if FirstHot(slots, hot, i - 1) then Kept(slots, hot, i - 1)
    else Kept(slots, hot, i - 1)[i - 1 := null]
  }

  ghost predicate HotBefore(slots: seq<GuardCondition?>, hot: set<GuardCondition?>, i: nat)
    requires i <= |slots|
  {
    exists j :: 0 <= j < i && slots[j] in hot
  }

  lemma HotNext(slots: seq<GuardCondition?>, hot: set<GuardCondition?>, i: nat)
    requires i < |slots|
    ensures HotBefore(slots, hot, i + 1) <==> HotBefore(slots, hot, i) || FirstHot(slots, hot, i)
  {
    if slots[i] in hot && slots[i] in slots[..i] {
      var j :| 0 <= j < i && slots[j] == slots[i];
      assert HotBefore(slots, hot, i);
    }
  }

  /** The conditions of the first `i` slots are detached and cleared, the flags of the others are as they were. */
  ghost predicate DetachedUpTo(slots: seq<GuardCondition?>, hot: set<GuardCondition?>, i: nat)
    requires i <= |slots|
    reads slots
  {
    && (forall j | 0 <= j < i && slots[j] != null :: !slots[j].hasTriggered && slots[j].waitSet == null)
    && (forall j | i <= j < |slots| && slots[j] != null && slots[j] !in slots[..i] ::
          slots[j].hasTriggered == (slots[j] in hot))
  }

  lemma FlagOfNext(slots: seq<GuardCondition?>, hot: set<GuardCondition?>, i: nat)
    requires i < |slots| && DetachedUpTo(slots, hot, i) && null !in hot
    ensures ReadySlot(slots, i) == FirstHot(slots, hot, i)
    ensures slots[..i + 1] == slots[..i] + [slots[i]]
  {
  }

  /** One round of the last pass. */
  method DetachSlot(slots: array<GuardCondition?>, i: nat) returns (wasReady: bool)
    requires i < slots.Length
    modifies slots, if slots[i] == null then {} else {slots[i]}
    ensures slots[..] == if wasReady then old(slots[..]) else old(slots[..])[i := null]
    ensures wasReady == old(ReadySlot(slots[..], i))
    ensures old(slots[i]) != null ==> !old(slots[i]).hasTriggered && old(slots[i]).waitSet == null
  {
    wasReady := false;
    if slots[i] != null {
      wasReady := slots[i].DetachConditionAndIsTriggerSet();
      if !wasReady {
        slots[i] := null;
      }
    }
  }

  method DetachNext(
    slots: array<GuardCondition?>, i: nat, ready: bool, ghost before: seq<GuardCondition?>,
    ghost hot: set<GuardCondition?>) returns (ready': bool)
    requires i < slots.Length == |before| && null !in hot
    requires slots[..] == Kept(before, hot, i) && DetachedUpTo(before, hot, i) && ready == HotBefore(before, hot, i)
    modifies slots, if before[i] == null then {} else {before[i]}
    ensures slots[..] == Kept(before, hot, i + 1) && DetachedUpTo(before, hot, i + 1)
    ensures ready' == HotBefore(before, hot, i + 1)
  {
    FlagOfNext(before, hot, i);
    HotNext(before, hot, i);
    assert slots[i] == slots[..][i] == before[i];
    var wasReady := DetachSlot(slots, i);
    ready' := ready || wasReady;
  }

  /** The last pass of `rmw_wait`: every slot is detached and cleared, and set to null unless its condition was
      ready when its turn came. */
  method DetachAll(slots: array<GuardCondition?>) returns (ready: bool)
    modifies slots, set i | 0 <= i < slots.Length && slots[i] != null :: slots[i]
    ensures forall i | 0 <= i < slots.Length ::
              slots[i] == if old(Reported(slots[..], i)) then old(slots[i]) else null
    ensures ready <==> exists i :: 0 <= i < slots.Length && old(ReadySlot(slots[..], i))
    ensures forall i | 0 <= i < slots.Length && old(slots[i]) != null ::
              !old(slots[i]).hasTriggered && old(slots[i]).waitSet == null
  {
    ghost var before := slots[..];
    ghost var hot := set i | 0 <= i < |before| && ReadySlot(before, i) :: before[i];
    ready := false;
    for i := 0 to slots.Length
      invariant slots[..] == Kept(before, hot, i) && DetachedUpTo(before, hot, i)
      invariant ready == HotBefore(before, hot, i)
    {
      ready := DetachNext(slots, i, ready, before, hot);
    }
    forall i | 0 <= i < slots.Length ensures FirstHot(before, hot, i) == old(Reported(before, i)) {
    }
  }

  /** `rmw_wait` on guard conditions with a zero timeout, run without interference: it reports exactly the ready
      ones, says so in its result, and leaves nothing attached and nothing to end a later wait early. */
  method WaitZero(slots: array<GuardCondition?>, ws: WaitSetData) returns (ok: bool)
    modifies slots, ws, set i | 0 <= i < slots.Length && slots[i] != null :: slots[i]
    ensures ok <==> exists i :: 0 <= i < slots.Length && old(ReadySlot(slots[..], i))
    ensures forall i | 0 <= i < slots.Length ::
              slots[i] == if old(Reported(slots[..], i)) then old(slots[i]) else null
    ensures forall i | 0 <= i < slots.Length && old(slots[i]) != null ::
              !old(slots[i]).hasTriggered && old(slots[i]).waitSet == null
    ensures ws.triggered == (ok && old(ws.triggered))
  {
    ghost var before := slots[..];
    var skip := CheckAndAttach(slots, ws);
    if !skip {
      ws.triggered := false;
    }
    assert slots[..] == before;
    assert forall i | 0 <= i < slots.Length :: ReadySlot(slots[..], i) == old(ReadySlot(before, i));
    ok := DetachAll(slots);
  }
}

/** What a call of `rmw_wait` reports, over whole runs of the protocol. */
module WaitResults {
  import opened WaitProtocol
  import opened WaitSafety

  predicate NoTakes(acts: seq<Action>) {
    forall i | 0 <= i < |acts| :: !acts[i].Take?
  }

  /** The run stays inside one call of `rmw_wait`. */
  predicate NoEnter(acts: seq<Action>) {
    forall i | 0 <= i < |acts| :: !acts[i].Enter?
  }

  // ----- every entity with data is reported

  predicate Pending(s: State, i: nat) {
    i < |s.entries| && if i < |s.slots| then s.slots[i] else s.entries[i] in s.ready
  }

  lemma StepKeepsPending(s: State, a: Action, i: nat)
    requires Inv(s) && Enabled(s, a) && !a.Take? && !a.Enter? && s.pc != Outside
    requires Pending(s, i) && forall j | 0 <= j < i :: s.entries[j] != s.entries[i]
    ensures Pending(Step(s, a), i) && Step(s, a).entries == s.entries
  {
  }

  /** Without concurrent takers, an entity that has data at some moment of the call is reported ready in its
      first slot, whatever the other threads do and whether or not the call slept. */
  lemma {:induction false} AllReadyReported(s: State, acts: seq<Action>, i: nat)
    requires Inv(s) && s.pc != Outside && ValidRun(s, acts) && NoTakes(acts) && NoEnter(acts)
    requires Pending(s, i) && forall j | 0 <= j < i :: s.entries[j] != s.entries[i]
    requires Final(s, acts).pc == Outside
    ensures i < |Final(s, acts).slots| && Final(s, acts).slots[i]
    decreases acts
  {
    if acts != [] {
      StepInv(s, acts[0]);
      StepKeepsPending(s, acts[0], i);
      var s' := Step(s, acts[0]);
      if s'.pc == Outside {
        StaysOutside(s', acts[1..]);
      } else {
        AllReadyReported(s', acts[1..], i);
      }
    }
  }

  lemma {:induction false} StaysOutside(s: State, acts: seq<Action>)
    requires Inv(s) && s.pc == Outside && ValidRun(s, acts) && NoEnter(acts)
    ensures Final(s, acts).pc == Outside
    ensures Final(s, acts).slots == s.slots && Final(s, acts).entries == s.entries
    decreases acts
  {
    if acts != [] {
      StepInv(s, acts[0]);
      StaysOutside(Step(s, acts[0]), acts[1..]);
    }
  }

  // ----- wake-ups and triggers have a cause

  lemma OnlySignalsWake(s: State, a: Action)
    requires Inv(s) && Enabled(s, a) && !(s.pc.Asleep? && s.triggered)
    requires Step(s, a).pc.Asleep? && Step(s, a).triggered
    ensures a.Signal? && s.pc.Asleep? && s.notifiers[a.k].pc.e in s.entries
  {
    assert a.Signal?;
    assert s.notifiers[a.k].pc.e in Entries(s.entries);
  }

  lemma EntriesFixed(s: State, a: Action)
    requires Enabled(s, a) && !a.Enter?
    ensures Step(s, a).entries == s.entries
  {
  }

  /** A stale `triggered` never ends a later wait: whenever the flag is set while the waiter sleeps, a notifier
      of an entity of this very call set it while the waiter was asleep. */
  lemma {:induction false} WakeupHasCause(s: State, acts: seq<Action>) returns (i: nat)
    requires Inv(s) && ValidRun(s, acts) && NoEnter(acts) && !(s.pc.Asleep? && s.triggered)
    requires Final(s, acts).pc.Asleep? && Final(s, acts).triggered
    ensures i < |acts| && acts[i].Signal? && ValidRun(s, acts[..i])
    ensures var t := Final(s, acts[..i]);
            t.pc.Asleep? && acts[i].k < |t.notifiers| && t.notifiers[acts[i].k].pc.AtCondition?
            && t.notifiers[acts[i].k].pc.e in s.entries
    decreases acts
  {
    var s' := Step(s, acts[0]);
    StepInv(s, acts[0]);
    EntriesFixed(s, acts[0]);
    if s'.pc.Asleep? && s'.triggered {
      i := 0;
      OnlySignalsWake(s, acts[0]);
    } else {
      var j := WakeupHasCause(s', acts[1..]);
      i := j + 1;
      assert acts[..i][1..] == acts[1..][..j];
    }
  }

  /** A guard condition stays triggered until some call of `rmw_wait` reports its slot as ready. */
  lemma {:induction false} TriggerIsReported(s: State, acts: seq<Action>, g: nat) returns (i: nat)
    requires ValidRun(s, acts) && Guard(g) in s.ready && Guard(g) !in Final(s, acts).ready
    ensures i < |acts| && acts[i] == Read && ValidRun(s, acts[..i])
    ensures var t := Final(s, acts[..i]);
            t.pc.Reading? && t.pc.i < |t.entries| && t.entries[t.pc.i] == Guard(g)
            && Enabled(t, Read) && Step(t, Read).slots == t.slots + [true]
    decreases acts
  {
    var s' := Step(s, acts[0]);
    if Guard(g) !in s'.ready {
      i := 0;
    } else {
      var j := TriggerIsReported(s', acts[1..], g);
      i := j + 1;
      assert acts[..i][1..] == acts[1..][..j];
    }
  }

  /** A report uses up the trigger: for a guard condition to be ready again after its slot was read, someone must
      trigger it again. */
  lemma ReportUsesUpTrigger(s: State, acts: seq<Action>, g: nat) returns (i: nat)
    requires Enabled(s, Read) && s.entries[s.pc.i] == Guard(g) && ValidRun(Step(s, Read), acts)
    requires Guard(g) in Final(Step(s, Read), acts).ready
    ensures i < |acts| && ValidRun(Step(s, Read), acts[..i]) && acts[i].LockEntity?
    ensures var t := Final(Step(s, Read), acts[..i]);
            acts[i].k < |t.notifiers| && t.notifiers[acts[i].k].pc == Start(Guard(g))
  {
    i := SomeoneTriggers(Step(s, Read), acts, g);
  }

  lemma {:induction false} SomeoneTriggers(s: State, acts: seq<Action>, g: nat) returns (i: nat)
    requires ValidRun(s, acts) && Guard(g) !in s.ready && Guard(g) in Final(s, acts).ready
    ensures i < |acts| && ValidRun(s, acts[..i]) && acts[i].LockEntity?
    ensures var t := Final(s, acts[..i]);
            acts[i].k < |t.notifiers| && t.notifiers[acts[i].k].pc == Start(Guard(g))
    decreases acts
  {
    var s' := Step(s, acts[0]);
    if Guard(g) in s'.ready {
      i := 0;
    } else {
      var j := SomeoneTriggers(s', acts[1..], g);
      i := j + 1;
      assert acts[..i][1..] == acts[1..][..j];
    }
  }

  /** Queued data and event statuses stay until they are taken: reporting a slot does not consume them. */
  lemma {:induction false} DataStaysUntilTaken(s: State, acts: seq<Action>, e: Entity) returns (i: nat)
    requires ValidRun(s, acts) && !e.Guard? && e in s.ready && e !in Final(s, acts).ready
    ensures i < |acts| && acts[i] == Take(e)
    decreases acts
  {
    if e !in Step(s, acts[0]).ready {
      i := 0;
    } else {
      var j := DataStaysUntilTaken(Step(s, acts[0]), acts[1..], e);
      i := j + 1;
    }
  }

  /** The steps at which the waiter begins or ends a sleep. */
  predicate Sleeps(a: Action) {
    a.FinishAttach? || a.Wake? || a.TimeUp?
  }

  /** A set flag was set after the waiter last began or ended a sleep: both clear it. */
  lemma {:induction false} FlagIsRecent(s: State, acts: seq<Action>) returns (i: int)
    requires ValidRun(s, acts) && Final(s, acts).triggered
    ensures (i == -1 && s.triggered) || (0 <= i < |acts| && acts[i].Signal?)
    ensures forall j | i < j < |acts| :: !Sleeps(acts[j])
    decreases acts
  {
    if acts == [] {
      i := -1;
    } else {
      var j := FlagIsRecent(Step(s, acts[0]), acts[1..]);
      i := if j >= 0 then j + 1 else if acts[0].Signal? then 0 else -1;
      assert forall k | 0 < k < |acts| :: acts[k] == acts[1..][k - 1];
    }
  }
}
